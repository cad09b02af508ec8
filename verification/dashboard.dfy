/** The step list of the client dashboard (frontend/src/components/Dashboard.jsx):
    `handleToggleStep` on the list of completed step numbers, the progress
    percentage and the progress message. Storage and the network call that
    follow a toggle are not modelled. */
module Dashboard {

  /** `steps.filter(s => s !== step)`. */
  function RemoveAll(steps: seq<int>, step: int): (r: seq<int>)
    ensures |r| <= |steps|
    ensures forall s :: s in r <==> s in steps && s != step
    decreases |steps|
  {
    if steps == [] then []
    else (if steps[0] == step then [] else [steps[0]]) + RemoveAll(steps[1..], step)
  }

  /** `handleToggleStep`: a completed step is removed everywhere it occurs,
      any other step is appended at the end. */
  function ToggleStep(steps: seq<int>, step: int): (r: seq<int>)
    ensures step in r <==> step !in steps
    ensures forall s | s != step :: s in r <==> s in steps
    ensures step !in steps ==> r == steps + [step]
  {
    if step in steps then RemoveAll(steps, step) else steps + [step]
  }

  /** No step occurs twice. */
  predicate NoDuplicates(steps: seq<int>) {
    forall i, j | 0 <= i < j < |steps| :: steps[i] != steps[j]
  }

  /** Removing keeps the order of the remaining steps. */
  lemma {:induction false} RemoveAllConcat(a: seq<int>, b: seq<int>, step: int)
    ensures RemoveAll(a + b, step) == RemoveAll(a, step) + RemoveAll(b, step)
  {
    if a == [] {
      assert a + b == b;
    } else {
      assert (a + b)[0] == a[0];
      assert (a + b)[1..] == a[1..] + b;
      RemoveAllConcat(a[1..], b, step);
    }
  }

  /** Removing a step that does not occur changes nothing. */
  lemma {:induction false} RemoveAllAbsent(steps: seq<int>, step: int)
    requires step !in steps
    ensures RemoveAll(steps, step) == steps
  {
    if steps != [] {
      RemoveAllAbsent(steps[1..], step);
    }
  }

  /** Removing from a duplicate-free list leaves it duplicate-free. */
  lemma {:induction false} RemoveAllNoDuplicates(steps: seq<int>, step: int)
    requires NoDuplicates(steps)
    ensures NoDuplicates(RemoveAll(steps, step))
  {
    if steps != [] {
      var tail := steps[1..];
      assert NoDuplicates(tail);
      RemoveAllNoDuplicates(tail, step);
      assert steps[0] !in tail;
      var rest := RemoveAll(tail, step);
      assert steps[0] !in rest;
      if steps[0] != step {
        var r := [steps[0]] + rest;
        forall i, j | 0 <= i < j < |r| ensures r[i] != r[j] {
          if i == 0 {
            assert r[j] == rest[j - 1];
            assert rest[j - 1] in rest;
          } else {
            assert r[i] == rest[i - 1] && r[j] == rest[j - 1];
          }
        }
      } else {
        assert [] + rest == rest;
      }
    }
  }

  /** A duplicate-free list stays duplicate-free. */
  lemma ToggleKeepsNoDuplicates(steps: seq<int>, step: int)
    requires NoDuplicates(steps)
    ensures NoDuplicates(ToggleStep(steps, step))
  {
    if step in steps {
      RemoveAllNoDuplicates(steps, step);
    } else {
      var r := steps + [step];
      forall i, j | 0 <= i < j < |r| ensures r[i] != r[j] {
        if j == |steps| {
          assert r[i] == steps[i];
        }
      }
    }
  }

  /** Toggling a step that was not completed twice restores the exact list. */
  lemma ToggleTwiceAbsent(steps: seq<int>, step: int)
    requires step !in steps
    ensures ToggleStep(ToggleStep(steps, step), step) == steps
  {
    RemoveAllConcat(steps, [step], step);
    RemoveAllAbsent(steps, step);
    assert RemoveAll([step], step) == [] + RemoveAll([], step);
  }

  /** Toggling a completed step twice keeps the same set of steps; the step
      moves to the end. */
  lemma ToggleTwicePresent(steps: seq<int>, step: int)
    requires step in steps
    ensures var r := ToggleStep(ToggleStep(steps, step), step);
            (forall s :: s in r <==> s in steps) && r == RemoveAll(steps, step) + [step]
  {
  }

  /** `progressPercentage`, in exact arithmetic. */
  function ProgressPercentage(completed: nat, total: nat): (p: real)
    ensures total == 0 ==> p == 0.0
    ensures total > 0 ==> p * (total as real) == (completed as real) * 100.0
  {
    if total > 0 then (completed as real) * 100.0 / (total as real) else 0.0
  }

  const StartMessage := "Let's start your journey!"
  const GreatStartMessage := "Great start! Keep going!"
  const ExcellentMessage := "You're making excellent progress!"
  const CongratulationsMessage := "Congratulations! You've completed the roadmap!"

  /** `getProgressMessage`. */
  function ProgressMessage(p: real): (m: string)
    ensures m == StartMessage <==> p == 0.0
    ensures m == GreatStartMessage <==> p != 0.0 && p < 50.0
    ensures m == ExcellentMessage <==> 50.0 <= p < 100.0
    ensures m == CongratulationsMessage <==> p >= 100.0
  {
    if p == 0.0 then StartMessage
    else if p < 50.0 then GreatStartMessage
    else if p < 100.0 then ExcellentMessage
    else CongratulationsMessage
  }

  /** Comparing the percentage with a bound is comparing the counts. */
  lemma PercentageBelow(completed: nat, total: nat, bound: nat)
    requires total > 0
    ensures ProgressPercentage(completed, total) < bound as real <==> 100 * completed < bound * total
  {
    var p, t := ProgressPercentage(completed, total), total as real;
    assert p * t == (100 * completed) as real;
    assert (bound * total) as real == (bound as real) * t;
    if p < bound as real {
      assert p * t < (bound as real) * t;
    } else {
      assert p * t >= (bound as real) * t;
    }
  }

  /** The message bands in terms of the counts: the start message exactly
      when nothing counts as done, "great start" below half, "excellent"
      from half up to but not including all, congratulations from all on. */
  lemma MessageBands(completed: nat, total: nat)
    ensures var m := ProgressMessage(ProgressPercentage(completed, total));
            && (m == StartMessage <==> total == 0 || completed == 0)
            && (m == GreatStartMessage <==> total > 0 && 0 < 2 * completed < total)
            && (m == ExcellentMessage <==> total > 0 && total <= 2 * completed && completed < total)
            && (m == CongratulationsMessage <==> total > 0 && completed >= total)
  {
    if total > 0 {
      PercentageBelow(completed, total, 1);
      PercentageBelow(completed, total, 50);
      PercentageBelow(completed, total, 100);
      assert ProgressPercentage(completed, total) >= 0.0;
    }
  }
}
