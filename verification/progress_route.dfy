/** The progress route (backend/routes/progress.js): `POST /update` inserts or
    replaces a user's progress entry for a skill, matched without regard to
    letter case, and `DELETE /:userId/:skill` removes every entry for a skill.
    The user store is a map from user id to that user's progress list; only
    the in-memory update each handler applies is modelled. */
module ProgressRoute {
  import opened Wrappers
  import opened Js
  import opened Http

  /** One entry of a user's `skillProgress` as this route writes it. */
  datatype ProgressEntry = ProgressEntry(
    skill: string, domain: string, completedTopics: Option<seq<string>>,
    totalTopics: int, completionPercentage: int)

  /** The users this route can find, by id, with their progress lists. */
  type Store = map<string, seq<ProgressEntry>>

  /** The total assumed for a new entry when the request gives none. */
  const DefaultTotalTopics := 15

  /** `Math.round(c / t * 100)` in exact rational arithmetic: the integer
      nearest to `100c/t`, halves rounded up. */
  function RoundHalfUp(c: nat, t: nat): (r: int)
    requires t > 0
    ensures 2 * t * r - t <= 200 * c < 2 * t * r + t
    ensures r >= 0
  {
    var q := (200 * c + t) / (2 * t);
    assert 2 * t * q <= 200 * c + t < 2 * t * q + 2 * t by {
      DivBounds(200 * c + t, 2 * t);
    }
    q
  }

  lemma DivBounds(n: nat, d: nat)
    requires d > 0
    ensures d * (n / d) <= n < d * (n / d) + d
  {
  }

  /** The percentage the update stores, or nothing when it cannot be computed
      because the topic list is missing while the total is positive (reading
      its length throws). Without a positive total it is 0. */
  function Percentage(completedTopics: Option<seq<string>>, totalTopics: Option<int>): (r: Option<int>)
    ensures r.None? <==> totalTopics.Some? && totalTopics.value > 0 && completedTopics.None?
    ensures !(totalTopics.Some? && totalTopics.value > 0) ==> r == Some(0)
    ensures r.Some? && totalTopics.Some? && totalTopics.value > 0 ==>
              r.value == RoundHalfUp(|completedTopics.value|, totalTopics.value)
  {
    if totalTopics.Some? && totalTopics.value > 0 then
      match completedTopics
      case Some(ts) => Some(RoundHalfUp(|ts|, totalTopics.value))
      case None => None
    else Some(0)
  }

  /** The entry names `skill`, ignoring letter case. */
  predicate Matches(e: ProgressEntry, skill: string) {
    Lower(e.skill) == Lower(skill)
  }

  /** `findIndex`: the first entry naming `skill`, ignoring case. */
  function FindSkill(list: seq<ProgressEntry>, skill: string): (r: Option<nat>)
    ensures r.Some? ==> r.value < |list| && Matches(list[r.value], skill)
    ensures r.Some? ==> forall i | 0 <= i < r.value :: !Matches(list[i], skill)
    ensures r.None? ==> forall i | 0 <= i < |list| :: !Matches(list[i], skill)
  {
    if list == [] then None
    else if Matches(list[0], skill) then Some(0)
    else match FindSkill(list[1..], skill)
      case Some(i) => Some(i + 1)
      case None => None
  }

  /** The list after the update: the first matching entry is replaced in
      place, taking the request's casing of the skill and keeping its domain
      and total when the request's are falsy; without a match a new entry is
      appended with domain "" and total 15 by default. */
  function Upsert(list: seq<ProgressEntry>, skill: string, domain: Option<string>,
                  completedTopics: Option<seq<string>>, totalTopics: Option<int>, percentage: int): (r: seq<ProgressEntry>)
    ensures FindSkill(list, skill).Some? ==>
              var j := FindSkill(list, skill).value;
              && |r| == |list|
              && r[j] == ProgressEntry(skill, OrElse(domain, list[j].domain), completedTopics,
                                       OrElseNumber(totalTopics, list[j].totalTopics), percentage)
              && (forall i | 0 <= i < |list| && i != j :: r[i] == list[i])
    ensures FindSkill(list, skill).None? ==>
              r == list + [ProgressEntry(skill, OrElse(domain, ""), completedTopics,
                                         OrElseNumber(totalTopics, DefaultTotalTopics), percentage)]
  {
    match FindSkill(list, skill)
    case Some(j) =>
      list[j := ProgressEntry(skill, OrElse(domain, list[j].domain), completedTopics,
                              OrElseNumber(totalTopics, list[j].totalTopics), percentage)]
    case None =>
      list + [ProgressEntry(skill, OrElse(domain, ""), completedTopics,
                            OrElseNumber(totalTopics, DefaultTotalTopics), percentage)]
  }

  /** `POST /update`. Missing fields give 400 and an unknown user 404; a
      percentage that cannot be computed gives 500. None of these changes the
      store. Otherwise the user's list is updated and returned. */
  function PostUpdate(userId: Option<string>, skill: Option<string>, domain: Option<string>,
                      completedTopics: Option<seq<string>>, totalTopics: Option<int>, store: Store): (a: Answer<seq<ProgressEntry>, Store>)
    ensures !Truthy(userId) || !Truthy(skill) ==> a == Answer(Fail(BadRequest, "User ID and skill are required"), store)
    ensures Truthy(userId) && Truthy(skill) && userId.value !in store ==> a == Answer(Fail(NotFound, "User not found"), store)
    ensures a.reply.Fail? ==> a.state == store
    ensures a.reply.Fail? && a.reply.status == ServerError <==>
              Truthy(userId) && Truthy(skill) && userId.value in store && Percentage(completedTopics, totalTopics).None?
    ensures a.reply.Ok? <==>
              Truthy(userId) && Truthy(skill) && userId.value in store && Percentage(completedTopics, totalTopics).Some?
    ensures a.reply.Ok? ==>
              && a.state == store[userId.value := a.reply.body]
              && a.reply.body == Upsert(store[userId.value], skill.value, domain, completedTopics, totalTopics,
                                        Percentage(completedTopics, totalTopics).value)
  {
    if !Truthy(userId) || !Truthy(skill) then Answer(Fail(BadRequest, "User ID and skill are required"), store)
    else if userId.value !in store then Answer(Fail(NotFound, "User not found"), store)
    else match Percentage(completedTopics, totalTopics)
      case None => Answer(Fail(ServerError, "Server error"), store)
      case Some(p) =>
        var list := Upsert(store[userId.value], skill.value, domain, completedTopics, totalTopics, p);
        Answer(Ok(list), store[userId.value := list])
  }

  /** The list without the entries naming `skill`, ignoring case; the others
      keep their order. */
  function Remove(list: seq<ProgressEntry>, skill: string): (r: seq<ProgressEntry>)
    ensures |r| <= |list|
    ensures forall e :: e in r <==> e in list && !Matches(e, skill)
    decreases |list|
  {
    if list == [] then []
    else (if Matches(list[0], skill) then [] else [list[0]]) + Remove(list[1..], skill)
  }

  /** `DELETE /:userId/:skill`: an unknown user gives 404; otherwise every
      entry for the skill is removed. */
  function DeleteSkill(userId: string, skill: string, store: Store): (a: Answer<seq<ProgressEntry>, Store>)
    ensures userId !in store ==> a == Answer(Fail(NotFound, "User not found"), store)
    ensures userId in store ==> a.reply == Ok(Remove(store[userId], skill)) && a.state == store[userId := a.reply.body]
  {
    if userId !in store then Answer(Fail(NotFound, "User not found"), store)
    else
      var list := Remove(store[userId], skill);
      Answer(Ok(list), store[userId := list])
  }

  // ---------------------------------------------------------------------------
  // Properties
  // ---------------------------------------------------------------------------

  /** The percentage is not clamped: more completed topics than the total
      gives more than 100. */
  lemma PercentageNotClamped()
    ensures RoundHalfUp(3, 2) == 150
  {
  }

  /** With no more completed topics than the total the percentage lies in
      0..100. */
  lemma PercentageWithinBounds(c: nat, t: nat)
    requires 0 < t && c <= t
    ensures 0 <= RoundHalfUp(c, t) <= 100
  {
    var r := RoundHalfUp(c, t);
    if r > 100 {
      assert 2 * t * r >= 2 * t * 101 by { MulMono(2 * t, 101, r); }
      assert false;
    }
  }

  lemma MulMono(k: nat, a: int, b: int)
    requires a <= b
    ensures k * a <= k * b
  {
  }

  /** Half a topic rounds up: one of two topics is 50%, one of three 33%, two
      of three 67%. */
  lemma RoundingExamples()
    ensures RoundHalfUp(1, 2) == 50 && RoundHalfUp(1, 3) == 33 && RoundHalfUp(2, 3) == 67 && RoundHalfUp(1, 8) == 13
  {
  }

  /** After an update the skill is found at the index it was found at
      before, or at the end when it was new. */
  lemma {:induction false} FindAfterUpsert(list: seq<ProgressEntry>, skill: string, domain: Option<string>,
                                           completedTopics: Option<seq<string>>, totalTopics: Option<int>, percentage: int)
    ensures var r := Upsert(list, skill, domain, completedTopics, totalTopics, percentage);
            FindSkill(r, skill) == Some(FindSkill(list, skill).GetOr(|list|))
  {
    var r := Upsert(list, skill, domain, completedTopics, totalTopics, percentage);
    var j := FindSkill(list, skill).GetOr(|list|);
    assert Matches(r[j], skill);
    assert forall i | 0 <= i < j :: r[i] == list[i];
    FindFirst(r, skill, j);
  }

  /** `FindSkill` is characterised by its contract. */
  lemma {:induction false} FindFirst(list: seq<ProgressEntry>, skill: string, j: nat)
    requires j < |list| && Matches(list[j], skill)
    requires forall i | 0 <= i < j :: !Matches(list[i], skill)
    ensures FindSkill(list, skill) == Some(j)
  {
    if j > 0 {
      FindFirst(list[1..], skill, j - 1);
    }
  }

  /** Repeating a successful update changes nothing more: the second reply
      and store equal the first. */
  lemma UpdateIdempotent(userId: Option<string>, skill: Option<string>, domain: Option<string>,
                         completedTopics: Option<seq<string>>, totalTopics: Option<int>, store: Store)
    requires PostUpdate(userId, skill, domain, completedTopics, totalTopics, store).reply.Ok?
    ensures var a := PostUpdate(userId, skill, domain, completedTopics, totalTopics, store);
            PostUpdate(userId, skill, domain, completedTopics, totalTopics, a.state) == a
  {
    var a := PostUpdate(userId, skill, domain, completedTopics, totalTopics, store);
    var p := Percentage(completedTopics, totalTopics).value;
    var list := store[userId.value];
    var r := a.reply.body;
    FindAfterUpsert(list, skill.value, domain, completedTopics, totalTopics, p);
    var r2 := Upsert(r, skill.value, domain, completedTopics, totalTopics, p);
    assert r2 == r;
    assert a.state[userId.value := r2] == a.state;
  }

  /** An update never removes or reorders entries: the list keeps its length
      or grows by the one appended entry, and every entry other than the
      updated one is unchanged. */
  lemma UpsertTouchesOneEntry(list: seq<ProgressEntry>, skill: string, domain: Option<string>,
                              completedTopics: Option<seq<string>>, totalTopics: Option<int>, percentage: int)
    ensures var r := Upsert(list, skill, domain, completedTopics, totalTopics, percentage);
            && |list| <= |r| <= |list| + 1
            && (forall i | 0 <= i < |list| && i != FindSkill(list, skill).GetOr(|list|) :: r[i] == list[i])
            && r[FindSkill(list, skill).GetOr(|list|)].skill == skill
  {
    if FindSkill(list, skill).None? {
      var r := Upsert(list, skill, domain, completedTopics, totalTopics, percentage);
      assert r[|list|].skill == skill;
    }
  }

  /** Replacing an entry with a request that gives no total keeps the stored
      total but records a percentage of 0. */
  lemma ReplaceWithoutTotal(list: seq<ProgressEntry>, skill: string, domain: Option<string>, completedTopics: Option<seq<string>>)
    requires FindSkill(list, skill).Some?
    ensures var j := FindSkill(list, skill).value;
            var r := Upsert(list, skill, domain, completedTopics, None, Percentage(completedTopics, None).value);
            r[j].totalTopics == list[j].totalTopics && r[j].completionPercentage == 0
  {
  }

  /** Removing distributes over concatenation, so order is kept. */
  lemma {:induction false} RemoveConcat(a: seq<ProgressEntry>, b: seq<ProgressEntry>, skill: string)
    ensures Remove(a + b, skill) == Remove(a, skill) + Remove(b, skill)
  {
    if a == [] {
      assert a + b == b;
    } else {
      assert (a + b)[0] == a[0];
      assert (a + b)[1..] == a[1..] + b;
      RemoveConcat(a[1..], b, skill);
    }
  }

  /** A list without entries for the skill is left as it is. */
  lemma {:induction false} RemoveNothing(list: seq<ProgressEntry>, skill: string)
    requires forall i | 0 <= i < |list| :: !Matches(list[i], skill)
    ensures Remove(list, skill) == list
  {
    if list != [] {
      RemoveNothing(list[1..], skill);
    }
  }

  /** Deleting twice is deleting once. */
  lemma DeleteIdempotent(userId: string, skill: string, store: Store)
    ensures var a := DeleteSkill(userId, skill, store);
            DeleteSkill(userId, skill, a.state) == a
  {
    if userId in store {
      var r := Remove(store[userId], skill);
      forall i | 0 <= i < |r| ensures !Matches(r[i], skill) {
        assert r[i] in r;
      }
      RemoveNothing(r, skill);
      var state := store[userId := r];
      assert state[userId := Remove(r, skill)] == state;
    }
  }

  /** Deleting a skill right after adding it as new restores the list. */
  lemma DeleteUndoesInsert(list: seq<ProgressEntry>, skill: string, domain: Option<string>,
                           completedTopics: Option<seq<string>>, totalTopics: Option<int>, percentage: int)
    requires FindSkill(list, skill).None?
    ensures Remove(Upsert(list, skill, domain, completedTopics, totalTopics, percentage), skill) == list
  {
    var e := ProgressEntry(skill, OrElse(domain, ""), completedTopics, OrElseNumber(totalTopics, DefaultTotalTopics), percentage);
    RemoveConcat(list, [e], skill);
    RemoveNothing(list, skill);
    assert Remove([e], skill) == [] + Remove([], skill);
  }
}
