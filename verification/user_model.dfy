/** The progress record of the user model (backend/models/User.js) and its
    `updateMicroSkillProgress` method: find or create the skill entry (letter
    case ignored), find or create the sub-skill entry (exact id), and record
    the micro-skill once. Timestamps and the save are not modelled. */
module UserModel {
  import opened Wrappers
  import opened Js

  /** A completed micro-skill. */
  datatype MicroSkillProgress = MicroSkillProgress(microSkillId: string, title: string)

  /** Progress in one sub-skill. */
  datatype SubSkillProgress = SubSkillProgress(
    subSkillId: string, subSkillName: string, microSkillsProgress: seq<MicroSkillProgress>,
    totalMicroSkills: int, isCompleted: bool, isUnlocked: bool,
    projectSubmitted: bool, projectScore: Option<int>, projectPassed: bool)

  /** Progress in one skill. */
  datatype SkillProgress = SkillProgress(
    skill: string, domain: string, subSkillsProgress: seq<SubSkillProgress>,
    totalSubSkills: int, completedSubSkills: int, completionPercentage: int)

  /** A new skill entry: the schema's defaults with an empty sub-skill list. */
  function NewSkillProgress(skill: string): SkillProgress {
    SkillProgress(skill, "", [], 0, 0, 0)
  }

  /** A new sub-skill entry: unlocked, unnamed, with no micro-skills and the
      schema's defaults elsewhere. */
  function NewSubSkillProgress(subSkillId: string): SubSkillProgress {
    SubSkillProgress(subSkillId, "", [], 0, false, true, false, None, false)
  }

  /** The entry names `skill`, ignoring letter case. */
  predicate SkillMatches(sp: SkillProgress, skill: string) {
    Lower(sp.skill) == Lower(skill)
  }

  /** `find` over the skill list: the first entry naming `skill`. */
  function FindSkill(list: seq<SkillProgress>, skill: string): (r: Option<nat>)
    ensures r.Some? ==> r.value < |list| && SkillMatches(list[r.value], skill)
    ensures r.Some? ==> forall i | 0 <= i < r.value :: !SkillMatches(list[i], skill)
    ensures r.None? ==> forall i | 0 <= i < |list| :: !SkillMatches(list[i], skill)
  {
    if list == [] then None
    else if SkillMatches(list[0], skill) then Some(0)
    else match FindSkill(list[1..], skill)
      case Some(i) => Some(i + 1)
      case None => None
  }

  /** `find` over a sub-skill list: the first entry with id `subSkillId`. */
  function FindSubSkill(list: seq<SubSkillProgress>, subSkillId: string): (r: Option<nat>)
    ensures r.Some? ==> r.value < |list| && list[r.value].subSkillId == subSkillId
    ensures r.Some? ==> forall i | 0 <= i < r.value :: list[i].subSkillId != subSkillId
    ensures r.None? ==> forall i | 0 <= i < |list| :: list[i].subSkillId != subSkillId
  {
    if list == [] then None
    else if list[0].subSkillId == subSkillId then Some(0)
    else match FindSubSkill(list[1..], subSkillId)
      case Some(i) => Some(i + 1)
      case None => None
  }

  /** Some entry of the micro-skill list has id `microSkillId`. */
  predicate Completed(list: seq<MicroSkillProgress>, microSkillId: string) {
    exists i | 0 <= i < |list| :: list[i].microSkillId == microSkillId
  }

  /** No two entries of the micro-skill list share an id. */
  predicate DistinctIds(list: seq<MicroSkillProgress>) {
    forall i, j | 0 <= i < j < |list| :: list[i].microSkillId != list[j].microSkillId
  }

  /** The micro-skill list with `microSkillId` recorded: appended unless some
      entry already has that id. */
  function Record(list: seq<MicroSkillProgress>, microSkillId: string, title: string): (r: seq<MicroSkillProgress>)
    ensures Completed(r, microSkillId)
    ensures |list| <= |r| <= |list| + 1 && r[..|list|] == list
    ensures |r| == |list| + 1 <==> !Completed(list, microSkillId)
    ensures DistinctIds(list) ==> DistinctIds(r)
    ensures !Completed(list, microSkillId) ==> r == list + [MicroSkillProgress(microSkillId, title)]
    ensures Completed(list, microSkillId) ==> r == list
  {
    if Completed(list, microSkillId) then list
    else
      var r := list + [MicroSkillProgress(microSkillId, title)];
      assert r[|list|].microSkillId == microSkillId;
      r
  }

  /** The index the updated skill entry has: the first match, or the end
      where a new entry is appended. */
  function SkillSlot(list: seq<SkillProgress>, skill: string): nat {
    FindSkill(list, skill).GetOr(|list|)
  }

  /** The index the updated sub-skill entry has. */
  function SubSkillSlot(list: seq<SubSkillProgress>, subSkillId: string): nat {
    FindSubSkill(list, subSkillId).GetOr(|list|)
  }

  /** The sub-skill list with the micro-skill recorded under `subSkillId`,
      creating that sub-skill entry first when it is absent. */
  function UpdateSubSkills(list: seq<SubSkillProgress>, subSkillId: string, microSkillId: string, title: string): (r: seq<SubSkillProgress>)
    ensures |list| <= |r| <= |list| + 1
    ensures |r| == |list| <==> FindSubSkill(list, subSkillId).Some?
    ensures var k := SubSkillSlot(list, subSkillId);
            && k < |r| && r[k].subSkillId == subSkillId
            && Completed(r[k].microSkillsProgress, microSkillId)
            && (forall i | 0 <= i < |list| && i != k :: r[i] == list[i])
    ensures var k := SubSkillSlot(list, subSkillId); var e := SubSkillEntry(list, subSkillId);
            k < |r| && r[k] == e.(microSkillsProgress := Record(e.microSkillsProgress, microSkillId, title))
  {
    var withEntry := if FindSubSkill(list, subSkillId).Some? then list else list + [NewSubSkillProgress(subSkillId)];
    var k := SubSkillSlot(list, subSkillId);
    var ssp := withEntry[k];
    withEntry[k := ssp.(microSkillsProgress := Record(ssp.microSkillsProgress, microSkillId, title))]
  }

  /** `updateMicroSkillProgress` on the user's skill-progress list. */
  function UpdateMicroSkillProgress(list: seq<SkillProgress>, skill: string, subSkillId: string,
                                    microSkillId: string, title: string): (r: seq<SkillProgress>)
    ensures |list| <= |r| <= |list| + 1
    ensures |r| == |list| <==> FindSkill(list, skill).Some?
    ensures var j := SkillSlot(list, skill);
            && j < |r| && SkillMatches(r[j], skill)
            && (forall i | 0 <= i < |list| && i != j :: r[i] == list[i])
    ensures var j := SkillSlot(list, skill); var e := SkillEntry(list, skill);
            j < |r| && r[j] == e.(subSkillsProgress := UpdateSubSkills(e.subSkillsProgress, subSkillId, microSkillId, title))
  {
    var withEntry := if FindSkill(list, skill).Some? then list else list + [NewSkillProgress(skill)];
    var j := SkillSlot(list, skill);
    var sp := withEntry[j];
    withEntry[j := sp.(subSkillsProgress := UpdateSubSkills(sp.subSkillsProgress, subSkillId, microSkillId, title))]
  }

  // ---------------------------------------------------------------------------
  // Properties
  // ---------------------------------------------------------------------------

  /** The skill entry before the update: the matching one, or a new one. */
  function SkillEntry(list: seq<SkillProgress>, skill: string): SkillProgress {
    match FindSkill(list, skill)
    case Some(j) => list[j]
    case None => NewSkillProgress(skill)
  }

  /** The sub-skill entry before the update: the matching one, or a new one. */
  function SubSkillEntry(list: seq<SubSkillProgress>, subSkillId: string): SubSkillProgress {
    match FindSubSkill(list, subSkillId)
    case Some(k) => list[k]
    case None => NewSubSkillProgress(subSkillId)
  }

  /** Every micro-skill list in the record is free of duplicate ids. */
  predicate NoDuplicateCompletions(list: seq<SkillProgress>) {
    forall i | 0 <= i < |list| :: EntryDistinct(list[i])
  }

  /** Every micro-skill list of one skill entry is free of duplicate ids. */
  predicate EntryDistinct(sp: SkillProgress) {
    SubSkillsDistinct(sp.subSkillsProgress)
  }

  predicate SubSkillsDistinct(subs: seq<SubSkillProgress>) {
    forall k | 0 <= k < |subs| :: SubSkillDistinct(subs[k])
  }

  predicate SubSkillDistinct(ssp: SubSkillProgress) {
    DistinctIds(ssp.microSkillsProgress)
  }

  /** `FindSkill` is characterised by its contract. */
  lemma {:induction false} FindSkillAt(list: seq<SkillProgress>, skill: string, j: nat)
    requires j < |list| && SkillMatches(list[j], skill)
    requires forall i | 0 <= i < j :: !SkillMatches(list[i], skill)
    ensures FindSkill(list, skill) == Some(j)
  {
    if j > 0 {
      FindSkillAt(list[1..], skill, j - 1);
    }
  }

  /** `FindSubSkill` is characterised by its contract. */
  lemma {:induction false} FindSubSkillAt(list: seq<SubSkillProgress>, subSkillId: string, k: nat)
    requires k < |list| && list[k].subSkillId == subSkillId
    requires forall i | 0 <= i < k :: list[i].subSkillId != subSkillId
    ensures FindSubSkill(list, subSkillId) == Some(k)
  {
    if k > 0 {
      FindSubSkillAt(list[1..], subSkillId, k - 1);
    }
  }

  /** The micro-skill list of the updated sub-skill is the old one (empty for
      a new entry) with at most the one id appended: existing completions and
      their order are kept, and the id is recorded. */
  lemma AppendOnly(list: seq<SkillProgress>, skill: string, subSkillId: string, microSkillId: string, title: string)
    ensures var r := UpdateMicroSkillProgress(list, skill, subSkillId, microSkillId, title);
            var j := SkillSlot(list, skill);
            var subs := SkillEntry(list, skill).subSkillsProgress;
            var k := SubSkillSlot(subs, subSkillId);
            var before := SubSkillEntry(subs, subSkillId).microSkillsProgress;
            && k < |r[j].subSkillsProgress|
            && r[j].subSkillsProgress[k].microSkillsProgress == Record(before, microSkillId, title)
            && |r[j].subSkillsProgress| <= |subs| + 1
  {
  }

  /** Recording the same completion twice is recording it once. */
  lemma UpdateIdempotent(list: seq<SkillProgress>, skill: string, subSkillId: string, microSkillId: string, title: string)
    ensures var r := UpdateMicroSkillProgress(list, skill, subSkillId, microSkillId, title);
            UpdateMicroSkillProgress(r, skill, subSkillId, microSkillId, title) == r
  {
    var r := UpdateMicroSkillProgress(list, skill, subSkillId, microSkillId, title);
    FoundAfterUpdate(list, skill, subSkillId, microSkillId, title);
    FixedPoint(r, skill, subSkillId, microSkillId, title, SkillSlot(list, skill));
  }

  /** After an update the skill entry is found where it was put, and its
      sub-skill list is already up to date. */
  lemma FoundAfterUpdate(list: seq<SkillProgress>, skill: string, subSkillId: string, microSkillId: string, title: string)
    ensures var r := UpdateMicroSkillProgress(list, skill, subSkillId, microSkillId, title);
            var j := SkillSlot(list, skill);
            && FindSkill(r, skill) == Some(j)
            && UpdateSubSkills(r[j].subSkillsProgress, subSkillId, microSkillId, title) == r[j].subSkillsProgress
  {
    var r := UpdateMicroSkillProgress(list, skill, subSkillId, microSkillId, title);
    var j := SkillSlot(list, skill);
    assert forall i | 0 <= i < j :: r[i] == list[i];
    FindSkillAt(r, skill, j);
    var subs := SkillEntry(list, skill).subSkillsProgress;
    assert r[j].subSkillsProgress == UpdateSubSkills(subs, subSkillId, microSkillId, title);
    SubSkillsIdempotent(subs, subSkillId, microSkillId, title);
  }

  /** An update that finds its skill entry and leaves its sub-skill list as
      it is changes nothing. */
  lemma FixedPoint(list: seq<SkillProgress>, skill: string, subSkillId: string, microSkillId: string, title: string, j: nat)
    requires FindSkill(list, skill) == Some(j)
    requires UpdateSubSkills(list[j].subSkillsProgress, subSkillId, microSkillId, title) == list[j].subSkillsProgress
    ensures UpdateMicroSkillProgress(list, skill, subSkillId, microSkillId, title) == list
  {
    assert list[j].(subSkillsProgress := list[j].subSkillsProgress) == list[j];
  }

  /** The same at the level of one skill's sub-skill list. */
  lemma SubSkillsIdempotent(subs: seq<SubSkillProgress>, subSkillId: string, microSkillId: string, title: string)
    ensures var s1 := UpdateSubSkills(subs, subSkillId, microSkillId, title);
            UpdateSubSkills(s1, subSkillId, microSkillId, title) == s1
  {
    var s1 := UpdateSubSkills(subs, subSkillId, microSkillId, title);
    var k := SubSkillSlot(subs, subSkillId);
    assert forall i | 0 <= i < k :: s1[i] == subs[i];
    FindSubSkillAt(s1, subSkillId, k);
    var m := s1[k].microSkillsProgress;
    assert Record(m, microSkillId, title) == m;
    assert s1[k].(microSkillsProgress := m) == s1[k];
  }

  /** Updating a record whose micro-skill lists are duplicate-free keeps them
      duplicate-free. */
  lemma UpdateKeepsNoDuplicates(list: seq<SkillProgress>, skill: string, subSkillId: string, microSkillId: string, title: string)
    requires NoDuplicateCompletions(list)
    ensures NoDuplicateCompletions(UpdateMicroSkillProgress(list, skill, subSkillId, microSkillId, title))
  {
    var r := UpdateMicroSkillProgress(list, skill, subSkillId, microSkillId, title);
    var j := SkillSlot(list, skill);
    var e := SkillEntry(list, skill);
    assert EntryDistinct(e) by {
      match FindSkill(list, skill)
      case Some(x) => assert e == list[x];
      case None => assert e.subSkillsProgress == [];
    }
    SubSkillsKeepDistinct(e.subSkillsProgress, subSkillId, microSkillId, title);
    assert r[j] == e.(subSkillsProgress := UpdateSubSkills(e.subSkillsProgress, subSkillId, microSkillId, title));
    assert EntryDistinct(r[j]);
    assert |r| == |list| + 1 ==> j == |list|;
    FrameKeeps(EntryDistinct, list, r, j);
  }

  /** The sub-skill level of `UpdateKeepsNoDuplicates`. */
  lemma SubSkillsKeepDistinct(subs: seq<SubSkillProgress>, subSkillId: string, microSkillId: string, title: string)
    requires SubSkillsDistinct(subs)
    ensures SubSkillsDistinct(UpdateSubSkills(subs, subSkillId, microSkillId, title))
  {
    var r := UpdateSubSkills(subs, subSkillId, microSkillId, title);
    var k := SubSkillSlot(subs, subSkillId);
    var e := SubSkillEntry(subs, subSkillId);
    assert SubSkillDistinct(e) by {
      match FindSubSkill(subs, subSkillId)
      case Some(x) => assert e == subs[x];
      case None => assert e.microSkillsProgress == [];
    }
    assert r[k] == e.(microSkillsProgress := Record(e.microSkillsProgress, microSkillId, title));
    assert SubSkillDistinct(r[k]);
    assert |r| == |subs| + 1 ==> k == |subs|;
    FrameKeeps(SubSkillDistinct, subs, r, k);
  }

  /** A property of every element survives an update that changes at most
      slot `k`, appending only at the end, when the new slot has it too. */
  lemma FrameKeeps<T>(P: T -> bool, before: seq<T>, after: seq<T>, k: nat)
    requires forall m | 0 <= m < |before| :: P(before[m])
    requires k < |after| && P(after[k])
    requires |before| <= |after| <= |before| + 1
    requires |after| == |before| + 1 ==> k == |before|
    requires forall m | 0 <= m < |before| && m != k :: after[m] == before[m]
    ensures forall m | 0 <= m < |after| :: P(after[m])
  {
    forall m | 0 <= m < |after|
      ensures P(after[m])
    {
      if m != k {
        assert after[m] == before[m];
      }
    }
  }

  /** An unknown sub-skill id gets a new, unlocked entry at the end of the
      list holding just the recorded micro-skill. */
  lemma NewSubSkillAppended(subs: seq<SubSkillProgress>, subSkillId: string, microSkillId: string, title: string)
    requires FindSubSkill(subs, subSkillId).None?
    ensures UpdateSubSkills(subs, subSkillId, microSkillId, title)
            == subs + [SubSkillProgress(subSkillId, "", [MicroSkillProgress(microSkillId, title)], 0, false, true, false, None, false)]
  {
    var withEntry := subs + [NewSubSkillProgress(subSkillId)];
    assert SubSkillSlot(subs, subSkillId) == |subs|;
    assert withEntry[|subs|].microSkillsProgress == [];
    assert !Completed([], microSkillId);
    var added := Record([], microSkillId, title);
    assert added == [MicroSkillProgress(microSkillId, title)];
    var e := NewSubSkillProgress(subSkillId).(microSkillsProgress := added);
    assert UpdateSubSkills(subs, subSkillId, microSkillId, title) == withEntry[|subs| := e];
    assert withEntry[|subs| := e] == subs + [e];
  }

  /** A skill not yet in the record, under any letter case, gets a new entry
      at the end holding just the new sub-skill and micro-skill. */
  lemma NewSkillAppended(list: seq<SkillProgress>, skill: string, subSkillId: string, microSkillId: string, title: string)
    requires FindSkill(list, skill).None?
    ensures UpdateMicroSkillProgress(list, skill, subSkillId, microSkillId, title)
            == list + [SkillProgress(skill, "", [SubSkillProgress(subSkillId, "", [MicroSkillProgress(microSkillId, title)],
                                                                  0, false, true, false, None, false)], 0, 0, 0)]
  {
    assert FindSubSkill([], subSkillId).None?;
    NewSubSkillAppended([], subSkillId, microSkillId, title);
    var withEntry := list + [NewSkillProgress(skill)];
    assert SkillSlot(list, skill) == |list|;
    assert withEntry[|list|].subSkillsProgress == [];
    var e := NewSkillProgress(skill).(subSkillsProgress := UpdateSubSkills([], subSkillId, microSkillId, title));
    assert UpdateMicroSkillProgress(list, skill, subSkillId, microSkillId, title) == withEntry[|list| := e];
    assert withEntry[|list| := e] == list + [e];
    var x := SubSkillProgress(subSkillId, "", [MicroSkillProgress(microSkillId, title)], 0, false, true, false, None, false);
    assert [] + [x] == [x];
  }
}
