/** The user routes (backend/routes/users.js): profile update, the skill list
    (add, update, delete) and the current roadmap. Every mutating
    route first checks that the authenticated id is the id in the path. The
    user documents are a map from id to an account record; Mongoose's id
    generation is a parameter (`freshId`). */
module UsersRoute {
  import opened Wrappers
  import opened Js
  import opened Http

  /** An entry of a user's skill list; `id` is the sub-document id. */
  datatype AccountSkill = AccountSkill(id: string, name: string, level: string, yearsOfExperience: int)

  /** The roadmap the user is following. `progress` is the percentage the
      client last sent. */
  datatype ActiveRoadmap = ActiveRoadmap(roadmapId: string, role: string, completedSteps: seq<int>, progress: real)

  /** The user document as these routes read and write it. */
  datatype AccountUser = AccountUser(
    name: string, bio: string, avatar: string,
    skills: seq<AccountSkill>, currentRoadmap: Option<ActiveRoadmap>)

  /** The stored users, by id. */
  type Accounts = map<string, AccountUser>

  /** The owner check every mutating route performs first. */
  const Unauthorized: Reply<AccountUser> := Fail(Forbidden, "Unauthorized")

  /** `PUT /:userId`: the given profile fields replace the stored ones. */
  function UpdateProfile(authId: string, pathId: string, name: Option<string>, bio: Option<string>, avatar: Option<string>,
                         accounts: Accounts): (a: Answer<AccountUser, Accounts>)
    ensures authId != pathId ==> a == Answer(Unauthorized, accounts)
    ensures authId == pathId && pathId !in accounts ==> a == Answer(Fail(NotFound, "User not found"), accounts)
    ensures a.reply.Ok? <==> authId == pathId && pathId in accounts
    ensures a.reply.Ok? ==>
              var u := a.reply.body;
              && a.state == accounts[pathId := u]
              && u.name == name.GetOr(accounts[pathId].name)
              && u.bio == bio.GetOr(accounts[pathId].bio)
              && u.avatar == avatar.GetOr(accounts[pathId].avatar)
              && u.skills == accounts[pathId].skills && u.currentRoadmap == accounts[pathId].currentRoadmap
  {
    if authId != pathId then Answer(Unauthorized, accounts)
    else if pathId !in accounts then Answer(Fail(NotFound, "User not found"), accounts)
    else
      var prev := accounts[pathId];
      var u := prev.(name := name.GetOr(prev.name), bio := bio.GetOr(prev.bio), avatar := avatar.GetOr(prev.avatar));
      Answer(Ok(u), accounts[pathId := u])
  }

  // ---------------------------------------------------------------------------
  // The skill list
  // ---------------------------------------------------------------------------

  /** Some skill in the list has `name`, ignoring letter case. */
  predicate HasSkillNamed(skills: seq<AccountSkill>, name: string) {
    exists i | 0 <= i < |skills| :: Lower(skills[i].name) == Lower(name)
  }

  /** No two skills share a name, ignoring letter case. */
  predicate NoCaseDuplicates(skills: seq<AccountSkill>) {
    forall i, j | 0 <= i < j < |skills| :: Lower(skills[i].name) != Lower(skills[j].name)
  }

  /** `skills.id(skillId)`: the first skill with that id. */
  function FindSkillById(skills: seq<AccountSkill>, skillId: string): (r: Option<nat>)
    ensures r.Some? ==> r.value < |skills| && skills[r.value].id == skillId
    ensures r.Some? ==> forall i | 0 <= i < r.value :: skills[i].id != skillId
    ensures r.None? ==> forall i | 0 <= i < |skills| :: skills[i].id != skillId
  {
    if skills == [] then None
    else if skills[0].id == skillId then Some(0)
    else match FindSkillById(skills[1..], skillId)
      case Some(i) => Some(i + 1)
      case None => None
  }

  /** `skills.pull(skillId)`: the list without the skills that have that id,
      the others in their order. */
  function RemoveId(skills: seq<AccountSkill>, skillId: string): (r: seq<AccountSkill>)
    ensures |r| <= |skills|
    ensures forall s :: s in r <==> s in skills && s.id != skillId
    decreases |skills|
  {
    if skills == [] then []
    else (if skills[0].id == skillId then [] else [skills[0]]) + RemoveId(skills[1..], skillId)
  }

  /** `POST /:userId/skills`: a nameless skill gives 400, an unknown user 404
      and a name already present in any letter case 409; otherwise the skill
      is appended with level "Beginner" and 0 years unless given. */
  function AddSkill(authId: string, pathId: string, name: Option<string>, level: Option<string>, years: Option<int>,
                    freshId: string, accounts: Accounts): (a: Answer<AccountUser, Accounts>)
    ensures authId != pathId ==> a == Answer(Unauthorized, accounts)
    ensures authId == pathId && !Truthy(name) ==> a == Answer(Fail(BadRequest, "Skill name is required"), accounts)
    ensures authId == pathId && Truthy(name) && pathId !in accounts ==> a == Answer(Fail(NotFound, "User not found"), accounts)
    ensures authId == pathId && Truthy(name) && pathId in accounts && HasSkillNamed(accounts[pathId].skills, name.value) ==>
              a == Answer(Fail(Conflict, "Skill already exists"), accounts)
    ensures a.reply.Fail? ==> a.state == accounts
    ensures a.reply.Ok? <==>
              authId == pathId && Truthy(name) && pathId in accounts && !HasSkillNamed(accounts[pathId].skills, name.value)
    ensures a.reply.Ok? ==>
              && a.state == accounts[pathId := a.reply.body]
              && a.reply.body == accounts[pathId].(skills := accounts[pathId].skills
                   + [AccountSkill(freshId, name.value, OrElse(level, "Beginner"), OrElseNumber(years, 0))])
  {
    if authId != pathId then Answer(Unauthorized, accounts)
    else if !Truthy(name) then Answer(Fail(BadRequest, "Skill name is required"), accounts)
    else if pathId !in accounts then Answer(Fail(NotFound, "User not found"), accounts)
    else
      var u := accounts[pathId];
      if HasSkillNamed(u.skills, name.value) then Answer(Fail(Conflict, "Skill already exists"), accounts)
      else
        var s := AccountSkill(freshId, name.value, OrElse(level, "Beginner"), OrElseNumber(years, 0));
        var u' := u.(skills := u.skills + [s]);
        Answer(Ok(u'), accounts[pathId := u'])
  }

  /** `PUT /:userId/skills/:skillId`: an unknown user or skill gives 404;
      otherwise the level is replaced when the given one is truthy and the
      years whenever they are given. */
  function UpdateSkill(authId: string, pathId: string, skillId: string, level: Option<string>, years: Option<int>,
                       accounts: Accounts): (a: Answer<AccountUser, Accounts>)
    ensures authId != pathId ==> a == Answer(Unauthorized, accounts)
    ensures authId == pathId && pathId !in accounts ==> a == Answer(Fail(NotFound, "User not found"), accounts)
    ensures authId == pathId && pathId in accounts && FindSkillById(accounts[pathId].skills, skillId).None? ==>
              a == Answer(Fail(NotFound, "Skill not found"), accounts)
    ensures a.reply.Fail? ==> a.state == accounts
    ensures a.reply.Ok? <==> authId == pathId && pathId in accounts && FindSkillById(accounts[pathId].skills, skillId).Some?
    ensures a.reply.Ok? ==>
              var before := accounts[pathId].skills;
              var after := a.reply.body.skills;
              var k := FindSkillById(before, skillId).value;
              && a.state == accounts[pathId := a.reply.body]
              && |after| == |before|
              && after[k] == before[k].(level := OrElse(level, before[k].level),
                                        yearsOfExperience := years.GetOr(before[k].yearsOfExperience))
              && (forall i | 0 <= i < |before| && i != k :: after[i] == before[i])
              && a.reply.body == accounts[pathId].(skills := after)
  {
    if authId != pathId then Answer(Unauthorized, accounts)
    else if pathId !in accounts then Answer(Fail(NotFound, "User not found"), accounts)
    else
      var u := accounts[pathId];
      match FindSkillById(u.skills, skillId)
      case None => Answer(Fail(NotFound, "Skill not found"), accounts)
      case Some(k) =>
        var s := u.skills[k];
        var s' := s.(level := OrElse(level, s.level), yearsOfExperience := years.GetOr(s.yearsOfExperience));
        var u' := u.(skills := u.skills[k := s']);
        Answer(Ok(u'), accounts[pathId := u'])
  }

  /** `DELETE /:userId/skills/:skillId`: an unknown user or skill gives 404;
      otherwise the skill with that id is removed. */
  function DeleteSkill(authId: string, pathId: string, skillId: string, accounts: Accounts): (a: Answer<AccountUser, Accounts>)
    ensures authId != pathId ==> a == Answer(Unauthorized, accounts)
    ensures authId == pathId && pathId !in accounts ==> a == Answer(Fail(NotFound, "User not found"), accounts)
    ensures authId == pathId && pathId in accounts && FindSkillById(accounts[pathId].skills, skillId).None? ==>
              a == Answer(Fail(NotFound, "Skill not found"), accounts)
    ensures a.reply.Fail? ==> a.state == accounts
    ensures a.reply.Ok? <==> authId == pathId && pathId in accounts && FindSkillById(accounts[pathId].skills, skillId).Some?
    ensures a.reply.Ok? ==>
              && a.state == accounts[pathId := a.reply.body]
              && a.reply.body == accounts[pathId].(skills := RemoveId(accounts[pathId].skills, skillId))
  {
    if authId != pathId then Answer(Unauthorized, accounts)
    else if pathId !in accounts then Answer(Fail(NotFound, "User not found"), accounts)
    else
      var u := accounts[pathId];
      if FindSkillById(u.skills, skillId).None? then Answer(Fail(NotFound, "Skill not found"), accounts)
      else
        var u' := u.(skills := RemoveId(u.skills, skillId));
        Answer(Ok(u'), accounts[pathId := u'])
  }

  // ---------------------------------------------------------------------------
  // The current roadmap
  // ---------------------------------------------------------------------------

  /** `POST /:userId/roadmap`: a missing roadmap id or role gives 400;
      otherwise the current roadmap is replaced with progress 0 and the given steps
      (none by default). For an unknown user the update finds nothing and
      building the reply fails, so the answer is 500. */
  function StartRoadmap(authId: string, pathId: string, roadmapId: Option<string>, role: Option<string>,
                        completedSteps: Option<seq<int>>, accounts: Accounts): (a: Answer<AccountUser, Accounts>)
    ensures authId != pathId ==> a == Answer(Unauthorized, accounts)
    ensures authId == pathId && (!Truthy(roadmapId) || !Truthy(role)) ==>
              a == Answer(Fail(BadRequest, "Roadmap ID and role are required"), accounts)
    ensures authId == pathId && Truthy(roadmapId) && Truthy(role) && pathId !in accounts ==>
              a == Answer(Fail(ServerError, "Failed to start roadmap"), accounts)
    ensures a.reply.Fail? ==> a.state == accounts
    ensures a.reply.Ok? <==> authId == pathId && Truthy(roadmapId) && Truthy(role) && pathId in accounts
    ensures a.reply.Ok? ==>
              && a.state == accounts[pathId := a.reply.body]
              && a.reply.body == accounts[pathId].(currentRoadmap :=
                   Some(ActiveRoadmap(roadmapId.value, role.value, completedSteps.GetOr([]), 0.0)))
  {
    if authId != pathId then Answer(Unauthorized, accounts)
    else if !Truthy(roadmapId) || !Truthy(role) then Answer(Fail(BadRequest, "Roadmap ID and role are required"), accounts)
    else if pathId !in accounts then Answer(Fail(ServerError, "Failed to start roadmap"), accounts)
    else
      var u := accounts[pathId].(currentRoadmap := Some(ActiveRoadmap(roadmapId.value, role.value, completedSteps.GetOr([]), 0.0)));
      Answer(Ok(u), accounts[pathId := u])
  }

  /** `PUT /:userId/roadmap/progress`: without a user or a current roadmap
      404; otherwise the given steps and progress replace the stored ones. */
  function UpdateRoadmapProgress(authId: string, pathId: string, completedSteps: Option<seq<int>>, progress: Option<real>,
                                 accounts: Accounts): (a: Answer<AccountUser, Accounts>)
    ensures authId != pathId ==> a == Answer(Unauthorized, accounts)
    ensures authId == pathId && (pathId !in accounts || accounts[pathId].currentRoadmap.None?) ==>
              a == Answer(Fail(NotFound, "No active roadmap"), accounts)
    ensures a.reply.Fail? ==> a.state == accounts
    ensures a.reply.Ok? <==> authId == pathId && pathId in accounts && accounts[pathId].currentRoadmap.Some?
    ensures a.reply.Ok? ==>
              var before := accounts[pathId].currentRoadmap.value;
              && a.state == accounts[pathId := a.reply.body]
              && a.reply.body == accounts[pathId].(currentRoadmap := Some(ActiveRoadmap(
                   before.roadmapId, before.role, completedSteps.GetOr(before.completedSteps), progress.GetOr(before.progress))))
  {
    if authId != pathId then Answer(Unauthorized, accounts)
    else if pathId !in accounts || accounts[pathId].currentRoadmap.None? then Answer(Fail(NotFound, "No active roadmap"), accounts)
    else
      var u := accounts[pathId];
      var p := u.currentRoadmap.value;
      var p' := p.(completedSteps := completedSteps.GetOr(p.completedSteps), progress := progress.GetOr(p.progress));
      var u' := u.(currentRoadmap := Some(p'));
      Answer(Ok(u'), accounts[pathId := u'])
  }

  // ---------------------------------------------------------------------------
  // Properties
  // ---------------------------------------------------------------------------

  /** A caller acting on another user's document is refused by every
      mutating route, whatever else the request holds, and nothing changes. */
  lemma OwnerCheckFirst(authId: string, pathId: string, accounts: Accounts,
                        name: Option<string>, text: Option<string>, years: Option<int>, skillId: string,
                        steps: Option<seq<int>>, progress: Option<real>)
    requires authId != pathId
    ensures UpdateProfile(authId, pathId, name, text, text, accounts) == Answer(Unauthorized, accounts)
    ensures AddSkill(authId, pathId, name, text, years, skillId, accounts) == Answer(Unauthorized, accounts)
    ensures UpdateSkill(authId, pathId, skillId, text, years, accounts) == Answer(Unauthorized, accounts)
    ensures DeleteSkill(authId, pathId, skillId, accounts) == Answer(Unauthorized, accounts)
    ensures StartRoadmap(authId, pathId, name, text, steps, accounts) == Answer(Unauthorized, accounts)
    ensures UpdateRoadmapProgress(authId, pathId, steps, progress, accounts) == Answer(Unauthorized, accounts)
  {
  }

  /** If no two skills share a name ignoring case before a successful add,
      none do after it. */
  lemma AddSkillKeepsNoCaseDuplicates(authId: string, pathId: string, name: Option<string>, level: Option<string>,
                                      years: Option<int>, freshId: string, accounts: Accounts)
    requires pathId in accounts && NoCaseDuplicates(accounts[pathId].skills)
    ensures var a := AddSkill(authId, pathId, name, level, years, freshId, accounts);
            pathId in a.state && NoCaseDuplicates(a.state[pathId].skills)
  {
    var a := AddSkill(authId, pathId, name, level, years, freshId, accounts);
    if a.reply.Ok? {
      var before := accounts[pathId].skills;
      var after := a.state[pathId].skills;
      assert after[..|before|] == before;
      forall i | 0 <= i < |before|
        ensures Lower(after[i].name) != Lower(after[|before|].name)
      {
        assert after[i] == before[i];
      }
    }
  }

  /** Removing distributes over concatenation. */
  lemma {:induction false} RemoveIdConcat(a: seq<AccountSkill>, b: seq<AccountSkill>, skillId: string)
    ensures RemoveId(a + b, skillId) == RemoveId(a, skillId) + RemoveId(b, skillId)
  {
    if a == [] {
      assert a + b == b;
    } else {
      assert (a + b)[0] == a[0];
      assert (a + b)[1..] == a[1..] + b;
      RemoveIdConcat(a[1..], b, skillId);
    }
  }

  /** Removing an id no skill has changes nothing. */
  lemma {:induction false} RemoveIdAbsent(skills: seq<AccountSkill>, skillId: string)
    requires forall i | 0 <= i < |skills| :: skills[i].id != skillId
    ensures RemoveId(skills, skillId) == skills
  {
    if skills != [] {
      RemoveIdAbsent(skills[1..], skillId);
    }
  }

  /** Deleting a skill right after adding it under a fresh id restores the
      user store. */
  lemma DeleteUndoesAdd(authId: string, pathId: string, name: Option<string>, level: Option<string>,
                        years: Option<int>, freshId: string, accounts: Accounts)
    requires AddSkill(authId, pathId, name, level, years, freshId, accounts).reply.Ok?
    requires forall i | 0 <= i < |accounts[pathId].skills| :: accounts[pathId].skills[i].id != freshId
    ensures var a := AddSkill(authId, pathId, name, level, years, freshId, accounts);
            DeleteSkill(authId, pathId, freshId, a.state).state == accounts
  {
    var a := AddSkill(authId, pathId, name, level, years, freshId, accounts);
    var before := accounts[pathId].skills;
    var s := a.state[pathId].skills[|before|];
    assert a.state[pathId].skills == before + [s];
    FindSkillByIdAt(before + [s], freshId, |before|);
    RemoveIdConcat(before, [s], freshId);
    RemoveIdAbsent(before, freshId);
    assert RemoveId([s], freshId) == [] + RemoveId([], freshId);
    assert RemoveId(before + [s], freshId) == before;
    var d := DeleteSkill(authId, pathId, freshId, a.state);
    assert d.reply.Ok?;
    assert d.reply.body == accounts[pathId];
    assert a.state[pathId := accounts[pathId]] == accounts;
  }

  /** `FindSkillById` is characterised by its contract. */
  lemma {:induction false} FindSkillByIdAt(skills: seq<AccountSkill>, skillId: string, k: nat)
    requires k < |skills| && skills[k].id == skillId
    requires forall i | 0 <= i < k :: skills[i].id != skillId
    ensures FindSkillById(skills, skillId) == Some(k)
  {
    if k > 0 {
      FindSkillByIdAt(skills[1..], skillId, k - 1);
    }
  }

  /** Applying the same skill update twice is applying it once. */
  lemma UpdateSkillIdempotent(authId: string, pathId: string, skillId: string, level: Option<string>, years: Option<int>,
                              accounts: Accounts)
    ensures var a := UpdateSkill(authId, pathId, skillId, level, years, accounts);
            UpdateSkill(authId, pathId, skillId, level, years, a.state) == a
  {
    var a := UpdateSkill(authId, pathId, skillId, level, years, accounts);
    if a.reply.Ok? {
      var before := accounts[pathId].skills;
      var k := FindSkillById(before, skillId).value;
      var after := a.reply.body.skills;
      FindSkillByIdAt(after, skillId, k);
      var s := after[k];
      assert s.(level := OrElse(level, s.level), yearsOfExperience := years.GetOr(s.yearsOfExperience)) == s;
      assert after[k := s] == after;
      assert a.reply.body.(skills := after) == a.reply.body;
      assert a.state[pathId := a.reply.body] == a.state;
    }
  }

  /** Progress updates after starting a roadmap never change which roadmap
      it is: the id and role stay those given at the start, and steps and
      progress fall back to the start's values when not given. */
  lemma StartThenProgress(userId: string, roadmapId: Option<string>, role: Option<string>, startSteps: Option<seq<int>>,
                          steps: Option<seq<int>>, progress: Option<real>, accounts: Accounts)
    requires StartRoadmap(userId, userId, roadmapId, role, startSteps, accounts).reply.Ok?
    ensures var started := StartRoadmap(userId, userId, roadmapId, role, startSteps, accounts).state;
            var a := UpdateRoadmapProgress(userId, userId, steps, progress, started);
            && a.reply.Ok?
            && a.reply.body.currentRoadmap ==
                 Some(ActiveRoadmap(roadmapId.value, role.value, steps.GetOr(startSteps.GetOr([])), progress.GetOr(0.0)))
  {
  }
}
