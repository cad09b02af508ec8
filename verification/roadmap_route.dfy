/** The roadmap route (backend/routes/roadmap.js): `POST /` answers a skill
    with a generated roadmap, cached under the normalised skill, and falls
    back to a fixed five-step roadmap whenever generation fails. The generator
    (the content-generation service followed by `JSON.parse`) is an abstract
    result passed in by the caller, and the cache is threaded through as a
    value. */
module RoadmapRoute {
  import opened Wrappers
  import opened Js
  import opened Http
  import opened GenerationCache
  import Gemini

  /** A sub-skill as the generator returns it; every field may be missing. */
  datatype GeneratedSubSkill = GeneratedSubSkill(name: Option<string>, description: Option<string>, order: Option<int>)

  /** A generated roadmap; `subSkills` is missing when the parsed JSON has no
      such array, and an element of the array is `None` when it is `null`. */
  datatype GeneratedRoadmap = GeneratedRoadmap(skill: Option<string>, domain: Option<string>, subSkills: Option<seq<Option<GeneratedSubSkill>>>)

  /** A sub-skill as it is served. */
  datatype SubSkill = SubSkill(id: string, name: Option<string>, description: Option<string>, order: int, isUnlocked: bool, isCompleted: bool)

  /** A served roadmap. */
  datatype Roadmap = Roadmap(skill: Option<string>, domain: Option<string>, subSkills: seq<SubSkill>)

  /** The cache key: the skill lower-cased, then trimmed. It is the
      lower-cased skill with only white space removed from its two ends. */
  function CacheKey(skill: string): (k: string)
    ensures IsTrimmed(k)
    ensures forall i | 0 <= i < |k| :: !('A' <= k[i] <= 'Z')
    ensures var a := LeadingWhiteSpace(Lower(skill));
            && a + |k| <= |skill|
            && k == Lower(skill)[a..a + |k|]
            && (forall i | 0 <= i < a :: IsWhiteSpace(skill[i]))
            && (forall i | a + |k| <= i < |skill| :: IsWhiteSpace(skill[i]))
  {
    forall i | 0 <= i < |skill| ensures IsWhiteSpace(Lower(skill)[i]) ==> IsWhiteSpace(skill[i]) {
      LowerCharWhiteSpace(skill[i]);
    }
    Trim(Lower(skill))
  }

  /** The identifiers and flags every served sub-skill list carries: the
      `i`-th has id `key-i`, only the first is unlocked and none is completed. */
  predicate Shaped(key: string, subs: seq<SubSkill>) {
    forall i | 0 <= i < |subs| ::
      && subs[i].id == key + "-" + NatToString(i)
      && (subs[i].isUnlocked <==> i == 0)
      && !subs[i].isCompleted
  }

  /** Every cached roadmap is shaped for the key it is stored under. */
  predicate CacheWellFormed(cache: map<string, Roadmap>) {
    forall k | k in cache :: Shaped(k, cache[k].subSkills)
  }

  /** The sub-skill at position `i` after reshaping. */
  function ReshapeOne(key: string, i: nat, s: GeneratedSubSkill): SubSkill {
    SubSkill(key + "-" + NatToString(i), s.name, s.description, OrElseNumber(s.order, i + 1), i == 0, false)
  }

  /** The generated sub-skills with identifiers, order and flags filled in:
      names and descriptions are kept, a truthy order is kept and any other
      order becomes the 1-based position. */
  function Reshape(key: string, subs: seq<GeneratedSubSkill>): (r: seq<SubSkill>)
    ensures |r| == |subs|
    ensures Shaped(key, r)
    ensures forall i | 0 <= i < |subs| :: r[i].name == subs[i].name && r[i].description == subs[i].description
    ensures forall i | 0 <= i < |subs| :: TruthyNumber(subs[i].order) ==> r[i].order == subs[i].order.value
    ensures forall i | 0 <= i < |subs| :: !TruthyNumber(subs[i].order) ==> r[i].order == i + 1
  {
    seq(|subs|, i requires 0 <= i < |subs| => ReshapeOne(key, i, subs[i]))
  }

  /** The elements of a generated sub-skill array when none is `null`;
      reading `order` off a `null` element throws. */
  function NonNull(subs: seq<Option<GeneratedSubSkill>>): (r: Option<seq<GeneratedSubSkill>>)
    ensures r.Some? <==> forall i | 0 <= i < |subs| :: subs[i].Some?
    ensures r.Some? ==> |r.value| == |subs| && forall i | 0 <= i < |subs| :: subs[i] == Some(r.value[i])
  {
    if forall i | 0 <= i < |subs| :: subs[i].Some? then
      Some(seq(|subs|, i requires 0 <= i < |subs| => subs[i].value))
    else None
  }

  /** What the generator produced, reshaped, or nothing when generation or
      parsing failed, the result has no sub-skill array, or an element of
      that array is `null` (the reshaping then throws). */
  function Produced(key: string, generated: Result<GeneratedRoadmap, Gemini.GenError>): (p: Option<Roadmap>)
    ensures p.Some? <==> && generated.Success? && generated.value.subSkills.Some?
                         && forall i | 0 <= i < |generated.value.subSkills.value| :: generated.value.subSkills.value[i].Some?
    ensures p.Some? ==> p.value.skill == generated.value.skill && p.value.domain == generated.value.domain
    ensures p.Some? ==> var subs := generated.value.subSkills.value;
                        && |p.value.subSkills| == |subs|
                        && forall i | 0 <= i < |subs| :: p.value.subSkills[i] == ReshapeOne(key, i, subs[i].value)
    ensures p.Some? ==> p.value.subSkills == Reshape(key, NonNull(generated.value.subSkills.value).value)
  {
    match generated
    case Success(g) =>
      (match g.subSkills
       case Some(subs) =>
         (match NonNull(subs)
          case Some(present) => Some(Roadmap(g.skill, g.domain, Reshape(key, present)))
          case None => None)
       case None => None)
    case Failure(_) => None
  }

  /** `generateFallbackRoadmap`: five fixed sub-skills named after the raw,
      un-normalised skill, or after "Programming" when there is none. */
  function FallbackRoadmap(skill: Option<string>): (r: Roadmap)
    ensures r.skill == Some(OrElse(skill, "Programming"))
    ensures r.domain == Some(OrElse(skill, "Programming") + " Development")
    ensures |r.subSkills| == 5
    ensures Shaped(OrElse(skill, "Programming"), r.subSkills)
    ensures forall i | 0 <= i < 5 :: r.subSkills[i].order == i + 1
    ensures forall i | 0 <= i < 5 :: r.subSkills[i].name.Some? && r.subSkills[i].description.Some?
  {
    var name := OrElse(skill, "Programming");
    Roadmap(Some(name), Some(name + " Development"), [
      SubSkill(name + "-0", Some("Fundamentals"), Some("Core concepts and basics"), 1, true, false),
      SubSkill(name + "-1", Some("Intermediate Concepts"), Some("Building on the basics"), 2, false, false),
      SubSkill(name + "-2", Some("Advanced Topics"), Some("Expert-level knowledge"), 3, false, false),
      SubSkill(name + "-3", Some("Best Practices"), Some("Industry standards and patterns"), 4, false, false),
      SubSkill(name + "-4", Some("Real-world Projects"), Some("Practical applications"), 5, false, false)
    ])
  }

  /** `POST /`: a missing skill is refused; otherwise a cached roadmap is
      returned as it is, a freshly generated one is reshaped, stored and
      returned, and any failure returns the fallback without storing it. */
  function PostRoadmap(skill: Option<string>, cache: map<string, Roadmap>,
                       generated: Result<GeneratedRoadmap, Gemini.GenError>): (a: Answer<Roadmap, map<string, Roadmap>>)
    ensures !Truthy(skill) ==> a == Answer(Fail(BadRequest, "Skill is required"), cache)
    ensures Truthy(skill) ==> a.reply.Ok?
    ensures Truthy(skill) && CacheKey(skill.value) in cache ==>
              a == Answer(Ok(cache[CacheKey(skill.value)]), cache)
    ensures Truthy(skill) && CacheKey(skill.value) !in cache && Produced(CacheKey(skill.value), generated).Some? ==>
              var r := Produced(CacheKey(skill.value), generated).value;
              a == Answer(Ok(r), cache[CacheKey(skill.value) := r])
    ensures Truthy(skill) && CacheKey(skill.value) !in cache && Produced(CacheKey(skill.value), generated).None? ==>
              a == Answer(Ok(FallbackRoadmap(skill)), cache)
  {
    if !Truthy(skill) then Answer(Fail(BadRequest, "Skill is required"), cache)
    else
      var key := CacheKey(skill.value);
      var s := Serve(cache, key, Produced(key, generated), FallbackRoadmap(skill));
      Answer(Ok(s.payload), s.cache)
  }

  // ---------------------------------------------------------------------------
  // Properties
  // ---------------------------------------------------------------------------

  /** Skills that differ only in ASCII letter case share a cache entry. */
  lemma CacheKeyIgnoresCase(a: string, b: string)
    requires Lower(a) == Lower(b)
    ensures CacheKey(a) == CacheKey(b)
  {
  }

  /** Skills that differ only in surrounding white space share a cache entry. */
  lemma CacheKeyIgnoresPadding(pre: string, s: string, post: string)
    requires IsTrimmed(s)
    requires forall i | 0 <= i < |pre| :: IsWhiteSpace(pre[i])
    requires forall i | 0 <= i < |post| :: IsWhiteSpace(post[i])
    ensures CacheKey(pre + s + post) == CacheKey(s)
  {
    LowerConcat(pre + s, post);
    LowerConcat(pre, s);
    assert IsTrimmed(Lower(s)) by {
      if s != [] {
        LowerCharWhiteSpace(s[0]);
        LowerCharWhiteSpace(s[|s| - 1]);
      }
    }
    forall i | 0 <= i < |pre| ensures IsWhiteSpace(Lower(pre)[i]) { LowerCharWhiteSpace(pre[i]); }
    forall i | 0 <= i < |post| ensures IsWhiteSpace(Lower(post)[i]) { LowerCharWhiteSpace(post[i]); }
    TrimPadded(Lower(pre), Lower(s), Lower(post));
    TrimTrimmed(Lower(s));
  }

  /** A normalised key normalises to itself. */
  lemma CacheKeyIdempotent(skill: string)
    ensures CacheKey(CacheKey(skill)) == CacheKey(skill)
  {
    var k := CacheKey(skill);
    var a := LeadingWhiteSpace(Lower(skill));
    assert forall i | 0 <= i < |k| :: k[i] == Lower(skill)[a + i];
    LowerUnchanged(k);
    TrimTrimmed(k);
  }

  /** On a cache hit the generator's outcome does not matter. */
  lemma HitIgnoresGenerator(skill: Option<string>, cache: map<string, Roadmap>,
                            g1: Result<GeneratedRoadmap, Gemini.GenError>, g2: Result<GeneratedRoadmap, Gemini.GenError>)
    requires Truthy(skill) && CacheKey(skill.value) in cache
    ensures PostRoadmap(skill, cache, g1) == PostRoadmap(skill, cache, g2)
  {
  }

  /** Once a skill's roadmap is stored, a later request for any skill with the
      same key, whatever the generator does then, gets the same roadmap and
      leaves the cache as it is. */
  lemma RepeatedRequestHits(skill: Option<string>, again: Option<string>, cache: map<string, Roadmap>,
                            g1: Result<GeneratedRoadmap, Gemini.GenError>, g2: Result<GeneratedRoadmap, Gemini.GenError>)
    requires Truthy(skill) && Truthy(again) && CacheKey(again.value) == CacheKey(skill.value)
    requires CacheKey(skill.value) in PostRoadmap(skill, cache, g1).state
    ensures var a := PostRoadmap(skill, cache, g1);
            PostRoadmap(again, a.state, g2) == a
  {
  }

  /** A generated sub-skill array holding `null` makes the reshaping throw:
      the fallback is answered and nothing is cached. */
  lemma NullSubSkillFallsBack(skill: Option<string>, cache: map<string, Roadmap>, g: GeneratedRoadmap, j: nat)
    requires Truthy(skill) && CacheKey(skill.value) !in cache
    requires g.subSkills.Some? && j < |g.subSkills.value| && g.subSkills.value[j].None?
    ensures PostRoadmap(skill, cache, Success(g)) == Answer(Ok(FallbackRoadmap(skill)), cache)
  {
    assert Produced(CacheKey(skill.value), Success(g)).None?;
  }

  /** A request never changes an entry already in the cache, and adds at most
      the entry for its own key. */
  lemma PostRoadmapOnlyAdds(skill: Option<string>, cache: map<string, Roadmap>, generated: Result<GeneratedRoadmap, Gemini.GenError>)
    ensures var a := PostRoadmap(skill, cache, generated);
            && (forall k | k in cache :: k in a.state && a.state[k] == cache[k])
            && (forall k | k in a.state && k !in cache :: Truthy(skill) && k == CacheKey(skill.value))
  {
  }

  /** Requests keep every cached roadmap shaped for its key. */
  lemma PostRoadmapKeepsCacheWellFormed(skill: Option<string>, cache: map<string, Roadmap>,
                                        generated: Result<GeneratedRoadmap, Gemini.GenError>)
    requires CacheWellFormed(cache)
    ensures CacheWellFormed(PostRoadmap(skill, cache, generated).state)
  {
    if Truthy(skill) {
      var key := CacheKey(skill.value);
      ServeKeepsInvariant((k: string, r: Roadmap) => Shaped(k, r.subSkills), cache, key,
                          Produced(key, generated), FallbackRoadmap(skill));
    }
  }

  /** Over a well-formed cache every served roadmap is shaped: for the
      normalised key when it was generated or cached, for the raw skill when it
      is the fallback. Its identifiers are therefore distinct. */
  lemma ServedRoadmapShaped(skill: Option<string>, cache: map<string, Roadmap>,
                            generated: Result<GeneratedRoadmap, Gemini.GenError>)
    requires CacheWellFormed(cache) && Truthy(skill)
    ensures var body := PostRoadmap(skill, cache, generated).reply.body;
            Shaped(CacheKey(skill.value), body.subSkills) || Shaped(skill.value, body.subSkills)
  {
  }
}
