/** The micro-skills route (backend/routes/microSkills.js): `POST /` answers a
    skill and one of its sub-skills with generated lessons, cached under a
    composite key, and falls back to four fixed lessons whenever generation
    fails. As for the roadmap route, the generator's outcome is a parameter
    and the cache is a value. */
module MicroSkillsRoute {
  import opened Wrappers
  import opened Js
  import opened Http
  import opened GenerationCache
  import Gemini

  /** A lesson as the generator returns it; every field may be missing. */
  datatype GeneratedMicroSkill = GeneratedMicroSkill(
    title: Option<string>, explanation: Option<string>, code: Option<string>,
    output: Option<string>, notes: Option<string>)

  /** The generated payload; `microSkills` is missing when the parsed JSON has
      no such array. */
  datatype GeneratedMicroSkills = GeneratedMicroSkills(subSkill: Option<string>, microSkills: Option<seq<GeneratedMicroSkill>>)

  /** A lesson as it is served. */
  datatype MicroSkill = MicroSkill(
    id: string, title: Option<string>, explanation: Option<string>, code: Option<string>,
    output: Option<string>, notes: Option<string>, order: int, isCompleted: bool)

  /** A served payload. */
  datatype MicroSkills = MicroSkills(subSkill: Option<string>, microSkills: seq<MicroSkill>)

  /** The cache key: both names lower-cased, joined by a dash, not trimmed. */
  function CacheKey(skill: string, subSkill: string): (k: string)
    ensures |k| == |skill| + 1 + |subSkill|
    ensures k[..|skill|] == Lower(skill) && k[|skill|] == '-' && k[|skill| + 1..] == Lower(subSkill)
    ensures forall i | 0 <= i < |k| :: !('A' <= k[i] <= 'Z')
  {
    Lower(skill) + "-" + Lower(subSkill)
  }

  /** The identifiers, order and flags of a served lesson list: the `i`-th has
      id `key-i` and order `i + 1`, and none is completed. */
  predicate Shaped(key: string, ms: seq<MicroSkill>) {
    forall i | 0 <= i < |ms| ::
      && ms[i].id == key + "-" + NatToString(i)
      && ms[i].order == i + 1
      && !ms[i].isCompleted
  }

  /** Every cached payload is shaped for the key it is stored under. */
  predicate CacheWellFormed(cache: map<string, MicroSkills>) {
    forall k | k in cache :: Shaped(k, cache[k].microSkills)
  }

  function ReshapeOne(key: string, i: nat, m: GeneratedMicroSkill): MicroSkill {
    MicroSkill(key + "-" + NatToString(i), m.title, m.explanation, m.code, m.output, m.notes, i + 1, false)
  }

  /** The generated lessons with identifiers, order and flags filled in; a
      supplied order is overridden by the position, the content is kept. */
  function Reshape(key: string, ms: seq<GeneratedMicroSkill>): (r: seq<MicroSkill>)
    ensures |r| == |ms|
    ensures Shaped(key, r)
    ensures forall i | 0 <= i < |ms| ::
            && r[i].title == ms[i].title && r[i].explanation == ms[i].explanation
            && r[i].code == ms[i].code && r[i].output == ms[i].output && r[i].notes == ms[i].notes
  {
    seq(|ms|, i requires 0 <= i < |ms| => ReshapeOne(key, i, ms[i]))
  }

  /** What the generator produced, reshaped, or nothing when generation or
      parsing failed or the result has no lesson array. */
  function Produced(key: string, generated: Result<GeneratedMicroSkills, Gemini.GenError>): (p: Option<MicroSkills>)
    ensures p.Some? <==> generated.Success? && generated.value.microSkills.Some?
    ensures p.Some? ==> p.value.subSkill == generated.value.subSkill
    ensures p.Some? ==> p.value.microSkills == Reshape(key, generated.value.microSkills.value)
  {
    match generated
    case Success(g) =>
      (match g.microSkills
       case Some(ms) => Some(MicroSkills(g.subSkill, Reshape(key, ms)))
       case None => None)
    case Failure(_) => None
  }

  // ---------------------------------------------------------------------------
  // The identifier mangling of the fallback code samples
  // ---------------------------------------------------------------------------

  /** No backslash in `r` is directly followed by an `s`. */
  predicate NoBackslashS(r: string) {
    forall i | 0 <= i < |r| - 1 :: !(r[i] == '\\' && r[i + 1] == 's')
  }

  /** `s` without its leading run of `s` characters. */
  function DropLeadingS(s: string): (r: string)
    ensures |r| <= |s| && r == s[|s| - |r|..]
    ensures r == [] || r[0] != 's'
    ensures forall i | 0 <= i < |s| - |r| :: s[i] == 's'
  {
    if s != [] && s[0] == 's' then DropLeadingS(s[1..]) else s
  }

  /** `s.replace(/\\s+/g, '')`: the pattern is a literal backslash followed by
      one or more `s` characters (not the white-space class), and every
      non-overlapping match, leftmost first, is removed. */
  function StripBackslashS(s: string): (r: string)
    ensures |r| <= |s|
    ensures r != [] && r[0] == 's' ==> s[0] == 's'
    ensures NoBackslashS(r)
    ensures (forall i | 0 <= i < |s| :: s[i] != '\\') ==> r == s
    decreases |s|
  {
    if |s| >= 2 && s[0] == '\\' && s[1] == 's' then StripBackslashS(DropLeadingS(s[1..]))
    else if s == [] then []
    else
      var rest := StripBackslashS(s[1..]);
      var r := [s[0]] + rest;
      assert forall i | 0 <= i < |rest| :: r[i + 1] == rest[i];
      assert rest != [] && rest[0] == 's' ==> s[1] == 's';
      r
  }

  // ---------------------------------------------------------------------------
  // Fallback and route
  // ---------------------------------------------------------------------------

  /** The code sample of the second fallback lesson. */
  function CoreConceptCode(subSkill: string): string {
    "// Core concept example\nfunction demonstrate" + StripBackslashS(subSkill) + "() {\n  // Implementation here\n  return \"Success!\";\n}"
  }

  /** The code sample of the third fallback lesson. */
  function PracticalCode(subSkill: string): string {
    "// Practical example\nclass " + StripBackslashS(subSkill)
      + "Example {\n  constructor() {\n    this.status = \"ready\";\n  }\n  \n  run() {\n    console.log(\"Running...\");\n  }\n}"
  }

  /** The titles of the fallback lessons, in order. */
  const FallbackTitles: seq<string> := ["Introduction", "Core Concepts", "Practical Application", "Best Practices"]

  /** The explanation of the `i`-th fallback lesson. */
  function FallbackExplanation(i: nat, subSkill: string): string
    requires i < 4
  {
    match i
    case 0 => "Welcome to " + subSkill + "! This section covers the fundamental concepts you need to understand before diving deeper. Take your time to absorb these concepts as they form the foundation for everything that follows."
    case 1 => "Now that you understand the basics, let's explore the core concepts of " + subSkill + ". These are the building blocks that you'll use in real-world applications."
    case 2 => "Time to put your knowledge into practice! This section shows you how to apply " + subSkill + " concepts in real scenarios."
    case _ => "Learn the industry best practices for " + subSkill + ". Following these guidelines will make your code more maintainable and professional."
  }

  /** The code sample of the `i`-th fallback lesson. */
  function FallbackCode(i: nat, subSkill: string): string
    requires i < 4
  {
    match i
    case 0 => "// Example code for " + subSkill + "\nconsole.log(\"Hello, " + subSkill + "!\");"
    case 1 => CoreConceptCode(subSkill)
    case 2 => PracticalCode(subSkill)
    case _ => "// Best practices example\n// 1. Use meaningful names\n// 2. Keep functions small\n// 3. Write comments\n// 4. Handle errors properly"
  }

  /** The expected output of the `i`-th fallback lesson. */
  function FallbackOutput(i: nat, subSkill: string): string
    requires i < 4
  {
    match i
    case 0 => "Hello, " + subSkill + "!"
    case 1 => "Success!"
    case 2 => "Running..."
    case _ => "Code quality improved!"
  }

  /** The notes of the `i`-th fallback lesson. */
  function FallbackNotes(i: nat): string
    requires i < 4
  {
    match i
    case 0 => "Start with the basics and practice regularly. Understanding these concepts well will make advanced topics much easier."
    case 1 => "Practice these concepts with different examples. Try modifying the code to see how it behaves."
    case 2 => "Real-world applications often combine multiple concepts. Try to create your own examples."
    case _ => "Good practices become habits with consistent application. Review your old code and improve it."
  }

  /** The `i`-th fallback lesson, identified as `${skill}-${subSkill}-${i}`. */
  function FallbackLesson(base: string, subSkill: string, i: nat): MicroSkill
    requires i < 4
  {
    MicroSkill(base + "-" + NatToString(i), Some(FallbackTitles[i]), Some(FallbackExplanation(i, subSkill)),
               Some(FallbackCode(i, subSkill)), Some(FallbackOutput(i, subSkill)), Some(FallbackNotes(i)), i + 1, false)
  }

  /** `generateFallbackMicroSkills`: four fixed lessons, identified by the raw
      skill and sub-skill names. */
  function FallbackMicroSkills(skill: string, subSkill: string): (r: MicroSkills)
    ensures r.subSkill == Some(subSkill)
    ensures |r.microSkills| == 4
    ensures Shaped(skill + "-" + subSkill, r.microSkills)
    ensures forall i | 0 <= i < 4 :: r.microSkills[i].title == Some(FallbackTitles[i])
  {
    MicroSkills(Some(subSkill), seq(4, i requires 0 <= i < 4 => FallbackLesson(skill + "-" + subSkill, subSkill, i)))
  }

  /** `POST /`: a missing skill or sub-skill is refused; otherwise a cached
      payload is returned as it is, a freshly generated one is reshaped,
      stored and returned, and any failure returns the fallback without
      storing it. */
  function PostMicroSkills(skill: Option<string>, subSkill: Option<string>, cache: map<string, MicroSkills>,
                       generated: Result<GeneratedMicroSkills, Gemini.GenError>): (a: Answer<MicroSkills, map<string, MicroSkills>>)
    ensures !Truthy(skill) || !Truthy(subSkill) ==> a == Answer(Fail(BadRequest, "Skill and subSkill are required"), cache)
    ensures Truthy(skill) && Truthy(subSkill) ==>
            var key := CacheKey(skill.value, subSkill.value);
            && a.reply.Ok?
            && (key in cache ==> a == Answer(Ok(cache[key]), cache))
            && (key !in cache && Produced(key, generated).Some? ==>
                a == Answer(Ok(Produced(key, generated).value), cache[key := Produced(key, generated).value]))
            && (key !in cache && Produced(key, generated).None? ==>
                a == Answer(Ok(FallbackMicroSkills(skill.value, subSkill.value)), cache))
  {
    if !Truthy(skill) || !Truthy(subSkill) then Answer(Fail(BadRequest, "Skill and subSkill are required"), cache)
    else
      var key := CacheKey(skill.value, subSkill.value);
      var s := Serve(cache, key, Produced(key, generated), FallbackMicroSkills(skill.value, subSkill.value));
      Answer(Ok(s.payload), s.cache)
  }

  // ---------------------------------------------------------------------------
  // Properties
  // ---------------------------------------------------------------------------

  /** The key is not injective: the dash that joins the names may also occur
      inside them. */
  lemma KeysCollide()
    ensures CacheKey("a-b", "c") == CacheKey("a", "b-c")
  {
    LowerUnchanged("a-b");
    LowerUnchanged("c");
    LowerUnchanged("a");
    LowerUnchanged("b-c");
  }

  /** Requests that differ only in ASCII letter case share a cache entry. */
  lemma CacheKeyIgnoresCase(skill: string, subSkill: string, skill2: string, subSkill2: string)
    requires Lower(skill) == Lower(skill2) && Lower(subSkill) == Lower(subSkill2)
    ensures CacheKey(skill, subSkill) == CacheKey(skill2, subSkill2)
  {
  }

  /** On a cache hit the generator's outcome does not matter. */
  lemma HitIgnoresGenerator(skill: Option<string>, subSkill: Option<string>, cache: map<string, MicroSkills>,
                            g1: Result<GeneratedMicroSkills, Gemini.GenError>, g2: Result<GeneratedMicroSkills, Gemini.GenError>)
    requires Truthy(skill) && Truthy(subSkill) && CacheKey(skill.value, subSkill.value) in cache
    ensures PostMicroSkills(skill, subSkill, cache, g1) == PostMicroSkills(skill, subSkill, cache, g2)
  {
  }

  /** Once a key is stored, a later request with the same key, whatever the
      generator does then, gets the same lessons and leaves the cache as it is. */
  lemma RepeatedRequestHits(skill: Option<string>, subSkill: Option<string>, skill2: Option<string>, subSkill2: Option<string>,
                            cache: map<string, MicroSkills>,
                            g1: Result<GeneratedMicroSkills, Gemini.GenError>, g2: Result<GeneratedMicroSkills, Gemini.GenError>)
    requires Truthy(skill) && Truthy(subSkill) && Truthy(skill2) && Truthy(subSkill2)
    requires CacheKey(skill2.value, subSkill2.value) == CacheKey(skill.value, subSkill.value)
    requires CacheKey(skill.value, subSkill.value) in PostMicroSkills(skill, subSkill, cache, g1).state
    ensures var a := PostMicroSkills(skill, subSkill, cache, g1);
            PostMicroSkills(skill2, subSkill2, a.state, g2) == a
  {
  }

  /** Requests keep every cached payload shaped for its key. */
  lemma PostMicroSkillsKeepsCacheWellFormed(skill: Option<string>, subSkill: Option<string>, cache: map<string, MicroSkills>,
                                            generated: Result<GeneratedMicroSkills, Gemini.GenError>)
    requires CacheWellFormed(cache)
    ensures CacheWellFormed(PostMicroSkills(skill, subSkill, cache, generated).state)
  {
    if Truthy(skill) && Truthy(subSkill) {
      var key := CacheKey(skill.value, subSkill.value);
      ServeKeepsInvariant((k: string, p: MicroSkills) => Shaped(k, p.microSkills), cache, key,
                          Produced(key, generated), FallbackMicroSkills(skill.value, subSkill.value));
    }
  }

  /** The fallback's identifiers use the raw names; they agree with the ones a
      generated payload would get exactly when lower-casing leaves both names
      as they are. */
  lemma FallbackIdsAgreeWhenLowerCase(skill: string, subSkill: string)
    requires Lower(skill) == skill && Lower(subSkill) == subSkill
    ensures Shaped(CacheKey(skill, subSkill), FallbackMicroSkills(skill, subSkill).microSkills)
  {
  }

  /** A sub-skill name without backslashes, spaces included, is embedded
      unchanged in the identifiers of both generated code samples. */
  lemma SpacesKeptInIdentifiers(subSkill: string)
    requires forall i | 0 <= i < |subSkill| :: subSkill[i] != '\\'
    ensures OccursAt(CoreConceptCode(subSkill), subSkill, 44)
    ensures OccursAt(PracticalCode(subSkill), subSkill, 27)
  {
    var p1 := "// Core concept example\nfunction demonstrate";
    var p2 := "// Practical example\nclass ";
    assert |p1| == 44 && |p2| == 27;
    var c1 := CoreConceptCode(subSkill);
    assert c1[44..44 + |subSkill|] == subSkill;
    var c2 := PracticalCode(subSkill);
    assert c2[27..27 + |subSkill|] == subSkill;
  }

  /** One step of the stripping on a character other than a backslash. */
  lemma StripStepPlain(c: char, t: string)
    requires c != '\\'
    ensures StripBackslashS([c] + t) == [c] + StripBackslashS(t)
  {
    assert ([c] + t)[1..] == t;
  }

  /** One step of the stripping on a backslash followed by `s`. */
  lemma StripStepRun(t: string)
    requires t != [] && t[0] == 's'
    ensures StripBackslashS(['\\'] + t) == StripBackslashS(DropLeadingS(t))
  {
    assert (['\\'] + t)[1..] == t;
  }

  /** A prefix without backslashes is kept as it is. */
  lemma StripPlainPrefix(a: string, t: string)
    requires '\\' !in a
    ensures StripBackslashS(a + t) == a + StripBackslashS(t)
  {
    forall c: char, x: string | c != '\\'
      ensures StripBackslashS([c] + x) == [c] + StripBackslashS(x)
    {
      StripStepPlain(c, x);
    }
    assert forall i | 0 <= i < |a| :: a[i] != '\\' by {
      forall i | 0 <= i < |a| ensures a[i] != '\\' { assert a[i] in a; }
    }
    PrefixCommutes(StripBackslashS, c => c != '\\', a, t);
  }

  /** A run of `s` is dropped up to the first other character. */
  lemma {:induction false} DropLeadingRun(ss: string, u: string)
    requires forall i | 0 <= i < |ss| :: ss[i] == 's'
    requires u == [] || u[0] != 's'
    ensures DropLeadingS(ss + u) == u
  {
    if ss == [] {
      assert ss + u == u;
    } else {
      assert (ss + u)[0] == 's' && (ss + u)[1..] == ss[1..] + u;
      DropLeadingRun(ss[1..], u);
    }
  }

  /** A backslash and its whole run of `s` are removed, and matching resumes
      after the run. */
  lemma BackslashRunDropped(ss: string, u: string)
    requires ss != [] && forall i | 0 <= i < |ss| :: ss[i] == 's'
    requires u == [] || u[0] != 's'
    ensures StripBackslashS(['\\'] + ss + u) == StripBackslashS(u)
  {
    assert ['\\'] + ss + u == ['\\'] + (ss + u);
    StripStepRun(ss + u);
    DropLeadingRun(ss, u);
  }

  /** A backslash not followed by `s` is kept. */
  lemma LoneBackslashKept(u: string)
    requires u == [] || u[0] != 's'
    ensures StripBackslashS(['\\'] + u) == ['\\'] + StripBackslashS(u)
  {
    var s := ['\\'] + u;
    assert s[1..] == u;
  }

  /** What the pattern does remove: a backslash and the run of `s` after it. */
  lemma BackslashRunRemoved()
    ensures StripBackslashS(['a', '\\', 's', 's', 'b']) == ['a', 'b']
  {
    var run, u := ['s', 's'], ['b'];
    calc {
      StripBackslashS(['a', '\\', 's', 's', 'b']);
    == { assert ['a', '\\', 's', 's', 'b'] == ['a'] + (['\\'] + run + u); }
      StripBackslashS(['a'] + (['\\'] + run + u));
    == { StripPlainPrefix(['a'], ['\\'] + run + u); }
      ['a'] + StripBackslashS(['\\'] + run + u);
    == { BackslashRunDropped(run, u); }
      ['a'] + StripBackslashS(u);
    == { StripStepPlain('b', []); assert u == ['b'] + [] && StripBackslashS([]) == []; }
      ['a', 'b'];
    }
  }
}
