/** The skill search route (backend/routes/skills.js): `GET /search` answers a
    skill with a fixed three-level roadmap in which only the first topic and
    the domain name depend on the skill. */
module SkillsRoute {
  import opened Wrappers
  import opened Js
  import opened Http
  import ProgressRoute

  /** One level of the roadmap. */
  datatype Level = Level(level: string, topics: seq<string>, projects: seq<string>)

  /** The search reply. */
  datatype SkillRoadmap = SkillRoadmap(searchedSkill: string, detectedDomain: string, roadmap: seq<Level>)

  /** `s.charAt(0).toUpperCase() + s.slice(1)`. */
  function Capitalize(s: string): (r: string)
    ensures |r| == |s|
    ensures s != [] ==> r[0] == UpperChar(s[0]) && r[1..] == s[1..]
  {
    if s == [] then [] else [UpperChar(s[0])] + s[1..]
  }

  /** The three levels, the first topic named after the skill. */
  function Levels(skill: string): seq<Level> {
    [
      Level("Beginner",
        [skill + " Fundamentals", "Basic Concepts", "Getting Started", "Core Principles", "First Steps"],
        ["Hello World Project", "Basic Calculator", "Simple Portfolio"]),
      Level("Intermediate",
        ["Advanced Concepts", "Best Practices", "Design Patterns", "Testing Basics", "API Integration"],
        ["Task Manager App", "Weather Dashboard", "Blog Platform"]),
      Level("Advanced",
        ["Performance Optimization", "Security Best Practices", "Scalability", "CI/CD Integration", "System Design"],
        ["Full-Stack Application", "Real-time Chat App", "E-commerce Platform"])
    ]
  }

  /** The number of topics over all levels. */
  function TopicCount(levels: seq<Level>): nat {
    if levels == [] then 0 else |levels[0].topics| + TopicCount(levels[1..])
  }

  /** `generateRoadmap`. */
  function GenerateRoadmap(skill: string): (r: SkillRoadmap)
    ensures r.searchedSkill == skill
    ensures r.detectedDomain == Capitalize(skill) + " Development"
    ensures |r.roadmap| == 3
    ensures r.roadmap[0].level == "Beginner" && r.roadmap[1].level == "Intermediate" && r.roadmap[2].level == "Advanced"
    ensures forall i | 0 <= i < 3 :: |r.roadmap[i].topics| == 5 && |r.roadmap[i].projects| == 3
    ensures r.roadmap[0].topics[0] == skill + " Fundamentals"
  {
    SkillRoadmap(skill, Capitalize(skill) + " Development", Levels(skill))
  }

  /** `GET /search`: a missing skill gives 400. */
  function Search(skill: Option<string>): (r: Reply<SkillRoadmap>)
    ensures !Truthy(skill) ==> r == Fail(BadRequest, "Skill parameter is required")
    ensures Truthy(skill) ==> r == Ok(GenerateRoadmap(skill.value))
  {
    if !Truthy(skill) then Fail(BadRequest, "Skill parameter is required") else Ok(GenerateRoadmap(skill.value))
  }

  /** Fifteen topics in all: the total the progress route assumes for a new
      entry. */
  lemma TopicTotalIsProgressDefault(skill: string)
    ensures TopicCount(GenerateRoadmap(skill).roadmap) == ProgressRoute.DefaultTotalTopics
  {
    var l := Levels(skill);
    assert TopicCount(l[2..]) == 5 by {
      assert l[2..][1..] == [];
    }
    assert l[1..][1..] == l[2..];
    assert TopicCount(l[1..]) == 10;
  }

  /** Two skills get the same roadmap except for the searched skill, the
      domain and the first Beginner topic. */
  lemma OnlyFirstTopicDepends(a: string, b: string)
    ensures var ra, rb := GenerateRoadmap(a), GenerateRoadmap(b);
            && (forall i | 0 <= i < 3 :: ra.roadmap[i].level == rb.roadmap[i].level && ra.roadmap[i].projects == rb.roadmap[i].projects)
            && ra.roadmap[0].topics[1..] == rb.roadmap[0].topics[1..]
            && ra.roadmap[1..] == rb.roadmap[1..]
  {
  }

  /** The domain upper-cases only the first character of the skill. */
  lemma DomainCapitalisesFirst()
    ensures GenerateRoadmap("react").detectedDomain == "React Development"
  {
    assert Capitalize("react") == "React";
  }
}
