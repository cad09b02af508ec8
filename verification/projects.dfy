/** The project catalog and the stub scorer of the project routes
    (backend/routes/projects.js): the ordered keyword lookup of a capstone
    project for a sub-skill, and the validation, scoring and feedback of a
    submission. */
module Projects {
  import opened Wrappers
  import opened Js
  import opened Http

  /** A capstone project template. */
  datatype Template = Template(title: string, description: string, requirements: seq<string>)

  const HtmlTemplate: Template := Template(
    "Personal Portfolio Website",
    "Create a responsive personal portfolio with sections for About, Skills, Projects, and Contact.",
    ["Semantic HTML5 elements", "At least 4 sections", "Navigation menu", "Contact form", "Responsive images"])

  const CssTemplate: Template := Template(
    "CSS Art Gallery",
    "Build a beautiful art gallery page with advanced CSS styling and animations.",
    ["Flexbox or Grid layout", "CSS animations", "Hover effects", "Responsive design", "Custom color scheme"])

  const JavascriptTemplate: Template := Template(
    "Interactive Quiz App",
    "Create a quiz application with multiple questions, scoring, and timer.",
    ["DOM manipulation", "Event handling", "Score tracking", "Timer functionality", "Results display"])

  const ReactTemplate: Template := Template(
    "Task Management Dashboard",
    "Build a full-featured task management app with React.",
    ["Component architecture", "State management", "CRUD operations", "Filtering/sorting", "Local storage persistence"])

  const NodeTemplate: Template := Template(
    "REST API Server",
    "Create a RESTful API with Express.js for a blog system.",
    ["CRUD endpoints", "Error handling", "Input validation", "Authentication", "API documentation"])

  const DatabaseTemplate: Template := Template(
    "Database Design Project",
    "Design and implement a database for an e-commerce system.",
    ["ER diagram", "Normalized schema", "Relationships", "Indexes", "Sample queries"])

  const ApiTemplate: Template := Template(
    "API Integration Service",
    "Build a service that integrates multiple third-party APIs.",
    ["Multiple API calls", "Data aggregation", "Error handling", "Rate limiting", "Caching"])

  const PythonTemplate: Template := Template(
    "Data Processing Script",
    "Create a Python script for processing and analyzing data.",
    ["File handling", "Data parsing", "Statistical analysis", "Report generation", "Error handling"])

  const JavaTemplate: Template := Template(
    "Console Banking Application",
    "Build a banking system with account management.",
    ["OOP principles", "Account operations", "Transaction history", "Data persistence", "Input validation"])

  const DataTemplate: Template := Template(
    "Mini Prediction Model",
    "Build a simple machine learning model for prediction.",
    ["Data preprocessing", "Feature selection", "Model training", "Evaluation metrics", "Prediction interface"])

  const VisualizationTemplate: Template := Template(
    "Interactive Dashboard",
    "Create an interactive data visualization dashboard.",
    ["Multiple chart types", "Interactive filters", "Real-time updates", "Export functionality", "Responsive layout"])

  const CloudTemplate: Template := Template(
    "Cloud Deployment Project",
    "Deploy a web application to cloud infrastructure.",
    ["Cloud setup", "CI/CD pipeline", "Environment config", "Monitoring", "Documentation"])

  const DockerTemplate: Template := Template(
    "Containerized Application",
    "Containerize a multi-service application.",
    ["Dockerfile creation", "Docker Compose", "Networking", "Volume management", "Production config"])

  const DesignTemplate: Template := Template(
    "App Wireframe Design",
    "Design complete wireframes for a mobile application.",
    ["User research", "Information architecture", "Low-fidelity wireframes", "High-fidelity mockups", "Prototype"])

  const UxTemplate: Template := Template(
    "UX Case Study",
    "Complete a UX case study for an existing application redesign.",
    ["User research", "Persona creation", "User journey map", "Usability testing", "Final recommendations"])

  const DefaultTemplate: Template := Template(
    "Skill Demonstration Project",
    "Create a project that demonstrates your understanding of the learned skills.",
    ["Apply core concepts", "Best practices", "Documentation", "Clean code", "Working demo"])

  /** The keyword table in declaration order, which is the order in which the
      lookup tries the keys; `default` is itself the last key. */
  const Templates: seq<(string, Template)> := [
    ("html", HtmlTemplate),
    ("css", CssTemplate),
    ("javascript", JavascriptTemplate),
    ("react", ReactTemplate),
    ("node", NodeTemplate),
    ("database", DatabaseTemplate),
    ("api", ApiTemplate),
    ("python", PythonTemplate),
    ("java", JavaTemplate),
    ("data", DataTemplate),
    ("visualization", VisualizationTemplate),
    ("cloud", CloudTemplate),
    ("docker", DockerTemplate),
    ("design", DesignTemplate),
    ("ux", UxTemplate),
    ("default", DefaultTemplate)
  ]

  const PassingScore: int := 75
  const MaxScore: int := 100

  // ---------------------------------------------------------------------------
  // GET /:subSkill
  // ---------------------------------------------------------------------------

  /** The position of the first key, at or after `from`, that occurs in `s`. */
  function FirstKeyIn(s: string, from: nat): (r: Option<nat>)
    requires from <= |Templates|
    ensures r.Some? ==> from <= r.value < |Templates| && Contains(s, Templates[r.value].0)
    ensures r.Some? ==> forall j | from <= j < r.value :: !Contains(s, Templates[j].0)
    ensures r.None? ==> forall j | from <= j < |Templates| :: !Contains(s, Templates[j].0)
    decreases |Templates| - from
  {
    if from == |Templates| then None
    else if Contains(s, Templates[from].0) then Some(from)
    else FirstKeyIn(s, from + 1)
  }

  /** The template for a sub-skill: that of the first key, in declaration
      order, contained in the lower-cased sub-skill; the default template when
      no key is contained. */
  function ProjectFor(subSkill: string): (t: Template)
    ensures forall j | 0 <= j < |Templates| && Contains(Lower(subSkill), Templates[j].0) ::
      (forall i | 0 <= i < j :: !Contains(Lower(subSkill), Templates[i].0)) ==> t == Templates[j].1
    ensures (forall j | 0 <= j < |Templates| :: !Contains(Lower(subSkill), Templates[j].0)) ==> t == DefaultTemplate
    ensures exists j | 0 <= j < |Templates| :: t == Templates[j].1
  {
    match FirstKeyIn(Lower(subSkill), 0)
    case Some(j) => Templates[j].1
    case None => assert Templates[15].1 == DefaultTemplate; DefaultTemplate
  }

  /** A project as served: the template's fields plus a derived id and the
      fixed scores. */
  datatype Project = Project(
    title: string, description: string, requirements: seq<string>,
    id: string, passingScore: int, maxScore: int)

  datatype ProjectReply = ProjectReply(subSkill: string, project: Project)

  /** GET /:subSkill. */
  function GetProject(subSkill: string): (r: ProjectReply)
    ensures r.subSkill == subSkill
    ensures r.project.id == "project-" + Lower(subSkill)
    ensures r.project.passingScore == PassingScore && r.project.maxScore == MaxScore
    ensures Template(r.project.title, r.project.description, r.project.requirements) == ProjectFor(subSkill)
  {
    var t := ProjectFor(subSkill);
    ProjectReply(subSkill, Project(t.title, t.description, t.requirements,
                                   "project-" + Lower(subSkill), 75, 100))
  }

  /** "Advanced React Patterns" is served the `react` project: `html`, `css`
      and `javascript` are not in it, `react` is. */
  lemma AdvancedReactPatterns()
    ensures ProjectFor("Advanced React Patterns") == ReactTemplate
  {
    var s := "advanced react patterns";
    AdvancedReactKeys();
    assert FirstKeyIn(s, 3) == Some(3);
    assert FirstKeyIn(s, 2) == Some(3);
    assert FirstKeyIn(s, 1) == Some(3);
    assert FirstKeyIn(s, 0) == Some(3);
  }

  lemma AdvancedReactKeys()
    ensures Lower("Advanced React Patterns") == "advanced react patterns"
    ensures !Contains("advanced react patterns", "html") && !Contains("advanced react patterns", "css")
    ensures !Contains("advanced react patterns", "javascript") && Contains("advanced react patterns", "react")
  {
    var s := "advanced react patterns";
    LowerAdvancedReactPatterns();
    NotContainsFirstChar(s, "html");
    NotContainsFirstPair(s, "css");
    NotContainsFirstChar(s, "javascript");
    assert OccursAt(s, "react", 9);
  }

  lemma LowerAdvancedReactPatterns()
    ensures Lower("Advanced React Patterns") == "advanced react patterns"
  {
    var s := Lower("Advanced React Patterns");
    assert forall i | 0 <= i < |s| :: s[i] == "advanced react patterns"[i];
  }

  /** Key order decides overlaps: "javascript basics" contains both
      `javascript` and `java` and is served the earlier `javascript` project. */
  lemma JavascriptBeforeJava()
    ensures Contains(Lower("javascript basics"), "java")
    ensures ProjectFor("javascript basics") == JavascriptTemplate
  {
    var s := "javascript basics";
    JavascriptBasicsKeys();
    assert FirstKeyIn(s, 2) == Some(2);
    assert FirstKeyIn(s, 1) == Some(2);
    assert FirstKeyIn(s, 0) == Some(2);
  }

  lemma JavascriptBasicsKeys()
    ensures Lower("javascript basics") == "javascript basics"
    ensures !Contains("javascript basics", "html") && !Contains("javascript basics", "css")
    ensures Contains("javascript basics", "javascript") && Contains("javascript basics", "java")
  {
    var s := "javascript basics";
    LowerUnchanged(s);
    NotContainsFirstChar(s, "html");
    NotContainsFirstPair(s, "css");
    assert OccursAt(s, "javascript", 0);
    assert OccursAt(s, "java", 0);
  }

  /** Key order decides overlaps: "database design" contains both `database`
      and `data` and is served the earlier `database` project. */
  lemma DatabaseBeforeData()
    ensures Contains(Lower("database design"), "data")
    ensures ProjectFor("database design") == DatabaseTemplate
  {
    var s := "database design";
    DatabaseDesignKeys();
    assert FirstKeyIn(s, 5) == Some(5);
    assert FirstKeyIn(s, 4) == Some(5);
    assert FirstKeyIn(s, 3) == Some(5);
    assert FirstKeyIn(s, 2) == Some(5);
    assert FirstKeyIn(s, 1) == Some(5);
    assert FirstKeyIn(s, 0) == Some(5);
  }

  lemma DatabaseDesignKeys()
    ensures Lower("database design") == "database design"
    ensures !Contains("database design", "html") && !Contains("database design", "css")
    ensures !Contains("database design", "javascript") && !Contains("database design", "react")
    ensures !Contains("database design", "node")
    ensures Contains("database design", "database") && Contains("database design", "data")
  {
    var s := "database design";
    LowerUnchanged(s);
    DatabaseDesignMisses();
    assert OccursAt(s, "database", 0);
    assert OccursAt(s, "data", 0);
  }

  lemma DatabaseDesignMisses()
    ensures !Contains("database design", "html") && !Contains("database design", "css")
    ensures !Contains("database design", "javascript") && !Contains("database design", "react")
    ensures !Contains("database design", "node")
  {
    var s := "database design";
    NotContainsFirstChar(s, "html");
    NotContainsFirstChar(s, "css");
    NotContainsFirstChar(s, "javascript");
    NotContainsFirstChar(s, "react");
    NotContainsFirstPair(s, "node");
  }

  // ---------------------------------------------------------------------------
  // POST /submit
  // ---------------------------------------------------------------------------

  datatype SubmissionType = Code | Url | File

  const ValidTypes: seq<string> := ["code", "url", "file"]

  /** The submission type named by `s`, if it is one of the accepted names. */
  function ParseSubmissionType(s: string): (t: Option<SubmissionType>)
    ensures t.Some? <==> s in ValidTypes
  {
    if s == "code" then Some(Code)
    else if s == "url" then Some(Url)
    else if s == "file" then Some(File)
    else None
  }

  datatype Feedback = Feedback(summary: string, strengths: seq<string>, improvements: seq<string>)

  const ExcellentFeedback: Feedback := Feedback(
    "Excellent work! Your project demonstrates outstanding understanding.",
    ["Clean code structure", "Complete implementation", "Good documentation"],
    ["Consider adding more edge case handling"])

  const GreatFeedback: Feedback := Feedback(
    "Great job! Your project shows solid understanding of the concepts.",
    ["Good code organization", "Meets requirements", "Working implementation"],
    ["Add more comments", "Consider edge cases"])

  const GoodFeedback: Feedback := Feedback(
    "Good work! You passed and demonstrated competency.",
    ["Core functionality works", "Basic requirements met"],
    ["Improve code structure", "Add error handling", "More testing needed"])

  const KeepTryingFeedback: Feedback := Feedback(
    "Keep trying! Review the concepts and resubmit.",
    ["Shows effort", "Basic structure present"],
    ["Complete all requirements", "Fix functionality issues", "Review core concepts"])

  /** The canned feedback for a score; the `passed` flag is accepted and not
      consulted. Each band is a half-open score interval whose lower boundary
      belongs to it. */
  function GenerateFeedback(score: int, passed: bool): (f: Feedback)
    ensures f == ExcellentFeedback <==> score >= 90
    ensures f == GreatFeedback <==> 80 <= score < 90
    ensures f == GoodFeedback <==> 75 <= score < 80
    ensures f == KeepTryingFeedback <==> score < 75
  {
    assert |ExcellentFeedback.improvements| == 1 && |GreatFeedback.improvements| == 2;
    assert |GoodFeedback.strengths| == 2 && |KeepTryingFeedback.strengths| == 2;
    assert GoodFeedback.summary != KeepTryingFeedback.summary;
    if score >= 90 then ExcellentFeedback
    else if score >= 80 then GreatFeedback
    else if score >= 75 then GoodFeedback
    else KeepTryingFeedback
  }

  /** The candidate scores, one of which is drawn per submission. */
  const PossibleScores: seq<int> := [72, 75, 78, 82, 85, 90]

  /** `Math.floor(random * 6)` for `random` in [0, 1): an index into the
      candidate scores. */
  function ScoreIndex(random: real): (i: nat)
    requires 0.0 <= random < 1.0
    ensures i < |PossibleScores|
    ensures i as real <= random * 6.0 < i as real + 1.0
  {
    (random * 6.0).Floor
  }

  datatype Submission = Submission(
    userId: Option<string>, skill: Option<string>, subSkill: string,
    submissionType: SubmissionType, score: int, maxScore: int, passed: bool,
    feedback: Feedback)

  /** POST /submit. `random` stands for the value of `Math.random()`. The
      submitted `content` is accepted and never read. */
  function Submit(userId: Option<string>, skill: Option<string>, subSkill: Option<string>,
                  submissionType: Option<string>, content: Option<string>, random: real): (r: Reply<Submission>)
    requires 0.0 <= random < 1.0
    ensures r.Fail? <==> !Truthy(subSkill) || !Truthy(submissionType) || submissionType.value !in ValidTypes
    ensures r.Fail? ==> r.status == BadRequest
    ensures r.Ok? ==> r.body.score in PossibleScores && r.body.score == PossibleScores[ScoreIndex(random)]
    ensures r.Ok? ==> (r.body.passed <==> r.body.score >= PassingScore)
    ensures r.Ok? ==> r.body.maxScore == MaxScore
    ensures r.Ok? ==> r.body.feedback == GenerateFeedback(r.body.score, r.body.passed)
    ensures r.Ok? ==> r.body.subSkill == subSkill.value && r.body.userId == userId && r.body.skill == skill
    ensures r.Ok? ==> Some(r.body.submissionType) == ParseSubmissionType(submissionType.value)
  {
    if !Truthy(subSkill) || !Truthy(submissionType) then
      Fail(BadRequest, "subSkill and submissionType are required")
    else
      match ParseSubmissionType(submissionType.value)
      case None => Fail(BadRequest, "Invalid submission type")
      case Some(kind) =>
        var score := PossibleScores[ScoreIndex(random)];
        var passed := score >= 75;
        Ok(Submission(userId, skill, subSkill.value, kind, score, 100, passed,
                      GenerateFeedback(score, passed)))
  }

  /** The grade does not depend on the submitted content. */
  lemma ContentNotRead(userId: Option<string>, skill: Option<string>, subSkill: Option<string>,
                       submissionType: Option<string>, c1: Option<string>, c2: Option<string>, random: real)
    requires 0.0 <= random < 1.0
    ensures Submit(userId, skill, subSkill, submissionType, c1, random)
         == Submit(userId, skill, subSkill, submissionType, c2, random)
  {
  }

  /** Over the candidate scores, "Keep trying" is chosen exactly for a failed
      submission. */
  lemma KeepTryingIffFailed(userId: Option<string>, skill: Option<string>, subSkill: Option<string>,
                            submissionType: Option<string>, content: Option<string>, random: real)
    requires 0.0 <= random < 1.0
    ensures var r := Submit(userId, skill, subSkill, submissionType, content, random);
            r.Ok? ==> (r.body.feedback == KeepTryingFeedback <==> !r.body.passed)
  {
  }

  /** Each candidate score is drawn for some value of `Math.random()`. */
  lemma EveryScoreReachable(k: nat)
    requires k < |PossibleScores|
    ensures ScoreIndex(k as real / 6.0) == k
  {
  }

  /** The feedback bands are ordered by score: a higher score never gets a
      lower band. */
  function BandRank(f: Feedback): int {
    if f == ExcellentFeedback then 3
    else if f == GreatFeedback then 2
    else if f == GoodFeedback then 1
    else 0
  }

  lemma FeedbackMonotone(a: int, b: int, pa: bool, pb: bool)
    requires a <= b
    ensures BandRank(GenerateFeedback(a, pa)) <= BandRank(GenerateFeedback(b, pb))
  {
  }
}
