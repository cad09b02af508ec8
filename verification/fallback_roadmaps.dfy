/** The client-side fallback catalog (src/data/fallbackRoadmaps.js): three
    fixed career roadmaps and `getFallbackRoadmap`, an exact, case-insensitive
    lookup by role after trimming the input. */
module FallbackRoadmaps {
  import opened Wrappers
  import opened Js

  /** One numbered step of a roadmap. */
  datatype Step = Step(step: int, title: string, description: string, resources: seq<string>)

  /** A catalog entry. */
  datatype Entry = Entry(role: string, description: string, steps: seq<Step>)

  const FrontendDeveloper := Entry(
    "Frontend Developer",
    "Master modern web development with React and create stunning user interfaces",
    [
      Step(1, "Master HTML, CSS & JavaScript Fundamentals",
        "Build a strong foundation in core web technologies. Learn semantic HTML, modern CSS including Flexbox and Grid, and ES6+ JavaScript features.",
        ["https://developer.mozilla.org/en-US/docs/Learn", "https://javascript.info/", "https://css-tricks.com/guides/"]),
      Step(2, "Learn React & Modern Frontend Frameworks",
        "Dive into React fundamentals, hooks, state management, and component architecture. Understand virtual DOM and build interactive applications.",
        ["https://react.dev/learn", "https://www.freecodecamp.org/learn/front-end-development-libraries/", "https://www.youtube.com/watch?v=bMknfKXIFA8"]),
      Step(3, "Build Real-World Projects & Portfolio",
        "Apply your skills by building full-featured applications. Create a portfolio showcasing responsive designs, API integration, and modern tooling.",
        ["https://www.frontendmentor.io/", "https://github.com/florinpop17/app-ideas", "https://www.freecodecamp.org/news/portfolio-app-using-react-618814e35843/"])
    ])

  const DevOpsEngineer := Entry(
    "DevOps Engineer",
    "Learn infrastructure automation, containerization, and cloud deployment practices",
    [
      Step(1, "Master Linux & Command Line Essentials",
        "Gain proficiency in Linux administration, shell scripting, networking fundamentals, and system monitoring tools.",
        ["https://www.linux.org/forums/#linux-tutorials.122", "https://www.freecodecamp.org/news/the-linux-commands-handbook/", "https://linuxjourney.com/"]),
      Step(2, "Learn Docker & Kubernetes",
        "Master containerization with Docker, orchestration with Kubernetes, and microservices architecture patterns.",
        ["https://docs.docker.com/get-started/", "https://kubernetes.io/docs/tutorials/", "https://www.freecodecamp.org/news/the-kubernetes-handbook/"]),
      Step(3, "Implement CI/CD Pipelines & Cloud Platforms",
        "Set up automated deployment pipelines using Jenkins, GitHub Actions, or GitLab CI. Learn AWS, Azure, or GCP cloud services.",
        ["https://www.jenkins.io/doc/tutorials/", "https://docs.github.com/en/actions/quickstart", "https://aws.amazon.com/getting-started/"])
    ])

  const FullStackDeveloper := Entry(
    "Full Stack Developer",
    "Become proficient in both frontend and backend development with modern tech stacks",
    [
      Step(1, "Frontend Development with React",
        "Master React, JavaScript, state management, and modern CSS frameworks like Tailwind CSS.",
        ["https://react.dev/learn", "https://developer.mozilla.org/en-US/docs/Web/JavaScript", "https://tailwindcss.com/docs"]),
      Step(2, "Backend Development with Node.js",
        "Learn Node.js, Express, RESTful APIs, authentication, and database design with MongoDB or PostgreSQL.",
        ["https://nodejs.org/en/docs/", "https://expressjs.com/en/starter/installing.html", "https://www.mongodb.com/docs/"]),
      Step(3, "Deploy Full Stack Applications",
        "Learn deployment strategies, cloud hosting, database management, and monitoring for production applications.",
        ["https://vercel.com/docs", "https://www.digitalocean.com/community/tutorials", "https://www.heroku.com/"])
    ])

  /** `fallbackRoadmaps`, in order. */
  const Catalog: seq<Entry> := [FrontendDeveloper, DevOpsEngineer, FullStackDeveloper]

  /** The entry's role equals the normalised input, ignoring the role's case. */
  predicate RoleIs(e: Entry, normalized: string) {
    Lower(e.role) == normalized
  }

  /** The first entry of `entries` whose role matches. */
  function FindRole(entries: seq<Entry>, normalized: string): (r: Option<nat>)
    ensures r.Some? ==> r.value < |entries| && RoleIs(entries[r.value], normalized)
    ensures r.Some? ==> forall i | 0 <= i < r.value :: !RoleIs(entries[i], normalized)
    ensures r.None? ==> forall i | 0 <= i < |entries| :: !RoleIs(entries[i], normalized)
  {
    if entries == [] then None
    else if RoleIs(entries[0], normalized) then Some(0)
    else match FindRole(entries[1..], normalized)
      case Some(i) => Some(i + 1)
      case None => None
  }

  /** `getFallbackRoadmap`: the catalog entry whose role equals the input
      lower-cased and trimmed, or nothing. */
  function GetFallbackRoadmap(role: string): (r: Option<Entry>)
    ensures r.Some? <==> exists i | 0 <= i < |Catalog| :: RoleIs(Catalog[i], Trim(Lower(role)))
    ensures r.Some? ==> r.value in Catalog && RoleIs(r.value, Trim(Lower(role)))
  {
    match FindRole(Catalog, Trim(Lower(role)))
    case Some(i) => Some(Catalog[i])
    case None => None
  }

  // ---------------------------------------------------------------------------
  // Properties
  // ---------------------------------------------------------------------------

  /** The catalog roles, lower-cased. */
  lemma CatalogRolesLower()
    ensures Lower(Catalog[0].role) == "frontend developer"
    ensures Lower(Catalog[1].role) == "devops engineer"
    ensures Lower(Catalog[2].role) == "full stack developer"
  {
    LowerFrontend();
    LowerDevOps();
    LowerFullStack();
  }

  lemma LowerFrontend()
    ensures Lower("Frontend Developer") == "frontend developer"
  {
    var a := Lower("Frontend Developer");
    assert forall i | 0 <= i < |a| :: a[i] == "frontend developer"[i];
  }

  lemma LowerDevOps()
    ensures Lower("DevOps Engineer") == "devops engineer"
  {
    var b := Lower("DevOps Engineer");
    assert forall i | 0 <= i < |b| :: b[i] == "devops engineer"[i];
  }

  lemma LowerFullStack()
    ensures Lower("Full Stack Developer") == "full stack developer"
  {
    var c := Lower("Full Stack Developer");
    assert forall i | 0 <= i < |c| :: c[i] == "full stack developer"[i];
  }

  /** No two catalog roles are equal ignoring case, so at most one entry
      matches any input. */
  lemma RolesDistinct()
    ensures forall i, j | 0 <= i < j < |Catalog| :: Lower(Catalog[i].role) != Lower(Catalog[j].role)
  {
    CatalogRolesLower();
    assert "frontend developer" != "full stack developer" by {
      assert "frontend developer"[1] != "full stack developer"[1];
    }
  }

  /** Every entry has three steps numbered 1, 2, 3. */
  lemma StepsNumbered()
    ensures forall e | e in Catalog :: |e.steps| == 3 && forall i | 0 <= i < 3 :: e.steps[i].step == i + 1
  {
  }

  /** The lookup ignores letter case and surrounding white space, and returns
      the catalog entry itself, with the catalog's casing. */
  lemma PaddedMixedCaseFound()
    ensures GetFallbackRoadmap("  frontend DEVELOPER ") == Some(FrontendDeveloper)
  {
    NormalisePadded();
    CatalogRolesLower();
    assert FindRole(Catalog, "frontend developer") == Some(0);
  }

  lemma NormalisePadded()
    ensures Trim(Lower("  frontend DEVELOPER ")) == "frontend developer"
  {
    LowerPadded();
    TrimPadded("  ", "frontend developer", " ");
  }

  lemma LowerPadded()
    ensures Lower("  frontend DEVELOPER ") == "  " + "frontend developer" + " "
  {
    var s := Lower("  frontend DEVELOPER ");
    assert forall i | 0 <= i < |s| :: s[i] == ("  " + "frontend developer" + " ")[i];
  }

  /** The lookup is exact, not a substring match: a prefix of a role or a
      role not in the catalog finds nothing. */
  lemma ExactMatchOnly()
    ensures GetFallbackRoadmap("Frontend") == None
    ensures GetFallbackRoadmap("Backend Developer") == None
  {
    CatalogRolesLower();
    NormaliseFrontend();
    NormaliseBackend();
    assert "backend developer" != "frontend developer" by {
      assert "backend developer"[0] != "frontend developer"[0];
    }
  }

  lemma NormaliseFrontend()
    ensures Trim(Lower("Frontend")) == "frontend"
  {
    var a := Lower("Frontend");
    assert forall i | 0 <= i < |a| :: a[i] == "frontend"[i];
    TrimTrimmed("frontend");
  }

  lemma NormaliseBackend()
    ensures Trim(Lower("Backend Developer")) == "backend developer"
  {
    var b := Lower("Backend Developer");
    assert forall i | 0 <= i < |b| :: b[i] == "backend developer"[i];
    TrimTrimmed("backend developer");
  }
}
