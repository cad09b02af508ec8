/** The client's roadmap service (frontend/src/services/roadmapService.js):
    `fetchRoadmapByRole` prefers the database row and otherwise falls back to
    the catalog, through `getFallbackRoadmapData`, which also derives an id
    from the requested role. The database query is an abstract outcome. */
module RoadmapService {
  import opened Wrappers
  import opened Js
  import FallbackRoadmaps

  /** The fallback payload: the catalog entry's content with an id derived
      from the requested role. The timestamps are not modelled. */
  datatype RoadmapData = RoadmapData(id: string, role: string, description: string, steps: seq<FallbackRoadmaps.Step>)

  /** What the `roadmaps` query produced: an error, an exception, or the
      single matching row (absent when there is none). */
  datatype QueryOutcome<Row> = QueryError | QueryThrew | QueryData(data: Option<Row>)

  /** What `fetchRoadmapByRole` returns: the database row, the fallback
      payload, or `null`. */
  datatype Fetched<Row> = FromDatabase(row: Row) | FromFallback(data: RoadmapData) | Nothing

  /** `s.replace(/\s+/g, '-')`: every maximal run of white space becomes one
      dash. */
  function DashRuns(s: string): (r: string)
    ensures forall i | 0 <= i < |r| :: !IsWhiteSpace(r[i])
    ensures |r| <= |s|
    decreases |s|
  {
    if s == [] then []
    else if IsWhiteSpace(s[0]) then "-" + DashRuns(s[SkipWhiteSpace(s, 0)..])
    else [s[0]] + DashRuns(s[1..])
  }

  /** `getFallbackRoadmapData`: nothing when the catalog has no entry for the
      role; otherwise the entry's content under the id
      `fallback-<role lower-cased, white-space runs dashed>`. The role is not
      trimmed for the id. */
  function GetFallbackRoadmapData(role: string): (r: Option<RoadmapData>)
    ensures r.None? <==> FallbackRoadmaps.GetFallbackRoadmap(role).None?
    ensures r.Some? ==>
              var e := FallbackRoadmaps.GetFallbackRoadmap(role).value;
              && r.value.id == "fallback-" + DashRuns(Lower(role))
              && r.value.role == e.role && r.value.description == e.description && r.value.steps == e.steps
  {
    match FallbackRoadmaps.GetFallbackRoadmap(role)
    case None => None
    case Some(e) => Some(RoadmapData("fallback-" + DashRuns(Lower(role)), e.role, e.description, e.steps))
  }

  /** `fetchRoadmapByRole`: the row when the query succeeds with one; the
      fallback (possibly nothing) on an error, an exception or no row. */
  function FetchRoadmapByRole<Row>(role: string, query: QueryOutcome<Row>): (r: Fetched<Row>)
    ensures query.QueryData? && query.data.Some? ==> r == FromDatabase(query.data.value)
    ensures !(query.QueryData? && query.data.Some?) ==>
              r == (match GetFallbackRoadmapData(role) case Some(d) => FromFallback(d) case None => Nothing)
  {
    match query
    case QueryData(Some(row)) => FromDatabase(row)
    case _ =>
      match GetFallbackRoadmapData(role)
      case Some(d) => FromFallback(d)
      case None => Nothing
  }

  // ---------------------------------------------------------------------------
  // Properties
  // ---------------------------------------------------------------------------

  /** The three outcomes of `fetchRoadmapByRole` in terms of the query and the
      catalog: the row exactly when the query found one, the catalog entry
      exactly when it did not and the catalog knows the role, and nothing
      exactly when neither has it. */
  lemma FetchOutcomes<Row>(role: string, query: QueryOutcome<Row>)
    ensures var r := FetchRoadmapByRole(role, query);
            && (r.FromDatabase? <==> query.QueryData? && query.data.Some?)
            && (r.FromFallback? <==> !(query.QueryData? && query.data.Some?) && FallbackRoadmaps.GetFallbackRoadmap(role).Some?)
            && (r.Nothing? <==> !(query.QueryData? && query.data.Some?) && FallbackRoadmaps.GetFallbackRoadmap(role).None?)
            && (r.FromFallback? ==> r.data.role == FallbackRoadmaps.GetFallbackRoadmap(role).value.role)
  {
  }

  /** Text without white space is copied. */
  lemma DashRunsPlain(a: string, b: string)
    requires forall i | 0 <= i < |a| :: !IsWhiteSpace(a[i])
    ensures DashRuns(a + b) == a + DashRuns(b)
  {
    forall c: char, x: string | !IsWhiteSpace(c)
      ensures DashRuns([c] + x) == [c] + DashRuns(x)
    {
      assert ([c] + x)[1..] == x;
    }
    PrefixCommutes(DashRuns, c => !IsWhiteSpace(c), a, b);
  }

  /** A run of white space followed by a non-space becomes a single dash. */
  lemma DashRunsRun(w: string, b: string)
    requires w != [] && forall i | 0 <= i < |w| :: IsWhiteSpace(w[i])
    requires b == [] || !IsWhiteSpace(b[0])
    ensures DashRuns(w + b) == "-" + DashRuns(b)
  {
    var s := w + b;
    SkipWhiteSpaceAt(s, 0, |w|);
    assert s[|w|..] == b;
  }

  /** A role without white space is used as it is after lower-casing. */
  lemma NoWhiteSpaceUnchanged(s: string)
    requires forall i | 0 <= i < |s| :: !IsWhiteSpace(s[i])
    ensures DashRuns(s) == s
  {
    DashRunsPlain(s, []);
    assert s + [] == s;
  }

  /** Two words, each preceded by a run of white space, become two dashed
      words. */
  lemma DashTwoWords(w1: string, a: string, w2: string, b: string)
    requires w1 != [] && forall i | 0 <= i < |w1| :: IsWhiteSpace(w1[i])
    requires w2 != [] && forall i | 0 <= i < |w2| :: IsWhiteSpace(w2[i])
    requires a != [] && forall i | 0 <= i < |a| :: !IsWhiteSpace(a[i])
    requires b != [] && forall i | 0 <= i < |b| :: !IsWhiteSpace(b[i])
    ensures DashRuns(w1 + a + w2 + b) == "-" + a + "-" + b
  {
    forall x: string, y: string | NoWhiteSpace(x)
      ensures DashRuns(x + y) == x + DashRuns(y)
    {
      DashRunsPlain(x, y);
    }
    forall w: string, y: string | RunBefore(w, y)
      ensures DashRuns(w + y) == "-" + DashRuns(y)
    {
      DashRunsRun(w, y);
    }
    TwoWordsThrough(DashRuns, w1, a, w2, b);
    NoWhiteSpaceUnchanged(b);
  }

  predicate NoWhiteSpace(s: string) {
    forall i | 0 <= i < |s| :: !IsWhiteSpace(s[i])
  }

  /** `w` is a whole run of white space in front of `y`. */
  predicate RunBefore(w: string, y: string) {
    && w != [] && (forall i | 0 <= i < |w| :: IsWhiteSpace(w[i]))
    && (y == [] || !IsWhiteSpace(y[0]))
  }

  /** `DashTwoWords` for any string function that copies text without white
      space and turns a whole white-space run into one dash. */
  lemma TwoWordsThrough(f: string -> string, w1: string, a: string, w2: string, b: string)
    requires forall x: string, y: string | NoWhiteSpace(x) :: f(x + y) == x + f(y)
    requires forall w: string, y: string | RunBefore(w, y) :: f(w + y) == "-" + f(y)
    requires RunBefore(w1, a) && RunBefore(w2, b) && a != [] && NoWhiteSpace(a)
    ensures f(w1 + a + w2 + b) == "-" + a + "-" + f(b)
  {
    assert RunBefore(w1, a + (w2 + b)) by { assert (a + (w2 + b))[0] == a[0]; }
    calc {
      f(w1 + a + w2 + b);
    == { assert w1 + a + w2 + b == w1 + (a + (w2 + b)); }
      f(w1 + (a + (w2 + b)));
    ==
      "-" + f(a + (w2 + b));
    ==
      "-" + (a + f(w2 + b));
    ==
      "-" + (a + ("-" + f(b)));
    == { assert "-" + (a + ("-" + f(b))) == "-" + a + "-" + f(b); }
      "-" + a + "-" + f(b);
    }
  }

  /** A leading space is not trimmed away from the id, even though the lookup
      ignores it. */
  lemma LeadingSpaceKeptInId()
    ensures GetFallbackRoadmapData(" Frontend Developer") ==
            Some(RoadmapData("fallback--frontend-developer", "Frontend Developer",
                             FallbackRoadmaps.FrontendDeveloper.description, FallbackRoadmaps.FrontendDeveloper.steps))
  {
    LeadingSpaceFound();
    LeadingSpaceId();
  }

  lemma LeadingSpaceFound()
    ensures FallbackRoadmaps.GetFallbackRoadmap(" Frontend Developer") == Some(FallbackRoadmaps.FrontendDeveloper)
  {
    LeadingSpaceNormalised();
    FallbackRoadmaps.CatalogRolesLower();
    assert FallbackRoadmaps.FindRole(FallbackRoadmaps.Catalog, "frontend developer") == Some(0);
  }

  lemma LeadingSpaceId()
    ensures "fallback-" + DashRuns(Lower(" Frontend Developer")) == "fallback--frontend-developer"
  {
    LeadingSpaceLowered();
    WordsHaveNoWhiteSpace();
    DashTwoWords(" ", "frontend", " ", "developer");
    DashedConcat();
  }

  lemma WordsHaveNoWhiteSpace()
    ensures forall i | 0 <= i < |"frontend"| :: !IsWhiteSpace("frontend"[i])
    ensures forall i | 0 <= i < |"developer"| :: !IsWhiteSpace("developer"[i])
    ensures IsWhiteSpace(" "[0])
  {
  }

  lemma DashedConcat()
    ensures "fallback-" + ("-" + "frontend" + "-" + "developer") == "fallback--frontend-developer"
  {
  }

  lemma LeadingSpaceLowered()
    ensures Lower(" Frontend Developer") == " " + "frontend" + " " + "developer"
  {
    var s := Lower(" Frontend Developer");
    assert forall i | 0 <= i < |s| :: s[i] == (" " + "frontend" + " " + "developer")[i];
  }

  lemma LeadingSpaceNormalised()
    ensures Trim(Lower(" Frontend Developer")) == "frontend developer"
  {
    LeadingSpaceLowered();
    assert " " + "frontend" + " " + "developer" == " " + "frontend developer" + "";
    TrimPadded(" ", "frontend developer", "");
  }
}
