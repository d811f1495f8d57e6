/** The dashboard's project list: the search and status filter, the status
    badge text, the project count and the "View Live" link. */
module Dashboard {
  import opened Wrappers
  import opened Text
  import opened Storage

  /** The status as the store writes it. */
  function StatusName(s: Status): string {
    match s
    case Uploaded => "uploaded"
    case Building => "building"
    case Deploying => "deploying"
    case Deployed => "deployed"
    case Failed => "failed"
  }

  /** The name contains the trimmed search term, both lower-cased. */
  predicate MatchesSearch(p: Project, searchTerm: string) {
    Includes(ToLower(p.name), ToLower(Trim(searchTerm)))
  }

  /** The filter is "all" or names the project's status. */
  predicate MatchesStatus(p: Project, statusFilter: string) {
    statusFilter == "all" || StatusName(p.status) == statusFilter
  }

  predicate Shown(p: Project, searchTerm: string, statusFilter: string) {
    MatchesSearch(p, searchTerm) && MatchesStatus(p, statusFilter)
  }

  /** `filteredProjects`. */
  function FilterProjects(ps: seq<Project>, searchTerm: string, statusFilter: string): (r: seq<Project>)
    ensures forall p :: p in r <==> p in ps && Shown(p, searchTerm, statusFilter)
    ensures forall p :: multiset(r)[p] == if Shown(p, searchTerm, statusFilter) then multiset(ps)[p] else 0
    ensures |r| <= |ps|
  {
    if ps == [] then []
    else
      assert ps == [ps[0]] + ps[1..];
      var rest := FilterProjects(ps[1..], searchTerm, statusFilter);
      assert forall p :: p in rest <==> p in multiset(rest);
      if Shown(ps[0], searchTerm, statusFilter) then [ps[0]] + rest else rest
  }

  /** Filtering keeps the order of the list: the filter of two lists one
      after the other is their filters one after the other. */
  lemma {:induction false} FilterAppend(a: seq<Project>, b: seq<Project>, searchTerm: string, statusFilter: string)
    ensures FilterProjects(a + b, searchTerm, statusFilter)
         == FilterProjects(a, searchTerm, statusFilter) + FilterProjects(b, searchTerm, statusFilter)
    decreases a
  {
    if a == [] {
      assert a + b == b;
    } else {
      assert (a + b)[0] == a[0];
      assert (a + b)[1..] == a[1..] + b;
      FilterAppend(a[1..], b, searchTerm, statusFilter);
    }
  }

  /** Filtering twice with the same settings is filtering once. */
  lemma {:induction false} FilterIdempotent(ps: seq<Project>, searchTerm: string, statusFilter: string)
    ensures var once := FilterProjects(ps, searchTerm, statusFilter);
            FilterProjects(once, searchTerm, statusFilter) == once
    decreases ps
  {
    if ps != [] {
      FilterIdempotent(ps[1..], searchTerm, statusFilter);
      var rest := FilterProjects(ps[1..], searchTerm, statusFilter);
      if Shown(ps[0], searchTerm, statusFilter) {
        assert ([ps[0]] + rest)[1..] == rest;
      }
    }
  }

  /** An empty or blank search term hides nothing: with the filter at
      "all" every project is listed, in order. */
  lemma {:induction false} BlankSearchShowsAll(ps: seq<Project>, searchTerm: string)
    requires AllWhitespace(searchTerm)
    ensures FilterProjects(ps, searchTerm, "all") == ps
    decreases ps
  {
    TrimEmptyIff(searchTerm);
    if ps != [] {
      assert StartsWith(ToLower(ps[0].name), "");
      BlankSearchShowsAll(ps[1..], searchTerm);
      assert ps == [ps[0]] + ps[1..];
    }
  }

  /** `status.charAt(0).toUpperCase() + status.slice(1)`. */
  function Capitalise(s: string): (r: string)
    ensures |r| == |s|
    ensures s != [] ==> r[0] == UpperChar(s[0]) && r[1..] == s[1..]
  {
    if s == [] then "" else [UpperChar(s[0])] + s[1..]
  }

  function StatusLabel(s: Status): string {
    Capitalise(StatusName(s))
  }

  predicate LowerWord(n: string) {
    forall i :: 0 <= i < |n| ==> 'a' <= n[i] <= 'z'
  }

  /** Lower-casing a capitalised lower-case word gives the word back. */
  lemma LowerCapitalise(n: string)
    requires LowerWord(n)
    ensures ToLower(Capitalise(n)) == n
  {
    var l := Capitalise(n);
    forall i | 0 <= i < |n| ensures ToLower(l)[i] == n[i] {
      if i > 0 {
        assert l[i] == l[1..][i - 1];
      }
    }
  }

  /** The badge texts of a deployed and a failed project. */
  lemma BadgeTexts()
    ensures StatusLabel(Deployed) == "Deployed" && StatusLabel(Failed) == "Failed"
  {
    assert "Deployed" == [UpperChar('d')] + "eployed";
    assert "Failed" == [UpperChar('f')] + "ailed";
  }

  /** Lower-casing a badge gives back the stored status. */
  lemma StatusLabelRoundTrip(s: Status)
    ensures ToLower(StatusLabel(s)) == StatusName(s)
  {
    match s {
      case Uploaded => LowerCapitalise("uploaded");
      case Building => LowerCapitalise("building");
      case Deploying => LowerCapitalise("deploying");
      case Deployed => LowerCapitalise("deployed");
      case Failed => LowerCapitalise("failed");
    }
  }

  /** `projects.length` followed by "project", with an "s" unless the
      count is exactly one. */
  function CountNoun(n: nat): (r: string)
    ensures r == "project" <==> n == 1
    ensures r == "project" || r == "projects"
  {
    "project" + (if n != 1 then "s" else "")
  }

  /** The target of the "View Live" link: shown only for a deployed
      project with a non-empty live URL, and then pointing at that URL. */
  function ViewLiveLink(p: Project): (r: Option<string>)
    ensures r.Some? <==> p.status == Deployed && Truthy(p.liveUrl)
    ensures r.Some? ==> r == p.liveUrl && r.value != ""
  {
    if p.status == Deployed && Truthy(p.liveUrl) then p.liveUrl else None
  }
}
