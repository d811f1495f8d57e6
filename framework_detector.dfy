/** `detectFramework`: a fixed chain of checks over the entries present at
    the top of a project folder and, when there is one, its package.json. */
module FrameworkDetector {
  import opened Wrappers

  datatype Framework = React | Vite | Next | Node | Flask | Static | Unknown

  /** The label the detector returns for each framework. */
  function Label(f: Framework): string {
    match f
    case React => "react"
    case Vite => "vite"
    case Next => "next"
    case Node => "node"
    case Flask => "flask"
    case Static => "static"
    case Unknown => "unknown"
  }

  lemma LabelInjective(f: Framework, g: Framework)
    requires Label(f) == Label(g)
    ensures f == g
  {
  }

  /** The two sections of package.json the detector reads, as name to
      version; a missing section is an empty map. */
  datatype PackageJson = PackageJson(dependencies: map<string, string>, devDependencies: map<string, string>)

  /** `deps?.[name]` is truthy: the package is listed with a non-empty
      version. */
  predicate Lists(deps: map<string, string>, name: string) {
    name in deps && deps[name] != ""
  }

  predicate NextMarker(entries: set<string>) {
    "next.config.js" in entries || "next.config.mjs" in entries || "app" in entries || "pages" in entries
  }

  predicate NodeMarker(entries: set<string>) {
    "server.js" in entries || "app.js" in entries
  }

  /** The package.json, if present, decides the answer by itself: it does
      not parse, or it lists react, or it lists vite as a dev dependency. */
  predicate PackageDecides(entries: set<string>, pkg: Result<PackageJson, string>) {
    "package.json" in entries &&
    (pkg.Failure? || Lists(pkg.value.dependencies, "react") || Lists(pkg.value.devDependencies, "vite"))
  }

  /** `entries` are the names (files or folders) directly inside the
      project; `pkg` is what reading and parsing package.json gives, and is
      consulted only when package.json is among them. A parse error is
      thrown to the caller. */
  function DetectFramework(entries: set<string>, pkg: Result<PackageJson, string>): (r: Result<Framework, string>)
    ensures r.Failure? <==> "package.json" in entries && pkg.Failure?
    ensures r.Failure? ==> r.error == pkg.error
    ensures r == Success(React) <==> "package.json" in entries && pkg.Success? && Lists(pkg.value.dependencies, "react")
    ensures r == Success(Vite) <==>
      "package.json" in entries && pkg.Success? && !Lists(pkg.value.dependencies, "react")
      && Lists(pkg.value.devDependencies, "vite")
    ensures r == Success(Next) <==> !PackageDecides(entries, pkg) && NextMarker(entries)
    ensures r == Success(Node) <==> !PackageDecides(entries, pkg) && !NextMarker(entries) && NodeMarker(entries)
    ensures r == Success(Flask) <==>
      !PackageDecides(entries, pkg) && !NextMarker(entries) && !NodeMarker(entries) && "app.py" in entries
    ensures r == Success(Static) <==>
      !PackageDecides(entries, pkg) && !NextMarker(entries) && !NodeMarker(entries) && "app.py" !in entries
      && "index.html" in entries
    ensures r == Success(Unknown) <==>
      !PackageDecides(entries, pkg) && !NextMarker(entries) && !NodeMarker(entries)
      && "app.py" !in entries && "index.html" !in entries
  {
    if "package.json" in entries && pkg.Failure? then Failure(pkg.error)
    else if "package.json" in entries && Lists(pkg.value.dependencies, "react") then Success(React)
    else if "package.json" in entries && Lists(pkg.value.devDependencies, "vite") then Success(Vite)
    else if "next.config.js" in entries || "next.config.mjs" in entries then Success(Next)
    else if "app" in entries then Success(Next)
    else if "pages" in entries then Success(Next)
    else if "server.js" in entries || "app.js" in entries then Success(Node)
    else if "app.py" in entries then Success(Flask)
    else if "index.html" in entries then Success(Static)
    else Success(Unknown)
  }

  /** The position of a rule in the chain; a parse failure stops the chain
      before any rule. */
  function Rank(r: Result<Framework, string>): int {
    match r
    case Failure(_) => -1
    case Success(React) => 0
    case Success(Vite) => 1
    case Success(Next) => 2
    case Success(Node) => 3
    case Success(Flask) => 4
    case Success(Static) => 5
    case Success(Unknown) => 6
  }

  /** More entries in the folder can only make an earlier rule apply. */
  lemma MoreEntriesEarlierRule(entries: set<string>, more: set<string>, pkg: Result<PackageJson, string>)
    requires entries <= more
    ensures Rank(DetectFramework(more, pkg)) <= Rank(DetectFramework(entries, pkg))
  {
  }

  /** An entry that no rule names never changes the answer. */
  lemma IrrelevantEntry(entries: set<string>, e: string, pkg: Result<PackageJson, string>)
    requires e !in {"package.json", "next.config.js", "next.config.mjs", "app", "pages",
                    "server.js", "app.js", "app.py", "index.html"}
    ensures DetectFramework(entries + {e}, pkg) == DetectFramework(entries, pkg)
  {
  }

  /** Without package.json its content is never consulted. */
  lemma PackageIgnoredWhenAbsent(entries: set<string>, p: Result<PackageJson, string>, q: Result<PackageJson, string>)
    requires "package.json" !in entries
    ensures DetectFramework(entries, p) == DetectFramework(entries, q)
  {
  }
}
