/** The config generators: each writes one or two files into a project
    folder, some only when the file is missing, some always. A write that
    fails throws, and the generator stops there. */
module ConfigGenerator {
  import opened Wrappers

  /** One `writeFileSync(path, data)`, `path` relative to the folder. */
  datatype WriteOp = WriteOp(path: string, data: string)

  function Paths(plan: seq<WriteOp>): set<string> {
    set k | 0 <= k < |plan| :: plan[k].path
  }

  predicate DistinctPaths(plan: seq<WriteOp>) {
    forall i, j :: 0 <= i < j < |plan| ==> plan[i].path != plan[j].path
  }

  /** The folder after the writes of `plan` are made in order, and whether
      they all succeeded. A write to a path in `unwritable` throws, leaving
      that file and every later one as they were. */
  function Apply(files: map<string, string>, plan: seq<WriteOp>, unwritable: set<string>)
    : (r: (map<string, string>, Outcome<string>))
    ensures files.Keys <= r.0.Keys
    ensures forall p :: p !in Paths(plan) ==> (p in r.0 <==> p in files) && (p in files ==> r.0[p] == files[p])
    ensures r.1.Pass? <==> Paths(plan) !! unwritable
    ensures r.1.Fail? ==> r.1.error in Paths(plan) && r.1.error in unwritable
    ensures r.1.Pass? ==> Paths(plan) <= r.0.Keys
    ensures r.1.Pass? && DistinctPaths(plan) ==>
      forall k :: 0 <= k < |plan| ==> plan[k].path in r.0 && r.0[plan[k].path] == plan[k].data
    decreases plan
  {
    if plan == [] then (files, Pass)
    else
      assert Paths(plan) == {plan[0].path} + Paths(plan[1..]) by {
        forall p | p in Paths(plan) ensures p in {plan[0].path} + Paths(plan[1..]) {
          var k :| 0 <= k < |plan| && plan[k].path == p;
          if k > 0 { assert plan[1..][k - 1] == plan[k]; }
        }
        forall p | p in Paths(plan[1..]) ensures p in Paths(plan) {
          var k :| 0 <= k < |plan[1..]| && plan[1..][k].path == p;
          assert plan[k + 1].path == p;
        }
      }
      if plan[0].path in unwritable then (files, Fail(plan[0].path))
      else
        var r := Apply(files[plan[0].path := plan[0].data], plan[1..], unwritable);
        assert DistinctPaths(plan) ==> plan[0].path !in Paths(plan[1..]) && DistinctPaths(plan[1..]) by {
          if DistinctPaths(plan) {
            forall k | 0 <= k < |plan[1..]| ensures plan[1..][k].path != plan[0].path {
              assert plan[1..][k] == plan[k + 1];
            }
          }
        }
        r
  }

  const PackageJsonFile := "package.json"
  const VercelJsonFile := "vercel.json"
  const NextConfigFile := "next.config.js"
  const AppPyFile := "app.py"
  const RequirementsFile := "requirements.txt"

  /** `JSON.stringify(..., null, 2)` of the generated package.json files. */
  const ReactPackageJson :=
    "{\n  \"name\": \"react-app\",\n  \"version\": \"1.0.0\",\n  \"scripts\": {\n    \"build\": \"react-scripts build\",\n    \"start\": \"react-scripts start\"\n  }\n}"
  const VitePackageJson :=
    "{\n  \"name\": \"vite-app\",\n  \"version\": \"1.0.0\",\n  \"scripts\": {\n    \"build\": \"vite build\",\n    \"start\": \"vite preview\"\n  }\n}"
  /** The single-page rewrite: every path is served `/index.html`. */
  const VercelJson :=
    "{\n  \"rewrites\": [\n    {\n      \"source\": \"/(.*)\",\n      \"destination\": \"/index.html\"\n    }\n  ]\n}"
  const NextConfig := "/** @type {import('next').NextConfig} */\nmodule.exports = { reactStrictMode: true };"
  const FlaskApp :=
    "\nfrom flask import Flask\napp = Flask(__name__)\n\n@app.route(\"/\")\ndef home():\n    return \"Flask App Auto Generated\"\n\nif __name__ == \"__main__\":\n    app.run()\n    "
  const Requirements := "flask\ngunicorn"

  /** A write made only when the file is missing. */
  function IfAbsent(files: map<string, string>, path: string, data: string): seq<WriteOp> {
    if path in files then [] else [WriteOp(path, data)]
  }

  datatype Generator = ReactGen | ViteGen | NextGen | StaticGen | FlaskGen

  /** The writes each generator makes, in order, on a folder holding
      `files`. */
  function Plan(g: Generator, files: map<string, string>): (plan: seq<WriteOp>)
    ensures DistinctPaths(plan)
  {
    match g
    case ReactGen => IfAbsent(files, PackageJsonFile, ReactPackageJson) + [WriteOp(VercelJsonFile, VercelJson)]
    case ViteGen => IfAbsent(files, PackageJsonFile, VitePackageJson) + [WriteOp(VercelJsonFile, VercelJson)]
    case NextGen => IfAbsent(files, NextConfigFile, NextConfig)
    case StaticGen => [WriteOp(VercelJsonFile, VercelJson)]
    case FlaskGen => IfAbsent(files, AppPyFile, FlaskApp) + [WriteOp(RequirementsFile, Requirements)]
  }

  /** The files a generator may write. */
  function Targets(g: Generator): set<string> {
    match g
    case ReactGen => {PackageJsonFile, VercelJsonFile}
    case ViteGen => {PackageJsonFile, VercelJsonFile}
    case NextGen => {NextConfigFile}
    case StaticGen => {VercelJsonFile}
    case FlaskGen => {AppPyFile, RequirementsFile}
  }

  /** The file a generator writes only when it is missing, if any. */
  function Optional(g: Generator): Option<string> {
    match g
    case ReactGen => Some(PackageJsonFile)
    case ViteGen => Some(PackageJsonFile)
    case NextGen => Some(NextConfigFile)
    case StaticGen => None
    case FlaskGen => Some(AppPyFile)
  }

  /** What a generator does to a folder: it deletes nothing and touches
      only its own files; a file it writes only when missing keeps its
      content when it exists; its other files are always (over)written
      when the generator completes. */
  lemma {:induction false} GeneratorEffect(g: Generator, files: map<string, string>, unwritable: set<string>)
    ensures var r := Apply(files, Plan(g, files), unwritable);
      && files.Keys <= r.0.Keys
      && (forall p :: p !in Targets(g) ==> (p in r.0 <==> p in files) && (p in files ==> r.0[p] == files[p]))
      && (Optional(g).Some? && Optional(g).value in files ==> r.0[Optional(g).value] == files[Optional(g).value])
      && (r.1.Pass? ==> forall p :: p in Targets(g) ==> p in r.0)
      && (r.1.Pass? ==> forall w :: w in Plan(g, files) ==> r.0[w.path] == w.data)
  {
    var plan := Plan(g, files);
    var r := Apply(files, plan, unwritable);
    PlanCovers(g, files);
    forall w | w in plan && r.1.Pass?
      ensures r.0[w.path] == w.data
    {
      var k :| 0 <= k < |plan| && plan[k] == w;
    }
  }

  /** A generator's writes are to its own files, skip its optional file
      when present, and reach every one of its files that is missing. */
  lemma PlanCovers(g: Generator, files: map<string, string>)
    ensures Paths(Plan(g, files)) <= Targets(g)
    ensures Targets(g) <= files.Keys + Paths(Plan(g, files))
    ensures Optional(g).Some? && Optional(g).value in files ==> Optional(g).value !in Paths(Plan(g, files))
  {
    var plan := Plan(g, files);
    if plan != [] {
      assert plan[0].path in Paths(plan);
      assert plan[|plan| - 1].path in Paths(plan);
    }
  }

  /** The project folder the generators write into. */
  class ProjectDir {
    /** Whether the folder exists. */
    const present: bool
    /** The folder's files, by path relative to it. */
    var files: map<string, string>
    /** The paths `writeFileSync` fails on (permissions, a directory in the
        way, a full disk). */
    const unwritable: set<string>

    constructor (present: bool, files: map<string, string>, unwritable: set<string>)
      ensures this.present == present && this.files == files && this.unwritable == unwritable
    {
      this.present := present;
      this.files := files;
      this.unwritable := unwritable;
    }

    /** `write(filePath, data)`. */
    method Write(path: string, data: string) returns (out: Outcome<string>)
      modifies this`files
      ensures out == if path in unwritable then Fail(path) else Pass
      ensures files == if path in unwritable then old(files) else old(files)[path := data]
    {
      if path in unwritable {
        out := Fail(path);
      } else {
        files := files[path := data];
        out := Pass;
      }
    }

    /** Writes `data` at `path` unless a file is already there. */
    method WriteIfAbsent(path: string, data: string) returns (out: Outcome<string>)
      modifies this`files
      ensures (files, out) == Apply(old(files), IfAbsent(old(files), path, data), unwritable)
    {
      out := Pass;
      if path !in files {
        out := Write(path, data);
      }
    }

    /** A write made only when a first write succeeded. */
    method WriteAfter(first: Outcome<string>, path: string, data: string) returns (out: Outcome<string>)
      modifies this`files
      ensures first.Fail? ==> out == first && files == old(files)
      ensures first.Pass? ==> (files, out) == Apply(old(files), [WriteOp(path, data)], unwritable)
    {
      out := first;
      if first.Pass? {
        out := Write(path, data);
      }
    }

    method GenerateReactConfig() returns (out: Outcome<string>)
      modifies this`files
      ensures (files, out) == Apply(old(files), Plan(ReactGen, old(files)), unwritable)
    {
      var first := WriteIfAbsent(PackageJsonFile, ReactPackageJson);
      ApplyThen(old(files), IfAbsent(old(files), PackageJsonFile, ReactPackageJson), [WriteOp(VercelJsonFile, VercelJson)], unwritable);
      out := WriteAfter(first, VercelJsonFile, VercelJson);
    }

    method GenerateViteConfig() returns (out: Outcome<string>)
      modifies this`files
      ensures (files, out) == Apply(old(files), Plan(ViteGen, old(files)), unwritable)
    {
      var first := WriteIfAbsent(PackageJsonFile, VitePackageJson);
      ApplyThen(old(files), IfAbsent(old(files), PackageJsonFile, VitePackageJson), [WriteOp(VercelJsonFile, VercelJson)], unwritable);
      out := WriteAfter(first, VercelJsonFile, VercelJson);
    }

    method GenerateNextConfig() returns (out: Outcome<string>)
      modifies this`files
      ensures (files, out) == Apply(old(files), Plan(NextGen, old(files)), unwritable)
    {
      out := WriteIfAbsent(NextConfigFile, NextConfig);
    }

    method GenerateStaticConfig() returns (out: Outcome<string>)
      modifies this`files
      ensures (files, out) == Apply(old(files), Plan(StaticGen, old(files)), unwritable)
    {
      out := Write(VercelJsonFile, VercelJson);
    }

    method GenerateFlaskConfig() returns (out: Outcome<string>)
      modifies this`files
      ensures (files, out) == Apply(old(files), Plan(FlaskGen, old(files)), unwritable)
    {
      var first := WriteIfAbsent(AppPyFile, FlaskApp);
      ApplyThen(old(files), IfAbsent(old(files), AppPyFile, FlaskApp), [WriteOp(RequirementsFile, Requirements)], unwritable);
      out := WriteAfter(first, RequirementsFile, Requirements);
    }

    /** Runs generator `g`. */
    method Run(g: Generator) returns (out: Outcome<string>)
      modifies this`files
      ensures (files, out) == Apply(old(files), Plan(g, old(files)), unwritable)
    {
      match g {
        case ReactGen => out := GenerateReactConfig();
        case ViteGen => out := GenerateViteConfig();
        case NextGen => out := GenerateNextConfig();
        case StaticGen => out := GenerateStaticConfig();
        case FlaskGen => out := GenerateFlaskConfig();
      }
    }
  }

  /** Making two groups of writes one after the other, stopping at the
      first failure, is making them all in one go. */
  lemma {:induction false} ApplyThen(files: map<string, string>, a: seq<WriteOp>, b: seq<WriteOp>, unwritable: set<string>)
    ensures var ra := Apply(files, a, unwritable);
            Apply(files, a + b, unwritable) == if ra.1.Fail? then ra else Apply(ra.0, b, unwritable)
    decreases a
  {
    if a == [] {
      assert a + b == b;
    } else {
      assert (a + b)[0] == a[0];
      assert (a + b)[1..] == a[1..] + b;
      if a[0].path !in unwritable {
        ApplyThen(files[a[0].path := a[0].data], a[1..], b, unwritable);
      }
    }
  }
}
