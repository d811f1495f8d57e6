/** `normalizeProject`: runs the one config generator a framework label
    calls for, and never lets a failure escape. */
module NormalizeService {
  import opened Wrappers
  import opened ConfigGenerator

  /** The generator the dispatch picks: none for "node", the static one
      for every label without a case of its own. */
  function GeneratorFor(framework: string): (r: Option<Generator>)
    ensures r.None? <==> framework == "node"
    ensures framework == "react" ==> r == Some(ReactGen)
    ensures framework == "vite" ==> r == Some(ViteGen)
    ensures framework == "next" ==> r == Some(NextGen)
    ensures framework == "flask" ==> r == Some(FlaskGen)
  {
    match framework
    case "react" => Some(ReactGen)
    case "vite" => Some(ViteGen)
    case "next" => Some(NextGen)
    case "static" => Some(StaticGen)
    case "flask" => Some(FlaskGen)
    case "node" => None
    case _ => Some(StaticGen)
  }

  /** Any label without a case, "unknown" among them, is treated exactly
      like "static". */
  lemma OtherLabelsAreStatic(framework: string)
    requires framework !in {"react", "vite", "next", "static", "flask", "node"}
    ensures GeneratorFor(framework) == GeneratorFor("static") == Some(StaticGen)
  {
  }

  /** The folder's files once normalisation is over. */
  function Normalized(present: bool, framework: string, files: map<string, string>, unwritable: set<string>)
    : (r: map<string, string>)
    ensures files.Keys <= r.Keys
  {
    if !present then files
    else match GeneratorFor(framework)
      case None => files
      case Some(g) => Apply(files, Plan(g, files), unwritable).0
  }

  /** `safeNormalize`: runs a generator and swallows what it throws. */
  method SafeNormalize(dir: ProjectDir, g: Generator)
    modifies dir`files
    ensures dir.files == Apply(old(dir.files), Plan(g, old(dir.files)), dir.unwritable).0
  {
    var _ := dir.Run(g);
  }

  /** The method returns normally on every path: no outcome is passed
      back. */
  method NormalizeProject(dir: ProjectDir, framework: string)
    modifies dir`files
    ensures dir.files == Normalized(dir.present, framework, old(dir.files), dir.unwritable)
  {
    if !dir.present {
      return;
    }
    var g := GeneratorFor(framework);
    if g.Some? {
      SafeNormalize(dir, g.value);
    }
  }

  /** Normalising deletes nothing and changes only the files of the one
      generator chosen; a missing folder and a Node project are left as they
      are. */
  lemma NormalizedFrame(present: bool, framework: string, files: map<string, string>, unwritable: set<string>)
    ensures files.Keys <= Normalized(present, framework, files, unwritable).Keys
    ensures !present || framework == "node" ==> Normalized(present, framework, files, unwritable) == files
    ensures forall p ::
      (GeneratorFor(framework).None? || p !in Targets(GeneratorFor(framework).value)) ==>
      (p in Normalized(present, framework, files, unwritable) <==> p in files)
      && (p in files ==> Normalized(present, framework, files, unwritable)[p] == files[p])
  {
    if present && GeneratorFor(framework).Some? {
      GeneratorEffect(GeneratorFor(framework).value, files, unwritable);
    }
  }

  /** A project whose only unwritable paths are elsewhere ends up with a
      single-page rewrite in vercel.json for react, vite, static and any
      unrecognised label. */
  lemma SpaRewriteWritten(framework: string, files: map<string, string>, unwritable: set<string>)
    requires framework != "next" && framework != "flask" && framework != "node"
    requires PackageJsonFile !in unwritable && VercelJsonFile !in unwritable
    ensures VercelJsonFile in Normalized(true, framework, files, unwritable)
    ensures Normalized(true, framework, files, unwritable)[VercelJsonFile] == VercelJson
  {
    var g := GeneratorFor(framework).value;
    assert g == ReactGen || g == ViteGen || g == StaticGen;
    var plan := Plan(g, files);
    PlanCovers(g, files);
    assert Targets(g) <= {PackageJsonFile, VercelJsonFile};
    var r := Apply(files, plan, unwritable);
    assert r.1.Pass?;
    assert Normalized(true, framework, files, unwritable) == r.0;
    assert plan[|plan| - 1] == WriteOp(VercelJsonFile, VercelJson);
  }
}
