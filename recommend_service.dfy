/** `recommendProviders`: the hosting providers suggested for a framework
    label, best first, with the reason shown to the user. */
module RecommendService {
  import FrameworkDetector

  datatype Recommendation = Recommendation(framework: string, recommended: seq<string>, reason: string)

  const SpaReason := "SPA frameworks work best on Vercel or Netlify."
  const NextReason := "Next.js is officially optimized for Vercel."
  const StaticReason := "Static sites deploy extremely fast on Netlify or Vercel."
  const NodeReason := "Node.js serverless apps run best on Vercel Serverless Functions."
  const FlaskReason := "Python/Flask requires custom hosting; Firebase replacements coming soon."
  const UnknownReason := "Unknown project type. Treating as static site for safest deployment."

  /** The labels the switch has a case for. */
  predicate Known(framework: string) {
    framework in {"react", "vite", "next", "static", "node", "flask"}
  }

  predicate Distinct(s: seq<string>) {
    forall i, j :: 0 <= i < j < |s| ==> s[i] != s[j]
  }

  function RecommendProviders(framework: string): (r: Recommendation)
    ensures r.recommended != [] && Distinct(r.recommended)
    ensures forall p :: p in r.recommended ==> p in {"vercel", "netlify", "firebase"}
    ensures Known(framework) ==> r.framework == framework
    ensures !Known(framework) ==> r == Recommendation("unknown", ["netlify"], UnknownReason)
    ensures r.recommended[0] == "firebase" <==> framework == "flask"
  {
    match framework
    case "react" => Recommendation(framework, ["vercel", "netlify"], SpaReason)
    case "vite" => Recommendation(framework, ["vercel", "netlify"], SpaReason)
    case "next" => Recommendation(framework, ["vercel"], NextReason)
    case "static" => Recommendation(framework, ["netlify", "vercel"], StaticReason)
    case "node" => Recommendation(framework, ["vercel"], NodeReason)
    case "flask" => Recommendation(framework, ["firebase"], FlaskReason)
    case _ => Recommendation("unknown", ["netlify"], UnknownReason)
  }

  /** Which frameworks share advice: react with vite, next with node, and
      static gets the single-page list in the opposite order. */
  lemma SharedAdvice()
    ensures RecommendProviders("react") == RecommendProviders("vite").(framework := "react")
    ensures RecommendProviders("next").recommended == RecommendProviders("node").recommended == ["vercel"]
    ensures var spa := RecommendProviders("react").recommended;
            RecommendProviders("static").recommended == [spa[1], spa[0]]
  {
  }

  /** Every label the detector can return is echoed back, and "unknown" is
      advised like any unrecognised label. */
  lemma DetectedLabelsEchoed(f: FrameworkDetector.Framework, other: string)
    requires !Known(other)
    ensures RecommendProviders(FrameworkDetector.Label(f)).framework == FrameworkDetector.Label(f)
    ensures RecommendProviders(FrameworkDetector.Label(FrameworkDetector.Unknown)) == RecommendProviders(other)
  {
  }
}
