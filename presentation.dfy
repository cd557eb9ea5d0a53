/** The lookups that turn a result's risk tier into what the results card
    shows: the badge style (RiskBadge), the card's border colour
    (riskBorder) and the closing advice line. */
module Presentation {
  import opened Wrappers
  import opened Scoring

  /** One entry of RiskBadge's style table. */
  datatype BadgeStyle = BadgeStyle(bg: string, border: string, color: string, icon: string, msg: string)

  const LowBadge := BadgeStyle("rgba(32,178,120,0.13)", "#20b278", "#4ade80", "✓", "Likely Safe")
  const MediumBadge := BadgeStyle("rgba(217,140,60,0.13)", "#d98c3c", "#fbbf24", "⚠", "Be Cautious")
  const HighBadge := BadgeStyle("rgba(220,60,60,0.16)", "#dc3c3c", "#f87171", "✕", "High Danger")

  /** `map[level] || map.Medium`: the level's entry, or the Medium entry for
      any other level string. */
  function BadgeFor(level: string): (s: BadgeStyle)
    ensures level != "Low" && level != "High" ==> s == MediumBadge
  {
    if level == "Low" then LowBadge
    else if level == "High" then HighBadge
    else MediumBadge
  }

  /** The badge's caption, `{level} Risk`. */
  function BadgeCaption(level: string): string
  {
    level + " Risk"
  }

  /** The caption names the level: different levels, in particular the
      three tier names, never share a caption. */
  lemma CaptionNamesLevel(a: string, b: string)
    ensures BadgeCaption(a) == BadgeCaption(b) ==> a == b
  {
    assert BadgeCaption(a)[..|a|] == a && BadgeCaption(b)[..|b|] == b;
  }

  const HighBorder := "rgba(220,60,60,0.3)"
  const MediumBorder := "rgba(217,140,60,0.3)"
  const LowBorder := "rgba(32,178,155,0.3)"

  /** riskBorder: empty while there is no result, otherwise the tier's
      colour, teal for Low. */
  function RiskBorder(results: Option<AnalysisResult>): (b: string)
    ensures b == "" <==> results.None?
  {
    match results
    case None => ""
    case Some(r) =>
      if r.risk == High then HighBorder
      else if r.risk == Medium then MediumBorder
      else LowBorder
  }

  const HighAdvice := "🛑 Do not respond or click any links. You checked before acting — that was the right move."
  const MediumAdvice := "🟡 Proceed carefully. Verify through an official channel before sharing any information."
  const LowAdvice := "✅ This content appears safe. Good instinct checking — you are in control."

  /** The closing advice line under the explanations. */
  function Advice(risk: Risk): string
  {
    if risk == High then HighAdvice
    else if risk == Medium then MediumAdvice
    else LowAdvice
  }

  /** Every tier's badge is its own table entry: the lookup never falls
      back for a tier that runAnalysis returns. */
  lemma BadgeForTier(risk: Risk)
    ensures BadgeFor(RiskName(risk)) == match risk
      case Low => LowBadge
      case Medium => MediumBadge
      case High => HighBadge
  {
  }

  /** The three lookups tell the tiers apart: two results show the same
      badge message, the same border or the same advice only when they have
      the same tier. */
  lemma TiersDistinguishable(a: AnalysisResult, b: AnalysisResult)
    requires a.risk != b.risk
    ensures BadgeFor(RiskName(a.risk)).msg != BadgeFor(RiskName(b.risk)).msg
    ensures RiskBorder(Some(a)) != RiskBorder(Some(b))
    ensures Advice(a.risk) != Advice(b.risk)
  {
    assert |HighAdvice| == 89 && |MediumAdvice| == 87 && |LowAdvice| == 73;
    assert HighBorder[6] == '2' && MediumBorder[6] == '1' && LowBorder[6] == '2';
    assert |HighBorder| == 19 && |MediumBorder| == 20 && |LowBorder| == 20;
    assert LowBadge.msg[0] == 'L' && MediumBadge.msg[0] == 'B' && HighBadge.msg[0] == 'H';
  }
}
