/** The simulated analysis backend, runAnalysis: keyword hits (text) or a
    stand-in feature count (video, audio), the capped fake score, its
    complement, the risk tier and the tier's explanations. The two calls
    to Math.random are parameters: `mediaRoll` is Math.floor(Math.random() * 5)
    and `jitter` is Math.floor(Math.random() * 15). */
module Scoring {
  import opened JsText

  /** The analyzer's input tabs, "text", "video" and "audio". */
  datatype Tab = TextTab | VideoTab | AudioTab

  /** The id string of a tab, as the tab buttons pass it. */
  function TabId(tab: Tab): string
  {
    match tab
    case TextTab => "text"
    case VideoTab => "video"
    case AudioTab => "audio"
  }

  /** Distinct tabs have distinct ids, so comparing ids, as the component
      does with `tab === "text"`, tells the tabs apart. */
  lemma TabIdInjective(a: Tab, b: Tab)
    ensures TabId(a) == TabId(b) ==> a == b
  {
  }

  datatype Risk = Low | Medium | High

  /** The risk tier as the string runAnalysis returns in `risk`. */
  function RiskName(risk: Risk): string
  {
    match risk
    case Low => "Low"
    case Medium => "Medium"
    case High => "High"
  }

  /** The object runAnalysis resolves to. */
  datatype AnalysisResult = AnalysisResult(
    fakeScore: int, realScore: int, risk: Risk, explanations: seq<string>)

  const FakeCap := 96
  const BaseScore := 14
  const HitWeight := 12
  const JitterRange := 15
  const MediaRollRange := 5
  const MediaBaseHits := 2

  /** The fraud indicator vocabulary, in source order. */
  const Keywords: seq<string> := [
    "lottery", "won", "prize", "urgent", "click", "verify", "internship", "earn",
    "otp", "account", "suspend", "bank", "password", "free", "act now", "kyc",
    "congratulations", "whatsapp"]

  /** `keys.filter(k => s.includes(k)).length`: the number of entries of
      keys that occur in s. None of them occurs exactly when the count is
      zero, and all of them exactly when it is the length of the list. */
  function CountIncluded(keys: seq<string>, s: string): (n: nat)
    ensures n <= |keys|
    ensures n == 0 <==> forall j :: 0 <= j < |keys| ==> !Includes(s, keys[j])
    ensures n == |keys| <==> forall j :: 0 <= j < |keys| ==> Includes(s, keys[j])
  {
    if keys == [] then 0
    else (if Includes(s, keys[0]) then 1 else 0) + CountIncluded(keys[1..], s)
  }

  /** The entries of keys that occur in s, as a set. */
  ghost function IncludedSet(keys: seq<string>, s: string): set<string>
  {
    set k | k in keys && Includes(s, k)
  }

  predicate Distinct(keys: seq<string>)
  {
    forall i, j :: 0 <= i < j < |keys| ==> keys[i] != keys[j]
  }

  /** The set splits into the head's contribution and the tail's. */
  lemma IncludedSetCons(keys: seq<string>, s: string)
    requires keys != []
    ensures IncludedSet(keys, s)
         == (if Includes(s, keys[0]) then {keys[0]} else {}) + IncludedSet(keys[1..], s)
  {
    assert keys == [keys[0]] + keys[1..];
  }

  /** For a list without repetitions the count is the number of distinct
      keywords that occur. */
  lemma {:induction false} CountIsSetSize(keys: seq<string>, s: string)
    requires Distinct(keys)
    ensures CountIncluded(keys, s) == |IncludedSet(keys, s)|
  {
    if keys != [] {
      var rest := keys[1..];
      assert Distinct(rest);
      CountIsSetSize(rest, s);
      assert forall j :: 0 <= j < |rest| ==> rest[j] == keys[j + 1];
      assert keys[0] !in IncludedSet(rest, s);
      IncludedSetCons(keys, s);
    }
  }

  lemma KeywordsDistinct()
    ensures |Keywords| == 18 && Distinct(Keywords)
  {
  }

  /** Text-tab hits: how many keywords occur in the lower-cased text. */
  function TextHits(text: string): (n: nat)
    ensures n <= |Keywords|
  {
    CountIncluded(Keywords, ToLower(text))
  }

  /** Text-tab hits are the number of distinct keywords that occur in the
      lower-cased text, so at most 18. */
  lemma TextHitsCountsKeywords(text: string)
    ensures TextHits(text) == |IncludedSet(Keywords, ToLower(text))| <= 18
  {
    KeywordsDistinct();
    CountIsSetSize(Keywords, ToLower(text));
  }

  /** Keyword matching ignores ASCII case: a text and its lower-cased form
      score the same hits. */
  lemma TextHitsIgnoreCase(text: string)
    ensures TextHits(ToLower(text)) == TextHits(text)
  {
    ToLowerIdempotent(text);
  }

  /** Media hits, `Math.floor(Math.random() * 5) + 2`. */
  function MediaHits(mediaRoll: int): (n: nat)
    requires 0 <= mediaRoll < MediaRollRange
    ensures 2 <= n <= 6
  {
    mediaRoll + MediaBaseHits
  }

  /** The hit count, by tab. The media roll is only drawn off the text tab. */
  function Hits(tab: Tab, text: string, mediaRoll: int): (n: nat)
    requires tab != TextTab ==> 0 <= mediaRoll < MediaRollRange
    ensures tab == TextTab ==> n <= |Keywords|
    ensures tab != TextTab ==> 2 <= n <= 6
  {
    if tab == TextTab then TextHits(text) else MediaHits(mediaRoll)
  }

  function Min(a: int, b: int): (m: int)
    ensures m <= a && m <= b && (m == a || m == b)
  {
    if a <= b then a else b
  }

  /** `Math.min(96, 14 + hits * 12 + jitter)`: never above the cap, never
      above the uncapped score, and equal to one of the two; since hits and
      jitter are not negative it is at least 14. */
  function FakeScore(hits: nat, jitter: int): (f: int)
    requires 0 <= jitter < JitterRange
    ensures BaseScore <= f <= FakeCap
    ensures f <= BaseScore + hits * HitWeight + jitter
    ensures f == FakeCap || f == BaseScore + hits * HitWeight + jitter
  {
    Min(FakeCap, BaseScore + hits * HitWeight + jitter)
  }

  /** `100 - fake`: the complement of the fake score, so a fake score
      within its bounds gives a real score within the mirrored bounds. */
  function RealScore(fake: int): (r: int)
    ensures fake + r == 100
    ensures BaseScore <= fake <= FakeCap ==> 100 - FakeCap <= r <= 100 - BaseScore
  {
    100 - fake
  }

  /** The tier: High above 60, Medium above 33, Low otherwise. */
  function Classify(fake: int): (risk: Risk)
    ensures risk == High <==> fake > 60
    ensures risk == Medium <==> 33 < fake <= 60
    ensures risk == Low <==> fake <= 33
  {
    if fake > 60 then High else if fake > 33 then Medium else Low
  }

  /** Tiers in increasing order of danger. */
  function Rank(risk: Risk): nat
  {
    match risk
    case Low => 0
    case Medium => 1
    case High => 2
  }

  /** A higher fake score never yields a lower tier. */
  lemma ClassifyMonotone(f1: int, f2: int)
    requires f1 <= f2
    ensures Rank(Classify(f1)) <= Rank(Classify(f2))
  {
  }

  /** The boundary scores: 33 is Low, 34 and 60 are Medium, 61 is High. */
  lemma ClassifyBoundaries()
    ensures Classify(33) == Low && Classify(34) == Medium
    ensures Classify(60) == Medium && Classify(61) == High
  {
  }

  const HighExplanations: seq<string> := [
    "⚠ Urgency manipulation detected — designed to make you panic",
    "⚠ Matches known scam/phishing templates with high confidence",
    "⚠ Requests sensitive personal data under false legitimacy",
    "⚠ AI verdict: high probability fraudulent — do not respond",
    "💡 Legitimate banks never ask for OTPs or passwords via message"]

  const MediumExplanations: seq<string> := [
    "⚠ Some phrases used in social engineering attacks found",
    "⚠ Mild urgency triggers present — verify before responding",
    "⚠ Source credibility cannot be confirmed from this message alone",
    "💡 Call the organization on their official number to confirm"]

  const LowExplanations: seq<string> := [
    "✓ No strong fraud indicators detected",
    "✓ Language pattern appears natural and coherent",
    "✓ No suspicious links or data-harvesting attempts found",
    "💡 Content appears legitimate — good instinct checking anyway"]

  /** The static explanation table. */
  function Explanations(risk: Risk): (exps: seq<string>)
    ensures |exps| == if risk == High then 5 else 4
  {
    match risk
    case High => HighExplanations
    case Medium => MediumExplanations
    case Low => LowExplanations
  }

  /** The explanations identify the tier: distinct tiers have distinct,
      non-empty explanation lists. */
  lemma ExplanationsIdentifyTier(a: Risk, b: Risk)
    ensures Explanations(a) != []
    ensures Explanations(a) == Explanations(b) ==> a == b
  {
    assert |MediumExplanations[0]| != |LowExplanations[0]|;
  }

  /** The result contract: the scores are complementary and within their
      bounds, the tier is the classification of the fake score and the
      explanations are that tier's table entry. */
  ghost predicate WellFormed(r: AnalysisResult)
  {
    r.fakeScore + r.realScore == 100
    && BaseScore <= r.fakeScore <= FakeCap
    && 100 - FakeCap <= r.realScore <= 100 - BaseScore
    && r.risk == Classify(r.fakeScore)
    && r.explanations == Explanations(r.risk)
  }

  /** runAnalysis, without its simulated 3.2 s delay. */
  function RunAnalysis(tab: Tab, text: string, mediaRoll: int, jitter: int): (r: AnalysisResult)
    requires 0 <= jitter < JitterRange
    requires tab != TextTab ==> 0 <= mediaRoll < MediaRollRange
    ensures WellFormed(r)
    ensures r.fakeScore + r.realScore == 100
    ensures 14 <= r.fakeScore <= 96 && 4 <= r.realScore <= 86
  {
    var fake := FakeScore(Hits(tab, text, mediaRoll), jitter);
    var risk := Classify(fake);
    AnalysisResult(fake, RealScore(fake), risk, Explanations(risk))
  }

  /** The tier as a function of the hit count and the jitter: High exactly
      when 12*hits + jitter > 46, Low exactly when 12*hits + jitter <= 19. */
  lemma TierOfHits(hits: nat, jitter: int)
    requires 0 <= jitter < JitterRange
    ensures Classify(FakeScore(hits, jitter)) == High <==> hits * HitWeight + jitter > 46
    ensures Classify(FakeScore(hits, jitter)) == Low <==> hits * HitWeight + jitter <= 19
  {
  }

  /** Consequences for every jitter: no hit is always Low, two hits always
      Medium, four or more hits always High, and a media file (two to six
      stand-in hits) is never Low. */
  lemma TierBounds(hits: nat, jitter: int)
    requires 0 <= jitter < JitterRange
    ensures hits == 0 ==> Classify(FakeScore(hits, jitter)) == Low
    ensures hits == 2 ==> Classify(FakeScore(hits, jitter)) == Medium
    ensures hits >= 4 ==> Classify(FakeScore(hits, jitter)) == High
    ensures hits >= 2 ==> Classify(FakeScore(hits, jitter)) != Low
  {
    TierOfHits(hits, jitter);
  }

  /** More hits never lower the fake score or the tier. */
  lemma ScoreMonotone(h1: nat, h2: nat, jitter: int)
    requires h1 <= h2 && 0 <= jitter < JitterRange
    ensures FakeScore(h1, jitter) <= FakeScore(h2, jitter)
    ensures Rank(Classify(FakeScore(h1, jitter))) <= Rank(Classify(FakeScore(h2, jitter)))
  {
    ClassifyMonotone(FakeScore(h1, jitter), FakeScore(h2, jitter));
  }

  /** A video or audio submission is never rated Low. */
  lemma MediaNeverLow(tab: Tab, text: string, mediaRoll: int, jitter: int)
    requires tab != TextTab && 0 <= mediaRoll < MediaRollRange && 0 <= jitter < JitterRange
    ensures RunAnalysis(tab, text, mediaRoll, jitter).risk != Low
  {
    TierBounds(MediaHits(mediaRoll), jitter);
  }

  /** On the text tab the result depends only on the text (and the jitter),
      and upper- and lower-case text give the same result. */
  lemma TextResultDeterministic(text: string, m1: int, m2: int, jitter: int)
    requires 0 <= jitter < JitterRange
    ensures RunAnalysis(TextTab, text, m1, jitter) == RunAnalysis(TextTab, text, m2, jitter)
    ensures RunAnalysis(TextTab, ToLower(text), m1, jitter) == RunAnalysis(TextTab, text, m1, jitter)
  {
    TextHitsIgnoreCase(text);
  }

  /** A text in which no keyword occurs (whatever its case) is rated Low
      with a fake score below 29 and the four Low explanations, the first
      affirming that no fraud indicator was found. */
  lemma NoIndicatorIsLow(text: string, mediaRoll: int, jitter: int)
    requires 0 <= jitter < JitterRange
    requires forall k :: k in Keywords ==> !Includes(ToLower(text), k)
    ensures var r := RunAnalysis(TextTab, text, mediaRoll, jitter);
      14 <= r.fakeScore < 29 && r.risk == Low
      && r.explanations == LowExplanations && |r.explanations| == 4
  {
    assert TextHits(text) == 0;
    TierBounds(0, jitter);
  }

  /** A text in which at least four distinct keywords occur is rated High,
      whatever the jitter. */
  lemma FourIndicatorsAreHigh(text: string, found: set<string>, mediaRoll: int, jitter: int)
    requires 0 <= jitter < JitterRange
    requires |found| >= 4
    requires forall k :: k in found ==> k in Keywords && Includes(ToLower(text), k)
    ensures RunAnalysis(TextTab, text, mediaRoll, jitter).risk == High
    ensures |RunAnalysis(TextTab, text, mediaRoll, jitter).explanations| == 5
  {
    var included := IncludedSet(Keywords, ToLower(text));
    assert found <= included;
    SubsetSize(found, included);
    TextHitsCountsKeywords(text);
    TierBounds(TextHits(text), jitter);
  }

  /** A subset is no larger than its superset. */
  lemma {:induction false} SubsetSize<T>(a: set<T>, b: set<T>)
    requires a <= b
    ensures |a| <= |b|
    decreases a
  {
    if a != {} {
      var x :| x in a;
      SubsetSize(a - {x}, b - {x});
    }
  }

  /** Six hits, as for "You have WON a lottery prize! Click to verify your
      account." (lottery, won, prize, click, verify, account): a fake score
      from 86 to 96, High, and the five High explanations, the first about
      urgency manipulation. */
  lemma SixHitsScenario(text: string, mediaRoll: int, jitter: int)
    requires 0 <= jitter < JitterRange
    requires TextHits(text) == 6
    ensures var r := RunAnalysis(TextTab, text, mediaRoll, jitter);
      86 <= r.fakeScore <= 96 && 4 <= r.realScore <= 14 && r.risk == High
      && r.explanations == HighExplanations
      && r.explanations[0] == "⚠ Urgency manipulation detected — designed to make you panic"
  {
    TierBounds(6, jitter);
  }
}
