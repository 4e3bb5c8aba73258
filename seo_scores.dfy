/** The component scores of a page analysis (title, description, headers,
    keywords) and its performance score with the security rating. Each score
    starts at 100, loses fixed deductions and is clamped. */
module SeoScores {
  import opened Strings

  /** A keyword and its density, in percent of the counted words. */
  datatype Keyword = Keyword(word: string, density: real)

  const MiB: nat := 1048576

  /** `points` when the rule applies, nothing otherwise. */
  function Points(applies: bool, points: nat): nat
  {
    if applies then points else 0
  }

  /** `Math.max(0, x)` */
  function ClampLow(x: int): nat
  {
    if x < 0 then 0 else x
  }

  /** `Math.max(0, Math.min(100, x))` */
  function Clamp100(x: int): (r: nat)
    ensures r <= 100
    ensures 0 <= x <= 100 ==> r == x
  {
    if x < 0 then 0 else if x > 100 then 100 else x
  }

  // ----- Title

  /** Penalty schedule of the title: under 30 characters 30, over 60 a
      further 20, over 70 another 20 on top, no ASCII letter or digit 10,
      no upper-case letter 5, no lower-case letter 10. */
  function TitleDeduction(title: string): nat
  {
    Points(|title| < 30, 30) + Points(|title| > 60, 20) + Points(|title| > 70, 20)
    + Points(!HasAlphanumeric(title), 10)
    + Points(Lower(title) == title, 5) + Points(Upper(title) == title, 10)
  }

  /** The title score: 0 for a missing title, otherwise 100 less the
      schedule, never below 35 because the short and long rules exclude
      each other. */
  function TitleScoreOf(title: string): (r: nat)
    ensures r <= 100
    ensures title == [] ==> r == 0
    ensures title != [] ==> r >= 35 && r == 100 - TitleDeduction(title)
  {
    if title == [] then 0 else ClampLow(100 - TitleDeduction(title))
  }

  method TitleScore(title: string) returns (score: int)
    ensures score == TitleScoreOf(title)
  {
    score := 100;
    if title == [] {
      score := 0;
      return;
    }
    if |title| < 30 { score := score - 30; }
    if |title| > 60 { score := score - 20; }
    if |title| > 70 { score := score - 20; }
    if !HasAlphanumeric(title) { score := score - 10; }
    if Lower(title) == title { score := score - 5; }
    if Upper(title) == title { score := score - 10; }
    score := if score < 0 then 0 else score;
  }

  /** A title with both cases and a letter or digit loses only for its length,
      and the two long-title rules stack: 65 characters give 80, 75 give 60. */
  lemma MixedCaseTitleScore(title: string)
    requires HasAlphanumeric(title)
    requires exists i :: 0 <= i < |title| && IsUpper(title[i])
    requires exists i :: 0 <= i < |title| && IsLower(title[i])
    ensures |title| == 65 ==> TitleScoreOf(title) == 80
    ensures |title| == 75 ==> TitleScoreOf(title) == 60
    ensures 30 <= |title| <= 60 ==> TitleScoreOf(title) == 100
  {}

  // ----- Description

  /** Penalty schedule of the meta description: under 120 characters 30,
      over 160 20, no ASCII letter or digit 10, no space 20, no upper-case
      letter 5. */
  function DescriptionDeduction(description: string): nat
  {
    Points(|description| < 120, 30) + Points(|description| > 160, 20)
    + Points(!HasAlphanumeric(description), 10)
    + Points(' ' !in description, 20)
    + Points(Lower(description) == description, 5)
  }

  /** The description score: 0 when missing, otherwise 100 less the
      schedule; at most one of the two length rules applies. */
  function DescriptionScoreOf(description: string): (r: nat)
    ensures r <= 100
    ensures description == [] ==> r == 0
    ensures description != [] ==> r >= 35 && r == 100 - DescriptionDeduction(description)
  {
    if description == [] then 0 else ClampLow(100 - DescriptionDeduction(description))
  }

  method DescriptionScore(description: string) returns (score: int)
    ensures score == DescriptionScoreOf(description)
  {
    score := 100;
    if description == [] {
      score := 0;
      return;
    }
    if |description| < 120 { score := score - 30; }
    if |description| > 160 { score := score - 20; }
    if !HasAlphanumeric(description) { score := score - 10; }
    if ' ' !in description { score := score - 20; }
    if Lower(description) == description { score := score - 5; }
    score := if score < 0 then 0 else score;
  }

  // ----- Headers

  /** Penalty schedule of the header counts: no h1 40, several h1 20, no h2
      10, over ten h2 10, no h3 5, over fifteen h3 5. */
  function HeaderDeduction(h1: nat, h2: nat, h3: nat): nat
  {
    Points(h1 == 0, 40) + Points(h1 > 1, 20)
    + Points(h2 == 0, 10) + Points(h2 > 10, 10)
    + Points(h3 == 0, 5) + Points(h3 > 15, 5)
  }

  /** The header score is at least 45, and it is 100 exactly for one h1,
      one to ten h2 and one to fifteen h3. */
  function HeaderScoreOf(h1: nat, h2: nat, h3: nat): (r: nat)
    ensures 45 <= r <= 100
    ensures r == 100 <==> h1 == 1 && 1 <= h2 <= 10 && 1 <= h3 <= 15
    ensures r == 100 - HeaderDeduction(h1, h2, h3)
  {
    ClampLow(100 - HeaderDeduction(h1, h2, h3))
  }

  method HeaderScore(h1: nat, h2: nat, h3: nat) returns (score: int)
    ensures score == HeaderScoreOf(h1, h2, h3)
  {
    score := 100;
    if h1 == 0 { score := score - 40; }
    if h1 > 1 { score := score - 20; }
    if h2 == 0 { score := score - 10; }
    if h2 > 10 { score := score - 10; }
    if h3 == 0 { score := score - 5; }
    if h3 > 15 { score := score - 5; }
    score := if score < 0 then 0 else score;
  }

  // ----- Keywords

  /** A keyword over 5% costs 20, one under 0.5% costs 10; no keyword costs
      both. */
  function KeywordPenalty(k: Keyword): (p: nat)
    ensures p == 0 || p == 10 || p == 20
    ensures p == 0 <==> 0.5 <= k.density <= 5.0
  {
    Points(k.density > 5.0, 20) + Points(k.density < 0.5, 10)
  }

  /** The penalties of all keywords, accumulated in list order. */
  function KeywordDeductions(keywords: seq<Keyword>): nat
  {
    if keywords == [] then 0
    else KeywordDeductions(keywords[..|keywords| - 1]) + KeywordPenalty(keywords[|keywords| - 1])
  }

  /** The keyword score: 100, less 50 for an empty list and the penalty of
      every keyword, clamped at 0. */
  function KeywordScoreOf(keywords: seq<Keyword>): (r: nat)
    ensures r <= 100
    ensures keywords == [] ==> r == 50
  {
    ClampLow(100 - Points(keywords == [], 50) - KeywordDeductions(keywords))
  }

  method KeywordScore(keywords: seq<Keyword>) returns (score: int)
    ensures score == KeywordScoreOf(keywords)
  {
    score := 100;
    if |keywords| == 0 { score := score - 50; }
    for i := 0 to |keywords|
      invariant score == 100 - Points(keywords == [], 50) - KeywordDeductions(keywords[..i])
    {
      assert keywords[..i + 1][..i] == keywords[..i];
      if keywords[i].density > 5.0 { score := score - 20; }
      if keywords[i].density < 0.5 { score := score - 10; }
    }
    assert keywords[..|keywords|] == keywords;
    score := if score < 0 then 0 else score;
  }

  /** Each keyword costs at most 20, so the top five can never push the
      score below 0 and the clamp never engages for them. */
  lemma {:induction false} KeywordDeductionsBound(keywords: seq<Keyword>)
    ensures KeywordDeductions(keywords) <= 20 * |keywords|
  {
    if keywords != [] {
      KeywordDeductionsBound(keywords[..|keywords| - 1]);
    }
  }

  /** A non-empty list of keywords whose densities all lie in [0.5, 5]
      scores 100. */
  lemma {:induction false} ModerateKeywordsScoreFull(keywords: seq<Keyword>)
    requires keywords != []
    requires forall i :: 0 <= i < |keywords| ==> 0.5 <= keywords[i].density <= 5.0
    ensures KeywordScoreOf(keywords) == 100
  {
    ModerateKeywordsCostNothing(keywords);
  }

  lemma {:induction false} ModerateKeywordsCostNothing(keywords: seq<Keyword>)
    requires forall i :: 0 <= i < |keywords| ==> 0.5 <= keywords[i].density <= 5.0
    ensures KeywordDeductions(keywords) == 0
  {
    if keywords != [] {
      ModerateKeywordsCostNothing(keywords[..|keywords| - 1]);
    }
  }

  /** With at most five keywords the clamp is inactive. */
  lemma FewKeywordsUnclamped(keywords: seq<Keyword>)
    requires |keywords| <= 5
    ensures KeywordScoreOf(keywords) == 100 - Points(keywords == [], 50) - KeywordDeductions(keywords)
  {
    KeywordDeductionsBound(keywords);
  }

  // ----- Performance

  datatype PerformanceMetrics = PerformanceMetrics(
    contentSize: nat,
    hasViewport: bool,
    hasHttps: bool,
    hasCaching: bool,
    hasCanonical: bool,
    hasStructuredData: bool,
    hasOpenGraph: bool,
    hasTwitterCards: bool)

  datatype PerformanceScores = PerformanceScores(overall: int, mobile: int, security: string)

  /** The page-size tiers; only the largest one the size exceeds applies. */
  datatype SizeTier = Small | OverOneMiB | OverTwoMiB | OverFiveMiB

  function SizeTierOf(size: nat): (t: SizeTier)
    ensures t == OverFiveMiB <==> size > 5 * MiB
    ensures t == OverTwoMiB <==> 2 * MiB < size <= 5 * MiB
    ensures t == OverOneMiB <==> MiB < size <= 2 * MiB
    ensures t == Small <==> size <= MiB
  {
    if size > 5242880 then OverFiveMiB
    else if size > 2097152 then OverTwoMiB
    else if size > 1048576 then OverOneMiB
    else Small
  }

  function TierOverallPenalty(t: SizeTier): nat
  {
    match t
    case Small => 0
    case OverOneMiB => 5
    case OverTwoMiB => 15
    case OverFiveMiB => 30
  }

  function TierMobilePenalty(t: SizeTier): nat
  {
    match t
    case Small => 0
    case OverOneMiB => 10
    case OverTwoMiB => 20
    case OverFiveMiB => 40
  }

  /** The SEO-factor deductions from the overall score: no canonical -10,
      no structured data -15, no OpenGraph -10, no Twitter cards -5. */
  function SeoFactorPenalty(m: PerformanceMetrics): (p: nat)
    ensures p <= 40
    ensures p == 0 <==> m.hasCanonical && m.hasStructuredData && m.hasOpenGraph && m.hasTwitterCards
  {
    Points(!m.hasCanonical, 10) + Points(!m.hasStructuredData, 15)
    + Points(!m.hasOpenGraph, 10) + Points(!m.hasTwitterCards, 5)
  }

  /** Adjustment of the overall score before the clamp: the size tier, no
      viewport -20, the SEO factors, HTTPS +10, caching +5. */
  function OverallAdjustment(m: PerformanceMetrics): int
  {
    var tier: int := TierOverallPenalty(SizeTierOf(m.contentSize));
    - tier - Points(!m.hasViewport, 20) - SeoFactorPenalty(m)
    + Points(m.hasHttps, 10) + Points(m.hasCaching, 5)
  }

  /** Adjustment of the mobile score before the clamp: the size tier, no
      viewport -50, HTTPS +5, caching +5. */
  function MobileAdjustment(m: PerformanceMetrics): int
  {
    var tier: int := TierMobilePenalty(SizeTierOf(m.contentSize));
    - tier
    - Points(!m.hasViewport, 50)
    + Points(m.hasHttps, 5) + Points(m.hasCaching, 5)
  }

  /** The security grade: A+ for HTTPS with caching, A for HTTPS alone, B for
      caching alone, C for neither. */
  function SecurityRating(hasHttps: bool, hasCaching: bool): (r: string)
    ensures r == "A+" <==> hasHttps && hasCaching
    ensures r == "A" <==> hasHttps && !hasCaching
    ensures r == "B" <==> !hasHttps && hasCaching
    ensures r == "C" <==> !hasHttps && !hasCaching
  {
    if hasHttps && hasCaching then "A+"
    else if hasHttps then "A"
    else if hasCaching then "B"
    else "C"
  }

  /** Both scores lie in [0, 100]; both are 100 plus their adjustments,
      clamped. */
  function PerformanceOf(m: PerformanceMetrics): (r: PerformanceScores)
    ensures 0 <= r.overall <= 100 && 0 <= r.mobile <= 100
    ensures r.security == SecurityRating(m.hasHttps, m.hasCaching)
  {
    PerformanceScores(
      Clamp100(100 + OverallAdjustment(m)),
      Clamp100(100 + MobileAdjustment(m)),
      SecurityRating(m.hasHttps, m.hasCaching))
  }

  method PerformanceScore(m: PerformanceMetrics) returns (r: PerformanceScores)
    ensures r == PerformanceOf(m)
  {
    var overall, mobile := 100, 100;
    overall, mobile := ApplySizeImpact(m.contentSize, overall, mobile);
    overall, mobile := ApplyMobileOptimization(m.hasViewport, overall, mobile);
    overall := ApplySeoFactors(m, overall);
    overall, mobile := ApplySecurityBonus(m.hasHttps, m.hasCaching, overall, mobile);
    overall := Clamp100(overall);
    mobile := Clamp100(mobile);
    var security := GradeSecurity(m.hasHttps, m.hasCaching);
    r := PerformanceScores(overall, mobile, security);
  }

  /** The content-size step of the performance score. */
  method ApplySizeImpact(size: nat, overall: int, mobile: int) returns (o: int, mb: int)
    ensures o == overall - TierOverallPenalty(SizeTierOf(size))
    ensures mb == mobile - TierMobilePenalty(SizeTierOf(size))
  {
    o, mb := overall, mobile;
    if size > 5242880 {
      o := o - 30;
      mb := mb - 40;
    } else if size > 2097152 {
      o := o - 15;
      mb := mb - 20;
    } else if size > 1048576 {
      o := o - 5;
      mb := mb - 10;
    }
  }

  /** The viewport step of the performance score. */
  method ApplyMobileOptimization(hasViewport: bool, overall: int, mobile: int) returns (o: int, mb: int)
    ensures o == overall - Points(!hasViewport, 20)
    ensures mb == mobile - Points(!hasViewport, 50)
  {
    o, mb := overall, mobile;
    if !hasViewport {
      mb := mb - 50;
      o := o - 20;
    }
  }

  /** The SEO-factor step of the performance score. */
  method ApplySeoFactors(m: PerformanceMetrics, overall: int) returns (o: int)
    ensures o == overall - SeoFactorPenalty(m)
  {
    o := overall;
    if !m.hasCanonical { o := o - 10; }
    if !m.hasStructuredData { o := o - 15; }
    if !m.hasOpenGraph { o := o - 10; }
    if !m.hasTwitterCards { o := o - 5; }
  }

  /** The HTTPS and caching step of the performance score. */
  method ApplySecurityBonus(hasHttps: bool, hasCaching: bool, overall: int, mobile: int) returns (o: int, mb: int)
    ensures o == overall + Points(hasHttps, 10) + Points(hasCaching, 5)
    ensures mb == mobile + Points(hasHttps, 5) + Points(hasCaching, 5)
  {
    o, mb := overall, mobile;
    if hasHttps {
      o := o + 10;
      mb := mb + 5;
    }
    if hasCaching {
      o := o + 5;
      mb := mb + 5;
    }
  }

  /** The security grade, chosen by the same if-chain as the source. */
  method GradeSecurity(hasHttps: bool, hasCaching: bool) returns (security: string)
    ensures security == SecurityRating(hasHttps, hasCaching)
  {
    security := "C";
    if hasHttps && hasCaching {
      security := "A+";
    } else if hasHttps {
      security := "A";
    } else if hasCaching {
      security := "B";
    }
  }

  /** A 3 MiB page is in the middle tier only: overall -15 and mobile -20
      before the other adjustments. */
  lemma ThreeMiBTier(m: PerformanceMetrics)
    requires m.contentSize == 3 * MiB
    ensures TierOverallPenalty(SizeTierOf(m.contentSize)) == 15
    ensures TierMobilePenalty(SizeTierOf(m.contentSize)) == 20
  {}

  /** The deductions can never take either score below 0 (overall bottoms
      out at 10, mobile at 10), so only the upper clamp ever engages. */
  lemma PerformanceLowerClampInactive(m: PerformanceMetrics)
    ensures 100 + OverallAdjustment(m) >= 10
    ensures 100 + MobileAdjustment(m) >= 10
    ensures PerformanceOf(m).overall == if 100 + OverallAdjustment(m) > 100 then 100 else 100 + OverallAdjustment(m)
  {}

  /** A small page with every tag, HTTPS and caching is capped at 100 on
      both scores (it would otherwise reach 115 and 110) and rates A+. */
  lemma BestPagePerformance(m: PerformanceMetrics)
    requires m.contentSize <= MiB
    requires m.hasViewport && m.hasHttps && m.hasCaching && m.hasCanonical
    requires m.hasStructuredData && m.hasOpenGraph && m.hasTwitterCards
    ensures 100 + OverallAdjustment(m) == 115 && 100 + MobileAdjustment(m) == 110
    ensures PerformanceOf(m) == PerformanceScores(100, 100, "A+")
  {}
}
