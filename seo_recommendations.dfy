/** The recommendations of the page analysis: one rule per section (title,
    meta description, headers, keywords, technical SEO, social media, mobile,
    security, performance), each adding at most one finding, except the
    keyword rule, which adds one per overused keyword. */
module SeoRecommendations {
  import opened SeoScores

  datatype Impact = High | Medium | Low

  /** The sections a finding belongs to. */
  datatype Category =
    | TitleSection | MetaDescription | Headers | Keywords | TechnicalSeo
    | SocialMedia | MobileOptimization | Security | Performance

  function CategoryName(c: Category): string
  {
    match c
    case TitleSection => "Title"
    case MetaDescription => "Meta Description"
    case Headers => "Headers"
    case Keywords => "Keywords"
    case TechnicalSeo => "Technical SEO"
    case SocialMedia => "Social Media"
    case MobileOptimization => "Mobile Optimization"
    case Security => "Security"
    case Performance => "Performance"
  }

  datatype RecommendationParams = RecommendationParams(
    title: string,
    description: string,
    h1Count: nat,
    h2Count: nat,
    h3Count: nat,
    keywords: seq<Keyword>,
    hasCanonical: bool,
    hasStructuredData: bool,
    hasOpenGraph: bool,
    hasTwitterCards: bool,
    hasViewport: bool,
    hasHttps: bool,
    contentSize: nat)

  // ----- The findings with fixed text, one per rule

  datatype Rule =
    | MissingTitle | ShortTitle | LongTitle
    | MissingDescription | ShortDescription | LongDescription
    | MissingH1 | MultipleH1
    | MissingCanonical | NoStructuredData | MissingOpenGraph
    | MissingViewport | NoHttps | LargePage

  function RuleCategory(rule: Rule): Category
  {
    match rule
    case MissingTitle | ShortTitle | LongTitle => TitleSection
    case MissingDescription | ShortDescription | LongDescription => MetaDescription
    case MissingH1 | MultipleH1 => Headers
    case MissingCanonical | NoStructuredData => TechnicalSeo
    case MissingOpenGraph => SocialMedia
    case MissingViewport => MobileOptimization
    case NoHttps => Security
    case LargePage => Performance
  }

  function RuleImpact(rule: Rule): Impact
  {
    match rule
    case MissingTitle | MissingDescription | MissingH1 | MissingViewport | NoHttps | LargePage => High
    case MissingOpenGraph => Low
    case _ => Medium
  }

  function RuleIssue(rule: Rule): string
  {
    match rule
    case MissingTitle => "Missing page title"
    case ShortTitle => "Title too short"
    case LongTitle => "Title too long"
    case MissingDescription => "Missing meta description"
    case ShortDescription => "Description too short"
    case LongDescription => "Description too long"
    case MissingH1 => "Missing H1 tag"
    case MultipleH1 => "Multiple H1 tags"
    case MissingCanonical => "Missing canonical tag"
    case NoStructuredData => "No structured data"
    case MissingOpenGraph => "Missing OpenGraph tags"
    case MissingViewport => "Missing viewport meta tag"
    case NoHttps => "Not using HTTPS"
    case LargePage => "Large page size"
  }

  function RuleSuggestion(rule: Rule): string
  {
    match rule
    case MissingTitle => "Add a descriptive page title between 30-60 characters."
    case ShortTitle => "Expand the title to be more descriptive (30-60 characters)."
    case LongTitle =>
      "Shorten the title to ensure it displays properly in search results (30-60 characters)."
    case MissingDescription => "Add a compelling meta description between 120-160 characters."
    case ShortDescription => "Expand the meta description to be more informative (120-160 characters)."
    case LongDescription =>
      "Shorten the meta description to prevent truncation in search results (120-160 characters)."
    case MissingH1 => "Add a single H1 tag containing your main page heading."
    case MultipleH1 => "Use only one H1 tag per page for better SEO structure."
    case MissingCanonical => "Add a canonical tag to prevent duplicate content issues."
    case NoStructuredData => "Implement schema markup to enhance search result appearance."
    case MissingOpenGraph => "Add OpenGraph meta tags for better social media sharing."
    case MissingViewport => "Add a viewport meta tag for proper mobile rendering."
    case NoHttps => "Switch to HTTPS to improve security and SEO ranking."
    case LargePage => "Optimize images and minify resources to reduce page size below 5MB."
  }

  /** A finding: one of the fixed rules, or a keyword over 5%. Its four
      fields (category, issue, impact, suggestion) are functions of it. */
  datatype Recommendation = Finding(rule: Rule) | Overused(word: string)
  {
    function Category(): Category
    {
      match this
      case Finding(rule) => RuleCategory(rule)
      case Overused(_) => Keywords
    }

    function Impact(): Impact
    {
      match this
      case Finding(rule) => RuleImpact(rule)
      case Overused(_) => Medium
    }

    function Issue(): string
    {
      match this
      case Finding(rule) => RuleIssue(rule)
      case Overused(word) => "Keyword \"" + word + OverusedTail
    }

    function Suggestion(): string
    {
      match this
      case Finding(rule) => RuleSuggestion(rule)
      case Overused(_) => OverusedSuggestion
    }
  }

  const OverusedTail := "\" appears too frequently"
  const OverusedSuggestion := "Reduce keyword density to avoid over-optimization. Aim for 1-3%."

  // ----- The findings of each section, in the order the rules push them

  /** Every finding in `rs` belongs to section `c`. */
  predicate AllIn(rs: seq<Recommendation>, c: Category)
  {
    forall r <- rs :: r.Category() == c
  }

  /** The one-finding list when the rule applies, the empty list otherwise.
      `Ordered.When` without its `ensures`, which would otherwise be in
      scope at every use and slow the proofs about findings. */
  function Flag(applies: bool, r: Recommendation): seq<Recommendation>
  {
    if applies then [r] else []
  }

  /** The title rule: missing, shorter than 30 or longer than 60 characters. */
  function TitleFindings(title: string): (s: seq<Recommendation>)
    ensures |s| <= 1
    ensures s == [] <==> 30 <= |title| <= 60
    ensures AllIn(s, TitleSection)
    ensures HighCount(s) == Points(title == [], 1)
  {
    if title == [] then [Finding(MissingTitle)]
    else if |title| < 30 then [Finding(ShortTitle)]
    else if |title| > 60 then [Finding(LongTitle)]
    else []
  }

  /** The meta-description rule: missing, shorter than 120 or longer than
      160 characters. */
  function DescriptionFindings(description: string): (s: seq<Recommendation>)
    ensures |s| <= 1
    ensures s == [] <==> 120 <= |description| <= 160
    ensures AllIn(s, MetaDescription)
    ensures HighCount(s) == Points(description == [], 1)
  {
    if description == [] then [Finding(MissingDescription)]
    else if |description| < 120 then [Finding(ShortDescription)]
    else if |description| > 160 then [Finding(LongDescription)]
    else []
  }

  /** The header rule: no H1, or more than one. */
  function HeaderFindings(h1Count: nat): (s: seq<Recommendation>)
    ensures |s| <= 1
    ensures s == [] <==> h1Count == 1
    ensures AllIn(s, Headers)
    ensures HighCount(s) == Points(h1Count == 0, 1)
  {
    if h1Count == 0 then [Finding(MissingH1)]
    else if h1Count > 1 then [Finding(MultipleH1)]
    else []
  }

  /** The title rule reports a missing title, one under 30 characters or one
      over 60, and nothing else. */
  lemma TitleRule(title: string)
    ensures title == [] <==> TitleFindings(title) == [Finding(MissingTitle)]
    ensures 0 < |title| < 30 <==> TitleFindings(title) == [Finding(ShortTitle)]
    ensures |title| > 60 <==> TitleFindings(title) == [Finding(LongTitle)]
    ensures 30 <= |title| <= 60 <==> TitleFindings(title) == []
  {
  }

  /** The description rule reports a missing description, one under 120
      characters or one over 160, and nothing else. */
  lemma DescriptionRule(description: string)
    ensures description == [] <==> DescriptionFindings(description) == [Finding(MissingDescription)]
    ensures 0 < |description| < 120 <==> DescriptionFindings(description) == [Finding(ShortDescription)]
    ensures |description| > 160 <==> DescriptionFindings(description) == [Finding(LongDescription)]
    ensures 120 <= |description| <= 160 <==> DescriptionFindings(description) == []
  {
  }

  /** One finding per keyword over 5%, in list order. */
  function KeywordFindings(keywords: seq<Keyword>): (s: seq<Recommendation>)
    ensures |s| == OverusedCount(keywords)
    ensures forall r <- s :: exists k <- keywords :: k.density > 5.0 && r == Overused(k.word)
    ensures forall k <- keywords :: k.density > 5.0 ==> Overused(k.word) in s
    ensures AllIn(s, Keywords)
    ensures HighCount(s) == 0
  {
    if keywords == [] then []
    else
      var init, last := keywords[..|keywords| - 1], keywords[|keywords| - 1];
      assert keywords == init + [last];
      var s := KeywordFindings(init) + Flag(last.density > 5.0, Overused(last.word));
      HighCountConcat(KeywordFindings(init), Flag(last.density > 5.0, Overused(last.word)));
      s
  }

  /** The number of keywords over 5%. */
  function OverusedCount(keywords: seq<Keyword>): nat
  {
    if keywords == [] then 0
    else OverusedCount(keywords[..|keywords| - 1]) + (if keywords[|keywords| - 1].density > 5.0 then 1 else 0)
  }

  /** `pos` lists, in increasing order, exactly the positions of the keywords
      over 5%. */
  predicate OverusedPositions(keywords: seq<Keyword>, pos: seq<nat>)
  {
    && (forall n :: 0 <= n < |pos| ==> pos[n] < |keywords| && keywords[pos[n]].density > 5.0)
    && (forall n, m :: 0 <= n < m < |pos| ==> pos[n] < pos[m])
    && (forall i :: 0 <= i < |keywords| && keywords[i].density > 5.0 ==> i in pos)
  }

  /** The keyword findings follow the keyword list: the n-th finding names the
      n-th keyword over 5%. */
  lemma {:induction false} KeywordFindingsInOrder(keywords: seq<Keyword>) returns (pos: seq<nat>)
    ensures OverusedPositions(keywords, pos)
    ensures |pos| == |KeywordFindings(keywords)|
    ensures forall n :: 0 <= n < |pos| ==> KeywordFindings(keywords)[n] == Overused(keywords[pos[n]].word)
  {
    if keywords == [] {
      pos := [];
    } else {
      var init := keywords[..|keywords| - 1];
      var prev := KeywordFindingsInOrder(init);
      if keywords[|keywords| - 1].density > 5.0 {
        pos := InOrderOverused(keywords, prev);
      } else {
        InOrderPlain(keywords, prev);
        pos := prev;
      }
    }
  }

  /** The step of `KeywordFindingsInOrder` for a last keyword over 5%. */
  lemma InOrderOverused(keywords: seq<Keyword>, prev: seq<nat>) returns (pos: seq<nat>)
    requires keywords != [] && keywords[|keywords| - 1].density > 5.0
    requires var init := keywords[..|keywords| - 1];
      && OverusedPositions(init, prev) && |prev| == |KeywordFindings(init)|
      && forall n :: 0 <= n < |prev| ==> KeywordFindings(init)[n] == Overused(init[prev[n]].word)
    ensures OverusedPositions(keywords, pos)
    ensures |pos| == |KeywordFindings(keywords)|
    ensures forall n :: 0 <= n < |pos| ==> KeywordFindings(keywords)[n] == Overused(keywords[pos[n]].word)
  {
    var init := keywords[..|keywords| - 1];
    KeywordFindingsSnocOverused(keywords);
    pos := prev + [|keywords| - 1];
    PositionsExtend(keywords, prev);
    FoundExtend(keywords, prev, KeywordFindings(init), pos, KeywordFindings(keywords));
  }

  /** The step of `KeywordFindingsInOrder` for a last keyword at most 5%. */
  lemma InOrderPlain(keywords: seq<Keyword>, prev: seq<nat>)
    requires keywords != [] && keywords[|keywords| - 1].density <= 5.0
    requires var init := keywords[..|keywords| - 1];
      && OverusedPositions(init, prev) && |prev| == |KeywordFindings(init)|
      && forall n :: 0 <= n < |prev| ==> KeywordFindings(init)[n] == Overused(init[prev[n]].word)
    ensures OverusedPositions(keywords, prev)
    ensures |prev| == |KeywordFindings(keywords)|
    ensures forall n :: 0 <= n < |prev| ==> KeywordFindings(keywords)[n] == Overused(keywords[prev[n]].word)
  {
    var init := keywords[..|keywords| - 1];
    KeywordFindingsSnocPlain(keywords);
    PositionsKeep(keywords, prev);
    FoundKeep(keywords, prev, KeywordFindings(init));
  }

  lemma KeywordFindingsSnocOverused(keywords: seq<Keyword>)
    requires keywords != [] && keywords[|keywords| - 1].density > 5.0
    ensures KeywordFindings(keywords)
      == KeywordFindings(keywords[..|keywords| - 1]) + [Overused(keywords[|keywords| - 1].word)]
  {
  }

  lemma KeywordFindingsSnocPlain(keywords: seq<Keyword>)
    requires keywords != [] && keywords[|keywords| - 1].density <= 5.0
    ensures KeywordFindings(keywords) == KeywordFindings(keywords[..|keywords| - 1])
  {
    var init := keywords[..|keywords| - 1];
    assert KeywordFindings(init) + [] == KeywordFindings(init);
  }

  lemma PositionsExtend(keywords: seq<Keyword>, prev: seq<nat>)
    requires keywords != [] && keywords[|keywords| - 1].density > 5.0
    requires OverusedPositions(keywords[..|keywords| - 1], prev)
    ensures OverusedPositions(keywords, prev + [|keywords| - 1])
  {
    var init, pos := keywords[..|keywords| - 1], prev + [|keywords| - 1];
    forall n | 0 <= n < |pos| ensures pos[n] < |keywords| && keywords[pos[n]].density > 5.0 {
      if n < |prev| { assert keywords[prev[n]] == init[prev[n]]; }
    }
    forall i | 0 <= i < |keywords| && keywords[i].density > 5.0 ensures i in pos {
      if i < |init| { assert init[i] == keywords[i]; assert i in prev; }
      else { assert pos[|prev|] == i; }
    }
  }

  lemma PositionsKeep(keywords: seq<Keyword>, prev: seq<nat>)
    requires keywords != [] && keywords[|keywords| - 1].density <= 5.0
    requires OverusedPositions(keywords[..|keywords| - 1], prev)
    ensures OverusedPositions(keywords, prev)
  {
    var init := keywords[..|keywords| - 1];
    forall n | 0 <= n < |prev| ensures prev[n] < |keywords| && keywords[prev[n]] == init[prev[n]] { }
    forall i | 0 <= i < |keywords| && keywords[i].density > 5.0 ensures i in prev {
      assert i < |init| && init[i] == keywords[i];
    }
  }

  lemma FoundExtend(keywords: seq<Keyword>, prev: seq<nat>, found: seq<Recommendation>,
                    pos: seq<nat>, out: seq<Recommendation>)
    requires keywords != [] && |prev| == |found|
    requires forall n :: 0 <= n < |prev| ==> prev[n] < |keywords| - 1
    requires forall n :: 0 <= n < |prev| ==> found[n] == Overused(keywords[..|keywords| - 1][prev[n]].word)
    requires pos == prev + [|keywords| - 1] && out == found + [Overused(keywords[|keywords| - 1].word)]
    ensures |pos| == |out|
    ensures forall n :: 0 <= n < |pos| ==> out[n] == Overused(keywords[pos[n]].word)
  {
    var init := keywords[..|keywords| - 1];
    forall n | 0 <= n < |prev| ensures keywords[prev[n]] == init[prev[n]] { }
  }

  lemma FoundKeep(keywords: seq<Keyword>, prev: seq<nat>, found: seq<Recommendation>)
    requires keywords != [] && |prev| == |found|
    requires forall n :: 0 <= n < |prev| ==> prev[n] < |keywords| - 1
    requires forall n :: 0 <= n < |prev| ==> found[n] == Overused(keywords[..|keywords| - 1][prev[n]].word)
    ensures forall n :: 0 <= n < |prev| ==> found[n] == Overused(keywords[prev[n]].word)
  {
    var init := keywords[..|keywords| - 1];
    forall n | 0 <= n < |prev| ensures keywords[prev[n]] == init[prev[n]] { }
  }

  /** The technical rules: no canonical link, then no structured data. */
  function TechnicalFindings(hasCanonical: bool, hasStructuredData: bool): (s: seq<Recommendation>)
    ensures |s| <= 2
    ensures s == [] <==> hasCanonical && hasStructuredData
    ensures AllIn(s, TechnicalSeo)
    ensures HighCount(s) == 0
  {
    var s := Flag(!hasCanonical, Finding(MissingCanonical)) + Flag(!hasStructuredData, Finding(NoStructuredData));
    HighCountConcat(Flag(!hasCanonical, Finding(MissingCanonical)), Flag(!hasStructuredData, Finding(NoStructuredData)));
    s
  }

  /** Each technical finding is reported exactly when its tag is missing, the
      canonical one first. */
  lemma TechnicalRule(hasCanonical: bool, hasStructuredData: bool)
    ensures Finding(MissingCanonical) in TechnicalFindings(hasCanonical, hasStructuredData) <==> !hasCanonical
    ensures Finding(NoStructuredData) in TechnicalFindings(hasCanonical, hasStructuredData) <==> !hasStructuredData
    ensures |TechnicalFindings(hasCanonical, hasStructuredData)| == 2
      ==> TechnicalFindings(hasCanonical, hasStructuredData) == [Finding(MissingCanonical), Finding(NoStructuredData)]
  {
  }

  /** The social rule: no OpenGraph tags. */
  function SocialFindings(hasOpenGraph: bool): (s: seq<Recommendation>)
    ensures |s| <= 1
    ensures s == [] <==> hasOpenGraph
    ensures AllIn(s, SocialMedia)
    ensures HighCount(s) == 0
  {
    Flag(!hasOpenGraph, Finding(MissingOpenGraph))
  }

  /** The mobile rule: no viewport tag. */
  function MobileFindings(hasViewport: bool): (s: seq<Recommendation>)
    ensures |s| <= 1
    ensures s == [] <==> hasViewport
    ensures AllIn(s, MobileOptimization)
    ensures HighCount(s) == Points(!hasViewport, 1)
  {
    Flag(!hasViewport, Finding(MissingViewport))
  }

  /** The security rule: plain HTTP. */
  function SecurityFindings(hasHttps: bool): (s: seq<Recommendation>)
    ensures |s| <= 1
    ensures s == [] <==> hasHttps
    ensures AllIn(s, Security)
    ensures HighCount(s) == Points(!hasHttps, 1)
  {
    Flag(!hasHttps, Finding(NoHttps))
  }

  /** The size rule: content longer than 5 MiB. */
  function PerformanceFindings(contentSize: nat): (s: seq<Recommendation>)
    ensures |s| <= 1
    ensures s == [] <==> contentSize <= 5 * MiB
    ensures AllIn(s, Performance)
    ensures HighCount(s) == Points(contentSize > 5 * MiB, 1)
  {
    Flag(contentSize > 5 * MiB, Finding(LargePage))
  }

  /** All findings, in the order the rules run. */
  function Recommendations(p: RecommendationParams): seq<Recommendation>
  {
    TitleFindings(p.title) + DescriptionFindings(p.description) + HeaderFindings(p.h1Count)
    + KeywordFindings(p.keywords) + TechnicalFindings(p.hasCanonical, p.hasStructuredData)
    + SocialFindings(p.hasOpenGraph) + MobileFindings(p.hasViewport)
    + SecurityFindings(p.hasHttps) + PerformanceFindings(p.contentSize)
  }

  // ----- The rules as they run, pushing onto the list in place

  /** Runs the rules in order, pushing each finding onto the list. */
  method GenerateRecommendations(p: RecommendationParams) returns (recommendations: seq<Recommendation>)
    ensures recommendations == Recommendations(p)
  {
    recommendations := [];
    recommendations := PushTitleFindings(recommendations, p.title);
    assert recommendations == TitleFindings(p.title);
    recommendations := PushDescriptionFindings(recommendations, p.description);
    recommendations := PushHeaderFindings(recommendations, p.h1Count);
    recommendations := PushKeywordFindings(recommendations, p.keywords);
    recommendations := PushTechnicalFindings(recommendations, p.hasCanonical, p.hasStructuredData);
    recommendations := PushWhen(recommendations, !p.hasOpenGraph, Finding(MissingOpenGraph));
    recommendations := PushWhen(recommendations, !p.hasViewport, Finding(MissingViewport));
    recommendations := PushWhen(recommendations, !p.hasHttps, Finding(NoHttps));
    recommendations := PushWhen(recommendations, p.contentSize > 5242880, Finding(LargePage));
  }

  /** The title rule, pushing onto `rs`. */
  method PushTitleFindings(rs: seq<Recommendation>, title: string) returns (out: seq<Recommendation>)
    ensures out == rs + TitleFindings(title)
  {
    out := rs;
    if title == [] {
      out := out + [Finding(MissingTitle)];
    } else if |title| < 30 {
      out := out + [Finding(ShortTitle)];
    } else if |title| > 60 {
      out := out + [Finding(LongTitle)];
    }
  }

  /** The meta-description rule, pushing onto `rs`. */
  method PushDescriptionFindings(rs: seq<Recommendation>, description: string) returns (out: seq<Recommendation>)
    ensures out == rs + DescriptionFindings(description)
  {
    out := rs;
    if description == [] {
      out := out + [Finding(MissingDescription)];
    } else if |description| < 120 {
      out := out + [Finding(ShortDescription)];
    } else if |description| > 160 {
      out := out + [Finding(LongDescription)];
    }
  }

  /** The header-structure rule, pushing onto `rs`. */
  method PushHeaderFindings(rs: seq<Recommendation>, h1Count: nat) returns (out: seq<Recommendation>)
    ensures out == rs + HeaderFindings(h1Count)
  {
    out := rs;
    if h1Count == 0 {
      out := out + [Finding(MissingH1)];
    } else if h1Count > 1 {
      out := out + [Finding(MultipleH1)];
    }
  }

  /** The keyword rule, pushing onto `rs` once per keyword over 5%. */
  method PushKeywordFindings(rs: seq<Recommendation>, keywords: seq<Keyword>) returns (out: seq<Recommendation>)
    ensures out == rs + KeywordFindings(keywords)
  {
    out := rs;
    for i := 0 to |keywords|
      invariant out == rs + KeywordFindings(keywords[..i])
    {
      ghost var flag := Flag(keywords[i].density > 5.0, Overused(keywords[i].word));
      KeywordFindingsStep(keywords, i);
      AppendAssoc(rs, KeywordFindings(keywords[..i]), flag);
      if keywords[i].density > 5.0 {
        out := out + [Overused(keywords[i].word)];
      }
      assert out == rs + KeywordFindings(keywords[..i]) + flag;
    }
    assert keywords[..|keywords|] == keywords;
  }

  lemma AppendAssoc(a: seq<Recommendation>, b: seq<Recommendation>, c: seq<Recommendation>)
    ensures a + b + c == a + (b + c)
  {
  }

  lemma KeywordFindingsStep(keywords: seq<Keyword>, i: nat)
    requires i < |keywords|
    ensures KeywordFindings(keywords[..i + 1])
      == KeywordFindings(keywords[..i]) + Flag(keywords[i].density > 5.0, Overused(keywords[i].word))
  {
    assert keywords[..i + 1][..i] == keywords[..i];
  }

  /** The canonical and structured-data rules, pushing onto `rs`. */
  method PushTechnicalFindings(rs: seq<Recommendation>, hasCanonical: bool, hasStructuredData: bool)
    returns (out: seq<Recommendation>)
    ensures out == rs + TechnicalFindings(hasCanonical, hasStructuredData)
  {
    out := PushWhen(rs, !hasCanonical, Finding(MissingCanonical));
    out := PushWhen(out, !hasStructuredData, Finding(NoStructuredData));
    assert rs + Flag(!hasCanonical, Finding(MissingCanonical)) + Flag(!hasStructuredData, Finding(NoStructuredData))
      == rs + (Flag(!hasCanonical, Finding(MissingCanonical)) + Flag(!hasStructuredData, Finding(NoStructuredData)));
  }

  /** Pushes `r` onto `rs` when its rule applies: `Ordered.PushWhen`,
      stated with `Flag`. */
  method PushWhen(rs: seq<Recommendation>, applies: bool, r: Recommendation) returns (out: seq<Recommendation>)
    ensures out == rs + Flag(applies, r)
  {
    out := rs;
    if applies {
      out := out + [r];
    }
  }

  // ----- Counting high-impact findings

  /** The number of high-impact findings. */
  function HighCount(rs: seq<Recommendation>): nat
  {
    if rs == [] then 0
    else HighCount(rs[..|rs| - 1]) + (if rs[|rs| - 1].Impact() == High then 1 else 0)
  }

  lemma {:induction false} HighCountConcat(a: seq<Recommendation>, b: seq<Recommendation>)
    ensures HighCount(a + b) == HighCount(a) + HighCount(b)
  {
    if b == [] {
      assert a + b == a;
    } else {
      var init := b[..|b| - 1];
      assert (a + b)[..|a + b| - 1] == a + init;
      assert (a + b)[|a + b| - 1] == b[|b| - 1];
      assert HighCount(a + b) == HighCount(a + init) + (if b[|b| - 1].Impact() == High then 1 else 0);
      HighCountConcat(a, init);
    }
  }

  lemma HighCountOfNine(s0: seq<Recommendation>, s1: seq<Recommendation>, s2: seq<Recommendation>,
                        s3: seq<Recommendation>, s4: seq<Recommendation>, s5: seq<Recommendation>,
                        s6: seq<Recommendation>, s7: seq<Recommendation>, s8: seq<Recommendation>)
    ensures HighCount(s0 + s1 + s2 + s3 + s4 + s5 + s6 + s7 + s8)
      == HighCount(s0) + HighCount(s1) + HighCount(s2) + HighCount(s3) + HighCount(s4)
       + HighCount(s5) + HighCount(s6) + HighCount(s7) + HighCount(s8)
  {
    HighCountConcat(s0, s1);
    HighCountConcat(s0 + s1, s2);
    HighCountConcat(s0 + s1 + s2, s3);
    HighCountConcat(s0 + s1 + s2 + s3, s4);
    HighCountConcat(s0 + s1 + s2 + s3 + s4, s5);
    HighCountConcat(s0 + s1 + s2 + s3 + s4 + s5, s6);
    HighCountConcat(s0 + s1 + s2 + s3 + s4 + s5 + s6, s7);
    HighCountConcat(s0 + s1 + s2 + s3 + s4 + s5 + s6 + s7, s8);
  }

  /** Exactly the missing title, missing description, missing H1, missing
      viewport, plain HTTP and oversized page findings rate high. */
  lemma HighImpactCount(p: RecommendationParams)
    ensures HighCount(Recommendations(p))
      == Points(p.title == [], 1) + Points(p.description == [], 1) + Points(p.h1Count == 0, 1)
       + Points(!p.hasViewport, 1) + Points(!p.hasHttps, 1) + Points(p.contentSize > 5 * MiB, 1)
  {
    HighCountOfNine(TitleFindings(p.title), DescriptionFindings(p.description), HeaderFindings(p.h1Count),
      KeywordFindings(p.keywords), TechnicalFindings(p.hasCanonical, p.hasStructuredData),
      SocialFindings(p.hasOpenGraph), MobileFindings(p.hasViewport),
      SecurityFindings(p.hasHttps), PerformanceFindings(p.contentSize));
  }

  /** A page with no title, no H1 and no HTTPS gets at least three
      high-impact findings. */
  lemma BarePageHighFindings(p: RecommendationParams)
    requires p.title == [] && p.h1Count == 0 && !p.hasHttps
    ensures HighCount(Recommendations(p)) >= 3
  {
    HighImpactCount(p);
  }

  // ----- The order of the sections

  /** The position of each section in the report. */
  function Rank(c: Category): nat
  {
    match c
    case TitleSection => 0
    case MetaDescription => 1
    case Headers => 2
    case Keywords => 3
    case TechnicalSeo => 4
    case SocialMedia => 5
    case MobileOptimization => 6
    case Security => 7
    case Performance => 8
  }

  /** Findings appear section by section, in report order. */
  predicate InSectionOrder(rs: seq<Recommendation>)
  {
    forall i, j :: 0 <= i < j < |rs| ==> Rank(rs[i].Category()) <= Rank(rs[j].Category())
  }

  /** The ranks of `rs` never decrease and lie from `lo` to `hi`. */
  predicate RanksFrom(rs: seq<Recommendation>, lo: nat, hi: nat)
  {
    rs == [] || (lo <= Rank(rs[0].Category()) <= hi && RanksFrom(rs[1..], Rank(rs[0].Category()), hi))
  }

  lemma {:induction false} RanksFromWeaken(rs: seq<Recommendation>, lo: nat, mid: nat, hi: nat)
    requires RanksFrom(rs, lo, mid) && mid <= hi
    ensures RanksFrom(rs, lo, hi)
  {
    if rs != [] {
      RanksFromWeaken(rs[1..], Rank(rs[0].Category()), mid, hi);
    }
  }

  lemma {:induction false} RanksFromConcat(a: seq<Recommendation>, b: seq<Recommendation>, lo: nat, mid: nat, hi: nat)
    requires RanksFrom(a, lo, mid) && RanksFrom(b, mid, hi) && lo <= mid <= hi
    ensures RanksFrom(a + b, lo, hi)
  {
    if a == [] {
      assert a + b == b;
      RanksFromLower(b, lo, mid, hi);
    } else {
      assert (a + b)[0] == a[0] && (a + b)[1..] == a[1..] + b;
      RanksFromConcat(a[1..], b, Rank(a[0].Category()), mid, hi);
    }
  }

  lemma RanksFromLower(rs: seq<Recommendation>, lo: nat, mid: nat, hi: nat)
    requires RanksFrom(rs, mid, hi) && lo <= mid
    ensures RanksFrom(rs, lo, hi)
  {
  }

  lemma {:induction false} RanksOfSection(rs: seq<Recommendation>, c: Category)
    requires AllIn(rs, c)
    ensures RanksFrom(rs, Rank(c), Rank(c))
  {
    if rs != [] {
      assert rs[0] in rs;
      assert forall r <- rs[1..] :: r in rs;
      RanksOfSection(rs[1..], c);
    }
  }

  lemma {:induction false} RanksFromInOrder(rs: seq<Recommendation>, lo: nat, hi: nat)
    requires RanksFrom(rs, lo, hi)
    ensures InSectionOrder(rs) && forall r <- rs :: lo <= Rank(r.Category())
  {
    if rs != [] {
      var rest := rs[1..];
      RanksFromInOrder(rest, Rank(rs[0].Category()), hi);
      forall r | r in rs ensures lo <= Rank(r.Category()) {
        if r != rs[0] {
          assert r in rest;
        }
      }
      forall i, j | 0 <= i < j < |rs| ensures Rank(rs[i].Category()) <= Rank(rs[j].Category()) {
        assert rs[j] == rest[j - 1];
        if i > 0 {
          assert rs[i] == rest[i - 1];
        } else {
          assert rest[j - 1] in rest;
        }
      }
    }
  }

  /** One more section, of rank `k`, after sections of rank below `k`. */
  lemma Append(prefix: seq<Recommendation>, s: seq<Recommendation>, c: Category, k: nat)
    requires Rank(c) == k && k > 0
    requires RanksFrom(prefix, 0, k - 1) && AllIn(s, c)
    ensures RanksFrom(prefix + s, 0, k)
  {
    RanksOfSection(s, c);
    RanksFromWeaken(prefix, 0, k - 1, k);
    RanksFromConcat(prefix, s, 0, k, k);
  }

  /** The nine sections, each holding findings of its own category only,
      joined in report order. */
  lemma OrderOfNine(s0: seq<Recommendation>, s1: seq<Recommendation>, s2: seq<Recommendation>,
                    s3: seq<Recommendation>, s4: seq<Recommendation>, s5: seq<Recommendation>,
                    s6: seq<Recommendation>, s7: seq<Recommendation>, s8: seq<Recommendation>)
    requires AllIn(s0, TitleSection) && AllIn(s1, MetaDescription) && AllIn(s2, Headers)
    requires AllIn(s3, Keywords) && AllIn(s4, TechnicalSeo) && AllIn(s5, SocialMedia)
    requires AllIn(s6, MobileOptimization) && AllIn(s7, Security) && AllIn(s8, Performance)
    ensures InSectionOrder(s0 + s1 + s2 + s3 + s4 + s5 + s6 + s7 + s8)
  {
    PageSectionsOrder(s0, s1, s2, s3, s4);
    SiteSectionsOrder(s0 + s1 + s2 + s3 + s4, s5, s6, s7, s8);
    RanksFromInOrder(s0 + s1 + s2 + s3 + s4 + s5 + s6 + s7 + s8, 0, 8);
  }

  /** The social, mobile, security and performance sections after the first
      five. */
  lemma SiteSectionsOrder(prefix: seq<Recommendation>, s5: seq<Recommendation>, s6: seq<Recommendation>,
                          s7: seq<Recommendation>, s8: seq<Recommendation>)
    requires RanksFrom(prefix, 0, 4)
    requires AllIn(s5, SocialMedia) && AllIn(s6, MobileOptimization)
    requires AllIn(s7, Security) && AllIn(s8, Performance)
    ensures RanksFrom(prefix + s5 + s6 + s7 + s8, 0, 8)
  {
    AppendTwo(prefix, s5, s6, SocialMedia, MobileOptimization, 5);
    AppendTwo(prefix + s5 + s6, s7, s8, Security, Performance, 7);
  }

  /** The page sections (title, description, headers, keywords) and the
      technical section, joined in report order. */
  lemma PageSectionsOrder(s0: seq<Recommendation>, s1: seq<Recommendation>, s2: seq<Recommendation>,
                          s3: seq<Recommendation>, s4: seq<Recommendation>)
    requires AllIn(s0, TitleSection) && AllIn(s1, MetaDescription) && AllIn(s2, Headers)
    requires AllIn(s3, Keywords) && AllIn(s4, TechnicalSeo)
    ensures RanksFrom(s0 + s1 + s2 + s3 + s4, 0, 4)
  {
    RanksOfSection(s0, TitleSection);
    Append(s0, s1, MetaDescription, 1);
    Append(s0 + s1, s2, Headers, 2);
    AppendTwo(s0 + s1 + s2, s3, s4, Keywords, TechnicalSeo, 3);
  }

  /** Two more sections, of ranks `k` and `k + 1`, after sections of rank
      below `k`. */
  lemma AppendTwo(prefix: seq<Recommendation>, a: seq<Recommendation>, b: seq<Recommendation>,
                  ca: Category, cb: Category, k: nat)
    requires Rank(ca) == k && Rank(cb) == k + 1 && k > 0
    requires RanksFrom(prefix, 0, k - 1) && AllIn(a, ca) && AllIn(b, cb)
    ensures RanksFrom(prefix + a + b, 0, k + 1)
  {
    Append(prefix, a, ca, k);
    Append(prefix + a, b, cb, k + 1);
  }

  /** The findings come in the fixed section order: title, meta description,
      headers, keywords, technical SEO, social media, mobile, security,
      performance. */
  lemma SectionOrder(p: RecommendationParams)
    ensures InSectionOrder(Recommendations(p))
  {
    OrderOfNine(TitleFindings(p.title), DescriptionFindings(p.description), HeaderFindings(p.h1Count),
      KeywordFindings(p.keywords), TechnicalFindings(p.hasCanonical, p.hasStructuredData),
      SocialFindings(p.hasOpenGraph), MobileFindings(p.hasViewport),
      SecurityFindings(p.hasHttps), PerformanceFindings(p.contentSize));
  }

  // ----- Where a finding comes from

  lemma MemberOfNine(r: Recommendation, s0: seq<Recommendation>, s1: seq<Recommendation>, s2: seq<Recommendation>,
                     s3: seq<Recommendation>, s4: seq<Recommendation>, s5: seq<Recommendation>,
                     s6: seq<Recommendation>, s7: seq<Recommendation>, s8: seq<Recommendation>)
    requires r in s0 + s1 + s2 + s3 + s4 + s5 + s6 + s7 + s8
    ensures r in s0 || r in s1 || r in s2 || r in s3 || r in s4 || r in s5 || r in s6 || r in s7 || r in s8
  {
  }

  lemma PieceOfNine(r: Recommendation, k: nat, s0: seq<Recommendation>, s1: seq<Recommendation>, s2: seq<Recommendation>,
                    s3: seq<Recommendation>, s4: seq<Recommendation>, s5: seq<Recommendation>,
                    s6: seq<Recommendation>, s7: seq<Recommendation>, s8: seq<Recommendation>)
    requires k == 0 ==> r in s0
    requires k == 1 ==> r in s1
    requires k <= 1
    ensures r in s0 + s1 + s2 + s3 + s4 + s5 + s6 + s7 + s8
  {
  }

  /** A title finding comes from the title rule. */
  lemma FromTitleRule(p: RecommendationParams, r: Recommendation)
    requires r in Recommendations(p) && r.Category() == TitleSection
    ensures r in TitleFindings(p.title)
  {
    MemberOfNine(r, TitleFindings(p.title), DescriptionFindings(p.description), HeaderFindings(p.h1Count),
      KeywordFindings(p.keywords), TechnicalFindings(p.hasCanonical, p.hasStructuredData),
      SocialFindings(p.hasOpenGraph), MobileFindings(p.hasViewport),
      SecurityFindings(p.hasHttps), PerformanceFindings(p.contentSize));
  }

  /** A description finding comes from the description rule. */
  lemma FromDescriptionRule(p: RecommendationParams, r: Recommendation)
    requires r in Recommendations(p) && r.Category() == MetaDescription
    ensures r in DescriptionFindings(p.description)
  {
    MemberOfNine(r, TitleFindings(p.title), DescriptionFindings(p.description), HeaderFindings(p.h1Count),
      KeywordFindings(p.keywords), TechnicalFindings(p.hasCanonical, p.hasStructuredData),
      SocialFindings(p.hasOpenGraph), MobileFindings(p.hasViewport),
      SecurityFindings(p.hasHttps), PerformanceFindings(p.contentSize));
  }

  /** "Missing page title" is reported exactly for an empty title. */
  lemma MissingTitleIff(p: RecommendationParams)
    ensures Finding(MissingTitle) in Recommendations(p) <==> p.title == []
  {
    if Finding(MissingTitle) in Recommendations(p) {
      FromTitleRule(p, Finding(MissingTitle));
    }
    if p.title == [] {
      PieceOfNine(Finding(MissingTitle), 0, TitleFindings(p.title), DescriptionFindings(p.description), HeaderFindings(p.h1Count),
        KeywordFindings(p.keywords), TechnicalFindings(p.hasCanonical, p.hasStructuredData),
        SocialFindings(p.hasOpenGraph), MobileFindings(p.hasViewport),
        SecurityFindings(p.hasHttps), PerformanceFindings(p.contentSize));
    }
  }

  /** "Missing meta description" is reported exactly for an empty
      description. */
  lemma MissingDescriptionIff(p: RecommendationParams)
    ensures Finding(MissingDescription) in Recommendations(p) <==> p.description == []
  {
    if Finding(MissingDescription) in Recommendations(p) {
      FromDescriptionRule(p, Finding(MissingDescription));
    }
    if p.description == [] {
      PieceOfNine(Finding(MissingDescription), 1, TitleFindings(p.title), DescriptionFindings(p.description), HeaderFindings(p.h1Count),
        KeywordFindings(p.keywords), TechnicalFindings(p.hasCanonical, p.hasStructuredData),
        SocialFindings(p.hasOpenGraph), MobileFindings(p.hasViewport),
        SecurityFindings(p.hasHttps), PerformanceFindings(p.contentSize));
    }
  }

  // ----- What yields no finding

  /** The Twitter card flag and the H2 and H3 counts never change the
      findings. */
  lemma IgnoredParams(p: RecommendationParams, twitter: bool, h2: nat, h3: nat)
    ensures Recommendations(p.(hasTwitterCards := twitter, h2Count := h2, h3Count := h3))
      == Recommendations(p)
  {
  }

  /** No findings exactly for a 30-60 character title, a 120-160 character
      description, one H1, no keyword over 5%, all four tags, HTTPS and at
      most 5 MiB of content. */
  lemma NoFindingsIff(p: RecommendationParams)
    ensures Recommendations(p) == [] <==>
      30 <= |p.title| <= 60 && 120 <= |p.description| <= 160 && p.h1Count == 1
      && (forall k <- p.keywords :: k.density <= 5.0)
      && p.hasCanonical && p.hasStructuredData && p.hasOpenGraph && p.hasViewport && p.hasHttps
      && p.contentSize <= 5 * MiB
  {
    var k := KeywordFindings(p.keywords);
    forall kw <- p.keywords | kw.density > 5.0 ensures k != [] {
      assert Overused(kw.word) in k;
    }
    if k != [] {
      assert k[0] in k;
    }
  }
}
