/** What the niche analysis reads off the popular videos of a niche: the
    trends their titles and descriptions show, and taglines built from the
    patterns of their titles. */
module YouTubeNiche {
  import opened Strings
  import opened Ordered

  /** The snippet of a video. */
  datatype VideoSnippet = VideoSnippet(title: string, description: string)

  // ----- Trends

  /** The four trends, each with its message. */
  datatype Trend = Tutorials | Reviews | Lists | Challenges
  {
    function Message(): string
    {
      match this
      case Tutorials => "Tutorial and how-to content is trending"
      case Reviews => "Product reviews show high engagement"
      case Lists => "List-based content performs well"
      case Challenges => "Challenge videos are gaining traction"
    }
  }

  /** Video `v` shows trend `t`: the rule of `t` on the lower-cased title and
      description. */
  predicate Triggers(v: VideoSnippet, t: Trend)
  {
    var title := Lower(v.title);
    var description := Lower(v.description);
    match t
    case Tutorials => Contains(title, "how to") || Contains(description, "tutorial")
    case Reviews => Contains(title, "review") || Contains(description, "review")
    case Lists => Contains(title, "top") || Contains(title, "best")
    case Challenges => Contains(title, "challenge") || Contains(description, "challenge")
  }

  /** The trends one video shows, in rule order. */
  function VideoTrends(v: VideoSnippet): seq<Trend>
  {
    When(Triggers(v, Tutorials), Tutorials) + When(Triggers(v, Reviews), Reviews)
    + When(Triggers(v, Lists), Lists) + When(Triggers(v, Challenges), Challenges)
  }

  /** Every trend shown, video by video and rule by rule within a video. */
  function Shown(videos: seq<VideoSnippet>): seq<Trend>
  {
    FlatMap(videos, VideoTrends)
  }

  /** The trends of the videos, each once, in order of first appearance. */
  function Trends(videos: seq<VideoSnippet>): seq<Trend>
  {
    Dedup(Shown(videos))
  }

  /** Collects the trends the videos show into an insertion-ordered set. */
  method AnalyzeTrends(videos: seq<VideoSnippet>) returns (trends: seq<Trend>)
    ensures trends == Trends(videos)
  {
    trends := [];
    for i := 0 to |videos|
      invariant trends == Dedup(Shown(videos[..i]))
    {
      FlatMapSnoc(videos, VideoTrends, i);
      trends := AddVideoTrends(trends, Shown(videos[..i]), videos[i]);
    }
    assert videos[..|videos|] == videos;
  }

  /** Adds to `trends`, the distinct values of `seen`, the trends of `v`. */
  method AddVideoTrends(trends: seq<Trend>, ghost seen: seq<Trend>, v: VideoSnippet) returns (out: seq<Trend>)
    requires trends == Dedup(seen)
    ensures out == Dedup(seen + VideoTrends(v))
  {
    var title := Lower(v.title);
    var description := Lower(v.description);
    ghost var w1 := When(Triggers(v, Tutorials), Tutorials);
    ghost var w2 := When(Triggers(v, Reviews), Reviews);
    ghost var w3 := When(Triggers(v, Lists), Lists);
    ghost var w4 := When(Triggers(v, Challenges), Challenges);
    out := AddWhen(trends, seen, Contains(title, "how to") || Contains(description, "tutorial"), Tutorials);
    out := AddWhen(out, seen + w1, Contains(title, "review") || Contains(description, "review"), Reviews);
    out := AddWhen(out, seen + w1 + w2, Contains(title, "top") || Contains(title, "best"), Lists);
    out := AddWhen(out, seen + w1 + w2 + w3, Contains(title, "challenge") || Contains(description, "challenge"), Challenges);
    AppendFour(seen, w1, w2, w3, w4);
  }

  /** `set.add(x)` when `b` holds. */
  method AddWhen<T(==, !new)>(trends: seq<T>, ghost seen: seq<T>, b: bool, x: T) returns (out: seq<T>)
    requires trends == Dedup(seen)
    ensures out == Dedup(seen + When(b, x))
  {
    out := trends;
    if b {
      out := AddNew(out, x);
    }
    DedupWhen(seen, b, x);
  }

  /** Video `v` lists trend `t` exactly when it shows it. */
  lemma VideoTrendsIff(v: VideoSnippet, t: Trend)
    ensures t in VideoTrends(v) <==> Triggers(v, t)
  {
  }

  /** A trend is shown exactly when some video shows it. */
  lemma ShownIff(videos: seq<VideoSnippet>, t: Trend)
    ensures t in Shown(videos) <==> exists i :: 0 <= i < |videos| && Triggers(videos[i], t)
  {
    FlatMapIff(videos, VideoTrends, t);
    forall i | 0 <= i < |videos| ensures t in VideoTrends(videos[i]) <==> Triggers(videos[i], t) {
      VideoTrendsIff(videos[i], t);
    }
  }

  /** The trends are distinct, at most four, and none without videos. */
  lemma TrendsShape(videos: seq<VideoSnippet>)
    ensures Distinct(Trends(videos))
    ensures |Trends(videos)| <= 4
    ensures videos == [] ==> Trends(videos) == []
  {
    var all := {Tutorials, Reviews, Lists, Challenges};
    forall t | t in Trends(videos) ensures t in all {
      assert t.Tutorials? || t.Reviews? || t.Lists? || t.Challenges?;
    }
    DistinctBound(Trends(videos), all);
  }

  /** A trend is reported exactly when some video shows it. */
  lemma TrendsIff(videos: seq<VideoSnippet>, t: Trend)
    ensures t in Trends(videos) <==> exists i :: 0 <= i < |videos| && Triggers(videos[i], t)
  {
    ShownIff(videos, t);
  }

  /** The trends come in the order of the first video showing them, and
      within a video in rule order. */
  lemma TrendsOrder(videos: seq<VideoSnippet>, i: nat, j: nat)
    requires i < j < |Trends(videos)|
    ensures FirstIndex(Shown(videos), Trends(videos)[i]) < FirstIndex(Shown(videos), Trends(videos)[j])
  {
    DedupFirstOccurrenceOrder(Shown(videos), i, j);
  }

  // ----- Taglines

  /** The title patterns, as the names the analysis collects. */
  predicate KnownPattern(p: string)
  {
    p == "how-to" || p == "guide" || p == "tips" || p == "secrets" || p == "tutorial"
  }

  /** The text a lower-cased title must contain to show pattern `p`. */
  function Trigger(p: string): string
  {
    if p == "how-to" then "how to" else p
  }

  /** The position of a pattern's rule among the five. */
  function PatternRank(p: string): nat
  {
    if p == "how-to" then 0 else if p == "guide" then 1 else if p == "tips" then 2
    else if p == "secrets" then 3 else 4
  }

  /** The patterns of one title: each known pattern whose trigger the
      lower-cased title contains, once each, in rule order. */
  function TitlePatterns(title: string): (r: seq<string>)
    ensures forall p :: p in r <==> KnownPattern(p) && Contains(Lower(title), Trigger(p))
    ensures forall i, j :: 0 <= i < j < |r| ==> PatternRank(r[i]) < PatternRank(r[j])
  {
    var t := Lower(title);
    var w1, w2, w3 := When(Contains(t, "how to"), "how-to"), When(Contains(t, "guide"), "guide"), When(Contains(t, "tips"), "tips");
    var w4, w5 := When(Contains(t, "secrets"), "secrets"), When(Contains(t, "tutorial"), "tutorial");
    PatternRules(t, w1, w2, w3, w4, w5);
    w1 + w2 + w3 + w4 + w5
  }

  lemma PatternRules(t: string, w1: seq<string>, w2: seq<string>, w3: seq<string>, w4: seq<string>, w5: seq<string>)
    requires w1 == When(Contains(t, "how to"), "how-to") && w2 == When(Contains(t, "guide"), "guide")
    requires w3 == When(Contains(t, "tips"), "tips") && w4 == When(Contains(t, "secrets"), "secrets")
    requires w5 == When(Contains(t, "tutorial"), "tutorial")
    ensures var r := w1 + w2 + w3 + w4 + w5;
      && (forall p :: p in r <==> KnownPattern(p) && Contains(t, Trigger(p)))
      && (forall i, j :: 0 <= i < j < |r| ==> PatternRank(r[i]) < PatternRank(r[j]))
  {
    assert FirstRules([], t, 0);
    AddPattern([], t, "how-to", 0, w1);
    assert [] + w1 == w1;
    AddPattern(w1, t, "guide", 1, w2);
    AddPattern(w1 + w2, t, "tips", 2, w3);
    AddPattern(w1 + w2 + w3, t, "secrets", 3, w4);
    AddPattern(w1 + w2 + w3 + w4, t, "tutorial", 4, w5);
    AllRules(w1 + w2 + w3 + w4 + w5, t);
  }

  /** `a` holds the patterns of the first `n` rules that `t` meets, in rule
      order. */
  ghost predicate FirstRules(a: seq<string>, t: string, n: nat)
  {
    && (forall p :: p in a <==> KnownPattern(p) && PatternRank(p) < n && Contains(t, Trigger(p)))
    && (forall i, j :: 0 <= i < j < |a| ==> PatternRank(a[i]) < PatternRank(a[j]))
  }

  /** Appending the rule of `x`, the `n`-th, to the patterns of the rules
      before it gives the patterns of the first `n + 1` rules. */
  lemma AddPattern(a: seq<string>, t: string, x: string, n: nat, w: seq<string>)
    requires KnownPattern(x) && PatternRank(x) == n
    requires FirstRules(a, t, n)
    requires w == When(Contains(t, Trigger(x)), x)
    ensures FirstRules(a + w, t, n + 1)
  {
    var r := a + w;
    forall p | KnownPattern(p) && PatternRank(p) == n ensures p == x {
      RankIdentifies(p, x);
    }
    forall i, j | 0 <= i < j < |r| ensures PatternRank(r[i]) < PatternRank(r[j]) {
      if j >= |a| {
        assert r[i] in a;
      }
    }
  }

  /** The first five rules are all of them. */
  lemma AllRules(r: seq<string>, t: string)
    requires FirstRules(r, t, 5)
    ensures forall p :: p in r <==> KnownPattern(p) && Contains(t, Trigger(p))
    ensures forall i, j :: 0 <= i < j < |r| ==> PatternRank(r[i]) < PatternRank(r[j])
  {
    forall p | KnownPattern(p) ensures PatternRank(p) < 5 { }
  }

  /** Known patterns of the same rank are the same pattern. */
  lemma RankIdentifies(p: string, q: string)
    requires KnownPattern(p) && KnownPattern(q) && PatternRank(p) == PatternRank(q)
    ensures p == q
  {
  }

  /** The patterns of all titles, video by video. */
  function CommonPatterns(videos: seq<VideoSnippet>): (r: seq<string>)
    ensures forall p :: p in r ==> KnownPattern(p)
  {
    if videos == [] then [] else CommonPatterns(videos[..|videos| - 1]) + TitlePatterns(videos[|videos| - 1].title)
  }

  function DefaultTagline(niche: string): string
  {
    "Transform Your " + niche + " Journey"
  }

  /** The tagline of a pattern. */
  function Tagline(niche: string, pattern: string): string
  {
    match pattern
    case "how-to" => "Master " + niche + " with Step-by-Step Guidance"
    case "guide" => "Complete " + niche + " Guide for Success"
    case "tips" => "Essential " + niche + " Tips & Strategies"
    case "secrets" => "Hidden " + niche + " Secrets Revealed"
    case "tutorial" => niche + " Mastery Tutorial Series"
    case _ => DefaultTagline(niche)
  }

  /** One tagline per distinct pattern, in order of first appearance. */
  function Taglines(niche: string, videos: seq<VideoSnippet>): seq<string>
  {
    Map(Dedup(CommonPatterns(videos)), p => Tagline(niche, p))
  }

  /** Collects the title patterns, removes repeats and makes a tagline of
      each. */
  method GenerateTaglines(niche: string, videos: seq<VideoSnippet>) returns (taglines: seq<string>)
    ensures taglines == Taglines(niche, videos)
  {
    var patterns := [];
    for i := 0 to |videos|
      invariant patterns == CommonPatterns(videos[..i])
    {
      assert videos[..i + 1][..i] == videos[..i];
      patterns := PushTitlePatterns(patterns, videos[i].title);
    }
    assert videos[..|videos|] == videos;
    var unique := Dedup(patterns);
    taglines := Map(unique, p => Tagline(niche, p));
  }

  /** Pushes the patterns of `title` onto `patterns`. */
  method PushTitlePatterns(patterns: seq<string>, title: string) returns (out: seq<string>)
    ensures out == patterns + TitlePatterns(title)
  {
    var t := Lower(title);
    out := PushWhen(patterns, Contains(t, "how to"), "how-to");
    out := PushWhen(out, Contains(t, "guide"), "guide");
    out := PushWhen(out, Contains(t, "tips"), "tips");
    out := PushWhen(out, Contains(t, "secrets"), "secrets");
    out := PushWhen(out, Contains(t, "tutorial"), "tutorial");
    AppendFive(patterns, When(Contains(t, "how to"), "how-to"), When(Contains(t, "guide"), "guide"),
      When(Contains(t, "tips"), "tips"), When(Contains(t, "secrets"), "secrets"),
      When(Contains(t, "tutorial"), "tutorial"));
  }

  /** The patterns of a video's title. */
  function VideoPatterns(v: VideoSnippet): seq<string>
  {
    TitlePatterns(v.title)
  }

  lemma {:induction false} PatternsOfVideos(videos: seq<VideoSnippet>)
    ensures CommonPatterns(videos) == FlatMap(videos, VideoPatterns)
  {
    if videos != [] {
      PatternsOfVideos(videos[..|videos| - 1]);
    }
  }

  /** A pattern is collected exactly when some video's title shows it. */
  lemma PatternsIff(videos: seq<VideoSnippet>, p: string)
    ensures p in CommonPatterns(videos) <==>
      KnownPattern(p) && exists i :: 0 <= i < |videos| && Contains(Lower(videos[i].title), Trigger(p))
  {
    PatternsOfVideos(videos);
    FlatMapIff(videos, VideoPatterns, p);
  }

  /** The tagline of a known pattern is produced exactly when some video's
      lower-cased title contains the pattern's trigger. */
  lemma TaglinesIff(niche: string, videos: seq<VideoSnippet>, p: string)
    requires KnownPattern(p)
    ensures Tagline(niche, p) in Taglines(niche, videos) <==>
      exists i :: 0 <= i < |videos| && Contains(Lower(videos[i].title), Trigger(p))
  {
    var unique := Dedup(CommonPatterns(videos));
    var r := Taglines(niche, videos);
    PatternsIff(videos, p);
    if p in CommonPatterns(videos) {
      var k :| 0 <= k < |unique| && unique[k] == p;
      assert r[k] == Tagline(niche, p);
    }
    if Tagline(niche, p) in r {
      var k :| 0 <= k < |r| && r[k] == Tagline(niche, p);
      var q := unique[k];
      assert q in CommonPatterns(videos);
      if q != p {
        TaglineInjective(niche, q, p);
      }
    }
  }

  /** The tagline of a known pattern contains the niche and is not the
      default one. */
  lemma KnownTagline(niche: string, p: string)
    requires KnownPattern(p)
    ensures Contains(Tagline(niche, p), niche)
    ensures Tagline(niche, p) != DefaultTagline(niche)
  {
    if p == "how-to" {
      ContainsMiddle("Master ", niche, " with Step-by-Step Guidance");
    } else if p == "guide" {
      ContainsMiddle("Complete ", niche, " Guide for Success");
    } else if p == "tips" {
      ContainsMiddle("Essential ", niche, " Tips & Strategies");
    } else if p == "secrets" {
      ContainsMiddle("Hidden ", niche, " Secrets Revealed");
    } else {
      assert "" + niche + " Mastery Tutorial Series" == Tagline(niche, p);
      ContainsMiddle("", niche, " Mastery Tutorial Series");
    }
  }

  /** Different known patterns give different taglines. */
  lemma TaglineInjective(niche: string, p: string, q: string)
    requires KnownPattern(p) && KnownPattern(q) && p != q
    ensures Tagline(niche, p) != Tagline(niche, q)
  {
    var a, b := Tagline(niche, p), Tagline(niche, q);
    if |a| == |b| {
      assert a[|a| - 1] != b[|b| - 1];
    }
  }

  /** The taglines: at most five, no two alike, each containing the niche
      and none the default one. */
  lemma TaglinesShape(niche: string, videos: seq<VideoSnippet>)
    ensures |Taglines(niche, videos)| <= 5
    ensures Distinct(Taglines(niche, videos))
    ensures forall k :: 0 <= k < |Taglines(niche, videos)| ==>
      Contains(Taglines(niche, videos)[k], niche) && Taglines(niche, videos)[k] != DefaultTagline(niche)
  {
    TaglinesAtMostFive(niche, videos);
    TaglinesDistinct(niche, videos);
    TaglinesMentionNiche(niche, videos);
  }

  lemma TaglinesAtMostFive(niche: string, videos: seq<VideoSnippet>)
    ensures |Taglines(niche, videos)| <= 5
  {
    var patterns := Dedup(CommonPatterns(videos));
    forall p | p in patterns ensures p in PatternNames {
      KnownPatternName(p);
    }
    DistinctBound(patterns, PatternNames);
    PatternNamesSize();
  }

  /** The five patterns a title can show. */
  const PatternNames: set<string> := {"how-to", "guide", "tips", "secrets", "tutorial"}

  lemma KnownPatternName(p: string)
    requires KnownPattern(p)
    ensures p in PatternNames
  {
  }

  lemma PatternNamesSize()
    ensures |PatternNames| == 5
  {
  }

  lemma TaglinesDistinct(niche: string, videos: seq<VideoSnippet>)
    ensures Distinct(Taglines(niche, videos))
  {
    var unique := Dedup(CommonPatterns(videos));
    var r := Taglines(niche, videos);
    forall i, j | 0 <= i < j < |r| ensures r[i] != r[j] {
      TaglineInjective(niche, unique[i], unique[j]);
    }
  }

  lemma TaglinesMentionNiche(niche: string, videos: seq<VideoSnippet>)
    ensures forall k :: 0 <= k < |Taglines(niche, videos)| ==>
      Contains(Taglines(niche, videos)[k], niche) && Taglines(niche, videos)[k] != DefaultTagline(niche)
  {
    var unique := Dedup(CommonPatterns(videos));
    var r := Taglines(niche, videos);
    forall k | 0 <= k < |r| ensures Contains(r[k], niche) && r[k] != DefaultTagline(niche) {
      KnownTagline(niche, unique[k]);
    }
  }

  /** The taglines follow the first appearances of their patterns. */
  lemma TaglinesOrder(niche: string, videos: seq<VideoSnippet>, i: nat, j: nat)
    requires i < j < |Taglines(niche, videos)|
    ensures var unique := Dedup(CommonPatterns(videos));
      && Taglines(niche, videos)[i] == Tagline(niche, unique[i])
      && Taglines(niche, videos)[j] == Tagline(niche, unique[j])
      && FirstIndex(CommonPatterns(videos), unique[i]) < FirstIndex(CommonPatterns(videos), unique[j])
  {
    DedupFirstOccurrenceOrder(CommonPatterns(videos), i, j);
  }

  /** Only the titles matter to the taglines. */
  lemma {:induction false} TaglinesReadTitlesOnly(niche: string, a: seq<VideoSnippet>, b: seq<VideoSnippet>)
    requires |a| == |b|
    requires forall i :: 0 <= i < |a| ==> a[i].title == b[i].title
    ensures Taglines(niche, a) == Taglines(niche, b)
  {
    SamePatterns(a, b);
  }

  lemma {:induction false} SamePatterns(a: seq<VideoSnippet>, b: seq<VideoSnippet>)
    requires |a| == |b|
    requires forall i :: 0 <= i < |a| ==> a[i].title == b[i].title
    ensures CommonPatterns(a) == CommonPatterns(b)
  {
    if a != [] {
      SamePatterns(a[..|a| - 1], b[..|b| - 1]);
    }
  }
}
