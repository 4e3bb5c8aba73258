/** The number and text helpers of the YouTube service: the channel handle in
    a URL, the K/M magnitude of a count, the percent change against the
    previous figures, the engagement of one video and of a channel, and the
    age of a video in days, weeks, months or years. */
module YouTubeStats {
  import opened Options
  import opened Strings
  import opened Decimal

  // ----- The channel handle

  const HandleMarker := "youtube.com/@"
  const InvalidChannelUrl := "Invalid YouTube channel URL. Please use a URL with @username format."

  /** The characters `[^/?]` excludes. */
  predicate EndsHandle(c: char)
  {
    c == '/' || c == '?'
  }

  /** The pattern `youtube\.com\/@([^/?]+)` matches at `i`: the marker and at
      least one handle character after it. */
  predicate MatchesAt(url: string, i: int)
  {
    OccursAt(url, HandleMarker, i) && i + |HandleMarker| < |url| && !EndsHandle(url[i + |HandleMarker|])
  }

  /** The leftmost match at or after `from`. */
  function FirstMatchFrom(url: string, from: nat): (r: Option<nat>)
    ensures r.Some? ==> from <= r.value && MatchesAt(url, r.value)
    ensures forall j :: from <= j && (r.None? || j < r.value) ==> !MatchesAt(url, j)
    decreases |url| - from
  {
    if from >= |url| then None
    else if MatchesAt(url, from) then Some(from)
    else FirstMatchFrom(url, from + 1)
  }

  /** The longest prefix of `s` without '/' or '?': what the greedy
      `[^/?]+` takes. */
  function HandleRun(s: string): (r: string)
    ensures r <= s
    ensures forall k :: 0 <= k < |r| ==> !EndsHandle(r[k])
    ensures |r| < |s| ==> EndsHandle(s[|r|])
  {
    if s == [] || EndsHandle(s[0]) then [] else [s[0]] + HandleRun(s[1..])
  }

  /** The capture group is `h` when the pattern matches at `i`. */
  predicate HandleAt(url: string, i: int, h: string)
  {
    MatchesAt(url, i) && h == HandleRun(url[i + |HandleMarker|..])
  }

  /** The `@` handle in a channel URL: the longest run without '/' or '?'
      after the first "youtube.com/@" that is followed by one; an error when
      there is none. */
  function ExtractChannelHandle(url: string): (r: Result<string>)
    ensures r.Err? <==> forall i :: !MatchesAt(url, i)
    ensures r.Err? ==> r.message == InvalidChannelUrl
    ensures r.Ok? ==> r.value != [] && forall k :: 0 <= k < |r.value| ==> !EndsHandle(r.value[k])
    ensures r.Ok? ==> exists i :: HandleAt(url, i, r.value) && forall j :: 0 <= j < i ==> !MatchesAt(url, j)
  {
    match FirstMatchFrom(url, 0)
    case None => Err(InvalidChannelUrl)
    case Some(i) =>
      assert HandleAt(url, i, HandleRun(url[i + |HandleMarker|..]));
      Ok(HandleRun(url[i + |HandleMarker|..]))
  }

  /** The handle of `https://youtube.com/@h`, followed by nothing or by a
      path or a query, is `h`. */
  lemma HandleOfChannelUrl(h: string, rest: string)
    requires h != [] && forall k :: 0 <= k < |h| ==> !EndsHandle(h[k])
    requires rest == [] || EndsHandle(rest[0])
    ensures ExtractChannelHandle("https://" + HandleMarker + h + rest) == Ok(h)
  {
    var url := "https://" + HandleMarker + h + rest;
    var start := |"https://"|;
    assert url[start..start + |HandleMarker|] == HandleMarker;
    assert url[start + |HandleMarker|] == h[0];
    assert url[..start] == "https://";
    NoMatchInScheme(url);
    FirstMatchIs(url, start);
    assert url[start + |HandleMarker|..] == h + rest;
    HandleRunOf(h, rest);
  }

  /** The marker does not start inside the scheme `https://`. */
  lemma NoMatchInScheme(url: string)
    requires |url| >= 8 && url[..8] == "https://"
    ensures forall j :: 0 <= j < 8 ==> !MatchesAt(url, j)
  {
    forall j | 0 <= j < 8 ensures !MatchesAt(url, j) {
      assert url[j] == url[..8][j] != 'y';
    }
  }

  /** A match with none before it is the first. */
  lemma FirstMatchIs(url: string, i: nat)
    requires MatchesAt(url, i)
    requires forall j :: 0 <= j < i ==> !MatchesAt(url, j)
    ensures FirstMatchFrom(url, 0) == Some(i)
  {
  }

  lemma {:induction false} HandleRunOf(h: string, rest: string)
    requires forall k :: 0 <= k < |h| ==> !EndsHandle(h[k])
    requires rest == [] || EndsHandle(rest[0])
    ensures HandleRun(h + rest) == h
  {
    if h == [] {
      assert h + rest == rest;
    } else {
      assert (h + rest)[1..] == h[1..] + rest;
      HandleRunOf(h[1..], rest);
    }
  }

  /** A URL without an `@` has no handle. */
  lemma NoAtSignNoHandle(url: string)
    requires forall k :: 0 <= k < |url| ==> url[k] != '@'
    ensures ExtractChannelHandle(url) == Err(InvalidChannelUrl)
  {
    forall i ensures !MatchesAt(url, i) {
      if 0 <= i && i + |HandleMarker| <= |url| {
        assert url[i..i + |HandleMarker|][12] == url[i + 12] != '@';
      }
    }
  }

  // ----- Magnitudes

  /** `r` is a one-decimal numeral of `t` tenths, written without leading
      zeros, followed by `suffix`. */
  predicate ReadsAsTenths(r: string, suffix: string, t: int)
  {
    && EndsWith(r, suffix)
    && TenthsNumeral(r[..|r| - |suffix|])
    && ParseTenths(r[..|r| - |suffix|]) == Some(t)
  }

  lemma FixedWithSuffix(num: int, den: int, suffix: string)
    requires den != 0
    ensures ReadsAsTenths(ToFixed1(num, den) + suffix, suffix, SignedTenths(num, den))
  {
    var s := ToFixed1(num, den);
    assert (s + suffix)[..|s + suffix| - |suffix|] == s;
    assert (s + suffix)[|s + suffix| - |suffix|..] == suffix;
  }

  /** A count in millions or thousands, to one decimal place, with the
      suffix "M" or "K"; anything below a thousand, and anything that does
      not read as a number, is returned as given. */
  function FormatNumber(num: string): (r: string)
    ensures ParseInt(num).None? || ParseInt(num).value < 1000 ==> r == num
    ensures ParseInt(num).Some? && ParseInt(num).value >= 1000000 ==>
      ReadsAsTenths(r, "M", SignedTenths(ParseInt(num).value, 1000000))
    ensures ParseInt(num).Some? && 1000 <= ParseInt(num).value < 1000000 ==>
      ReadsAsTenths(r, "K", SignedTenths(ParseInt(num).value, 1000))
  {
    match ParseInt(num)
    case Some(n) =>
      if n >= 1000000 then
        FixedWithSuffix(n, 1000000, "M");
        ToFixed1(n, 1000000) + "M"
      else if n >= 1000 then
        FixedWithSuffix(n, 1000, "K");
        ToFixed1(n, 1000) + "K"
      else num
    case None => num
  }

  /** A positive one-decimal reading pins the text: it is the numeral of
      the tenths, unsigned, followed by the suffix. */
  lemma PositiveTenthsText(r: string, suffix: string, t: int)
    requires ReadsAsTenths(r, suffix, t) && t > 0
    ensures r == OneDecimal(t) + suffix
  {
    var shown := r[..|r| - |suffix|];
    TenthsNumeralText(shown);
    assert shown[0] != '-' by {
      if shown[0] == '-' {
        var sign, ds, d := TenthsParts(shown);
        ParseTenthsOfParts(sign, ds, d);
      }
    }
    assert r == shown + r[|r| - |suffix|..];
  }

  /** A one-decimal reading fixes the text up to its sign: the text is the
      sign, the numeral of the tenths and the suffix. */
  lemma TenthsReadingText(r: string, suffix: string, t: int)
    requires ReadsAsTenths(r, suffix, t)
    ensures r == (if r[0] == '-' then "-" else "") + OneDecimal(Abs(t)) + suffix
  {
    var shown := r[..|r| - |suffix|];
    TenthsNumeralText(shown);
    assert r == shown + r[|r| - |suffix|..];
    assert r[0] == shown[0];
  }

  /** From a thousand on, the count shows as the numeral of its tenths of a
      thousand or of a million, with no sign and no leading zero. */
  lemma FormatNumberShows(num: string)
    requires ParseInt(num).Some? && ParseInt(num).value >= 1000
    ensures var n := ParseInt(num).value;
      FormatNumber(num) == if n >= 1000000 then OneDecimal(SignedTenths(n, 1000000)) + "M"
                           else OneDecimal(SignedTenths(n, 1000)) + "K"
  {
    var n := ParseInt(num).value;
    if n >= 1000000 {
      MillionsTierBounds(n);
      PositiveTenthsText(FormatNumber(num), "M", SignedTenths(n, 1000000));
    } else {
      ThousandsTierRange(n);
      PositiveTenthsText(FormatNumber(num), "K", SignedTenths(n, 1000));
    }
  }

  /** `parseInt` reads a numeral back as its value. */
  lemma ReadsNumeral(s: string, n: nat)
    requires s == NatToString(n)
    ensures ParseInt(s) == Some(n)
  {
    ParseIntOfNat(n, "");
    assert s + "" == s;
  }

  /** 1500000 shows as "1.5M". */
  lemma MillionsExample()
    ensures FormatNumber("1500000") == "1.5M"
  {
    MillionsText();
    ReadsNumeral("1500000", 1500000);
    PositiveTenthsText(FormatNumber("1500000"), "M", 15);
  }

  lemma MillionsText()
    ensures NatToString(1500000) == "1500000"
    ensures SignedTenths(1500000, 1000000) == 15
    ensures OneDecimal(15) + "M" == "1.5M"
  {
    assert RoundDiv(15000000, 1000000) == 15;
  }

  /** 2500 shows as "2.5K". */
  lemma ThousandsExample()
    ensures FormatNumber("2500") == "2.5K"
  {
    ThousandsText();
    ReadsNumeral("2500", 2500);
    PositiveTenthsText(FormatNumber("2500"), "K", 25);
  }

  lemma ThousandsText()
    ensures NatToString(2500) == "2500"
    ensures SignedTenths(2500, 1000) == 25
    ensures OneDecimal(25) + "K" == "2.5K"
  {
    assert RoundDiv(25000, 1000) == 25;
  }

  /** The thousands tier shows between 1.0K and 1000.0K; it shows 1000.0K
      from 999950 on, where the rounding reaches the next tier. */
  lemma ThousandsTierRange(n: int)
    requires 1000 <= n < 1000000
    ensures 10 <= SignedTenths(n, 1000) <= 10000
    ensures SignedTenths(n, 1000) == 10000 <==> n >= 999950
  {
    var m := RoundDiv(10 * n, 1000);
    assert SignedTenths(n, 1000) == m;
    assert 2000 * m <= 20 * n + 1000 < 2000 * m + 2000;
  }

  /** The millions tier is `n / 10^6` to the nearest tenth. */
  lemma MillionsTierBounds(n: int)
    requires n >= 1000000
    ensures var t := SignedTenths(n, 1000000);
      t >= 10 && 100000 * t - 50000 <= n < 100000 * t + 50000
  {
    var m := RoundDiv(10 * n, 1000000);
    assert SignedTenths(n, 1000000) == m;
    assert 2000000 * m <= 20 * n + 1000000 < 2000000 * m + 2000000;
  }

  // ----- Percent change

  /** `parseInt(x, 10)` for a parameter whose default is '0'. */
  function ParseOrZero(x: Option<string>): Option<int>
  {
    ParseInt(x.GetOr("0"))
  }

  /** `!x` for a parsed number: NaN and zero are falsy. */
  predicate Falsy(x: Option<int>)
  {
    x.None? || x.value == 0
  }

  /** The change from `p` to `c` in percent to one decimal place, with a '+'
      exactly when it shows above zero. */
  function ShownChange(c: int, p: int): (r: string)
    requires p != 0
    ensures var t := SignedTenths(100 * (c - p), p);
      && (StartsWith(r, "+") <==> t > 0)
      && ReadsAsTenths(if t > 0 then r[1..] else r, "%", t)
      && (t <= 0 ==> (r[0] == '-' <==> Negative(100 * (c - p), p)))
  {
    var change := ToFixed1(100 * (c - p), p);
    FixedWithSuffix(100 * (c - p), p, "%");
    // `change > 0` compares the value of the numeral, which is this one
    var positive := SignedTenths(100 * (c - p), p) > 0;
    var shown := change + "%";
    assert shown[0] == change[0];
    if positive then
      assert ("+" + shown)[1..] == shown;
      "+" + shown
    else shown
  }

  /** The change from `previous` to `current` in percent, to one decimal
      place, with a '+' when it shows above zero. A previous figure of zero
      or one that is not a number gives "+0%"; a current figure that is not
      a number gives "NaN%". */
  function CalculateChange(current: Option<string>, previous: Option<string>): (r: string)
    ensures Falsy(ParseOrZero(previous)) ==> r == "+0%"
    ensures !Falsy(ParseOrZero(previous)) && ParseOrZero(current).None? ==> r == "NaN%"
    ensures !Falsy(ParseOrZero(previous)) && ParseOrZero(current).Some? ==>
      var p, c := ParseOrZero(previous).value, ParseOrZero(current).value;
      var t := SignedTenths(100 * (c - p), p);
      && (StartsWith(r, "+") <==> t > 0)
      && ReadsAsTenths(if t > 0 then r[1..] else r, "%", t)
      && (t <= 0 ==> (r[0] == '-' <==> Negative(100 * (c - p), p)))
  {
    var curr := ParseOrZero(current);
    var prev := ParseOrZero(previous);
    if Falsy(prev) then "+0%"
    else if curr.None? then "NaN%"
    else ShownChange(curr.value, prev.value)
  }

  /** An unchanged non-zero figure shows "0.0%". */
  lemma NoChange(c: int)
    requires c != 0
    ensures CalculateChange(Some(IntToString(c)), Some(IntToString(c))) == "0.0%"
  {
    ParseIntOfInt(c);
    NoChangeShown(c);
  }

  lemma NoChangeShown(c: int)
    requires c != 0
    ensures ShownChange(c, c) == "0.0%"
  {
    var b := Abs(c);
    assert RoundDiv(0, b) == 0 by {
      assert 0 <= b < 2 * b;
    }
    assert SignedTenths(0, c) == 0;
    assert OneDecimal(0) == "0.0";
    assert ToFixed1(0, c) == "0.0";
  }

  /** The change shows as its sign ('+' above zero, '-' for a negative
      quotient), the numeral of its tenths and "%". */
  lemma ShownChangeText(c: int, p: int)
    requires p != 0
    ensures var t := SignedTenths(100 * (c - p), p);
      ShownChange(c, p) ==
        (if t > 0 then "+" else if Negative(100 * (c - p), p) then "-" else "") + OneDecimal(Abs(t)) + "%"
  {
    var r := ShownChange(c, p);
    var t := SignedTenths(100 * (c - p), p);
    if t > 0 {
      PlusTenthsText(r, t);
    } else {
      TenthsReadingText(r, "%", t);
    }
  }

  lemma PlusTenthsText(r: string, t: int)
    requires t > 0 && StartsWith(r, "+") && ReadsAsTenths(r[1..], "%", t)
    ensures r == "+" + OneDecimal(t) + "%"
  {
    PositiveTenthsText(r[1..], "%", t);
    assert r == [r[0]] + r[1..];
  }

  /** 120 against 100 shows "+20.0%". */
  lemma ChangeExample()
    ensures CalculateChange(Some("120"), Some("100")) == "+20.0%"
  {
    ChangeText();
    ReadsNumeral("120", 120);
    ReadsNumeral("100", 100);
    var r := CalculateChange(Some("120"), Some("100"));
    PositiveTenthsText(r[1..], "%", 200);
    assert r == [r[0]] + r[1..];
  }

  lemma ChangeText()
    ensures NatToString(120) == "120" && NatToString(100) == "100"
    ensures SignedTenths(2000, 100) == 200
    ensures ['+'] + (OneDecimal(200) + "%") == "+20.0%"
  {
    assert RoundDiv(20000, 100) == 200;
  }

  // ----- The previous figures and the channel's changes

  /** The figures a channel is compared against. */
  datatype PreviousFigures = PreviousFigures(viewCount: string, subscriberCount: string, videoCount: string, engagement: string)

  /** The previous figures of a channel: a zero baseline for every channel. */
  function PreviousStats(channelId: string): (r: PreviousFigures)
    ensures ParseInt(r.viewCount) == Some(0) && ParseInt(r.subscriberCount) == Some(0)
    ensures ParseInt(r.videoCount) == Some(0) && ParseInt(r.engagement) == Some(0)
  {
    ParseIntOfInt(0);
    PreviousFigures("0", "0", "0", "0")
  }

  /** The statistics of a channel as the API reports them; an absent count is
      `None`. */
  datatype ChannelStatistics = ChannelStatistics(viewCount: Option<string>, subscriberCount: Option<string>, videoCount: Option<string>)

  /** The four change fields of a channel's report. */
  datatype Changes = Changes(views: string, subscribers: string, videos: string, engagement: string)

  /** The change fields: each count against its previous figure, and the
      engagement, a number of tenths shown as `String` shows it, against the
      previous engagement. Absent statistics leave every count absent. */
  function ChannelChanges(stats: Option<ChannelStatistics>, engagement: int, previous: PreviousFigures): (r: Changes)
    ensures Falsy(ParseOrZero(Some(previous.viewCount))) ==> r.views == "+0%"
    ensures Falsy(ParseOrZero(Some(previous.subscriberCount))) ==> r.subscribers == "+0%"
    ensures Falsy(ParseOrZero(Some(previous.videoCount))) ==> r.videos == "+0%"
    ensures Falsy(ParseOrZero(Some(previous.engagement))) ==> r.engagement == "+0%"
  {
    var s := stats.GetOr(ChannelStatistics(None, None, None));
    Changes(
      CalculateChange(s.viewCount, Some(previous.viewCount)),
      CalculateChange(s.subscriberCount, Some(previous.subscriberCount)),
      CalculateChange(s.videoCount, Some(previous.videoCount)),
      CalculateChange(Some(TenthsText(engagement)), Some(previous.engagement)))
  }

  /** Against the zero baseline every change field is "+0%", whatever the
      channel's figures. */
  lemma ChangesAgainstBaseline(stats: Option<ChannelStatistics>, engagement: int, channelId: string)
    ensures ChannelChanges(stats, engagement, PreviousStats(channelId)) == Changes("+0%", "+0%", "+0%", "+0%")
  {
  }

  // ----- Engagement

  /** The counts of one video; an absent count is `None`. */
  datatype VideoStatistics = VideoStatistics(viewCount: Option<string>, likeCount: Option<string>, commentCount: Option<string>)

  /** `parseInt(x, 10)` where an absent `x` is NaN. */
  function ParseCount(x: Option<string>): Option<int>
  {
    match x
    case Some(s) => ParseInt(s)
    case None => None
  }

  /** The engagement text for parsed counts: likes and comments per view in
      percent, to one decimal place. No views gives "0%"; otherwise a count
      that is NaN gives "NaN%". */
  function EngagementText(views: Option<int>, likes: Option<int>, comments: Option<int>): (r: string)
    ensures Falsy(views) ==> r == "0%"
    ensures !Falsy(views) && (likes.None? || comments.None?) ==> r == "NaN%"
    ensures !Falsy(views) && likes.Some? && comments.Some? ==>
      && ReadsAsTenths(r, "%", SignedTenths(100 * (likes.value + comments.value), views.value))
      && (r[0] == '-' <==> Negative(100 * (likes.value + comments.value), views.value))
  {
    if Falsy(views) then "0%"
    else if likes.None? || comments.None? then "NaN%"
    else
      FixedWithSuffix(100 * (likes.value + comments.value), views.value, "%");
      ToFixed1(100 * (likes.value + comments.value), views.value) + "%"
  }

  /** The engagement of a video as its statistics give it. */
  function VideoEngagement(stats: VideoStatistics): (r: string)
    ensures Falsy(ParseCount(stats.viewCount)) ==> r == "0%"
    ensures ParseCount(stats.likeCount).None? && !Falsy(ParseCount(stats.viewCount)) ==> r == "NaN%"
    ensures ParseCount(stats.commentCount).None? && !Falsy(ParseCount(stats.viewCount)) ==> r == "NaN%"
    ensures !Falsy(ParseCount(stats.viewCount)) && ParseCount(stats.likeCount).Some? && ParseCount(stats.commentCount).Some? ==>
      var v, l, c := ParseCount(stats.viewCount).value, ParseCount(stats.likeCount).value, ParseCount(stats.commentCount).value;
      && ReadsAsTenths(r, "%", SignedTenths(100 * (l + c), v))
      && (r[0] == '-' <==> Negative(100 * (l + c), v))
  {
    EngagementText(ParseCount(stats.viewCount), ParseCount(stats.likeCount), ParseCount(stats.commentCount))
  }

  /** With views and parsed counts, the engagement shows as the sign of a
      negative quotient, the numeral of its tenths and "%". */
  lemma EngagementShows(views: int, likes: int, comments: int)
    requires views != 0
    ensures var t := SignedTenths(100 * (likes + comments), views);
      EngagementText(Some(views), Some(likes), Some(comments)) ==
        (if Negative(100 * (likes + comments), views) then "-" else "") + OneDecimal(Abs(t)) + "%"
  {
    var t := SignedTenths(100 * (likes + comments), views);
    TenthsReadingText(EngagementText(Some(views), Some(likes), Some(comments)), "%", t);
  }

  /** `parseInt(x || '0', 10)`: an absent or empty count reads as zero. */
  function CountOrZero(x: Option<string>): Option<int>
  {
    ParseInt(OrElse(x.GetOr(""), "0"))
  }

  /** The rate of one video for the channel average, in percent; `None` is
      NaN. No views gives 0; otherwise a count that is NaN gives NaN. The
      percentage is taken exactly, as `100 * (likes + comments) / views`. */
  function RateOf(views: Option<int>, likes: Option<int>, comments: Option<int>): (r: Option<real>)
    ensures Falsy(views) ==> r == Some(0.0)
    ensures r.None? <==> !Falsy(views) && (likes.None? || comments.None?)
  {
    if Falsy(views) then Some(0.0)
    else if likes.None? || comments.None? then None
    else Some((100 * (likes.value + comments.value)) as real / views.value as real)
  }

  /** The rate of a video as the statistics give it; absent statistics leave
      every count absent, which reads as zero. */
  function VideoRate(stats: Option<VideoStatistics>): (r: Option<real>)
    ensures stats.None? ==> r == Some(0.0)
    ensures stats.Some? && Falsy(CountOrZero(stats.value.viewCount)) ==> r == Some(0.0)
  {
    ParseIntOfInt(0);
    var s := stats.GetOr(VideoStatistics(None, None, None));
    RateOf(CountOrZero(s.viewCount), CountOrZero(s.likeCount), CountOrZero(s.commentCount))
  }

  function Rates(videos: seq<Option<VideoStatistics>>): (r: seq<Option<real>>)
    ensures |r| == |videos|
    ensures forall i :: 0 <= i < |videos| ==> r[i] == VideoRate(videos[i])
  {
    seq(|videos|, i requires 0 <= i < |videos| => VideoRate(videos[i]))
  }

  /** The sum of the rates, NaN as soon as one of them is. */
  function RateSum(rates: seq<Option<real>>): Option<real>
  {
    if rates == [] then Some(0.0)
    else
      match RateSum(rates[..|rates| - 1])
      case None => None
      case Some(a) =>
        match rates[|rates| - 1]
        case None => None
        case Some(b) => Some(a + b)
  }

  /** `Number(x.toFixed(1))` in tenths: the nearest whole number of tenths,
      halves away from zero. */
  function RoundTenths(x: real): (t: int)
    ensures RoundsTo(10.0 * x, t)
  {
    if x >= 0.0 then (10.0 * x + 0.5).Floor else -((-10.0 * x + 0.5).Floor)
  }

  /** The mean of the rates in tenths of a percent, rounded to one decimal
      place; zero when there is no rate (the mean is NaN) or some rate is
      NaN. */
  function MeanEngagement(rates: seq<Option<real>>): (t: int)
    ensures rates == [] ==> t == 0
    ensures None in rates ==> t == 0
    ensures rates != [] && None !in rates ==>
      RateSum(rates).Some? && RoundsTo(10.0 * (RateSum(rates).value / |rates| as real), t)
  {
    RateSumNaN(rates);
    var sum := RateSum(rates);
    if rates == [] || sum.None? then 0
    else RoundTenths(sum.value / |rates| as real)
  }

  /** The engagement of a channel, in tenths of a percent, from the
      statistics of its recent videos. */
  function ChannelEngagement(videos: seq<Option<VideoStatistics>>): (t: int)
    ensures videos == [] ==> t == 0
  {
    MeanEngagement(Rates(videos))
  }

  /** The sum is NaN exactly when some rate is. */
  lemma {:induction false} RateSumNaN(rates: seq<Option<real>>)
    ensures RateSum(rates).None? <==> None in rates
  {
    if rates != [] {
      var init := rates[..|rates| - 1];
      RateSumNaN(init);
      assert rates == init + [rates[|rates| - 1]];
    }
  }

  /** Rates between `lo` and `hi` sum to between `|rates| * lo` and
      `|rates| * hi`. */
  lemma {:induction false} RateSumBounds(rates: seq<Option<real>>, lo: real, hi: real)
    requires forall i :: 0 <= i < |rates| ==> rates[i].Some? && lo <= rates[i].value <= hi
    ensures RateSum(rates).Some?
    ensures |rates| as real * lo <= RateSum(rates).value <= |rates| as real * hi
  {
    if rates != [] {
      var init, last := rates[..|rates| - 1], rates[|rates| - 1];
      assert forall i :: 0 <= i < |init| ==> init[i] == rates[i];
      RateSumBounds(init, lo, hi);
      assert RateSum(rates) == Some(RateSum(init).value + last.value);
      SumStep(RateSum(init).value, last.value, |init| as real, lo, hi);
    }
  }

  lemma SumStep(s: real, x: real, n: real, lo: real, hi: real)
    requires n * lo <= s <= n * hi && lo <= x <= hi
    ensures (n + 1.0) * lo <= s + x <= (n + 1.0) * hi
  {
  }

  /** When every rate lies between `lo` and `hi`, so does the mean the
      engagement rounds. */
  lemma MeanWithinRates(rates: seq<Option<real>>, lo: real, hi: real)
    requires rates != []
    requires forall i :: 0 <= i < |rates| ==> rates[i].Some? && lo <= rates[i].value <= hi
    ensures RateSum(rates).Some?
    ensures lo <= RateSum(rates).value / |rates| as real <= hi
  {
    RateSumBounds(rates, lo, hi);
    DivBounds(RateSum(rates).value, |rates| as real, lo, hi);
  }

  lemma DivBounds(s: real, n: real, lo: real, hi: real)
    requires n > 0.0 && n * lo <= s <= n * hi
    ensures lo <= s / n <= hi
  {
  }

  /** A rounding to tenths is unique. */
  lemma RoundsToUnique(x: real, t1: int, t2: int)
    requires RoundsTo(x, t1) && RoundsTo(x, t2)
    ensures t1 == t2
  {
  }

  /** For one video with views, likes and comments, the channel engagement
      is the figure the video's own engagement text shows. */
  lemma SingleVideoAgrees(views: int, likes: int, comments: int)
    requires views != 0
    ensures ReadsAsTenths(
      EngagementText(Some(views), Some(likes), Some(comments)), "%",
      MeanEngagement([RateOf(Some(views), Some(likes), Some(comments))]))
  {
    var num := 100 * (likes + comments);
    var rate := num as real / views as real;
    assert RateOf(Some(views), Some(likes), Some(comments)) == Some(rate);
    MeanOfOne(rate);
    RoundedQuotient(num, views);
  }

  /** The mean of one rate is that rate. */
  lemma MeanOfOne(x: real)
    ensures MeanEngagement([Some(x)]) == RoundTenths(x)
  {
    assert [Some(x)][..0] == [];
    assert RateSum([Some(x)]) == Some(0.0 + x);
  }

  /** Rounding the exact quotient to tenths gives the tenths `toFixed(1)`
      shows. */
  lemma RoundedQuotient(num: int, v: int)
    requires v != 0
    ensures RoundTenths(num as real / v as real) == SignedTenths(num, v)
  {
    var x := num as real / v as real;
    assert (10 * num) as real / v as real == 10.0 * x;
    RoundsToUnique(10.0 * x, RoundTenths(x), SignedTenths(num, v));
  }

  // ----- The age of a video

  datatype AgeUnit = Days | Weeks | Months | Years
  {
    /** The number of days the unit counts. */
    function Length(): nat
    {
      match this
      case Days => 1
      case Weeks => 7
      case Months => 30
      case Years => 365
    }

    function Name(): string
    {
      match this
      case Days => "days"
      case Weeks => "weeks"
      case Months => "months"
      case Years => "years"
    }

    function Rank(): nat
    {
      match this
      case Days => 0
      case Weeks => 1
      case Months => 2
      case Years => 3
    }
  }

  /** The unit an age of `days` days is told in. */
  function AgeUnitOf(days: nat): AgeUnit
  {
    if days < 7 then Days else if days < 30 then Weeks else if days < 365 then Months else Years
  }

  /** The age of a video `days` days old, as "<count> <unit> ago": the count
      is the number of whole units. */
  function FormatDate(days: nat): (r: string)
    ensures ParseInt(r) == Some(days / AgeUnitOf(days).Length())
    ensures EndsWith(r, " " + AgeUnitOf(days).Name() + " ago")
    ensures var count := r[..|r| - |" " + AgeUnitOf(days).Name() + " ago"|];
      Numeral(count) && DigitsValue(count) == days / AgeUnitOf(days).Length()
  {
    var unit := AgeUnitOf(days);
    AgeTextReadsBack(days / unit.Length(), unit.Name());
    NatToString(days / unit.Length()) + (" " + unit.Name() + " ago")
  }

  lemma AgeTextReadsBack(n: nat, name: string)
    ensures ParseInt(NatToString(n) + (" " + name + " ago")) == Some(n)
    ensures EndsWith(NatToString(n) + (" " + name + " ago"), " " + name + " ago")
    ensures var r := NatToString(n) + (" " + name + " ago");
      r[..|r| - |" " + name + " ago"|] == NatToString(n)
    ensures Numeral(NatToString(n)) && DigitsValue(NatToString(n)) == n
  {
    var tail := " " + name + " ago";
    var r := NatToString(n) + tail;
    ParseIntOfNat(n, tail);
    assert r[|r| - |tail|..] == tail;
    assert r[..|r| - |tail|] == NatToString(n);
    NatToStringNumeral(n);
    NatToStringValue(n);
  }

  /** The age text is the numeral of the count followed by the unit: the
      value and the unit pin the text. */
  lemma AgeTextOf(days: nat, count: string, tail: string)
    requires tail == " " + AgeUnitOf(days).Name() + " ago"
    requires count == NatToString(days / AgeUnitOf(days).Length())
    ensures FormatDate(days) == count + tail
  {
    var r := FormatDate(days);
    var c := r[..|r| - |tail|];
    NumeralUnique(c);
    assert r == c + r[|r| - |tail|..];
  }

  /** Three days show as "3 days ago". */
  lemma DaysExample()
    ensures FormatDate(3) == "3 days ago"
  {
    assert AgeUnitOf(3) == Days;
    AgeExampleText();
    AgeTextOf(3, "3", " days ago");
  }

  /** Fourteen days show as "2 weeks ago". */
  lemma WeeksExample()
    ensures FormatDate(14) == "2 weeks ago"
  {
    assert AgeUnitOf(14) == Weeks;
    AgeExampleText();
    AgeTextOf(14, "2", " weeks ago");
  }

  lemma AgeExampleText()
    ensures NatToString(3) == "3" && " " + Days.Name() + " ago" == " days ago"
    ensures "3" + " days ago" == "3 days ago"
    ensures NatToString(2) == "2" && " " + Weeks.Name() + " ago" == " weeks ago"
    ensures "2" + " weeks ago" == "2 weeks ago"
  {
  }

  /** The count is the number of whole units in the age, and it is at least
      one unit once the age is a week: at most 4 weeks, 1 to 12 months. */
  lemma AgeCount(days: nat)
    ensures var u := AgeUnitOf(days); var n := days / u.Length();
      && n * u.Length() <= days < (n + 1) * u.Length()
      && (u != Days ==> n >= 1)
      && (u == Days ==> n < 7)
      && (u == Weeks ==> n <= 4)
      && (u == Months ==> n <= 12)
  {
  }

  /** An older video is never told in a smaller unit, nor, in the same unit,
      with a smaller count. */
  lemma AgeMonotone(d1: nat, d2: nat)
    requires d1 <= d2
    ensures AgeUnitOf(d1).Rank() <= AgeUnitOf(d2).Rank()
    ensures AgeUnitOf(d1) == AgeUnitOf(d2) ==>
      d1 / AgeUnitOf(d1).Length() <= d2 / AgeUnitOf(d2).Length()
  {
  }
}
