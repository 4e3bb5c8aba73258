/** The page analysis once the page is fetched and parsed: the checks on the
    response, the fallbacks for the title, the description and the keyword
    list, the signals read from the HTML text, and the scores and findings
    computed from them. The document queries are inputs. */
module SeoAnalysis {
  import opened Options
  import opened Strings
  import opened SeoScores
  import opened SeoKeywords
  import opened SeoRecommendations

  /** What the parsed document yields. `firstH1Text` is the text of the
      first H1 (none when the page has no H1); the two descriptions are the
      `content` attributes of the description and OpenGraph description
      tags (none when the tag or attribute is absent); `bodyText` is the
      text of the body (none when the body has no text). */
  datatype DomSignals = DomSignals(
    documentTitle: string,
    firstH1Text: Option<string>,
    metaDescription: Option<string>,
    ogDescription: Option<string>,
    h1Count: nat,
    h2Count: nat,
    h3Count: nat,
    bodyText: Option<string>,
    hasViewport: bool,
    hasCanonical: bool,
    hasOpenGraph: bool,
    hasTwitterCards: bool)

  /** The response: the URL asked for, the HTML text, whether a
      `cache-control` header came back, and the parsed document (none when it
      has no body). */
  datatype FetchedPage = FetchedPage(url: string, html: string, hasCacheControl: bool, document: Option<DomSignals>)

  datatype Scores = Scores(title: int, description: int, headers: int, keywords: int)

  /** The report; the page-size text is not part of this model. */
  datatype PageMetrics = PageMetrics(
    title: string,
    description: string,
    h1: nat,
    h2: nat,
    h3: nat,
    keywords: seq<Keyword>,
    performance: PerformanceScores,
    recommendations: seq<Recommendation>,
    scores: Scores)

  const NoContent := "No content received from the page"
  const InvalidHtml := "Invalid HTML content received"
  const NoTitle := "No title found"
  const NoDescription := "No description found"
  const NoKeywords := "No keywords found"
  const StructuredDataMarker := "application/ld+json"

  // ----- The fallbacks

  /** An optional text, an absent one reading as the empty string. */
  function Text(x: Option<string>): string
  {
    x.GetOr("")
  }

  /** The document title, else the first H1's text, else a placeholder; so
      never empty. */
  function PageTitle(d: DomSignals): (r: string)
    ensures r != []
    ensures d.documentTitle != [] ==> r == d.documentTitle
    ensures d.documentTitle == [] && Text(d.firstH1Text) != [] ==> r == Text(d.firstH1Text)
    ensures d.documentTitle == [] && Text(d.firstH1Text) == [] ==> r == NoTitle
  {
    OrElse(d.documentTitle, OrElse(Text(d.firstH1Text), NoTitle))
  }

  /** The description tag, else the OpenGraph description, else a
      placeholder; so never empty. */
  function PageDescription(d: DomSignals): (r: string)
    ensures r != []
    ensures Text(d.metaDescription) != [] ==> r == Text(d.metaDescription)
    ensures Text(d.metaDescription) == [] && Text(d.ogDescription) != [] ==> r == Text(d.ogDescription)
    ensures Text(d.metaDescription) == [] && Text(d.ogDescription) == [] ==> r == NoDescription
  {
    OrElse(Text(d.metaDescription), OrElse(Text(d.ogDescription), NoDescription))
  }

  /** The keyword list as reported: the placeholder stands in for an empty
      list. */
  function ReportedKeywords(keywords: seq<Keyword>): (r: seq<Keyword>)
    ensures r != []
    ensures keywords != [] ==> r == keywords
    ensures keywords == [] ==> r == [Keyword(NoKeywords, 0.0)]
  {
    if |keywords| > 0 then keywords else [Keyword(NoKeywords, 0.0)]
  }

  // ----- The analysis

  /** The performance inputs: the size is the length of the HTML, HTTPS is
      read off the URL, structured data off the HTML text. */
  function MetricsOf(page: FetchedPage, d: DomSignals): PerformanceMetrics
  {
    PerformanceMetrics(
      |page.html|, d.hasViewport, StartsWith(page.url, "https"), page.hasCacheControl,
      d.hasCanonical, Contains(page.html, StructuredDataMarker), d.hasOpenGraph, d.hasTwitterCards)
  }

  /** The recommendation inputs; they take the keyword list itself, not the
      placeholder. */
  function ParamsOf(page: FetchedPage, d: DomSignals): RecommendationParams
  {
    RecommendationParams(
      PageTitle(d), PageDescription(d), d.h1Count, d.h2Count, d.h3Count,
      TopKeywords(Tokens(Text(d.bodyText))),
      d.hasCanonical, Contains(page.html, StructuredDataMarker), d.hasOpenGraph, d.hasTwitterCards,
      d.hasViewport, StartsWith(page.url, "https"), |page.html|)
  }

  /** The report of a parsed page. */
  function ReportOf(page: FetchedPage, d: DomSignals): PageMetrics
  {
    var keywords := TopKeywords(Tokens(Text(d.bodyText)));
    PageMetrics(
      PageTitle(d), PageDescription(d), d.h1Count, d.h2Count, d.h3Count,
      ReportedKeywords(keywords),
      PerformanceOf(MetricsOf(page, d)),
      Recommendations(ParamsOf(page, d)),
      Scores(
        TitleScoreOf(PageTitle(d)),
        DescriptionScoreOf(PageDescription(d)),
        HeaderScoreOf(d.h1Count, d.h2Count, d.h3Count),
        KeywordScoreOf(keywords)))
  }

  /** The analysis: an empty response and a document without a body are
      errors, anything else is reported. */
  function Analysis(page: FetchedPage): (r: Result<PageMetrics>)
    ensures page.html == [] <==> r == Err(NoContent)
    ensures r == Err(InvalidHtml) <==> page.html != [] && page.document.None?
    ensures r.Ok? <==> page.html != [] && page.document.Some?
  {
    if page.html == [] then Err(NoContent)
    else if page.document.None? then Err(InvalidHtml)
    else Ok(ReportOf(page, page.document.value))
  }

  /** Checks the response, then extracts the signals, scores them and
      collects the findings. */
  method AnalyzePage(page: FetchedPage) returns (result: Result<PageMetrics>)
    ensures result == Analysis(page)
  {
    if page.html == [] {
      return Err(NoContent);
    }
    if page.document.None? {
      return Err(InvalidHtml);
    }
    var d := page.document.value;
    var title := PageTitle(d);
    var description := PageDescription(d);
    var keywords := ExtractKeywords(Text(d.bodyText));
    var metrics := MetricsOf(page, d);
    var titleScore := TitleScore(title);
    var descriptionScore := DescriptionScore(description);
    var headerScore := HeaderScore(d.h1Count, d.h2Count, d.h3Count);
    var keywordScore := KeywordScore(keywords);
    var performance := PerformanceScore(metrics);
    var params := RecommendationParams(
      title, description, d.h1Count, d.h2Count, d.h3Count, keywords,
      d.hasCanonical, Contains(page.html, StructuredDataMarker), d.hasOpenGraph, d.hasTwitterCards,
      d.hasViewport, StartsWith(page.url, "https"), |page.html|);
    var recommendations := GenerateRecommendations(params);
    result := Ok(PageMetrics(
      title, description, d.h1Count, d.h2Count, d.h3Count,
      ReportedKeywords(keywords), performance, recommendations,
      Scores(titleScore, descriptionScore, headerScore, keywordScore)));
  }

  // ----- Properties of the report

  /** Because of the fallbacks, a report never says the title or the
      description is missing, and its title score is at least 35. */
  lemma NeverMissingTitleOrDescription(page: FetchedPage, d: DomSignals)
    ensures Finding(MissingTitle) !in ReportOf(page, d).recommendations
    ensures Finding(MissingDescription) !in ReportOf(page, d).recommendations
    ensures ReportOf(page, d).scores.title >= 35
  {
    var p := ParamsOf(page, d);
    MissingTitleIff(p);
    MissingDescriptionIff(p);
  }

  /** In a report, the high-impact findings are the missing H1, the missing
      viewport, plain HTTP and a page over 5 MiB; the title and description
      rules never rate high. */
  lemma ReportHighFindings(page: FetchedPage, d: DomSignals)
    ensures HighCount(ReportOf(page, d).recommendations)
      == Points(d.h1Count == 0, 1) + Points(!d.hasViewport, 1)
       + Points(!StartsWith(page.url, "https"), 1) + Points(|page.html| > 5 * MiB, 1)
  {
    HighImpactCount(ParamsOf(page, d));
  }

  /** A body with no counted word reports the placeholder keyword, while the
      keyword score and the findings see the empty list: the score is 50 and
      there is no keyword finding. */
  lemma NoWordsPlaceholder(page: FetchedPage, d: DomSignals)
    requires Tokens(Text(d.bodyText)) == []
    ensures ReportOf(page, d).keywords == [Keyword(NoKeywords, 0.0)]
    ensures ReportOf(page, d).scores.keywords == 50
    ensures ParamsOf(page, d).keywords == []
  {
    TopKeywordsShape([]);
  }
}
