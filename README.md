# VyralWave Toolkit core in Dafny

This project models the computing core of the VyralWave Toolkit. The toolkit is a web dashboard with two services.

- **SEO analyser** (`src/services/seo.ts`). Once a page is fetched and parsed, the analysis does three things:
  - applies fallbacks for the title, the description and the keyword list;
  - extracts keywords from the body text (lower-case, strip punctuation, split on white space, filter, count, compute each word's density, keep the five densest);
  - scores the title, the description, the headers, the keywords and the page performance, and collects the recommendations section by section.
- **YouTube service** (`src/services/youtube.ts`) and the niche research view (`src/components/youtube/NicheResearch.tsx`). These provide:
  - the `@handle` of a channel URL;
  - the K/M display of a count;
  - the percent change against the previous figures, and the zero baseline those figures currently are;
  - the engagement of one video and the mean engagement of a channel;
  - the age text of a video;
  - the trends and taglines of a niche, and the content ideas derived from them.

JavaScript semantics are modelled as follows; the limits of each are listed under "Left out":
- `parseInt(s, 10)` becomes `Decimal.ParseInt`, with `None` standing for NaN. It skips leading white space, accepts one sign and reads the longest run of digits.
- `x.toFixed(1)` becomes `Decimal.ToFixed1`. It rounds the exact quotient to the nearest tenth, with halves away from zero, and keeps the sign of a negative that rounds to zero ("-0.0").
- `value || fallback` on strings, and `!n` on a parsed number (NaN or zero), are both modelled.
- `change > 0` compares the numeral as a number.
- `toLowerCase`/`toUpperCase` are modelled on ASCII letters. For the keyword words they also map the two non-ASCII characters that lower-case to ASCII (`SeoKeywords.WordLower`).
- The `{}` word table is modelled as a clean map (`SeoKeywords`), and separately as the plain object it is, with its two reachable inherited keys (`SeoObjectTable`).
- `\s`, `\w`, `\d` and `split(/\s+/)` follow their JavaScript definitions (`Strings`).
- `Object.entries` lists the array-index keys first, ascending, and then the other keys in insertion order, as section 10.1.11.1 of ECMA-262 (OrdinaryOwnPropertyKeys) orders them (`ObjectKeys`). `sort` is stable, as ECMAScript requires since its 2019 edition.

Modules:
- **Foundation:**
  - `Options`: Option and Result.
  - `Strings`: character classes and string operations.
  - `Decimal`: numerals, `parseInt` and `toFixed(1)`.
  - `ObjectKeys`: the order in which an object lists its own keys.
  - `Ordered`: insertion-ordered sets as `Dedup`, sequence helpers, `FlatMap`.
- **seo.ts:** `SeoScores`, `SeoKeywords`, `SeoObjectTable` (the word table as the plain object it is), `SeoRecommendations`, `SeoAnalysis`.
- **youtube.ts:** `YouTubeStats` (handle, magnitude, change, baseline, engagement, age) and `YouTubeNiche` (trends, taglines).
- **NicheResearch.tsx:** `NicheResearch` (content ideas).

Code that changes state step by step becomes a method, proved equal to a specification function. The specification functions carry the properties, proved as lemmas. This applies to:
- the score functions with their local `score`;
- the performance scorer;
- the pushes of `generateRecommendations` and of `generateContentRecommendations`;
- the word-frequency loop;
- the `Set` of `analyzeTrends`;
- the `reduce` of `generateTaglines`.

## Model

| member | source | states |
|---|---|---|
| SeoScores.TitleScoreOf | src/services/seo.ts:190-202 | The title score is 0 for an empty title. Otherwise it is 100 less the penalty schedule, never below 35 (the short and long rules exclude each other), and at most 100 |
| SeoScores.TitleScore | src/services/seo.ts:190-202 | The imperative score with its sequential deductions equals `TitleScoreOf` |
| SeoScores.MixedCaseTitleScore | src/services/seo.ts:194-199 | A title with both cases and a letter or digit scores 100 at 30-60 characters, 80 at 65 and 60 at 75 |
| SeoScores.DescriptionScoreOf | src/services/seo.ts:204-215 | The description score is 0 when the description is empty. Otherwise it is 100 less its schedule, at least 35 and at most 100 |
| SeoScores.DescriptionScore | src/services/seo.ts:204-215 | The imperative description score equals `DescriptionScoreOf` |
| SeoScores.HeaderScoreOf | src/services/seo.ts:217-228 | The header score lies in [45, 100] and is 100 exactly for one H1, 1-10 H2 and 1-15 H3 |
| SeoScores.HeaderScore | src/services/seo.ts:217-228 | The imperative header score equals `HeaderScoreOf` |
| SeoScores.KeywordPenalty | src/services/seo.ts:235-238 | A keyword costs 0, 10 or 20, and costs nothing exactly when its density is within [0.5, 5] |
| SeoScores.KeywordScoreOf | src/services/seo.ts:230-241 | The keyword score is at most 100 and is 50 for an empty list |
| SeoScores.KeywordScore | src/services/seo.ts:230-241 | The `forEach` accumulation with the final clamp equals `KeywordScoreOf` |
| SeoScores.KeywordDeductionsBound | src/services/seo.ts:235-238 | The keyword deductions are at most 20 per keyword |
| SeoScores.ModerateKeywordsScoreFull | src/services/seo.ts:230-241 | A non-empty list whose densities are all within [0.5, 5] scores 100 |
| SeoScores.FewKeywordsUnclamped | src/services/seo.ts:230-241 | With at most five keywords the clamp never acts, so the score is 100 less the deductions |
| SeoScores.SizeTierOf | src/services/seo.ts:248-257 | Only the largest size threshold the page exceeds applies, with the tiers as four exact ranges |
| SeoScores.SeoFactorPenalty | src/services/seo.ts:266-269 | The SEO-factor deduction is at most 40, and is 0 exactly when all four tags are present |
| SeoScores.SecurityRating | src/services/seo.ts:285-292 | A+, A, B and C, each exactly for its combination of HTTPS and caching |
| SeoScores.PerformanceOf | src/services/seo.ts:243-299 | Both scores lie in [0, 100], and the security grade is `SecurityRating` |
| SeoScores.PerformanceScore | src/services/seo.ts:243-299 | The step-by-step scorer equals `PerformanceOf` |
| SeoScores.ThreeMiBTier | src/services/seo.ts:251-253 | A 3 MiB page is in the middle tier only: overall -15 and mobile -20 |
| SeoScores.PerformanceLowerClampInactive | src/services/seo.ts:282-283 | The deductions never take either score below 10, so only the upper clamp can act |
| SeoScores.BestPagePerformance | src/services/seo.ts:243-299 | A small page with every tag, HTTPS and caching reaches 115 and 110 before the clamp and scores 100, 100, A+ |
| SeoKeywords.WordLower | src/services/seo.ts:77 | The lower-cased text has no upper-case ASCII letter. The Kelvin sign becomes 'k' and the capital I with a dot becomes 'i', and the text is the ASCII lower-casing when it has neither |
| SeoKeywords.WordLowerExamples | src/services/seo.ts:77-78 | The Kelvin sign survives the filter as "k" and the dotted capital I as "i", where ASCII lower-casing would leave them for the filter to drop |
| SeoKeywords.Tokens | src/services/seo.ts:76-80 | Every counted word is longer than three characters, is not a stop word, has no white space, and is a piece of the split of the lower-cased (`WordLower`), stripped text; every word that passes the filter is counted exactly as often as it occurs among the pieces |
| SeoKeywords.CountWords | src/services/seo.ts:85-87 | After the loop the table counts each word's occurrences, holds exactly the words seen, and keeps its keys in first-insertion order |
| SeoKeywords.TableOrder | src/services/seo.ts:89 | `Object.entries` lists each distinct word once: the numeral keys up to 2^32 - 2 first, ascending, then the other words in the order of their first occurrence |
| SeoKeywords.TableEntriesOfCount | src/services/seo.ts:89-93 | Listing the filled table's keys in a given order yields, in that order, each word with its true density |
| SeoKeywords.ExtractKeywords | src/services/seo.ts:76-95 | The imperative extraction, listing the table in `ObjectKeyOrder`, equals `TopKeywords(Tokens(text))` |
| SeoKeywords.SortByDensity | src/services/seo.ts:94 | The sort is a permutation of the entries and is non-increasing in density |
| SeoKeywords.TopFive | src/services/seo.ts:95 | `slice(0, 5)` is a prefix of length min(n, 5) |
| SeoKeywords.TopKeywordsShape | src/services/seo.ts:76-95 | The report holds min(distinct words, 5) keywords, densest first, each being a counted word with its true density |
| SeoKeywords.TopKeywordsAreDensest | src/services/seo.ts:89-95 | A counted word left out of the report is no denser than any reported keyword |
| SeoKeywords.FewWordsAllReported | src/services/seo.ts:89-95 | With at most five distinct counted words, every one is reported |
| SeoKeywords.ReportedWordsDistinct | src/services/seo.ts:85-95 | No word is reported twice |
| SeoKeywords.DensityThresholds | src/services/seo.ts:82-92 | A density above 5% means more than one occurrence per 20 counted words, and one below 0.5% means fewer than one per 200 |
| SeoKeywords.SameDensityKeepsOrder | src/services/seo.ts:94 | The stable sort leaves entries of equal density in the order it got them |
| SeoKeywords.TiesReportedInTableOrder | src/services/seo.ts:89-95 | When every word occurs once, the report is the first five entries in the table's key order |
| SeoKeywords.IndexWordReportedFirst | src/services/seo.ts:85-95 | With words that each occur once, a numeral word that comes after four or more words that are not array indices is still reported first, followed by the first four of those words in text order |
| SeoKeywords.NumeralWordReportedFirst | src/services/seo.ts:76-95 | For "alpha bravo charlie delta echoo 2024" the report is 2024, alpha, bravo, charlie, delta, so "echoo" is left out |
| SeoKeywords.DensitiesSumToHundred | src/services/seo.ts:82-93 | When any word is counted, the densities of all table entries sum to exactly 100 |
| ObjectKeys.ObjectKeyOrder | src/services/seo.ts:89 | The listing is a permutation of the keys in which the array-index keys come first, in ascending numeric order, and the other keys keep their insertion order |
| ObjectKeys.NamedKeysInInsertionOrder | src/services/seo.ts:89 | Without array-index keys the listing is the insertion order |
| ObjectKeys.IndexKeyBeforeNamed | src/services/seo.ts:85-89 | An array-index key added after other keys is listed before all of them |
| ObjectKeys.IndexKeyListedFirst | src/services/seo.ts:85-89 | A table filled with "alpha" and then "2024" lists "2024" first |
| SeoObjectTable.ObjectEntries | src/services/seo.ts:83-93 | The entries of the plain-object table: every counted word but "__proto__" has one, "__proto__" has none, "constructor" alone has a NaN density, and every other density is the word's true density |
| SeoObjectTable.ProtoWordDropped | src/services/seo.ts:83-93 | For the words "__proto__ apple" the object's table has the single entry apple at 50%, where a clean table has two entries at 50% each |
| SeoObjectTable.ConstructorDensityNaN | src/services/seo.ts:83-93 | For "constructor" three times and "apple" once the object's table gives "constructor" a NaN density, where a clean table gives it 75% |
| SeoRecommendations.TitleFindings | src/services/seo.ts:321-342 | No finding exactly for a 30-60 character title, at most one finding, in the Title section, and high impact only when the title is missing |
| SeoRecommendations.TitleRule | src/services/seo.ts:321-342 | The single title finding is "missing" exactly for an empty title, "too short" exactly for 1-29 characters, "too long" exactly above 60, and none exactly for 30-60 |
| SeoRecommendations.DescriptionFindings | src/services/seo.ts:345-366 | No finding exactly for 120-160 characters, at most one, and high only when the description is missing |
| SeoRecommendations.DescriptionRule | src/services/seo.ts:345-366 | The single description finding is "missing" exactly for an empty description, "too short" exactly for 1-119 characters, "too long" exactly above 160, and none exactly for 120-160 |
| SeoRecommendations.HeaderFindings | src/services/seo.ts:369-383 | No finding exactly for one H1, and high only for none |
| SeoRecommendations.KeywordFindings | src/services/seo.ts:386-395 | One finding per keyword over 5%: every finding names such a keyword, every such keyword has one, and none is high |
| SeoRecommendations.KeywordFindingsInOrder | src/services/seo.ts:386-395 | The n-th keyword finding names the n-th keyword over 5%, following the order of the keyword list, and there are exactly as many findings as such keywords |
| SeoRecommendations.TechnicalFindings | src/services/seo.ts:398-414 | No finding exactly when both canonical link and structured data are present, and at most two |
| SeoRecommendations.TechnicalRule | src/services/seo.ts:398-414 | The canonical finding is reported exactly when the canonical link is missing, the structured-data finding exactly when structured data is missing, and with both the canonical one comes first |
| SeoRecommendations.SocialFindings | src/services/seo.ts:416-423 | A finding exactly when OpenGraph tags are missing, at low impact |
| SeoRecommendations.MobileFindings | src/services/seo.ts:425-432 | A finding exactly when the viewport tag is missing, at high impact |
| SeoRecommendations.SecurityFindings | src/services/seo.ts:434-441 | A finding exactly for plain HTTP, at high impact |
| SeoRecommendations.PerformanceFindings | src/services/seo.ts:443-450 | A finding exactly above 5 MiB, at high impact |
| SeoRecommendations.GenerateRecommendations | src/services/seo.ts:317-453 | Pushing rule by rule gives the nine sections' findings concatenated in order |
| SeoRecommendations.PushKeywordFindings | src/services/seo.ts:386-395 | The `forEach` appends exactly the keyword findings to the list |
| SeoRecommendations.HighImpactCount | src/services/seo.ts:321-450 | The high-impact findings are exactly: missing title, missing description, no H1, no viewport, plain HTTP, over 5 MiB |
| SeoRecommendations.BarePageHighFindings | src/services/seo.ts:321-441 | A page with no title, no H1 and no HTTPS gets at least three high-impact findings |
| SeoRecommendations.SectionOrder | src/services/seo.ts:317-453 | Findings always come section by section in the fixed order Title, Meta Description, Headers, Keywords, Technical SEO, Social Media, Mobile, Security, Performance |
| SeoRecommendations.MissingTitleIff | src/services/seo.ts:321-327 | "Missing page title" is reported if and only if the title is empty |
| SeoRecommendations.MissingDescriptionIff | src/services/seo.ts:345-351 | "Missing meta description" is reported if and only if the description is empty |
| SeoRecommendations.IgnoredParams | src/services/seo.ts:317-453 | The Twitter-card flag and the H2 and H3 counts never change the findings |
| SeoRecommendations.NoFindingsIff | src/services/seo.ts:317-453 | No findings exactly for a 30-60 character title, a 120-160 character description, one H1, no keyword over 5%, all tags, HTTPS and at most 5 MiB |
| SeoAnalysis.PageTitle | src/services/seo.ts:61 | The document title, else the first H1's text, else "No title found", so never empty |
| SeoAnalysis.PageDescription | src/services/seo.ts:62-65 | The description tag, else the OpenGraph description, else "No description found", so never empty |
| SeoAnalysis.ReportedKeywords | src/services/seo.ts:148 | The list itself when non-empty, else the single placeholder keyword |
| SeoAnalysis.Analysis | src/services/seo.ts:49-58 | An empty response is "No content received from the page", a document without a body is "Invalid HTML content received", and anything else is a report |
| SeoAnalysis.AnalyzePage | src/services/seo.ts:47-162 | The imperative analysis equals `Analysis` |
| SeoAnalysis.NeverMissingTitleOrDescription | src/services/seo.ts:61-65 | Because of the fallbacks, a report never says the title or description is missing, and its title score is at least 35 |
| SeoAnalysis.ReportHighFindings | src/services/seo.ts:98-137 | The high findings of a report are no H1, no viewport, a non-`https` URL and over 5 MiB of HTML |
| SeoAnalysis.NoWordsPlaceholder | src/services/seo.ts:82-148 | With no counted word the report shows the placeholder, while the keyword score (50) and the findings see the empty list |
| YouTubeStats.ExtractChannelHandle | src/services/youtube.ts:249-254 | An error with the fixed message exactly when `youtube.com/@` followed by a handle character occurs nowhere. Otherwise the result is the maximal run without `/` or `?` after the leftmost such match |
| YouTubeStats.HandleOfChannelUrl | src/services/youtube.ts:249-254 | `https://youtube.com/@h`, followed by nothing or by a path or query, gives `h` |
| YouTubeStats.NoAtSignNoHandle | src/services/youtube.ts:249-254 | A URL without `@` is rejected with the fixed message |
| YouTubeStats.FormatNumber | src/services/youtube.ts:256-261 | NaN and counts below 1000 are returned unchanged. At least 10^6 shows n/10^6 to one decimal with "M", otherwise n/10^3 with "K". The figure is a one-decimal numeral without leading zeros |
| YouTubeStats.FormatNumberShows | src/services/youtube.ts:256-261 | From 1000 on, the text is exactly the unsigned numeral of the rounded tenths (`OneDecimal`) followed by "M" or "K" |
| YouTubeStats.MillionsExample | src/services/youtube.ts:258 | "1500000" shows as "1.5M" |
| YouTubeStats.ThousandsExample | src/services/youtube.ts:259 | "2500" shows as "2.5K" |
| YouTubeStats.ThousandsTierRange | src/services/youtube.ts:258-259 | The K tier shows between 1.0K and 1000.0K, and shows 1000.0K exactly from 999950 on |
| YouTubeStats.MillionsTierBounds | src/services/youtube.ts:258 | The M figure is within half a tenth of n/10^6 and at least 1.0 |
| YouTubeStats.CalculateChange | src/services/youtube.ts:296-303 | A zero or NaN previous figure gives "+0%", and a NaN current figure gives "NaN%". Otherwise the result is a one-decimal numeral without leading zeros that reads back as the change in tenths of a percent, then "%". It has '+' exactly when the change is above zero, and otherwise '-' exactly when the quotient is negative |
| YouTubeStats.ShownChange | src/services/youtube.ts:300-302 | The numeral has no leading zeros and reads back as 100(c-p)/p to the nearest tenth. It has '+' exactly when that is positive, and otherwise '-' exactly when the quotient is negative |
| YouTubeStats.ShownChangeText | src/services/youtube.ts:300-302 | The text is exactly the sign, `OneDecimal` of the absolute tenths, and "%" |
| YouTubeStats.ChangeExample | src/services/youtube.ts:296-303 | 120 against 100 shows "+20.0%" |
| YouTubeStats.NoChange | src/services/youtube.ts:296-303 | An unchanged non-zero figure shows "0.0%" |
| YouTubeStats.PreviousStats | src/services/youtube.ts:305-313 | Every previous figure reads as zero |
| YouTubeStats.ChannelChanges | src/services/youtube.ts:146-149 | Each of the four change fields is "+0%" whenever its previous figure reads as zero or NaN |
| YouTubeStats.ChangesAgainstBaseline | src/services/youtube.ts:146-149 | Against that baseline all four change fields are "+0%", whatever the channel's statistics or engagement |
| YouTubeStats.EngagementText | src/services/youtube.ts:269-276 | No views (zero or NaN) gives "0%", and a NaN like or comment count gives "NaN%". Otherwise the text is a one-decimal numeral without leading zeros that reads back as 100(likes+comments)/views in tenths, then "%", with '-' exactly when the quotient is negative |
| YouTubeStats.EngagementShows | src/services/youtube.ts:275 | With views, the text is exactly the sign of a negative quotient, `OneDecimal` of the absolute tenths, and "%" |
| YouTubeStats.VideoEngagement | src/services/youtube.ts:269-276 | The engagement of a video's statistics: "0%" without views, "NaN%" when likes or comments do not parse. Otherwise a numeral without leading zeros that reads back as 100(likes+comments)/views in tenths, then "%" |
| YouTubeStats.RateOf | src/services/youtube.ts:334-342 | A video without views rates 0, and the rate is NaN exactly when there are views and a count is NaN |
| YouTubeStats.VideoRate | src/services/youtube.ts:335-338 | A video without statistics, or whose view count reads as zero or NaN, rates 0 |
| YouTubeStats.MeanEngagement | src/services/youtube.ts:344-345 | With no videos or a NaN rate the engagement is 0. Otherwise it is the mean rate rounded to the nearest tenth |
| YouTubeStats.ChannelEngagement | src/services/youtube.ts:334-345 | A channel without videos has engagement 0 |
| YouTubeStats.RateSumNaN | src/services/youtube.ts:344 | The sum of the rates is NaN exactly when one of them is |
| YouTubeStats.MeanWithinRates | src/services/youtube.ts:344 | When every rate lies in [lo, hi], so does the mean |
| YouTubeStats.SingleVideoAgrees | src/services/youtube.ts:334-345 | For one video with views, the channel engagement equals the figure its own engagement text shows |
| YouTubeStats.FormatDate | src/services/youtube.ts:284-294 | The text is a numeral without leading zeros for the number of whole units in `days`, followed by " <unit> ago". The unit (`AgeUnitOf`) is days below 7, weeks below 30, months below 365, and years from there on |
| YouTubeStats.AgeTextOf | src/services/youtube.ts:290-293 | The text is exactly the decimal numeral of the count followed by " <unit> ago" |
| YouTubeStats.DaysExample | src/services/youtube.ts:290 | 3 days show as "3 days ago" |
| YouTubeStats.WeeksExample | src/services/youtube.ts:291 | 14 days show as "2 weeks ago" |
| YouTubeStats.AgeCount | src/services/youtube.ts:290-293 | The count n is the whole number of units: n·len ≤ days < (n+1)·len. Days stay below 7, weeks are 1-4, months 1-12, years at least 1 |
| YouTubeStats.AgeMonotone | src/services/youtube.ts:290-293 | An older video never gets a smaller unit, nor a smaller count in the same unit |
| YouTubeNiche.AnalyzeTrends | src/services/youtube.ts:352-374 | The `Set` filled video by video holds the trends in first-appearance order, each once |
| YouTubeNiche.TrendsIff | src/services/youtube.ts:356-370 | A trend is reported exactly when some video's lower-cased title or description meets its rule |
| YouTubeNiche.TrendsShape | src/services/youtube.ts:352-374 | The trends are distinct, at most four, and empty for no videos |
| YouTubeNiche.TrendsOrder | src/services/youtube.ts:353-373 | The trends follow the order of their first appearance, video by video and rule by rule |
| YouTubeNiche.TitlePatterns | src/services/youtube.ts:378-383 | A title shows a pattern exactly when its lower-cased text contains the pattern's trigger ("how to" for how-to, otherwise the name), each pattern once, in rule order |
| YouTubeNiche.PatternsIff | src/services/youtube.ts:377-385 | A pattern is collected exactly when some video's lower-cased title contains its trigger |
| YouTubeNiche.GenerateTaglines | src/services/youtube.ts:376-405 | The `reduce`, the `Set` and the `map` give one tagline per distinct pattern in first-appearance order |
| YouTubeNiche.TaglinesIff | src/services/youtube.ts:376-405 | The tagline of each pattern is produced exactly when some video's lower-cased title contains that pattern's trigger |
| YouTubeNiche.TaglinesShape | src/services/youtube.ts:387-404 | At most five taglines, no two alike, each containing the niche and none the default one |
| YouTubeNiche.TaglinesOrder | src/services/youtube.ts:385-387 | Taglines follow the first appearance of their patterns |
| YouTubeNiche.TaglinesReadTitlesOnly | src/services/youtube.ts:377-378 | Descriptions never change the taglines |
| NicheResearch.GenerateContentRecommendations | src/components/youtube/NicheResearch.tsx:23-78 | The pushes give the four conditional ideas in order |
| NicheResearch.IdeasIff | src/components/youtube/NicheResearch.tsx:27-75 | Tutorial, list, review and trend ideas each appear exactly when a title meets their rule, or when there are trends |
| NicheResearch.IdeasOrder | src/components/youtube/NicheResearch.tsx:44-75 | At most four ideas, in strictly increasing fixed order, so none twice |
| NicheResearch.NoInputNoIdeas | src/components/youtube/NicheResearch.tsx:23-78 | No popular videos and no trends give no idea |
| Decimal.ParseIntOfInt | src/services/youtube.ts:297-298 | `parseInt` reads back the decimal numeral of every integer |
| Decimal.ToFixed1 | src/services/youtube.ts:301 | `toFixed(1)` of num/den is a numeral with one decimal and no leading zeros. It reads back as the quotient rounded to the nearest tenth, and starts with '-' exactly when the quotient is negative |
| Decimal.NumeralUnique | src/services/youtube.ts:290-293 | A decimal numeral without leading zeros is the one written for its value |
| Decimal.TenthsTextUnique | src/services/youtube.ts:258-259 | Two one-decimal numerals without leading zeros that read as the same tenths and agree in sign are the same text |
| Strings.SplitOnSpace | src/services/seo.ts:79 | At least one piece, no piece with white space, and the pieces together are the text without white space |
| Strings.SplitOnSpaceSeparators | src/services/seo.ts:79 | The pieces break exactly at runs of white space: there are non-empty, all-white-space separators, one fewer than the pieces, such that pieces and separators interleaved spell the text again |
| Strings.FilterCounts | src/services/seo.ts:80 | `filter` keeps every value that passes the test as many times as it occurs, and drops every other value |

## Left out

- The network:
  - fetching the page through the proxy, the response status and `new URL`'s protocol check;
  - the YouTube API calls and OAuth.

  The parsed document and the API statistics are inputs (`DomSignals`, `ChannelStatistics`, `VideoStatistics`, `VideoSnippet`).
- DOM queries (`querySelector`, `getElementsByTagName`, `textContent`) are inputs.
- The analysis report's `loadTime` text (`toFixed(2)` of megabytes) is not modelled.
- The channel report's `id`, `title` and the K/M figures are not assembled into one record. The report is covered by its parts: `FormatNumber`, `ChannelChanges` and `ChannelEngagement`.
- `calculateGrowth` and `calculateVideoGrowth` are not modelled, because they return `Math.random()` placeholders.
- `calculateEngagementRate`'s fetch and its `try`/`catch` are not modelled. Its result is modelled from the statistics the fetch returns.
- Floating point:
  - keyword densities and engagement rates are exact rationals (`real`);
  - `toFixed(1)` (`Decimal.ToFixed1`) rounds the exact rational value, so a quotient whose double lies just below or above a `.x5` boundary can round the other way in JavaScript;
  - numbers of 10^21 and beyond, which `toFixed` writes in exponent form, are not modelled;
  - `parseInt` of a count above 2^53 rounds to the nearest double in JavaScript, while `Decimal.ParseInt` is exact, so `FormatNumber` and `CalculateChange` can differ from the source on such counts.
- Case mapping and `\w` cover ASCII only. JavaScript's `toLowerCase` and `toUpperCase` also map non-ASCII letters, so a title such as "Привет мир" is unchanged by both mappings here and takes the lower-case (-5) and upper-case (-10) deductions, where in JavaScript it changes under both and takes neither; the same holds for the description's lower-case deduction. For the keyword words only the non-ASCII characters that lower-case to ASCII matter, since `\w` drops every other non-ASCII character either way. These are the Kelvin sign, which becomes 'k', and the capital I with a dot, which becomes 'i' plus a combining dot that the filter drops. `SeoKeywords.WordLower` maps both. Lengths count UTF-16 code units in JavaScript and characters here.
- The word table of the keyword extraction is a plain object (`{}`), which inherits `Object.prototype`. Lower-casing and `\w` leave only two inherited keys a body text can reach, and `SeoObjectTable` models both: "__proto__" never becomes an entry although it still counts in the word count, and "constructor" starts from the inherited function, so its count becomes a string and its density NaN. The NaN density makes the keyword penalty and the overuse finding silent for that word, and makes the sort's comparator inconsistent; the position the sort gives a NaN entry, and so the report built from it, is not modelled.
- CountWords: counts in a clean map, which is the plain object's behaviour for every word but "__proto__" and "constructor".
- ExtractKeywords: equals `TopKeywords(Tokens(text))` over the clean table; for a body text containing "__proto__" or "constructor" the source's result differs as `SeoObjectTable` shows.
- TopKeywordsShape: holds of the clean table; with "constructor" among the words the source reports a NaN density for it (`SeoObjectTable.ConstructorDensityNaN`).
- TopKeywordsAreDensest: holds of the clean table; NaN densities have no order, so it does not carry over to a table with "constructor".
- FewWordsAllReported: holds of the clean table; the source never reports "__proto__" (`SeoObjectTable.ProtoWordDropped`).
- DensitiesSumToHundred: holds of the clean table; with "__proto__" among the words the source's densities sum to less than 100 (`SeoObjectTable.ProtoWordDropped`).
- YouTubeStats.FormatDate takes the day count as a parameter. The clock, date parsing and `Math.ceil` of the time difference are left out.
- YouTubeNiche.AnalyzeTrends returns the trend kinds, not strings. Each kind's text is `Trend.Message()`.
- NicheResearch.GenerateContentRecommendations returns the idea kinds, not records. The texts of each are `ContentIdea.Type()`, `Description()` and `Metrics()`.
- In the same way, the text fields of SEO findings are functions of the rule (`Recommendation.Issue()` and so on).
- The React views, the charts and the script, title and tag generators are not part of this model.

Notes on the code as written:
- `analyzePage` always falls back to a non-empty title and description. The "Missing page title" and "Missing meta description" rules of `generateRecommendations` can therefore never fire from it (`SeoAnalysis.NeverMissingTitleOrDescription`).
- `formatNumber` shows 999950 to 999999 as "1000.0K" rather than "1.0M" (`YouTubeStats.ThousandsTierRange`).
- `getPreviousStats` returns zeros, so every change field reads "+0%" (`YouTubeStats.ChangesAgainstBaseline`).

## Findings

| source | as written | input that shows it | evidently intended | confidence | as-written member | corrected member |
|---|---|---|---|---|---|---|
| src/services/seo.ts:83-87 | The word table is `{}`, so `wordFrequency["__proto__"]` reads the prototype, an object, which `\|\| 0` keeps. `+ 1` turns it into a string, and the `__proto__` setter ignores a value that is not an object. The prototype stays as it was, the word never gets an entry, and it still counts in `wordCount` | body text "__proto__ apple": one entry, apple at 50%, and densities summing to 50 | every counted word gets an entry and the densities sum to 100 | not executed | SeoObjectTable.ProtoWordDropped | SeoKeywords.DensitiesSumToHundred |
| src/services/seo.ts:83-87 | `wordFrequency["constructor"] \|\| 0` reads the inherited `Object` function, so the count becomes a string and the density NaN | body text "constructor constructor constructor apple": "constructor" gets a NaN density instead of 75%, so neither the keyword penalty nor the overuse finding fires for it | "constructor" is counted like any other word, at 75% | not executed | SeoObjectTable.ConstructorDensityNaN | SeoKeywords.TopKeywordsShape |
