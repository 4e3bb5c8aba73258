/** The content ideas the niche research view draws from an analysis: one per
    kind of popular title it finds, in a fixed order, and one when there are
    trends. */
module NicheResearch {
  import opened Strings
  import opened Ordered

  /** The four kinds of content idea, with the texts of each. */
  datatype ContentIdea = TutorialContent | ListContent | ReviewContent | TrendContent
  {
    function Type(): string
    {
      match this
      case TutorialContent => "Tutorial Content"
      case ListContent => "List-Based Content"
      case ReviewContent => "Review Content"
      case TrendContent => "Trend-Based Content"
    }

    function Description(): string
    {
      match this
      case TutorialContent => "Create step-by-step tutorials and how-to guides"
      case ListContent => "Compile top lists and rankings"
      case ReviewContent => "Produce in-depth reviews and comparisons"
      case TrendContent => "Create content around current trends"
    }

    function Metrics(): string
    {
      match this
      case TutorialContent => "High engagement rate on educational content"
      case ListContent => "Strong viewer retention on curated content"
      case ReviewContent => "High search visibility for product research"
      case TrendContent => "Increased potential for viral growth"
    }

    /** The place of the idea in the list. */
    function Rank(): nat
    {
      match this
      case TutorialContent => 0
      case ListContent => 1
      case ReviewContent => 2
      case TrendContent => 3
    }
  }

  /** A how-to title: "how to" or "tutorial" in its lower-case form. */
  predicate HowToTitle(title: string)
  {
    Contains(Lower(title), "how to") || Contains(Lower(title), "tutorial")
  }

  /** A list title: a digit, or "top" or "best" in its lower-case form. */
  predicate ListTitle(title: string)
  {
    HasDigit(title) || Contains(Lower(title), "top") || Contains(Lower(title), "best")
  }

  /** A review title: "review" or "vs" in its lower-case form. */
  predicate ReviewTitle(title: string)
  {
    Contains(Lower(title), "review") || Contains(Lower(title), "vs")
  }

  predicate HasHowTo(titles: seq<string>)
  {
    exists i :: 0 <= i < |titles| && HowToTitle(titles[i])
  }

  predicate HasList(titles: seq<string>)
  {
    exists i :: 0 <= i < |titles| && ListTitle(titles[i])
  }

  predicate HasReview(titles: seq<string>)
  {
    exists i :: 0 <= i < |titles| && ReviewTitle(titles[i])
  }

  /** The ideas for the popular videos' titles and the trends. */
  function Ideas(titles: seq<string>, trends: seq<string>): seq<ContentIdea>
  {
    When(HasHowTo(titles), TutorialContent) + When(HasList(titles), ListContent)
    + When(HasReview(titles), ReviewContent) + When(|trends| > 0, TrendContent)
  }

  /** Decides the three title flags, then pushes the ideas one by one. */
  method GenerateContentRecommendations(titles: seq<string>, trends: seq<string>) returns (recommendations: seq<ContentIdea>)
    ensures recommendations == Ideas(titles, trends)
  {
    var hasHowTo := HasHowTo(titles);
    var hasList := HasList(titles);
    var hasReview := HasReview(titles);
    recommendations := [];
    recommendations := PushWhen(recommendations, hasHowTo, TutorialContent);
    recommendations := PushWhen(recommendations, hasList, ListContent);
    recommendations := PushWhen(recommendations, hasReview, ReviewContent);
    recommendations := PushWhen(recommendations, |trends| > 0, TrendContent);
    AppendFour([], When(hasHowTo, TutorialContent), When(hasList, ListContent),
      When(hasReview, ReviewContent), When(|trends| > 0, TrendContent));
  }

  /** At most four ideas, in the fixed order, so none twice. */
  lemma IdeasOrder(titles: seq<string>, trends: seq<string>)
    ensures |Ideas(titles, trends)| <= 4
    ensures forall i, j :: 0 <= i < j < |Ideas(titles, trends)| ==>
      Ideas(titles, trends)[i].Rank() < Ideas(titles, trends)[j].Rank()
  {
    var a := When(HasHowTo(titles), TutorialContent);
    var b := When(HasList(titles), ListContent);
    var c := When(HasReview(titles), ReviewContent);
    var d := When(|trends| > 0, TrendContent);
    var r := Ideas(titles, trends);
    assert r == a + b + c + d;
    forall i, j | 0 <= i < j < |r| ensures r[i].Rank() < r[j].Rank() {
      RankAt(a, b, c, d, i);
      RankAt(a, b, c, d, j);
    }
  }

  /** In the concatenation of the four optional ideas, the rank of an idea
      counts the pieces before it that are present, at least. */
  lemma RankAt(a: seq<ContentIdea>, b: seq<ContentIdea>, c: seq<ContentIdea>, d: seq<ContentIdea>, i: nat)
    requires a == [] || a == [TutorialContent]
    requires b == [] || b == [ListContent]
    requires c == [] || c == [ReviewContent]
    requires d == [] || d == [TrendContent]
    requires i < |a + b + c + d|
    ensures i <= (a + b + c + d)[i].Rank()
    ensures i < |a| ==> (a + b + c + d)[i].Rank() == 0
    ensures |a| <= i < |a| + |b| ==> (a + b + c + d)[i].Rank() == 1
    ensures |a| + |b| <= i < |a| + |b| + |c| ==> (a + b + c + d)[i].Rank() == 2
    ensures |a| + |b| + |c| <= i ==> (a + b + c + d)[i].Rank() == 3
  {
  }

  /** Each idea is present exactly when its rule holds. */
  lemma IdeasIff(titles: seq<string>, trends: seq<string>)
    ensures TutorialContent in Ideas(titles, trends) <==> HasHowTo(titles)
    ensures ListContent in Ideas(titles, trends) <==> HasList(titles)
    ensures ReviewContent in Ideas(titles, trends) <==> HasReview(titles)
    ensures TrendContent in Ideas(titles, trends) <==> |trends| > 0
  {
    var a := When(HasHowTo(titles), TutorialContent);
    var b := When(HasList(titles), ListContent);
    var c := When(HasReview(titles), ReviewContent);
    var d := When(|trends| > 0, TrendContent);
    assert Ideas(titles, trends) == a + b + c + d;
  }

  /** No videos and no trends give no idea. */
  lemma NoInputNoIdeas()
    ensures Ideas([], []) == []
  {
    assert !HasHowTo([]) && !HasList([]) && !HasReview([]);
  }
}
