/** Keyword extraction of the page analysis: the body text is lower-cased,
    stripped of everything but word characters and white space, split on
    white space and filtered; every remaining word is counted, its density is
    its share of the counted words in percent, and the five densest words are
    kept, densest first. */
module SeoKeywords {
  import opened Strings
  import opened Ordered
  import opened SeoScores
  import opened ObjectKeys

  /** The short words the filter drops whatever their length. */
  const StopWords: seq<string> :=
    ["this", "that", "with", "from", "have", "were", "what", "when", "your",
     "will", "about", "they", "their"]

  /** A word is counted when it is longer than three characters and is not a
      stop word. */
  predicate IsCandidate(w: string)
  {
    |w| > 3 && w !in StopWords
  }

  /** `toLowerCase` on the characters the word filter keeps afterwards. Of
      all characters outside ASCII only two lower-case to an ASCII letter:
      the Kelvin sign to 'k', and the capital I with a dot to 'i' followed
      by a combining dot, which the filter then drops. */
  function WordLowerChar(c: char): char
  {
    if c == '\U{212A}' then 'k'
    else if c == '\U{0130}' then 'i'
    else LowerChar(c)
  }

  /** The lower-cased body text as far as the word filter can tell: it has no
      upper-case ASCII letter, and it is `Lower(text)` for a text without the
      two characters above. */
  function WordLower(text: string): (r: string)
    ensures |r| == |text|
    ensures forall i :: 0 <= i < |text| ==> r[i] == WordLowerChar(text[i]) && !IsUpper(r[i])
    ensures (forall i :: 0 <= i < |text| ==> text[i] != '\U{212A}' && text[i] != '\U{0130}') ==> r == Lower(text)
  {
    seq(|text|, i requires 0 <= i < |text| => WordLowerChar(text[i]))
  }

  /** The Kelvin sign and the dotted capital I reach the words as 'k' and
      'i', where ASCII lower-casing would leave them for the filter to drop. */
  lemma WordLowerExamples()
    ensures WordText("\U{212A}") == "k"
    ensures WordText("\U{0130}") == "i"
    ensures KeepWordAndSpace(Lower("\U{0130}")) == ""
  {
    assert WordLower("\U{212A}") == "k";
    assert WordLower("\U{0130}") == "i";
    assert Lower("\U{0130}") == "\U{0130}";
  }

  /** The body text as the word filter sees it: lower-cased, and stripped of
      everything but word characters and white space. */
  function WordText(text: string): string
  {
    KeepWordAndSpace(WordLower(text))
  }

  /** The counted words of a body text, in text order. */
  function Tokens(text: string): (words: seq<string>)
    ensures forall w :: w in words ==> IsCandidate(w) && NoSpace(w)
    ensures forall w :: w in words ==> w in SplitOnSpace(WordText(text))
    ensures forall w :: IsCandidate(w) ==>
      multiset(words)[w] == multiset(SplitOnSpace(WordText(text)))[w]
  {
    FilterCounts(SplitOnSpace(WordText(text)), IsCandidate);
    Filter(SplitOnSpace(WordText(text)), IsCandidate)
  }

  /** The number of times `w` occurs in `words`. */
  function Occurrences(words: seq<string>, w: string): nat
  {
    multiset(words)[w]
  }

  /** `(count / wordCount) * 100`, where the word count of an empty list is
      taken as 1. */
  function Density(count: nat, total: nat): real
  {
    var wordCount: nat := if total == 0 then 1 else total;
    count as real / wordCount as real * 100.0
  }

  /** The keyword entry of `w`: the word and its density in `words`. */
  function EntryOf(words: seq<string>, w: string): Keyword
  {
    Keyword(w, Density(Occurrences(words, w), |words|))
  }

  /** The entries of the words in `order`, in that order. */
  function EntriesOf(words: seq<string>, order: seq<string>): (r: seq<Keyword>)
    ensures |r| == |order|
    ensures forall i :: 0 <= i < |order| ==> r[i] == EntryOf(words, order[i])
  {
    if order == [] then []
    else EntriesOf(words, order[..|order| - 1]) + [EntryOf(words, order[|order| - 1])]
  }

  /** The keys of a table filled in text order, as `Object.entries` lists
      them: the distinct words, numerals up to 2^32 - 2 first in ascending
      order, then the rest in the order of first occurrence. */
  function TableOrder(words: seq<string>): (r: seq<string>)
    ensures multiset(r) == multiset(Dedup(words)) && |r| == |Dedup(words)|
    ensures Distinct(r)
    ensures forall w :: w in r <==> w in words
    ensures forall i, j :: 0 <= i < j < |r| && IsArrayIndex(r[j]) ==>
      IsArrayIndex(r[i]) && IndexValue(r[i]) <= IndexValue(r[j])
    ensures Filter(r, IsNamedKey) == Filter(Dedup(words), IsNamedKey)
  {
    var r := ObjectKeyOrder(Dedup(words));
    PermutationDistinct(Dedup(words), r);
    assert forall w :: w in r <==> w in multiset(Dedup(words));
    r
  }

  /** The entries of a frequency table filled in text order: one per
      distinct word, in the table's key order. */
  function Entries(words: seq<string>): seq<Keyword>
  {
    EntriesOf(words, TableOrder(words))
  }

  predicate NonIncreasing(s: seq<Keyword>)
  {
    forall i, j :: 0 <= i < j < |s| ==> s[i].density >= s[j].density
  }

  /** Inserts `k` before the first entry that is not denser than it. */
  function InsertByDensity(k: Keyword, sorted: seq<Keyword>): (r: seq<Keyword>)
    ensures multiset(r) == multiset(sorted) + multiset{k}
    ensures |r| == |sorted| + 1
  {
    if sorted == [] || k.density >= sorted[0].density then
      [k] + sorted
    else
      assert sorted == [sorted[0]] + sorted[1..];
      [sorted[0]] + InsertByDensity(k, sorted[1..])
  }

  /** No entry of `s` is denser than `d`. */
  predicate AtMost(s: seq<Keyword>, d: real)
  {
    forall i :: 0 <= i < |s| ==> s[i].density <= d
  }

  lemma {:induction false} InsertAtMost(k: Keyword, sorted: seq<Keyword>, d: real)
    requires AtMost(sorted, d) && k.density <= d
    ensures AtMost(InsertByDensity(k, sorted), d)
  {
    if sorted != [] && k.density < sorted[0].density {
      InsertAtMost(k, sorted[1..], d);
    }
  }

  lemma {:induction false} InsertKeepsOrder(k: Keyword, sorted: seq<Keyword>)
    requires NonIncreasing(sorted)
    ensures NonIncreasing(InsertByDensity(k, sorted))
  {
    if sorted != [] && k.density < sorted[0].density {
      var rest := InsertByDensity(k, sorted[1..]);
      InsertKeepsOrder(k, sorted[1..]);
      InsertAtMost(k, sorted[1..], sorted[0].density);
      ConsKeepsOrder(sorted[0], rest);
    }
  }

  /** A sorted list stays sorted under a head at least as dense as its
      entries. */
  lemma ConsKeepsOrder(k: Keyword, rest: seq<Keyword>)
    requires NonIncreasing(rest) && AtMost(rest, k.density)
    ensures NonIncreasing([k] + rest)
  {
    var r := [k] + rest;
    forall i, j | 0 <= i < j < |r| ensures r[i].density >= r[j].density {
      assert r[j] == rest[j - 1];
      if i > 0 { assert r[i] == rest[i - 1]; }
    }
  }

  /** `entries.sort((a, b) => b.density - a.density)`: densest first; entries
      of equal density keep their relative order, because the sort is stable. */
  function SortByDensity(entries: seq<Keyword>): (r: seq<Keyword>)
    ensures multiset(r) == multiset(entries)
    ensures |r| == |entries|
    ensures NonIncreasing(r)
  {
    if entries == [] then []
    else
      assert entries == [entries[0]] + entries[1..];
      InsertKeepsOrder(entries[0], SortByDensity(entries[1..]));
      InsertByDensity(entries[0], SortByDensity(entries[1..]))
  }

  /** `slice(0, 5)` */
  function TopFive(s: seq<Keyword>): (r: seq<Keyword>)
    ensures r <= s
    ensures |r| == if |s| < 5 then |s| else 5
  {
    if |s| <= 5 then s else s[..5]
  }

  /** The keywords the analysis reports for the counted words `words`. */
  function TopKeywords(words: seq<string>): seq<Keyword>
  {
    TopFive(SortByDensity(Entries(words)))
  }

  /** `frequency` counts every word of `seen`, and `keys` lists its keys in
      the order they were first added. */
  ghost predicate Counted(seen: seq<string>, frequency: map<string, nat>, keys: seq<string>)
  {
    && keys == Dedup(seen)
    && (forall w :: w in frequency <==> w in seen)
    && (forall w :: w in frequency ==> frequency[w] == Occurrences(seen, w))
  }

  /** `words.forEach(word => wordFrequency[word] = (wordFrequency[word] || 0) + 1)`,
      with the keys of the table in insertion order beside it. */
  method CountWords(words: seq<string>) returns (frequency: map<string, nat>, keys: seq<string>)
    ensures Counted(words, frequency, keys)
  {
    frequency, keys := map[], [];
    for i := 0 to |words|
      invariant Counted(words[..i], frequency, keys)
    {
      var w := words[i];
      var count := (if w in frequency then frequency[w] else 0) + 1;
      // A key joins the table's key order when it is first set.
      var keys' := if w in frequency then keys else keys + [w];
      assert words[..i + 1] == words[..i] + [w];
      CountNext(words[..i], w, words[..i + 1], frequency, keys, count, keys');
      keys := keys';
      frequency := frequency[w := count];
    }
    assert words[..|words|] == words;
  }

  lemma CountNext(seen: seq<string>, w: string, next: seq<string>, frequency: map<string, nat>, keys: seq<string>,
                  count: nat, keys': seq<string>)
    requires next == seen + [w] && Counted(seen, frequency, keys)
    requires count == (if w in frequency then frequency[w] else 0) + 1
    requires keys' == if w in frequency then keys else keys + [w]
    ensures Counted(next, frequency[w := count], keys')
  {
    KeysNext(seen, w, frequency, keys, next);
    DomainNext(seen, w, frequency, count, next);
    CountsNext(seen, w, frequency, count, next);
  }

  lemma KeysNext(seen: seq<string>, w: string, frequency: map<string, nat>, keys: seq<string>, next: seq<string>)
    requires next == seen + [w] && keys == Dedup(seen)
    requires forall x :: x in frequency <==> x in seen
    ensures (if w in frequency then keys else keys + [w]) == Dedup(next)
  {
    DedupSnoc(seen, w);
  }

  lemma DomainNext(seen: seq<string>, w: string, frequency: map<string, nat>, v: nat, next: seq<string>)
    requires next == seen + [w]
    requires forall x :: x in frequency <==> x in seen
    ensures forall x :: x in frequency[w := v] <==> x in next
  {
  }

  lemma CountsNext(seen: seq<string>, w: string, frequency: map<string, nat>, count: nat, next: seq<string>)
    requires next == seen + [w]
    requires forall x :: x in frequency <==> x in seen
    requires forall x :: x in frequency ==> frequency[x] == Occurrences(seen, x)
    requires count == (if w in frequency then frequency[w] else 0) + 1
    ensures forall x :: x in frequency[w := count] ==> frequency[w := count][x] == Occurrences(next, x)
  {
    assert multiset(next) == multiset(seen) + multiset{w};
  }

  /** `Object.entries(wordFrequency).map(...)`: the table's entries in key
      order, each with its density. */
  function TableEntries(frequency: map<string, nat>, keys: seq<string>, wordCount: nat): seq<Keyword>
    requires forall w :: w in keys ==> w in frequency
    requires wordCount > 0
  {
    if keys == [] then []
    else
      var w := keys[|keys| - 1];
      TableEntries(frequency, keys[..|keys| - 1], wordCount)
      + [Keyword(w, frequency[w] as real / wordCount as real * 100.0)]
  }

  lemma {:induction false} TableEntriesOfCount(words: seq<string>, frequency: map<string, nat>, keys: seq<string>)
    requires forall w :: w in keys ==> w in frequency
    requires forall w :: w in frequency ==> frequency[w] == Occurrences(words, w)
    ensures TableEntries(frequency, keys, if |words| == 0 then 1 else |words|) == EntriesOf(words, keys)
  {
    if keys != [] {
      var init, w := keys[..|keys| - 1], keys[|keys| - 1];
      assert forall x :: x in init ==> x in keys;
      TableEntriesOfCount(words, frequency, init);
      TableEntryOfCount(words, w, frequency[w]);
    }
  }

  lemma TableEntryOfCount(words: seq<string>, w: string, count: nat)
    requires count == Occurrences(words, w)
    ensures Keyword(w, count as real / (if |words| == 0 then 1 else |words|) as real * 100.0) == EntryOf(words, w)
  {
  }

  /** Counts the words of the body text into a frequency table, turns the
      table into entries with densities, sorts them and keeps the first five. */
  method ExtractKeywords(text: string) returns (keywords: seq<Keyword>)
    ensures keywords == TopKeywords(Tokens(text))
  {
    var words := Tokens(text);
    var wordCount := if |words| == 0 then 1 else |words|;
    var frequency, keys := CountWords(words);
    // `Object.entries` lists the keys in the order `ObjectKeyOrder` gives.
    var order := ObjectKeyOrder(keys);
    assert order == TableOrder(words);
    TableEntriesOfCount(words, frequency, order);
    keywords := TopFive(SortByDensity(TableEntries(frequency, order, wordCount)));
  }

  // ----- Properties of the reported keywords

  /** Every entry of the table is the entry of one of the counted words. */
  lemma EntriesAreWordEntries(words: seq<string>, k: Keyword)
    requires k in Entries(words)
    ensures k.word in words && k == EntryOf(words, k.word)
  {
    var i :| 0 <= i < |Entries(words)| && Entries(words)[i] == k;
    assert TableOrder(words)[i] in TableOrder(words);
  }

  /** The report holds the five densest distinct words (all of them when
      there are fewer), densest first, each with its share of the counted
      words in percent. */
  lemma TopKeywordsShape(words: seq<string>)
    ensures var r := TopKeywords(words);
      && |r| == (if |Dedup(words)| < 5 then |Dedup(words)| else 5)
      && NonIncreasing(r)
      && forall k :: k in r ==> k.word in words && k == EntryOf(words, k.word)
  {
    var sorted := SortByDensity(Entries(words));
    var r := TopKeywords(words);
    assert NonIncreasing(r) by {
      assert forall i :: 0 <= i < |r| ==> r[i] == sorted[i];
    }
    forall k | k in r ensures k.word in words && k == EntryOf(words, k.word) {
      assert k in multiset(sorted);
      EntriesAreWordEntries(words, k);
    }
  }

  /** Every counted word has its entry in the table. */
  lemma WordHasEntry(words: seq<string>, w: string)
    requires w in words
    ensures EntryOf(words, w) in Entries(words)
  {
    var order := TableOrder(words);
    var i :| 0 <= i < |order| && order[i] == w;
    assert Entries(words)[i] == EntryOf(words, w);
  }

  /** A counted word left out of the report is no denser than any reported
      keyword. */
  lemma TopKeywordsAreDensest(words: seq<string>, w: string)
    requires w in words
    requires forall k :: k in TopKeywords(words) ==> k.word != w
    ensures forall k :: k in TopKeywords(words) ==> EntryOf(words, w).density <= k.density
  {
    var entries := Entries(words);
    WordHasEntry(words, w);
    LeftOutNoDenser(entries, SortByDensity(entries), TopKeywords(words), EntryOf(words, w));
  }

  /** An entry of a sorted list that its first five leave out is no denser
      than any of them. */
  lemma LeftOutNoDenser(entries: seq<Keyword>, sorted: seq<Keyword>, r: seq<Keyword>, e: Keyword)
    requires sorted == SortByDensity(entries) && r == TopFive(sorted)
    requires e in entries && forall k :: k in r ==> k.word != e.word
    ensures forall k :: k in r ==> e.density <= k.density
  {
    assert e in multiset(sorted);
    var j :| 0 <= j < |sorted| && sorted[j] == e;
    assert j >= |r|;
    forall k | k in r ensures e.density <= k.density {
      var m :| 0 <= m < |r| && r[m] == k;
      assert sorted[m] == k;
    }
  }

  /** With at most five distinct counted words every one of them is
      reported. */
  lemma FewWordsAllReported(words: seq<string>, w: string)
    requires |Dedup(words)| <= 5 && w in words
    ensures EntryOf(words, w) in TopKeywords(words)
  {
    var sorted := SortByDensity(Entries(words));
    WordHasEntry(words, w);
    assert EntryOf(words, w) in multiset(sorted);
    assert |sorted| <= 5;
    assert TopKeywords(words) == sorted;
  }

  /** A density above 5% is a word counted more than once per twenty counted
      words; one below 0.5% is counted less than once per two hundred. */
  lemma DensityThresholds(count: nat, total: nat)
    ensures var wordCount := if total == 0 then 1 else total;
      && (Density(count, total) > 5.0 <==> 20 * count > wordCount)
      && (Density(count, total) < 0.5 <==> 200 * count < wordCount)
  {
    var wordCount: nat := if total == 0 then 1 else total;
    var c, n := count as real, wordCount as real;
    assert Density(count, total) == c * 100.0 / n;
    DivBelow(c * 100.0, n, 5.0);
    DivBelow(c * 100.0, n, 0.5);
  }

  lemma DivBelow(x: real, n: real, t: real)
    requires n > 0.0
    ensures x / n > t <==> x > t * n
    ensures x / n < t <==> x < t * n
  {
    assert (x / n) * n == x;
    if x / n > t { assert (x / n) * n > t * n; }
    if x / n < t { assert (x / n) * n < t * n; }
    if x > t * n { assert x / n > t; }
    if x < t * n { assert x / n < t; }
  }

  /** The reported keywords name different words. */
  lemma ReportedWordsDistinct(words: seq<string>)
    ensures var r := TopKeywords(words);
      forall i, j :: 0 <= i < j < |r| ==> r[i].word != r[j].word
  {
    var entries := Entries(words);
    var sorted := SortByDensity(entries);
    var r := TopKeywords(words);
    assert Distinct(entries) by {
      forall i, j | 0 <= i < j < |entries| ensures entries[i] != entries[j] {
        assert entries[i].word == TableOrder(words)[i] && entries[j].word == TableOrder(words)[j];
      }
    }
    PermutationDistinct(entries, sorted);
    TopKeywordsShape(words);
    forall i, j | 0 <= i < j < |r| ensures r[i].word != r[j].word {
      assert r[i] == sorted[i] && r[j] == sorted[j];
      assert r[i] in r && r[j] in r;
    }
  }

  /** The sum of the densities, in list order. */
  function DensitySum(s: seq<Keyword>): real
  {
    if s == [] then 0.0 else DensitySum(s[..|s| - 1]) + s[|s| - 1].density
  }

  /** The number of occurrences in `words` of the words in `order`. */
  function CountSum(words: seq<string>, order: seq<string>): nat
  {
    if order == [] then 0
    else CountSum(words, order[..|order| - 1]) + Occurrences(words, order[|order| - 1])
  }

  lemma DensityAdd(a: nat, b: nat, total: nat)
    ensures Density(a + b, total) == Density(a, total) + Density(b, total)
  {
    var n: real := if total == 0 then 1.0 else total as real;
    assert (a + b) as real / n == a as real / n + b as real / n;
  }

  lemma {:induction false} DensitySumOfEntries(words: seq<string>, order: seq<string>)
    ensures DensitySum(EntriesOf(words, order)) == Density(CountSum(words, order), |words|)
  {
    if order != [] {
      var init := order[..|order| - 1];
      assert EntriesOf(words, order)[..|order| - 1] == EntriesOf(words, init);
      DensitySumOfEntries(words, init);
      DensityAdd(CountSum(words, init), Occurrences(words, order[|order| - 1]), |words|);
    }
  }

  lemma {:induction false} CountSumSnoc(words: seq<string>, x: string, order: seq<string>)
    ensures CountSum(words + [x], order) == CountSum(words, order) + multiset(order)[x]
  {
    if order != [] {
      var init := order[..|order| - 1];
      assert order == init + [order[|order| - 1]];
      CountSumSnoc(words, x, init);
      assert multiset(words + [x]) == multiset(words) + multiset{x};
    }
  }

  /** Every counted word is counted once by the table. */
  lemma {:induction false} CountSumOfDedup(words: seq<string>)
    ensures CountSum(words, Dedup(words)) == |words|
  {
    if words != [] {
      var init, x := words[..|words| - 1], words[|words| - 1];
      assert words == init + [x];
      CountSumOfDedup(init);
      CountSumSnoc(init, x, Dedup(init));
      DedupSnoc(init, x);
      if x in Dedup(init) {
        DistinctAtMostOnce(Dedup(init), x);
      } else {
        NewWordCounted(init, x);
      }
    }
  }

  lemma {:induction false} CountSumAppend(words: seq<string>, a: seq<string>, b: seq<string>)
    ensures CountSum(words, a + b) == CountSum(words, a) + CountSum(words, b)
  {
    if b != [] {
      var init := b[..|b| - 1];
      assert (a + b)[..|a + b| - 1] == a + init;
      CountSumAppend(words, a, init);
    } else {
      assert a + b == a;
    }
  }

  /** Splits `b` around an occurrence of `x`. */
  lemma SplitAround(b: seq<string>, x: string) returns (pre: seq<string>, post: seq<string>)
    requires x in multiset(b)
    ensures b == pre + [x] + post
  {
    var i :| 0 <= i < |b| && b[i] == x;
    pre, post := b[..i], b[i + 1..];
    assert b == pre + [x] + post;
  }

  /** Taking one `x` out of two reorderings leaves reorderings. */
  lemma RemovedPermutation(init: seq<string>, x: string, pre: seq<string>, post: seq<string>,
                           a: seq<string>, b: seq<string>)
    requires a == init + [x] && b == pre + [x] + post && multiset(a) == multiset(b)
    ensures multiset(init) == multiset(pre + post)
  {
    assert multiset(b) == multiset(pre + post) + multiset{x};
    assert multiset(a) == multiset(init) + multiset{x};
    forall y ensures multiset(init)[y] == multiset(pre + post)[y] {
      assert multiset(a)[y] == multiset(init)[y] + multiset{x}[y];
      assert multiset(b)[y] == multiset(pre + post)[y] + multiset{x}[y];
    }
  }

  /** Reordering the words counted does not change the sum. */
  lemma {:induction false} CountSumPermutation(words: seq<string>, a: seq<string>, b: seq<string>)
    requires multiset(a) == multiset(b)
    ensures CountSum(words, a) == CountSum(words, b)
    decreases |a|
  {
    if a != [] {
      var init, x := a[..|a| - 1], a[|a| - 1];
      assert a == init + [x];
      var pre, post := SplitAround(b, x);
      RemovedPermutation(init, x, pre, post, a, b);
      CountSumPermutation(words, init, pre + post);
      CountSumAppend(words, pre, post);
      CountSumAppend(words, pre + [x], post);
      CountSumAppend(words, pre, [x]);
      assert [x][..0] == [];
    }
  }

  /** A word new to `init` adds its single occurrence in `init + [x]`. */
  lemma NewWordCounted(init: seq<string>, x: string)
    requires x !in Dedup(init)
    ensures CountSum(init + [x], Dedup(init) + [x])
      == CountSum(init + [x], Dedup(init)) + 1
  {
    var keys := Dedup(init);
    assert (keys + [x])[..|keys|] == keys;
    assert multiset(init + [x]) == multiset(init) + multiset{x};
    assert x !in init;
  }

  /** The densities of all table entries add up to 100% when any word was
      counted. */
  lemma DensitiesSumToHundred(words: seq<string>)
    requires words != []
    ensures DensitySum(Entries(words)) == 100.0
  {
    DensitySumOfEntries(words, TableOrder(words));
    CountSumPermutation(words, Dedup(words), TableOrder(words));
    CountSumOfDedup(words);
    WholeDensity(|words|);
  }

  lemma WholeDensity(n: nat)
    requires n > 0
    ensures Density(n, n) == 100.0
  {
    assert n as real / n as real == 1.0;
  }

  /** Entries of equal density stay in table order through the stable sort. */
  lemma {:induction false} SameDensityKeepsOrder(entries: seq<Keyword>, d: real)
    requires forall i :: 0 <= i < |entries| ==> entries[i].density == d
    ensures SortByDensity(entries) == entries
  {
    if entries != [] {
      SameDensityKeepsOrder(entries[1..], d);
      assert entries == [entries[0]] + entries[1..];
    }
  }

  /** When every counted word occurs once, all densities tie and the report
      is the first five words in the table's key order. */
  lemma TiesReportedInTableOrder(words: seq<string>)
    requires Distinct(words)
    ensures TopKeywords(words) == TopFive(Entries(words))
  {
    var entries := Entries(words);
    forall i | 0 <= i < |entries| ensures entries[i].density == Density(1, |words|) {
      var w := TableOrder(words)[i];
      assert w in TableOrder(words);
      DistinctAtMostOnce(words, w);
    }
    SameDensityKeepsOrder(entries, Density(1, |words|));
  }

  /** Words counted once each, a numeral key added last: the report starts
      with the numeral and then follows the text order. */
  lemma IndexWordReportedFirst(named: seq<string>, k: string, words: seq<string>, top: seq<string>)
    requires words == named + [k] && Distinct(words)
    requires forall x :: x in named ==> IsNamedKey(x)
    requires IsArrayIndex(k) && |named| >= 4
    requires top == ([k] + named)[..5]
    ensures TopKeywords(words) == EntriesOf(words, top)
  {
    DedupOfDistinct(words);
    IndexKeyBeforeNamed(named, k);
    assert TableOrder(words) == [k] + named;
    TiesReportedInTableOrder(words);
    ReportIsPrefix(words, TableOrder(words), top);
  }

  lemma ReportIsPrefix(words: seq<string>, order: seq<string>, top: seq<string>)
    requires order == TableOrder(words) && |order| >= 5 && top == order[..5]
    requires TopKeywords(words) == TopFive(Entries(words))
    ensures TopKeywords(words) == EntriesOf(words, top)
  {
    EntriesPrefix(words, order, 5);
  }

  /** The first `n` entries are the entries of the first `n` keys. */
  lemma EntriesPrefix(words: seq<string>, order: seq<string>, n: nat)
    requires n <= |order|
    ensures EntriesOf(words, order)[..n] == EntriesOf(words, order[..n])
  {
  }

  /** Among six words counted once each, "2024" is reported first and the
      fifth word in text order, "echoo", is not reported: the table lists
      the numeral key before the others. */
  lemma NumeralWordReportedFirst()
    ensures var words := ["alpha", "bravo", "charlie", "delta", "echoo", "2024"];
      TopKeywords(words) == EntriesOf(words, ["2024", "alpha", "bravo", "charlie", "delta"])
  {
    var named := ["alpha", "bravo", "charlie", "delta", "echoo"];
    SixWords(named);
    YearIsIndex();
    forall x | x in named ensures IsNamedKey(x) {
      LetterKeyIsNamed(x);
    }
    IndexWordReportedFirst(named, "2024", ["alpha", "bravo", "charlie", "delta", "echoo", "2024"],
                           ["2024", "alpha", "bravo", "charlie", "delta"]);
  }

  lemma SixWords(named: seq<string>)
    requires named == ["alpha", "bravo", "charlie", "delta", "echoo"]
    ensures ["alpha", "bravo", "charlie", "delta", "echoo", "2024"] == named + ["2024"]
    ensures Distinct(named + ["2024"])
    ensures (["2024"] + named)[..5] == ["2024", "alpha", "bravo", "charlie", "delta"]
  {
  }
}
