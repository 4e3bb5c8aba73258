/** The word table of the keyword extraction as the code fills it: a plain
    JavaScript object, which inherits keys from `Object.prototype`. The rest
    of the model counts in a clean table; this module records where the two
    differ. */
module SeoObjectTable {
  import opened Options
  import opened Strings
  import opened Ordered
  import opened SeoScores
  import opened SeoKeywords
  import opened ObjectKeys

  /** Two of the keys a plain object inherits from `Object.prototype` are
      lower-case word characters, so a counted word can hit them. Reading
      `"__proto__"` gives the prototype, an object, so `|| 0` keeps it and
      `+ 1` makes a string; assigning a string to `__proto__` is ignored, so
      the prototype stays as it was and the word never gets an entry.
      Reading `"constructor"` gives the `Object` function, which `|| 0`
      keeps, so `+ 1` makes the count a string and its density NaN. */
  const ProtoKey := "__proto__"
  const ConstructorKey := "constructor"

  /** A key the counting loop leaves in the object as an entry of its own. */
  predicate IsOwnKey(w: string)
  {
    w != ProtoKey
  }

  /** An entry of the object's table: the word and its density, none for NaN. */
  datatype ObjectEntry = ObjectEntry(word: string, density: Option<real>)

  function ObjectEntryOf(words: seq<string>, w: string): ObjectEntry
  {
    ObjectEntry(w, if w == ConstructorKey then None else Some(EntryOf(words, w).density))
  }

  /** The entries, before the sort, of the table as the counting loop fills
      a plain object: "__proto__" has none, "constructor" has a NaN density,
      and every other counted word has its entry of the clean table. */
  function ObjectEntries(words: seq<string>): (r: seq<ObjectEntry>)
    ensures forall e <- r :: e.word != ProtoKey && e.word in words
    ensures forall e <- r :: e.density.None? <==> e.word == ConstructorKey
    ensures forall e <- r :: e.density.Some? ==> e.density.value == EntryOf(words, e.word).density
    ensures forall w :: w in words && w != ProtoKey ==> ObjectEntryOf(words, w) in r
  {
    var order := TableOrder(words);
    var keys := Filter(order, IsOwnKey);
    var r := Map(keys, w => ObjectEntryOf(words, w));
    OwnEntries(words, order, keys, r);
    r
  }

  lemma OwnEntries(words: seq<string>, order: seq<string>, keys: seq<string>, r: seq<ObjectEntry>)
    requires forall w :: w in order <==> w in words
    requires forall w :: w in keys <==> w in order && IsOwnKey(w)
    requires |r| == |keys| && forall i :: 0 <= i < |r| ==> r[i] == ObjectEntryOf(words, keys[i])
    ensures forall e <- r :: e.word != ProtoKey && e.word in words
    ensures forall e <- r :: e.density.None? <==> e.word == ConstructorKey
    ensures forall e <- r :: e.density.Some? ==> e.density.value == EntryOf(words, e.word).density
    ensures forall w :: w in words && w != ProtoKey ==> ObjectEntryOf(words, w) in r
  {
    forall e | e in r ensures e.word in keys && e == ObjectEntryOf(words, e.word) {
      var i :| 0 <= i < |r| && r[i] == e;
      assert keys[i] in keys;
    }
    forall w | w in words && w != ProtoKey ensures ObjectEntryOf(words, w) in r {
      assert w in keys;
      var i :| 0 <= i < |keys| && keys[i] == w;
      assert r[i] == ObjectEntryOf(words, w);
    }
  }

  lemma ObjectEntriesOfKeys(words: seq<string>, keys: seq<string>)
    requires Filter(TableOrder(words), IsOwnKey) == keys
    ensures |ObjectEntries(words)| == |keys|
    ensures forall i :: 0 <= i < |keys| ==> ObjectEntries(words)[i] == ObjectEntryOf(words, keys[i])
  {
  }

  /** For the words "__proto__ apple" the object's table has "apple" alone,
      at 50%, where the clean table has both words at 50% each. */
  lemma ProtoWordDropped()
    ensures ObjectEntries(["__proto__", "apple"]) == [ObjectEntry("apple", Some(50.0))]
    ensures Entries(["__proto__", "apple"]) == [Keyword("__proto__", 50.0), Keyword("apple", 50.0)]
  {
    var words := ["__proto__", "apple"];
    DedupOfPair("__proto__", "apple");
    LetterKeyIsNamed("__proto__");
    LetterKeyIsNamed("apple");
    assert Filter(words, IsOwnKey) == ["apple"] by {
      assert words[1..] == ["apple"] && words[1..][1..] == [];
    }
    NamedTables(words, words, ["apple"]);
    EntriesOfPair(words, "__proto__", "apple");
    ObjectEntriesOfOne(words, "apple");
    CountsOfPair("__proto__", "apple");
    HalfDensity();
  }

  /** Without numeral words both tables follow the insertion order. */
  lemma NamedTables(words: seq<string>, keys: seq<string>, own: seq<string>)
    requires Dedup(words) == keys && forall x :: x in words ==> IsNamedKey(x)
    requires Filter(keys, IsOwnKey) == own
    ensures Entries(words) == EntriesOf(words, keys)
    ensures |ObjectEntries(words)| == |own|
    ensures forall i :: 0 <= i < |own| ==> ObjectEntries(words)[i] == ObjectEntryOf(words, own[i])
  {
    NamedTableOrder(words, keys);
    ObjectEntriesOfKeys(words, own);
  }

  lemma EntriesOfPair(words: seq<string>, a: string, b: string)
    ensures EntriesOf(words, [a, b]) == [EntryOf(words, a), EntryOf(words, b)]
  {
  }

  lemma ObjectEntriesOfOne(words: seq<string>, a: string)
    requires |ObjectEntries(words)| == 1 && ObjectEntries(words)[0] == ObjectEntryOf(words, a)
    ensures ObjectEntries(words) == [ObjectEntryOf(words, a)]
  {
  }

  lemma ObjectEntriesOfPair(words: seq<string>, a: string, b: string)
    requires |ObjectEntries(words)| == 2
    requires ObjectEntries(words)[0] == ObjectEntryOf(words, a) && ObjectEntries(words)[1] == ObjectEntryOf(words, b)
    ensures ObjectEntries(words) == [ObjectEntryOf(words, a), ObjectEntryOf(words, b)]
  {
  }

  lemma CountsOfPair(a: string, b: string)
    requires a != b
    ensures Occurrences([a, b], a) == 1 && Occurrences([a, b], b) == 1
  {
  }

  lemma CountsOfRepeats(a: string, b: string)
    requires a != b
    ensures Occurrences([a, a, a, b], a) == 3 && Occurrences([a, a, a, b], b) == 1
  {
  }

  /** Without numeral words the table lists its keys in insertion order. */
  lemma NamedTableOrder(words: seq<string>, keys: seq<string>)
    requires Dedup(words) == keys && forall x :: x in words ==> IsNamedKey(x)
    ensures TableOrder(words) == keys
  {
    NamedKeysInInsertionOrder(keys);
  }

  lemma DedupOfPair(a: string, b: string)
    requires a != b
    ensures Dedup([a, b]) == [a, b]
  {
    assert [a, b][..1] == [a] && [a][..0] == [];
  }

  lemma HalfDensity()
    ensures Density(1, 2) == 50.0 && Density(3, 4) == 75.0 && Density(1, 4) == 25.0
  {
  }

  /** For the words "constructor constructor constructor apple" the object's
      table gives "constructor" a NaN density, which no keyword rule fires on,
      where the clean table gives it 75%. */
  lemma ConstructorDensityNaN()
    ensures ObjectEntries(["constructor", "constructor", "constructor", "apple"])
      == [ObjectEntry("constructor", None), ObjectEntry("apple", Some(25.0))]
    ensures Entries(["constructor", "constructor", "constructor", "apple"])
      == [Keyword("constructor", 75.0), Keyword("apple", 25.0)]
  {
    var words := ["constructor", "constructor", "constructor", "apple"];
    var keys := ["constructor", "apple"];
    DedupOfRepeats("constructor", "apple");
    LetterKeyIsNamed("constructor");
    LetterKeyIsNamed("apple");
    assert Filter(keys, IsOwnKey) == keys by {
      assert keys[1..] == ["apple"] && keys[1..][1..] == [];
    }
    NamedTables(words, keys, keys);
    EntriesOfPair(words, "constructor", "apple");
    ObjectEntriesOfPair(words, "constructor", "apple");
    CountsOfRepeats("constructor", "apple");
    HalfDensity();
  }

  lemma DedupOfRepeats(a: string, b: string)
    requires a != b
    ensures Dedup([a, a, a, b]) == [a, b]
  {
    DedupOne(a);
    DedupRepeat(a, [a]);
    assert [a] + [a] == [a, a];
    DedupRepeat(a, [a, a]);
    assert [a, a] + [a] == [a, a, a];
    DedupSnoc([a, a, a], b);
    assert [a, a, a] + [b] == [a, a, a, b];
  }

  lemma DedupOne(a: string)
    ensures Dedup([a]) == [a]
  {
    assert [a][..0] == [];
  }

  /** Repeating the only word adds nothing new. */
  lemma DedupRepeat(a: string, s: seq<string>)
    requires Dedup(s) == [a]
    ensures Dedup(s + [a]) == [a]
  {
    DedupSnoc(s, a);
  }
}
