/** The order in which `Object.entries` lists the own string keys of a plain
    object (OrdinaryOwnPropertyKeys, section 10.1.11.1 of ECMA-262): first
    the keys that are array indices, in ascending numeric order, then every
    other key in the order it was added. */
module ObjectKeys {
  import opened Strings
  import opened Decimal

  /** The largest array index, 2^32 - 2. */
  const MaxArrayIndex: nat := 4294967294

  /** A key is an array index when it is the canonical numeral of a number
      up to 2^32 - 2: digits, without a leading zero unless it is "0". */
  predicate IsArrayIndex(k: string)
  {
    Numeral(k) && DigitsValue(k) <= MaxArrayIndex
  }

  /** A key that is not an array index keeps its insertion position. */
  predicate IsNamedKey(k: string)
  {
    !IsArrayIndex(k)
  }

  /** The number an array index key stands for; 0 for any other key. */
  function IndexValue(k: string): nat
  {
    if IsArrayIndex(k) then DigitsValue(k) else 0
  }

  predicate Ascending(s: seq<string>)
  {
    forall i, j :: 0 <= i < j < |s| ==> IndexValue(s[i]) <= IndexValue(s[j])
  }

  /** No key of `s` stands below `v`. */
  predicate AtLeast(s: seq<string>, v: nat)
  {
    forall i :: 0 <= i < |s| ==> IndexValue(s[i]) >= v
  }

  /** Inserts `k` before the first key that stands for a number at least as
      large. */
  function InsertIndex(k: string, sorted: seq<string>): (r: seq<string>)
    ensures multiset(r) == multiset(sorted) + multiset{k}
  {
    if sorted == [] || IndexValue(k) <= IndexValue(sorted[0]) then
      [k] + sorted
    else
      assert sorted == [sorted[0]] + sorted[1..];
      [sorted[0]] + InsertIndex(k, sorted[1..])
  }

  lemma {:induction false} InsertAtLeast(k: string, sorted: seq<string>, v: nat)
    requires AtLeast(sorted, v) && IndexValue(k) >= v
    ensures AtLeast(InsertIndex(k, sorted), v)
  {
    if sorted != [] && IndexValue(k) > IndexValue(sorted[0]) {
      InsertAtLeast(k, sorted[1..], v);
    }
  }

  lemma {:induction false} InsertKeepsAscending(k: string, sorted: seq<string>)
    requires Ascending(sorted)
    ensures Ascending(InsertIndex(k, sorted))
  {
    if sorted != [] && IndexValue(k) > IndexValue(sorted[0]) {
      var rest := InsertIndex(k, sorted[1..]);
      InsertKeepsAscending(k, sorted[1..]);
      InsertAtLeast(k, sorted[1..], IndexValue(sorted[0]));
      ConsAscending(sorted[0], rest);
    }
  }

  lemma ConsAscending(k: string, rest: seq<string>)
    requires Ascending(rest) && AtLeast(rest, IndexValue(k))
    ensures Ascending([k] + rest)
  {
    var r := [k] + rest;
    forall i, j | 0 <= i < j < |r| ensures IndexValue(r[i]) <= IndexValue(r[j]) {
      assert r[j] == rest[j - 1];
      if i > 0 { assert r[i] == rest[i - 1]; }
    }
  }

  /** The array index keys in ascending numeric order. */
  function SortIndexes(keys: seq<string>): (r: seq<string>)
    ensures multiset(r) == multiset(keys)
    ensures Ascending(r)
  {
    if keys == [] then []
    else
      assert keys == [keys[0]] + keys[1..];
      InsertKeepsAscending(keys[0], SortIndexes(keys[1..]));
      InsertIndex(keys[0], SortIndexes(keys[1..]))
  }

  /** The keys of an object whose keys were added in the order `keys`, as
      `Object.entries` lists them: the same keys, the array indices first and
      ascending, the others after them in the order they were added. */
  function ObjectKeyOrder(keys: seq<string>): (r: seq<string>)
    ensures multiset(r) == multiset(keys) && |r| == |keys|
    ensures forall i, j :: 0 <= i < j < |r| && IsArrayIndex(r[j]) ==>
      IsArrayIndex(r[i]) && DigitsValue(r[i]) <= DigitsValue(r[j])
    ensures Filter(r, IsNamedKey) == Filter(keys, IsNamedKey)
  {
    var indexes := SortIndexes(Filter(keys, IsArrayIndex));
    var named := Filter(keys, IsNamedKey);
    SortedIndexes(keys, indexes);
    KeyOrderCounts(keys, indexes, named, indexes + named);
    SameLength(indexes + named, keys);
    KeyOrderRanks(indexes, named, indexes + named);
    KeyOrderNamed(indexes, named, indexes + named);
    indexes + named
  }

  lemma SortedIndexes(keys: seq<string>, indexes: seq<string>)
    requires indexes == SortIndexes(Filter(keys, IsArrayIndex))
    ensures forall x :: x in indexes ==> IsArrayIndex(x)
  {
    forall x | x in indexes ensures IsArrayIndex(x) {
      assert x in multiset(Filter(keys, IsArrayIndex));
    }
  }

  lemma KeyOrderCounts(keys: seq<string>, indexes: seq<string>, named: seq<string>, r: seq<string>)
    requires indexes == SortIndexes(Filter(keys, IsArrayIndex)) && named == Filter(keys, IsNamedKey)
    requires r == indexes + named
    ensures multiset(r) == multiset(keys)
  {
    FilterCounts(keys, IsArrayIndex);
    FilterCounts(keys, IsNamedKey);
    assert forall x :: multiset(r)[x] == multiset(keys)[x];
  }

  lemma SameLength(a: seq<string>, b: seq<string>)
    requires multiset(a) == multiset(b)
    ensures |a| == |b|
  {
    assert |multiset(a)| == |multiset(b)|;
  }

  lemma KeyOrderRanks(indexes: seq<string>, named: seq<string>, r: seq<string>)
    requires Ascending(indexes) && forall x :: x in indexes ==> IsArrayIndex(x)
    requires forall x :: x in named ==> IsNamedKey(x)
    requires r == indexes + named
    ensures forall i, j :: 0 <= i < j < |r| && IsArrayIndex(r[j]) ==>
        IsArrayIndex(r[i]) && DigitsValue(r[i]) <= DigitsValue(r[j])
  {
    forall k | |indexes| <= k < |r| ensures IsNamedKey(r[k]) {
      assert r[k] in named;
    }
    forall i, j | 0 <= i < j < |r| && IsArrayIndex(r[j])
      ensures IsArrayIndex(r[i]) && DigitsValue(r[i]) <= DigitsValue(r[j])
    {
      assert r[i] == indexes[i] && r[j] == indexes[j];
      assert r[i] in indexes;
    }
  }

  lemma KeyOrderNamed(indexes: seq<string>, named: seq<string>, r: seq<string>)
    requires forall x :: x in indexes ==> IsArrayIndex(x)
    requires forall x :: x in named ==> IsNamedKey(x)
    requires r == indexes + named
    ensures Filter(r, IsNamedKey) == named
  {
    FilterAppend(indexes, named, IsNamedKey);
    FilterNone(indexes, IsNamedKey);
    FilterAll(named, IsNamedKey);
  }

  /** Without array index keys the listing is the insertion order. */
  lemma NamedKeysInInsertionOrder(keys: seq<string>)
    requires forall k :: k in keys ==> IsNamedKey(k)
    ensures ObjectKeyOrder(keys) == keys
  {
    FilterNone(keys, IsArrayIndex);
    FilterAll(keys, IsNamedKey);
  }

  /** A key that does not start with a digit keeps its insertion position. */
  lemma LetterKeyIsNamed(k: string)
    requires k != [] && !IsDigit(k[0])
    ensures IsNamedKey(k)
  {
  }

  /** A year such as "2024" is an array index key. */
  lemma YearIsIndex()
    ensures IsArrayIndex("2024") && DigitsValue("2024") == 2024
  {
    assert "2"[..0] == [];
    assert DigitsValue("2") == 2;
    assert "20"[..1] == "2";
    assert DigitsValue("20") == 20;
    assert "202"[..2] == "20";
    assert DigitsValue("202") == 202;
    assert "2024"[..3] == "202";
  }

  /** An array index key added after named keys is listed before them. */
  lemma IndexKeyBeforeNamed(named: seq<string>, k: string)
    requires forall x :: x in named ==> IsNamedKey(x)
    requires IsArrayIndex(k)
    ensures ObjectKeyOrder(named + [k]) == [k] + named
  {
    FilterAppend(named, [k], IsArrayIndex);
    FilterAppend(named, [k], IsNamedKey);
    FilterNone(named, IsArrayIndex);
    FilterAll([k], IsArrayIndex);
    FilterAll(named, IsNamedKey);
    FilterNone([k], IsNamedKey);
    assert named + [] == named;
    assert SortIndexes([k]) == [k];
  }

  /** An object filled with "alpha" and then "2024" lists "2024" first. */
  lemma IndexKeyListedFirst()
    ensures ObjectKeyOrder(["alpha", "2024"]) == ["2024", "alpha"]
  {
    YearIsIndex();
    LetterKeyIsNamed("alpha");
    PairOfKeys(["alpha"], "2024");
    IndexKeyBeforeNamed(["alpha"], "2024");
  }

  lemma PairOfKeys(named: seq<string>, k: string)
    requires named == ["alpha"] && k == "2024"
    ensures ["alpha", "2024"] == named + [k] && [k] + named == ["2024", "alpha"]
  {
  }
}
