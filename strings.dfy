/** Character classes and string operations with the meaning JavaScript gives
    them (`\s`, `\w`, `\d`, `includes`, `startsWith`, `split(/\s+/)`). */
module Strings {

  /** `\s` in a JavaScript regular expression: WhiteSpace and LineTerminator. */
  predicate IsSpace(c: char)
  {
    || c == ' ' || c == '\t' || c == '\n' || c == '\r' || c == '\U{000B}' || c == '\U{000C}'
    || c == '\U{00A0}' || c == '\U{1680}' || ('\U{2000}' <= c <= '\U{200A}')
    || c == '\U{2028}' || c == '\U{2029}' || c == '\U{202F}' || c == '\U{205F}'
    || c == '\U{3000}' || c == '\U{FEFF}'
  }

  /** `\d` */
  predicate IsDigit(c: char) { '0' <= c <= '9' }

  predicate IsUpper(c: char) { 'A' <= c <= 'Z' }

  predicate IsLower(c: char) { 'a' <= c <= 'z' }

  /** `[a-zA-Z0-9]` */
  predicate IsAlphanumeric(c: char) { IsUpper(c) || IsLower(c) || IsDigit(c) }

  /** `\w` */
  predicate IsWordChar(c: char) { IsAlphanumeric(c) || c == '_' }

  /** `/[a-zA-Z0-9]/.test(s)` */
  predicate HasAlphanumeric(s: string)
  {
    exists i :: 0 <= i < |s| && IsAlphanumeric(s[i])
  }

  /** `/\d+/g` finds a match in `s`. */
  predicate HasDigit(s: string)
  {
    exists i :: 0 <= i < |s| && IsDigit(s[i])
  }

  function LowerChar(c: char): char
  {
    if IsUpper(c) then (c as int + 32) as char else c
  }

  function UpperChar(c: char): char
  {
    if IsLower(c) then (c as int - 32) as char else c
  }

  /** `s.toLowerCase()`; it leaves `s` unchanged exactly when `s` has no
      upper-case letter. */
  function Lower(s: string): (r: string)
    ensures |r| == |s|
    ensures forall i :: 0 <= i < |s| ==> r[i] == LowerChar(s[i]) && !IsUpper(r[i])
    ensures r == s <==> forall i :: 0 <= i < |s| ==> !IsUpper(s[i])
  {
    var r := seq(|s|, i requires 0 <= i < |s| => LowerChar(s[i]));
    assert (forall i :: 0 <= i < |s| ==> !IsUpper(s[i])) ==> r == s;
    r
  }

  /** `s.toUpperCase()`; it leaves `s` unchanged exactly when `s` has no
      lower-case letter. */
  function Upper(s: string): (r: string)
    ensures |r| == |s|
    ensures forall i :: 0 <= i < |s| ==> r[i] == UpperChar(s[i]) && !IsLower(r[i])
    ensures r == s <==> forall i :: 0 <= i < |s| ==> !IsLower(s[i])
  {
    var r := seq(|s|, i requires 0 <= i < |s| => UpperChar(s[i]));
    assert (forall i :: 0 <= i < |s| ==> !IsLower(s[i])) ==> r == s;
    r
  }

  predicate OccursAt(s: string, sub: string, i: int)
  {
    0 <= i && i + |sub| <= |s| && s[i..i + |sub|] == sub
  }

  /** `s.includes(sub)` */
  predicate Contains(s: string, sub: string)
  {
    exists i :: 0 <= i <= |s| - |sub| && OccursAt(s, sub, i)
  }

  /** `value || fallback` on strings: an empty string is falsy. */
  function OrElse(value: string, fallback: string): string
  {
    if value != [] then value else fallback
  }

  /** `s.startsWith(prefix)` */
  predicate StartsWith(s: string, prefix: string)
  {
    |prefix| <= |s| && s[..|prefix|] == prefix
  }

  predicate EndsWith(s: string, suffix: string)
  {
    |suffix| <= |s| && s[|s| - |suffix|..] == suffix
  }

  lemma ContainsMiddle(a: string, b: string, c: string)
    ensures Contains(a + b + c, b)
  {
    assert (a + b + c)[|a|..|a| + |b|] == b;
    assert OccursAt(a + b + c, b, |a|);
  }

  predicate NoSpace(s: string)
  {
    forall i :: 0 <= i < |s| ==> !IsSpace(s[i])
  }

  predicate AllSpace(s: string)
  {
    forall i :: 0 <= i < |s| ==> IsSpace(s[i])
  }

  /** The characters of `s` that are not white space, in order. */
  function RemoveSpaces(s: string): (r: string)
    ensures NoSpace(r)
  {
    if s == [] then []
    else if IsSpace(s[0]) then RemoveSpaces(s[1..])
    else [s[0]] + RemoveSpaces(s[1..])
  }

  function Concat(pieces: seq<string>): string
  {
    if pieces == [] then [] else pieces[0] + Concat(pieces[1..])
  }

  /** `s.replace(/[^\w\s]/g, '')`: keep word characters and white space. */
  function KeepWordAndSpace(s: string): (r: string)
    ensures forall i :: 0 <= i < |r| ==> IsWordChar(r[i]) || IsSpace(r[i])
    ensures |r| <= |s|
  {
    if s == [] then []
    else if IsWordChar(s[0]) || IsSpace(s[0]) then [s[0]] + KeepWordAndSpace(s[1..])
    else KeepWordAndSpace(s[1..])
  }

  /** Drops leading white space. */
  function TrimStart(s: string): (r: string)
    ensures |r| <= |s| && r == s[|s| - |r|..]
    ensures r == [] || !IsSpace(r[0])
    ensures RemoveSpaces(r) == RemoveSpaces(s)
  {
    if s != [] && IsSpace(s[0]) then TrimStart(s[1..]) else s
  }

  /** `s.split(/\s+/)`: the pieces between maximal runs of white space. As in
      JavaScript, a leading or trailing run gives an empty first or last piece,
      and the empty string gives one empty piece. */
  function SplitOnSpace(s: string): (pieces: seq<string>)
    ensures |pieces| >= 1
    ensures forall k :: 0 <= k < |pieces| ==> NoSpace(pieces[k])
    ensures Concat(pieces) == RemoveSpaces(s)
  {
    SplitFromNoSpace(s, []);
    SplitFromConcat(s, []);
    SplitFrom(s, [])
  }

  /** The pieces with the separators between them: `pieces[0] + seps[0] +
      pieces[1] + ... + pieces[|pieces| - 1]`. */
  function Interleave(pieces: seq<string>, seps: seq<string>): string
    requires |pieces| == |seps| + 1
  {
    if seps == [] then pieces[0] else pieces[0] + seps[0] + Interleave(pieces[1..], seps[1..])
  }

  /** The pieces break exactly at runs of white space: with a non-empty
      white-space separator between each two pieces, they spell `s` again. */
  lemma SplitOnSpaceSeparators(s: string) returns (seps: seq<string>)
    ensures |SplitOnSpace(s)| == |seps| + 1
    ensures forall k :: 0 <= k < |seps| ==> seps[k] != [] && AllSpace(seps[k])
    ensures Interleave(SplitOnSpace(s), seps) == s
  {
    seps := SplitFromSeparators(s, []);
  }

  lemma {:induction false} SplitFromSeparators(s: string, piece: string) returns (seps: seq<string>)
    ensures |SplitFrom(s, piece)| == |seps| + 1
    ensures forall k :: 0 <= k < |seps| ==> seps[k] != [] && AllSpace(seps[k])
    ensures Interleave(SplitFrom(s, piece), seps) == piece + s
    decreases |s|
  {
    if s == [] {
      seps := [];
    } else if IsSpace(s[0]) {
      var more := SplitFromSeparators(TrimStart(s[1..]), []);
      SplitFromSpace(s, piece);
      var sep := SpaceRunOf(s);
      seps := SpaceSeparators(s, piece, sep, TrimStart(s[1..]), more);
    } else {
      seps := SplitFromSeparators(s[1..], piece + [s[0]]);
      NonSpaceSeparators(s, piece, seps);
    }
  }

  /** After a white-space character, the run up to the next piece is the
      separator. */
  lemma SpaceSeparators(s: string, piece: string, sep: string, t: string, more: seq<string>) returns (seps: seq<string>)
    requires sep != [] && AllSpace(sep) && s == sep + t
    requires SplitFrom(s, piece) == [piece] + SplitFrom(t, [])
    requires |SplitFrom(t, [])| == |more| + 1
    requires forall k :: 0 <= k < |more| ==> more[k] != [] && AllSpace(more[k])
    requires Interleave(SplitFrom(t, []), more) == t
    ensures |SplitFrom(s, piece)| == |seps| + 1
    ensures forall k :: 0 <= k < |seps| ==> seps[k] != [] && AllSpace(seps[k])
    ensures Interleave(SplitFrom(s, piece), seps) == piece + s
  {
    seps := [sep] + more;
    JoinSeparators(piece, SplitFrom(t, []), sep, more, t, s, SplitFrom(s, piece), seps);
  }

  lemma SplitFromSpace(s: string, piece: string)
    requires s != [] && IsSpace(s[0])
    ensures SplitFrom(s, piece) == [piece] + SplitFrom(TrimStart(s[1..]), [])
  {
  }

  /** A leading white-space character and the white space `TrimStart` drops
      after it form a non-empty run that `s` starts with. */
  lemma {:induction false} SpaceRunOf(s: string) returns (sep: string)
    requires s != [] && IsSpace(s[0])
    ensures sep != [] && AllSpace(sep) && s == sep + TrimStart(s[1..])
    decreases |s|
  {
    var tail := s[1..];
    assert s == [s[0]] + tail;
    if tail != [] && IsSpace(tail[0]) {
      var run := SpaceRunOf(tail);
      assert TrimStart(tail) == TrimStart(tail[1..]);
      AllSpaceCons(s[0], run);
      sep := [s[0]] + run;
      ConsJoin(s[0], tail, run, TrimStart(tail), s);
    } else {
      assert TrimStart(tail) == tail;
      AllSpaceCons(s[0], []);
      assert [s[0]] + [] == [s[0]];
      sep := [s[0]];
    }
  }

  lemma ConsJoin(c: char, tail: string, run: string, rest: string, s: string)
    requires s == [c] + tail && tail == run + rest
    ensures s == ([c] + run) + rest
  {
  }

  /** A piece, a white-space run and the interleaving of what follows spell
      the piece followed by the run and the rest. */
  lemma JoinSeparators(piece: string, rest: seq<string>, sep: string, more: seq<string>, t: string, s: string,
                       pieces: seq<string>, seps: seq<string>)
    requires pieces == [piece] + rest && seps == [sep] + more && |rest| == |more| + 1
    requires sep != [] && AllSpace(sep)
    requires forall k :: 0 <= k < |more| ==> more[k] != [] && AllSpace(more[k])
    requires Interleave(rest, more) == t && s == sep + t
    ensures |pieces| == |seps| + 1
    ensures forall k :: 0 <= k < |seps| ==> seps[k] != [] && AllSpace(seps[k])
    ensures Interleave(pieces, seps) == piece + s
  {
    InterleaveCons(piece, rest, sep, more);
    SpaceRunJoin(piece, sep, t, s);
    forall k | 0 <= k < |seps| ensures seps[k] != [] && AllSpace(seps[k]) {
      if k > 0 { assert seps[k] == more[k - 1]; }
    }
  }

  /** A character that is not white space extends the current piece. */
  lemma NonSpaceSeparators(s: string, piece: string, seps: seq<string>)
    requires s != [] && !IsSpace(s[0])
    requires |SplitFrom(s[1..], piece + [s[0]])| == |seps| + 1
    requires Interleave(SplitFrom(s[1..], piece + [s[0]]), seps) == (piece + [s[0]]) + s[1..]
    ensures |SplitFrom(s, piece)| == |seps| + 1
    ensures Interleave(SplitFrom(s, piece), seps) == piece + s
  {
    NonSpaceUnfold(s, piece);
    PieceSnocJoin(piece, s);
  }

  lemma PieceSnocJoin(piece: string, s: string)
    requires s != []
    ensures (piece + [s[0]]) + s[1..] == piece + s
  {
    assert s == [s[0]] + s[1..];
  }

  lemma AllSpaceCons(c: char, d: string)
    requires IsSpace(c) && AllSpace(d)
    ensures AllSpace([c] + d)
  {
    forall i | 1 <= i < |[c] + d| ensures ([c] + d)[i] == d[i - 1] { }
  }

  lemma InterleaveCons(piece: string, rest: seq<string>, sep: string, more: seq<string>)
    requires |rest| == |more| + 1
    ensures Interleave([piece] + rest, [sep] + more) == piece + sep + Interleave(rest, more)
  {
    assert ([piece] + rest)[1..] == rest && ([sep] + more)[1..] == more;
  }

  lemma SpaceRunJoin(piece: string, sep: string, t: string, s: string)
    requires s == sep + t
    ensures piece + sep + t == piece + s
  {
  }

  /** Splits `s`, where `piece` is the part of the current piece already read. */
  function SplitFrom(s: string, piece: string): (pieces: seq<string>)
    ensures |pieces| >= 1
    decreases |s|
  {
    if s == [] then [piece]
    else if IsSpace(s[0]) then [piece] + SplitFrom(TrimStart(s[1..]), [])
    else SplitFrom(s[1..], piece + [s[0]])
  }

  lemma {:induction false} SplitFromNoSpace(s: string, piece: string)
    requires NoSpace(piece)
    ensures forall k :: 0 <= k < |SplitFrom(s, piece)| ==> NoSpace(SplitFrom(s, piece)[k])
    decreases |s|
  {
    if s == [] {
    } else if IsSpace(s[0]) {
      var rest := SplitFrom(TrimStart(s[1..]), []);
      SplitFromNoSpace(TrimStart(s[1..]), []);
      PieceThenRest(piece, rest);
    } else {
      NoSpaceSnoc(piece, s[0]);
      SplitFromNoSpace(s[1..], piece + [s[0]]);
    }
  }

  lemma {:induction false} SplitFromConcat(s: string, piece: string)
    ensures Concat(SplitFrom(s, piece)) == piece + RemoveSpaces(s)
    decreases |s|
  {
    if s == [] {
      assert Concat([piece]) == piece + Concat([]);
    } else if IsSpace(s[0]) {
      SplitFromConcat(TrimStart(s[1..]), []);
      SpaceCase(s, piece);
    } else {
      SplitFromConcat(s[1..], piece + [s[0]]);
      NonSpaceCase(s, piece);
    }
  }

  lemma SpaceCase(s: string, piece: string)
    requires s != [] && IsSpace(s[0])
    requires Concat(SplitFrom(TrimStart(s[1..]), [])) == RemoveSpaces(TrimStart(s[1..]))
    ensures Concat(SplitFrom(s, piece)) == piece + RemoveSpaces(s)
  {
    var rest := SplitFrom(TrimStart(s[1..]), []);
    calc {
      Concat(SplitFrom(s, piece));
      Concat([piece] + rest);
      { ConcatCons(piece, rest); }
      piece + Concat(rest);
      piece + RemoveSpaces(TrimStart(s[1..]));
      piece + RemoveSpaces(s);
    }
  }

  lemma NonSpaceCase(s: string, piece: string)
    requires s != [] && !IsSpace(s[0])
    requires Concat(SplitFrom(s[1..], piece + [s[0]])) == (piece + [s[0]]) + RemoveSpaces(s[1..])
    ensures Concat(SplitFrom(s, piece)) == piece + RemoveSpaces(s)
  {
    NonSpaceUnfold(s, piece);
    Reassociate(piece, s[0], RemoveSpaces(s[1..]));
  }

  lemma NonSpaceUnfold(s: string, piece: string)
    requires s != [] && !IsSpace(s[0])
    ensures SplitFrom(s, piece) == SplitFrom(s[1..], piece + [s[0]])
    ensures RemoveSpaces(s) == [s[0]] + RemoveSpaces(s[1..])
  {
  }

  lemma Reassociate(x: string, c: char, y: string)
    ensures (x + [c]) + y == x + ([c] + y)
  {
  }

  lemma ConcatCons(piece: string, rest: seq<string>)
    ensures Concat([piece] + rest) == piece + Concat(rest)
  {
    assert ([piece] + rest)[1..] == rest;
  }

  lemma NoSpaceSnoc(piece: string, c: char)
    requires NoSpace(piece) && !IsSpace(c)
    ensures NoSpace(piece + [c])
  {
    var next := piece + [c];
    forall i | 0 <= i < |next| ensures !IsSpace(next[i]) {
      if i < |piece| { assert next[i] == piece[i]; }
    }
  }

  lemma PieceThenRest(piece: string, rest: seq<string>)
    requires NoSpace(piece)
    requires forall k :: 0 <= k < |rest| ==> NoSpace(rest[k])
    ensures forall k :: 0 <= k < |[piece] + rest| ==> NoSpace(([piece] + rest)[k])
  {
  }

  /** Keeps the elements of `s` that satisfy `keep`, in order. */
  function Filter(s: seq<string>, keep: string -> bool): (r: seq<string>)
    ensures |r| <= |s|
    ensures forall x :: x in r <==> x in s && keep(x)
  {
    if s == [] then [] else (if keep(s[0]) then [s[0]] else []) + Filter(s[1..], keep)
  }

  /** Filtering keeps every kept element as often as it occurs, and no other. */
  lemma {:induction false} FilterCounts(s: seq<string>, keep: string -> bool)
    ensures forall x :: multiset(Filter(s, keep))[x] == if keep(x) then multiset(s)[x] else 0
  {
    if s != [] {
      FilterCounts(s[1..], keep);
      assert s == [s[0]] + s[1..];
      assert multiset(s) == multiset{s[0]} + multiset(s[1..]);
      var head := if keep(s[0]) then [s[0]] else [];
      assert multiset(Filter(s, keep)) == multiset(head) + multiset(Filter(s[1..], keep));
    }
  }

  /** Filtering a concatenation filters each part. */
  lemma {:induction false} FilterAppend(a: seq<string>, b: seq<string>, keep: string -> bool)
    ensures Filter(a + b, keep) == Filter(a, keep) + Filter(b, keep)
  {
    if a != [] {
      assert (a + b)[1..] == a[1..] + b;
      FilterAppend(a[1..], b, keep);
    } else {
      assert a + b == b;
    }
  }

  /** A list whose every element is kept passes the filter whole. */
  lemma {:induction false} FilterAll(s: seq<string>, keep: string -> bool)
    requires forall x :: x in s ==> keep(x)
    ensures Filter(s, keep) == s
  {
    if s != [] {
      assert forall x :: x in s[1..] ==> x in s;
      FilterAll(s[1..], keep);
    }
  }

  /** A list none of whose elements is kept filters to nothing. */
  lemma FilterNone(s: seq<string>, keep: string -> bool)
    requires forall x :: x in s ==> !keep(x)
    ensures Filter(s, keep) == []
  {
    if Filter(s, keep) != [] {
      assert Filter(s, keep)[0] in Filter(s, keep);
    }
  }
}
