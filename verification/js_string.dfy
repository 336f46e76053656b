/** JavaScript strings.

    A string is a sequence of UTF-16 code units, surrogates included. The order is the one that `<` and
    a default `Array.prototype.sort` use: the first differing code unit decides, and a proper prefix
    comes first.

    The module also has the stable sort on a key, the white space that `trim` removes, lower-casing of
    ASCII letters, and the key made of two strings sorted and joined. */
module JsString {

  newtype CodeUnit = u: int | 0 <= u < 0x1_0000

  type Str = seq<CodeUnit>

  /** A literal made of ASCII characters. */
  function Ascii(s: string): (r: Str)
    requires forall i :: 0 <= i < |s| ==> s[i] < 128 as char
    ensures |r| == |s| && forall i :: 0 <= i < |s| ==> r[i] == s[i] as CodeUnit
  {
    seq(|s|, i requires 0 <= i < |s| => s[i] as CodeUnit)
  }

  /** ASCII lower-casing, which is what `toLowerCase` does to addresses, denoms and coin ids. */
  function ToLower(s: Str): (r: Str)
    ensures |r| == |s|
  {
    seq(|s|, i requires 0 <= i < |s| => if 65 <= s[i] <= 90 then s[i] + 32 else s[i])
  }

  /** The white space that `trim` removes and `parseInt` skips. */
  predicate IsWhiteSpace(u: CodeUnit) {
    9 <= u <= 13 || u == 32 || u == 0xA0 || u == 0x1680 || 0x2000 <= u <= 0x200A ||
    u == 0x2028 || u == 0x2029 || u == 0x202F || u == 0x205F || u == 0x3000 || u == 0xFEFF
  }

  /** True when `s.trim()` is empty. */
  predicate IsBlank(s: Str) {
    forall i :: 0 <= i < |s| ==> IsWhiteSpace(s[i])
  }

  function TrimStart(s: Str): Str {
    if s != [] && IsWhiteSpace(s[0]) then TrimStart(s[1..]) else s
  }

  function TrimEnd(s: Str): Str {
    if s != [] && IsWhiteSpace(s[|s| - 1]) then TrimEnd(s[..|s| - 1]) else s
  }

  function Trim(s: Str): Str {
    TrimEnd(TrimStart(s))
  }

  lemma {:induction false} TrimEmpty(s: Str)
    ensures Trim(s) == [] <==> IsBlank(s)
  {
    TrimStartEmpty(s);
    if TrimStart(s) != [] {
      TrimEndNonEmpty(TrimStart(s));
    }
  }

  lemma {:induction false} TrimStartEmpty(s: Str)
    ensures TrimStart(s) == [] <==> IsBlank(s)
    ensures TrimStart(s) != [] ==> !IsWhiteSpace(TrimStart(s)[0])
  {
    if s != [] && IsWhiteSpace(s[0]) {
      TrimStartEmpty(s[1..]);
      assert s == [s[0]] + s[1..];
    }
  }

  lemma {:induction false} TrimEndNonEmpty(s: Str)
    requires s != [] && !IsWhiteSpace(s[0])
    ensures TrimEnd(s) != []
  {
    if IsWhiteSpace(s[|s| - 1]) {
      TrimEndNonEmpty(s[..|s| - 1]);
    }
  }

  // ----- the order on strings ----------------------------------------------

  /** `a < b`: the first differing code unit decides, a proper prefix comes first. */
  predicate Less(a: Str, b: Str) {
    b != [] && (a == [] || a[0] < b[0] || (a[0] == b[0] && Less(a[1..], b[1..])))
  }

  lemma {:induction false} LessTotal(a: Str, b: Str)
    ensures a == b || Less(a, b) || Less(b, a)
  {
    if a != [] && b != [] && a[0] == b[0] {
      LessTotal(a[1..], b[1..]);
      assert a == [a[0]] + a[1..] && b == [b[0]] + b[1..];
    }
  }

  lemma {:induction false} LessAsymmetric(a: Str, b: Str)
    requires Less(a, b)
    ensures a != b && !Less(b, a)
  {
    if a != [] && a[0] == b[0] {
      LessAsymmetric(a[1..], b[1..]);
    }
  }

  lemma {:induction false} LessTransitive(a: Str, b: Str, c: Str)
    requires Less(a, b) && Less(b, c)
    ensures Less(a, c)
  {
    if a != [] && a[0] == b[0] == c[0] {
      LessTransitive(a[1..], b[1..], c[1..]);
    }
  }

  /** At i, after a common prefix, either the first string ends or its code unit is the smaller one. */
  ghost predicate FirstSmallerAt(a: Str, b: Str, i: nat) {
    i < |b| && i <= |a| && a[..i] == b[..i] && (i == |a| || a[i] < b[i])
  }

  lemma LaterIsSame(a: Str, b: Str, i: nat)
    requires FirstSmallerAt(a, b, i)
    ensures i == 0 || (a != [] && b != [] && a[0] == b[0])
  {
    if i > 0 { assert a[..i][0] == b[..i][0]; }
  }

  /** The order without its recursion. */
  lemma {:induction false} LessIff(a: Str, b: Str)
    ensures Less(a, b) <==> exists i: nat :: FirstSmallerAt(a, b, i)
  {
    if b != [] && a != [] && a[0] == b[0] {
      LessIff(a[1..], b[1..]);
      assert a == [a[0]] + a[1..] && b == [b[0]] + b[1..];
      forall i: nat | FirstSmallerAt(a[1..], b[1..], i) ensures FirstSmallerAt(a, b, i + 1) {
        assert a[..i + 1] == [a[0]] + a[1..][..i] && b[..i + 1] == [b[0]] + b[1..][..i];
      }
      forall i: nat | FirstSmallerAt(a, b, i) ensures i > 0 && FirstSmallerAt(a[1..], b[1..], i - 1) {
        assert a[1..][..i - 1] == a[..i][1..] && b[1..][..i - 1] == b[..i][1..];
      }
    } else {
      forall i: nat | FirstSmallerAt(a, b, i) ensures FirstSmallerAt(a, b, 0) {
        LaterIsSame(a, b, i);
      }
      if Less(a, b) { assert FirstSmallerAt(a, b, 0); }
    }
  }

  const CAPITALS: Str := Ascii("ABCDEFGHIJKLMNOPQRSTUVWXYZ")

  const SMALL_LETTERS: Str := Ascii("abcdefghijklmnopqrstuvwxyz")

  /** Lower-casing puts each of the twenty-six capitals into lower case and leaves everything else. */
  lemma ToLowerMoves(s: Str, i: nat)
    requires i < |s|
    ensures s[i] !in CAPITALS ==> ToLower(s)[i] == s[i]
    ensures forall k :: 0 <= k < 26 && s[i] == CAPITALS[k] ==> ToLower(s)[i] == SMALL_LETTERS[k]
  {
    forall k | 0 <= k < 26 ensures CAPITALS[k] as int == 65 + k && SMALL_LETTERS[k] as int == 97 + k {
      LettersInRow(k);
    }
    if 65 <= s[i] <= 90 { assert CAPITALS[s[i] as int - 65] == s[i]; }
  }

  lemma LettersInRow(k: nat)
    requires k < 26
    ensures CAPITALS[k] as int == 65 + k && SMALL_LETTERS[k] as int == 97 + k
  {
    var capitals, small := "ABCDEFGHIJKLMNOPQRSTUVWXYZ", "abcdefghijklmnopqrstuvwxyz";
    assert CAPITALS[k] == capitals[k] as CodeUnit && SMALL_LETTERS[k] == small[k] as CodeUnit;
  }

  // ----- two strings as one unordered key ------------------------------------

  /** Two strings sorted and joined by a separator. */
  function JoinSorted(a: Str, b: Str, separator: CodeUnit): Str {
    if !Less(b, a) then a + [separator] + b else b + [separator] + a
  }

  lemma JoinSortedUnordered(a: Str, b: Str, separator: CodeUnit)
    ensures JoinSorted(a, b, separator) == JoinSorted(b, a, separator)
  {
    LessTotal(a, b);
    if Less(a, b) { LessAsymmetric(a, b); }
    if Less(b, a) { LessAsymmetric(b, a); }
  }

  lemma SplitAtSeparator(a: Str, b: Str, c: Str, d: Str, separator: CodeUnit)
    requires separator !in a && separator !in c && a + [separator] + b == c + [separator] + d
    ensures a == c && b == d
  {
    var s, t := a + [separator] + b, c + [separator] + d;
    assert s[|a|] == separator && t[|c|] == separator;
    assert forall i :: 0 <= i < |a| ==> s[i] == a[i] && a[i] in a;
    assert forall i :: 0 <= i < |c| ==> t[i] == c[i] && c[i] in c;
    assert |a| == |c|;
    assert s[..|a|] == a && t[..|c|] == c && s[|a| + 1..] == b && t[|c| + 1..] == d;
  }

  lemma AfterSeparator(a: Str, b: Str, separator: CodeUnit)
    requires separator !in b
    ensures var s := a + [separator] + b; s[|a|] == separator && forall i :: |a| < i < |s| ==> s[i] != separator
  {
    var s := a + [separator] + b;
    forall i | |a| < i < |s| ensures s[i] != separator {
      assert s[i] == b[i - |a| - 1];
    }
  }

  lemma SplitAtLastSeparator(a: Str, b: Str, c: Str, d: Str, separator: CodeUnit)
    requires separator !in b && separator !in d && a + [separator] + b == c + [separator] + d
    ensures a == c && b == d
  {
    var s := a + [separator] + b;
    AfterSeparator(a, b, separator);
    AfterSeparator(c, d, separator);
    assert |a| == |c|;
    assert s[..|a|] == a && s[..|c|] == c && s[|a| + 1..] == b && s[|c| + 1..] == d;
  }

  /** Without the separator inside them, two unordered pairs share a key exactly when they are the same. */
  lemma JoinSortedDecides(a: Str, b: Str, c: Str, d: Str, separator: CodeUnit)
    requires separator !in a && separator !in b && separator !in c && separator !in d
    ensures JoinSorted(a, b, separator) == JoinSorted(c, d, separator) <==> (a == c && b == d) || (a == d && b == c)
  {
    JoinSortedUnordered(a, b, separator);
    if JoinSorted(a, b, separator) == JoinSorted(c, d, separator) {
      var (x, y) := if !Less(b, a) then (a, b) else (b, a);
      var (z, w) := if !Less(d, c) then (c, d) else (d, c);
      SplitAtSeparator(x, y, z, w, separator);
    }
  }

  // ----- stable sort on a key ----------------------------------------------

  function Insert<V>(x: (Str, V), s: seq<(Str, V)>): seq<(Str, V)> {
    if s == [] || !Less(s[0].0, x.0) then [x] + s else [s[0]] + Insert(x, s[1..])
  }

  /** The stable ascending sort of entries on their string key. */
  function SortByKey<V>(s: seq<(Str, V)>): seq<(Str, V)> {
    if s == [] then [] else Insert(s[0], SortByKey(s[1..]))
  }

  ghost predicate SameMembers<V(!new)>(s: seq<V>, t: seq<V>) {
    forall e :: e in s <==> e in t
  }

  ghost predicate Ascending<V(!new)>(s: seq<(Str, V)>) {
    forall i, j :: 0 <= i < j < |s| ==> Less(s[i].0, s[j].0)
  }

  ghost predicate DistinctKeys<V(!new)>(s: seq<(Str, V)>) {
    forall i, j :: 0 <= i < j < |s| ==> s[i].0 != s[j].0
  }

  lemma {:induction false} InsertMembers<V(!new)>(x: (Str, V), s: seq<(Str, V)>)
    ensures |Insert(x, s)| == |s| + 1
    ensures multiset(Insert(x, s)) == multiset([x] + s)
    ensures forall e :: e in Insert(x, s) <==> e == x || e in s
  {
    if s != [] && Less(s[0].0, x.0) {
      InsertMembers(x, s[1..]);
      assert s == [s[0]] + s[1..];
      assert multiset([x] + s) == multiset{s[0]} + multiset([x] + s[1..]);
    }
  }

  lemma {:induction false} InsertAscending<V(!new)>(x: (Str, V), s: seq<(Str, V)>)
    requires Ascending(s)
    requires forall e :: e in s ==> e.0 != x.0
    ensures Ascending(Insert(x, s))
  {
    if s == [] {
    } else if !Less(s[0].0, x.0) {
      LessTotal(s[0].0, x.0);
      forall j | 0 <= j < |s| ensures Less(x.0, s[j].0) {
        if j > 0 { LessTransitive(x.0, s[0].0, s[j].0); }
      }
    } else {
      InsertAscending(x, s[1..]);
      InsertMembers(x, s[1..]);
      var t := Insert(x, s[1..]);
      forall j | 0 <= j < |t| ensures Less(s[0].0, t[j].0) {
        assert t[j] in t;
        if t[j] != x {
          assert t[j] in s[1..];
          var k :| 0 <= k < |s[1..]| && s[1..][k] == t[j];
          assert s[k + 1] == t[j];
        }
      }
    }
  }

  lemma {:induction false} SortByKeyMembers<V(!new)>(s: seq<(Str, V)>)
    ensures |SortByKey(s)| == |s|
    ensures multiset(SortByKey(s)) == multiset(s)
    ensures forall e :: e in SortByKey(s) <==> e in s
  {
    if s != [] {
      SortByKeyMembers(s[1..]);
      InsertMembers(s[0], SortByKey(s[1..]));
      assert s == [s[0]] + s[1..];
    }
  }

  lemma {:induction false} SortByKeyAscending<V(!new)>(s: seq<(Str, V)>)
    requires DistinctKeys(s)
    ensures Ascending(SortByKey(s))
  {
    if s != [] {
      SortByKeyAscending(s[1..]);
      SortByKeyMembers(s[1..]);
      forall e | e in SortByKey(s[1..]) ensures e.0 != s[0].0 {
        assert e in s[1..];
        var k :| 0 <= k < |s[1..]| && s[1..][k] == e;
        assert s[k + 1] == e;
      }
      InsertAscending(s[0], SortByKey(s[1..]));
    }
  }

  /** With distinct keys the sorted arrangement depends only on which entries there are. */
  lemma {:induction false} SortByKeyUnique<V(!new)>(s: seq<(Str, V)>, t: seq<(Str, V)>)
    requires DistinctKeys(s) && DistinctKeys(t) && SameMembers(s, t)
    ensures SortByKey(s) == SortByKey(t)
  {
    SortByKeyMembers(s);
    SortByKeyMembers(t);
    SortByKeyAscending(s);
    SortByKeyAscending(t);
    forall e ensures e in SortByKey(s) <==> e in SortByKey(t) {
      assert e in s <==> e in t;
    }
    AscendingUnique(SortByKey(s), SortByKey(t));
  }

  lemma {:induction false} AscendingUnique<V(!new)>(s: seq<(Str, V)>, t: seq<(Str, V)>)
    requires Ascending(s) && Ascending(t) && SameMembers(s, t)
    ensures s == t
  {
    assert s == [] <==> t == [] by {
      assert s != [] ==> s[0] in t;
      assert t != [] ==> t[0] in s;
    }
    if s != [] {
      AscendingHead(s, t);
      assert s == [s[0]] + s[1..] && t == [t[0]] + t[1..];
      forall e ensures e in s[1..] <==> e in t[1..] {
        AscendingTail(s, e);
        AscendingTail(t, e);
      }
      AscendingUnique(s[1..], t[1..]);
    }
  }

  lemma AscendingHead<V(!new)>(s: seq<(Str, V)>, t: seq<(Str, V)>)
    requires s != [] && t != [] && Ascending(s) && Ascending(t) && SameMembers(s, t)
    ensures s[0] == t[0]
  {
    assert s[0] in t && t[0] in s;
    var i :| 0 <= i < |t| && t[i] == s[0];
    var j :| 0 <= j < |s| && s[j] == t[0];
    if i > 0 && j > 0 { LessAsymmetric(s[0].0, t[0].0); }
  }

  lemma AscendingTail<V(!new)>(s: seq<(Str, V)>, e: (Str, V))
    requires s != [] && Ascending(s)
    ensures e in s[1..] <==> e in s && e != s[0]
  {
    if e in s[1..] {
      var i :| 0 <= i < |s[1..]| && s[1..][i] == e;
      LessAsymmetric(s[0].0, s[i + 1].0);
    }
    assert s == [s[0]] + s[1..];
  }
}
