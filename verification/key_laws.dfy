/** The canonical key of lib/canonical.ts, character by character. */
module KeyLaws {
  import opened Wrappers
  import opened JsString
  import opened Verdict

  /** The white space of ECMAScript: tab to carriage return, space, and the spaces of Unicode with the byte order
      mark. */
  const WHITE_SPACE: seq<int> :=
    [9, 10, 11, 12, 13, 32, 0xA0, 0x1680, 0x2000, 0x2001, 0x2002, 0x2003, 0x2004, 0x2005, 0x2006, 0x2007, 0x2008,
     0x2009, 0x200A, 0x2028, 0x2029, 0x202F, 0x205F, 0x3000, 0xFEFF]

  lemma WhiteSpaceIs(u: CodeUnit)
    ensures IsWhiteSpace(u) <==> u as int in WHITE_SPACE
  {
    if 9 <= u <= 13 { assert WHITE_SPACE[u as int - 9] == u as int; }
    if 0x2000 <= u <= 0x200A { assert WHITE_SPACE[u as int - 0x2000 + 8] == u as int; }
    assert WHITE_SPACE[5] == 32 && WHITE_SPACE[6] == 0xA0 && WHITE_SPACE[7] == 0x1680;
    assert WHITE_SPACE[19] == 0x2028 && WHITE_SPACE[20] == 0x2029 && WHITE_SPACE[21] == 0x202F;
    assert WHITE_SPACE[22] == 0x205F && WHITE_SPACE[23] == 0x3000 && WHITE_SPACE[24] == 0xFEFF;
  }

  ghost predicate White(s: Str) {
    forall i :: 0 <= i < |s| ==> s[i] as int in WHITE_SPACE
  }

  /** The text from i to j, white space around it and none at its ends. */
  ghost predicate Core(s: Str, i: nat, j: nat) {
    && i <= j <= |s| && White(s[..i]) && White(s[j..])
    && (i < j ==> s[i] as int !in WHITE_SPACE && s[j - 1] as int !in WHITE_SPACE)
    && (i == j ==> i == |s|)
  }

  lemma {:induction false} StartIs(s: Str, i: nat)
    requires i <= |s| && White(s[..i]) && (i < |s| ==> s[i] as int !in WHITE_SPACE)
    ensures TrimStart(s) == s[i..]
  {
    if i > 0 {
      WhiteSpaceIs(s[0]);
      assert s[..i][0] == s[0];
      assert s[1..][..i - 1] == s[..i][1..];
      StartIs(s[1..], i - 1);
      assert s[1..][i - 1..] == s[i..];
    } else if s != [] {
      WhiteSpaceIs(s[0]);
    }
  }

  lemma {:induction false} EndIs(s: Str, j: nat)
    requires j <= |s| && White(s[j..]) && (j > 0 ==> s[j - 1] as int !in WHITE_SPACE)
    ensures TrimEnd(s) == s[..j]
  {
    if j < |s| {
      var front := s[..|s| - 1];
      assert s[j..][|s| - 1 - j] == s[|s| - 1];
      WhiteSpaceIs(s[|s| - 1]);
      assert front[j..] == s[j..][..|s| - 1 - j];
      EndIs(front, j);
    } else if s != [] {
      WhiteSpaceIs(s[|s| - 1]);
    }
  }

  /** Trimming leaves exactly the text between the white space at the ends. */
  lemma TrimIs(s: Str, i: nat, j: nat)
    requires Core(s, i, j)
    ensures Trim(s) == s[i..j]
  {
    assert i < |s| ==> i < j;
    StartIs(s, i);
    var rest := s[i..];
    assert rest[j - i..] == s[j..];
    assert j > i ==> rest[j - i - 1] == s[j - 1];
    EndIs(rest, j - i);
  }

  /** The key of two coin ids: both trimmed and in lower case, the smaller first, a colon between. */
  lemma KeyIs(id0: Str, i: nat, j: nat, id1: Str, k: nat, l: nat)
    requires Core(id0, i, j) && Core(id1, k, l)
    ensures var a, b := ToLower(id0[i..j]), ToLower(id1[k..l]);
      && (i == j || k == l ==> CanonicalKey(id0, id1) == None)
      && (i < j && k < l && (a == b || Less(a, b)) ==>
            CanonicalKey(id0, id1) == CanonicalKey(id1, id0) == Some(a + Ascii(":") + b))
  {
    var a, b := ToLower(id0[i..j]), ToLower(id1[k..l]);
    TrimIs(id0, i, j);
    TrimIs(id1, k, l);
    assert Ascii(":") == [58];
    if Less(a, b) { LessAsymmetric(a, b); }
  }
}
