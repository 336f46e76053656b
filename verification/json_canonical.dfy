/** The serialiser decides equality of JSON values. */
module JsonCanonical {
  // Two objects have the same text exactly when they denote the same value, whatever the order their properties were
  // inserted in.

  import opened Wrappers
  import opened JsString
  import opened Json
  import opened JsonText

  /** The same value with the keys of every object in ascending order. */
  function Canon(j: Json): Json {
    match j
    case Arr(items) => Arr(CanonItems(items))
    case Obj(keys, values) =>
      var sorted := SortByKey(Zip(keys, CanonItems(values)));
      Obj(Keys(sorted), Values(sorted))
    case _ => j
  }

  function CanonItems(items: seq<Json>): seq<Json> {
    seq(|items|, i requires 0 <= i < |items| => Canon(items[i]))
  }

  function Keys<V>(entries: seq<(Str, V)>): seq<Str> {
    seq(|entries|, i requires 0 <= i < |entries| => entries[i].0)
  }

  function Values<V>(entries: seq<(Str, V)>): seq<V> {
    seq(|entries|, i requires 0 <= i < |entries| => entries[i].1)
  }

  // ----- serialising is printing the canonical form --------------------------

  function PrintEntries(entries: seq<(Str, Json)>): seq<(Str, Str)> {
    seq(|entries|, i requires 0 <= i < |entries| => (entries[i].0, Print(entries[i].1)))
  }

  lemma {:induction false} InsertThenPrint(x: (Str, Json), s: seq<(Str, Json)>)
    ensures PrintEntries(Insert(x, s)) == Insert((x.0, Print(x.1)), PrintEntries(s))
  {
    if s != [] && Less(s[0].0, x.0) {
      InsertThenPrint(x, s[1..]);
      assert PrintEntries(s)[1..] == PrintEntries(s[1..]);
    }
  }

  lemma {:induction false} SortThenPrint(s: seq<(Str, Json)>)
    ensures PrintEntries(SortByKey(s)) == SortByKey(PrintEntries(s))
  {
    if s != [] {
      SortThenPrint(s[1..]);
      InsertThenPrint(s[0], SortByKey(s[1..]));
      assert PrintEntries(s)[1..] == PrintEntries(s[1..]);
    }
  }

  lemma {:induction false} StringifyIsPrint(j: Json)
    ensures Stringify(j) == Print(Canon(j))
  {
    match j
    case Arr(items) =>
      forall i | 0 <= i < |items| { StringifyIsPrint(items[i]); }
      assert StringifyItems(items) == PrintItems(CanonItems(items));
    case Obj(keys, values) =>
      forall i | 0 <= i < |values| { StringifyIsPrint(values[i]); }
      var entries := Zip(keys, CanonItems(values));
      assert Zip(keys, StringifyItems(values)) == PrintEntries(entries);
      SortThenPrint(entries);
      var sorted := SortByKey(entries);
      assert PrintEntries(sorted) == Zip(Keys(sorted), PrintItems(Values(sorted)));
    case _ =>
  }

  lemma {:induction false} CanonAligned(j: Json)
    requires Aligned(j)
    ensures Aligned(Canon(j))
  {
    match j
    case Arr(items) =>
      forall i | 0 <= i < |items| { CanonAligned(items[i]); }
    case Obj(keys, values) =>
      var entries := Zip(keys, CanonItems(values));
      SortByKeyMembers(entries);
      forall i | 0 <= i < |entries| ensures Aligned(SortByKey(entries)[i].1) {
        assert SortByKey(entries)[i] in entries;
        var k :| 0 <= k < |entries| && entries[k] == SortByKey(entries)[i];
        CanonAligned(values[k]);
      }
    case _ =>
  }

  lemma {:induction false} ProperIsAligned(j: Json)
    requires Proper(j)
    ensures Aligned(j)
  {
    match j
    case Arr(items) =>
      forall i | 0 <= i < |items| { ProperIsAligned(items[i]); }
    case Obj(keys, values) =>
      forall i | 0 <= i < |values| { ProperIsAligned(values[i]); }
    case _ =>
  }

  /** The text is well-formed JSON for the canonical form, and nothing is left over. */
  lemma StringifyParses(j: Json)
    requires Proper(j)
    ensures ParseValue(Stringify(j)) == Some((Canon(j), []))
  {
    ProperIsAligned(j);
    CanonAligned(j);
    StringifyIsPrint(j);
    ValueRoundTrip(Canon(j), []);
    assert Print(Canon(j)) + [] == Print(Canon(j));
  }

  // ----- the canonical form decides the value --------------------------------

  lemma {:induction false} ToMapEntries<V(!new)>(entries: seq<(Str, V)>)
    requires DistinctKeys(entries)
    ensures forall k :: k in ToMap(entries) <==> exists i :: 0 <= i < |entries| && entries[i].0 == k
    ensures forall i :: 0 <= i < |entries| ==>
      entries[i].0 in ToMap(entries) && ToMap(entries)[entries[i].0] == entries[i].1
  {
    if entries != [] {
      var tail := entries[1..];
      ToMapEntries(tail);
      forall i | 0 <= i < |entries|
        ensures entries[i].0 in ToMap(entries) && ToMap(entries)[entries[i].0] == entries[i].1
      {
        if i > 0 { assert tail[i - 1] == entries[i]; }
      }
      forall k | k in ToMap(entries) ensures exists i :: 0 <= i < |entries| && entries[i].0 == k {
        if k != entries[0].0 {
          assert k in ToMap(tail);
          var i :| 0 <= i < |tail| && tail[i].0 == k;
          assert entries[i + 1].0 == k;
        } else {
          assert entries[0].0 == k;
        }
      }
    }
  }

  /** Two entry lists with distinct keys and the same map hold the same entries. */
  lemma SameMapSameMembers<V(!new)>(s: seq<(Str, V)>, t: seq<(Str, V)>)
    requires DistinctKeys(s) && DistinctKeys(t)
    ensures ToMap(s) == ToMap(t) <==> SameMembers(s, t)
  {
    ToMapEntries(s);
    ToMapEntries(t);
    if ToMap(s) == ToMap(t) {
      SubMembers(s, t);
      SubMembers(t, s);
    }
    if SameMembers(s, t) {
      SubMap(s, t);
      SubMap(t, s);
    }
  }

  lemma SubMembers<V(!new)>(s: seq<(Str, V)>, t: seq<(Str, V)>)
    requires DistinctKeys(s) && DistinctKeys(t) && ToMap(s) == ToMap(t)
    ensures forall e :: e in s ==> e in t
  {
    ToMapEntries(s);
    ToMapEntries(t);
    forall e | e in s ensures e in t {
      var i :| 0 <= i < |s| && s[i] == e;
      assert s[i].0 in ToMap(t);
      var k :| 0 <= k < |t| && t[k].0 == s[i].0;
      assert ToMap(t)[t[k].0] == t[k].1;
      assert t[k] == e;
    }
  }

  lemma SubMap<V(!new)>(s: seq<(Str, V)>, t: seq<(Str, V)>)
    requires DistinctKeys(s) && DistinctKeys(t) && SameMembers(s, t)
    ensures forall k :: k in ToMap(s) ==> k in ToMap(t) && ToMap(t)[k] == ToMap(s)[k]
  {
    ToMapEntries(s);
    ToMapEntries(t);
    forall k | k in ToMap(s) ensures k in ToMap(t) && ToMap(t)[k] == ToMap(s)[k] {
      var i :| 0 <= i < |s| && s[i].0 == k;
      assert s[i] in t;
      var m :| 0 <= m < |t| && t[m] == s[i];
      assert t[m].0 in ToMap(t);
    }
  }

  /** Two objects have equal canonical forms exactly when their entries map to the same canonical values. */
  lemma CanonObjects(a: Json, b: Json)
    requires a.Obj? && b.Obj? && Proper(a) && Proper(b)
    ensures Canon(a) == Canon(b) <==>
      ToMap(Zip(a.keys, CanonItems(a.values))) == ToMap(Zip(b.keys, CanonItems(b.values)))
  {
    var s, t := Zip(a.keys, CanonItems(a.values)), Zip(b.keys, CanonItems(b.values));
    SameMapSameMembers(s, t);
    SortByKeyMembers(s);
    SortByKeyMembers(t);
    if SameMembers(s, t) {
      SortByKeyUnique(s, t);
    }
    if Canon(a) == Canon(b) {
      EntriesFromParts(SortByKey(s), SortByKey(t));
    }
  }

  lemma EntriesFromParts<V(!new)>(s: seq<(Str, V)>, t: seq<(Str, V)>)
    requires Keys(s) == Keys(t) && Values(s) == Values(t)
    ensures s == t
  {
    assert |s| == |Keys(s)| && |t| == |Keys(t)|;
    forall i | 0 <= i < |s| ensures s[i] == t[i] {
      assert s[i].0 == Keys(s)[i] && s[i].1 == Values(s)[i];
      assert t[i].0 == Keys(t)[i] && t[i].1 == Values(t)[i];
    }
  }

  /** If values agree item by item under two readings, the two maps they build agree together. */
  lemma ZipMapsAgree<V(!new), W(!new)>(keys: seq<Str>, keys': seq<Str>, v: seq<V>, v': seq<V>, w: seq<W>, w': seq<W>)
    requires |keys| == |v| == |w| && |keys'| == |v'| == |w'|
    requires forall i, k :: 0 <= i < k < |keys| ==> keys[i] != keys[k]
    requires forall i, k :: 0 <= i < k < |keys'| ==> keys'[i] != keys'[k]
    requires forall i, k :: 0 <= i < |v| && 0 <= k < |v'| && v[i] == v'[k] ==> w[i] == w'[k]
    requires ToMap(Zip(keys, v)) == ToMap(Zip(keys', v'))
    ensures ToMap(Zip(keys, w)) == ToMap(Zip(keys', w'))
  {
    var s, s', t, t' := Zip(keys, v), Zip(keys', v'), Zip(keys, w), Zip(keys', w');
    SameMapSameMembers(s, s');
    SameMapSameMembers(t, t');
    forall e ensures e in t <==> e in t' {
      if e in t {
        var i :| 0 <= i < |t| && t[i] == e;
        assert s[i] in s';
        var k :| 0 <= k < |s'| && s'[k] == s[i];
        assert v[i] == v'[k];
        assert t'[k] == e;
      }
      if e in t' {
        var k :| 0 <= k < |t'| && t'[k] == e;
        assert s'[k] in s;
        var i :| 0 <= i < |s| && s[i] == s'[k];
        assert v[i] == v'[k];
        assert t[i] == e;
      }
    }
  }

  lemma {:induction false} CanonDecidesMeaning(a: Json, b: Json)
    requires Proper(a) && Proper(b)
    ensures Canon(a) == Canon(b) <==> Meaning(a) == Meaning(b)
  {
    if a.Arr? && b.Arr? {
      forall i | 0 <= i < |a.items| && i < |b.items|
        ensures Canon(a.items[i]) == Canon(b.items[i]) <==> Meaning(a.items[i]) == Meaning(b.items[i])
      {
        CanonDecidesMeaning(a.items[i], b.items[i]);
      }
      ItemsDecide(a.items, b.items);
    } else if a.Obj? && b.Obj? {
      forall i, k | 0 <= i < |a.values| && 0 <= k < |b.values|
        ensures Canon(a.values[i]) == Canon(b.values[k]) <==> Meaning(a.values[i]) == Meaning(b.values[k])
      {
        CanonDecidesMeaning(a.values[i], b.values[k]);
      }
      ObjectsDecide(a, b);
    }
  }

  lemma ItemsDecide(xs: seq<Json>, ys: seq<Json>)
    requires forall i :: 0 <= i < |xs| && i < |ys| ==>
      (Canon(xs[i]) == Canon(ys[i]) <==> Meaning(xs[i]) == Meaning(ys[i]))
    ensures CanonItems(xs) == CanonItems(ys) <==> MeaningItems(xs) == MeaningItems(ys)
  {
    assert |CanonItems(xs)| == |MeaningItems(xs)| == |xs| && |CanonItems(ys)| == |MeaningItems(ys)| == |ys|;
    if |xs| == |ys| {
      assert forall i :: 0 <= i < |xs| ==> CanonItems(xs)[i] == Canon(xs[i]) && CanonItems(ys)[i] == Canon(ys[i]);
      assert forall i :: 0 <= i < |xs| ==>
        MeaningItems(xs)[i] == Meaning(xs[i]) && MeaningItems(ys)[i] == Meaning(ys[i]);
      if CanonItems(xs) == CanonItems(ys) {
        forall i | 0 <= i < |xs| ensures MeaningItems(xs)[i] == MeaningItems(ys)[i] {
          assert CanonItems(xs)[i] == CanonItems(ys)[i];
        }
      }
      if MeaningItems(xs) == MeaningItems(ys) {
        forall i | 0 <= i < |xs| ensures CanonItems(xs)[i] == CanonItems(ys)[i] {
          assert MeaningItems(xs)[i] == MeaningItems(ys)[i];
        }
      }
    }
  }

  lemma ObjectsDecide(a: Json, b: Json)
    requires a.Obj? && b.Obj? && Proper(a) && Proper(b)
    requires forall i, k :: 0 <= i < |a.values| && 0 <= k < |b.values| ==>
      (Canon(a.values[i]) == Canon(b.values[k]) <==> Meaning(a.values[i]) == Meaning(b.values[k]))
    ensures Canon(a) == Canon(b) <==> Meaning(a) == Meaning(b)
  {
    CanonObjects(a, b);
    var c, c', m, m' := CanonItems(a.values), CanonItems(b.values), MeaningItems(a.values), MeaningItems(b.values);
    if ToMap(Zip(a.keys, c)) == ToMap(Zip(b.keys, c')) {
      ZipMapsAgree(a.keys, b.keys, c, c', m, m');
    }
    if ToMap(Zip(a.keys, m)) == ToMap(Zip(b.keys, m')) {
      ZipMapsAgree(a.keys, b.keys, m, m', c, c');
    }
  }

  /** Insertion order never matters, and distinct values never share a text. */
  lemma StringifyDecidesMeaning(a: Json, b: Json)
    requires Proper(a) && Proper(b)
    ensures Stringify(a) == Stringify(b) <==> Meaning(a) == Meaning(b)
  {
    StringifyParses(a);
    StringifyParses(b);
    StringifyIsPrint(a);
    StringifyIsPrint(b);
    CanonDecidesMeaning(a, b);
  }
}
