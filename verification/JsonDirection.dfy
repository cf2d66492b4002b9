/** Which order the comparison of JSON values is (dozer-types/src/json_types.rs): types, numbers, booleans, strings,
    arrays by the first place at which they differ, and objects by the least key at which they differ. */
module JsonDirection {
  import opened Wrappers
  import opened JsonOrder

  // ---------------------------------------------------------------- types and plain values

  /** Null, booleans, numbers, strings, arrays, objects. */
  predicate EarlierType(l: Json, r: Json) {
    match l
    case Null => !r.Null?
    case Bool(_) => r.Number? || r.String? || r.Array? || r.Object?
    case Number(_) => r.String? || r.Array? || r.Object?
    case String(_) => r.Array? || r.Object?
    case Array(_) => r.Object?
    case Object(_) => false
  }

  lemma TypesInOrder(l: Json, r: Json)
    ensures EarlierType(l, r) ==> JsonCmp(l, r) == Less
    ensures EarlierType(r, l) ==> JsonCmp(l, r) == Greater
  {
  }

  lemma PlainValuesInOrder(a: real, b: real, p: bool, q: bool)
    ensures JsonCmp(Number(a), Number(b)) == Less <==> a < b
    ensures JsonCmp(Bool(p), Bool(q)) == Less <==> !p && q
  {
  }

  // ---------------------------------------------------------------- strings

  /** At the first place where they differ a has the smaller character, or a ends there. */
  ghost predicate StringLessAt(a: string, b: string, k: nat) {
    && k <= |a| && k < |b| && a[..k] == b[..k]
    && (k < |a| ==> a[k] < b[k])
  }

  ghost predicate StringLess(a: string, b: string) {
    exists k: nat :: StringLessAt(a, b, k)
  }

  lemma {:induction false} StringDecidedAt(a: string, b: string) returns (k: nat)
    requires CmpString(a, b) == Less
    ensures StringLessAt(a, b, k)
  {
    if a == [] || b == [] || a[0] != b[0] {
      k := 0;
    } else {
      k := StringDecidedAt(a[1..], b[1..]);
      k := k + 1;
      assert a[..k] == [a[0]] + a[1..][..k - 1] && b[..k] == [b[0]] + b[1..][..k - 1];
    }
  }

  lemma {:induction false} StringDecided(a: string, b: string, k: nat)
    requires StringLessAt(a, b, k)
    ensures CmpString(a, b) == Less
  {
    if 0 < k {
      assert a[0] == a[..k][0] == b[..k][0] == b[0];
      assert a[1..][..k - 1] == a[..k][1..] == b[..k][1..] == b[1..][..k - 1];
      StringDecided(a[1..], b[1..], k - 1);
    }
  }

  lemma StringsInOrder(a: string, b: string)
    ensures CmpString(a, b) == Less <==> StringLess(a, b)
    ensures JsonCmp(String(a), String(b)) == Less <==> StringLess(a, b)
  {
    if CmpString(a, b) == Less {
      var k := StringDecidedAt(a, b);
    }
    if StringLess(a, b) {
      var k: nat :| StringLessAt(a, b, k);
      StringDecided(a, b, k);
    }
  }

  // ---------------------------------------------------------------- arrays

  /** The elements before k are equal in pairs, and at k the left one is less, or the left array ends there. */
  ghost predicate ItemsLessAt(a: seq<Json>, b: seq<Json>, k: nat) {
    && k <= |a| && k < |b| && (forall i :: 0 <= i < k ==> JsonCmp(a[i], b[i]) == Equal)
    && (k < |a| ==> JsonCmp(a[k], b[k]) == Less)
  }

  lemma {:induction false} ItemsDecidedAt(a: seq<Json>, b: seq<Json>) returns (k: nat)
    requires CmpItems(a, b) == Less
    ensures ItemsLessAt(a, b, k)
  {
    if a == [] || b == [] || JsonCmp(a[0], b[0]) != Equal {
      k := 0;
    } else {
      k := ItemsDecidedAt(a[1..], b[1..]);
      forall i | 0 <= i < k + 1
        ensures JsonCmp(a[i], b[i]) == Equal
      {
        assert 0 < i ==> a[i] == a[1..][i - 1] && b[i] == b[1..][i - 1];
      }
      k := k + 1;
    }
  }

  lemma {:induction false} ItemsDecided(a: seq<Json>, b: seq<Json>, k: nat)
    requires ItemsLessAt(a, b, k)
    ensures CmpItems(a, b) == Less
  {
    if 0 < k {
      assert JsonCmp(a[0], b[0]) == Equal;
      forall i | 0 <= i < k - 1
        ensures JsonCmp(a[1..][i], b[1..][i]) == Equal
      {
        assert a[1..][i] == a[i + 1] && b[1..][i] == b[i + 1];
      }
      ItemsDecided(a[1..], b[1..], k - 1);
    }
  }

  lemma ArraysInOrder(a: seq<Json>, b: seq<Json>)
    ensures JsonCmp(Array(a), Array(b)) == Less <==> exists k: nat :: ItemsLessAt(a, b, k)
  {
    if CmpItems(a, b) == Less {
      var k := ItemsDecidedAt(a, b);
    }
    if exists k: nat :: ItemsLessAt(a, b, k) {
      var k: nat :| ItemsLessAt(a, b, k);
      ItemsDecided(a, b, k);
    }
  }

  // ---------------------------------------------------------------- objects

  /** The value under a key. */
  function At(fs: seq<Field>, key: string): Option<Json> {
    if fs == [] then None else if fs[0].key == key then Some(fs[0].value) else At(fs[1..], key)
  }

  /** Both objects lack the key, or hold equal values under it. */
  ghost predicate AgreeAt(l: seq<Field>, r: seq<Field>, key: string) {
    match (At(l, key), At(r, key))
    case (None, None) => true
    case (Some(x), Some(y)) => JsonCmp(x, y) == Equal
    case _ => false
  }

  ghost predicate HasLater(fs: seq<Field>, key: string) {
    exists i :: 0 <= i < |fs| && StringLess(key, fs[i].key)
  }

  /** The least key at which the objects differ. */
  ghost predicate DifferFirstAt(l: seq<Field>, r: seq<Field>, key: string) {
    !AgreeAt(l, r, key) && forall k :: StringLess(k, key) ==> AgreeAt(l, r, k)
  }

  /** If both hold the key, its values decide. If only one does, the other is decided by whether it goes on: the object
      without the key is greater if it has a later key, and less if it has none. */
  ghost predicate LessAtKey(l: seq<Field>, r: seq<Field>, key: string) {
    match (At(l, key), At(r, key))
    case (Some(x), Some(y)) => JsonCmp(x, y) == Less
    case (Some(_), None) => HasLater(r, key)
    case (None, Some(_)) => !HasLater(l, key)
    case (None, None) => false
  }

  lemma StringTotal(a: string, b: string)
    ensures StringLess(a, b) || a == b || StringLess(b, a)
    ensures !(StringLess(a, b) && StringLess(b, a)) && !StringLess(a, a)
  {
    StringsInOrder(a, b);
    StringsInOrder(b, a);
    StringsInOrder(a, a);
    StringFlip(a, b);
    StringEqual(a, b);
    StringEqual(a, a);
  }

  lemma {:induction false} AtFinds(fs: seq<Field>, key: string)
    ensures At(fs, key).Some? <==> Has(fs, key)
  {
    if fs != [] {
      AtFinds(fs[1..], key);
      if Has(fs, key) && fs[0].key != key {
        var i :| 0 <= i < |fs| && fs[i].key == key;
        assert fs[1..][i - 1] == fs[i];
      }
    }
  }

  /** In an ascending list every later key is greater than the head. */
  lemma AscendingHead(fs: seq<Field>, key: string)
    requires Ascending(fs) && fs != []
    ensures Ascending(fs[1..])
    ensures At(fs[1..], key).Some? ==> StringLess(fs[0].key, key)
    ensures key == fs[0].key || StringLess(key, fs[0].key) ==> At(fs[1..], key).None?
  {
    AtFinds(fs[1..], key);
    StringTotal(key, fs[0].key);
    if Has(fs[1..], key) {
      var i :| 0 <= i < |fs[1..]| && fs[1..][i].key == key;
      assert fs[i + 1].key == key;
      StringsInOrder(fs[0].key, key);
    }
  }

  lemma HasLaterTail(fs: seq<Field>, key: string)
    requires fs != [] && (fs[0].key == key || StringLess(fs[0].key, key))
    ensures HasLater(fs, key) <==> HasLater(fs[1..], key)
  {
    StringTotal(fs[0].key, key);
    if HasLater(fs, key) {
      var i :| 0 <= i < |fs| && StringLess(key, fs[i].key);
      assert fs[1..][i - 1] == fs[i];
    }
    if HasLater(fs[1..], key) {
      var i :| 0 <= i < |fs[1..]| && StringLess(key, fs[1..][i].key);
      assert fs[i + 1] == fs[1..][i];
    }
  }

  /** What the comparison of two ascending lists comes to. */
  ghost predicate Decided(l: seq<Field>, r: seq<Field>, key: Option<string>) {
    match key
    case None => CmpFields(l, r) == Equal && forall k :: AgreeAt(l, r, k)
    case Some(k) =>
      && CmpFields(l, r) != Equal && DifferFirstAt(l, r, k) && (Has(l, k) || Has(r, k))
      && (CmpFields(l, r) == Less <==> LessAtKey(l, r, k))
  }

  /** One list is at its end. */
  lemma DecidedAtEnd(l: seq<Field>, r: seq<Field>) returns (key: Option<string>)
    requires Ascending(l) && Ascending(r) && (l == [] || r == [])
    ensures Decided(l, r, key)
  {
    if l == [] && r == [] {
      key := None;
    } else {
      var rest := if l == [] then r else l;
      key := Some(rest[0].key);
      forall k | StringLess(k, rest[0].key)
        ensures AgreeAt(l, r, k)
      {
        StringTotal(k, rest[0].key);
        AscendingHead(rest, k);
      }
    }
  }

  /** The first keys differ: the smaller one decides. */
  lemma DecidedByKey(l: seq<Field>, r: seq<Field>) returns (key: Option<string>)
    requires Ascending(l) && Ascending(r) && l != [] && r != [] && l[0].key != r[0].key
    ensures Decided(l, r, key)
  {
    var a, b := l[0].key, r[0].key;
    StringsInOrder(a, b);
    StringsInOrder(b, a);
    StringFlip(a, b);
    StringEqual(a, b);
    StringTotal(a, b);
    var least := if StringLess(a, b) then a else b;
    key := Some(least);
    AscendingHead(l, least);
    AscendingHead(r, least);
    forall k | StringLess(k, least)
      ensures AgreeAt(l, r, k)
    {
      SmallerStill(k, least, a);
      SmallerStill(k, least, b);
      StringTotal(k, a);
      StringTotal(k, b);
      AscendingHead(l, k);
      AscendingHead(r, k);
    }
  }

  lemma SmallerStill(k: string, a: string, b: string)
    requires StringLess(k, a) && (a == b || StringLess(a, b))
    ensures StringLess(k, b)
  {
    StringsInOrder(k, a);
    StringsInOrder(a, b);
    StringsInOrder(k, b);
    StringChains(k, a, b);
  }

  /** The first keys are the same and their values are not. */
  lemma DecidedByValue(l: seq<Field>, r: seq<Field>) returns (key: Option<string>)
    requires Ascending(l) && Ascending(r) && l != [] && r != [] && l[0].key == r[0].key
    requires JsonCmp(l[0].value, r[0].value) != Equal
    ensures Decided(l, r, key)
  {
    var a := l[0].key;
    StringEqual(a, a);
    key := Some(a);
    forall k | StringLess(k, a)
      ensures AgreeAt(l, r, k)
    {
      StringTotal(k, a);
      AscendingHead(l, k);
      AscendingHead(r, k);
    }
  }

  lemma SameHeads(l: seq<Field>, r: seq<Field>, key: string)
    requires Ascending(l) && Ascending(r) && l != [] && r != [] && l[0].key == r[0].key
    requires JsonCmp(l[0].value, r[0].value) == Equal
    ensures AgreeAt(l, r, key) <==> AgreeAt(l[1..], r[1..], key)
    ensures key != l[0].key ==> At(l, key) == At(l[1..], key) && At(r, key) == At(r[1..], key)
  {
    AscendingHead(l, key);
    AscendingHead(r, key);
  }

  lemma {:induction false} FieldsDecided(l: seq<Field>, r: seq<Field>) returns (key: Option<string>)
    requires Ascending(l) && Ascending(r)
    ensures Decided(l, r, key)
  {
    if l == [] || r == [] {
      key := DecidedAtEnd(l, r);
    } else if l[0].key != r[0].key {
      key := DecidedByKey(l, r);
    } else if JsonCmp(l[0].value, r[0].value) != Equal {
      key := DecidedByValue(l, r);
    } else {
      key := FieldsDecided(l[1..], r[1..]);
      DecidedByTails(l, r, key);
    }
  }

  lemma DecidedByTails(l: seq<Field>, r: seq<Field>, key: Option<string>)
    requires Ascending(l) && Ascending(r) && l != [] && r != [] && l[0].key == r[0].key
    requires JsonCmp(l[0].value, r[0].value) == Equal && Decided(l[1..], r[1..], key)
    ensures Decided(l, r, key)
  {
    StringEqual(l[0].key, l[0].key);
    assert CmpFields(l, r) == CmpFields(l[1..], r[1..]);
    forall k: string
      ensures AgreeAt(l, r, k) <==> AgreeAt(l[1..], r[1..], k)
    {
      SameHeads(l, r, k);
    }
    if key.Some? {
      var k := key.value;
      AtFinds(l[1..], k);
      AtFinds(r[1..], k);
      AscendingHead(l, k);
      AscendingHead(r, k);
      StringTotal(l[0].key, k);
      SameHeads(l, r, k);
      HasLaterTail(l, k);
      HasLaterTail(r, k);
      AtFinds(l, k);
      AtFinds(r, k);
    }
  }

  // ---------------------------------------------------------------- from sorted lists to objects

  lemma {:induction false} AtMember(fs: seq<Field>, f: Field)
    requires DistinctKeys(fs) && f in fs
    ensures At(fs, f.key) == Some(f.value)
  {
    if fs[0] != f {
      assert f in fs[1..];
      AtMember(fs[1..], f);
      var i :| 0 <= i < |fs| && fs[i] == f;
      assert fs[0].key != fs[i].key;
    }
  }

  lemma SortedAt(fs: seq<Field>, key: string)
    requires DistinctKeys(fs)
    ensures At(SortFields(fs), key) == At(fs, key)
    ensures HasLater(SortFields(fs), key) <==> HasLater(fs, key)
  {
    var sorted := SortFields(fs);
    SortAscending(fs);
    AscendingDistinct(sorted);
    AtFinds(fs, key);
    AtFinds(sorted, key);
    if Has(fs, key) {
      var i :| 0 <= i < |fs| && fs[i].key == key;
      SortMember(fs, fs[i]);
      AtMember(fs, fs[i]);
      AtMember(sorted, fs[i]);
    } else if Has(sorted, key) {
      var i :| 0 <= i < |sorted| && sorted[i].key == key;
      SortMember(fs, sorted[i]);
    }
    if HasLater(fs, key) {
      var i :| 0 <= i < |fs| && StringLess(key, fs[i].key);
      var p := SortedFind(fs, i);
    }
    if HasLater(sorted, key) {
      var p :| 0 <= p < |sorted| && StringLess(key, sorted[p].key);
      var i := UnsortedFind(fs, p);
    }
  }

  lemma AscendingDistinct(fs: seq<Field>)
    requires Ascending(fs)
    ensures DistinctKeys(fs)
  {
    forall i, j | 0 <= i < j < |fs|
      ensures fs[i].key != fs[j].key
    {
      StringEqual(fs[i].key, fs[j].key);
    }
  }

  lemma FirstDifferenceUnique(l: seq<Field>, r: seq<Field>, a: string, b: string)
    requires DifferFirstAt(l, r, a) && DifferFirstAt(l, r, b)
    ensures a == b
  {
    StringTotal(a, b);
  }

  /** Of two objects the least key at which they differ decides, whatever the order of their fields. */
  lemma ObjectsInOrder(l: seq<Field>, r: seq<Field>)
    requires DistinctKeys(l) && DistinctKeys(r)
    ensures JsonCmp(Object(l), Object(r)) == Less <==> exists key :: DifferFirstAt(l, r, key) && LessAtKey(l, r, key)
  {
    var sl, sr := SortFields(l), SortFields(r);
    SortAscending(l);
    SortAscending(r);
    var key := FieldsDecided(sl, sr);
    forall k: string
      ensures At(sl, k) == At(l, k) && At(sr, k) == At(r, k)
      ensures (HasLater(sl, k) <==> HasLater(l, k)) && (HasLater(sr, k) <==> HasLater(r, k))
      ensures AgreeAt(sl, sr, k) <==> AgreeAt(l, r, k)
    {
      SortedAt(l, k);
      SortedAt(r, k);
    }
    if key.Some? {
      assert DifferFirstAt(l, r, key.value);
      assert LessAtKey(sl, sr, key.value) <==> LessAtKey(l, r, key.value);
    }
    if k: string :| DifferFirstAt(l, r, k) && LessAtKey(l, r, k) {
      assert key.Some?;
      FirstDifferenceUnique(l, r, k, key.value);
    }
  }
}
