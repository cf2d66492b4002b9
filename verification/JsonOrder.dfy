/** The comparison of JSON values (dozer-types/src/json_types.rs) is a total order, and its equality is
    equality of values with objects taken as maps. */
module JsonOrder {
  datatype Ordering = Less | Equal | Greater

  datatype Field = Field(key: string, value: Json)

  /** An object lists its fields in insertion order. Numbers are compared by value. */
  datatype Json =
    | Null
    | Bool(b: bool)
    | Number(n: real)
    | String(s: string)
    | Array(items: seq<Json>)
    | Object(fields: seq<Field>)

  function Flip(o: Ordering): Ordering {
    match o
    case Less => Greater
    case Equal => Equal
    case Greater => Less
  }

  function Then(o: Ordering, next: Ordering): Ordering {
    if o == Equal then next else o
  }

  function CmpInt(a: int, b: int): Ordering {
    if a < b then Less else if a == b then Equal else Greater
  }

  function CmpReal(a: real, b: real): Ordering {
    if a < b then Less else if a == b then Equal else Greater
  }

  function CmpString(a: string, b: string): Ordering {
    if a == [] || b == [] then CmpInt(|a|, |b|)
    else Then(CmpInt(a[0] as int, b[0] as int), CmpString(a[1..], b[1..]))
  }

  /** The order of the value types. */
  function Rank(j: Json): nat {
    match j
    case Null => 0
    case Bool(_) => 1
    case Number(_) => 2
    case String(_) => 3
    case Array(_) => 4
    case Object(_) => 5
  }

  // ---------------------------------------------------------------- sorting the fields of an object

  function InsertField(f: Field, fs: seq<Field>): seq<Field> {
    if fs == [] then [f]
    else if CmpString(fs[0].key, f.key) == Greater then [f] + fs
    else [fs[0]] + InsertField(f, fs[1..])
  }

  /** A stable sort by key. */
  function SortFields(fs: seq<Field>): seq<Field> {
    if fs == [] then [] else InsertField(fs[|fs| - 1], SortFields(fs[..|fs| - 1]))
  }

  function Size(j: Json): nat {
    match j
    case Array(items) => 1 + SizeItems(items)
    case Object(fields) => 1 + SizeFields(fields)
    case _ => 1
  }

  function SizeItems(items: seq<Json>): nat {
    if items == [] then 0 else 1 + Size(items[0]) + SizeItems(items[1..])
  }

  function SizeFields(fs: seq<Field>): nat {
    if fs == [] then 0 else 1 + Size(fs[0].value) + SizeFields(fs[1..])
  }

  lemma {:induction false} SizeConcat(a: seq<Field>, b: seq<Field>)
    ensures SizeFields(a + b) == SizeFields(a) + SizeFields(b)
  {
    if a == [] {
      assert a + b == b;
    } else {
      assert (a + b)[1..] == a[1..] + b;
      SizeConcat(a[1..], b);
    }
  }

  lemma {:induction false} InsertSize(f: Field, fs: seq<Field>)
    ensures SizeFields(InsertField(f, fs)) == SizeFields([f]) + SizeFields(fs)
  {
    if fs != [] {
      if CmpString(fs[0].key, f.key) == Greater {
        SizeConcat([f], fs);
      } else {
        InsertSize(f, fs[1..]);
        SizeConcat([fs[0]], InsertField(f, fs[1..]));
      }
    }
  }

  lemma {:induction false} SortSize(fs: seq<Field>)
    ensures SizeFields(SortFields(fs)) == SizeFields(fs)
  {
    if fs != [] {
      var n := |fs| - 1;
      assert fs == fs[..n] + [fs[n]];
      SizeConcat(fs[..n], [fs[n]]);
      SortSize(fs[..n]);
      InsertSize(fs[n], SortFields(fs[..n]));
    }
  }

  // ---------------------------------------------------------------- the comparison

  function JsonCmp(l: Json, r: Json): Ordering
    decreases Size(l), 1
  {
    if Rank(l) != Rank(r) then CmpInt(Rank(l), Rank(r))
    else
      match (l, r)
      case (Object(lf), Object(rf)) =>
        SortSize(lf);
        CmpFields(SortFields(lf), SortFields(rf))
      case (Array(li), Array(ri)) => CmpItems(li, ri)
      case (Bool(lb), Bool(rb)) => if lb == rb then Equal else if rb then Less else Greater
      case (Number(ln), Number(rn)) => CmpReal(ln, rn)
      case (String(ls), String(rs)) => CmpString(ls, rs)
      case _ => Equal
  }

  /** The loop over the zipped entries, then the lengths. */
  function CmpFields(ls: seq<Field>, rs: seq<Field>): Ordering
    decreases SizeFields(ls), 0, |ls|
  {
    if ls == [] || rs == [] then CmpInt(|ls|, |rs|)
    else
      Then(Then(CmpString(ls[0].key, rs[0].key), JsonCmp(ls[0].value, rs[0].value)), CmpFields(ls[1..], rs[1..]))
  }

  function CmpItems(ls: seq<Json>, rs: seq<Json>): Ordering
    decreases SizeItems(ls), 0, |ls|
  {
    if ls == [] || rs == [] then CmpInt(|ls|, |rs|)
    else Then(JsonCmp(ls[0], rs[0]), CmpItems(ls[1..], rs[1..]))
  }

  // ---------------------------------------------------------------- reversal

  lemma {:induction false} StringFlip(a: string, b: string)
    ensures CmpString(b, a) == Flip(CmpString(a, b))
  {
    if a != [] && b != [] {
      StringFlip(a[1..], b[1..]);
    }
  }

  lemma {:induction false} Reversal(l: Json, r: Json)
    ensures JsonCmp(r, l) == Flip(JsonCmp(l, r))
    decreases Size(l), 1
  {
    if Rank(l) == Rank(r) {
      match (l, r)
      case (Object(lf), Object(rf)) =>
        SortSize(lf);
        ReversalFields(SortFields(lf), SortFields(rf));
      case (Array(li), Array(ri)) => ReversalItems(li, ri);
      case (String(ls), String(rs)) => StringFlip(ls, rs);
      case _ =>
    }
  }

  lemma {:induction false} ReversalFields(ls: seq<Field>, rs: seq<Field>)
    ensures CmpFields(rs, ls) == Flip(CmpFields(ls, rs))
    decreases SizeFields(ls), 0, |ls|
  {
    if ls != [] && rs != [] {
      StringFlip(ls[0].key, rs[0].key);
      Reversal(ls[0].value, rs[0].value);
      ReversalFields(ls[1..], rs[1..]);
    }
  }

  lemma {:induction false} ReversalItems(ls: seq<Json>, rs: seq<Json>)
    ensures CmpItems(rs, ls) == Flip(CmpItems(ls, rs))
    decreases SizeItems(ls), 0, |ls|
  {
    if ls != [] && rs != [] {
      Reversal(ls[0], rs[0]);
      ReversalItems(ls[1..], rs[1..]);
    }
  }

  // ---------------------------------------------------------------- transitivity

  /** What three comparisons of a, b and c must satisfy: ab and bc determine ac unless they oppose. */
  predicate Chains(ab: Ordering, bc: Ordering, ac: Ordering) {
    && (ab == Equal ==> ac == bc)
    && (bc == Equal ==> ac == ab)
    && (ab == bc ==> ac == ab)
  }

  lemma ThenChains(ab: Ordering, bc: Ordering, ac: Ordering, ab': Ordering, bc': Ordering, ac': Ordering)
    requires Chains(ab, bc, ac) && (ab == Equal && bc == Equal ==> Chains(ab', bc', ac'))
    ensures Chains(Then(ab, ab'), Then(bc, bc'), Then(ac, ac'))
  {
  }

  lemma {:induction false} StringChains(a: string, b: string, c: string)
    ensures Chains(CmpString(a, b), CmpString(b, c), CmpString(a, c))
  {
    if a != [] && b != [] && c != [] {
      StringChains(a[1..], b[1..], c[1..]);
    }
  }

  lemma {:induction false} Transitivity(a: Json, b: Json, c: Json)
    ensures Chains(JsonCmp(a, b), JsonCmp(b, c), JsonCmp(a, c))
    decreases Size(a), 1
  {
    if Rank(a) == Rank(b) == Rank(c) {
      match (a, b, c)
      case (Object(af), Object(bf), Object(cf)) =>
        SortSize(af);
        FieldsChain(SortFields(af), SortFields(bf), SortFields(cf));
      case (Array(ai), Array(bi), Array(ci)) => ItemsChain(ai, bi, ci);
      case (String(s), String(s'), String(s'')) => StringChains(s, s', s'');
      case _ =>
    }
  }

  lemma {:induction false} FieldsChain(a: seq<Field>, b: seq<Field>, c: seq<Field>)
    ensures Chains(CmpFields(a, b), CmpFields(b, c), CmpFields(a, c))
    decreases SizeFields(a), 0, |a|
  {
    if a != [] && b != [] && c != [] {
      StringChains(a[0].key, b[0].key, c[0].key);
      Transitivity(a[0].value, b[0].value, c[0].value);
      FieldsChain(a[1..], b[1..], c[1..]);
      ThenChains(CmpString(a[0].key, b[0].key), CmpString(b[0].key, c[0].key), CmpString(a[0].key, c[0].key),
                 JsonCmp(a[0].value, b[0].value), JsonCmp(b[0].value, c[0].value), JsonCmp(a[0].value, c[0].value));
      ThenChains(Then(CmpString(a[0].key, b[0].key), JsonCmp(a[0].value, b[0].value)),
                 Then(CmpString(b[0].key, c[0].key), JsonCmp(b[0].value, c[0].value)),
                 Then(CmpString(a[0].key, c[0].key), JsonCmp(a[0].value, c[0].value)),
                 CmpFields(a[1..], b[1..]), CmpFields(b[1..], c[1..]), CmpFields(a[1..], c[1..]));
    }
  }

  lemma {:induction false} ItemsChain(a: seq<Json>, b: seq<Json>, c: seq<Json>)
    ensures Chains(CmpItems(a, b), CmpItems(b, c), CmpItems(a, c))
    decreases SizeItems(a), 0, |a|
  {
    if a != [] && b != [] && c != [] {
      Transitivity(a[0], b[0], c[0]);
      ItemsChain(a[1..], b[1..], c[1..]);
      ThenChains(JsonCmp(a[0], b[0]), JsonCmp(b[0], c[0]), JsonCmp(a[0], c[0]),
                 CmpItems(a[1..], b[1..]), CmpItems(b[1..], c[1..]), CmpItems(a[1..], c[1..]));
    }
  }

  // ---------------------------------------------------------------- equality

  predicate Has(fs: seq<Field>, key: string) {
    exists i :: 0 <= i < |fs| && fs[i].key == key
  }

  predicate DistinctKeys(fs: seq<Field>) {
    forall i, j :: 0 <= i < j < |fs| ==> fs[i].key != fs[j].key
  }

  /** Objects are maps: no key occurs twice, at any depth. */
  ghost predicate Proper(j: Json) {
    match j
    case Array(items) => forall i :: 0 <= i < |items| ==> Proper(items[i])
    case Object(fields) =>
      DistinctKeys(fields) && forall i :: 0 <= i < |fields| ==> Proper(fields[i].value)
    case _ => true
  }

  /** Equality of values, objects being equal if they have the same keys with equal values. */
  ghost predicate Same(l: Json, r: Json) {
    match (l, r)
    case (Array(li), Array(ri)) =>
      |li| == |ri| && forall i :: 0 <= i < |li| ==> Same(li[i], ri[i])
    case (Object(lf), Object(rf)) =>
      && (forall i :: 0 <= i < |lf| ==> Has(rf, lf[i].key))
      && (forall j :: 0 <= j < |rf| ==> Has(lf, rf[j].key))
      && (forall i, j :: 0 <= i < |lf| && 0 <= j < |rf| && lf[i].key == rf[j].key ==> Same(lf[i].value, rf[j].value))
    case _ => l == r
  }

  lemma {:induction false} InsertMember(f: Field, fs: seq<Field>, g: Field)
    ensures g in InsertField(f, fs) <==> g == f || g in fs
  {
    if fs != [] && CmpString(fs[0].key, f.key) != Greater {
      InsertMember(f, fs[1..], g);
    }
  }

  lemma {:induction false} SortMember(fs: seq<Field>, g: Field)
    ensures g in SortFields(fs) <==> g in fs
  {
    if fs != [] {
      var n := |fs| - 1;
      assert fs == fs[..n] + [fs[n]];
      SortMember(fs[..n], g);
      InsertMember(fs[n], SortFields(fs[..n]), g);
    }
  }

  ghost predicate Ascending(fs: seq<Field>) {
    forall i, j :: 0 <= i < j < |fs| ==> CmpString(fs[i].key, fs[j].key) == Less
  }

  lemma {:induction false} StringEqual(a: string, b: string)
    ensures CmpString(a, b) == Equal <==> a == b
  {
    if a != [] && b != [] {
      StringEqual(a[1..], b[1..]);
      assert a == [a[0]] + a[1..] && b == [b[0]] + b[1..];
    }
  }

  lemma {:induction false} InsertAscending(f: Field, fs: seq<Field>)
    requires Ascending(fs) && forall g :: g in fs ==> g.key != f.key
    ensures Ascending(InsertField(f, fs))
  {
    if fs != [] {
      StringFlip(fs[0].key, f.key);
      if CmpString(fs[0].key, f.key) == Greater {
        forall j | 0 <= j < |fs|
          ensures CmpString(f.key, fs[j].key) == Less
        {
          StringChains(f.key, fs[0].key, fs[j].key);
          StringEqual(fs[0].key, fs[j].key);
        }
      } else {
        StringEqual(fs[0].key, f.key);
        InsertAscending(f, fs[1..]);
        var rest := InsertField(f, fs[1..]);
        forall j | 0 <= j < |rest|
          ensures CmpString(fs[0].key, rest[j].key) == Less
        {
          InsertMember(f, fs[1..], rest[j]);
        }
      }
    }
  }

  lemma {:induction false} SortAscending(fs: seq<Field>)
    requires DistinctKeys(fs)
    ensures Ascending(SortFields(fs))
  {
    if fs != [] {
      var n := |fs| - 1;
      SortAscending(fs[..n]);
      forall g | g in SortFields(fs[..n])
        ensures g.key != fs[n].key
      {
        SortMember(fs[..n], g);
      }
      InsertAscending(fs[n], SortFields(fs[..n]));
    }
  }

  predicate SameKeys(a: seq<Field>, b: seq<Field>) {
    |a| == |b| && forall i :: 0 <= i < |a| ==> a[i].key == b[i].key
  }

  /** The key at the head of an ascending list is the least of its keys. */
  lemma HeadIsLeast(a: seq<Field>, b: seq<Field>)
    requires Ascending(a) && Ascending(b) && a != [] && Has(b, a[0].key) && Has(a, b[0].key)
    ensures a[0].key == b[0].key
  {
    var i :| 0 <= i < |b| && b[i].key == a[0].key;
    var j :| 0 <= j < |a| && a[j].key == b[0].key;
    StringFlip(a[0].key, b[0].key);
  }

  lemma TailHas(a: seq<Field>, b: seq<Field>, i: nat)
    requires Ascending(a) && a != [] && b != [] && a[0].key == b[0].key && i < |a[1..]| && Has(b, a[1..][i].key)
    ensures Has(b[1..], a[1..][i].key)
  {
    var j :| 0 <= j < |b| && b[j].key == a[1..][i].key;
    assert a[1..][i] == a[i + 1];
    StringEqual(a[0].key, a[i + 1].key);
    assert b[1..][j - 1] == b[j];
  }

  /** Two ascending lists with the same set of keys have the same keys in the same places. */
  lemma {:induction false} AscendingUnique(a: seq<Field>, b: seq<Field>)
    requires Ascending(a) && Ascending(b)
    requires forall i :: 0 <= i < |a| ==> Has(b, a[i].key)
    requires forall i :: 0 <= i < |b| ==> Has(a, b[i].key)
    ensures SameKeys(a, b)
  {
    if a == [] {
      assert b == [] || Has(a, b[0].key);
    } else {
      assert Has(b, a[0].key);
      HeadIsLeast(a, b);
      forall i | 0 <= i < |a[1..]|
        ensures Has(b[1..], a[1..][i].key)
      {
        assert Has(b, a[i + 1].key);
        TailHas(a, b, i);
      }
      forall i | 0 <= i < |b[1..]|
        ensures Has(a[1..], b[1..][i].key)
      {
        assert Has(a, b[i + 1].key);
        TailHas(b, a, i);
      }
      AscendingUnique(a[1..], b[1..]);
      forall i | 0 <= i < |a|
        ensures a[i].key == b[i].key
      {
        if i > 0 {
          assert a[i] == a[1..][i - 1] && b[i] == b[1..][i - 1];
        }
      }
    }
  }

  lemma {:induction false} FieldsEqual(a: seq<Field>, b: seq<Field>)
    ensures CmpFields(a, b) == Equal <==>
              SameKeys(a, b) && forall i :: 0 <= i < |a| ==> JsonCmp(a[i].value, b[i].value) == Equal
  {
    if a != [] && b != [] {
      StringEqual(a[0].key, b[0].key);
      FieldsEqual(a[1..], b[1..]);
      if SameKeys(a, b) {
        assert SameKeys(a[1..], b[1..]);
      }
      if CmpFields(a, b) == Equal {
        forall i | 0 <= i < |a|
          ensures a[i].key == b[i].key && JsonCmp(a[i].value, b[i].value) == Equal
        {
          if i > 0 {
            assert a[i] == a[1..][i - 1] && b[i] == b[1..][i - 1];
          }
        }
      }
    }
  }

  lemma {:induction false} ItemsEqual(a: seq<Json>, b: seq<Json>)
    ensures CmpItems(a, b) == Equal <==>
              |a| == |b| && forall i :: 0 <= i < |a| ==> JsonCmp(a[i], b[i]) == Equal
  {
    if a != [] && b != [] {
      ItemsEqual(a[1..], b[1..]);
      if CmpItems(a, b) == Equal {
        forall i | 0 <= i < |a|
          ensures JsonCmp(a[i], b[i]) == Equal
        {
          if i > 0 {
            assert a[i] == a[1..][i - 1] && b[i] == b[1..][i - 1];
          }
        }
      }
    }
  }

  lemma {:induction false} ItemSmaller(items: seq<Json>, i: nat)
    requires i < |items|
    ensures Size(items[i]) < SizeItems(items)
  {
    if i > 0 {
      ItemSmaller(items[1..], i - 1);
    }
  }

  lemma {:induction false} FieldSmaller(fs: seq<Field>, i: nat)
    requires i < |fs|
    ensures Size(fs[i].value) < SizeFields(fs)
  {
    if i > 0 {
      FieldSmaller(fs[1..], i - 1);
    }
  }

  /** Are equal comparisons of the given fields' values exactly those of equal values? */
  ghost predicate Agree(lf: seq<Field>, rf: seq<Field>) {
    forall i, j :: 0 <= i < |lf| && 0 <= j < |rf| ==>
      (JsonCmp(lf[i].value, rf[j].value) == Equal <==> Same(lf[i].value, rf[j].value))
  }

  lemma SortedFind(fs: seq<Field>, i: nat) returns (p: nat)
    requires i < |fs|
    ensures p < |SortFields(fs)| && SortFields(fs)[p] == fs[i]
  {
    SortMember(fs, fs[i]);
    p :| 0 <= p < |SortFields(fs)| && SortFields(fs)[p] == fs[i];
  }

  lemma UnsortedFind(fs: seq<Field>, p: nat) returns (i: nat)
    requires p < |SortFields(fs)|
    ensures i < |fs| && SortFields(fs)[p] == fs[i]
  {
    SortMember(fs, SortFields(fs)[p]);
    i :| 0 <= i < |fs| && fs[i] == SortFields(fs)[p];
  }

  lemma EqualObjectsSame(lf: seq<Field>, rf: seq<Field>)
    requires DistinctKeys(lf) && DistinctKeys(rf) && Agree(lf, rf)
    requires CmpFields(SortFields(lf), SortFields(rf)) == Equal
    ensures Same(Object(lf), Object(rf))
  {
    var ls, rs := SortFields(lf), SortFields(rf);
    SortAscending(lf);
    SortAscending(rf);
    FieldsEqual(ls, rs);
    forall i | 0 <= i < |lf|
      ensures Has(rf, lf[i].key)
    {
      var p := SortedFind(lf, i);
      var j := UnsortedFind(rf, p);
    }
    forall j | 0 <= j < |rf|
      ensures Has(lf, rf[j].key)
    {
      var p := SortedFind(rf, j);
      var i := UnsortedFind(lf, p);
    }
    forall i, j | 0 <= i < |lf| && 0 <= j < |rf| && lf[i].key == rf[j].key
      ensures Same(lf[i].value, rf[j].value)
    {
      var p := SortedFind(lf, i);
      var q := SortedFind(rf, j);
      StringEqual(rs[p].key, rs[q].key);
      assert p == q;
    }
  }

  lemma SortedHas(lf: seq<Field>, rf: seq<Field>, p: nat)
    requires p < |SortFields(lf)| && forall i :: 0 <= i < |lf| ==> Has(rf, lf[i].key)
    ensures Has(SortFields(rf), SortFields(lf)[p].key)
  {
    var i := UnsortedFind(lf, p);
    assert Has(rf, lf[i].key);
    var j :| 0 <= j < |rf| && rf[j].key == lf[i].key;
    var q := SortedFind(rf, j);
  }

  lemma SameObjectsEqual(lf: seq<Field>, rf: seq<Field>)
    requires DistinctKeys(lf) && DistinctKeys(rf) && Agree(lf, rf)
    requires Same(Object(lf), Object(rf))
    ensures CmpFields(SortFields(lf), SortFields(rf)) == Equal
  {
    var ls, rs := SortFields(lf), SortFields(rf);
    SortAscending(lf);
    SortAscending(rf);
    forall p | 0 <= p < |ls|
      ensures Has(rs, ls[p].key)
    {
      SortedHas(lf, rf, p);
    }
    forall q | 0 <= q < |rs|
      ensures Has(ls, rs[q].key)
    {
      SortedHas(rf, lf, q);
    }
    AscendingUnique(ls, rs);
    forall p | 0 <= p < |ls|
      ensures JsonCmp(ls[p].value, rs[p].value) == Equal
    {
      var i := UnsortedFind(lf, p);
      var j := UnsortedFind(rf, p);
    }
    FieldsEqual(ls, rs);
  }

  /** The comparison calls two values equal exactly if they are, objects taken as maps. */
  lemma {:induction false} EqualIffSame(l: Json, r: Json)
    requires Proper(l) && Proper(r)
    ensures JsonCmp(l, r) == Equal <==> Same(l, r)
    decreases Size(l)
  {
    match (l, r)
    case (Object(lf), Object(rf)) =>
      forall i, j | 0 <= i < |lf| && 0 <= j < |rf|
        ensures JsonCmp(lf[i].value, rf[j].value) == Equal <==> Same(lf[i].value, rf[j].value)
      {
        FieldSmaller(lf, i);
        EqualIffSame(lf[i].value, rf[j].value);
      }
      if Same(l, r) {
        SameObjectsEqual(lf, rf);
      }
      if JsonCmp(l, r) == Equal {
        EqualObjectsSame(lf, rf);
      }
    case (Array(li), Array(ri)) =>
      ItemsEqual(li, ri);
      forall i | 0 <= i < |li| && i < |ri|
        ensures JsonCmp(li[i], ri[i]) == Equal <==> Same(li[i], ri[i])
      {
        ItemSmaller(li, i);
        EqualIffSame(li[i], ri[i]);
      }
    case (String(s), String(s')) => StringEqual(s, s');
    case _ =>
  }

  /** Every value equals itself. */
  lemma Reflexivity(j: Json)
    ensures JsonCmp(j, j) == Equal
  {
    Reversal(j, j);
  }

  /** Replacing values by equal ones, with their fields in any other order, changes no comparison. */
  lemma InsertionOrderIrrelevant(l: Json, l': Json, r: Json, r': Json)
    requires Proper(l) && Proper(l') && Proper(r) && Proper(r') && Same(l, l') && Same(r, r')
    ensures JsonCmp(l, r) == JsonCmp(l', r')
  {
    EqualIffSame(l, l');
    EqualIffSame(r, r');
    Transitivity(l, l', r);
    Transitivity(l', r, r');
  }
}
