/** Combining configuration files (dozer-cli/src/config_helper.rs): the recursive merge of YAML values is
    associative, failures and key order included, and loses nothing. */
module YamlMerge {
  import opened Wrappers

  datatype Entry = Entry(key: Yaml, value: Yaml)

  /** Null, booleans, numbers and strings are scalars; a mapping keeps its entries in insertion order. */
  datatype Yaml =
    | Scalar(text: string)
    | Sequence(items: seq<Yaml>)
    | Mapping(entries: seq<Entry>)
    | Tagged(tag: string, value: Yaml)

  function Position(es: seq<Entry>, key: Yaml): (p: Option<nat>)
    ensures p.Some? ==> p.value < |es| && es[p.value].key == key
    ensures p.None? ==> forall i :: 0 <= i < |es| ==> es[i].key != key
  {
    if es == [] then None
    else if es[0].key == key then Some(0)
    else
      match Position(es[1..], key)
      case None => None
      case Some(i) => Some(i + 1)
  }

  /** `merge_yaml(from, to)`: the new `to`, or None if they cannot be merged. */
  function Merge(from: Yaml, to: Yaml): Option<Yaml>
    decreases from
  {
    match (from, to)
    case (Mapping(fe), Mapping(te)) =>
      (match MergeEntries(fe, te)
       case None => None
       case Some(es) => Some(Mapping(es)))
    case (Sequence(fi), Sequence(ti)) => Some(Sequence(ti + fi))
    case (Tagged(ft, fv), Tagged(tt, tv)) =>
      if ft != tt then None
      else
        (match Merge(fv, tv)
         case None => None
         case Some(v) => Some(Tagged(tt, v)))
    case _ => None
  }

  /** One iteration of the loop over the entries of `from`. */
  function MergeEntry(e: Entry, te: seq<Entry>): Option<seq<Entry>>
    decreases e, 0
  {
    match Position(te, e.key)
    case None => Some(te + [e])
    case Some(p) =>
      match Merge(e.value, te[p].value)
      case None => None
      case Some(v) => Some(te[p := Entry(te[p].key, v)])
  }

  function MergeEntries(fe: seq<Entry>, te: seq<Entry>): Option<seq<Entry>>
    decreases fe
  {
    if fe == [] then Some(te)
    else
      match MergeEntry(fe[0], te)
      case None => None
      case Some(te') => MergeEntries(fe[1..], te')
  }

  method MergeYaml(from: Yaml, to: Yaml) returns (r: Option<Yaml>)
    ensures r == Merge(from, to)
    decreases from
  {
    match (from, to)
    case (Mapping(fe), Mapping(te)) =>
      var entries := te;
      for i := 0 to |fe|
        invariant MergeEntries(fe[i..], entries) == MergeEntries(fe, te)
      {
        var key, value := fe[i].key, fe[i].value;
        assert fe[i..][1..] == fe[i + 1..];
        match Position(entries, key)
        case Some(p) =>
          var merged := MergeYaml(value, entries[p].value);
          if merged.None? {
            return None;
          }
          entries := entries[p := Entry(entries[p].key, merged.value)];
        case None =>
          entries := entries + [fe[i]];
      }
      return Some(Mapping(entries));
    case (Sequence(fi), Sequence(ti)) =>
      var items := ti;
      for i := 0 to |fi|
        invariant items == ti + fi[..i]
      {
        items := items + [fi[i]];
      }
      assert fi[..|fi|] == fi;
      return Some(Sequence(items));
    case (Tagged(ft, fv), Tagged(tt, tv)) =>
      if ft != tt {
        return None;
      }
      var merged := MergeYaml(fv, tv);
      return if merged.None? then None else Some(Tagged(tt, merged.value));
    case _ =>
      return None;
  }

  // ---------------------------------------------------------------- entries, key by key

  function Lookup(es: seq<Entry>, key: Yaml): Option<Yaml> {
    match Position(es, key)
    case None => None
    case Some(p) => Some(es[p].value)
  }

  function Keys(es: seq<Entry>): seq<Yaml> {
    if es == [] then [] else [es[0].key] + Keys(es[1..])
  }

  ghost predicate DistinctKeys(es: seq<Entry>) {
    forall i, j :: 0 <= i < j < |es| ==> es[i].key != es[j].key
  }

  /** No mapping holds a key twice, at any depth. */
  ghost predicate Proper(y: Yaml) {
    match y
    case Scalar(_) => true
    case Sequence(items) => true
    case Mapping(es) => DistinctKeys(es) && forall i :: 0 <= i < |es| ==> Proper(es[i].value)
    case Tagged(_, v) => Proper(v)
  }

  /** The merge of what two mappings hold under one key: None is failure, Some(None) is no entry. */
  function MergeAt(from: Option<Yaml>, to: Option<Yaml>): Option<Option<Yaml>> {
    if from.None? then Some(to)
    else if to.None? then Some(from)
    else
      match Merge(from.value, to.value)
      case None => None
      case Some(v) => Some(Some(v))
  }

  lemma LookupHas(es: seq<Entry>, i: nat)
    requires DistinctKeys(es) && i < |es|
    ensures Lookup(es, es[i].key) == Some(es[i].value) && Position(es, es[i].key) == Some(i)
  {
  }

  lemma {:induction false} PositionAppend(es: seq<Entry>, e: Entry, key: Yaml)
    ensures Position(es + [e], key)
            == if Position(es, key).Some? then Position(es, key) else if e.key == key then Some(|es|) else None
  {
    if es != [] {
      assert (es + [e])[1..] == es[1..] + [e];
      PositionAppend(es[1..], e, key);
    }
  }

  lemma {:induction false} PositionUpdate(es: seq<Entry>, p: nat, v: Yaml, key: Yaml)
    requires p < |es|
    ensures Position(es[p := Entry(es[p].key, v)], key) == Position(es, key)
  {
    var es' := es[p := Entry(es[p].key, v)];
    if p == 0 {
      assert es'[1..] == es[1..];
    } else {
      assert es'[1..] == es[1..][p - 1 := Entry(es[1..][p - 1].key, v)];
      PositionUpdate(es[1..], p - 1, v, key);
    }
  }

  lemma {:induction false} KeysAppend(es: seq<Entry>, e: Entry)
    ensures Keys(es + [e]) == Keys(es) + [e.key]
  {
    if es == [] {
      assert es + [e] == [e];
    } else {
      assert (es + [e])[1..] == es[1..] + [e];
      KeysAppend(es[1..], e);
    }
  }

  lemma {:induction false} KeysUpdate(es: seq<Entry>, p: nat, v: Yaml)
    requires p < |es|
    ensures Keys(es[p := Entry(es[p].key, v)]) == Keys(es)
  {
    var es' := es[p := Entry(es[p].key, v)];
    if p == 0 {
      assert es'[1..] == es[1..];
    } else {
      assert es'[1..] == es[1..][p - 1 := Entry(es[1..][p - 1].key, v)];
      KeysUpdate(es[1..], p - 1, v);
    }
  }

  /** One iteration, key by key: it fails exactly if its own key fails, and touches no other key. */
  lemma EntryMerged(e: Entry, te: seq<Entry>, key: Yaml)
    requires DistinctKeys(te)
    ensures MergeEntry(e, te).Some? <==> MergeAt(Some(e.value), Lookup(te, e.key)).Some?
    ensures MergeEntry(e, te).Some? ==>
              var te' := MergeEntry(e, te).value;
              && DistinctKeys(te')
              && Keys(te') == (if Lookup(te, e.key).Some? then Keys(te) else Keys(te) + [e.key])
              && Lookup(te', key)
                 == (if key == e.key then MergeAt(Some(e.value), Lookup(te, e.key)).value else Lookup(te, key))
  {
    var p := Position(te, e.key);
    if p.None? {
      PositionAppend(te, e, key);
      KeysAppend(te, e);
    } else {
      var v := Merge(e.value, te[p.value].value);
      if v.Some? {
        PositionUpdate(te, p.value, v.value, key);
        KeysUpdate(te, p.value, v.value);
      }
    }
  }

  /** The keys of the entries that are not keys of te. */
  function NewKeys(fe: seq<Entry>, te: seq<Entry>): seq<Yaml> {
    if fe == [] then []
    else if Lookup(te, fe[0].key).Some? then NewKeys(fe[1..], te)
    else [fe[0].key] + NewKeys(fe[1..], te)
  }

  lemma {:induction false} NewKeysFrame(fe: seq<Entry>, te: seq<Entry>, te': seq<Entry>)
    requires forall i :: 0 <= i < |fe| ==> (Lookup(te, fe[i].key).Some? <==> Lookup(te', fe[i].key).Some?)
    ensures NewKeys(fe, te) == NewKeys(fe, te')
  {
    if fe != [] {
      assert Lookup(te, fe[0].key).Some? <==> Lookup(te', fe[0].key).Some?;
      forall i | 0 <= i < |fe[1..]|
        ensures Lookup(te, fe[1..][i].key).Some? <==> Lookup(te', fe[1..][i].key).Some?
      {
        assert fe[1..][i] == fe[i + 1];
      }
      NewKeysFrame(fe[1..], te, te');
    }
  }

  ghost predicate MergesAt(fe: seq<Entry>, te: seq<Entry>, key: Yaml) {
    MergeAt(Lookup(fe, key), Lookup(te, key)).Some?
  }

  lemma LookupTail(fe: seq<Entry>, key: Yaml)
    requires fe != [] && DistinctKeys(fe)
    ensures Lookup(fe[1..], key) == if key == fe[0].key then None else Lookup(fe, key)
    ensures Lookup(fe, fe[0].key) == Some(fe[0].value)
  {
  }

  /** The whole loop, key by key. */
  lemma {:induction false} EntriesMerged(fe: seq<Entry>, te: seq<Entry>, key: Yaml)
    requires DistinctKeys(fe) && DistinctKeys(te)
    ensures MergeEntries(fe, te).Some? ==>
              var es := MergeEntries(fe, te).value;
              && DistinctKeys(es) && MergesAt(fe, te, key)
              && Some(Lookup(es, key)) == MergeAt(Lookup(fe, key), Lookup(te, key))
              && Keys(es) == Keys(te) + NewKeys(fe, te)
  {
    if fe != [] && MergeEntry(fe[0], te).Some? {
      var te' := MergeEntry(fe[0], te).value;
      EntryMerged(fe[0], te, key);
      LookupTail(fe, key);
      EntriesMerged(fe[1..], te', key);
      KeysAfterFirst(fe, te);
    }
  }

  /** After the first iteration the other entries' keys are as new as before. */
  lemma KeysAfterFirst(fe: seq<Entry>, te: seq<Entry>)
    requires fe != [] && DistinctKeys(fe) && DistinctKeys(te) && MergeEntry(fe[0], te).Some?
    ensures var te' := MergeEntry(fe[0], te).value;
            Keys(te') + NewKeys(fe[1..], te') == Keys(te) + NewKeys(fe, te)
  {
    var te' := MergeEntry(fe[0], te).value;
    assert NewKeys(fe[1..], te') == NewKeys(fe[1..], te) by {
      OthersAsNew(fe, te);
    }
    assert Keys(te') == if Lookup(te, fe[0].key).Some? then Keys(te) else Keys(te) + [fe[0].key] by {
      EntryMerged(fe[0], te, fe[0].key);
    }
  }

  lemma OthersAsNew(fe: seq<Entry>, te: seq<Entry>)
    requires fe != [] && DistinctKeys(fe) && DistinctKeys(te) && MergeEntry(fe[0], te).Some?
    ensures NewKeys(fe[1..], MergeEntry(fe[0], te).value) == NewKeys(fe[1..], te)
  {
    var te', rest := MergeEntry(fe[0], te).value, fe[1..];
    forall i | 0 <= i < |rest|
      ensures Lookup(te, rest[i].key).Some? <==> Lookup(te', rest[i].key).Some?
    {
      assert rest[i] == fe[i + 1] && rest[i].key != fe[0].key;
      EntryMerged(fe[0], te, rest[i].key);
    }
    NewKeysFrame(rest, te, te');
  }

  /** If the loop fails, it fails at some key that both mappings hold. */
  lemma {:induction false} EntriesFail(fe: seq<Entry>, te: seq<Entry>)
    requires DistinctKeys(fe) && DistinctKeys(te) && MergeEntries(fe, te).None?
    ensures exists i :: 0 <= i < |fe| && !MergesAt(fe, te, fe[i].key)
  {
    EntryMerged(fe[0], te, fe[0].key);
    LookupTail(fe, fe[0].key);
    if MergeEntry(fe[0], te).None? {
      assert !MergesAt(fe, te, fe[0].key);
    } else {
      var te' := MergeEntry(fe[0], te).value;
      EntriesFail(fe[1..], te');
      var i :| 0 <= i < |fe[1..]| && !MergesAt(fe[1..], te', fe[1..][i].key);
      assert fe[1..][i] == fe[i + 1];
      LookupTail(fe, fe[i + 1].key);
      EntryMerged(fe[0], te, fe[i + 1].key);
      assert !MergesAt(fe, te, fe[i + 1].key);
    }
  }

  // ---------------------------------------------------------------- associativity

  function Then(a: Option<Yaml>, b: Option<Yaml>): Option<Yaml> {
    if a.None? || b.None? then None else Merge(b.value, a.value)
  }

  /** Three files merged from the left, `(x <- y) <- z`, and from the right, `x <- (y <- z)`. */
  ghost predicate Associates(x: Yaml, y: Yaml, z: Yaml) {
    Then(Merge(y, x), Some(z)) == Then(Some(x), Merge(z, y))
  }

  function ThenAt(a: Option<Option<Yaml>>, b: Option<Option<Yaml>>): Option<Option<Yaml>> {
    if a.None? || b.None? then None else MergeAt(b.value, a.value)
  }

  lemma AssociatesAt(x: Option<Yaml>, y: Option<Yaml>, z: Option<Yaml>)
    requires x.Some? && y.Some? && z.Some? ==> Associates(x.value, y.value, z.value)
    ensures ThenAt(MergeAt(y, x), Some(z)) == ThenAt(Some(x), MergeAt(z, y))
  {
  }

  lemma {:induction false} SameEntries(a: seq<Entry>, b: seq<Entry>)
    requires DistinctKeys(a) && Keys(a) == Keys(b) && |a| == |b|
    requires forall i :: 0 <= i < |a| ==> a[i].key == b[i].key && Lookup(a, a[i].key) == Lookup(b, a[i].key)
    ensures a == b
  {
    forall i | 0 <= i < |a|
      ensures a[i] == b[i]
    {
      assert DistinctKeys(b);
      LookupHas(a, i);
      LookupHas(b, i);
    }
  }

  lemma {:induction false} KeysAt(es: seq<Entry>, i: nat)
    requires i < |es|
    ensures |Keys(es)| == |es| && Keys(es)[i] == es[i].key
  {
    if i > 0 {
      KeysAt(es[1..], i - 1);
    } else if |es| > 1 {
      KeysAt(es[1..], 0);
    }
  }

  lemma {:induction false} KeysLength(es: seq<Entry>)
    ensures |Keys(es)| == |es|
  {
    if es != [] {
      KeysAt(es, 0);
    }
  }

  lemma EqualEntries(a: seq<Entry>, b: seq<Entry>)
    requires DistinctKeys(a) && Keys(a) == Keys(b) && forall k :: Lookup(a, k) == Lookup(b, k)
    ensures a == b
  {
    KeysLength(a);
    KeysLength(b);
    forall i | 0 <= i < |a|
      ensures a[i].key == b[i].key
    {
      KeysAt(a, i);
      KeysAt(b, i);
    }
    SameEntries(a, b);
  }

  /** The keys that z adds to x and y do not depend on the grouping. */
  lemma {:induction false} NewKeysGroup(ex: seq<Entry>, ey: seq<Entry>, ez: seq<Entry>, xy: seq<Entry>)
    requires forall k :: Lookup(xy, k).Some? <==> Lookup(ex, k).Some? || Lookup(ey, k).Some?
    ensures NewKeys(ez, xy) == Absent(NewKeys(ez, ey), ex)
  {
    if ez != [] {
      NewKeysGroup(ex, ey, ez[1..], xy);
      assert Lookup(xy, ez[0].key).Some? <==> Lookup(ex, ez[0].key).Some? || Lookup(ey, ez[0].key).Some?;
      if Lookup(ey, ez[0].key).None? {
        assert ([ez[0].key] + NewKeys(ez[1..], ey))[1..] == NewKeys(ez[1..], ey);
      }
    }
  }

  /** The keys that are not keys of te. */
  function Absent(keys: seq<Yaml>, te: seq<Entry>): seq<Yaml> {
    if keys == [] then []
    else if Lookup(te, keys[0]).Some? then Absent(keys[1..], te)
    else [keys[0]] + Absent(keys[1..], te)
  }

  lemma {:induction false} NewKeysAbsent(fe: seq<Entry>, te: seq<Entry>)
    ensures NewKeys(fe, te) == Absent(Keys(fe), te)
  {
    if fe != [] {
      NewKeysAbsent(fe[1..], te);
      assert Keys(fe)[1..] == Keys(fe[1..]);
    }
  }

  lemma {:induction false} AbsentConcat(a: seq<Yaml>, b: seq<Yaml>, te: seq<Entry>)
    ensures Absent(a + b, te) == Absent(a, te) + Absent(b, te)
  {
    if a == [] {
      assert a + b == b;
    } else {
      assert (a + b)[1..] == a[1..] + b;
      AbsentConcat(a[1..], b, te);
    }
  }

  /** es is the merge of fe into te, key by key and in key order. */
  ghost predicate Keywise(fe: seq<Entry>, te: seq<Entry>, es: seq<Entry>) {
    && DistinctKeys(es)
    && (forall k :: Some(Lookup(es, k)) == MergeAt(Lookup(fe, k), Lookup(te, k)))
    && Keys(es) == Keys(te) + NewKeys(fe, te)
  }

  lemma MergedKeywise(fe: seq<Entry>, te: seq<Entry>)
    requires DistinctKeys(fe) && DistinctKeys(te) && MergeEntries(fe, te).Some?
    ensures Keywise(fe, te, MergeEntries(fe, te).value)
  {
    forall k
      ensures Some(Lookup(MergeEntries(fe, te).value, k)) == MergeAt(Lookup(fe, k), Lookup(te, k))
    {
      EntriesMerged(fe, te, k);
    }
    EntriesMerged(fe, te, Scalar(""));
  }

  lemma MergeSucceeds(fe: seq<Entry>, te: seq<Entry>)
    requires DistinctKeys(fe) && DistinctKeys(te) && forall k :: MergesAt(fe, te, k)
    ensures MergeEntries(fe, te).Some? && Keywise(fe, te, MergeEntries(fe, te).value)
  {
    if MergeEntries(fe, te).None? {
      EntriesFail(fe, te);
    } else {
      MergedKeywise(fe, te);
    }
  }

  ghost predicate AssociateAt(ex: seq<Entry>, ey: seq<Entry>, ez: seq<Entry>, k: Yaml) {
    ThenAt(MergeAt(Lookup(ey, k), Lookup(ex, k)), Some(Lookup(ez, k)))
    == ThenAt(Some(Lookup(ex, k)), MergeAt(Lookup(ez, k), Lookup(ey, k)))
  }

  ghost predicate AllAssociate(ex: seq<Entry>, ey: seq<Entry>, ez: seq<Entry>) {
    forall k :: AssociateAt(ex, ey, ez, k)
  }

  lemma LeftSucceeds(ex: seq<Entry>, ey: seq<Entry>, ez: seq<Entry>, xy: seq<Entry>, l: seq<Entry>)
    requires DistinctKeys(ex) && DistinctKeys(ey) && DistinctKeys(ez) && AllAssociate(ex, ey, ez)
    requires Keywise(ey, ex, xy) && Keywise(ez, xy, l)
    ensures MergeEntries(ez, ey).Some? && MergeEntries(MergeEntries(ez, ey).value, ex).Some?
  {
    forall k
      ensures MergesAt(ez, ey, k)
    {
      assert AssociateAt(ex, ey, ez, k);
      assert Some(Lookup(xy, k)) == MergeAt(Lookup(ey, k), Lookup(ex, k));
      assert Some(Lookup(l, k)) == MergeAt(Lookup(ez, k), Lookup(xy, k));
    }
    MergeSucceeds(ez, ey);
    var yz := MergeEntries(ez, ey).value;
    forall k
      ensures MergesAt(yz, ex, k)
    {
      assert AssociateAt(ex, ey, ez, k);
      assert Some(Lookup(xy, k)) == MergeAt(Lookup(ey, k), Lookup(ex, k));
      assert Some(Lookup(l, k)) == MergeAt(Lookup(ez, k), Lookup(xy, k));
      assert Some(Lookup(yz, k)) == MergeAt(Lookup(ez, k), Lookup(ey, k));
    }
    MergeSucceeds(yz, ex);
  }

  lemma RightSucceeds(ex: seq<Entry>, ey: seq<Entry>, ez: seq<Entry>, yz: seq<Entry>, r: seq<Entry>)
    requires DistinctKeys(ex) && DistinctKeys(ey) && DistinctKeys(ez) && AllAssociate(ex, ey, ez)
    requires Keywise(ez, ey, yz) && Keywise(yz, ex, r)
    ensures MergeEntries(ey, ex).Some? && MergeEntries(ez, MergeEntries(ey, ex).value).Some?
  {
    forall k
      ensures MergesAt(ey, ex, k)
    {
      assert AssociateAt(ex, ey, ez, k);
      assert Some(Lookup(yz, k)) == MergeAt(Lookup(ez, k), Lookup(ey, k));
      assert Some(Lookup(r, k)) == MergeAt(Lookup(yz, k), Lookup(ex, k));
    }
    MergeSucceeds(ey, ex);
    var xy := MergeEntries(ey, ex).value;
    forall k
      ensures MergesAt(ez, xy, k)
    {
      assert AssociateAt(ex, ey, ez, k);
      assert Some(Lookup(yz, k)) == MergeAt(Lookup(ez, k), Lookup(ey, k));
      assert Some(Lookup(r, k)) == MergeAt(Lookup(yz, k), Lookup(ex, k));
      assert Some(Lookup(xy, k)) == MergeAt(Lookup(ey, k), Lookup(ex, k));
    }
    MergeSucceeds(ez, xy);
  }

  lemma SameKeyOrder(ex: seq<Entry>, ey: seq<Entry>, ez: seq<Entry>, xy: seq<Entry>, yz: seq<Entry>)
    requires forall k :: Lookup(xy, k).Some? <==> Lookup(ex, k).Some? || Lookup(ey, k).Some?
    requires Keys(yz) == Keys(ey) + NewKeys(ez, ey)
    ensures (Keys(ex) + NewKeys(ey, ex)) + NewKeys(ez, xy) == Keys(ex) + NewKeys(yz, ex)
  {
    calc {
      NewKeys(yz, ex);
      { NewKeysAbsent(yz, ex); }
      Absent(Keys(ey) + NewKeys(ez, ey), ex);
      { AbsentConcat(Keys(ey), NewKeys(ez, ey), ex); }
      Absent(Keys(ey), ex) + Absent(NewKeys(ez, ey), ex);
      { NewKeysAbsent(ey, ex); NewKeysGroup(ex, ey, ez, xy); }
      NewKeys(ey, ex) + NewKeys(ez, xy);
    }
  }

  lemma HasEither(fe: seq<Entry>, te: seq<Entry>, es: seq<Entry>, k: Yaml)
    requires Keywise(fe, te, es)
    ensures Lookup(es, k).Some? <==> Lookup(te, k).Some? || Lookup(fe, k).Some?
  {
    assert Some(Lookup(es, k)) == MergeAt(Lookup(fe, k), Lookup(te, k));
  }

  lemma SameGroupings(ex: seq<Entry>, ey: seq<Entry>, ez: seq<Entry>,
                      xy: seq<Entry>, yz: seq<Entry>, l: seq<Entry>, r: seq<Entry>)
    requires AllAssociate(ex, ey, ez)
    requires Keywise(ey, ex, xy) && Keywise(ez, ey, yz) && Keywise(ez, xy, l) && Keywise(yz, ex, r)
    ensures l == r
  {
    forall k
      ensures Lookup(l, k) == Lookup(r, k)
    {
      assert AssociateAt(ex, ey, ez, k);
      assert Some(Lookup(xy, k)) == MergeAt(Lookup(ey, k), Lookup(ex, k));
      assert Some(Lookup(l, k)) == MergeAt(Lookup(ez, k), Lookup(xy, k));
      assert Some(Lookup(yz, k)) == MergeAt(Lookup(ez, k), Lookup(ey, k));
      assert Some(Lookup(r, k)) == MergeAt(Lookup(yz, k), Lookup(ex, k));
    }
    forall k
      ensures Lookup(xy, k).Some? <==> Lookup(ex, k).Some? || Lookup(ey, k).Some?
    {
      HasEither(ey, ex, xy, k);
    }
    SameKeyOrder(ex, ey, ez, xy, yz);
    EqualEntries(l, r);
  }

  lemma LeftAssociates(ex: seq<Entry>, ey: seq<Entry>, ez: seq<Entry>)
    requires DistinctKeys(ex) && DistinctKeys(ey) && DistinctKeys(ez) && AllAssociate(ex, ey, ez)
    requires MergeEntries(ey, ex).Some? && MergeEntries(ez, MergeEntries(ey, ex).value).Some?
    ensures MergeEntries(ez, ey).Some?
    ensures MergeEntries(ez, MergeEntries(ey, ex).value) == MergeEntries(MergeEntries(ez, ey).value, ex)
  {
    MergedKeywise(ey, ex);
    var xy := MergeEntries(ey, ex).value;
    MergedKeywise(ez, xy);
    var l := MergeEntries(ez, xy).value;
    LeftSucceeds(ex, ey, ez, xy, l);
    MergedKeywise(ez, ey);
    var yz := MergeEntries(ez, ey).value;
    MergedKeywise(yz, ex);
    SameGroupings(ex, ey, ez, xy, yz, l, MergeEntries(yz, ex).value);
  }

  lemma MappingsAssociate(ex: seq<Entry>, ey: seq<Entry>, ez: seq<Entry>)
    requires DistinctKeys(ex) && DistinctKeys(ey) && DistinctKeys(ez) && AllAssociate(ex, ey, ez)
    ensures Associates(Mapping(ex), Mapping(ey), Mapping(ez))
  {
    if MergeEntries(ey, ex).Some? && MergeEntries(ez, MergeEntries(ey, ex).value).Some? {
      LeftAssociates(ex, ey, ez);
    } else if MergeEntries(ez, ey).Some? && MergeEntries(MergeEntries(ez, ey).value, ex).Some? {
      MergedKeywise(ez, ey);
      var yz := MergeEntries(ez, ey).value;
      MergedKeywise(yz, ex);
      RightSucceeds(ex, ey, ez, yz, MergeEntries(yz, ex).value);
    }
  }

  lemma LookupProper(es: seq<Entry>, key: Yaml)
    requires Proper(Mapping(es)) && Lookup(es, key).Some?
    ensures Proper(Lookup(es, key).value)
  {
  }

  /** Either grouping of three values fails or succeeds alike, with the same tree and key order. */
  lemma {:induction false} MergeAssociative(x: Yaml, y: Yaml, z: Yaml)
    requires Proper(x) && Proper(y) && Proper(z)
    ensures Associates(x, y, z)
    decreases x
  {
    match (x, y, z)
    case (Mapping(ex), Mapping(ey), Mapping(ez)) =>
      forall k
        ensures AssociateAt(ex, ey, ez, k)
      {
        var vx, vy, vz := Lookup(ex, k), Lookup(ey, k), Lookup(ez, k);
        if vx.Some? && vy.Some? && vz.Some? {
          LookupProper(ex, k);
          LookupProper(ey, k);
          LookupProper(ez, k);
          assert ex[Position(ex, k).value].value == vx.value;
          MergeAssociative(vx.value, vy.value, vz.value);
        }
        AssociatesAt(vx, vy, vz);
      }
      MappingsAssociate(ex, ey, ez);
    case (Sequence(ix), Sequence(iy), Sequence(iz)) =>
      assert (ix + iy) + iz == ix + (iy + iz);
    case (Tagged(_, vx), Tagged(_, vy), Tagged(_, vz)) =>
      MergeAssociative(vx, vy, vz);
    case _ =>
  }

  // ---------------------------------------------------------------- when a merge succeeds

  /** Sequences always merge; mappings if the values under every common key do; tagged values if the tags agree and
      the values merge; nothing else does. */
  ghost predicate Mergeable(from: Yaml, to: Yaml)
    decreases from
  {
    match (from, to)
    case (Mapping(fe), Mapping(te)) =>
      forall i, j :: 0 <= i < |fe| && 0 <= j < |te| && fe[i].key == te[j].key ==> Mergeable(fe[i].value, te[j].value)
    case (Sequence(_), Sequence(_)) => true
    case (Tagged(ft, fv), Tagged(tt, tv)) => ft == tt && Mergeable(fv, tv)
    case _ => false
  }

  lemma {:induction false} MergesIff(from: Yaml, to: Yaml)
    requires Proper(from) && Proper(to)
    ensures Merge(from, to).Some? <==> Mergeable(from, to)
    decreases from
  {
    match (from, to)
    case (Mapping(fe), Mapping(te)) =>
      forall i, j | 0 <= i < |fe| && 0 <= j < |te| && fe[i].key == te[j].key
        ensures Merge(fe[i].value, te[j].value).Some? <==> Mergeable(fe[i].value, te[j].value)
        ensures MergesAt(fe, te, fe[i].key) <==> Merge(fe[i].value, te[j].value).Some?
      {
        LookupHas(fe, i);
        LookupHas(te, j);
        MergesIff(fe[i].value, te[j].value);
      }
      if MergeEntries(fe, te).None? {
        EntriesFail(fe, te);
      } else {
        forall i | 0 <= i < |fe|
          ensures MergesAt(fe, te, fe[i].key)
        {
          EntriesMerged(fe, te, fe[i].key);
        }
      }
    case (Tagged(_, fv), Tagged(_, tv)) => MergesIff(fv, tv);
    case _ =>
  }

  /** The elements of `to` come first. */
  lemma SequencesMerge(from: seq<Yaml>, to: seq<Yaml>)
    ensures Merge(Sequence(from), Sequence(to)) == Some(Sequence(to + from))
  {
  }

  // ---------------------------------------------------------------- nothing is lost

  /** What was there comes first in r, at every depth: sequences are continued, and new keys follow the old ones. */
  ghost predicate Continues(a: Yaml, r: Yaml) {
    match (a, r)
    case (Mapping(ea), Mapping(er)) =>
      && Keys(ea) <= Keys(er)
      && forall i :: 0 <= i < |ea| ==>
           Lookup(er, ea[i].key).Some? && Continues(ea[i].value, Lookup(er, ea[i].key).value)
    case (Sequence(ia), Sequence(ir)) => ia <= ir
    case (Tagged(ta, va), Tagged(tr, vr)) => ta == tr && Continues(va, vr)
    case _ => a == r
  }

  /** What was added comes last in r, at every depth: all entries under their keys, and the elements at the end. */
  ghost predicate Appended(a: Yaml, r: Yaml) {
    match (a, r)
    case (Mapping(ea), Mapping(er)) =>
      forall i :: 0 <= i < |ea| ==>
        Lookup(er, ea[i].key).Some? && Appended(ea[i].value, Lookup(er, ea[i].key).value)
    case (Sequence(ia), Sequence(ir)) => |ia| <= |ir| && ir[|ir| - |ia|..] == ia
    case (Tagged(ta, va), Tagged(tr, vr)) => ta == tr && Appended(va, vr)
    case _ => a == r
  }

  lemma {:induction false} ContainsSelf(a: Yaml)
    requires Proper(a)
    ensures Continues(a, a) && Appended(a, a)
  {
    match a
    case Mapping(es) =>
      forall i | 0 <= i < |es|
        ensures Lookup(es, es[i].key).Some?
        ensures Continues(es[i].value, Lookup(es, es[i].key).value)
        ensures Appended(es[i].value, Lookup(es, es[i].key).value)
      {
        LookupHas(es, i);
        ContainsSelf(es[i].value);
      }
    case Tagged(_, v) => ContainsSelf(v);
    case _ =>
  }

  /** A successful merge keeps every entry and element of both sides, and appends `from` to `to`. */
  lemma {:induction false} NothingLost(from: Yaml, to: Yaml)
    requires Proper(from) && Proper(to) && Merge(from, to).Some?
    ensures Appended(from, Merge(from, to).value) && Continues(to, Merge(from, to).value)
    decreases from
  {
    match (from, to)
    case (Mapping(fe), Mapping(te)) =>
      var es := MergeEntries(fe, te).value;
      forall i | 0 <= i < |fe|
        ensures Lookup(es, fe[i].key).Some? && Appended(fe[i].value, Lookup(es, fe[i].key).value)
      {
        LookupHas(fe, i);
        EntriesMerged(fe, te, fe[i].key);
        ContainsSelf(fe[i].value);
        if Lookup(te, fe[i].key).Some? {
          LookupProper(te, fe[i].key);
          NothingLost(fe[i].value, Lookup(te, fe[i].key).value);
        }
      }
      forall i | 0 <= i < |te|
        ensures Lookup(es, te[i].key).Some? && Continues(te[i].value, Lookup(es, te[i].key).value)
      {
        LookupHas(te, i);
        EntriesMerged(fe, te, te[i].key);
        ContainsSelf(te[i].value);
        if Lookup(fe, te[i].key).Some? {
          LookupProper(fe, te[i].key);
          assert fe[Position(fe, te[i].key).value].value == Lookup(fe, te[i].key).value;
          NothingLost(Lookup(fe, te[i].key).value, te[i].value);
        }
      }
      MergedKeywise(fe, te);
    case (Tagged(_, vf), Tagged(_, vt)) => NothingLost(vf, vt);
    case (Sequence(_), Sequence(_)) =>
  }
}
