/** Canonical text identifies a JSON value exactly up to the order of its keys. */
module CanonicalTheorems {
  import opened Wrappers
  import opened Canonical
  import opened CanonicalDecoder

  // ---------------------------------------------------------------- sorting

  predicate Sorted<T>(fs: seq<Field<T>>) {
    forall i, j :: 0 <= i < j < |fs| ==> Less(fs[i].key, fs[j].key)
  }

  /** Rewriting values commutes with inserting and sorting by key. */
  ghost predicate Related(xs: seq<Field<Result<Text, Error>>>, ys: seq<Field<Json>>) {
    |xs| == |ys| && forall i :: 0 <= i < |xs| ==>
      Clean(ys[i].value) && xs[i] == Field(ys[i].key, Ok(Plain(ys[i].value)))
  }

  lemma {:induction false} InsertRelated(x: Field<Result<Text, Error>>, xs: seq<Field<Result<Text, Error>>>,
                                         y: Field<Json>, ys: seq<Field<Json>>)
    requires Related([x], [y]) && Related(xs, ys)
    ensures Related(Insert(x, xs), Insert(y, ys))
  {
    assert x == [x][0] && y == [y][0];
    if xs != [] && !Less(x.key, xs[0].key) {
      InsertRelated(x, xs[1..], y, ys[1..]);
    }
  }

  lemma {:induction false} SortRelated(xs: seq<Field<Result<Text, Error>>>, ys: seq<Field<Json>>)
    requires Related(xs, ys)
    ensures Related(SortByKey(xs), SortByKey(ys))
  {
    if xs != [] {
      SortRelated(xs[1..], ys[1..]);
      assert Related([xs[0]], [ys[0]]);
      InsertRelated(xs[0], SortByKey(xs[1..]), ys[0], SortByKey(ys[1..]));
    }
  }

  lemma {:induction false} InsertKeeps<T>(f: Field<T>, fs: seq<Field<T>>)
    requires Sorted(fs) && forall i :: 0 <= i < |fs| ==> fs[i].key != f.key
    ensures Sorted(Insert(f, fs))
    ensures forall g :: g in Insert(f, fs) <==> g == f || g in fs
    ensures forall i :: 0 <= i < |Insert(f, fs)| ==> Insert(f, fs)[i] == f || Insert(f, fs)[i] in fs
  {
    if fs != [] {
      LessTrichotomy(f.key, fs[0].key);
      if Less(f.key, fs[0].key) {
        forall j | 0 < j < |fs| ensures Less(f.key, fs[j].key) {
          LessTransitive(f.key, fs[0].key, fs[j].key);
        }
      } else {
        InsertKeeps(f, fs[1..]);
        var r := Insert(f, fs[1..]);
        forall j | 0 <= j < |r| ensures Less(fs[0].key, r[j].key) {
          assert r[j] in r && (r[j] == f || r[j] in fs[1..]);
          if r[j] != f {
            var k :| 0 <= k < |fs[1..]| && fs[1..][k] == r[j];
          }
        }
      }
    }
  }

  lemma {:induction false} SortKeeps<T>(fs: seq<Field<T>>)
    requires DistinctKeys(fs)
    ensures Sorted(SortByKey(fs))
    ensures forall g :: g in SortByKey(fs) <==> g in fs
    ensures forall i :: 0 <= i < |SortByKey(fs)| ==> SortByKey(fs)[i] in fs
  {
    if fs != [] {
      SortKeeps(fs[1..]);
      var r := SortByKey(fs[1..]);
      forall i | 0 <= i < |r| ensures r[i].key != fs[0].key {
        assert r[i] in r && r[i] in fs[1..];
      }
      InsertKeeps(fs[0], r);
    }
  }

  lemma TailMembers<T>(xs: seq<Field<T>>, ys: seq<Field<T>>)
    requires Sorted(xs) && xs != [] && ys != [] && xs[0] == ys[0]
    requires forall g :: g in xs ==> g in ys
    ensures forall g :: g in xs[1..] ==> g in ys[1..]
  {
    forall g | g in xs[1..] ensures g in ys[1..] {
      LessTrichotomy(g.key, g.key);
      assert g in xs && g != xs[0];
    }
  }

  /** Two sorted lists with the same members are the same list. */
  lemma {:induction false} SortedUnique<T>(xs: seq<Field<T>>, ys: seq<Field<T>>)
    requires Sorted(xs) && Sorted(ys) && |xs| == |ys|
    requires forall g :: g in xs <==> g in ys
    ensures xs == ys
  {
    if xs != [] {
      assert xs[0] in ys && ys[0] in xs;
      var i :| 0 <= i < |ys| && ys[i] == xs[0];
      var j :| 0 <= j < |xs| && xs[j] == ys[0];
      LessTrichotomy(xs[0].key, ys[0].key);
      assert xs[0] == ys[0];
      TailMembers(xs, ys);
      TailMembers(ys, xs);
      SortedUnique(xs[1..], ys[1..]);
      assert xs == [xs[0]] + xs[1..] && ys == [ys[0]] + ys[1..];
    }
  }

  // ---------------------------------------------------------------- the printer prints the normal form

  lemma {:induction false} JoinItems(ts: seq<Result<Text, Error>>, vs: seq<Json>)
    requires |ts| == |vs| && forall i :: 0 <= i < |vs| ==> Clean(vs[i]) && ts[i] == Ok(Plain(vs[i]))
    ensures Join(ts) == Ok(PlainItems(vs))
  {
    if |vs| > 1 { JoinItems(ts[1..], vs[1..]); }
  }

  lemma {:induction false} JoinFields(xs: seq<Field<Result<Text, Error>>>, ys: seq<Field<Json>>)
    requires Related(xs, ys)
    ensures Join(Members(xs)) == Ok(PlainFields(ys))
  {
    if |xs| == 1 {
      assert Members(xs)[1..] == Members(xs[1..]) == [];
    } else if |xs| > 1 {
      JoinFields(xs[1..], ys[1..]);
      assert Members(xs)[1..] == Members(xs[1..]);
    }
  }

  lemma {:induction false} PrintsNormalForm(v: Json)
    requires Clean(v)
    ensures Clean(Normal(v)) && CanonicalJson(v) == Ok(Plain(Normal(v)))
    decreases v
  {
    match v
    case Arr(items) =>
      forall i | 0 <= i < |items|
        ensures Clean(Normal(items[i])) && CanonicalJson(items[i]) == Ok(Plain(Normal(items[i])))
      {
        PrintsNormalForm(items[i]);
      }
      JoinItems(CanonicalItems(items), NormalItems(items));
    case Obj(fields) =>
      var xs, ys := CanonicalFields(fields), NormalFields(fields);
      forall i | 0 <= i < |fields| ensures Clean(ys[i].value) && xs[i].value == Ok(Plain(ys[i].value)) {
        PrintsNormalForm(fields[i].value);
      }
      SortRelated(xs, ys);
      JoinFields(SortByKey(xs), SortByKey(ys));
    case _ =>
  }

  lemma {:induction false} JoinFails(ts: seq<Result<Text, Error>>, i: nat)
    requires i < |ts| && ts[i].Err?
    ensures Join(ts).Err?
  {
    if i > 0 { JoinFails(ts[1..], i - 1); }
  }

  lemma {:induction false} MembersFail(xs: seq<Field<Result<Text, Error>>>, i: nat)
    requires i < |xs| && xs[i].value.Err?
    ensures Members(xs)[i].Err?
  {
    if i > 0 { MembersFail(xs[1..], i - 1); }
  }

  lemma {:induction false} InsertMembers<T>(f: Field<T>, fs: seq<Field<T>>, g: Field<T>)
    requires g == f || g in fs
    ensures g in Insert(f, fs)
  {
    if fs != [] && !Less(f.key, fs[0].key) && g != fs[0] { InsertMembers(f, fs[1..], g); }
  }

  lemma {:induction false} SortMembers<T>(fs: seq<Field<T>>, g: Field<T>)
    requires g in fs
    ensures g in SortByKey(fs)
  {
    if g != fs[0] { SortMembers(fs[1..], g); }
    InsertMembers(fs[0], SortByKey(fs[1..]), g);
  }

  /** Printing succeeds on exactly the clean values. */
  lemma {:induction false} PrintsIffClean(v: Json)
    ensures CanonicalJson(v).Ok? <==> Clean(v)
    decreases v
  {
    if Clean(v) {
      PrintsNormalForm(v);
    } else if v.Arr? {
      var i :| 0 <= i < |v.items| && !Clean(v.items[i]);
      PrintsIffClean(v.items[i]);
      JoinFails(CanonicalItems(v.items), i);
    } else if v.Obj? {
      var i :| 0 <= i < |v.fields| && !Clean(v.fields[i].value);
      PrintsIffClean(v.fields[i].value);
      var xs := CanonicalFields(v.fields);
      assert xs[i].value.Err?;
      SortMembers(xs, xs[i]);
      var j :| 0 <= j < |xs| && SortByKey(xs)[j] == xs[i];
      MembersFail(SortByKey(xs), j);
      JoinFails(Members(SortByKey(xs)), j);
    }
  }

  /** The decoder inverts the printer, up to key order. */
  lemma DecodeInvertsPrinting(v: Json)
    requires Clean(v)
    ensures CanonicalJson(v).Ok? && Decode(CanonicalJson(v).value) == Some(Normal(v))
  {
    PrintsNormalForm(v);
    ParsePlain(Normal(v), []);
    assert Plain(Normal(v)) + [] == Plain(Normal(v));
  }

  // ---------------------------------------------------------------- equal text means the same value

  lemma {:induction false} Cardinality<T>(fs: seq<Field<T>>)
    requires DistinctKeys(fs)
    ensures |set g | g in fs| == |fs|
  {
    if fs != [] {
      Cardinality(fs[1..]);
      assert fs == [fs[0]] + fs[1..];
      assert fs[0] !in fs[1..];
      assert (set g | g in fs) == {fs[0]} + set g | g in fs[1..];
    }
  }

  lemma SubsetOfEqualSize<T>(a: set<T>, b: set<T>)
    requires a <= b && |a| == |b|
    ensures a == b
  {
    assert |b - a| == 0;
  }

  /** Equally many distinct keys on both sides: members of one list are members of the other. */
  lemma InjectionIsOnto<T>(xs: seq<Field<T>>, ys: seq<Field<T>>)
    requires |xs| == |ys| && DistinctKeys(xs) && DistinctKeys(ys)
    requires forall g :: g in xs ==> g in ys
    ensures forall g :: g in ys ==> g in xs
  {
    var image, whole := set g | g in xs, set g | g in ys;
    Cardinality(xs);
    Cardinality(ys);
    SubsetOfEqualSize(image, whole);
    forall g | g in ys ensures g in xs { assert g in whole; }
  }

  lemma {:induction false} SameMembersSortAlike(fs: seq<Field<Json>>, gs: seq<Field<Json>>, xs: seq<Field<Json>>, ys: seq<Field<Json>>)
    requires |fs| == |gs| && DistinctKeys(fs) && DistinctKeys(gs)
    requires xs == NormalFields(fs) && ys == NormalFields(gs)
    requires forall i :: 0 <= i < |fs| ==>
      exists j :: 0 <= j < |gs| && fs[i].key == gs[j].key && Normal(fs[i].value) == Normal(gs[j].value)
    ensures SortByKey(xs) == SortByKey(ys)
  {
    forall x | x in xs ensures x in ys {
      var i :| 0 <= i < |xs| && xs[i] == x;
      var j :| 0 <= j < |gs| && fs[i].key == gs[j].key && Normal(fs[i].value) == Normal(gs[j].value);
      assert ys[j] == x;
    }
    InjectionIsOnto(xs, ys);
    SortKeeps(xs);
    SortKeeps(ys);
    SortedUnique(SortByKey(xs), SortByKey(ys));
  }

  lemma {:induction false} SameHaveOneNormalForm(a: Json, b: Json)
    requires WellFormed(a) && WellFormed(b) && Same(a, b)
    ensures Normal(a) == Normal(b)
    decreases a
  {
    match (a, b)
    case (Arr(xs), Arr(ys)) =>
      forall i | 0 <= i < |xs| ensures Normal(xs[i]) == Normal(ys[i]) {
        SameHaveOneNormalForm(xs[i], ys[i]);
      }
      assert NormalItems(xs) == NormalItems(ys);
    case (Obj(fs), Obj(gs)) =>
      forall i | 0 <= i < |fs|
        ensures exists j :: 0 <= j < |gs| && fs[i].key == gs[j].key && Normal(fs[i].value) == Normal(gs[j].value)
      {
        var j :| 0 <= j < |gs| && fs[i].key == gs[j].key && Same(fs[i].value, gs[j].value);
        SameHaveOneNormalForm(fs[i].value, gs[j].value);
      }
      SameMembersSortAlike(fs, gs, NormalFields(fs), NormalFields(gs));
    case _ =>
  }

  lemma {:induction false} OneNormalFormMeansSame(a: Json, b: Json)
    requires WellFormed(a) && WellFormed(b) && Normal(a) == Normal(b)
    ensures Same(a, b)
    decreases a
  {
    match (a, b)
    case (Arr(xs), Arr(ys)) =>
      assert |NormalItems(xs)| == |NormalItems(ys)|;
      forall i | 0 <= i < |xs| ensures Same(xs[i], ys[i]) {
        assert NormalItems(xs)[i] == NormalItems(ys)[i];
        OneNormalFormMeansSame(xs[i], ys[i]);
      }
    case (Obj(fs), Obj(gs)) =>
      var xs, ys := NormalFields(fs), NormalFields(gs);
      SortKeeps(xs);
      SortKeeps(ys);
      assert |SortByKey(xs)| == |SortByKey(ys)|;
      forall i | 0 <= i < |fs|
        ensures HasTwin(fs[i], gs)
      {
        assert xs[i] in SortByKey(xs) && xs[i] in ys;
        var j :| 0 <= j < |ys| && ys[j] == xs[i];
        OneNormalFormMeansSame(fs[i].value, gs[j].value);
      }
    case _ =>
  }

  /** Equal canonical texts are equal JSON values up to key order, and the other way round. */
  lemma EqualTextIffSame(a: Json, b: Json)
    requires Clean(a) && Clean(b) && WellFormed(a) && WellFormed(b)
    ensures CanonicalJson(a) == CanonicalJson(b) <==> Same(a, b)
  {
    DecodeInvertsPrinting(a);
    DecodeInvertsPrinting(b);
    if CanonicalJson(a) == CanonicalJson(b) {
      OneNormalFormMeansSame(a, b);
    }
    if Same(a, b) {
      SameHaveOneNormalForm(a, b);
      PrintsNormalForm(a);
      PrintsNormalForm(b);
    }
  }

  lemma {:induction false} SameReflexive(v: Json)
    ensures Same(v, v)
    decreases v
  {
    match v
    case Arr(items) => forall i | 0 <= i < |items| ensures Same(items[i], items[i]) { SameReflexive(items[i]); }
    case Obj(fields) =>
      forall i | 0 <= i < |fields|
        ensures HasTwin(fields[i], fields)
      {
        SameReflexive(fields[i].value);
        assert fields[i].key == fields[i].key;
      }
    case _ =>
  }

  lemma Repeated<T>(gs: seq<T>, i: nat, j: nat)
    requires i < j < |gs| && gs[i] == gs[j]
    ensures multiset(gs)[gs[i]] >= 2
  {
    assert gs == gs[..j] + ([gs[j]] + gs[j + 1..]);
    assert gs[i] in gs[..j];
    assert multiset(gs) == multiset(gs[..j]) + (multiset{gs[j]} + multiset(gs[j + 1..]));
  }

  lemma {:induction false} DistinctOnce(fs: seq<Field<Json>>, g: Field<Json>)
    requires DistinctKeys(fs)
    ensures multiset(fs)[g] <= 1
  {
    if fs != [] {
      assert fs == [fs[0]] + fs[1..];
      DistinctOnce(fs[1..], g);
      assert fs[0] !in fs[1..];
    }
  }

  /** Reordering the keys of an object, at any depth reached by `Same`, keeps the text. */
  lemma PermutingKeysKeepsText(fs: seq<Field<Json>>, gs: seq<Field<Json>>)
    requires WellFormed(Obj(fs)) && Clean(Obj(fs)) && multiset(fs) == multiset(gs)
    ensures CanonicalJson(Obj(fs)) == CanonicalJson(Obj(gs))
  {
    assert |fs| == |multiset(fs)| == |gs|;
    forall g | g in gs ensures g in fs { assert multiset(fs)[g] > 0; }
    forall i, j | 0 <= i < j < |gs| ensures gs[i].key != gs[j].key {
      if gs[i].key == gs[j].key {
        assert gs[i] in fs && gs[j] in fs;
        assert gs[i] == gs[j];
        Repeated(gs, i, j);
        DistinctOnce(fs, gs[i]);
        assert false;
      }
    }
    forall i | 0 <= i < |gs| ensures Clean(gs[i].value) && WellFormed(gs[i].value) { assert gs[i] in fs; }
    forall i | 0 <= i < |fs|
      ensures HasTwin(fs[i], gs)
    {
      assert fs[i] in multiset(fs) && fs[i] in gs;
      var j :| 0 <= j < |gs| && gs[j] == fs[i];
      SameReflexive(fs[i].value);
    }
    EqualTextIffSame(Obj(fs), Obj(gs));
  }
}
