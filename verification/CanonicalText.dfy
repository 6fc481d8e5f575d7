/** The canonical text of a value, unit by unit: which escapes, which literals, which order, and
which error when there is none. */
module CanonicalText {
  import opened Wrappers
  import opened Decimal
  import opened Canonical
  import opened CanonicalDecoder
  import opened CanonicalTheorems

  // ---------------------------------------------------------------- strings

  function Flat(ts: seq<Text>): Text {
    if ts == [] then [] else Flat(ts[..|ts| - 1]) + ts[|ts| - 1]
  }

  /** A surrogate at k that has no partner next to it. */
  predicate Stray(s: Text, k: nat)
    requires k < |s|
  {
    (0xD800 <= s[k] < 0xDC00 && !(k + 1 < |s| && 0xDC00 <= s[k + 1] < 0xE000)) ||
    (0xDC00 <= s[k] < 0xE000 && !(k > 0 && 0xD800 <= s[k - 1] < 0xDC00))
  }

  /** d is the lower-case hex digit of value n. */
  predicate HexDigit(d: Unit, n: int) {
    (48 <= d <= 57 && d as int - 48 == n) || (97 <= d <= 102 && d as int - 87 == n)
  }

  /** How `JSON.stringify` writes unit k of s: the short escapes, `\u` and four hex digits for other
      control characters and stray surrogates, and everything else as it is. */
  predicate Spells(p: Text, s: Text, k: nat)
    requires k < |s|
  {
    var u := s[k];
    if u == 8 then p == [92, 98]
    else if u == 9 then p == [92, 116]
    else if u == 10 then p == [92, 110]
    else if u == 12 then p == [92, 102]
    else if u == 13 then p == [92, 114]
    else if u == 34 then p == [92, 34]
    else if u == 92 then p == [92, 92]
    else if u < 32 || Stray(s, k) then
      |p| == 6 && p[0] == 92 && p[1] == 117 &&
      HexDigit(p[2], u as int / 4096) && HexDigit(p[3], u as int / 256 % 16) &&
      HexDigit(p[4], u as int / 16 % 16) && HexDigit(p[5], u as int % 16)
    else p == [u]
  }

  predicate SpelledBy(t: Text, s: Text, pieces: seq<Text>) {
    |pieces| == |s| && (forall k :: 0 <= k < |s| ==> Spells(pieces[k], s, k)) && t == [34] + Flat(pieces) + [34]
  }

  ghost predicate IsStringText(t: Text, s: Text) {
    exists pieces: seq<Text> :: SpelledBy(t, s, pieces)
  }

  lemma OnePiece(s: Text, k: nat, piece: Text)
    requires k < |s|
    requires piece == EscapeUnit(s[k], Stray(s, k))
    ensures Spells(piece, s, k)
  {
  }

  lemma {:induction false} FlatCons(t: Text, ts: seq<Text>)
    ensures Flat([t] + ts) == t + Flat(ts)
  {
    if ts == [] {
      assert [t] + ts == [t] && [t][..0] == [];
    } else {
      FlatCons(t, ts[..|ts| - 1]);
      assert ([t] + ts)[..|ts|] == [t] + ts[..|ts| - 1];
    }
  }

  /** Whether unit k is the second half of a surrogate pair. */
  predicate Closes(s: Text, k: nat) { k > 0 && k < |s| && High(s[k - 1]) && Low(s[k]) }

  lemma {:induction false} EscapeHead(s: Text, k: nat) returns (piece: Text)
    requires k < |s|
    ensures Spells(piece, s, k)
    ensures Escape(Closes(s, k), s[k..]) == piece + Escape(Closes(s, k + 1), s[k + 1..])
  {
    var opens := High(s[k]) && k + 1 < |s| && Low(s[k + 1]);
    piece := EscapeUnit(s[k], (High(s[k]) && !opens) || (Low(s[k]) && !Closes(s, k)));
    OnePiece(s, k, piece);
    assert s[k..][1..] == s[k + 1..];
  }

  /** The pieces spell the units from k on. */
  predicate Pieces(s: Text, k: nat, pieces: seq<Text>) {
    k + |pieces| == |s| && forall i :: 0 <= i < |pieces| ==> Spells(pieces[i], s, k + i)
  }

  lemma {:induction false} PiecesCons(s: Text, k: nat, piece: Text, rest: seq<Text>)
    requires k < |s| && Spells(piece, s, k) && Pieces(s, k + 1, rest)
    ensures Pieces(s, k, [piece] + rest)
  {
    forall i | 0 <= i < |rest| + 1
      ensures Spells(([piece] + rest)[i], s, k + i)
    {
      assert i > 0 ==> Spells(rest[i - 1], s, k + 1 + (i - 1));
    }
  }

  /** The escaped text of the part of s from k on. */
  lemma {:induction false} EscapedFrom(s: Text, k: nat) returns (pieces: seq<Text>)
    requires k <= |s|
    ensures Pieces(s, k, pieces) && Escape(Closes(s, k), s[k..]) == Flat(pieces)
    decreases |s| - k
  {
    if k == |s| {
      pieces := [];
    } else {
      var rest := EscapedFrom(s, k + 1);
      var piece := EscapeHead(s, k);
      FlatCons(piece, rest);
      PiecesCons(s, k, piece, rest);
      pieces := [piece] + rest;
    }
  }

  lemma {:induction false} StringIsSpelled(s: Text)
    ensures IsStringText(Quoted(s), s)
  {
    var pieces := EscapedFrom(s, 0);
    assert s[0..] == s;
    assert Quoted(s) == [34] + Flat(pieces) + [34];
    assert SpelledBy(Quoted(s), s, pieces);
  }

  // ---------------------------------------------------------------- numbers

  /** Decimal notation: a minus sign for negative numbers, and no leading zero. */
  predicate Notes(t: Text, n: int, ds: seq<Digit>) {
    ds != [] && (|ds| > 1 ==> ds[0] != 0) && Value(ds) == (if n < 0 then -n else n) &&
    var sign: Text := if n < 0 then [45] else [];
    |t| == |sign| + |ds| && t[..|sign|] == sign &&
    forall i :: 0 <= i < |ds| ==> t[|sign| + i] as int == 48 + ds[i] as int
  }

  ghost predicate IsNumberText(t: Text, n: int) { exists ds: seq<Digit> :: Notes(t, n, ds) }

  lemma {:induction false} NumberIsNoted(n: SafeInt)
    ensures IsNumberText(NumberText(n), n)
  {
    assert Notes(NumberText(n), n, Digits(if n < 0 then -n else n));
  }

  // ---------------------------------------------------------------- values

  function Commas(ts: seq<Text>): Text {
    if ts == [] then [] else if |ts| == 1 then ts[0] else ts[0] + ([44] + Commas(ts[1..]))
  }

  /** t is the canonical text of v. */
  ghost predicate PrintsAs(t: Text, v: Json)
    decreases v, 2
  {
    match v
    case Null => t == [110, 117, 108, 108]
    case Bool(b) => t == if b then [116, 114, 117, 101] else [102, 97, 108, 115, 101]
    case Num(n) => IsNumberText(t, n)
    case Str(s) => IsStringText(t, s)
    case Arr(items) => exists ts: seq<Text> :: PrintsItems(t, items, ts)
    case Obj(fields) => exists order: seq<nat>, ts: seq<Text> :: PrintsFields(t, fields, order, ts)
    case _ => false
  }

  ghost predicate PrintsItems(t: Text, items: seq<Json>, ts: seq<Text>)
    decreases items, 1
  {
    |ts| == |items| && (forall i :: 0 <= i < |items| ==> PrintsAs(ts[i], items[i])) && t == [91] + (Commas(ts) + [93])
  }

  /** The members stand in the order of their keys. */
  ghost predicate PrintsFields(t: Text, fields: seq<Field<Json>>, order: seq<nat>, ts: seq<Text>)
    decreases fields, 1
  {
    |order| == |ts| == |fields| && t == [123] + (Commas(ts) + [125]) &&
    (forall j :: 0 <= j < |ts| ==> order[j] < |fields| && PrintsField(ts[j], fields[order[j]])) &&
    (forall j, k :: 0 <= j < k < |order| ==> Less(fields[order[j]].key, fields[order[k]].key))
  }

  ghost predicate PrintsField(t: Text, f: Field<Json>)
    decreases f, 0
  {
    exists key: Text, value: Text :: IsStringText(key, f.key) && PrintsAs(value, f.value) && t == key + ([58] + value)
  }

  lemma {:induction false} ItemsAreCommas(items: seq<Json>, ts: seq<Text>)
    requires |ts| == |items| && forall i :: 0 <= i < |items| ==> Clean(items[i]) && ts[i] == Plain(items[i])
    ensures PlainItems(items) == Commas(ts)
  {
    if |items| > 1 {
      ItemsAreCommas(items[1..], ts[1..]);
    }
  }

  function MemberText(f: Field<Json>): Text
    requires Clean(f.value)
  {
    Quoted(f.key) + ([58] + Plain(f.value))
  }

  lemma {:induction false} FieldsAreCommas(fields: seq<Field<Json>>, ts: seq<Text>)
    requires |ts| == |fields| && forall i :: 0 <= i < |fields| ==> Clean(fields[i].value) && ts[i] == MemberText(fields[i])
    ensures PlainFields(fields) == Commas(ts)
  {
    if |fields| > 1 {
      FieldsAreCommas(fields[1..], ts[1..]);
    }
  }

  predicate ComesFrom<T(==)>(ys: seq<T>, xs: seq<T>, order: seq<nat>) {
    |order| == |ys| && forall j :: 0 <= j < |ys| ==> order[j] < |xs| && ys[j] == xs[order[j]]
  }

  /** Where the members of one list stand in another. */
  lemma {:induction false} Places<T>(ys: seq<T>, xs: seq<T>) returns (order: seq<nat>)
    requires forall j :: 0 <= j < |ys| ==> ys[j] in xs
    ensures ComesFrom(ys, xs, order)
  {
    if ys == [] {
      order := [];
    } else {
      var front := Places(ys[..|ys| - 1], xs);
      assert ys[|ys| - 1] in xs;
      var i :| 0 <= i < |xs| && xs[i] == ys[|ys| - 1];
      order := front + [i];
    }
  }

  lemma {:induction false} PlainPrints(v: Json)
    requires Clean(v) && WellFormed(v)
    ensures Clean(Normal(v)) && PrintsAs(Plain(Normal(v)), v)
    decreases v, 1
  {
    PrintsNormalForm(v);
    match v
    case Num(n) => NumberIsNoted(n);
    case Str(s) => StringIsSpelled(s);
    case Arr(items) =>
      forall i | 0 <= i < |items|
        ensures Clean(Normal(items[i])) && PrintsAs(Plain(Normal(items[i])), items[i])
      {
        PlainPrints(items[i]);
      }
      var ts := seq(|items|, i requires 0 <= i < |items| => Plain(Normal(items[i])));
      ItemsAreCommas(NormalItems(items), ts);
      assert PrintsItems(Plain(Normal(v)), items, ts);
    case Obj(fields) => ObjectPrints(fields);
    case _ =>
  }

  /** The text of every value it has one for is the one spelled out above. */
  lemma {:induction false} TextIsSpelled(v: Json)
    requires Clean(v) && WellFormed(v)
    ensures CanonicalJson(v).Ok? && PrintsAs(CanonicalJson(v).value, v)
  {
    PrintsNormalForm(v);
    PlainPrints(v);
  }

  lemma {:induction false} MemberPrints(f: Field<Json>)
    requires Clean(f.value) && WellFormed(f.value)
    ensures Clean(Normal(f.value)) && PrintsField(MemberText(Field(f.key, Normal(f.value))), f)
    decreases f, 2
  {
    PlainPrints(f.value);
    StringIsSpelled(f.key);
    assert MemberText(Field(f.key, Normal(f.value))) == Quoted(f.key) + ([58] + Plain(Normal(f.value)));
  }

  /** Members put in key order are in the order of the keys they had before. */
  lemma {:induction false} OrderedByKey(fields: seq<Field<Json>>, sorted: seq<Field<Json>>, order: seq<nat>)
    requires |sorted| == |order| && forall j :: 0 <= j < |order| ==> order[j] < |fields| && sorted[j].key == fields[order[j]].key
    requires forall j, k :: 0 <= j < k < |sorted| ==> Less(sorted[j].key, sorted[k].key)
    ensures forall j, k :: 0 <= j < k < |order| ==> Less(fields[order[j]].key, fields[order[k]].key)
  {
    forall j, k | 0 <= j < k < |order|
      ensures Less(fields[order[j]].key, fields[order[k]].key)
    {
      assert sorted[j].key == fields[order[j]].key && sorted[k].key == fields[order[k]].key;
    }
  }

  /** Each sorted member is one of the object's, normalized, and they stand by increasing key. */
  predicate SortsTo(fields: seq<Field<Json>>, sorted: seq<Field<Json>>, order: seq<nat>) {
    |order| == |sorted| == |fields| &&
    (forall j :: 0 <= j < |order| ==>
      order[j] < |fields| && sorted[j] == Field(fields[order[j]].key, Normal(fields[order[j]].value))) &&
    (forall j, k :: 0 <= j < k < |order| ==> Less(fields[order[j]].key, fields[order[k]].key))
  }

  lemma {:induction false} SortPlaces<T>(fs: seq<Field<T>>) returns (order: seq<nat>)
    requires DistinctKeys(fs)
    ensures ComesFrom(SortByKey(fs), fs, order) && Sorted(SortByKey(fs))
  {
    SortKeeps(fs);
    order := Places(SortByKey(fs), fs);
  }

  lemma {:induction false} SortedFields(fields: seq<Field<Json>>) returns (order: seq<nat>)
    requires DistinctKeys(fields)
    ensures SortsTo(fields, SortByKey(NormalFields(fields)), order)
  {
    var normal := NormalFields(fields);
    assert DistinctKeys(normal);
    order := SortPlaces(normal);
    OrderedByKey(fields, SortByKey(normal), order);
  }

  function MemberTexts(fields: seq<Field<Json>>): (ts: seq<Text>)
    requires forall i :: 0 <= i < |fields| ==> Clean(fields[i].value)
    ensures |ts| == |fields| && forall i :: 0 <= i < |ts| ==> ts[i] == MemberText(fields[i])
  {
    seq(|fields|, i requires 0 <= i < |fields| => MemberText(fields[i]))
  }

  lemma {:induction false} ObjectPrints(fields: seq<Field<Json>>)
    requires Clean(Obj(fields)) && WellFormed(Obj(fields)) && Clean(Normal(Obj(fields)))
    ensures PrintsAs(Plain(Normal(Obj(fields))), Obj(fields))
    decreases Obj(fields), 0
  {
    var sorted := SortByKey(NormalFields(fields));
    var order := SortedFields(fields);
    var ts := MemberTexts(sorted);
    FieldsAreCommas(sorted, ts);
    forall j | 0 <= j < |ts|
      ensures PrintsField(ts[j], fields[order[j]])
    {
      MemberPrints(fields[order[j]]);
    }
    assert PrintsFields(Plain(Normal(Obj(fields))), fields, order, ts);
  }

  // ---------------------------------------------------------------- errors

  lemma UnprintableLeaves()
    ensures CanonicalJson(NonFinite) == Err(NonFiniteNumber)
    ensures CanonicalJson(Undefined) == Err(UnsupportedType(true)) && CanonicalJson(Other) == Err(UnsupportedType(false))
  {
  }

  lemma {:induction false} JoinStops(ts: seq<Result<Text, Error>>, i: nat)
    requires i < |ts| && ts[i].Err? && forall j :: 0 <= j < i ==> ts[j].Ok?
    ensures Join(ts) == Err(ts[i].error)
  {
    if i > 0 {
      JoinStops(ts[1..], i - 1);
    }
  }

  /** An array throws what its first item that throws does. */
  lemma ArrayError(items: seq<Json>, i: nat)
    requires i < |items| && CanonicalJson(items[i]).Err? && forall j :: 0 <= j < i ==> CanonicalJson(items[j]).Ok?
    ensures CanonicalJson(Arr(items)) == CanonicalJson(items[i])
  {
    JoinStops(CanonicalItems(items), i);
  }

  /** What printing a member's value comes to. */
  function MemberResult(f: Field<Json>): Result<Text, Error> {
    if f.value.Undefined? then Err(UndefinedValue(f.key)) else CanonicalJson(f.value)
  }

  lemma {:induction false} MembersAt(fs: seq<Field<Result<Text, Error>>>, i: nat)
    requires i < |fs|
    ensures Members(fs)[i].Err? <==> fs[i].value.Err?
    ensures fs[i].value.Err? ==> Members(fs)[i] == Err(fs[i].value.error)
  {
    if i > 0 {
      MembersAt(fs[1..], i - 1);
    }
  }

  /** The first member of a sorted list that throws, if all with a lesser key print. */
  lemma {:induction false} SortedStops(sorted: seq<Field<Result<Text, Error>>>, p: nat)
    requires p < |sorted| && sorted[p].value.Err? && forall q :: 0 <= q < p ==> sorted[q].value.Ok?
    ensures Join(Members(sorted)) == Err(sorted[p].value.error)
  {
    forall q | 0 <= q < p
      ensures Members(sorted)[q].Ok?
    {
      MembersAt(sorted, q);
    }
    MembersAt(sorted, p);
    JoinStops(Members(sorted), p);
  }

  lemma {:induction false} LeastStops(printed: seq<Field<Result<Text, Error>>>, i: nat)
    requires DistinctKeys(printed) && i < |printed| && printed[i].value.Err?
    requires forall j :: 0 <= j < |printed| && Less(printed[j].key, printed[i].key) ==> printed[j].value.Ok?
    ensures Join(Members(SortByKey(printed))) == Err(printed[i].value.error)
  {
    var sorted := SortByKey(printed);
    SortKeeps(printed);
    var order := Places(sorted, printed);
    assert printed[i] in sorted;
    var p :| 0 <= p < |sorted| && sorted[p] == printed[i];
    forall q | 0 <= q < p
      ensures sorted[q].value.Ok?
    {
      assert Less(sorted[q].key, sorted[p].key);
      assert sorted[q] == printed[order[q]];
    }
    SortedStops(sorted, p);
  }

  /** An object throws what the member does that throws and has the least key of those. */
  lemma {:induction false} ObjectError(fields: seq<Field<Json>>, i: nat)
    requires DistinctKeys(fields) && i < |fields| && MemberResult(fields[i]).Err?
    requires forall j :: 0 <= j < |fields| && Less(fields[j].key, fields[i].key) ==> MemberResult(fields[j]).Ok?
    ensures CanonicalJson(Obj(fields)) == Err(MemberResult(fields[i]).error)
  {
    LeastStops(CanonicalFields(fields), i);
  }
}
