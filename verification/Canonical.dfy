/** `canonicalJson` (packages/facilitator/src/canonical.ts) and a decoder that inverts it.

A JavaScript string is a sequence of UTF-16 code units. Objects list their
members in insertion order, so key order is something the printer has to undo. */
module Canonical {
  import opened Wrappers
  import opened Decimal

  newtype Unit = u: int | 0 <= u < 0x1_0000
  type Text = seq<Unit>

  /** Integers that a JavaScript number holds exactly. */
  type SafeInt = n: int | -9007199254740991 <= n <= 9007199254740991

  datatype Field<T> = Field(key: Text, value: T)

  /** What `canonicalJson` can be handed; the last three make it throw. */
  datatype Json =
    | Null
    | Bool(b: bool)
    | Num(n: SafeInt)
    | Str(s: Text)
    | Arr(items: seq<Json>)
    | Obj(fields: seq<Field<Json>>)
    | Undefined
    | NonFinite
    | Other

  datatype Error = UndefinedValue(key: Text) | NonFiniteNumber | UnsupportedType(undefined: bool)

  const QUOTE: Unit := 34
  const COMMA: Unit := 44
  const MINUS: Unit := 45
  const COLON: Unit := 58
  const LBRACKET: Unit := 91
  const BACKSLASH: Unit := 92
  const RBRACKET: Unit := 93
  const LBRACE: Unit := 123
  const RBRACE: Unit := 125
  const NULL_TEXT: Text := [110, 117, 108, 108]
  const TRUE_TEXT: Text := [116, 114, 117, 101]
  const FALSE_TEXT: Text := [102, 97, 108, 115, 101]

  // ---------------------------------------------------------------- strings

  predicate High(u: Unit) { 0xD800 <= u < 0xDC00 }
  predicate Low(u: Unit) { 0xDC00 <= u < 0xE000 }

  function HexUnit(d: int): (u: Unit)
    requires 0 <= d < 16
  {
    (if d < 10 then 48 + d else 87 + d) as Unit
  }

  function UnicodeEscape(u: Unit): Text {
    var n := u as int;
    [BACKSLASH, 117, HexUnit(n / 0x1000), HexUnit(n / 0x100 % 16), HexUnit(n / 16 % 16), HexUnit(n % 16)]
  }

  /** One code unit inside a string literal, as `JSON.stringify` writes it;
      `lone` says the unit is a surrogate without its partner. */
  function EscapeUnit(u: Unit, lone: bool): Text {
    if u == QUOTE || u == BACKSLASH then [BACKSLASH, u]
    else if u == 8 then [BACKSLASH, 98]
    else if u == 9 then [BACKSLASH, 116]
    else if u == 10 then [BACKSLASH, 110]
    else if u == 12 then [BACKSLASH, 102]
    else if u == 13 then [BACKSLASH, 114]
    else if u < 32 || lone then UnicodeEscape(u)
    else [u]
  }

  /** `paired` says that s[0] is the second half of a surrogate pair. */
  function Escape(paired: bool, s: Text): Text
    decreases |s|
  {
    if s == [] then []
    else
      var opens := High(s[0]) && |s| > 1 && Low(s[1]);
      var lone := (High(s[0]) && !opens) || (Low(s[0]) && !paired);
      EscapeUnit(s[0], lone) + Escape(opens, s[1..])
  }

  function Quoted(s: Text): Text { [QUOTE] + (Escape(false, s) + [QUOTE]) }

  // ---------------------------------------------------------------- key order

  /** JavaScript's `<` on strings, which the default `sort()` uses: code unit by code unit. */
  predicate Less(a: Text, b: Text) {
    if b == [] then false
    else if a == [] then true
    else a[0] < b[0] || (a[0] == b[0] && Less(a[1..], b[1..]))
  }

  lemma {:induction false} LessTrichotomy(a: Text, b: Text)
    ensures Less(a, b) || Less(b, a) || a == b
    ensures !(Less(a, b) && Less(b, a)) && !Less(a, a)
  {
    if a != [] && b != [] {
      LessTrichotomy(a[1..], b[1..]);
      assert a == [a[0]] + a[1..] && b == [b[0]] + b[1..];
    }
    if a != [] { LessTrichotomy(a[1..], a[1..]); }
  }

  lemma {:induction false} LessTransitive(a: Text, b: Text, c: Text)
    requires Less(a, b) && Less(b, c)
    ensures Less(a, c)
  {
    if a != [] && a[0] == b[0] == c[0] { LessTransitive(a[1..], b[1..], c[1..]); }
  }

  function Insert<T>(f: Field<T>, fs: seq<Field<T>>): (r: seq<Field<T>>)
    ensures |r| == |fs| + 1
  {
    if fs == [] || Less(f.key, fs[0].key) then [f] + fs else [fs[0]] + Insert(f, fs[1..])
  }

  function SortByKey<T>(fs: seq<Field<T>>): (r: seq<Field<T>>)
    ensures |r| == |fs|
  {
    if fs == [] then [] else Insert(fs[0], SortByKey(fs[1..]))
  }

  // ---------------------------------------------------------------- the printer

  function Digital(ds: seq<Digit>): (t: Text)
    ensures |t| == |ds| && forall i :: 0 <= i < |t| ==> t[i] as int == ds[i] as int + 48
  {
    seq(|ds|, i requires 0 <= i < |ds| => (ds[i] as int + 48) as Unit)
  }

  function NumberText(n: SafeInt): Text {
    if n < 0 then [MINUS] + Digital(Digits(-n)) else Digital(Digits(n))
  }

  /** `map(key => quoted key : child)`, child errors kept in place. */
  function Members(fs: seq<Field<Result<Text, Error>>>): (r: seq<Result<Text, Error>>)
    ensures |r| == |fs|
  {
    if fs == [] then []
    else
      var first := match fs[0].value
                   case Ok(t) => Ok(Quoted(fs[0].key) + ([COLON] + t))
                   case Err(e) => Err(e);
      [first] + Members(fs[1..])
  }

  /** `join(',')`; the first child that throws ends it. */
  function Join(ts: seq<Result<Text, Error>>): Result<Text, Error> {
    if ts == [] then Ok([])
    else match ts[0]
      case Err(e) => Err(e)
      case Ok(t) =>
        if |ts| == 1 then Ok(t)
        else match Join(ts[1..])
          case Err(e) => Err(e)
          case Ok(rest) => Ok(t + ([COMMA] + rest))
  }

  function CanonicalJson(v: Json): Result<Text, Error>
    decreases v, 0
  {
    match v
    case Null => Ok(NULL_TEXT)
    case Bool(b) => Ok(if b then TRUE_TEXT else FALSE_TEXT)
    case Num(n) => Ok(NumberText(n))
    case Str(s) => Ok(Quoted(s))
    case NonFinite => Err(NonFiniteNumber)
    case Undefined => Err(UnsupportedType(true))
    case Other => Err(UnsupportedType(false))
    case Arr(items) =>
      (match Join(CanonicalItems(items))
       case Ok(t) => Ok([LBRACKET] + (t + [RBRACKET]))
       case Err(e) => Err(e))
    case Obj(fields) =>
      match Join(Members(SortByKey(CanonicalFields(fields))))
      case Ok(t) => Ok([LBRACE] + (t + [RBRACE]))
      case Err(e) => Err(e)
  }

  function CanonicalItems(items: seq<Json>): (r: seq<Result<Text, Error>>)
    ensures |r| == |items|
    ensures forall i :: 0 <= i < |items| ==> r[i] == CanonicalJson(items[i])
    decreases items, 1
  {
    if items == [] then [] else [CanonicalJson(items[0])] + CanonicalItems(items[1..])
  }

  function CanonicalFields(fields: seq<Field<Json>>): (r: seq<Field<Result<Text, Error>>>)
    ensures |r| == |fields|
    ensures forall i :: 0 <= i < |fields| ==> r[i] == Field(fields[i].key, CanonicalChild(fields[i]))
    decreases fields, 1
  {
    if fields == [] then [] else [Field(fields[0].key, CanonicalChild(fields[0]))] + CanonicalFields(fields[1..])
  }

  function CanonicalChild(f: Field<Json>): Result<Text, Error>
    decreases f, 1
  {
    if f.value.Undefined? then Err(UndefinedValue(f.key)) else CanonicalJson(f.value)
  }

  // ---------------------------------------------------------------- meaning

  /** Values `canonicalJson` accepts: no member it throws on, anywhere inside. */
  predicate Clean(v: Json) {
    match v
    case Arr(items) => forall i :: 0 <= i < |items| ==> Clean(items[i])
    case Obj(fields) => forall i :: 0 <= i < |fields| ==> Clean(fields[i].value)
    case Undefined => false
    case NonFinite => false
    case Other => false
    case _ => true
  }

  predicate DistinctKeys<T>(fs: seq<Field<T>>) {
    forall i, j :: 0 <= i < j < |fs| ==> fs[i].key != fs[j].key
  }

  /** A JavaScript object never holds a key twice. */
  predicate WellFormed(v: Json) {
    match v
    case Arr(items) => forall i :: 0 <= i < |items| ==> WellFormed(items[i])
    case Obj(fields) => DistinctKeys(fields) && forall i :: 0 <= i < |fields| ==> WellFormed(fields[i].value)
    case _ => true
  }

  /** Equality of JSON values up to the order of object keys. */
  predicate Same(a: Json, b: Json)
    decreases a
  {
    match (a, b)
    case (Arr(xs), Arr(ys)) => |xs| == |ys| && forall i :: 0 <= i < |xs| ==> Same(xs[i], ys[i])
    case (Obj(fs), Obj(gs)) =>
      |fs| == |gs| && forall i :: 0 <= i < |fs| ==> HasTwin(fs[i], gs)
    case _ => a == b
  }

  predicate HasTwin(f: Field<Json>, gs: seq<Field<Json>>)
    decreases f
  {
    exists j :: 0 <= j < |gs| && f.key == gs[j].key && Same(f.value, gs[j].value)
  }
}
