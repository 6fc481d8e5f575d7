/** A JSON decoder for canonical text, and the proof that it inverts `CanonicalJson`. */
module CanonicalDecoder {
  import opened Wrappers
  import opened Decimal
  import opened Canonical

  // ---------------------------------------------------------------- normal form

  /** The same value with the keys of every object sorted. */
  function Normal(v: Json): (w: Json)
    decreases v, 0
  {
    match v
    case Arr(items) => Arr(NormalItems(items))
    case Obj(fields) => Obj(SortByKey(NormalFields(fields)))
    case _ => v
  }

  function NormalItems(items: seq<Json>): (r: seq<Json>)
    ensures |r| == |items|
    ensures forall i :: 0 <= i < |items| ==> r[i] == Normal(items[i])
    decreases items, 1
  {
    if items == [] then [] else [Normal(items[0])] + NormalItems(items[1..])
  }

  function NormalFields(fields: seq<Field<Json>>): (r: seq<Field<Json>>)
    ensures |r| == |fields|
    ensures forall i :: 0 <= i < |fields| ==> r[i] == Field(fields[i].key, Normal(fields[i].value))
    decreases fields, 1
  {
    if fields == [] then [] else [Field(fields[0].key, Normal(fields[0].value))] + NormalFields(fields[1..])
  }

  /** The text of a value with its keys in the order they stand. */
  function Plain(v: Json): Text
    requires Clean(v)
    decreases v, 0
  {
    match v
    case Null => NULL_TEXT
    case Bool(b) => if b then TRUE_TEXT else FALSE_TEXT
    case Num(n) => NumberText(n)
    case Str(s) => Quoted(s)
    case Arr(items) => [LBRACKET] + (PlainItems(items) + [RBRACKET])
    case Obj(fields) => [LBRACE] + (PlainFields(fields) + [RBRACE])
  }

  function PlainItems(items: seq<Json>): Text
    requires forall i :: 0 <= i < |items| ==> Clean(items[i])
    decreases items, 1
  {
    if items == [] then []
    else if |items| == 1 then Plain(items[0])
    else Plain(items[0]) + ([COMMA] + PlainItems(items[1..]))
  }

  function PlainFields(fields: seq<Field<Json>>): Text
    requires forall i :: 0 <= i < |fields| ==> Clean(fields[i].value)
    decreases fields, 1
  {
    if fields == [] then []
    else
      var first := Quoted(fields[0].key) + ([COLON] + Plain(fields[0].value));
      if |fields| == 1 then first else first + ([COMMA] + PlainFields(fields[1..]))
  }

  // ---------------------------------------------------------------- the decoder

  predicate IsDigit(u: Unit) { 48 <= u < 58 }

  function HexValue(u: Unit): (d: int)
    ensures -1 <= d < 16
  {
    if IsDigit(u) then u as int - 48 else if 97 <= u < 103 then u as int - 87 else -1
  }

  /** The code unit at the head of a string body, and how many units spell it. */
  function Unescape(t: Text): (r: Option<(Unit, nat)>)
    ensures r.Some? ==> 0 < r.value.1 <= |t|
  {
    if t == [] || t[0] < 32 || t[0] == QUOTE then None
    else if t[0] != BACKSLASH then Some((t[0], 1))
    else if |t| < 2 then None
    else if t[1] == QUOTE || t[1] == BACKSLASH then Some((t[1], 2))
    else if t[1] == 98 then Some((8, 2))
    else if t[1] == 116 then Some((9, 2))
    else if t[1] == 110 then Some((10, 2))
    else if t[1] == 102 then Some((12, 2))
    else if t[1] == 114 then Some((13, 2))
    else if t[1] != 117 || |t| < 6 then None
    else
      var a, b, c, d := HexValue(t[2]), HexValue(t[3]), HexValue(t[4]), HexValue(t[5]);
      if a < 0 || b < 0 || c < 0 || d < 0 then None else Some(((a * 0x1000 + b * 0x100 + c * 16 + d) as Unit, 6))
  }

  /** A string body up to its closing quote, and the text after it. */
  function ParseString(t: Text): (r: Option<(Text, Text)>)
    ensures r.Some? ==> |r.value.1| < |t|
    decreases |t|
  {
    if t == [] then None
    else if t[0] == QUOTE then Some(([], t[1..]))
    else match Unescape(t)
      case None => None
      case Some((u, k)) =>
        match ParseString(t[k..])
        case None => None
        case Some((s, rest)) => Some(([u] + s, rest))
  }

  function TakeDigits(t: Text): (r: (seq<Digit>, Text))
    ensures |r.0| + |r.1| == |t|
  {
    if t == [] || !IsDigit(t[0]) then ([], t)
    else var (ds, rest) := TakeDigits(t[1..]); ([(t[0] as int - 48) as Digit] + ds, rest)
  }

  function ParseNumber(t: Text): (r: Option<(Json, Text)>)
    ensures r.Some? ==> |r.value.1| < |t|
  {
    var negative := t != [] && t[0] == MINUS;
    var (ds, rest) := TakeDigits(if negative then t[1..] else t);
    var magnitude: int := Value(ds);
    var n := if negative then -magnitude else magnitude;
    if ds == [] || n < -9007199254740991 || n > 9007199254740991 then None else Some((Num(n), rest))
  }

  function ParseValue(t: Text): (r: Option<(Json, Text)>)
    ensures r.Some? ==> |r.value.1| < |t|
    decreases |t|, 1
  {
    if t == [] then None
    else if t[0] == NULL_TEXT[0] then if NULL_TEXT <= t then Some((Null, t[4..])) else None
    else if t[0] == TRUE_TEXT[0] then if TRUE_TEXT <= t then Some((Bool(true), t[4..])) else None
    else if t[0] == FALSE_TEXT[0] then if FALSE_TEXT <= t then Some((Bool(false), t[5..])) else None
    else if t[0] == QUOTE then
      (match ParseString(t[1..])
       case None => None
       case Some((s, rest)) => Some((Str(s), rest)))
    else if t[0] == LBRACKET then
      if |t| > 1 && t[1] == RBRACKET then Some((Arr([]), t[2..]))
      else (match ParseItems(t[1..])
            case None => None
            case Some((items, rest)) => Some((Arr(items), rest)))
    else if t[0] == LBRACE then
      if |t| > 1 && t[1] == RBRACE then Some((Obj([]), t[2..]))
      else (match ParseFields(t[1..])
            case None => None
            case Some((fields, rest)) => Some((Obj(fields), rest)))
    else ParseNumber(t)
  }

  function ParseItems(t: Text): (r: Option<(seq<Json>, Text)>)
    ensures r.Some? ==> |r.value.1| < |t|
    decreases |t|, 2
  {
    match ParseValue(t)
    case None => None
    case Some((v, rest)) =>
      if rest == [] then None
      else if rest[0] == RBRACKET then Some(([v], rest[1..]))
      else if rest[0] != COMMA then None
      else match ParseItems(rest[1..])
        case None => None
        case Some((vs, rest2)) => Some(([v] + vs, rest2))
  }

  function ParseFields(t: Text): (r: Option<(seq<Field<Json>>, Text)>)
    ensures r.Some? ==> |r.value.1| < |t|
    decreases |t|, 2
  {
    if t == [] || t[0] != QUOTE then None
    else match ParseString(t[1..])
      case None => None
      case Some((key, rest)) =>
        if rest == [] || rest[0] != COLON then None
        else match ParseValue(rest[1..])
          case None => None
          case Some((v, rest2)) =>
            if rest2 == [] then None
            else if rest2[0] == RBRACE then Some(([Field(key, v)], rest2[1..]))
            else if rest2[0] != COMMA then None
            else match ParseFields(rest2[1..])
              case None => None
              case Some((fs, rest3)) => Some(([Field(key, v)] + fs, rest3))
  }

  function Decode(t: Text): Option<Json> {
    match ParseValue(t)
    case Some((v, rest)) => if rest == [] then Some(v) else None
    case None => None
  }

  // ---------------------------------------------------------------- decoding inverts plain printing

  lemma HexRoundTrip(d: int)
    requires 0 <= d < 16
    ensures HexValue(HexUnit(d)) == d
  {
  }

  lemma UnescapeHex(a: int, b: int, c: int, d: int, rest: Text)
    requires 0 <= a < 16 && 0 <= b < 16 && 0 <= c < 16 && 0 <= d < 16
    ensures Unescape([BACKSLASH, 117, HexUnit(a), HexUnit(b), HexUnit(c), HexUnit(d)] + rest) ==
            Some(((a * 0x1000 + b * 0x100 + c * 16 + d) as Unit, 6))
  {
    var t := [BACKSLASH, 117, HexUnit(a), HexUnit(b), HexUnit(c), HexUnit(d)] + rest;
    HexRoundTrip(a);
    HexRoundTrip(b);
    HexRoundTrip(c);
    HexRoundTrip(d);
    assert t[0] == BACKSLASH && t[1] == 117;
    assert t[2] == HexUnit(a) && t[3] == HexUnit(b) && t[4] == HexUnit(c) && t[5] == HexUnit(d);
  }

  lemma {:induction false} HexDigits(n: int)
    requires 0 <= n < 0x1_0000
    ensures n / 0x1000 * 0x1000 + n / 0x100 % 16 * 0x100 + n / 16 % 16 * 16 + n % 16 == n
    ensures 0 <= n / 0x1000 < 16
  {
  }

  lemma UnescapeUnicode(u: Unit, rest: Text)
    ensures Unescape(UnicodeEscape(u) + rest) == Some((u, 6))
  {
    var n := u as int;
    HexDigits(n);
    UnescapeHex(n / 0x1000, n / 0x100 % 16, n / 16 % 16, n % 16, rest);
  }

  lemma UnescapeEscape(u: Unit, lone: bool, rest: Text)
    ensures Unescape(EscapeUnit(u, lone) + rest) == Some((u, |EscapeUnit(u, lone)|))
    ensures (EscapeUnit(u, lone) + rest)[|EscapeUnit(u, lone)|..] == rest
    ensures EscapeUnit(u, lone)[0] != QUOTE
  {
    var e := EscapeUnit(u, lone);
    if e == UnicodeEscape(u) {
      UnescapeUnicode(u, rest);
    } else if |e| == 2 {
      assert (e + rest)[0] == BACKSLASH && (e + rest)[1] == e[1];
    } else {
      assert (e + rest)[0] == u;
    }
  }

  lemma ParseOneUnit(u: Unit, lone: bool, body: Text)
    ensures ParseString(EscapeUnit(u, lone) + body) ==
            match ParseString(body) case None => None case Some((s, rest)) => Some(([u] + s, rest))
  {
    UnescapeEscape(u, lone, body);
  }

  lemma SplitHead(a: Text, b: Text, c: Text)
    ensures (a + b) + c == a + (b + c)
  {
  }

  lemma {:induction false} ParseEscaped(paired: bool, s: Text, rest: Text)
    ensures ParseString(Escape(paired, s) + ([QUOTE] + rest)) == Some((s, rest))
    decreases |s|
  {
    var tail := [QUOTE] + rest;
    if s == [] {
      assert Escape(paired, s) + tail == tail;
    } else {
      var opens := High(s[0]) && |s| > 1 && Low(s[1]);
      var lone := (High(s[0]) && !opens) || (Low(s[0]) && !paired);
      ParseEscaped(opens, s[1..], rest);
      SplitHead(EscapeUnit(s[0], lone), Escape(opens, s[1..]), tail);
      ParseOneUnit(s[0], lone, Escape(opens, s[1..]) + tail);
      assert [s[0]] + s[1..] == s;
    }
  }

  /** A quoted string at the head of t, up to the text after its closing quote. */
  lemma ParseQuoted(s: Text, rest: Text)
    ensures var t := Quoted(s) + rest; t[0] == QUOTE && ParseString(t[1..]) == Some((s, rest))
  {
    ParseEscaped(false, s, rest);
    assert (Quoted(s) + rest)[1..] == Escape(false, s) + ([QUOTE] + rest);
  }

  /** What may follow a value inside canonical text. */
  predicate Delimited(rest: Text) {
    rest == [] || rest[0] == COMMA || rest[0] == RBRACKET || rest[0] == RBRACE
  }

  lemma {:induction false} TakeDigital(ds: seq<Digit>, rest: Text)
    requires Delimited(rest)
    ensures TakeDigits(Digital(ds) + rest) == (ds, rest)
  {
    if ds == [] {
      assert Digital(ds) + rest == rest;
    } else {
      TakeDigital(ds[1..], rest);
      assert (Digital(ds) + rest)[1..] == Digital(ds[1..]) + rest;
      assert [ds[0]] + ds[1..] == ds;
    }
  }

  lemma {:induction false} ParseNatural(ds: seq<Digit>, rest: Text)
    requires Delimited(rest) && ds != [] && Value(ds) <= 9007199254740991
    ensures ParseNumber(Digital(ds) + rest) == Some((Num(Value(ds)), rest))
    ensures IsDigit(Digital(ds)[0])
  {
    TakeDigital(ds, rest);
    assert (Digital(ds) + rest)[0] == Digital(ds)[0];
  }

  lemma {:induction false} ParseNegative(ds: seq<Digit>, rest: Text)
    requires Delimited(rest) && ds != [] && Value(ds) <= 9007199254740991
    ensures ParseNumber(([MINUS] + Digital(ds)) + rest) == Some((Num(-(Value(ds) as int)), rest))
  {
    TakeDigital(ds, rest);
    assert (([MINUS] + Digital(ds)) + rest)[1..] == Digital(ds) + rest;
  }

  lemma {:induction false} ParseNumberText(n: SafeInt, rest: Text)
    requires Delimited(rest)
    ensures ParseNumber(NumberText(n) + rest) == Some((Num(n), rest))
    ensures var u := NumberText(n)[0]; u == MINUS || IsDigit(u)
  {
    if n < 0 { ParseNegative(Digits(-n), rest); } else { ParseNatural(Digits(n), rest); }
  }

  lemma ParseArrayBody(x: Text)
    requires x != [] && x[0] != RBRACKET
    ensures ParseValue([LBRACKET] + x) ==
            match ParseItems(x) case None => None case Some((items, rest)) => Some((Arr(items), rest))
  {
    assert ([LBRACKET] + x)[1..] == x;
  }

  lemma ParseObjectBody(x: Text)
    requires x != [] && x[0] != RBRACE
    ensures ParseValue([LBRACE] + x) ==
            match ParseFields(x) case None => None case Some((fields, rest)) => Some((Obj(fields), rest))
  {
    assert ([LBRACE] + x)[1..] == x;
  }

  lemma Enclosed(open: Text, body: Text, close: Text, rest: Text)
    ensures (open + (body + close)) + rest == open + (body + (close + rest))
  {
  }

  lemma {:induction false} ParseLeaf(v: Json, rest: Text)
    requires Clean(v) && Delimited(rest) && !v.Arr? && !v.Obj?
    ensures ParseValue(Plain(v) + rest) == Some((v, rest))
  {
    var t := Plain(v) + rest;
    match v
    case Null => assert t[..4] == NULL_TEXT && t[4..] == rest;
    case Bool(b) =>
      if b { assert t[..4] == TRUE_TEXT && t[4..] == rest; }
      else { assert t[..5] == FALSE_TEXT && t[5..] == rest; }
    case Num(n) =>
      ParseNumberText(n, rest);
      assert t[0] == NumberText(n)[0];
    case Str(s) => ParseQuoted(s, rest);
  }

  lemma PlainHead(v: Json)
    requires Clean(v)
    ensures Plain(v) != [] && Plain(v)[0] != RBRACKET
  {
    if v.Num? { ParseNumberText(v.n, []); }
  }

  lemma {:induction false} ParsePlain(v: Json, rest: Text)
    requires Clean(v) && Delimited(rest)
    ensures ParseValue(Plain(v) + rest) == Some((v, rest))
    decreases v, 0
  {
    match v
    case Arr(items) =>
      if items == [] {
        assert Plain(v) == [LBRACKET, RBRACKET];
      } else {
        ParsePlainItems(items, rest);
        PlainHead(items[0]);
        Enclosed([LBRACKET], PlainItems(items), [RBRACKET], rest);
        ParseArrayBody(PlainItems(items) + ([RBRACKET] + rest));
      }
    case Obj(fields) =>
      if fields == [] {
        assert Plain(v) == [LBRACE, RBRACE];
      } else {
        ParsePlainFields(fields, rest);
        Enclosed([LBRACE], PlainFields(fields), [RBRACE], rest);
        ParseObjectBody(PlainFields(fields) + ([RBRACE] + rest));
      }
    case _ => ParseLeaf(v, rest);
  }

  lemma {:induction false} ParseItemThenMore(t: Text, v: Json, more: Text, vs: seq<Json>, rest: Text)
    requires ParseValue(t) == Some((v, [COMMA] + more)) && ParseItems(more) == Some((vs, rest))
    ensures ParseItems(t) == Some(([v] + vs, rest))
  {
    assert ([COMMA] + more)[1..] == more;
  }

  lemma {:induction false} ParseLastItem(t: Text, v: Json, rest: Text)
    requires ParseValue(t) == Some((v, [RBRACKET] + rest))
    ensures ParseItems(t) == Some(([v], rest))
  {
    assert ([RBRACKET] + rest)[1..] == rest;
  }

  lemma {:induction false} ParsePlainItems(items: seq<Json>, rest: Text)
    requires items != [] && Delimited(rest) && forall i :: 0 <= i < |items| ==> Clean(items[i])
    ensures ParseItems(PlainItems(items) + ([RBRACKET] + rest)) == Some((items, rest))
    decreases items, 1
  {
    var v, end := items[0], [RBRACKET] + rest;
    if |items| == 1 {
      ParsePlain(v, end);
      ParseLastItem(Plain(v) + end, v, rest);
      assert items == [v];
    } else {
      var more := PlainItems(items[1..]) + end;
      ParsePlain(v, [COMMA] + more);
      ParsePlainItems(items[1..], rest);
      ParseItemThenMore(Plain(v) + ([COMMA] + more), v, more, items[1..], rest);
      assert PlainItems(items) + end == Plain(v) + ([COMMA] + more);
      assert items == [v] + items[1..];
    }
  }

  /** One member at the head of an object's body. */
  lemma ParseOneField(key: Text, v: Json, more: Text)
    requires Clean(v) && ParseValue(Plain(v) + more) == Some((v, more)) && more != []
    ensures ParseFields((Quoted(key) + ([COLON] + Plain(v))) + more) ==
            if more[0] == RBRACE then Some(([Field(key, v)], more[1..]))
            else if more[0] != COMMA then None
            else match ParseFields(more[1..])
              case None => None
              case Some((fs, rest)) => Some(([Field(key, v)] + fs, rest))
  {
    var body := [COLON] + (Plain(v) + more);
    ParseQuoted(key, body);
    SplitHead(Quoted(key), [COLON] + Plain(v), more);
    SplitHead([COLON], Plain(v), more);
    assert body[1..] == Plain(v) + more;
  }

  /** A member followed by a comma and a body p that already parses. */
  lemma ParseFieldThenMore(key: Text, v: Json, p: Text, end: Text, fs: seq<Field<Json>>, rest: Text)
    requires Clean(v) && ParseFields(p + end) == Some((fs, rest))
    requires ParseValue(Plain(v) + ([COMMA] + (p + end))) == Some((v, [COMMA] + (p + end)))
    ensures ParseFields(((Quoted(key) + ([COLON] + Plain(v))) + ([COMMA] + p)) + end) ==
            Some(([Field(key, v)] + fs, rest))
  {
    var first, more := Quoted(key) + ([COLON] + Plain(v)), [COMMA] + (p + end);
    ParseOneField(key, v, more);
    SplitHead(first, [COMMA] + p, end);
    SplitHead([COMMA], p, end);
    assert more[1..] == p + end;
  }

  lemma ParseLastField(fields: seq<Field<Json>>, rest: Text)
    requires |fields| == 1 && Clean(fields[0].value)
    requires ParseValue(Plain(fields[0].value) + ([RBRACE] + rest)) == Some((fields[0].value, [RBRACE] + rest))
    ensures ParseFields(PlainFields(fields) + ([RBRACE] + rest)) == Some((fields, rest))
    ensures PlainFields(fields) != [] && PlainFields(fields)[0] == QUOTE
  {
    ParseOneField(fields[0].key, fields[0].value, [RBRACE] + rest);
    assert fields == [Field(fields[0].key, fields[0].value)];
  }

  lemma QuotedHead(key: Text, x: Text, y: Text)
    ensures var t := (Quoted(key) + x) + y; t != [] && t[0] == QUOTE
  {
  }

  lemma JoinHead(fields: seq<Field<Json>>)
    requires |fields| > 1 && forall i :: 0 <= i < |fields| ==> Clean(fields[i].value)
    ensures PlainFields(fields) ==
            (Quoted(fields[0].key) + ([COLON] + Plain(fields[0].value))) + ([COMMA] + PlainFields(fields[1..]))
  {
  }

  lemma HeadAndTail(fields: seq<Field<Json>>)
    requires fields != []
    ensures fields == [Field(fields[0].key, fields[0].value)] + fields[1..]
  {
  }

  lemma {:induction false} ParsePlainFields(fields: seq<Field<Json>>, rest: Text)
    requires fields != [] && Delimited(rest) && forall i :: 0 <= i < |fields| ==> Clean(fields[i].value)
    ensures ParseFields(PlainFields(fields) + ([RBRACE] + rest)) == Some((fields, rest))
    ensures PlainFields(fields) != [] && PlainFields(fields)[0] == QUOTE
    decreases fields, 1
  {
    var f, end := fields[0], [RBRACE] + rest;
    if |fields| == 1 {
      ParsePlain(f.value, end);
      ParseLastField(fields, rest);
    } else {
      var more := fields[1..];
      ParsePlainFields(more, rest);
      ParsePlain(f.value, [COMMA] + (PlainFields(more) + end));
      ParseFieldThenMore(f.key, f.value, PlainFields(more), end, more, rest);
      JoinHead(fields);
      QuotedHead(f.key, [COLON] + Plain(f.value), [COMMA] + PlainFields(more));
      HeadAndTail(fields);
    }
  }
}
