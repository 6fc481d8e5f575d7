/** Sorting keys by UTF-16 code unit against sorting them by code point. */
module CanonicalOrder {
  import opened Canonical

  predicate StartsPair(t: Text) { |t| >= 2 && High(t[0]) && Low(t[1]) }

  /** The code points a text encodes; a surrogate outside a pair stands for itself. */
  function CodePoints(t: Text): seq<int> {
    if t == [] then []
    else if StartsPair(t) then
      [0x1_0000 + 0x400 * (t[0] as int - 0xD800) + (t[1] as int - 0xDC00)] + CodePoints(t[2..])
    else [t[0] as int] + CodePoints(t[1..])
  }

  predicate Before(xs: seq<int>, ys: seq<int>) {
    if ys == [] then false
    else if xs == [] then true
    else xs[0] < ys[0] || (xs[0] == ys[0] && Before(xs[1..], ys[1..]))
  }

  /** Where two texts part. */
  function Parting(a: Text, b: Text): (d: nat)
    ensures d <= |a| && d <= |b| && (d < |a| && d < |b| ==> a[d] != b[d])
    ensures forall i :: 0 <= i < d ==> a[i] == b[i]
  {
    if a == [] || b == [] || a[0] != b[0] then 0 else 1 + Parting(a[1..], b[1..])
  }

  /** Key order: the smaller unit where the texts part decides, and a text comes before its extensions. */
  lemma {:induction false} LessIs(a: Text, b: Text)
    ensures var d := Parting(a, b);
      Less(a, b) <==> (d == |a| && d < |b|) || (d < |a| && d < |b| && a[d] < b[d])
  {
    if a != [] && b != [] && a[0] == b[0] {
      LessIs(a[1..], b[1..]);
    }
  }

  predicate InPair(t: Text, k: nat)
    requires k < |t|
  {
    (High(t[k]) && k + 1 < |t| && Low(t[k + 1])) || (Low(t[k]) && k > 0 && High(t[k - 1]))
  }

  /** The smaller of the first two units that differ is half of a pair, and the larger is not. */
  predicate Crossed(a: Text, b: Text) {
    var d := Parting(a, b);
    d < |a| && d < |b| && if a[d] < b[d] then InPair(a, d) && !InPair(b, d) else InPair(b, d) && !InPair(a, d)
  }

  /** What is equal in front can be left out, up to the pairs it breaks. */
  lemma {:induction false} Peel(a: Text, b: Text)
    requires a != [] && b != [] && a[0] == b[0]
    ensures Less(a, b) == Less(a[1..], b[1..]) && Parting(a, b) == 1 + Parting(a[1..], b[1..])
  {
  }

  lemma {:induction false} OnePair(a: Text, b: Text)
    requires a != [] && b != [] && a[0] == b[0] && StartsPair(a) != StartsPair(b)
    ensures (Less(a, b) <==> Before(CodePoints(a), CodePoints(b))) <==> !Crossed(a, b)
  {
    Peel(a, b);
    var s, t := a[1..], b[1..];
    assert s == [] || t == [] || s[0] != t[0];
    assert Parting(s, t) == 0;
    assert CodePoints(a)[0] != CodePoints(b)[0];
  }

  lemma {:induction false} TwoPairs(a: Text, b: Text)
    requires StartsPair(a) && StartsPair(b) && a[0] == b[0] && a[1] != b[1]
    ensures (Less(a, b) <==> Before(CodePoints(a), CodePoints(b))) <==> !Crossed(a, b)
  {
    Peel(a, b);
    assert Parting(a[1..], b[1..]) == 0;
    assert CodePoints(a)[0] != CodePoints(b)[0];
  }

  lemma {:induction false} PairsShift(t: Text, n: nat, k: nat)
    requires 0 < n <= k < |t| && (if StartsPair(t) then n == 2 else n == 1)
    ensures InPair(t, k) == InPair(t[n..], k - n)
  {
  }

  /** Equal code points in front do not matter. */
  lemma {:induction false} Skip(a: Text, b: Text, n: nat)
    requires n <= |a| && n <= |b| && (n == 1 || n == 2) && forall i :: 0 <= i < n ==> a[i] == b[i]
    requires (if StartsPair(a) then n == 2 else n == 1) && (StartsPair(a) <==> StartsPair(b))
    ensures Less(a, b) == Less(a[n..], b[n..]) && Crossed(a, b) == Crossed(a[n..], b[n..])
    ensures Before(CodePoints(a), CodePoints(b)) == Before(CodePoints(a[n..]), CodePoints(b[n..]))
  {
    Peel(a, b);
    if n == 2 {
      Peel(a[1..], b[1..]);
      assert a[1..][1..] == a[2..] && b[1..][1..] == b[2..];
    }
    var d := Parting(a, b);
    if d < |a| && d < |b| {
      PairsShift(a, n, d);
      PairsShift(b, n, d);
    }
  }

  /** Code-unit order and code-point order agree exactly on the texts that are not crossed. */
  lemma {:induction false} AgreesIff(a: Text, b: Text)
    requires a != b
    ensures (Less(a, b) <==> Before(CodePoints(a), CodePoints(b))) <==> !Crossed(a, b)
    decreases |a|
  {
    if a == [] || b == [] || a[0] != b[0] {
    } else if StartsPair(a) != StartsPair(b) {
      OnePair(a, b);
    } else if !StartsPair(a) {
      assert a == [a[0]] + a[1..] && b == [b[0]] + b[1..];
      AgreesIff(a[1..], b[1..]);
      Skip(a, b, 1);
    } else if a[1] == b[1] {
      assert a == [a[0], a[1]] + a[2..] && b == [b[0], b[1]] + b[2..];
      AgreesIff(a[2..], b[2..]);
      Skip(a, b, 2);
    } else {
      TwoPairs(a, b);
    }
  }

  /** The keys U+FF5E and U+10000 are printed in code-unit order, U+10000 first:
      sorting by code point would print them the other way round. */
  lemma KeyOrderIsByCodeUnit(u: Json, v: Json)
    ensures var tilde, linearB := [0xFF5E], [0xD800, 0xDC00];
      SortByKey([Field(tilde, u), Field(linearB, v)]) == [Field(linearB, v), Field(tilde, u)]
  {
    var tilde: Text, linearB: Text := [0xFF5E], [0xD800, 0xDC00];
    assert Less(linearB, tilde) && !Less(tilde, linearB);
    assert SortByKey([Field(linearB, v)]) == [Field(linearB, v)];
    assert [Field(tilde, u), Field(linearB, v)][1..] == [Field(linearB, v)];
    assert Insert(Field(tilde, u), [Field(linearB, v)]) == [Field(linearB, v)] + Insert(Field(tilde, u), []);
  }

  // ---------------------------------------------------------------- text without stray surrogates

  predicate Paired(t: Text) { forall k :: 0 <= k < |t| && (High(t[k]) || Low(t[k])) ==> InPair(t, k) }

  /** On such texts they agree unless, where the texts part, one has a surrogate and the other a
      unit from 0xE000 up. */
  lemma {:induction false} PairedAgreesIff(a: Text, b: Text)
    requires a != b && Paired(a) && Paired(b)
    ensures var d := Parting(a, b);
      (Less(a, b) <==> Before(CodePoints(a), CodePoints(b))) <==>
      !(d < |a| && d < |b| &&
        ((0xD800 <= a[d] < 0xE000 && 0xE000 <= b[d]) || (0xD800 <= b[d] < 0xE000 && 0xE000 <= a[d])))
  {
    AgreesIff(a, b);
  }

  /** A stray surrogate sorts the same way either way. */
  lemma StraySurrogateAgrees()
    ensures var stray, high := [0xD800], [0xE000]; Less(stray, high) && Before(CodePoints(stray), CodePoints(high))
  {
    assert CodePoints([0xD800])[0] == 0xD800 && CodePoints([0xE000])[0] == 0xE000;
  }
}
