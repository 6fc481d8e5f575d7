/** `ChargeLedger` (packages/facilitator/src/ledger.ts) and `buildBatch` (batcher.ts). */
module Ledger {
  import opened Wrappers

  datatype ChargeRequest = ChargeRequest(payer: string, creator: string, amount: int, ref: Option<string>)

  /** `id` is the n of the source's `c_n`. */
  datatype Charge = Charge(id: nat, request: ChargeRequest, receivedAt: int)

  datatype Book = Book(pending: map<string, seq<Charge>>, byRef: map<string, Charge>, sequence: nat)

  function PendingFor(b: Book, payer: string): seq<Charge> {
    if payer in b.pending then b.pending[payer] else []
  }

  function Known(b: Book, r: ChargeRequest): bool { r.ref.Some? && r.ref.value in b.byRef }

  function Add(b: Book, r: ChargeRequest, now: int): (Book, Charge) {
    if Known(b, r) then (b, b.byRef[r.ref.value])
    else
      var c := Charge(b.sequence + 1, r, now);
      (Book(b.pending[r.payer := PendingFor(b, r.payer) + [c]],
            if r.ref.Some? then b.byRef[r.ref.value := c] else b.byRef,
            b.sequence + 1),
       c)
  }

  function Drain(b: Book, payer: string): (Book, seq<Charge>) {
    if PendingFor(b, payer) == [] then (b, []) else (b.(pending := b.pending - {payer}), b.pending[payer])
  }

  function Requeue(b: Book, payer: string, charges: seq<Charge>): Book {
    if charges == [] then b else b.(pending := b.pending[payer := charges + PendingFor(b, payer)])
  }

  ghost function TotalPending(pending: map<string, seq<Charge>>): nat
    decreases |pending|
  {
    if pending == map[] then 0
    else
      var p :| p in pending;
      |pending[p]| + TotalPending(pending - {p})
  }

  lemma {:induction false} TotalWithout(pending: map<string, seq<Charge>>, p: string)
    requires p in pending
    ensures TotalPending(pending) == |pending[p]| + TotalPending(pending - {p})
    decreases |pending|
  {
    var q :| q in pending && TotalPending(pending) == |pending[q]| + TotalPending(pending - {q});
    if q != p {
      TotalWithout(pending - {q}, p);
      TotalWithout(pending - {p}, q);
      assert (pending - {q}) - {p} == (pending - {p}) - {q};
    }
  }

  class ChargeLedger {
    var pending: map<string, seq<Charge>>
    var byRef: map<string, Charge>
    var sequence: nat

    function State(): Book
      reads this
    {
      Book(pending, byRef, sequence)
    }

    constructor ()
      ensures State() == Book(map[], map[], 0)
    {
      pending, byRef, sequence := map[], map[], 0;
    }

    method AddCharge(r: ChargeRequest, now: int) returns (c: Charge)
      modifies this
      ensures (State(), c) == Add(old(State()), r, now)
    {
      if r.ref.Some? && r.ref.value in byRef {
        return byRef[r.ref.value];
      }
      sequence := sequence + 1;
      c := Charge(sequence, r, now);
      if r.payer !in pending {
        pending := pending[r.payer := [c]];
        assert [] + [c] == [c];
      } else {
        pending := pending[r.payer := pending[r.payer] + [c]];
      }
      if r.ref.Some? {
        byRef := byRef[r.ref.value := c];
      }
    }

    method DrainPayer(payer: string) returns (charges: seq<Charge>)
      modifies this`pending
      ensures (State(), charges) == Drain(old(State()), payer)
    {
      if payer !in pending || pending[payer] == [] { return []; }
      charges := pending[payer];
      pending := pending - {payer};
    }

    method RequeueCharges(payer: string, charges: seq<Charge>)
      modifies this`pending
      ensures State() == Requeue(old(State()), payer, charges)
    {
      if charges == [] { return; }
      if payer !in pending {
        pending := pending[payer := charges];
        assert charges + [] == charges;
      } else {
        pending := pending[payer := charges + pending[payer]];
      }
    }

    method Size() returns (n: nat)
      ensures n == TotalPending(pending)
    {
      n := 0;
      var left := pending;
      while left != map[]
        invariant n + TotalPending(left) == TotalPending(pending)
        decreases |left|
      {
        var p :| p in left;
        TotalWithout(left, p);
        n := n + |left[p]|;
        left := left - {p};
      }
    }

    method PayersWithPending() returns (payers: seq<string>)
      ensures forall p :: p in payers <==> PendingFor(State(), p) != []
      ensures forall i, j :: 0 <= i < j < |payers| ==> payers[i] != payers[j]
    {
      payers := [];
      var left := pending.Keys;
      while left != {}
        invariant left <= pending.Keys
        invariant forall p :: p in payers <==> p in pending && p !in left && pending[p] != []
        invariant forall i, j :: 0 <= i < j < |payers| ==> payers[i] != payers[j]
        decreases |left|
      {
        var p :| p in left;
        left := left - {p};
        if |pending[p]| > 0 { payers := payers + [p]; }
      }
    }
  }

  // ---------------------------------------------------------------- how many are pending

  lemma TotalUpdate(pending: map<string, seq<Charge>>, p: string, cs: seq<Charge>)
    ensures TotalPending(pending[p := cs]) ==
            TotalPending(pending) - (if p in pending then |pending[p]| else 0) + |cs|
  {
    TotalWithout(pending[p := cs], p);
    assert pending[p := cs] - {p} == pending - {p};
    if p in pending {
      TotalWithout(pending, p);
    } else {
      assert pending - {p} == pending;
    }
  }

  // ---------------------------------------------------------------- sums

  function SumAll(cs: seq<Charge>): int {
    if cs == [] then 0 else SumAll(cs[..|cs| - 1]) + cs[|cs| - 1].request.amount
  }

  function Share(c: Charge, creator: string): int {
    if c.request.creator == creator then c.request.amount else 0
  }

  function SumFor(cs: seq<Charge>, creator: string): int {
    if cs == [] then 0 else SumFor(cs[..|cs| - 1], creator) + Share(cs[|cs| - 1], creator)
  }

  lemma {:induction false} SumForConcat(a: seq<Charge>, b: seq<Charge>, creator: string)
    ensures SumFor(a + b, creator) == SumFor(a, creator) + SumFor(b, creator)
    decreases |b|
  {
    if b == [] {
      assert a + b == a;
    } else {
      assert (a + b)[..|a + b| - 1] == a + b[..|b| - 1];
      SumForConcat(a, b[..|b| - 1], creator);
    }
  }

  lemma {:induction false} SumAllConcat(a: seq<Charge>, b: seq<Charge>)
    ensures SumAll(a + b) == SumAll(a) + SumAll(b)
    decreases |b|
  {
    if b == [] {
      assert a + b == a;
    } else {
      assert (a + b)[..|a + b| - 1] == a + b[..|b| - 1];
      SumAllConcat(a, b[..|b| - 1]);
    }
  }

  /** One more charge, anywhere in the queue, adds its amount to the total and to its creator's sum,
      and nothing to another creator's. */
  lemma {:induction false} SumsCountEachCharge(a: seq<Charge>, c: Charge, b: seq<Charge>, creator: string)
    ensures SumAll([]) == 0 && SumFor([], creator) == 0
    ensures SumAll(a + [c] + b) == SumAll(a + b) + c.request.amount
    ensures SumFor(a + [c] + b, creator) ==
            SumFor(a + b, creator) + if c.request.creator == creator then c.request.amount else 0
  {
    SumAllConcat(a + [c], b);
    SumAllConcat(a, [c]);
    SumAllConcat(a, b);
    SumForConcat(a + [c], b, creator);
    SumForConcat(a, [c], creator);
    SumForConcat(a, b, creator);
    assert [c][..0] == [];
  }

  lemma SumForSplit(cs: seq<Charge>, i: nat, creator: string)
    requires i < |cs|
    ensures SumFor(cs, creator) == SumFor(cs[..i] + cs[i + 1..], creator) + Share(cs[i], creator)
  {
    assert cs == (cs[..i] + [cs[i]]) + cs[i + 1..];
    SumForConcat(cs[..i] + [cs[i]], cs[i + 1..], creator);
    SumForConcat(cs[..i], [cs[i]], creator);
    SumForConcat(cs[..i], cs[i + 1..], creator);
    assert [cs[i]][..0] == [];
  }

  lemma WithoutOne(b: seq<Charge>, i: nat)
    requires i < |b|
    ensures multiset(b[..i] + b[i + 1..]) == multiset(b) - multiset{b[i]}
  {
    assert b == (b[..i] + [b[i]]) + b[i + 1..];
  }

  /** The same charges in any order have the same sum. */
  lemma {:induction false} SumForPermuted(a: seq<Charge>, b: seq<Charge>, creator: string)
    requires multiset(a) == multiset(b)
    ensures SumFor(a, creator) == SumFor(b, creator)
    decreases |a|
  {
    if a == [] {
      assert |b| == |multiset(b)| == 0;
    } else {
      var last := a[|a| - 1];
      assert a == a[..|a| - 1] + [last];
      assert last in multiset(b);
      var i :| 0 <= i < |b| && b[i] == last;
      WithoutOne(b, i);
      SumForSplit(b, i, creator);
      SumForPermuted(a[..|a| - 1], b[..i] + b[i + 1..], creator);
    }
  }

  // ---------------------------------------------------------------- batches

  datatype Batch = Batch(
    payer: string, vault: string, creators: seq<string>, amounts: seq<int>, chargeIds: seq<nat>, total: int)

  /** Where a creator first appears. */
  function FirstIndex(cs: seq<Charge>, creator: string): (i: nat)
    ensures i <= |cs| && (i < |cs| ==> cs[i].request.creator == creator)
    ensures forall j :: 0 <= j < i ==> cs[j].request.creator != creator
  {
    if cs == [] || cs[0].request.creator == creator then 0 else 1 + FirstIndex(cs[1..], creator)
  }

  function SumSeq(ns: seq<int>): int {
    if ns == [] then 0 else SumSeq(ns[..|ns| - 1]) + ns[|ns| - 1]
  }

  predicate Distinct(ks: seq<string>) { forall i, j :: 0 <= i < j < |ks| ==> ks[i] != ks[j] }

  /** The creators of cs, once each, in order of first appearance. */
  ghost predicate InFirstOrder(cs: seq<Charge>, n: nat, creators: seq<string>)
    requires n <= |cs|
  {
    Distinct(creators) &&
    (forall k :: k in creators <==> FirstIndex(cs, k) < n) &&
    forall i, j :: 0 <= i < j < |creators| ==> FirstIndex(cs, creators[i]) < FirstIndex(cs, creators[j])
  }

  function Ids(cs: seq<Charge>): (ids: seq<nat>)
    ensures |ids| == |cs| && forall i :: 0 <= i < |cs| ==> ids[i] == cs[i].id
  {
    seq(|cs|, i requires 0 <= i < |cs| => cs[i].id)
  }

  /** The map holds each listed creator's sum over the charges `done`, and nobody else has one. */
  ghost predicate Sums(done: seq<Charge>, perCreator: map<string, int>, order: seq<string>) {
    (forall k :: k in perCreator <==> k in order) &&
    forall k :: SumFor(done, k) == if k in perCreator then perCreator[k] else 0
  }

  lemma SumsNext(done: seq<Charge>, c: Charge, perCreator: map<string, int>, order: seq<string>)
    requires Sums(done, perCreator, order)
    ensures var k := c.request.creator;
      var before := if k in perCreator then perCreator[k] else 0;
      Sums(done + [c], perCreator[k := before + c.request.amount], if k in perCreator then order else order + [k])
  {
    var k := c.request.creator;
    var before := if k in perCreator then perCreator[k] else 0;
    var after := perCreator[k := before + c.request.amount];
    assert (done + [c])[..|done|] == done;
    forall j ensures SumFor(done + [c], j) == if j in after then after[j] else 0 {
      assert SumFor(done + [c], j) == SumFor(done, j) + Share(c, j);
    }
  }

  lemma FirstOrderStays(cs: seq<Charge>, i: nat, order: seq<string>)
    requires i < |cs| && InFirstOrder(cs, i, order) && cs[i].request.creator in order
    ensures InFirstOrder(cs, i + 1, order)
  {
  }

  lemma FirstOrderGrows(cs: seq<Charge>, i: nat, order: seq<string>)
    requires i < |cs| && InFirstOrder(cs, i, order) && cs[i].request.creator !in order
    ensures InFirstOrder(cs, i + 1, order + [cs[i].request.creator])
  {
    assert FirstIndex(cs, cs[i].request.creator) == i;
  }

  lemma FirstOrderNext(cs: seq<Charge>, i: nat, order: seq<string>)
    requires i < |cs| && InFirstOrder(cs, i, order)
    ensures var k := cs[i].request.creator; InFirstOrder(cs, i + 1, if k in order then order else order + [k])
  {
    if cs[i].request.creator in order { FirstOrderStays(cs, i, order); } else { FirstOrderGrows(cs, i, order); }
  }

  lemma OneMore(cs: seq<Charge>, i: nat)
    requires i < |cs|
    ensures cs[..i + 1] == cs[..i] + [cs[i]]
    ensures SumAll(cs[..i + 1]) == SumAll(cs[..i]) + cs[i].request.amount
    ensures Ids(cs[..i + 1]) == Ids(cs[..i]) + [cs[i].id]
  {
    assert cs[..i + 1][..i] == cs[..i];
  }

  datatype Running = Running(perCreator: map<string, int>, order: seq<string>, chargeIds: seq<nat>, total: int)

  ghost predicate Tallied(cs: seq<Charge>, i: nat, t: Running)
    requires i <= |cs|
  {
    Sums(cs[..i], t.perCreator, t.order) && InFirstOrder(cs, i, t.order) &&
    t.chargeIds == Ids(cs[..i]) && t.total == SumAll(cs[..i])
  }

  /** The loop body. JavaScript's `Map` keeps its keys in insertion order, here `order`. */
  function Count(t: Running, c: Charge): Running {
    var k := c.request.creator;
    var before := if k in t.perCreator then t.perCreator[k] else 0;
    Running(t.perCreator[k := before + c.request.amount], if k in t.perCreator then t.order else t.order + [k],
            t.chargeIds + [c.id], t.total + c.request.amount)
  }

  lemma CountKeepsSums(done: seq<Charge>, t: Running, c: Charge)
    requires Sums(done, t.perCreator, t.order)
    ensures var u := Count(t, c); Sums(done + [c], u.perCreator, u.order)
    ensures c.request.creator in t.perCreator <==> c.request.creator in t.order
  {
    SumsNext(done, c, t.perCreator, t.order);
  }

  lemma CountKeepsOrder(cs: seq<Charge>, i: nat, t: Running)
    requires i < |cs| && InFirstOrder(cs, i, t.order)
    requires cs[i].request.creator in t.perCreator <==> cs[i].request.creator in t.order
    ensures InFirstOrder(cs, i + 1, Count(t, cs[i]).order)
  {
    FirstOrderNext(cs, i, t.order);
  }

  lemma CountKeeps(cs: seq<Charge>, i: nat, t: Running)
    requires i < |cs| && Tallied(cs, i, t)
    ensures Tallied(cs, i + 1, Count(t, cs[i]))
  {
    OneMore(cs, i);
    CountKeepsSums(cs[..i], t, cs[i]);
    CountKeepsOrder(cs, i, t);
  }

  method Tally(charges: seq<Charge>) returns (t: Running)
    ensures Tallied(charges, |charges|, t)
  {
    t := Running(map[], [], [], 0);
    var i := 0;
    while i < |charges|
      invariant 0 <= i <= |charges| && Tallied(charges, i, t)
    {
      CountKeeps(charges, i, t);
      t := Count(t, charges[i]);
      i := i + 1;
    }
  }

  method List(order: seq<string>, perCreator: map<string, int>) returns (creators: seq<string>, amounts: seq<int>)
    requires forall k :: k in order ==> k in perCreator
    ensures creators == order && |amounts| == |order|
    ensures forall i :: 0 <= i < |order| ==> amounts[i] == perCreator[order[i]]
  {
    creators, amounts := [], [];
    for j := 0 to |order|
      invariant creators == order[..j] && |amounts| == j
      invariant forall i :: 0 <= i < j ==> amounts[i] == perCreator[order[i]]
    {
      creators := creators + [order[j]];
      amounts := amounts + [perCreator[order[j]]];
    }
  }

  /** What a batch pays a creator. */
  function AmountFor(creators: seq<string>, amounts: seq<int>, creator: string): int
    requires |creators| == |amounts|
  {
    if creators == [] then 0
    else (if creators[0] == creator then amounts[0] else 0) + AmountFor(creators[1..], amounts[1..], creator)
  }

  lemma {:induction false} AmountIsListed(creators: seq<string>, amounts: seq<int>, creator: string)
    requires |creators| == |amounts| && Distinct(creators)
    ensures creator !in creators ==> AmountFor(creators, amounts, creator) == 0
    ensures forall i :: 0 <= i < |creators| && creators[i] == creator ==> AmountFor(creators, amounts, creator) == amounts[i]
  {
    if creators != [] {
      AmountIsListed(creators[1..], amounts[1..], creator);
      assert creators[0] !in creators[1..];
      forall i | 0 <= i < |creators| && creators[i] == creator
        ensures AmountFor(creators, amounts, creator) == amounts[i]
      {
        if i > 0 { assert creators[1..][i - 1] == creator; }
      }
    }
  }

  lemma {:induction false} NoShare(cs: seq<Charge>, creator: string)
    requires forall i :: 0 <= i < |cs| ==> cs[i].request.creator != creator
    ensures SumFor(cs, creator) == 0
    decreases |cs|
  {
    if cs != [] { NoShare(cs[..|cs| - 1], creator); }
  }

  /** A batch pays every creator, listed or not, exactly the sum of that creator's charges. */
  lemma {:induction false} BatchPaysEachCreator(cs: seq<Charge>, creators: seq<string>, amounts: seq<int>, creator: string)
    requires |creators| == |amounts| && InFirstOrder(cs, |cs|, creators)
    requires forall i :: 0 <= i < |creators| ==> amounts[i] == SumFor(cs, creators[i])
    ensures AmountFor(creators, amounts, creator) == SumFor(cs, creator)
  {
    AmountIsListed(creators, amounts, creator);
    if creator !in creators {
      assert FirstIndex(cs, creator) == |cs|;
      NoShare(cs, creator);
    }
  }

  function Shares(cs: seq<Charge>, creators: seq<string>): (r: seq<int>)
    ensures |r| == |creators| && forall i :: 0 <= i < |r| ==> r[i] == SumFor(cs, creators[i])
  {
    seq(|creators|, i requires 0 <= i < |creators| => SumFor(cs, creators[i]))
  }

  lemma {:induction false} SumOfZeros(ns: seq<int>)
    requires forall i :: 0 <= i < |ns| ==> ns[i] == 0
    ensures SumSeq(ns) == 0
  {
    if ns != [] { SumOfZeros(ns[..|ns| - 1]); }
  }

  lemma {:induction false} AddOneShare(cs: seq<Charge>, creators: seq<string>)
    requires cs != [] && Distinct(creators)
    ensures var c := cs[|cs| - 1];
      SumSeq(Shares(cs, creators)) ==
      SumSeq(Shares(cs[..|cs| - 1], creators)) + if c.request.creator in creators then c.request.amount else 0
    decreases |creators|
  {
    if creators != [] {
      var front := creators[..|creators| - 1];
      AddOneShare(cs, front);
      assert Shares(cs, creators)[..|front|] == Shares(cs, front);
      assert Shares(cs[..|cs| - 1], creators)[..|front|] == Shares(cs[..|cs| - 1], front);
      assert creators == front + [creators[|front|]];
    }
  }

  lemma {:induction false} SumOverCreators(cs: seq<Charge>, creators: seq<string>)
    requires Distinct(creators) && forall i :: 0 <= i < |cs| ==> cs[i].request.creator in creators
    ensures SumSeq(Shares(cs, creators)) == SumAll(cs)
    decreases |cs|
  {
    if cs == [] {
      SumOfZeros(Shares(cs, creators));
    } else {
      SumOverCreators(cs[..|cs| - 1], creators);
      AddOneShare(cs, creators);
    }
  }

  /** Every charge counts for exactly one creator: the shares add up to the total. */
  lemma {:induction false} SharesAddUp(cs: seq<Charge>, creators: seq<string>, amounts: seq<int>)
    requires Distinct(creators) && |creators| == |amounts|
    requires forall k :: k in creators <==> FirstIndex(cs, k) < |cs|
    requires forall i :: 0 <= i < |creators| ==> amounts[i] == SumFor(cs, creators[i])
    ensures SumSeq(amounts) == SumAll(cs)
  {
    forall i | 0 <= i < |cs| ensures cs[i].request.creator in creators {}
    SumOverCreators(cs, creators);
    assert amounts == Shares(cs, creators);
  }

  method BuildBatch(payer: string, vault: string, charges: seq<Charge>) returns (b: Batch)
    ensures b.payer == payer && b.vault == vault && |b.creators| == |b.amounts|
    ensures InFirstOrder(charges, |charges|, b.creators)
    ensures forall i :: 0 <= i < |b.creators| ==> b.amounts[i] == SumFor(charges, b.creators[i])
    ensures b.chargeIds == Ids(charges)
    ensures b.total == SumAll(charges) && SumSeq(b.amounts) == b.total
    ensures forall k :: AmountFor(b.creators, b.amounts, k) == SumFor(charges, k)
  {
    var t := Tally(charges);
    assert charges[..|charges|] == charges;
    var creators, amounts := List(t.order, t.perCreator);
    SharesAddUp(charges, creators, amounts);
    forall k ensures AmountFor(creators, amounts, k) == SumFor(charges, k) {
      BatchPaysEachCreator(charges, creators, amounts, k);
    }
    b := Batch(payer, vault, creators, amounts, t.chargeIds, t.total);
  }

  /** Positive charges make positive amounts, so every creator of a batch is paid something. */
  lemma {:induction false} PositiveShares(cs: seq<Charge>, creator: string)
    requires forall i :: 0 <= i < |cs| ==> cs[i].request.amount > 0
    ensures SumFor(cs, creator) >= 0
    ensures FirstIndex(cs, creator) < |cs| ==> SumFor(cs, creator) > 0
    decreases |cs|
  {
    if cs != [] {
      PositiveShares(cs[..|cs| - 1], creator);
      if FirstIndex(cs, creator) < |cs| - 1 {
        assert cs[..|cs| - 1][FirstIndex(cs, creator)].request.creator == creator;
      }
    }
  }
}
