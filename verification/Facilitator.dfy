/** `FacilitatorService` (packages/facilitator/src/service.ts): charges are queued, drained into
batches, settled, and put back on failure, with any number of flushes overlapping. Every await
of `flushPayer` is a point where other calls run. The settler reports failure and never throws. */
module Facilitator {
  import opened Wrappers
  import opened Ledger

  /** One call of `flushPayer`: awaiting the vault, awaiting the settler, or over. */
  datatype Flight =
    | Resolving(payer: string)
    | Settling(payer: string, charges: seq<Charge>)
    | Settled(payer: string, charges: seq<Charge>)
    | Over

  /** `accepted` records every charge ever recorded; `clock` is the latest time seen. */
  datatype World = World(book: Book, flights: seq<Flight>, accepted: seq<Charge>, clock: int)

  const EMPTY := World(Book(map[], map[], 0), [], [], 0)

  datatype Step =
    | ChargeIt(r: ChargeRequest, now: int)
    | Flush(payer: string)
    | VaultKnown(i: nat)
    | VaultFailed(i: nat)
    | SettlerAnswers(i: nat, ok: bool)

  predicate Enabled(w: World, step: Step) {
    match step
    case ChargeIt(_, _) => true
    case Flush(_) => true
    case VaultKnown(i) => i < |w.flights| && w.flights[i].Resolving?
    case VaultFailed(i) => i < |w.flights| && w.flights[i].Resolving?
    case SettlerAnswers(i, _) => i < |w.flights| && w.flights[i].Settling?
  }

  function Apply(w: World, step: Step): World
    requires Enabled(w, step)
  {
    match step
    case ChargeIt(r, now) =>
      if r.amount <= 0 then w
      else
        var (b, c) := Add(w.book, r, now);
        World(b, w.flights, if Known(w.book, r) then w.accepted else w.accepted + [c],
              if now > w.clock then now else w.clock)
    case Flush(p) => if PendingFor(w.book, p) == [] then w else w.(flights := w.flights + [Resolving(p)])
    case VaultKnown(i) =>
      var (b, charges) := Drain(w.book, w.flights[i].payer);
      w.(book := b, flights := w.flights[i := Settling(w.flights[i].payer, charges)])
    case VaultFailed(i) => w.(flights := w.flights[i := Over])
    case SettlerAnswers(i, ok) =>
      var f := w.flights[i];
      if ok then w.(flights := w.flights[i := Settled(f.payer, f.charges)])
      else w.(book := Requeue(w.book, f.payer, f.charges), flights := w.flights[i := Over])
  }

  predicate Run(steps: seq<Step>)
    decreases |steps|, 0
  {
    steps == [] || (Run(steps[..|steps| - 1]) && Enabled(After(steps[..|steps| - 1]), steps[|steps| - 1]))
  }

  function After(steps: seq<Step>): World
    requires Run(steps)
    decreases |steps|, 1
  {
    if steps == [] then EMPTY else Apply(After(steps[..|steps| - 1]), steps[|steps| - 1])
  }

  // ---------------------------------------------------------------- where charges are

  function ChargesOf(f: Flight, payer: string, settled: bool): seq<Charge> {
    match f
    case Settling(p, cs) => if p == payer && !settled then cs else []
    case Settled(p, cs) => if p == payer && settled then cs else []
    case _ => []
  }

  /** The payer's charges in batches handed to the settler, or in settled batches. */
  function Batched(flights: seq<Flight>, payer: string, settled: bool): seq<Charge> {
    if flights == [] then []
    else Batched(flights[..|flights| - 1], payer, settled) + ChargesOf(flights[|flights| - 1], payer, settled)
  }

  function OfPayer(cs: seq<Charge>, payer: string): seq<Charge> {
    if cs == [] then []
    else OfPayer(cs[..|cs| - 1], payer) + if cs[|cs| - 1].request.payer == payer then [cs[|cs| - 1]] else []
  }

  /** How often c occurs. */
  ghost function Times(cs: seq<Charge>, c: Charge): nat { multiset(cs)[c] }

  /** Pending, in flight and settled together are the accepted charges. */
  ghost predicate Conserved(w: World, payer: string, c: Charge) {
    Times(OfPayer(w.accepted, payer), c) ==
    Times(PendingFor(w.book, payer), c) + Times(Batched(w.flights, payer, false), c) + Times(Batched(w.flights, payer, true), c)
  }

  predicate Numbered(accepted: seq<Charge>, sequence: nat) {
    sequence == |accepted| && forall i :: 0 <= i < |accepted| ==> accepted[i].id == i + 1
  }

  /** A reference maps to the one charge accepted under it. */
  predicate RefsKnown(accepted: seq<Charge>, byRef: map<string, Charge>) {
    (forall r :: r in byRef ==> byRef[r] in accepted && byRef[r].request.ref == Some(r)) &&
    (forall i :: 0 <= i < |accepted| && accepted[i].request.ref.Some? ==>
      accepted[i].request.ref.value in byRef && byRef[accepted[i].request.ref.value] == accepted[i])
  }

  ghost predicate Inv(w: World) {
    (forall p, c :: Conserved(w, p, c)) && Numbered(w.accepted, w.book.sequence) && RefsKnown(w.accepted, w.book.byRef)
  }

  // ---------------------------------------------------------------- each step conserves

  lemma {:induction false} TimesConcat(a: seq<Charge>, b: seq<Charge>, c: Charge)
    ensures Times(a + b, c) == Times(a, c) + Times(b, c)
  {
    assert multiset(a + b) == multiset(a) + multiset(b);
  }

  lemma {:induction false} BatchedLast(flights: seq<Flight>, payer: string, settled: bool, c: Charge)
    requires flights != []
    ensures Times(Batched(flights, payer, settled), c) ==
            Times(Batched(flights[..|flights| - 1], payer, settled), c) + Times(ChargesOf(flights[|flights| - 1], payer, settled), c)
  {
    TimesConcat(Batched(flights[..|flights| - 1], payer, settled), ChargesOf(flights[|flights| - 1], payer, settled), c);
  }

  lemma {:induction false} BatchedUpdate(flights: seq<Flight>, i: nat, f: Flight, payer: string, settled: bool, c: Charge)
    requires i < |flights|
    ensures Times(Batched(flights[i := f], payer, settled), c) + Times(ChargesOf(flights[i], payer, settled), c) ==
            Times(Batched(flights, payer, settled), c) + Times(ChargesOf(f, payer, settled), c)
    decreases |flights|
  {
    var updated, last := flights[i := f], |flights| - 1;
    BatchedLast(flights, payer, settled, c);
    BatchedLast(updated, payer, settled, c);
    if i == last {
      assert updated[..last] == flights[..last] && updated[last] == f;
    } else {
      assert updated[..last] == flights[..last][i := f] && updated[last] == flights[last];
      BatchedUpdate(flights[..last], i, f, payer, settled, c);
    }
  }

  lemma {:induction false} FlightsKeep(w: World, v: World, i: nat, f: Flight, payer: string, c: Charge)
    requires Conserved(w, payer, c) && i < |w.flights| && v.flights == w.flights[i := f] && v.accepted == w.accepted
    requires Times(PendingFor(w.book, payer), c) + Times(ChargesOf(w.flights[i], payer, false), c) +
             Times(ChargesOf(w.flights[i], payer, true), c) ==
             Times(PendingFor(v.book, payer), c) + Times(ChargesOf(f, payer, false), c) + Times(ChargesOf(f, payer, true), c)
    ensures Conserved(v, payer, c)
  {
    BatchedUpdate(w.flights, i, f, payer, false, c);
    BatchedUpdate(w.flights, i, f, payer, true, c);
  }

  lemma ChargeKeeps(w: World, r: ChargeRequest, now: int, payer: string, c: Charge)
    requires Conserved(w, payer, c) && r.amount > 0 && !Known(w.book, r)
    ensures Conserved(Apply(w, ChargeIt(r, now)), payer, c)
  {
    var (b, made) := Add(w.book, r, now);
    assert (w.accepted + [made])[..|w.accepted|] == w.accepted;
    if r.payer == payer {
      TimesConcat(OfPayer(w.accepted, payer), [made], c);
      TimesConcat(PendingFor(w.book, payer), [made], c);
    } else {
      assert OfPayer(w.accepted + [made], payer) == OfPayer(w.accepted, payer) + [];
    }
  }

  lemma FlushKeeps(w: World, p: string, payer: string, c: Charge)
    requires Conserved(w, payer, c)
    ensures Conserved(w.(flights := w.flights + [Resolving(p)]), payer, c)
  {
    var flights := w.flights + [Resolving(p)];
    assert flights[..|w.flights|] == w.flights;
    BatchedLast(flights, payer, false, c);
    BatchedLast(flights, payer, true, c);
  }

  lemma DrainMoves(b: Book, p: string, payer: string, c: Charge)
    ensures var (after, charges) := Drain(b, p);
      Times(PendingFor(b, payer), c) == Times(PendingFor(after, payer), c) + if p == payer then Times(charges, c) else 0
  {
  }

  lemma RequeueMoves(b: Book, p: string, charges: seq<Charge>, payer: string, c: Charge)
    ensures Times(PendingFor(Requeue(b, p, charges), payer), c) ==
            Times(PendingFor(b, payer), c) + if p == payer then Times(charges, c) else 0
  {
    TimesConcat(charges, PendingFor(b, p), c);
  }

  lemma AnswerConserves(w: World, i: nat, ok: bool, payer: string, c: Charge)
    requires Conserved(w, payer, c) && Enabled(w, SettlerAnswers(i, ok))
    ensures Conserved(Apply(w, SettlerAnswers(i, ok)), payer, c)
  {
    var v := Apply(w, SettlerAnswers(i, ok));
    if !ok { RequeueMoves(w.book, w.flights[i].payer, w.flights[i].charges, payer, c); }
    FlightsKeep(w, v, i, v.flights[i], payer, c);
  }

  lemma StepConserves(w: World, step: Step, payer: string, c: Charge)
    requires Conserved(w, payer, c) && Enabled(w, step)
    ensures Conserved(Apply(w, step), payer, c)
  {
    var v := Apply(w, step);
    match step
    case ChargeIt(r, now) => if r.amount > 0 && !Known(w.book, r) { ChargeKeeps(w, r, now, payer, c); }
    case Flush(p) => FlushKeeps(w, p, payer, c);
    case VaultKnown(i) =>
      DrainMoves(w.book, w.flights[i].payer, payer, c);
      FlightsKeep(w, v, i, v.flights[i], payer, c);
    case VaultFailed(i) => FlightsKeep(w, v, i, Over, payer, c);
    case SettlerAnswers(i, ok) => AnswerConserves(w, i, ok, payer, c);
  }

  lemma StepKeepsRecords(w: World, step: Step)
    requires Numbered(w.accepted, w.book.sequence) && RefsKnown(w.accepted, w.book.byRef) && Enabled(w, step)
    ensures var v := Apply(w, step); Numbered(v.accepted, v.book.sequence) && RefsKnown(v.accepted, v.book.byRef)
  {
  }

  lemma {:induction false} RunKeeps(steps: seq<Step>)
    requires Run(steps)
    ensures Inv(After(steps))
    decreases |steps|
  {
    if steps == [] {
      assert forall p, c :: Conserved(EMPTY, p, c);
    } else {
      RunKeeps(steps[..|steps| - 1]);
      var w, step := After(steps[..|steps| - 1]), steps[|steps| - 1];
      forall p, c ensures Conserved(Apply(w, step), p, c) { StepConserves(w, step, p, c); }
      StepKeepsRecords(w, step);
    }
  }

  // ---------------------------------------------------------------- theorems

  lemma {:induction false} OfPayerOnce(accepted: seq<Charge>, c: Charge)
    requires forall i :: 0 <= i < |accepted| ==> accepted[i].id == i + 1
    ensures Times(OfPayer(accepted, c.request.payer), c) == if c in accepted then 1 else 0
    decreases |accepted|
  {
    if accepted != [] {
      var front := accepted[..|accepted| - 1];
      OfPayerOnce(front, c);
      assert accepted == front + [accepted[|accepted| - 1]];
    }
  }

  /** Every accepted charge is in exactly one place, once, and nothing else is anywhere. */
  lemma {:induction false} ExactlyOnePlace(steps: seq<Step>, c: Charge)
    requires Run(steps)
    ensures var w, p := After(steps), c.request.payer;
      Times(PendingFor(w.book, p), c) + Times(Batched(w.flights, p, false), c) +
      Times(Batched(w.flights, p, true), c) == if c in w.accepted then 1 else 0
  {
    RunKeeps(steps);
    var w := After(steps);
    assert Conserved(w, c.request.payer, c);
    OfPayerOnce(w.accepted, c);
  }

  lemma SameTimes(a: seq<Charge>, b: seq<Charge>)
    requires forall k :: Times(a, k) == Times(b, k)
    ensures multiset(a) == multiset(b)
  {
    forall k: Charge ensures multiset(a)[k] == multiset(b)[k] { assert Times(a, k) == Times(b, k); }
  }

  /** For each payer and creator: settled plus pending plus in flight is what was accepted. */
  lemma {:induction false} AmountsConserved(steps: seq<Step>, payer: string, creator: string)
    requires Run(steps)
    ensures var w := After(steps);
      SumFor(OfPayer(w.accepted, payer), creator) ==
      SumFor(PendingFor(w.book, payer), creator) + SumFor(Batched(w.flights, payer, false), creator) +
      SumFor(Batched(w.flights, payer, true), creator)
  {
    RunKeeps(steps);
    var w := After(steps);
    var a, b, c := PendingFor(w.book, payer), Batched(w.flights, payer, false), Batched(w.flights, payer, true);
    forall k ensures Times(OfPayer(w.accepted, payer), k) == Times((a + b) + c, k) {
      assert Conserved(w, payer, k);
      TimesConcat(a + b, c, k);
      TimesConcat(a, b, k);
    }
    SameTimes(OfPayer(w.accepted, payer), (a + b) + c);
    SumForPermuted(OfPayer(w.accepted, payer), (a + b) + c, creator);
    SumForConcat(a + b, c, creator);
    SumForConcat(a, b, creator);
  }

  /** A repeated reference adds nothing: the charge first accepted under it comes back. */
  lemma {:induction false} RepeatedRefAddsNothing(steps: seq<Step>, r: ChargeRequest, now: int, first: Charge)
    requires Run(steps) && r.amount > 0 && r.ref.Some?
    requires first in After(steps).accepted && first.request.ref == r.ref
    ensures var w := After(steps);
      Add(w.book, r, now) == (w.book, first) &&
      Apply(w, ChargeIt(r, now)) == w.(clock := if now > w.clock then now else w.clock)
  {
    RunKeeps(steps);
  }

  // ---------------------------------------------------------------- how many there are

  function Held(f: Flight): nat {
    match f
    case Settling(_, cs) => |cs|
    case Settled(_, cs) => |cs|
    case _ => 0
  }

  /** How many charges are in batches handed to the settler, settled or not. */
  function Handed(flights: seq<Flight>): nat {
    if flights == [] then 0 else Handed(flights[..|flights| - 1]) + Held(flights[|flights| - 1])
  }

  lemma {:induction false} HandedUpdate(flights: seq<Flight>, i: nat, f: Flight)
    requires i < |flights|
    ensures Handed(flights[i := f]) == Handed(flights) - Held(flights[i]) + Held(f)
    decreases |flights|
  {
    var last := |flights| - 1;
    if i == last {
      assert flights[i := f][..last] == flights[..last];
    } else {
      assert flights[i := f][..last] == flights[..last][i := f];
      HandedUpdate(flights[..last], i, f);
    }
  }

  lemma DrainCounts(b: Book, payer: string)
    ensures TotalPending(Drain(b, payer).0.pending) + |Drain(b, payer).1| == TotalPending(b.pending)
  {
    if payer in b.pending {
      TotalWithout(b.pending, payer);
    }
  }

  lemma RequeueCounts(b: Book, payer: string, charges: seq<Charge>)
    ensures TotalPending(Requeue(b, payer, charges).pending) == TotalPending(b.pending) + |charges|
  {
    TotalUpdate(b.pending, payer, charges + PendingFor(b, payer));
  }

  lemma {:induction false} StepCounts(w: World, step: Step)
    requires Enabled(w, step) && TotalPending(w.book.pending) + Handed(w.flights) == |w.accepted|
    ensures var v := Apply(w, step); TotalPending(v.book.pending) + Handed(v.flights) == |v.accepted|
  {
    match step
    case ChargeIt(r, now) =>
      TotalUpdate(w.book.pending, r.payer, PendingFor(w.book, r.payer) + [Add(w.book, r, now).1]);
    case Flush(p) => assert (w.flights + [Resolving(p)])[..|w.flights|] == w.flights;
    case VaultKnown(i) =>
      DrainCounts(w.book, w.flights[i].payer);
      HandedUpdate(w.flights, i, Apply(w, step).flights[i]);
    case VaultFailed(i) => HandedUpdate(w.flights, i, Over);
    case SettlerAnswers(i, ok) =>
      RequeueCounts(w.book, w.flights[i].payer, w.flights[i].charges);
      HandedUpdate(w.flights, i, Apply(w, step).flights[i]);
  }

  /** `size()` is the number of accepted charges that are in no batch, handed over or settled. */
  lemma {:induction false} SizeCountsTheRest(steps: seq<Step>)
    requires Run(steps)
    ensures var w := After(steps); TotalPending(w.book.pending) == |w.accepted| - Handed(w.flights)
    decreases |steps|
  {
    if steps != [] {
      SizeCountsTheRest(steps[..|steps| - 1]);
      StepCounts(After(steps[..|steps| - 1]), steps[|steps| - 1]);
    }
  }

  // ---------------------------------------------------------------- queue order

  /** Strictly increasing charge numbers, times that never go back. */
  predicate Increasing(cs: seq<Charge>) {
    forall i, j :: 0 <= i < j < |cs| ==> cs[i].id < cs[j].id && cs[i].receivedAt <= cs[j].receivedAt
  }

  predicate Before(a: seq<Charge>, b: seq<Charge>) {
    forall i, j :: 0 <= i < |a| && 0 <= j < |b| ==> a[i].id < b[j].id && a[i].receivedAt <= b[j].receivedAt
  }

  predicate UpTo(cs: seq<Charge>, sequence: nat, clock: int) {
    forall i :: 0 <= i < |cs| ==> cs[i].id <= sequence && cs[i].receivedAt <= clock
  }

  /** Putting a batch in front of a queue keeps the order exactly when it belongs there. */
  lemma JoinedIff(cs: seq<Charge>, queue: seq<Charge>)
    requires Increasing(cs) && Increasing(queue)
    ensures Increasing(cs + queue) <==> Before(cs, queue)
  {
    var all := cs + queue;
    if Increasing(all) {
      forall i, j | 0 <= i < |cs| && 0 <= j < |queue|
        ensures cs[i].id < queue[j].id && cs[i].receivedAt <= queue[j].receivedAt
      {
        assert all[i] == cs[i] && all[|cs| + j] == queue[j];
      }
    }
  }

  lemma JoinedUpTo(cs: seq<Charge>, queue: seq<Charge>, sequence: nat, clock: int)
    requires UpTo(cs, sequence, clock) && UpTo(queue, sequence, clock)
    ensures UpTo(cs + queue, sequence, clock)
  {
  }

  lemma AppendKeeps(queue: seq<Charge>, c: Charge)
    requires c.id > 0 && Increasing(queue) && UpTo(queue, c.id - 1, c.receivedAt)
    ensures Increasing(queue + [c]) && UpTo(queue + [c], c.id, c.receivedAt)
  {
  }

  /** The payer's charges of one batch at the settler. */
  function Out(w: World, i: nat, payer: string): seq<Charge>
    requires i < |w.flights|
  {
    ChargesOf(w.flights[i], payer, false)
  }

  predicate Kept(cs: seq<Charge>, w: World) { Increasing(cs) && UpTo(cs, w.book.sequence, w.clock) }

  /** The queue, and every batch by itself, is in order. */
  predicate Sound(w: World, payer: string) {
    Kept(PendingFor(w.book, payer), w) && forall i :: 0 <= i < |w.flights| ==> Kept(Out(w, i, payer), w)
  }

  predicate Forward(w: World, step: Step) { step.ChargeIt? ==> step.now >= w.clock }

  /** A batch that comes back belongs in front of what is queued by then. */
  predicate ReturnsBefore(w: World, step: Step, payer: string)
    requires Enabled(w, step)
  {
    step.SettlerAnswers? && !step.ok ==> Before(Out(w, step.i, payer), PendingFor(w.book, payer))
  }

  lemma ChargeStaysSound(w: World, r: ChargeRequest, now: int, payer: string)
    requires Sound(w, payer) && now >= w.clock
    ensures Sound(Apply(w, ChargeIt(r, now)), payer)
  {
    var v, queue := Apply(w, ChargeIt(r, now)), PendingFor(w.book, payer);
    if r.amount > 0 && !Known(w.book, r) && r.payer == payer {
      AppendKeeps(queue, Charge(w.book.sequence + 1, r, now));
    }
    forall i | 0 <= i < |v.flights|
      ensures Kept(Out(v, i, payer), v)
    {
      assert Kept(Out(w, i, payer), w);
    }
  }

  lemma FlightStaysSound(w: World, v: World, i: nat, payer: string)
    requires Sound(w, payer) && i < |w.flights| == |v.flights| && v.flights == w.flights[i := v.flights[i]]
    requires v.book.sequence == w.book.sequence && v.clock == w.clock
    requires Kept(PendingFor(v.book, payer), v) && Kept(Out(v, i, payer), v)
    ensures Sound(v, payer)
  {
    forall k | 0 <= k < |v.flights|
      ensures Kept(Out(v, k, payer), v)
    {
      if k != i {
        assert Out(v, k, payer) == Out(w, k, payer);
      }
    }
  }

  lemma QueueReturned(w: World, i: nat, payer: string)
    requires Enabled(w, SettlerAnswers(i, false))
    ensures PendingFor(Apply(w, SettlerAnswers(i, false)).book, payer) == Out(w, i, payer) + PendingFor(w.book, payer)
  {
    assert [] + PendingFor(w.book, payer) == PendingFor(w.book, payer);
  }

  lemma FailureKeepsOrderIff(w: World, i: nat, payer: string)
    requires Sound(w, payer) && Enabled(w, SettlerAnswers(i, false))
    ensures var v, cs, queue := Apply(w, SettlerAnswers(i, false)), Out(w, i, payer), PendingFor(w.book, payer);
      (Increasing(PendingFor(v.book, payer)) <==> Before(cs, queue)) && (Before(cs, queue) ==> Sound(v, payer))
  {
    var v, cs, queue := Apply(w, SettlerAnswers(i, false)), Out(w, i, payer), PendingFor(w.book, payer);
    QueueReturned(w, i, payer);
    assert Kept(cs, w);
    JoinedIff(cs, queue);
    JoinedUpTo(cs, queue, w.book.sequence, w.clock);
    if Before(cs, queue) {
      FlightStaysSound(w, v, i, payer);
    }
  }

  /** What one step does to a payer's order. */
  lemma StepKeepsOrderIff(w: World, step: Step, payer: string)
    requires Sound(w, payer) && Enabled(w, step) && Forward(w, step)
    ensures Increasing(PendingFor(Apply(w, step).book, payer)) <==> ReturnsBefore(w, step, payer)
    ensures ReturnsBefore(w, step, payer) ==> Sound(Apply(w, step), payer)
  {
    var v := Apply(w, step);
    match step
    case ChargeIt(r, now) => ChargeStaysSound(w, r, now, payer);
    case Flush(p) =>
      assert forall i :: 0 <= i < |w.flights| ==> Out(v, i, payer) == Out(w, i, payer);
    case VaultKnown(i) => FlightStaysSound(w, v, i, payer);
    case VaultFailed(i) => FlightStaysSound(w, v, i, payer);
    case SettlerAnswers(i, ok) =>
      if ok {
        FlightStaysSound(w, v, i, payer);
      } else {
        FailureKeepsOrderIff(w, i, payer);
      }
  }

  /** The clock never runs back. */
  predicate ForwardRun(steps: seq<Step>)
    requires Run(steps)
    decreases |steps|
  {
    steps == [] || (ForwardRun(steps[..|steps| - 1]) && Forward(After(steps[..|steps| - 1]), steps[|steps| - 1]))
  }

  /** Every batch of the payer that failed was put back where it belongs. */
  predicate AllReturnBefore(steps: seq<Step>, payer: string)
    requires Run(steps)
    decreases |steps|
  {
    steps == [] || (AllReturnBefore(steps[..|steps| - 1], payer) &&
                    ReturnsBefore(After(steps[..|steps| - 1]), steps[|steps| - 1], payer))
  }

  /** The payer's queue was in order at every moment of the run. */
  predicate AlwaysIncreasing(steps: seq<Step>, payer: string)
    requires Run(steps)
    decreases |steps|
  {
    Increasing(PendingFor(After(steps).book, payer)) && (steps == [] || AlwaysIncreasing(steps[..|steps| - 1], payer))
  }

  /** A queue stays in order through a run exactly when each failed batch is put back in front of
      later charges only. */
  lemma {:induction false} OrderKeptIff(steps: seq<Step>, payer: string)
    requires Run(steps) && ForwardRun(steps)
    ensures AlwaysIncreasing(steps, payer) <==> AllReturnBefore(steps, payer)
    ensures AllReturnBefore(steps, payer) ==> Sound(After(steps), payer)
    decreases |steps|
  {
    if steps != [] {
      var front := steps[..|steps| - 1];
      OrderKeptIff(front, payer);
      if AllReturnBefore(front, payer) {
        StepKeepsOrderIff(After(front), steps[|steps| - 1], payer);
      }
    }
  }

  // ---------------------------------------------------------------- one batch at a time

  /** At most one batch with charges in it is at the settler for this payer. */
  predicate OneBatch(w: World, payer: string) {
    forall i, j :: 0 <= i < j < |w.flights| ==> Out(w, i, payer) == [] || Out(w, j, payer) == []
  }

  /** What is out was drained before what is queued came in. */
  predicate OutBefore(w: World, payer: string) {
    forall i :: 0 <= i < |w.flights| ==> Before(Out(w, i, payer), PendingFor(w.book, payer))
  }

  /** The clock does not run back, and one batch of the payer is out at a time. */
  predicate Orderly(w: World, step: Step, payer: string)
    requires Enabled(w, step)
  {
    Forward(w, step) && OneBatch(Apply(w, step), payer)
  }

  predicate OrderlyRun(steps: seq<Step>, payer: string)
    requires Run(steps)
    decreases |steps|
  {
    steps == [] ||
    (OrderlyRun(steps[..|steps| - 1], payer) && Orderly(After(steps[..|steps| - 1]), steps[|steps| - 1], payer))
  }

  lemma ChargeStaysBefore(w: World, r: ChargeRequest, now: int, payer: string)
    requires Sound(w, payer) && OutBefore(w, payer) && now >= w.clock
    ensures OutBefore(Apply(w, ChargeIt(r, now)), payer)
  {
    var v := Apply(w, ChargeIt(r, now));
    forall i | 0 <= i < |v.flights|
      ensures Before(Out(v, i, payer), PendingFor(v.book, payer))
    {
      assert Kept(Out(w, i, payer), w) && Before(Out(w, i, payer), PendingFor(w.book, payer));
    }
  }

  lemma FailureStaysBefore(w: World, i: nat, payer: string)
    requires OutBefore(w, payer) && OneBatch(w, payer) && Enabled(w, SettlerAnswers(i, false))
    ensures OutBefore(Apply(w, SettlerAnswers(i, false)), payer)
  {
    var v := Apply(w, SettlerAnswers(i, false));
    QueueReturned(w, i, payer);
    forall k | 0 <= k < |v.flights|
      ensures Before(Out(v, k, payer), PendingFor(v.book, payer))
    {
      if k != i {
        assert Out(v, k, payer) == Out(w, k, payer);
        assert Out(w, i, payer) == [] || Out(w, k, payer) == [];
        assert Before(Out(w, k, payer), PendingFor(w.book, payer));
      }
    }
  }

  lemma FlightStaysBefore(w: World, v: World, i: nat, payer: string)
    requires OutBefore(w, payer) && i < |w.flights| == |v.flights| && v.flights == w.flights[i := v.flights[i]]
    requires PendingFor(v.book, payer) == [] || PendingFor(v.book, payer) == PendingFor(w.book, payer)
    requires Out(v, i, payer) == [] || PendingFor(v.book, payer) == []
    ensures OutBefore(v, payer)
  {
    forall k | 0 <= k < |v.flights|
      ensures Before(Out(v, k, payer), PendingFor(v.book, payer))
    {
      if k != i {
        assert Out(v, k, payer) == Out(w, k, payer) && Before(Out(w, k, payer), PendingFor(w.book, payer));
      }
    }
  }

  lemma StepStaysBefore(w: World, step: Step, payer: string)
    requires Sound(w, payer) && OutBefore(w, payer) && OneBatch(w, payer) && Enabled(w, step) && Forward(w, step)
    ensures OutBefore(Apply(w, step), payer)
  {
    var v := Apply(w, step);
    match step
    case ChargeIt(r, now) => ChargeStaysBefore(w, r, now, payer);
    case Flush(p) =>
      assert forall i :: 0 <= i < |w.flights| ==> Out(v, i, payer) == Out(w, i, payer);
    case VaultKnown(i) => FlightStaysBefore(w, v, i, payer);
    case VaultFailed(i) => FlightStaysBefore(w, v, i, payer);
    case SettlerAnswers(i, ok) =>
      if ok {
        FlightStaysBefore(w, v, i, payer);
      } else {
        FailureStaysBefore(w, i, payer);
      }
  }

  /** One batch at a time is enough: then every failed batch goes back where it belongs. */
  lemma {:induction false} OrderlyRunKeepsOrder(steps: seq<Step>, payer: string)
    requires Run(steps) && OrderlyRun(steps, payer)
    ensures ForwardRun(steps) && AllReturnBefore(steps, payer) && AlwaysIncreasing(steps, payer)
    ensures OutBefore(After(steps), payer) && OneBatch(After(steps), payer)
    decreases |steps|
  {
    if steps != [] {
      var front, step := steps[..|steps| - 1], steps[|steps| - 1];
      OrderlyRunKeepsOrder(front, payer);
      OrderKeptIff(front, payer);
      StepStaysBefore(After(front), step, payer);
    }
    OrderKeptIff(steps, payer);
  }

  /** `shouldFlush`, which looks at the count and at the first charge only. */
  function ShouldFlush(b: Book, payer: string, now: int, maxCharges: int, maxAgeMs: int): bool {
    var queue := PendingFor(b, payer);
    queue != [] && (|queue| >= maxCharges || now - queue[0].receivedAt >= maxAgeMs)
  }

  predicate SomeOldEnough(queue: seq<Charge>, now: int, maxAgeMs: int) {
    exists i :: 0 <= i < |queue| && now - queue[i].receivedAt >= maxAgeMs
  }

  /** While the queue is kept in order through drains and requeues, looking at the first charge is
      looking at all of them. */
  lemma {:induction false} FirstIsOldest(steps: seq<Step>, payer: string, now: int, maxCharges: int, maxAgeMs: int)
    requires Run(steps) && ForwardRun(steps) && AllReturnBefore(steps, payer)
    ensures var queue := PendingFor(After(steps).book, payer);
      Increasing(queue) &&
      (ShouldFlush(After(steps).book, payer, now, maxCharges, maxAgeMs) <==>
        queue != [] && (|queue| >= maxCharges || SomeOldEnough(queue, now, maxAgeMs)))
  {
    OrderKeptIff(steps, payer);
    var queue := PendingFor(After(steps).book, payer);
    if i :| 0 <= i < |queue| && now - queue[i].receivedAt >= maxAgeMs {
      assert queue[0].receivedAt <= queue[i].receivedAt;
    }
  }

  /** In particular with one batch of the payer out at a time. */
  lemma {:induction false} FirstIsOldestWhenOrderly(
      steps: seq<Step>, payer: string, now: int, maxCharges: int, maxAgeMs: int)
    requires Run(steps) && OrderlyRun(steps, payer)
    ensures var queue := PendingFor(After(steps).book, payer);
      ShouldFlush(After(steps).book, payer, now, maxCharges, maxAgeMs) <==>
        queue != [] && (|queue| >= maxCharges || SomeOldEnough(queue, now, maxAgeMs))
  {
    OrderlyRunKeepsOrder(steps, payer);
    FirstIsOldest(steps, payer, now, maxCharges, maxAgeMs);
  }

  lemma Extend(steps: seq<Step>, step: Step)
    requires Run(steps) && Enabled(After(steps), step)
    ensures Run(steps + [step]) && After(steps + [step]) == Apply(After(steps), step)
  {
    assert (steps + [step])[..|steps + [step]| - 1] == steps;
  }

  /** A charge drained into a batch, on top of a run whose queue is empty. */
  lemma {:induction false} BatchOut(steps: seq<Step>, r: ChargeRequest) returns (more: seq<Step>)
    requires r.amount > 0 && r.ref.None?
    requires Run(steps) && PendingFor(After(steps).book, r.payer) == [] && After(steps).clock == 0
    ensures Run(more)
    ensures var w, v := After(steps), After(more);
      PendingFor(v.book, r.payer) == [] && v.clock == 0 && v.book.sequence == w.book.sequence + 1 &&
      v.flights == w.flights + [Settling(r.payer, [Charge(w.book.sequence + 1, r, 0)])]
  {
    var charge, flush, n := ChargeIt(r, 0), Flush(r.payer), |After(steps).flights|;
    var c := Charge(After(steps).book.sequence + 1, r, 0);
    Extend(steps, charge);
    more := steps + [charge];
    assert PendingFor(After(more).book, r.payer) == [] + [c] == [c];
    Extend(more, flush);
    more := more + [flush];
    Extend(more, VaultKnown(n));
    more := more + [VaultKnown(n)];
  }

  lemma TwoBatchesOut(r: ChargeRequest) returns (steps: seq<Step>)
    requires r.amount > 0 && r.ref.None?
    ensures Run(steps)
    ensures var w := After(steps);
      PendingFor(w.book, r.payer) == [] &&
      w.flights == [Settling(r.payer, [Charge(1, r, 0)]), Settling(r.payer, [Charge(2, r, 0)])]
  {
    assert Run([]);
    steps := BatchOut([], r);
    steps := BatchOut(steps, r);
  }

  /** With two batches of a payer out at once, failures can put the queue out of order. */
  lemma TwoBatchesCanDisorder(r: ChargeRequest) returns (steps: seq<Step>)
    requires r.amount > 0 && r.ref.None?
    ensures Run(steps) && |PendingFor(After(steps).book, r.payer)| == 2
    ensures !Increasing(PendingFor(After(steps).book, r.payer))
  {
    steps := TwoBatchesOut(r);
    var a, b := SettlerAnswers(0, false), SettlerAnswers(1, false);
    Extend(steps, a);
    steps := steps + [a];
    Extend(steps, b);
    steps := steps + [b];
    var queue := PendingFor(After(steps).book, r.payer);
    assert queue[0].id == 2 && queue[1].id == 1;
  }

  lemma DrainThenRequeue(b: Book, payer: string)
    ensures var (d, charges) := Drain(b, payer); PendingFor(b, payer) != [] ==> Requeue(d, payer, charges) == b
  {
    var (d, charges) := Drain(b, payer);
    if PendingFor(b, payer) != [] {
      assert charges + PendingFor(d, payer) == charges;
      assert d.pending[payer := charges] == b.pending;
    }
  }

  // ---------------------------------------------------------------- the service object

  class FacilitatorService {
    const ledger: ChargeLedger
    const maxCharges: int
    const maxAgeMs: int
    var flights: seq<Flight>

    constructor (ledger: ChargeLedger, maxCharges: int, maxAgeMs: int)
      ensures this.ledger == ledger && this.maxCharges == maxCharges && this.maxAgeMs == maxAgeMs && flights == []
    {
      this.ledger, this.maxCharges, this.maxAgeMs, flights := ledger, maxCharges, maxAgeMs, [];
    }

    /** The service within a run that has accepted these charges. */
    ghost function In(accepted: seq<Charge>, clock: int): World
      reads this, ledger
    {
      World(ledger.State(), flights, accepted, clock)
    }

    method AcceptCharge(r: ChargeRequest, now: int, ghost accepted: seq<Charge>, ghost clock: int)
      returns (c: Result<Charge, string>)
      modifies ledger
      ensures var w, v := old(In(accepted, clock)), Apply(old(In(accepted, clock)), ChargeIt(r, now));
        In(v.accepted, v.clock) == v && (c.Err? <==> r.amount <= 0) && (c.Ok? ==> c.value == Add(w.book, r, now).1)
    {
      if r.amount <= 0 { return Err("amount_must_be_positive"); }
      var made := ledger.AddCharge(r, now);
      c := Ok(made);
    }

    method ShouldFlushPayer(payer: string, now: int) returns (b: bool)
      ensures b == ShouldFlush(ledger.State(), payer, now, maxCharges, maxAgeMs)
      ensures var queue := PendingFor(ledger.State(), payer);
        b <==> |queue| > 0 && (|queue| >= maxCharges || now - queue[0].receivedAt >= maxAgeMs)
    {
      var queue := PendingFor(ledger.State(), payer);
      if |queue| == 0 { return false; }
      if |queue| >= maxCharges { return true; }
      return now - queue[0].receivedAt >= maxAgeMs;
    }

    /** `flushPayer` up to the vault lookup; without pending charges it returns null. */
    method BeginFlush(payer: string)
      modifies this`flights
      ensures forall accepted, clock :: In(accepted, clock) == Apply(old(In(accepted, clock)), Flush(payer))
    {
      if |PendingFor(ledger.State(), payer)| != 0 {
        flights := flights + [Resolving(payer)];
      }
    }

    /** From the vault lookup to the settler: the batch is built from what is drained now. */
    method ResumeWithVault(i: nat, vault: string) returns (b: Batch)
      requires i < |flights| && flights[i].Resolving?
      modifies this`flights, ledger`pending
      ensures forall accepted, clock :: In(accepted, clock) == Apply(old(In(accepted, clock)), VaultKnown(i))
      ensures flights[i].Settling? && b.chargeIds == Ids(flights[i].charges) && b.total == SumAll(flights[i].charges)
      ensures |b.creators| == |b.amounts| && b.payer == flights[i].payer
      ensures forall k :: AmountFor(b.creators, b.amounts, k) == SumFor(flights[i].charges, k)
    {
      var payer := flights[i].payer;
      var charges := ledger.DrainPayer(payer);
      b := BuildBatch(payer, vault, charges);
      flights := flights[i := Settling(payer, charges)];
    }

    method ResumeWithAnswer(i: nat, ok: bool)
      requires i < |flights| && flights[i].Settling?
      modifies this`flights, ledger`pending
      ensures forall accepted, clock :: In(accepted, clock) == Apply(old(In(accepted, clock)), SettlerAnswers(i, ok))
    {
      var Settling(payer, charges) := flights[i];
      if !ok { ledger.RequeueCharges(payer, charges); }
      flights := flights[i := if ok then Settled(payer, charges) else Over];
    }

    method AbandonFlush(i: nat)
      requires i < |flights| && flights[i].Resolving?
      modifies this`flights
      ensures forall accepted, clock :: In(accepted, clock) == Apply(old(In(accepted, clock)), VaultFailed(i))
    {
      flights := flights[i := Over];
    }

    // ---------------------------------------------------------------- passes over all payers

    /** `flushPayer` when nothing else runs in between: a lookup that fails throws and a
        settlement that fails puts everything back, so neither changes the ledger. */
    method FlushPayer(payer: string, vault: Option<string>, ok: bool) returns (threw: bool)
      modifies this`flights, ledger`pending
      ensures var b, queue := old(ledger.State()), PendingFor(old(ledger.State()), payer);
        threw == (queue != [] && vault.None?) &&
        ledger.State() == (if vault.Some? && ok then Drain(b, payer).0 else b) &&
        flights == old(flights) + if queue == [] then [] else
          [if vault.Some? && ok then Settled(payer, queue) else Over]
    {
      if PendingFor(ledger.State(), payer) == [] { return false; }
      var i := |flights|;
      ghost var w := In([], 0);
      BeginFlush(payer);
      assert In([], 0) == Apply(w, Flush(payer));
      w := In([], 0);
      if vault.None? {
        AbandonFlush(i);
        assert In([], 0) == Apply(w, VaultFailed(i));
        return true;
      }
      var batch := ResumeWithVault(i, vault.value);
      assert In([], 0) == Apply(w, VaultKnown(i));
      w := In([], 0);
      ResumeWithAnswer(i, ok);
      assert In([], 0) == Apply(w, SettlerAnswers(i, ok));
      DrainThenRequeue(old(ledger.State()), payer);
      return false;
    }

    predicate Chosen(b: Book, payer: string, onlyDue: bool, nowAt: string -> int) {
      !onlyDue || ShouldFlush(b, payer, nowAt(payer), maxCharges, maxAgeMs)
    }

    /** The chosen and accepted ones among `done` have been settled, and nothing else has changed. */
    ghost predicate Passed(b: Book, v: Book, done: seq<string>, onlyDue: bool, nowAt: string -> int, accepts: string -> bool) {
      forall p ::
        PendingFor(v, p) == if p in done && Chosen(b, p, onlyDue, nowAt) && accepts(p) then [] else PendingFor(b, p)
    }

    method FlushNext(ghost b: Book, payers: seq<string>, k: nat, onlyDue: bool, nowAt: string -> int,
        vaultOf: string -> Option<string>, accepts: string -> bool)
      returns (threw: bool)
      requires forall i, j :: 0 <= i < j < |payers| ==> payers[i] != payers[j]
      requires k < |payers| && PendingFor(b, payers[k]) != []
      requires Passed(b, ledger.State(), payers[..k], onlyDue, nowAt, accepts)
      modifies this`flights, ledger`pending
      ensures threw == (Chosen(b, payers[k], onlyDue, nowAt) && vaultOf(payers[k]).None?)
      ensures Passed(b, ledger.State(), if threw then payers[..k] else payers[..k + 1], onlyDue, nowAt, accepts)
    {
      var p := payers[k];
      assert payers[..k + 1] == payers[..k] + [p] && p !in payers[..k];
      assert PendingFor(ledger.State(), p) == PendingFor(b, p);
      ghost var v := ledger.State();
      var due := true;
      if onlyDue { due := ShouldFlushPayer(p, nowAt(p)); }
      threw := false;
      if due { threw := FlushPayer(p, vaultOf(p), accepts(p)); }
      assert forall q :: q != p ==> PendingFor(ledger.State(), q) == PendingFor(v, q);
    }

    /** `flushDue` (onlyDue) and `flushAll` when nothing else runs in between. Of the payers with
        pending charges, in whatever order, the chosen ones are flushed up to the first whose
        vault lookup fails: there the pass ends, and the payers after it keep their charges. */
    method FlushPass(onlyDue: bool, nowAt: string -> int, vaultOf: string -> Option<string>, accepts: string -> bool)
      returns (payers: seq<string>, reached: nat, threw: bool)
      modifies this`flights, ledger`pending
      ensures forall p :: p in payers <==> PendingFor(old(ledger.State()), p) != []
      ensures reached <= |payers| && (threw <==> reached < |payers|)
      ensures forall k :: 0 <= k < reached ==>
        Chosen(old(ledger.State()), payers[k], onlyDue, nowAt) ==> vaultOf(payers[k]).Some?
      ensures threw ==> Chosen(old(ledger.State()), payers[reached], onlyDue, nowAt) && vaultOf(payers[reached]).None?
      ensures Passed(old(ledger.State()), ledger.State(), payers[..reached], onlyDue, nowAt, accepts)
    {
      payers := ledger.PayersWithPending();
      reached, threw := 0, false;
      ghost var b := ledger.State();
      while reached < |payers| && !threw
        invariant reached <= |payers|
        invariant forall k :: 0 <= k < reached ==> Chosen(b, payers[k], onlyDue, nowAt) ==> vaultOf(payers[k]).Some?
        invariant threw ==> reached < |payers| && Chosen(b, payers[reached], onlyDue, nowAt) && vaultOf(payers[reached]).None?
        invariant Passed(b, ledger.State(), payers[..reached], onlyDue, nowAt, accepts)
        decreases |payers| - reached, !threw
      {
        threw := FlushNext(b, payers, reached, onlyDue, nowAt, vaultOf, accepts);
        if !threw { reached := reached + 1; }
      }
    }
  }
}
