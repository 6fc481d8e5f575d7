/** What each call of the facilitator does to the queues, the flushes and the record of accepted
charges, in every run. */
module FacilitatorAnswers {
  import opened Wrappers
  import opened Ledger
  import opened Facilitator

  /** The payer's queue is this now, and every other queue is as it was. */
  ghost predicate QueueIs(w: World, v: World, payer: string, queue: seq<Charge>) {
    forall p :: PendingFor(v.book, p) == if p == payer then queue else PendingFor(w.book, p)
  }

  /** References and numbers are as they were. */
  predicate SameRecords(w: World, v: World) {
    v.book.byRef == w.book.byRef && v.book.sequence == w.book.sequence && v.accepted == w.accepted && v.clock == w.clock
  }

  /** The charge accepted earlier under the request's reference. */
  predicate AcceptedBefore(w: World, r: ChargeRequest) {
    r.ref.Some? && exists i :: 0 <= i < |w.accepted| && w.accepted[i].request.ref == r.ref
  }

  lemma {:induction false} AcceptedBeforeIff(steps: seq<Step>, r: ChargeRequest)
    requires Run(steps)
    ensures AcceptedBefore(After(steps), r) <==> Known(After(steps).book, r)
  {
    RunKeeps(steps);
    var w := After(steps);
    if Known(w.book, r) {
      assert w.book.byRef[r.ref.value] in w.accepted;
    }
  }

  /** A positive charge that is no repetition gets the next number, is remembered under its reference
      and is the last in its payer's queue; any other charge changes no queue. */
  lemma {:induction false} ChargeIsQueued(steps: seq<Step>, r: ChargeRequest, now: int)
    requires Run(steps)
    ensures Run(steps + [ChargeIt(r, now)])
    ensures var w, v := After(steps), After(steps + [ChargeIt(r, now)]);
      var c := Charge(|w.accepted| + 1, r, now);
      v.flights == w.flights &&
      if r.amount > 0 && !AcceptedBefore(w, r) then
        v.accepted == w.accepted + [c] && QueueIs(w, v, r.payer, PendingFor(w.book, r.payer) + [c])
      else v.accepted == w.accepted && v.book == w.book
  {
    RunKeeps(steps);
    AcceptedBeforeIff(steps, r);
    Extend(steps, ChargeIt(r, now));
  }

  /** A flush sets out exactly for a payer with charges in the queue, and takes none yet. */
  lemma {:induction false} FlushSetsOutIff(steps: seq<Step>, payer: string)
    requires Run(steps)
    ensures Run(steps + [Flush(payer)])
    ensures var w, v := After(steps), After(steps + [Flush(payer)]);
      v.book == w.book && SameRecords(w, v) &&
      v.flights == w.flights + if PendingFor(w.book, payer) == [] then [] else [Resolving(payer)]
  {
    Extend(steps, Flush(payer));
  }

  /** Once the vault is known, all that is in the queue at that time is in the batch, and the queue is empty. */
  lemma {:induction false} BatchTakesAll(steps: seq<Step>, i: nat)
    requires Run(steps) && Enabled(After(steps), VaultKnown(i))
    ensures Run(steps + [VaultKnown(i)])
    ensures var w, v := After(steps), After(steps + [VaultKnown(i)]); var payer := w.flights[i].payer;
      v.flights == w.flights[i := Settling(payer, PendingFor(w.book, payer))] &&
      QueueIs(w, v, payer, []) && SameRecords(w, v)
  {
    Extend(steps, VaultKnown(i));
  }

  /** A flush that finds no vault is over, and has taken nothing. */
  lemma {:induction false} NoVaultTakesNothing(steps: seq<Step>, i: nat)
    requires Run(steps) && Enabled(After(steps), VaultFailed(i))
    ensures Run(steps + [VaultFailed(i)])
    ensures After(steps + [VaultFailed(i)]) == After(steps).(flights := After(steps).flights[i := Over])
  {
    Extend(steps, VaultFailed(i));
  }

  /** A settled batch keeps its charges out of the queue; a failed one is put in front of what has
      come since. */
  lemma {:induction false} AnswerDecides(steps: seq<Step>, i: nat, ok: bool)
    requires Run(steps) && Enabled(After(steps), SettlerAnswers(i, ok))
    ensures Run(steps + [SettlerAnswers(i, ok)])
    ensures var w, v := After(steps), After(steps + [SettlerAnswers(i, ok)]);
      var payer, batch := w.flights[i].payer, w.flights[i].charges;
      SameRecords(w, v) &&
      (ok ==> v.book == w.book && v.flights == w.flights[i := Settled(payer, batch)]) &&
      (!ok ==> QueueIs(w, v, payer, batch + PendingFor(w.book, payer)) && v.flights == w.flights[i := Over])
  {
    Extend(steps, SettlerAnswers(i, ok));
  }

  // ---------------------------------------------------------------- charges that get settled

  /** The steps of a flush that is answered by the factory and by the settler. */
  function Flushing(payer: string, i: nat, ok: bool): seq<Step> {
    [Flush(payer), VaultKnown(i), SettlerAnswers(i, ok)]
  }

  /** From any run, a flush that the settler accepts settles exactly what the payer had in the queue,
      and one that it refuses leaves every queue as it was. */
  lemma {:induction false} FlushSettlesTheQueue(steps: seq<Step>, payer: string, ok: bool)
    requires Run(steps) && PendingFor(After(steps).book, payer) != []
    ensures var w := After(steps); var i, all := |w.flights|, steps + Flushing(payer, |w.flights|, ok);
      var queue := PendingFor(w.book, payer);
      Run(all) && After(all).accepted == w.accepted &&
      After(all).flights == w.flights + [if ok then Settled(payer, queue) else Over] &&
      QueueIs(w, After(all), payer, if ok then [] else queue)
  {
    var i := |After(steps).flights|;
    var s1 := steps + [Flush(payer)];
    var s2 := s1 + [VaultKnown(i)];
    FlushSetsOutIff(steps, payer);
    BatchTakesAll(s1, i);
    AnswerDecides(s2, i, ok);
    assert s2 + [SettlerAnswers(i, ok)] == steps + Flushing(payer, i, ok);
  }
}
