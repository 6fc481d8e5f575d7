/** What callers and operators of the settlement service may rely on, in every run. */
module SessionTheorems {
  import opened Wrappers
  import opened Canonical
  import opened Operation
  import opened SessionState
  import opened SessionProtocol
  import opened SessionSafety

  /** However calls interleave, answers get lost and the service restarts,
      no two submissions of one operation land. */
  lemma {:induction false} AtMostOnePayment(env: Env, acts: seq<Action>, id: Text, i: nat, j: nat)
    requires Run(env, acts)
    requires var subs := Get(After(env, acts), id).subs;
      i < |subs| && j < |subs| && subs[i].fate.Landed? && subs[j].fate.Landed?
    ensures i == j
  {
    RunKeeps(env, acts, id);
  }

  /** Every submission of an operation is the payment first stored for it, under the binding first quoted. */
  lemma {:induction false} EverySubmissionIsTheStoredPayment(env: Env, acts: seq<Action>, id: Text, i: nat)
    requires Run(env, acts) && i < |Get(After(env, acts), id).subs|
    ensures var o := Get(After(env, acts), id);
      o.slice.file.Some? && o.slice.fileQuote.Some? &&
      o.subs[i].payment == o.slice.file.value.payment && o.subs[i].binding == o.slice.fileQuote.value.binding
  {
    RunKeeps(env, acts, id);
  }

  /** Any receipt ever given out is the one on disk; it names a transaction that landed and
      carries the binding of the quote on disk. */
  lemma EveryReceiptIsTheStoredOne(env: Env, acts: seq<Action>, id: Text, receipt: Receipt)
    requires Run(env, acts) && receipt in Get(After(env, acts), id).returned
    ensures var o := Get(After(env, acts), id);
      o.slice.file.Some? && o.slice.file.value.receipt == Some(receipt) &&
      HasLanded(o.subs, receipt.settlementTx) &&
      o.slice.fileQuote.Some? && receipt.bindingDigest == env.digestOf(o.slice.fileQuote.value.binding) &&
      var b := o.slice.fileQuote.value.binding;
      receipt == Receipt(id, o.slice.file.value.payment.Stake?, env.digestOf(b), b.payerWallet, b.amount, b.asset,
                         b.network, b.payTo, receipt.settlementTx, receipt.settledAt)
  {
    RunKeeps(env, acts, id);
    var o := Get(After(env, acts), id);
    var i :| 0 <= i < |o.returned| && o.returned[i] == receipt;
  }

  /** In memory and on disk a receipt, once there, stays, and so does the quote;
      with a receipt there, nothing more is submitted. */
  predicate Keeps(o: Op, p: Op) {
    (StoredReceipt(o.slice.file).Some? ==>
      StoredReceipt(p.slice.file) == StoredReceipt(o.slice.file) && |p.subs| == |o.subs|) &&
    (o.slice.fileQuote.Some? ==> p.slice.fileQuote == o.slice.fileQuote) &&
    o.returned <= p.returned
  }

  lemma PaidMeansNotAllDead(env: Env, id: Text, o: Op)
    requires Inv(env, id, o) && StoredReceipt(o.slice.file).Some?
    ensures !AllDead(o.subs)
  {
    assert AllDead(o.subs) ==> forall tx :: !HasLanded(o.subs, tx);
  }

  lemma BeginKeepsReceipt(env: Env, id: Text, o: Op, step: Step)
    requires Inv(env, id, o) && Enabled(id, o, step) && step.Settle?
    ensures Keeps(o, Apply(env, id, o, step))
  {
  }

  lemma ResumeKeepsReceipt(env: Env, id: Text, o: Op, step: Step)
    requires Inv(env, id, o) && Enabled(id, o, step)
    requires step.Reconciled? || step.Trusted? || step.PolicyRead?
    ensures Keeps(o, Apply(env, id, o, step))
  {
    if StoredReceipt(o.slice.file).Some? { PaidMeansNotAllDead(env, id, o); }
  }

  lemma PollKeepsReceipt(env: Env, id: Text, o: Op, k: nat, now: Time)
    requires Inv(env, id, o) && k in o.pollSeen && o.slice.live.Some?
    ensures Keeps(o, PollBack(o, k, now))
  {
  }

  lemma OtherKeepsReceipt(env: Env, id: Text, o: Op, step: Step)
    requires Inv(env, id, o) && Enabled(id, o, step)
    requires !(step.Settle? || step.Reconciled? || step.Trusted? || step.PolicyRead?)
    ensures Keeps(o, Apply(env, id, o, step))
  {
    if step.PollReturns? {
      PollKeepsReceipt(env, id, o, step.id, step.now);
    }
  }

  lemma StepKeepsReceipt(env: Env, id: Text, o: Op, step: Step)
    requires Inv(env, id, o) && Enabled(id, o, step)
    ensures Keeps(o, Apply(env, id, o, step))
  {
    if step.Settle? {
      BeginKeepsReceipt(env, id, o, step);
    } else if step.Reconciled? || step.Trusted? || step.PolicyRead? {
      ResumeKeepsReceipt(env, id, o, step);
    } else {
      OtherKeepsReceipt(env, id, o, step);
    }
  }

  lemma TurnKeepsReceipt(env: Env, id: Text, o: Op, t: Turn)
    requires Inv(env, id, o) && MayTurn(env, id, o, t)
    ensures Keeps(o, Turned(env, id, o, t))
  {
    if t.Stepped? {
      StepKeepsReceipt(env, id, o, t.step);
    }
  }

  /** The same at any later point of a run. */
  lemma {:induction false} LaterWorld(env: Env, acts: seq<Action>, more: seq<Action>, id: Text)
    requires Run(env, acts + more) && Run(env, acts)
    ensures Keeps(Get(After(env, acts), id), Get(After(env, acts + more), id))
    decreases |more|
  {
    if more == [] {
      assert acts + more == acts;
    } else {
      var m := acts + more[..|more| - 1];
      LastTurnOf(env, acts, more, id);
      LaterWorld(env, acts, more[..|more| - 1], id);
      RunKeeps(env, m, id);
      TurnKeepsReceipt(env, id, Get(After(env, m), id), TurnOf(id, more[|more| - 1]));
    }
  }

  /** One operation, one receipt: whatever is returned early in a run and late in it, by `settle`
      or by `getPaymentStatus`, before or after restarts, is the same value, and the quote it
      carries is the one stored first. */
  lemma OneReceiptForever(env: Env, acts: seq<Action>, more: seq<Action>, id: Text,
                          early: Receipt, late: Receipt)
    requires Run(env, acts + more) && Run(env, acts)
    requires early in Get(After(env, acts), id).returned && late in Get(After(env, acts + more), id).returned
    ensures early == late
    ensures StoredReceipt(Get(After(env, acts), id).slice.file) == Some(early)
    ensures var q := Get(After(env, acts), id).slice.fileQuote;
      q.Some? && Get(After(env, acts + more), id).slice.fileQuote == q && late.bindingDigest == env.digestOf(q.value.binding)
  {
    LaterWorld(env, acts, more, id);
    EveryReceiptIsTheStoredOne(env, acts, id, early);
    EveryReceiptIsTheStoredOne(env, acts + more, id, late);
  }

  /** Write-ahead: a payment the disk does not know, or knows as `created`, was never submitted. */
  lemma {:induction false} WriteAhead(env: Env, acts: seq<Action>, id: Text)
    requires Run(env, acts)
    ensures var o := Get(After(env, acts), id);
      o.slice.file.None? || o.slice.file.value.state.Created? ==> o.subs == []
  {
    RunKeeps(env, acts, id);
  }

  /** Resubmission needs a reconcile that answered "not settled" since the last submission. */
  lemma {:induction false} SubmissionsAreSeparated(env: Env, acts: seq<Action>, id: Text)
    requires Run(env, acts)
    ensures var o := Get(After(env, acts), id); Submits(o.log) == |o.subs| && Separated(o.log)
  {
    RunKeeps(env, acts, id);
  }

  /** Once a receipt is on disk nothing is submitted again, in any continuation of the run. */
  lemma NoSubmissionAfterReceipt(env: Env, acts: seq<Action>, more: seq<Action>, id: Text)
    requires Run(env, acts + more) && Run(env, acts)
    requires StoredReceipt(Get(After(env, acts), id).slice.file).Some?
    ensures |Get(After(env, acts + more), id).subs| == |Get(After(env, acts), id).subs|
  {
    LaterWorld(env, acts, more, id);
  }
}
