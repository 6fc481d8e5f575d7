/** What a payment's state on disk does and does not say: when `settled` lasts, when `rejected`
means unpaid, when a landed payment can still get its receipt, and who gets it. */
module SessionOutcomes {
  import opened Wrappers
  import opened Canonical
  import opened Operation
  import opened SessionState
  import opened SessionProtocol
  import opened SessionSafety
  import opened SessionTheorems

  function DiskState(o: Op): Option<PayState> {
    if o.slice.file.Some? then Some(o.slice.file.value.state) else None
  }

  predicate AtSettler(o: Op) { Flying(o.slice) && o.slice.flight.value.at.AtSettle? }

  // ---------------------------------------------------------------- settled

  /** The settler's late answer was not "settled". */
  predicate Overwrites(step: Step) {
    step.SettleAnswers? && (step.answer.Uncertain? || step.answer.SettleRefused?)
  }

  lemma BeginStaysSettled(env: Env, id: Text, o: Op, step: Step)
    requires Inv(env, id, o) && DiskState(o) == Some(Settled) && Enabled(id, o, step) && step.Settle?
    ensures DiskState(Apply(env, id, o, step)) == Some(Settled)
    ensures !AtSettler(o) ==> !AtSettler(Apply(env, id, o, step))
  {
  }

  lemma ResumeStaysSettled(env: Env, id: Text, o: Op, step: Step)
    requires Inv(env, id, o) && DiskState(o) == Some(Settled) && Enabled(id, o, step)
    requires step.Reconciled? || step.Trusted? || step.PolicyRead?
    ensures DiskState(Apply(env, id, o, step)) == Some(Settled) && !AtSettler(Apply(env, id, o, step))
  {
    PaidMeansNotAllDead(env, id, o);
  }

  /** A settled state survives exactly the steps that are not a settler's late "uncertain" or failure. */
  lemma SettledSurvivesIff(env: Env, id: Text, o: Op, step: Step)
    requires Inv(env, id, o) && DiskState(o) == Some(Settled) && Enabled(id, o, step)
    ensures DiskState(Apply(env, id, o, step)) == Some(Settled) <==> !Overwrites(step)
    ensures !AtSettler(o) ==> !AtSettler(Apply(env, id, o, step))
  {
    if step.Settle? {
      BeginStaysSettled(env, id, o, step);
    } else if step.Reconciled? || step.Trusted? || step.PolicyRead? {
      ResumeStaysSettled(env, id, o, step);
    }
  }

  lemma {:induction false} SettledLasts(env: Env, acts: seq<Action>, more: seq<Action>, id: Text)
    requires Run(env, acts) && Run(env, acts + more)
    requires var o := Get(After(env, acts), id); DiskState(o) == Some(Settled) && !AtSettler(o)
    ensures var p := Get(After(env, acts + more), id); DiskState(p) == Some(Settled) && !AtSettler(p)
    decreases |more|
  {
    if more == [] {
      assert acts + more == acts;
    } else {
      var before, t := acts + more[..|more| - 1], TurnOf(id, more[|more| - 1]);
      LastTurnOf(env, acts, more, id);
      SettledLasts(env, acts, more[..|more| - 1], id);
      RunKeeps(env, before, id);
      if t.Stepped? {
        SettledSurvivesIff(env, id, Get(After(env, before), id), t.step);
      }
    }
  }

  ghost predicate StaysSettled(env: Env, acts: seq<Action>, id: Text) {
    forall more: seq<Action> :: Run(env, acts + more) ==> DiskState(Get(After(env, acts + more), id)) == Some(Settled)
  }

  /** A settled state is final exactly when no settle call is waiting for the settler. */
  lemma {:induction false} SettledIsFinalIff(env: Env, acts: seq<Action>, id: Text)
    requires Run(env, acts) && DiskState(Get(After(env, acts), id)) == Some(Settled)
    ensures StaysSettled(env, acts, id) <==> !AtSettler(Get(After(env, acts), id))
  {
    var o := Get(After(env, acts), id);
    RunKeeps(env, acts, id);
    if AtSettler(o) {
      var late := At(id, SettleAnswers(Uncertain([]), 0));
      Extend(env, acts, late);
      assert DiskState(Get(After(env, acts + [late]), id)) == Some(FailedRetryable);
    } else {
      forall more: seq<Action> | Run(env, acts + more)
        ensures DiskState(Get(After(env, acts + more), id)) == Some(Settled)
      {
        SettledLasts(env, acts, more, id);
      }
    }
  }

  // ---------------------------------------------------------------- rejected

  /** No settle call is under way, or just one that is over. */
  predicate Idle(o: Op) { o.slice.flight.Some? ==> o.slice.flight.value.at.Done? }

  /** The newest submission has landed or still may. */
  predicate Landable(subs: seq<Submission>) { subs != [] && !subs[|subs| - 1].fate.Dead? }

  predicate Pays(reply: Reply) { reply.Read? && reply.settled && reply.tx.Some? }

  /** A status call is out that has read, or may yet read, that the payment landed. */
  predicate Rescues(o: Op, k: nat) {
    k in o.slice.polls && if k in o.pollSeen then Pays(o.pollSeen[k]) else Landable(o.subs)
  }

  ghost predicate Rescuable(o: Op) { exists k: nat :: Rescues(o, k) }

  predicate Unpaid(o: Op) { DiskState(o) == Some(Rejected) && StoredReceipt(o.slice.file).None? }

  lemma BeginRejectsIdle(env: Env, id: Text, o: Op, step: Step)
    requires Inv(env, id, o) && Enabled(id, o, step) && (DiskState(o) == Some(Rejected) ==> Idle(o)) && step.Settle?
    ensures var p := Apply(env, id, o, step); DiskState(p) == Some(Rejected) ==> Idle(p)
  {
  }

  lemma PollRejectsIdle(env: Env, id: Text, o: Op, k: nat, now: Time)
    requires Inv(env, id, o) && Enabled(id, o, PollReturns(k, now)) && (DiskState(o) == Some(Rejected) ==> Idle(o))
    ensures var p := PollBack(o, k, now); DiskState(p) == Some(Rejected) ==> Idle(p)
  {
  }

  lemma StepRejectsIdle(env: Env, id: Text, o: Op, step: Step)
    requires Inv(env, id, o) && Enabled(id, o, step) && (DiskState(o) == Some(Rejected) ==> Idle(o))
    ensures var p := Apply(env, id, o, step); DiskState(p) == Some(Rejected) ==> Idle(p)
  {
    if step.Settle? {
      BeginRejectsIdle(env, id, o, step);
    } else if step.PollReturns? {
      PollRejectsIdle(env, id, o, step.id, step.now);
    }
  }

  /** A payment is rejected by the call that then is over, and later calls are refused at once. */
  lemma {:induction false} RejectedIsIdle(env: Env, acts: seq<Action>, id: Text)
    requires Run(env, acts)
    ensures var o := Get(After(env, acts), id); DiskState(o) == Some(Rejected) ==> Idle(o)
    decreases |acts|
  {
    if acts != [] {
      var o, t := Get(After(env, acts[..|acts| - 1]), id), TurnOf(id, acts[|acts| - 1]);
      LastTurn(env, acts, id);
      RejectedIsIdle(env, acts[..|acts| - 1], id);
      RunKeeps(env, acts[..|acts| - 1], id);
      if t.Stepped? {
        StepRejectsIdle(env, id, o, t.step);
      }
    }
  }

  lemma LandedIsLandable(subs: seq<Submission>)
    requires OnlyLastAlive(subs) && AnyLanded(subs)
    ensures Landable(subs)
  {
    var i :| 0 <= i < |subs| && subs[i].fate.Landed?;
    assert i == |subs| - 1;
  }

  /** Rejected, without a receipt, and beyond rescue. */
  ghost predicate Lost(o: Op) { Unpaid(o) && Idle(o) && !Rescuable(o) }

  lemma BeginStaysLost(env: Env, id: Text, o: Op, step: Step)
    requires Inv(env, id, o) && Lost(o) && Enabled(id, o, step) && (step.Settle? || step.Quoting? || step.Finally?)
    ensures var p := Apply(env, id, o, step);
      Unpaid(p) && Idle(p) && p.subs == o.subs && p.slice.polls == o.slice.polls && p.pollSeen == o.pollSeen
  {
  }

  lemma FateStaysLost(env: Env, id: Text, o: Op, i: nat, fate: Fate)
    requires Inv(env, id, o) && Lost(o) && i < |o.subs| && o.subs[i].fate.Pending?
    ensures var p := o.(subs := o.subs[i := o.subs[i].(fate := fate)]); Lost(p) && Landable(o.subs)
  {
    var p := o.(subs := o.subs[i := o.subs[i].(fate := fate)]);
    assert i == |o.subs| - 1;
    forall k: nat
      ensures !Rescues(p, k)
    {
      assert !Rescues(o, k);
    }
  }

  lemma ReadStaysLost(env: Env, id: Text, o: Op, k: nat, reply: Reply)
    requires Inv(env, id, o) && Lost(o) && Enabled(id, o, PollReads(k, reply))
    ensures Lost(o.(pollSeen := o.pollSeen[k := reply]))
  {
    var p := o.(pollSeen := o.pollSeen[k := reply]);
    assert !Rescues(o, k);
    if Pays(reply) {
      LandedIsLandable(o.subs);
    }
    forall j: nat
      ensures !Rescues(p, j)
    {
      assert !Rescues(o, j);
    }
  }

  lemma PollStaysLost(env: Env, id: Text, o: Op, k: nat, now: Time)
    requires Inv(env, id, o) && Lost(o) && Enabled(id, o, PollReturns(k, now))
    ensures Lost(PollBack(o, k, now)) && PollBack(o, k, now).subs == o.subs
  {
    var p := PollBack(o, k, now);
    assert !Rescues(o, k);
    forall j: nat
      ensures !Rescues(p, j)
    {
      assert !Rescues(o, j);
    }
  }

  lemma SameRescues(o: Op, p: Op)
    requires !Rescuable(o) && p.subs == o.subs && p.slice.polls == o.slice.polls && p.pollSeen == o.pollSeen
    ensures !Rescuable(p)
  {
    forall k: nat
      ensures !Rescues(p, k)
    {
      assert !Rescues(o, k);
    }
  }

  lemma StepStaysLost(env: Env, id: Text, o: Op, step: Step)
    requires Inv(env, id, o) && Lost(o) && Enabled(id, o, step)
    ensures var p := Apply(env, id, o, step);
      Lost(p) && |p.subs| == |o.subs| && (Landable(p.subs) ==> Landable(o.subs))
  {
    match step
    case Settle(_, _, _, _) =>
      BeginStaysLost(env, id, o, step);
      SameRescues(o, Apply(env, id, o, step));
    case Quoting(_, _, _) =>
      BeginStaysLost(env, id, o, step);
      SameRescues(o, Apply(env, id, o, step));
    case Finally =>
      BeginStaysLost(env, id, o, step);
      SameRescues(o, Apply(env, id, o, step));
    case Lands(i, tx) => FateStaysLost(env, id, o, i, Landed(tx));
    case Dies(i) => FateStaysLost(env, id, o, i, Dead);
    case Poll(k) => SameRescues(o, Polled(o, k));
    case PollReads(k, reply) => ReadStaysLost(env, id, o, k, reply);
    case PollReturns(k, now) => PollStaysLost(env, id, o, k, now);
    case _ =>
  }

  lemma TurnStaysLost(env: Env, id: Text, o: Op, t: Turn)
    requires Inv(env, id, o) && Lost(o) && MayTurn(env, id, o, t)
    ensures var p := Turned(env, id, o, t);
      Lost(p) && |p.subs| == |o.subs| && (Landable(p.subs) ==> Landable(o.subs))
  {
    if t.Stepped? {
      StepStaysLost(env, id, o, t.step);
    }
  }

  /** Beyond rescue, a rejected payment stays rejected, gets no receipt and is not submitted again,
      in every continuation; and once its last submission is dead it stays unpaid. */
  lemma {:induction false} LostForever(env: Env, acts: seq<Action>, more: seq<Action>, id: Text)
    requires Run(env, acts) && Run(env, acts + more) && Lost(Get(After(env, acts), id))
    ensures var o, p := Get(After(env, acts), id), Get(After(env, acts + more), id);
      Lost(p) && |p.subs| == |o.subs| && (Landable(p.subs) ==> Landable(o.subs))
    decreases |more|
  {
    if more == [] {
      assert acts + more == acts;
    } else {
      var before := acts + more[..|more| - 1];
      LastTurnOf(env, acts, more, id);
      LostForever(env, acts, more[..|more| - 1], id);
      RunKeeps(env, before, id);
      TurnStaysLost(env, id, Get(After(env, before), id), TurnOf(id, more[|more| - 1]));
    }
  }

  ghost predicate GetsReceipt(env: Env, acts: seq<Action>, id: Text) {
    exists more: seq<Action> :: Run(env, acts + more) && StoredReceipt(Get(After(env, acts + more), id).slice.file).Some?
  }

  ghost predicate GetsPaid(env: Env, acts: seq<Action>, id: Text) {
    exists more: seq<Action> :: Run(env, acts + more) && AnyLanded(Get(After(env, acts + more), id).subs)
  }

  lemma ExtendOne(env: Env, acts: seq<Action>, id: Text, step: Step)
    requires Run(env, acts) && Enabled(id, Get(After(env, acts), id), step)
    ensures Run(env, acts + [At(id, step)])
    ensures Get(After(env, acts + [At(id, step)]), id) == Apply(env, id, Get(After(env, acts), id), step)
  {
    Extend(env, acts, At(id, step));
  }

  /** If the last submission has not landed, let it. */
  lemma {:induction false} LetItLand(env: Env, acts: seq<Action>, id: Text, tx: Tx) returns (more: seq<Action>)
    requires Run(env, acts) && Landable(Get(After(env, acts), id).subs)
    ensures Run(env, acts + more)
    ensures var o, p := Get(After(env, acts), id), Get(After(env, acts + more), id);
      AnyLanded(p.subs) && p.slice == o.slice && p.pollSeen == o.pollSeen
  {
    var subs := Get(After(env, acts), id).subs;
    var last := |subs| - 1;
    if subs[last].fate.Pending? {
      ExtendOne(env, acts, id, Lands(last, tx));
      more := [At(id, Lands(last, tx))];
      assert Get(After(env, acts + more), id).subs[last].fate.Landed?;
    } else {
      more := [];
      assert acts + more == acts;
    }
  }

  lemma {:induction false} LetItReturn(env: Env, acts: seq<Action>, id: Text, k: nat, now: Time)
    requires Run(env, acts)
    requires var o := Get(After(env, acts), id); k in o.pollSeen && Pays(o.pollSeen[k])
    ensures Run(env, acts + [At(id, PollReturns(k, now))])
    ensures StoredReceipt(Get(After(env, acts + [At(id, PollReturns(k, now))]), id).slice.file).Some?
  {
    RunKeeps(env, acts, id);
    ExtendOne(env, acts, id, PollReturns(k, now));
  }

  /** The chain's answer to a read that finds the submission that landed. */
  lemma LandedReply(subs: seq<Submission>) returns (reply: Reply)
    requires AnyLanded(subs)
    ensures Truthful(subs, reply) && Pays(reply)
  {
    var i :| 0 <= i < |subs| && subs[i].fate.Landed?;
    reply := Read(true, Some(subs[i].fate.tx));
  }

  /** The status call k reads that the payment landed, and records the receipt. */
  lemma {:induction false} LetItBeRead(env: Env, acts: seq<Action>, id: Text, k: nat, now: Time) returns (more: seq<Action>)
    requires Run(env, acts)
    requires var o := Get(After(env, acts), id); k in o.slice.polls && k !in o.pollSeen && AnyLanded(o.subs)
    ensures Run(env, acts + more) && |more| == 2
    ensures StoredReceipt(Get(After(env, acts + more), id).slice.file).Some?
  {
    var reply := LandedReply(Get(After(env, acts), id).subs);
    ExtendOne(env, acts, id, PollReads(k, reply));
    LetItReturn(env, acts + [At(id, PollReads(k, reply))], id, k, now);
    more := [At(id, PollReads(k, reply))] + [At(id, PollReturns(k, now))];
    assert acts + more == acts + [At(id, PollReads(k, reply))] + [At(id, PollReturns(k, now))];
  }

  lemma GetsReceiptBy(env: Env, acts: seq<Action>, id: Text, a: seq<Action>, b: seq<Action>)
    requires Run(env, acts + a + b) && StoredReceipt(Get(After(env, acts + a + b), id).slice.file).Some?
    ensures Run(env, acts + (a + b)) && StoredReceipt(Get(After(env, acts + (a + b)), id).slice.file).Some?
  {
    assert acts + a + b == acts + (a + b);
  }

  lemma {:induction false} Rescue(env: Env, acts: seq<Action>, id: Text, k: nat)
    requires Run(env, acts) && Rescues(Get(After(env, acts), id), k)
    ensures GetsReceipt(env, acts, id)
  {
    if k in Get(After(env, acts), id).pollSeen {
      LetItReturn(env, acts, id, k, 0);
    } else {
      var land := LetItLand(env, acts, id, []);
      var read := LetItBeRead(env, acts + land, id, k, 0);
      GetsReceiptBy(env, acts, id, land, read);
    }
  }

  /** A rejected payment can still get a receipt exactly when a status call is out that has read,
      or may yet read, that it landed. No later call helps: status calls do not read the chain
      for rejected payments, and settle calls are refused. */
  lemma {:induction false} RejectedGetsReceiptIff(env: Env, acts: seq<Action>, id: Text)
    requires Run(env, acts) && Unpaid(Get(After(env, acts), id))
    ensures GetsReceipt(env, acts, id) <==> Rescuable(Get(After(env, acts), id))
  {
    var o := Get(After(env, acts), id);
    RejectedIsIdle(env, acts, id);
    if Rescuable(o) {
      var k: nat :| Rescues(o, k);
      Rescue(env, acts, id, k);
    } else if GetsReceipt(env, acts, id) {
      var more :| Run(env, acts + more) && StoredReceipt(Get(After(env, acts + more), id).slice.file).Some?;
      LostForever(env, acts, more, id);
    }
  }

  lemma NotLandable(subs: seq<Submission>)
    requires OnlyLastAlive(subs) && !Landable(subs)
    ensures AllDead(subs) && !AnyLanded(subs)
  {
  }

  lemma DeadIsLost(env: Env, id: Text, o: Op)
    requires Inv(env, id, o) && Unpaid(o) && Idle(o) && !Landable(o.subs)
    ensures Lost(o)
  {
    NotLandable(o.subs);
    forall k: nat
      ensures !Rescues(o, k)
    {
      assert forall tx :: !HasLanded(o.subs, tx);
    }
  }

  /** And it can turn out to be paid exactly when its last submission is not dead. */
  lemma {:induction false} RejectedGetsPaidIff(env: Env, acts: seq<Action>, id: Text)
    requires Run(env, acts) && Unpaid(Get(After(env, acts), id))
    ensures GetsPaid(env, acts, id) <==> Landable(Get(After(env, acts), id).subs)
  {
    var o := Get(After(env, acts), id);
    RejectedIsIdle(env, acts, id);
    RunKeeps(env, acts, id);
    if Landable(o.subs) {
      var more := LetItLand(env, acts, id, []);
    } else {
      DeadIsLost(env, id, o);
      forall more: seq<Action> | Run(env, acts + more)
        ensures !AnyLanded(Get(After(env, acts + more), id).subs)
      {
        LostForever(env, acts, more, id);
        RunKeeps(env, acts + more, id);
        NotLandable(Get(After(env, acts + more), id).subs);
      }
    }
  }

  // ---------------------------------------------------------------- who gets the receipt

  /** In every reachable state a landed payment that is not rejected can get its receipt: one
      status call whose read succeeds and finds the transaction records it. */
  lemma {:induction false} LandedIsRecoverable(env: Env, acts: seq<Action>, id: Text, k: nat, now: Time)
    returns (more: seq<Action>)
    requires Run(env, acts)
    requires var o := Get(After(env, acts), id);
      AnyLanded(o.subs) && (DiskState(o) == Some(Settling) || DiskState(o) == Some(FailedRetryable)) && k !in o.slice.polls
    ensures Run(env, acts + more) && |more| == 3 && more[0] == At(id, Poll(k))
    ensures StoredReceipt(Get(After(env, acts + more), id).slice.file).Some?
  {
    RunKeeps(env, acts, id);
    ExtendOne(env, acts, id, Poll(k));
    var read := LetItBeRead(env, acts + [At(id, Poll(k))], id, k, now);
    GetsReceiptBy(env, acts, id, [At(id, Poll(k))], read);
    more := [At(id, Poll(k))] + read;
  }

  /** The binding can still be settled: its expiry is ahead, and not too far. */
  predicate InTime(env: Env, b: Binding, now: Time) {
    var expires := env.dateOf(b.expiresAt);
    expires.Some? && now < expires.value <= now + env.quoteTtl
  }

  lemma {:induction false} RetryStep(env: Env, id: Text, o: Op, fp: Text, r: Request, checks: Checks, session: Option<Session>)
    requires Inv(env, id, o) && StoredReceipt(o.slice.file).Some? && o.slice.flight.None?
    requires r.binding == o.slice.file.value.binding && r.payment == o.slice.file.value.payment
    requires checks.binding.None? && checks.payment.None? && SameText(r.payment.payerWallet, r.binding.payerWallet)
    ensures Enabled(id, o, Settle(fp, r, checks, session))
    ensures var p := Apply(env, id, o, Settle(fp, r, checks, session)); var receipt := o.slice.file.value.receipt.value;
      p.subs == o.subs && p.slice == o.slice.(flight := p.slice.flight) &&
      if InTime(env, r.binding, checks.now) then
        p.returned == o.returned + [receipt] && p.slice.flight == Some(Flight(fp, r, Done(Paid(receipt))))
      else
        p.returned == o.returned && p.slice.flight.value.at.Done? &&
        p.slice.flight.value.at.outcome == Failed(
          if env.dateOf(r.binding.expiresAt).Some? && env.dateOf(r.binding.expiresAt).value > checks.now
          then QuoteExpiryTooLong else QuoteExpired)
  {
  }

  /** In every run, a retry of a paid operation that passes the other checks gets the stored receipt
      at once, without touching the chain, exactly as long as the binding has not expired. */
  lemma {:induction false} RetryPaysIff(
      env: Env, acts: seq<Action>, fp: Text, r: Request, checks: Checks, session: Option<Session>)
    requires Run(env, acts)
    requires var o := Get(After(env, acts), r.binding.operationId);
      StoredReceipt(o.slice.file).Some? && o.slice.flight.None? &&
      r.binding == o.slice.file.value.binding && r.payment == o.slice.file.value.payment
    requires checks.binding.None? && checks.payment.None? && SameText(r.payment.payerWallet, r.binding.payerWallet)
    ensures var id := r.binding.operationId;
      var retried := acts + [At(id, Settle(fp, r, checks, session))];
      Run(env, retried) &&
      var o, p := Get(After(env, acts), id), Get(After(env, retried), id);
      p.returned == o.returned + if InTime(env, r.binding, checks.now) then [o.slice.file.value.receipt.value] else []
    ensures var id := r.binding.operationId;
      var o := Get(After(env, acts), id);
      var p := Get(After(env, acts + [At(id, Settle(fp, r, checks, session))]), id);
      p.subs == o.subs && p.slice == o.slice.(flight := p.slice.flight) &&
      p.slice.flight.Some? && p.slice.flight.value.at.Done? &&
      p.slice.flight.value.at.outcome ==
        if InTime(env, r.binding, checks.now) then Paid(o.slice.file.value.receipt.value)
        else if env.dateOf(r.binding.expiresAt).Some? && env.dateOf(r.binding.expiresAt).value > checks.now
        then Failed(QuoteExpiryTooLong) else Failed(QuoteExpired)
  {
    var id := r.binding.operationId;
    RunKeeps(env, acts, id);
    RetryStep(env, id, Get(After(env, acts), id), fp, r, checks, session);
    ExtendOne(env, acts, id, Settle(fp, r, checks, session));
  }

  /** A status call gets the stored receipt at any time: at once, or after a read that does not fail. */
  lemma {:induction false} StatusGetsReceipt(env: Env, id: Text, o: Op, k: nat, reply: Reply, now: Time)
    requires Inv(env, id, o) && StoredReceipt(o.slice.file).Some? && reply.Read?
    ensures var receipt := o.slice.file.value.receipt.value;
      if NeedsReconcile(o.slice) then
        AfterPoll(o.slice, k, reply, now).1.Some? && AfterPoll(o.slice, k, reply, now).1.value.receipt == Some(receipt)
      else
        Polled(o, k).returned == o.returned + [receipt]
  {
  }

  // ---------------------------------------------------------------- both do happen

  /** A quoted exact payment, just handed to the settler. */
  lemma {:induction false} SubmittedRun(env: Env, r: Request, fp: Text, checks: Checks) returns (acts: seq<Action>)
    requires r.payment.Exact? && ExactMatches(r) && InvalidRequest(env, r, checks).None?
    ensures Run(env, acts)
    ensures var o := Get(After(env, acts), r.binding.operationId);
      AtSettler(o) && o.subs == [Submission(r.binding, r.payment, Pending)] && o.slice.polls == {} && o.pollSeen == map[] &&
      o.slice.live == Some(Stored(r.binding, env.digestOf(r.binding), r.payment, Settling, None, None))
  {
    var id := r.binding.operationId;
    var quoting, settle := Quoting(r.binding, checks.binding, checks.now), Settle(fp, r, checks, None);
    assert Run(env, []);
    ExtendOne(env, [], id, quoting);
    ExtendOne(env, [] + [At(id, quoting)], id, settle);
    acts := [] + [At(id, quoting)] + [At(id, settle)];
  }

  /** It lands, and a status call goes out. */
  lemma {:induction false} LandedRun(env: Env, r: Request, fp: Text, checks: Checks) returns (acts: seq<Action>)
    requires r.payment.Exact? && ExactMatches(r) && InvalidRequest(env, r, checks).None?
    ensures Run(env, acts)
    ensures var o := Get(After(env, acts), r.binding.operationId);
      AtSettler(o) && o.subs == [Submission(r.binding, r.payment, Landed([]))] && 0 in o.slice.polls && o.pollSeen == map[] &&
      o.slice.live.value.receipt.None?
  {
    var id := r.binding.operationId;
    acts := SubmittedRun(env, r, fp, checks);
    ExtendOne(env, acts, id, Poll(0));
    acts := acts + [At(id, Poll(0))];
    ExtendOne(env, acts, id, Lands(0, []));
    acts := acts + [At(id, Lands(0, []))];
  }

  /** A status call records the receipt while the settler is still waiting. */
  lemma {:induction false} PolledRun(env: Env, r: Request, fp: Text, checks: Checks) returns (acts: seq<Action>)
    requires r.payment.Exact? && ExactMatches(r) && InvalidRequest(env, r, checks).None?
    ensures Run(env, acts)
    ensures var o := Get(After(env, acts), r.binding.operationId);
      AtSettler(o) && o.subs != [] && DiskState(o) == Some(Settled) && StoredReceipt(o.slice.file).Some?
  {
    var id := r.binding.operationId;
    acts := LandedRun(env, r, fp, checks);
    var reply := Read(true, Some([]));
    assert Get(After(env, acts), id).subs[0].fate == Landed([]);
    ExtendOne(env, acts, id, PollReads(0, reply));
    acts := acts + [At(id, PollReads(0, reply))];
    ExtendOne(env, acts, id, PollReturns(0, 0));
    acts := acts + [At(id, PollReturns(0, 0))];
  }

  /** `state` is not monotone: a status call records the receipt while the settler still waits, then
      the settler's late "uncertain" overwrites `settled`. */
  lemma {:induction false} StateCanRegress(env: Env, r: Request, fp: Text, checks: Checks, reason: Text)
    returns (acts: seq<Action>, more: seq<Action>)
    requires r.payment.Exact? && ExactMatches(r) && InvalidRequest(env, r, checks).None?
    ensures Run(env, acts) && Run(env, acts + more)
    ensures var o := Get(After(env, acts), r.binding.operationId);
      DiskState(o) == Some(Settled) && StoredReceipt(o.slice.file).Some?
    ensures var p := Get(After(env, acts + more), r.binding.operationId);
      DiskState(p) == Some(FailedRetryable) && StoredReceipt(p.slice.file).Some?
  {
    var id := r.binding.operationId;
    acts := PolledRun(env, r, fp, checks);
    RunKeeps(env, acts, id);
    ExtendOne(env, acts, id, SettleAnswers(Uncertain(reason), 0));
    more := [At(id, SettleAnswers(Uncertain(reason), 0))];
  }

  /** `rejected` does not mean unpaid: a submission may land after the settler reported failure. */
  lemma {:induction false} RejectedCanBePaid(env: Env, r: Request, fp: Text, checks: Checks, tx: Tx, reason: Text)
    returns (acts: seq<Action>)
    requires r.payment.Exact? && ExactMatches(r) && InvalidRequest(env, r, checks).None?
    ensures Run(env, acts)
    ensures var o := Get(After(env, acts), r.binding.operationId);
      Unpaid(o) && HasLanded(o.subs, tx) && !Rescuable(o)
  {
    var id := r.binding.operationId;
    acts := SubmittedRun(env, r, fp, checks);
    ExtendOne(env, acts, id, SettleAnswers(SettleRefused(reason), 0));
    acts := acts + [At(id, SettleAnswers(SettleRefused(reason), 0))];
    ExtendOne(env, acts, id, Lands(0, tx));
    acts := acts + [At(id, Lands(0, tx))];
    assert Get(After(env, acts), id).subs[0].fate == Landed(tx);
  }
}
