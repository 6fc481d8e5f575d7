/** What every answer leads to, in every run: where the call stands next, what is on disk, what was
submitted and what was returned. */
module SessionAnswers {
  import opened Wrappers
  import opened Canonical
  import opened Operation
  import opened SessionState
  import opened SessionProtocol
  import opened SessionSafety
  import opened SessionOutcomes
  import opened SessionMeaning

  /** The operation once one more step of it has been made. */
  ghost function Then(env: Env, acts: seq<Action>, id: Text, step: Step): Op
    requires Run(env, acts + [At(id, step)])
  {
    Get(After(env, acts + [At(id, step)]), id)
  }

  // ---------------------------------------------------------------- where a call can go

  /** The call now stands at `at`; records, submissions and returned receipts are as they were. */
  predicate StandsAt(o: Op, p: Op, at: Point) {
    o.slice.flight.Some? && p.slice == o.slice.(flight := Some(o.slice.flight.value.(at := at))) &&
    p.subs == o.subs && p.returned == o.returned
  }

  /** The call fails, and nothing else has happened. */
  predicate FailsWith(o: Op, p: Op, failure: Failure) { StandsAt(o, p, Done(Failed(failure))) }

  /** The payment is settling on disk and handed to the settler. */
  predicate HandsOver(o: Op, p: Op, f: Flight) {
    o.slice.live.Some? &&
    p.slice.flight == Some(f.(at := AtSettle)) && p.subs == o.subs + [Submission(f.request.binding, f.request.payment, Pending)] &&
    p.slice.file == Some(o.slice.live.value.(state := Settling, error := None)) && p.slice.live == p.slice.file &&
    p.slice.quote == o.slice.quote && p.slice.fileQuote == o.slice.fileQuote && p.slice.polls == o.slice.polls &&
    p.returned == o.returned
  }

  /** The receipt for a payment under b that landed as tx. */
  predicate Certifies(x: Receipt, id: Text, b: Binding, digest: Text, payment: Payment, tx: Tx, now: Time) {
    x.operationId == id && x.stake == payment.Stake? && x.bindingDigest == digest && x.payerWallet == b.payerWallet &&
    x.amount == b.amount && x.asset == b.asset && x.network == b.network && x.payTo == b.payTo &&
    x.settlementTx == tx && x.settledAt == now
  }

  /** A receipt is on disk and was returned: the one that was there before, or else a new one. */
  predicate GivesReceipt(env: Env, id: Text, o: Op, p: Op, tx: Tx, now: Time) {
    p.slice.file.Some? && p.slice.file.value.receipt.Some? && p.slice.live == p.slice.file &&
    p.slice.quote == o.slice.quote && p.slice.fileQuote == o.slice.fileQuote && p.subs == o.subs &&
    p.returned == o.returned + [p.slice.file.value.receipt.value] &&
    o.slice.file.Some? && o.slice.fileQuote.Some? &&
    if o.slice.file.value.receipt.Some? then p.slice.file == o.slice.file
    else
      var x, b := p.slice.file.value.receipt.value, o.slice.fileQuote.value.binding;
      p.slice.file == Some(o.slice.file.value.(state := Settled, receipt := Some(x), error := None)) &&
      Certifies(x, id, b, env.digestOf(b), o.slice.file.value.payment, tx, now)
  }

  /** The call returns the receipt that is on disk. */
  predicate ReturnsIt(o: Op, p: Op) {
    o.slice.flight.Some? && p.slice.file.Some? && p.slice.file.value.receipt.Some? && p.slice.polls == o.slice.polls &&
    p.slice.flight == Some(o.slice.flight.value.(at := Done(Paid(p.slice.file.value.receipt.value))))
  }

  // ---------------------------------------------------------------- the settler

  /** "Settled" with a transaction: the receipt is on disk and the call returns it. */
  lemma {:induction false} SettledAnswerPays(env: Env, acts: seq<Action>, id: Text, tx: Tx, now: Time)
    requires Run(env, acts) && Enabled(id, Get(After(env, acts), id), SettleAnswers(SettledWith(tx), now))
    ensures Run(env, acts + [At(id, SettleAnswers(SettledWith(tx), now))])
    ensures var o, p := Get(After(env, acts), id), Then(env, acts, id, SettleAnswers(SettledWith(tx), now));
      GivesReceipt(env, id, o, p, tx, now) && ReturnsIt(o, p)
  {
    RunKeeps(env, acts, id);
    ExtendOne(env, acts, id, SettleAnswers(SettledWith(tx), now));
  }

  /** "Uncertain" and failure: state and reason are on disk, a receipt stays as it was, the call fails. */
  lemma {:induction false} FailureIsRecorded(env: Env, acts: seq<Action>, id: Text, answer: SettleReply, now: Time)
    requires Run(env, acts) && Enabled(id, Get(After(env, acts), id), SettleAnswers(answer, now))
    requires answer.Uncertain? || answer.SettleRefused?
    ensures Run(env, acts + [At(id, SettleAnswers(answer, now))])
    ensures var o, p := Get(After(env, acts), id), Then(env, acts, id, SettleAnswers(answer, now));
      var state := if answer.Uncertain? then FailedRetryable else Rejected;
      o.slice.file.Some? && o.slice.flight.Some? &&
      p.slice.file == Some(o.slice.file.value.(state := state, error := Some(answer.reason))) &&
      p.slice == o.slice.(live := p.slice.file, file := p.slice.file,
                          flight := Some(o.slice.flight.value.(at := Done(Failed(SettlementFailed(answer.reason)))))) &&
      p.subs == o.subs && p.returned == o.returned
  {
    RunKeeps(env, acts, id);
    ExtendOne(env, acts, id, SettleAnswers(answer, now));
  }

  /** An exception is recorded nowhere: the payment stays `settling`, to be reconciled. */
  lemma {:induction false} ThrownIsNotRecorded(env: Env, acts: seq<Action>, id: Text, now: Time)
    requires Run(env, acts) && Enabled(id, Get(After(env, acts), id), SettleAnswers(SettleThrew, now))
    ensures Run(env, acts + [At(id, SettleAnswers(SettleThrew, now))])
    ensures FailsWith(Get(After(env, acts), id), Then(env, acts, id, SettleAnswers(SettleThrew, now)), DependencyThrew)
  {
    ExtendOne(env, acts, id, SettleAnswers(SettleThrew, now));
  }

  // ---------------------------------------------------------------- the reconcile of a settle call

  /** The answer to the reconcile, waiting to be taken up. */
  predicate HasRead(o: Op, reply: Reply) {
    Flying(o.slice) && o.slice.flight.value.at.AtReconcile? && o.seen == Some(reply)
  }

  /** "Settled" with a transaction is as good as from the settler. */
  lemma {:induction false} SettledReadPays(
      env: Env, acts: seq<Action>, id: Text, tx: Tx, now: Time, session: Option<Session>)
    requires Run(env, acts) && HasRead(Get(After(env, acts), id), Read(true, Some(tx)))
    ensures Run(env, acts + [At(id, Reconciled(now, session))])
    ensures var o, p := Get(After(env, acts), id), Then(env, acts, id, Reconciled(now, session));
      GivesReceipt(env, id, o, p, tx, now) && ReturnsIt(o, p)
  {
    RunKeeps(env, acts, id);
    ExtendOne(env, acts, id, Reconciled(now, session));
  }

  /** "Settled" without a transaction, and a read that fails, fail the call and change nothing. */
  lemma {:induction false} UnknownReadFails(
      env: Env, acts: seq<Action>, id: Text, reply: Reply, now: Time, session: Option<Session>)
    requires Run(env, acts) && HasRead(Get(After(env, acts), id), reply) && (reply == ReadFailed || reply == Read(true, None))
    ensures Run(env, acts + [At(id, Reconciled(now, session))])
    ensures FailsWith(Get(After(env, acts), id), Then(env, acts, id, Reconciled(now, session)),
                      if reply.ReadFailed? then DependencyThrew else SettlementTxNotFound)
  {
    ExtendOne(env, acts, id, Reconciled(now, session));
  }

  /** "Not settled": an exact payment is handed over exactly if it matches its binding, a stake
      payment goes on to its vault check. */
  lemma {:induction false} NotSettledGoesOn(
      env: Env, acts: seq<Action>, id: Text, tx: Option<Tx>, now: Time, session: Option<Session>)
    requires Run(env, acts) && HasRead(Get(After(env, acts), id), Read(false, tx))
    ensures Run(env, acts + [At(id, Reconciled(now, session))])
    ensures var o, p := Get(After(env, acts), id), Then(env, acts, id, Reconciled(now, session));
      var r := o.slice.flight.value.request;
      match r.payment
      case Exact(_, _, from, to, value, _, _, _) =>
        if SameLetters(from, r.binding.payerWallet) && SameLetters(to, r.binding.payTo) && value == r.binding.amount
        then HandsOver(o, p, o.slice.flight.value)
        else FailsWith(o, p, ExactBindingMismatch)
      case Stake(_, _, _, _, _) =>
        if session.Some? then StandsAt(o, p, AtTrust(session.value)) else FailsWith(o, p, SessionNotFound)
  {
    var r := Get(After(env, acts), id).slice.flight.value.request;
    ExtendOne(env, acts, id, Reconciled(now, session));
    if r.payment.Exact? {
      ExactMatchesIff(r);
    }
  }

  // ---------------------------------------------------------------- a stake payment's checks

  /** A trusted vault whose session is for this binding and allows its scope goes on to the policy;
      anything else fails the call, the first reason first. */
  lemma {:induction false} TrustDecides(env: Env, acts: seq<Action>, id: Text, trust: TrustReply)
    requires Run(env, acts) && Enabled(id, Get(After(env, acts), id), Trusted(trust))
    ensures Run(env, acts + [At(id, Trusted(trust))])
    ensures var o, p := Get(After(env, acts), id), Then(env, acts, id, Trusted(trust));
      var r, x := o.slice.flight.value.request, o.slice.flight.value.at.session;
      if trust.TrustThrew? then FailsWith(o, p, DependencyThrew)
      else if !trust.trusted then FailsWith(o, p, UntrustedSessionVault)
      else if !SessionPays(x, r.binding) then FailsWith(o, p, SessionBindingMismatch)
      else if !ScopeAllows(x, r) then FailsWith(o, p, SessionScopeViolation)
      else StandsAt(o, p, AtPolicy(x))
  {
    ExtendOne(env, acts, id, Trusted(trust));
  }

  /** A policy that refuses nothing gets the payment handed over. */
  lemma {:induction false} PolicyDecides(env: Env, acts: seq<Action>, id: Text, policy: PolicyReply, now: Time)
    requires Run(env, acts) && Enabled(id, Get(After(env, acts), id), PolicyRead(policy, now))
    ensures Run(env, acts + [At(id, PolicyRead(policy, now))])
    ensures var o, p := Get(After(env, acts), id), Then(env, acts, id, PolicyRead(policy, now));
      var r, x := o.slice.flight.value.request, o.slice.flight.value.at.session;
      if policy.PolicyThrew? then FailsWith(o, p, DependencyThrew)
      else
        var refusal := PolicyRefusal(x, policy.policy, Amount(r.binding.amount), now);
        if refusal.Some? then FailsWith(o, p, refusal.value) else HandsOver(o, p, o.slice.flight.value)
  {
    ExtendOne(env, acts, id, PolicyRead(policy, now));
  }

  // ---------------------------------------------------------------- quotes

  /** The first valid quote of an id is on disk, with its digest; nothing replaces it. */
  lemma {:induction false} FirstQuoteStays(
      env: Env, acts: seq<Action>, b: Binding, refused: Option<Text>, now: Time)
    requires Run(env, acts)
    ensures Run(env, acts + [At(b.operationId, Quoting(b, refused, now))])
    ensures var id := b.operationId;
      var o, p := Get(After(env, acts), id), Then(env, acts, id, Quoting(b, refused, now));
      var expires := env.dateOf(b.expiresAt);
      var valid := refused.None? && expires.Some? && now < expires.value <= now + env.quoteTtl;
      p == if valid && o.slice.fileQuote.None?
           then o.(slice := o.slice.(quote := Some(Quote(b, env.digestOf(b))), fileQuote := Some(Quote(b, env.digestOf(b)))))
           else o
  {
    RunKeeps(env, acts, b.operationId);
    ExtendOne(env, acts, b.operationId, Quoting(b, refused, now));
  }

  // ---------------------------------------------------------------- the start of a settle call

  /** A call that comes while another runs changes nothing. */
  lemma {:induction false} JoinedChangesNothing(
      env: Env, acts: seq<Action>, fp: Text, r: Request, checks: Checks, session: Option<Session>)
    requires Run(env, acts) && Get(After(env, acts), r.binding.operationId).slice.flight.Some?
    ensures var id, step := r.binding.operationId, Settle(fp, r, checks, session);
      Run(env, acts + [At(id, step)]) && Then(env, acts, id, step) == Get(After(env, acts), id)
  {
    ExtendOne(env, acts, r.binding.operationId, Settle(fp, r, checks, session));
  }

  /** The call has started and stands at `at`; records are as they were. */
  predicate StartsAt(o: Op, p: Op, fp: Text, r: Request, at: Point) {
    p.slice == o.slice.(flight := Some(Flight(fp, r, at))) && p.subs == o.subs && p.returned == o.returned
  }

  /** What is refused at once, the first reason first. */
  lemma {:induction false} UnquotedIsRefused(
      env: Env, acts: seq<Action>, fp: Text, r: Request, checks: Checks, session: Option<Session>)
    requires Run(env, acts) && Get(After(env, acts), r.binding.operationId).slice.flight.None?
    ensures Run(env, acts + [At(r.binding.operationId, Settle(fp, r, checks, session))])
    ensures var id, step := r.binding.operationId, Settle(fp, r, checks, session);
      var o, p := Get(After(env, acts), id), Then(env, acts, id, step);
      var invalid := InvalidRequest(env, r, checks);
      (invalid.Some? ==> StartsAt(o, p, fp, r, Done(Failed(invalid.value)))) &&
      (invalid.None? && o.slice.fileQuote.None? ==> StartsAt(o, p, fp, r, Done(Failed(QuoteRequired)))) &&
      (invalid.None? && o.slice.fileQuote.Some? && o.slice.fileQuote.value.binding != r.binding ==>
        StartsAt(o, p, fp, r, Done(Failed(QuoteBindingMismatch))))
  {
    RunKeeps(env, acts, r.binding.operationId);
    ExtendOne(env, acts, r.binding.operationId, Settle(fp, r, checks, session));
  }

  /** The request is valid and quoted, and no other call is running. */
  ghost predicate Ready(env: Env, acts: seq<Action>, r: Request, checks: Checks)
    requires Run(env, acts)
  {
    var o := Get(After(env, acts), r.binding.operationId);
    o.slice.flight.None? && InvalidRequest(env, r, checks).None? &&
    o.slice.fileQuote.Some? && o.slice.fileQuote.value.binding == r.binding
  }

  /** Where a payment goes that was never submitted: `o` already has its record. */
  predicate SetsOut(o: Op, p: Op, fp: Text, r: Request, session: Option<Session>) {
    match r.payment
    case Exact(_, _, from, to, value, _, _, _) =>
      if SameLetters(from, r.binding.payerWallet) && SameLetters(to, r.binding.payTo) && value == r.binding.amount
      then HandsOver(o, p, Flight(fp, r, AtSettle))
      else StartsAt(o, p, fp, r, Done(Failed(ExactBindingMismatch)))
    case Stake(_, _, _, _, _) =>
      StartsAt(o, p, fp, r, if session.Some? then AtTrust(session.value) else Done(Failed(SessionNotFound)))
  }

  /** The first settle call of an operation: its payment is on disk as created, and sets out. */
  lemma {:induction false} FirstPaymentSetsOut(
      env: Env, acts: seq<Action>, fp: Text, r: Request, checks: Checks, session: Option<Session>)
    requires Run(env, acts) && Ready(env, acts, r, checks) && Get(After(env, acts), r.binding.operationId).slice.file.None?
    ensures Run(env, acts + [At(r.binding.operationId, Settle(fp, r, checks, session))])
    ensures var id, step := r.binding.operationId, Settle(fp, r, checks, session);
      var o, p := Get(After(env, acts), id), Then(env, acts, id, step);
      var created := Some(Stored(r.binding, env.digestOf(r.binding), r.payment, Created, None, None));
      SetsOut(o.(slice := o.slice.(live := created, file := created)), p, fp, r, session)
  {
    RunKeeps(env, acts, r.binding.operationId);
    ExtendOne(env, acts, r.binding.operationId, Settle(fp, r, checks, session));
    if r.payment.Exact? {
      ExactMatchesIff(r);
    }
  }

  /** Another settle call, by the state its payment is in: a receipt comes back, a rejection is
      repeated, a payment that may have been submitted is reconciled, and one that was not sets out. */
  lemma {:induction false} KnownPaymentGoesOn(
      env: Env, acts: seq<Action>, fp: Text, r: Request, checks: Checks, session: Option<Session>)
    requires Run(env, acts) && Ready(env, acts, r, checks) && Get(After(env, acts), r.binding.operationId).slice.file.Some?
    ensures Run(env, acts + [At(r.binding.operationId, Settle(fp, r, checks, session))])
    ensures var id, step := r.binding.operationId, Settle(fp, r, checks, session);
      var o, p := Get(After(env, acts), id), Then(env, acts, id, step);
      var s := o.slice.file.value;
      if s.payment != r.payment then StartsAt(o, p, fp, r, Done(Failed(PaymentAuthorizationConflict)))
      else if s.receipt.Some? then
        p == o.(slice := o.slice.(flight := Some(Flight(fp, r, Done(Paid(s.receipt.value))))),
                returned := o.returned + [s.receipt.value])
      else if s.state.Rejected? then StartsAt(o, p, fp, r, Done(Failed(PaymentRejected(s.error))))
      else if s.state.Created? then SetsOut(o, p, fp, r, session)
      else StartsAt(o, p, fp, r, if r.payment.Stake? && session.None? then Done(Failed(SessionNotFound)) else AtReconcile)
  {
    RunKeeps(env, acts, r.binding.operationId);
    ExtendOne(env, acts, r.binding.operationId, Settle(fp, r, checks, session));
    if r.payment.Exact? {
      ExactMatchesIff(r);
    }
  }

  // ---------------------------------------------------------------- the end of a call, and status calls

  /** A call that is over leaves nothing behind but what it wrote. */
  lemma {:induction false} FinishedCallLeaves(env: Env, acts: seq<Action>, id: Text)
    requires Run(env, acts) && Enabled(id, Get(After(env, acts), id), Finally)
    ensures Run(env, acts + [At(id, Finally)])
    ensures var o := Get(After(env, acts), id); Then(env, acts, id, Finally) == o.(slice := o.slice.(flight := None))
  {
    ExtendOne(env, acts, id, Finally);
  }

  /** A status call reads the chain exactly for payments that are settling or failed_retryable; for
      others it returns the receipt, if there is one, and changes nothing. */
  lemma {:induction false} StatusAsksIff(env: Env, acts: seq<Action>, id: Text, k: nat)
    requires Run(env, acts) && k !in Get(After(env, acts), id).slice.polls
    ensures Run(env, acts + [At(id, Poll(k))])
    ensures var o, p := Get(After(env, acts), id), Then(env, acts, id, Poll(k));
      if DiskState(o) == Some(Settling) || DiskState(o) == Some(FailedRetryable)
      then p == o.(slice := o.slice.(polls := o.slice.polls + {k}))
      else p == o.(returned := o.returned + if StoredReceipt(o.slice.file).Some? then [StoredReceipt(o.slice.file).value] else [])
  {
    RunKeeps(env, acts, id);
    ExtendOne(env, acts, id, Poll(k));
  }

  /** A status call is over, and no settle call has moved. */
  predicate PollEnds(o: Op, p: Op, k: nat) {
    p.slice.polls == o.slice.polls - {k} && p.pollSeen == o.pollSeen - {k} && p.slice.flight == o.slice.flight
  }

  /** A status call whose read names a transaction makes the receipt, as anywhere else, and returns it. */
  lemma {:induction false} StatusReadPays(env: Env, acts: seq<Action>, id: Text, k: nat, tx: Tx, now: Time)
    requires Run(env, acts) && k in Get(After(env, acts), id).pollSeen
    requires Get(After(env, acts), id).pollSeen[k] == Read(true, Some(tx))
    ensures Run(env, acts + [At(id, PollReturns(k, now))])
    ensures var o, p := Get(After(env, acts), id), Then(env, acts, id, PollReturns(k, now));
      PollEnds(o, p, k) && GivesReceipt(env, id, o, p, tx, now)
  {
    RunKeeps(env, acts, id);
    ExtendOne(env, acts, id, PollReturns(k, now));
  }

  /** Any other read changes nothing; unless it failed, the receipt that is there, if any, is returned. */
  lemma {:induction false} OtherReadChangesNothing(env: Env, acts: seq<Action>, id: Text, k: nat, now: Time)
    requires Run(env, acts) && k in Get(After(env, acts), id).pollSeen
    requires var reply := Get(After(env, acts), id).pollSeen[k]; reply.ReadFailed? || !reply.settled || reply.tx.None?
    ensures Run(env, acts + [At(id, PollReturns(k, now))])
    ensures var o, p := Get(After(env, acts), id), Then(env, acts, id, PollReturns(k, now));
      var shown := if o.pollSeen[k].Read? && StoredReceipt(o.slice.file).Some? then [StoredReceipt(o.slice.file).value] else [];
      p == o.(slice := o.slice.(polls := o.slice.polls - {k}), pollSeen := o.pollSeen - {k}, returned := o.returned + shown)
  {
    RunKeeps(env, acts, id);
    ExtendOne(env, acts, id, PollReturns(k, now));
  }

  /** A crash between the two writes of a first settle call leaves the new payment on disk as created. */
  lemma {:induction false} TornCallLeavesTheRecord(env: Env, acts: seq<Action>, id: Text, r: Request, checks: Checks)
    requires Run(env, acts) && Can(env, After(env, acts), Torn(id, r, checks))
    ensures Run(env, acts + [Torn(id, r, checks)])
    ensures var o, p := Get(After(env, acts), id), Get(After(env, acts + [Torn(id, r, checks)]), id);
      var created := Some(Stored(r.binding, env.digestOf(r.binding), r.payment, Created, None, None));
      p == Op(Slice(o.slice.fileQuote, o.slice.fileQuote, created, created, None, {}), o.subs, None, map[], o.log, o.returned)
  {
    Extend(env, acts, Torn(id, r, checks));
    NextIsTurned(env, After(env, acts), Torn(id, r, checks), id);
  }

  /** A restart keeps the quote and the payment on disk, and nothing of what was under way. */
  lemma {:induction false} RestartKeepsTheDisk(env: Env, acts: seq<Action>, id: Text)
    requires Run(env, acts)
    ensures Run(env, acts + [Restarted])
    ensures var o, p := Get(After(env, acts), id), Get(After(env, acts + [Restarted]), id);
      p == Op(Slice(o.slice.fileQuote, o.slice.fileQuote, o.slice.file, o.slice.file, None, {}),
              o.subs, None, map[], o.log, o.returned)
  {
    Extend(env, acts, Restarted);
    NextIsTurned(env, After(env, acts), Restarted, id);
  }
}
