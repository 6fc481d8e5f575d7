/** Safety of settlement over every run: at most one payment, one permanent receipt, write-ahead. */
module SessionSafety {
  import opened Wrappers
  import opened Canonical
  import opened Operation
  import opened SessionState
  import opened SessionProtocol

  // ---------------------------------------------------------------- the log

  function Submits(log: seq<Event>): nat {
    if log == [] then 0
    else Submits(log[..|log| - 1]) + if log[|log| - 1] == Submitted then 1 else 0
  }

  /** A reconcile answered "not settled" somewhere after position i. */
  predicate Cleared(log: seq<Event>, i: nat) {
    exists k :: i < k < |log| && log[k] == NotSettled
  }

  predicate ClearedBetween(log: seq<Event>, i: nat, j: nat)
    requires j <= |log|
  {
    exists k :: i < k < j && log[k] == NotSettled
  }

  /** Between any two submissions a reconcile answered "not settled". */
  predicate Separated(log: seq<Event>) {
    forall i, j :: 0 <= i < j < |log| && log[i] == Submitted && log[j] == Submitted ==> ClearedBetween(log, i, j)
  }

  /** No submission since the last "not settled". */
  predicate MaySubmit(log: seq<Event>) {
    forall i :: 0 <= i < |log| && log[i] == Submitted ==> Cleared(log, i)
  }

  lemma LogSubmission(log: seq<Event>)
    requires Separated(log) && MaySubmit(log)
    ensures Separated(log + [Submitted]) && Submits(log + [Submitted]) == Submits(log) + 1
  {
    var l := log + [Submitted];
    assert l[..|l| - 1] == log;
    forall i, j | 0 <= i < j < |l| && l[i] == Submitted && l[j] == Submitted ensures ClearedBetween(l, i, j) {
      if j == |log| {
        assert Cleared(log, i);
        var k :| i < k < |log| && log[k] == NotSettled;
        assert l[k] == NotSettled;
      } else {
        assert ClearedBetween(log, i, j);
        var k :| i < k < j && log[k] == NotSettled;
        assert l[k] == NotSettled;
      }
    }
  }

  lemma LogClearance(log: seq<Event>)
    requires Separated(log)
    ensures Separated(log + [NotSettled]) && MaySubmit(log + [NotSettled])
    ensures Submits(log + [NotSettled]) == Submits(log)
  {
    var l := log + [NotSettled];
    assert l[..|l| - 1] == log;
    assert l[|log|] == NotSettled;
    forall i, j | 0 <= i < j < |l| && l[i] == Submitted && l[j] == Submitted ensures ClearedBetween(l, i, j) {
      assert ClearedBetween(log, i, j);
      var k :| i < k < j && log[k] == NotSettled;
      assert l[k] == NotSettled;
    }
  }

  lemma {:induction false} NoSubmitsMaySubmit(log: seq<Event>)
    requires Submits(log) == 0
    ensures forall i :: 0 <= i < |log| ==> log[i] != Submitted
  {
    if log != [] { NoSubmitsMaySubmit(log[..|log| - 1]); }
  }

  // ---------------------------------------------------------------- the invariant

  /** What is in memory between two steps is what is on disk. */
  predicate Saved(s: Slice) { s.live == s.file && s.quote == s.fileQuote }

  predicate QuoteOk(env: Env, id: Text, s: Slice) {
    s.quote.Some? ==> s.quote.value.binding.operationId == id && s.quote.value.digest == env.digestOf(s.quote.value.binding)
  }

  predicate PaymentOk(s: Slice, subs: seq<Submission>) {
    match s.live
    case None => subs == [] && s.polls == {}
    case Some(p) =>
      s.quote.Some? && p.binding == s.quote.value.binding && p.digest == s.quote.value.digest &&
      (p.state.Created? ==> subs == []) &&
      (p.state.Settled? ==> p.receipt.Some?) &&
      (p.receipt.Some? ==>
        HasLanded(subs, p.receipt.value.settlementTx) &&
        p.receipt.value == MakeReceipt(p, p.receipt.value.settlementTx, p.receipt.value.settledAt)) &&
      forall k :: 0 <= k < |subs| ==> subs[k].binding == p.binding && subs[k].payment == p.payment
  }

  /** Every submission but the newest will never land. */
  predicate OnlyLastAlive(subs: seq<Submission>) {
    forall k :: 0 <= k < |subs| - 1 ==> subs[k].fate.Dead?
  }

  predicate FlightOk(o: Op) {
    o.slice.flight.Some? ==>
      var f := o.slice.flight.value;
      if f.at.Done? then
        f.at.outcome.Paid? ==> o.slice.live.Some? && o.slice.live.value.receipt == Some(f.at.outcome.receipt)
      else
        o.slice.live.Some? && f.request.binding == o.slice.live.value.binding &&
        f.request.payment == o.slice.live.value.payment &&
        (f.at.AtTrust? || f.at.AtPolicy? ==> AllDead(o.subs) && MaySubmit(o.log)) &&
        (f.at.AtSettle? ==> o.subs != [])
  }

  /** Answers on their way were true when read and what they promise is stable. */
  predicate ReplyOk(subs: seq<Submission>, reply: Reply) {
    reply.Read? && reply.settled && reply.tx.Some? ==> HasLanded(subs, reply.tx.value)
  }

  predicate SeenOk(o: Op) {
    (o.seen.Some? ==>
      o.slice.flight.Some? && o.slice.flight.value.at.AtReconcile? && ReplyOk(o.subs, o.seen.value) &&
      (o.seen.value.Read? && !o.seen.value.settled ==> AllDead(o.subs))) &&
    (forall k :: k in o.pollSeen ==> k in o.slice.polls && ReplyOk(o.subs, o.pollSeen[k]))
  }

  function StoredReceipt(p: Option<Stored>): Option<Receipt> {
    if p.Some? then p.value.receipt else None
  }

  predicate AllAre(receipts: seq<Receipt>, r: Option<Receipt>) {
    forall i :: 0 <= i < |receipts| ==> Some(receipts[i]) == r
  }

  predicate ReturnedOk(o: Op) { AllAre(o.returned, StoredReceipt(o.slice.live)) }

  predicate LogOk(o: Op) { Separated(o.log) && Submits(o.log) == |o.subs| }

  predicate Inv(env: Env, id: Text, o: Op) {
    Saved(o.slice) && QuoteOk(env, id, o.slice) && PaymentOk(o.slice, o.subs) && OnlyLastAlive(o.subs) &&
    FlightOk(o) && SeenOk(o) && ReturnedOk(o) && LogOk(o)
  }

  // ---------------------------------------------------------------- every step keeps it

  lemma RecordReceiptKeeps(s: Slice, subs: seq<Submission>, tx: Tx, now: Time)
    requires PaymentOk(s, subs) && Saved(s) && s.live.Some? && HasLanded(subs, tx)
    ensures var (t, receipt) := RecordReceipt(s, tx, now);
      PaymentOk(t, subs) && Saved(t) && t.live.Some? && t.live.value.receipt == Some(receipt) &&
      (s.live.value.receipt.Some? ==> t == s) && t.quote == s.quote && t.flight == s.flight && t.polls == s.polls &&
      t.live.value.binding == s.live.value.binding && t.live.value.payment == s.live.value.payment
  {
  }

  lemma EnvironmentKeeps(env: Env, id: Text, o: Op, i: nat, fate: Fate)
    requires Inv(env, id, o) && i < |o.subs| && o.subs[i].fate.Pending? && !fate.Pending?
    ensures Inv(env, id, o.(subs := o.subs[i := o.subs[i].(fate := fate)]))
  {
    assert !AllDead(o.subs);
    assert forall tx :: !HasLanded(o.subs, tx);
  }

  lemma ReadKeeps(env: Env, id: Text, o: Op, reply: Reply)
    requires Inv(env, id, o) && Enabled(id, o, SettleReads(reply))
    ensures Inv(env, id, o.(seen := Some(reply)))
  {
    if reply.Read? && !reply.settled {
      assert !AnyLanded(o.subs);
      forall i | 0 <= i < |o.subs| ensures o.subs[i].fate.Dead? {}
    }
  }

  /** The flight ends; memory and disk may have moved on, but no receipt changed. */
  lemma LandingKeeps(env: Env, id: Text, o: Op, s: Slice)
    requires Inv(env, id, o) && o.seen.None?
    requires s.flight.Some? && s.flight.value.at.Done?
    requires Saved(s) && PaymentOk(s, o.subs) && s.quote == o.slice.quote && s.polls == o.slice.polls
    requires StoredReceipt(o.slice.live).Some? ==> StoredReceipt(s.live) == StoredReceipt(o.slice.live)
    requires s.flight.value.at.outcome.Paid? ==>
      s.live.Some? && s.live.value.receipt == Some(s.flight.value.at.outcome.receipt)
    ensures Inv(env, id, MoveTo(o, s))
  {
    assert o.returned != [] ==> Some(o.returned[0]) == StoredReceipt(o.slice.live);
    assert AllAre(o.returned, StoredReceipt(s.live));
  }

  // What handing over a submission does to each part of the invariant, when all earlier ones are dead.

  lemma DeadMeansUnpaid(s: Slice, subs: seq<Submission>)
    requires PaymentOk(s, subs) && AllDead(subs)
    ensures StoredReceipt(s.live).None?
  {
    assert forall tx :: !HasLanded(subs, tx);
  }

  lemma SubmitPaymentOk(s: Slice, subs: seq<Submission>, fp: Text, r: Request)
    requires s.live.Some? && PaymentOk(s, subs) && AllDead(subs)
    requires r.binding == s.live.value.binding && r.payment == s.live.value.payment
    ensures PaymentOk(Submit(s, fp, r), subs + [Submission(r.binding, r.payment, Pending)])
  {
    DeadMeansUnpaid(s, subs);
  }

  lemma SubmitMoves(o: Op, s: Slice, fp: Text, r: Request)
    requires s.live.Some? && !(o.slice.flight.Some? && o.slice.flight.value.at.AtSettle?)
    ensures MoveTo(o, Submit(s, fp, r)) ==
      o.(slice := Submit(s, fp, r), subs := o.subs + [Submission(r.binding, r.payment, Pending)], log := o.log + [Submitted])
  {
  }

  lemma FirstReturned(returned: seq<Receipt>, r: Option<Receipt>)
    requires AllAre(returned, r) && returned != []
    ensures r.Some?
  {
    assert Some(returned[0]) == r;
  }

  predicate Quiet(o: Op) { o.seen.None? && !(o.slice.flight.Some? && o.slice.flight.value.at.AtSettle?) }

  lemma MoreLanded(subs: seq<Submission>, b: Submission, reply: Reply)
    requires ReplyOk(subs, reply)
    ensures ReplyOk(subs + [b], reply)
  {
    if reply.Read? && reply.settled && reply.tx.Some? {
      var i :| 0 <= i < |subs| && subs[i].fate == Landed(reply.tx.value);
      assert (subs + [b])[i].fate == Landed(reply.tx.value);
    }
  }

  /** Reads on their way stay true when a submission is added. */
  lemma SubmitPolls(o: Op, s: Slice, b: Submission)
    requires SeenOk(o) && o.seen.None? && s.polls == o.slice.polls
    ensures SeenOk(o.(slice := s, subs := o.subs + [b], log := o.log + [Submitted]))
  {
    forall k | k in o.pollSeen
      ensures ReplyOk(o.subs + [b], o.pollSeen[k])
    {
      MoreLanded(o.subs, b, o.pollSeen[k]);
    }
  }

  lemma SubmitKeeps(env: Env, id: Text, o: Op, s: Slice, fp: Text, r: Request)
    requires Inv(env, id, o.(slice := s.(flight := None))) && Quiet(o)
    requires AllDead(o.subs) && MaySubmit(o.log) && s.live.Some?
    requires r.binding == s.live.value.binding && r.payment == s.live.value.payment
    ensures Inv(env, id, MoveTo(o, Submit(s, fp, r)))
  {
    var q := o.(slice := s.(flight := None));
    DeadMeansUnpaid(q.slice, q.subs);
    assert PaymentOk(s, o.subs);
    SubmitPaymentOk(s, o.subs, fp, r);
    LogSubmission(o.log);
    SubmitMoves(o, s, fp, r);
    SubmitPolls(q, Submit(s, fp, r), Submission(r.binding, r.payment, Pending));
    if o.returned != [] {
      FirstReturned(o.returned, StoredReceipt(s.live));
    }
  }

  /** Suspending anywhere but at the settler changes nothing else. */
  lemma SuspendKeeps(env: Env, id: Text, o: Op, s: Slice)
    requires Inv(env, id, o.(slice := s.(flight := None))) && o.seen.None? && Flying(s)
    requires !s.flight.value.at.Done? && !s.flight.value.at.AtSettle?
    requires s.flight.value.at.AtTrust? || s.flight.value.at.AtPolicy? ==> AllDead(o.subs) && MaySubmit(o.log)
    requires s.flight.value.request.binding == s.live.value.binding && s.flight.value.request.payment == s.live.value.payment
    ensures Inv(env, id, MoveTo(o, s))
  {
    assert MoveTo(o, s) == o.(slice := s);
  }

  /** The flight fails, and nothing else has changed. */
  lemma StopKeeps(env: Env, id: Text, o: Op, s: Slice)
    requires Inv(env, id, o.(slice := s.(flight := None))) && o.seen.None?
    requires s.flight.Some? && s.flight.value.at.Done? && s.flight.value.at.outcome.Failed?
    ensures Inv(env, id, MoveTo(o, s))
  {
    assert MoveTo(o, s) == o.(slice := s);
  }

  lemma ValidateKeeps(env: Env, id: Text, o: Op, s: Slice, fp: Text, r: Request, session: Option<Session>)
    requires Inv(env, id, o.(slice := s.(flight := None))) && Quiet(o)
    requires AllDead(o.subs) && MaySubmit(o.log) && s.live.Some?
    requires r.binding == s.live.value.binding && r.payment == s.live.value.payment
    ensures Inv(env, id, MoveTo(o, Validate(s, fp, r, session)))
  {
    var v := Validate(s, fp, r, session);
    if v.flight.value.at.Done? {
      StopKeeps(env, id, o, v);
    } else if v.flight.value.at.AtSettle? {
      SubmitKeeps(env, id, o, s, fp, r);
    } else {
      SuspendKeeps(env, id, o, v);
    }
  }

  lemma BareKeeps(env: Env, id: Text, o: Op)
    requires Inv(env, id, o) && o.seen.None?
    ensures Inv(env, id, o.(slice := o.slice.(flight := None)))
  {
  }

  /** The first write: nothing was submitted before it, as the disk knew nothing. */
  lemma FirstPutKeeps(env: Env, id: Text, o: Op, r: Request)
    requires Inv(env, id, o) && o.slice.flight.None? && o.slice.live.None?
    requires o.slice.quote == Some(Quote(r.binding, env.digestOf(r.binding)))
    ensures Inv(env, id, o.(slice := FirstPut(o.slice, r, env.digestOf(r.binding)))) && o.subs == [] && MaySubmit(o.log)
  {
    NoSubmitsMaySubmit(o.log);
  }

  lemma FirstKeeps(env: Env, id: Text, o: Op, fp: Text, r: Request, session: Option<Session>)
    requires Inv(env, id, o) && o.slice.flight.None? && o.slice.live.None?
    requires o.slice.quote == Some(Quote(r.binding, env.digestOf(r.binding)))
    ensures Inv(env, id, MoveTo(o, Enter(FirstPut(o.slice, r, env.digestOf(r.binding)), fp, r, session, false)))
  {
    var s := FirstPut(o.slice, r, env.digestOf(r.binding));
    FirstPutKeeps(env, id, o, r);
    if r.payment.Stake? && session.None? {
      StopKeeps(env, id, o, Enter(s, fp, r, session, false));
    } else {
      ValidateKeeps(env, id, o, s, fp, r, session);
    }
  }

  /** A payment that was created, or may have been submitted. */
  lemma EnterKeeps(env: Env, id: Text, o: Op, fp: Text, r: Request, session: Option<Session>)
    requires Inv(env, id, o) && o.slice.flight.None? && o.slice.live.Some?
    requires var p := o.slice.live.value; p.binding == r.binding && p.payment == r.payment && p.receipt.None?
    requires !o.slice.live.value.state.Rejected?
    ensures var p := o.slice.live.value; var reconcile := p.state.Settling? || p.state.FailedRetryable?;
      Inv(env, id, MoveTo(o, Enter(o.slice, fp, r, session, reconcile)))
  {
    var p := o.slice.live.value;
    var reconcile := p.state.Settling? || p.state.FailedRetryable?;
    if r.payment.Stake? && session.None? {
      StopKeeps(env, id, o, Enter(o.slice, fp, r, session, reconcile));
    } else if reconcile {
      SuspendKeeps(env, id, o, Enter(o.slice, fp, r, session, reconcile));
    } else {
      NoSubmitsMaySubmit(o.log);
      ValidateKeeps(env, id, o, o.slice, fp, r, session);
    }
  }

  lemma ReenterKeeps(env: Env, id: Text, o: Op, fp: Text, r: Request, digest: Text, session: Option<Session>)
    requires Inv(env, id, o) && o.slice.flight.None? && o.slice.live.Some?
    ensures Inv(env, id, MoveTo(o, Reenter(o.slice, fp, r, digest, session)))
  {
    var s := o.slice;
    var p := s.live.value;
    if Conflict(p, r, digest).Some? || (p.receipt.None? && p.state.Rejected?) {
      StopKeeps(env, id, o, Reenter(s, fp, r, digest, session));
    } else if p.receipt.Some? {
      LandingKeeps(env, id, o, Reenter(s, fp, r, digest, session));
    } else {
      EnterKeeps(env, id, o, fp, r, session);
    }
  }

  lemma BeginKeeps(env: Env, id: Text, o: Op, fp: Text, r: Request, invalid: Option<Failure>, session: Option<Session>)
    requires Inv(env, id, o) && o.slice.flight.None? && r.binding.operationId == id
    ensures Inv(env, id, MoveTo(o, BeginSettle(o.slice, fp, r, env.digestOf(r.binding), invalid, session)))
  {
    var s, digest := o.slice, env.digestOf(r.binding);
    if invalid.Some? || QuoteFailure(s.quote, r, digest).Some? {
      StopKeeps(env, id, o, BeginSettle(s, fp, r, digest, invalid, session));
    } else if s.live.None? {
      FirstKeeps(env, id, o, fp, r, session);
    } else {
      ReenterKeeps(env, id, o, fp, r, digest, session);
    }
  }

  /** "Not settled": the payment may be submitted again. */
  lemma ClearedKeeps(env: Env, id: Text, o: Op, session: Option<Session>)
    requires Inv(env, id, o) && Flying(o.slice) && o.slice.flight.value.at.AtReconcile?
    requires o.seen.Some? && o.seen.value.Read? && !o.seen.value.settled
    ensures var Flight(fp, r, _) := o.slice.flight.value;
      Inv(env, id, MoveTo(o.(seen := None, log := o.log + [NotSettled]), Validate(o.slice, fp, r, session)))
  {
    var Flight(fp, r, _) := o.slice.flight.value;
    var q := o.(seen := None, log := o.log + [NotSettled]);
    LogClearance(o.log);
    BareKeeps(env, id, q);
    ValidateKeeps(env, id, q, o.slice, fp, r, session);
  }

  lemma ReconciledKeeps(env: Env, id: Text, o: Op, now: Time, session: Option<Session>)
    requires Inv(env, id, o) && Flying(o.slice) && o.slice.flight.value.at.AtReconcile? && o.seen.Some?
    ensures Inv(env, id, Resumed(o, now, session))
  {
    var s, reply := o.slice, o.seen.value;
    var Flight(fp, r, _) := s.flight.value;
    if reply.Read? && !reply.settled {
      ClearedKeeps(env, id, o, session);
    } else {
      if reply.Read? && reply.tx.Some? {
        RecordReceiptKeeps(s, o.subs, reply.tx.value, now);
      }
      LandingKeeps(env, id, o.(seen := None), AfterReconcile(s, reply, now, session));
    }
  }

  lemma TrustedKeeps(env: Env, id: Text, o: Op, trust: TrustReply)
    requires Inv(env, id, o) && Flying(o.slice) && o.slice.flight.value.at.AtTrust?
    ensures Inv(env, id, MoveTo(o, AfterTrust(o.slice, trust)))
  {
    BareKeeps(env, id, o);
    var t := AfterTrust(o.slice, trust);
    if t.flight.value.at.Done? {
      StopKeeps(env, id, o, t);
    } else {
      SuspendKeeps(env, id, o, t);
    }
  }

  lemma PolicyReadKeeps(env: Env, id: Text, o: Op, policy: PolicyReply, now: Time)
    requires Inv(env, id, o) && Flying(o.slice) && o.slice.flight.value.at.AtPolicy?
    ensures Inv(env, id, MoveTo(o, AfterPolicy(o.slice, policy, now)))
  {
    BareKeeps(env, id, o);
    var Flight(fp, r, _) := o.slice.flight.value;
    var t := AfterPolicy(o.slice, policy, now);
    if t.flight.value.at.Done? {
      StopKeeps(env, id, o, t);
    } else {
      SubmitKeeps(env, id, o, o.slice, fp, r);
    }
  }

  lemma SettleAnswersKeeps(env: Env, id: Text, o: Op, answer: SettleReply, now: Time)
    requires Inv(env, id, o) && Enabled(id, o, SettleAnswers(answer, now))
    ensures Inv(env, id, MoveTo(o, AfterSettle(o.slice, answer, now)))
  {
    var s := o.slice;
    if answer.SettledWith? {
      assert HasLanded(o.subs, answer.tx);
      RecordReceiptKeeps(s, o.subs, answer.tx, now);
    }
    LandingKeeps(env, id, o, AfterSettle(s, answer, now));
  }

  lemma PollDropKeeps(env: Env, id: Text, o: Op, k: nat)
    requires Inv(env, id, o) && o.slice.live.Some?
    ensures Inv(env, id, o.(slice := o.slice.(polls := o.slice.polls - {k}), pollSeen := o.pollSeen - {k}))
  {
  }

  lemma PollPaysKeeps(env: Env, id: Text, o: Op, tx: Tx, now: Time)
    requires Inv(env, id, o) && o.slice.live.Some? && HasLanded(o.subs, tx)
    ensures var (s, receipt) := RecordReceipt(o.slice, tx, now);
      Inv(env, id, o.(slice := s, returned := o.returned + [receipt]))
  {
    RecordReceiptKeeps(o.slice, o.subs, tx, now);
    assert o.returned != [] ==> Some(o.returned[0]) == StoredReceipt(o.slice.live);
  }

  lemma AnswerKeeps(env: Env, id: Text, o: Op)
    requires Inv(env, id, o) && o.slice.live.Some?
    ensures Inv(env, id, Answered(o, Some(StatusOf(o.slice.live.value))))
  {
  }

  lemma PollReturnsKeeps(env: Env, id: Text, o: Op, k: nat, now: Time)
    requires Inv(env, id, o) && k in o.pollSeen && o.slice.live.Some?
    ensures Inv(env, id, PollBack(o, k, now))
  {
    var q := o.(slice := o.slice.(polls := o.slice.polls - {k}), pollSeen := o.pollSeen - {k});
    PollDropKeeps(env, id, o, k);
    match o.pollSeen[k]
    case ReadFailed =>
      assert PollBack(o, k, now) == q;
    case Read(settled, tx) =>
      if settled && tx.Some? {
        PollPaysKeeps(env, id, q, tx.value, now);
      } else {
        AnswerKeeps(env, id, q);
      }
  }

  lemma QuotingKeeps(env: Env, id: Text, o: Op, b: Binding, invalid: Option<Failure>)
    requires Inv(env, id, o) && b.operationId == id
    ensures Inv(env, id, o.(slice := CreateQuote(o.slice, b, env.digestOf(b), invalid)))
  {
  }

  lemma FinallyKeeps(env: Env, id: Text, o: Op)
    requires Inv(env, id, o) && Enabled(id, o, Finally)
    ensures Inv(env, id, o.(slice := Release(o.slice)))
  {
  }

  lemma PollKeeps(env: Env, id: Text, o: Op, k: nat)
    requires Inv(env, id, o)
    ensures Inv(env, id, Polled(o, k))
  {
    if !NeedsReconcile(o.slice) && o.slice.live.Some? {
      AnswerKeeps(env, id, o);
    }
  }

  lemma PollReadsKeeps(env: Env, id: Text, o: Op, k: nat, reply: Reply)
    requires Inv(env, id, o) && Enabled(id, o, PollReads(k, reply))
    ensures Inv(env, id, o.(pollSeen := o.pollSeen[k := reply]))
  {
  }

  lemma StepKeeps(env: Env, id: Text, o: Op, step: Step)
    requires Inv(env, id, o) && Enabled(id, o, step)
    ensures Inv(env, id, Apply(env, id, o, step))
  {
    match step
    case Quoting(b, refused, now) => QuotingKeeps(env, id, o, b, InvalidBinding(env, b, refused, now));
    case Settle(fp, r, checks, session) =>
      if o.slice.flight.None? { BeginKeeps(env, id, o, fp, r, InvalidRequest(env, r, checks), session); }
    case Lands(i, tx) => EnvironmentKeeps(env, id, o, i, Landed(tx));
    case Dies(i) => EnvironmentKeeps(env, id, o, i, Dead);
    case SettleReads(reply) => ReadKeeps(env, id, o, reply);
    case Reconciled(now, session) => ReconciledKeeps(env, id, o, now, session);
    case Trusted(trust) => TrustedKeeps(env, id, o, trust);
    case PolicyRead(policy, now) => PolicyReadKeeps(env, id, o, policy, now);
    case SettleAnswers(answer, now) => SettleAnswersKeeps(env, id, o, answer, now);
    case Finally => FinallyKeeps(env, id, o);
    case Poll(k) => PollKeeps(env, id, o, k);
    case PollReads(k, reply) => PollReadsKeeps(env, id, o, k, reply);
    case PollReturns(k, now) => PollReturnsKeeps(env, id, o, k, now);
  }

  lemma CrashKeeps(env: Env, id: Text, o: Op)
    requires Inv(env, id, o)
    ensures Inv(env, id, Crash(o))
  {
  }

  lemma TurnKeeps(env: Env, id: Text, o: Op, t: Turn)
    requires Inv(env, id, o) && MayTurn(env, id, o, t)
    ensures Inv(env, id, Turned(env, id, o, t))
  {
    match t
    case Untouched =>
    case Stepped(step) => StepKeeps(env, id, o, step);
    case Crashed => CrashKeeps(env, id, o);
    case TornOff(r, _) =>
      FirstPutKeeps(env, id, o, r);
      CrashKeeps(env, id, TornPut(env, o, r));
  }

  lemma {:induction false} RunKeeps(env: Env, acts: seq<Action>, id: Text)
    requires Run(env, acts)
    ensures Inv(env, id, Get(After(env, acts), id))
    decreases |acts|
  {
    if acts == [] {
      assert Submits(FRESH.log) == 0;
    } else {
      LastTurn(env, acts, id);
      RunKeeps(env, acts[..|acts| - 1], id);
      TurnKeeps(env, id, Get(After(env, acts[..|acts| - 1]), id), TurnOf(id, acts[|acts| - 1]));
    }
  }
}
