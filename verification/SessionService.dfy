/** `SessionPaymentService` and `FilePaymentStore` as objects: the store hands out its live
payment records, which suspended calls change in place. Each method is the code between
two awaits and moves one operation's slice as `SessionState` says. */
module SessionService {
  import opened Wrappers
  import opened Canonical
  import opened Operation
  import State = SessionState
  import opened SessionState

  class StoredPayment {
    const binding: Binding
    const digest: Text
    const payment: Payment
    var state: PayState
    var receipt: Option<Receipt>
    var error: Option<Text>

    constructor (binding: Binding, digest: Text, payment: Payment)
      ensures this.binding == binding && this.digest == digest && this.payment == payment
      ensures state == Created && receipt == None && error == None
    {
      this.binding, this.digest, this.payment := binding, digest, payment;
      state, receipt, error := Created, None, None;
    }

    /** The record as `JSON.stringify` writes it. */
    function Value(): Stored
      reads this
    {
      Stored(binding, digest, payment, state, receipt, error)
    }
  }

  class FilePaymentStore {
    var quotes: map<Text, Quote>
    var payments: map<Text, StoredPayment>
    // the file
    var fileQuotes: map<Text, Quote>
    var filePayments: map<Text, Stored>

    ghost predicate Valid()
      reads this
    {
      forall a, b :: a in payments && b in payments && a != b ==> payments[a] != payments[b]
    }

    constructor ()
      ensures Valid() && payments == map[] && quotes == map[] && fileQuotes == map[] && filePayments == map[]
    {
      quotes, payments, fileQuotes, filePayments := map[], map[], map[], map[];
    }

    function Snapshot(): map<Text, Stored>
      reads this, payments.Values
    {
      map id | id in payments :: payments[id].Value()
    }

    /** The live object, not a copy. */
    method GetPayment(id: Text) returns (p: StoredPayment?)
      ensures p == if id in payments then payments[id] else null
    {
      p := if id in payments then payments[id] else null;
    }

    /** Everything is written: one atomic rename. */
    method Persist()
      modifies this`fileQuotes, this`filePayments
      ensures fileQuotes == quotes && filePayments == Snapshot()
    {
      fileQuotes, filePayments := quotes, Snapshot();
    }

    method PutPayment(id: Text, p: StoredPayment)
      requires Valid() && forall k :: k in payments && payments[k] == p ==> k == id
      modifies this
      ensures Valid() && payments == old(payments)[id := p] && quotes == old(quotes)
      ensures fileQuotes == quotes && filePayments == Snapshot()
    {
      payments := payments[id := p];
      Persist();
    }

    method PutQuote(id: Text, q: Quote)
      requires Valid()
      modifies this
      ensures Valid() && payments == old(payments) && quotes == old(quotes)[id := q]
      ensures fileQuotes == quotes && filePayments == Snapshot()
    {
      quotes := quotes[id := q];
      Persist();
    }

    /** A new process parses the file into new objects. */
    method Reload()
      modifies this
      ensures Valid() && fileQuotes == old(fileQuotes) && filePayments == old(filePayments)
      ensures quotes == fileQuotes && filePayments == Snapshot() && fresh(payments.Values)
    {
      quotes, payments := fileQuotes, map[];
      var left := filePayments.Keys;
      while left != {}
        invariant Valid() && fileQuotes == old(fileQuotes) && filePayments == old(filePayments) && quotes == fileQuotes
        invariant left <= filePayments.Keys && payments.Keys == filePayments.Keys - left
        invariant forall id :: id in payments ==> fresh(payments[id])
        invariant forall id :: id in payments ==> payments[id].Value() == filePayments[id]
        decreases |left|
      {
        var id :| id in left;
        var s := filePayments[id];
        var p := new StoredPayment(s.binding, s.digest, s.payment);
        p.state, p.receipt, p.error := s.state, s.receipt, s.error;
        payments := payments[id := p];
        left := left - {id};
      }
    }
  }

  /** An in-flight entry with the suspended `#settle`, which holds `stored`. */
  datatype InFlight = InFlight(fingerprint: Text, request: Request, at: Point, stored: StoredPayment?)

  /** A suspended `getPaymentStatus`. */
  datatype Polling = Polling(id: Text, stored: StoredPayment)

  /** The quote checks; they compare canonical texts. */
  method CheckQuote(quote: Option<Quote>, r: Request, digest: Text) returns (failure: Option<Failure>)
    ensures failure == QuoteFailure(quote, r, digest)
  {
    if quote.None? { return Some(QuoteRequired); }
    BindingTextIsInjective(quote.value.binding, r.binding);
    if quote.value.digest != digest || BindingText(quote.value.binding) != BindingText(r.binding) {
      return Some(QuoteBindingMismatch);
    }
    return None;
  }

  /** The conflict checks, which compare canonical texts too. */
  method CheckConflict(p: StoredPayment, r: Request, digest: Text) returns (failure: Option<Failure>)
    ensures failure == State.Conflict(p.Value(), r, digest)
  {
    BindingTextIsInjective(p.binding, r.binding);
    if p.digest != digest || BindingText(p.binding) != BindingText(r.binding) {
      return Some(OperationIdConflict);
    }
    PaymentTextIsInjective(p.payment, r.payment);
    if PaymentText(p.payment) != PaymentText(r.payment) {
      return Some(PaymentAuthorizationConflict);
    }
    return None;
  }

  datatype Joined = Conflict | Running | Started

  class SessionPaymentService {
    const store: FilePaymentStore
    const env: Env
    var inflight: map<Text, InFlight>
    var polls: map<nat, Polling>

    /** A suspended call holds the record the store holds, and nothing is left unsaved. */
    ghost predicate Valid()
      reads this, store, store.payments.Values
    {
      store.Valid() && store.fileQuotes == store.quotes && store.filePayments == store.Snapshot() &&
      (forall id :: id in inflight && !inflight[id].at.Done? ==>
        id in store.payments && inflight[id].stored == store.payments[id]) &&
      (forall k :: k in polls ==> polls[k].id in store.payments && polls[k].stored == store.payments[polls[k].id])
    }

    ghost function View(id: Text): Slice
      reads this, store, store.payments.Values
    {
      Slice(if id in store.quotes then Some(store.quotes[id]) else None,
            if id in store.fileQuotes then Some(store.fileQuotes[id]) else None,
            if id in store.payments then Some(store.payments[id].Value()) else None,
            if id in store.filePayments then Some(store.filePayments[id]) else None,
            if id in inflight then Some(Flight(inflight[id].fingerprint, inflight[id].request, inflight[id].at)) else None,
            set k | k in polls && polls[k].id == id)
    }

    twostate predicate OthersKept(id: Text)
      reads this, store, store.payments.Values
    {
      forall other: Text :: other != id ==> View(other) == old(View(other))
    }

    constructor (store: FilePaymentStore, env: Env)
      requires store.Valid() && store.fileQuotes == store.quotes && store.filePayments == store.Snapshot()
      ensures Valid() && this.store == store && this.env == env && inflight == map[] && polls == map[]
    {
      this.store, this.env := store, env;
      inflight, polls := map[], map[];
    }

    // -------------------------------------------------------------- quotes

    /** `#validateBinding`, from the expiry on. */
    method ValidateBinding(b: Binding, refused: Option<Text>, now: Time) returns (invalid: Option<Failure>)
      ensures invalid == InvalidBinding(env, b, refused, now)
    {
      if refused.Some? { return Some(Refused(refused.value)); }
      var expires := env.dateOf(b.expiresAt);
      if expires.None? || expires.value <= now { return Some(QuoteExpired); }
      if expires.value > now + env.quoteTtl { return Some(QuoteExpiryTooLong); }
      return None;
    }

    method CreateQuote(b: Binding, refused: Option<Text>, now: Time) returns (r: Result<Quote, Failure>)
      requires Valid()
      modifies store
      ensures Valid() && OthersKept(b.operationId)
      ensures View(b.operationId) == State.CreateQuote(old(View(b.operationId)), b, env.digestOf(b), InvalidBinding(env, b, refused, now))
      ensures var quote := old(View(b.operationId)).quote;
        var invalid := InvalidBinding(env, b, refused, now);
        r == if invalid.Some? then Err(invalid.value)
             else if quote.Some? && quote.value.digest != env.digestOf(b) then Err(OperationIdConflict)
             else Ok(Quote(b, env.digestOf(b)))
      ensures r.Ok? ==> View(b.operationId).quote.Some? && View(b.operationId).quote.value.digest == env.digestOf(b)
    {
      var invalid := ValidateBinding(b, refused, now);
      if invalid.Some? { return Err(invalid.value); }
      var id, digest := b.operationId, env.digestOf(b);
      if id in store.quotes {
        if store.quotes[id].digest != digest { return Err(OperationIdConflict); }
      } else {
        store.PutQuote(id, Quote(b, digest));
      }
      return Ok(Quote(b, digest));
    }

    // -------------------------------------------------------------- settle

    method Park(id: Text, fp: Text, r: Request, p: StoredPayment?, at: Point)
      requires Valid() && (!at.Done? ==> id in store.payments && store.payments[id] == p)
      modifies this`inflight
      ensures Valid() && OthersKept(id) && View(id) == Fly(old(View(id)), fp, r, at)
    {
      inflight := inflight[id := InFlight(fp, r, at, p)];
    }

    method ValidateRequest(r: Request, checks: Checks) returns (invalid: Option<Failure>)
      ensures invalid == InvalidRequest(env, r, checks)
    {
      invalid := ValidateBinding(r.binding, checks.binding, checks.now);
      if invalid.Some? { return; }
      if checks.payment.Some? { return Some(Refused(checks.payment.value)); }
      if !SameText(r.payment.payerWallet, r.binding.payerWallet) { return Some(PayerWalletMismatch); }
      return None;
    }

    method CreatePayment(id: Text, r: Request, digest: Text) returns (p: StoredPayment)
      requires Valid() && id !in store.payments
      modifies store
      ensures Valid() && OthersKept(id) && fresh(p) && store.payments == old(store.payments)[id := p]
      ensures View(id) == FirstPut(old(View(id)), r, digest)
    {
      p := new StoredPayment(r.binding, digest, r.payment);
      store.PutPayment(id, p);
    }

    /** Changes the live record in place and saves the store. */
    method Change(id: Text, p: StoredPayment, state: PayState, receipt: Option<Receipt>, error: Option<Text>)
      requires Valid() && id in store.payments && store.payments[id] == p
      modifies store, p
      ensures Valid() && OthersKept(id) && store.payments == old(store.payments)
      ensures var s := old(View(id));
        View(id) == PutPayment(s, s.live.value.(state := state, receipt := receipt, error := error))
    {
      p.state, p.receipt, p.error := state, receipt, error;
      store.PutPayment(id, p);
    }

    /** Durable as `settling` first, then suspended at the settler. */
    method SubmitPayment(id: Text, fp: Text, r: Request, p: StoredPayment)
      requires Valid() && id in store.payments && store.payments[id] == p
      modifies this, store, p
      ensures Valid() && OthersKept(id) && store.payments == old(store.payments)
      ensures View(id) == Submit(old(View(id)), fp, r)
    {
      Change(id, p, Settling, p.receipt, None);
      Park(id, fp, r, p, AtSettle);
    }

    method ValidatePayment(id: Text, fp: Text, r: Request, p: StoredPayment, session: Option<Session>)
      requires Valid() && id in store.payments && store.payments[id] == p
      modifies this, store, p
      ensures Valid() && OthersKept(id) && store.payments == old(store.payments)
      ensures View(id) == Validate(old(View(id)), fp, r, session)
    {
      if r.payment.Stake? {
        Park(id, fp, r, p, if session.Some? then AtTrust(session.value) else Done(Failed(SessionNotFound)));
      } else if ExactMatches(r) {
        SubmitPayment(id, fp, r, p);
      } else {
        Park(id, fp, r, p, Done(Failed(ExactBindingMismatch)));
      }
    }

    method EnterSettle(id: Text, fp: Text, r: Request, p: StoredPayment, session: Option<Session>, reconcile: bool)
      requires Valid() && id in store.payments && store.payments[id] == p
      modifies this, store, p
      ensures Valid() && OthersKept(id) && store.payments == old(store.payments)
      ensures View(id) == Enter(old(View(id)), fp, r, session, reconcile)
    {
      if r.payment.Stake? && session.None? {
        Park(id, fp, r, p, Done(Failed(SessionNotFound)));
      } else if reconcile {
        Park(id, fp, r, p, AtReconcile);
      } else {
        ValidatePayment(id, fp, r, p, session);
      }
    }

    method BeginFirst(id: Text, fp: Text, r: Request, digest: Text, session: Option<Session>)
      requires Valid() && id !in store.payments
      modifies this, store
      ensures Valid() && OthersKept(id) && fresh(store.payments.Values - old(store.payments.Values))
      ensures View(id) ==
        Enter(FirstPut(old(View(id)), r, digest), fp, r, session, false)
    {
      var p := CreatePayment(id, r, digest);
      EnterSettle(id, fp, r, p, session, false);
    }

    /** A conflict, a stored receipt or a rejection answers the call at once. */
    method AlreadyDecided(p: StoredPayment, r: Request, digest: Text) returns (outcome: Option<Outcome>)
      ensures var conflict := State.Conflict(p.Value(), r, digest);
        outcome == if conflict.Some? then Some(Failed(conflict.value))
                   else if p.receipt.Some? then Some(Paid(p.receipt.value))
                   else if p.state.Rejected? then Some(Failed(PaymentRejected(p.error)))
                   else None
    {
      var conflict := CheckConflict(p, r, digest);
      if conflict.Some? { return Some(Failed(conflict.value)); }
      if p.receipt.Some? { return Some(Paid(p.receipt.value)); }
      if p.state.Rejected? { return Some(Failed(PaymentRejected(p.error))); }
      return None;
    }

    method BeginAgain(id: Text, fp: Text, r: Request, digest: Text, p: StoredPayment, session: Option<Session>)
      requires Valid() && id in store.payments && store.payments[id] == p
      modifies this, store, p
      ensures Valid() && OthersKept(id) && store.payments == old(store.payments)
      ensures View(id) == Reenter(old(View(id)), fp, r, digest, session)
    {
      var known := AlreadyDecided(p, r, digest);
      if known.Some? {
        Park(id, fp, r, p, Done(known.value));
      } else {
        EnterSettle(id, fp, r, p, session, p.state.Settling? || p.state.FailedRetryable?);
      }
    }

    method BeginQuoted(id: Text, fp: Text, r: Request, digest: Text, session: Option<Session>)
      requires Valid() && id !in inflight
      modifies this, store, store.payments.Values
      ensures Valid() && OthersKept(id) && fresh(store.payments.Values - old(store.payments.Values))
      ensures View(id) == var s := old(View(id));
        if s.live.None? then
          Enter(FirstPut(s, r, digest), fp, r, session, false)
        else Reenter(s, fp, r, digest, session)
    {
      var stored := store.GetPayment(id);
      if stored == null {
        BeginFirst(id, fp, r, digest, session);
      } else {
        BeginAgain(id, fp, r, digest, stored, session);
      }
    }

    /** Everything a settle call checks before it looks for its payment. */
    method Screen(r: Request, digest: Text, checks: Checks) returns (failure: Option<Failure>)
      ensures var invalid := InvalidRequest(env, r, checks); var id := r.binding.operationId;
        failure == if invalid.Some? then invalid
                   else QuoteFailure(if id in store.quotes then Some(store.quotes[id]) else None, r, digest)
    {
      failure := ValidateRequest(r, checks);
      if failure.None? {
        var id := r.binding.operationId;
        failure := CheckQuote(if id in store.quotes then Some(store.quotes[id]) else None, r, digest);
      }
    }

    method Begin(fp: Text, r: Request, checks: Checks, session: Option<Session>)
      requires Valid() && r.binding.operationId !in inflight
      modifies this, store, store.payments.Values
      ensures Valid() && OthersKept(r.binding.operationId) && fresh(store.payments.Values - old(store.payments.Values))
      ensures View(r.binding.operationId) ==
              BeginSettle(old(View(r.binding.operationId)), fp, r, env.digestOf(r.binding), InvalidRequest(env, r, checks), session)
    {
      var id, digest := r.binding.operationId, env.digestOf(r.binding);
      var failure := Screen(r, digest, checks);
      if failure.Some? {
        Park(id, fp, r, null, Done(Failed(failure.value)));
        return;
      }
      BeginQuoted(id, fp, r, digest, session);
    }

    method Settle(fp: Text, r: Request, checks: Checks, session: Option<Session>) returns (joined: Joined)
      requires Valid()
      modifies this, store, store.payments.Values
      ensures Valid() && OthersKept(r.binding.operationId) && fresh(store.payments.Values - old(store.payments.Values))
      ensures var s := old(View(r.binding.operationId));
        if s.flight.Some? then
          View(r.binding.operationId) == s && joined == if s.flight.value.fingerprint == fp then Running else Conflict
        else
          joined.Started? &&
          View(r.binding.operationId) == BeginSettle(s, fp, r, env.digestOf(r.binding), InvalidRequest(env, r, checks), session)
    {
      var id := r.binding.operationId;
      if id in inflight {
        joined := if inflight[id].fingerprint != fp then Conflict else Running;
      } else {
        Begin(fp, r, checks, session);
        joined := Started;
      }
    }

    /** `#recordReceipt` */
    method Record(id: Text, p: StoredPayment, tx: Tx, now: Time) returns (receipt: Receipt)
      requires Valid() && id in store.payments && store.payments[id] == p
      modifies store, p
      ensures Valid() && OthersKept(id) && store.payments == old(store.payments)
      ensures (View(id), receipt) == RecordReceipt(old(View(id)), tx, now)
    {
      if p.receipt.Some? { return p.receipt.value; }
      receipt := MakeReceipt(p.Value(), tx, now);
      Change(id, p, Settled, Some(receipt), None);
    }

    method ResumeReconcile(id: Text, reply: Reply, now: Time, session: Option<Session>)
      requires Valid() && Flying(View(id)) && View(id).flight.value.at.AtReconcile?
      modifies this, store, store.payments.Values
      ensures Valid() && OthersKept(id) && store.payments == old(store.payments)
      ensures View(id) == AfterReconcile(old(View(id)), reply, now, session)
    {
      var InFlight(fp, r, _, p) := inflight[id];
      match reply
      case ReadFailed => Park(id, fp, r, p, Done(Failed(DependencyThrew)));
      case Read(settled, tx) =>
        if settled && tx.Some? {
          var receipt := Record(id, p, tx.value, now);
          Park(id, fp, r, p, Done(Paid(receipt)));
        } else if settled {
          Park(id, fp, r, p, Done(Failed(SettlementTxNotFound)));
        } else {
          ValidatePayment(id, fp, r, p, session);
        }
    }

    /** `#validateStake`, after the vault check. */
    method ResumeTrust(id: Text, reply: TrustReply)
      requires Valid() && Flying(View(id)) && View(id).flight.value.at.AtTrust?
      modifies this`inflight
      ensures Valid() && OthersKept(id)
      ensures View(id) == AfterTrust(old(View(id)), reply)
    {
      var InFlight(fp, r, AtTrust(x), p) := inflight[id];
      var at := AtPolicy(x);
      if reply.TrustThrew? {
        at := Done(Failed(DependencyThrew));
      } else if !reply.trusted {
        at := Done(Failed(UntrustedSessionVault));
      } else if !SessionPays(x, r.binding) {
        at := Done(Failed(SessionBindingMismatch));
      } else if !ScopeAllows(x, r) {
        at := Done(Failed(SessionScopeViolation));
      }
      Park(id, fp, r, p, at);
    }

    /** `#validateStake`, after the policy has been read. */
    method CheckPolicy(x: Session, p: Policy, amount: int, now: Time) returns (refusal: Option<Failure>)
      ensures refusal == PolicyRefusal(x, p, amount, now)
    {
      if !PolicyMatches(x, p) { return Some(OnchainPolicyMismatch); }
      if p.fundedBalance < p.cap - p.spent { return Some(SessionNotFullyFunded); }
      if p.revoked { return Some(SessionRevoked); }
      if p.validUntil <= now / 1000 { return Some(SessionExpired); }
      if amount > p.ceiling { return Some(OperationCeilingExceeded); }
      if amount > p.cap - p.spent { return Some(SessionCapExceeded); }
      if amount > p.fundedBalance { return Some(InsufficientFundedBalance); }
      return None;
    }

    method ResumePolicy(id: Text, reply: PolicyReply, now: Time)
      requires Valid() && Flying(View(id)) && View(id).flight.value.at.AtPolicy?
      modifies this, store, store.payments.Values
      ensures Valid() && OthersKept(id) && store.payments == old(store.payments)
      ensures View(id) == AfterPolicy(old(View(id)), reply, now)
    {
      var InFlight(fp, r, AtPolicy(x), p) := inflight[id];
      if reply.PolicyThrew? {
        Park(id, fp, r, p, Done(Failed(DependencyThrew)));
        return;
      }
      var refusal := CheckPolicy(x, reply.policy, Amount(r.binding.amount), now);
      if refusal.Some? {
        Park(id, fp, r, p, Done(Failed(refusal.value)));
      } else {
        SubmitPayment(id, fp, r, p);
      }
    }

    method FailPayment(id: Text, fp: Text, r: Request, p: StoredPayment, state: PayState, reason: Text)
      requires Valid() && id in store.payments && store.payments[id] == p
      modifies this, store, p
      ensures Valid() && OthersKept(id) && store.payments == old(store.payments)
      ensures var s := old(View(id));
        View(id) == Stop(PutPayment(s, s.live.value.(state := state, error := Some(reason))), fp, r, SettlementFailed(reason))
    {
      Change(id, p, state, p.receipt, Some(reason));
      Park(id, fp, r, p, Done(Failed(SettlementFailed(reason))));
    }

    method ResumeSettle(id: Text, reply: SettleReply, now: Time)
      requires Valid() && Flying(View(id)) && View(id).flight.value.at.AtSettle?
      modifies this, store, store.payments.Values
      ensures Valid() && OthersKept(id) && store.payments == old(store.payments)
      ensures View(id) == AfterSettle(old(View(id)), reply, now)
    {
      var InFlight(fp, r, _, p) := inflight[id];
      match reply
      case SettleThrew => Park(id, fp, r, p, Done(Failed(DependencyThrew)));
      case SettledWith(tx) =>
        var receipt := Record(id, p, tx, now);
        Park(id, fp, r, p, Done(Paid(receipt)));
      case Uncertain(reason) => FailPayment(id, fp, r, p, FailedRetryable, reason);
      case SettleRefused(reason) => FailPayment(id, fp, r, p, Rejected, reason);
    }

    /** The `finally` clean-up. */
    method Finish(id: Text)
      requires Valid() && View(id).flight.Some? && View(id).flight.value.at.Done?
      modifies this`inflight
      ensures Valid() && OthersKept(id) && View(id) == Release(old(View(id)))
    {
      inflight := inflight - {id};
    }

    // -------------------------------------------------------------- status polls

    method AddPoll(id: Text, k: nat, p: StoredPayment)
      requires Valid() && k !in polls && id in store.payments && store.payments[id] == p
      modifies this`polls
      ensures Valid() && OthersKept(id) && View(id) == old(View(id)).(polls := old(View(id)).polls + {k})
    {
      polls := polls[k := Polling(id, p)];
    }

    method GetPaymentStatus(id: Text, k: nat) returns (status: Option<Status>)
      requires Valid() && k !in polls
      modifies this`polls
      ensures Valid() && OthersKept(id)
      ensures var s := old(View(id));
        if NeedsReconcile(s) then status.None? && View(id) == s.(polls := s.polls + {k})
        else View(id) == s && status == if s.live.Some? then Some(StatusOf(s.live.value)) else None
      ensures var s := old(View(id));
        status.Some? ==> s.live.Some? && status.value == Status(s.live.value.state, s.live.value.receipt)
    {
      var p := store.GetPayment(id);
      if p == null { return None; }
      if p.state.Settling? || p.state.FailedRetryable? {
        AddPoll(id, k, p);
        return None;
      }
      return Some(Status(p.state, p.receipt));
    }

    method DropPoll(k: nat)
      requires Valid() && k in polls
      modifies this`polls
      ensures Valid() && OthersKept(old(polls[k].id))
      ensures var id := old(polls[k].id); View(id) == old(View(id)).(polls := old(View(id)).polls - {k})
    {
      polls := polls - {k};
    }

    method ResumePoll(k: nat, reply: Reply, now: Time) returns (status: Option<Status>)
      requires Valid() && k in polls
      modifies this, store, store.payments.Values
      ensures Valid() && OthersKept(old(polls[k].id)) && store.payments == old(store.payments)
      ensures (View(old(polls[k].id)), status) == AfterPoll(old(View(polls[k].id)), k, reply, now)
      ensures status == if reply.ReadFailed? then None
                        else if reply.settled && reply.tx.Some? then Some(Status(Settled, View(old(polls[k].id)).live.value.receipt))
                        else Some(Status(View(old(polls[k].id)).live.value.state, View(old(polls[k].id)).live.value.receipt))
    {
      var Polling(id, p) := polls[k];
      DropPoll(k);
      match reply
      case ReadFailed => return None;
      case Read(settled, tx) =>
        if settled && tx.Some? {
          var receipt := Record(id, p, tx.value, now);
          return Some(Status(Settled, Some(receipt)));
        }
        return Some(Status(p.state, p.receipt));
    }

    // -------------------------------------------------------------- restart

    /** Everything in memory is gone; the file is read again. */
    method RestartService()
      modifies this, store
      requires Valid()
      ensures Valid() && forall id: Text :: View(id) == Restart(old(View(id)))
    {
      inflight, polls := map[], map[];
      store.Reload();
    }
  }
}
