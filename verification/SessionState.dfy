/** What `SessionPaymentService` does to one operation between two awaits
(packages/facilitator/src/session-service.ts), as functions on that operation's slice
of the service: its quote and payment, in memory and on disk, and the calls under way. */
module SessionState {
  import opened Wrappers
  import opened Canonical
  import opened Operation

  /** What the service's digests, dates and configuration make of a request. `dateOf` is
      `Date.parse`, with nothing for NaN; `quoteTtl` is in milliseconds. */
  datatype Env = Env(digestOf: Binding -> Text, dateOf: Text -> Option<Time>, quoteTtl: Time)

  datatype PayState = Created | Settling | Settled | FailedRetryable | Rejected

  /** `StoredPayment` as the payments file holds it. */
  datatype Stored = Stored(
    binding: Binding, digest: Text, payment: Payment, state: PayState, receipt: Option<Receipt>, error: Option<Text>)

  datatype Quote = Quote(binding: Binding, digest: Text)

  /** A stored session authorization; `scopeHash` is `sessionScopeHash` of it, `validUntil` in seconds. */
  datatype Session = Session(
    vault: Text, payerWallet: Text, payerSubject: Text, payTo: Text, asset: Text, network: Text, facilitator: Text,
    workspaceHash: Text, visibility: Text, allowedActions: seq<Text>,
    cap: int, ceiling: int, validUntil: int, epoch: int, scopeHash: Text)

  /** A vault's policy as the chain has it; `validUntil` in seconds. */
  datatype Policy = Policy(
    facilitator: Text, payTo: Text, cap: int, spent: int, ceiling: int, validUntil: int, epoch: int, scopeHash: Text,
    revoked: bool, fundedBalance: int)

  datatype Failure =
    | Refused(reason: Text)
    | QuoteExpired
    | QuoteExpiryTooLong
    | PayerWalletMismatch
    | OperationIdConflict
    | QuoteRequired
    | QuoteBindingMismatch
    | PaymentAuthorizationConflict
    | PaymentRejected(error: Option<Text>)
    | SessionNotFound
    | SettlementTxNotFound
    | UntrustedSessionVault
    | SessionBindingMismatch
    | SessionScopeViolation
    | OnchainPolicyMismatch
    | SessionNotFullyFunded
    | SessionRevoked
    | SessionExpired
    | OperationCeilingExceeded
    | SessionCapExceeded
    | InsufficientFundedBalance
    | ExactBindingMismatch
    | SettlementFailed(reason: Text)
    | DependencyThrew

  datatype Outcome = Paid(receipt: Receipt) | Failed(failure: Failure)

  /** Where `#settle` is suspended; `Done` until `finally` has removed the in-flight entry. */
  datatype Point = AtReconcile | AtTrust(session: Session) | AtPolicy(session: Session) | AtSettle | Done(outcome: Outcome)

  datatype Flight = Flight(fingerprint: Text, request: Request, at: Point)

  /** What `reconcile` answers. */
  datatype Reply = ReadFailed | Read(settled: bool, tx: Option<Tx>)

  /** What `isTrustedVault` and the policy reader answer. */
  datatype TrustReply = TrustThrew | Trust(trusted: bool)
  datatype PolicyReply = PolicyThrew | PolicyIs(policy: Policy)

  /** What the settler's `settle` answers. */
  datatype SettleReply = SettleThrew | SettledWith(tx: Tx) | Uncertain(reason: Text) | SettleRefused(reason: Text)

  /** What `getPaymentStatus` answers: the stored state and receipt. */
  datatype Status = Status(state: PayState, receipt: Option<Receipt>)

  datatype Slice = Slice(
    quote: Option<Quote>, fileQuote: Option<Quote>, live: Option<Stored>, file: Option<Stored>,
    flight: Option<Flight>, polls: set<nat>)

  // ---------------------------------------------------------------- checks

  function LowerUnit(u: Unit): Unit { if 65 <= u <= 90 then u + 32 else u }

  function Lower(s: Text): (t: Text)
    ensures |t| == |s|
  {
    seq(|s|, i requires 0 <= i < |s| => LowerUnit(s[i]))
  }

  predicate SameText(a: Text, b: Text) { Lower(a) == Lower(b) }

  function Unprefixed(t: Text): Text { if |t| >= 2 && t[0] == 48 && t[1] == 120 then t[2..] else t }

  predicate SameHex(a: Text, b: Text) { Unprefixed(Lower(a)) == Unprefixed(Lower(b)) }

  /** `BigInt` of a string of digits. */
  function Amount(t: Text): nat {
    if t == [] then 0
    else 10 * Amount(t[..|t| - 1]) + if 48 <= t[|t| - 1] < 58 then t[|t| - 1] as nat - 48 else 0
  }

  /** `#validateBinding`; `refused` is its verdict before it comes to the expiry. */
  function InvalidBinding(env: Env, b: Binding, refused: Option<Text>, now: Time): Option<Failure> {
    if refused.Some? then Some(Refused(refused.value))
    else
      match env.dateOf(b.expiresAt)
      case None => Some(QuoteExpired)
      case Some(expires) =>
        if expires <= now then Some(QuoteExpired)
        else if expires > now + env.quoteTtl then Some(QuoteExpiryTooLong)
        else None
  }

  /** The verdicts of `#validateBinding` before its expiry checks and of `#validatePayment`, and the clock. */
  datatype Checks = Checks(binding: Option<Text>, payment: Option<Text>, now: Time)

  /** What a settle call checks before it looks anything up. */
  function InvalidRequest(env: Env, r: Request, c: Checks): Option<Failure> {
    var invalid := InvalidBinding(env, r.binding, c.binding, c.now);
    if invalid.Some? then invalid
    else if c.payment.Some? then Some(Refused(c.payment.value))
    else if !SameText(r.payment.payerWallet, r.binding.payerWallet) then Some(PayerWalletMismatch)
    else None
  }

  /** `#validateExact` */
  predicate ExactMatches(r: Request)
    requires r.payment.Exact?
  {
    SameText(r.payment.from, r.binding.payerWallet) && SameText(r.payment.to, r.binding.payTo) &&
    r.payment.value == r.binding.amount
  }

  /** `#validateStake` between its two awaits. */
  predicate SessionPays(x: Session, b: Binding) {
    SameText(x.payerWallet, b.payerWallet) && x.payerSubject == b.payerSubject && SameText(x.payTo, b.payTo) &&
    SameText(x.asset, b.asset) && x.network == b.network
  }

  predicate ScopeAllows(x: Session, r: Request) {
    var scope, p := r.binding.scope, r.payment;
    p.Stake? && SameHex(x.workspaceHash, p.workspaceHash) && x.visibility == p.visibility && p.action in x.allowedActions &&
    SameHex(if scope.workspaceHash.Some? then scope.workspaceHash.value else [], p.workspaceHash) &&
    scope.visibility == p.visibility && scope.action == p.action
  }

  /** `#assertPolicy`, its first half. */
  predicate PolicyMatches(x: Session, p: Policy) {
    SameText(p.facilitator, x.facilitator) && SameText(p.payTo, x.payTo) && p.cap == x.cap && p.ceiling == x.ceiling &&
    p.validUntil == x.validUntil && p.epoch == x.epoch && SameText(p.scopeHash, x.scopeHash)
  }

  /** `#validateStake` after its second await. */
  function PolicyRefusal(x: Session, p: Policy, amount: int, now: Time): Option<Failure> {
    if !PolicyMatches(x, p) then Some(OnchainPolicyMismatch)
    else if p.fundedBalance < p.cap - p.spent then Some(SessionNotFullyFunded)
    else if p.revoked then Some(SessionRevoked)
    else if p.validUntil <= now / 1000 then Some(SessionExpired)
    else if amount > p.ceiling then Some(OperationCeilingExceeded)
    else if amount > p.cap - p.spent then Some(SessionCapExceeded)
    else if amount > p.fundedBalance then Some(InsufficientFundedBalance)
    else None
  }

  // ---------------------------------------------------------------- pieces

  function MakeReceipt(p: Stored, tx: Tx, now: Time): Receipt {
    Receipt(p.binding.operationId, p.payment.Stake?, p.digest, p.binding.payerWallet, p.binding.amount,
            p.binding.asset, p.binding.network, p.binding.payTo, tx, now)
  }

  function PutPayment(s: Slice, p: Stored): Slice { s.(live := Some(p), file := Some(p)) }

  function Fly(s: Slice, fp: Text, r: Request, at: Point): Slice { s.(flight := Some(Flight(fp, r, at))) }

  function Stop(s: Slice, fp: Text, r: Request, f: Failure): Slice { Fly(s, fp, r, Done(Failed(f))) }

  /** `#recordReceipt`: the first receipt stays. */
  function RecordReceipt(s: Slice, tx: Tx, now: Time): (r: (Slice, Receipt))
    requires s.live.Some?
  {
    var p := s.live.value;
    if p.receipt.Some? then (s, p.receipt.value)
    else
      var receipt := MakeReceipt(p, tx, now);
      (PutPayment(s, p.(state := Settled, receipt := Some(receipt), error := None)), receipt)
  }

  /** The state is made durable as `settling` before the settler is called. */
  function Submit(s: Slice, fp: Text, r: Request): Slice
    requires s.live.Some?
  {
    Fly(PutPayment(s, s.live.value.(state := Settling, error := None)), fp, r, AtSettle)
  }

  /** From the end of reconciliation to the next await; `session`: what the store has for the payment's session. */
  function Validate(s: Slice, fp: Text, r: Request, session: Option<Session>): Slice
    requires s.live.Some?
  {
    if r.payment.Stake? then
      if session.Some? then Fly(s, fp, r, AtTrust(session.value)) else Stop(s, fp, r, SessionNotFound)
    else if ExactMatches(r) then Submit(s, fp, r)
    else Stop(s, fp, r, ExactBindingMismatch)
  }

  // ---------------------------------------------------------------- the segments

  /** `createQuote`; `invalid`: the binding checks throw. */
  function CreateQuote(s: Slice, b: Binding, digest: Text, invalid: Option<Failure>): Slice {
    if invalid.Some? || s.quote.Some? then s
    else s.(quote := Some(Quote(b, digest)), fileQuote := Some(Quote(b, digest)))
  }

  // Canonical texts are compared here by comparing what they are the texts of.

  function QuoteFailure(quote: Option<Quote>, r: Request, digest: Text): Option<Failure> {
    if quote.None? then Some(QuoteRequired)
    else if quote.value.digest != digest || quote.value.binding != r.binding then Some(QuoteBindingMismatch)
    else None
  }

  function Conflict(p: Stored, r: Request, digest: Text): Option<Failure> {
    if p.digest != digest || p.binding != r.binding then Some(OperationIdConflict)
    else if p.payment != r.payment then Some(PaymentAuthorizationConflict)
    else None
  }

  /** The new payment is on disk before anything else happens. */
  function FirstPut(s: Slice, r: Request, digest: Text): Slice {
    PutPayment(s, Stored(r.binding, digest, r.payment, Created, None, None))
  }

  /** Building the settler's input looks the session up; then reconcile or go on. */
  function Enter(s: Slice, fp: Text, r: Request, session: Option<Session>, reconcile: bool): Slice
    requires s.live.Some?
  {
    if r.payment.Stake? && session.None? then Stop(s, fp, r, SessionNotFound)
    else if reconcile then Fly(s, fp, r, AtReconcile)
    else Validate(s, fp, r, session)
  }

  /** The operation has a payment record already. */
  function Reenter(s: Slice, fp: Text, r: Request, digest: Text, session: Option<Session>): Slice
    requires s.live.Some?
  {
    var p := s.live.value;
    var conflict := Conflict(p, r, digest);
    if conflict.Some? then Stop(s, fp, r, conflict.value)
    else if p.receipt.Some? then Fly(s, fp, r, Done(Paid(p.receipt.value)))
    else if p.state.Rejected? then Stop(s, fp, r, PaymentRejected(p.error))
    else Enter(s, fp, r, session, p.state.Settling? || p.state.FailedRetryable?)
  }

  /** A fresh `#settle` up to its first await; `invalid`: the request checks throw. */
  function BeginSettle(
      s: Slice, fp: Text, r: Request, digest: Text, invalid: Option<Failure>, session: Option<Session>): Slice
  {
    var failure := if invalid.Some? then invalid else QuoteFailure(s.quote, r, digest);
    if failure.Some? then Stop(s, fp, r, failure.value)
    else if s.live.None? then Enter(FirstPut(s, r, digest), fp, r, session, false)
    else Reenter(s, fp, r, digest, session)
  }

  /** A settle call is under way for a stored payment. */
  predicate Flying(s: Slice) { s.live.Some? && s.flight.Some? }

  function AfterReconcile(s: Slice, reply: Reply, now: Time, session: Option<Session>): Slice
    requires Flying(s)
  {
    var Flight(fp, r, _) := s.flight.value;
    match reply
    case ReadFailed => Stop(s, fp, r, DependencyThrew)
    case Read(settled, tx) =>
      if settled && tx.Some? then
        var (t, receipt) := RecordReceipt(s, tx.value, now);
        Fly(t, fp, r, Done(Paid(receipt)))
      else if settled then Stop(s, fp, r, SettlementTxNotFound)
      else Validate(s, fp, r, session)
  }

  function AfterTrust(s: Slice, reply: TrustReply): Slice
    requires Flying(s) && s.flight.value.at.AtTrust?
  {
    var Flight(fp, r, AtTrust(x)) := s.flight.value;
    match reply
    case TrustThrew => Stop(s, fp, r, DependencyThrew)
    case Trust(trusted) =>
      if !trusted then Stop(s, fp, r, UntrustedSessionVault)
      else if !SessionPays(x, r.binding) then Stop(s, fp, r, SessionBindingMismatch)
      else if !ScopeAllows(x, r) then Stop(s, fp, r, SessionScopeViolation)
      else Fly(s, fp, r, AtPolicy(x))
  }

  function AfterPolicy(s: Slice, reply: PolicyReply, now: Time): Slice
    requires Flying(s) && s.flight.value.at.AtPolicy?
  {
    var Flight(fp, r, AtPolicy(x)) := s.flight.value;
    match reply
    case PolicyThrew => Stop(s, fp, r, DependencyThrew)
    case PolicyIs(p) =>
      var refusal := PolicyRefusal(x, p, Amount(r.binding.amount), now);
      if refusal.Some? then Stop(s, fp, r, refusal.value) else Submit(s, fp, r)
  }

  function AfterSettle(s: Slice, reply: SettleReply, now: Time): Slice
    requires Flying(s)
  {
    var Flight(fp, r, _) := s.flight.value;
    match reply
    case SettleThrew => Stop(s, fp, r, DependencyThrew)
    case SettledWith(tx) =>
      var (t, receipt) := RecordReceipt(s, tx, now);
      Fly(t, fp, r, Done(Paid(receipt)))
    case Uncertain(reason) =>
      Stop(PutPayment(s, s.live.value.(state := FailedRetryable, error := Some(reason))), fp, r, SettlementFailed(reason))
    case SettleRefused(reason) =>
      Stop(PutPayment(s, s.live.value.(state := Rejected, error := Some(reason))), fp, r, SettlementFailed(reason))
  }

  /** The `finally` of `settle`. */
  function Release(s: Slice): Slice { s.(flight := None) }

  predicate NeedsReconcile(s: Slice) {
    s.live.Some? && (s.live.value.state.Settling? || s.live.value.state.FailedRetryable?)
  }

  function StatusOf(p: Stored): Status { Status(p.state, p.receipt) }

  /** `getPaymentStatus` resumed with the answer of `reconcile`; None when it throws. */
  function AfterPoll(s: Slice, id: nat, reply: Reply, now: Time): (r: (Slice, Option<Status>))
    requires s.live.Some?
  {
    var t := s.(polls := s.polls - {id});
    match reply
    case ReadFailed => (t, None)
    case Read(settled, tx) =>
      if settled && tx.Some? then
        var (u, receipt) := RecordReceipt(t, tx.value, now);
        (u, Some(Status(Settled, Some(receipt))))
      else (t, Some(StatusOf(t.live.value)))
  }

  /** A restart keeps what is on disk and nothing else. */
  function Restart(s: Slice): Slice {
    Slice(s.fileQuote, s.fileQuote, s.file, s.file, None, {})
  }
}
