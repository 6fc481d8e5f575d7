/** The service, its clients, its clock, the chain and restarts as one transition system.

Every step of `SessionState` may interleave with every other at an await, and the process may
die between any two of them or between the two writes of one. A submission handed to a settler
may land on chain or never land, at any later time and whatever the settler answered; one that
never lands also stands for a crash just before the settler was reached. Two things are assumed
of the chain: reads are truthful, and when the reconcile of a settle call reads it, every earlier
submission has landed or never will. */
module SessionProtocol {
  import opened Wrappers
  import opened Canonical
  import opened Operation
  import opened SessionState

  datatype Fate = Pending | Landed(tx: Tx) | Dead
  datatype Submission = Submission(binding: Binding, payment: Payment, fate: Fate)
  datatype Event = Submitted | NotSettled

  /** One operation. `seen` and `pollSeen` are chain reads whose answer is still on its way;
      `log` and `returned` record what happened and which receipts callers were given. */
  datatype Op = Op(slice: Slice, subs: seq<Submission>, seen: Option<Reply>, pollSeen: map<nat, Reply>,
                   log: seq<Event>, returned: seq<Receipt>)

  const FRESH := Op(Slice(None, None, None, None, None, {}), [], None, map[], [], [])

  datatype Step =
    | Quoting(binding: Binding, refused: Option<Text>, now: Time)
    | Settle(fp: Text, request: Request, checks: Checks, session: Option<Session>)
    | Lands(i: nat, tx: Tx)
    | Dies(i: nat)
    | SettleReads(reply: Reply)
    | Reconciled(now: Time, session: Option<Session>)
    | Trusted(trust: TrustReply)
    | PolicyRead(policy: PolicyReply, now: Time)
    | SettleAnswers(answer: SettleReply, now: Time)
    | Finally
    | Poll(id: nat)
    | PollReads(id: nat, reply: Reply)
    | PollReturns(id: nat, now: Time)

  // ---------------------------------------------------------------- the chain

  predicate HasLanded(subs: seq<Submission>, tx: Tx) {
    exists i :: 0 <= i < |subs| && subs[i].fate == Landed(tx)
  }

  predicate AnyLanded(subs: seq<Submission>) {
    exists i :: 0 <= i < |subs| && subs[i].fate.Landed?
  }

  predicate AllDead(subs: seq<Submission>) {
    forall i :: 0 <= i < |subs| ==> subs[i].fate.Dead?
  }

  predicate Decided(subs: seq<Submission>) {
    forall i :: 0 <= i < |subs| ==> !subs[i].fate.Pending?
  }

  /** `settled` says whether a submission landed; a transaction named is one that did.
      The log search may come back without a transaction. */
  predicate Truthful(subs: seq<Submission>, reply: Reply) {
    reply.Read? ==>
      (reply.settled <==> AnyLanded(subs)) &&
      (reply.settled && reply.tx.Some? ==> HasLanded(subs, reply.tx.value))
  }

  // ---------------------------------------------------------------- steps

  predicate Enabled(id: Text, o: Op, step: Step) {
    match step
    case Quoting(b, _, _) => b.operationId == id
    case Settle(_, r, _, _) => r.binding.operationId == id
    case Lands(i, _) => i < |o.subs| && o.subs[i].fate.Pending?
    case Dies(i) => i < |o.subs| && o.subs[i].fate.Pending?
    case SettleReads(reply) =>
      Flying(o.slice) && o.slice.flight.value.at.AtReconcile? && o.seen.None? && Decided(o.subs) && Truthful(o.subs, reply)
    case Reconciled(_, _) => Flying(o.slice) && o.slice.flight.value.at.AtReconcile? && o.seen.Some?
    case Trusted(_) => Flying(o.slice) && o.slice.flight.value.at.AtTrust?
    case PolicyRead(_, _) => Flying(o.slice) && o.slice.flight.value.at.AtPolicy?
    case SettleAnswers(answer, _) =>
      Flying(o.slice) && o.slice.flight.value.at.AtSettle? && o.subs != [] &&
      (answer.SettledWith? ==> o.subs[|o.subs| - 1].fate == Landed(answer.tx))
    case Finally => o.slice.flight.Some? && o.slice.flight.value.at.Done?
    case Poll(k) => k !in o.slice.polls
    case PollReads(k, reply) => k in o.slice.polls && k !in o.pollSeen && Truthful(o.subs, reply)
    case PollReturns(k, _) => k in o.pollSeen && o.slice.live.Some?
  }

  /** Moving the slice on; reaching the settler's await is handing it a submission, and a
      flight that ends with a receipt hands it to the callers. */
  function MoveTo(o: Op, s: Slice): Op {
    var submits := s.flight.Some? && s.flight.value.at.AtSettle? && !(o.slice.flight.Some? && o.slice.flight.value.at.AtSettle?);
    var pays := s.flight.Some? && s.flight.value.at.Done? && s.flight.value.at.outcome.Paid?;
    o.(slice := s,
       subs := if submits then o.subs + [Submission(s.flight.value.request.binding, s.flight.value.request.payment, Pending)]
               else o.subs,
       log := if submits then o.log + [Submitted] else o.log,
       returned := if pays then o.returned + [s.flight.value.at.outcome.receipt] else o.returned)
  }

  function Answered(o: Op, status: Option<Status>): Op {
    if status.Some? && status.value.receipt.Some? then o.(returned := o.returned + [status.value.receipt.value]) else o
  }

  /** `#settle` goes on with what the reconcile answered. */
  function Resumed(o: Op, now: Time, session: Option<Session>): Op
    requires Flying(o.slice) && o.seen.Some?
  {
    var logged := if o.seen.value.Read? && !o.seen.value.settled then o.log + [NotSettled] else o.log;
    MoveTo(o.(seen := None, log := logged), AfterReconcile(o.slice, o.seen.value, now, session))
  }

  /** A status call answers, or goes to reconcile. */
  function Polled(o: Op, k: nat): Op {
    if NeedsReconcile(o.slice) then o.(slice := o.slice.(polls := o.slice.polls + {k}))
    else Answered(o, if o.slice.live.Some? then Some(StatusOf(o.slice.live.value)) else None)
  }

  function PollBack(o: Op, k: nat, now: Time): Op
    requires k in o.pollSeen && o.slice.live.Some?
  {
    var (s, status) := AfterPoll(o.slice, k, o.pollSeen[k], now);
    Answered(o.(slice := s, pollSeen := o.pollSeen - {k}), status)
  }

  function Apply(env: Env, id: Text, o: Op, step: Step): Op
    requires Enabled(id, o, step)
  {
    match step
    case Quoting(b, refused, now) =>
      o.(slice := CreateQuote(o.slice, b, env.digestOf(b), InvalidBinding(env, b, refused, now)))
    case Settle(fp, r, checks, session) =>
      if o.slice.flight.Some? then o
      else MoveTo(o, BeginSettle(o.slice, fp, r, env.digestOf(r.binding), InvalidRequest(env, r, checks), session))
    case Lands(i, tx) => o.(subs := o.subs[i := o.subs[i].(fate := Landed(tx))])
    case Dies(i) => o.(subs := o.subs[i := o.subs[i].(fate := Dead)])
    case SettleReads(reply) => o.(seen := Some(reply))
    case Reconciled(now, session) => Resumed(o, now, session)
    case Trusted(trust) => MoveTo(o, AfterTrust(o.slice, trust))
    case PolicyRead(policy, now) => MoveTo(o, AfterPolicy(o.slice, policy, now))
    case SettleAnswers(answer, now) => MoveTo(o, AfterSettle(o.slice, answer, now))
    case Finally => o.(slice := Release(o.slice))
    case Poll(k) => Polled(o, k)
    case PollReads(k, reply) => o.(pollSeen := o.pollSeen[k := reply])
    case PollReturns(k, now) => PollBack(o, k, now)
  }

  function Crash(o: Op): Op { o.(slice := Restart(o.slice), seen := None, pollSeen := map[]) }

  // ---------------------------------------------------------------- runs

  type World = map<Text, Op>

  function Get(w: World, id: Text): Op { if id in w then w[id] else FRESH }

  /** `Torn`: the process dies in a first settle call between its two writes. */
  datatype Action =
    | At(id: Text, step: Step)
    | Restarted
    | Torn(id: Text, request: Request, checks: Checks)

  /** The settle call gets as far as writing the new payment. */
  predicate Tears(env: Env, o: Op, r: Request, checks: Checks) {
    o.slice.flight.None? && o.slice.live.None? && InvalidRequest(env, r, checks).None? &&
    o.slice.quote == Some(Quote(r.binding, env.digestOf(r.binding)))
  }

  predicate Can(env: Env, w: World, a: Action) {
    match a
    case At(id, step) => Enabled(id, Get(w, id), step)
    case Restarted => true
    case Torn(id, r, checks) => r.binding.operationId == id && Tears(env, Get(w, id), r, checks)
  }

  function CrashAll(w: World): World { map id | id in w :: Crash(w[id]) }

  function TornPut(env: Env, o: Op, r: Request): Op {
    o.(slice := FirstPut(o.slice, r, env.digestOf(r.binding)))
  }

  function Next(env: Env, w: World, a: Action): World
    requires Can(env, w, a)
  {
    match a
    case At(id, step) => w[id := Apply(env, id, Get(w, id), step)]
    case Restarted => CrashAll(w)
    case Torn(id, r, _) =>
      CrashAll(w[id := TornPut(env, Get(w, id), r)])
  }

  /** What an action is to one operation. */
  datatype Turn = Untouched | Stepped(step: Step) | Crashed | TornOff(request: Request, checks: Checks)

  function TurnOf(id: Text, a: Action): Turn {
    match a
    case At(i, step) => if i == id then Stepped(step) else Untouched
    case Restarted => Crashed
    case Torn(i, r, checks) => if i == id then TornOff(r, checks) else Crashed
  }

  predicate MayTurn(env: Env, id: Text, o: Op, t: Turn) {
    match t
    case Untouched => true
    case Stepped(step) => Enabled(id, o, step)
    case Crashed => true
    case TornOff(r, checks) => r.binding.operationId == id && Tears(env, o, r, checks)
  }

  function Turned(env: Env, id: Text, o: Op, t: Turn): Op
    requires MayTurn(env, id, o, t)
  {
    match t
    case Untouched => o
    case Stepped(step) => Apply(env, id, o, step)
    case Crashed => Crash(o)
    case TornOff(r, _) => Crash(TornPut(env, o, r))
  }

  lemma NextIsTurned(env: Env, w: World, a: Action, id: Text)
    requires Can(env, w, a)
    ensures MayTurn(env, id, Get(w, id), TurnOf(id, a))
    ensures Get(Next(env, w, a), id) == Turned(env, id, Get(w, id), TurnOf(id, a))
  {
  }

  /** Any finite interleaving of steps of any operations, and restarts. */
  predicate Run(env: Env, acts: seq<Action>)
    decreases |acts|, 0
  {
    acts == [] || (Run(env, acts[..|acts| - 1]) && Can(env, After(env, acts[..|acts| - 1]), acts[|acts| - 1]))
  }

  function After(env: Env, acts: seq<Action>): World
    requires Run(env, acts)
    decreases |acts|, 1
  {
    if acts == [] then map[]
    else Next(env, After(env, acts[..|acts| - 1]), acts[|acts| - 1])
  }

  lemma Extend(env: Env, acts: seq<Action>, a: Action)
    requires Run(env, acts) && Can(env, After(env, acts), a)
    ensures Run(env, acts + [a]) && After(env, acts + [a]) == Next(env, After(env, acts), a)
  {
    assert (acts + [a])[..|acts + [a]| - 1] == acts;
  }

  /** The last action of a run, as one operation sees it. */
  lemma LastTurn(env: Env, acts: seq<Action>, id: Text)
    requires Run(env, acts) && acts != []
    ensures var before, t := acts[..|acts| - 1], TurnOf(id, acts[|acts| - 1]);
      Run(env, before) && MayTurn(env, id, Get(After(env, before), id), t) &&
      Get(After(env, acts), id) == Turned(env, id, Get(After(env, before), id), t)
  {
    NextIsTurned(env, After(env, acts[..|acts| - 1]), acts[|acts| - 1], id);
  }

  /** The same for a continuation of a run. */
  lemma LastTurnOf(env: Env, acts: seq<Action>, more: seq<Action>, id: Text)
    requires Run(env, acts + more) && more != []
    ensures var before, t := acts + more[..|more| - 1], TurnOf(id, more[|more| - 1]);
      Run(env, before) && MayTurn(env, id, Get(After(env, before), id), t) &&
      Get(After(env, acts + more), id) == Turned(env, id, Get(After(env, before), id), t)
  {
    assert (acts + more)[..|acts + more| - 1] == acts + more[..|more| - 1];
    LastTurn(env, acts + more, id);
  }
}
