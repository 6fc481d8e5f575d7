/** What must have been checked before the settler is called: in every run, an exact payment is
submitted only if its authorization pays the quoted amount between the quoted wallets, and a
stake payment only after its vault was found trusted and then its policy was found to allow it. */
module SessionChecks {
  import opened Wrappers
  import opened Canonical
  import opened Operation
  import opened SessionState
  import opened SessionProtocol

  predicate Matches(s: Submission) {
    s.payment.Exact? ==> ExactMatches(Request(s.binding, s.payment))
  }

  predicate AllMatch(subs: seq<Submission>) { forall i :: 0 <= i < |subs| ==> Matches(subs[i]) }

  /** Only stake payments wait for the vault or its policy. */
  predicate StakeWaits(s: Slice) {
    s.flight.Some? && (s.flight.value.at.AtTrust? || s.flight.value.at.AtPolicy?) ==> s.flight.value.request.payment.Stake?
  }

  /** Where a call may be right after validation has begun: at the settler only with a matching
      exact payment, and at the vault check only with a stake payment. */
  predicate Started(s: Slice) {
    s.flight.Some? && !s.flight.value.at.AtPolicy? &&
    (s.flight.value.at.AtTrust? ==> s.flight.value.request.payment.Stake?) &&
    (s.flight.value.at.AtSettle? ==>
      s.flight.value.request.payment.Exact? && ExactMatches(s.flight.value.request))
  }

  lemma {:induction false} BeginStarts(
      s: Slice, fp: Text, r: Request, digest: Text, invalid: Option<Failure>, session: Option<Session>)
    ensures Started(BeginSettle(s, fp, r, digest, invalid, session))
  {
  }

  lemma {:induction false} ReconcileStarts(s: Slice, reply: Reply, now: Time, session: Option<Session>)
    requires Flying(s)
    ensures Started(AfterReconcile(s, reply, now, session))
  {
  }

  lemma {:induction false} MoveKeeps(o: Op, s: Slice)
    requires AllMatch(o.subs) && Started(s)
    ensures AllMatch(MoveTo(o, s).subs) && StakeWaits(MoveTo(o, s).slice)
  {
  }

  lemma {:induction false} PolicyKeeps(o: Op, policy: PolicyReply, now: Time)
    requires AllMatch(o.subs) && StakeWaits(o.slice) && Flying(o.slice) && o.slice.flight.value.at.AtPolicy?
    ensures AllMatch(MoveTo(o, AfterPolicy(o.slice, policy, now)).subs)
  {
  }

  lemma {:induction false} FateKeeps(o: Op, i: nat, fate: Fate)
    requires AllMatch(o.subs) && i < |o.subs|
    ensures AllMatch(o.subs[i := o.subs[i].(fate := fate)])
  {
    assert Matches(o.subs[i]);
  }

  lemma {:induction false} StepKeepsMatches(env: Env, id: Text, o: Op, step: Step)
    requires Enabled(id, o, step) && AllMatch(o.subs) && StakeWaits(o.slice)
    ensures var p := Apply(env, id, o, step); AllMatch(p.subs) && StakeWaits(p.slice)
  {
    match step
    case Settle(fp, r, checks, session) =>
      var t := BeginSettle(o.slice, fp, r, env.digestOf(r.binding), InvalidRequest(env, r, checks), session);
      BeginStarts(o.slice, fp, r, env.digestOf(r.binding), InvalidRequest(env, r, checks), session);
      if o.slice.flight.None? {
        MoveKeeps(o, t);
      }
    case Reconciled(now, session) => ReconcileStarts(o.slice, o.seen.value, now, session);
    case PolicyRead(policy, now) => PolicyKeeps(o, policy, now);
    case Lands(i, tx) => FateKeeps(o, i, Landed(tx));
    case Dies(i) => FateKeeps(o, i, Dead);
    case _ =>
  }

  lemma {:induction false} RunKeepsMatches(env: Env, acts: seq<Action>, id: Text)
    requires Run(env, acts)
    ensures var o := Get(After(env, acts), id); AllMatch(o.subs) && StakeWaits(o.slice)
    decreases |acts|
  {
    if acts != [] {
      var before, t := acts[..|acts| - 1], TurnOf(id, acts[|acts| - 1]);
      LastTurn(env, acts, id);
      RunKeepsMatches(env, before, id);
      if t.Stepped? {
        StepKeepsMatches(env, id, Get(After(env, before), id), t.step);
      }
    }
  }

  // ---------------------------------------------------------------- how a call comes to the policy

  /** The call f has been waiting since action k: it did so after that action and every later one. */
  ghost predicate WaitsSince(env: Env, acts: seq<Action>, id: Text, k: nat, f: Flight)
    decreases |acts|
  {
    k < |acts| && Run(env, acts) && Get(After(env, acts), id).slice.flight == Some(f) &&
    (k + 1 == |acts| || WaitsSince(env, acts[..|acts| - 1], id, k, f))
  }

  predicate WaitsForPolicy(s: Slice) { s.flight.Some? && s.flight.value.at.AtPolicy? }

  /** What `#validateStake` has found by then. */
  predicate Trusts(f: Flight) {
    f.at.AtPolicy? && SessionPays(f.at.session, f.request.binding) && ScopeAllows(f.at.session, f.request)
  }

  /** A call comes to wait for the policy only from a check that found its vault trusted. */
  lemma {:induction false} PolicyNeedsTrust(env: Env, id: Text, o: Op, t: Turn)
    requires MayTurn(env, id, o, t) && WaitsForPolicy(Turned(env, id, o, t).slice)
    ensures var f := Turned(env, id, o, t).slice.flight.value;
      o.slice.flight == Some(f) ||
      (t == Stepped(Trusted(Trust(true))) && Trusts(f) && o.slice.flight == Some(f.(at := AtTrust(f.at.session))))
  {
    match t
    case Stepped(Settle(fp, r, checks, session)) =>
      BeginStarts(o.slice, fp, r, env.digestOf(r.binding), InvalidRequest(env, r, checks), session);
    case Stepped(Reconciled(now, session)) => ReconcileStarts(o.slice, o.seen.value, now, session);
    case _ =>
  }

  /** The whole history of a call that waits for the policy. */
  lemma {:induction false} WaitedSinceTrust(env: Env, acts: seq<Action>, id: Text) returns (k: nat)
    requires Run(env, acts) && WaitsForPolicy(Get(After(env, acts), id).slice)
    ensures k < |acts| && acts[k] == At(id, Trusted(Trust(true)))
    ensures var f := Get(After(env, acts), id).slice.flight.value; WaitsSince(env, acts, id, k, f) && Trusts(f)
    decreases |acts|
  {
    var before, t := acts[..|acts| - 1], TurnOf(id, acts[|acts| - 1]);
    var o, f := Get(After(env, before), id), Get(After(env, acts), id).slice.flight.value;
    LastTurn(env, acts, id);
    PolicyNeedsTrust(env, id, o, t);
    if o.slice.flight == Some(f) {
      k := WaitedSinceTrust(env, before, id);
    } else {
      k := |acts| - 1;
    }
  }

  /** What the policy read before a stake submission said. */
  predicate Allows(x: Session, p: Policy, b: Binding, now: Time) {
    PolicyMatches(x, p) && !p.revoked && now / 1000 < p.validUntil &&
    Amount(b.amount) <= p.ceiling && Amount(b.amount) <= p.cap - p.spent <= p.fundedBalance
  }

  /** A step that hands a stake payment to the settler is a policy read that allowed it. */
  lemma {:induction false} StakeNeedsThePolicy(env: Env, id: Text, o: Op, t: Turn)
    requires MayTurn(env, id, o, t)
    requires var p := Turned(env, id, o, t); |p.subs| > |o.subs| && p.subs[|o.subs|].payment.Stake?
    ensures t.Stepped? && t.step.PolicyRead? && t.step.policy.PolicyIs? && WaitsForPolicy(o.slice)
    ensures var f := o.slice.flight.value; var subs := Turned(env, id, o, t).subs;
      |subs| == |o.subs| + 1 && subs[|o.subs|].binding == f.request.binding && subs[|o.subs|].payment == f.request.payment &&
      Allows(f.at.session, t.step.policy.policy, f.request.binding, t.step.now)
  {
    match t
    case Stepped(Settle(fp, r, checks, session)) =>
      BeginStarts(o.slice, fp, r, env.digestOf(r.binding), InvalidRequest(env, r, checks), session);
    case Stepped(Reconciled(now, session)) => ReconcileStarts(o.slice, o.seen.value, now, session);
    case _ =>
  }

  lemma {:induction false} OldSubmissionsStay(env: Env, id: Text, o: Op, t: Turn, i: nat)
    requires MayTurn(env, id, o, t) && i < |o.subs|
    ensures var subs := Turned(env, id, o, t).subs;
      i < |subs| && subs[i].binding == o.subs[i].binding && subs[i].payment == o.subs[i].payment
  {
  }

  // ---------------------------------------------------------------- theorems

  /** No exact authorization is ever submitted that pays another amount, or between other
      wallets, than the binding says. */
  lemma {:induction false} ExactSubmissionsMatch(env: Env, acts: seq<Action>, id: Text, i: nat)
    requires Run(env, acts) && i < |Get(After(env, acts), id).subs|
    requires Get(After(env, acts), id).subs[i].payment.Exact?
    ensures var Submission(b, p, _) := Get(After(env, acts), id).subs[i];
      Lower(p.from) == Lower(b.payerWallet) && Lower(p.to) == Lower(b.payTo) && p.value == b.amount
  {
    RunKeepsMatches(env, acts, id);
    assert Matches(Get(After(env, acts), id).subs[i]);
  }

  lemma {:induction false} NewSubmission(env: Env, id: Text, o: Op, t: Turn)
    requires MayTurn(env, id, o, t)
    ensures |Turned(env, id, o, t).subs| <= |o.subs| + 1
  {
  }

  /** Submission i was made by action j, a policy read, for the call f, which had been waiting for
      it since action k found its vault trusted. */
  ghost predicate MadeBy(env: Env, acts: seq<Action>, id: Text, i: nat, k: nat, j: nat, f: Flight) {
    k < j < |acts| && acts[k] == At(id, Trusted(Trust(true))) &&
    WaitsSince(env, acts[..j], id, k, f) && Run(env, acts[..j]) && |Get(After(env, acts[..j]), id).subs| == i &&
    acts[j].At? && acts[j].id == id && acts[j].step.PolicyRead? && acts[j].step.policy.PolicyIs?
  }

  /** Why a submission was made, in short. */
  ghost predicate WasAllowed(env: Env, acts: seq<Action>, id: Text, i: nat, s: Submission, k: nat, j: nat, f: Flight) {
    MadeBy(env, acts, id, i, k, j, f) && f.request == Request(s.binding, s.payment) && Trusts(f) &&
    Allows(f.at.session, acts[j].step.policy.policy, s.binding, acts[j].step.now)
  }

  lemma {:induction false} AllowedEarlier(
      env: Env, acts: seq<Action>, id: Text, i: nat, s: Submission, t: Submission, k: nat, j: nat, f: Flight)
    requires acts != [] && WasAllowed(env, acts[..|acts| - 1], id, i, s, k, j, f)
    requires t.binding == s.binding && t.payment == s.payment
    ensures WasAllowed(env, acts, id, i, t, k, j, f)
  {
    assert acts[..|acts| - 1][..j] == acts[..j];
  }

  lemma {:induction false} MadeNow(env: Env, acts: seq<Action>, id: Text) returns (k: nat, f: Flight)
    requires Run(env, acts) && acts != []
    requires var o, p := Get(After(env, acts[..|acts| - 1]), id), Get(After(env, acts), id);
      |p.subs| > |o.subs| && p.subs[|o.subs|].payment.Stake?
    ensures var i := |Get(After(env, acts[..|acts| - 1]), id).subs|;
      WasAllowed(env, acts, id, i, Get(After(env, acts), id).subs[i], k, |acts| - 1, f)
  {
    var before, t := acts[..|acts| - 1], TurnOf(id, acts[|acts| - 1]);
    var o := Get(After(env, before), id);
    LastTurn(env, acts, id);
    StakeNeedsThePolicy(env, id, o, t);
    k := WaitedSinceTrust(env, before, id);
    f := o.slice.flight.value;
  }

  /** A submission was there before the last action, as the same payment, or was made by it. */
  lemma {:induction false} EarlierOrNow(env: Env, acts: seq<Action>, id: Text, i: nat)
    requires Run(env, acts) && i < |Get(After(env, acts), id).subs|
    ensures acts != []
    ensures var earlier, subs := Get(After(env, acts[..|acts| - 1]), id).subs, Get(After(env, acts), id).subs;
      if i < |earlier| then subs[i].binding == earlier[i].binding && subs[i].payment == earlier[i].payment
      else i == |earlier| < |subs|
  {
    var t := TurnOf(id, acts[|acts| - 1]);
    var o := Get(After(env, acts[..|acts| - 1]), id);
    LastTurn(env, acts, id);
    NewSubmission(env, id, o, t);
    if i < |o.subs| {
      OldSubmissionsStay(env, id, o, t, i);
    }
  }

  lemma {:induction false} StillAllowed(env: Env, acts: seq<Action>, id: Text, i: nat, k: nat, j: nat, f: Flight)
    requires Run(env, acts) && acts != [] && i < |Get(After(env, acts[..|acts| - 1]), id).subs|
    requires WasAllowed(env, acts[..|acts| - 1], id, i, Get(After(env, acts[..|acts| - 1]), id).subs[i], k, j, f)
    ensures i < |Get(After(env, acts), id).subs| && WasAllowed(env, acts, id, i, Get(After(env, acts), id).subs[i], k, j, f)
  {
    LastTurn(env, acts, id);
    OldSubmissionsStay(env, id, Get(After(env, acts[..|acts| - 1]), id), TurnOf(id, acts[|acts| - 1]), i);
    AllowedEarlier(env, acts, id, i, Get(After(env, acts[..|acts| - 1]), id).subs[i], Get(After(env, acts), id).subs[i], k, j, f);
  }

  /** In every run, a stake payment was submitted by a call that found its vault trusted and the
      session to cover the binding (action k), and then, with nothing else happening to that call,
      its policy to allow the amount (action j). */
  lemma {:induction false} StakeSubmissionsWereAllowed(env: Env, acts: seq<Action>, id: Text, i: nat)
    returns (k: nat, j: nat, f: Flight)
    requires Run(env, acts) && i < |Get(After(env, acts), id).subs|
    requires Get(After(env, acts), id).subs[i].payment.Stake?
    ensures WasAllowed(env, acts, id, i, Get(After(env, acts), id).subs[i], k, j, f)
    decreases |acts|
  {
    EarlierOrNow(env, acts, id, i);
    if i < |Get(After(env, acts[..|acts| - 1]), id).subs| {
      k, j, f := StakeSubmissionsWereAllowed(env, acts[..|acts| - 1], id, i);
      StillAllowed(env, acts, id, i, k, j, f);
    } else {
      k, f := MadeNow(env, acts, id);
      j := |acts| - 1;
    }
  }
}
