/** `#withLock` (packages/facilitator/src/session-service.ts): calls on one key chain on the
promise of the call before; the map keeps the newest. Other keys' entries are never touched. */
module KeyedLock {
  import opened Wrappers

  /** A call whose body has not started, runs, has settled, or whose `finally` has run. */
  datatype Stage = Waiting | Running | Settled(failed: bool) | Left(failed: bool)

  datatype Call = Call(previous: Option<nat>, stage: Stage)

  /** The calls made on a key, in order, and the map's entry for it. */
  datatype Line = Line(calls: seq<Call>, lock: Option<nat>)

  datatype Step = Enter | Wake(i: nat) | Settle(i: nat, failed: bool) | Leave(i: nat)

  predicate Over(s: Stage) { s.Settled? || s.Left? }

  /** `await previous` resumes when that call has settled, well or badly. */
  predicate Enabled(l: Line, step: Step) {
    match step
    case Enter => true
    case Wake(i) =>
      i < |l.calls| && l.calls[i].stage.Waiting? &&
      (l.calls[i].previous.Some? ==> l.calls[i].previous.value < |l.calls| && Over(l.calls[l.calls[i].previous.value].stage))
    case Settle(i, _) => i < |l.calls| && l.calls[i].stage.Running?
    case Leave(i) => i < |l.calls| && l.calls[i].stage.Settled?
  }

  function To(l: Line, i: nat, stage: Stage): Line
    requires i < |l.calls|
  {
    l.(calls := l.calls[i := l.calls[i].(stage := stage)])
  }

  function Apply(l: Line, step: Step): Line
    requires Enabled(l, step)
  {
    match step
    case Enter =>
      Line(l.calls + [Call(l.lock, if l.lock.None? then Running else Waiting)], Some(|l.calls|))
    case Wake(i) => To(l, i, Running)
    case Settle(i, failed) => To(l, i, Settled(failed))
    case Leave(i) => To(l, i, Left(l.calls[i].stage.failed)).(lock := if l.lock == Some(i) then None else l.lock)
  }

  predicate Run(steps: seq<Step>)
    decreases |steps|, 0
  {
    steps == [] || (Run(steps[..|steps| - 1]) && Enabled(After(steps[..|steps| - 1]), steps[|steps| - 1]))
  }

  function After(steps: seq<Step>): Line
    requires Run(steps)
    decreases |steps|, 1
  {
    if steps == [] then Line([], None) else Apply(After(steps[..|steps| - 1]), steps[|steps| - 1])
  }

  // ---------------------------------------------------------------- invariant

  predicate Ordered(calls: seq<Call>) {
    forall i, j :: 0 <= i < j < |calls| && !calls[j].stage.Waiting? ==> Over(calls[i].stage)
  }

  predicate Chained(calls: seq<Call>) {
    forall i :: 0 <= i < |calls| ==>
      (calls[i].previous.None? && !calls[i].stage.Waiting?) || (i > 0 && calls[i].previous == Some(i - 1))
  }

  /** The entry is the newest call, for as long as that call has not left. */
  predicate Newest(l: Line) {
    l.lock == if l.calls == [] || l.calls[|l.calls| - 1].stage.Left? then None else Some(|l.calls| - 1)
  }

  predicate Inv(l: Line) { Ordered(l.calls) && Chained(l.calls) && Newest(l) }

  lemma StepKeeps(l: Line, step: Step)
    requires Inv(l) && Enabled(l, step)
    ensures Inv(Apply(l, step))
  {
    match step
    case Enter =>
      if l.calls != [] && l.lock.None? {
        assert forall i :: 0 <= i < |l.calls| ==> Over(l.calls[i].stage);
      }
    case Wake(i) =>
      var calls := Apply(l, step).calls;
      forall a, b | 0 <= a < b < |calls| && !calls[b].stage.Waiting? ensures Over(calls[a].stage) {
        if b == i {
          assert l.calls[i].previous == Some(i - 1);
          assert a < i - 1 ==> Over(l.calls[a].stage);
        } else {
          assert !l.calls[b].stage.Waiting?;
        }
      }
    case Settle(i, failed) =>
    case Leave(i) =>
  }

  lemma {:induction false} RunKeeps(steps: seq<Step>)
    requires Run(steps)
    ensures Inv(After(steps))
    decreases |steps|
  {
    if steps != [] {
      RunKeeps(steps[..|steps| - 1]);
      StepKeeps(After(steps[..|steps| - 1]), steps[|steps| - 1]);
    }
  }

  // ---------------------------------------------------------------- theorems

  /** Bodies on one key never overlap. */
  lemma MutualExclusion(steps: seq<Step>, i: nat, j: nat)
    requires Run(steps) && i < |After(steps).calls| && j < |After(steps).calls|
    requires After(steps).calls[i].stage.Running? && After(steps).calls[j].stage.Running?
    ensures i == j
  {
    RunKeeps(steps);
  }

  /** They run in call order: a body starts only after all bodies called for earlier have settled. */
  lemma CallOrder(steps: seq<Step>, i: nat, j: nat)
    requires Run(steps) && i < j < |After(steps).calls|
    requires !After(steps).calls[j].stage.Waiting?
    ensures Over(After(steps).calls[i].stage)
  {
    RunKeeps(steps);
  }

  /** A call waits only on the one before it: once that has settled, failed or not, it can run. */
  lemma SettledUnblocksNext(steps: seq<Step>, i: nat)
    requires Run(steps) && i + 1 < |After(steps).calls|
    requires Over(After(steps).calls[i].stage) && After(steps).calls[i + 1].stage.Waiting?
    ensures Enabled(After(steps), Wake(i + 1))
  {
    RunKeeps(steps);
  }

  /** Nothing gets stuck: while a call is outstanding, one of them can move. */
  lemma Progress(steps: seq<Step>, i: nat) returns (step: Step)
    requires Run(steps) && i < |After(steps).calls| && !After(steps).calls[i].stage.Left?
    ensures Enabled(After(steps), step) && !step.Enter?
  {
    RunKeeps(steps);
    var calls := After(steps).calls;
    var k := i;
    while k > 0 && calls[k].stage.Waiting? && calls[k - 1].stage.Waiting?
      invariant 0 <= k <= i && !calls[k].stage.Left?
    {
      k := k - 1;
    }
    match calls[k].stage
    case Running => step := Settle(k, false);
    case Settled(_) => step := Leave(k);
    case Waiting =>
      assert calls[k].previous == Some(k - 1);
      step := if calls[k - 1].stage.Running? then Settle(k - 1, false) else Wake(k);
  }

  /** A new call waits for the one before it, and starts at once exactly if there is none or that has left. */
  lemma {:induction false} StartsAtOnceIff(steps: seq<Step>)
    requires Run(steps)
    ensures Run(steps + [Enter])
    ensures var calls := After(steps).calls;
      After(steps + [Enter]).calls == calls +
        if calls == [] || calls[|calls| - 1].stage.Left? then [Call(None, Running)] else [Call(Some(|calls| - 1), Waiting)]
  {
    RunKeeps(steps);
    assert (steps + [Enter])[..|steps|] == steps;
  }

  /** A call that is woken runs its body, and no other call moves. */
  lemma {:induction false} WokenRuns(steps: seq<Step>, i: nat)
    requires Run(steps) && Enabled(After(steps), Wake(i))
    ensures Run(steps + [Wake(i)])
    ensures After(steps + [Wake(i)]) == After(steps).(calls := After(steps).calls[i := After(steps).calls[i].(stage := Running)])
  {
    assert (steps + [Wake(i)])[..|steps|] == steps;
  }

  /** A call ends as its body did: what its body settled with, another body's failure or the end of
      the call do not change. */
  lemma {:induction false} OutcomeIsKept(steps: seq<Step>, more: seq<Step>, i: nat)
    requires Run(steps) && Run(steps + more) && i < |After(steps).calls| && Over(After(steps).calls[i].stage)
    ensures i < |After(steps + more).calls| && Over(After(steps + more).calls[i].stage)
    ensures After(steps + more).calls[i].stage.failed == After(steps).calls[i].stage.failed
    decreases |more|
  {
    if more == [] {
      assert steps + more == steps;
    } else {
      assert (steps + more)[..|steps + more| - 1] == steps + more[..|more| - 1];
      OutcomeIsKept(steps, more[..|more| - 1], i);
    }
  }

  lemma {:induction false} OutcomeIsTheBodys(steps: seq<Step>, i: nat, failed: bool)
    requires Run(steps) && Enabled(After(steps), Settle(i, failed))
    ensures Run(steps + [Settle(i, failed)])
    ensures After(steps + [Settle(i, failed)]).calls == After(steps).calls[i := After(steps).calls[i].(stage := Settled(failed))]
  {
    assert (steps + [Settle(i, failed)])[..|steps|] == steps;
  }

  /** Once every call has left, the map has no entry for the key. */
  lemma NoEntryLeft(steps: seq<Step>)
    requires Run(steps) && forall i :: 0 <= i < |After(steps).calls| ==> After(steps).calls[i].stage.Left?
    ensures After(steps).lock.None?
  {
    RunKeeps(steps);
  }

  // ---------------------------------------------------------------- the map

  /** The `#locks` map, with the promises of all calls made so far. */
  class Locks {
    var locks: map<string, nat>
    var calls: map<string, seq<Call>>

    constructor ()
      ensures locks == map[] && calls == map[]
    {
      locks, calls := map[], map[];
    }

    function LineOf(key: string): Line
      reads this
    {
      Line(if key in calls then calls[key] else [], if key in locks then Some(locks[key]) else None)
    }

    twostate predicate OthersKept(key: string)
      reads this
    {
      forall other: string :: other != key ==> LineOf(other) == old(LineOf(other))
    }

    /** Up to `locks.set`; with no previous call the body starts at once. */
    method EnterLock(key: string) returns (me: nat)
      modifies this
      ensures LineOf(key) == Apply(old(LineOf(key)), Enter) && OthersKept(key) && me == |old(LineOf(key)).calls|
    {
      var previous := if key in locks then Some(locks[key]) else None;
      var made := if key in calls then calls[key] else [];
      me := |made|;
      calls := calls[key := made + [Call(previous, if previous.None? then Running else Waiting)]];
      locks := locks[key := me];
    }

    method Move(key: string, i: nat, stage: Stage)
      requires i < |LineOf(key).calls|
      modifies this`calls
      ensures LineOf(key) == To(old(LineOf(key)), i, stage) && OthersKept(key)
    {
      calls := calls[key := calls[key][i := calls[key][i].(stage := stage)]];
    }

    method WakeUp(key: string, i: nat)
      requires Enabled(LineOf(key), Wake(i))
      modifies this`calls
      ensures LineOf(key) == Apply(old(LineOf(key)), Wake(i)) && OthersKept(key)
    {
      Move(key, i, Running);
    }

    method SettleBody(key: string, i: nat, failed: bool)
      requires Enabled(LineOf(key), Settle(i, failed))
      modifies this`calls
      ensures LineOf(key) == Apply(old(LineOf(key)), Settle(i, failed)) && OthersKept(key)
    {
      Move(key, i, Settled(failed));
    }

    /** The `finally`: only the newest call removes the entry. */
    method LeaveLock(key: string, i: nat)
      requires Enabled(LineOf(key), Leave(i))
      modifies this
      ensures LineOf(key) == Apply(old(LineOf(key)), Leave(i)) && OthersKept(key)
    {
      Move(key, i, Left(calls[key][i].stage.failed));
      if key in locks && locks[key] == i {
        locks := locks - {key};
      }
    }
  }
}
