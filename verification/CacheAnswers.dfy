/** What every read, answer and decision in front of the verifier leads to, in every run, and the
runs in which a paid request gets through to the verifier. */
module CacheAnswers {
  import opened Wrappers
  import opened FactoryCache

  /** The world once one more step has been made. */
  ghost function Then(steps: seq<Step>, step: Step): World
    requires Run(steps + [step])
  {
    After(steps + [step])
  }

  lemma {:induction false} Extend(steps: seq<Step>, step: Step)
    requires Run(steps) && Enabled(After(steps), step)
    ensures Run(steps + [step]) && After(steps + [step]) == Apply(After(steps), step)
  {
    var all := steps + [step];
    assert all[..|all| - 1] == steps && all[|all| - 1] == step;
  }

  /** Request i is at the phase. */
  predicate Is(w: World, i: nat, phase: Phase) { i < |w.requests| && w.requests[i].phase == phase }

  /** Request i goes on, and nothing else changes. */
  predicate Moves(w: World, v: World, i: nat, phase: Phase) {
    i < |w.requests| && v == w.(requests := w.requests[i := Request(w.requests[i].dev, phase)])
  }

  /** The cached entry is under five seconds old. */
  predicate Usable(w: World) {
    w.cache.Some? && w.cache.value < |w.entries| && w.clock - w.entries[w.cache.value].fetchedAt < 5000
  }

  predicate NotZero(vault: string) { vault != "0x0000000000000000000000000000000000000000" }

  predicate Knows(entry: Entry, dev: string) { dev in entry.vaults && NotZero(entry.vaults[dev]) }

  // ---------------------------------------------------------------- reading the state

  /** A usable entry is taken, a running refresh joined, and otherwise one begun. */
  ghost predicate ReadsState(w: World, v: World, i: nat, second: bool) {
    (Usable(w) ==> Moves(w, v, i, HasEntry(second, w.cache.value, w.clock))) &&
    (!Usable(w) && w.refreshing.Some? ==> Moves(w, v, i, OnRefresh(second, w.refreshing.value, None, w.clock))) &&
    (!Usable(w) && w.refreshing.None? ==>
      Moves(w.(refreshes := w.refreshes + [Asked(w.cache)], refreshing := Some(|w.refreshes|)),
            v, i, OnRefresh(second, |w.refreshes|, w.cache, w.clock)))
  }

  lemma {:induction false} FirstReadDecides(steps: seq<Step>, i: nat, second: bool)
    requires Run(steps) && Is(After(steps), i, Start(second))
    ensures Run(steps + [ReadState(i)]) && ReadsState(After(steps), Then(steps, ReadState(i)), i, second)
  {
    Extend(steps, ReadState(i));
  }

  /** A first round that found no entry or no address is repeated; otherwise it decides. */
  lemma {:induction false} SecondRoundDecides(steps: seq<Step>, i: nat, found: Option<nat>, payTo: string, at: int)
    requires Run(steps) && Is(After(steps), i, FirstDone(found, payTo, at))
    ensures Run(steps + [SecondRound(i)])
    ensures var w, v := After(steps), Then(steps, SecondRound(i));
      if found.Some? && NotZero(payTo) then Moves(w, v, i, Checking(found.value, payTo, at)) else ReadsState(w, v, i, true)
  {
    Extend(steps, SecondRound(i));
  }

  /** A stored refresh: the entry has the answer and the present time, starts from the addresses
      known before, and is the cached one from now on. */
  lemma {:induction false} AnswerIsCached(steps: seq<Step>, k: nat, captured: Option<nat>, paused: bool)
    requires Run(steps) && k < |After(steps).refreshes| && After(steps).refreshes[k] == Answered(captured, paused)
    ensures Run(steps + [RefreshStore(k)])
    ensures var w, v := After(steps), Then(steps, RefreshStore(k));
      |v.entries| == |w.entries| + 1 && v.entries[..|w.entries|] == w.entries && v.cache == Some(|w.entries|) &&
      v.entries[|w.entries|].paused == paused && v.entries[|w.entries|].fetchedAt == w.clock &&
      v.refreshes == w.refreshes[k := Stored(|w.entries|)] && v.refreshing.None? &&
      v == w.(entries := v.entries, cache := v.cache, refreshes := v.refreshes, refreshing := None)
    ensures var w, v := After(steps), Then(steps, RefreshStore(k));
      (captured.Some? ==> captured.value < |w.entries| && v.entries[|w.entries|].vaults == w.entries[captured.value].vaults) &&
      (captured.None? ==> v.entries[|w.entries|].vaults == map[])
  {
    RunKeeps(steps);
    assert RefreshOk(After(steps), k);
    Extend(steps, RefreshStore(k));
  }

  /** The refresh that a request waited for: its entry is used if it was stored; a failed one leaves
      the first round without state, whatever entry was cached, and is the end of the second. */
  lemma {:induction false} RefreshDecides(
      steps: seq<Step>, i: nat, second: bool, k: nat, fallback: Option<nat>, at: int)
    requires Run(steps) && Is(After(steps), i, OnRefresh(second, k, fallback, at))
    requires k < |After(steps).refreshes| && (After(steps).refreshes[k].Stored? || After(steps).refreshes[k].RefreshFailed?)
    ensures Run(steps + [ResumeRefresh(i)])
    ensures var w, v := After(steps), Then(steps, ResumeRefresh(i));
      (w.refreshes[k].Stored? ==> Moves(w, v, i, HasEntry(second, w.refreshes[k].entry, at))) &&
      (w.refreshes[k].RefreshFailed? && second ==> Moves(w, v, i, Rejected)) &&
      (w.refreshes[k].RefreshFailed? && !second ==>
        v.requests[i].phase.FirstDone? && v.requests[i].phase.found.None? && Moves(w, v, i, v.requests[i].phase))
  {
    Extend(steps, ResumeRefresh(i));
  }

  // ---------------------------------------------------------------- reading the vault

  /** The round ends with an entry and an address. */
  predicate RoundEnds(w: World, v: World, i: nat, second: bool, e: nat, payTo: string, at: int) {
    (second ==> Moves(w, v, i, Checking(e, payTo, at))) && (!second ==> Moves(w, v, i, FirstDone(Some(e), payTo, at)))
  }

  /** A known address is taken, the developer's running lookup joined, and otherwise one begun. */
  lemma {:induction false} VaultReadDecides(steps: seq<Step>, i: nat, second: bool, e: nat, at: int)
    requires Run(steps) && Is(After(steps), i, HasEntry(second, e, at))
    ensures e < |After(steps).entries| && Run(steps + [ReadVault(i)])
    ensures var w, v := After(steps), Then(steps, ReadVault(i)); var dev := w.requests[i].dev;
      (Knows(w.entries[e], dev) ==> RoundEnds(w, v, i, second, e, w.entries[e].vaults[dev], at)) &&
      (!Knows(w.entries[e], dev) && dev in w.looking ==> Moves(w, v, i, OnVault(second, e, w.looking[dev], at))) &&
      (!Knows(w.entries[e], dev) && dev !in w.looking ==>
        Moves(w.(lookups := w.lookups + [VaultAsked(dev, e)], looking := w.looking[dev := |w.lookups|]),
              v, i, OnVault(second, e, |w.lookups|, at)))
  {
    RunKeeps(steps);
    assert PhaseOk(After(steps), After(steps).requests[i].dev, After(steps).requests[i].phase);
    Extend(steps, ReadVault(i));
  }

  /** A lookup finds the developer's vault, or zero as long as there is none. */
  lemma {:induction false} LookupReadsTheChain(steps: seq<Step>, k: nat, dev: string, e: nat)
    requires Run(steps) && k < |After(steps).lookups| && After(steps).lookups[k] == VaultAsked(dev, e)
    ensures Run(steps + [LookupAnswer(k)])
    ensures var w, v := After(steps), Then(steps, LookupAnswer(k));
      |v.lookups| == |w.lookups| && v.lookups[k].VaultAnswered? &&
      v == w.(lookups := w.lookups[k := VaultAnswered(dev, e, v.lookups[k].vault)]) &&
      if dev in w.vaults then v.lookups[k].vault == w.vaults[dev] else !NotZero(v.lookups[k].vault)
  {
    Extend(steps, LookupAnswer(k));
  }

  /** The address goes into the entry the lookup began with and into no other; the lookup is over. */
  lemma {:induction false} AddressIsKept(steps: seq<Step>, k: nat, dev: string, e: nat, vault: string)
    requires Run(steps) && k < |After(steps).lookups| && After(steps).lookups[k] == VaultAnswered(dev, e, vault)
    ensures e < |After(steps).entries| && Run(steps + [LookupStore(k)])
    ensures var w, v := After(steps), Then(steps, LookupStore(k));
      v == w.(entries := w.entries[e := v.entries[e]], lookups := w.lookups[k := VaultFound(dev, vault)],
              looking := w.looking - {dev}) &&
      v.entries[e] == Entry(w.entries[e].paused, w.entries[e].vaults[dev := vault], w.entries[e].fetchedAt)
  {
    RunKeeps(steps);
    assert LookupOk(After(steps), k);
    Extend(steps, LookupStore(k));
  }

  /** The lookup that a request waited for: its address is used if there is one; a failed lookup
      leaves the first round without an address and is the end of the second. */
  lemma {:induction false} LookupDecides(steps: seq<Step>, i: nat, second: bool, e: nat, k: nat, at: int)
    requires Run(steps) && Is(After(steps), i, OnVault(second, e, k, at))
    requires k < |After(steps).lookups| && (After(steps).lookups[k].VaultFound? || After(steps).lookups[k].LookupFailed?)
    ensures Run(steps + [ResumeVault(i)])
    ensures var w, v := After(steps), Then(steps, ResumeVault(i));
      (w.lookups[k].VaultFound? ==> RoundEnds(w, v, i, second, e, w.lookups[k].vault, at)) &&
      (w.lookups[k].LookupFailed? && second ==> Moves(w, v, i, Rejected)) &&
      (w.lookups[k].LookupFailed? && !second ==>
        v.requests[i].phase.FirstDone? && !NotZero(v.requests[i].phase.payTo) && Moves(w, v, i, v.requests[i].phase))
  {
    Extend(steps, ResumeVault(i));
  }

  /** A failed call is over; what is cached stays. */
  lemma {:induction false} FailuresKeepTheCache(steps: seq<Step>, k: nat)
    requires Run(steps)
    ensures var w := After(steps);
      k < |w.refreshes| && w.refreshes[k].Asked? ==>
        Run(steps + [RefreshFail(k)]) &&
        Then(steps, RefreshFail(k)) == w.(refreshes := w.refreshes[k := RefreshFailed], refreshing := None)
    ensures var w := After(steps);
      k < |w.lookups| && w.lookups[k].VaultAsked? ==>
        Run(steps + [LookupFail(k)]) &&
        Then(steps, LookupFail(k)) == w.(lookups := w.lookups[k := LookupFailed], looking := w.looking - {w.lookups[k].dev})
  {
    if k < |After(steps).refreshes| && After(steps).refreshes[k].Asked? {
      Extend(steps, RefreshFail(k));
    }
    if k < |After(steps).lookups| && After(steps).lookups[k].VaultAsked? {
      Extend(steps, LookupFail(k));
    }
  }

  // ---------------------------------------------------------------- the decision

  /** A request is verified exactly when its entry is not paused and there is a vault to pay. */
  lemma {:induction false} CheckDecides(steps: seq<Step>, i: nat, e: nat, payTo: string, at: int)
    requires Run(steps) && Is(After(steps), i, Checking(e, payTo, at))
    ensures e < |After(steps).entries| && Run(steps + [Check(i)])
    ensures var w, v := After(steps), Then(steps, Check(i));
      if !w.entries[e].paused && NotZero(payTo) then Moves(w, v, i, Verifying(e, payTo, at)) else Moves(w, v, i, Rejected)
  {
    RunKeeps(steps);
    assert PhaseOk(After(steps), After(steps).requests[i].dev, After(steps).requests[i].phase);
    Extend(steps, Check(i));
  }

  /** A request without a payment to check is over after its first round. */
  lemma {:induction false} RefusedIsOver(steps: seq<Step>, i: nat, found: Option<nat>, payTo: string, at: int)
    requires Run(steps) && Is(After(steps), i, FirstDone(found, payTo, at))
    ensures Run(steps + [Refuse(i)]) && Moves(After(steps), Then(steps, Refuse(i)), i, Rejected)
  {
    Extend(steps, Refuse(i));
  }

  /** Time passes and vaults are deployed, once for each developer, whatever the service does. */
  lemma {:induction false} ClockAndChainGoOn(steps: seq<Step>, ms: nat, dev: string, vault: string)
    requires Run(steps)
    ensures Run(steps + [Tick(ms)]) && Then(steps, Tick(ms)) == After(steps).(clock := After(steps).clock + ms)
    ensures dev !in After(steps).vaults && NotZero(vault) ==>
      Run(steps + [Deploy(dev, vault)]) &&
      Then(steps, Deploy(dev, vault)) == After(steps).(vaults := After(steps).vaults[dev := vault])
  {
    Extend(steps, Tick(ms));
    if dev !in After(steps).vaults && NotZero(vault) {
      Extend(steps, Deploy(dev, vault));
    }
  }

  // ---------------------------------------------------------------- requests that get through

  lemma {:induction false} ArrivesAtTheEnd(steps: seq<Step>, dev: string)
    requires Run(steps)
    ensures Run(steps + [Arrive(dev)])
    ensures Then(steps, Arrive(dev)) ==
      After(steps).(requests := After(steps).requests + [Request(dev, Start(false))])
  {
    Extend(steps, Arrive(dev));
  }

  /** The last two steps of a request whose first round found all it needs. */
  lemma {:induction false} FoundIsVerified(steps: seq<Step>, i: nat, e: nat, payTo: string, at: int)
    requires Run(steps) && Is(After(steps), i, FirstDone(Some(e), payTo, at))
    requires e < |After(steps).entries| && !After(steps).entries[e].paused && NotZero(payTo)
    ensures Run(steps + [SecondRound(i), Check(i)])
    ensures Moves(After(steps), After(steps + [SecondRound(i), Check(i)]), i, Verifying(e, payTo, at))
  {
    SecondRoundDecides(steps, i, Some(e), payTo, at);
    CheckDecides(steps + [SecondRound(i)], i, e, payTo, at);
    assert steps + [SecondRound(i)] + [Check(i)] == steps + [SecondRound(i), Check(i)];
  }

  /** With a usable, unpaused entry that knows the developer's vault, a request needs no call at all
      and goes to the verifier with that entry and that vault. */
  lemma {:induction false} CachedStateVerifies(steps: seq<Step>, dev: string)
    requires Run(steps) && Usable(After(steps))
    requires var entry := After(steps).entries[After(steps).cache.value]; !entry.paused && Knows(entry, dev)
    ensures var w := After(steps); var i, e := |w.requests|, w.cache.value;
      var all := steps + [Arrive(dev), ReadState(i), ReadVault(i), SecondRound(i), Check(i)];
      Run(all) && After(all) == w.(requests := w.requests + [Request(dev, Verifying(e, w.entries[e].vaults[dev], w.clock))])
  {
    var w := After(steps);
    var i, e := |w.requests|, w.cache.value;
    var read, known := steps + [Arrive(dev)] + [ReadState(i)], steps + [Arrive(dev)] + [ReadState(i)] + [ReadVault(i)];
    ArrivesAtTheEnd(steps, dev);
    FirstReadDecides(steps + [Arrive(dev)], i, false);
    VaultReadDecides(read, i, false, e, w.clock);
    FoundIsVerified(known, i, e, w.entries[e].vaults[dev], w.clock);
    assert known + [SecondRound(i), Check(i)] == steps + [Arrive(dev), ReadState(i), ReadVault(i), SecondRound(i), Check(i)];
  }

  /** The steps of a refresh that a request begins and the factory answers. */
  function Refreshing(i: nat, k: nat, paused: bool): seq<Step> {
    [ReadState(i), RefreshAnswer(k, paused), RefreshStore(k), ResumeRefresh(i)]
  }

  /** Without a usable entry and a running refresh, the request gets the entry of its own. */
  lemma {:induction false} RefreshGivesAnEntry(steps: seq<Step>, i: nat, paused: bool)
    requires Run(steps) && Is(After(steps), i, Start(false)) && !Usable(After(steps)) && After(steps).refreshing.None?
    ensures var w := After(steps); var k, e, all := |w.refreshes|, |w.entries|, steps + Refreshing(i, |w.refreshes|, paused);
      Run(all) && Is(After(all), i, HasEntry(false, e, w.clock)) && |After(all).requests| == |w.requests| &&
      After(all).requests[i].dev == w.requests[i].dev && After(all).vaults == w.vaults &&
      After(all).looking == w.looking && After(all).lookups == w.lookups &&
      |After(all).entries| == e + 1 && After(all).entries[e].paused == paused &&
      (w.cache.Some? ==> w.cache.value < e && After(all).entries[e].vaults == w.entries[w.cache.value].vaults) &&
      (w.cache.None? ==> After(all).entries[e].vaults == map[])
  {
    var w := After(steps);
    var k := |w.refreshes|;
    var s1 := steps + [ReadState(i)];
    var s2 := s1 + [RefreshAnswer(k, paused)];
    var s3 := s2 + [RefreshStore(k)];
    FirstReadDecides(steps, i, false);
    Extend(s1, RefreshAnswer(k, paused));
    AnswerIsCached(s2, k, w.cache, paused);
    RefreshDecides(s3, i, false, k, w.cache, w.clock);
    assert s3 + [ResumeRefresh(i)] == steps + Refreshing(i, k, paused);
  }

  /** The steps of a lookup that a request begins and the factory answers. */
  function LookingUp(i: nat, k: nat): seq<Step> {
    [ReadVault(i), LookupAnswer(k), LookupStore(k), ResumeVault(i)]
  }

  /** Where the entry does not know the vault and no lookup is running, the request gets the one on chain. */
  lemma {:induction false} LookupGivesTheVault(steps: seq<Step>, i: nat, e: nat, at: int)
    requires Run(steps) && Is(After(steps), i, HasEntry(false, e, at)) && e < |After(steps).entries|
    requires var w := After(steps); var dev := w.requests[i].dev;
      dev !in w.looking && !Knows(w.entries[e], dev) && dev in w.vaults
    ensures var w := After(steps); var all := steps + LookingUp(i, |w.lookups|);
      Run(all) && Is(After(all), i, FirstDone(Some(e), w.vaults[w.requests[i].dev], at)) &&
      |After(all).requests| == |w.requests| && After(all).requests[i].dev == w.requests[i].dev &&
      e < |After(all).entries| && After(all).entries[e].paused == w.entries[e].paused
  {
    var w := After(steps);
    var dev, k := w.requests[i].dev, |w.lookups|;
    var s1 := steps + [ReadVault(i)];
    var s2 := s1 + [LookupAnswer(k)];
    var s3 := s2 + [LookupStore(k)];
    VaultReadDecides(steps, i, false, e, at);
    LookupReadsTheChain(s1, k, dev, e);
    AddressIsKept(s2, k, dev, e, w.vaults[dev]);
    LookupDecides(s3, i, false, e, k, at);
    assert s3 + [ResumeVault(i)] == steps + LookingUp(i, k);
  }

  /** A cache without a usable entry, be it empty or too old: if the factory answers that it is not
      paused, and knows the developer's vault where the cached entry did not, the request goes to the
      verifier with the new entry and the vault on chain. */
  lemma {:induction false} RefreshedStateVerifies(steps: seq<Step>, dev: string)
    requires Run(steps) && !Usable(After(steps)) && After(steps).refreshing.None?
    requires var w := After(steps); dev !in w.looking && dev in w.vaults && NotZero(w.vaults[dev])
    ensures var w := After(steps); var i, k, l, e := |w.requests|, |w.refreshes|, |w.lookups|, |w.entries|;
      var known := w.cache.Some? && w.cache.value < e && Knows(w.entries[w.cache.value], dev);
      var all := steps + [Arrive(dev)] + Refreshing(i, k, false) +
        (if known then [ReadVault(i)] else LookingUp(i, l)) + [SecondRound(i), Check(i)];
      Run(all) && |After(all).requests| == i + 1 && After(all).requests[i] == Request(dev, Verifying(e, w.vaults[dev], w.clock))
  {
    var w := After(steps);
    var i, k, l, e := |w.requests|, |w.refreshes|, |w.lookups|, |w.entries|;
    var s1 := steps + [Arrive(dev)];
    var s2 := s1 + Refreshing(i, k, false);
    ArrivesAtTheEnd(steps, dev);
    RefreshGivesAnEntry(s1, i, false);
    RunKeeps(s2);
    if Knows(After(s2).entries[e], dev) {
      assert TrueVault(After(s2), dev, After(s2).entries[e].vaults[dev]);
      VaultReadDecides(s2, i, false, e, w.clock);
      FoundIsVerified(s2 + [ReadVault(i)], i, e, w.vaults[dev], w.clock);
    } else {
      LookupGivesTheVault(s2, i, e, w.clock);
      FoundIsVerified(s2 + LookingUp(i, l), i, e, w.vaults[dev], w.clock);
    }
  }
}
