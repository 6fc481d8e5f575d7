/** The factory-state cache of `paywall` (packages/middleware/src/core.ts) for one network:
a 5 s cache of the paused flag and vault addresses, shared refreshes and lookups, and the two
rounds of reads in front of the verifier. Requests, clock ticks, RPC answers and failures
interleave freely; vaults on chain never change once set. */
module FactoryCache {
  import opened Wrappers

  const TTL := 5000
  const ZERO := "0x0000000000000000000000000000000000000000"

  /** `FactoryStateEntry`; entries are objects, `vaults` is written after they are cached. */
  datatype Entry = Entry(paused: bool, vaults: map<string, string>, fetchedAt: int)

  /** A refresh: asked, answered by the RPC, stored, or failed. `captured` is the entry cached before. */
  datatype Refresh =
    | Asked(captured: Option<nat>)
    | Answered(captured: Option<nat>, paused: bool)
    | Stored(entry: nat)
    | RefreshFailed

  datatype Lookup =
    | VaultAsked(dev: string, entry: nat)
    | VaultAnswered(dev: string, entry: nat, vault: string)
    | VaultFound(dev: string, vault: string)
    | LookupFailed

  /** A request's place in `paywall`; `at` is the clock at its latest `readFactoryState`. */
  datatype Phase =
    | Start(second: bool)
    | OnRefresh(second: bool, refresh: nat, fallback: Option<nat>, at: int)
    | HasEntry(second: bool, entry: nat, at: int)
    | OnVault(second: bool, entry: nat, lookup: nat, at: int)
    | FirstDone(found: Option<nat>, payTo: string, at: int)
    | Checking(entry: nat, payTo: string, at: int)
    | Verifying(entry: nat, payTo: string, at: int)
    | Rejected

  /** `dev` is lowercase, as cache keys are. */
  datatype Request = Request(dev: string, phase: Phase)

  datatype World = World(
    clock: int, vaults: map<string, string>, entries: seq<Entry>, cache: Option<nat>,
    refreshes: seq<Refresh>, refreshing: Option<nat>, lookups: seq<Lookup>, looking: map<string, nat>,
    requests: seq<Request>)

  const FRESH := World(0, map[], [], None, [], None, [], map[], [])

  datatype Step =
    | Tick(ms: nat)
    | Deploy(dev: string, vault: string)
    | Arrive(dev: string)
    | ReadState(i: nat)
    | RefreshAnswer(k: nat, paused: bool)
    | RefreshStore(k: nat)
    | RefreshFail(k: nat)
    | ResumeRefresh(i: nat)
    | ReadVault(i: nat)
    | LookupAnswer(k: nat)
    | LookupStore(k: nat)
    | LookupFail(k: nat)
    | ResumeVault(i: nat)
    | SecondRound(i: nat)
    | Refuse(i: nat)
    | Check(i: nat)

  function VaultOf(vaults: map<string, string>, dev: string): string {
    if dev in vaults then vaults[dev] else ZERO
  }

  predicate Fresh(w: World) {
    w.cache.Some? && w.cache.value < |w.entries| && w.clock - w.entries[w.cache.value].fetchedAt < TTL
  }

  predicate At(w: World, i: nat) { i < |w.requests| }

  predicate Enabled(w: World, step: Step) {
    match step
    case Tick(_) => true
    case Deploy(dev, vault) => dev !in w.vaults && vault != ZERO
    case Arrive(_) => true
    case ReadState(i) => At(w, i) && w.requests[i].phase.Start?
    case RefreshAnswer(k, _) => k < |w.refreshes| && w.refreshes[k].Asked?
    case RefreshStore(k) =>
      k < |w.refreshes| && w.refreshes[k].Answered? &&
      (w.refreshes[k].captured.Some? ==> w.refreshes[k].captured.value < |w.entries|)
    case RefreshFail(k) => k < |w.refreshes| && w.refreshes[k].Asked?
    case ResumeRefresh(i) =>
      At(w, i) && w.requests[i].phase.OnRefresh? && w.requests[i].phase.refresh < |w.refreshes| &&
      (w.refreshes[w.requests[i].phase.refresh].Stored? || w.refreshes[w.requests[i].phase.refresh].RefreshFailed?)
    case ReadVault(i) => At(w, i) && w.requests[i].phase.HasEntry? && w.requests[i].phase.entry < |w.entries|
    case LookupAnswer(k) => k < |w.lookups| && w.lookups[k].VaultAsked?
    case LookupStore(k) => k < |w.lookups| && w.lookups[k].VaultAnswered? && w.lookups[k].entry < |w.entries|
    case LookupFail(k) => k < |w.lookups| && w.lookups[k].VaultAsked?
    case ResumeVault(i) =>
      At(w, i) && w.requests[i].phase.OnVault? && w.requests[i].phase.lookup < |w.lookups| &&
      (w.lookups[w.requests[i].phase.lookup].VaultFound? || w.lookups[w.requests[i].phase.lookup].LookupFailed?)
    case SecondRound(i) => At(w, i) && w.requests[i].phase.FirstDone?
    case Refuse(i) => At(w, i) && w.requests[i].phase.FirstDone?
    case Check(i) => At(w, i) && w.requests[i].phase.Checking? && w.requests[i].phase.entry < |w.entries|
  }

  function Put(w: World, i: nat, phase: Phase): World
    requires At(w, i)
  {
    w.(requests := w.requests[i := w.requests[i].(phase := phase)])
  }

  /** Where a round that got an entry and an address goes on. */
  function GotVault(second: bool, entry: nat, payTo: string, at: int): Phase {
    if second then Checking(entry, payTo, at) else FirstDone(Some(entry), payTo, at)
  }

  /** What `readFactoryState` comes back with: a fresh entry, the last good one marked stale, or an exception. */
  datatype StateRead = FreshRead(entry: nat) | StaleRead(entry: nat) | ReadThrew

  /** A stale entry is not used: the first round goes on without state, the second rejects. */
  function TakeRead(second: bool, read: StateRead, at: int): Phase {
    match read
    case FreshRead(e) => HasEntry(second, e, at)
    case StaleRead(_) => if second then Rejected else FirstDone(None, ZERO, at)
    case ReadThrew => if second then Rejected else FirstDone(None, ZERO, at)
  }

  /** `readFactoryState` up to its await. */
  function ReadFactoryState(w: World, i: nat, second: bool): World
    requires At(w, i)
  {
    if Fresh(w) then Put(w, i, HasEntry(second, w.cache.value, w.clock))
    else if w.refreshing.Some? then Put(w, i, OnRefresh(second, w.refreshing.value, None, w.clock))
    else
      Put(w.(refreshes := w.refreshes + [Asked(w.cache)], refreshing := Some(|w.refreshes|)),
          i, OnRefresh(second, |w.refreshes|, w.cache, w.clock))
  }

  /** `readVaultAddress` up to its await. */
  function ReadVaultAddress(w: World, i: nat): World
    requires At(w, i) && w.requests[i].phase.HasEntry? && w.requests[i].phase.entry < |w.entries|
  {
    var Request(dev, HasEntry(second, e, at)) := w.requests[i];
    var cached := VaultOf(w.entries[e].vaults, dev);
    if cached != ZERO then Put(w, i, GotVault(second, e, cached, at))
    else if dev in w.looking then Put(w, i, OnVault(second, e, w.looking[dev], at))
    else
      Put(w.(lookups := w.lookups + [VaultAsked(dev, e)], looking := w.looking[dev := |w.lookups|]),
          i, OnVault(second, e, |w.lookups|, at))
  }

  /** A refresh that was answered: the new entry starts from the addresses of the one cached before it. */
  function StoreEntry(w: World, k: nat): World
    requires k < |w.refreshes| && w.refreshes[k].Answered?
    requires w.refreshes[k].captured.Some? ==> w.refreshes[k].captured.value < |w.entries|
  {
    var Answered(captured, paused) := w.refreshes[k];
    var vaults := if captured.Some? then w.entries[captured.value].vaults else map[];
    w.(entries := w.entries + [Entry(paused, vaults, w.clock)], cache := Some(|w.entries|),
       refreshes := w.refreshes[k := Stored(|w.entries|)], refreshing := None)
  }

  /** A lookup that was answered: the address goes into the entry the lookup began with. */
  function StoreAddress(w: World, k: nat): World
    requires k < |w.lookups| && w.lookups[k].VaultAnswered? && w.lookups[k].entry < |w.entries|
  {
    var VaultAnswered(dev, e, vault) := w.lookups[k];
    w.(entries := w.entries[e := w.entries[e].(vaults := w.entries[e].vaults[dev := vault])],
       lookups := w.lookups[k := VaultFound(dev, vault)], looking := w.looking - {dev})
  }

  function Apply(w: World, step: Step): World
    requires Enabled(w, step)
  {
    match step
    case Tick(ms) => w.(clock := w.clock + ms)
    case Deploy(dev, vault) => w.(vaults := w.vaults[dev := vault])
    case Arrive(dev) => w.(requests := w.requests + [Request(dev, Start(false))])
    case ReadState(i) => ReadFactoryState(w, i, w.requests[i].phase.second)
    case RefreshAnswer(k, paused) => w.(refreshes := w.refreshes[k := Answered(w.refreshes[k].captured, paused)])
    case RefreshStore(k) => StoreEntry(w, k)
    case RefreshFail(k) => w.(refreshes := w.refreshes[k := RefreshFailed], refreshing := None)
    case ResumeRefresh(i) =>
      var OnRefresh(second, k, fallback, at) := w.requests[i].phase;
      var read := if w.refreshes[k].Stored? then FreshRead(w.refreshes[k].entry)
                  else if fallback.Some? then StaleRead(fallback.value)
                  else ReadThrew;
      Put(w, i, TakeRead(second, read, at))
    case ReadVault(i) => ReadVaultAddress(w, i)
    case LookupAnswer(k) =>
      var VaultAsked(dev, e) := w.lookups[k];
      w.(lookups := w.lookups[k := VaultAnswered(dev, e, VaultOf(w.vaults, dev))])
    case LookupStore(k) => StoreAddress(w, k)
    case LookupFail(k) => w.(lookups := w.lookups[k := LookupFailed], looking := w.looking - {w.lookups[k].dev})
    case ResumeVault(i) =>
      var OnVault(second, e, k, at) := w.requests[i].phase;
      if w.lookups[k].VaultFound? then Put(w, i, GotVault(second, e, w.lookups[k].vault, at))
      else Put(w, i, if second then Rejected else FirstDone(Some(e), ZERO, at))
    case SecondRound(i) =>
      var FirstDone(entry, payTo, at) := w.requests[i].phase;
      if entry.None? || payTo == ZERO then ReadFactoryState(w, i, true) else Put(w, i, Checking(entry.value, payTo, at))
    case Refuse(i) => Put(w, i, Rejected)
    case Check(i) =>
      var Checking(e, payTo, at) := w.requests[i].phase;
      Put(w, i, if w.entries[e].paused || payTo == ZERO then Rejected else Verifying(e, payTo, at))
  }

  predicate Run(steps: seq<Step>)
    decreases |steps|, 0
  {
    steps == [] || (Run(steps[..|steps| - 1]) && Enabled(After(steps[..|steps| - 1]), steps[|steps| - 1]))
  }

  function After(steps: seq<Step>): World
    requires Run(steps)
    decreases |steps|, 1
  {
    if steps == [] then FRESH else Apply(After(steps[..|steps| - 1]), steps[|steps| - 1])
  }

  // ---------------------------------------------------------------- invariant

  /** An address that is not zero is the one on chain. */
  predicate TrueVault(w: World, dev: string, vault: string) {
    vault != ZERO ==> VaultOf(w.vaults, dev) == vault
  }

  predicate EntriesOk(w: World) {
    (w.cache.Some? ==> w.cache.value < |w.entries|) &&
    forall e :: 0 <= e < |w.entries| ==>
      w.entries[e].fetchedAt <= w.clock && forall dev :: dev in w.entries[e].vaults ==> TrueVault(w, dev, w.entries[e].vaults[dev])
  }

  predicate RefreshOk(w: World, k: nat)
    requires k < |w.refreshes|
  {
    match w.refreshes[k]
    case Asked(c) => w.refreshing == Some(k) && (c.Some? ==> c.value < |w.entries|)
    case Answered(c, _) => w.refreshing == Some(k) && (c.Some? ==> c.value < |w.entries|)
    case Stored(e) => e < |w.entries|
    case RefreshFailed => true
  }

  predicate LookupOk(w: World, k: nat)
    requires k < |w.lookups|
  {
    match w.lookups[k]
    case VaultAsked(dev, e) => e < |w.entries| && dev in w.looking && w.looking[dev] == k
    case VaultAnswered(dev, e, vault) => e < |w.entries| && dev in w.looking && w.looking[dev] == k && TrueVault(w, dev, vault)
    case VaultFound(dev, vault) => TrueVault(w, dev, vault)
    case LookupFailed => true
  }

  /** At most one refresh is out, and one lookup per developer. */
  predicate CallsOk(w: World) {
    (forall k :: 0 <= k < |w.refreshes| ==> RefreshOk(w, k)) &&
    (w.refreshing.Some? ==>
      w.refreshing.value < |w.refreshes| &&
      (w.refreshes[w.refreshing.value].Asked? || w.refreshes[w.refreshing.value].Answered?)) &&
    (forall k :: 0 <= k < |w.lookups| ==> LookupOk(w, k)) &&
    (forall dev :: dev in w.looking ==>
      w.looking[dev] < |w.lookups| &&
      (w.lookups[w.looking[dev]].VaultAsked? || w.lookups[w.looking[dev]].VaultAnswered?) &&
      w.lookups[w.looking[dev]].dev == dev)
  }

  /** The entry was under five seconds old, or not yet fetched, when it was looked up. */
  predicate FreshAt(w: World, e: nat, at: int) {
    e < |w.entries| && at - w.entries[e].fetchedAt < TTL
  }

  predicate PhaseOk(w: World, dev: string, phase: Phase) {
    match phase
    case Start(_) => true
    case OnRefresh(_, k, _, at) =>
      at <= w.clock && k < |w.refreshes| && (w.refreshes[k].Stored? ==> FreshAt(w, w.refreshes[k].entry, at))
    case HasEntry(_, e, at) => FreshAt(w, e, at)
    case OnVault(_, e, k, at) =>
      FreshAt(w, e, at) && k < |w.lookups| &&
      (w.lookups[k].LookupFailed? || w.lookups[k].dev == dev)
    case FirstDone(entry, payTo, at) => entry.Some? ==> FreshAt(w, entry.value, at) && TrueVault(w, dev, payTo)
    case Checking(e, payTo, at) => FreshAt(w, e, at) && TrueVault(w, dev, payTo)
    case Verifying(e, payTo, at) =>
      FreshAt(w, e, at) && !w.entries[e].paused && payTo != ZERO && TrueVault(w, dev, payTo)
    case Rejected => true
  }

  predicate RequestsOk(w: World) {
    forall i :: 0 <= i < |w.requests| ==> PhaseOk(w, w.requests[i].dev, w.requests[i].phase)
  }

  predicate Inv(w: World) { EntriesOk(w) && CallsOk(w) && RequestsOk(w) }

  // ---------------------------------------------------------------- every step keeps it

  /** Time passes, entries are added or get addresses, calls move on: a request's facts stay. */
  predicate Later(w: World, v: World) {
    w.clock <= v.clock && |w.entries| <= |v.entries| && |w.refreshes| <= |v.refreshes| && |w.lookups| <= |v.lookups| &&
    (forall e :: 0 <= e < |w.entries| ==>
      v.entries[e].fetchedAt == w.entries[e].fetchedAt && v.entries[e].paused == w.entries[e].paused) &&
    (forall dev :: dev in w.vaults ==> dev in v.vaults && v.vaults[dev] == w.vaults[dev]) &&
    (forall k :: 0 <= k < |w.refreshes| && v.refreshes[k].Stored? ==>
      v.refreshes[k] == w.refreshes[k] || FreshAt(v, v.refreshes[k].entry, w.clock)) &&
    (forall k :: 0 <= k < |w.lookups| ==>
      v.lookups[k].LookupFailed? || (!w.lookups[k].LookupFailed? && v.lookups[k].dev == w.lookups[k].dev))
  }

  lemma PhaseStays(w: World, v: World, dev: string, phase: Phase)
    requires EntriesOk(w) && CallsOk(w) && PhaseOk(w, dev, phase) && Later(w, v)
    ensures PhaseOk(v, dev, phase)
  {
  }

  lemma RequestsStay(w: World, v: World)
    requires EntriesOk(w) && CallsOk(w) && RequestsOk(w) && Later(w, v) && v.requests == w.requests
    ensures RequestsOk(v)
  {
    forall i | 0 <= i < |v.requests| ensures PhaseOk(v, v.requests[i].dev, v.requests[i].phase) {
      PhaseStays(w, v, w.requests[i].dev, w.requests[i].phase);
    }
  }

  lemma MoveKeeps(w: World, i: nat, phase: Phase)
    requires Inv(w) && At(w, i) && PhaseOk(w, w.requests[i].dev, phase)
    ensures Inv(Put(w, i, phase))
  {
    var v := Put(w, i, phase);
    forall j | 0 <= j < |v.requests| ensures PhaseOk(v, v.requests[j].dev, v.requests[j].phase) {
      if j == i {
        PhaseStays(w, v, w.requests[i].dev, phase);
      } else {
        PhaseStays(w, v, w.requests[j].dev, w.requests[j].phase);
      }
    }
    assert forall k :: 0 <= k < |v.refreshes| ==> RefreshOk(w, k) ==> RefreshOk(v, k);
    assert forall k :: 0 <= k < |v.lookups| ==> LookupOk(w, k) ==> LookupOk(v, k);
  }

  lemma TickKeeps(w: World, ms: nat)
    requires Inv(w)
    ensures Inv(Apply(w, Tick(ms)))
  {
    var v := Apply(w, Tick(ms));
    RequestsStay(w, v);
    assert forall k :: 0 <= k < |v.refreshes| ==> RefreshOk(w, k) ==> RefreshOk(v, k);
    assert forall k :: 0 <= k < |v.lookups| ==> LookupOk(w, k) ==> LookupOk(v, k);
  }

  lemma DeployKeeps(w: World, dev: string, vault: string)
    requires Inv(w) && Enabled(w, Deploy(dev, vault))
    ensures Inv(Apply(w, Deploy(dev, vault)))
  {
    var v := Apply(w, Deploy(dev, vault));
    RequestsStay(w, v);
    assert forall k :: 0 <= k < |v.refreshes| ==> RefreshOk(w, k) ==> RefreshOk(v, k);
    forall k | 0 <= k < |v.lookups| ensures LookupOk(v, k) { assert LookupOk(w, k); }
  }

  lemma StartRefreshKeeps(w: World)
    requires Inv(w) && w.refreshing.None?
    ensures Inv(w.(refreshes := w.refreshes + [Asked(w.cache)], refreshing := Some(|w.refreshes|)))
  {
    var v := w.(refreshes := w.refreshes + [Asked(w.cache)], refreshing := Some(|w.refreshes|));
    RequestsStay(w, v);
    forall k | 0 <= k < |v.refreshes| ensures RefreshOk(v, k) { if k < |w.refreshes| { assert RefreshOk(w, k); } }
    assert forall k :: 0 <= k < |v.lookups| ==> LookupOk(w, k) ==> LookupOk(v, k);
  }

  lemma ReadStateKeeps(w: World, i: nat, second: bool)
    requires Inv(w) && At(w, i)
    ensures Inv(ReadFactoryState(w, i, second))
  {
    if Fresh(w) {
      MoveKeeps(w, i, HasEntry(second, w.cache.value, w.clock));
    } else if w.refreshing.Some? {
      MoveKeeps(w, i, OnRefresh(second, w.refreshing.value, None, w.clock));
    } else {
      StartRefreshKeeps(w);
      MoveKeeps(w.(refreshes := w.refreshes + [Asked(w.cache)], refreshing := Some(|w.refreshes|)),
                i, OnRefresh(second, |w.refreshes|, w.cache, w.clock));
    }
  }

  lemma RefreshAnswerKeeps(w: World, k: nat, paused: bool)
    requires Inv(w) && Enabled(w, RefreshAnswer(k, paused))
    ensures Inv(Apply(w, RefreshAnswer(k, paused)))
  {
    var v := Apply(w, RefreshAnswer(k, paused));
    RequestsStay(w, v);
    assert RefreshOk(w, k);
    forall j | 0 <= j < |v.refreshes| ensures RefreshOk(v, j) { assert RefreshOk(w, j); }
    assert forall j :: 0 <= j < |v.lookups| ==> LookupOk(w, j) ==> LookupOk(v, j);
  }

  lemma RefreshFailKeeps(w: World, k: nat)
    requires Inv(w) && Enabled(w, RefreshFail(k))
    ensures Inv(Apply(w, RefreshFail(k)))
  {
    var v := Apply(w, RefreshFail(k));
    RequestsStay(w, v);
    assert RefreshOk(w, k);
    forall j | 0 <= j < |v.refreshes| ensures RefreshOk(v, j) { assert RefreshOk(w, j); }
    assert forall j :: 0 <= j < |v.lookups| ==> LookupOk(w, j) ==> LookupOk(v, j);
  }

  lemma RefreshStoreKeeps(w: World, k: nat)
    requires Inv(w) && Enabled(w, RefreshStore(k))
    ensures Inv(Apply(w, RefreshStore(k)))
  {
    var v := Apply(w, RefreshStore(k));
    RequestsStay(w, v);
    assert RefreshOk(w, k);
    forall j | 0 <= j < |v.refreshes| ensures RefreshOk(v, j) { assert RefreshOk(w, j); }
    forall j | 0 <= j < |v.lookups| ensures LookupOk(v, j) { assert LookupOk(w, j); }
  }

  lemma ResumeRefreshKeeps(w: World, i: nat)
    requires Inv(w) && Enabled(w, ResumeRefresh(i))
    ensures Inv(Apply(w, ResumeRefresh(i)))
  {
    var OnRefresh(second, k, fallback, at) := w.requests[i].phase;
    assert PhaseOk(w, w.requests[i].dev, w.requests[i].phase);
    var read := if w.refreshes[k].Stored? then FreshRead(w.refreshes[k].entry)
                else if fallback.Some? then StaleRead(fallback.value)
                else ReadThrew;
    MoveKeeps(w, i, TakeRead(second, read, at));
  }

  lemma StartLookupKeeps(w: World, dev: string, e: nat)
    requires Inv(w) && dev !in w.looking && e < |w.entries|
    ensures Inv(w.(lookups := w.lookups + [VaultAsked(dev, e)], looking := w.looking[dev := |w.lookups|]))
  {
    var v := w.(lookups := w.lookups + [VaultAsked(dev, e)], looking := w.looking[dev := |w.lookups|]);
    RequestsStay(w, v);
    assert forall k :: 0 <= k < |v.refreshes| ==> RefreshOk(w, k) ==> RefreshOk(v, k);
    forall k | 0 <= k < |v.lookups| ensures LookupOk(v, k) { if k < |w.lookups| { assert LookupOk(w, k); } }
  }

  lemma ReadVaultKeeps(w: World, i: nat)
    requires Inv(w) && Enabled(w, ReadVault(i))
    ensures Inv(ReadVaultAddress(w, i))
  {
    var Request(dev, HasEntry(second, e, at)) := w.requests[i];
    assert PhaseOk(w, dev, w.requests[i].phase);
    var cached := VaultOf(w.entries[e].vaults, dev);
    if cached != ZERO {
      MoveKeeps(w, i, GotVault(second, e, cached, at));
    } else if dev in w.looking {
      MoveKeeps(w, i, OnVault(second, e, w.looking[dev], at));
    } else {
      StartLookupKeeps(w, dev, e);
      MoveKeeps(w.(lookups := w.lookups + [VaultAsked(dev, e)], looking := w.looking[dev := |w.lookups|]),
                i, OnVault(second, e, |w.lookups|, at));
    }
  }

  lemma LookupAnswerKeeps(w: World, k: nat)
    requires Inv(w) && Enabled(w, LookupAnswer(k))
    ensures Inv(Apply(w, LookupAnswer(k)))
  {
    var v := Apply(w, LookupAnswer(k));
    RequestsStay(w, v);
    assert LookupOk(w, k);
    assert forall j :: 0 <= j < |v.refreshes| ==> RefreshOk(w, j) ==> RefreshOk(v, j);
    forall j | 0 <= j < |v.lookups| ensures LookupOk(v, j) { assert LookupOk(w, j); }
  }

  lemma LookupFailKeeps(w: World, k: nat)
    requires Inv(w) && Enabled(w, LookupFail(k))
    ensures Inv(Apply(w, LookupFail(k)))
  {
    var v := Apply(w, LookupFail(k));
    RequestsStay(w, v);
    assert LookupOk(w, k);
    assert forall j :: 0 <= j < |v.refreshes| ==> RefreshOk(w, j) ==> RefreshOk(v, j);
    forall j | 0 <= j < |v.lookups| ensures LookupOk(v, j) { assert LookupOk(w, j); }
  }

  lemma LookupStoreKeeps(w: World, k: nat)
    requires Inv(w) && Enabled(w, LookupStore(k))
    ensures Inv(Apply(w, LookupStore(k)))
  {
    var v := Apply(w, LookupStore(k));
    RequestsStay(w, v);
    assert LookupOk(w, k);
    assert forall j :: 0 <= j < |v.refreshes| ==> RefreshOk(w, j) ==> RefreshOk(v, j);
    forall j | 0 <= j < |v.lookups| ensures LookupOk(v, j) { assert LookupOk(w, j); }
  }

  lemma ResumeVaultKeeps(w: World, i: nat)
    requires Inv(w) && Enabled(w, ResumeVault(i))
    ensures Inv(Apply(w, ResumeVault(i)))
  {
    var OnVault(second, e, k, at) := w.requests[i].phase;
    assert PhaseOk(w, w.requests[i].dev, w.requests[i].phase);
    assert LookupOk(w, k);
    MoveKeeps(w, i, if w.lookups[k].VaultFound? then GotVault(second, e, w.lookups[k].vault, at)
                    else if second then Rejected else FirstDone(Some(e), ZERO, at));
  }

  lemma DecideKeeps(w: World, i: nat, step: Step)
    requires Inv(w) && Enabled(w, step) && (step == SecondRound(i) || step == Refuse(i) || step == Check(i))
    ensures Inv(Apply(w, step))
  {
    assert PhaseOk(w, w.requests[i].dev, w.requests[i].phase);
    match step
    case SecondRound(_) =>
      var FirstDone(found, payTo, at) := w.requests[i].phase;
      if found.None? || payTo == ZERO {
        ReadStateKeeps(w, i, true);
      } else {
        MoveKeeps(w, i, Checking(found.value, payTo, at));
      }
    case Refuse(_) => MoveKeeps(w, i, Rejected);
    case Check(_) =>
      var Checking(e, payTo, at) := w.requests[i].phase;
      MoveKeeps(w, i, if w.entries[e].paused || payTo == ZERO then Rejected else Verifying(e, payTo, at));
  }

  lemma ArriveKeeps(w: World, dev: string)
    requires Inv(w)
    ensures Inv(Apply(w, Arrive(dev)))
  {
    var v := Apply(w, Arrive(dev));
    forall j | 0 <= j < |v.requests| ensures PhaseOk(v, v.requests[j].dev, v.requests[j].phase) {
      if j < |w.requests| { PhaseStays(w, v, w.requests[j].dev, w.requests[j].phase); }
    }
    assert forall k :: 0 <= k < |v.refreshes| ==> RefreshOk(w, k) ==> RefreshOk(v, k);
    assert forall k :: 0 <= k < |v.lookups| ==> LookupOk(w, k) ==> LookupOk(v, k);
  }

  lemma StepKeeps(w: World, step: Step)
    requires Inv(w) && Enabled(w, step)
    ensures Inv(Apply(w, step))
  {
    match step
    case Tick(ms) => TickKeeps(w, ms);
    case Deploy(dev, vault) => DeployKeeps(w, dev, vault);
    case Arrive(dev) => ArriveKeeps(w, dev);
    case ReadState(i) => ReadStateKeeps(w, i, w.requests[i].phase.second);
    case RefreshAnswer(k, paused) => RefreshAnswerKeeps(w, k, paused);
    case RefreshStore(k) => RefreshStoreKeeps(w, k);
    case RefreshFail(k) => RefreshFailKeeps(w, k);
    case ResumeRefresh(i) => ResumeRefreshKeeps(w, i);
    case ReadVault(i) => ReadVaultKeeps(w, i);
    case LookupAnswer(k) => LookupAnswerKeeps(w, k);
    case LookupStore(k) => LookupStoreKeeps(w, k);
    case LookupFail(k) => LookupFailKeeps(w, k);
    case ResumeVault(i) => ResumeVaultKeeps(w, i);
    case SecondRound(i) => DecideKeeps(w, i, step);
    case Refuse(i) => DecideKeeps(w, i, step);
    case Check(i) => DecideKeeps(w, i, step);
  }

  lemma {:induction false} RunKeeps(steps: seq<Step>)
    requires Run(steps)
    ensures Inv(After(steps))
    decreases |steps|
  {
    if steps != [] {
      RunKeeps(steps[..|steps| - 1]);
      StepKeeps(After(steps[..|steps| - 1]), steps[|steps| - 1]);
    }
  }

  // ---------------------------------------------------------------- theorems

  /** The verifier is only reached with an unpaused entry that was under five seconds old, or
      fetched since, when it was looked up, and with the developer's vault on chain. */
  lemma {:induction false} VerifierSeesFreshUnpausedState(steps: seq<Step>, i: nat)
    requires Run(steps) && i < |After(steps).requests| && After(steps).requests[i].phase.Verifying?
    ensures var w := After(steps); var Request(dev, Verifying(e, payTo, at)) := w.requests[i];
      e < |w.entries| && !w.entries[e].paused && at - w.entries[e].fetchedAt < 5000 &&
      payTo != ZERO && dev in w.vaults && w.vaults[dev] == payTo
  {
    RunKeeps(steps);
    var w := After(steps);
    assert PhaseOk(w, w.requests[i].dev, w.requests[i].phase);
  }

  /** One refresh at a time, and one vault lookup per developer, however many requests wait for them. */
  lemma {:induction false} CallsAreShared(steps: seq<Step>, j: nat, k: nat)
    requires Run(steps)
    ensures var rs := After(steps).refreshes;
      j < |rs| && k < |rs| && (rs[j].Asked? || rs[j].Answered?) && (rs[k].Asked? || rs[k].Answered?) ==> j == k
    ensures var ls := After(steps).lookups;
      (j < |ls| && k < |ls| && (ls[j].VaultAsked? || ls[j].VaultAnswered?) &&
       (ls[k].VaultAsked? || ls[k].VaultAnswered?) && ls[j].dev == ls[k].dev) ==> j == k
  {
    RunKeeps(steps);
    var w := After(steps);
    assert j < |w.refreshes| ==> RefreshOk(w, j);
    assert k < |w.refreshes| ==> RefreshOk(w, k);
    assert j < |w.lookups| ==> LookupOk(w, j);
    assert k < |w.lookups| ==> LookupOk(w, k);
  }

  // ---------------------------------------------------------------- fallback entries

  /** The request has looked an entry up, and is not over. */
  predicate Timed(p: Phase) { !p.Start? && !p.Rejected? }

  /** A lookup is not in the future, and its fallback entry was too old. */
  predicate StampOk(w: World, p: Phase) {
    (Timed(p) ==> p.at <= w.clock) &&
    (p.OnRefresh? && p.fallback.Some? ==>
      p.fallback.value < |w.entries| && p.at - w.entries[p.fallback.value].fetchedAt >= TTL)
  }

  predicate StampsOk(w: World) {
    forall i :: 0 <= i < |w.requests| ==> StampOk(w, w.requests[i].phase)
  }

  /** Entries keep their time, the clock goes on, and a request that has looked an entry up looks
      another one up later or is over. */
  predicate GoesOn(w: World, v: World) {
    w.clock <= v.clock && |w.entries| <= |v.entries| && |w.requests| <= |v.requests| &&
    (forall e :: 0 <= e < |w.entries| ==> v.entries[e].fetchedAt == w.entries[e].fetchedAt) &&
    (forall i :: 0 <= i < |w.requests| && Timed(w.requests[i].phase) ==>
      v.requests[i].phase.Rejected? || (Timed(v.requests[i].phase) && v.requests[i].phase.at >= w.requests[i].phase.at)) &&
    (forall i :: 0 <= i < |w.requests| && w.requests[i].phase.Rejected? ==> v.requests[i].phase.Rejected?)
  }

  /** Steps that move no request. */
  lemma StampsStay(w: World, v: World)
    requires StampsOk(w) && v.requests == w.requests && w.clock <= v.clock && |w.entries| <= |v.entries|
    requires forall e :: 0 <= e < |w.entries| ==> v.entries[e].fetchedAt == w.entries[e].fetchedAt
    ensures StampsOk(v) && GoesOn(w, v)
  {
    forall i | 0 <= i < |v.requests|
      ensures StampOk(v, v.requests[i].phase)
    {
      assert StampOk(w, w.requests[i].phase);
    }
  }

  /** Steps that move one request, and maybe start a call for it. */
  lemma StampMoves(w: World, v: World, i: nat, phase: Phase)
    requires StampsOk(w) && At(w, i) && v.requests == w.requests[i := w.requests[i].(phase := phase)]
    requires v.clock == w.clock && v.entries == w.entries && StampOk(w, phase) && !w.requests[i].phase.Rejected?
    requires Timed(w.requests[i].phase) ==> phase.Rejected? || (Timed(phase) && phase.at >= w.requests[i].phase.at)
    ensures StampsOk(v) && GoesOn(w, v)
  {
    forall j | 0 <= j < |v.requests|
      ensures StampOk(v, v.requests[j].phase)
    {
      assert j != i ==> StampOk(w, w.requests[j].phase);
    }
  }

  lemma ReadStampsOk(w: World, i: nat, second: bool)
    requires EntriesOk(w) && StampsOk(w) && At(w, i) && !w.requests[i].phase.Rejected?
    ensures StampsOk(ReadFactoryState(w, i, second)) && GoesOn(w, ReadFactoryState(w, i, second))
  {
    assert StampOk(w, w.requests[i].phase);
    var v := ReadFactoryState(w, i, second);
    StampMoves(w, v, i, v.requests[i].phase);
  }

  lemma MoveStampsOk(w: World, step: Step, i: nat)
    requires Inv(w) && StampsOk(w) && Enabled(w, step) && At(w, i)
    requires step == ResumeRefresh(i) || step == ReadVault(i) || step == ResumeVault(i) || step == Refuse(i) || step == Check(i)
    ensures StampsOk(Apply(w, step)) && GoesOn(w, Apply(w, step))
  {
    assert StampOk(w, w.requests[i].phase);
    var v := Apply(w, step);
    StampMoves(w, v, i, v.requests[i].phase);
  }

  lemma ArriveStampsOk(w: World, dev: string)
    requires StampsOk(w)
    ensures StampsOk(Apply(w, Arrive(dev))) && GoesOn(w, Apply(w, Arrive(dev)))
  {
    var v := Apply(w, Arrive(dev));
    forall i | 0 <= i < |v.requests|
      ensures StampOk(v, v.requests[i].phase)
    {
      assert i < |w.requests| ==> StampOk(w, w.requests[i].phase);
    }
  }

  lemma SecondStampsOk(w: World, i: nat)
    requires Inv(w) && StampsOk(w) && Enabled(w, SecondRound(i))
    ensures StampsOk(Apply(w, SecondRound(i))) && GoesOn(w, Apply(w, SecondRound(i)))
  {
    var FirstDone(found, payTo, at) := w.requests[i].phase;
    if found.None? || payTo == ZERO {
      ReadStampsOk(w, i, true);
    } else {
      assert StampOk(w, w.requests[i].phase);
      StampMoves(w, Apply(w, SecondRound(i)), i, Checking(found.value, payTo, at));
    }
  }

  lemma StepStampsOk(w: World, step: Step)
    requires Inv(w) && StampsOk(w) && Enabled(w, step)
    ensures StampsOk(Apply(w, step)) && GoesOn(w, Apply(w, step))
  {
    match step
    case Arrive(dev) => ArriveStampsOk(w, dev);
    case ReadState(i) => ReadStampsOk(w, i, w.requests[i].phase.second);
    case SecondRound(i) => SecondStampsOk(w, i);
    case ResumeRefresh(i) => MoveStampsOk(w, step, i);
    case ReadVault(i) => MoveStampsOk(w, step, i);
    case ResumeVault(i) => MoveStampsOk(w, step, i);
    case Refuse(i) => MoveStampsOk(w, step, i);
    case Check(i) => MoveStampsOk(w, step, i);
    case _ => StampsStay(w, Apply(w, step));
  }

  lemma {:induction false} RunStampsOk(steps: seq<Step>)
    requires Run(steps)
    ensures StampsOk(After(steps))
    decreases |steps|
  {
    if steps != [] {
      RunStampsOk(steps[..|steps| - 1]);
      RunKeeps(steps[..|steps| - 1]);
      StepStampsOk(After(steps[..|steps| - 1]), steps[|steps| - 1]);
    }
  }

  lemma GoesOnOn(u: World, v: World, w: World)
    requires GoesOn(u, v) && GoesOn(v, w)
    ensures GoesOn(u, w)
  {
  }

  lemma {:induction false} RunGoesOn(steps: seq<Step>, more: seq<Step>)
    requires Run(steps) && Run(steps + more)
    ensures GoesOn(After(steps), After(steps + more))
    decreases |more|
  {
    if more == [] {
      assert steps + more == steps;
    } else {
      var before := steps + more[..|more| - 1];
      assert (steps + more)[..|steps + more| - 1] == before;
      RunGoesOn(steps, more[..|more| - 1]);
      RunKeeps(before);
      RunStampsOk(before);
      StepStampsOk(After(before), more[|more| - 1]);
      GoesOnOn(After(steps), After(before), After(steps + more));
    }
  }

  /** The entry a request holds as its fallback, while it waits for a refresh, is never the entry it
      is verified with: not when the refresh fails and not in the second round, whatever happens. */
  lemma {:induction false} StaleEntryNeverVerifies(steps: seq<Step>, more: seq<Step>, i: nat)
    requires Run(steps) && Run(steps + more) && i < |After(steps).requests|
    requires After(steps).requests[i].phase.OnRefresh? && After(steps).requests[i].phase.fallback.Some?
    ensures i < |After(steps + more).requests|
    ensures var p := After(steps + more).requests[i].phase;
      p.Verifying? ==> p.entry != After(steps).requests[i].phase.fallback.value
  {
    RunStampsOk(steps);
    RunGoesOn(steps, more);
    assert StampOk(After(steps), After(steps).requests[i].phase);
    if After(steps + more).requests[i].phase.Verifying? {
      VerifierSeesFreshUnpausedState(steps + more, i);
    }
  }
}
