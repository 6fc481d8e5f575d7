/** The factory-state cache as `paywall` keeps it (packages/middleware/src/core.ts): entries are
objects that are shared by the cache, running lookups and waiting requests, and their `vaults`
maps are objects that are written in place. Each method is the code between two awaits, and is
one step of FactoryCache. */
module PaywallCache {
  import opened Wrappers
  import opened FactoryCache

  /** A JavaScript `Map` from developers to vaults. */
  class AddressMap {
    var addresses: map<string, string>

    constructor (known: map<string, string>)
      ensures addresses == known
    {
      addresses := known;
    }
  }

  class FactoryStateEntry {
    const paused: bool
    const vaults: AddressMap
    const fetchedAt: int

    constructor (p: bool, known: AddressMap, now: int)
      ensures paused == p && vaults == known && fetchedAt == now
    {
      paused, vaults, fetchedAt := p, known, now;
    }
  }

  /** The entries as they are, given their maps. */
  function Views(es: seq<FactoryStateEntry>, ms: seq<AddressMap>): (vs: seq<Entry>)
    requires |es| == |ms|
    reads ms
    ensures |vs| == |es|
  {
    if es == [] then []
    else
      var last := |es| - 1;
      Views(es[..last], ms[..last]) + [Entry(es[last].paused, ms[last].addresses, es[last].fetchedAt)]
  }

  lemma {:induction false} ViewsAt(es: seq<FactoryStateEntry>, ms: seq<AddressMap>, i: nat)
    requires i < |es| == |ms|
    ensures Views(es, ms)[i] == Entry(es[i].paused, ms[i].addresses, es[i].fetchedAt)
  {
    if i < |es| - 1 {
      ViewsAt(es[..|es| - 1], ms[..|es| - 1], i);
    }
  }

  /** `entries` lists the entries in the order they were made; a reference to one is its place. */
  class Caches {
    ghost var deployed: map<string, string>
    var clock: int
    var entries: seq<FactoryStateEntry>
    /** Their maps. */
    ghost var maps: seq<AddressMap>
    var cache: Option<nat>
    var refreshes: seq<Refresh>
    var refreshing: Option<nat>
    var lookups: seq<Lookup>
    var looking: map<string, nat>
    var requests: seq<Request>

    /** No two entries share a map, so a write to one shows in that entry only. */
    ghost predicate Valid()
      reads this
    {
      |maps| == |entries| && (forall i :: 0 <= i < |entries| ==> entries[i].vaults == maps[i]) &&
      forall i, j :: 0 <= i < j < |maps| ==> maps[i] != maps[j]
    }

    ghost function View(): World
      requires Valid()
      reads this, maps
    {
      World(clock, deployed, Views(entries, maps), cache, refreshes, refreshing, lookups, looking, requests)
    }

    constructor ()
      ensures Valid() && View() == FRESH
    {
      deployed, clock, entries, maps, cache := map[], 0, [], [], None;
      refreshes, refreshing, lookups, looking, requests := [], None, [], map[], [];
    }

    method Move(i: nat, phase: Phase)
      requires i < |requests|
      modifies this`requests
      ensures requests == old(requests)[i := old(requests)[i].(phase := phase)]
    {
      requests := requests[i := requests[i].(phase := phase)];
    }

    method AddEntry(paused: bool, known: AddressMap)
      requires Valid() && known !in maps
      modifies this`entries, this`maps
      ensures Valid() && |entries| == old(|entries|) + 1 && entries[..old(|entries|)] == old(entries)
      ensures maps == old(maps) + [known] && fresh(entries[old(|entries|)])
      ensures View() == old(View()).(entries := old(View()).entries + [Entry(paused, known.addresses, clock)])
    {
      ghost var before := Views(entries, maps);
      var next := new FactoryStateEntry(paused, known, clock);
      entries := entries + [next];
      maps := maps + [known];
      assert entries[..|entries| - 1] == old(entries) && maps[..|maps| - 1] == old(maps);
    }

    method Learn(e: nat, dev: string, vault: string)
      requires Valid() && e < |entries|
      modifies maps[e]
      ensures Valid() && Views(entries, maps) ==
        var vs := old(Views(entries, maps)); vs[e := vs[e].(vaults := vs[e].vaults[dev := vault])]
    {
      ghost var before := Views(entries, maps);
      forall i | 0 <= i < |entries|
        ensures before[i] == Entry(entries[i].paused, maps[i].addresses, entries[i].fetchedAt)
      {
        ViewsAt(entries, maps, i);
      }
      var known := entries[e].vaults;
      known.addresses := known.addresses[dev := vault];
      ghost var after := Views(entries, maps);
      forall i | 0 <= i < |entries|
        ensures after[i] == Entry(entries[i].paused, maps[i].addresses, entries[i].fetchedAt)
      {
        ViewsAt(entries, maps, i);
      }
      assert after == before[e := before[e].(vaults := before[e].vaults[dev := vault])];
    }

    /** `readFactoryState` up to its await. */
    method ReadState(i: nat, second: bool)
      requires Valid() && i < |requests|
      modifies this
      ensures Valid() && entries == old(entries) && maps == old(maps) && View() == ReadFactoryState(old(View()), i, second)
    {
      var now := clock;
      if cache.Some? && cache.value < |entries| {
        ViewsAt(entries, maps, cache.value);
      }
      if cache.Some? && cache.value < |entries| && now - entries[cache.value].fetchedAt < TTL {
        Move(i, HasEntry(second, cache.value, now));
        return;
      }
      if refreshing.Some? {
        Move(i, OnRefresh(second, refreshing.value, None, now));
        return;
      }
      var k := |refreshes|;
      refreshes := refreshes + [Asked(cache)];
      refreshing := Some(k);
      Move(i, OnRefresh(second, k, cache, now));
    }

    /** `new Map(cached.vaults)`: the addresses known when the refresh began, in a map of their own. */
    method CopyKnown(captured: Option<nat>) returns (known: AddressMap)
      requires Valid() && (captured.Some? ==> captured.value < |entries|)
      ensures fresh(known)
      ensures known.addresses == if captured.Some? then Views(entries, maps)[captured.value].vaults else map[]
    {
      if captured.None? {
        known := new AddressMap(map[]);
      } else {
        ViewsAt(entries, maps, captured.value);
        known := new AddressMap(entries[captured.value].vaults.addresses);
      }
    }

    method Keep(k: nat, e: nat)
      requires Valid() && k < |refreshes|
      modifies this`cache, this`refreshes, this`refreshing
      ensures Valid()
      ensures View() == old(View()).(cache := Some(e), refreshes := old(refreshes)[k := Stored(e)], refreshing := None)
    {
      cache, refreshes, refreshing := Some(e), refreshes[k := Stored(e)], None;
    }

    /** The refresh's RPC has answered: a new entry takes over the known addresses; what is learnt
        later through either entry is not seen through the other. */
    method StoreRefresh(k: nat)
      requires Valid() && k < |refreshes| && refreshes[k].Answered?
      requires refreshes[k].captured.Some? ==> refreshes[k].captured.value < |entries|
      modifies this
      ensures Valid() && View() == StoreEntry(old(View()), k)
      ensures entries[..|entries| - 1] == old(entries) && fresh(maps[|maps| - 1]) && maps[..|maps| - 1] == old(maps)
    {
      var known := CopyKnown(refreshes[k].captured);
      AddEntry(refreshes[k].paused, known);
      Keep(k, |entries| - 1);
    }

    method FailRefresh(k: nat)
      requires Valid() && Enabled(View(), RefreshFail(k))
      modifies this
      ensures Valid() && entries == old(entries) && maps == old(maps) && View() == Apply(old(View()), RefreshFail(k))
    {
      refreshes := refreshes[k := RefreshFailed];
      refreshing := None;
    }

    /** A known address is used, a running lookup joined, and otherwise one begun. */
    method FindVault(dev: string, second: bool, e: nat, at: int) returns (phase: Phase)
      requires Valid() && e < |entries|
      modifies this`lookups, this`looking
      ensures var known := VaultOf(Views(entries, maps)[e].vaults, dev);
        if known != ZERO || dev in old(looking) then
          lookups == old(lookups) && looking == old(looking) &&
          phase == if known != ZERO then GotVault(second, e, known, at) else OnVault(second, e, looking[dev], at)
        else
          lookups == old(lookups) + [VaultAsked(dev, e)] && looking == old(looking)[dev := |old(lookups)|] &&
          phase == OnVault(second, e, |old(lookups)|, at)
    {
      ViewsAt(entries, maps, e);
      var known := entries[e].vaults.addresses;
      if dev in known && known[dev] != ZERO {
        return GotVault(second, e, known[dev], at);
      }
      if dev in looking {
        return OnVault(second, e, looking[dev], at);
      }
      phase := OnVault(second, e, |lookups|, at);
      looking := looking[dev := |lookups|];
      lookups := lookups + [VaultAsked(dev, e)];
    }

    /** `readVaultAddress` up to its await. */
    method ReadVault(i: nat)
      requires Valid() && i < |requests| && requests[i].phase.HasEntry? && requests[i].phase.entry < |entries|
      modifies this
      ensures Valid() && entries == old(entries) && maps == old(maps) && View() == ReadVaultAddress(old(View()), i)
    {
      var r := requests[i];
      var phase := FindVault(r.dev, r.phase.second, r.phase.entry, r.phase.at);
      Move(i, phase);
    }

    /** The lookup's RPC has answered: the address goes into the entry the lookup began with. */
    method StoreVault(k: nat)
      requires Valid() && k < |lookups| && lookups[k].VaultAnswered? && lookups[k].entry < |entries|
      modifies this`lookups, this`looking, maps[lookups[k].entry]
      ensures Valid() && entries == old(entries) && maps == old(maps) && View() == StoreAddress(old(View()), k)
    {
      var dev, e, vault := lookups[k].dev, lookups[k].entry, lookups[k].vault;
      Learn(e, dev, vault);
      lookups := lookups[k := VaultFound(dev, vault)];
      looking := looking - {dev};
    }

    method FailVault(k: nat)
      requires Valid() && Enabled(View(), LookupFail(k))
      modifies this
      ensures Valid() && entries == old(entries) && maps == old(maps) && View() == Apply(old(View()), LookupFail(k))
    {
      looking := looking - {lookups[k].dev};
      lookups := lookups[k := LookupFailed];
    }

    /** The read goes on after its await. */
    method TakeRefresh(i: nat)
      requires Valid() && Enabled(View(), ResumeRefresh(i))
      modifies this
      ensures Valid() && entries == old(entries) && maps == old(maps) && View() == Apply(old(View()), ResumeRefresh(i))
    {
      var second, k, at := requests[i].phase.second, requests[i].phase.refresh, requests[i].phase.at;
      if refreshes[k].Stored? {
        Move(i, TakeRead(second, FreshRead(refreshes[k].entry), at));
      } else if requests[i].phase.fallback.Some? {
        Move(i, TakeRead(second, StaleRead(requests[i].phase.fallback.value), at));
      } else {
        Move(i, TakeRead(second, ReadThrew, at));
      }
    }

    method TakeVault(i: nat)
      requires Valid() && Enabled(View(), ResumeVault(i))
      modifies this
      ensures Valid() && entries == old(entries) && maps == old(maps) && View() == Apply(old(View()), ResumeVault(i))
    {
      var second, e, k, at :=
        requests[i].phase.second, requests[i].phase.entry, requests[i].phase.lookup, requests[i].phase.at;
      if lookups[k].VaultFound? {
        Move(i, GotVault(second, e, lookups[k].vault, at));
      } else if second {
        Move(i, Rejected);
      } else {
        Move(i, FirstDone(Some(e), ZERO, at));
      }
    }

    /** `paywall` in front of the verifier: a first round without a fresh entry and an address is repeated. */
    method Continue(i: nat)
      requires Valid() && Enabled(View(), SecondRound(i))
      modifies this
      ensures Valid() && entries == old(entries) && maps == old(maps) && View() == Apply(old(View()), SecondRound(i))
    {
      var found, payTo, at := requests[i].phase.found, requests[i].phase.payTo, requests[i].phase.at;
      if found.None? || payTo == ZERO {
        ReadState(i, true);
      } else {
        Move(i, Checking(found.value, payTo, at));
      }
    }

    method CheckAndVerify(i: nat) returns (verifies: bool)
      requires Valid() && Enabled(View(), Check(i))
      modifies this
      ensures Valid() && entries == old(entries) && maps == old(maps) && View() == Apply(old(View()), Check(i))
      ensures var Checking(e, payTo, at) := old(requests)[i].phase;
        (verifies <==> !old(View()).entries[e].paused && payTo != ZERO) &&
        requests[i].phase == if verifies then Verifying(e, payTo, at) else Rejected
    {
      var e, payTo, at := requests[i].phase.entry, requests[i].phase.payTo, requests[i].phase.at;
      ViewsAt(entries, maps, e);
      if entries[e].paused || payTo == ZERO {
        Move(i, Rejected);
        return false;
      }
      Move(i, Verifying(e, payTo, at));
      return true;
    }
  }
}
