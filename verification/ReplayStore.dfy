/** `NonceStore` (packages/middleware/src/replay-store.ts): a map of maps with a count.

Inner maps are objects: `checkAndInsert` fetches one, may then evict its last entry, and
still writes to it. A JavaScript `Map` is visited in insertion order; the loops here visit
in any order, so what is proved holds for that one. */
module ReplayStore {

  /** (from, nonce), both lowercase. */
  type Key = (string, string)
  type Flat = map<Key, int>

  datatype Verdict = Accepted | NonceAlreadyUsed | AuthorizationExpired

  function LowerChar(c: char): char {
    if 'A' <= c <= 'Z' then (c as int + 32) as char else c
  }

  function ToLower(s: string): (t: string)
    ensures |t| == |s|
  {
    seq(|s|, i requires 0 <= i < |s| => LowerChar(s[i]))
  }

  // ---------------------------------------------------------------- the flat map

  /** Without the entries of `from` that are dead at `now`. */
  function Live(m: Flat, from: string, now: int): (r: Flat)
    ensures r.Keys <= m.Keys
  {
    map k | k in m && !(k.0 == from && m[k] <= now) :: m[k]
  }

  /** The same, while the payer's nonces `left` are still to be visited. */
  ghost function Scanned(m: Flat, from: string, left: set<string>, now: int): Flat {
    map k | k in m && (k.0 != from || k.1 in left || m[k] > now) :: m[k]
  }

  lemma ScanOne(m: Flat, from: string, left: set<string>, nonce: string, now: int)
    requires nonce in left && (from, nonce) in m
    ensures var k := (from, nonce);
      Scanned(m, from, left - {nonce}, now) ==
      if m[k] <= now then Scanned(m, from, left, now) - {k} else Scanned(m, from, left, now)
  {
  }

  ghost predicate HasFrom(m: Flat, from: string) { exists k :: k in m && k.0 == from }

  ghost predicate Submap(small: Flat, big: Flat) {
    forall k :: k in small ==> k in big && small[k] == big[k]
  }

  /** `kept` is what remains of m after evicting entries of least validBefore one by one. */
  ghost predicate OldestEvicted(m: Flat, kept: Flat) {
    Submap(kept, m) && forall k, j :: k in m && k !in kept && j in kept ==> m[k] <= m[j]
  }

  /** How many entries making room leaves. */
  function Left(size: nat, drift: int, maxEntries: int): int {
    if size + drift < maxEntries then size else maxEntries - 1 - drift
  }

  lemma RemoveOne(m: Flat, k: Key)
    requires k in m
    ensures |m - {k}| == |m| - 1
  {
    assert (m - {k}).Keys == m.Keys - {k};
  }

  lemma AddOne(m: Flat, k: Key, v: int)
    requires k !in m
    ensures |m[k := v]| == |m| + 1
  {
    assert m[k := v].Keys == m.Keys + {k};
  }

  lemma SubmapSize(small: Flat, big: Flat)
    requires Submap(small, big)
    ensures |small| <= |big|
    ensures |small| == |big| ==> small == big
  {
    assert small.Keys <= big.Keys;
    assert |big.Keys - small.Keys| == |big.Keys| - |small.Keys|;
    if |small| == |big| { assert small.Keys == big.Keys; }
  }

  lemma EvictionsCompose(m: Flat, kept: Flat, k: Key)
    requires OldestEvicted(m, kept) && k in kept && forall j :: j in kept ==> kept[k] <= kept[j]
    ensures OldestEvicted(m, kept - {k})
  {
  }

  lemma LiveIsSmaller(m: Flat, from: string, now: int)
    ensures |Live(m, from, now)| <= |m|
  {
    SubmapSize(Live(m, from, now), m);
  }

  // ---------------------------------------------------------------- when an insert is lost

  /** Entries of a validBefore below v, and at most v. */
  ghost function Below(m: Flat, v: int): set<Key> { set k | k in m && m[k] < v }
  ghost function UpTo(m: Flat, v: int): set<Key> { set k | k in m && m[k] <= v }

  lemma {:induction false} SubsetSize(a: set<Key>, b: set<Key>)
    requires a <= b
    ensures |a| <= |b|
  {
    assert |b - a| == |b| - |a|;
  }

  lemma EvictedOnlyIf(m: Flat, kept: Flat, k: Key)
    requires OldestEvicted(m, kept) && k in m && k !in kept
    ensures |Below(m, m[k])| < |m| - |kept|
  {
    var gone := m.Keys - kept.Keys;
    assert kept.Keys <= m.Keys;
    assert |gone| == |m| - |kept|;
    assert Below(m, m[k]) <= gone - {k};
    SubsetSize(Below(m, m[k]), gone - {k});
  }

  lemma EvictedIf(m: Flat, kept: Flat, k: Key)
    requires OldestEvicted(m, kept) && k in m && |UpTo(m, m[k])| <= |m| - |kept|
    ensures k !in kept
  {
    var gone := m.Keys - kept.Keys;
    assert kept.Keys <= m.Keys;
    assert |gone| == |m| - |kept|;
    if k in kept {
      assert gone + {k} <= UpTo(m, m[k]);
      SubsetSize(gone + {k}, UpTo(m, m[k]));
    }
  }

  /** Eviction takes a payer's last entry, and with it the insert under way: only if each of its
      live entries is among the oldest as many as are evicted, and certainly if it is so with
      everything as old counted in. */
  lemma LostIf(live: Flat, kept: Flat, from: string)
    requires OldestEvicted(live, kept) && HasFrom(live, from)
    ensures !HasFrom(kept, from) ==> forall k :: k in live && k.0 == from ==> |Below(live, live[k])| < |live| - |kept|
    ensures (forall k :: k in live && k.0 == from ==> |UpTo(live, live[k])| <= |live| - |kept|) ==> !HasFrom(kept, from)
  {
    forall k | k in live && k.0 == from && k !in kept
      ensures |Below(live, live[k])| < |live| - |kept|
    {
      EvictedOnlyIf(live, kept, k);
    }
    forall k | k in live && k.0 == from && |UpTo(live, live[k])| <= |live| - |kept|
      ensures k !in kept
    {
      EvictedIf(live, kept, k);
    }
  }

  /** Without ties among its entries and the others, the two conditions are one. */
  lemma LostIffWithoutTies(live: Flat, kept: Flat, from: string)
    requires OldestEvicted(live, kept) && HasFrom(live, from)
    requires forall k, j :: k in live && k.0 == from && j in live && live[j] == live[k] ==> j == k
    ensures !HasFrom(kept, from) <==> forall k :: k in live && k.0 == from ==> |Below(live, live[k])| < |live| - |kept|
  {
    forall k | k in live && k.0 == from
      ensures |UpTo(live, live[k])| == |Below(live, live[k])| + 1
    {
      assert UpTo(live, live[k]) == Below(live, live[k]) + {k};
    }
    LostIf(live, kept, from);
  }

  /** With one entry gone, all the others are kept. */
  lemma OneGone(live: Flat, kept: Flat, k: Key)
    requires Submap(kept, live) && |kept| == |live| - 1 && k in live && k !in kept
    ensures forall j :: j in live && j != k ==> j in kept
  {
    assert kept.Keys <= live.Keys - {k};
    assert |live.Keys - {k} - kept.Keys| == 0;
  }

  /** At the cap with the count right, one entry goes: the insert is lost only if the payer has just
      one live entry, of least validBefore, and always if no other entry is as old. */
  lemma {:induction false} LostAtTheCap(live: Flat, kept: Flat, k: Key)
    requires OldestEvicted(live, kept) && |kept| == |live| - 1 && k in live
    ensures !HasFrom(kept, k.0) ==> forall j :: j in live && j != k ==> j.0 != k.0 && live[k] <= live[j]
    ensures (forall j :: j in live && j != k ==> j.0 != k.0 && live[k] < live[j]) ==> !HasFrom(kept, k.0)
  {
    if !HasFrom(kept, k.0) {
      OneGone(live, kept, k);
    }
    if forall j :: j in live && j != k ==> j.0 != k.0 && live[k] < live[j] {
      assert UpTo(live, live[k]) == {k};
      EvictedIf(live, kept, k);
    }
  }

  // ---------------------------------------------------------------- the capacity loop

  /** Entries and count after k rounds of the capacity loop; a round on an empty store changes nothing. */
  function AfterRounds(size: nat, count: int, k: nat): (r: (nat, int)) {
    if k == 0 then (size, count)
    else
      var (s, c) := AfterRounds(size, count, k - 1);
      if s == 0 then (s, c) else (s - 1, c - 1)
  }

  lemma {:induction false} RoundsKeepDrift(size: nat, count: int, k: nat)
    ensures var (s, c) := AfterRounds(size, count, k); c - s == count - size && s == if k <= size then size - k else 0
  {
    if k > 0 { RoundsKeepDrift(size, count, k - 1); }
  }

  /** `#ensureCapacity` ends exactly when the count is above the entries by less than the cap. */
  lemma CapacityLoopEndsIff(size: nat, count: int, maxEntries: int)
    ensures (exists k: nat :: AfterRounds(size, count, k).1 < maxEntries) <==> count - size < maxEntries
  {
    RoundsKeepDrift(size, count, size);
    if k: nat :| AfterRounds(size, count, k).1 < maxEntries {
      RoundsKeepDrift(size, count, k);
    }
  }

  // ---------------------------------------------------------------- the store

  class Inner {
    var entries: map<string, int>

    constructor ()
      ensures entries == map[]
    {
      entries := map[];
    }
  }

  class NonceStore {
    var store: map<string, Inner>
    var count: int
    const maxEntries: int
    /** What the store holds, as one flat map. */
    ghost var entries: Flat

    /** Two payers never share an inner map, and `entries` is what the inner maps hold. */
    ghost predicate Tied()
      reads this, store.Values
    {
      (forall a, b :: a in store && b in store && a != b ==> store[a] != store[b]) &&
      (forall f, n :: (f, n) in entries <==> f in store && n in store[f].entries) &&
      (forall f, n :: f in store && n in store[f].entries ==> entries[(f, n)] == store[f].entries[n])
    }

    ghost predicate Valid()
      reads this, store.Values
    {
      Tied() && forall a :: a in store ==> store[a].entries != map[]
    }

    /** How far the count is above the number of stored entries. */
    ghost function Drift(): int
      reads this
    {
      count - |entries|
    }

    /** Payers may have gone; the others keep their inner maps. */
    twostate predicate Shrunk()
      reads this
    {
      store.Values <= old(store.Values) && forall f :: f in store ==> f in old(store) && store[f] == old(store[f])
    }

    constructor (maxEntries: int)
      ensures Valid() && entries == map[] && Drift() == 0 && this.maxEntries == maxEntries
    {
      store, count, entries := map[], 0, map[];
      this.maxEntries := maxEntries;
    }

    /** `inner.delete(nonce); count--` on a stored entry. */
    method Delete(from: string, nonce: string)
      requires Tied() && from in store && nonce in store[from].entries
      modifies this`count, this`entries, store[from]
      ensures Tied() && store[from].entries == old(store[from].entries) - {nonce}
      ensures entries == old(entries) - {(from, nonce)} && Drift() == old(Drift()) && count == old(count) - 1
    {
      RemoveOne(entries, (from, nonce));
      var inner := store[from];
      inner.entries := inner.entries - {nonce};
      count := count - 1;
      entries := entries - {(from, nonce)};
    }

    /** `if (inner.size === 0) store.delete(from)` */
    method DropIfEmpty(from: string)
      requires Tied() && from in store && forall a :: a in store && a != from ==> store[a].entries != map[]
      modifies this`store
      ensures Valid() && Shrunk()
      ensures store == if old(store[from].entries) == map[] then old(store) - {from} else old(store)
    {
      if store[from].entries == map[] {
        store := store - {from};
      }
    }

    /** The loop over one payer's entries, deleting as it goes. */
    method ScanExpired(from: string, now: int)
      requires Tied() && from in store
      modifies this`count, this`entries, store[from]
      ensures Tied() && Drift() == old(Drift()) && count <= old(count) && entries == Live(old(entries), from, now)
    {
      var inner := store[from];
      var left := inner.entries.Keys;
      assert entries == Scanned(entries, from, left, now);
      while left != {}
        invariant Tied() && left <= inner.entries.Keys && Drift() == old(Drift()) && count <= old(count)
        invariant entries == Scanned(old(entries), from, left, now)
        decreases |left|
      {
        var nonce :| nonce in left;
        assert (from, nonce) in entries;
        ScanOne(old(entries), from, left, nonce, now);
        left := left - {nonce};
        if inner.entries[nonce] <= now {
          Delete(from, nonce);
        }
      }
      assert Scanned(old(entries), from, {}, now) == Live(old(entries), from, now);
    }

    method EvictExpired(from: string, now: int)
      requires Valid()
      modifies this`store, this`count, this`entries, store.Values
      ensures Valid() && entries == Live(old(entries), from, now) && Drift() == old(Drift())
      ensures Shrunk() && count <= old(count)
    {
      if from in store {
        ScanExpired(from, now);
        DropIfEmpty(from);
      } else {
        assert entries == Live(entries, from, now);
      }
    }

    /** The scan for the entry of least validBefore, over every payer. */
    method FindOldest() returns (found: bool, from: string, nonce: string)
      requires Valid()
      ensures found <==> entries != map[]
      ensures found ==> from in store && nonce in store[from].entries &&
                        forall k :: k in entries ==> entries[(from, nonce)] <= entries[k]
    {
      found, from, nonce := false, "", "";
      var froms := store.Keys;
      while froms != {}
        invariant froms <= store.Keys
        invariant found ==> from in store && nonce in store[from].entries
        invariant forall k :: k in entries && k.0 !in froms ==> found && entries[(from, nonce)] <= entries[k]
        decreases |froms|
      {
        var f :| f in froms;
        froms := froms - {f};
        var nonces := store[f].entries.Keys;
        while nonces != {}
          invariant nonces <= store[f].entries.Keys
          invariant found ==> from in store && nonce in store[from].entries
          invariant forall k :: k in entries && k.0 !in froms && (k.0 != f || k.1 !in nonces) ==>
                      found && entries[(from, nonce)] <= entries[k]
          decreases |nonces|
        {
          var n :| n in nonces;
          nonces := nonces - {n};
          if !found || store[f].entries[n] < store[from].entries[nonce] {
            found, from, nonce := true, f, n;
          }
        }
      }
    }

    method EvictOldest()
      requires Valid()
      modifies this`store, this`count, this`entries, store.Values
      ensures Valid() && Drift() == old(Drift()) && Shrunk()
      ensures if old(entries) == map[] then entries == map[] && count == old(count)
              else count == old(count) - 1 && exists k ::
                k in old(entries) && entries == old(entries) - {k} &&
                forall j :: j in old(entries) ==> old(entries)[k] <= old(entries)[j]
    {
      var found, from, nonce := FindOldest();
      if found {
        assert (from, nonce) in entries;
        Delete(from, nonce);
        DropIfEmpty(from);
      }
    }

    /** Ends because each round removes an entry, and it finds one while the count is at the cap. */
    method EnsureCapacity()
      requires Valid() && 0 <= Drift() < maxEntries
      modifies this`store, this`count, this`entries, store.Values
      ensures Valid() && Drift() == old(Drift()) && Shrunk()
      ensures OldestEvicted(old(entries), entries) && count < maxEntries
      ensures count == if old(count) < maxEntries then old(count) else maxEntries - 1
    {
      while count >= maxEntries
        invariant Valid() && Drift() == old(Drift()) && Shrunk()
        invariant OldestEvicted(old(entries), entries)
        invariant count == old(count) || (old(count) > count >= maxEntries - 1)
        decreases count
      {
        ghost var was := entries;
        assert was != map[];
        EvictOldest();
        ghost var k :| k in was && entries == was - {k} && forall j :: j in was ==> was[k] <= was[j];
        EvictionsCompose(old(entries), was, k);
      }
    }

    lemma PayerKnown(from: string)
      requires Valid()
      ensures from in store <==> HasFrom(entries, from)
    {
      if from in store {
        var n :| n in store[from].entries;
        assert (from, n) in entries;
      }
    }

    /** `#ensureCapacity`, as seen by the payer whose inner map was fetched before. */
    method MakeRoom(from: string, nonce: string)
      requires Valid() && 0 <= Drift() < maxEntries && !(from in store && nonce in store[from].entries)
      modifies this`store, this`count, this`entries, store.Values
      ensures Valid() && Shrunk() && Drift() == old(Drift()) && OldestEvicted(old(entries), entries)
      ensures old(count) < maxEntries ==> entries == old(entries)
      ensures |entries| == Left(|old(entries)|, old(Drift()), maxEntries)
      ensures from in store ==> nonce !in store[from].entries
      ensures from in old(store) && from !in store ==> old(store)[from] !in store.Values
      ensures HasFrom(old(entries), from) <==> from in old(store)
      ensures HasFrom(entries, from) <==> from in store
    {
      PayerKnown(from);
      assert (from, nonce) !in entries;
      EnsureCapacity();
      PayerKnown(from);
      SubmapSize(entries, old(entries));
    }

    /** `inner`, or a new map put into the store. */
    method Target(inner: Inner?, from: string) returns (target: Inner)
      requires Valid() && (from in store ==> inner == store[from]) && (from !in store ==> inner !in store.Values)
      modifies this`store
      ensures Tied() && (inner != null ==> target == inner && store == old(store))
      ensures inner == null ==> fresh(target) && store == old(store)[from := target] && target.entries == map[]
      ensures forall a :: a in store && store[a] != target ==> store[a].entries != map[]
    {
      if inner == null {
        target := new Inner();
        store := store[from := target];
      } else {
        target := inner;
      }
    }

    method Write(target: Inner, from: string, nonce: string, validBefore: int)
      requires Tied() && forall a :: a in store && store[a] != target ==> store[a].entries != map[]
      requires if from in store then store[from] == target && nonce !in target.entries else target !in store.Values
      modifies this`count, this`entries, target
      ensures Valid()
      ensures if from in store then entries == old(entries)[(from, nonce) := validBefore] && Drift() == old(Drift())
              else entries == old(entries) && Drift() == old(Drift()) + 1
    {
      target.entries := target.entries[nonce := validBefore];
      count := count + 1;
      ghost var k := (from, nonce);
      if from in store {
        AddOne(entries, k, validBefore);
        entries := entries[k := validBefore];
      }
    }

    method Put(inner: Inner?, from: string, nonce: string, validBefore: int)
      requires Valid() && (from in store ==> inner == store[from] && nonce !in store[from].entries)
      requires from !in store ==> inner !in store.Values
      modifies this`store, this`count, this`entries, if inner == null then {} else {inner}
      ensures Valid() && fresh(store.Values - old(store.Values))
      ensures if inner == null || from in old(store)
              then entries == old(entries)[(from, nonce) := validBefore] && Drift() == old(Drift())
              else entries == old(entries) && Drift() == old(Drift()) + 1
    {
      var target := Target(inner, from);
      Write(target, from, nonce, validBefore);
    }

    /** The flat map gets the entry, unless eviction took the last entry of that same payer. */
    ghost predicate Inserted(live: Flat, kept: Flat, k: Key, validBefore: int, drift: int)
      reads this
    {
      OldestEvicted(live, kept) && |kept| == Left(|live|, drift, maxEntries) && count == |kept| + drift + 1 &&
      if HasFrom(live, k.0) && !HasFrom(kept, k.0)
      then entries == kept && Drift() == drift + 1
      else entries == kept[k := validBefore] && Drift() == drift
    }

    /** The inner map is fetched before eviction and written after it: if eviction took that
        payer's last entry, the write goes to a map no longer in the store. */
    method Insert(from: string, nonce: string, validBefore: int) returns (ghost kept: Flat)
      requires Valid() && 0 <= Drift() < maxEntries && !(from in store && nonce in store[from].entries)
      modifies this`store, this`count, this`entries, store.Values
      ensures Valid() && fresh(store.Values - old(store.Values))
      ensures Inserted(old(entries), kept, (from, nonce), validBefore, old(Drift()))
      ensures old(count) < maxEntries ==> kept == old(entries)
    {
      var inner: Inner? := if from in store then store[from] else null;
      assert inner != null ==> inner in store.Values;
      ghost var values := store.Values;
      MakeRoom(from, nonce);
      assert store.Values <= values;
      kept := entries;
      Put(inner, from, nonce, validBefore);
    }

    /** The checks of `checkAndInsert`, before it makes room. */
    method Check(from: string, nonce: string, validBefore: int, now: int) returns (verdict: Verdict)
      requires Valid()
      modifies this`store, this`count, this`entries, store.Values
      ensures Valid() && store.Values <= old(store.Values) && Drift() == old(Drift())
      ensures entries == Live(old(entries), from, now)
      ensures verdict ==
        if validBefore <= now then AuthorizationExpired else if (from, nonce) in entries then NonceAlreadyUsed else Accepted
      ensures (from, nonce) in entries <==> from in store && nonce in store[from].entries
    {
      EvictExpired(from, now);
      if validBefore <= now { return AuthorizationExpired; }
      if from in store && nonce in store[from].entries { return NonceAlreadyUsed; }
      return Accepted;
    }

    /** `kept`: what eviction left. */
    method CheckAndInsert(from0: string, nonce0: string, validBefore: int, now: int)
      returns (verdict: Verdict, ghost kept: Flat)
      requires Valid() && 0 <= Drift() < maxEntries
      modifies this`store, this`count, this`entries, store.Values
      ensures Valid() && fresh(store.Values - old(store.Values))
      ensures var k := (ToLower(from0), ToLower(nonce0)); var live := Live(old(entries), k.0, now);
        verdict == (if validBefore <= now then AuthorizationExpired else if k in live then NonceAlreadyUsed else Accepted) &&
        (!verdict.Accepted? ==> entries == live && Drift() == old(Drift())) &&
        (verdict.Accepted? ==>
          Inserted(live, kept, k, validBefore, old(Drift())) && (old(count) < maxEntries ==> kept == live))
    {
      var from, nonce := ToLower(from0), ToLower(nonce0);
      verdict := Check(from, nonce, validBefore, now);
      kept := entries;
      if verdict.Accepted? {
        LiveIsSmaller(old(entries), from, now);
        kept := Insert(from, nonce, validBefore);
      }
    }

    /** `has` */
    method Has(from0: string, nonce0: string, now: int) returns (b: bool)
      requires Valid()
      modifies this`store, this`count, this`entries, store.Values
      ensures Valid() && entries == Live(old(entries), ToLower(from0), now) && Drift() == old(Drift())
      ensures b <==> (ToLower(from0), ToLower(nonce0)) in entries
    {
      var from, nonce := ToLower(from0), ToLower(nonce0);
      EvictExpired(from, now);
      b := from in store && nonce in store[from].entries;
    }
  }

  /** A store for one entry, and two nonces of one payer: the second insert is accepted and lost,
      the count stays one too high, and a third insert would never find room. */
  method LoseAnInsert() returns (store: NonceStore, first: Verdict, second: Verdict)
    ensures fresh(store) && store.Valid() && store.maxEntries == 1 && first.Accepted? && second.Accepted?
    ensures store.entries == map[] && store.count == 1 && store.Drift() == 1
    ensures !exists k: nat :: AfterRounds(|store.entries|, store.count, k).1 < store.maxEntries
  {
    store := new NonceStore(1);
    ghost var kept;
    first, kept := store.CheckAndInsert("a", "1", 100, 0);
    assert ToLower("a") == "a" && ToLower("1") == "1" && ToLower("2") == "2";
    assert kept == map[] && store.entries == map[("a", "1") := 100];
    assert store.count == 1 && store.Drift() == 0;
    ghost var live := store.entries;
    second, kept := store.CheckAndInsert("a", "2", 200, 0);
    assert Live(live, "a", 0) == live;
    assert |kept| == 0;
    assert HasFrom(live, "a") by {
      assert ("a", "1") in live;
    }
    CapacityLoopEndsIff(0, 1, 1);
  }
}
