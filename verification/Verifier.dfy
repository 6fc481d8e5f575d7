/** `verifyEip3009Authorization` (packages/middleware/src/verify.ts) feeding the nonce store.
Signature recovery is an input: the recovered address, or nothing when it throws. */
module Verifier {
  import opened Wrappers
  import opened ReplayStore

  const SAFETY_MARGIN_MS := 5000

  /** The times are Unix seconds. */
  datatype Authorization = Authorization(
    from: string, to: string, value: nat, validAfter: nat, validBefore: nat, nonce: string)

  datatype Reason =
    | InvalidSignature
    | ToMismatch
    | InsufficientAmount
    | Expired
    | NotYetValid
    | NetworkMismatch
    | NonceUsed

  /** `knownNetwork`: the configured network exists; `sameNetwork`: the payload names it too. */
  datatype Call = Call(
    a: Authorization, vault: string, maxAmountRequired: nat, knownNetwork: bool, sameNetwork: bool,
    recovered: Option<string>, now: int)

  predicate AddressesEqual(a: string, b: string) { ToLower(a) == ToLower(b) }

  /** The checks before the store, in their order. */
  function Refusal(c: Call): Option<Reason> {
    if !c.knownNetwork then Some(NetworkMismatch)
    else if c.recovered.None? || !AddressesEqual(c.recovered.value, c.a.from) then Some(InvalidSignature)
    else if !AddressesEqual(c.a.to, c.vault) then Some(ToMismatch)
    else if c.a.value < c.maxAmountRequired then Some(InsufficientAmount)
    else if c.a.validBefore * 1000 <= c.now + SAFETY_MARGIN_MS then Some(Expired)
    else if c.a.validAfter * 1000 > c.now then Some(NotYetValid)
    else if !c.sameNetwork then Some(NetworkMismatch)
    else None
  }

  function KeyOf(a: Authorization): Key { (ToLower(a.from), ToLower(a.nonce)) }

  /** A verify call on the flat map while the store is below its cap. */
  function Verified(m: Flat, c: Call): (Flat, Option<Reason>) {
    if Refusal(c).Some? then (m, Refusal(c))
    else
      var k, live := KeyOf(c.a), Live(m, KeyOf(c.a).0, c.now);
      if k in live then (live, Some(NonceUsed)) else (live[k := c.a.validBefore * 1000], None)
  }

  /** None means accepted. */
  method Verify(store: NonceStore, c: Call) returns (r: Option<Reason>)
    requires store.Valid() && 0 <= store.Drift() < store.maxEntries
    modifies store`store, store`count, store`entries, store.store.Values
    ensures store.Valid()
    ensures old(store.count) < store.maxEntries ==>
      (store.entries, r) == Verified(old(store.entries), c) && store.Drift() == old(store.Drift())
    ensures fresh(store.store.Values - old(store.store.Values))
    ensures r == Verified(old(store.entries), c).1
  {
    r := Refusal(c);
    if r.Some? { return; }
    ghost var live := Live(store.entries, KeyOf(c.a).0, c.now);
    var verdict, kept := store.CheckAndInsert(c.a.from, c.a.nonce, c.a.validBefore * 1000, c.now);
    match verdict
    case Accepted => return None;
    case NonceAlreadyUsed => return Some(NonceUsed);
    case AuthorizationExpired => return Some(Expired);
  }

  // ---------------------------------------------------------------- what an answer means

  /** t is s with its ASCII capitals made small. */
  predicate LowerCaseOf(t: string, s: string) {
    |t| == |s| && forall i :: 0 <= i < |s| ==>
      t[i] as int == if 65 <= s[i] as int <= 90 then s[i] as int + 32 else s[i] as int
  }

  /** The same characters, up to the case of ASCII letters. */
  predicate SameLetters(a: string, b: string) {
    |a| == |b| && forall i :: 0 <= i < |a| ==>
      a[i] == b[i] || (65 <= a[i] as int <= 90 && b[i] as int == a[i] as int + 32) ||
      (65 <= b[i] as int <= 90 && a[i] as int == b[i] as int + 32)
  }

  lemma LowerCaseIs(t: string, s: string)
    ensures LowerCaseOf(t, s) <==> t == ToLower(s)
  {
    if LowerCaseOf(t, s) {
      forall i | 0 <= i < |s|
        ensures t[i] == ToLower(s)[i]
      {
      }
    }
  }

  lemma AddressesEqualIff(a: string, b: string)
    ensures AddressesEqual(a, b) <==> SameLetters(a, b)
  {
    if AddressesEqual(a, b) {
      forall i | 0 <= i < |a|
        ensures a[i] == b[i] || (65 <= a[i] as int <= 90 && b[i] as int == a[i] as int + 32) ||
                (65 <= b[i] as int <= 90 && a[i] as int == b[i] as int + 32)
      {
        assert ToLower(a)[i] == ToLower(b)[i];
      }
    }
  }

  /** An entry for this payer and nonce is still running. */
  ghost predicate Running(m: Flat, from: string, nonce: string, now: int) {
    exists k :: k in m && LowerCaseOf(k.0, from) && LowerCaseOf(k.1, nonce) && m[k] > now
  }

  lemma RunningIff(m: Flat, a: Authorization, now: int)
    ensures Running(m, a.from, a.nonce, now) <==> KeyOf(a) in Live(m, KeyOf(a).0, now)
  {
    LowerCaseIs(KeyOf(a).0, a.from);
    LowerCaseIs(KeyOf(a).1, a.nonce);
    forall k | k in m && LowerCaseOf(k.0, a.from) && LowerCaseOf(k.1, a.nonce)
      ensures k == KeyOf(a)
    {
      LowerCaseIs(k.0, a.from);
      LowerCaseIs(k.1, a.nonce);
    }
  }

  /** An authorization is accepted exactly when it was signed by its payer, pays at least the price to
      the vault on the configured network, is valid by now and for five more seconds, and was not
      accepted before; otherwise the first of these that fails is the reason. */
  lemma VerifiedIs(m: Flat, c: Call)
    ensures var signed := c.recovered.Some? && SameLetters(c.recovered.value, c.a.from);
      Verified(m, c).1 ==
      if !c.knownNetwork then Some(NetworkMismatch)
      else if !signed then Some(InvalidSignature)
      else if !SameLetters(c.a.to, c.vault) then Some(ToMismatch)
      else if c.a.value < c.maxAmountRequired then Some(InsufficientAmount)
      else if c.a.validBefore * 1000 <= c.now + 5000 then Some(Expired)
      else if c.now < c.a.validAfter * 1000 then Some(NotYetValid)
      else if !c.sameNetwork then Some(NetworkMismatch)
      else if Running(m, c.a.from, c.a.nonce, c.now) then Some(NonceUsed)
      else None
  {
    if c.recovered.Some? {
      AddressesEqualIff(c.recovered.value, c.a.from);
    }
    AddressesEqualIff(c.a.to, c.vault);
    RunningIff(m, c.a, c.now);
  }

  lemma AcceptedIff(m: Flat, c: Call)
    ensures Verified(m, c).1.None? <==>
      (c.knownNetwork && c.sameNetwork && c.recovered.Some? && SameLetters(c.recovered.value, c.a.from) &&
       SameLetters(c.a.to, c.vault) && c.maxAmountRequired <= c.a.value &&
       c.now + 5000 < c.a.validBefore * 1000 && c.a.validAfter * 1000 <= c.now &&
       !Running(m, c.a.from, c.a.nonce, c.now))
  {
    VerifiedIs(m, c);
  }

  /** What a call leaves: nothing changes before the nonce is looked at; then the payer's expired
      entries are gone, and an accepted nonce is there until its validBefore. */
  lemma VerifiedLeaves(m: Flat, c: Call, k: Key)
    ensures var (left, r) := Verified(m, c);
      if r.Some? && r != Some(NonceUsed) then left == m
      else if r.None? && LowerCaseOf(k.0, c.a.from) && LowerCaseOf(k.1, c.a.nonce) then
        k in left && left[k] == c.a.validBefore * 1000
      else
        (k in left <==> k in m && (!LowerCaseOf(k.0, c.a.from) || m[k] > c.now)) && (k in left ==> left[k] == m[k])
  {
    LowerCaseIs(k.0, c.a.from);
    LowerCaseIs(k.1, c.a.nonce);
  }

  // ---------------------------------------------------------------- runs of calls

  function After(calls: seq<Call>): Flat {
    if calls == [] then map[] else Verified(After(calls[..|calls| - 1]), calls[|calls| - 1]).0
  }

  predicate Accepts(calls: seq<Call>, i: nat)
    requires i < |calls|
  {
    Verified(After(calls[..i]), calls[i]).1.None?
  }

  /** The clock value a call captured before its await may lie behind an earlier call's, by at most `ms`. */
  predicate RunsBackAtMost(calls: seq<Call>, ms: int) {
    forall i, j :: 0 <= i < j < |calls| ==> calls[j].now >= calls[i].now - ms
  }

  predicate SameAuthorization(a: Authorization, b: Authorization) {
    KeyOf(a) == KeyOf(b) && a.validBefore == b.validBefore
  }

  /** An entry outlives every call whose clock has not reached its validBefore. */
  lemma {:induction false} EntryStays(calls: seq<Call>, i: nat, m: nat)
    requires i < m <= |calls| && Accepts(calls, i)
    requires forall n :: i < n < m ==> calls[n].now < calls[i].a.validBefore * 1000
    ensures KeyOf(calls[i].a) in After(calls[..m])
    ensures After(calls[..m])[KeyOf(calls[i].a)] == calls[i].a.validBefore * 1000
    decreases m
  {
    assert calls[..m][..m - 1] == calls[..m - 1];
    if m > i + 1 {
      EntryStays(calls, i, m - 1);
    }
  }

  /** An authorization is accepted at most once, in whatever letter case it comes back, when
      clocks run back by no more than the safety margin. */
  lemma AcceptedAtMostOnce(calls: seq<Call>, i: nat, j: nat)
    requires i < j < |calls| && RunsBackAtMost(calls, 5000)
    requires SameAuthorization(calls[i].a, calls[j].a)
    requires Accepts(calls, i)
    ensures !Accepts(calls, j)
  {
    if Accepts(calls, j) {
      assert calls[j].a.validBefore * 1000 > calls[j].now + 5000;
      EntryStays(calls, i, j);
    }
  }

  lemma GrowsByOne(m: Flat, c: Call)
    ensures |Verified(m, c).0| <= |m| + 1
  {
    var k := KeyOf(c.a);
    var live := Live(m, k.0, c.now);
    SubmapSize(live, m);
    if k !in live {
      AddOne(live, k, c.a.validBefore * 1000);
    }
  }

  function Answers(calls: seq<Call>): (rs: seq<Option<Reason>>)
    ensures |rs| == |calls|
  {
    if calls == [] then []
    else
      var front := calls[..|calls| - 1];
      Answers(front) + [Verified(After(front), calls[|calls| - 1]).1]
  }

  lemma {:induction false} AnswersAccept(calls: seq<Call>, i: nat)
    requires i < |calls|
    ensures Answers(calls)[i].None? <==> Accepts(calls, i)
  {
    if i < |calls| - 1 {
      AnswersAccept(calls[..|calls| - 1], i);
      assert calls[..|calls| - 1][..i] == calls[..i];
    }
  }

  lemma {:induction false} OneMore(calls: seq<Call>, n: nat)
    requires n < |calls|
    ensures (After(calls[..n + 1]), Answers(calls[..n + 1])) ==
      var (m, r) := Verified(After(calls[..n]), calls[n]); (m, Answers(calls[..n]) + [r])
    ensures |After(calls[..n + 1])| <= |After(calls[..n])| + 1
  {
    assert calls[..n + 1][..n] == calls[..n];
    GrowsByOne(After(calls[..n]), calls[n]);
  }

  method VerifyNext(store: NonceStore, calls: seq<Call>, n: nat) returns (r: Option<Reason>)
    requires store.Valid() && store.Drift() == 0 && n < |calls| < store.maxEntries
    requires store.entries == After(calls[..n]) && |store.entries| <= n
    modifies store`store, store`count, store`entries, store.store.Values
    ensures store.Valid() && store.Drift() == 0 && fresh(store.store.Values - old(store.store.Values))
    ensures store.entries == After(calls[..n + 1]) && |store.entries| <= n + 1
    ensures Answers(calls[..n + 1]) == Answers(calls[..n]) + [r]
  {
    OneMore(calls, n);
    r := Verify(store, calls[n]);
  }

  /** Calls on one new store, fewer than it has room for: the answers are the model's. */
  method VerifyAll(calls: seq<Call>, maxEntries: int) returns (store: NonceStore, answers: seq<Option<Reason>>)
    requires |calls| < maxEntries
    ensures fresh(store) && store.Valid() && store.entries == After(calls) && store.Drift() == 0
    ensures answers == Answers(calls)
  {
    store := new NonceStore(maxEntries);
    answers := [];
    assert calls[..0] == [];
    var n := 0;
    while n < |calls|
      invariant 0 <= n <= |calls| && fresh(store) && fresh(store.store.Values)
      invariant store.Valid() && store.Drift() == 0 && store.maxEntries == maxEntries
      invariant store.entries == After(calls[..n]) && |store.entries| <= n && answers == Answers(calls[..n])
    {
      var r := VerifyNext(store, calls, n);
      answers := answers + [r];
      n := n + 1;
    }
    assert calls[..n] == calls;
  }

  /** So no two of its answers accept one authorization, if clocks run back by no more than the margin. */
  lemma {:induction false} AnsweredAtMostOnce(calls: seq<Call>, i: nat, j: nat)
    requires i < j < |calls| && RunsBackAtMost(calls, 5000)
    requires SameAuthorization(calls[i].a, calls[j].a)
    ensures Answers(calls)[i].Some? || Answers(calls)[j].Some?
  {
    AnswersAccept(calls, i);
    AnswersAccept(calls, j);
    if Accepts(calls, i) {
      AcceptedAtMostOnce(calls, i, j);
    }
  }

  /** The margin is exact: one millisecond more of backward clock lets an authorization in twice. */
  lemma MarginIsTight(c: Call) returns (calls: seq<Call>)
    requires c.knownNetwork && c.sameNetwork && c.recovered == Some(c.a.from) && c.a.to == c.vault
    requires c.maxAmountRequired <= c.a.value && c.a.nonce == "0x01" && c.a.validAfter == 0
    ensures |calls| == 3 && RunsBackAtMost(calls, 5001) && calls[0].a == calls[2].a
    ensures Accepts(calls, 0) && Accepts(calls, 2)
  {
    var first := c.(a := c.a.(validBefore := 11), now := 5999);
    var other := c.(a := c.a.(validBefore := 20, nonce := "0x02"), now := 11000);
    calls := [first, other, first];
    var k, q := KeyOf(first.a), KeyOf(other.a);
    assert k != q by { assert k.1[3] == '1' && q.1[3] == '2'; }
    assert calls[..0] == [];
    assert calls[..1] == [first] && [first][..0] == [];
    assert calls[..2] == [first, other] && [first, other][..1] == [first];
    assert After([first]) == map[k := 11000];
    assert After([first, other]) == map[q := 20000];
  }
}
