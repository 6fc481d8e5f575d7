/** Operation bindings, payments and receipts (packages/facilitator/src/session-types.ts),
and why comparing canonical text compares them. */
module Operation {
  import opened Wrappers
  import opened Canonical
  import opened CanonicalTheorems

  datatype Scope = Scope(workspaceHash: Option<Text>, visibility: Text, action: Text)

  datatype Binding = Binding(
    operationId: Text, payerSubject: Text, payerWallet: Text, artifactHash: Text, amount: Text, asset: Text,
    network: Text, payTo: Text, expiresAt: Text, nonce: Text, scope: Scope)

  datatype Payment =
    | Stake(sessionId: Text, payerWallet: Text, workspaceHash: Text, visibility: Text, action: Text)
    | Exact(payerWallet: Text, signature: Text, from: Text, to: Text, value: Text, validAfter: Text,
            validBefore: Text, nonce: Text)

  datatype Request = Request(binding: Binding, payment: Payment)

  type Tx = Text
  type Time = int

  datatype Receipt = Receipt(
    operationId: Text, stake: bool, bindingDigest: Text, payerWallet: Text, amount: Text, asset: Text,
    network: Text, payTo: Text, settlementTx: Tx, settledAt: Time)

  // ---------------------------------------------------------------- as JSON

  function Name(s: string): (t: Text)
    requires forall i :: 0 <= i < |s| ==> s[i] as int < 128
    ensures |t| == |s| && forall i :: 0 <= i < |s| ==> t[i] as int == s[i] as int
  {
    seq(|s|, i requires 0 <= i < |s| => s[i] as int as Unit)
  }

  function Record(keys: seq<Text>, values: seq<Json>): (fs: seq<Field<Json>>)
    requires |keys| == |values|
    ensures |fs| == |keys| && forall i :: 0 <= i < |keys| ==> fs[i] == Field(keys[i], values[i])
  {
    seq(|keys|, i requires 0 <= i < |keys| => Field(keys[i], values[i]))
  }

  const SCOPE_KEYS := [Name("visibility"), Name("action"), Name("workspace_hash")]
  const BINDING_KEYS := [
    Name("version"), Name("operation_id"), Name("payer_subject"), Name("payer_wallet"), Name("artifact_hash"),
    Name("amount"), Name("asset"), Name("network"), Name("pay_to"), Name("expires_at"), Name("nonce"), Name("scope")]
  const STAKE_KEYS := [Name("scheme"), Name("session_id"), Name("payer_wallet"), Name("authorization")]
  const EXACT_KEYS := [Name("scheme"), Name("payer_wallet"), Name("authorization")]
  const PROOF_KEYS := [Name("signature"), Name("authorization")]
  const TRANSFER_KEYS := [
    Name("from"), Name("to"), Name("value"), Name("validAfter"), Name("validBefore"), Name("nonce")]

  /** An absent workspace hash is an absent key. */
  function ScopeJson(s: Scope): Json {
    match s.workspaceHash
    case None => Obj(Record(SCOPE_KEYS[..2], [Str(s.visibility), Str(s.action)]))
    case Some(h) => Obj(Record(SCOPE_KEYS, [Str(s.visibility), Str(s.action), Str(h)]))
  }

  function BindingValues(b: Binding): seq<Json> {
    [Num(1), Str(b.operationId), Str(b.payerSubject), Str(b.payerWallet), Str(b.artifactHash), Str(b.amount),
     Str(b.asset), Str(b.network), Str(b.payTo), Str(b.expiresAt), Str(b.nonce), ScopeJson(b.scope)]
  }

  function BindingJson(b: Binding): Json {
    Obj(Record(BINDING_KEYS, BindingValues(b)))
  }

  function TransferValues(p: Payment): seq<Json>
    requires p.Exact?
  {
    [Str(p.from), Str(p.to), Str(p.value), Str(p.validAfter), Str(p.validBefore), Str(p.nonce)]
  }

  function PaymentJson(p: Payment): Json {
    match p
    case Stake(id, wallet, hash, visibility, action) =>
      Obj(Record(STAKE_KEYS, [Str(Name("stake")), Str(id), Str(wallet), ScopeJson(Scope(Some(hash), visibility, action))]))
    case Exact(wallet, signature, from, to, value, after, before, nonce) =>
      Obj(Record(EXACT_KEYS, [Str(Name("exact")), Str(wallet), Obj(Record(PROOF_KEYS, [Str(signature),
        Obj(Record(TRANSFER_KEYS, TransferValues(p)))]))]))
  }

  function BindingText(b: Binding): Result<Text, Error> { CanonicalJson(BindingJson(b)) }
  function PaymentText(p: Payment): Result<Text, Error> { CanonicalJson(PaymentJson(p)) }

  /** The member has this name and this value. */
  predicate Member(f: Field<Json>, name: string, value: Json) {
    |f.key| == |name| && (forall i :: 0 <= i < |name| ==> f.key[i] as int == name[i] as int) && f.value == value
  }

  predicate Members(j: Json, names: seq<string>, values: seq<Json>) {
    j.Obj? && |j.fields| == |names| == |values| && forall i :: 0 <= i < |names| ==> Member(j.fields[i], names[i], values[i])
  }

  /** Which member of a binding's JSON holds what. */
  lemma {:induction false} BindingMembers(b: Binding)
    ensures Members(BindingJson(b),
      ["version", "operation_id", "payer_subject", "payer_wallet", "artifact_hash", "amount",
       "asset", "network", "pay_to", "expires_at", "nonce", "scope"],
      [Num(1), Str(b.operationId), Str(b.payerSubject), Str(b.payerWallet), Str(b.artifactHash), Str(b.amount),
       Str(b.asset), Str(b.network), Str(b.payTo), Str(b.expiresAt), Str(b.nonce), ScopeJson(b.scope)])
  {
  }

  /** A scope without a workspace has no such member, not an empty one. */
  lemma {:induction false} ScopeMembers(s: Scope)
    ensures s.workspaceHash.None? ==>
      Members(ScopeJson(s), ["visibility", "action"], [Str(s.visibility), Str(s.action)])
    ensures s.workspaceHash.Some? ==>
      Members(ScopeJson(s), ["visibility", "action", "workspace_hash"],
              [Str(s.visibility), Str(s.action), Str(s.workspaceHash.value)])
  {
  }

  /** A stake payment's authorization is a scope; an exact payment's is a signature with the transfer it signs. */
  lemma {:induction false} PaymentMembers(p: Payment)
    ensures p.Stake? ==>
      Members(PaymentJson(p), ["scheme", "session_id", "payer_wallet", "authorization"],
              [Str(Name("stake")), Str(p.sessionId), Str(p.payerWallet),
               ScopeJson(Scope(Some(p.workspaceHash), p.visibility, p.action))])
    ensures p.Exact? ==>
      Members(PaymentJson(p), ["scheme", "payer_wallet", "authorization"],
              [Str(Name("exact")), Str(p.payerWallet), PaymentJson(p).fields[2].value]) &&
      Members(PaymentJson(p).fields[2].value, ["signature", "authorization"],
              [Str(p.signature), PaymentJson(p).fields[2].value.fields[1].value]) &&
      Members(PaymentJson(p).fields[2].value.fields[1].value,
              ["from", "to", "value", "validAfter", "validBefore", "nonce"],
              [Str(p.from), Str(p.to), Str(p.value), Str(p.validAfter), Str(p.validBefore), Str(p.nonce)])
  {
  }

  // ---------------------------------------------------------------- equal text, equal operation

  predicate DistinctTexts(keys: seq<Text>) {
    forall i, j :: 0 <= i < j < |keys| ==> keys[i] != keys[j]
  }

  lemma {:induction false} KeysDiffer()
    ensures DistinctTexts(SCOPE_KEYS) && DistinctTexts(BINDING_KEYS) && DistinctTexts(STAKE_KEYS)
    ensures DistinctTexts(EXACT_KEYS) && DistinctTexts(PROOF_KEYS) && DistinctTexts(TRANSFER_KEYS)
  {
    forall i, j | 0 <= i < j < |BINDING_KEYS| ensures BINDING_KEYS[i] != BINDING_KEYS[j] {
      assert |BINDING_KEYS[i]| != |BINDING_KEYS[j]| || BINDING_KEYS[i][0] != BINDING_KEYS[j][0];
    }
  }

  /** Records over the same distinct keys are the same value exactly when their members are. */
  lemma {:induction false} SameRecords(keys: seq<Text>, xs: seq<Json>, ys: seq<Json>)
    requires |keys| == |xs| == |ys| && DistinctTexts(keys)
    requires Same(Obj(Record(keys, xs)), Obj(Record(keys, ys)))
    ensures forall i :: 0 <= i < |keys| ==> Same(xs[i], ys[i])
  {
    forall i | 0 <= i < |keys| ensures Same(xs[i], ys[i]) {
      assert HasTwin(Record(keys, xs)[i], Record(keys, ys));
    }
  }

  lemma {:induction false} TextMeansSame(a: Json, b: Json)
    requires Clean(a) && Clean(b) && WellFormed(a) && WellFormed(b)
    requires CanonicalJson(a) == CanonicalJson(b)
    ensures Same(a, b)
  {
    EqualTextIffSame(a, b);
  }

  lemma RecordWellFormed(keys: seq<Text>, values: seq<Json>)
    requires |keys| == |values| && DistinctTexts(keys)
    requires forall i :: 0 <= i < |values| ==> Clean(values[i]) && WellFormed(values[i])
    ensures Clean(Obj(Record(keys, values))) && WellFormed(Obj(Record(keys, values)))
  {
  }

  lemma ScopeJsonWellFormed(s: Scope)
    ensures Clean(ScopeJson(s)) && WellFormed(ScopeJson(s))
  {
    KeysDiffer();
  }

  lemma BindingJsonWellFormed(b: Binding)
    ensures Clean(BindingJson(b)) && WellFormed(BindingJson(b))
  {
    KeysDiffer();
    ScopeJsonWellFormed(b.scope);
    RecordWellFormed(BINDING_KEYS, BindingValues(b));
  }

  lemma {:induction false} SameScopes(a: Scope, b: Scope)
    requires Same(ScopeJson(a), ScopeJson(b))
    ensures a == b
  {
    KeysDiffer();
    if a.workspaceHash.None? {
      var xs, ys := [Str(a.visibility), Str(a.action)], [Str(b.visibility), Str(b.action)];
      assert |ScopeJson(a).fields| == |ScopeJson(b).fields|;
      SameRecords(SCOPE_KEYS[..2], xs, ys);
      assert Same(xs[0], ys[0]) && Same(xs[1], ys[1]);
    } else {
      assert |ScopeJson(a).fields| == |ScopeJson(b).fields|;
      var xs := [Str(a.visibility), Str(a.action), Str(a.workspaceHash.value)];
      var ys := [Str(b.visibility), Str(b.action), Str(b.workspaceHash.value)];
      SameRecords(SCOPE_KEYS, xs, ys);
      assert Same(xs[0], ys[0]) && Same(xs[1], ys[1]) && Same(xs[2], ys[2]);
    }
  }

  lemma {:induction false} SameValues(a: Binding, b: Binding)
    requires forall i :: 0 <= i < 12 ==> Same(BindingValues(a)[i], BindingValues(b)[i])
    ensures a == b
  {
    var xs, ys := BindingValues(a), BindingValues(b);
    assert Same(xs[1], ys[1]) && Same(xs[2], ys[2]) && Same(xs[3], ys[3]) && Same(xs[4], ys[4]);
    assert Same(xs[5], ys[5]) && Same(xs[6], ys[6]) && Same(xs[7], ys[7]) && Same(xs[8], ys[8]);
    assert Same(xs[9], ys[9]) && Same(xs[10], ys[10]) && Same(xs[11], ys[11]);
    SameScopes(a.scope, b.scope);
  }

  lemma {:induction false} SameBindings(a: Binding, b: Binding)
    requires Same(BindingJson(a), BindingJson(b))
    ensures a == b
  {
    KeysDiffer();
    SameRecords(BINDING_KEYS, BindingValues(a), BindingValues(b));
    SameValues(a, b);
  }

  /** The conflict checks of `#settle` compare canonical texts: equal texts are equal bindings. */
  lemma BindingTextIsInjective(a: Binding, b: Binding)
    ensures BindingText(a).Ok?
    ensures BindingText(a) == BindingText(b) <==> a == b
  {
    BindingJsonWellFormed(a);
    BindingJsonWellFormed(b);
    PrintsIffClean(BindingJson(a));
    if BindingText(a) == BindingText(b) {
      TextMeansSame(BindingJson(a), BindingJson(b));
      SameBindings(a, b);
    }
  }

  lemma PaymentJsonWellFormed(p: Payment)
    ensures Clean(PaymentJson(p)) && WellFormed(PaymentJson(p))
  {
    KeysDiffer();
    if p.Stake? {
      ScopeJsonWellFormed(Scope(Some(p.workspaceHash), p.visibility, p.action));
    } else {
      RecordWellFormed(TRANSFER_KEYS, TransferValues(p));
      RecordWellFormed(PROOF_KEYS, [Str(p.signature), Obj(Record(TRANSFER_KEYS, TransferValues(p)))]);
    }
  }

  lemma SameTransfers(a: Payment, b: Payment)
    requires a.Exact? && b.Exact?
    requires forall i :: 0 <= i < 6 ==> Same(TransferValues(a)[i], TransferValues(b)[i])
    ensures a.from == b.from && a.to == b.to && a.value == b.value
    ensures a.validAfter == b.validAfter && a.validBefore == b.validBefore && a.nonce == b.nonce
  {
    var xs, ys := TransferValues(a), TransferValues(b);
    assert Same(xs[0], ys[0]) && Same(xs[1], ys[1]) && Same(xs[2], ys[2]);
    assert Same(xs[3], ys[3]) && Same(xs[4], ys[4]) && Same(xs[5], ys[5]);
  }

  lemma {:induction false} SamePayments(a: Payment, b: Payment)
    requires Same(PaymentJson(a), PaymentJson(b))
    ensures a == b
  {
    KeysDiffer();
    if a.Stake? && b.Stake? {
      var s, t := Scope(Some(a.workspaceHash), a.visibility, a.action), Scope(Some(b.workspaceHash), b.visibility, b.action);
      var xs := [Str(Name("stake")), Str(a.sessionId), Str(a.payerWallet), ScopeJson(s)];
      var ys := [Str(Name("stake")), Str(b.sessionId), Str(b.payerWallet), ScopeJson(t)];
      SameRecords(STAKE_KEYS, xs, ys);
      assert Same(xs[1], ys[1]) && Same(xs[2], ys[2]) && Same(xs[3], ys[3]);
      SameScopes(s, t);
    } else if a.Exact? && b.Exact? {
      var p := [Str(a.signature), Obj(Record(TRANSFER_KEYS, TransferValues(a)))];
      var q := [Str(b.signature), Obj(Record(TRANSFER_KEYS, TransferValues(b)))];
      var xs := [Str(Name("exact")), Str(a.payerWallet), Obj(Record(PROOF_KEYS, p))];
      var ys := [Str(Name("exact")), Str(b.payerWallet), Obj(Record(PROOF_KEYS, q))];
      SameRecords(EXACT_KEYS, xs, ys);
      assert Same(xs[1], ys[1]) && Same(xs[2], ys[2]);
      SameRecords(PROOF_KEYS, p, q);
      assert Same(p[0], q[0]) && Same(p[1], q[1]);
      SameRecords(TRANSFER_KEYS, TransferValues(a), TransferValues(b));
      SameTransfers(a, b);
    }
  }

  /** Equal payment texts are equal payments: a retry cannot bring another authorization. */
  lemma {:induction false} PaymentTextIsInjective(a: Payment, b: Payment)
    ensures PaymentText(a).Ok?
    ensures PaymentText(a) == PaymentText(b) <==> a == b
  {
    PaymentJsonWellFormed(a);
    PaymentJsonWellFormed(b);
    PrintsIffClean(PaymentJson(a));
    if PaymentText(a) == PaymentText(b) {
      TextMeansSame(PaymentJson(a), PaymentJson(b));
      SamePayments(a, b);
    }
  }
}
