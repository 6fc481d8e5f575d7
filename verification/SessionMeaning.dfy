/** What the checks of the settlement service mean, spelled out: letter case, amounts, sessions,
policies and expiry. */
module SessionMeaning {
  import opened Wrappers
  import opened Decimal
  import opened Canonical
  import opened Operation
  import opened SessionState

  // ---------------------------------------------------------------- letter case

  /** The same unit, or an ASCII letter and its other case. */
  predicate SameLetter(a: Unit, b: Unit) {
    a == b || (65 <= a <= 90 && b == a + 32) || (65 <= b <= 90 && a == b + 32)
  }

  predicate SameLetters(a: Text, b: Text) {
    |a| == |b| && forall i :: 0 <= i < |a| ==> SameLetter(a[i], b[i])
  }

  /** Two addresses are the same exactly when they differ in the case of letters at most. */
  lemma SameTextIff(a: Text, b: Text)
    ensures SameText(a, b) <==> SameLetters(a, b)
  {
    if SameText(a, b) {
      forall i | 0 <= i < |a|
        ensures SameLetter(a[i], b[i])
      {
        assert Lower(a)[i] == Lower(b)[i];
      }
    }
  }

  /** Without a leading `0x` or `0X`. */
  function Bare(t: Text): Text {
    if |t| >= 2 && t[0] == 48 && (t[1] == 120 || t[1] == 88) then t[2..] else t
  }

  lemma BareLower(t: Text)
    ensures Unprefixed(Lower(t)) == Lower(Bare(t))
  {
  }

  /** Two hashes are the same when they are so with or without the prefix. */
  lemma SameHexIff(a: Text, b: Text)
    ensures SameHex(a, b) <==> SameLetters(Bare(a), Bare(b))
  {
    BareLower(a);
    BareLower(b);
    SameTextIff(Bare(a), Bare(b));
  }

  // ---------------------------------------------------------------- amounts

  /** A string of digits means the number that has that decimal notation. */
  lemma {:induction false} AmountOfDigits(ds: seq<Digit>)
    ensures Amount(Digital(ds)) == Value(ds)
  {
    if ds != [] {
      AmountOfDigits(ds[..|ds| - 1]);
      assert Digital(ds)[..|ds| - 1] == Digital(ds[..|ds| - 1]);
    }
  }

  // ---------------------------------------------------------------- sessions and policies

  lemma ExactMatchesIff(r: Request)
    requires r.payment.Exact?
    ensures ExactMatches(r) <==>
      (SameLetters(r.payment.from, r.binding.payerWallet) && SameLetters(r.payment.to, r.binding.payTo) &&
       r.payment.value == r.binding.amount)
  {
    SameTextIff(r.payment.from, r.binding.payerWallet);
    SameTextIff(r.payment.to, r.binding.payTo);
  }

  lemma SessionPaysIff(x: Session, b: Binding)
    ensures SessionPays(x, b) <==>
      (SameLetters(x.payerWallet, b.payerWallet) && x.payerSubject == b.payerSubject && SameLetters(x.payTo, b.payTo) &&
       SameLetters(x.asset, b.asset) && x.network == b.network)
  {
    SameTextIff(x.payerWallet, b.payerWallet);
    SameTextIff(x.payTo, b.payTo);
    SameTextIff(x.asset, b.asset);
  }

  /** The session, the payment and the binding name one workspace, visibility and action, and the
      session allows the action; a binding without a workspace counts as the empty text. */
  lemma ScopeAllowsIff(x: Session, r: Request)
    ensures ScopeAllows(x, r) <==>
      (r.payment.Stake? && SameLetters(Bare(x.workspaceHash), Bare(r.payment.workspaceHash)) &&
       (if r.binding.scope.workspaceHash.Some?
        then SameLetters(Bare(r.binding.scope.workspaceHash.value), Bare(r.payment.workspaceHash))
        else Bare(r.payment.workspaceHash) == []) &&
       x.visibility == r.payment.visibility == r.binding.scope.visibility &&
       r.payment.action == r.binding.scope.action && r.payment.action in x.allowedActions)
  {
    if r.payment.Stake? {
      SameHexIff(x.workspaceHash, r.payment.workspaceHash);
      match r.binding.scope.workspaceHash
      case Some(hash) => SameHexIff(hash, r.payment.workspaceHash);
      case None => SameHexIff([], r.payment.workspaceHash);
    }
  }

  lemma PolicyMatchesIff(x: Session, p: Policy)
    ensures PolicyMatches(x, p) <==>
      (SameLetters(p.facilitator, x.facilitator) && SameLetters(p.payTo, x.payTo) && SameLetters(p.scopeHash, x.scopeHash) &&
       p.cap == x.cap && p.ceiling == x.ceiling && p.validUntil == x.validUntil && p.epoch == x.epoch)
  {
    SameTextIff(p.facilitator, x.facilitator);
    SameTextIff(p.payTo, x.payTo);
    SameTextIff(p.scopeHash, x.scopeHash);
  }

  /** What a policy is refused for, in this order. */
  lemma PolicyRefusalIs(x: Session, p: Policy, amount: int, now: Time)
    ensures var left := p.cap - p.spent; var refusal := PolicyRefusal(x, p, amount, now);
      (refusal == Some(OnchainPolicyMismatch) <==> !PolicyMatches(x, p)) &&
      (PolicyMatches(x, p) ==>
        (refusal == Some(SessionNotFullyFunded) <==> p.fundedBalance < left) &&
        (left <= p.fundedBalance ==>
          (refusal == Some(SessionRevoked) <==> p.revoked) &&
          (!p.revoked ==>
            (refusal == Some(SessionExpired) <==> p.validUntil * 1000 <= now) &&
            (p.validUntil * 1000 > now ==>
              (refusal == Some(OperationCeilingExceeded) <==> amount > p.ceiling) &&
              (amount <= p.ceiling ==>
                (refusal == Some(SessionCapExceeded) <==> amount > left) &&
                (amount <= left ==> refusal.None?))))))
  {
  }

  // ---------------------------------------------------------------- expiry

  /** A binding that passes the other checks is refused exactly when its expiry is no date, not
      ahead of the clock, or further ahead than a quote may live. */
  lemma InvalidBindingIs(env: Env, b: Binding, refused: Option<Text>, now: Time)
    ensures var expires := env.dateOf(b.expiresAt); var invalid := InvalidBinding(env, b, refused, now);
      (refused.Some? ==> invalid == Some(Refused(refused.value))) &&
      (refused.None? ==>
        (invalid == Some(QuoteExpired) <==> expires.None? || expires.value <= now) &&
        (invalid == Some(QuoteExpiryTooLong) <==> expires.Some? && now < expires.value && now + env.quoteTtl < expires.value) &&
        (invalid.None? <==> expires.Some? && now < expires.value <= now + env.quoteTtl))
  {
  }

  /** What a settle request is refused for before anything is looked up, in this order. */
  lemma InvalidRequestIs(env: Env, r: Request, c: Checks)
    ensures var binding := InvalidBinding(env, r.binding, c.binding, c.now); var invalid := InvalidRequest(env, r, c);
      (binding.Some? ==> invalid == binding) &&
      (binding.None? && c.payment.Some? ==> invalid == Some(Refused(c.payment.value))) &&
      (binding.None? && c.payment.None? ==>
        invalid == if SameLetters(r.payment.payerWallet, r.binding.payerWallet) then None else Some(PayerWalletMismatch))
  {
    SameTextIff(r.payment.payerWallet, r.binding.payerWallet);
  }
}
