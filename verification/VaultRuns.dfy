/** Whole runs of the factory and its vaults: deposits, registrations, rate and treasury changes
and withdrawals, in any order. */
module VaultRuns {
  import opened Wrappers
  import opened Vault

  /** One successful withdrawal, and the rate it was made at. */
  datatype Withdrawal = Withdrawal(vault: Address, developer: Address, gross: nat, fee: nat, rate: uint16)

  datatype World = World(token: Token, factory: Factory, history: seq<Withdrawal>)

  datatype Step =
    | Send(from: Address, to: Address, amount: nat, refusing: set<Address>)
    | SetFee(sender: Address, bps: uint16)
    | SetTreasury(sender: Address, treasury: Address)
    | SetPaused(sender: Address, on: bool)
    | Register(sender: Address)
    | Withdraw(sender: Address, vault: Address, refusing: set<Address>)

  /** Calls come from accounts; a vault holds no key and calls nothing but the token. */
  predicate Enabled(w: World, step: Step) {
    match step
    case Send(from, _, _, _) => from.Account?
    case SetFee(sender, _) => sender.Account?
    case SetTreasury(sender, _) => sender.Account?
    case SetPaused(sender, _) => sender.Account?
    case Register(sender) => sender.Account?
    case Withdraw(sender, vault, _) =>
      sender.Account? && vault.Clone? && vault.developer in w.factory.vaults && w.factory.vaults[vault.developer] == vault
  }

  function Keep<T>(r: Result<T, Error>, otherwise: T): T {
    match r
    case Ok(v) => v
    case Err(_) => otherwise
  }

  /** A call that reverts leaves the world as it is. */
  function Apply(w: World, step: Step): World
    requires Enabled(w, step)
  {
    match step
    case Send(from, to, amount, refusing) => w.(token := Keep(Transferred(w.token, from, to, amount, refusing), w.token))
    case SetFee(sender, bps) => w.(factory := Keep(FeeSet(w.factory, sender, bps), w.factory))
    case SetTreasury(sender, treasury) => w.(factory := Keep(TreasurySet(w.factory, sender, treasury), w.factory))
    case SetPaused(sender, on) => if sender == w.factory.owner then w.(factory := w.factory.(paused := on)) else w
    case Register(sender) => w.(factory := Keep(Registered(w.factory, sender), w.factory))
    case Withdraw(sender, vault, refusing) =>
      match Withdrawn(w.token, w.factory, vault, vault.developer, sender, refusing)
      case Err(_) => w
      case Ok(p) =>
        w.(token := p.token,
           history := w.history + [Withdrawal(vault, vault.developer, p.gross, p.fee, w.factory.feeBps)])
  }

  /** A new factory, and the balances that are there when it is deployed: no vault exists yet, but the
      address of a future one may hold tokens already. */
  predicate Initial(w: World) {
    w.history == [] && w.token.log == [] &&
    exists usdcSet :: Constructed(w.factory.owner, usdcSet, w.factory.treasury, w.factory.feeBps) == Ok(w.factory)
  }

  predicate Run(start: World, steps: seq<Step>)
    decreases |steps|, 0
  {
    if steps == [] then Initial(start)
    else Run(start, steps[..|steps| - 1]) && Enabled(After(start, steps[..|steps| - 1]), steps[|steps| - 1])
  }

  function After(start: World, steps: seq<Step>): World
    requires Run(start, steps)
    decreases |steps|, 1
  {
    if steps == [] then start else Apply(After(start, steps[..|steps| - 1]), steps[|steps| - 1])
  }

  // ---------------------------------------------------------------- sums

  /** All the tokens there are. */
  ghost function Supply(b: Balances): nat
    decreases |b|
  {
    if b == map[] then 0
    else
      var a :| a in b;
      b[a] + Supply(b - {a})
  }

  lemma {:induction false} SupplyWithout(b: Balances, a: Address)
    requires a in b
    ensures Supply(b) == b[a] + Supply(b - {a})
    decreases |b|
  {
    var c :| c in b && Supply(b) == b[c] + Supply(b - {c});
    if c != a {
      SupplyWithout(b - {c}, a);
      SupplyWithout(b - {a}, c);
      assert (b - {c}) - {a} == (b - {a}) - {c};
    }
  }

  lemma {:induction false} SupplyUpdate(b: Balances, a: Address, n: nat)
    ensures Supply(b[a := n]) == Supply(b) - BalanceOf(b, a) + n
  {
    SupplyWithout(b[a := n], a);
    assert b[a := n] - {a} == b - {a};
    if a in b {
      SupplyWithout(b, a);
    } else {
      assert b - {a} == b;
    }
  }

  lemma {:induction false} MovedKeepsSupply(t: Token, from: Address, to: Address, amount: nat)
    requires amount <= BalanceOf(t.balances, from)
    ensures Supply(Moved(t, from, to, amount).balances) == Supply(t.balances)
  {
    var b := t.balances[from := BalanceOf(t.balances, from) - amount];
    SupplyUpdate(t.balances, from, BalanceOf(t.balances, from) - amount);
    SupplyUpdate(b, to, BalanceOf(b, to) + amount);
  }

  function In(log: seq<Transfer>, a: Address): nat {
    if log == [] then 0
    else In(log[..|log| - 1], a) + if log[|log| - 1].to == a then log[|log| - 1].amount else 0
  }

  /** What was withdrawn from the vault. */
  function Taken(history: seq<Withdrawal>, vault: Address): nat {
    if history == [] then 0
    else Taken(history[..|history| - 1], vault) + if history[|history| - 1].vault == vault then history[|history| - 1].gross else 0
  }

  function Picked(history: seq<Withdrawal>, pick: Withdrawal -> bool): seq<Withdrawal> {
    if history == [] then []
    else Picked(history[..|history| - 1], pick) + if pick(history[|history| - 1]) then [history[|history| - 1]] else []
  }

  function Gross(ws: seq<Withdrawal>): nat {
    if ws == [] then 0 else Gross(ws[..|ws| - 1]) + ws[|ws| - 1].gross
  }

  function Fees(ws: seq<Withdrawal>): nat {
    if ws == [] then 0 else Fees(ws[..|ws| - 1]) + ws[|ws| - 1].fee
  }

  // ---------------------------------------------------------------- invariants

  predicate FactoryOk(f: Factory) {
    f.feeBps <= 1000 && f.treasury != ZERO && forall d :: d in f.vaults ==> d.Account? && f.vaults[d] == Clone(d)
  }

  predicate Fair(e: Withdrawal) {
    e.vault == Clone(e.developer) && 10 * e.fee <= e.gross && 10_000 * e.fee <= e.gross * e.rate as nat < 10_000 * (e.fee + 1)
  }

  predicate AllFair(history: seq<Withdrawal>) { forall i :: 0 <= i < |history| ==> Fair(history[i]) }

  ghost predicate Backed(start: World, w: World, developer: Address) {
    BalanceOf(start.token.balances, Clone(developer)) + In(w.token.log, Clone(developer)) ==
    Taken(w.history, Clone(developer)) + BalanceOf(w.token.balances, Clone(developer))
  }

  ghost predicate Inv(start: World, w: World) {
    FactoryOk(w.factory) && AllFair(w.history) && Supply(w.token.balances) == Supply(start.token.balances) &&
    forall d :: Backed(start, w, d)
  }

  lemma FactoryStepOk(w: World, step: Step)
    requires FactoryOk(w.factory) && Enabled(w, step)
    ensures FactoryOk(Apply(w, step).factory)
  {
  }

  lemma MovedIn(t: Token, from: Address, to: Address, amount: nat, a: Address)
    requires amount <= BalanceOf(t.balances, from)
    ensures In(Moved(t, from, to, amount).log, a) == In(t.log, a) + If(to == a, amount)
  {
    assert (t.log + [Transfer(from, to, amount)])[..|t.log|] == t.log;
  }

  lemma SendKeeps(start: World, w: World, step: Step)
    requires Inv(start, w) && step.Send? && Enabled(w, step)
    ensures Inv(start, Apply(w, step))
  {
    var Send(from, to, amount, refusing) := step;
    if Transferred(w.token, from, to, amount, refusing).Ok? {
      MovedKeepsSupply(w.token, from, to, amount);
      forall d
        ensures Backed(start, Apply(w, step), d)
      {
        assert Backed(start, w, d);
        MovedIn(w.token, from, to, amount, Clone(d));
        MovedBalance(w.token, from, to, amount, Clone(d));
      }
    }
  }

  lemma {:induction false} PayoutIn(w: World, step: Step, a: Address)
    requires step.Withdraw? && Enabled(w, step)
    requires Withdrawn(w.token, w.factory, step.vault, step.vault.developer, step.sender, step.refusing).Ok?
    ensures var p := Withdrawn(w.token, w.factory, step.vault, step.vault.developer, step.sender, step.refusing).value;
      In(p.token.log, a) == In(w.token.log, a) + If(step.vault.developer == a, p.gross - p.fee) + If(w.factory.treasury == a, p.fee)
  {
    var Payout(t, gross, fee) :=
      Withdrawn(w.token, w.factory, step.vault, step.vault.developer, step.sender, step.refusing).value;
    MovedIn(w.token, step.vault, step.vault.developer, gross - fee, a);
    if fee > 0 {
      MovedIn(Moved(w.token, step.vault, step.vault.developer, gross - fee), step.vault, w.factory.treasury, fee, a);
    }
  }

  lemma PayoutBacked(start: World, w: World, step: Step, d: Address)
    requires step.Withdraw? && Enabled(w, step) && FactoryOk(w.factory) && Backed(start, w, d)
    requires Withdrawn(w.token, w.factory, step.vault, step.vault.developer, step.sender, step.refusing).Ok?
    ensures Backed(start, Apply(w, step), d)
  {
    WithdrawalPays(w.token, w.factory, step.vault, step.vault.developer, step.sender, step.refusing, Clone(d));
    PayoutIn(w, step, Clone(d));
    assert Apply(w, step).history[..|w.history|] == w.history;
  }

  lemma {:induction false} PayoutKeepsSupply(w: World, step: Step)
    requires step.Withdraw? && Enabled(w, step) && FactoryOk(w.factory)
    requires Withdrawn(w.token, w.factory, step.vault, step.vault.developer, step.sender, step.refusing).Ok?
    ensures Supply(Apply(w, step).token.balances) == Supply(w.token.balances)
  {
    var Payout(t, gross, fee) :=
      Withdrawn(w.token, w.factory, step.vault, step.vault.developer, step.sender, step.refusing).value;
    var v := step.vault;
    var t1 := Moved(w.token, v, v.developer, gross - fee);
    MovedKeepsSupply(w.token, v, v.developer, gross - fee);
    if fee > 0 {
      MovedKeepsSupply(t1, v, w.factory.treasury, fee);
      assert t == Moved(t1, v, w.factory.treasury, fee);
    } else {
      assert t == t1;
    }
  }

  lemma WithdrawKeeps(start: World, w: World, step: Step)
    requires Inv(start, w) && step.Withdraw? && Enabled(w, step)
    ensures Inv(start, Apply(w, step))
  {
    if Withdrawn(w.token, w.factory, step.vault, step.vault.developer, step.sender, step.refusing).Ok? {
      WithdrawalFee(w.token, w.factory, step.vault, step.vault.developer, step.sender, step.refusing);
      PayoutKeepsSupply(w, step);
      forall d
        ensures Backed(start, Apply(w, step), d)
      {
        PayoutBacked(start, w, step, d);
      }
    }
  }

  lemma {:induction false} StepKeeps(start: World, w: World, step: Step)
    requires Inv(start, w) && Enabled(w, step)
    ensures Inv(start, Apply(w, step))
  {
    FactoryStepOk(w, step);
    if step.Send? {
      SendKeeps(start, w, step);
    } else if step.Withdraw? {
      WithdrawKeeps(start, w, step);
    } else {
      assert forall d :: Backed(start, w, d) ==> Backed(start, Apply(w, step), d);
    }
  }

  lemma {:induction false} RunKeeps(start: World, steps: seq<Step>)
    requires Run(start, steps)
    ensures Inv(start, After(start, steps))
  {
    if steps != [] {
      RunKeeps(start, steps[..|steps| - 1]);
      StepKeeps(start, After(start, steps[..|steps| - 1]), steps[|steps| - 1]);
    }
  }

  lemma {:induction false} PickedAreFair(history: seq<Withdrawal>, pick: Withdrawal -> bool)
    requires AllFair(history)
    ensures AllFair(Picked(history, pick)) && forall e :: e in Picked(history, pick) ==> pick(e)
  {
    if history != [] {
      PickedAreFair(history[..|history| - 1], pick);
    }
  }

  lemma Distribute(x: nat, y: nat, r: nat)
    ensures (x + y) * r == x * r + y * r
  {
  }

  lemma {:induction false} FeesAddUp(ws: seq<Withdrawal>, rate: uint16)
    requires AllFair(ws) && forall e :: e in ws ==> e.rate == rate
    ensures 10_000 * Fees(ws) <= Gross(ws) * rate as nat <= 10_000 * Fees(ws) + 9_999 * |ws|
    ensures 10 * Fees(ws) <= Gross(ws)
  {
    if ws != [] {
      var front, e := ws[..|ws| - 1], ws[|ws| - 1];
      FeesAddUp(front, rate);
      assert Fair(e) && e.rate == rate;
      Distribute(Gross(front), e.gross, rate as nat);
    }
  }

  // ---------------------------------------------------------------- theorems

  /** No token is made or lost. */
  lemma {:induction false} TokensConserved(start: World, steps: seq<Step>)
    requires Run(start, steps)
    ensures Supply(After(start, steps).token.balances) == Supply(start.token.balances)
  {
    RunKeeps(start, steps);
  }

  /** All a vault's address held at first and was ever sent is in it, or was withdrawn by its developer and shared out: no
      change of rate or treasury, and no other call, moves it. */
  lemma {:induction false} VaultsAreBacked(start: World, steps: seq<Step>, developer: Address)
    requires Run(start, steps)
    ensures var w := After(start, steps); var vault := Clone(developer);
      BalanceOf(start.token.balances, vault) + In(w.token.log, vault) ==
      Taken(w.history, vault) + BalanceOf(w.token.balances, vault)
  {
    RunKeeps(start, steps);
    assert Backed(start, After(start, steps), developer);
  }

  /** Any choice of withdrawals made at one rate, of one vault or of many: the fees together fall
      short of the exact share by less than one unit a withdrawal, and are at most a tenth. */
  lemma {:induction false} FeesAtOneRate(start: World, steps: seq<Step>, rate: uint16, pick: Withdrawal -> bool)
    requires Run(start, steps) && forall e :: pick(e) ==> e.rate == rate
    ensures var ws := Picked(After(start, steps).history, pick); var G, F, n := Gross(ws), Fees(ws), |ws|;
      10_000 * F <= G * rate as nat && 10 * F <= G && (n >= 1 ==> G * rate as nat < 10_000 * (F + n))
  {
    RunKeeps(start, steps);
    PickedAreFair(After(start, steps).history, pick);
    FeesAddUp(Picked(After(start, steps).history, pick), rate);
  }

  lemma {:induction false} TenthOfAll(ws: seq<Withdrawal>)
    requires AllFair(ws)
    ensures 10 * Fees(ws) <= Gross(ws)
  {
    if ws != [] {
      TenthOfAll(ws[..|ws| - 1]);
      assert Fair(ws[|ws| - 1]);
    }
  }

  /** At any rates, the treasury never gets more than a tenth of what was withdrawn. */
  lemma {:induction false} FeesAreAtMostATenth(start: World, steps: seq<Step>)
    requires Run(start, steps)
    ensures 10 * Fees(After(start, steps).history) <= Gross(After(start, steps).history)
  {
    RunKeeps(start, steps);
    TenthOfAll(After(start, steps).history);
  }
}
