/** Who can change the rate, the treasury and the pause, what each call pays, and why one reverts:
for every call in every run of the factory and its vaults. */
module VaultAnswers {
  import opened Wrappers
  import opened Vault
  import opened VaultRuns

  lemma {:induction false} Extend(start: World, steps: seq<Step>, step: Step)
    requires Run(start, steps) && Enabled(After(start, steps), step)
    ensures Run(start, steps + [step]) && After(start, steps + [step]) == Apply(After(start, steps), step)
  {
    assert (steps + [step])[..|steps + [step]| - 1] == steps;
  }

  lemma {:induction false} RunFront(start: World, steps: seq<Step>)
    requires Run(start, steps) && steps != []
    ensures var front, last := steps[..|steps| - 1], steps[|steps| - 1];
      Run(start, front) && Enabled(After(start, front), last) && After(start, steps) == Apply(After(start, front), last)
  {
  }

  // ---------------------------------------------------------------- the factory's settings

  /** A call that sets the rate: the owner's, with at most a tenth. */
  predicate SetsRate(step: Step, owner: Address) { step.SetFee? && step.sender == owner && step.bps <= 1000 }

  /** A call that sets the treasury: the owner's, with another address than zero. */
  predicate SetsTreasury(step: Step, owner: Address) {
    step.SetTreasury? && step.sender == owner && step.treasury != Account(0)
  }

  predicate SetsPause(step: Step, owner: Address) { step.SetPaused? && step.sender == owner }

  /** A call that gives its sender a vault. */
  predicate Registers(f: Factory, step: Step) { step.Register? && !f.paused && step.sender !in f.vaults }

  /** Every setting changes by its own call and by no other. */
  lemma {:induction false} SettingsChangeIff(start: World, steps: seq<Step>, step: Step)
    requires Run(start, steps + [step]) && Run(start, steps)
    ensures var f, g := After(start, steps).factory, After(start, steps + [step]).factory;
      g.owner == f.owner &&
      (SetsRate(step, f.owner) ==> g.feeBps == step.bps) && (!SetsRate(step, f.owner) ==> g.feeBps == f.feeBps) &&
      (SetsTreasury(step, f.owner) ==> g.treasury == step.treasury) &&
      (!SetsTreasury(step, f.owner) ==> g.treasury == f.treasury) &&
      (SetsPause(step, f.owner) ==> g.paused == step.on) && (!SetsPause(step, f.owner) ==> g.paused == f.paused) &&
      (Registers(f, step) ==> g.vaults == f.vaults[step.sender := Clone(step.sender)]) &&
      (!Registers(f, step) ==> g.vaults == f.vaults)
  {
    RunFront(start, steps + [step]);
    assert (steps + [step])[..|steps + [step]| - 1] == steps;
  }

  lemma {:induction false} OwnerStays(start: World, steps: seq<Step>)
    requires Run(start, steps)
    ensures After(start, steps).factory.owner == start.factory.owner
  {
    if steps != [] {
      var front, last := steps[..|steps| - 1], steps[|steps| - 1];
      RunFront(start, steps);
      OwnerStays(start, front);
      assert front + [last] == steps;
      SettingsChangeIff(start, front, last);
    }
  }

  /** The rate in every run is the one the owner set last, in call k - 1, or the first one if the
      owner has set none. */
  lemma {:induction false} RateIsTheOwners(start: World, steps: seq<Step>, k: nat)
    requires Run(start, steps) && k <= |steps| && (k > 0 ==> SetsRate(steps[k - 1], start.factory.owner))
    requires forall j :: k <= j < |steps| ==> !SetsRate(steps[j], start.factory.owner)
    ensures After(start, steps).factory.feeBps == if k == 0 then start.factory.feeBps else steps[k - 1].bps
    ensures After(start, steps).factory.feeBps <= 1000
  {
    RunKeeps(start, steps);
    if steps != [] {
      var front, last := steps[..|steps| - 1], steps[|steps| - 1];
      RunFront(start, steps);
      OwnerStays(start, front);
      assert front + [last] == steps;
      SettingsChangeIff(start, front, last);
      if k < |steps| {
        RateIsTheOwners(start, front, k);
      }
    }
  }

  /** So is the treasury, and it is never zero. */
  lemma {:induction false} TreasuryIsTheOwners(start: World, steps: seq<Step>, k: nat)
    requires Run(start, steps) && k <= |steps| && (k > 0 ==> SetsTreasury(steps[k - 1], start.factory.owner))
    requires forall j :: k <= j < |steps| ==> !SetsTreasury(steps[j], start.factory.owner)
    ensures After(start, steps).factory.treasury == if k == 0 then start.factory.treasury else steps[k - 1].treasury
    ensures After(start, steps).factory.treasury != Account(0)
  {
    RunKeeps(start, steps);
    if steps != [] {
      var front, last := steps[..|steps| - 1], steps[|steps| - 1];
      RunFront(start, steps);
      OwnerStays(start, front);
      assert front + [last] == steps;
      SettingsChangeIff(start, front, last);
      if k < |steps| {
        TreasuryIsTheOwners(start, front, k);
      }
    }
  }

  /** A vault once registered stays its developer's. */
  lemma {:induction false} VaultsStay(start: World, steps: seq<Step>, more: seq<Step>, developer: Address)
    requires Run(start, steps) && Run(start, steps + more) && developer in After(start, steps).factory.vaults
    ensures var vaults := After(start, steps + more).factory.vaults;
      developer in vaults && vaults[developer] == Clone(developer)
    decreases |more|
  {
    if more == [] {
      assert steps + more == steps;
      RunKeeps(start, steps);
    } else {
      var front, last := steps + more[..|more| - 1], more[|more| - 1];
      assert (steps + more)[..|steps + more| - 1] == front;
      RunFront(start, steps + more);
      VaultsStay(start, steps, more[..|more| - 1], developer);
      assert front + [last] == steps + more;
      SettingsChangeIff(start, front, last);
    }
  }

  // ---------------------------------------------------------------- what a call pays

  /** When a withdrawal goes through. */
  predicate Pays(w: World, sender: Address, vault: Address, refusing: set<Address>) {
    var share := BalanceOf(w.token.balances, vault) * w.factory.feeBps as nat;
    vault == Clone(sender) && 0 < BalanceOf(w.token.balances, vault) &&
    share < 0x1_0000000000000000_0000000000000000_0000000000000000_0000000000000000 &&
    vault !in refusing && sender !in refusing && (10_000 <= share ==> w.factory.treasury !in refusing)
  }

  /** A withdrawal in a run: it pays out the vault's balance, less the fee at the rate of the moment,
      to the developer and the fee to the treasury of the moment, or nothing changes. */
  lemma {:induction false} WithdrawalPaysOrReverts(
      start: World, steps: seq<Step>, sender: Address, vault: Address, refusing: set<Address>, a: Address)
    requires Run(start, steps) && Enabled(After(start, steps), Withdraw(sender, vault, refusing))
    ensures Run(start, steps + [Withdraw(sender, vault, refusing)])
    ensures var w, v := After(start, steps), After(start, steps + [Withdraw(sender, vault, refusing)]);
      var gross := BalanceOf(w.token.balances, vault);
      var fee := gross * w.factory.feeBps as nat / 10_000;
      v.factory == w.factory && (!Pays(w, sender, vault, refusing) ==> v == w) &&
      (Pays(w, sender, vault, refusing) ==>
        v.history == w.history + [Withdrawal(vault, sender, gross, fee, w.factory.feeBps)] &&
        BalanceOf(v.token.balances, a) == BalanceOf(w.token.balances, a) - If(a == vault, gross) +
          If(a == sender, gross - fee) + If(a == w.factory.treasury, fee))
  {
    var w := After(start, steps);
    RunKeeps(start, steps);
    Extend(start, steps, Withdraw(sender, vault, refusing));
    WithdrawsIff(w.token, w.factory, vault, vault.developer, sender, refusing);
    if Withdrawn(w.token, w.factory, vault, vault.developer, sender, refusing).Ok? {
      WithdrawalPays(w.token, w.factory, vault, vault.developer, sender, refusing, a);
    }
  }

  /** A token transfer in a run moves the amount unless an end refuses or the sender has too little. */
  lemma {:induction false} SendMovesOrReverts(
      start: World, steps: seq<Step>, from: Address, to: Address, amount: nat, refusing: set<Address>, a: Address)
    requires Run(start, steps) && Enabled(After(start, steps), Send(from, to, amount, refusing))
    ensures Run(start, steps + [Send(from, to, amount, refusing)])
    ensures var w, v := After(start, steps), After(start, steps + [Send(from, to, amount, refusing)]);
      var moves := from !in refusing && to !in refusing && amount <= BalanceOf(w.token.balances, from);
      v.factory == w.factory && v.history == w.history && (!moves ==> v == w) &&
      (moves ==>
        v.token.log == w.token.log + [Transfer(from, to, amount)] &&
        BalanceOf(v.token.balances, a) ==
        BalanceOf(w.token.balances, a) - If(a == from, amount) + If(a == to, amount))
  {
    Extend(start, steps, Send(from, to, amount, refusing));
    if amount <= BalanceOf(After(start, steps).token.balances, from) {
      MovedBalance(After(start, steps).token, from, to, amount, a);
    }
  }

  // ---------------------------------------------------------------- why a call reverts

  /** A stranger is turned away first; an empty vault, a product over 256 bits and a refusal follow. */
  lemma {:induction false} WithdrawalFails(
      t: Token, f: Factory, vault: Address, developer: Address, sender: Address, refusing: set<Address>, error: Error)
    requires f.feeBps <= 1000
    ensures var gross := BalanceOf(t.balances, vault);
      var word := 0x1_0000000000000000_0000000000000000_0000000000000000_0000000000000000;
      Withdrawn(t, f, vault, developer, sender, refusing) == Err(error) ==>
        (error == NotDeveloper <==> sender != developer) &&
        (error == NoBalance <==> sender == developer && gross == 0) &&
        (error == Overflow <==> sender == developer && gross * f.feeBps as nat >= word) &&
        (error == TransferRefused <==> sender == developer && gross > 0 && gross * f.feeBps as nat < word)
  {
    FeeIsAtMostATenth(BalanceOf(t.balances, vault), f.feeBps as nat);
  }

  /** Settings: a stranger is told so whatever the value, the owner that the value is wrong. */
  lemma {:induction false} SettingFails(f: Factory, sender: Address, bps: uint16, treasury: Address)
    ensures FeeSet(f, sender, bps) == Err(NotOwner) <==> sender != f.owner
    ensures FeeSet(f, sender, bps) == Err(InvalidFeeBps) <==> sender == f.owner && bps > 1000
    ensures TreasurySet(f, sender, treasury) == Err(NotOwner) <==> sender != f.owner
    ensures TreasurySet(f, sender, treasury) == Err(ZeroAddress) <==> sender == f.owner && treasury == Account(0)
    ensures Registered(f, sender) == Err(EnforcedPause) <==> f.paused
    ensures Registered(f, sender) == Err(AlreadyRegistered) <==> !f.paused && sender in f.vaults
  {
  }

  /** A factory starts with its deployer as the owner, unpaused and without vaults. */
  lemma {:induction false} ConstructedIff(sender: Address, usdcSet: bool, treasury: Address, bps: uint16)
    ensures var r := Constructed(sender, usdcSet, treasury, bps);
      (r.Ok? <==> usdcSet && treasury != Account(0) && bps <= 1000) &&
      (r.Ok? ==> r.value.owner == sender && r.value.treasury == treasury && r.value.feeBps == bps &&
                 !r.value.paused && r.value.vaults == map[]) &&
      (r == Err(InvalidFeeBps) <==> usdcSet && treasury != Account(0) && bps > 1000) &&
      (r == Err(ZeroAddress) <==> !usdcSet || treasury == Account(0))
  {
  }
}
