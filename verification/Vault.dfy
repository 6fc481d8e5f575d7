/** The fee split on chain (contracts/src/PaymentSplitterFactory.sol, contracts/src/PaymentVaultImpl.sol):
one factory, its vaults and the token they hold. A call either happens as a whole or reverts
and changes nothing. */
module Vault {
  import opened Wrappers

  /** Accounts and other contracts, and the vault deployed for a developer: CREATE2 gives every
      developer another address, and nothing but the vault's own code sends from it. */
  datatype Address = Account(id: nat) | Clone(developer: Address)

  const ZERO := Account(0)
  const BPS: nat := 10_000
  const MAX_FEE_BPS: uint16 := 1000
  const WORD: nat := 0x1_0000000000000000_0000000000000000_0000000000000000_0000000000000000

  newtype uint16 = n: int | 0 <= n < 0x1_0000

  datatype Error =
    | NotDeveloper | NoBalance | Overflow | TransferRefused
    | NotOwner | ZeroAddress | InvalidFeeBps | AlreadyRegistered | EnforcedPause | AlreadyInitialized

  // ---------------------------------------------------------------- the token

  type Balances = map<Address, nat>

  datatype Transfer = Transfer(from: Address, to: Address, amount: nat)

  /** USDC: balances, and the transfers it has logged. */
  datatype Token = Token(balances: Balances, log: seq<Transfer>)

  function BalanceOf(b: Balances, a: Address): nat {
    if a in b then b[a] else 0
  }

  function Moved(t: Token, from: Address, to: Address, amount: nat): Token
    requires amount <= BalanceOf(t.balances, from)
  {
    var b := t.balances[from := BalanceOf(t.balances, from) - amount];
    Token(b[to := BalanceOf(b, to) + amount], t.log + [Transfer(from, to, amount)])
  }

  /** `safeTransfer`; the token turns down transfers that touch an address in `refusing`. */
  function Transferred(t: Token, from: Address, to: Address, amount: nat, refusing: set<Address>): Result<Token, Error> {
    if from in refusing || to in refusing || amount > BalanceOf(t.balances, from) then Err(TransferRefused)
    else Ok(Moved(t, from, to, amount))
  }

  // ---------------------------------------------------------------- the factory

  datatype Factory = Factory(owner: Address, treasury: Address, feeBps: uint16, paused: bool, vaults: map<Address, Address>)

  function Constructed(sender: Address, usdcSet: bool, treasury: Address, bps: uint16): Result<Factory, Error> {
    if !usdcSet then Err(ZeroAddress)
    else if treasury == ZERO then Err(ZeroAddress)
    else if bps > MAX_FEE_BPS then Err(InvalidFeeBps)
    else Ok(Factory(sender, treasury, bps, false, map[]))
  }

  function FeeSet(f: Factory, sender: Address, bps: uint16): Result<Factory, Error> {
    if sender != f.owner then Err(NotOwner)
    else if bps > MAX_FEE_BPS then Err(InvalidFeeBps)
    else Ok(f.(feeBps := bps))
  }

  function TreasurySet(f: Factory, sender: Address, treasury: Address): Result<Factory, Error> {
    if sender != f.owner then Err(NotOwner)
    else if treasury == ZERO then Err(ZeroAddress)
    else Ok(f.(treasury := treasury))
  }

  function Registered(f: Factory, sender: Address): Result<Factory, Error> {
    if f.paused then Err(EnforcedPause)
    else if sender in f.vaults then Err(AlreadyRegistered)
    else Ok(f.(vaults := f.vaults[sender := Clone(sender)]))
  }

  // ---------------------------------------------------------------- withdraw

  /** What a withdrawal leaves behind. */
  datatype Payout = Payout(token: Token, gross: nat, fee: nat)

  function Withdrawn(
      t: Token, f: Factory, vault: Address, developer: Address, sender: Address, refusing: set<Address>):
    Result<Payout, Error>
  {
    var gross := BalanceOf(t.balances, vault);
    if sender != developer then Err(NotDeveloper)
    else if gross == 0 then Err(NoBalance)
    else if gross * f.feeBps as nat >= WORD then Err(Overflow)
    else
      var fee := gross * f.feeBps as nat / BPS;
      if fee > gross then Err(Overflow)
      else
        match Transferred(t, vault, developer, gross - fee, refusing)
        case Err(e) => Err(e)
        case Ok(t1) =>
          if fee == 0 then Ok(Payout(t1, gross, fee))
          else
            match Transferred(t1, vault, f.treasury, fee, refusing)
            case Err(e) => Err(e)
            case Ok(t2) => Ok(Payout(t2, gross, fee))
  }

  // ---------------------------------------------------------------- the contracts

  class Usdc {
    var balances: Balances
    var log: seq<Transfer>

    ghost function View(): Token
      reads this
    {
      Token(balances, log)
    }

    method SafeTransfer(from: Address, to: Address, amount: nat, refusing: set<Address>) returns (error: Option<Error>)
      modifies this
      ensures var r := Transferred(old(View()), from, to, amount, refusing);
        if r.Ok? then error.None? && View() == r.value else error == Some(r.error) && View() == old(View())
    {
      var held := if from in balances then balances[from] else 0;
      if from in refusing || to in refusing || amount > held {
        return Some(TransferRefused);
      }
      balances := balances[from := held - amount];
      var target := if to in balances then balances[to] else 0;
      balances := balances[to := target + amount];
      log := log + [Transfer(from, to, amount)];
      return None;
    }

    /** The chain takes back what a reverted call did. */
    method Revert(b: Balances, l: seq<Transfer>)
      modifies this
      ensures View() == Token(b, l)
    {
      balances, log := b, l;
    }
  }

  class PaymentSplitterFactory {
    const owner: Address
    const usdc: Usdc
    var platformTreasury: Address
    var feeBps: uint16
    var paused: bool
    var vaults: map<Address, Address>

    ghost function View(): Factory
      reads this
    {
      Factory(owner, platformTreasury, feeBps, paused, vaults)
    }

    constructor (sender: Address, token: Usdc, treasury: Address, initialFeeBps: uint16)
      requires Constructed(sender, true, treasury, initialFeeBps).Ok?
      ensures usdc == token && View() == Constructed(sender, true, treasury, initialFeeBps).value
    {
      owner, usdc := sender, token;
      platformTreasury, feeBps, paused, vaults := treasury, initialFeeBps, false, map[];
    }

    static method Deploy(sender: Address, token: Usdc?, treasury: Address, initialFeeBps: uint16)
      returns (deployed: Result<PaymentSplitterFactory, Error>)
      ensures var r := Constructed(sender, token != null, treasury, initialFeeBps);
        if r.Ok? then
          deployed.Ok? && fresh(deployed.value) && deployed.value.usdc == token && deployed.value.View() == r.value
        else deployed == Err(r.error)
    {
      if token == null {
        return Err(ZeroAddress);
      } else if treasury == ZERO {
        return Err(ZeroAddress);
      } else if initialFeeBps > MAX_FEE_BPS {
        return Err(InvalidFeeBps);
      }
      var f := new PaymentSplitterFactory(sender, token, treasury, initialFeeBps);
      return Ok(f);
    }

    method SetFeeBps(sender: Address, newBps: uint16) returns (error: Option<Error>)
      modifies this
      ensures var r := FeeSet(old(View()), sender, newBps);
        if r.Ok? then error.None? && View() == r.value else error == Some(r.error) && View() == old(View())
    {
      if sender != owner {
        return Some(NotOwner);
      } else if newBps > MAX_FEE_BPS {
        return Some(InvalidFeeBps);
      }
      feeBps := newBps;
      return None;
    }

    method SetPlatformTreasury(sender: Address, newTreasury: Address) returns (error: Option<Error>)
      modifies this
      ensures var r := TreasurySet(old(View()), sender, newTreasury);
        if r.Ok? then error.None? && View() == r.value else error == Some(r.error) && View() == old(View())
    {
      if sender != owner {
        return Some(NotOwner);
      } else if newTreasury == ZERO {
        return Some(ZeroAddress);
      }
      platformTreasury := newTreasury;
      return None;
    }

    method Register(sender: Address) returns (deployed: Result<PaymentVaultImpl, Error>)
      requires sender != ZERO
      modifies this
      ensures var r := Registered(old(View()), sender);
        if r.Ok? then
          View() == r.value && deployed.Ok? && fresh(deployed.value) && deployed.value.address == vaults[sender] &&
          deployed.value.developer == sender && deployed.value.factory == this
        else deployed == Err(r.error) && View() == old(View())
    {
      if paused {
        return Err(EnforcedPause);
      } else if sender in vaults {
        return Err(AlreadyRegistered);
      }
      var vault := new PaymentVaultImpl(Clone(sender));
      vaults := vaults[sender := vault.address];
      var error := vault.Initialize(this, sender);
      return Ok(vault);
    }
  }

  class PaymentVaultImpl {
    const address: Address
    var developer: Address
    var factory: PaymentSplitterFactory?

    constructor (at: Address)
      ensures address == at && factory == null
    {
      address, developer, factory := at, ZERO, null;
    }

    /** `initializer` lets one call through, the factory's; both fields are set by it for good. */
    method Initialize(sender: PaymentSplitterFactory, dev: Address) returns (error: Option<Error>)
      modifies this
      ensures error == if old(factory) != null then Some(AlreadyInitialized) else if dev == ZERO then Some(ZeroAddress) else None
      ensures if error.None? then developer == dev && factory == sender
              else developer == old(developer) && factory == old(factory)
    {
      if factory != null {
        return Some(AlreadyInitialized);
      } else if dev == ZERO {
        return Some(ZeroAddress);
      }
      developer, factory := dev, sender;
      return None;
    }

    method Withdraw(sender: Address, refusing: set<Address>) returns (result: Result<(nat, nat), Error>)
      requires factory != null
      modifies factory.usdc
      ensures var token := factory.usdc;
        var r := Withdrawn(old(token.View()), factory.View(), address, developer, sender, refusing);
        if r.Ok? then result == Ok((r.value.gross, r.value.fee)) && token.View() == r.value.token
        else result == Err(r.error) && token.View() == old(token.View())
    {
      if sender != developer {
        return Err(NotDeveloper);
      }
      var token := factory.usdc;
      var balances, log := token.balances, token.log;
      var gross := if address in balances then balances[address] else 0;
      if gross == 0 {
        return Err(NoBalance);
      }
      var currentFeeBps := factory.feeBps as nat;
      if gross * currentFeeBps >= WORD {
        return Err(Overflow);
      }
      var fee := gross * currentFeeBps / BPS;
      if fee > gross {
        return Err(Overflow);
      }
      var net := gross - fee;
      var error := token.SafeTransfer(address, developer, net, refusing);
      if error.Some? {
        return Err(error.value);
      }
      if fee > 0 {
        error := token.SafeTransfer(address, factory.platformTreasury, fee, refusing);
        if error.Some? {
          token.Revert(balances, log);
          return Err(error.value);
        }
      }
      return Ok((gross, fee));
    }
  }

  // ---------------------------------------------------------------- one withdrawal

  function If(c: bool, n: int): int { if c then n else 0 }

  lemma FeeIsFloor(gross: nat, bps: nat)
    ensures var fee := gross * bps / BPS; 10_000 * fee <= gross * bps < 10_000 * (fee + 1)
  {
  }

  /** A capped fee is at most a tenth. */
  lemma FeeIsAtMostATenth(gross: nat, bps: nat)
    requires bps <= 1000
    ensures 10 * (gross * bps / BPS) <= gross
  {
    FeeIsFloor(gross, bps);
    assert gross * bps <= gross * 1000;
  }

  lemma MovedBalance(t: Token, from: Address, to: Address, amount: nat, a: Address)
    requires amount <= BalanceOf(t.balances, from)
    ensures BalanceOf(Moved(t, from, to, amount).balances, a) ==
            BalanceOf(t.balances, a) - If(a == from, amount) + If(a == to, amount)
  {
  }

  /** When a withdrawal goes through: a refusing treasury blocks it only if there is a fee to pay. */
  lemma WithdrawsIff(t: Token, f: Factory, vault: Address, developer: Address, sender: Address, refusing: set<Address>)
    requires f.feeBps <= 1000
    ensures var gross := BalanceOf(t.balances, vault);
      Withdrawn(t, f, vault, developer, sender, refusing).Ok? <==>
      (sender == developer && 0 < gross &&
       gross * f.feeBps as nat < 0x1_0000000000000000_0000000000000000_0000000000000000_0000000000000000 &&
       vault !in refusing &&
       developer !in refusing && (10_000 <= gross * f.feeBps as nat ==> f.treasury !in refusing))
  {
    var gross, bps := BalanceOf(t.balances, vault), f.feeBps as nat;
    var fee := gross * bps / BPS;
    FeeIsAtMostATenth(gross, bps);
    FeeIsFloor(gross, bps);
    assert fee == 0 <==> gross * bps < BPS;
    if vault !in refusing && developer !in refusing {
      MovedBalance(t, vault, developer, gross - fee, vault);
    }
  }

  /** The developer is paid first, the treasury second and only a positive fee. */
  lemma WithdrawalTransfers(
      t: Token, f: Factory, vault: Address, developer: Address, sender: Address, refusing: set<Address>)
    requires Withdrawn(t, f, vault, developer, sender, refusing).Ok?
    ensures var Payout(t', gross, fee) := Withdrawn(t, f, vault, developer, sender, refusing).value;
      fee <= gross && t'.log == t.log +
        ([Transfer(vault, developer, gross - fee)] + if fee > 0 then [Transfer(vault, f.treasury, fee)] else [])
  {
  }

  /** The vault's whole balance is split; the fee is the exact share rounded down, and at most a tenth. */
  lemma WithdrawalFee(t: Token, f: Factory, vault: Address, developer: Address, sender: Address, refusing: set<Address>)
    requires f.feeBps <= 1000 && Withdrawn(t, f, vault, developer, sender, refusing).Ok?
    ensures var Payout(t', gross, fee) := Withdrawn(t, f, vault, developer, sender, refusing).value;
      gross == BalanceOf(t.balances, vault) > 0 && 10 * fee <= gross &&
      10_000 * fee <= gross * f.feeBps as nat < 10_000 * (fee + 1)
  {
    var gross := BalanceOf(t.balances, vault);
    FeeIsAtMostATenth(gross, f.feeBps as nat);
    FeeIsFloor(gross, f.feeBps as nat);
  }

  /** Every balance after a withdrawal, also when the treasury is the developer or the vault. */
  lemma WithdrawalPays(
      t: Token, f: Factory, vault: Address, developer: Address, sender: Address, refusing: set<Address>, a: Address)
    requires Withdrawn(t, f, vault, developer, sender, refusing).Ok?
    ensures var Payout(t', gross, fee) := Withdrawn(t, f, vault, developer, sender, refusing).value;
      BalanceOf(t'.balances, a) ==
      BalanceOf(t.balances, a) - If(a == vault, gross) + If(a == developer, gross - fee) + If(a == f.treasury, fee)
  {
    var Payout(t', gross, fee) := Withdrawn(t, f, vault, developer, sender, refusing).value;
    MovedBalance(t, vault, developer, gross - fee, a);
    if fee > 0 {
      MovedBalance(Moved(t, vault, developer, gross - fee), vault, f.treasury, fee, a);
    }
  }

  /** A withdrawal empties the vault, unless the treasury is the vault and gets a fee. */
  lemma EmptiesIff(t: Token, f: Factory, vault: Address, developer: Address, sender: Address, refusing: set<Address>)
    requires f.feeBps <= 1000 && Withdrawn(t, f, vault, developer, sender, refusing).Ok? && developer != vault
    ensures BalanceOf(Withdrawn(t, f, vault, developer, sender, refusing).value.token.balances, vault) == 0 <==>
      f.treasury != vault || BalanceOf(t.balances, vault) * f.feeBps as nat < 10_000
  {
    WithdrawalFee(t, f, vault, developer, sender, refusing);
    WithdrawalPays(t, f, vault, developer, sender, refusing, vault);
  }
}
