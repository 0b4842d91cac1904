// The preset ERC20 token: balances, allowances and supply with minting, burning and pausing,
// and the laws its ledger obeys over every run.
module Ledger {
  import opened Words

  datatype Ledger = Ledger(
    balances: map<Address, nat>,
    allowances: map<(Address, Address), nat>,
    totalSupply: nat,
    paused: bool,
    minters: set<Address>,
    pausers: set<Address>)
  {
    function Balance(x: Address): nat {
      Read(balances, x)
    }

    function Allowance(owner: Address, spender: Address): nat {
      if (owner, spender) in allowances then allowances[(owner, spender)] else 0
    }
  }

  // Storage never written reads as 0.
  function Read(m: map<Address, nat>, x: Address): nat {
    if x in m then m[x] else 0
  }

  datatype TokenError =
    | FromZeroAddress | ToZeroAddress | SpenderZeroAddress | TokenPaused | TokenNotPaused
    | BalanceTooLow | AllowanceTooLow | AdditionOverflow | SupplyOverflow | SupplyUnderflow | NotMinter | NotPauser

  datatype TokenAction =
    | Transfer(sender: Address, to: Address, amount: uint256)
    | Approve(sender: Address, spender: Address, amount: uint256)
    | IncreaseAllowance(sender: Address, spender: Address, amount: uint256)
    | DecreaseAllowance(sender: Address, spender: Address, amount: uint256)
    | TransferFrom(sender: Address, from: Address, to: Address, amount: uint256)
    | Mint(sender: Address, to: Address, amount: uint256)
    | Burn(sender: Address, amount: uint256)
    | BurnFrom(sender: Address, from: Address, amount: uint256)
    | Pause(sender: Address)
    | Unpause(sender: Address)
    | SetMinter(account: Address, allowed: bool)
    | SetPauser(account: Address, allowed: bool)

  function Move(l: Ledger, from: Address, to: Address, amount: uint256): Result<Ledger, TokenError> {
    if from == ZERO_ADDRESS then Err(FromZeroAddress)
    else if to == ZERO_ADDRESS then Err(ToZeroAddress)
    else if l.paused then Err(TokenPaused)
    else if amount > l.Balance(from) then Err(BalanceTooLow)
    else
      var taken := l.balances[from := l.Balance(from) - amount];
      if Read(taken, to) + amount >= TWO_256 then Err(AdditionOverflow)
      else Ok(l.(balances := taken[to := Read(taken, to) + amount]))
  }

  function SetAllowance(l: Ledger, owner: Address, spender: Address, amount: nat): Result<Ledger, TokenError> {
    if owner == ZERO_ADDRESS then Err(FromZeroAddress)
    else if spender == ZERO_ADDRESS then Err(SpenderZeroAddress)
    else Ok(l.(allowances := l.allowances[(owner, spender) := amount]))
  }

  function UseAllowance(l: Ledger, owner: Address, spender: Address, amount: uint256): Result<Ledger, TokenError> {
    if amount > l.Allowance(owner, spender) then Err(AllowanceTooLow)
    else SetAllowance(l, owner, spender, l.Allowance(owner, spender) - amount)
  }

  function Create(l: Ledger, to: Address, amount: uint256): Result<Ledger, TokenError> {
    if to == ZERO_ADDRESS then Err(ToZeroAddress)
    else if l.paused then Err(TokenPaused)
    else if l.totalSupply + amount >= TWO_256 then Err(SupplyOverflow)
    else if l.Balance(to) + amount >= TWO_256 then Err(AdditionOverflow)
    else Ok(l.(totalSupply := l.totalSupply + amount, balances := l.balances[to := l.Balance(to) + amount]))
  }

  function Destroy(l: Ledger, from: Address, amount: uint256): Result<Ledger, TokenError> {
    if from == ZERO_ADDRESS then Err(FromZeroAddress)
    else if l.paused then Err(TokenPaused)
    else if amount > l.Balance(from) then Err(BalanceTooLow)
    else if amount > l.totalSupply then Err(SupplyUnderflow)
    else Ok(l.(totalSupply := l.totalSupply - amount, balances := l.balances[from := l.Balance(from) - amount]))
  }

  function AndThen(r: Result<Ledger, TokenError>, f: Ledger -> Result<Ledger, TokenError>): Result<Ledger, TokenError> {
    if r.Ok? then f(r.value) else r
  }

  function MoveFrom(l: Ledger, spender: Address, from: Address, to: Address,
                    amount: uint256): Result<Ledger, TokenError> {
    AndThen(Move(l, from, to, amount), m => UseAllowance(m, from, spender, amount))
  }

  function DestroyFrom(l: Ledger, spender: Address, from: Address, amount: uint256): Result<Ledger, TokenError> {
    AndThen(UseAllowance(l, from, spender, amount), m => Destroy(m, from, amount))
  }

  // One call to the token: Ok carries the committed ledger, Err is a revert.
  function TokenStep(l: Ledger, a: TokenAction): Result<Ledger, TokenError> {
    match a
    case Transfer(sender, to, amount) => Move(l, sender, to, amount)
    case Approve(sender, spender, amount) => SetAllowance(l, sender, spender, amount)
    case IncreaseAllowance(sender, spender, amount) =>
      if l.Allowance(sender, spender) + amount >= TWO_256 then Err(AdditionOverflow)
      else SetAllowance(l, sender, spender, l.Allowance(sender, spender) + amount)
    case DecreaseAllowance(sender, spender, amount) => UseAllowance(l, sender, spender, amount)
    case TransferFrom(sender, from, to, amount) => MoveFrom(l, sender, from, to, amount)
    case Mint(sender, to, amount) => if sender !in l.minters then Err(NotMinter) else Create(l, to, amount)
    case Burn(sender, amount) => Destroy(l, sender, amount)
    case BurnFrom(sender, from, amount) => DestroyFrom(l, sender, from, amount)
    case Pause(sender) =>
      if sender !in l.pausers then Err(NotPauser) else if l.paused then Err(TokenPaused) else Ok(l.(paused := true))
    case Unpause(sender) =>
      if sender !in l.pausers then Err(NotPauser) else if !l.paused then Err(TokenNotPaused)
        else Ok(l.(paused := false))
    case SetMinter(x, allowed) => Ok(l.(minters := if allowed then l.minters + {x} else l.minters - {x}))
    case SetPauser(x, allowed) => Ok(l.(pausers := if allowed then l.pausers + {x} else l.pausers - {x}))
  }

  function AfterToken(l: Ledger, a: TokenAction): Ledger {
    match TokenStep(l, a)
    case Ok(m) => m
    case Err(_) => l
  }

  function RunToken(l: Ledger, actions: seq<TokenAction>): Ledger
    decreases |actions|
  {
    if actions == [] then l else RunToken(AfterToken(l, actions[0]), actions[1..])
  }

  // A new token: nobody owns anything, the deployer may mint and pause.
  function NewLedger(deployer: Address): Ledger {
    Ledger(map[], map[], 0, false, {deployer}, {deployer})
  }

  // What falls to x of an amount that `who` gains or loses, whoever they are.
  function Share(x: Address, who: Address, amount: nat): nat {
    if x == who then amount else 0
  }

  // ----- the sum of all balances -----

  ghost function Sum(m: map<Address, nat>): nat {
    if m == map[] then 0
    else
      var x :| x in m;
      m[x] + Sum(m - {x})
  }

  lemma {:induction false} SumWithout(m: map<Address, nat>, x: Address)
    requires x in m
    ensures Sum(m) == m[x] + Sum(m - {x})
    decreases |m|
  {
    var y :| y in m && Sum(m) == m[y] + Sum(m - {y});
    if y != x {
      SumWithout(m - {y}, x);
      SumWithout(m - {x}, y);
      assert m - {y} - {x} == m - {x} - {y};
    }
  }

  lemma SumUpdate(m: map<Address, nat>, x: Address, v: nat)
    ensures Sum(m[x := v]) == Sum(m) - Read(m, x) + v
    ensures Read(m, x) <= Sum(m)
  {
    SumWithout(m[x := v], x);
    if x in m {
      SumWithout(m, x);
      assert m[x := v] - {x} == m - {x};
    } else {
      assert m[x := v] - {x} == m;
    }
  }

  // The balances add up to the total supply, which fits a word.
  ghost predicate Balanced(l: Ledger) {
    Sum(l.balances) == l.totalSupply < TWO_256
  }

  lemma MoveBalanced(l: Ledger, from: Address, to: Address, amount: uint256)
    requires Balanced(l)
    ensures !Breaks(Move(l, from, to, amount))
    ensures Move(l, from, to, amount).Ok? ==> Balanced(Move(l, from, to, amount).value)
  {
    if amount <= l.Balance(from) {
      var taken := l.balances[from := l.Balance(from) - amount];
      SumUpdate(l.balances, from, l.Balance(from) - amount);
      SumUpdate(taken, to, Read(taken, to) + amount);
    }
  }

  lemma CreateBalanced(l: Ledger, to: Address, amount: uint256)
    requires Balanced(l)
    ensures !Breaks(Create(l, to, amount))
    ensures Create(l, to, amount).Ok? ==> Balanced(Create(l, to, amount).value)
  {
    SumUpdate(l.balances, to, l.Balance(to) + amount);
  }

  lemma DestroyBalanced(l: Ledger, from: Address, amount: uint256)
    requires Balanced(l)
    ensures !Breaks(Destroy(l, from, amount))
    ensures Destroy(l, from, amount).Ok? ==> Balanced(Destroy(l, from, amount).value)
  {
    if amount <= l.Balance(from) {
      SumUpdate(l.balances, from, l.Balance(from) - amount);
    }
  }

  // A reply that only a ledger out of balance could give.
  predicate Breaks(r: Result<Ledger, TokenError>) {
    r == Err(AdditionOverflow) || r == Err(SupplyUnderflow)
  }

  lemma TokenStepBalanced(l: Ledger, a: TokenAction)
    requires Balanced(l)
    ensures Balanced(AfterToken(l, a))
    ensures Breaks(TokenStep(l, a)) ==> a.IncreaseAllowance?
  {
    hide Balanced, Move, Create, Destroy;
    match a
    case Transfer(sender, to, amount) => MoveBalanced(l, sender, to, amount);
    case TransferFrom(sender, from, to, amount) =>
      MoveBalanced(l, from, to, amount);
      if Move(l, from, to, amount).Ok? {
        AllowancesDoNotMatter(Move(l, from, to, amount).value, from, sender, amount);
      }
    case Mint(sender, to, amount) => CreateBalanced(l, to, amount);
    case Burn(sender, amount) => DestroyBalanced(l, sender, amount);
    case BurnFrom(sender, from, amount) =>
      AllowancesDoNotMatter(l, from, sender, amount);
      if UseAllowance(l, from, sender, amount).Ok? {
        DestroyBalanced(UseAllowance(l, from, sender, amount).value, from, amount);
      }
    case _ => OtherStepsBalanced(l, a);
  }

  lemma AllowancesDoNotMatter(l: Ledger, owner: Address, spender: Address, amount: uint256)
    requires Balanced(l)
    ensures UseAllowance(l, owner, spender, amount).Ok? ==> Balanced(UseAllowance(l, owner, spender, amount).value)
    ensures !Breaks(UseAllowance(l, owner, spender, amount))
  {}

  lemma OtherStepsBalanced(l: Ledger, a: TokenAction)
    requires Balanced(l)
    requires a.Approve? || a.IncreaseAllowance? || a.DecreaseAllowance? || a.Pause? || a.Unpause? || a.SetMinter?
             || a.SetPauser?
    ensures Balanced(AfterToken(l, a))
    ensures Breaks(TokenStep(l, a)) ==> a.IncreaseAllowance?
  {}

  // Over every run of the token the balances add up to the supply, so no transfer, mint or
  // burn is ever refused by an overflow check on a balance or an underflow check on the supply.
  lemma {:induction false} RunBalanced(l: Ledger, actions: seq<TokenAction>)
    requires Balanced(l)
    ensures Balanced(RunToken(l, actions))
    ensures forall a: TokenAction | !a.IncreaseAllowance? :: !Breaks(TokenStep(RunToken(l, actions), a))
    decreases |actions|
  {
    hide Balanced, Breaks;
    if actions == [] {
      forall a: TokenAction | !a.IncreaseAllowance? ensures !Breaks(TokenStep(l, a)) {
        TokenStepBalanced(l, a);
      }
    } else {
      TokenStepBalanced(l, actions[0]);
      RunBalanced(AfterToken(l, actions[0]), actions[1..]);
    }
  }

  lemma DeployedTokenBalanced(deployer: Address, actions: seq<TokenAction>)
    ensures Balanced(RunToken(NewLedger(deployer), actions))
    ensures forall a: TokenAction | !a.IncreaseAllowance? ::
              !Breaks(TokenStep(RunToken(NewLedger(deployer), actions), a))
  {
    RunBalanced(NewLedger(deployer), actions);
  }

  // ----- allowances -----

  // What a committed call takes out of an allowance, and what it puts in.
  function Spent(l: Ledger, a: TokenAction, owner: Address, spender: Address): nat {
    if TokenStep(l, a).Ok? && (a.TransferFrom? || a.BurnFrom?) && a.sender == spender && a.from == owner
    then a.amount else 0
  }

  function Granted(l: Ledger, a: TokenAction, owner: Address, spender: Address): nat {
    if TokenStep(l, a).Ok? && (a.Approve? || a.IncreaseAllowance?) && a.sender == owner && a.spender == spender
    then a.amount else 0
  }

  // What a committed call of the owner takes back: what it overwrites or decreases.
  function Withdrawn(l: Ledger, a: TokenAction, owner: Address, spender: Address): nat {
    if TokenStep(l, a).Ok? && (a.Approve? || a.DecreaseAllowance?) && a.sender == owner && a.spender == spender
    then if a.Approve? then l.Allowance(owner, spender) else a.amount
    else 0
  }

  function TotalSpent(l: Ledger, actions: seq<TokenAction>, owner: Address, spender: Address): nat
    decreases |actions|
  {
    if actions == [] then 0
    else Spent(l, actions[0], owner, spender) + TotalSpent(AfterToken(l, actions[0]), actions[1..], owner, spender)
  }

  function TotalGranted(l: Ledger, actions: seq<TokenAction>, owner: Address, spender: Address): nat
    decreases |actions|
  {
    if actions == [] then 0
    else Granted(l, actions[0], owner, spender) + TotalGranted(AfterToken(l, actions[0]), actions[1..], owner, spender)
  }

  function TotalWithdrawn(l: Ledger, actions: seq<TokenAction>, owner: Address, spender: Address): nat
    decreases |actions|
  {
    if actions == [] then 0
    else
      Withdrawn(l, actions[0], owner, spender) + TotalWithdrawn(AfterToken(l, actions[0]), actions[1..], owner, spender)
  }

  lemma StepAllowance(l: Ledger, a: TokenAction, owner: Address, spender: Address)
    ensures Spent(l, a, owner, spender) + Withdrawn(l, a, owner, spender) + AfterToken(l, a).Allowance(owner, spender)
         == l.Allowance(owner, spender) + Granted(l, a, owner, spender)
  {}

  // Over every run, what the owner granted is what the spender has taken, what the owner took
  // back, and what the spender may still take.
  lemma {:induction false} AllowanceAccounting(l: Ledger, actions: seq<TokenAction>, owner: Address, spender: Address)
    ensures TotalSpent(l, actions, owner, spender) + TotalWithdrawn(l, actions, owner, spender)
              + RunToken(l, actions).Allowance(owner, spender)
         == l.Allowance(owner, spender) + TotalGranted(l, actions, owner, spender)
    decreases |actions|
  {
    if actions != [] {
      StepAllowance(l, actions[0], owner, spender);
      AllowanceAccounting(AfterToken(l, actions[0]), actions[1..], owner, spender);
    }
  }

  // What an approval is good for: afterwards the spender can move an amount exactly if it is
  // within the approval and the owner's balance, to a real account, while the token runs; the
  // rest of the approval remains, and nobody else's allowance changes.
  lemma ApprovalIsSpendable(l: Ledger, owner: Address, spender: Address, to: Address, granted: uint256, amount: uint256)
    requires Balanced(l) && TokenStep(l, Approve(owner, spender, granted)).Ok?
    ensures var approved := TokenStep(l, Approve(owner, spender, granted)).value;
            var moved := TokenStep(approved, TransferFrom(spender, owner, to, amount));
            && (moved.Ok? <==> amount <= granted && amount <= l.Balance(owner) && to != ZERO_ADDRESS && !l.paused)
            && (moved.Ok? ==>
                  && moved.value.Allowance(owner, spender) == granted - amount
                  && (forall o: Address, s: Address | (o, s) != (owner, spender) ::
                        moved.value.Allowance(o, s) == l.Allowance(o, s))
                  && (owner != to ==> moved.value.Balance(to) == l.Balance(to) + amount))
  {
    MoveBalanced(TokenStep(l, Approve(owner, spender, granted)).value, owner, to, amount);
  }

  // Burning what was just minted restores supply and balances.
  lemma MintThenBurn(l: Ledger, sender: Address, to: Address, amount: uint256)
    requires Balanced(l) && TokenStep(l, Mint(sender, to, amount)).Ok?
    ensures var burned := TokenStep(TokenStep(l, Mint(sender, to, amount)).value, Burn(to, amount));
            && burned.Ok? && burned.value.totalSupply == l.totalSupply
            && (forall x: Address :: burned.value.Balance(x) == l.Balance(x))
  {
    CreateBalanced(l, to, amount);
    DestroyBalanced(TokenStep(l, Mint(sender, to, amount)).value, to, amount);
  }
}
