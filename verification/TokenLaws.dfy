// What each call of the token answers and does, exactly, as double entry: every call that moves
// tokens has a payer, or mints, and a payee, or burns.
module TokenLaws {
  import opened Words
  import opened Ledger

  predicate Moves(a: TokenAction) {
    a.Transfer? || a.TransferFrom? || a.Mint? || a.Burn? || a.BurnFrom?
  }

  function Payer(a: TokenAction): Option<Address> {
    match a
    case Transfer(sender, _, _) => Some(sender)
    case TransferFrom(_, from, _, _) => Some(from)
    case Burn(sender, _) => Some(sender)
    case BurnFrom(_, from, _) => Some(from)
    case _ => None
  }

  function Payee(a: TokenAction): Option<Address> {
    match a
    case Transfer(_, to, _) => Some(to)
    case TransferFrom(_, _, to, _) => Some(to)
    case Mint(_, to, _) => Some(to)
    case _ => None
  }

  // The caller acts for somebody else and needs an allowance for it.
  predicate ForAnother(a: TokenAction) {
    a.TransferFrom? || a.BurnFrom?
  }

  // What the call takes from, or gives to, an account if it commits.
  function Pays(a: TokenAction, x: Address): nat {
    if Moves(a) && Payer(a) == Some(x) then a.amount else 0
  }

  function Receives(a: TokenAction, x: Address): nat {
    if Moves(a) && Payee(a) == Some(x) then a.amount else 0
  }

  // The token runs, payer and payee are real accounts, the payer has the amount, a minter mints
  // within 256 bits, and who acts for another has the allowance.
  predicate Permitted(l: Ledger, a: TokenAction)
    requires Moves(a)
  {
    && !l.paused && Payer(a) != Some(ZERO_ADDRESS) && Payee(a) != Some(ZERO_ADDRESS)
    && (Payer(a).Some? ==> a.amount <= l.Balance(Payer(a).value))
    && (a.Mint? ==> a.sender in l.minters && l.totalSupply + a.amount < TWO_256)
    && (ForAnother(a) ==> a.sender != ZERO_ADDRESS && a.amount <= l.Allowance(a.from, a.sender))
  }

  // The payer loses the amount, the payee gains it, whoever they are, the supply grows by what
  // has no payer and shrinks by what has no payee, and the allowance is used up by it.
  ghost predicate DoubleEntry(l: Ledger, a: TokenAction, m: Ledger)
    requires Moves(a)
  {
    && (forall x: Address :: m.Balance(x) == l.Balance(x) - Pays(a, x) + Receives(a, x))
    && m.totalSupply == l.totalSupply + (if Payer(a) == None then a.amount else 0)
                        - (if Payee(a) == None then a.amount else 0)
    && (forall o: Address, s: Address ::
          m.Allowance(o, s) == l.Allowance(o, s) -
                               if ForAnother(a) && o == a.from && s == a.sender then a.amount else 0)
    && m == l.(balances := m.balances, totalSupply := m.totalSupply, allowances := m.allowances)
  }

  // Tokens move if and only if the call is permitted, and then as double entry says.
  lemma TokensMove(l: Ledger, a: TokenAction)
    requires Balanced(l) && Moves(a)
    ensures TokenStep(l, a).Ok? <==> Permitted(l, a)
    ensures TokenStep(l, a).Ok? ==> DoubleEntry(l, a, TokenStep(l, a).value)
  {
    hide Balanced, TokenStep, Permitted, DoubleEntry;
    match a
    case Transfer(_, _, _) => TransferMoves(l, a);
    case TransferFrom(_, _, _, _) => TransferFromMoves(l, a);
    case Mint(_, _, _) => MintMoves(l, a);
    case Burn(_, _) => BurnMoves(l, a);
    case _ => BurnFromMoves(l, a);
  }

  lemma TransferMoves(l: Ledger, a: TokenAction)
    requires Balanced(l) && a.Transfer?
    ensures TokenStep(l, a).Ok? <==> Permitted(l, a)
    ensures TokenStep(l, a).Ok? ==> DoubleEntry(l, a, TokenStep(l, a).value)
  {
    MoveBalanced(l, a.sender, a.to, a.amount);
    hide Balanced;
  }

  lemma TransferFromMoves(l: Ledger, a: TokenAction)
    requires Balanced(l) && a.TransferFrom?
    ensures TokenStep(l, a).Ok? <==> Permitted(l, a)
    ensures TokenStep(l, a).Ok? ==> DoubleEntry(l, a, TokenStep(l, a).value)
  {
    MoveBalanced(l, a.from, a.to, a.amount);
    hide Balanced;
  }

  lemma MintMoves(l: Ledger, a: TokenAction)
    requires Balanced(l) && a.Mint?
    ensures TokenStep(l, a).Ok? <==> Permitted(l, a)
    ensures TokenStep(l, a).Ok? ==> DoubleEntry(l, a, TokenStep(l, a).value)
  {
    CreateBalanced(l, a.to, a.amount);
    hide Balanced;
  }

  lemma BurnMoves(l: Ledger, a: TokenAction)
    requires Balanced(l) && a.Burn?
    ensures TokenStep(l, a).Ok? <==> Permitted(l, a)
    ensures TokenStep(l, a).Ok? ==> DoubleEntry(l, a, TokenStep(l, a).value)
  {
    DestroyBalanced(l, a.sender, a.amount);
    hide Balanced;
  }

  lemma BurnFromMoves(l: Ledger, a: TokenAction)
    requires Balanced(l) && a.BurnFrom?
    ensures TokenStep(l, a).Ok? <==> Permitted(l, a)
    ensures TokenStep(l, a).Ok? ==> DoubleEntry(l, a, TokenStep(l, a).value)
  {
    if UseAllowance(l, a.from, a.sender, a.amount).Ok? {
      DestroyBalanced(UseAllowance(l, a.from, a.sender, a.amount).value, a.from, a.amount);
    }
    hide Balanced;
  }

  // An allowance is set, raised or lowered between real accounts, raised within 256 bits and
  // lowered by no more than it is. Nothing else changes, also while the token is paused.
  lemma AllowanceChanges(l: Ledger, a: TokenAction)
    requires a.Approve? || a.IncreaseAllowance? || a.DecreaseAllowance?
    ensures TokenStep(l, a).Ok? <==>
              && a.sender != ZERO_ADDRESS && a.spender != ZERO_ADDRESS
              && (a.IncreaseAllowance? ==> l.Allowance(a.sender, a.spender) + a.amount < TWO_256)
              && (a.DecreaseAllowance? ==> a.amount <= l.Allowance(a.sender, a.spender))
    ensures TokenStep(l, a).Ok? ==>
              var m := TokenStep(l, a).value;
              && m == l.(allowances := m.allowances)
              && (forall o: Address, s: Address :: m.Allowance(o, s) ==
                    if (o, s) != (a.sender, a.spender) then l.Allowance(o, s)
                    else if a.Approve? then a.amount
                    else if a.IncreaseAllowance? then l.Allowance(o, s) + a.amount
                    else l.Allowance(o, s) - a.amount)
  {}

  // A pauser, and nobody else, switches the pause over, and nothing else. Roles are granted and
  // revoked one account at a time.
  lemma SwitchesChange(l: Ledger, a: TokenAction)
    requires a.Pause? || a.Unpause? || a.SetMinter? || a.SetPauser?
    ensures TokenStep(l, a).Ok? <==>
              (a.Pause? || a.Unpause? ==> a.sender in l.pausers && l.paused == a.Unpause?)
    ensures TokenStep(l, a).Ok? ==>
              var m := TokenStep(l, a).value;
              && m == l.(paused := m.paused, minters := m.minters, pausers := m.pausers)
              && m.paused == (if a.Pause? || a.Unpause? then a.Pause? else l.paused)
              && (forall x :: x in m.minters <==> if a.SetMinter? && x == a.account then a.allowed else x in l.minters)
              && (forall x :: x in m.pausers <==> if a.SetPauser? && x == a.account then a.allowed else x in l.pausers)
  {}

  // ----- whole runs -----

  function TotalPaid(l: Ledger, actions: seq<TokenAction>, x: Address): nat
    decreases |actions|
  {
    if actions == [] then 0
    else
      TotalPaid(AfterToken(l, actions[0]), actions[1..], x) +
      if TokenStep(l, actions[0]).Ok? then Pays(actions[0], x) else 0
  }

  function TotalReceived(l: Ledger, actions: seq<TokenAction>, x: Address): nat
    decreases |actions|
  {
    if actions == [] then 0
    else
      TotalReceived(AfterToken(l, actions[0]), actions[1..], x) +
      if TokenStep(l, actions[0]).Ok? then Receives(actions[0], x) else 0
  }

  // Over every run of the token, an account owns what it owned and received less what it paid.
  lemma {:induction false} BalanceAccounting(l: Ledger, actions: seq<TokenAction>, x: Address)
    requires Balanced(l)
    ensures RunToken(l, actions).Balance(x) == l.Balance(x) + TotalReceived(l, actions, x) - TotalPaid(l, actions, x)
    decreases |actions|
  {
    hide Balanced, TokenStep;
    if actions != [] {
      TokenStepBalanced(l, actions[0]);
      StepBalance(l, actions[0], x);
      BalanceAccounting(AfterToken(l, actions[0]), actions[1..], x);
    }
  }

  lemma StepBalance(l: Ledger, a: TokenAction, x: Address)
    requires Balanced(l)
    ensures AfterToken(l, a).Balance(x) ==
            l.Balance(x) + if TokenStep(l, a).Ok? then Receives(a, x) - Pays(a, x) else 0
  {
    hide Balanced, TokenStep;
    if Moves(a) {
      TokensMove(l, a);
    } else if a.Approve? || a.IncreaseAllowance? || a.DecreaseAllowance? {
      AllowanceChanges(l, a);
    } else {
      SwitchesChange(l, a);
    }
  }
}
