// The ERC20 handler contract: fees, deposits that lock or burn, and executed proposals that
// release or mint, over the token contracts it is given.
module Erc20Handler {
  import opened Words
  import opened Arithmetic
  import opened Bytes
  import opened Payload
  import opened Ledger
  import opened Tokens

  // The ledgers of all deployed tokens by contract address.
  type World = map<Address, Ledger>

  datatype Fees = Fees(basicFee: uint256, minAmount: uint256, maxAmount: uint256, feeMaxValue: nat, feePercent: uint64)

  datatype Registry = Registry(
    tokenOf: map<ResourceID, Address>,
    resourceOf: map<Address, ResourceID>,
    whitelist: set<Address>,
    burnList: set<Address>)
  {
    function TokenOf(r: ResourceID): Address {
      if r in tokenOf then tokenOf[r] else ZERO_ADDRESS
    }

    function MapTo(r: ResourceID, token: Address): Registry {
      Registry(tokenOf[r := token], resourceOf[token := r], whitelist + {token}, burnList)
    }

    function Burning(token: Address): Registry {
      this.(burnList := burnList + {token})
    }
  }

  // The addresses fixed when the handler is created.
  datatype Deployment = Deployment(self: Address, bridge: Address, treasury: Address)

  datatype HandlerError =
    | NotBridge | DataTooShort | NotWhitelisted | BelowMinimum | AboveMaximum | FeeOverflow | FeeDivisionByZero
    | FeeAboveAmount | NotAContract | TokenFailed(error: TokenError)

  // max(basicFee, amount * feePercent / feeMaxValue) in checked 256-bit arithmetic.
  function CalculateFee(f: Fees, amount: uint256): Result<uint256, HandlerError> {
    if amount < f.minAmount then Err(BelowMinimum)
    else if amount > f.maxAmount then Err(AboveMaximum)
    else if amount * f.feePercent >= TWO_256 then Err(FeeOverflow)
    else if f.feeMaxValue == 0 then Err(FeeDivisionByZero)
    else
      var share := Quotient(amount * f.feePercent, f.feeMaxValue);
      QuotientBounds(amount * f.feePercent, f.feeMaxValue);
      Ok(if share < f.basicFee then f.basicFee else share)
  }

  // At least the basic fee, and less than one unit short of the relative fee.
  predicate Adequate(f: Fees, amount: nat, fee: nat) {
    fee >= f.basicFee && (fee + 1) * f.feeMaxValue > amount * f.feePercent
  }

  // A fee exists exactly for amounts within the limits whose arithmetic is defined, and it is
  // the least adequate number.
  lemma FeeMeaning(f: Fees, amount: uint256)
    ensures CalculateFee(f, amount).Ok? <==>
              f.minAmount <= amount <= f.maxAmount && amount * f.feePercent < TWO_256 && f.feeMaxValue > 0
    ensures CalculateFee(f, amount).Ok? ==>
              forall fee: nat :: Adequate(f, amount, fee) <==> fee >= CalculateFee(f, amount).value
  {
    if CalculateFee(f, amount).Ok? {
      var share := Quotient(amount * f.feePercent, f.feeMaxValue);
      QuotientBounds(amount * f.feePercent, f.feeMaxValue);
      forall fee: nat ensures Adequate(f, amount, fee) <==> fee >= f.basicFee && fee >= share {
        Scaled(share + 1, fee + 1, f.feeMaxValue);
        Scaled(fee + 1, share, f.feeMaxValue);
      }
    }
  }

  // A larger deposit never pays a smaller fee.
  lemma FeeMonotone(f: Fees, a: uint256, b: uint256)
    requires a <= b && CalculateFee(f, a).Ok? && CalculateFee(f, b).Ok?
    ensures CalculateFee(f, a).value <= CalculateFee(f, b).value
  {
    var x, y := a * f.feePercent, b * f.feePercent;
    Scaled(a, b, f.feePercent);
    QuotientBounds(x, f.feeMaxValue);
    QuotientBounds(y, f.feeMaxValue);
    Cancel(Quotient(x, f.feeMaxValue), Quotient(y, f.feeMaxValue) + 1, f.feeMaxValue);
  }

  // What is left of an amount after the fee.
  function NetOf(f: Fees, amount: uint256): (net: Result<uint256, HandlerError>)
    ensures net.Ok? ==> net.value <= amount
  {
    match CalculateFee(f, amount)
    case Err(e) => Err(e)
    case Ok(fee) => if amount < fee then Err(FeeAboveAmount) else Ok(amount - fee)
  }

  // The token calls of a deposit: the fee goes to the treasury, the rest is burned or locked.
  function TakeIn(l: Ledger, at: Deployment, burns: bool, depositor: Address, fee: uint256,
                  net: uint256): Result<Ledger, TokenError> {
    AndThen(MoveFrom(l, at.self, depositor, at.treasury, fee), m =>
      if burns then DestroyFrom(m, at.self, depositor, net)
      else MoveFrom(m, at.self, depositor, at.self, net))
  }

  // The token call of an executed proposal: mint, or release from what is locked.
  function PayOut(l: Ledger, at: Deployment, burns: bool, recipient: Address,
                  net: uint256): Result<Ledger, TokenError> {
    if burns then TokenStep(l, Mint(at.self, recipient, net)) else Move(l, at.self, recipient, net)
  }

  function Replace(w: World, token: Address, r: Result<Ledger, TokenError>): Result<World, HandlerError> {
    match r
    case Ok(l) => Ok(w[token := l])
    case Err(e) => Err(TokenFailed(e))
  }

  function DepositStep(w: World, g: Registry, at: Deployment, f: Fees, caller: Address, resourceID: ResourceID,
                       depositor: Address, data: Bytes): Result<World, HandlerError> {
    var token := g.TokenOf(resourceID);
    if caller != at.bridge then Err(NotBridge)
    else if |data| < 32 then Err(DataTooShort)
    else if token !in g.whitelist then Err(NotWhitelisted)
    else
      WordFits(data[..32]);
      var amount := FromBytes(data[..32]);
      match NetOf(f, amount)
      case Err(e) => Err(e)
      case Ok(net) =>
        if token !in w then Err(NotAContract)
        else Replace(w, token, TakeIn(w[token], at, token in g.burnList, depositor, amount - net, net))
  }

  function ExecuteStep(w: World, g: Registry, at: Deployment, f: Fees, caller: Address, resourceID: ResourceID,
                       data: Bytes): Result<World, HandlerError> {
    var token := g.TokenOf(resourceID);
    if caller != at.bridge then Err(NotBridge)
    else if ProposalFields(data) == None then Err(DataTooShort)
    else if token !in g.whitelist then Err(NotWhitelisted)
    else
      WordFits(data[..32]);
      var (amount, recipient) := ProposalFields(data).value;
      match NetOf(f, amount)
      case Err(e) => Err(e)
      case Ok(net) =>
        if token !in w then Err(NotAContract)
        else Replace(w, token, PayOut(w[token], at, token in g.burnList, recipient, net))
  }

  // ----- conservation -----

  lemma MoveEffect(l: Ledger, from: Address, to: Address, amount: uint256)
    requires Move(l, from, to, amount).Ok?
    ensures var m := Move(l, from, to, amount).value;
            && (forall x: Address :: m.Balance(x) == l.Balance(x) - Share(x, from, amount) + Share(x, to, amount))
            && m.totalSupply == l.totalSupply && m.allowances == l.allowances && amount <= l.Balance(from)
            && m.minters == l.minters
  {}

  lemma MoveFromEffect(l: Ledger, spender: Address, from: Address, to: Address, amount: uint256)
    requires MoveFrom(l, spender, from, to, amount).Ok?
    ensures var m := MoveFrom(l, spender, from, to, amount).value;
            && (forall x: Address :: m.Balance(x) == l.Balance(x) - Share(x, from, amount) + Share(x, to, amount))
            && m.totalSupply == l.totalSupply
            && m.allowances == l.allowances[(from, spender) := l.Allowance(from, spender) - amount]
            && m.minters == l.minters
  {
    MoveEffect(l, from, to, amount);
  }

  lemma DestroyFromEffect(l: Ledger, spender: Address, from: Address, amount: uint256)
    requires DestroyFrom(l, spender, from, amount).Ok?
    ensures var m := DestroyFrom(l, spender, from, amount).value;
            && (forall x: Address :: m.Balance(x) == l.Balance(x) - Share(x, from, amount))
            && m.totalSupply == l.totalSupply - amount
            && m.allowances == l.allowances[(from, spender) := l.Allowance(from, spender) - amount]
            && m.minters == l.minters
  {}

  // Deposit conservation, whoever depositor, treasury and handler are: the depositor pays the
  // amount out of its balance and out of its allowance for the handler, the treasury gets the
  // fee, and the rest is locked (supply unchanged) or burned (supply lowered by it).
  lemma TakeInConserves(l: Ledger, at: Deployment, burns: bool, depositor: Address, fee: uint256, net: uint256)
    requires TakeIn(l, at, burns, depositor, fee, net).Ok?
    ensures var m := TakeIn(l, at, burns, depositor, fee, net).value;
            && (forall x: Address :: m.Balance(x) ==
                  l.Balance(x) - Share(x, depositor, fee + net) + Share(x, at.treasury, fee)
                  + (if burns then 0 else Share(x, at.self, net)))
            && m.totalSupply == l.totalSupply - (if burns then net else 0)
            && m.Allowance(depositor, at.self) == l.Allowance(depositor, at.self) - (fee + net)
            && (forall o: Address, s: Address | (o, s) != (depositor, at.self) ::
                  m.Allowance(o, s) == l.Allowance(o, s))
            && m.minters == l.minters
  {
    hide Move, MoveFrom, DestroyFrom;
    var mid := MoveFrom(l, at.self, depositor, at.treasury, fee).value;
    MoveFromEffect(l, at.self, depositor, at.treasury, fee);
    if burns {
      DestroyFromEffect(mid, at.self, depositor, net);
    } else {
      MoveFromEffect(mid, at.self, depositor, at.self, net);
    }
  }

  lemma PayOutConserves(l: Ledger, at: Deployment, burns: bool, recipient: Address, net: uint256)
    requires PayOut(l, at, burns, recipient, net).Ok?
    ensures var m := PayOut(l, at, burns, recipient, net).value;
            && (forall x: Address :: m.Balance(x) ==
                  l.Balance(x) + Share(x, recipient, net) - (if burns then 0 else Share(x, at.self, net)))
            && m.totalSupply == l.totalSupply + (if burns then net else 0)
            && m.allowances == l.allowances && m.minters == l.minters
            && (!burns ==> net <= l.Balance(at.self))
  {
    if !burns {
      MoveEffect(l, at.self, recipient, net);
    }
  }

  // Exactly when the token calls of a deposit succeed, on a ledger in balance.
  lemma TakeInSucceeds(l: Ledger, at: Deployment, burns: bool, depositor: Address, fee: uint256, net: uint256)
    requires Balanced(l) && fee + net < TWO_256
    ensures TakeIn(l, at, burns, depositor, fee, net).Ok? <==>
              && !l.paused && ZERO_ADDRESS !in {depositor, at.treasury, at.self}
              && fee + net <= l.Allowance(depositor, at.self)
              && fee <= l.Balance(depositor) && fee + net <= l.Balance(depositor) + Share(depositor, at.treasury, fee)
    ensures TakeIn(l, at, burns, depositor, fee, net).Ok? ==>
              && Balanced(TakeIn(l, at, burns, depositor, fee, net).value)
              && TakeIn(l, at, burns, depositor, fee, net).value.paused == l.paused
  {
    MoveBalanced(l, depositor, at.treasury, fee);
    if MoveFrom(l, at.self, depositor, at.treasury, fee).Ok? {
      var m := MoveFrom(l, at.self, depositor, at.treasury, fee).value;
      MoveFromEffect(l, at.self, depositor, at.treasury, fee);
      assert Balanced(m);
      MoveBalanced(m, depositor, at.self, net);
      if burns && UseAllowance(m, depositor, at.self, net).Ok? {
        DestroyBalanced(UseAllowance(m, depositor, at.self, net).value, depositor, net);
      }
    }
  }

  // Exactly when the token call of an execution succeeds.
  lemma PayOutSucceeds(l: Ledger, at: Deployment, burns: bool, recipient: Address, net: uint256)
    requires Balanced(l)
    ensures PayOut(l, at, burns, recipient, net).Ok? <==>
              && !l.paused && recipient != ZERO_ADDRESS
              && if burns then at.self in l.minters && l.totalSupply + net < TWO_256
                 else at.self != ZERO_ADDRESS && net <= l.Balance(at.self)
  {
    CreateBalanced(l, recipient, net);
    MoveBalanced(l, at.self, recipient, net);
  }

  // A successful deposit of any data, on all ledgers: only the resource's token changes, the
  // amount read from the data leaves the depositor, and the fee is the calculated one.
  lemma DepositConserves(w: World, g: Registry, at: Deployment, f: Fees, caller: Address, r: ResourceID,
                         depositor: Address, data: Bytes)
    requires DepositStep(w, g, at, f, caller, r, depositor, data).Ok?
    ensures |data| >= 32
    ensures var token := g.TokenOf(r);
            var amount := FromBytes(data[..32]);
            && caller == at.bridge && token in g.whitelist && token in w
            && amount < TWO_256 && CalculateFee(f, amount).Ok? && CalculateFee(f, amount).value <= amount
            && var fee, burns := CalculateFee(f, amount).value, token in g.burnList;
            var after := DepositStep(w, g, at, f, caller, r, depositor, data).value;
            && after.Keys == w.Keys && (forall t | t in w && t != token :: after[t] == w[t])
            && (forall x: Address :: after[token].Balance(x) ==
                  w[token].Balance(x) - Share(x, depositor, amount) + Share(x, at.treasury, fee)
                  + (if burns then 0 else Share(x, at.self, amount - fee)))
            && after[token].totalSupply == w[token].totalSupply - (if burns then amount - fee else 0)
            && after[token].Allowance(depositor, at.self) == w[token].Allowance(depositor, at.self) - amount
            && (forall o: Address, s: Address | (o, s) != (depositor, at.self) ::
                  after[token].Allowance(o, s) == w[token].Allowance(o, s))
            && after[token].minters == w[token].minters
  {
    hide TakeIn, CalculateFee;
    WordFits(data[..32]);
    var token, amount := g.TokenOf(r), FromBytes(data[..32]);
    var fee := CalculateFee(f, amount).value;
    TakeInConserves(w[token], at, token in g.burnList, depositor, fee, amount - fee);
  }

  // A successful execution: the recipient named in the data receives the amount less the fee,
  // minted or out of what the handler holds.
  lemma ExecutionConserves(w: World, g: Registry, at: Deployment, f: Fees, caller: Address, r: ResourceID, data: Bytes)
    requires ExecuteStep(w, g, at, f, caller, r, data).Ok?
    ensures var token := g.TokenOf(r);
            && ProposalFields(data) != None && token in w
            && var (amount, recipient) := ProposalFields(data).value;
            amount < TWO_256 && CalculateFee(f, amount).Ok? && CalculateFee(f, amount).value <= amount
            && var net, burns := amount - CalculateFee(f, amount).value, token in g.burnList;
            var after := ExecuteStep(w, g, at, f, caller, r, data).value;
            && after.Keys == w.Keys && (forall t | t in w && t != token :: after[t] == w[t])
            && (forall x: Address :: after[token].Balance(x) ==
                  w[token].Balance(x) + Share(x, recipient, net) - (if burns then 0 else Share(x, at.self, net)))
            && after[token].totalSupply == w[token].totalSupply + (if burns then net else 0)
            && after[token].allowances == w[token].allowances && after[token].minters == w[token].minters
  {
    hide PayOut, CalculateFee;
    WordFits(data[..32]);
    var token := g.TokenOf(r);
    var (amount, recipient) := ProposalFields(data).value;
    PayOutConserves(w[token], at, token in g.burnList, recipient, amount - CalculateFee(f, amount).value);
  }

  // ----- the contract -----

  class Handler {
    const at: Deployment
    const tokens: map<Address, Token>
    var tokenOf: map<ResourceID, Address>
    var resourceOf: map<Address, ResourceID>
    var whitelist: set<Address>
    var burnList: set<Address>

    ghost predicate Valid() {
      forall a, b | a in tokens && b in tokens && tokens[a] == tokens[b] :: a == b
    }

    ghost function Now(): Registry
      reads this
    {
      Registry(tokenOf, resourceOf, whitelist, burnList)
    }

    ghost function Ledgers(): World
      reads this, tokens.Values
    {
      map a | a in tokens :: tokens[a].Now()
    }

    // The reply to a call, and the ledgers after it; a revert leaves them as they were.
    twostate predicate Answers(outcome: Result<World, HandlerError>, new reply: Option<HandlerError>)
      reads this, tokens.Values
    {
      match outcome
      case Ok(after) => reply == None && Ledgers() == after
      case Err(e) => reply == Some(e) && Ledgers() == old(Ledgers())
    }

    constructor (at: Deployment, tokens: map<Address, Token>)
      requires forall a, b | a in tokens && b in tokens && tokens[a] == tokens[b] :: a == b
      ensures Valid() && this.at == at && this.tokens == tokens && Now() == Registry(map[], map[], {}, {})
    {
      this.at, this.tokens := at, tokens;
      tokenOf, resourceOf, whitelist, burnList := map[], map[], {}, {};
    }

    method SetResource(caller: Address, resourceID: ResourceID, token: Address) returns (reply: Option<HandlerError>)
      modifies this
      ensures reply == if caller != at.bridge then Some(NotBridge) else None
      ensures Now() == if reply == None then old(Now()).MapTo(resourceID, token) else old(Now())
    {
      if caller != at.bridge {
        return Some(NotBridge);
      }
      tokenOf := tokenOf[resourceID := token];
      resourceOf := resourceOf[token := resourceID];
      whitelist := whitelist + {token};
      reply := None;
    }

    method SetBurnable(caller: Address, token: Address) returns (reply: Option<HandlerError>)
      modifies this
      ensures reply == if caller != at.bridge then Some(NotBridge)
                       else if token !in old(whitelist) then Some(NotWhitelisted) else None
      ensures Now() == if reply == None then old(Now()).Burning(token) else old(Now())
    {
      if caller != at.bridge {
        return Some(NotBridge);
      }
      if token !in whitelist {
        return Some(NotWhitelisted);
      }
      burnList := burnList + {token};
      reply := None;
    }

    method Deposit(f: Fees, caller: Address, resourceID: ResourceID, depositor: Address, data: Bytes)
      returns (reply: Option<HandlerError>)
      requires Valid()
      modifies tokens.Values
      ensures Answers(DepositStep(old(Ledgers()), Now(), at, f, caller, resourceID, depositor, data), reply)
    {
      hide TakeIn, NetOf, FromBytes;
      if caller != at.bridge {
        return Some(NotBridge);
      }
      if |data| < 32 {
        return Some(DataTooShort);
      }
      var amount := FromBytes(data[..32]);
      WordFits(data[..32]);
      var address := if resourceID in tokenOf then tokenOf[resourceID] else ZERO_ADDRESS;
      if address !in whitelist {
        return Some(NotWhitelisted);
      }
      var net := NetOf(f, amount);
      if net.Err? {
        return Some(net.error);
      }
      if address !in tokens {
        return Some(NotAContract);
      }
      var failed := TakeTokensIn(tokens[address], address in burnList, depositor, amount - net.value, net.value);
      OnlyTokenChanged(address);
      reply := if failed == None then None else Some(TokenFailed(failed.value));
    }

    // The fee moves first; if burning or locking the rest fails, the fee moves back.
    method TakeTokensIn(token: Token, burns: bool, depositor: Address, fee: uint256, net: uint256)
      returns (failed: Option<TokenError>)
      modifies token
      ensures match TakeIn(old(token.Now()), at, burns, depositor, fee, net)
              case Ok(l) => failed == None && token.Now() == l
              case Err(e) => failed == Some(e) && token.Now() == old(token.Now())
    {
      var before := token.Snapshot();
      failed := token.SendFrom(at.self, depositor, at.treasury, fee);
      if failed == None {
        if burns {
          failed := token.BurnBalanceFrom(at.self, depositor, net);
        } else {
          failed := token.SendFrom(at.self, depositor, at.self, net);
        }
        if failed != None {
          token.Restore(before);
        }
      }
    }

    method ExecuteProposal(f: Fees, caller: Address, resourceID: ResourceID,
                           data: Bytes) returns (reply: Option<HandlerError>)
      requires Valid()
      modifies tokens.Values
      ensures Answers(ExecuteStep(old(Ledgers()), Now(), at, f, caller, resourceID, data), reply)
    {
      hide NetOf, FromBytes, RecipientAddress;
      if caller != at.bridge {
        return Some(NotBridge);
      }
      var fields := ProposalFields(data);
      if fields == None {
        return Some(DataTooShort);
      }
      var (amount, recipient) := fields.value;
      WordFits(data[..32]);
      var address := if resourceID in tokenOf then tokenOf[resourceID] else ZERO_ADDRESS;
      if address !in whitelist {
        return Some(NotWhitelisted);
      }
      var net := NetOf(f, amount);
      if net.Err? {
        return Some(net.error);
      }
      if address !in tokens {
        return Some(NotAContract);
      }
      var token := tokens[address];
      var failed;
      if address in burnList {
        failed := token.MintTo(at.self, recipient, net.value);
      } else {
        failed := token.Send(at.self, recipient, net.value);
      }
      OnlyTokenChanged(address);
      reply := if failed == None then None else Some(TokenFailed(failed.value));
    }

    // When one token's ledger changed, the others are where they were.
    twostate lemma OnlyTokenChanged(address: Address)
      requires Valid() && address in tokens
      requires forall t | t in tokens.Values && t != tokens[address] :: unchanged(t)
      ensures Ledgers() == old(Ledgers())[address := tokens[address].Now()]
    {
      forall a | a in tokens && a != address ensures tokens[a].Now() == old(tokens[a].Now()) {
        assert tokens[a] in tokens.Values;
      }
    }
  }
}
