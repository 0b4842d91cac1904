// The token contract: balances, allowances and supply updated in place, with reverts that
// put them back. Each method is tied to its transition in Ledger.
module Tokens {
  import opened Words
  import opened Ledger

  class Token {
    var balances: map<Address, nat>
    var allowances: map<(Address, Address), nat>
    var totalSupply: nat
    var paused: bool
    var minters: set<Address>
    var pausers: set<Address>

    ghost function Now(): Ledger
      reads this
    {
      Ledger(balances, allowances, totalSupply, paused, minters, pausers)
    }

    // The ledger and reply after a call that the token's rules answer with `outcome`.
    twostate predicate Answers(outcome: Result<Ledger, TokenError>, new reply: Option<TokenError>)
      reads this
    {
      match outcome
      case Ok(after) => reply == None && Now() == after
      case Err(e) => reply == Some(e) && Now() == old(Now())
    }

    constructor (deployer: Address)
      ensures Now() == NewLedger(deployer)
    {
      balances, allowances, totalSupply, paused := map[], map[], 0, false;
      minters, pausers := {deployer}, {deployer};
    }

    method Restore(l: Ledger)
      modifies this
      ensures Now() == l
    {
      balances, allowances, totalSupply := l.balances, l.allowances, l.totalSupply;
      paused, minters, pausers := l.paused, l.minters, l.pausers;
    }

    method Snapshot() returns (l: Ledger)
      ensures l == Now()
    {
      l := Ledger(balances, allowances, totalSupply, paused, minters, pausers);
    }

    // Any transaction sent to the token.
    method Transact(a: TokenAction) returns (reply: Option<TokenError>)
      modifies this
      ensures Answers(TokenStep(old(Now()), a), reply)
    {
      match a
      case Transfer(sender, to, amount) => reply := Send(sender, to, amount);
      case Approve(sender, spender, amount) => reply := PutAllowance(sender, spender, amount);
      case IncreaseAllowance(sender, spender, amount) =>
        var current := AllowanceOf(sender, spender);
        if current + amount >= TWO_256 {
          return Some(AdditionOverflow);
        }
        reply := PutAllowance(sender, spender, current + amount);
      case DecreaseAllowance(sender, spender, amount) => reply := TakeAllowance(sender, spender, amount);
      case TransferFrom(sender, from, to, amount) => reply := SendFrom(sender, from, to, amount);
      case Mint(sender, to, amount) => reply := MintTo(sender, to, amount);
      case Burn(sender, amount) => reply := BurnBalance(sender, amount);
      case BurnFrom(sender, from, amount) => reply := BurnBalanceFrom(sender, from, amount);
      case Pause(sender) =>
        if sender !in pausers {
          return Some(NotPauser);
        }
        if paused {
          return Some(TokenPaused);
        }
        paused, reply := true, None;
      case Unpause(sender) =>
        if sender !in pausers {
          return Some(NotPauser);
        }
        if !paused {
          return Some(TokenNotPaused);
        }
        paused, reply := false, None;
      case SetMinter(x, allowed) =>
        minters, reply := if allowed then minters + {x} else minters - {x}, None;
      case SetPauser(x, allowed) =>
        pausers, reply := if allowed then pausers + {x} else pausers - {x}, None;
    }

    method Send(from: Address, to: Address, amount: uint256) returns (reply: Option<TokenError>)
      modifies this
      ensures Answers(Move(old(Now()), from, to, amount), reply)
    {
      if from == ZERO_ADDRESS {
        return Some(FromZeroAddress);
      }
      if to == ZERO_ADDRESS {
        return Some(ToZeroAddress);
      }
      if paused {
        return Some(TokenPaused);
      }
      var before := balances;
      var available := if from in balances then balances[from] else 0;
      if amount > available {
        return Some(BalanceTooLow);
      }
      balances := balances[from := available - amount];
      var received := (if to in balances then balances[to] else 0) + amount;
      if received >= TWO_256 {
        balances := before;
        return Some(AdditionOverflow);
      }
      balances := balances[to := received];
      reply := None;
    }

    method AllowanceOf(owner: Address, spender: Address) returns (amount: nat)
      ensures amount == Now().Allowance(owner, spender)
    {
      amount := if (owner, spender) in allowances then allowances[(owner, spender)] else 0;
    }

    method PutAllowance(owner: Address, spender: Address, amount: nat) returns (reply: Option<TokenError>)
      modifies this
      ensures Answers(SetAllowance(old(Now()), owner, spender, amount), reply)
    {
      if owner == ZERO_ADDRESS {
        return Some(FromZeroAddress);
      }
      if spender == ZERO_ADDRESS {
        return Some(SpenderZeroAddress);
      }
      allowances := allowances[(owner, spender) := amount];
      reply := None;
    }

    method TakeAllowance(owner: Address, spender: Address, amount: uint256) returns (reply: Option<TokenError>)
      modifies this
      ensures Answers(UseAllowance(old(Now()), owner, spender, amount), reply)
    {
      var current := AllowanceOf(owner, spender);
      if amount > current {
        return Some(AllowanceTooLow);
      }
      reply := PutAllowance(owner, spender, current - amount);
    }

    // The tokens move first; the allowance is checked after, and a shortfall undoes the move.
    method SendFrom(spender: Address, from: Address, to: Address, amount: uint256) returns (reply: Option<TokenError>)
      modifies this
      ensures Answers(MoveFrom(old(Now()), spender, from, to, amount), reply)
    {
      var before := Snapshot();
      reply := Send(from, to, amount);
      if reply == None {
        reply := TakeAllowance(from, spender, amount);
        if reply != None {
          Restore(before);
        }
      }
    }

    method MintTo(sender: Address, to: Address, amount: uint256) returns (reply: Option<TokenError>)
      modifies this
      ensures Answers(TokenStep(old(Now()), Mint(sender, to, amount)), reply)
    {
      if sender !in minters {
        return Some(NotMinter);
      }
      if to == ZERO_ADDRESS {
        return Some(ToZeroAddress);
      }
      if paused {
        return Some(TokenPaused);
      }
      if totalSupply + amount >= TWO_256 {
        return Some(SupplyOverflow);
      }
      totalSupply := totalSupply + amount;
      var received := (if to in balances then balances[to] else 0) + amount;
      if received >= TWO_256 {
        totalSupply := totalSupply - amount;
        return Some(AdditionOverflow);
      }
      balances := balances[to := received];
      reply := None;
    }

    method BurnBalance(from: Address, amount: uint256) returns (reply: Option<TokenError>)
      modifies this
      ensures Answers(Destroy(old(Now()), from, amount), reply)
    {
      if from == ZERO_ADDRESS {
        return Some(FromZeroAddress);
      }
      if paused {
        return Some(TokenPaused);
      }
      var before := balances;
      var available := if from in balances then balances[from] else 0;
      if amount > available {
        return Some(BalanceTooLow);
      }
      balances := balances[from := available - amount];
      if amount > totalSupply {
        balances := before;
        return Some(SupplyUnderflow);
      }
      totalSupply := totalSupply - amount;
      reply := None;
    }

    method BurnBalanceFrom(spender: Address, from: Address, amount: uint256) returns (reply: Option<TokenError>)
      modifies this
      ensures Answers(DestroyFrom(old(Now()), spender, from, amount), reply)
    {
      var before := Snapshot();
      reply := TakeAllowance(from, spender, amount);
      if reply == None {
        reply := BurnBalance(from, amount);
        if reply != None {
          Restore(before);
        }
      }
    }
  }
}
