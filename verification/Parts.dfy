// What a turn on the two chains amounts to, exactly, and that the turns give every run of the
// bridges, tokens and registries they are made of.
module Parts {
  import opened Words
  import opened Bytes
  import opened Ledger
  import opened Protocol
  import opened History
  import opened Operations
  import opened Voting
  import opened Outcomes
  import opened HandlerLaws
  import opened Chains
  import opened H = Erc20Handler

  // ----- deposits and executions -----

  // A user's deposit takes place if and only if the bridge runs, the resource is mapped, a nonce
  // is left and the handler can take the tokens. Then both happen: the tokens move, and the next
  // nonce is announced. Otherwise nothing does.
  lemma DepositTurnTakesPlace(u: Setup, y: System, t: Turn)
    requires t.UserDeposit?
    ensures var c, z := y.On(t.side), Turned(u, y, t);
            var taken := HandlerTakes(u, t.side, c, t.sender, t.destination, t.resource, t.data);
            if !c.bridge.paused && c.bridge.HandlerOf(t.resource) != ZERO_ADDRESS
               && c.bridge.DepositCount(t.destination) + 1 < TWO_64 && taken.Ok?
            then
              && z == y.With(t.side, c.(bridge := z.On(t.side).bridge, tokens := taken.value))
              && z.On(t.side).bridge.DepositCount(t.destination) == c.bridge.DepositCount(t.destination) + 1
              && z.On(t.side).bridge.journal
                 == Then(c.bridge.journal, Deposited(t.destination, c.bridge.DepositCount(t.destination) + 1,
                                                     t.resource,
                                                     t.sender, t.data))
            else z == y
  {
    hide HandlerTakes, Step, After;
    Operations.DepositAccepted(u.h, y.On(t.side).bridge, DepositAction(u, y.On(t.side), t));
    AfterOk(u.h, y.On(t.side).bridge, DepositAction(u, y.On(t.side), t));
  }

  lemma AfterOk(h: Digest, s: State, a: Action)
    ensures Step(h, s, a).Ok? ==> After(h, s, a) == Step(h, s, a).value
  {}

  // A passed proposal is executed by a call or vote for it if and only if it comes from a relayer
  // while the bridge runs, for a mapped resource, and the handler can pay. Then the tokens move.
  lemma PassedTurnExecutes(u: Setup, y: System, t: Turn)
    requires Relays(t) && Reachable(u.h, y.On(t.side).bridge)
    requires y.On(t.side).bridge.Record(CallIn(u, y, t).key).status.Passed?
    ensures var c := y.On(t.side);
            var paid := HandlerPays(u, t.side, c, t.action.destinationDomainID, t.action.resourceID, t.action.data);
            && (Executes(u, y, t) <==>
                  && c.bridge.relayers.Contains(t.action.sender) && !c.bridge.paused
                  && c.bridge.HandlerOf(t.action.resourceID) != ZERO_ADDRESS && paid.Ok?)
            && (Executes(u, y, t) ==> Turned(u, y, t).On(t.side).tokens == paid.value)
            && (!Executes(u, y, t) ==> Turned(u, y, t).On(t.side).tokens == c.tokens)
  {
    hide HandlerPays, Step, After, Reachable;
    var c := y.On(t.side);
    var a := RelayAction(u, c, t);
    if a.Vote? {
      VoteOnPassed(u.h, c.bridge, a);
    } else {
      Operations.ExecutionAccepted(u.h, c.bridge, a);
      if Step(u.h, c.bridge, a).Ok? {
        ExecutionEffect(u.h, c.bridge, a);
      }
    }
  }

  // ----- runs of the parts -----

  function TokenTurns(side: Side, token: Address, calls: seq<TokenAction>): seq<Turn>
    decreases |calls|
  {
    if calls == [] then [] else [TokenCall(side, token, calls[0])] + TokenTurns(side, token, calls[1..])
  }

  function BridgeTurns(side: Side, actions: seq<Action>): seq<Turn>
    decreases |actions|
  {
    if actions == [] then [] else [BridgeCall(side, actions[0])] + BridgeTurns(side, actions[1..])
  }

  function SettingTurn(side: Side, handler: Address, s: Setting): Turn {
    match s
    case MapToken(r, token) => MapResourceTo(side, r, handler, token)
    case MarkBurnable(token) => MakeBurnable(side, handler, token)
  }

  function SettingTurns(side: Side, handler: Address, settings: seq<Setting>): seq<Turn>
    decreases |settings|
  {
    if settings == [] then []
    else
      SettingTurns(side, handler, settings[..|settings| - 1]) + [SettingTurn(side, handler, settings[|settings| - 1])]
  }

  lemma {:induction false} TokenRunsOccur(u: Setup, y: System, side: Side, token: Address, calls: seq<TokenAction>)
    requires token in y.On(side).tokens
    ensures var c := y.On(side);
            Play(u, y, TokenTurns(side, token, calls))
            == y.With(side, c.(tokens := c.tokens[token := RunToken(c.tokens[token], calls)]))
    decreases |calls|
  {
    hide TokenStep, AfterToken;
    var c := y.On(side);
    if calls == [] {
      assert c.tokens[token := c.tokens[token]] == c.tokens;
    } else {
      var turns := TokenTurns(side, token, calls);
      assert turns[0] == TokenCall(side, token, calls[0]) && turns[1..] == TokenTurns(side, token, calls[1..]);
      var z := Turned(u, y, turns[0]);
      var l := AfterToken(c.tokens[token], calls[0]);
      assert z == y.With(side, c.(tokens := c.tokens[token := l]));
      TokenRunsOccur(u, z, side, token, calls[1..]);
      assert c.tokens[token := l][token := RunToken(l, calls[1..])] == c.tokens[token := RunToken(l, calls[1..])];
    }
  }

  lemma {:induction false} BridgeRunsOccur(u: Setup, y: System, side: Side, actions: seq<Action>)
    ensures var c := y.On(side);
            Play(u, y, BridgeTurns(side, actions)) == y.With(side, c.(bridge := RunAll(u.h, c.bridge, actions)))
    decreases |actions|
  {
    hide After;
    if actions != [] {
      var turns := BridgeTurns(side, actions);
      assert turns[0] == BridgeCall(side, actions[0]) && turns[1..] == BridgeTurns(side, actions[1..]);
      BridgeRunsOccur(u, Turned(u, y, turns[0]), side, actions[1..]);
    } else {
      EmptyRun(u.h, y.On(side).bridge);
    }
  }

  // The settings of a new handler: its registry is what they configure, and no token moves.
  lemma {:induction false} RegistryRunsOccur(u: Setup, y: System, side: Side, handler: Address, settings: seq<Setting>)
    requires handler != ZERO_ADDRESS && y.On(side).RegistryAt(handler) == Registry(map[], map[], {}, {})
    ensures var z := Play(u, y, SettingTurns(side, handler, settings));
            && z.On(side).RegistryAt(handler) == Configured(settings)
            && (forall other | other != handler :: z.On(side).RegistryAt(other) == y.On(side).RegistryAt(other))
            && z.On(side).tokens == y.On(side).tokens && z.On(Other(side)) == y.On(Other(side))
    decreases |settings|
  {
    hide After, Turned;
    if settings != [] {
      var n := |settings| - 1;
      var before, last := SettingTurns(side, handler, settings[..n]), SettingTurn(side, handler, settings[n]);
      RegistryRunsOccur(u, y, side, handler, settings[..n]);
      PlayThen(u, y, before, last);
      SettingTurnSets(u, Play(u, y, before), side, handler, settings[n]);
    }
  }

  lemma SettingTurnSets(u: Setup, y: System, side: Side, handler: Address, s: Setting)
    requires handler != ZERO_ADDRESS
    ensures var z := Turned(u, y, SettingTurn(side, handler, s));
            && z.On(side).RegistryAt(handler) == Applied(y.On(side).RegistryAt(handler), s)
            && (forall other | other != handler :: z.On(side).RegistryAt(other) == y.On(side).RegistryAt(other))
            && z.On(side).tokens == y.On(side).tokens && z.On(Other(side)) == y.On(Other(side))
  {
    hide After;
  }

  lemma {:induction false} PlayThen(u: Setup, y: System, turns: seq<Turn>, t: Turn)
    ensures Play(u, y, turns + [t]) == Turned(u, Play(u, y, turns), t)
    decreases |turns|
  {
    hide Turned;
    if turns == [] {
      assert [] + [t] == [t] && [t][1..] == [];
      assert Play(u, Turned(u, y, t), []) == Turned(u, y, t);
    } else {
      assert (turns + [t])[0] == turns[0] && (turns + [t])[1..] == turns[1..] + [t];
      PlayThen(u, Turned(u, y, turns[0]), turns[1..], t);
    }
  }
}
