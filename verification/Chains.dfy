// Two bridges, the ERC20 handlers and tokens behind them, and everybody who acts on them: users
// who deposit, relayers who vote and execute under whatever terms they like, token holders and
// administrators. Any number of resources may share a handler.
module Chains {
  import opened Words
  import opened Bytes
  import opened Payload
  import opened Ledger
  import opened Protocol
  import opened History
  import opened Outcomes
  import opened H = Erc20Handler

  datatype Side = Home | Foreign

  function Other(side: Side): Side {
    if side.Home? then Foreign else Home
  }

  // What is fixed on one chain: its domain, the bridge and treasury addresses, and the fees by
  // token and destination.
  datatype Domain = Domain(id: uint8, bridge: Address, treasury: Address, fees: (Address, uint8) -> Fees)

  // `rescale` is the relayer's conversion of an amount bound for a side.
  datatype Setup = Setup(h: Digest, home: Domain, foreign: Domain, rescale: (Side, ResourceID, nat) -> nat) {
    function On(side: Side): Domain {
      if side.Home? then home else foreign
    }
  }

  // The bridge, the registries of the handler contracts by address, and the tokens.
  datatype Chain = Chain(bridge: State, registries: map<Address, Registry>, tokens: World) {
    function RegistryAt(handler: Address): Registry {
      if handler in registries then registries[handler] else Registry(map[], map[], {}, {})
    }

    function TokenOf(r: ResourceID): Address {
      RegistryAt(bridge.HandlerOf(r)).TokenOf(r)
    }

    function Register(handler: Address, g: Registry): Chain {
      this.(registries := registries[handler := g])
    }
  }

  datatype System = System(home: Chain, foreign: Chain) {
    function On(side: Side): Chain {
      if side.Home? then home else foreign
    }

    function With(side: Side, c: Chain): System {
      if side.Home? then this.(home := c) else this.(foreign := c)
    }
  }

  // Administrators map a resource to a handler and a token, and mark tokens as burnable.
  datatype Turn =
    | UserDeposit(side: Side, sender: Address, destination: uint8, resource: ResourceID, data: Bytes)
    | Relay(side: Side, action: Action)
    | TokenCall(side: Side, token: Address, call: TokenAction)
    | BridgeCall(side: Side, action: Action)
    | MapResourceTo(side: Side, resource: ResourceID, handler: Address, token: Address)
    | MakeBurnable(side: Side, handler: Address, token: Address)

  // ----- the handlers as the bridges call them -----

  function HandlerOn(u: Setup, side: Side, c: Chain, r: ResourceID): Deployment {
    Deployment(c.bridge.HandlerOf(r), u.On(side).bridge, u.On(side).treasury)
  }

  function HandlerTakes(u: Setup, side: Side, c: Chain, depositor: Address, destination: uint8, r: ResourceID,
                        data: Bytes): Result<World, HandlerError> {
    H.DepositStep(c.tokens, c.RegistryAt(c.bridge.HandlerOf(r)), HandlerOn(u, side, c, r),
                  u.On(side).fees(c.TokenOf(r), destination), u.On(side).bridge, r, depositor, data)
  }

  function HandlerPays(u: Setup, side: Side, c: Chain, destination: uint8, r: ResourceID,
                       data: Bytes): Result<World, HandlerError> {
    H.ExecuteStep(c.tokens, c.RegistryAt(c.bridge.HandlerOf(r)), HandlerOn(u, side, c, r),
                  u.On(side).fees(c.TokenOf(r), destination), u.On(side).bridge, r, data)
  }

  // The handler returns exactly if its work succeeds; the preset token never calls back.
  function RunOf(c: Chain, r: ResourceID, work: Result<World, HandlerError>): HandlerRun {
    HandlerRun(c.bridge.HandlerOf(r) != ZERO_ADDRESS, [], work.Ok?)
  }

  // ----- turns -----

  function DepositAction(u: Setup, c: Chain, t: Turn): Action
    requires t.UserDeposit?
  {
    Deposit(t.sender, t.destination, t.resource, t.data,
            RunOf(c, t.resource, HandlerTakes(u, t.side, c, t.sender, t.destination, t.resource, t.data)))
  }

  // A vote or execution with the fields its sender chose, and the run of the handler it names.
  function RelayAction(u: Setup, c: Chain, t: Turn): (a: Action)
    requires t.Relay? && (t.action.Vote? || t.action.Execute?)
    ensures (a.Vote? || a.Execute?) && a.run.nested == []
  {
    var a := t.action;
    var run := RunOf(c, a.resourceID, HandlerPays(u, t.side, c, a.destinationDomainID, a.resourceID, a.data));
    if a.Vote? then
      Vote(a.sender, a.block, a.destinationDomainID, a.domainID, a.depositNonce, a.resourceID, a.data, run)
    else
      Execute(a.sender, a.destinationDomainID, a.domainID, a.depositNonce, a.data, a.resourceID, a.revertOnFail, run)
  }

  function Mapping(t: Turn): Action
    requires t.MapResourceTo?
  {
    SetResource(t.resource, t.handler, HandlerRun(true, [], true))
  }

  predicate Relays(t: Turn) {
    t.Relay? && (t.action.Vote? || t.action.Execute?)
  }

  // The handler call that a vote or execution makes if it makes one.
  function CallIn(u: Setup, y: System, t: Turn): (call: Event)
    requires Relays(t)
    ensures call.Called?
  {
    CallOf(u.h, y.On(t.side).bridge, RelayAction(u, y.On(t.side), t))
  }

  function BridgeAfter(u: Setup, y: System, t: Turn): State
    requires Relays(t)
  {
    After(u.h, y.On(t.side).bridge, RelayAction(u, y.On(t.side), t))
  }

  predicate Executes(u: Setup, y: System, t: Turn) {
    && Relays(t)
    && var k := CallIn(u, y, t).key;
       BridgeAfter(u, y, t).Record(k).status.Executed? && !y.On(t.side).bridge.Record(k).status.Executed?
  }

  // One transaction on one chain.
  function Turned(u: Setup, y: System, t: Turn): System {
    var c := y.On(t.side);
    match t
    case UserDeposit(side, sender, destination, r, data) =>
      var taken := HandlerTakes(u, side, c, sender, destination, r, data);
      var deposited := Step(u.h, c.bridge, DepositAction(u, c, t));
      if deposited.Ok? && taken.Ok? then y.With(side, c.(bridge := deposited.value, tokens := taken.value)) else y
    case Relay(side, a) =>
      if !Relays(t) then y
      else
        var paid := HandlerPays(u, side, c, a.destinationDomainID, a.resourceID, a.data);
        y.With(side, c.(bridge := BridgeAfter(u, y, t),
                        tokens := if Executes(u, y, t) && paid.Ok? then paid.value else c.tokens))
    case TokenCall(side, token, call) =>
      if token in c.tokens then y.With(side, c.(tokens := c.tokens[token := AfterToken(c.tokens[token], call)])) else y
    case BridgeCall(side, a) => y.With(side, c.(bridge := After(u.h, c.bridge, a)))
    case MapResourceTo(side, r, handler, token) =>
      if handler == ZERO_ADDRESS then y
      else
        var mapped := c.Register(handler, c.RegistryAt(handler).MapTo(r, token));
        y.With(side, mapped.(bridge := After(u.h, c.bridge, Mapping(t))))
    case MakeBurnable(side, handler, token) =>
      if token in c.RegistryAt(handler).whitelist then
        y.With(side, c.Register(handler, c.RegistryAt(handler).Burning(token)))
      else y
  }

  function Play(u: Setup, y: System, turns: seq<Turn>): System
    decreases |turns|
  {
    if turns == [] then y else Play(u, Turned(u, y, turns[0]), turns[1..])
  }

  // ----- relaying -----

  predicate Relayable(data: Bytes) {
    |data| >= 84 && 64 + DeclaredLength(data) <= |data|
  }

  // A deposit that relayers can bring to a side.
  predicate IsFor(u: Setup, side: Side, e: Event) {
    e.Deposited? && e.destinationDomainID == u.On(side).id && e.nonce < TWO_64 && Relayable(e.data)
  }

  // The proposal data the relayer builds for a deposit.
  function RelayedData(u: Setup, side: Side, e: Event): Bytes
    requires IsFor(u, side, e)
  {
    var (amount, recipient) := DepositFields(e.data);
    ProposalData(u.rescale(side, e.resourceID, amount), recipient)
  }

  // The proposal for a deposit under a handler.
  function KeyWith(u: Setup, side: Side, handler: Address, e: Event): Key
    requires IsFor(u, side, e)
  {
    ProposalKey(u.h, u.On(Other(side)).id, e.nonce, handler, RelayedData(u, side, e))
  }

  // The deposit whose nonce a vote or execution names.
  ghost predicate Answers(u: Setup, y: System, t: Turn, e: Event)
    requires Relays(t)
  {
    && Occurs(y.On(Other(t.side)).bridge.journal, e) && IsFor(u, t.side, e)
    && t.action.domainID == u.On(Other(t.side)).id && t.action.depositNonce == e.nonce
  }

  // The vote speaks for an announced deposit: its relayed data, and a resource whose handler is
  // at that moment the handler of the deposit's resource.
  ghost predicate Speaks(u: Setup, y: System, t: Turn)
    requires Relays(t)
  {
    exists e :: Answers(u, y, t, e) && t.action.data == RelayedData(u, t.side, e)
                && y.On(t.side).bridge.HandlerOf(t.action.resourceID) == y.On(t.side).bridge.HandlerOf(e.resourceID)
  }

  // The vote adds to the count of its proposal.
  ghost predicate Counts(u: Setup, y: System, t: Turn) {
    && Relays(t)
    && var k := CallIn(u, y, t).key;
       Votes(BridgeAfter(u, y, t).journal, k) > Votes(y.On(t.side).bridge.journal, k)
  }
}
