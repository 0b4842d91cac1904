// Backing across two chains, resource by resource. The surplus of an asset is what the home
// handler holds less what exists on the foreign chain and what is in flight. Executing calls
// change it by exactly what their deposit took in less what they pay out; nothing else lowers it.
module Backing {
  import opened Words
  import opened Arithmetic
  import opened Bytes
  import opened Payload
  import opened Ledger
  import opened AddressSets
  import opened Protocol
  import opened History
  import opened Invariants
  import opened Theorems
  import opened Outcomes
  import opened Chains
  import opened H = Erc20Handler

  // The asset watched: a resource, on either side its handler and token, and the worth of one
  // unit of the token.
  datatype Asset = Asset(resource: ResourceID, homeHandler: Address, foreignHandler: Address,
                         homeToken: Address, foreignToken: Address, homeUnit: nat, foreignUnit: nat)
  {
    function Handler(side: Side): Address {
      if side.Home? then homeHandler else foreignHandler
    }

    function Token(side: Side): Address {
      if side.Home? then homeToken else foreignToken
    }

    function Unit(side: Side): nat {
      if side.Home? then homeUnit else foreignUnit
    }
  }

  // ----- worth -----

  // The amount left after fees of deposit or proposal data.
  function Net(f: Fees, data: Bytes): nat {
    if |data| < 32 then 0
    else
      WordFits(data[..32]);
      var n := NetOf(f, FromBytes(data[..32]));
      if n.Ok? then n.value else 0
  }

  function FeesFor(u: Setup, x: Asset, side: Side, destination: uint8): Fees {
    u.On(side).fees(x.Token(side), destination)
  }

  // What a deposit of the asset takes in on its side, and what a call under it pays out.
  function Worth(u: Setup, x: Asset, side: Side, destination: uint8, data: Bytes): nat {
    Scaled(0, Net(FeesFor(u, x, side, destination), data), x.Unit(side));
    Net(FeesFor(u, x, side, destination), data) * x.Unit(side)
  }

  // Deposits of the asset bound for a side.
  predicate Concerns(u: Setup, x: Asset, side: Side, e: Event) {
    e.Deposited? && e.resourceID == x.resource && e.destinationDomainID == u.On(side).id
  }

  function TakenIn(u: Setup, x: Asset, side: Side, e: Event): nat
    requires e.Deposited?
  {
    Worth(u, x, Other(side), e.destinationDomainID, e.data)
  }

  function KeyOf(u: Setup, x: Asset, side: Side, e: Event): Key
    requires IsFor(u, side, e)
  {
    KeyWith(u, side, x.Handler(side), e)
  }

  predicate Delivered(u: Setup, x: Asset, side: Side, b: State, e: Event) {
    IsFor(u, side, e) && b.Record(KeyOf(u, x, side, e)).status.Executed?
  }

  // Worth of the deposits in j bound for a side whose bridge b has not executed them.
  ghost function InFlight(u: Setup, x: Asset, side: Side, j: Journal, b: State): nat {
    match j
    case Empty => 0
    case Then(earlier, e) =>
      InFlight(u, x, side, earlier, b) +
      if Concerns(u, x, side, e) && !Delivered(u, x, side, b, e) then TakenIn(u, x, side, e) else 0
  }

  // Worth of the deposits of the asset in j bound for a side under one nonce.
  ghost function TakenUnder(u: Setup, x: Asset, side: Side, j: Journal, nonce: nat): nat {
    match j
    case Empty => 0
    case Then(earlier, e) =>
      TakenUnder(u, x, side, earlier, nonce) +
      if Concerns(u, x, side, e) && e.nonce == nonce then TakenIn(u, x, side, e) else 0
  }

  function LedgerOf(c: Chain, token: Address): Ledger {
    if token in c.tokens then c.tokens[token] else NewLedger(ZERO_ADDRESS)
  }

  function Held(x: Asset, y: System): nat {
    LedgerOf(y.home, x.homeToken).Balance(x.homeHandler)
  }

  function Supply(x: Asset, y: System): nat {
    LedgerOf(y.foreign, x.foreignToken).totalSupply
  }

  ghost function Under(u: Setup, x: Asset, y: System): nat {
    InFlight(u, x, Foreign, y.home.bridge.journal, y.foreign.bridge)
    + InFlight(u, x, Home, y.foreign.bridge.journal, y.home.bridge)
  }

  ghost function Surplus(u: Setup, x: Asset, y: System): int {
    Held(x, y) * x.homeUnit - Supply(x, y) * x.foreignUnit - Under(u, x, y)
  }

  // What an executing call pays out of the asset: nothing under another resource, and nothing
  // in effect if the home handler releases to itself.
  function Given(u: Setup, x: Asset, t: Turn): nat
    requires Relays(t)
  {
    if t.action.resourceID != x.resource || (t.side.Home? && ReleasesTo(x.homeHandler, t.action.data)) then 0
    else Worth(u, x, t.side, t.action.destinationDomainID, t.action.data)
  }

  predicate ReleasesTo(handler: Address, data: Bytes) {
    ProposalFields(data) != None && ProposalFields(data).value.1 == handler
  }

  // What the deposit it answers took in of the asset: nothing if it is of another resource.
  ghost function Owed(u: Setup, x: Asset, y: System, t: Turn): nat
    requires Relays(t)
  {
    TakenUnder(u, x, t.side, y.On(Other(t.side)).bridge.journal, t.action.depositNonce)
  }

  // By how much a turn overpays.
  ghost function Gap(u: Setup, x: Asset, y: System, t: Turn): int {
    if Executes(u, y, t) then Given(u, x, t) - Owed(u, x, y, t) else 0
  }

  // ----- who may do what -----

  // Votes are counted for announced deposits only; the home handler does not deposit; of the
  // asset's tokens the handlers spend nothing on their own account, and nobody else becomes a
  // minter of the foreign one; the asset keeps its mapping and its tokens to itself, and its home
  // token is not made burnable. Executing calls are free, and so is every other administration.
  ghost predicate Allowed(u: Setup, x: Asset, y: System, t: Turn) {
    match t
    case UserDeposit(side, sender, _, _, _) => side.Home? ==> sender != x.homeHandler
    case Relay(_, _) => Counts(u, y, t) ==> Speaks(u, y, t)
    case TokenCall(side, token, a) =>
      token == x.Token(side) ==>
        if a.SetMinter? then side.Home? else a.SetPauser? || a.sender != x.Handler(side)
    case BridgeCall(_, a) => !a.Vote? && !a.Execute? && !a.Deposit? && !a.SetResource?
    case MapResourceTo(side, r, _, token) => r != x.resource && token != x.Token(side)
    case MakeBurnable(side, handler, token) => side.Home? ==> handler != x.homeHandler || token != x.homeToken
  }

  // ----- the invariant -----

  // The deposit and the handler that a counted vote spoke for.
  ghost predicate SpokenFor(u: Setup, x: Asset, side: Side, j: Journal, deposits: Journal, k: Key, e: Event,
                            handler: Address) {
    && Occurs(deposits, e) && IsFor(u, side, e) && k == KeyWith(u, side, handler, e)
    && Sourced(j, e.resourceID, handler)
    && (e.resourceID == x.resource ==> handler == x.Handler(side))
  }

  ghost predicate Announced(u: Setup, x: Asset, side: Side, j: Journal, deposits: Journal, k: Key) {
    exists e, handler :: SpokenFor(u, x, side, j, deposits, k, e, handler)
  }

  ghost predicate VotesAnnounced(u: Setup, x: Asset, side: Side, j: Journal, deposits: Journal) {
    forall v | Occurs(j, v) && v.Voted? :: Announced(u, x, side, j, deposits, v.key)
  }

  // The deposits of the asset were accepted by the handler's fee rules.
  ghost predicate Charged(u: Setup, x: Asset, side: Side, j: Journal) {
    forall e | Occurs(j, e) && e.Deposited? && e.resourceID == x.resource ::
      ChargedData(FeesFor(u, x, side, e.destinationDomainID), e.data)
  }

  // The asset is mapped as it should be, and no other resource to its token.
  ghost predicate Placed(x: Asset, side: Side, c: Chain) {
    && x.Handler(side) != ZERO_ADDRESS && x.Token(side) != ZERO_ADDRESS && x.Token(side) in c.tokens
    && x.Token(side) in c.RegistryAt(x.Handler(side)).whitelist
    && c.bridge.HandlerOf(x.resource) == x.Handler(side) && c.TokenOf(x.resource) == x.Token(side)
    && (x.Token(side) in c.RegistryAt(x.Handler(side)).burnList <==> side.Foreign?)
    && (forall r | r != x.resource :: c.TokenOf(r) != x.Token(side))
  }

  // The home handler allows nobody to spend what it holds; only the foreign handler mints.
  ghost predicate Guarded(x: Asset, side: Side, l: Ledger) {
    if side.Home? then forall s: Address :: l.Allowance(x.homeHandler, s) == 0 else l.minters <= {x.foreignHandler}
  }

  ghost predicate SideInv(u: Setup, x: Asset, side: Side, y: System) {
    && Reachable(u.h, y.On(side).bridge)
    && VotesAnnounced(u, x, side, y.On(side).bridge.journal, y.On(Other(side)).bridge.journal)
    && Charged(u, x, side, y.On(side).bridge.journal)
    && Placed(x, side, y.On(side))
    && Guarded(x, side, LedgerOf(y.On(side), x.Token(side)))
  }

  ghost predicate Sound(u: Setup, x: Asset, y: System) {
    SideInv(u, x, Home, y) && SideInv(u, x, Foreign, y)
  }

  // Freshly connected: reachable bridges without votes and deposits, the asset in its place,
  // nothing of the foreign token minted, and no allowance from the home handler.
  ghost predicate Connected(u: Setup, x: Asset, y: System) {
    && (forall side ::
          && Reachable(u.h, y.On(side).bridge)
          && (forall v | Occurs(y.On(side).bridge.journal, v) :: !v.Voted? && !v.Deposited?)
          && Placed(x, side, y.On(side))
          && Guarded(x, side, LedgerOf(y.On(side), x.Token(side))))
    && Supply(x, y) == 0
  }

  // ----- in flight -----

  lemma {:induction false} InFlightSame(u: Setup, x: Asset, side: Side, j: Journal, b: State, b': State)
    requires SameExecuted(b, b')
    ensures InFlight(u, x, side, j, b') == InFlight(u, x, side, j, b)
  {
    hide TakenIn;
    match j
    case Empty =>
    case Then(earlier, _) => InFlightSame(u, x, side, earlier, b, b');
  }

  // Executing one proposal takes exactly the deposits under its nonce out of flight.
  lemma {:induction false} InFlightLaw(u: Setup, x: Asset, side: Side, j: Journal, b: State, b': State, k: Key,
                                       nonce: uint64)
    requires OneExecuted(b, b', k) && k.destNonce == DestNonce(u.On(Other(side)).id, nonce)
    requires forall e | Occurs(j, e) && Concerns(u, x, side, e) && e.nonce == nonce ::
               IsFor(u, side, e) && KeyOf(u, x, side, e) == k
    ensures InFlight(u, x, side, j, b) == InFlight(u, x, side, j, b') + TakenUnder(u, x, side, j, nonce)
  {
    hide TakenIn, RelayedData, Relayable;
    match j
    case Empty =>
    case Then(earlier, e) =>
      assert forall d | Occurs(earlier, d) :: Occurs(j, d);
      InFlightLaw(u, x, side, earlier, b, b', k, nonce);
      if Concerns(u, x, side, e) && e.nonce == nonce {
        assert Occurs(j, e);
      } else if Concerns(u, x, side, e) && IsFor(u, side, e) {
        assert KeyOf(u, x, side, e) != k;
      }
  }

  lemma {:induction false} InFlightOfTrades(u: Setup, x: Asset, side: Side, j: Journal, b: State)
    ensures InFlight(u, x, side, Trades(j), b) == InFlight(u, x, side, j, b)
  {
    hide TakenIn, Delivered;
    match j
    case Empty =>
    case Then(earlier, _) => InFlightOfTrades(u, x, side, earlier, b);
  }

  // A deposit adds at most its worth, and only in its own direction.
  lemma InFlightGrows(u: Setup, x: Asset, side: Side, j: Journal, b: State, e: Event)
    requires e.Deposited?
    ensures InFlight(u, x, side, Then(j, e), b)
         <= InFlight(u, x, side, j, b) + if e.resourceID == x.resource then TakenIn(u, x, side, e) else 0
  {
    hide TakenIn, Delivered;
  }

  lemma QuietJournal(u: Setup, x: Asset, side: Side, j: Journal, later: Journal, b: State)
    requires Trades(later) == Trades(j)
    ensures InFlight(u, x, side, later, b) == InFlight(u, x, side, j, b)
  {
    InFlightOfTrades(u, x, side, j, b);
    InFlightOfTrades(u, x, side, later, b);
  }

  lemma CalledJournal(u: Setup, x: Asset, side: Side, j: Journal, later: Journal, b: State, call: Event)
    requires call.Called? && Trades(later) == Then(Trades(j), call)
    ensures InFlight(u, x, side, later, b) == InFlight(u, x, side, j, b)
  {
    hide Trades, TakenIn, Delivered;
    InFlightOfTrades(u, x, side, j, b);
    InFlightOfTrades(u, x, side, later, b);
  }

  // ----- one deposit per nonce -----

  lemma {:induction false} TwoDepositsCounted(j: Journal, e: Event, f: Event)
    requires Occurs(j, e) && Occurs(j, f) && e.Deposited? && f.Deposited? && e != f
    requires e.destinationDomainID == f.destinationDomainID && e.nonce == f.nonce
    ensures Deposits(j, e.destinationDomainID, e.nonce) >= 2
  {
    if j.event == e {
      DepositCounted(j.earlier, f);
    } else if j.event == f {
      DepositCounted(j.earlier, e);
    } else {
      TwoDepositsCounted(j.earlier, e, f);
    }
  }

  lemma {:induction false} DepositCounted(j: Journal, e: Event)
    requires Occurs(j, e) && e.Deposited?
    ensures Deposits(j, e.destinationDomainID, e.nonce) > 0
  {
    if j.event != e {
      DepositCounted(j.earlier, e);
    }
  }

  lemma OneDeposit(h: Digest, o: State, e: Event, f: Event)
    requires Reachable(h, o) && Occurs(o.journal, e) && Occurs(o.journal, f) && e.Deposited? && f.Deposited?
    requires e.destinationDomainID == f.destinationDomainID && e.nonce == f.nonce
    ensures e == f
  {
    hide Reachable;
    NoncesDistinct(h, o, e.destinationDomainID, e.nonce);
    if e != f {
      TwoDepositsCounted(o.journal, e, f);
    }
  }

  // An executed proposal has a counted vote, so it belongs to one announced deposit.
  lemma ExecutedIsAnnounced(u: Setup, x: Asset, side: Side, b: State, deposits: Journal, k: Key)
    requires Reachable(u.h, b) && VotesAnnounced(u, x, side, b.journal, deposits) && b.Record(k).status.Executed?
    ensures Announced(u, x, side, b.journal, deposits, k)
  {
    hide Reachable, Announced;
    ReachableInvFor(u.h, b, k);
    var v := SomeVote(b.journal, k);
  }

  // A new deposit starts in flight: its nonce is new, so its proposal cannot have been executed.
  lemma NewDepositUndelivered(u: Setup, x: Asset, side: Side, b: State, o: State, e: Event)
    requires Reachable(u.h, b) && Reachable(u.h, o) && VotesAnnounced(u, x, side, b.journal, o.journal)
    requires IsFor(u, side, e) && e.nonce > o.DepositCount(e.destinationDomainID)
    ensures !Delivered(u, x, side, b, e)
  {
    hide Reachable, VotesAnnounced;
    if Delivered(u, x, side, b, e) {
      var k := KeyOf(u, x, side, e);
      ExecutedIsAnnounced(u, x, side, b, o.journal, k);
      var d, handler :| SpokenFor(u, x, side, b.journal, o.journal, k, d, handler);
      DepositCounted(o.journal, d);
      NoncesDistinct(u.h, o, d.destinationDomainID, d.nonce);
      assert false;
    }
  }

  // What an executing call answers: one deposit, and if that is of the asset, its own proposal.
  lemma AnsweredDeposit(u: Setup, x: Asset, side: Side, b: State, o: State, k: Key, nonce: uint64)
      returns (e: Event, handler: Address)
    requires Reachable(u.h, b) && Reachable(u.h, o) && VotesAnnounced(u, x, side, b.journal, o.journal)
    requires b.Record(k).status.Executed? && k.destNonce / 256 == nonce
    ensures SpokenFor(u, x, side, b.journal, o.journal, k, e, handler) && e.nonce == nonce
    ensures k.destNonce == DestNonce(u.On(Other(side)).id, nonce)
    ensures forall d | Occurs(o.journal, d) && Concerns(u, x, side, d) && d.nonce == nonce ::
              IsFor(u, side, d) && KeyOf(u, x, side, d) == k && d == e
  {
    hide Reachable, VotesAnnounced, RelayedData, Relayable;
    ExecutedIsAnnounced(u, x, side, b, o.journal, k);
    e, handler :| SpokenFor(u, x, side, b.journal, o.journal, k, e, handler);
    forall d | Occurs(o.journal, d) && Concerns(u, x, side, d) && d.nonce == nonce ensures d == e {
      OneDeposit(u.h, o, d, e);
    }
  }

  // ----- ledgers -----

  lemma NetMeaning(f: Fees, data: Bytes)
    requires |data| >= 32 && FromBytes(data[..32]) < TWO_256
    requires CalculateFee(f, FromBytes(data[..32])).Ok?
    requires CalculateFee(f, FromBytes(data[..32])).value <= FromBytes(data[..32])
    ensures NetOf(f, FromBytes(data[..32])).Ok?
    ensures Net(f, data) == FromBytes(data[..32]) - CalculateFee(f, FromBytes(data[..32])).value
  {
    hide CalculateFee, FromBytes;
  }

  // What a deposit does to the watched token: nothing if it is of another resource.
  lemma TakeElsewhere(u: Setup, x: Asset, side: Side, c: Chain, after: World, t: Turn)
    requires Placed(x, side, c) && t.UserDeposit? && t.side == side && t.resource != x.resource
    requires HandlerTakes(u, side, c, t.sender, t.destination, t.resource, t.data) == Ok(after)
    ensures x.Token(side) in after && after[x.Token(side)] == c.tokens[x.Token(side)]
  {
    hide CalculateFee, NetOf, FromBytes, TakeIn, H.DepositStep;
    DepositConserves(c.tokens, c.RegistryAt(c.bridge.HandlerOf(t.resource)), HandlerOn(u, side, c, t.resource),
                     u.On(side).fees(c.TokenOf(t.resource), t.destination), u.On(side).bridge,
                     t.resource, t.sender, t.data);
  }

  // The fee a deposit pays, when it is accepted.
  function FeeOn(f: Fees, data: Bytes): nat {
    if |data| < 32 then 0 else FromBytes(data[..32]) - Net(f, data)
  }

  // At home it moves exactly the amount out of the depositor, the fee to the treasury and the
  // net amount to the handler, whoever these are.
  lemma TakeAtHome(u: Setup, x: Asset, c: Chain, after: World, t: Turn)
    requires Placed(x, Home, c) && t.UserDeposit? && t.side == Home && t.resource == x.resource
    requires HandlerTakes(u, Home, c, t.sender, t.destination, t.resource, t.data) == Ok(after)
    ensures var fees := FeesFor(u, x, Home, t.destination);
            && x.homeToken in after && ChargedData(fees, t.data)
            && var l, m, net, fee := c.tokens[x.homeToken], after[x.homeToken], Net(fees, t.data), FeeOn(fees, t.data);
            && (forall a: Address :: m.Balance(a) ==
                  l.Balance(a) - Share(a, t.sender, fee + net) + Share(a, u.home.treasury, fee)
                  + Share(a, x.homeHandler, net))
            && (forall o: Address, s: Address | (o, s) != (t.sender, x.homeHandler) ::
                  m.Allowance(o, s) == l.Allowance(o, s))
  {
    hide CalculateFee, NetOf, FromBytes, TakeIn, H.DepositStep, Net;
    var fees := u.home.fees(c.TokenOf(t.resource), t.destination);
    DepositConserves(c.tokens, c.RegistryAt(x.homeHandler), HandlerOn(u, Home, c, t.resource), fees, u.home.bridge,
                     t.resource, t.sender, t.data);
    NetMeaning(fees, t.data);
  }

  // Abroad it takes exactly the net amount out of existence.
  lemma BurnAbroad(u: Setup, x: Asset, c: Chain, after: World, t: Turn)
    requires Placed(x, Foreign, c) && t.UserDeposit? && t.side == Foreign && t.resource == x.resource
    requires HandlerTakes(u, Foreign, c, t.sender, t.destination, t.resource, t.data) == Ok(after)
    ensures var fees := FeesFor(u, x, Foreign, t.destination);
            && x.foreignToken in after && ChargedData(fees, t.data)
            && after[x.foreignToken].totalSupply + Net(fees, t.data) == c.tokens[x.foreignToken].totalSupply
            && after[x.foreignToken].minters == c.tokens[x.foreignToken].minters
  {
    hide CalculateFee, NetOf, FromBytes, TakeIn, H.DepositStep, Net;
    var fees := u.foreign.fees(c.TokenOf(t.resource), t.destination);
    DepositConserves(c.tokens, c.RegistryAt(x.foreignHandler), HandlerOn(u, Foreign, c, t.resource), fees,
                     u.foreign.bridge, t.resource, t.sender, t.data);
    NetMeaning(fees, t.data);
  }

  // What an execution does to the watched token: nothing under another resource.
  lemma PayElsewhere(u: Setup, x: Asset, side: Side, c: Chain, after: World, destination: uint8, r: ResourceID,
                     data: Bytes)
    requires Placed(x, side, c) && r != x.resource && HandlerPays(u, side, c, destination, r, data) == Ok(after)
    ensures x.Token(side) in after && after[x.Token(side)] == c.tokens[x.Token(side)]
  {
    hide CalculateFee, NetOf, FromBytes, PayOut, H.ExecuteStep, RecipientAddress;
    ExecutionConserves(c.tokens, c.RegistryAt(c.bridge.HandlerOf(r)), HandlerOn(u, side, c, r),
                       u.On(side).fees(c.TokenOf(r), destination), u.On(side).bridge, r, data);
  }

  // At home it releases exactly the net amount from the handler to the recipient.
  lemma ReleaseAtHome(u: Setup, x: Asset, c: Chain, after: World, destination: uint8, data: Bytes)
    requires Placed(x, Home, c) && HandlerPays(u, Home, c, destination, x.resource, data) == Ok(after)
    ensures var net := Net(FeesFor(u, x, Home, destination), data);
            && x.homeToken in after && ProposalFields(data) != None
            && var l, m, recipient := c.tokens[x.homeToken], after[x.homeToken], ProposalFields(data).value.1;
            && (forall a: Address ::
                  m.Balance(a) == l.Balance(a) - Share(a, x.homeHandler, net) + Share(a, recipient, net))
            && m.allowances == l.allowances
  {
    hide CalculateFee, NetOf, FromBytes, PayOut, H.ExecuteStep, RecipientAddress, Net;
    var fees := u.home.fees(c.TokenOf(x.resource), destination);
    ExecutionConserves(c.tokens, c.RegistryAt(x.homeHandler), HandlerOn(u, Home, c, x.resource), fees, u.home.bridge,
                       x.resource, data);
    NetMeaning(fees, data);
  }

  // Abroad it brings exactly the net amount into existence.
  lemma MintAbroad(u: Setup, x: Asset, c: Chain, after: World, destination: uint8, data: Bytes)
    requires Placed(x, Foreign, c) && HandlerPays(u, Foreign, c, destination, x.resource, data) == Ok(after)
    ensures x.foreignToken in after && after[x.foreignToken].minters == c.tokens[x.foreignToken].minters
    ensures after[x.foreignToken].totalSupply
         == c.tokens[x.foreignToken].totalSupply + Net(FeesFor(u, x, Foreign, destination), data)
  {
    hide CalculateFee, NetOf, FromBytes, PayOut, H.ExecuteStep, RecipientAddress, Net;
    var fees := u.foreign.fees(c.TokenOf(x.resource), destination);
    ExecutionConserves(c.tokens, c.RegistryAt(x.foreignHandler), HandlerOn(u, Foreign, c, x.resource), fees,
                       u.foreign.bridge, x.resource, data);
    NetMeaning(fees, data);
  }

  predicate ChargedData(f: Fees, data: Bytes) {
    |data| >= 32 && FromBytes(data[..32]) < TWO_256 && NetOf(f, FromBytes(data[..32])).Ok?
  }

  // Nobody else moves what the home handler holds, and nobody else mints on the foreign chain.
  lemma OwnCallsOnly(l: Ledger, a: TokenAction, self: Address)
    requires a.SetMinter? || a.SetPauser? || a.sender != self
    requires forall x: Address :: l.Allowance(self, x) == 0
    ensures var m := AfterToken(l, a);
            m.Balance(self) >= l.Balance(self) && (forall x: Address :: m.Allowance(self, x) == 0)
  {
    var m := AfterToken(l, a);
    forall x: Address ensures m.Allowance(self, x) == 0 {
      assert l.Allowance(self, x) == 0;
      StepAllowance(l, a, self, x);
    }
    if TokenStep(l, a).Ok? {
      if a.Transfer? {
        MoveEffect(l, a.sender, a.to, a.amount);
      } else if a.TransferFrom? {
        MoveFromEffect(l, a.sender, a.from, a.to, a.amount);
        if a.from == self {
          StepAllowance(l, a, self, a.sender);
        }
      } else if a.BurnFrom? {
        DestroyFromEffect(l, a.sender, a.from, a.amount);
        if a.from == self {
          StepAllowance(l, a, self, a.sender);
        }
      }
    }
  }

  lemma SoleMinter(l: Ledger, a: TokenAction, self: Address)
    requires !a.SetMinter? && (a.SetPauser? || a.sender != self) && l.minters <= {self}
    ensures AfterToken(l, a).totalSupply <= l.totalSupply && AfterToken(l, a).minters == l.minters
  {}

  // ----- what stays as it is -----

  lemma AnnouncedGrows(u: Setup, x: Asset, side: Side, j: Journal, j': Journal, d: Journal, d': Journal, k: Key)
    requires Announced(u, x, side, j, d, k) && Grows(j, j') && Grows(d, d')
    ensures Announced(u, x, side, j', d', k)
  {
    var e, handler :| SpokenFor(u, x, side, j, d, k, e, handler);
    assert SpokenFor(u, x, side, j', d', k, e, handler);
  }

  // No new votes, and nothing forgotten on either side.
  lemma VotesStay(u: Setup, x: Asset, side: Side, j: Journal, j': Journal, d: Journal, d': Journal)
    requires VotesAnnounced(u, x, side, j, d) && Grows(j, j') && Grows(d, d')
    requires forall v | Occurs(j', v) && v.Voted? :: Occurs(j, v)
    ensures VotesAnnounced(u, x, side, j', d')
  {
    hide Announced, Grows;
    forall v | Occurs(j', v) && v.Voted? ensures Announced(u, x, side, j', d', v.key) {
      AnnouncedGrows(u, x, side, j, j', d, d', v.key);
    }
  }

  lemma NoNewDeposits(u: Setup, x: Asset, side: Side, j: Journal, later: Journal)
    requires Charged(u, x, side, j) && forall e | Occurs(Trades(later), e) && e.Deposited? :: Occurs(Trades(j), e)
    ensures Charged(u, x, side, later)
  {
    hide ChargedData;
    forall e | Occurs(later, e) && e.Deposited? && e.resourceID == x.resource ensures Occurs(j, e) {
      TradesOccur(later, e);
      TradesOccur(j, e);
    }
  }

  // New ledgers and a bridge with the same mappings leave the asset in its place.
  lemma StaysPlaced(x: Asset, side: Side, c: Chain, d: Chain)
    requires Placed(x, side, c) && d.registries == c.registries && d.bridge.handlers == c.bridge.handlers
    requires x.Token(side) in d.tokens
    ensures Placed(x, side, d)
  {
    forall r ensures d.TokenOf(r) == c.TokenOf(r) {}
  }

  // A turn on one side that trades nothing, with the bridge, mappings and tokens it leaves.
  lemma QuietTurn(u: Setup, x: Asset, y: System, z: System, side: Side)
    requires Sound(u, x, y) && z.On(Other(side)) == y.On(Other(side))
    requires var b, b' := y.On(side).bridge, z.On(side).bridge;
             && SameExecuted(b, b') && Trades(b'.journal) == Trades(b.journal) && Grows(b.journal, b'.journal)
             && Reachable(u.h, b') && VotesAnnounced(u, x, side, b'.journal, y.On(Other(side)).bridge.journal)
    requires Placed(x, side, z.On(side)) && Guarded(x, side, LedgerOf(z.On(side), x.Token(side)))
    ensures Sound(u, x, z) && Under(u, x, z) == Under(u, x, y)
  {
    hide Reachable, Charged, VotesAnnounced, Trades, Placed, Guarded, InFlight, SameExecuted, Grows;
    var far, b, b' := Other(side), y.On(side).bridge, z.On(side).bridge;
    NoNewDeposits(u, x, side, b.journal, b'.journal);
    GrowsRefl(y.On(far).bridge.journal);
    VotesStay(u, x, far, y.On(far).bridge.journal, y.On(far).bridge.journal, b.journal, b'.journal);
    InFlightSame(u, x, side, y.On(far).bridge.journal, b, b');
    QuietJournal(u, x, far, b.journal, b'.journal, y.On(far).bridge);
    assert SideInv(u, x, side, z) && SideInv(u, x, far, z);
  }

  lemma GrowsRefl(j: Journal)
    ensures Grows(j, j)
  {}

  // The surplus follows the two ledgers when nothing else changes.
  lemma LedgersMove(u: Setup, x: Asset, y: System, z: System)
    requires Under(u, x, z) == Under(u, x, y) && Held(x, z) >= Held(x, y) && Supply(x, z) <= Supply(x, y)
    ensures Surplus(u, x, z) >= Surplus(u, x, y)
  {
    hide Under, Held, Supply;
    Scaled(Held(x, y), Held(x, z), x.homeUnit);
    Scaled(Supply(x, z), Supply(x, y), x.foreignUnit);
  }

  lemma LedgersStay(u: Setup, x: Asset, y: System, z: System)
    requires Under(u, x, z) == Under(u, x, y) && z.home.tokens == y.home.tokens && z.foreign.tokens == y.foreign.tokens
    ensures Surplus(u, x, z) == Surplus(u, x, y)
  {
    hide Under;
    assert Held(x, z) == Held(x, y) && Supply(x, z) == Supply(x, y);
    hide Held, Supply;
  }

  // ----- deposits -----

  // The one trade of a deposit turn, unless the turn is reverted.
  lemma DepositTurnOutcome(u: Setup, y: System, t: Turn)
    requires t.UserDeposit?
    ensures var c, z, n := y.On(t.side), Turned(u, y, t), y.On(t.side).bridge.DepositCount(t.destination) + 1;
            || z == y
            || (&& z.On(Other(t.side)) == y.On(Other(t.side))
                && HandlerTakes(u, t.side, c, t.sender, t.destination, t.resource, t.data) == Ok(z.On(t.side).tokens)
                && z.On(t.side).bridge == After(u.h, c.bridge, DepositAction(u, c, t))
                && z.On(t.side).registries == c.registries
                && z.On(t.side).bridge.proposals == c.bridge.proposals
                && z.On(t.side).bridge.handlers == c.bridge.handlers
                && z.On(t.side).bridge.journal
                     == Then(c.bridge.journal, Deposited(t.destination, n, t.resource, t.sender, t.data)))
  {
    hide HandlerTakes, Step;
    var c := y.On(t.side);
    if Step(u.h, c.bridge, DepositAction(u, c, t)).Ok? {
      DepositOutcome(u.h, c.bridge, DepositAction(u, c, t));
    }
  }

  // What a committed deposit does to the asset's token.
  lemma DepositLedger(u: Setup, x: Asset, side: Side, c: Chain, after: World, t: Turn)
    requires Placed(x, side, c) && t.UserDeposit? && t.side == side && (side.Home? ==> t.sender != x.homeHandler)
    requires HandlerTakes(u, side, c, t.sender, t.destination, t.resource, t.data) == Ok(after)
    requires Guarded(x, side, c.tokens[x.Token(side)])
    ensures var token, net := x.Token(side), Net(FeesFor(u, x, side, t.destination), t.data);
            && token in after && Guarded(x, side, after[token])
            && var l, m := c.tokens[token], after[token];
            if t.resource == x.resource then
              && ChargedData(FeesFor(u, x, side, t.destination), t.data)
              && (side.Home? ==> m.Balance(x.homeHandler) >= l.Balance(x.homeHandler) + net)
              && (side.Foreign? ==> m.totalSupply + net == l.totalSupply)
            else m == l
  {
    TokenPresent(x, side, c);
    hide HandlerTakes, Placed, Net, ChargedData, FromBytes;
    if t.resource != x.resource {
      TakeElsewhere(u, x, side, c, after, t);
    } else if side.Home? {
      TakeAtHome(u, x, c, after, t);
      forall s: Address ensures after[x.homeToken].Allowance(x.homeHandler, s) == 0 {
        assert c.tokens[x.homeToken].Allowance(x.homeHandler, s) == 0;
      }
    } else {
      BurnAbroad(u, x, c, after, t);
    }
  }

  lemma StillCharged(u: Setup, x: Asset, side: Side, j: Journal, e: Event)
    requires Charged(u, x, side, j) && e.Deposited?
    requires e.resourceID == x.resource ==> ChargedData(FeesFor(u, x, side, e.destinationDomainID), e.data)
    ensures Charged(u, x, side, Then(j, e))
  {
    hide ChargedData;
  }

  // The worth of one deposit, against the ledger it changes.
  lemma DepositWorth(u: Setup, x: Asset, y: System, z: System, side: Side, e: Event)
    requires e.Deposited? && z.On(Other(side)) == y.On(Other(side))
    requires var net := Net(FeesFor(u, x, side, e.destinationDomainID), e.data);
             if e.resourceID != x.resource then Held(x, z) == Held(x, y) && Supply(x, z) == Supply(x, y)
             else if side.Home? then Held(x, z) >= Held(x, y) + net && Supply(x, z) == Supply(x, y)
             else Held(x, z) == Held(x, y) && Supply(x, z) + net == Supply(x, y)
    requires Under(u, x, z) <= Under(u, x, y)
               + if e.resourceID == x.resource then TakenIn(u, x, Other(side), e) else 0
    ensures Surplus(u, x, z) >= Surplus(u, x, y)
  {
    hide Under, Held, Supply, Net, FeesFor;
    var net := Net(FeesFor(u, x, side, e.destinationDomainID), e.data);
    assert Other(Other(side)) == side;
    if e.resourceID == x.resource {
      if side.Home? {
        Scaled(Held(x, y) + net, Held(x, z), x.homeUnit);
        Distribute(Held(x, y), net, x.homeUnit);
      } else {
        Distribute(Supply(x, z), net, x.foreignUnit);
      }
    }
  }

  lemma Distribute(a: int, b: int, c: int)
    ensures (a + b) * c == a * c + b * c
  {}

  lemma DepositTurn(u: Setup, x: Asset, y: System, t: Turn)
    requires Sound(u, x, y) && t.UserDeposit? && Allowed(u, x, y, t)
    ensures Sound(u, x, Turned(u, y, t)) && Surplus(u, x, Turned(u, y, t)) >= Surplus(u, x, y)
  {
    hide Reachable, Charged, HandlerTakes, VotesAnnounced, Turned, After, Net, DepositAction, Placed, Guarded, InFlight;
    hide TakenIn, Grows, ChargedData;
    var side, far, c, z := t.side, Other(t.side), y.On(t.side), Turned(u, y, t);
    DepositTurnOutcome(u, y, t);
    if z != y {
      var b, o := z.On(side).bridge, y.On(far).bridge;
      var e := b.journal.event;
      TokenPresent(x, side, c);
      DepositLedger(u, x, side, c, z.On(side).tokens, t);
      StaysPlaced(x, side, c, z.On(side));
      ReachableAfter(u.h, c.bridge, DepositAction(u, c, t));
      StillCharged(u, x, side, c.bridge.journal, e);
      GrowsRefl(o.journal);
      DepositGrows(c.bridge.journal, e);
      VotesStay(u, x, side, c.bridge.journal, b.journal, o.journal, o.journal);
      VotesStay(u, x, far, o.journal, o.journal, c.bridge.journal, b.journal);
      assert SideInv(u, x, side, z) && SideInv(u, x, far, z);
      InFlightSame(u, x, side, o.journal, c.bridge, b);
      InFlightGrows(u, x, far, c.bridge.journal, o, e);
      DepositWorth(u, x, y, z, side, e);
    }
  }

  lemma TokenPresent(x: Asset, side: Side, c: Chain)
    requires Placed(x, side, c)
    ensures x.Token(side) in c.tokens
  {}

  lemma DepositGrows(j: Journal, e: Event)
    requires !e.Voted?
    ensures Grows(j, Then(j, e)) && (forall v | Occurs(Then(j, e), v) && v.Voted? :: Occurs(j, v))
  {}

  // ----- votes and executions -----

  // A counted vote speaks for an announced deposit, under the handler of that moment.
  lemma VoteSpeaks(u: Setup, x: Asset, side: Side, c: Chain, later: Journal, deposits: Journal, k: Key, e: Event)
    requires Reachable(u.h, c.bridge) && Placed(x, side, c) && Grows(c.bridge.journal, later)
    requires Occurs(deposits, e) && IsFor(u, side, e) && k == KeyWith(u, side, c.bridge.HandlerOf(e.resourceID), e)
    ensures SpokenFor(u, x, side, later, deposits, k, e, c.bridge.HandlerOf(e.resourceID))
  {
    hide Reachable, KeyWith, Relayable;
    MappingOnRecord(u.h, c.bridge, e.resourceID);
    PlacedHandler(x, side, c);
  }

  lemma RelayVotes(u: Setup, x: Asset, y: System, t: Turn)
    requires Relays(t) && Allowed(u, x, y, t) && Sound(u, x, y)
    ensures var b, b' := y.On(t.side).bridge, BridgeAfter(u, y, t);
            && VotesAnnounced(u, x, t.side, b'.journal, y.On(Other(t.side)).bridge.journal)
            && b'.handlers == b.handlers && Grows(b.journal, b'.journal)
  {
    hide Announced, Speaks, After, RelayAction, KeyWith, Trades, Reachable, Charged, Guarded, Placed;
    var c, b', o := y.On(t.side), BridgeAfter(u, y, t), y.On(Other(t.side)).bridge.journal;
    RelayOutcome(u.h, c.bridge, RelayAction(u, c, t));
    GrowsRefl(o);
    forall v | Occurs(b'.journal, v) && v.Voted? ensures Announced(u, x, t.side, b'.journal, o, v.key) {
      if Occurs(c.bridge.journal, v) {
        AnnouncedGrows(u, x, t.side, c.bridge.journal, b'.journal, o, o, v.key);
      } else {
        TurnSpeaks(u, x, y, t, b'.journal);
      }
    }
  }

  lemma TurnSpeaks(u: Setup, x: Asset, y: System, t: Turn, later: Journal)
    requires Relays(t) && Speaks(u, y, t) && Grows(y.On(t.side).bridge.journal, later)
    requires Reachable(u.h, y.On(t.side).bridge) && Placed(x, t.side, y.On(t.side))
    ensures Announced(u, x, t.side, later, y.On(Other(t.side)).bridge.journal, CallIn(u, y, t).key)
  {
    hide SpokenFor, KeyWith, CallIn, Reachable, Placed, RelayedData, Relayable, Grows;
    var c, o := y.On(t.side), y.On(Other(t.side)).bridge.journal;
    var e :| Answers(u, y, t, e) && t.action.data == RelayedData(u, t.side, e)
             && c.bridge.HandlerOf(t.action.resourceID) == c.bridge.HandlerOf(e.resourceID);
    KeyOfSpeech(u, y, t, e);
    VoteSpeaks(u, x, t.side, c, later, o, CallIn(u, y, t).key, e);
  }

  lemma KeyOfSpeech(u: Setup, y: System, t: Turn, e: Event)
    requires Relays(t) && Answers(u, y, t, e) && t.action.data == RelayedData(u, t.side, e)
    requires y.On(t.side).bridge.HandlerOf(t.action.resourceID) == y.On(t.side).bridge.HandlerOf(e.resourceID)
    ensures CallIn(u, y, t).key == KeyWith(u, t.side, y.On(t.side).bridge.HandlerOf(e.resourceID), e)
  {
    hide RelayedData, Relayable, HandlerPays;
  }

  lemma PlacedHandler(x: Asset, side: Side, c: Chain)
    requires Placed(x, side, c)
    ensures c.bridge.HandlerOf(x.resource) == x.Handler(side) != ZERO_ADDRESS
  {}

  // The one trade of an executing turn: the call, and the ledgers it leaves.
  lemma ExecutedOutcome(u: Setup, y: System, t: Turn)
    requires Relays(t) && Executes(u, y, t)
    ensures var c, z, call := y.On(t.side), Turned(u, y, t).On(t.side), CallIn(u, y, t);
            && OneExecuted(c.bridge, z.bridge, call.key) && z.bridge == BridgeAfter(u, y, t)
            && z.bridge.handlers == c.bridge.handlers && z.registries == c.registries
            && Trades(z.bridge.journal) == Then(Trades(c.bridge.journal), call)
            && HandlerPays(u, t.side, c, t.action.destinationDomainID, t.action.resourceID, t.action.data)
              == Ok(z.tokens)
            && call.key.destNonce == DestNonce(t.action.domainID, t.action.depositNonce)
            && Turned(u, y, t).On(Other(t.side)) == y.On(Other(t.side))
  {
    hide HandlerPays, After, VotesOnlyFor, OneExecuted, Trades;
    RelayOutcome(u.h, y.On(t.side).bridge, RelayAction(u, y.On(t.side), t));
  }

  // What an executing call does to the asset's token: exactly what is given.
  lemma CallLedger(u: Setup, x: Asset, side: Side, c: Chain, after: World, t: Turn)
    requires Placed(x, side, c) && Relays(t) && t.side == side && Guarded(x, side, c.tokens[x.Token(side)])
    requires HandlerPays(u, side, c, t.action.destinationDomainID, t.action.resourceID, t.action.data) == Ok(after)
    ensures var token := x.Token(side);
            && token in after && Guarded(x, side, after[token])
            && (side.Home? ==> after[token].Balance(x.homeHandler) * x.homeUnit + Given(u, x, t)
                               == c.tokens[token].Balance(x.homeHandler) * x.homeUnit)
            && (side.Foreign? ==> after[token].totalSupply * x.foreignUnit
                                  == c.tokens[token].totalSupply * x.foreignUnit + Given(u, x, t))
  {
    TokenPresent(x, side, c);
    hide HandlerPays, Placed, Net, ProposalFields, FeesFor;
    var a, token := t.action, x.Token(side);
    if a.resourceID != x.resource {
      PayElsewhere(u, x, side, c, after, a.destinationDomainID, a.resourceID, a.data);
    } else if side.Home? {
      ReleaseAtHome(u, x, c, after, a.destinationDomainID, a.data);
      var net := Net(FeesFor(u, x, Home, a.destinationDomainID), a.data);
      if !ReleasesTo(x.homeHandler, a.data) {
        Distribute(after[token].Balance(x.homeHandler), net, x.homeUnit);
      }
      forall s: Address ensures after[token].Allowance(x.homeHandler, s) == 0 {
        assert c.tokens[token].Allowance(x.homeHandler, s) == 0;
      }
    } else {
      MintAbroad(u, x, c, after, a.destinationDomainID, a.data);
      Distribute(c.tokens[token].totalSupply, Net(FeesFor(u, x, Foreign, a.destinationDomainID), a.data),
                 x.foreignUnit);
    }
  }

  // What an executing call does to the deposits in flight: exactly what is owed.
  lemma CallFlight(u: Setup, x: Asset, y: System, t: Turn)
    requires Sound(u, x, y) && Relays(t) && Executes(u, y, t) && Allowed(u, x, y, t)
    ensures Under(u, x, y) == Under(u, x, Turned(u, y, t)) + Owed(u, x, y, t)
    ensures t.action.domainID == u.On(Other(t.side)).id
  {
    hide Reachable, Charged, HandlerPays, VotesAnnounced, After, Placed, Guarded, InFlight, Turned, Executes, CallIn,
         BridgeAfter, TakenUnder, OneExecuted, Trades, Allowed, Grows;
    var z, call := Turned(u, y, t), CallIn(u, y, t);
    ExecutedOutcome(u, y, t);
    RelayVotes(u, x, y, t);
    StillReachable(u, x, y, t);
    FlightOfCall(u, x, t.side, y.On(t.side).bridge, z.On(t.side).bridge, y.On(Other(t.side)).bridge, call,
                 t.action.domainID, t.action.depositNonce);
  }

  // A call takes what its deposit took in out of flight on its own side, and nothing else.
  lemma FlightOfCall(u: Setup, x: Asset, side: Side, b: State, b': State, o: State, call: Event, d: uint8, n: uint64)
    requires Reachable(u.h, b) && Reachable(u.h, b') && Reachable(u.h, o)
    requires VotesAnnounced(u, x, side, b'.journal, o.journal)
    requires call.Called? && OneExecuted(b, b', call.key) && call.key.destNonce == DestNonce(d, n)
    requires Trades(b'.journal) == Then(Trades(b.journal), call)
    ensures InFlight(u, x, side, o.journal, b) ==
            InFlight(u, x, side, o.journal, b') + TakenUnder(u, x, side, o.journal, n)
    ensures InFlight(u, x, Other(side), b'.journal, o) == InFlight(u, x, Other(side), b.journal, o)
    ensures d == u.On(Other(side)).id
  {
    hide Reachable, VotesAnnounced, InFlight, KeyWith, TakenUnder, OneExecuted, Trades, RelayedData, Relayable;
    ExecutedNow(b, b', call.key);
    DestNonceParts(d, n);
    var e, handler := AnsweredDeposit(u, x, side, b', o, call.key, n);
    DestNonceParts(u.On(Other(side)).id, n);
    InFlightLaw(u, x, side, o.journal, b, b', call.key, n);
    CalledJournal(u, x, Other(side), b.journal, b'.journal, o, call);
  }

  lemma ExecutedNow(s: State, t: State, k: Key)
    requires OneExecuted(s, t, k)
    ensures t.Record(k).status.Executed?
  {}

  lemma DestNonceParts(d: uint8, n: uint64)
    ensures DestNonce(d, n) / 256 == n && DestNonce(d, n) % 256 == d
  {}

  lemma StillReachable(u: Setup, x: Asset, y: System, t: Turn)
    requires Sound(u, x, y) && Relays(t)
    ensures Reachable(u.h, BridgeAfter(u, y, t))
  {
    hide Reachable, After, Charged, Guarded, Placed, VotesAnnounced, HandlerPays;
    ReachableAfter(u.h, y.On(t.side).bridge, RelayAction(u, y.On(t.side), t));
  }

  // The law of executing calls: the surplus changes by exactly what the answered deposit took
  // in of the asset less what the call pays out of it.
  lemma CallLaw(u: Setup, x: Asset, y: System, t: Turn)
    requires Sound(u, x, y) && Relays(t) && Executes(u, y, t) && Allowed(u, x, y, t)
    ensures Sound(u, x, Turned(u, y, t))
    ensures Surplus(u, x, Turned(u, y, t)) == Surplus(u, x, y) + Owed(u, x, y, t) - Given(u, x, t)
  {
    hide Reachable, Charged, HandlerPays, VotesAnnounced, Placed, Guarded, Turned, Executes, CallIn, BridgeAfter, Given,
         Owed, Under;
    hide OneExecuted, Trades, Allowed, Grows, ChargedData;
    var side, far, z := t.side, Other(t.side), Turned(u, y, t);
    var b, b', o, call := y.On(side).bridge, z.On(side).bridge, y.On(far).bridge, CallIn(u, y, t);
    ExecutedOutcome(u, y, t);
    RelayVotes(u, x, y, t);
    StillReachable(u, x, y, t);
    TokenPresent(x, side, y.On(side));
    CallLedger(u, x, side, y.On(side), z.On(side).tokens, t);
    StaysPlaced(x, side, y.On(side), z.On(side));
    NoNewDeposits(u, x, side, b.journal, b'.journal);
    GrowsRefl(o.journal);
    VotesStay(u, x, far, o.journal, o.journal, b.journal, b'.journal);
    assert SideInv(u, x, side, z) && SideInv(u, x, far, z);
    CallFlight(u, x, y, t);
  }

  // Exactly which executing calls keep the asset covered.
  lemma CoverKept(u: Setup, x: Asset, y: System, t: Turn)
    requires Sound(u, x, y) && Relays(t) && Executes(u, y, t) && Allowed(u, x, y, t)
    ensures Surplus(u, x, Turned(u, y, t)) >= 0 <==> Given(u, x, t) <= Surplus(u, x, y) + Owed(u, x, y, t)
    ensures Surplus(u, x, y) == 0 ==> (Surplus(u, x, Turned(u, y, t)) >= 0 <==> Given(u, x, t) <= Owed(u, x, y, t))
  {
    hide Sound, Surplus, Given, Owed, Executes, Allowed;
    CallLaw(u, x, y, t);
  }

  // A vote or execution that executes nothing.
  lemma QuietRelay(u: Setup, x: Asset, y: System, t: Turn)
    requires Sound(u, x, y) && Relays(t) && !Executes(u, y, t) && Allowed(u, x, y, t)
    ensures Sound(u, x, Turned(u, y, t)) && Surplus(u, x, Turned(u, y, t)) == Surplus(u, x, y)
  {
    hide Reachable, Charged, HandlerPays, VotesAnnounced, Guarded, After, Allowed, Under, Surplus, RelayAction, Trades,
         SameExecuted;
    hide OneExecuted, VotesOnlyFor, CallOf, Grows, Placed;
    var side, c, z := t.side, y.On(t.side), Turned(u, y, t);
    RelayOutcome(u.h, c.bridge, RelayAction(u, c, t));
    RelayVotes(u, x, y, t);
    StillReachable(u, x, y, t);
    TokenPresent(x, side, c);
    StaysPlaced(x, side, c, z.On(side));
    QuietTurn(u, x, y, z, side);
    LedgersStay(u, x, y, z);
  }

  // ----- other turns -----

  lemma BridgeTurn(u: Setup, x: Asset, y: System, t: Turn)
    requires Sound(u, x, y) && t.BridgeCall? && Allowed(u, x, y, t)
    ensures Sound(u, x, Turned(u, y, t)) && Surplus(u, x, Turned(u, y, t)) == Surplus(u, x, y)
  {
    hide Reachable, Charged, VotesAnnounced, Guarded, After, Under, Surplus, Trades, SameExecuted, Placed, Turned;
    var side, c, z, o := t.side, y.On(t.side), Turned(u, y, t), y.On(Other(t.side)).bridge.journal;
    BridgeTurnOutcome(u, y, t);
    AdminOutcome(u.h, c.bridge, t.action);
    ReachableAfter(u.h, c.bridge, t.action);
    GrowsRefl(o);
    VotesStay(u, x, side, c.bridge.journal, z.On(side).bridge.journal, o, o);
    TokenPresent(x, side, c);
    StaysPlaced(x, side, c, z.On(side));
    QuietTurn(u, x, y, z, side);
    LedgersStay(u, x, y, z);
  }

  lemma BridgeTurnOutcome(u: Setup, y: System, t: Turn)
    requires t.BridgeCall?
    ensures var c, z := y.On(t.side), Turned(u, y, t);
            && z.On(Other(t.side)) == y.On(Other(t.side))
            && z.On(t.side) == c.(bridge := After(u.h, c.bridge, t.action))
            && z.home.tokens == y.home.tokens && z.foreign.tokens == y.foreign.tokens
  {
    hide After;
  }

  // What administration of the registries leaves of a chain.
  lemma RegistryTurnOutcome(u: Setup, y: System, t: Turn)
    requires t.MapResourceTo? || t.MakeBurnable?
    ensures var c, z := y.On(t.side), Turned(u, y, t);
            || z == y
            || (&& z.On(Other(t.side)) == y.On(Other(t.side)) && z.On(t.side).tokens == c.tokens
                && z.home.tokens == y.home.tokens && z.foreign.tokens == y.foreign.tokens
                && z.On(t.side).bridge == (if t.MapResourceTo? then After(u.h, c.bridge, Mapping(t)) else c.bridge)
                && z.On(t.side).registries
                     == c.registries[t.handler := var g := c.RegistryAt(t.handler);
                                                  if t.MapResourceTo? then g.MapTo(t.resource, t.token)
                                                  else g.Burning(t.token)])
  {
    hide After;
  }

  // Mapping another resource, to any handler and any other token.
  lemma MapTurn(u: Setup, x: Asset, y: System, t: Turn)
    requires Sound(u, x, y) && t.MapResourceTo? && Allowed(u, x, y, t)
    ensures Sound(u, x, Turned(u, y, t)) && Surplus(u, x, Turned(u, y, t)) == Surplus(u, x, y)
  {
    hide Reachable, Charged, VotesAnnounced, Guarded, After, Under, Surplus, Trades, SameExecuted, Placed, Turned,
         Grows;
    var side, c, z, o := t.side, y.On(t.side), Turned(u, y, t), y.On(Other(t.side)).bridge.journal;
    assert SideInv(u, x, side, y);
    hide Sound;
    RegistryTurnOutcome(u, y, t);
    if z != y {
      MappingOutcome(u.h, c.bridge, t);
      ReachableAfter(u.h, c.bridge, Mapping(t));
      GrowsRefl(o);
      VotesStay(u, x, side, c.bridge.journal, z.On(side).bridge.journal, o, o);
      StaysPlacedWhenMapped(x, side, c, z.On(side), t);
      TokenPresent(x, side, c);
      QuietTurn(u, x, y, z, side);
      LedgersStay(u, x, y, z);
    }
  }

  lemma MappingOutcome(h: Digest, b: State, t: Turn)
    requires t.MapResourceTo?
    ensures var b' := After(h, b, Mapping(t));
            && b' == MapResource(b, t.resource, t.handler) && SameExecuted(b, b')
            && Trades(b'.journal) == Trades(b.journal) && Grows(b.journal, b'.journal)
            && (forall v | Occurs(b'.journal, v) && v.Voted? :: Occurs(b.journal, v))
  {
    var b' := MapResource(b, t.resource, t.handler);
    assert RunAll(h, b', []) == b';
    assert Step(h, b, Mapping(t)) == Ok(b');
  }

  lemma StaysPlacedWhenMapped(x: Asset, side: Side, c: Chain, d: Chain, t: Turn)
    requires Placed(x, side, c) && t.MapResourceTo? && t.resource != x.resource && t.token != x.Token(side)
    requires d.bridge.handlers == c.bridge.handlers[t.resource := t.handler] && d.tokens == c.tokens
    requires d.registries == c.registries[t.handler := c.RegistryAt(t.handler).MapTo(t.resource, t.token)]
    ensures Placed(x, side, d)
  {
    forall r ensures d.TokenOf(r) == if r == t.resource then t.token else c.TokenOf(r) {}
  }

  lemma StaysPlacedWhenBurnable(x: Asset, side: Side, c: Chain, d: Chain, t: Turn)
    requires Placed(x, side, c) && t.MakeBurnable?
    requires side.Home? ==> t.handler != x.homeHandler || t.token != x.homeToken
    requires d.bridge == c.bridge && d.tokens == c.tokens
    requires d.registries == c.registries[t.handler := c.RegistryAt(t.handler).Burning(t.token)]
    ensures Placed(x, side, d)
  {
    forall r ensures d.TokenOf(r) == c.TokenOf(r) {}
  }

  lemma BurnableTurn(u: Setup, x: Asset, y: System, t: Turn)
    requires Sound(u, x, y) && t.MakeBurnable? && Allowed(u, x, y, t)
    ensures Sound(u, x, Turned(u, y, t)) && Surplus(u, x, Turned(u, y, t)) == Surplus(u, x, y)
  {
    hide Reachable, Charged, VotesAnnounced, Guarded, Under, Surplus, Trades, Placed, Turned, Grows;
    var side, c, z := t.side, y.On(t.side), Turned(u, y, t);
    RegistryTurnOutcome(u, y, t);
    if z != y {
      StaysPlacedWhenBurnable(x, side, c, z.On(side), t);
      TokenPresent(x, side, c);
      GrowsRefl(c.bridge.journal);
      QuietTurn(u, x, y, z, side);
      LedgersStay(u, x, y, z);
    }
  }

  lemma TokenTurn(u: Setup, x: Asset, y: System, t: Turn)
    requires Sound(u, x, y) && t.TokenCall? && Allowed(u, x, y, t)
    ensures Sound(u, x, Turned(u, y, t)) && Surplus(u, x, Turned(u, y, t)) >= Surplus(u, x, y)
  {
    hide Reachable, Charged, VotesAnnounced, Under, Trades, AfterToken, Placed;
    var side, c, z := t.side, y.On(t.side), Turned(u, y, t);
    TokenPresent(x, side, c);
    StaysPlaced(x, side, c, z.On(side));
    if t.token == x.Token(side) {
      var l := c.tokens[t.token];
      if side.Home? { OwnCallsOnly(l, t.call, x.homeHandler); } else { SoleMinter(l, t.call, x.foreignHandler); }
    }
    GrowsRefl(c.bridge.journal);
    QuietTurn(u, x, y, z, side);
    LedgersMove(u, x, y, z);
  }

  // Every turn: the surplus falls by no more than the turn overpays.
  lemma TurnLaw(u: Setup, x: Asset, y: System, t: Turn)
    requires Sound(u, x, y) && Allowed(u, x, y, t)
    ensures Sound(u, x, Turned(u, y, t)) && Surplus(u, x, Turned(u, y, t)) >= Surplus(u, x, y) - Gap(u, x, y, t)
  {
    hide Sound, Allowed, Surplus, Given, Owed;
    match t
    case UserDeposit(_, _, _, _, _) => DepositTurn(u, x, y, t);
    case TokenCall(_, _, _) => TokenTurn(u, x, y, t);
    case BridgeCall(_, _) => BridgeTurn(u, x, y, t);
    case MapResourceTo(_, _, _, _) => MapTurn(u, x, y, t);
    case MakeBurnable(_, _, _) => BurnableTurn(u, x, y, t);
    case Relay(_, _) =>
      if Relays(t) {
        if Executes(u, y, t) { CallLaw(u, x, y, t); } else { QuietRelay(u, x, y, t); }
      }
  }

  // ----- runs -----

  ghost predicate AllAllowed(u: Setup, x: Asset, y: System, turns: seq<Turn>)
    decreases |turns|
  {
    turns == [] || (Allowed(u, x, y, turns[0]) && AllAllowed(u, x, Turned(u, y, turns[0]), turns[1..]))
  }

  // By how much all the turns of a run together overpay.
  ghost function TotalGap(u: Setup, x: Asset, y: System, turns: seq<Turn>): int
    decreases |turns|
  {
    if turns == [] then 0 else Gap(u, x, y, turns[0]) + TotalGap(u, x, Turned(u, y, turns[0]), turns[1..])
  }

  lemma {:induction false} PlayLaw(u: Setup, x: Asset, y: System, turns: seq<Turn>)
    requires Sound(u, x, y) && AllAllowed(u, x, y, turns)
    ensures Sound(u, x, Play(u, y, turns))
    ensures Surplus(u, x, Play(u, y, turns)) >= Surplus(u, x, y) - TotalGap(u, x, y, turns)
    decreases |turns|
  {
    hide Sound, Allowed, Surplus, Gap, Turned;
    if turns != [] {
      TurnLaw(u, x, y, turns[0]);
      PlayLaw(u, x, Turned(u, y, turns[0]), turns[1..]);
    }
  }

  lemma {:induction false} NothingInFlight(u: Setup, x: Asset, side: Side, j: Journal, b: State)
    requires forall e | Occurs(j, e) :: !e.Deposited?
    ensures InFlight(u, x, side, j, b) == 0
  {
    match j
    case Empty =>
    case Then(earlier, last) =>
      assert Occurs(j, last);
      assert forall e | Occurs(earlier, e) :: Occurs(j, e);
      NothingInFlight(u, x, side, earlier, b);
  }

  lemma ConnectedSound(u: Setup, x: Asset, y: System)
    requires Connected(u, x, y)
    ensures Sound(u, x, y) && Surplus(u, x, y) >= 0
  {
    hide Reachable, Placed, Guarded, Announced, ChargedData, Occurs, InFlight, Supply, Held;
    assert y.home == y.On(Home) && y.foreign == y.On(Foreign);
    NothingInFlight(u, x, Foreign, y.home.bridge.journal, y.foreign.bridge);
    NothingInFlight(u, x, Home, y.foreign.bridge.journal, y.home.bridge);
    Scaled(0, Held(x, y), x.homeUnit);
  }

  // Cover over every run: what is held at home, and whatever the executing calls overpaid
  // altogether, covers the foreign supply and all deposits in flight in both directions.
  lemma Covered(u: Setup, x: Asset, y: System, turns: seq<Turn>)
    requires Connected(u, x, y) && AllAllowed(u, x, y, turns)
    ensures var z := Play(u, y, turns);
            Held(x, z) * x.homeUnit + TotalGap(u, x, y, turns) >=
              Supply(x, z) * x.foreignUnit + InFlight(u, x, Foreign, z.home.bridge.journal, z.foreign.bridge)
              + InFlight(u, x, Home, z.foreign.bridge.journal, z.home.bridge)
  {
    hide Connected, Sound, AllAllowed, TotalGap, Play, Held, Supply, InFlight;
    ConnectedSound(u, x, y);
    PlayLaw(u, x, y, turns);
  }
}
