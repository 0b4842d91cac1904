// What relayers have to do for the backing to hold. An executing call conforms if it answers a
// deposit of its own resource, or its resource alone was ever mapped to its handler, and if it
// pays no more under its destination than under the deposit's own.
module Conduct {
  import opened Words
  import opened Arithmetic
  import opened Bytes
  import opened Payload
  import opened Ledger
  import opened Protocol
  import opened History
  import opened Theorems
  import Terms
  import opened Outcomes
  import opened Chains
  import opened Backing
  import opened Relay
  import opened H = Erc20Handler

  // The call and the deposit it answers do not collide in the hash of their proposals, under
  // any handler the deposit's resource was ever mapped to.
  ghost predicate NoClash(u: Setup, side: Side, j: Journal, e: Event, call: Event)
    requires IsFor(u, side, e) && call.Called?
  {
    forall handler | Sourced(j, e.resourceID, handler) ::
      SameHashOnly(u.h, AddressBytes(handler) + RelayedData(u, side, e), AddressBytes(call.handler) + call.data)
  }

  predicate SameHashOnly(h: Digest, p: Bytes, q: Bytes) {
    h(p) == h(q) ==> p == q
  }

  ghost predicate Clean(u: Setup, x: Asset, y: System, t: Turn) {
    Executes(u, y, t) && t.action.resourceID == x.resource ==>
      forall e | Answers(u, y, t, e) :: NoClash(u, t.side, y.On(t.side).bridge.journal, e, CallIn(u, y, t))
  }

  ghost predicate Conforms(u: Setup, x: Asset, y: System, t: Turn) {
    && Clean(u, x, y, t)
    && (Executes(u, y, t) && t.action.resourceID == x.resource ==>
          && (forall e | Answers(u, y, t, e) ::
                e.resourceID == x.resource || Terms.SoleResource(y.On(t.side).bridge.journal, x.Handler(t.side)))
          && Net(FeesFor(u, x, t.side, t.action.destinationDomainID), t.action.data)
               <= Net(FeesFor(u, x, t.side, u.On(t.side).id), t.action.data))
  }

  lemma {:induction false} TakenAtLeast(u: Setup, x: Asset, side: Side, j: Journal, e: Event)
    requires Occurs(j, e) && Concerns(u, x, side, e)
    ensures TakenUnder(u, x, side, j, e.nonce) >= TakenIn(u, x, side, e)
  {
    hide TakenIn, Concerns;
    if j.event != e {
      TakenAtLeast(u, x, side, j.earlier, e);
    }
  }

  // A conforming call carries the relayed data of a deposit of its own resource.
  lemma ConformingCall(u: Setup, x: Asset, y: System, t: Turn) returns (e: Event)
    requires Sound(u, x, y) && Relays(t) && Allowed(u, x, y, t) && Executes(u, y, t)
             && t.action.resourceID == x.resource
    requires Conforms(u, x, y, t)
    ensures Answers(u, y, t, e) && e.resourceID == x.resource && t.action.data == RelayedData(u, t.side, e)
  {
    var handler;
    e, handler := AnsweredByCall(u, x, y, t);
    hide Reachable, HandlerPays, RelayedData, Relayable, BridgeAfter, After, Executes, Charged, Guarded, VotesAnnounced,
         Allowed;
    var b, call := y.On(t.side).bridge, CallIn(u, y, t);
    PlacedHandler(x, t.side, y.On(t.side));
    assert SameHashOnly(u.h, AddressBytes(handler) + RelayedData(u, t.side, e), AddressBytes(call.handler) + call.data);
    PackedInjective(handler, RelayedData(u, t.side, e), call.handler, call.data);
    MappingOnRecord(u.h, b, x.resource);
  }

  // The deposit an executing call answers, and the handler its votes spoke for.
  lemma AnsweredByCall(u: Setup, x: Asset, y: System, t: Turn) returns (e: Event, handler: Address)
    requires Sound(u, x, y) && Relays(t) && Allowed(u, x, y, t) && Executes(u, y, t)
    ensures Answers(u, y, t, e) && Sourced(y.On(t.side).bridge.journal, e.resourceID, handler)
    ensures CallIn(u, y, t).key == KeyWith(u, t.side, handler, e)
  {
    hide Reachable, Charged, HandlerPays, VotesAnnounced, Placed, Guarded, Turned, After, Trades, KeyWith, Allowed,
         OneExecuted;
    var side, b, b', o := t.side, y.On(t.side).bridge, BridgeAfter(u, y, t), y.On(Other(t.side)).bridge;
    var call := CallIn(u, y, t);
    ExecutedOutcome(u, y, t);
    RelayVotes(u, x, y, t);
    StillReachable(u, x, y, t);
    ExecutedNow(b, b', call.key);
    DestNonceParts(t.action.domainID, t.action.depositNonce);
    e, handler := AnsweredDeposit(u, x, side, b', o, call.key, t.action.depositNonce);
    DestNonceParts(u.On(Other(side)).id, t.action.depositNonce);
    NothingMapped(u, y, t);
  }

  lemma NothingMapped(u: Setup, y: System, t: Turn)
    requires Relays(t)
    ensures forall e | Occurs(BridgeAfter(u, y, t).journal, e) && e.ResourceSet? ::
              Occurs(y.On(t.side).bridge.journal, e)
  {
    hide After, Trades, CallOf, RelayAction, SameExecuted, OneExecuted;
    RelayOutcome(u.h, y.On(t.side).bridge, RelayAction(u, y.On(t.side), t));
  }

  // Reading an amount back from relayed data.
  lemma RelayedAmount(u: Setup, side: Side, e: Event)
    requires IsFor(u, side, e) && u.rescale(side, e.resourceID, FromBytes(e.data[..32])) < TWO_256
    ensures var data := RelayedData(u, side, e);
            |data| >= 32 && FromBytes(data[..32]) == u.rescale(side, e.resourceID, FromBytes(e.data[..32]))
  {
    hide FromBytes, LeftPad, MinimalBytes;
    var amount := u.rescale(side, e.resourceID, FromBytes(e.data[..32]));
    PaddedWord(amount);
    assert RelayedData(u, side, e)[..32] == LeftPad(MinimalBytes(amount), 32);
  }

  // What a conforming call gives, against what its deposit took in, for given worths.
  lemma GivenAndOwed(u: Setup, x: Asset, y: System, t: Turn, e: Event)
    requires Relays(t) && Answers(u, y, t, e) && e.resourceID == x.resource
    requires Net(FeesFor(u, x, t.side, t.action.destinationDomainID), t.action.data)
             <= Net(FeesFor(u, x, t.side, u.On(t.side).id), t.action.data)
    ensures Given(u, x, t) <= Worth(u, x, t.side, u.On(t.side).id, t.action.data)
    ensures Owed(u, x, y, t) >= TakenIn(u, x, t.side, e)
  {
    hide Net, FeesFor, ReleasesTo, Relayable;
    Scaled(Net(FeesFor(u, x, t.side, t.action.destinationDomainID), t.action.data),
           Net(FeesFor(u, x, t.side, u.On(t.side).id), t.action.data), x.Unit(t.side));
    TakenAtLeast(u, x, t.side, y.On(Other(t.side)).bridge.journal, e);
  }

  // ----- equal decimals -----

  // The same fees on both chains for the two destinations, and amounts relayed as they are.
  ghost predicate Mirrored(u: Setup, x: Asset) {
    && x.homeUnit == x.foreignUnit == 1
    && (forall side :: FeesFor(u, x, Home, u.On(side).id) == FeesFor(u, x, Foreign, u.On(side).id))
    && (forall side, n :: u.rescale(side, x.resource, n) == n)
  }

  // Paying out a deposit under its own destination pays exactly what it took in.
  lemma SamePayout(u: Setup, x: Asset, side: Side, e: Event)
    requires Mirrored(u, x) && IsFor(u, side, e) && e.resourceID == x.resource
    ensures Worth(u, x, side, u.On(side).id, RelayedData(u, side, e)) == TakenIn(u, x, side, e)
  {
    hide RelayedData, NetOf, FromBytes;
    WordFits(e.data[..32]);
    assert u.rescale(side, x.resource, FromBytes(e.data[..32])) == FromBytes(e.data[..32]);
    RelayedAmount(u, side, e);
  }

  lemma PaysBack(u: Setup, x: Asset, y: System, t: Turn)
    requires Sound(u, x, y) && Allowed(u, x, y, t) && Mirrored(u, x) && Conforms(u, x, y, t)
    ensures Gap(u, x, y, t) <= 0
  {
    hide Sound, Allowed, Mirrored, RelayedData, Worth, TakenIn, HandlerPays, After;
    if Executes(u, y, t) && t.action.resourceID == x.resource {
      var e := ConformingCall(u, x, y, t);
      SamePayout(u, x, t.side, e);
      GivenAndOwed(u, x, y, t, e);
    }
  }

  // Every turn is allowed, and every executing call conforms.
  ghost predicate Conforming(u: Setup, x: Asset, y: System, turns: seq<Turn>)
    decreases |turns|
  {
    turns == [] ||
    (Allowed(u, x, y, turns[0]) && Conforms(u, x, y, turns[0]) && Conforming(u, x, Turned(u, y, turns[0]), turns[1..]))
  }

  lemma {:induction false} ConformingPaysBack(u: Setup, x: Asset, y: System, turns: seq<Turn>)
    requires Sound(u, x, y) && Mirrored(u, x) && Conforming(u, x, y, turns)
    ensures AllAllowed(u, x, y, turns) && TotalGap(u, x, y, turns) <= 0
    decreases |turns|
  {
    hide Sound, Mirrored, Allowed, Conforms, Gap, Turned, Surplus;
    if turns != [] {
      PaysBack(u, x, y, turns[0]);
      TurnLaw(u, x, y, turns[0]);
      ConformingPaysBack(u, x, Turned(u, y, turns[0]), turns[1..]);
    }
  }

  // Backing: over every run whose executing calls conform, the home handler's balance covers
  // the foreign supply and the net amount of every deposit in flight, in both directions.
  lemma Backed(u: Setup, x: Asset, y: System, turns: seq<Turn>)
    requires Connected(u, x, y) && Mirrored(u, x) && Conforming(u, x, y, turns)
    ensures var z := Play(u, y, turns);
            Held(x, z) >= Supply(x, z) + InFlight(u, x, Foreign, z.home.bridge.journal, z.foreign.bridge)
                          + InFlight(u, x, Home, z.foreign.bridge.journal, z.home.bridge)
  {
    assert x.homeUnit == 1 && x.foreignUnit == 1;
    hide Connected, Mirrored, Conforming, AllAllowed, TotalGap, Play, InFlight, Sound, Surplus, Held, Supply;
    ConnectedSound(u, x, y);
    ConformingPaysBack(u, x, y, turns);
    Covered(u, x, y, turns);
  }

  // ----- seclusion -----

  ghost predicate Honest(u: Setup, x: Asset, y: System, turns: seq<Turn>)
    decreases |turns|
  {
    turns == [] ||
    (Allowed(u, x, y, turns[0]) && Clean(u, x, y, turns[0]) && Honest(u, x, Turned(u, y, turns[0]), turns[1..]))
  }

  // The fee of the asset is the same for every destination.
  ghost predicate FlatFees(u: Setup, x: Asset) {
    forall side, d, d' :: FeesFor(u, x, side, d) == FeesFor(u, x, side, d')
  }

  // On either side no other resource was ever mapped to the asset's handler.
  ghost predicate Secluded(x: Asset, y: System) {
    && Terms.SoleResource(y.home.bridge.journal, x.homeHandler)
    && Terms.SoleResource(y.foreign.bridge.journal, x.foreignHandler)
  }

  ghost predicate BothGrow(y: System, z: System) {
    Grows(y.home.bridge.journal, z.home.bridge.journal) && Grows(y.foreign.bridge.journal, z.foreign.bridge.journal)
  }

  // Histories only grow.
  lemma TurnGrows(u: Setup, x: Asset, y: System, t: Turn)
    requires Sound(u, x, y) && Allowed(u, x, y, t)
    ensures BothGrow(y, Turned(u, y, t))
  {
    var b, z := y.On(t.side).bridge, Turned(u, y, t);
    OneSideOnly(u, y, t);
    GrowsRefl(y.On(Other(t.side)).bridge.journal);
    assert Grows(b.journal, z.On(t.side).bridge.journal) by {
      GrowsRefl(b.journal);
      hide HandlerTakes, HandlerPays, After, AfterToken, Sound, Grows, BridgeAfter, Executes;
      match t
      case UserDeposit(_, _, _, _, _) =>
        DepositTurnOutcome(u, y, t);
        if z != y {
          DepositGrows(b.journal, z.On(t.side).bridge.journal.event);
        }
      case Relay(_, _) => if Relays(t) { RelayVotes(u, x, y, t); }
      case TokenCall(_, _, _) =>
      case BridgeCall(_, a) => AdminGrows(u.h, b, a);
      case MapResourceTo(_, _, _, _) => MappingOutcome(u.h, b, t);
      case MakeBurnable(_, _, _) =>
    }
  }

  lemma AdminGrows(h: Digest, s: State, a: Action)
    requires !a.Vote? && !a.Execute? && !a.Deposit? && !a.SetResource?
    ensures Grows(s.journal, After(h, s, a).journal)
  {
    hide After;
    AdminOutcome(h, s, a);
  }

  lemma OneSideOnly(u: Setup, y: System, t: Turn)
    ensures Turned(u, y, t).On(Other(t.side)) == y.On(Other(t.side))
  {
    hide HandlerTakes, HandlerPays, After, Step, AfterToken, CallOf, RelayAction;
  }

  // What is secluded at the end was secluded all along, and then every call conforms.
  lemma {:induction false} SecludedConforms(u: Setup, x: Asset, y: System, turns: seq<Turn>)
    requires Sound(u, x, y) && FlatFees(u, x) && Honest(u, x, y, turns) && Secluded(x, Play(u, y, turns))
    ensures Conforming(u, x, y, turns) && BothGrow(y, Play(u, y, turns))
    decreases |turns|
  {
    hide Sound, FlatFees, Allowed, Turned, Secluded, Conforms, Clean, Surplus, BothGrow;
    if turns == [] {
      BothGrowRefl(y);
    } else {
      var z := Turned(u, y, turns[0]);
      TurnLaw(u, x, y, turns[0]);
      TurnGrows(u, x, y, turns[0]);
      SecludedConforms(u, x, z, turns[1..]);
      BothGrowThen(y, z, Play(u, y, turns));
      SecludedBefore(x, y, Play(u, y, turns));
      SecludedTurn(u, x, y, turns[0]);
    }
  }

  lemma BothGrowRefl(y: System)
    ensures BothGrow(y, y)
  {}

  lemma BothGrowThen(y: System, z: System, w: System)
    requires BothGrow(y, z) && BothGrow(z, w)
    ensures BothGrow(y, w)
  {}

  lemma SecludedBefore(x: Asset, y: System, z: System)
    requires BothGrow(y, z) && Secluded(x, z)
    ensures Secluded(x, y)
  {}

  lemma SecludedTurn(u: Setup, x: Asset, y: System, t: Turn)
    requires FlatFees(u, x) && Secluded(x, y) && Clean(u, x, y, t)
    ensures Conforms(u, x, y, t)
  {
    assert Terms.SoleResource(y.On(t.side).bridge.journal, x.Handler(t.side));
    if Relays(t) {
      assert FeesFor(u, x, t.side, t.action.destinationDomainID) == FeesFor(u, x, t.side, u.On(t.side).id);
    }
    hide Answers, NoClash, Terms.SoleResource, Clean, Net, FeesFor, CallIn, BridgeAfter;
  }

  // Backing without trusting who executes: for a resource that has its handlers to itself
  // throughout and fees that do not depend on the destination, honest votes are enough.
  lemma BackedBySeclusion(u: Setup, x: Asset, y: System, turns: seq<Turn>)
    requires Connected(u, x, y) && Mirrored(u, x) && FlatFees(u, x) && Honest(u, x, y, turns)
    requires Secluded(x, Play(u, y, turns))
    ensures var z := Play(u, y, turns);
            Held(x, z) >= Supply(x, z) + InFlight(u, x, Foreign, z.home.bridge.journal, z.foreign.bridge)
                          + InFlight(u, x, Home, z.foreign.bridge.journal, z.home.bridge)
  {
    hide Connected, Mirrored, FlatFees, Honest, Secluded, Conforming, Play, InFlight, Held, Supply, Sound, Surplus,
         BothGrow;
    ConnectedSound(u, x, y);
    SecludedConforms(u, x, y, turns);
    Backed(u, x, y, turns);
  }

  // ----- redeemability -----

  lemma {:induction false} FlightAtLeast(u: Setup, x: Asset, side: Side, j: Journal, b: State, e: Event)
    requires Occurs(j, e) && Concerns(u, x, side, e) && !Delivered(u, x, side, b, e)
    ensures InFlight(u, x, side, j, b) >= TakenIn(u, x, side, e)
  {
    hide TakenIn, Delivered, Concerns;
    if j.event != e {
      FlightAtLeast(u, x, side, j.earlier, b, e);
    }
  }

  // As long as the asset is covered, the home handler can pay out every deposit in flight
  // towards home on its own terms: nothing but a pause of the token or a recipient that cannot
  // receive stands in the way.
  lemma Redeemable(u: Setup, x: Asset, y: System, e: Event)
    requires Sound(u, x, y) && Surplus(u, x, y) >= 0 && Mirrored(u, x) && Balanced(LedgerOf(y.home, x.homeToken))
    requires Occurs(y.foreign.bridge.journal, e) && Concerns(u, x, Home, e) && IsFor(u, Home, e)
    requires !Delivered(u, x, Home, y.home.bridge, e)
    ensures HandlerPays(u, Home, y.home, u.home.id, x.resource, RelayedData(u, Home, e)).Ok? <==>
              && !LedgerOf(y.home, x.homeToken).paused
              && RecipientAddress(DepositFields(e.data).1) != ZERO_ADDRESS
  {
    var data, c, l := RelayedData(u, Home, e), y.home, LedgerOf(y.home, x.homeToken);
    var net := Net(FeesFor(u, x, Home, u.home.id), data);
    RelayedFields(u, x, e);
    HomeFeeExists(u, x, y, e);
    EnoughHeld(u, x, y, e);
    assert NetOf(FeesFor(u, x, Home, u.home.id), FromBytes(data[..32])).Ok? by { hide Sound, RelayedData, Surplus; }
    hide Sound, Surplus, Mirrored, Concerns, Delivered, IsFor, RelayedData, FromBytes, RecipientAddress, DepositFields,
         ProposalFields, PayOut, Balanced, NetOf, HandlerPays;
    HandlerPaysNet(u, x, c, data);
    PayOutSucceeds(l, HandlerOn(u, Home, c, x.resource), false, ProposalFields(data).value.1, net);
  }

  lemma EnoughHeld(u: Setup, x: Asset, y: System, e: Event)
    requires Sound(u, x, y) && Surplus(u, x, y) >= 0 && Mirrored(u, x)
    requires Occurs(y.foreign.bridge.journal, e) && Concerns(u, x, Home, e) && IsFor(u, Home, e)
    requires !Delivered(u, x, Home, y.home.bridge, e)
    ensures Held(x, y) >= Net(FeesFor(u, x, Home, u.home.id), RelayedData(u, Home, e))
  {
    hide Sound, RelayedData, InFlight, KeyOf, Delivered, Net, FeesFor, TakenIn, Held, Supply, IsFor;
    FlightAtLeast(u, x, Home, y.foreign.bridge.journal, y.home.bridge, e);
    SamePayout(u, x, Home, e);
  }

  // The fee that was calculated for the deposit exists for the payout as well.
  lemma HomeFeeExists(u: Setup, x: Asset, y: System, e: Event)
    requires Sound(u, x, y) && Mirrored(u, x)
    requires Occurs(y.foreign.bridge.journal, e) && Concerns(u, x, Home, e)
    ensures Placed(x, Home, y.home) && ChargedData(FeesFor(u, x, Home, u.home.id), e.data)
  {
    hide Reachable, VotesAnnounced, Placed, Guarded, ChargedData, FeesFor;
    assert Charged(u, x, Foreign, y.foreign.bridge.journal) && u.On(Home) == u.home;
  }

  // The home handler pays if and only if its token does.
  lemma HandlerPaysNet(u: Setup, x: Asset, c: Chain, data: Bytes)
    requires Placed(x, Home, c) && ProposalFields(data) != None && |data| >= 32
    requires ProposalFields(data).value.0 == FromBytes(data[..32]) < TWO_256
    requires NetOf(FeesFor(u, x, Home, u.home.id), FromBytes(data[..32])).Ok?
    ensures HandlerPays(u, Home, c, u.home.id, x.resource, data).Ok? <==>
            PayOut(LedgerOf(c, x.homeToken), HandlerOn(u, Home, c, x.resource), false,
                   ProposalFields(data).value.1, Net(FeesFor(u, x, Home, u.home.id), data)).Ok?
  {
    hide FromBytes, ProposalFields, PayOut, NetOf;
  }

  // What the home handler reads from the relayed data of a charged deposit.
  lemma RelayedFields(u: Setup, x: Asset, e: Event)
    requires Mirrored(u, x) && IsFor(u, Home, e) && e.resourceID == x.resource
    ensures var data := RelayedData(u, Home, e);
            && ProposalFields(data) == Some((FromBytes(e.data[..32]), RecipientAddress(DepositFields(e.data).1)))
            && |data| >= 32 && FromBytes(data[..32]) == FromBytes(e.data[..32]) < TWO_256
  {
    hide ProposalData, ProposalFields, RecipientAddress, FromBytes;
    var (amount, recipient) := DepositFields(e.data);
    WordFits(e.data[..32]);
    WordFits(e.data[32..64]);
    assert u.rescale(Home, x.resource, amount) == amount;
    ProposalRoundTrip(amount, recipient);
    RelayedAmount(u, Home, e);
  }
}
