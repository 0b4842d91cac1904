// Why executing calls have to conform: three runs in which every vote is for an announced deposit
// and one relayer below the threshold executes under other terms: under another destination,
// under another resource of the same handler, and under a resource that by then has the handler
// to itself because the deposit's own was mapped elsewhere. None leaves the asset covered.
module Shortfall {
  import opened Words
  import opened Arithmetic
  import opened Bits
  import opened Bytes
  import opened Payload
  import opened Ledger
  import opened AddressSets
  import opened Protocol
  import opened History
  import opened Theorems
  import opened Voting
  import opened Witnesses
  import opened Outcomes
  import opened Chains
  import opened Backing
  import opened Conduct
  import opened H = Erc20Handler

  // Relayers 1 and 2, user 3, recipient 4, treasury 5, bridge 6 and handler 50 on both chains;
  // resources 7 and 8 with tokens 61 and 62 at home, 71 and 72 abroad.
  const FREE := Fees(0, 0, TWO_256 - 1, 1, 0)
  const TOLL := Fees(2, 0, TWO_256 - 1, 1, 0)
  const AT := Deployment(50, 6, 5)

  function Scene(h: Digest, toForeign: Fees): Setup {
    Setup(h, Domain(1, 6, 5, (_, d: uint8) => if d == 2 then toForeign else FREE),
          Domain(2, 6, 5, (_, d: uint8) => if d == 2 then toForeign else FREE),
          (_, _, n) => n)
  }

  // The asset in danger.
  const SEVEN := Asset(7, 50, 50, 61, 71, 1, 1)

  // A token of which the user owns 5, all of it allowed to the handler, and one nobody owns.
  function Owned(minters: set<Address>): Ledger {
    Ledger(map[3 := 5], map[(3, 50) := 5], 5, false, minters, {})
  }

  function Empty(minters: set<Address>): Ledger {
    Ledger(map[], map[], 0, false, minters, {})
  }

  const AT_HOME := map[50 := Registry(map[7 := 61, 8 := 62], map[61 := 7, 62 := 8], {61, 62}, {})]
  const ABROAD := map[50 := Registry(map[7 := 71, 8 := 72], map[71 := 7, 72 := 8], {71, 72}, {71, 72})]

  function Start(b: State): System {
    System(Chain(b, AT_HOME, map[61 := Owned({}), 62 := Empty({})]),
           Chain(b, ABROAD, map[71 := Empty({50}), 72 := Owned({50})]))
  }

  lemma OwnedBalanced(minters: set<Address>)
    ensures Balanced(Owned(minters)) && Balanced(Empty(minters))
  {
    assert Sum(map[]) == 0;
    SumUpdate(map[], 3, 5);
    assert map[][3 := 5] == map[3 := 5];
  }

  lemma StartConnected(h: Digest, toForeign: Fees, b: State)
    requires Fresh(h, b, [1, 2], 2, {7, 8}, 50)
    ensures Connected(Scene(h, toForeign), SEVEN, Start(b)) && Mirrored(Scene(h, toForeign), SEVEN)
  {
    FreshPlaced(h, b);
    NoneVotedNorDeposited(h, b);
    hide Fresh, Reachable, Occurs, Placed, AddressSet.Valid;
  }

  lemma FreshPlaced(h: Digest, b: State)
    requires Fresh(h, b, [1, 2], 2, {7, 8}, 50)
    ensures Placed(SEVEN, Home, Start(b).home) && Placed(SEVEN, Foreign, Start(b).foreign)
  {
    hide Reachable, Occurs, AddressSet.Valid;
    assert b.HandlerOf(7) == 50;
    forall r: ResourceID | r != 7 ensures Start(b).home.TokenOf(r) != 61 && Start(b).foreign.TokenOf(r) != 71 {
      assert b.HandlerOf(r) == if r == 8 then 50 else 0;
    }
  }

  lemma NoneVotedNorDeposited(h: Digest, b: State)
    requires Fresh(h, b, [1, 2], 2, {7, 8}, 50)
    ensures Reachable(h, b) && (forall v | Occurs(b.journal, v) :: !v.Voted? && !v.Deposited?)
  {
    hide Reachable, Occurs;
  }

  // Data for an amount of 5 to recipient 4, which the relayer hands on unchanged.
  function Five(): Bytes {
    ProposalData(5, ToBytes(4, 20))
  }

  lemma FiveParses()
    ensures Relayable(Five()) && DepositFields(Five()) == (5, ToBytes(4, 20)) && FromBytes(Five()[..32]) == 5
    ensures ProposalFields(Five()) == Some((5, 4))
  {
    hide ProposalData, FromBytes, ToBytes;
    var rec := ToBytes(4, 20);
    DataRoundTrip(5, rec, []);
    assert Five() + [] == Five();
    LongRecipientsAreCut(rec);
    assert rec[..20] == rec;
    WordWidths();
    FromToBytes(4, 20);
  }

  lemma NetOfFive()
    ensures NetOf(FREE, 5) == Ok(5) && NetOf(TOLL, 5) == Ok(3)
    ensures CalculateFee(FREE, 5) == Ok(0) && CalculateFee(TOLL, 5) == Ok(2)
  {
    QuotientBounds(0, 1);
  }

  lemma NetFive()
    ensures Net(FREE, Five()) == 5 && Net(TOLL, Five()) == 3
  {
    hide ProposalData, FromBytes, NetOf;
    FiveParses();
    NetOfFive();
  }

  // ----- single turns -----

  lemma TakesFive(minters: set<Address>, burns: bool, net: uint256)
    requires net <= 5
    ensures var r := TakeIn(Owned(minters), AT, burns, 3, 5 - net, net);
            r.Ok? && Balanced(r.value) && !r.value.paused && (!burns ==> r.value.Balance(50) == net)
  {
    hide TakeIn;
    OwnedBalanced(minters);
    TakeInSucceeds(Owned(minters), AT, burns, 3, 5 - net, net);
    TakeInConserves(Owned(minters), AT, burns, 3, 5 - net, net);
  }

  // A user's deposit of 5 of a token the user owns, on the scene.
  ghost predicate CanDeposit(u: Setup, c: Chain, side: Side, r: ResourceID, destination: uint8) {
    var token := c.TokenOf(r);
    && u.On(side).fees(token, destination) in {FREE, TOLL} && HandlerOn(u, side, c, r) == AT
    && token in c.RegistryAt(50).whitelist && token in c.tokens && c.tokens[token] == Owned(c.tokens[token].minters)
  }

  lemma HandlerTakesFive(u: Setup, c: Chain, side: Side, r: ResourceID, destination: uint8)
    requires CanDeposit(u, c, side, r, destination)
    ensures var taken, token := HandlerTakes(u, side, c, 3, destination, r, Five()), c.TokenOf(r);
            && taken.Ok? && taken.value == c.tokens[token := taken.value[token]] && token in taken.value
            && var l := taken.value[token];
            token !in c.RegistryAt(50).burnList ==>
              l.Balance(50) == Net(u.On(side).fees(c.TokenOf(r), destination), Five()) && Balanced(l) && !l.paused
  {
    hide ProposalData, FromBytes, NetOf, CalculateFee, TakeIn;
    FiveParses();
    NetOfFive();
    NetFive();
    var net := Net(u.On(side).fees(c.TokenOf(r), destination), Five());
    TakesFive(c.tokens[c.TokenOf(r)].minters, c.TokenOf(r) in c.RegistryAt(50).burnList, net);
  }

  lemma DepositOfFive(u: Setup, y: System, t: Turn) returns (e: Event)
    requires t.UserDeposit? && t.sender == 3 && t.data == Five()
    requires CanDeposit(u, y.On(t.side), t.side, t.resource, t.destination)
    requires !y.On(t.side).bridge.paused && y.On(t.side).bridge.depositCounts == map[]
    ensures e == Deposited(t.destination, 1, t.resource, 3, Five())
    ensures var c, z := y.On(t.side), Turned(u, y, t).On(t.side);
            && z.bridge == c.bridge.(depositCounts := map[t.destination := 1], journal := Then(c.bridge.journal, e))
            && z.registries == c.registries
            && Ok(z.tokens) == HandlerTakes(u, t.side, c, 3, t.destination, t.resource, Five())
            && Turned(u, y, t).On(Other(t.side)) == y.On(Other(t.side))
  {
    hide HandlerTakes, Five, AddressSet.Valid;
    var c := y.On(t.side);
    HandlerTakesFive(u, c, t.side, t.resource, t.destination);
    e := Deposited(t.destination, 1, t.resource, 3, Five());
    EmptyRun(u.h, c.bridge.(depositCounts := map[t.destination := 1]));
    assert Step(u.h, c.bridge, DepositAction(u, c, t)) == Protocol.DepositStep(u.h, c.bridge, DepositAction(u, c, t));
  }

  // A payout of 5 under fees that take nothing: what it needs, and what it does.
  lemma HandlerPaysFive(u: Setup, c: Chain, side: Side, r: ResourceID, destination: uint8)
    requires u.On(side).fees(c.TokenOf(r), destination) == FREE && HandlerOn(u, side, c, r) == AT
    requires var token := c.TokenOf(r);
             token in c.RegistryAt(50).whitelist && token in c.tokens && Balanced(c.tokens[token])
               && !c.tokens[token].paused
    ensures var paid, token := HandlerPays(u, side, c, destination, r, Five()), c.TokenOf(r);
            var l := c.tokens[token];
            && (paid.Ok? <==>
                  if token in c.RegistryAt(50).burnList then 50 in l.minters && l.totalSupply + 5 < TWO_256
                  else l.Balance(50) >= 5)
            && (paid.Ok? ==>
                  && paid.value == c.tokens[token := paid.value[token]] && token in paid.value
                  && if token in c.RegistryAt(50).burnList then paid.value[token].totalSupply == l.totalSupply + 5
                     else paid.value[token].Balance(50) == l.Balance(50) - 5)
  {
    hide ProposalData, FromBytes, NetOf, CalculateFee, PayOut, ProposalFields;
    FiveParses();
    NetOfFive();
    var token := c.TokenOf(r);
    var burns := token in c.RegistryAt(50).burnList;
    PayOutSucceeds(c.tokens[token], AT, burns, 4, 5);
    if PayOut(c.tokens[token], AT, burns, 4, 5).Ok? {
      PayOutConserves(c.tokens[token], AT, burns, 4, 5);
    }
  }

  // The proposal of a deposit of 5 on the scene.
  lemma KeyOfFive(h: Digest, toForeign: Fees, side: Side, e: Event)
    requires e.Deposited?
    requires e == Deposited(if side.Home? then 1 else 2, 1, e.resourceID, 3, Five())
    ensures var u := Scene(h, toForeign);
            && IsFor(u, side, e) && RelayedData(u, side, e) == Five()
            && KeyWith(u, side, 50, e) == ProposalKey(h, if side.Home? then 2 else 1, 1, 50, Five())
  {
    hide ProposalData, FromBytes, DepositFields;
    FiveParses();
  }

  // Nothing is forgotten, and new votes carry one of the given terms.
  ghost predicate NewVotes(j: Journal, later: Journal, terms: set<(ResourceID, uint8)>) {
    && Grows(j, later)
    && (forall v | Occurs(later, v) && v.Voted? :: Occurs(j, v) || (v.resourceID, v.destinationDomainID) in terms)
  }

  // A vote of relayer 1 for a deposit of 5: counted, nothing else.
  lemma HonestVote(u: Setup, y: System, t: Turn)
    requires Relays(t) && t.action.Vote? && t.action.block == 10 && t.action.sender == 1
    requires var b := y.On(t.side).bridge;
             && b.relayers.values == [1, 2] && b.threshold == 2 && !b.paused && b.proposals == map[]
             && b.HandlerOf(t.action.resourceID) == 50
    ensures var c, z, a := y.On(t.side), Turned(u, y, t).On(t.side), RelayAction(u, y.On(t.side), t);
            && c.bridge.relayers.Contains(1) && z.tokens == c.tokens && z.registries == c.registries
            && z.bridge == Counted(u.h, c.bridge, a)
            && z.bridge == c.bridge.(proposals := z.bridge.proposals, journal := z.bridge.journal)
            && z.bridge.Record(KeyOfVote(u.h, c.bridge, a)) == Proposal(Active, Or(0, VoteBit(1)), 1, 10)
            && NewVotes(c.bridge.journal, z.bridge.journal, {(a.resourceID, a.destinationDomainID)})
            && Turned(u, y, t).On(Other(t.side)) == y.On(Other(t.side))
  {
    hide HandlerPays, AddressSet.Valid, Or;
    var c := y.On(t.side);
    PositionOf(c.bridge.relayers, 0);
    OpenVote(u.h, c.bridge, RelayAction(u, c, t));
    CountedJournal(u.h, c.bridge, RelayAction(u, c, t));
  }

  // A vote of relayer 2 on top of it: passed, and executed if the handler can pay.
  lemma PassingTurn(u: Setup, y: System, t: Turn)
    requires Relays(t) && t.action.Vote? && t.action.block == 11 && t.action.sender == 2
    requires var b := y.On(t.side).bridge;
             && b.relayers.values == [1, 2] && b.threshold == 2 && !b.paused && b.expiry == 100
             && b.HandlerOf(t.action.resourceID) == 50
             && b.Record(CallIn(u, y, t).key) == Proposal(Active, Or(0, VoteBit(1)), 1, 10)
    ensures var c, z, a := y.On(t.side), Turned(u, y, t).On(t.side), t.action;
            var paid := HandlerPays(u, t.side, c, a.destinationDomainID, a.resourceID, a.data);
            && z.tokens == (if paid.Ok? then paid.value else c.tokens) && z.registries == c.registries
            && (paid.Ok? ==> Occurs(z.bridge.journal,
                                    Called(CallIn(u, y, t).key, 2, a.destinationDomainID, a.resourceID, 50, a.data)))
            && z.bridge == c.bridge.(proposals := z.bridge.proposals, journal := z.bridge.journal)
            && z.bridge.Record(CallIn(u, y, t).key).status == (if paid.Ok? then Executed else Passed)
            && NewVotes(c.bridge.journal, z.bridge.journal, {(a.resourceID, a.destinationDomainID)})
            && Turned(u, y, t).On(Other(t.side)) == y.On(Other(t.side))
  {
    hide HandlerPays, AddressSet.Valid, Or, Counted;
    var c := y.On(t.side);
    PositionOf(c.bridge.relayers, 1);
    var a, k := RelayAction(u, c, t), CallIn(u, y, t).key;
    PassingVote(u.h, c.bridge, a, 1);
    CountedJournal(u.h, c.bridge, a);
    var j := Counted(u.h, c.bridge, a).journal;
    OneMoreVote(c.bridge.journal, j.event, PassedAt(k, 2), BridgeAfter(u, y, t).journal.event);
  }

  lemma OneMoreVote(j: Journal, vote: Event, passed: Event, last: Event)
    requires vote.Voted? && !passed.Voted? && !last.Voted?
    ensures NewVotes(j, Then(Then(Then(j, vote), passed), last), {(vote.resourceID, vote.destinationDomainID)})
  {
    var j1 := Then(j, vote);
    var j2 := Then(j1, passed);
    assert forall e :: Occurs(j2, e) <==> e == passed || Occurs(j1, e);
    assert forall e :: Occurs(Then(j2, last), e) <==> e == last || Occurs(j2, e);
  }

  lemma SamePayment(u: Setup, side: Side, c: Chain, d: Chain, destination: uint8, r: ResourceID, data: Bytes)
    requires c.tokens == d.tokens && c.bridge.HandlerOf(r) == d.bridge.HandlerOf(r)
    requires c.RegistryAt(c.bridge.HandlerOf(r)) == d.RegistryAt(c.bridge.HandlerOf(r))
    ensures HandlerPays(u, side, c, destination, r, data) == HandlerPays(u, side, d, destination, r, data)
  {
    hide H.ExecuteStep;
  }

  // The bridge of the scene, before any vote.
  ghost predicate Waiting(b: State) {
    && b.relayers.values == [1, 2] && b.threshold == 2 && b.expiry == 100 && !b.paused && b.proposals == map[]
    && (forall r :: b.HandlerOf(r) == if r in {7, 8} then 50 else ZERO_ADDRESS)
  }

  function DepositTo(side: Side, r: ResourceID): Event {
    Deposited(if side.Home? then 1 else 2, 1, r, 3, Five())
  }

  function VoteFor(side: Side, sender: Address, block: nat, destination: uint8, r: ResourceID): Turn {
    Relay(side, Vote(sender, block, destination, if side.Home? then 2 else 1, 1, r, Five(), DONE))
  }

  function KeyOn(h: Digest, side: Side): Key {
    ProposalKey(h, if side.Home? then 2 else 1, 1, 50, Five())
  }

  // Relayer 1 votes for a deposit under its own terms, relayer 2 passes it under terms of its choice.
  lemma TwoVotes(h: Digest, toForeign: Fees, y: System, side: Side, r: ResourceID, destination: uint8,
                 other: ResourceID)
    requires Waiting(y.On(side).bridge) && r in {7, 8} && other in {7, 8}
    requires Occurs(y.On(Other(side)).bridge.journal, DepositTo(side, r))
    ensures var u, own := Scene(h, toForeign), if side.Home? then 1 else 2;
            var t1, t2 := VoteFor(side, 1, 10, own, r), VoteFor(side, 2, 11, destination, other);
            var y1 := Turned(u, y, t1);
            var c, y2, k := y.On(side), Turned(u, y1, t2), KeyOn(h, side);
            var paid := HandlerPays(u, side, c, destination, other, Five());
            && Allowed(u, SEVEN, y, t1) && Allowed(u, SEVEN, y1, t2) && y2.On(Other(side)) == y.On(Other(side))
            && y2.On(side).tokens == (if paid.Ok? then paid.value else c.tokens)
            && y2.On(side).registries == c.registries
            && (paid.Ok? ==> Occurs(y2.On(side).bridge.journal, Called(k, 2, destination, other, 50, Five())))
            && y2.On(side).bridge == c.bridge.(proposals := y2.On(side).bridge.proposals,
                                               journal := y2.On(side).bridge.journal)
            && y2.On(side).bridge.Record(k).status == (if paid.Ok? then Executed else Passed)
            && NewVotes(c.bridge.journal, y2.On(side).bridge.journal, {(r, own), (other, destination)})
  {
    hide HandlerPays, Turned, Five, KeyWith, AddressSet.Valid, Counted, After, Or, Votes;
    var u, own := Scene(h, toForeign), if side.Home? then 1 else 2;
    var t1, t2, e := VoteFor(side, 1, 10, own, r), VoteFor(side, 2, 11, destination, other), DepositTo(side, r);
    var y1, c := Turned(u, y, t1), y.On(side);
    KeyOfFive(h, toForeign, side, e);
    HonestVote(u, y, t1);
    KeyOfFive(h, toForeign, side, e);
    SamePayment(u, side, c, y1.On(side), destination, other, Five());
    PassingTurn(u, y1, t2);
  }

  // Everything is set up and the user has deposited 5 of resource 7 at home.
  lemma DepositedHome(h: Digest, toForeign: Fees, b: State) returns (y: System)
    requires toForeign in {FREE, TOLL} && Fresh(h, b, [1, 2], 2, {7, 8}, 50)
    ensures var u, t := Scene(h, toForeign), UserDeposit(Home, 3, 2, 7, Five());
            && y == Turned(u, Start(b), t) && Allowed(u, SEVEN, Start(b), t)
    ensures Waiting(y.home.bridge) && Occurs(y.home.bridge.journal, DepositTo(Foreign, 7))
            && y.foreign == Start(b).foreign && y.home.registries == AT_HOME
    ensures y.home.bridge.handlers == b.handlers && y.home.tokens.Keys == {61, 62} && y.home.tokens[62] == Empty({})
    ensures var l := y.home.tokens[61];
            l.Balance(50) == Net(toForeign, Five()) && Balanced(l) && !l.paused
    ensures forall v | Occurs(y.home.bridge.journal, v) :: !v.Voted?
  {
    hide Reachable, Five, HandlerTakes, Turned, AddressSet.Valid, Net, Balanced;
    var u, t := Scene(h, toForeign), UserDeposit(Home, 3, 2, 7, Five());
    var e := DepositOfFive(u, Start(b), t);
    HandlerTakesFive(u, Start(b).home, Home, 7, 2);
    y := Turned(u, Start(b), t);
    assert forall r :: y.home.bridge.HandlerOf(r) == b.HandlerOf(r);
  }

  // ----- another destination -----

  // Relayer 2 passes the proposal of a deposit under destination 200, where the fee is lower:
  // 3 are held, 5 exist.
  lemma OtherDestination(h: Digest) returns (u: Setup, y: System, turns: seq<Turn>)
    ensures Connected(u, SEVEN, y) && Mirrored(u, SEVEN) && AllAllowed(u, SEVEN, y, turns)
    ensures var z := Play(u, y, turns);
            && Held(SEVEN, z) == 3 && Supply(SEVEN, z) == 5
            && Occurs(z.foreign.bridge.journal, Called(KeyOn(h, Foreign), 2, 200, 7, 50, Five()))
  {
    hide Connected, Mirrored, Five, HandlerPays, Turned, Balanced, AddressSet.Valid, Net, Allowed, Fresh;
    var b := TwoResources(h, [1, 2], 50);
    u, y := Scene(h, TOLL), Start(b);
    StartConnected(h, TOLL, b);
    FreshFacts(h, b);
    NetFive();
    var y1 := DepositedHome(h, TOLL, b);
    TwoVotes(h, TOLL, y1, Foreign, 7, 200, 7);
    OwnedBalanced({50});
    HandlerPaysFive(u, y1.foreign, Foreign, 7, 200);
    turns := [UserDeposit(Home, 3, 2, 7, Five()), VoteFor(Foreign, 1, 10, 2, 7), VoteFor(Foreign, 2, 11, 200, 7)];
    PlayOfThree(u, y, turns[0], turns[1], turns[2]);
  }

  lemma FreshFacts(h: Digest, b: State)
    requires Fresh(h, b, [1, 2], 2, {7, 8}, 50)
    ensures b.relayers.values == [1, 2] && b.threshold == 2 && b.expiry == 100 && !b.paused
    ensures b.proposals == map[] && b.depositCounts == map[] && b.HandlerOf(7) == 50 == b.HandlerOf(8)
    ensures Waiting(b)
  {}

  lemma PlayOfThree(u: Setup, y: System, a: Turn, b: Turn, c: Turn)
    ensures Play(u, y, [a, b, c]) == Turned(u, Turned(u, Turned(u, y, a), b), c)
    ensures forall x :: AllAllowed(u, x, y, [a, b, c]) <==>
              && Allowed(u, x, y, a) && Allowed(u, x, Turned(u, y, a), b)
              && Allowed(u, x, Turned(u, Turned(u, y, a), b), c)
  {
    hide Turned, Allowed;
    var y1 := Turned(u, y, a);
    var y2 := Turned(u, y1, b);
    var y3 := Turned(u, y2, c);
    assert [a, b, c][1..] == [b, c] && [b, c][1..] == [c] && [c][1..] == [];
    assert Play(u, y3, []) == y3;
    assert Play(u, y2, [c]) == y3;
    assert Play(u, y1, [b, c]) == y3;
    forall x
      ensures AllAllowed(u, x, y, [a, b, c]) <==> Allowed(u, x, y, a) && Allowed(u, x, y1, b) && Allowed(u, x, y2, c)
    {
      assert AllAllowed(u, x, y3, []);
      assert AllAllowed(u, x, y2, [c]) <==> Allowed(u, x, y2, c);
      assert AllAllowed(u, x, y1, [b, c]) <==> Allowed(u, x, y1, b) && AllAllowed(u, x, y2, [c]);
    }
  }

  lemma PlayOfTwo(u: Setup, y: System, a: Turn, b: Turn)
    ensures Play(u, y, [a, b]) == Turned(u, Turned(u, y, a), b)
    ensures forall x :: AllAllowed(u, x, y, [a, b]) <==> Allowed(u, x, y, a) && Allowed(u, x, Turned(u, y, a), b)
  {
    hide Turned, Allowed;
    var y1 := Turned(u, y, a);
    var y2 := Turned(u, y1, b);
    assert [a, b][1..] == [b] && [b][1..] == [];
    assert Play(u, y2, []) == y2;
    assert Play(u, y1, [b]) == y2;
    forall x ensures AllAllowed(u, x, y, [a, b]) <==> Allowed(u, x, y, a) && Allowed(u, x, y1, b) {
      assert AllAllowed(u, x, y2, []);
      assert AllAllowed(u, x, y1, [b]) <==> Allowed(u, x, y1, b);
    }
  }

  lemma {:induction false} PlayAppends(u: Setup, x: Asset, y: System, first: seq<Turn>, second: seq<Turn>)
    requires AllAllowed(u, x, y, first) && AllAllowed(u, x, Play(u, y, first), second)
    ensures Play(u, y, first + second) == Play(u, Play(u, y, first), second) && AllAllowed(u, x, y, first + second)
    decreases |first|
  {
    hide Turned, Allowed;
    if first == [] {
      assert first + second == second;
    } else {
      assert (first + second)[1..] == first[1..] + second;
      PlayAppends(u, x, Turned(u, y, first[0]), first[1..], second);
    }
  }

  // ----- another resource -----

  // A passed proposal executed by relayer 1 under a resource of its choice.
  lemma ExecutionTurn(u: Setup, y: System, t: Turn)
    requires Relays(t) && t.action.Execute? && t.action.sender == 1
    requires var b := y.On(t.side).bridge;
             && b.relayers.values == [1, 2] && !b.paused && b.HandlerOf(t.action.resourceID) == 50
             && b.Record(CallIn(u, y, t).key).status.Passed?
    requires HandlerPays(u, t.side, y.On(t.side), t.action.destinationDomainID, t.action.resourceID, t.action.data).Ok?
    ensures var c, z, a := y.On(t.side), Turned(u, y, t).On(t.side), t.action;
            && z.registries == c.registries
            && Occurs(z.bridge.journal, Called(CallIn(u, y, t).key, 1, a.destinationDomainID, a.resourceID, 50, a.data))
            && Ok(z.tokens) == HandlerPays(u, t.side, c, a.destinationDomainID, a.resourceID, a.data)
            && z.bridge.handlers == c.bridge.handlers && Grows(c.bridge.journal, z.bridge.journal)
            && (forall v | Occurs(z.bridge.journal, v) && v.Voted? :: Occurs(c.bridge.journal, v))
            && !Counts(u, y, t) && Turned(u, y, t).On(Other(t.side)) == y.On(Other(t.side))
  {
    hide HandlerPays, AddressSet.Valid;
    var c, a := y.On(t.side), RelayAction(u, y.On(t.side), t);
    var call := CallIn(u, y, t);
    PositionOf(c.bridge.relayers, 0);
    EmptyRun(u.h, c.bridge.Store(call.key, c.bridge.Record(call.key).(status := Executed)));
    assert Step(u.h, c.bridge, a)
        == CallStep(u.h, c.bridge, 1, call.key, 50, a.destinationDomainID, a.resourceID, a.data, a.revertOnFail, a.run);
    assert BridgeAfter(u, y, t).journal == Then(c.bridge.journal, call);
  }

  lemma ExecutionAllowed(u: Setup, y: System, t: Turn)
    requires Relays(t) && !Counts(u, y, t)
    ensures Allowed(u, SEVEN, y, t)
  {
    hide Counts;
  }

  function OwnTurns(): seq<Turn> {
    [UserDeposit(Home, 3, 2, 7, Five()), UserDeposit(Foreign, 3, 1, 8, Five())]
  }

  function VoteTurns(): seq<Turn> {
    [VoteFor(Home, 1, 10, 1, 8), VoteFor(Home, 2, 11, 1, 8)]
  }

  // Relayer 1 executes the deposit of resource 8 under resource 7.
  function UnderSeven(): Turn {
    Relay(Home, Execute(1, 1, 2, 1, Five(), 7, true, DONE))
  }

  // Both deposits are announced, neither is relayed.
  lemma TwoDeposits(h: Digest, b: State) returns (y: System)
    requires Fresh(h, b, [1, 2], 2, {7, 8}, 50)
    ensures y == Play(Scene(h, FREE), Start(b), OwnTurns())
            && AllAllowed(Scene(h, FREE), SEVEN, Start(b), OwnTurns())
    ensures Waiting(y.home.bridge) && y.home.tokens.Keys == {61, 62} && y.home.tokens[62] == Empty({})
    ensures y.home.registries == AT_HOME && y.home.tokens[61].Balance(50) == 5 && Balanced(y.home.tokens[61])
            && !y.home.tokens[61].paused
    ensures Occurs(y.home.bridge.journal, DepositTo(Foreign, 7)) && Occurs(y.foreign.bridge.journal, DepositTo(Home, 8))
    ensures y.foreign.bridge.proposals == map[] && 71 in y.foreign.tokens && y.foreign.tokens[71] == Empty({50})
    ensures forall v | Occurs(y.home.bridge.journal, v) :: !v.Voted?
  {
    hide Five, HandlerTakes, Turned, AddressSet.Valid, Net, Balanced, Reachable;
    NetFive();
    FreshFacts(h, b);
    var u := Scene(h, FREE);
    var y1 := DepositedHome(h, FREE, b);
    var t := UserDeposit(Foreign, 3, 1, 8, Five());
    var e := DepositOfFive(u, y1, t);
    HandlerTakesFive(u, y1.foreign, Foreign, 8, 1);
    y := Turned(u, y1, t);
    PlayOfTwo(u, Start(b), OwnTurns()[0], OwnTurns()[1]);
  }

  // The proposal of the deposit of resource 8 has passed at home on its own terms, and the
  // handler holds 5 of the token of resource 7.
  ghost predicate Primed(h: Digest, c: Chain) {
    && c.bridge.relayers.values == [1, 2] && !c.bridge.paused && c.bridge.HandlerOf(7) == 50
    && c.bridge.Record(KeyOn(h, Home)).status.Passed? && c.RegistryAt(50) == AT_HOME[50]
    && 61 in c.tokens && c.tokens[61].Balance(50) == 5 && Balanced(c.tokens[61]) && !c.tokens[61].paused
    && (forall v | Occurs(c.bridge.journal, v) && v.Voted? :: v.resourceID == 8 && v.destinationDomainID == 1)
  }

  // Two votes on the terms of the deposit. The handler cannot pay under these yet.
  lemma TwoHonestVotes(h: Digest, y: System) returns (z: System)
    requires Waiting(y.home.bridge) && y.home.tokens.Keys == {61, 62} && y.home.tokens[62] == Empty({})
    requires y.home.registries == AT_HOME
    requires y.home.tokens[61].Balance(50) == 5 && Balanced(y.home.tokens[61]) && !y.home.tokens[61].paused
    requires Occurs(y.foreign.bridge.journal, DepositTo(Home, 8))
    requires forall v | Occurs(y.home.bridge.journal, v) :: !v.Voted?
    ensures z == Play(Scene(h, FREE), y, VoteTurns()) && AllAllowed(Scene(h, FREE), SEVEN, y, VoteTurns())
    ensures z.foreign == y.foreign && Primed(h, z.home) && z.home.bridge.handlers == y.home.bridge.handlers
    ensures Grows(y.home.bridge.journal, z.home.bridge.journal)
  {
    hide Five, HandlerPays, Turned, Balanced, AddressSet.Valid, Allowed, Play, AllAllowed;
    var u := Scene(h, FREE);
    TwoVotes(h, FREE, y, Home, 8, 1, 8);
    OwnedBalanced({});
    HandlerPaysFive(u, y.home, Home, 8, 1);
    z := Turned(u, Turned(u, y, VoteTurns()[0]), VoteTurns()[1]);
    assert z.home.bridge.HandlerOf(7) == y.home.bridge.HandlerOf(7) == 50;
    assert z.home.tokens == y.home.tokens;
    PlayOfTwo(u, y, VoteTurns()[0], VoteTurns()[1]);
  }

  lemma ExecutedUnderSeven(h: Digest, y: System) returns (z: System)
    requires Primed(h, y.home)
    ensures z == Play(Scene(h, FREE), y, [UnderSeven()]) && AllAllowed(Scene(h, FREE), SEVEN, y, [UnderSeven()])
    ensures z.foreign == y.foreign && 61 in z.home.tokens && z.home.tokens[61].Balance(50) == 0
    ensures z.home.bridge.handlers == y.home.bridge.handlers && Grows(y.home.bridge.journal, z.home.bridge.journal)
    ensures Occurs(z.home.bridge.journal, Called(KeyOn(h, Home), 1, 1, 7, 50, Five()))
    ensures forall v | Occurs(z.home.bridge.journal, v) && v.Voted? :: v.resourceID == 8 && v.destinationDomainID == 1
  {
    hide Five, HandlerPays, Turned, Balanced, AddressSet.Valid, Allowed, Play, AllAllowed;
    var u := Scene(h, FREE);
    HandlerPaysFive(u, y.home, Home, 7, 1);
    ExecutionTurn(u, y, UnderSeven());
    ExecutionAllowed(u, y, UnderSeven());
    PlayOfOne(u, y, UnderSeven());
    z := Turned(u, y, UnderSeven());
  }

  lemma PlayOfOne(u: Setup, y: System, a: Turn)
    ensures Play(u, y, [a]) == Turned(u, y, a)
    ensures forall x :: AllAllowed(u, x, y, [a]) <==> Allowed(u, x, y, a)
  {
    hide Turned, Allowed;
    var y1 := Turned(u, y, a);
    assert [a][1..] == [] && Play(u, y1, []) == y1;
    forall x ensures AllAllowed(u, x, y, [a]) <==> Allowed(u, x, y, a) {
      assert AllAllowed(u, x, y1, []);
    }
  }

  // The scene up to the two votes.
  lemma PrimedRun(h: Digest) returns (u: Setup, y: System, turns: seq<Turn>)
    ensures u == Scene(h, FREE) && Connected(u, SEVEN, y) && Mirrored(u, SEVEN) && AllAllowed(u, SEVEN, y, turns)
    ensures var z := Play(u, y, turns);
            && Primed(h, z.home) && z.foreign.bridge.proposals == map[]
            && Occurs(z.home.bridge.journal, DepositTo(Foreign, 7))
            && Occurs(z.foreign.bridge.journal, DepositTo(Home, 8))
            && (forall r :: z.home.bridge.HandlerOf(r) == if r in {7, 8} then 50 else ZERO_ADDRESS)
  {
    hide Connected, Mirrored, Five, Net, Fresh, AllAllowed, Play, Balanced, AddressSet.Valid, Primed;
    var b := TwoResources(h, [1, 2], 50);
    u, y := Scene(h, FREE), Start(b);
    StartConnected(h, FREE, b);
    NetFive();
    var y2 := TwoDeposits(h, b);
    var z := TwoHonestVotes(h, y2);
    PlayAppends(u, SEVEN, y, OwnTurns(), VoteTurns());
    turns := OwnTurns() + VoteTurns();
    assert forall r :: z.home.bridge.HandlerOf(r) == y2.home.bridge.HandlerOf(r);
  }

  // The deposit of resource 7 stays in flight: 5.
  lemma SevenInFlight(h: Digest, z: System)
    requires z.foreign.bridge.proposals == map[] && Occurs(z.home.bridge.journal, DepositTo(Foreign, 7))
    ensures InFlight(Scene(h, FREE), SEVEN, Foreign, z.home.bridge.journal, z.foreign.bridge) >= 5
  {
    hide Five, Net, InFlight, KeyWith;
    NetFive();
    FlightAtLeast(Scene(h, FREE), SEVEN, Foreign, z.home.bridge.journal, z.foreign.bridge, DepositTo(Foreign, 7));
  }

  // Every vote is on the terms of its deposit, but the handler cannot pay under them yet.
  // Relayer 1 then executes under the other resource: nothing is held, 5 are in flight.
  lemma OtherResource(h: Digest) returns (u: Setup, y: System, turns: seq<Turn>)
    ensures Connected(u, SEVEN, y) && Mirrored(u, SEVEN) && AllAllowed(u, SEVEN, y, turns)
    ensures var z := Play(u, y, turns);
            && Held(SEVEN, z) == 0 && InFlight(u, SEVEN, Foreign, z.home.bridge.journal, z.foreign.bridge) >= 5
            && (forall v | Occurs(z.home.bridge.journal, v) && v.Voted? ::
                  v.resourceID == 8 && v.destinationDomainID == 1)
            && Occurs(z.foreign.bridge.journal, DepositTo(Home, 8))
            && Occurs(z.home.bridge.journal, Called(KeyOn(h, Home), 1, 1, 7, 50, Five()))
  {
    hide Connected, Mirrored, Five, AllAllowed, Play, InFlight, Balanced, Primed;
    var before;
    u, y, before := PrimedRun(h);
    var z := ExecutedUnderSeven(h, Play(u, y, before));
    PlayAppends(u, SEVEN, y, before, [UnderSeven()]);
    turns := before + [UnderSeven()];
    SevenInFlight(h, z);
  }

  // Mapping resource 8 to another handler changes nothing but the mapping.
  lemma Remapped(h: Digest, y: System) returns (z: System)
    requires Primed(h, y.home)
    requires forall r :: y.home.bridge.HandlerOf(r) == if r in {7, 8} then 50 else ZERO_ADDRESS
    ensures var t := MapResourceTo(Home, 8, 51, 62);
            z == Play(Scene(h, FREE), y, [t]) && AllAllowed(Scene(h, FREE), SEVEN, y, [t])
    ensures Primed(h, z.home) && z.foreign == y.foreign && Grows(y.home.bridge.journal, z.home.bridge.journal)
    ensures forall r :: z.home.bridge.HandlerOf(r) == 50 ==> r == 7
  {
    hide Five, Balanced, AddressSet.Valid, After, Play, AllAllowed;
    var u, t := Scene(h, FREE), MapResourceTo(Home, 8, 51, 62);
    MappingOutcome(h, y.home.bridge, t);
    PlayOfOne(u, y, t);
    z := Turned(u, y, t);
    assert forall r :: z.home.bridge.HandlerOf(r) == if r == 8 then 51 else y.home.bridge.HandlerOf(r);
  }

  // The same run, except that resource 8 is mapped elsewhere before the execution. By then
  // resource 7 alone is mapped to the handler, and still nothing is held and 5 are in flight.
  lemma AloneByNow(h: Digest) returns (u: Setup, y: System, turns: seq<Turn>)
    ensures Connected(u, SEVEN, y) && Mirrored(u, SEVEN) && AllAllowed(u, SEVEN, y, turns)
    ensures |turns| > 0 && turns[|turns| - 1] == UnderSeven()
    ensures var before := Play(u, y, turns[..|turns| - 1]);
            forall r :: before.home.bridge.HandlerOf(r) == 50 ==> r == 7
    ensures var z := Play(u, y, turns);
            && Held(SEVEN, z) == 0 && InFlight(u, SEVEN, Foreign, z.home.bridge.journal, z.foreign.bridge) >= 5
            && (forall v | Occurs(z.home.bridge.journal, v) && v.Voted? ::
                  v.resourceID == 8 && v.destinationDomainID == 1)
            && Occurs(z.home.bridge.journal, Called(KeyOn(h, Home), 1, 1, 7, 50, Five()))
  {
    hide Connected, Mirrored, Five, AllAllowed, Play, InFlight, Balanced, Primed;
    var first, t := [], MapResourceTo(Home, 8, 51, 62);
    u, y, first := PrimedRun(h);
    var w := Remapped(h, Play(u, y, first));
    PlayAppends(u, SEVEN, y, first, [t]);
    var z := ExecutedUnderSeven(h, w);
    PlayAppends(u, SEVEN, y, first + [t], [UnderSeven()]);
    turns := first + [t] + [UnderSeven()];
    assert turns[..|turns| - 1] == first + [t];
    SevenInFlight(h, z);
  }
}
