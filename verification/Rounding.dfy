// Backing between tokens of different decimals, counted in units of the finer token: each
// executing call may lose less than one unit of the coarser token, on the coarser chain only.
module Rounding {
  import opened Words
  import opened Arithmetic
  import opened Bytes
  import opened Payload
  import opened Protocol
  import opened History
  import opened Chains
  import opened Backing
  import opened Conduct
  import opened Relay
  import opened H = Erc20Handler

  // One unit of either token is worth so many of the finer one.
  predicate Between(x: Asset, home: uint8, foreign: uint8) {
    x.homeUnit == Pow10(Max(0, foreign - home)) && x.foreignUnit == Pow10(Max(0, home - foreign))
  }

  // The decimals of the token a deposit bound for a side is taken in, and is paid out in.
  function ScaleTo(side: Side, home: uint8, foreign: uint8): Scale {
    if side.Home? then Scale(foreign, home) else Scale(home, foreign)
  }

  // Amounts are relayed as the decimals ask, and fees are the same up to the units.
  ghost predicate Matched(u: Setup, x: Asset, home: uint8, foreign: uint8) {
    && Between(x, home, foreign)
    && (forall side, n :: u.rescale(side, x.resource, n) == Rescale(n, ScaleTo(side, home, foreign)))
    && (forall side ::
          var h, f := FeesFor(u, x, Home, u.On(side).id), FeesFor(u, x, Foreign, u.On(side).id);
          if home >= foreign then SameFees(h, f, Pow10(home - foreign)) else SameFees(f, h, Pow10(foreign - home)))
  }

  lemma SameFeesForEqualUnits(a: Fees, b: Fees)
    ensures SameFees(a, b, 1) <==> SameFees(b, a, 1)
  {}

  // One deposit and its payout, in units of the finer token.
  lemma RescaledPayout(u: Setup, x: Asset, home: uint8, foreign: uint8, side: Side, amount: uint256)
    requires Matched(u, x, home, foreign) && Rescale(amount, ScaleTo(side, home, foreign)) < TWO_256
    requires NetOf(FeesFor(u, x, Other(side), u.On(side).id), amount).Ok?
    requires NetOf(FeesFor(u, x, side, u.On(side).id), Rescale(amount, ScaleTo(side, home, foreign))).Ok?
    ensures var s := ScaleTo(side, home, foreign);
            NetOf(FeesFor(u, x, side, u.On(side).id), Rescale(amount, s)).value * x.Unit(side)
              < NetOf(FeesFor(u, x, Other(side), u.On(side).id), amount).value * x.Unit(Other(side)) + x.Unit(side)
  {
    hide NetOf, SameFees, Quotient;
    var s := ScaleTo(side, home, foreign);
    var from, to := FeesFor(u, x, Other(side), u.On(side).id), FeesFor(u, x, side, u.On(side).id);
    assert Pow10(0) == 1;
    hide Pow10;
    SameFeesForEqualUnits(from, to);
    if s.source > s.destination {
      ScalingDownRounds(from, to, Pow10(s.source - s.destination), amount);
    } else {
      ScalingUpRounds(from, to, Pow10(s.destination - s.source), amount);
    }
  }

  // The bound is sharp: a token with one decimal more, half of every amount as fee on both
  // chains, and a deposit of 18 takes in 9 and pays out 10.
  lemma RoundingCosts()
    ensures var half := Fees(0, 0, TWO_256 - 1, 2, 1);
            && SameFees(half, half, Pow10(1)) && Rescale(18, Scale(1, 0)) == 1
            && NetOf(half, 18) == Ok(9) && NetOf(half, 1) == Ok(1) && 1 * Pow10(1) == 10
  {
    assert Pow10(1) == 10;
    assert Quotient(18, 10) == 1;
    assert Quotient(18, 2) == 9 && Quotient(1, 2) == 0;
  }

  // Rescaled amounts still fit a word.
  ghost predicate Fits(u: Setup, x: Asset, y: System, t: Turn) {
    Executes(u, y, t) && t.action.resourceID == x.resource ==>
      forall e | Answers(u, y, t, e) :: u.rescale(t.side, x.resource, FromBytes(e.data[..32])) < TWO_256
  }

  lemma PayoutWithin(u: Setup, x: Asset, home: uint8, foreign: uint8, side: Side, e: Event)
    requires Matched(u, x, home, foreign) && IsFor(u, side, e) && e.resourceID == x.resource
    requires u.rescale(side, x.resource, FromBytes(e.data[..32])) < TWO_256
    requires ChargedData(FeesFor(u, x, Other(side), u.On(side).id), e.data)
    ensures Worth(u, x, side, u.On(side).id, RelayedData(u, side, e)) < TakenIn(u, x, side, e) + x.Unit(side)
  {
    hide RelayedData, NetOf, FromBytes, Rescale, SameFees;
    var amount := FromBytes(e.data[..32]);
    assert u.rescale(side, x.resource, amount) == Rescale(amount, ScaleTo(side, home, foreign));
    RelayedAmount(u, side, e);
    UnitsPositive(x, home, foreign);
    if NetOf(FeesFor(u, x, side, u.On(side).id), u.rescale(side, x.resource, amount)).Ok? {
      RescaledPayout(u, x, home, foreign, side, amount);
    } else {
      Scaled(0, Net(FeesFor(u, x, Other(side), u.On(side).id), e.data), x.Unit(Other(side)));
    }
  }

  lemma UnitsPositive(x: Asset, home: uint8, foreign: uint8)
    requires Between(x, home, foreign)
    ensures x.homeUnit > 0 && x.foreignUnit > 0
  {}

  lemma RoundsBack(u: Setup, x: Asset, home: uint8, foreign: uint8, y: System, t: Turn)
    requires Sound(u, x, y) && Allowed(u, x, y, t) && Matched(u, x, home, foreign)
    requires Conforms(u, x, y, t) && Fits(u, x, y, t)
    ensures Gap(u, x, y, t) <= if Executes(u, y, t) && t.action.resourceID == x.resource then x.Unit(t.side) - 1 else 0
  {
    if Executes(u, y, t) && t.action.resourceID == x.resource {
      var e := ConformingCall(u, x, y, t);
      ChargedAbroad(u, x, y, t.side, e);
      hide Sound, Allowed, Matched, RelayedData, Worth, TakenIn, HandlerPays, After, Conforms, ChargedData, Executes,
           FromBytes;
      PayoutWithin(u, x, home, foreign, t.side, e);
      GivenAndOwed(u, x, y, t, e) by { ConformsPays(u, x, y, t); }
    }
  }

  lemma ConformsPays(u: Setup, x: Asset, y: System, t: Turn)
    requires Conforms(u, x, y, t) && Executes(u, y, t) && t.action.resourceID == x.resource
    ensures Net(FeesFor(u, x, t.side, t.action.destinationDomainID), t.action.data)
         <= Net(FeesFor(u, x, t.side, u.On(t.side).id), t.action.data)
  {
    hide Clean, Net, FeesFor;
  }

  lemma ChargedAbroad(u: Setup, x: Asset, y: System, side: Side, e: Event)
    requires Sound(u, x, y) && Occurs(y.On(Other(side)).bridge.journal, e) && Concerns(u, x, side, e)
    ensures ChargedData(FeesFor(u, x, Other(side), u.On(side).id), e.data)
  {
    hide Reachable, VotesAnnounced, Placed, Guarded, ChargedData;
  }

  // How many calls under the asset a run executes on a side.
  ghost function Executions(u: Setup, x: Asset, y: System, turns: seq<Turn>, side: Side): nat
    decreases |turns|
  {
    if turns == [] then 0
    else
      Executions(u, x, Turned(u, y, turns[0]), turns[1..], side) +
      if turns[0].side == side && Executes(u, y, turns[0]) && turns[0].action.resourceID == x.resource then 1 else 0
  }

  ghost predicate ConformingScaled(u: Setup, x: Asset, y: System, turns: seq<Turn>)
    decreases |turns|
  {
    turns == [] ||
    (&& Allowed(u, x, y, turns[0]) && Conforms(u, x, y, turns[0]) && Fits(u, x, y, turns[0])
     && ConformingScaled(u, x, Turned(u, y, turns[0]), turns[1..]))
  }

  lemma {:induction false} RoundingAddsUp(u: Setup, x: Asset, home: uint8, foreign: uint8, y: System, turns: seq<Turn>)
    requires Sound(u, x, y) && Matched(u, x, home, foreign) && ConformingScaled(u, x, y, turns)
    ensures AllAllowed(u, x, y, turns)
    ensures TotalGap(u, x, y, turns) <= (x.homeUnit - 1) * Executions(u, x, y, turns, Home)
                                        + (x.foreignUnit - 1) * Executions(u, x, y, turns, Foreign)
    decreases |turns|
  {
    hide Sound, Matched, Allowed, Conforms, Fits, Gap, Turned, Surplus, Executes;
    if turns != [] {
      var t, z := turns[0], Turned(u, y, turns[0]);
      RoundsBack(u, x, home, foreign, y, t);
      TurnLaw(u, x, y, t);
      RoundingAddsUp(u, x, home, foreign, z, turns[1..]);
      OneMore(x.homeUnit - 1, Executions(u, x, z, turns[1..], Home));
      OneMore(x.foreignUnit - 1, Executions(u, x, z, turns[1..], Foreign));
    }
  }

  lemma OneMore(a: int, n: nat)
    ensures a * (n + 1) == a * n + a && a * (n + 0) == a * n
  {}

  lemma BackedAcrossDecimals(u: Setup, x: Asset, home: uint8, foreign: uint8, y: System, turns: seq<Turn>)
    requires Connected(u, x, y) && Matched(u, x, home, foreign) && ConformingScaled(u, x, y, turns)
    ensures var z := Play(u, y, turns);
            && Held(x, z) * x.homeUnit + (x.homeUnit - 1) * Executions(u, x, y, turns, Home)
               + (x.foreignUnit - 1) * Executions(u, x, y, turns, Foreign) >=
               Supply(x, z) * x.foreignUnit + InFlight(u, x, Foreign, z.home.bridge.journal, z.foreign.bridge)
               + InFlight(u, x, Home, z.foreign.bridge.journal, z.home.bridge)
  {
    hide Connected, Matched, ConformingScaled, AllAllowed, TotalGap, Play, InFlight, Sound, Surplus, Held, Supply,
         Executions;
    ConnectedSound(u, x, y);
    RoundingAddsUp(u, x, home, foreign, y, turns);
    Covered(u, x, y, turns);
  }
}
