// The relayer step from a deposit event to the message it routes: parsing the deposit data
// and rescaling the amount between the decimals of the two tokens.
module Relay {
  import opened Words
  import opened Arithmetic
  import opened Bytes
  import opened Payload
  import opened Erc20Handler

  // Decimals of a token on the source and destination chain.
  datatype Scale = Scale(source: uint8, destination: uint8)

  // Per destination chain, the scale of each resource under the key written in the config file.
  type Decimals = map<uint8, map<string, Scale>>

  datatype Message = FungibleTransfer(source: uint8, destination: uint8, nonce: uint64, amount: nat, resource: string,
                                      recipient: Bytes)

  datatype RelayError = CalldataTooShort

  function Pow10(n: nat): (p: nat)
    ensures p > 0
  {
    if n == 0 then 1 else 10 * Pow10(n - 1)
  }

  // Unbounded integers, rounded down when there are fewer decimals at the destination.
  function Rescale(amount: nat, s: Scale): nat {
    if s.source > s.destination then Quotient(amount, Pow10(s.source - s.destination))
    else amount * Pow10(s.destination - s.source)
  }

  function StripPrefix(key: string): string {
    if "0x" <= key then key[2..] else key
  }

  // Every configured difference is one whose scale factor the relayer computes exactly.
  predicate Computable(scales: map<string, Scale>) {
    forall key | key in scales :: -18 <= scales[key].source - scales[key].destination <= 18
  }

  // The entry is one for the resource, written with or without prefix.
  predicate Names(scales: map<string, Scale>, key: string, hex: string) {
    key in scales && StripPrefix(key) == hex
  }

  // The amounts that some iteration order over the two maps can produce.
  ghost predicate Possible(scales: map<string, Scale>, hex: string, amount: nat, result: nat) {
    if exists key :: Names(scales, key, hex)
    then exists key :: Names(scales, key, hex) && result == Rescale(amount, scales[key])
    else result == amount
  }

  // How many decimals the destination token has fewer.
  function Drop(s: Scale): int {
    s.source - s.destination
  }

  // All entries for the resource drop as many decimals as this one.
  ghost predicate SameDrop(scales: map<string, Scale>, key: string, hex: string)
    requires key in scales
  {
    forall other | Names(scales, other, hex) :: Drop(scales[other]) == Drop(scales[key])
  }

  // The one lookup that the loops amount to: by the plain key, else by the prefixed key.
  function Lookup(scales: map<string, Scale>, hex: string): Option<Scale> {
    if hex in scales && StripPrefix(hex) == hex then Some(scales[hex])
    else if "0x" + hex in scales then Some(scales["0x" + hex])
    else None
  }

  function Rescaled(scales: map<string, Scale>, hex: string, amount: nat): nat {
    match Lookup(scales, hex)
    case Some(s) => Rescale(amount, s)
    case None => amount
  }

  // The relayer's handling of one ERC20 deposit event, for every iteration order of the maps.
  // The recipient length declared in the data must lie within it.
  method HandleErc20Deposited(chain: uint8, decimals: Decimals, destination: uint8, nonce: uint64, resourceHex: string,
                              calldata: Bytes)
    returns (r: Result<Message, RelayError>)
    requires |calldata| >= 84 ==> 64 + DeclaredLength(calldata) <= |calldata|
    requires destination in decimals ==> Computable(decimals[destination])
    ensures |calldata| < 84 ==> r == Err(CalldataTooShort)
    ensures |calldata| >= 84 ==>
              && r.Ok?
              && r.value == FungibleTransfer(chain, destination, nonce, r.value.amount, resourceHex,
                                             DepositFields(calldata).1)
    ensures |calldata| >= 84 && (destination in decimals ==>
                                   forall key :: !Names(decimals[destination], key, resourceHex)) ==>
              r.value.amount == DepositFields(calldata).0
    ensures |calldata| >= 84 && destination in decimals ==>
              Possible(decimals[destination], resourceHex, DepositFields(calldata).0, r.value.amount)
    ensures |calldata| >= 84 && destination in decimals ==>
              forall key | Names(decimals[destination], key, resourceHex)
                           && SameDrop(decimals[destination], key, resourceHex) ::
                r.value.amount == Rescale(DepositFields(calldata).0, decimals[destination][key])
  {
    if |calldata| < 84 {
      return Err(CalldataTooShort);
    }
    var recipient := calldata[64..64 + FromBytes(calldata[32..64])];
    var deposited := FromBytes(calldata[..32]);
    var amount := deposited;
    if |decimals| != 0 {
      var chains := decimals.Keys;
      while chains != {}
        invariant chains <= decimals.Keys && destination !in decimals.Keys - chains
        invariant amount == deposited
      {
        var chainId :| chainId in chains;
        chains := chains - {chainId};
        if chainId == destination {
          amount := RescaleByKey(decimals[chainId], resourceHex, amount);
          break;
        }
      }
    }
    r := Ok(FungibleTransfer(chain, destination, nonce, amount, resourceHex, recipient));
  }

  // The inner loop: the first key that names the resource rescales the amount.
  method RescaleByKey(scales: map<string, Scale>, resourceHex: string, deposited: nat) returns (amount: nat)
    requires Computable(scales)
    ensures Possible(scales, resourceHex, deposited, amount)
  {
    amount := deposited;
    var keys := scales.Keys;
    while keys != {}
      invariant keys <= scales.Keys
      invariant forall key | key in scales.Keys - keys :: StripPrefix(key) != resourceHex
    {
      var key :| key in keys;
      keys := keys - {key};
      var name := key;
      if "0x" <= name {
        name := name[2..];
      }
      if name == resourceHex {
        var s := scales[key];
        FactorFits(if s.source > s.destination then s.source - s.destination else s.destination - s.source);
        if s.source > s.destination {
          amount := Quotient(amount, Pow10(s.source - s.destination));
        } else {
          amount := amount * Pow10(s.destination - s.source);
        }
        assert Names(scales, key, resourceHex) && amount == Rescale(deposited, scales[key]);
        return;
      }
    }
  }

  lemma KeysNaming(key: string, hex: string)
    ensures StripPrefix(key) == hex <==> key == "0x" + hex || (key == hex && StripPrefix(hex) == hex)
  {
    if "0x" <= key {
      assert key == "0x" + key[2..];
    }
    assert ("0x" + hex)[2..] == hex;
  }

  // The direct lookup is one of the possible results.
  lemma LookupPossible(scales: map<string, Scale>, hex: string, amount: nat)
    ensures Possible(scales, hex, amount, Rescaled(scales, hex, amount))
  {
    forall key ensures StripPrefix(key) == hex <==> key == "0x" + hex || (key == hex && StripPrefix(hex) == hex) {
      KeysNaming(key, hex);
    }
    match Lookup(scales, hex)
    case Some(_) =>
      var key := if hex in scales && StripPrefix(hex) == hex then hex else "0x" + hex;
      assert Names(scales, key, hex);
    case None =>
  }

  // Both spellings of the resource are configured with different decimal differences, and the
  // amount is large enough to tell the two apart.
  predicate Ambiguous(scales: map<string, Scale>, hex: string, amount: nat) {
    && hex in scales && StripPrefix(hex) == hex && "0x" + hex in scales
    && var a, b := Drop(scales[hex]), Drop(scales["0x" + hex]);
       a != b && amount >= Pow10(Max(0, Min(a, b)))
  }

  // Dropping more decimals gives a smaller amount, once there is a whole unit left to lose.
  lemma RescaleSeparates(amount: nat, a: Scale, b: Scale)
    requires Drop(a) < Drop(b)
    ensures if amount >= Pow10(Max(0, Drop(a))) then Rescale(amount, a) > Rescale(amount, b)
            else Rescale(amount, a) == Rescale(amount, b) == 0
  {
    if Drop(b) <= 0 {
      PadsLess(amount, a, b);
    } else if Drop(a) <= 0 {
      PadsOrCuts(amount, a, b);
    } else {
      CutsMore(amount, a, b);
    }
  }

  lemma PadsLess(amount: nat, a: Scale, b: Scale)
    requires Drop(a) < Drop(b) <= 0
    ensures if amount >= 1 then Rescale(amount, a) > Rescale(amount, b)
            else Rescale(amount, a) == Rescale(amount, b) == 0
  {
    hide Pow10;
    PowersApart(-Drop(b), -Drop(a));
    Scaled(Pow10(-Drop(b)), Pow10(-Drop(a)), amount);
  }

  lemma PadsOrCuts(amount: nat, a: Scale, b: Scale)
    requires Drop(a) <= 0 < Drop(b)
    ensures if amount >= 1 then Rescale(amount, a) > Rescale(amount, b)
            else Rescale(amount, a) == Rescale(amount, b) == 0
  {
    hide Pow10, Quotient;
    PowersApart(0, Drop(b));
    Scaled(1, Pow10(-Drop(a)), amount);
    SmallerQuotient(amount, 1, Pow10(Drop(b)));
  }

  lemma CutsMore(amount: nat, a: Scale, b: Scale)
    requires 0 < Drop(a) < Drop(b)
    ensures if amount >= Pow10(Drop(a)) then Rescale(amount, a) > Rescale(amount, b)
            else Rescale(amount, a) == Rescale(amount, b) == 0
  {
    hide Pow10, Quotient;
    var more := Drop(b) - Drop(a);
    Pow10Sum(Drop(a), more);
    PowersApart(0, more);
    SmallerQuotient(amount, Pow10(Drop(a)), Pow10(more));
  }

  lemma PowersApart(m: nat, n: nat)
    requires m < n
    ensures 1 <= Pow10(m) < Pow10(n) && Pow10(0) == 1
  {
    Pow10Grows(m + 1, n);
  }

  lemma {:induction false} Pow10Sum(a: nat, b: nat)
    ensures Pow10(a + b) == Pow10(a) * Pow10(b)
  {
    if a > 0 {
      Pow10Sum(a - 1, b);
      assert 10 * (Pow10(a - 1) * Pow10(b)) == Pow10(a) * Pow10(b);
    }
  }

  lemma SmallerQuotient(x: nat, m: nat, n: nat)
    requires m > 0 && n >= 2 && m * n > 0
    ensures if x >= m then Quotient(x, m * n) < Quotient(x, m) else Quotient(x, m * n) == Quotient(x, m) == 0
    ensures Quotient(x, 1) == x
  {
    hide Quotient;
    var q, p := Quotient(x, m), Quotient(x, m * n);
    NoQuotient(x, m);
    QuotientBounds(x, 1);
    assert p * n < q + 1 by {
      QuotientBounds(x, m);
      QuotientBounds(x, m * n);
      Associated(p, m, n);
      Cancel(p * n, q + 1, m);
    }
    Scaled(2, n, p);
  }

  lemma NoQuotient(x: nat, m: nat)
    requires m > 0
    ensures Quotient(x, m) == 0 <==> x < m
  {}

  lemma Associated(p: nat, m: nat, n: nat)
    ensures p * (m * n) == (p * n) * m
  {}

  // A configuration that gives one deposit two different amounts, depending on the order.
  lemma AmbiguousConfiguration()
    ensures var scales := map["a7" := Scale(1, 0), "0xa7" := Scale(0, 0)];
            && Ambiguous(scales, "a7", 10)
            && Possible(scales, "a7", 10, 1) && Possible(scales, "a7", 10, 10)
  {
    var scales := map["a7" := Scale(1, 0), "0xa7" := Scale(0, 0)];
    var plain, prefixed := "a7", "0xa7";
    assert plain[0] == 'a';
    assert StripPrefix(plain) == "a7" && plain in scales;
    assert prefixed[2..] == "a7" && StripPrefix(prefixed) == "a7" && prefixed in scales;
    assert "0x" + "a7" == prefixed;
    assert Pow10(1) == 10 && Pow10(0) == 1;
    QuotientBounds(10, 10);
    assert Rescale(10, scales[plain]) == 1 && Rescale(10, scales[prefixed]) == 10;
  }

  lemma SpellingsDiffer(scales: map<string, Scale>, hex: string, amount: nat)
    requires hex in scales && StripPrefix(hex) == hex && "0x" + hex in scales
    ensures Ambiguous(scales, hex, amount) <==> Rescale(amount, scales[hex]) != Rescale(amount, scales["0x" + hex])
  {
    var a, b := scales[hex], scales["0x" + hex];
    if Drop(a) < Drop(b) {
      RescaleSeparates(amount, a, b);
    } else if Drop(b) < Drop(a) {
      RescaleSeparates(amount, b, a);
    }
  }

  // The result is independent of the iteration order, and equal to the direct lookup, exactly
  // unless the resource is configured under both spellings with different decimal differences
  // and the amount is large enough to show it.
  lemma OrderIndependent(scales: map<string, Scale>, hex: string, amount: nat)
    ensures !Ambiguous(scales, hex, amount) <==>
              forall result :: Possible(scales, hex, amount, result) ==> result == Rescaled(scales, hex, amount)
  {
    forall key ensures StripPrefix(key) == hex <==> key == "0x" + hex || (key == hex && StripPrefix(hex) == hex) {
      KeysNaming(key, hex);
    }
    LookupPossible(scales, hex, amount);
    hide Rescale;
    if hex in scales && StripPrefix(hex) == hex && "0x" + hex in scales {
      SpellingsDiffer(scales, hex, amount);
    }
    if Ambiguous(scales, hex, amount) {
      var other := Rescale(amount, scales["0x" + hex]);
      assert Names(scales, "0x" + hex, hex);
      assert Possible(scales, hex, amount, other);
    } else {
      forall result | Possible(scales, hex, amount, result) ensures result == Rescaled(scales, hex, amount) {
        if key :| Names(scales, key, hex) && result == Rescale(amount, scales[key]) {
          assert key == "0x" + hex || key == hex;
        }
      }
    }
  }

  // ----- rescaling -----

  // The scale factor is computed in a signed 64-bit integer: exact up to 18 decimals.
  lemma {:induction false} FactorFits(n: nat)
    ensures Pow10(n) < 0x8000_0000_0000_0000 <==> n <= 18
  {
    assert Pow10(9) == 1_000_000_000;
    assert Pow10(18) == 1_000_000_000_000_000_000;
    if n > 18 {
      Pow10Grows(19, n);
    } else {
      Pow10Grows(n, 18);
    }
  }

  lemma {:induction false} Pow10Grows(m: nat, n: nat)
    requires m <= n
    ensures Pow10(m) <= Pow10(n)
  {
    if m < n {
      Pow10Grows(m, n - 1);
    }
  }

  // The rescaled amount is the largest number of units of the destination token that is worth no
  // more than the deposited units of the source token.
  lemma RescaleKeepsValue(amount: nat, s: Scale)
    ensures var r := Rescale(amount, s);
            r * Pow10(s.source) <= amount * Pow10(s.destination) < (r + 1) * Pow10(s.source)
  {
    hide Pow10, Quotient;
    if s.source > s.destination {
      Pow10Sum(s.source - s.destination, s.destination);
      RoundedDown(amount, Pow10(s.source - s.destination), Pow10(s.destination));
    } else {
      Pow10Sum(s.destination - s.source, s.source);
      Associated(amount, Pow10(s.source), Pow10(s.destination - s.source));
      Scaled(Rescale(amount, s), Rescale(amount, s) + 1, Pow10(s.source));
    }
  }

  lemma RoundedDown(amount: nat, unit: nat, coarse: nat)
    requires unit > 0 && coarse > 0
    ensures var r := Quotient(amount, unit);
            r * (unit * coarse) <= amount * coarse < (r + 1) * (unit * coarse)
  {
    hide Quotient;
    var r := Quotient(amount, unit);
    QuotientBounds(amount, unit);
    Scaled(r * unit, amount, coarse);
    Scaled(amount, (r + 1) * unit, coarse);
    Associated(r, coarse, unit);
    Associated(r + 1, coarse, unit);
  }

  // Up and back down is the identity; down and back up never gains and loses less than one
  // unit of the coarser token.
  lemma RescaleThereAndBack(amount: nat, s: Scale)
    ensures var back := Rescale(Rescale(amount, s), Scale(s.destination, s.source));
            if s.source <= s.destination then back == amount
            else back <= amount < back + Pow10(s.source - s.destination)
  {
    hide Quotient;
    if s.source < s.destination {
      QuotientOfMultiple(amount, Pow10(s.destination - s.source));
    } else if s.source > s.destination {
      var unit := Pow10(s.source - s.destination);
      QuotientBounds(amount, unit);
      assert (Quotient(amount, unit) + 1) * unit == Quotient(amount, unit) * unit + unit;
    }
  }

  lemma QuotientOfMultiple(a: nat, p: nat)
    requires p > 0
    ensures Quotient(a * p, p) == a
  {
    hide Quotient;
    var q := Quotient(a * p, p);
    QuotientBounds(a * p, p);
    Cancel(a, q + 1, p);
    Cancel(q, a + 1, p);
  }

  // ----- rounding across the bridge -----

  // The same relative fee on both chains, and basic fees in the ratio of the token units.
  predicate SameFees(fine: Fees, coarse: Fees, unit: nat) {
    && fine.feePercent == coarse.feePercent <= fine.feeMaxValue == coarse.feeMaxValue
    && fine.feeMaxValue > 0
    && fine.basicFee == unit * coarse.basicFee
  }

  // Going to the coarser token, the value paid out differs from the net value taken in by
  // less than one unit of the coarser token. Any number may be the unit, not only a power of ten.
  lemma ScalingDownRounds(fine: Fees, coarse: Fees, unit: nat, amount: uint256)
    requires unit > 0 && SameFees(fine, coarse, unit)
    requires NetOf(fine, amount).Ok? && NetOf(coarse, Quotient(amount, unit)).Ok?
    ensures var taken, paid := NetOf(fine, amount).value, NetOf(coarse, Quotient(amount, unit)).value * unit;
            taken - unit < paid < taken + unit
  {
    hide Quotient, Fee;
    var small := Quotient(amount, unit);
    QuotientBounds(amount, unit);
    SumScaled(small, 1, unit);
    FeesScaled(fine, coarse, small, amount - small * unit, unit);
    NetIsRest(fine, amount);
    NetIsRest(coarse, small);
    SumScaled(NetOf(coarse, small).value, Fee(coarse, small), unit);
  }

  // Going to the finer token, the value paid out is at most the net value taken in, and less
  // than one unit of the coarser token below it.
  lemma ScalingUpRounds(coarse: Fees, fine: Fees, unit: nat, amount: uint256)
    requires unit > 0 && SameFees(fine, coarse, unit) && amount * unit < TWO_256
    requires NetOf(coarse, amount).Ok? && NetOf(fine, amount * unit).Ok?
    ensures var taken, paid := NetOf(coarse, amount).value * unit, NetOf(fine, amount * unit).value;
            taken - unit < paid <= taken
  {
    hide Quotient, Fee;
    FeesScaled(fine, coarse, amount, 0, unit);
    NetIsRest(coarse, amount);
    NetIsRest(fine, amount * unit);
    SumScaled(NetOf(coarse, amount).value, Fee(coarse, amount), unit);
  }

  // The larger of basic and relative fee, without the checks.
  function Fee(f: Fees, amount: nat): nat
    requires f.feeMaxValue > 0
  {
    Max(f.basicFee, Quotient(amount * f.feePercent, f.feeMaxValue))
  }

  lemma NetIsRest(f: Fees, amount: uint256)
    requires f.feeMaxValue > 0 && NetOf(f, amount).Ok?
    ensures NetOf(f, amount).value + Fee(f, amount) == amount
  {
    hide Quotient;
  }

  // The fee on small * unit + rest of the finer token against the fee on small of the coarser.
  lemma FeesScaled(fine: Fees, coarse: Fees, small: nat, rest: nat, unit: nat)
    requires unit > 0 && SameFees(fine, coarse, unit)
    ensures var fee := Fee(coarse, small) * unit;
            fee <= Fee(fine, small * unit + rest) < fee + unit + rest
  {
    hide Quotient;
    var share := Quotient(small * fine.feePercent, fine.feeMaxValue);
    var scaled := Quotient((small * unit + rest) * fine.feePercent, fine.feeMaxValue);
    SharesScaled(small, rest, unit, fine.feePercent, fine.feeMaxValue);
    LargerScaled(coarse.basicFee, share, unit, scaled, rest);
  }

  lemma LargerScaled(basic: nat, share: nat, unit: nat, scaled: nat, rest: nat)
    requires unit > 0 && share * unit <= scaled < share * unit + unit + rest
    ensures Max(basic, share) * unit <= Max(unit * basic, scaled) < Max(basic, share) * unit + unit + rest
  {
    if basic >= share {
      Scaled(share, basic, unit);
    } else {
      Scaled(basic, share, unit);
    }
  }

  lemma SharesScaled(small: nat, rest: nat, unit: nat, p: nat, m: nat)
    requires unit > 0 && m > 0 && p <= m
    ensures var share, fine := Quotient(small * p, m), Quotient((small * unit + rest) * p, m);
            share * unit <= fine < share * unit + unit + rest
  {
    var x, y := small * p, (small * unit + rest) * p;
    ProductSplit(small, rest, unit, p);
    QuotientBounds(x, m);
    QuotientBounds(y, m);
    QuotientsScaled(x, y, rest * p, Quotient(x, m), Quotient(y, m), rest, unit, m) by {
      Scaled(p, m, rest);
      assert rest * p <= rest * m;
    }
    SumScaled(Quotient(x, m), 1, unit);
  }

  lemma ProductSplit(small: nat, rest: nat, unit: nat, p: nat)
    ensures (small * unit + rest) * p == (small * p) * unit + rest * p
  {
    assert (small * unit) * p == (small * p) * unit;
  }

  lemma QuotientsScaled(x: nat, y: nat, extra: nat, share: nat, fine: nat, rest: nat, unit: nat, m: nat)
    requires m > 0 && unit > 0 && y == x * unit + extra && extra <= rest * m
    requires share * m <= x < (share + 1) * m && fine * m <= y < (fine + 1) * m
    ensures share * unit <= fine < (share + 1) * unit + rest
  {
    Scaled(share * m, x, unit);
    Swap(share, m, unit);
    Cancel(share * unit, fine + 1, m);
    Scaled(x, (share + 1) * m, unit);
    Swap(share + 1, m, unit);
    SumScaled((share + 1) * unit, rest, m);
    Cancel(fine, (share + 1) * unit + rest, m);
  }

  lemma SumScaled(a: int, b: int, c: int)
    ensures (a + b) * c == a * c + b * c
  {}

  lemma Swap(a: int, b: int, c: int)
    ensures (a * b) * c == (a * c) * b
  {}
}
