// Vote masks against the relayers whose positions they mark: which voters the mask still
// knows, and how votes, new relayers and removals change that.
module Masks {
  import opened Words
  import opened Bits
  import opened AddressSets
  import opened Protocol

  // The set bits of a mask are exactly the positions of the voters, who are all current members.
  ghost predicate MaskMatches(mask: nat, r: Relayers, voters: set<Address>) {
    && (forall x | x in voters :: r.Contains(x))
    && (forall x: Address | r.Contains(x) && r.IndexOf(x) <= 256 :: x in voters <==> BitAt(mask, r.IndexOf(x) - 1))
    && mask < Pow2(|r.values|)
  }

  // Whether hasVoted answers true for x, or x sits where its bit is lost anyway.
  ghost predicate Marked(mask: nat, r: Relayers, x: Address) {
    r.Contains(x) && (r.IndexOf(x) > 256 || BitAt(mask, r.IndexOf(x) - 1))
  }

  // The voters who could vote again and set a bit, now or once they are relayers again.
  ghost function Exposed(mask: nat, r: Relayers, voters: set<Address>): set<Address> {
    set x | x in voters && !Marked(mask, r, x)
  }

  lemma MaskPopcount(mask: nat)
    requires mask < TWO_200
    ensures Popcount(mask) <= VOTE_BITS
  {
    Width200();
    PopcountWithinWidth(mask, VOTE_BITS);
  }

  lemma VoteBitCounted(mask: nat, index: nat)
    requires index > 0 && And(mask, VoteBit(index)) == 0
    ensures Popcount(Or(mask, VoteBit(index))) == Popcount(mask) + if index <= 256 then 1 else 0
  {
    if index > 256 {
      OrWithZero(mask);
    } else {
      AndTestsOneBit(mask, index - 1);
      OrCountsOneBit(mask, index - 1);
    }
  }

  lemma MaskGainsVoter(mask: nat, r: Relayers, voters: set<Address>, x: Address)
    requires MaskMatches(mask, r, voters) && r.Contains(x)
    requires And(mask, VoteBit(r.IndexOf(x))) == 0
    ensures MaskMatches(Or(mask, VoteBit(r.IndexOf(x))), r, voters + {x})
  {
    var index := r.IndexOf(x);
    MembersAreDistinct(r);
    if index > 256 {
      OrWithZero(mask);
    } else {
      AndTestsOneBit(mask, index - 1);
      OrKeepsWidth(mask, index - 1, |r.values|);
      forall y: Address | r.Contains(y) && r.IndexOf(y) <= 256
        ensures y in voters + {x} <==> BitAt(Or(mask, VoteBit(index)), r.IndexOf(y) - 1)
      {
        OrSetsOneBit(mask, index - 1, r.IndexOf(y) - 1);
      }
    }
  }

  // A vote takes its voter out of the exposed ones, if it was there, and exposes nobody.
  lemma ExposedByVote(mask: nat, r: Relayers, voters: set<Address>, x: Address)
    requires r.Contains(x) && And(mask, VoteBit(r.IndexOf(x))) == 0
    ensures var was, now := Exposed(mask, r, voters), Exposed(Or(mask, VoteBit(r.IndexOf(x))), r, voters + {x});
            |now| == |was| - if x in voters && r.IndexOf(x) <= 256 then 1 else 0
  {
    var index := r.IndexOf(x);
    var was, now := Exposed(mask, r, voters), Exposed(Or(mask, VoteBit(index)), r, voters + {x});
    MembersAreDistinct(r);
    if index > 256 {
      OrWithZero(mask);
    } else {
      AndTestsOneBit(mask, index - 1);
      forall y: Address | r.Contains(y) && r.IndexOf(y) <= 256
        ensures BitAt(Or(mask, VoteBit(index)), r.IndexOf(y) - 1) <==> y == x || BitAt(mask, r.IndexOf(y) - 1)
      {
        OrSetsOneBit(mask, index - 1, r.IndexOf(y) - 1);
      }
    }
    assert now == was - {x};
    assert x in was <==> x in voters && index <= 256;
  }

  lemma MaskKeptByAdd(mask: nat, r: Relayers, voters: set<Address>, x: Address)
    requires MaskMatches(mask, r, voters)
    ensures MaskMatches(mask, r.Add(x), voters)
  {
    if !r.Contains(x) {
      WidthGrows(mask, |r.values|);
    }
  }

  lemma ExposedByAdd(mask: nat, r: Relayers, voters: set<Address>, x: Address)
    ensures |Exposed(mask, r.Add(x), voters)| <= |Exposed(mask, r, voters)|
  {
    AddRefinesInsert(r, x);
    SubsetIsSmaller(Exposed(mask, r.Add(x), voters), Exposed(mask, r, voters));
  }

  // A removal exposes at most one more voter: the removed one, if it was marked, or else the
  // last one, who moves to an unmarked position.
  lemma ExposedByRemove(mask: nat, r: Relayers, voters: set<Address>, x: Address)
    requires r.Contains(x)
    ensures |Exposed(mask, r.Remove(x), voters)| <= |Exposed(mask, r, voters)| + 1
  {
    PositionsAfterRemove(r, x);
    MembersAreDistinct(r);
    hide AddressSet.Valid, AddressSet.Remove, BitAt;
    var last := r.values[|r.values| - 1];
    var z := if Marked(mask, r, x) then x else last;
    var was, now := Exposed(mask, r, voters), Exposed(mask, r.Remove(x), voters);
    forall y | y in now && y != z ensures y in was {
      if y != x && r.Contains(y) && r.IndexOf(y) == |r.values| {
        PositionWithin(r, y);
      }
    }
    SubsetIsSmaller(now, was + {z});
  }

  lemma EmptyMask(r: Relayers)
    ensures MaskMatches(0, r, {}) && Exposed(0, r, {}) == {}
  {
    forall x: Address | r.Contains(x) ensures !BitAt(0, r.IndexOf(x) - 1) {
      ZeroHasNoBits(r.IndexOf(x) - 1);
    }
  }
}
