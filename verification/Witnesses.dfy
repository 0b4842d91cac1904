// Concrete runs that show where the conditions of the theorems are needed.
module Witnesses {
  import opened Words
  import opened Bits
  import opened Bytes
  import opened AddressSets
  import opened Masks
  import opened Protocol
  import opened History
  import opened Invariants
  import opened Theorems
  import opened Voting
  import opened Authority

  const DONE := HandlerRun(true, [], true)

  // ----- deployment -----

  lemma {:induction false} GrantAllAppends(s: State, xs: seq<Address>)
    requires forall i, j | 0 <= i < j < |xs| :: xs[i] != xs[j]
    requires forall i | 0 <= i < |xs| :: !s.relayers.Contains(xs[i])
    ensures GrantAll(s, xs).relayers.values == s.relayers.values + xs
    ensures GrantAll(s, xs) == s.(relayers := GrantAll(s, xs).relayers, journal := GrantAll(s, xs).journal)
    decreases |xs|
  {
    hide AddressSet.Valid, AddressSet.Contains;
    if xs != [] {
      var t := Grant(s, xs[0]);
      GrantAppends(s, xs[0]);
      forall i | 0 <= i < |xs[1..]| ensures !t.relayers.Contains(xs[1..][i]) {
        assert xs[1..][i] == xs[i + 1];
      }
      GrantAllAppends(t, xs[1..]);
      assert s.relayers.values + xs == t.relayers.values + xs[1..];
    }
  }

  lemma GrantAppends(s: State, x: Address)
    requires !s.relayers.Contains(x)
    ensures Grant(s, x) == s.(relayers := Grant(s, x).relayers, journal := Then(s.journal, Granted(x)))
    ensures Grant(s, x).relayers.values == s.relayers.values + [x]
    ensures forall y: Address | y != x :: Grant(s, x).relayers.Contains(y) <==> s.relayers.Contains(y)
  {}

  // A bridge deployed with the given relayers and these resources mapped to one handler.
  ghost predicate Fresh(h: Digest, s: State, xs: seq<Address>, threshold: uint8, resources: set<ResourceID>,
                        handler: Address) {
    && Reachable(h, s) && s.relayers.values == xs && s.threshold == threshold && s.expiry == 100 && !s.paused
    && s.proposals == map[] && s.depositCounts == map[] 
    && (forall r :: s.HandlerOf(r) == if r in resources then handler else ZERO_ADDRESS)
    && (forall k :: Votes(s.journal, k) == 0) && (forall e | Occurs(s.journal, e) :: e.Granted? || e.ResourceSet?)
  }

  lemma {:induction false} GrantsOnly(s: State, xs: seq<Address>)
    requires (forall k :: Votes(s.journal, k) == 0) && (forall e | Occurs(s.journal, e) :: e.Granted?)
    ensures (forall k :: Votes(GrantAll(s, xs).journal, k) == 0)
    ensures (forall e | Occurs(GrantAll(s, xs).journal, e) :: e.Granted?)
    decreases |xs|
  {
    hide AddressSet.Valid, AddressSet.Contains;
    if xs != [] {
      GrantsOnly(Grant(s, xs[0]), xs[1..]);
    }
  }

  lemma Deployed(h: Digest, xs: seq<Address>, threshold: uint8, handler: Address) returns (s: State)
    requires forall i, j | 0 <= i < j < |xs| :: xs[i] != xs[j]
    ensures Fresh(h, s, xs, threshold, {}, handler)
  {
    hide AddressSet.Add, GrantAll;
    var blank := State(map[], map[], AddressSet([], map[]), threshold, 100, map[], false, Empty);
    GrantAllAppends(blank, xs);
    GrantsOnly(blank, xs);
    s := Deploy(xs, threshold, 100).value;
    assert s == RunAll(h, s, []);
  }

  lemma Mapped(h: Digest, s: State, xs: seq<Address>, threshold: uint8, resources: set<ResourceID>, handler: Address,
               r: ResourceID)
      returns (t: State)
    requires Fresh(h, s, xs, threshold, resources, handler)
    ensures Fresh(h, t, xs, threshold, resources + {r}, handler)
    ensures t == MapResource(s, r, handler)
  {
    hide AddressSet.Valid, Reachable, RunAll;
    t := MapResource(s, r, handler);
    var a := SetResource(r, handler, DONE);
    EmptyRun(h, t);
    assert Step(h, s, a) == Ok(t);
    ReachableAfter(h, s, a);
    assert forall other :: t.HandlerOf(other) == if other == r then handler else s.HandlerOf(other);
    assert forall e | Occurs(t.journal, e) :: e == ResourceSet(r, handler) || Occurs(s.journal, e);
    assert forall k :: Votes(t.journal, k) == Votes(s.journal, k);
  }

  lemma EmptyRun(h: Digest, s: State)
    ensures RunAll(h, s, []) == s
  {}

  lemma PositionOf(r: Relayers, i: nat)
    requires i < |r.values|
    ensures r.Contains(r.values[i]) && r.IndexOf(r.values[i]) == i + 1
  {}

  // ----- votes -----

  // The vote is counted on the record: a relayer, a free bit, in time.
  predicate Countable(s: State, a: Action, record: Proposal)
    requires a.Vote?
  {
    && s.relayers.Contains(a.sender) && !s.paused && s.HandlerOf(a.resourceID) != ZERO_ADDRESS
    && record.yesVotesTotal < 255 && record.proposedBlock <= a.block && !AgeExceeds(a.block, record, s.expiry)
    && !HasVoted(record, s.relayers.IndexOf(a.sender))
    && Or(record.yesVotes, VoteBit(s.relayers.IndexOf(a.sender))) < TWO_200
  }

  lemma VoteCounts(h: Digest, s: State, a: Action)
    requires a.Vote? && a.block < TWO_40
    requires s.Record(KeyOfVote(h, s, a)).status.Inactive? || s.Record(KeyOfVote(h, s, a)).status.Active?
    requires Countable(s, a, Opened(s, a, KeyOfVote(h, s, a)))
    requires s.Record(KeyOfVote(h, s, a)).status.Inactive? ==> s.Record(KeyOfVote(h, s, a)).yesVotes == 0
    ensures var t := PassIfReached(Counted(h, s, a), KeyOfVote(h, s, a));
            if t.Record(KeyOfVote(h, s, a)).status.Passed? then
              Step(h, s, a) == CallStep(h, t, a.sender, KeyOfVote(h, s, a), s.HandlerOf(a.resourceID),
                                        a.destinationDomainID, a.resourceID, a.data, false, a.run)
            else After(h, s, a) == t
  {
    hide AddressSet.Valid, CallStep, Or, And, PassIfReached;
    assert Step(h, s, a) == VoteStep(h, s, a);
  }

  // A vote below the threshold is recorded and nothing else happens.
  lemma OpenVote(h: Digest, s: State, a: Action)
    requires a.Vote? && a.block < TWO_40 && s.threshold > 1
    requires s.Record(KeyOfVote(h, s, a)) == Proposal(Inactive, 0, 0, 0)
    requires s.relayers.Contains(a.sender) && !s.paused && s.HandlerOf(a.resourceID) != ZERO_ADDRESS
    requires s.relayers.IndexOf(a.sender) <= 200 || s.relayers.IndexOf(a.sender) > 256
    ensures After(h, s, a) == Counted(h, s, a)
    ensures Counted(h, s, a).Record(KeyOfVote(h, s, a))
         == Proposal(Active, Or(0, VoteBit(s.relayers.IndexOf(a.sender))), 1, a.block)
  {
    hide AddressSet.Valid, CallStep, Or, Step;
    FreeBit(0, s.relayers.IndexOf(a.sender));
    VoteCounts(h, s, a);
  }

  // The second vote, from a position the first one did not mark, passes a threshold of two,
  // and the handler is called under the terms of this vote.
  lemma PassingVote(h: Digest, s: State, a: Action, first: nat)
    requires a.Vote? && a.block < TWO_40 && s.threshold == 2 && a.run.hasCode && a.run.nested == []
    requires 1 <= first && (first <= 200 || first > 256)
    requires var p := s.Record(KeyOfVote(h, s, a));
             p == Proposal(Active, Or(0, VoteBit(first)), 1, p.proposedBlock)
               && p.proposedBlock <= a.block <= p.proposedBlock + s.expiry
    requires s.relayers.Contains(a.sender) && !s.paused && s.HandlerOf(a.resourceID) != ZERO_ADDRESS
    requires s.relayers.IndexOf(a.sender) != first || first > 256
    requires s.relayers.IndexOf(a.sender) <= 200 || s.relayers.IndexOf(a.sender) > 256
    ensures var k, t := KeyOfVote(h, s, a), After(h, s, a);
            var votes := Then(Counted(h, s, a).journal, PassedAt(k, 2));
            && t == s.(proposals := t.proposals, journal := t.journal)
            && t.Record(k).status == (if a.run.succeeds then Executed else Passed)
            && (forall k' | k' != k :: t.Record(k') == s.Record(k'))
            && t.journal == Then(votes, if a.run.succeeds
                                        then Called(k, a.sender, a.destinationDomainID, a.resourceID,
                                                    s.HandlerOf(a.resourceID), a.data)
                                        else CallFailed(k))
  {
    hide AddressSet.Valid, Or, And;
    var index, k := s.relayers.IndexOf(a.sender), KeyOfVote(h, s, a);
    OtherBitFree(first, index);
    VoteCounts(h, s, a) by { hide CallStep; }
    var t := PassIfReached(Counted(h, s, a), k);
    EmptyRun(h, t.Store(k, t.Record(k).(status := Executed)));
  }

  lemma FreeBit(mask: nat, index: nat)
    requires index > 0 && (index <= 200 || index > 256) && mask < TWO_200
    ensures Or(mask, VoteBit(index)) < TWO_200
    ensures mask == 0 ==> And(mask, VoteBit(index)) == 0
  {
    Width200();
    if index > 256 {
      OrWithZero(mask);
    } else {
      OrKeepsWidth(mask, index - 1, 200);
    }
  }

  lemma OtherBitFree(first: nat, index: nat)
    requires 1 <= first && (first <= 200 || first > 256) && 1 <= index && (index <= 200 || index > 256)
    requires index != first || first > 256
    ensures And(Or(0, VoteBit(first)), VoteBit(index)) == 0
    ensures Or(Or(0, VoteBit(first)), VoteBit(index)) < TWO_200
  {
    hide Pow2, Or, And, BitAt;
    var mask := Or(0, VoteBit(first));
    FreeBit(0, first);
    FreeBit(mask, index);
    if index > 256 {
      AndWithZero(mask);
    } else {
      AndTestsOneBit(mask, index - 1);
      ZeroHasNoBits(index - 1);
      if first > 256 {
        OrWithZero(0);
      } else {
        OrSetsOneBit(0, first - 1, index - 1);
      }
    }
  }

  // ----- the runs -----

  // A bridge with two resources mapped to one handler.
  lemma TwoResources(h: Digest, xs: seq<Address>, handler: Address) returns (s: State)
    requires forall i, j | 0 <= i < j < |xs| :: xs[i] != xs[j]
    ensures Fresh(h, s, xs, 2, {7, 8}, handler)
  {
    hide Fresh;
    var s0 := Deployed(h, xs, 2, handler);
    var s1 := Mapped(h, s0, xs, 2, {}, handler, 7);
    s := Mapped(h, s1, xs, 2, {} + {7}, handler, 8);
    assert {} + {7} + {8} == {7, 8};
  }

  // The first vote on a fresh bridge, and what the history then says.
  lemma FirstVote(h: Digest, s: State, xs: seq<Address>, handler: Address, a: Action) returns (t: State)
    requires Fresh(h, s, xs, 2, {7, 8}, handler) && handler != ZERO_ADDRESS
    requires a.Vote? && a.block < TWO_40 && a.resourceID in {7, 8} && s.relayers.Contains(a.sender)
    requires s.relayers.IndexOf(a.sender) <= 200 || s.relayers.IndexOf(a.sender) > 256
    ensures Reachable(h, t) && t == Counted(h, s, a) && t == s.(proposals := t.proposals, journal := t.journal)
    ensures var k := KeyOfVote(h, s, a);
            && t.Record(k) == Proposal(Active, Or(0, VoteBit(s.relayers.IndexOf(a.sender))), 1, a.block)
            && Voters(t.journal, k) == {a.sender} && Votes(t.journal, k) == 1 && Removals(t.journal, k) == 0
  {
    hide Reachable, AddressSet.Valid, Or;
    var k := KeyOfVote(h, s, a);
    OpenVote(h, s, a) by { hide CountVote; }
    ReachableAfter(h, s, a);
    NoVotesNoVoters(s.journal, k);
    t := Counted(h, s, a);
  }

  // Two honest-looking votes, the second under another resource and destination of the same
  // handler: the handler is called under the terms of the second alone.
  lemma ExecutorPicksTerms(h: Digest) returns (s: State, k: Key)
    ensures Reachable(h, s) && s.Record(k).status.Executed?
    ensures Removals(s.journal, k) == 0 && PassThreshold(s.journal, k) == 2 && Voters(s.journal, k) == {1, 2}
    ensures Occurs(s.journal, Voted(k, 1, 1, 5, 7, 9, [])) && Occurs(s.journal, Called(k, 2, 200, 8, 9, []))
  {
    hide Reachable, AddressSet.Valid, Or, Counted;
    var s0 := TwoResources(h, [1, 2], 9);
    PositionOf(s0.relayers, 0);
    PositionOf(s0.relayers, 1);
    var a, b := Vote(1, 10, 5, 6, 1, 7, [], DONE), Vote(2, 11, 200, 6, 1, 8, [], DONE);
    var t := FirstVote(h, s0, [1, 2], 9, a);
    k := KeyOfVote(h, s0, a);
    PassingVote(h, t, b, 1);
    ReachableAfter(h, t, b);
    s := After(h, t, b);
    CountedJournal(h, s0, a);
    CountedJournal(h, t, b);
    RecentEvents(t.journal, Voted(k, 2, 2, 200, 8, 9, []), PassedAt(k, 2), Called(k, 2, 200, 8, 9, []), k);
  }

  lemma CountedJournal(h: Digest, s: State, a: Action)
    requires a.Vote? && s.relayers.Contains(a.sender) && Opened(s, a, KeyOfVote(h, s, a)).yesVotesTotal < 255
    ensures Counted(h, s, a).journal
         == Then(s.journal, Voted(KeyOfVote(h, s, a), a.sender, s.relayers.IndexOf(a.sender), a.destinationDomainID,
                                  a.resourceID, s.HandlerOf(a.resourceID), a.data))
  {}

  // The history after a passing vote and the call it makes.
  lemma RecentEvents(j: Journal, vote: Event, passed: Event, call: Event, k: Key)
    requires vote.Voted? && vote.key == k && passed.PassedAt? && passed.key == k && call.Called? && call.key == k
    ensures var z := Then(Then(Then(j, vote), passed), call);
            && Voters(z, k) == Voters(j, k) + {vote.relayer} && Removals(z, k) == Removals(j, k)
            && PassThreshold(z, k) == passed.threshold
            && (forall e :: Occurs(z, e) <==> e in {vote, passed, call} || Occurs(j, e))
  {
    var j1 := Then(j, vote);
    var j2 := Then(j1, passed);
    assert Voters(j2, k) == Voters(j1, k) && Removals(j2, k) == Removals(j1, k)
           && PassThreshold(j2, k) == passed.threshold;
    assert forall e :: Occurs(j2, e) <==> e == passed || Occurs(j1, e);
  }

  // The second of two relayers moves to the position of the first.
  lemma FirstRelayerLeaves(h: Digest, s: State, k: Key) returns (t: State)
    requires Reachable(h, s) && s.relayers.values == [1, 2] && Votes(s.journal, k) > 0 && Removals(s.journal, k) == 0
    ensures Reachable(h, t) && t == s.(relayers := t.relayers, journal := Then(s.journal, Revoked(1)))
    ensures t.relayers.Contains(2) && t.relayers.IndexOf(2) == 1
    ensures Voters(t.journal, k) == Voters(s.journal, k) && Removals(t.journal, k) == 1
  {
    hide Reachable, AddressSet.Valid, AddressSet.Remove;
    PositionOf(s.relayers, 0);
    PositionOf(s.relayers, 1);
    PositionsAfterRemove(s.relayers, 1);
    t := Revoke(s, 1);
    assert After(h, s, RevokeRelayer(1)) == t;
    ReachableAfter(h, s, RevokeRelayer(1));
  }

  // One relayer passes a threshold of two alone: it votes, an earlier relayer is removed, it
  // moves to the free position and votes again.
  lemma OneVoterAfterRemoval(h: Digest) returns (s: State, k: Key)
    ensures Reachable(h, s) && s.Record(k).status.Executed?
    ensures Voters(s.journal, k) == {2} && PassThreshold(s.journal, k) == 2 && Removals(s.journal, k) == 1
  {
    hide Reachable, AddressSet.Valid, Or, Counted, AddressSet.Remove;
    var s0 := TwoResources(h, [1, 2], 9);
    PositionOf(s0.relayers, 0);
    PositionOf(s0.relayers, 1);
    var a, b := Vote(2, 10, 5, 6, 1, 7, [], DONE), Vote(2, 11, 5, 6, 1, 7, [], DONE);
    var t := FirstVote(h, s0, [1, 2], 9, a);
    k := KeyOfVote(h, s0, a);
    var r := FirstRelayerLeaves(h, t, k);
    PassingVote(h, r, b, 2);
    ReachableAfter(h, r, b);
    s := After(h, r, b);
    CountedJournal(h, r, b);
    RecentEvents(r.journal, Voted(k, 2, 1, 5, 7, 9, []), PassedAt(k, 2), Called(k, 2, 5, 7, 9, []), k);
  }

  lemma ManyRelayers() returns (xs: seq<Address>)
    ensures |xs| == 257 && xs[256] == 257
    ensures forall i, j | 0 <= i < j < |xs| :: xs[i] != xs[j]
  {
    xs := seq(257, i requires 0 <= i < 257 => i + 1);
  }

  // Without any removal, a relayer at position 257 passes a threshold of two alone.
  lemma OneVoterFromAbove(h: Digest) returns (s: State, k: Key)
    ensures Reachable(h, s) && s.Record(k).status.Executed?
    ensures Voters(s.journal, k) == {257} && PassThreshold(s.journal, k) == 2 && Removals(s.journal, k) == 0
  {
    hide Reachable, AddressSet.Valid, Or, Counted;
    var xs := ManyRelayers();
    var s0 := TwoResources(h, xs, 9);
    PositionOf(s0.relayers, 256);
    var a, b := Vote(257, 10, 5, 6, 1, 7, [], DONE), Vote(257, 11, 5, 6, 1, 7, [], DONE);
    var t := FirstVote(h, s0, xs, 9, a);
    k := KeyOfVote(h, s0, a);
    PassingVote(h, t, b, 257);
    ReachableAfter(h, t, b);
    s := After(h, t, b);
    CountedJournal(h, t, b);
    RecentEvents(t.journal, Voted(k, 257, 257, 5, 7, 9, []), PassedAt(k, 2), Called(k, 257, 5, 7, 9, []), k);
  }

  // The vote counter can differ from the number of set bits: a vote from position 257 counts
  // and sets no bit.
  lemma CounterWithoutBits(h: Digest) returns (s: State, k: Key)
    ensures Reachable(h, s)
    ensures s.Record(k).yesVotesTotal == 1 && Popcount(s.Record(k).yesVotes) == 0
  {
    hide Reachable, AddressSet.Valid, Or, Counted;
    var xs := ManyRelayers();
    var s0 := TwoResources(h, xs, 9);
    PositionOf(s0.relayers, 256);
    var a := Vote(257, 10, 5, 6, 1, 7, [], DONE);
    s := FirstVote(h, s0, xs, 9, a);
    k := KeyOfVote(h, s0, a);
    OrWithZero(0);
  }

  function SecondVote(block: nat, run: HandlerRun): Action {
    Vote(2, block, 5, 6, 1, 7, [], run)
  }

  // One vote short for good: relayer 2 would reach the threshold, but the handler has no code,
  // so the vote is undone and the proposal expires. Had the handler merely failed, the proposal
  // would have passed.
  lemma StuckWithoutCode(h: Digest) returns (s: State, k: Key)
    ensures Reachable(h, s) && s.Record(k).status.Active? && s.Record(k).yesVotesTotal == 1 && s.threshold == 2
    ensures var codeless := SecondVote(11, HandlerRun(false, [], true));
            KeyOfVote(h, s, codeless) == k && s.relayers.Contains(2)
            && Step(h, s, codeless).Err? && After(h, s, codeless) == s
    ensures After(h, s, SecondVote(11, HandlerRun(true, [], false))).Record(k).status.Passed?
    ensures After(h, s, SecondVote(111, DONE)).Record(k).status.Cancelled?
  {
    hide Reachable, AddressSet.Valid, Or, Counted;
    var s0 := TwoResources(h, [1, 2], 9);
    PositionOf(s0.relayers, 0);
    PositionOf(s0.relayers, 1);
    var first := Vote(1, 10, 5, 6, 1, 7, [], DONE);
    s := FirstVote(h, s0, [1, 2], 9, first);
    k := KeyOfVote(h, s0, first);
    hide Fresh, After, Step;
    OneVoteShort(h, s);
  }

  lemma OneVoteShort(h: Digest, s: State)
    requires Reachable(h, s) && !s.paused && s.threshold == 2 && s.expiry == 100 && s.HandlerOf(7) == 9
    requires s.relayers.IndexOf(2) == 2
    requires s.Record(KeyOfVote(h, s, SecondVote(11, DONE))) == Proposal(Active, Or(0, VoteBit(1)), 1, 10)
    ensures var codeless := SecondVote(11, HandlerRun(false, [], true));
            Step(h, s, codeless).Err? && After(h, s, codeless) == s
    ensures var k := KeyOfVote(h, s, SecondVote(11, DONE));
            && After(h, s, SecondVote(11, HandlerRun(true, [], false))).Record(k).status.Passed?
            && After(h, s, SecondVote(111, DONE)).Record(k).status.Cancelled?
  {
    hide Reachable, AddressSet.Valid, Or, Step, BitAt, VoteStep;
    SecondBitFree();
    CodelessHandlerUndoesVote(h, s, SecondVote(11, HandlerRun(false, [], true)));
    CodelessHandlerUndoesVote(h, s, SecondVote(11, HandlerRun(true, [], false)));
    LateVote(h, s, SecondVote(111, DONE));
    StepOfVote(h, s, SecondVote(111, DONE));
  }

  lemma SecondBitFree()
    ensures !BitAt(Or(0, VoteBit(1)), 1) && And(Or(0, VoteBit(1)), VoteBit(2)) == 0
  {
    OtherBitFree(1, 2);
    AndTestsOneBit(Or(0, VoteBit(1)), 1);
  }
}
