// The exact answer to a vote: when it is accepted, what it changes, and what becomes of it when
// the handler fails or has no code.
module Voting {
  import opened Words
  import opened Bits
  import opened Bytes
  import opened AddressSets
  import opened Masks
  import opened Protocol
  import opened History
  import opened Invariants
  import opened Theorems
  import opened Operations

  function KeyOfVote(h: Digest, s: State, a: Action): Key
    requires a.Vote?
  {
    ProposalKey(h, a.domainID, a.depositNonce, s.HandlerOf(a.resourceID), a.data)
  }

  predicate Late(s: State, p: Proposal, block: nat) {
    p.status.Active? && p.proposedBlock <= block && (block - p.proposedBlock) % TWO_40 > s.expiry
  }

  // The position can still add a vote: its bit is lost anyway, or free and within the mask.
  predicate CanVoteAt(mask: nat, index: nat)
    requires index > 0
  {
    index > 256 || (index <= VOTE_BITS && !BitAt(mask, index - 1))
  }

  // A vote on an open or new proposal is accepted if and only if it comes from a relayer while
  // the bridge runs, for a mapped resource and not before the proposal, and then: late, if its
  // bit is free or lost (the proposal is cancelled); in time, if its position can still vote
  // and, should it reach the threshold, the handler has code.
  lemma VoteAccepted(h: Digest, s: State, a: Action)
    requires Reachable(h, s) && a.Vote?
    requires var p := s.Record(KeyOfVote(h, s, a)); p.status.Active? || p.status.Inactive?
    ensures var p, index := s.Record(KeyOfVote(h, s, a)), s.relayers.IndexOf(a.sender);
            Step(h, s, a).Ok? <==>
              && index > 0 && !s.paused && s.HandlerOf(a.resourceID) != ZERO_ADDRESS
              && (p.status.Active? ==> p.proposedBlock <= a.block)
              && if Late(s, p, a.block) then index > 256 || !BitAt(p.yesVotes, index - 1)
                 else CanVoteAt(p.yesVotes, index) && (p.yesVotesTotal + 1 >= s.threshold ==> a.run.hasCode)
  {
    hide Reachable, Step, VoteStep, CallInv, QuorumInv, SizeInv, NonceInv, Genuine, AddressSet.Valid, BitAt;
    var k := KeyOfVote(h, s, a);
    ReachableInvFor(h, s, k);
    assert Step(h, s, a) == VoteStep(h, s, a) by { StepOfVote(h, s, a); }
    if s.Record(k).status.Inactive? {
      InactiveIsBlank(h, s, k);
    }
    AnswerOfStep(h, s, a);
  }

  // An accepted late vote cancels the proposal and does nothing else. One in time adds one to the
  // counter and the voter's bit to the mask, and keeps the block the proposal was opened at. Below
  // the threshold the proposal stays open; at the threshold it passes, and is executed if the
  // handler returns.
  lemma VoteEffect(h: Digest, s: State, a: Action)
    requires Reachable(h, s) && a.Vote? && Step(h, s, a).Ok?
    requires var p := s.Record(KeyOfVote(h, s, a)); p.status.Active? || p.status.Inactive?
    ensures var k, t, index := KeyOfVote(h, s, a), After(h, s, a), s.relayers.IndexOf(a.sender);
            var p, q := s.Record(k), t.Record(k);
            if Late(s, p, a.block) then
              OnlyRecord(s, t, k) && q == p.(status := Cancelled) && t.journal == s.journal
            else
              && q.yesVotesTotal == p.yesVotesTotal + 1
              && q.proposedBlock == (if p.status.Inactive? then a.block % TWO_40 else p.proposedBlock)
              && (forall i: nat :: BitAt(q.yesVotes, i) <==>
                    BitAt(p.yesVotes, i) || (i == index - 1 && index <= VOTE_BITS))
              && q.status == (if p.yesVotesTotal + 1 < s.threshold then Active
                              else if a.run.succeeds then Executed else Passed)
              && (!q.status.Executed? ==> OnlyRecord(s, t, k))
  {
    hide Reachable, Step, VoteStep, CallInv, QuorumInv, SizeInv, NonceInv, Genuine, AddressSet.Valid, BitAt;
    var k, index := KeyOfVote(h, s, a), s.relayers.IndexOf(a.sender);
    ReachableInvFor(h, s, k);
    VoteAccepted(h, s, a);
    StepOfVote(h, s, a);
    if s.Record(k).status.Inactive? {
      InactiveIsBlank(h, s, k);
    }
    if Late(s, s.Record(k), a.block) {
      LateVoteStep(h, s, a);
    } else {
      CountedVoteStep(h, s, a);
    }
  }

  lemma LateVoteStep(h: Digest, s: State, a: Action)
    requires a.Vote? && VoteStep(h, s, a).Ok? && Late(s, s.Record(KeyOfVote(h, s, a)), a.block)
    ensures VoteStep(h, s, a)
         == Ok(s.Store(KeyOfVote(h, s, a), s.Record(KeyOfVote(h, s, a)).(status := Cancelled)))
  {
    hide AddressSet.Valid, HasVoted, CallStep, CountVote, PassIfReached, Or;
  }

  // The record a vote is counted on, and the storage after the vote.
  function Opened(s: State, a: Action, k: Key): Proposal
    requires a.Vote?
  {
    if s.Record(k).status.Inactive? then Proposal(Active, 0, 0, a.block % TWO_40) else s.Record(k)
  }

  function Counted(h: Digest, s: State, a: Action): State
    requires a.Vote? && s.relayers.Contains(a.sender) && Opened(s, a, KeyOfVote(h, s, a)).yesVotesTotal < 255
  {
    var k := KeyOfVote(h, s, a);
    CountVote(s, k, Opened(s, a, k), a.sender, a.destinationDomainID, a.resourceID, a.data)
  }

  function Tallied(h: Digest, s: State, a: Action): State
    requires a.Vote? && s.relayers.Contains(a.sender) && Opened(s, a, KeyOfVote(h, s, a)).yesVotesTotal < 255
  {
    PassIfReached(Counted(h, s, a), KeyOfVote(h, s, a))
  }

  lemma CountedVoteStep(h: Digest, s: State, a: Action)
    requires a.Vote? && VoteStep(h, s, a).Ok? && Inv(h, s, Watch(KeyOfVote(h, s, a), false, 0, 0, false))
    requires var p := s.Record(KeyOfVote(h, s, a));
             !Late(s, p, a.block) && (p.status.Active? || (p.status.Inactive? && p.yesVotes == p.yesVotesTotal == 0))
    ensures var k, t, index := KeyOfVote(h, s, a), VoteStep(h, s, a).value, s.relayers.IndexOf(a.sender);
            var p, q := s.Record(k), t.Record(k);
            && index > 0 && q.yesVotesTotal == p.yesVotesTotal + 1
            && q.proposedBlock == (if p.status.Inactive? then a.block % TWO_40 else p.proposedBlock)
            && (forall i: nat :: BitAt(q.yesVotes, i) <==>
                  BitAt(p.yesVotes, i) || (i == index - 1 && index <= VOTE_BITS))
            && q.status == (if p.yesVotesTotal + 1 < s.threshold then Active
                            else if a.run.succeeds then Executed else Passed)
            && (!q.status.Executed? ==> OnlyRecord(s, t, k))
  {
    hide Inv, BitAt, AddressSet.Valid;
    var k := KeyOfVote(h, s, a);
    RoomOfInv(h, s, k);
    CountedFirst(h, s, a);
    CountedRecord(h, s, a);
    var t := Tallied(h, s, a);
    hide Tallied, Counted, VoteStep, CallStep;
    if t.Record(k).status.Passed? {
      CallEffect(h, t, a.sender, k, s.HandlerOf(a.resourceID), a.destinationDomainID, a.resourceID, a.data, false,
                 a.run);
    }
  }

  // The shape of a counted vote, and what its checks have established.
  lemma CountedFirst(h: Digest, s: State, a: Action)
    requires a.Vote? && VoteStep(h, s, a).Ok? && Inv(h, s, Watch(KeyOfVote(h, s, a), false, 0, 0, false))
    requires var p := s.Record(KeyOfVote(h, s, a));
             !Late(s, p, a.block) && (p.status.Active? || (p.status.Inactive? && p.yesVotes == p.yesVotesTotal == 0))
    ensures s.relayers.Contains(a.sender) && Opened(s, a, KeyOfVote(h, s, a)).yesVotesTotal < 255
    ensures Or(Opened(s, a, KeyOfVote(h, s, a)).yesVotes, VoteBit(s.relayers.IndexOf(a.sender))) < TWO_200
    ensures Inv(h, Tallied(h, s, a), Watch(KeyOfVote(h, s, a), false, 0, 0, false))
    ensures var k, t := KeyOfVote(h, s, a), Tallied(h, s, a);
            VoteStep(h, s, a) ==
            if t.Record(k).status.Passed? then
              CallStep(h, t, a.sender, k, s.HandlerOf(a.resourceID), a.destinationDomainID, a.resourceID, a.data, false,
                       a.run)
            else Ok(t)
  {
    hide Inv, CallStep, CountVote, PassIfReached, Or, And, AddressSet.Valid;
    var k := KeyOfVote(h, s, a);
    RoomOfInv(h, s, k);
    CountVoteKeeps(h, s, k, Opened(s, a, k), a.sender, a.destinationDomainID, a.resourceID, a.data,
                   Watch(k, false, 0, 0, false));
  }

  lemma RoomOfInv(h: Digest, s: State, k: Key)
    requires Inv(h, s, Watch(k, false, 0, 0, false))
    ensures HasRoom(s, k) && s.Record(k).yesVotes < TWO_200
  {}

  lemma CountedRecord(h: Digest, s: State, a: Action)
    requires a.Vote? && s.relayers.Contains(a.sender) && Opened(s, a, KeyOfVote(h, s, a)).yesVotesTotal < 255
    requires Or(Opened(s, a, KeyOfVote(h, s, a)).yesVotes, VoteBit(s.relayers.IndexOf(a.sender))) < TWO_200
    requires Opened(s, a, KeyOfVote(h, s, a)).yesVotes < TWO_200
    ensures var k, t, index := KeyOfVote(h, s, a), Tallied(h, s, a), s.relayers.IndexOf(a.sender);
            var p, q := Opened(s, a, k), t.Record(k);
            && OnlyRecord(s, t, k) && index > 0
            && q.yesVotesTotal == p.yesVotesTotal + 1 && q.proposedBlock == p.proposedBlock
            && (forall i: nat :: BitAt(q.yesVotes, i) <==>
                  BitAt(p.yesVotes, i) || (i == index - 1 && index <= VOTE_BITS))
            && q.status == (if p.yesVotesTotal + 1 < s.threshold then Active else Passed)
  {
    hide AddressSet.Valid, Or, BitAt, Opened;
    VoteSetsBit(Opened(s, a, KeyOfVote(h, s, a)).yesVotes, s.relayers.IndexOf(a.sender));
  }

  lemma VoteSetsBit(mask: nat, index: nat)
    requires index > 0 && mask < TWO_200 && Or(mask, VoteBit(index)) < TWO_200
    ensures forall i: nat :: BitAt(Or(mask, VoteBit(index)), i) <==>
              BitAt(mask, i) || (i == index - 1 && index <= VOTE_BITS)
  {
    hide Or, BitAt;
    MaskTests(mask, index);
    if index > 256 {
      OrWithZero(mask);
    } else {
      forall i: nat ensures BitAt(Or(mask, VoteBit(index)), i) <==> BitAt(mask, i) || i == index - 1 {
        OrSetsOneBit(mask, index - 1, i);
      }
    }
  }

  lemma AnswerOfStep(h: Digest, s: State, a: Action)
    requires a.Vote?
    requires var p := s.Record(KeyOfVote(h, s, a));
             && p.yesVotes < TWO_200 && p.yesVotesTotal < 255
             && (p.status.Active? || (p.status.Inactive? && p.yesVotes == p.yesVotesTotal == 0))
    ensures var p, index := s.Record(KeyOfVote(h, s, a)), s.relayers.IndexOf(a.sender);
            VoteStep(h, s, a).Ok? <==>
              && index > 0 && !s.paused && s.HandlerOf(a.resourceID) != ZERO_ADDRESS
              && (p.status.Active? ==> p.proposedBlock <= a.block)
              && if Late(s, p, a.block) then index > 256 || !BitAt(p.yesVotes, index - 1)
                 else CanVoteAt(p.yesVotes, index) && (p.yesVotesTotal + 1 >= s.threshold ==> a.run.hasCode)
  {
    hide RunAll, AddressSet.Valid, And, Or, BitAt;
    var index := s.relayers.IndexOf(a.sender);
    if index > 0 {
      MaskTests(s.Record(KeyOfVote(h, s, a)).yesVotes, index);
    }
  }

  lemma InactiveIsBlank(h: Digest, s: State, k: Key)
    requires Reachable(h, s) && s.Record(k).status.Inactive?
    ensures s.Record(k).yesVotes == 0 && s.Record(k).yesVotesTotal == 0
  {
    hide Reachable;
    ReachableInvFor(h, s, k);
    NoBitsCounted(s.Record(k).yesVotes);
  }

  // The two mask tests of a vote, by position.
  lemma MaskTests(mask: nat, index: nat)
    requires index > 0 && mask < TWO_200
    ensures And(mask, VoteBit(index)) > 0 <==> index <= 256 && BitAt(mask, index - 1)
    ensures Or(mask, VoteBit(index)) < TWO_200 <==> index > 256 || index <= VOTE_BITS
    ensures And(0, VoteBit(index)) == 0 && !BitAt(0, index - 1)
  {
    hide Pow2;
    Width200();
    ZeroHasNoBits(index - 1);
    if index > 256 {
      AndWithZero(mask);
      OrWithZero(mask);
    } else {
      AndTestsOneBit(mask, index - 1);
      OrKeepsWidth(mask, index - 1, VOTE_BITS);
    }
  }

  // A vote that finds the proposal passed executes it: it commits if and only if the handler
  // returns, and is undone otherwise.
  lemma VoteOnPassed(h: Digest, s: State, a: Action)
    requires Reachable(h, s) && a.Vote? && s.Record(KeyOfVote(h, s, a)).status.Passed?
    ensures Step(h, s, a).Ok? <==>
              && s.relayers.Contains(a.sender) && !s.paused && s.HandlerOf(a.resourceID) != ZERO_ADDRESS
              && a.run.hasCode && a.run.succeeds
    ensures Step(h, s, a).Err? ==> After(h, s, a) == s
    ensures Step(h, s, a).Ok? ==>
              var k, t := KeyOfVote(h, s, a), After(h, s, a);
              && t.Record(k) == s.Record(k).(status := Executed) && t.journal.Then?
              && t.journal.event == Called(k, a.sender, a.destinationDomainID, a.resourceID,
                                           s.HandlerOf(a.resourceID), a.data)
  {
    hide Reachable, Step, VoteStep, Inv, CallStep, AddressSet.Valid;
    var k := KeyOfVote(h, s, a);
    ReachableInvFor(h, s, k);
    StepOfVote(h, s, a);
    PassedVoteStep(h, s, a);
    if VoteStep(h, s, a).Ok? {
      CallEffect(h, s, a.sender, k, s.HandlerOf(a.resourceID), a.destinationDomainID, a.resourceID, a.data, true,
                 a.run);
    }
  }

  lemma PassedVoteStep(h: Digest, s: State, a: Action)
    requires a.Vote? && s.Record(KeyOfVote(h, s, a)).status.Passed?
    ensures VoteStep(h, s, a).Ok? <==>
              && s.relayers.Contains(a.sender) && !s.paused && s.HandlerOf(a.resourceID) != ZERO_ADDRESS
              && a.run.hasCode && a.run.succeeds
    ensures VoteStep(h, s, a).Ok? ==>
              VoteStep(h, s, a) == CallStep(h, s, a.sender, KeyOfVote(h, s, a), s.HandlerOf(a.resourceID),
                                            a.destinationDomainID, a.resourceID, a.data, true, a.run)
  {
    hide RunAll, HasVoted, AddressSet.Valid;
  }

  // No vote on an executed or cancelled proposal is accepted.
  lemma VoteOnFinal(h: Digest, s: State, a: Action)
    requires a.Vote?
    requires var p := s.Record(KeyOfVote(h, s, a)); p.status.Executed? || p.status.Cancelled?
    ensures Step(h, s, a).Err? && After(h, s, a) == s
  {
    hide VoteStep;
    StepOfVote(h, s, a);
    FinalVoteStep(h, s, a);
  }

  lemma FinalVoteStep(h: Digest, s: State, a: Action)
    requires a.Vote?
    requires var p := s.Record(KeyOfVote(h, s, a)); p.status.Executed? || p.status.Cancelled?
    ensures VoteStep(h, s, a).Err?
  {
    hide CallStep, HasVoted, AddressSet.Valid;
  }

  // A relayer whose vote is counted cannot vote again while the proposal is open, over any run
  // without removals.
  lemma NoSecondVote(h: Digest, s: State, a: Action)
    requires Reachable(h, s) && a.Vote? && s.relayers.IndexOf(a.sender) <= 256
    requires var k := KeyOfVote(h, s, a);
             s.Record(k).status.Active? && Removals(s.journal, k) == 0 && a.sender in Voters(s.journal, k)
    ensures Step(h, s, a).Err?
  {
    hide Step, AddressSet.Valid, Reachable, BitAt;
    ReachableInvFor(h, s, KeyOfVote(h, s, a));
    VoteAccepted(h, s, a);
  }

  // A vote in time that reaches the threshold commits if and only if the handler has code, be
  // it that the handler then fails. Without code the vote itself is undone.
  lemma CodelessHandlerUndoesVote(h: Digest, s: State, a: Action)
    requires Reachable(h, s) && a.Vote? && s.relayers.Contains(a.sender) && !s.paused
    requires s.HandlerOf(a.resourceID) != ZERO_ADDRESS
    requires var p := s.Record(KeyOfVote(h, s, a));
             && (p.status.Inactive? || (p.status.Active? && p.proposedBlock <= a.block && !Late(s, p, a.block)))
             && CanVoteAt(p.yesVotes, s.relayers.IndexOf(a.sender)) && p.yesVotesTotal + 1 >= s.threshold
    ensures Step(h, s, a).Ok? <==> a.run.hasCode
    ensures !a.run.hasCode ==> After(h, s, a) == s
    ensures a.run.hasCode ==>
              After(h, s, a).Record(KeyOfVote(h, s, a)).status == if a.run.succeeds then Executed else Passed
  {
    hide Reachable, AddressSet.Valid, BitAt, Step;
    VoteAccepted(h, s, a);
    if a.run.hasCode {
      VoteEffect(h, s, a);
    }
  }
}
