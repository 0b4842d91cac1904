// What the bridge guarantees in every reachable state, whatever the handlers do.
module Theorems {
  import opened Words
  import opened Bits
  import opened Bytes
  import opened AddressSets
  import opened Masks
  import opened Protocol
  import opened History
  import opened Invariants

  // Proofs about votes work on the transition of votes alone.
  lemma StepOfVote(h: Digest, s: State, a: Action)
    requires a.Vote?
    ensures Step(h, s, a) == VoteStep(h, s, a)
  {}

  // Outside of any call: nothing is being executed or deposited.
  ghost predicate Idle(w: Watch) {
    !w.calling && !w.depositing
  }

  lemma ReachableInv(h: Digest, s: State, w: Watch)
    requires Reachable(h, s) && Idle(w)
    ensures Inv(h, s, w)
  {
    hide Inv, RunAll, GrantAll;
    var relayers, threshold, expiry, actions :|
      Deploy(relayers, threshold, expiry).Ok? && s == RunAll(h, Deploy(relayers, threshold, expiry).value, actions);
    var blank := State(map[], map[], AddressSet([], map[]), threshold, expiry, map[], false, Empty);
    BlankInv(h, blank, w);
    GrantAllKeeps(h, blank, relayers, w);
    RunKeeps(h, GrantAll(blank, relayers), actions, w);
  }

  lemma BlankInv(h: Digest, s: State, w: Watch)
    requires Idle(w) && s.proposals == map[] && s.depositCounts == map[] && s.handlers == map[]
             && s.relayers.values == [] && s.journal == Empty
    ensures Inv(h, s, w)
  {
    hide MaskMatches, AddressSet.Valid;
    EmptyMask(s.relayers);
  }

  lemma {:induction false} GrantAllKeeps(h: Digest, s: State, xs: seq<Address>, w: Watch)
    requires Inv(h, s, w)
    ensures Inv(h, GrantAll(s, xs), w)
    decreases |xs|
  {
    hide Inv;
    if xs != [] {
      GrantKeeps(h, s, xs[0], w);
      GrantAllKeeps(h, Grant(s, xs[0]), xs[1..], w);
    }
  }

  lemma ReachableInvFor(h: Digest, s: State, k: Key)
    requires Reachable(h, s)
    ensures Inv(h, s, Watch(k, false, 0, 0, false))
  {
    ReachableInv(h, s, Watch(k, false, 0, 0, false));
  }

  lemma ReachableAfter(h: Digest, s: State, a: Action)
    requires Reachable(h, s)
    ensures Reachable(h, After(h, s, a))
  {
    var relayers, threshold, expiry, actions :|
      Deploy(relayers, threshold, expiry).Ok? && s == RunAll(h, Deploy(relayers, threshold, expiry).value, actions);
    RunAppends(h, Deploy(relayers, threshold, expiry).value, actions, a);
  }

  lemma {:induction false} RunAppends(h: Digest, s: State, actions: seq<Action>, a: Action)
    ensures RunAll(h, s, actions + [a]) == After(h, RunAll(h, s, actions), a)
    decreases |actions|
  {
    if actions == [] {
      assert [] + [a] == [a] && RunAll(h, After(h, s, a), []) == After(h, s, a);
    } else {
      assert (actions + [a])[1..] == actions[1..] + [a];
      RunAppends(h, After(h, s, actions[0]), actions[1..], a);
    }
  }

  // A handler in force was mapped by a recorded call.
  lemma MappingOnRecord(h: Digest, s: State, r: ResourceID)
    requires Reachable(h, s)
    ensures Sourced(s.journal, r, s.HandlerOf(r))
  {
    hide Reachable;
    ReachableInvFor(h, s, Key(0, 0));
    assert r in s.handlers ==> Sourced(s.journal, r, s.handlers[r]);
  }

  // At-most-once execution: one committed successful handler call if the proposal is
  // Executed, none otherwise, however handlers re-enter the bridge.
  lemma ExecutedExactlyOnce(h: Digest, s: State, k: Key)
    requires Reachable(h, s)
    ensures Calls(s.journal, k) == if s.Record(k).status.Executed? then 1 else 0
  {
    ReachableInvFor(h, s, k);
  }

  // The exact law of the vote counter. It equals the number of set bits if and only if no
  // vote was counted from a position above 256, where the shifted bit falls off the word.
  lemma CounterAgainstBits(h: Digest, s: State, k: Key)
    requires Reachable(h, s)
    ensures s.Record(k).yesVotesTotal == Votes(s.journal, k) == Popcount(s.Record(k).yesVotes) + WideVotes(s.journal, k)
    ensures s.Record(k).yesVotesTotal == Popcount(s.Record(k).yesVotes) <==> WideVotes(s.journal, k) == 0
    ensures WideVotes(s.journal, k) == 0 ==> s.Record(k).yesVotesTotal <= VOTE_BITS
    ensures PeakRelayers(s.journal) <= 256 ==> WideVotes(s.journal, k) == 0
  {
    ReachableInvFor(h, s, k);
    MaskPopcount(s.Record(k).yesVotes);
  }

  // The checked increment never fails, however many votes lost their bit: the threshold fits
  // eight bits too, so a proposal whose counter is full has passed.
  lemma IncrementNeverFails(h: Digest, s: State, a: Action)
    requires Reachable(h, s) && a.Vote?
    ensures Step(h, s, a) != Err(TotalOverflow)
  {
    hide Reachable, VoteStep;
    ReachableInvFor(h, s, ProposalKey(h, a.domainID, a.depositNonce, s.HandlerOf(a.resourceID), a.data));
    RoomForVote(h, s, a);
    assert Step(h, s, a) == VoteStep(h, s, a);
  }

  lemma RoomForVote(h: Digest, s: State, a: Action)
    requires a.Vote?
    requires HasRoom(s, ProposalKey(h, a.domainID, a.depositNonce, s.HandlerOf(a.resourceID), a.data))
    ensures VoteStep(h, s, a) != Err(TotalOverflow)
  {
    hide CallStep, CountVote, PassIfReached, HasVoted, Or, AddressSet.Valid;
    var handler := s.HandlerOf(a.resourceID);
    var k := ProposalKey(h, a.domainID, a.depositNonce, handler, a.data);
    forall t: State, late: bool
      ensures CallStep(h, t, a.sender, k, handler, a.destinationDomainID, a.resourceID, a.data, late,
                       a.run) != Err(TotalOverflow)
    {
      CallCountsNothing(h, t, a.sender, k, handler, a.destinationDomainID, a.resourceID, a.data, late, a.run);
    }
  }

  lemma CallCountsNothing(h: Digest, s: State, sender: Address, k: Key, handler: Address, destinationDomainID: uint8,
                          resourceID: ResourceID, data: Bytes, revertOnFail: bool, run: HandlerRun)
    ensures CallStep(h, s, sender, k, handler, destinationDomainID, resourceID, data, revertOnFail,
                     run) != Err(TotalOverflow)
  {}

  // A vote from a position above 256 is counted, leaves no bit, and can be cast again.
  lemma WideVoteLeavesNoBit(h: Digest, s: State, k: Key, p: Proposal, relayer: Address, d: uint8, r: ResourceID,
                             data: Bytes)
    requires s.relayers.IndexOf(relayer) > 256 && p.yesVotesTotal < 255
    ensures !HasVoted(p, s.relayers.IndexOf(relayer))
    ensures var t := CountVote(s, k, p, relayer, d, r, data).Record(k);
            t.yesVotes == p.yesVotes && t.yesVotesTotal == p.yesVotesTotal + 1
  {
    AndWithZero(p.yesVotes);
    OrWithZero(p.yesVotes);
  }

  // Quorum, as an exact law: the votes that passed a proposal are its distinct voters and the
  // repeated votes. Repeats come from positions above 256, or one for each relayer removed
  // since the first vote. Without a removal the set bits are exactly the voters' positions.
  lemma Quorum(h: Digest, s: State, k: Key)
    requires Reachable(h, s)
    ensures var j, repeats := s.journal, Repeats(s.journal, k, false) + Repeats(s.journal, k, true);
            && s.Record(k).yesVotesTotal == |Voters(j, k)| + repeats
            && Repeats(j, k, false) <= Removals(j, k)
            && (PeakRelayers(j) <= 256 ==> Repeats(j, k, true) == 0)
            && (s.Record(k).status.Passed? || s.Record(k).status.Executed? ==>
                  && HasPassed(j, k) && s.Record(k).yesVotesTotal >= PassThreshold(j, k)
                  && |Voters(j, k)| + Removals(j, k) + Repeats(j, k, true) >= PassThreshold(j, k))
            && (Removals(j, k) == 0 ==> MaskMatches(s.Record(k).yesVotes, s.relayers, Voters(j, k)))
  {
    hide MaskMatches, Exposed;
    ReachableInvFor(h, s, k);
    VotersAndRepeats(s.journal, k);
  }

  // What is hashed into the key of a vote or call.
  function Preimage(e: Event): Bytes
    requires e.Voted? || e.Called?
  {
    AddressBytes(e.handler) + e.data
  }

  // No two different payloads in the history have the same hash.
  ghost predicate CollisionFree(h: Digest, j: Journal) {
    forall e, f | Occurs(j, e) && Occurs(j, f) && (e.Voted? || e.Called?) && (f.Voted? || f.Called?) ::
      h(Preimage(e)) == h(Preimage(f)) ==> Preimage(e) == Preimage(f)
  }

  // Binding: every handler call for a proposal uses the handler and data that every counted
  // vote for it carried, even if resources were remapped in between.
  lemma Binding(h: Digest, s: State, e: Event, f: Event)
    requires Reachable(h, s) && CollisionFree(h, s.journal)
    requires Occurs(s.journal, e) && Occurs(s.journal, f)
    requires (e.Voted? || e.Called?) && (f.Voted? || f.Called?) && e.key == f.key
    ensures e.handler == f.handler && e.data == f.data
  {
    assert h(Preimage(e)) == h(Preimage(f)) ==> Preimage(e) == Preimage(f);
    hide CollisionFree, Reachable, CallInv, VoteInv, QuorumInv, SizeInv, NonceInv, MappingsRecorded, Occurs, Genuine,
         AddressBytes, AddressSet.Valid;
    ReachableInvFor(h, s, e.key);
    GenuineOccurs(h, s.journal, e);
    GenuineOccurs(h, s.journal, f);
    PackedInjective(e.handler, e.data, f.handler, f.data);
  }

  // A key names one origin domain, nonce, handler and data.
  lemma KeyInjective(h: Digest, d: uint8, n: uint64, a: Address, x: Bytes, d': uint8, n': uint64, a': Address,
                     x': Bytes)
    requires ProposalKey(h, d, n, a, x) == ProposalKey(h, d', n', a', x')
    requires h(AddressBytes(a) + x) == h(AddressBytes(a') + x') ==> AddressBytes(a) + x == AddressBytes(a') + x'
    ensures d == d' && n == n' && a == a' && x == x'
  {
    PackedInjective(a, x, a', x');
  }

  // A handler call that fails without reverting leaves the whole storage as it was, whatever
  // the handler had done, and the proposal can be executed later.
  lemma FailedExecutionCanBeRetried(h: Digest, s: State, a: Action, retry: Action)
    requires Reachable(h, s) && a.Execute? && Step(h, s, a).Ok? && !a.run.succeeds
    requires retry.Execute? && retry.run.hasCode && retry.run.succeeds && s.relayers.Contains(retry.sender)
    requires retry.domainID == a.domainID && retry.depositNonce == a.depositNonce
    requires retry.resourceID == a.resourceID && retry.data == a.data
    ensures var k := ProposalKey(h, a.domainID, a.depositNonce, s.HandlerOf(a.resourceID), a.data);
            var t := Step(h, s, a).value;
            && t == s.Log(CallFailed(k))
            && Step(h, t, retry).Ok? && Step(h, t, retry).value.Record(k).status.Executed?
  {
    var k := ProposalKey(h, a.domainID, a.depositNonce, s.HandlerOf(a.resourceID), a.data);
    var t := Step(h, s, a).value;
    ReachableAfter(h, s, a);
    ReachableAfter(h, t, retry);
    ExecutedExactlyOnce(h, After(h, t, retry), k);
  }

  // Progress: whatever one call does, the status never moves back, Executed and Cancelled
  // are final, and every change of a record is a step up a bounded scale.
  lemma NeverBackwards(h: Digest, s: State, a: Action, k: Key)
    requires Reachable(h, s)
    ensures var before, after := s.Record(k), After(h, s, a).Record(k);
            && Rank(before.status) <= Rank(after.status)
            && (before.status.Executed? || before.status.Cancelled? ==> after == before)
            && (after != before ==> Progress(s, k) < Progress(After(h, s, a), k))
  {
    ReachableInvFor(h, s, k);
    StepKeeps(h, s, a, Watch(k, false, 0, 0, false));
  }

  // How many of the calls in a run change the stored record of one proposal.
  ghost function Changes(h: Digest, s: State, actions: seq<Action>, k: Key): nat
    decreases |actions|
  {
    if actions == [] then 0
    else
      var t := After(h, s, actions[0]);
      Changes(h, t, actions[1..], k) + if t.Record(k) == s.Record(k) then 0 else 1
  }

  lemma {:induction false} ChangesClimb(h: Digest, s: State, actions: seq<Action>, w: Watch)
    requires Inv(h, s, w)
    ensures Changes(h, s, actions, w.key) + Progress(s, w.key) <= Progress(RunAll(h, s, actions), w.key)
    ensures Inv(h, RunAll(h, s, actions), w)
    decreases |actions|
  {
    hide Inv;
    if actions != [] {
      StepKeeps(h, s, actions[0], w);
      ChangesClimb(h, After(h, s, actions[0]), actions[1..], w);
    }
  }

  // Over any run a proposal changes at most once for each counted vote and once at the end:
  // 201 times, or up to 256 when votes left no bit.
  lemma ChangesBounded(h: Digest, s: State, actions: seq<Action>, k: Key)
    requires Reachable(h, s)
    ensures var end, changes := RunAll(h, s, actions), Changes(h, s, actions, k);
            && changes <= end.Record(k).yesVotesTotal + 1 <= 256
            && changes <= VOTE_BITS + 1 + WideVotes(end.journal, k)
            && (PeakRelayers(end.journal) <= 256 ==> changes <= VOTE_BITS + 1)
  {
    var w := Watch(k, false, 0, 0, false);
    ReachableInvFor(h, s, k);
    ChangesClimb(h, s, actions, w);
    MaskPopcount(RunAll(h, s, actions).Record(k).yesVotes);
  }

  // Deposit nonces for one destination are pairwise distinct and leave no gaps: every nonce
  // from 1 to the counter was announced with exactly one deposit, or skipped exactly once by
  // the administrator, and no other nonce was used.
  lemma NoncesDistinct(h: Digest, s: State, d: uint8, n: nat)
    requires Reachable(h, s)
    ensures Deposits(s.journal, d, n) + Skips(s.journal, d, n) == if 1 <= n <= s.DepositCount(d) then 1 else 0
  {
    ReachableInv(h, s, Watch(Key(0, 0), false, d, n, false));
  }

  // Why removals count against the quorum: the last relayer takes over the position of a
  // removed one, and with it the bit that says whether it has voted.
  lemma RemovalHandsOverTheVote(s: State, k: Key, gone: Address, last: Address)
    requires s.relayers.Contains(gone) && s.relayers.Contains(last) && gone != last
    requires s.relayers.IndexOf(last) == |s.relayers.values|
    ensures Revoke(s, gone).relayers.Contains(last)
    ensures HasVoted(s.Record(k), Revoke(s, gone).relayers.IndexOf(last)) <==>
            HasVoted(s.Record(k), s.relayers.IndexOf(gone))
  {
    RemoveRefinesDelete(s.relayers, gone);
  }
}
