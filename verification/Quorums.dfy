// Progress: what a quorum of relayers achieves by voting one after the other.
module Quorums {
  import opened Words
  import opened Bits
  import opened Bytes
  import opened AddressSets
  import opened Protocol
  import opened History
  import opened Invariants
  import opened Theorems
  import opened Operations
  import opened Voting

  // Votes of relayers for one proposal, on a running bridge, for handlers with code.
  predicate ForProposal(h: Digest, s: State, k: Key, votes: seq<Action>) {
    && !s.paused
    && (forall i | 0 <= i < |votes| ::
          && votes[i].Vote? && votes[i].run.hasCode && s.relayers.Contains(votes[i].sender)
          && s.HandlerOf(votes[i].resourceID) != ZERO_ADDRESS && KeyOfVote(h, s, votes[i]) == k)
  }

  // The block the age of an open or new proposal is counted from.
  function OpenedAt(s: State, k: Key, votes: seq<Action>): nat
    requires |votes| > 0 && votes[0].Vote?
  {
    if s.Record(k).status.Inactive? then votes[0].block % TWO_40 else s.Record(k).proposedBlock
  }

  // Different relayers at positions within the mask that have not voted, all in time.
  ghost predicate AllCountable(s: State, k: Key, votes: seq<Action>, start: nat)
    requires forall i | 0 <= i < |votes| :: votes[i].Vote?
  {
    && (forall i | 0 <= i < |votes| ::
          var index := s.relayers.IndexOf(votes[i].sender);
          1 <= index <= VOTE_BITS && !BitAt(s.Record(k).yesVotes, index - 1))
    && (forall i, j | 0 <= i < j < |votes| :: votes[i].sender != votes[j].sender)
    && (forall i | 0 <= i < |votes| ::
          start <= votes[i].block && (votes[i].block - start) % TWO_40 <= s.expiry)
  }

  // How many of the votes come before the one that reaches the threshold.
  function Before(s: State, k: Key): nat {
    Max(0, s.threshold - s.Record(k).yesVotesTotal - 1)
  }

  ghost predicate SomeReturns(votes: seq<Action>, from: nat)
    requires forall i | 0 <= i < |votes| :: votes[i].Vote?
  {
    exists i | from <= i < |votes| :: votes[i].run.succeeds
  }

  // As many votes as are missing always pass an open or new proposal, in any order and whatever
  // the handlers do. It ends up executed if and only if the handler returns for the vote that
  // reaches the threshold or for a later one, and passed otherwise.
  lemma {:induction false} QuorumDecides(h: Digest, s: State, k: Key, votes: seq<Action>)
    requires Reachable(h, s) && ForProposal(h, s, k, votes)
    requires s.Record(k).status.Inactive? || s.Record(k).status.Active?
    requires |votes| > Before(s, k) && AllCountable(s, k, votes, OpenedAt(s, k, votes))
    ensures RunAll(h, s, votes).Record(k).status
         == if SomeReturns(votes, Before(s, k)) then Executed else Passed
    decreases |votes|
  {
    hide Reachable, Step, After, AddressSet.Valid, BitAt;
    var a, rest, t := votes[0], votes[1..], After(h, s, votes[0]);
    FirstCounts(h, s, k, votes);
    ReachableAfter(h, s, a);
    if t.Record(k).status.Active? {
      StillCountable(s, t, k, votes);
      QuorumDecides(h, t, k, rest);
      LaterReturns(votes, Before(s, k));
    } else if t.Record(k).status.Executed? {
      assert SomeReturns(votes, 0);
      FinalStays(h, t, k, rest);
    } else {
      PassedStays(h, t, k, rest);
      LaterReturns(votes, 0);
    }
  }

  // Votes on a passed proposal execute it as soon as the handler returns.
  lemma {:induction false} PassedStays(h: Digest, s: State, k: Key, votes: seq<Action>)
    requires Reachable(h, s) && ForProposal(h, s, k, votes) && s.Record(k).status.Passed?
    ensures RunAll(h, s, votes).Record(k).status == if SomeReturns(votes, 0) then Executed else Passed
    decreases |votes|
  {
    hide Reachable, Step, After, AddressSet.Valid;
    if votes != [] {
      var a, rest, t := votes[0], votes[1..], After(h, s, votes[0]);
      VoteOnPassed(h, s, a);
      ReachableAfter(h, s, a);
      if a.run.succeeds {
        FinalStays(h, t, k, rest);
      } else {
        PassedStays(h, t, k, rest);
        LaterReturns(votes, 0);
      }
    }
  }

  lemma FinalStays(h: Digest, s: State, k: Key, actions: seq<Action>)
    requires Reachable(h, s) && s.Record(k).status.Executed?
    ensures RunAll(h, s, actions).Record(k).status.Executed?
  {
    hide Reachable, Inv;
    ReachableInvFor(h, s, k);
    RunKeeps(h, s, actions, Watch(k, false, 0, 0, false));
  }

  // The first of the votes is accepted and counted.
  lemma FirstCounts(h: Digest, s: State, k: Key, votes: seq<Action>)
    requires Reachable(h, s) && ForProposal(h, s, k, votes) && |votes| > 0
    requires s.Record(k).status.Inactive? || s.Record(k).status.Active?
    requires AllCountable(s, k, votes, OpenedAt(s, k, votes))
    ensures var a, t := votes[0], After(h, s, votes[0]);
            var p, q := s.Record(k), t.Record(k);
            && q.yesVotesTotal == p.yesVotesTotal + 1 && q.proposedBlock == OpenedAt(s, k, votes)
            && (forall i: nat :: BitAt(q.yesVotes, i) <==>
                  BitAt(p.yesVotes, i) || i == s.relayers.IndexOf(a.sender) - 1)
            && q.status == (if Before(s, k) > 0 then Active else if a.run.succeeds then Executed else Passed)
            && (!q.status.Executed? ==> OnlyRecord(s, t, k))
  {
    hide Reachable, Step, After, AddressSet.Valid, BitAt;
    VoteAccepted(h, s, votes[0]);
    VoteEffect(h, s, votes[0]);
  }

  // The other votes count just as well after it.
  lemma StillCountable(s: State, t: State, k: Key, votes: seq<Action>)
    requires forall i | 0 <= i < |votes| :: votes[i].Vote?
    requires |votes| > 1 && AllCountable(s, k, votes, OpenedAt(s, k, votes))
    requires t == s.(proposals := t.proposals, journal := t.journal) && t.Record(k).status.Active?
    requires t.Record(k).proposedBlock == OpenedAt(s, k, votes)
    requires forall i: nat :: BitAt(t.Record(k).yesVotes, i) <==>
               BitAt(s.Record(k).yesVotes, i) || i == s.relayers.IndexOf(votes[0].sender) - 1
    ensures AllCountable(t, k, votes[1..], OpenedAt(t, k, votes[1..]))
  {
    hide BitAt, AddressSet.Valid;
    var rest := votes[1..];
    forall i | 0 <= i < |rest|
      ensures !BitAt(t.Record(k).yesVotes, t.relayers.IndexOf(rest[i].sender) - 1)
    {
      assert rest[i] == votes[i + 1] && votes[0].sender != votes[i + 1].sender;
      DifferentPositions(s.relayers, votes[0].sender, votes[i + 1].sender);
    }
  }

  lemma DifferentPositions(r: Relayers, x: Address, y: Address)
    requires r.Contains(x) && r.Contains(y) && x != y
    ensures r.IndexOf(x) != r.IndexOf(y)
  {
    MembersAreDistinct(r);
    hide AddressSet.Valid, AddressSet.Members;
  }

  lemma LaterReturns(votes: seq<Action>, from: nat)
    requires |votes| > 0 && forall i | 0 <= i < |votes| :: votes[i].Vote?
    requires from > 0 || !votes[0].run.succeeds
    ensures SomeReturns(votes, from) <==> SomeReturns(votes[1..], Max(0, from - 1))
  {
    var rest := votes[1..];
    forall i | 0 <= i < |rest| ensures rest[i] == votes[i + 1] {}
    if i :| from <= i < |votes| && votes[i].run.succeeds {
      assert rest[i - 1].run.succeeds;
    }
  }
}
