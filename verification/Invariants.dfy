// The inductive invariant of the bridge protocol, for one watched proposal and one watched
// deposit nonce, and its preservation by every call including all calls nested in it.
module Invariants {
  import opened Words
  import opened Bits
  import opened Bytes
  import opened AddressSets
  import opened Masks
  import opened Protocol
  import opened History

  // What is being watched: a proposal, whether its handler is being called right now, a
  // deposit nonce, and whether that deposit is under way right now.
  datatype Watch = Watch(key: Key, calling: bool, destination: uint8, nonce: nat, depositing: bool)

  // A handler call has been committed exactly when the proposal is Executed and the call is over.
  ghost predicate CallInv(s: State, w: Watch) {
    && Calls(s.journal, w.key) == (if s.Record(w.key).status.Executed? && !w.calling then 1 else 0)
    && (w.calling ==> s.Record(w.key).status.Executed?)
  }

  // The counter agrees with the bit mask, up to votes whose bit was lost, and with the history.
  ghost predicate VoteInv(s: State, k: Key) {
    var p := s.Record(k);
    && p.yesVotes < TWO_200
    && p.yesVotesTotal == Popcount(p.yesVotes) + WideVotes(s.journal, k)
    && p.yesVotesTotal == Votes(s.journal, k)
    && (p.status.Inactive? <==> p.yesVotesTotal == 0)
    && (p.status.Passed? || p.status.Executed? ==>
          HasPassed(s.journal, k) && p.yesVotesTotal >= PassThreshold(s.journal, k))
  }

  // Until a relayer is removed the mask marks the voters. Every removal exposes at most one
  // voter to voting again with a bit, and every such vote uses up one exposed voter.
  ghost predicate QuorumInv(s: State, k: Key) {
    var mask, voters := s.Record(k).yesVotes, Voters(s.journal, k);
    && (Removals(s.journal, k) == 0 ==> MaskMatches(mask, s.relayers, voters))
    && Repeats(s.journal, k, false) + |Exposed(mask, s.relayers, voters)| <= Removals(s.journal, k)
  }

  // Every mapped resource was mapped by a recorded call.
  ghost predicate MappingsRecorded(handlers: map<ResourceID, Address>, j: Journal) {
    forall r | r in handlers :: Sourced(j, r, handlers[r])
  }

  // Every nonce up to the counter was used once: by a deposit, finished or under way, or by
  // the administrator skipping it. No other nonce was used.
  ghost predicate NonceInv(s: State, w: Watch) {
    var deposits := Deposits(s.journal, w.destination, w.nonce) + if w.depositing then 1 else 0;
    deposits + Skips(s.journal, w.destination, w.nonce) ==
      if 1 <= w.nonce <= s.DepositCount(w.destination) then 1 else 0
  }

  // Votes lose their bit only after the role has had more than 256 members.
  ghost predicate SizeInv(s: State, k: Key) {
    && |s.relayers.values| == RelayerCount(s.journal) <= PeakRelayers(s.journal)
    && (WideVotes(s.journal, k) > 0 ==> PeakRelayers(s.journal) > 256)
  }

  // An open proposal has room for one more vote: a full counter reaches every threshold.
  predicate HasRoom(s: State, k: Key) {
    s.Record(k).status.Active? ==> s.Record(k).yesVotesTotal < 255
  }

  ghost predicate Inv(h: Digest, s: State, w: Watch) {
    CoreInv(h, s, w) && HasRoom(s, w.key)
  }

  // All of it that holds even between counting a vote and comparing with the threshold.
  ghost predicate CoreInv(h: Digest, s: State, w: Watch) {
    && CallInv(s, w)
    && VoteInv(s, w.key)
    && QuorumInv(s, w.key)
    && SizeInv(s, w.key)
    && NonceInv(s, w)
    && Genuine(h, s.journal)
    && MappingsRecorded(s.handlers, s.journal)
  }

  function Rank(s: Status): nat {
    match s
    case Inactive => 0
    case Active => 1
    case Passed => 2
    case _ => 3
  }

  // Counts up with every change of the record: its votes, and one more at the end.
  function Progress(s: State, k: Key): nat {
    s.Record(k).yesVotesTotal + if Rank(s.Record(k).status) == 3 then 1 else 0
  }

  ghost predicate Advances(s: State, t: State, k: Key) {
    && Rank(s.Record(k).status) <= Rank(t.Record(k).status)
    && Progress(s, k) <= Progress(t, k)
    && (s.Record(k) != t.Record(k) ==> Progress(s, k) < Progress(t, k))
    && (Rank(s.Record(k).status) == 3 ==> s.Record(k) == t.Record(k))
    && Grows(s.journal, t.journal)
  }

  ghost predicate Keeps(h: Digest, s: State, t: State, w: Watch) {
    Inv(h, t, w) && Advances(s, t, w.key)
  }

  lemma KeepsThen(h: Digest, s: State, t: State, u: State, w: Watch)
    requires Advances(s, t, w.key) && Keeps(h, t, u, w)
    ensures Keeps(h, s, u, w)
  {}

  // ----- single updates -----

  // Updates that leave records, history and members alone.
  lemma SettingsKeep(h: Digest, s: State, t: State, w: Watch)
    requires Inv(h, s, w)
    requires t.proposals == s.proposals && t.journal == s.journal && t.relayers == s.relayers
             && t.handlers == s.handlers
    requires t.DepositCount(w.destination) == s.DepositCount(w.destination)
    ensures Keeps(h, s, t, w)
  {}

  lemma CountVoteKeeps(h: Digest, s: State, k: Key, p: Proposal, relayer: Address,
                       d: uint8, r: ResourceID, data: Bytes, w: Watch)
    requires Inv(h, s, w)
    requires s.relayers.Contains(relayer) && p.yesVotesTotal < 255
    requires (p.status.Active? && p == s.Record(k))
             || (s.Record(k).status.Inactive? && p.yesVotes == p.yesVotesTotal == 0)
    requires !HasVoted(p, s.relayers.IndexOf(relayer))
    requires Or(p.yesVotes, VoteBit(s.relayers.IndexOf(relayer))) < TWO_200
    requires k.dataHash == h(AddressBytes(s.HandlerOf(r)) + data) && s.HandlerOf(r) != ZERO_ADDRESS
    ensures Keeps(h, s, PassIfReached(CountVote(s, k, p, relayer, d, r, data), k), w)
  {
    VotedKeeps(h, s, k, p, relayer, d, r, data, w);
    PassKeeps(h, s, CountVote(s, k, p, relayer, d, r, data), k, w);
  }

  lemma VotedKeeps(h: Digest, s: State, k: Key, p: Proposal, relayer: Address,
                   d: uint8, r: ResourceID, data: Bytes, w: Watch)
    requires Inv(h, s, w)
    requires s.relayers.Contains(relayer) && p.yesVotesTotal < 255
    requires (p.status.Active? && p == s.Record(k))
             || (s.Record(k).status.Inactive? && p.yesVotes == p.yesVotesTotal == 0)
    requires !HasVoted(p, s.relayers.IndexOf(relayer))
    requires Or(p.yesVotes, VoteBit(s.relayers.IndexOf(relayer))) < TWO_200
    requires k.dataHash == h(AddressBytes(s.HandlerOf(r)) + data) && s.HandlerOf(r) != ZERO_ADDRESS
    ensures var t := CountVote(s, k, p, relayer, d, r, data);
            CoreInv(h, t, w) && Advances(s, t, w.key) && (w.key == k || HasRoom(t, w.key))
  {
    hide QuorumInv, VoteInv, HasVoted, BitAt, Pow2, Popcount, Or, And;
    VotedKeepsCount(s, k, p, relayer, d, r, data, w.key);
    VotedKeepsQuorum(s, k, p, relayer, d, r, data, w.key);
  }

  lemma VotedKeepsCount(s: State, k: Key, p: Proposal, relayer: Address,
                        d: uint8, r: ResourceID, data: Bytes, watched: Key)
    requires s.relayers.Contains(relayer) && p.yesVotesTotal < 255
    requires (p.status.Active? && p == s.Record(k))
             || (s.Record(k).status.Inactive? && p.yesVotes == p.yesVotesTotal == 0)
    requires !HasVoted(p, s.relayers.IndexOf(relayer)) && VoteInv(s, watched)
    requires Or(p.yesVotes, VoteBit(s.relayers.IndexOf(relayer))) < TWO_200
    ensures VoteInv(CountVote(s, k, p, relayer, d, r, data), watched)
    ensures watched == k ==> s.Record(k).yesVotesTotal == p.yesVotesTotal && s.Record(k).yesVotes == p.yesVotes
  {
    hide BitAt, Pow2, Popcount, Or, And, AddressSet.Valid;
    if watched == k {
      if s.Record(k).status.Inactive? {
        NoBitsCounted(s.Record(k).yesVotes);
      }
      VoteBitCounted(p.yesVotes, s.relayers.IndexOf(relayer));
    }
  }

  lemma VotedKeepsQuorum(s: State, k: Key, p: Proposal, relayer: Address,
                         d: uint8, r: ResourceID, data: Bytes, watched: Key)
    requires s.relayers.Contains(relayer) && p.yesVotesTotal < 255
    requires watched == k ==> p.yesVotes == s.Record(k).yesVotes
    requires !HasVoted(p, s.relayers.IndexOf(relayer)) && QuorumInv(s, watched)
    ensures QuorumInv(CountVote(s, k, p, relayer, d, r, data), watched)
  {
    hide MaskMatches, Exposed, BitAt, Pow2, Or, And, AddressSet.Valid;
    if watched == k {
      var voters := Voters(s.journal, k);
      ExposedByVote(p.yesVotes, s.relayers, voters, relayer);
      if Removals(s.journal, k) == 0 {
        MaskGainsVoter(p.yesVotes, s.relayers, voters, relayer);
      }
    }
  }

  // The passing vote changes the record once, counter and status together.
  lemma PassKeeps(h: Digest, s: State, voted: State, k: Key, w: Watch)
    requires CoreInv(h, voted, w) && Advances(s, voted, w.key) && voted.Record(k).status.Active?
    requires w.key == k || HasRoom(voted, w.key)
    requires w.key == k ==> Rank(s.Record(k).status) < 2 && s.Record(k).yesVotesTotal < voted.Record(k).yesVotesTotal
    ensures Keeps(h, s, PassIfReached(voted, k), w)
  {
    hide QuorumInv, Popcount, AddressSet.Valid;
    PassKeepsQuorum(voted, k, w.key);
  }

  lemma PassKeepsQuorum(s: State, k: Key, watched: Key)
    requires QuorumInv(s, watched)
    ensures QuorumInv(PassIfReached(s, k), watched)
  {
    hide MaskMatches, AddressSet.Valid;
  }

  lemma MarkExecutedKeeps(h: Digest, s: State, k: Key, w: Watch)
    requires Inv(h, s, w) && s.Record(k).status.Passed?
    ensures Keeps(h, s, s.Store(k, s.Record(k).(status := Executed)), if w.key == k then w.(calling := true) else w)
    ensures w.key == k ==> !w.calling
  {}

  lemma LogCallKeeps(h: Digest, s: State, e: Event, w: Watch)
    requires e.Called? && e.key.dataHash == h(AddressBytes(e.handler) + e.data)
    requires Sourced(s.journal, e.resourceID, e.handler)
    requires Inv(h, s, if w.key == e.key then w.(calling := true) else w)
    requires w.key == e.key ==> !w.calling
    ensures Keeps(h, s, s.Log(e), w)
  {
    hide QuorumInv, VoteInv, AddressSet.Valid;
    LogKeepsQuorum(s, e, w.key);
    LogKeepsVotes(s, e, w.key);
  }

  lemma LogKeepsVotes(s: State, e: Event, k: Key)
    requires VoteInv(s, k) && e.Called?
    ensures VoteInv(s.Log(e), k)
  {
    hide Popcount;
  }

  // Votes and removals aside, the history does not touch the quorum.
  lemma LogKeepsQuorum(s: State, e: Event, k: Key)
    requires QuorumInv(s, k) && !e.Voted? && !e.Revoked?
    ensures QuorumInv(s.Log(e), k)
  {
    hide MaskMatches, Exposed, AddressSet.Valid;
  }

  // A handler in force had been mapped, and stays on record whatever happens next.
  lemma HandlerOnRecord(h: Digest, s: State, t: State, r: ResourceID, w: Watch)
    requires Inv(h, s, w) && Advances(s, t, w.key)
    ensures Sourced(t.journal, r, s.HandlerOf(r))
  {
    assert r in s.handlers ==> Sourced(s.journal, r, s.handlers[r]);
  }

  lemma MapResourceKeeps(h: Digest, s: State, r: ResourceID, handler: Address, w: Watch)
    requires Inv(h, s, w)
    ensures Keeps(h, s, MapResource(s, r, handler), w)
  {
    hide MaskMatches, Exposed, AddressSet.Valid;
  }

  lemma LogFailureKeeps(h: Digest, s: State, k: Key, w: Watch)
    requires Inv(h, s, w)
    ensures Keeps(h, s, s.Log(CallFailed(k)), w)
  {}

  lemma CancelKeeps(h: Digest, s: State, k: Key, w: Watch)
    requires Inv(h, s, w) && (s.Record(k).status.Passed? || s.Record(k).status.Active?)
    ensures Keeps(h, s, s.Store(k, s.Record(k).(status := Cancelled)), w)
  {}

  lemma GrantKeeps(h: Digest, s: State, x: Address, w: Watch)
    requires Inv(h, s, w)
    ensures Keeps(h, s, Grant(s, x), w)
  {
    hide QuorumInv, BitAt, Pow2, Popcount, AddressSet.Valid;
    GrantKeepsQuorum(s, x, w.key);
  }

  lemma GrantKeepsQuorum(s: State, x: Address, k: Key)
    requires QuorumInv(s, k)
    ensures QuorumInv(Grant(s, x), k)
  {
    hide MaskMatches, Exposed, AddressSet.Valid;
    var mask, voters := s.Record(k).yesVotes, Voters(s.journal, k);
    ExposedByAdd(mask, s.relayers, voters, x);
    if Removals(s.journal, k) == 0 {
      MaskKeptByAdd(mask, s.relayers, voters, x);
    }
  }

  lemma RevokeKeeps(h: Digest, s: State, x: Address, w: Watch)
    requires Inv(h, s, w)
    ensures Keeps(h, s, Revoke(s, x), w)
  {
    hide QuorumInv, Popcount, AddressSet.Valid;
    RevokeKeepsQuorum(s, x, w.key);
    RemoveShortens(s.relayers, x);
  }

  lemma RemoveShortens(r: Relayers, x: Address)
    ensures |r.Remove(x).values| == |r.values| - if r.Contains(x) then 1 else 0
  {}

  // Removing a relayer before the first vote leaves an empty mask; after it, the removal
  // pays for the one voter it may expose.
  lemma RevokeKeepsQuorum(s: State, x: Address, k: Key)
    requires QuorumInv(s, k) && VoteInv(s, k)
    ensures QuorumInv(Revoke(s, x), k)
  {
    hide MaskMatches, Exposed, AddressSet.Valid;
    if s.relayers.Contains(x) {
      var mask, voters := s.Record(k).yesVotes, Voters(s.journal, k);
      ExposedByRemove(mask, s.relayers, voters, x);
      if Votes(s.journal, k) == 0 {
        NoVotesNoVoters(s.journal, k);
        NoBitsCounted(mask);
        EmptyMask(Revoke(s, x).relayers);
      }
    }
  }

  lemma LogDepositKeeps(h: Digest, s: State, e: Event, w: Watch)
    requires e.Deposited?
    requires Inv(h, s, if w.destination == e.destinationDomainID && w.nonce == e.nonce
                       then w.(depositing := true) else w)
    requires w.destination == e.destinationDomainID && w.nonce == e.nonce ==> !w.depositing
    ensures Keeps(h, s, s.Log(e), w)
  {
    hide QuorumInv, Popcount, AddressSet.Valid;
    LogKeepsQuorum(s, e, w.key);
  }

  // The next nonce has never been used.
  lemma StartDepositKeeps(h: Digest, s: State, d: uint8, w: Watch)
    requires Inv(h, s, w)
    ensures var n := s.DepositCount(d) + 1;
            var watched := w.destination == d && w.nonce == n;
            && (watched ==> !w.depositing)
            && Keeps(h, s, s.(depositCounts := s.depositCounts[d := n]), if watched then w.(depositing := true) else w)
  {}

  lemma SetNonceKeeps(h: Digest, s: State, d: uint8, n: nat, w: Watch)
    requires Inv(h, s, w) && n > s.DepositCount(d)
    ensures Keeps(h, s, s.(depositCounts := s.depositCounts[d := n]).Log(NonceSet(d, s.DepositCount(d), n)), w)
  {}

  // ----- whole calls -----

  lemma {:induction false} StepKeeps(h: Digest, s: State, a: Action, w: Watch)
    requires Inv(h, s, w)
    ensures Step(h, s, a).Ok? ==> Keeps(h, s, Step(h, s, a).value, w)
    decreases a, 1
  {
    hide Inv, Advances;
    match a
    case Vote(_, _, _, _, _, _, _, _) => VoteKeeps(h, s, a, w);
    case Execute(sender, destinationDomainID, domainID, depositNonce, data, resourceID, revertOnFail, run) =>
      var handler := s.HandlerOf(resourceID);
      CallKeeps(h, s, sender, ProposalKey(h, domainID, depositNonce, handler, data),
                handler, destinationDomainID, resourceID, data, revertOnFail, run, w);
    case Cancel(_, _, domainID, depositNonce, dataHash) =>
      if Step(h, s, a).Ok? {
        CancelKeeps(h, s, Key(DestNonce(domainID, depositNonce), dataHash), w);
      }
    case Deposit(_, _, _, _, _) => DepositKeeps(h, s, a, w);
    case SetResource(r, handler, run) => SetResourceKeeps(h, s, r, handler, run, w);
    case _ => AdminKeeps(h, s, a, w);
  }

  lemma AdminKeeps(h: Digest, s: State, a: Action, w: Watch)
    requires Inv(h, s, w) && !a.Vote? && !a.Execute? && !a.Cancel? && !a.Deposit? && !a.SetResource?
    ensures Step(h, s, a).Ok? ==> Keeps(h, s, Step(h, s, a).value, w)
  {
    hide Inv, Advances;
    if a.AdminAddRelayer? || a.GrantRelayer? {
      GrantKeeps(h, s, a.relayer, w);
    } else if a.AdminRemoveRelayer? || a.RevokeRelayer? {
      RevokeKeeps(h, s, a.relayer, w);
    } else if a.SetDepositNonce? {
      if Step(h, s, a).Ok? {
        SetNonceKeeps(h, s, a.destinationDomainID, a.nonce, w);
      }
    } else if Step(h, s, a).Ok? {
      SettingsKeep(h, s, Step(h, s, a).value, w);
    }
  }

  lemma {:induction false} SetResourceKeeps(h: Digest, s: State, r: ResourceID, handler: Address, run: HandlerRun,
                                            w: Watch)
    requires Inv(h, s, w)
    ensures Keeps(h, s, RunAll(h, MapResource(s, r, handler), run.nested), w)
    decreases run, 1
  {
    hide Inv, Advances;
    var t := MapResource(s, r, handler);
    MapResourceKeeps(h, s, r, handler, w);
    RunKeeps(h, t, run.nested, w);
    KeepsThen(h, s, t, RunAll(h, t, run.nested), w);
  }

  lemma {:induction false} VoteKeeps(h: Digest, s: State, a: Action, w: Watch)
    requires a.Vote? && Inv(h, s, w)
    ensures VoteStep(h, s, a).Ok? ==> Keeps(h, s, VoteStep(h, s, a).value, w)
    decreases a, 0
  {
    hide Inv, Advances;
    var handler := s.HandlerOf(a.resourceID);
    var k := ProposalKey(h, a.domainID, a.depositNonce, handler, a.data);
    var p := s.Record(k);
    if VoteStep(h, s, a).Ok? {
      if p.status.Passed? {
        CallKeeps(h, s, a.sender, k, handler, a.destinationDomainID, a.resourceID, a.data, true, a.run, w);
      } else if p.status.Active? && AgeExceeds(a.block, p, s.expiry) {
        CancelKeeps(h, s, k, w);
      } else {
        var record := if p.status.Inactive? then Proposal(Active, 0, 0, a.block % TWO_40) else p;
        var counted := PassIfReached(CountVote(s, k, record, a.sender, a.destinationDomainID, a.resourceID, a.data), k);
        CountVoteKeeps(h, s, k, record, a.sender, a.destinationDomainID, a.resourceID, a.data, w);
        if counted.Record(k).status.Passed? {
          CallKeeps(h, counted, a.sender, k, handler, a.destinationDomainID, a.resourceID, a.data, false, a.run, w);
          KeepsThen(h, s, counted, VoteStep(h, s, a).value, w);
        }
      }
    }
  }

  lemma {:induction false} CallKeeps(h: Digest, s: State, sender: Address, k: Key, handler: Address,
                                     destinationDomainID: uint8, resourceID: ResourceID, data: Bytes,
                                     revertOnFail: bool, run: HandlerRun, w: Watch)
    requires Inv(h, s, w) && k.dataHash == h(AddressBytes(handler) + data) && handler == s.HandlerOf(resourceID)
    ensures var r := CallStep(h, s, sender, k, handler, destinationDomainID, resourceID, data, revertOnFail, run);
            r.Ok? ==> Keeps(h, s, r.value, w)
    decreases run, 1
  {
    var r := CallStep(h, s, sender, k, handler, destinationDomainID, resourceID, data, revertOnFail, run);
    hide Inv, Advances;
    if r.Ok? && !run.succeeds {
      LogFailureKeeps(h, s, k, w);
    } else if r.Ok? {
      var inside := if w.key == k then w.(calling := true) else w;
      var marked := s.Store(k, s.Record(k).(status := Executed));
      var ran := RunAll(h, marked, run.nested);
      MarkExecutedKeeps(h, s, k, w);
      RunKeeps(h, marked, run.nested, inside);
      KeepsThen(h, s, marked, ran, inside);
      HandlerOnRecord(h, s, ran, resourceID, w);
      LogCallKeeps(h, ran, Called(k, sender, destinationDomainID, resourceID, handler, data), w);
      KeepsThen(h, s, ran, r.value, w);
    }
  }

  lemma {:induction false} DepositKeeps(h: Digest, s: State, a: Action, w: Watch)
    requires a.Deposit? && Inv(h, s, w)
    ensures DepositStep(h, s, a).Ok? ==> Keeps(h, s, DepositStep(h, s, a).value, w)
    decreases a, 0
  {
    hide Inv, Advances;
    if DepositStep(h, s, a).Ok? {
      var d, n := a.destinationDomainID, s.DepositCount(a.destinationDomainID) + 1;
      var inside := if w.destination == d && w.nonce == n then w.(depositing := true) else w;
      var started := s.(depositCounts := s.depositCounts[d := n]);
      var ran := RunAll(h, started, a.run.nested);
      StartDepositKeeps(h, s, d, w);
      RunKeeps(h, started, a.run.nested, inside);
      KeepsThen(h, s, started, ran, inside);
      LogDepositKeeps(h, ran, Deposited(d, n, a.resourceID, a.sender, a.data), w);
      KeepsThen(h, s, ran, DepositStep(h, s, a).value, w);
    }
  }

  lemma {:induction false} RunKeeps(h: Digest, s: State, actions: seq<Action>, w: Watch)
    requires Inv(h, s, w)
    ensures Keeps(h, s, RunAll(h, s, actions), w)
    decreases actions, 0
  {
    if actions != [] {
      hide Inv;
      var t := After(h, s, actions[0]);
      StepKeeps(h, s, actions[0], w);
      RunKeeps(h, t, actions[1..], w);
      KeepsThen(h, s, t, RunAll(h, s, actions), w);
    }
  }
}
