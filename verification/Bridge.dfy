// The bridge contract itself: storage updated in place, calls that re-enter it while a
// handler runs, and reverts that put the storage back. Each method is tied to its transition
// in Protocol, so every theorem about reachable states is about this class.
module Bridge {
  import opened Words
  import opened Bits
  import opened Bytes
  import opened AddressSets
  import opened Protocol

  class Contract {
    const hash: Digest
    const relayers: EnumerableSet
    const expiry: nat
    var proposals: map<Key, Proposal>
    var depositCounts: map<uint8, nat>
    var threshold: uint8
    var handlers: map<ResourceID, Address>
    var paused: bool
    var journal: Journal

    ghost predicate Valid()
      reads this, relayers
    {
      relayers.Valid()
    }

    ghost function Now(): State
      requires Valid()
      reads this, relayers
    {
      State(proposals, depositCounts, relayers.Value(), threshold, expiry, handlers, paused, journal)
    }

    // The contract's storage and reply after a call that the protocol answers with `outcome`.
    ghost predicate Follows(outcome: Result<State, Error>, reply: Option<Error>)
      requires Valid()
      reads this, relayers
    {
      match outcome
      case Ok(after) => reply == None && Now() == after
      case Err(e) => reply == Some(e)
    }

    constructor (hash: Digest, threshold: uint8, expiry: nat)
      ensures Valid() && fresh(relayers)
      ensures this.hash == hash
      ensures Now() == State(map[], map[], AddressSet([], map[]), threshold, expiry, map[], false, Empty)
    {
      this.hash, this.threshold, this.expiry := hash, threshold, expiry;
      relayers := new EnumerableSet();
      proposals, depositCounts, handlers, paused, journal := map[], map[], map[], false, Empty;
    }

    // Deployment reverts when a constructor argument does not fit its field.
    static method Create(hash: Digest, initialRelayers: seq<Address>, threshold: nat, expiry: nat)
      returns (r: Result<Contract, Error>)
      ensures match Deploy(initialRelayers, threshold, expiry)
              case Ok(s) => r.Ok? && fresh(r.value) && r.value.Valid() && r.value.hash == hash && r.value.Now() == s
              case Err(e) => r == Err(e)
    {
      if threshold >= 256 {
        return Err(ThresholdTooWide);
      }
      if expiry >= TWO_40 {
        return Err(ExpiryTooWide);
      }
      var c := new Contract(hash, threshold, expiry);
      ghost var blank := c.Now();
      for i := 0 to |initialRelayers|
        invariant c.Valid() && fresh(c) && fresh(c.relayers) && c.hash == hash
        invariant GrantAll(c.Now(), initialRelayers[i..]) == GrantAll(blank, initialRelayers)
      {
        c.GrantRelayerRole(initialRelayers[i]);
      }
      r := Ok(c);
    }

    // ----- transactions -----

    // Any call into the bridge, from outside or from a handler: it commits or it reverts.
    method Transact(a: Action) returns (reply: Option<Error>)
      requires Valid()
      modifies this, relayers
      ensures Valid() && Follows(Step(hash, old(Now()), a), reply)
      ensures reply.Some? ==> Now() == old(Now())
      decreases a, 2
    {
      var before := Snapshot();
      match a {
        case Vote(_, _, _, _, _, _, _, _) =>
          reply := VoteProposal(a);
        case Execute(sender, destinationDomainID, domainID, depositNonce, data, resourceID, revertOnFail, run) =>
          reply := ExecuteProposal(sender, destinationDomainID, domainID, depositNonce, data, resourceID, revertOnFail,
                                   run);
        case Cancel(_, _, _, _, _) =>
          reply := CancelProposal(a);
        case Deposit(_, _, _, _, _) =>
          reply := MakeDeposit(a);
        case SetResource(resourceID, handler, run) =>
          handlers := handlers[resourceID := handler];
          journal := Then(journal, ResourceSet(resourceID, handler));
          var called := CallHandler(run);
          reply := if called then None else Some(HandlerFailed);
        case _ =>
          reply := Administer(a);
      }
      if reply.Some? {
        Restore(before);
      }
    }

    method VoteProposal(a: Action) returns (reply: Option<Error>)
      requires Valid() && a.Vote?
      modifies this, relayers
      ensures Valid() && Follows(VoteStep(hash, old(Now()), a), reply)
      decreases a, 0
    {
      hide AddressSet.Valid, RunAll;
      var index := relayers.IndexOf(a.sender);
      if index == 0 {
        return Some(NotRelayer);
      }
      if paused {
        return Some(ContractPaused);
      }
      var handler := if a.resourceID in handlers then handlers[a.resourceID] else ZERO_ADDRESS;
      var k := ProposalKey(hash, a.domainID, a.depositNonce, handler, a.data);
      var p := Load(k);
      if handler == ZERO_ADDRESS {
        return Some(NoHandler);
      }
      if p.status.Passed? {
        reply := ExecuteProposal(a.sender, a.destinationDomainID, a.domainID, a.depositNonce, a.data, a.resourceID,
                                 true, a.run);
        return;
      }
      if p.status.Executed? || p.status.Cancelled? {
        return Some(AlreadyFinal);
      }
      if HasVoted(p, index) {
        return Some(AlreadyVoted);
      }
      if p.status.Inactive? {
        p := Proposal(Active, 0, 0, a.block % TWO_40);
      } else if a.block < p.proposedBlock {
        return Some(BlockUnderflow);
      } else if AgeExceeds(a.block, p, expiry) {
        proposals := proposals[k := p.(status := Cancelled)];
        return None;
      }
      var status;
      reply, status := RecordVote(k, p, a.sender, index, a.destinationDomainID, a.resourceID, a.data);
      if reply == None && status.Passed? {
        reply := ExecuteProposal(a.sender, a.destinationDomainID, a.domainID, a.depositNonce, a.data, a.resourceID,
                                 false, a.run);
      }
    }

    method RecordVote(k: Key, record: Proposal, sender: Address, index: nat, destinationDomainID: uint8,
                      resourceID: ResourceID, data: Bytes)
      returns (reply: Option<Error>, status: Status)
      requires Valid() && relayers.Value().Contains(sender) && index == relayers.Value().IndexOf(sender)
      requires record.status.Active?
      modifies this
      ensures Valid()
      ensures var s, votes := old(Now()), Or(record.yesVotes, VoteBit(index));
              if votes >= TWO_200 then reply == Some(VotesTooWide)
              else if record.yesVotesTotal == 255 then reply == Some(TotalOverflow)
              else
                && reply == None
                && Now() == PassIfReached(CountVote(s, k, record, sender, destinationDomainID, resourceID, data), k)
                && status == Now().Record(k).status
    {
      var p := record;
      p := p.(yesVotes := Or(p.yesVotes, VoteBit(index)));
      status := p.status;
      if p.yesVotes >= TWO_200 {
        return Some(VotesTooWide), status;
      }
      if p.yesVotesTotal == 255 {
        return Some(TotalOverflow), status;
      }
      p := p.(yesVotesTotal := p.yesVotesTotal + 1);
      var handler := if resourceID in handlers then handlers[resourceID] else ZERO_ADDRESS;
      journal := Then(journal, Voted(k, sender, index, destinationDomainID, resourceID, handler, data));
      if p.yesVotesTotal >= threshold {
        p := p.(status := Passed);
        journal := Then(journal, PassedAt(k, threshold));
      }
      proposals := proposals[k := p];
      ghost var counted := CountVote(old(Now()), k, record, sender, destinationDomainID, resourceID, data);
      assert proposals == PassIfReached(counted, k).proposals;
      reply, status := None, p.status;
    }

    // Marks the proposal Executed, then calls the handler. A failed call either reverts
    // everything or puts the status back to Passed.
    method ExecuteProposal(sender: Address, destinationDomainID: uint8, domainID: uint8, depositNonce: uint64,
                           data: Bytes, resourceID: ResourceID, revertOnFail: bool, run: HandlerRun)
      returns (reply: Option<Error>)
      requires Valid()
      modifies this, relayers
      ensures Valid()
      ensures var s := old(Now());
              Follows(CallStep(hash, s, sender,
                               ProposalKey(hash, domainID, depositNonce, s.HandlerOf(resourceID), data),
                               s.HandlerOf(resourceID), destinationDomainID, resourceID, data, revertOnFail, run),
                      reply)
      decreases run, 1
    {
      hide AddressSet.Valid, RunAll;
      var index := relayers.IndexOf(sender);
      if index == 0 {
        return Some(NotRelayer);
      }
      if paused {
        return Some(ContractPaused);
      }
      var handler := if resourceID in handlers then handlers[resourceID] else ZERO_ADDRESS;
      var k := ProposalKey(hash, domainID, depositNonce, handler, data);
      var p := Load(k);
      if !p.status.Passed? {
        return Some(NotPassed);
      }
      proposals := proposals[k := p.(status := Executed)];
      if !run.hasCode {
        return Some(NoCode);
      }
      var called := CallHandler(run);
      if called {
        journal := Then(journal, Called(k, sender, destinationDomainID, resourceID, handler, data));
      } else if revertOnFail {
        return Some(HandlerFailed);
      } else {
        proposals := proposals[k := p];
        journal := Then(journal, CallFailed(k));
        assert proposals == old(proposals);
      }
      reply := None;
    }

    // The handler may call back any number of times; if it fails, all of that is undone.
    method CallHandler(run: HandlerRun) returns (returned: bool)
      requires Valid()
      modifies this, relayers
      ensures Valid()
      ensures returned <==> run.hasCode && run.succeeds
      ensures Now() == if returned then RunAll(hash, old(Now()), run.nested) else old(Now())
      decreases run, 0
    {
      if !run.hasCode {
        return false;
      }
      var before := Snapshot();
      for i := 0 to |run.nested|
        invariant Valid()
        invariant RunAll(hash, Now(), run.nested[i..]) == RunAll(hash, before, run.nested)
      {
        ghost var s := Now();
        var _ := Transact(run.nested[i]);
        assert Now() == After(hash, s, run.nested[i]);
      }
      returned := run.succeeds;
      if !returned {
        Restore(before);
      }
    }

    method CancelProposal(a: Action) returns (reply: Option<Error>)
      requires Valid() && a.Cancel?
      modifies this
      ensures Valid() && Follows(CancelStep(old(Now()), a), reply)
    {
      var index := relayers.IndexOf(a.sender);
      if index == 0 {
        return Some(NotRelayer);
      }
      var k := Key(DestNonce(a.domainID, a.depositNonce), a.dataHash);
      var p := Load(k);
      if !p.status.Active? && !p.status.Passed? {
        return Some(NotCancellable);
      }
      if a.block < p.proposedBlock {
        return Some(BlockUnderflow);
      }
      if !AgeExceeds(a.block, p, expiry) {
        return Some(NotExpired);
      }
      proposals := proposals[k := p.(status := Cancelled)];
      reply := None;
    }

    method MakeDeposit(a: Action) returns (reply: Option<Error>)
      requires Valid() && a.Deposit?
      modifies this, relayers
      ensures Valid() && Follows(DepositStep(hash, old(Now()), a), reply)
      decreases a, 0
    {
      if paused {
        return Some(ContractPaused);
      }
      if a.resourceID !in handlers || handlers[a.resourceID] == ZERO_ADDRESS {
        return Some(NoHandler);
      }
      var d := a.destinationDomainID;
      var nonce := (if d in depositCounts then depositCounts[d] else 0) + 1;
      if nonce >= TWO_64 {
        return Some(NonceOverflow);
      }
      depositCounts := depositCounts[d := nonce];
      var called := CallHandler(a.run);
      if !called {
        return Some(HandlerFailed);
      }
      journal := Then(journal, Deposited(d, nonce, a.resourceID, a.sender, a.data));
      reply := None;
    }

    method Administer(a: Action) returns (reply: Option<Error>)
      requires Valid() && !a.Vote? && !a.Execute? && !a.Cancel? && !a.Deposit? && !a.SetResource?
      modifies this, relayers
      ensures Valid() && Follows(Step(hash, old(Now()), a), reply)
    {
      reply := None;
      match a {
        case AdminAddRelayer(x) =>
          var index := relayers.IndexOf(x);
          if index != 0 {
            return Some(AlreadyRelayer);
          }
          if |relayers.values| >= MAX_RELAYERS {
            return Some(RelayerLimit);
          }
          GrantRelayerRole(x);
        case AdminRemoveRelayer(x) =>
          var index := relayers.IndexOf(x);
          if index == 0 {
            return Some(NotRelayer);
          }
          RevokeRelayerRole(x);
        case GrantRelayer(x) => GrantRelayerRole(x);
        case RevokeRelayer(x) => RevokeRelayerRole(x);
        case ChangeThreshold(t) =>
          if t >= 256 {
            return Some(ThresholdTooWide);
          }
          threshold := t;
        case SetDepositNonce(d, n) =>
          var current := if d in depositCounts then depositCounts[d] else 0;
          if n <= current {
            return Some(NonceNotIncreased);
          }
          depositCounts := depositCounts[d := n];
          journal := Then(journal, NonceSet(d, current, n));
        case SetPaused(b) =>
          if paused == b {
            return Some(if b then ContractPaused else NotPaused);
          }
          paused := b;
      }
    }

    method GrantRelayerRole(x: Address)
      requires Valid()
      modifies this, relayers
      ensures Valid() && Now() == Grant(old(Now()), x)
    {
      var added := relayers.Add(x);
      if added {
        journal := Then(journal, Granted(x));
      }
    }

    method RevokeRelayerRole(x: Address)
      requires Valid()
      modifies this, relayers
      ensures Valid() && Now() == Revoke(old(Now()), x)
    {
      var removed := relayers.Remove(x);
      if removed {
        journal := Then(journal, Revoked(x));
      }
    }

    // ----- storage -----

    method Load(k: Key) returns (p: Proposal)
      requires Valid()
      ensures p == Now().Record(k)
    {
      p := if k in proposals then proposals[k] else Proposal(Inactive, 0, 0, 0);
    }

    method Snapshot() returns (s: State)
      requires Valid()
      ensures s == Now()
    {
      s := State(proposals, depositCounts, AddressSet(relayers.values, relayers.indexes), threshold, expiry, handlers,
                 paused, journal);
    }

    method Restore(s: State)
      requires Valid() && s.expiry == expiry
      modifies this, relayers
      ensures Valid() && Now() == s
    {
      proposals, depositCounts, threshold := s.proposals, s.depositCounts, s.threshold;
      handlers, paused, journal := s.handlers, s.paused, s.journal;
      relayers.Restore(s.relayers);
    }
  }
}
