// What the votes for a proposal fix about its execution. Nonce, handler and data are fixed. The
// resource, which names the token, is fixed only as far as it alone was mapped to the handler.
// The destination domain, which names the fee, is never fixed: the executing relayer picks it.
module Terms {
  import opened Words
  import opened Bytes
  import opened AddressSets
  import opened Protocol
  import opened History
  import opened Invariants
  import opened Theorems

  // Two handlers with the same data do not collide.
  predicate Separate(h: Digest, a: Address, b: Address, data: Bytes) {
    h(AddressBytes(a) + data) == h(AddressBytes(b) + data) ==> a == b
  }

  // The call executes the proposal itself, rather than from inside a handler.
  predicate Executes(h: Digest, s: State, a: Action, k: Key) {
    && Step(h, s, a).Ok?
    && Step(h, s, a).value.journal.Then?
    && Step(h, s, a).value.journal.event.Called?
    && Step(h, s, a).value.journal.event.key == k
  }

  // A passed proposal can be executed under a resource if and only if that resource is mapped
  // to the handler in its key, and then under every destination domain.
  lemma ExecutableUnder(h: Digest, s: State, handler: Address, a: Action)
    requires a.Execute? && s.relayers.Contains(a.sender) && !s.paused && a.run.hasCode && a.run.succeeds
    requires s.Record(ProposalKey(h, a.domainID, a.depositNonce, handler, a.data)).status.Passed?
    requires Separate(h, s.HandlerOf(a.resourceID), handler, a.data)
    ensures var k := ProposalKey(h, a.domainID, a.depositNonce, handler, a.data);
            && (Executes(h, s, a, k) <==> s.HandlerOf(a.resourceID) == handler)
            && (Executes(h, s, a, k) ==>
                  Step(h, s, a).value.journal.event ==
                  Called(k, a.sender, a.destinationDomainID, a.resourceID, handler, a.data))
  {
    hide AddressSet.Valid, RunAll;
    var used := s.HandlerOf(a.resourceID);
    var k := ProposalKey(h, a.domainID, a.depositNonce, used, a.data);
    assert Step(h, s, a) == CallStep(h, s, a.sender, k, used, a.destinationDomainID, a.resourceID, a.data,
                                     a.revertOnFail, a.run);
  }

  // The same for a vote, which executes a proposal it finds passed.
  lemma VoteExecutesUnder(h: Digest, s: State, handler: Address, a: Action)
    requires Reachable(h, s) && handler != ZERO_ADDRESS
    requires a.Vote? && s.relayers.Contains(a.sender) && !s.paused && a.run.hasCode && a.run.succeeds
    requires s.Record(ProposalKey(h, a.domainID, a.depositNonce, handler, a.data)).status.Passed?
    requires Separate(h, s.HandlerOf(a.resourceID), handler, a.data)
    ensures var k := ProposalKey(h, a.domainID, a.depositNonce, handler, a.data);
            && (Executes(h, s, a, k) <==> s.HandlerOf(a.resourceID) == handler)
            && (Executes(h, s, a, k) ==>
                  Step(h, s, a).value.journal.event ==
                  Called(k, a.sender, a.destinationDomainID, a.resourceID, handler, a.data))
  {
    hide Step, VoteStep, Reachable;
    var k := ProposalKey(h, a.domainID, a.depositNonce, handler, a.data);
    StepOfVote(h, s, a);
    if s.HandlerOf(a.resourceID) == handler {
      VoteCalls(h, s, a, k);
    } else {
      NotCalledYet(h, s, k);
      if VoteStep(h, s, a).Ok? && VoteStep(h, s, a).value.journal.Then? {
        VoteLeavesOthers(h, s, a, k);
      }
    }
  }

  lemma VoteCalls(h: Digest, s: State, a: Action, k: Key)
    requires a.Vote? && s.relayers.Contains(a.sender) && !s.paused && a.run.hasCode && a.run.succeeds
    requires s.HandlerOf(a.resourceID) != ZERO_ADDRESS && s.Record(k).status.Passed?
    requires k == ProposalKey(h, a.domainID, a.depositNonce, s.HandlerOf(a.resourceID), a.data)
    ensures VoteStep(h, s, a).Ok? && VoteStep(h, s, a).value.journal.Then?
    ensures VoteStep(h, s, a).value.journal.event ==
            Called(k, a.sender, a.destinationDomainID, a.resourceID, s.HandlerOf(a.resourceID), a.data)
  {
    hide AddressSet.Valid, RunAll, HasVoted;
    assert VoteStep(h, s, a)
        == CallStep(h, s, a.sender, k, s.HandlerOf(a.resourceID), a.destinationDomainID, a.resourceID, a.data, true,
                    a.run);
  }

  // A vote does not end in the call of a proposal with another key.
  lemma VoteLeavesOthers(h: Digest, s: State, a: Action, k: Key)
    requires a.Vote? && VoteStep(h, s, a).Ok? && VoteStep(h, s, a).value.journal.Then?
    requires k != ProposalKey(h, a.domainID, a.depositNonce, s.HandlerOf(a.resourceID), a.data)
    requires !(s.journal.Then? && s.journal.event.Called? && s.journal.event.key == k)
    ensures !(VoteStep(h, s, a).value.journal.event.Called? && VoteStep(h, s, a).value.journal.event.key == k)
  {
    hide AddressSet.Valid, RunAll, HasVoted, ProposalKey;
  }

  // A passed proposal has not been called, so its call is not the last event either.
  lemma NotCalledYet(h: Digest, s: State, k: Key)
    requires Reachable(h, s) && s.Record(k).status.Passed?
    ensures !(s.journal.Then? && s.journal.event.Called? && s.journal.event.key == k)
  {
    hide Reachable;
    ExecutedExactlyOnce(h, s, k);
  }

  // An executing call for the given proposal under some resource and destination.
  function Execution(sender: Address, d: uint8, n: uint64, data: Bytes, resource: ResourceID,
                     destination: uint8): Action {
    Execute(sender, destination, d, n, data, resource, true, HandlerRun(true, [], true))
  }

  // The proposal can be executed under one resource only, if and only if no other resource is
  // mapped to its handler.
  lemma ResourceFixedNow(h: Digest, s: State, handler: Address, sender: Address, d: uint8, n: uint64, data: Bytes,
                         r: ResourceID)
    requires s.relayers.Contains(sender) && !s.paused
    requires s.Record(ProposalKey(h, d, n, handler, data)).status.Passed?
    requires forall other :: Separate(h, s.HandlerOf(other), handler, data)
    ensures var k := ProposalKey(h, d, n, handler, data);
            (forall other, destination :: Executes(h, s, Execution(sender, d, n, data, other, destination), k) ==>
             other == r)
            <==> (forall other :: s.HandlerOf(other) == handler ==> other == r)
  {
    hide AddressSet.Valid, Executes;
    var k := ProposalKey(h, d, n, handler, data);
    forall other, destination: uint8
      ensures Executes(h, s, Execution(sender, d, n, data, other, destination), k) <==> s.HandlerOf(other) == handler
    {
      ExecutableUnder(h, s, handler, Execution(sender, d, n, data, other, destination));
    }
    if other :| s.HandlerOf(other) == handler && other != r {
      assert Executes(h, s, Execution(sender, d, n, data, other, 0), k);
    }
  }

  // At most one resource was ever mapped to the handler.
  ghost predicate SoleResource(j: Journal, handler: Address) {
    forall r, r' | Occurs(j, ResourceSet(r, handler)) && Occurs(j, ResourceSet(r', handler)) :: r == r'
  }

  // Over the whole history: the handler, the nonce and the data of a handler call are those of
  // every vote for it, and so is the resource if it alone was ever mapped to the handler.
  lemma TermsOfCall(h: Digest, s: State, vote: Event, call: Event)
    requires Reachable(h, s) && CollisionFree(h, s.journal)
    requires Occurs(s.journal, vote) && vote.Voted? && Occurs(s.journal, call) && call.Called? && vote.key == call.key
    ensures call.handler == vote.handler && call.data == vote.data
    ensures SoleResource(s.journal, call.handler) ==> call.resourceID == vote.resourceID
  {
    hide Reachable, CallInv, VoteInv, QuorumInv, SizeInv, NonceInv, Occurs, Genuine;
    Binding(h, s, vote, call);
    ReachableInvFor(h, s, vote.key);
    GenuineOccurs(h, s.journal, vote);
    GenuineOccurs(h, s.journal, call);
  }

  // An executed proposal had an honest voter, if the deviating relayers and the repeated votes
  // together do not reach the threshold it passed under.
  lemma HonestVoter(h: Digest, s: State, k: Key, deviating: set<Address>) returns (vote: Event)
    requires Reachable(h, s) && s.Record(k).status.Executed?
    requires |deviating| + Repeats(s.journal, k, false) + Repeats(s.journal, k, true) < PassThreshold(s.journal, k)
    ensures Occurs(s.journal, vote) && vote.Voted? && vote.key == k && vote.relayer !in deviating
  {
    hide Reachable;
    Quorum(h, s, k);
    var voters := Voters(s.journal, k);
    if voters <= deviating {
      SubsetIsSmaller(voters, deviating);
      assert false;
    } else {
      var r :| r in voters && r !in deviating;
      vote := VoterVoted(s.journal, k, r);
    }
  }

  // What an honest relayer vouches for with a vote.
  datatype Mandate = Mandate(destNonce: nat, destination: uint8, resource: ResourceID, handler: Address, data: Bytes)

  function MandateOf(e: Event): Mandate
    requires e.Voted? || e.Called?
  {
    Mandate(e.key.destNonce, e.destinationDomainID, e.resourceID, e.handler, e.data)
  }

  // Honest relayers vote only for authentic payloads. If the deviating relayers, the removals
  // since the first vote and the repeated votes that leave no bit stay below the threshold the
  // proposal passed under, then its handler call agrees with an authentic payload in nonce,
  // handler and data, and in the resource too, if it alone was mapped to the handler. Nothing
  // of the kind holds for the destination.
  lemma OnlyAuthenticExecutes(h: Digest, s: State, call: Event, deviating: set<Address>, authentic: iset<Mandate>)
      returns (vouched: Mandate)
    requires Reachable(h, s) && CollisionFree(h, s.journal)
    requires Occurs(s.journal, call) && call.Called?
    requires forall e | Occurs(s.journal, e) && e.Voted? && e.key == call.key && e.relayer !in deviating ::
               MandateOf(e) in authentic
    requires |deviating| + Removals(s.journal, call.key) + Repeats(s.journal, call.key, true)
               < PassThreshold(s.journal, call.key)
    ensures vouched in authentic
    ensures vouched.destNonce == call.key.destNonce && vouched.handler == call.handler && vouched.data == call.data
    ensures SoleResource(s.journal, call.handler) ==> vouched.resource == call.resourceID
  {
    hide Reachable, CollisionFree, SoleResource;
    var k := call.key;
    CallRecorded(s.journal, call);
    ExecutedExactlyOnce(h, s, k);
    Quorum(h, s, k);
    var vote := HonestVoter(h, s, k, deviating);
    TermsOfCall(h, s, vote, call);
    vouched := MandateOf(vote);
  }
}
