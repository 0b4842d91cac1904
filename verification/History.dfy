// What the committed history says about one proposal and about one deposit nonce.
module History {
  import opened Words
  import opened Bytes
  import opened Protocol

  // Successful handler calls made for a proposal.
  ghost function Calls(j: Journal, k: Key): nat {
    match j
    case Empty => 0
    case Then(earlier, e) => Calls(earlier, k) + if e.Called? && e.key == k then 1 else 0
  }

  // Votes counted for a proposal, by anyone.
  ghost function Votes(j: Journal, k: Key): nat {
    match j
    case Empty => 0
    case Then(earlier, e) => Votes(earlier, k) + if e.Voted? && e.key == k then 1 else 0
  }

  // Votes counted for a proposal from a position whose bit falls off the 256-bit word.
  ghost function WideVotes(j: Journal, k: Key): nat {
    match j
    case Empty => 0
    case Then(earlier, e) => WideVotes(earlier, k) + if e.Voted? && e.key == k && e.index > 256 then 1 else 0
  }

  ghost function Voters(j: Journal, k: Key): set<Address> {
    match j
    case Empty => {}
    case Then(earlier, e) => if e.Voted? && e.key == k then Voters(earlier, k) + {e.relayer} else Voters(earlier, k)
  }

  // The number of relayers, and the largest number there has ever been.
  ghost function RelayerCount(j: Journal): int {
    match j
    case Empty => 0
    case Then(earlier, e) => RelayerCount(earlier) + if e.Granted? then 1 else if e.Revoked? then -1 else 0
  }

  ghost function PeakRelayers(j: Journal): int {
    match j
    case Empty => 0
    case Then(earlier, e) => Max(PeakRelayers(earlier), RelayerCount(j))
  }

  // Relayers removed since the first vote for the proposal was counted.
  ghost function Removals(j: Journal, k: Key): nat {
    match j
    case Empty => 0
    case Then(earlier, e) => Removals(earlier, k) + if e.Revoked? && Votes(earlier, k) > 0 then 1 else 0
  }

  // Votes counted for a proposal from a relayer already counted for it, by whether the bit of
  // the voter's position falls off the word.
  ghost function Repeats(j: Journal, k: Key, wide: bool): nat {
    match j
    case Empty => 0
    case Then(earlier, e) =>
      Repeats(earlier, k, wide) +
      if e.Voted? && e.key == k && e.relayer in Voters(earlier, k) && (e.index > 256 <==> wide) then 1 else 0
  }

  ghost predicate HasPassed(j: Journal, k: Key) {
    match j
    case Empty => false
    case Then(earlier, e) => HasPassed(earlier, k) || (e.PassedAt? && e.key == k)
  }

  // The threshold in force at the passing vote.
  ghost function PassThreshold(j: Journal, k: Key): nat {
    match j
    case Empty => 0
    case Then(earlier, e) => if e.PassedAt? && e.key == k then e.threshold else PassThreshold(earlier, k)
  }

  // Deposits announced for a destination under a nonce.
  ghost function Deposits(j: Journal, d: uint8, n: nat): nat {
    match j
    case Empty => 0
    case Then(earlier, e) =>
      Deposits(earlier, d, n) + if e.Deposited? && e.destinationDomainID == d && e.nonce == n then 1 else 0
  }

  // Times the administrator moved the counter of a destination past a nonce.
  ghost function Skips(j: Journal, d: uint8, n: nat): nat {
    match j
    case Empty => 0
    case Then(earlier, e) =>
      Skips(earlier, d, n) + if e.NonceSet? && e.destinationDomainID == d && e.from < n <= e.to then 1 else 0
  }

  ghost predicate Occurs(j: Journal, event: Event) {
    match j
    case Empty => false
    case Then(earlier, e) => e == event || Occurs(earlier, event)
  }

  // Nothing committed is ever forgotten.
  ghost predicate Grows(j: Journal, later: Journal) {
    forall e :: Occurs(j, e) ==> Occurs(later, e)
  }

  // The resource had been mapped to the handler by then.
  ghost predicate Sourced(j: Journal, resourceID: ResourceID, handler: Address) {
    handler == ZERO_ADDRESS || Occurs(j, ResourceSet(resourceID, handler))
  }

  // Every vote and every handler call carried a handler and data that hash to its proposal,
  // and a resource that had been mapped to that handler.
  ghost predicate Genuine(h: Digest, j: Journal) {
    match j
    case Empty => true
    case Then(earlier, e) =>
      && Genuine(h, earlier)
      && (e.Voted? || e.Called? ==>
            e.key.dataHash == h(AddressBytes(e.handler) + e.data) && Sourced(earlier, e.resourceID, e.handler))
      && (e.Voted? ==> e.handler != ZERO_ADDRESS)
  }

  lemma {:induction false} GenuineOccurs(h: Digest, j: Journal, e: Event)
    requires Genuine(h, j) && Occurs(j, e) && (e.Voted? || e.Called?)
    ensures e.key.dataHash == h(AddressBytes(e.handler) + e.data) && Sourced(j, e.resourceID, e.handler)
    ensures e.Voted? ==> e.handler != ZERO_ADDRESS
  {
    if j.event != e {
      GenuineOccurs(h, j.earlier, e);
    }
  }

  lemma {:induction false} NoVotesNoVoters(j: Journal, k: Key)
    requires Votes(j, k) == 0
    ensures Voters(j, k) == {} && WideVotes(j, k) == 0 && Removals(j, k) == 0
    ensures Repeats(j, k, false) == 0
  {
    match j
    case Empty =>
    case Then(earlier, _) => NoVotesNoVoters(earlier, k);
  }

  // A counted vote either adds a voter or repeats one.
  lemma {:induction false} VotersAndRepeats(j: Journal, k: Key)
    ensures |Voters(j, k)| + Repeats(j, k, false) + Repeats(j, k, true) == Votes(j, k)
    ensures Repeats(j, k, true) <= WideVotes(j, k)
  {
    match j
    case Empty =>
    case Then(earlier, e) =>
      VotersAndRepeats(earlier, k);
      if e.Voted? && e.key == k && e.relayer in Voters(earlier, k) {
        assert Voters(j, k) == Voters(earlier, k);
      }
  }

  // A counted vote leaves a record of its first voter.
  lemma {:induction false} SomeVote(j: Journal, k: Key) returns (e: Event)
    requires Votes(j, k) > 0
    ensures Occurs(j, e) && e.Voted? && e.key == k
  {
    if j.event.Voted? && j.event.key == k {
      e := j.event;
    } else {
      e := SomeVote(j.earlier, k);
    }
  }

  // Each voter cast a recorded vote.
  lemma {:induction false} VoterVoted(j: Journal, k: Key, r: Address) returns (e: Event)
    requires r in Voters(j, k)
    ensures Occurs(j, e) && e.Voted? && e.key == k && e.relayer == r
  {
    if j.event.Voted? && j.event.key == k && j.event.relayer == r {
      e := j.event;
    } else {
      e := VoterVoted(j.earlier, k, r);
    }
  }

  lemma {:induction false} CallRecorded(j: Journal, e: Event)
    requires Occurs(j, e) && e.Called?
    ensures Calls(j, e.key) > 0
  {
    if j.event != e {
      CallRecorded(j.earlier, e);
    }
  }
}
