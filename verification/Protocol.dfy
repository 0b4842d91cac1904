// The bridge contract as a transition system: what one committed call does to the storage.
// A call into a handler is an arbitrary tree of further bridge calls followed by success or
// failure, so every property proved over Step holds for re-entrant handlers too.
module Protocol {
  import opened Words
  import opened Bits
  import opened Bytes
  import opened AddressSets

  // The hash function of the chain; nothing is assumed about it here.
  type Digest = Bytes -> nat

  datatype Status = Inactive | Active | Passed | Executed | Cancelled

  datatype Proposal = Proposal(status: Status, yesVotes: nat, yesVotesTotal: uint8, proposedBlock: nat)

  datatype Key = Key(destNonce: nat, dataHash: nat)

  // The committed history, newest event last. A reverted call leaves no events.
  datatype Event =
    | Voted(key: Key, relayer: Address, index: nat, destinationDomainID: uint8, resourceID: ResourceID,
            handler: Address, data: Bytes)
    | PassedAt(key: Key, threshold: uint8)
    | Called(key: Key, sender: Address, destinationDomainID: uint8, resourceID: ResourceID, handler: Address,
             data: Bytes)
    | CallFailed(key: Key)
    | Deposited(destinationDomainID: uint8, nonce: nat, resourceID: ResourceID, user: Address, data: Bytes)
    | ResourceSet(resourceID: ResourceID, handler: Address)
    | NonceSet(destinationDomainID: uint8, from: nat, to: nat)
    | Granted(relayer: Address)
    | Revoked(relayer: Address)

  datatype Journal = Empty | Then(earlier: Journal, event: Event)

  datatype State = State(
    proposals: map<Key, Proposal>,
    depositCounts: map<uint8, nat>,
    relayers: Relayers,
    threshold: uint8,
    expiry: nat,
    handlers: map<ResourceID, Address>,
    paused: bool,
    journal: Journal)
  {
    function Record(k: Key): Proposal {
      if k in proposals then proposals[k] else Proposal(Inactive, 0, 0, 0)
    }

    function Store(k: Key, p: Proposal): State {
      this.(proposals := proposals[k := p])
    }

    function DepositCount(destination: uint8): nat {
      if destination in depositCounts then depositCounts[destination] else 0
    }

    function HandlerOf(r: ResourceID): Address {
      if r in handlers then handlers[r] else ZERO_ADDRESS
    }

    function Log(e: Event): State {
      this.(journal := Then(journal, e))
    }
  }

  const MAX_RELAYERS := 200
  const VOTE_BITS := 200

  // What a handler does when it is called: the bridge calls it makes, and whether it returns
  // normally. An address without code cannot be called at all.
  datatype HandlerRun = HandlerRun(hasCode: bool, nested: seq<Action>, succeeds: bool)

  datatype Action =
    | Vote(sender: Address, block: nat, destinationDomainID: uint8, domainID: uint8, depositNonce: uint64,
           resourceID: ResourceID, data: Bytes, run: HandlerRun)
    | Execute(sender: Address, destinationDomainID: uint8, domainID: uint8, depositNonce: uint64,
              data: Bytes, resourceID: ResourceID, revertOnFail: bool, run: HandlerRun)
    | Cancel(sender: Address, block: nat, domainID: uint8, depositNonce: uint64, dataHash: nat)
    | Deposit(sender: Address, destinationDomainID: uint8, resourceID: ResourceID, data: Bytes, run: HandlerRun)
    | AdminAddRelayer(relayer: Address)
    | AdminRemoveRelayer(relayer: Address)
    | GrantRelayer(relayer: Address)
    | RevokeRelayer(relayer: Address)
    | ChangeThreshold(newThreshold: nat)
    | SetResource(resourceID: ResourceID, handler: Address, run: HandlerRun)
    | SetDepositNonce(destinationDomainID: uint8, nonce: uint64)
    | SetPaused(paused: bool)

  datatype Error =
    | NotRelayer | ContractPaused | NotPaused | NoHandler | AlreadyFinal | AlreadyVoted | BlockUnderflow
    | VotesTooWide | TotalOverflow | NotPassed | NoCode | HandlerFailed | NotCancellable | NotExpired
    | NonceOverflow | NonceNotIncreased | AlreadyRelayer | RelayerLimit | ThresholdTooWide | ExpiryTooWide

  // (nonce << 8) | domain, a 72-bit number.
  function DestNonce(domainID: uint8, depositNonce: uint64): nat {
    256 * depositNonce + domainID
  }

  function ProposalKey(h: Digest, domainID: uint8, depositNonce: uint64, handler: Address, data: Bytes): Key {
    Key(DestNonce(domainID, depositNonce), h(AddressBytes(handler) + data))
  }

  // The bit a relayer votes with: 1 << (index - 1) as a 256-bit shift.
  function VoteBit(index: nat): nat
    requires index > 0
  {
    ShiftOne(index - 1)
  }

  function HasVoted(p: Proposal, index: nat): bool
    requires index > 0
  {
    And(p.yesVotes, VoteBit(index)) > 0
  }

  function AgeExceeds(block: nat, p: Proposal, expiry: nat): bool
    requires p.proposedBlock <= block
  {
    (block - p.proposedBlock) % TWO_40 > expiry
  }

  // The storage after a counted vote: the voter's bit is set and the counter incremented.
  function CountVote(s: State, k: Key, p: Proposal, relayer: Address, destinationDomainID: uint8,
                     resourceID: ResourceID, data: Bytes): State
    requires s.relayers.Contains(relayer) && p.yesVotesTotal < 255
  {
    var index := s.relayers.IndexOf(relayer);
    s.Store(k, Proposal(Active, Or(p.yesVotes, VoteBit(index)), p.yesVotesTotal + 1, p.proposedBlock))
     .Log(Voted(k, relayer, index, destinationDomainID, resourceID, s.HandlerOf(resourceID), data))
  }

  // A counted vote passes the proposal once the threshold in force is reached.
  function PassIfReached(s: State, k: Key): State {
    if s.Record(k).yesVotesTotal >= s.threshold
    then s.Store(k, s.Record(k).(status := Passed)).Log(PassedAt(k, s.threshold))
    else s
  }

  function VoteStep(h: Digest, s: State, a: Action): Result<State, Error>
    requires a.Vote?
    decreases a, 0
  {
    var handler := s.HandlerOf(a.resourceID);
    var k := ProposalKey(h, a.domainID, a.depositNonce, handler, a.data);
    var p := s.Record(k);
    if !s.relayers.Contains(a.sender) then Err(NotRelayer)
    else if s.paused then Err(ContractPaused)
    else if handler == ZERO_ADDRESS then Err(NoHandler)
    else if p.status.Passed? then
      CallStep(h, s, a.sender, k, handler, a.destinationDomainID, a.resourceID, a.data, true, a.run)
    else if p.status.Executed? || p.status.Cancelled? then Err(AlreadyFinal)
    else if HasVoted(p, s.relayers.IndexOf(a.sender)) then Err(AlreadyVoted)
    else if p.status.Active? && a.block < p.proposedBlock then Err(BlockUnderflow)
    else if p.status.Active? && AgeExceeds(a.block, p, s.expiry) then Ok(s.Store(k, p.(status := Cancelled)))
    else
      var record := if p.status.Inactive? then Proposal(Active, 0, 0, a.block % TWO_40) else p;
      if Or(record.yesVotes, VoteBit(s.relayers.IndexOf(a.sender))) >= TWO_200 then Err(VotesTooWide)
      else if record.yesVotesTotal == 255 then Err(TotalOverflow)
      else
      var counted := PassIfReached(CountVote(s, k, record, a.sender, a.destinationDomainID, a.resourceID, a.data), k);
      if counted.Record(k).status.Passed? then
        CallStep(h, counted, a.sender, k, handler, a.destinationDomainID, a.resourceID, a.data, false, a.run)
      else Ok(counted)
  }

  // executeProposal: the proposal is marked Executed before its handler is called.
  function CallStep(h: Digest, s: State, sender: Address, k: Key, handler: Address, destinationDomainID: uint8,
                    resourceID: ResourceID, data: Bytes, revertOnFail: bool, run: HandlerRun): Result<State, Error>
    decreases run, 1
  {
    var p := s.Record(k);
    if !s.relayers.Contains(sender) then Err(NotRelayer)
    else if s.paused then Err(ContractPaused)
    else if !p.status.Passed? then Err(NotPassed)
    else if !run.hasCode then Err(NoCode)
    else if run.succeeds then
      Ok(RunAll(h, s.Store(k, p.(status := Executed)), run.nested)
         .Log(Called(k, sender, destinationDomainID, resourceID, handler, data)))
    else if revertOnFail then Err(HandlerFailed)
    else Ok(s.Log(CallFailed(k)))
  }

  function CancelStep(s: State, a: Action): Result<State, Error>
    requires a.Cancel?
  {
    var k := Key(DestNonce(a.domainID, a.depositNonce), a.dataHash);
    var p := s.Record(k);
    if !s.relayers.Contains(a.sender) then Err(NotRelayer)
    else if !p.status.Active? && !p.status.Passed? then Err(NotCancellable)
    else if a.block < p.proposedBlock then Err(BlockUnderflow)
    else if !AgeExceeds(a.block, p, s.expiry) then Err(NotExpired)
    else Ok(s.Store(k, p.(status := Cancelled)))
  }

  function DepositStep(h: Digest, s: State, a: Action): Result<State, Error>
    requires a.Deposit?
    decreases a, 0
  {
    var nonce := s.DepositCount(a.destinationDomainID) + 1;
    if s.paused then Err(ContractPaused)
    else if s.HandlerOf(a.resourceID) == ZERO_ADDRESS then Err(NoHandler)
    else if nonce >= TWO_64 then Err(NonceOverflow)
    else if !a.run.hasCode || !a.run.succeeds then Err(HandlerFailed)
    else
      Ok(RunAll(h, s.(depositCounts := s.depositCounts[a.destinationDomainID := nonce]), a.run.nested)
         .Log(Deposited(a.destinationDomainID, nonce, a.resourceID, a.sender, a.data)))
  }

  function MapResource(s: State, r: ResourceID, handler: Address): State {
    s.(handlers := s.handlers[r := handler]).Log(ResourceSet(r, handler))
  }

  function Grant(s: State, x: Address): State {
    if s.relayers.Contains(x) then s else s.(relayers := s.relayers.Add(x)).Log(Granted(x))
  }

  function Revoke(s: State, x: Address): State {
    if s.relayers.Contains(x) then s.(relayers := s.relayers.Remove(x)).Log(Revoked(x)) else s
  }

  // One call: Ok carries the committed storage, Err is a revert.
  function Step(h: Digest, s: State, a: Action): Result<State, Error>
    decreases a, 1
  {
    match a
    case Vote(_, _, _, _, _, _, _, _) => VoteStep(h, s, a)
    case Execute(sender, destinationDomainID, domainID, depositNonce, data, resourceID, revertOnFail, run) =>
      var handler := s.HandlerOf(resourceID);
      CallStep(h, s, sender, ProposalKey(h, domainID, depositNonce, handler, data),
               handler, destinationDomainID, resourceID, data, revertOnFail, run)
    case Cancel(_, _, _, _, _) => CancelStep(s, a)
    case Deposit(_, _, _, _, _) => DepositStep(h, s, a)
    case AdminAddRelayer(x) =>
      if s.relayers.Contains(x) then Err(AlreadyRelayer)
      else if |s.relayers.values| >= MAX_RELAYERS then Err(RelayerLimit)
      else Ok(Grant(s, x))
    case AdminRemoveRelayer(x) =>
      if !s.relayers.Contains(x) then Err(NotRelayer) else Ok(Revoke(s, x))
    case GrantRelayer(x) => Ok(Grant(s, x))
    case RevokeRelayer(x) => Ok(Revoke(s, x))
    case ChangeThreshold(t) => if t >= 256 then Err(ThresholdTooWide) else Ok(s.(threshold := t))
    case SetResource(r, handler, run) =>
      if !run.hasCode || !run.succeeds then Err(HandlerFailed)
      else Ok(RunAll(h, MapResource(s, r, handler), run.nested))
    case SetDepositNonce(d, n) =>
      if n <= s.DepositCount(d) then Err(NonceNotIncreased)
      else Ok(s.(depositCounts := s.depositCounts[d := n]).Log(NonceSet(d, s.DepositCount(d), n)))
    case SetPaused(b) =>
      if s.paused == b then Err(if b then ContractPaused else NotPaused) else Ok(s.(paused := b))
  }

  function After(h: Digest, s: State, a: Action): State
    decreases a, 2
  {
    match Step(h, s, a)
    case Ok(t) => t
    case Err(_) => s
  }

  // Calls one after the other; each either commits or reverts.
  function RunAll(h: Digest, s: State, actions: seq<Action>): State
    decreases actions, 0
  {
    if actions == [] then s else RunAll(h, After(h, s, actions[0]), actions[1..])
  }

  function GrantAll(s: State, xs: seq<Address>): State
    decreases |xs|
  {
    if xs == [] then s else GrantAll(Grant(s, xs[0]), xs[1..])
  }

  // The constructor grants the role to the listed relayers, however many they are.
  function Deploy(initialRelayers: seq<Address>, threshold: nat, expiry: nat): Result<State, Error> {
    if threshold >= 256 then Err(ThresholdTooWide)
    else if expiry >= TWO_40 then Err(ExpiryTooWide)
    else Ok(GrantAll(State(map[], map[], AddressSet([], map[]), threshold, expiry, map[], false, Empty),
                     initialRelayers))
  }

  // s is the storage after some run of top-level calls from deployment.
  ghost predicate Reachable(h: Digest, s: State) {
    exists relayers, threshold, expiry, actions ::
      Deploy(relayers, threshold, expiry).Ok? && s == RunAll(h, Deploy(relayers, threshold, expiry).value, actions)
  }
}
