// Who can move a proposal, and when: relayers only, nobody while the bridge is paused, and
// no cancellation before the expiry. Each is a restraint on a whole tree of calls.
module Authority {
  import opened Words
  import opened Bits
  import opened Bytes
  import opened AddressSets
  import opened Protocol
  import opened History
  import opened Invariants
  import opened Theorems

  datatype Restraint =
    | Outsiders(members: set<Address>) // nobody in this set acts, and nobody is given the role
    | WhilePaused                      // nobody lifts the pause
    | UpToBlock(block: nat)            // nobody votes or cancels at a later block
    | Codeless                         // no handler that is called has code

  predicate Obeys(c: Restraint, a: Action) {
    match c
    case Outsiders(members) =>
      && (a.Vote? || a.Execute? || a.Cancel? ==> a.sender !in members)
      && !a.AdminAddRelayer? && !a.GrantRelayer?
    case WhilePaused => a != SetPaused(false)
    case UpToBlock(last) => a.Vote? || a.Cancel? ==> a.block <= last
    case Codeless => a.Vote? || a.Execute? ==> !a.run.hasCode
  }

  // The restraint is obeyed by all calls, at every depth of re-entrance.
  predicate AllObey(c: Restraint, actions: seq<Action>)
    decreases actions, 0
  {
    actions == [] || (Obeys(c, actions[0]) && NestedObey(c, actions[0]) && AllObey(c, actions[1..]))
  }

  predicate NestedObey(c: Restraint, a: Action)
    decreases a, 1
  {
    a.Vote? || a.Execute? || a.Deposit? || a.SetResource? ==> AllObey(c, a.run.nested)
  }

  // What the restraint keeps true of one proposal, compared with the state s0 it began in.
  ghost predicate Holds(c: Restraint, s0: State, s: State, k: Key) {
    match c
    case Outsiders(members) =>
      && s.relayers.Members() <= members
      && s.Record(k) == s0.Record(k)
      && Votes(s.journal, k) == Votes(s0.journal, k)
      && Calls(s.journal, k) == Calls(s0.journal, k)
    case WhilePaused =>
      && s.paused
      && (s.Record(k) == s0.Record(k) || s.Record(k) == s0.Record(k).(status := Cancelled))
      && Votes(s.journal, k) == Votes(s0.journal, k)
      && Calls(s.journal, k) == Calls(s0.journal, k)
      && (forall d, n :: Deposits(s.journal, d, n) == Deposits(s0.journal, d, n))
    case UpToBlock(last) =>
      && s.expiry == s0.expiry
      && !s.Record(k).status.Inactive? && !s.Record(k).status.Cancelled?
      && s.Record(k).proposedBlock == s0.Record(k).proposedBlock
      && last <= s0.Record(k).proposedBlock + s0.expiry
    case Codeless =>
      && !s.Record(k).status.Passed? && !s.Record(k).status.Executed?
      && Calls(s.journal, k) == Calls(s0.journal, k)
  }

  lemma HoldsAtFirst(c: Restraint, s: State, k: Key)
    requires match c
             case Outsiders(members) => s.relayers.Members() <= members
             case WhilePaused => s.paused
             case UpToBlock(last) =>
               (s.Record(k).status.Active? || s.Record(k).status.Passed?)
                 && last <= s.Record(k).proposedBlock + s.expiry
             case Codeless => !s.Record(k).status.Passed? && !s.Record(k).status.Executed?
    ensures Holds(c, s, s, k)
  {}

  // Without a relayer or during a pause no vote gets through, nor without code an execution.
  lemma Refused(c: Restraint, s0: State, s: State, k: Key, h: Digest, a: Action)
    requires Holds(c, s0, s, k) && Obeys(c, a) && !c.UpToBlock?
    requires (a.Vote? && !c.Codeless?) || a.Execute? || (a.Deposit? && c.WhilePaused?) || (a.Cancel? && c.Outsiders?)
    ensures After(h, s, a) == s
  {
    MembersAreDistinct(s.relayers);
    hide AddressSet.Valid, AddressSet.Members;
    assert s.relayers.Contains(a.sender) ==> a.sender in s.relayers.Members();
    if a.Vote? {
      assert Step(h, s, a) == VoteStep(h, s, a);
    } else if a.Deposit? {
      assert Step(h, s, a) == DepositStep(h, s, a);
    } else {
      assert Step(h, s, a).Err?;
    }
  }

  lemma RolesHold(c: Restraint, s0: State, s: State, k: Key, x: Address)
    requires Holds(c, s0, s, k)
    ensures Holds(c, s0, Revoke(s, x), k)
    ensures !c.Outsiders? ==> Holds(c, s0, Grant(s, x), k)
  {
    RemoveRefinesDelete(s.relayers, x);
    hide AddressSet.Valid, AddressSet.Add, AddressSet.Remove, AddressSet.Members, AddressSet.Contains;
  }

  predicate RoutineEvent(e: Event) {
    e.NonceSet? || e.CallFailed? || e.ResourceSet?
  }

  lemma SettingsHold(c: Restraint, s0: State, s: State, t: State, k: Key)
    requires Holds(c, s0, s, k)
    requires t.proposals == s.proposals && t.relayers == s.relayers && t.expiry == s.expiry
    requires t.journal == s.journal ||
             (t.journal.Then? && t.journal.earlier == s.journal && RoutineEvent(t.journal.event))
    requires c.WhilePaused? ==> t.paused
    ensures Holds(c, s0, t, k)
  {}

  // Before the expiry the age check of a cancellation cannot be met.
  lemma CancelHolds(h: Digest, c: Restraint, s0: State, s: State, a: Action, k: Key)
    requires Holds(c, s0, s, k) && Obeys(c, a) && a.Cancel? && !c.Outsiders?
    ensures Holds(c, s0, After(h, s, a), k)
  {
    hide AddressSet.Valid;
  }

  lemma CountHolds(c: Restraint, s0: State, s: State, k: Key, p: Proposal, relayer: Address,
                   d: uint8, r: ResourceID, data: Bytes, watched: Key)
    requires Holds(c, s0, s, watched) && c.UpToBlock?
    requires s.relayers.Contains(relayer) && p.yesVotesTotal < 255
    requires s.Record(k).status.Inactive? || p == s.Record(k)
    ensures Holds(c, s0, PassIfReached(CountVote(s, k, p, relayer, d, r, data), k), watched)
  {
    hide Or, AddressSet.Valid;
  }

  // A vote without code behind it is counted only as long as it does not reach the threshold.
  lemma CodelessVoteHolds(h: Digest, c: Restraint, s0: State, s: State, a: Action, k: Key)
    requires Holds(c, s0, s, k) && c.Codeless? && a.Vote? && !a.run.hasCode
    ensures Holds(c, s0, After(h, s, a), k)
  {
    hide Holds, Obeys, AddressSet.Valid, VoteStep, Step;
    StepOfVote(h, s, a);
    if VoteStep(h, s, a).Ok? {
      CodelessVote(h, c, s0, s, a, k);
    }
  }

  lemma CodelessVote(h: Digest, c: Restraint, s0: State, s: State, a: Action, k: Key)
    requires Holds(c, s0, s, k) && c.Codeless? && a.Vote? && !a.run.hasCode && VoteStep(h, s, a).Ok?
    ensures Holds(c, s0, VoteStep(h, s, a).value, k)
  {
    hide HasVoted, Or, AddressSet.Valid, RunAll;
  }

  lemma MarkHolds(c: Restraint, s0: State, s: State, k: Key, watched: Key)
    requires Holds(c, s0, s, watched) && c.UpToBlock? && s.Record(k).status.Passed?
    ensures Holds(c, s0, s.Store(k, s.Record(k).(status := Executed)), watched)
  {}

  lemma LogHolds(c: Restraint, s0: State, s: State, e: Event, k: Key)
    requires Holds(c, s0, s, k) && ((e.Called? && c.UpToBlock?) || (e.Deposited? && !c.WhilePaused?))
    ensures Holds(c, s0, s.Log(e), k)
  {}

  // ----- whole calls -----

  lemma {:induction false} StepHolds(h: Digest, c: Restraint, s0: State, s: State, a: Action, k: Key)
    requires Holds(c, s0, s, k) && Obeys(c, a) && NestedObey(c, a)
    ensures Holds(c, s0, After(h, s, a), k)
    decreases a, 1
  {
    ObeysMeaning(c, a);
    hide Holds, AllObey, Obeys, AddressSet.Valid;
    match a
    case Vote(_, _, _, _, _, _, _, _) =>
      if c.UpToBlock? {
        StepOfVote(h, s, a);
        VoteHolds(h, c, s0, s, a, k);
      } else if c.Codeless? {
        CodelessVoteHolds(h, c, s0, s, a, k);
      } else {
        Refused(c, s0, s, k, h, a);
      }
    case Execute(sender, destinationDomainID, domainID, depositNonce, data, resourceID, revertOnFail, run) =>
      if c.UpToBlock? {
        var handler := s.HandlerOf(resourceID);
        CallHolds(h, c, s0, s, sender, ProposalKey(h, domainID, depositNonce, handler, data),
                  handler, destinationDomainID, resourceID, data, revertOnFail, run, k);
      } else {
        Refused(c, s0, s, k, h, a);
      }
    case Cancel(_, _, _, _, _) =>
      if c.Outsiders? { Refused(c, s0, s, k, h, a); } else { CancelHolds(h, c, s0, s, a, k); }
    case Deposit(_, _, _, _, _) =>
      if c.WhilePaused? { Refused(c, s0, s, k, h, a); } else { DepositHolds(h, c, s0, s, a, k); }
    case SetResource(r, handler, run) =>
      var t := MapResource(s, r, handler);
      SettingsHold(c, s0, s, t, k) by {
        PausedKept(c, s0, s, k);
      }
      RunHolds(h, c, s0, t, run.nested, k);
    case _ => AdminHolds(h, c, s0, s, a, k);
  }

  lemma ObeysMeaning(c: Restraint, a: Action)
    requires Obeys(c, a)
    ensures c.Codeless? && (a.Vote? || a.Execute?) ==> !a.run.hasCode
  {}

  lemma PausedKept(c: Restraint, s0: State, s: State, k: Key)
    requires Holds(c, s0, s, k)
    ensures c.WhilePaused? ==> s.paused
  {}

  lemma AdminHolds(h: Digest, c: Restraint, s0: State, s: State, a: Action, k: Key)
    requires Holds(c, s0, s, k) && Obeys(c, a)
    requires !a.Vote? && !a.Execute? && !a.Cancel? && !a.Deposit? && !a.SetResource?
    ensures Holds(c, s0, After(h, s, a), k)
  {
    hide Holds, AddressSet.Valid;
    PausedKept(c, s0, s, k);
    if a.AdminAddRelayer? || a.GrantRelayer? || a.AdminRemoveRelayer? || a.RevokeRelayer? {
      RolesHold(c, s0, s, k, a.relayer);
    } else if Step(h, s, a).Ok? {
      SettingsHold(c, s0, s, Step(h, s, a).value, k);
    }
  }

  lemma {:induction false} VoteHolds(h: Digest, c: Restraint, s0: State, s: State, a: Action, k: Key)
    requires Holds(c, s0, s, k) && c.UpToBlock? && a.Vote? && Obeys(c, a) && AllObey(c, a.run.nested)
    ensures VoteStep(h, s, a).Ok? ==> Holds(c, s0, VoteStep(h, s, a).value, k)
    decreases a, 0
  {
    hide AllObey, AddressSet.Valid, CountVote, PassIfReached, CallStep, HasVoted, Or;
    var handler := s.HandlerOf(a.resourceID);
    var key := ProposalKey(h, a.domainID, a.depositNonce, handler, a.data);
    var p := s.Record(key);
    if VoteStep(h, s, a).Ok? {
      if p.status.Passed? {
        CallHolds(h, c, s0, s, a.sender, key, handler, a.destinationDomainID, a.resourceID, a.data, true, a.run, k);
      } else if !(p.status.Active? && AgeExceeds(a.block, p, s.expiry)) {
        var record := if p.status.Inactive? then Proposal(Active, 0, 0, a.block % TWO_40) else p;
        var counted := PassIfReached(CountVote(s, key, record, a.sender, a.destinationDomainID, a.resourceID, a.data),
                                     key);
        CountHolds(c, s0, s, key, record, a.sender, a.destinationDomainID, a.resourceID, a.data, k);
        if counted.Record(key).status.Passed? {
          CallHolds(h, c, s0, counted, a.sender, key, handler, a.destinationDomainID, a.resourceID, a.data, false,
                    a.run, k);
        }
      }
    }
  }

  lemma {:induction false} CallHolds(h: Digest, c: Restraint, s0: State, s: State, sender: Address, key: Key,
                                     handler: Address, destinationDomainID: uint8, resourceID: ResourceID,
                                     data: Bytes, revertOnFail: bool, run: HandlerRun, k: Key)
    requires Holds(c, s0, s, k) && c.UpToBlock? && AllObey(c, run.nested)
    ensures var r := CallStep(h, s, sender, key, handler, destinationDomainID, resourceID, data, revertOnFail, run);
            r.Ok? ==> Holds(c, s0, r.value, k)
    decreases run, 1
  {
    var r := CallStep(h, s, sender, key, handler, destinationDomainID, resourceID, data, revertOnFail, run);
    hide Holds, AllObey, AddressSet.Valid;
    if r.Ok? && !run.succeeds {
      SettingsHold(c, s0, s, r.value, k);
    } else if r.Ok? {
      var marked := s.Store(key, s.Record(key).(status := Executed));
      MarkHolds(c, s0, s, key, k);
      RunHolds(h, c, s0, marked, run.nested, k);
      LogHolds(c, s0, RunAll(h, marked, run.nested),
               Called(key, sender, destinationDomainID, resourceID, handler, data), k);
    }
  }

  lemma {:induction false} DepositHolds(h: Digest, c: Restraint, s0: State, s: State, a: Action, k: Key)
    requires Holds(c, s0, s, k) && !c.WhilePaused? && a.Deposit? && AllObey(c, a.run.nested)
    ensures Holds(c, s0, After(h, s, a), k)
    decreases a, 0
  {
    hide Holds, AllObey, AddressSet.Valid;
    assert Step(h, s, a) == DepositStep(h, s, a);
    if Step(h, s, a).Ok? {
      var d, n := a.destinationDomainID, s.DepositCount(a.destinationDomainID) + 1;
      var started := s.(depositCounts := s.depositCounts[d := n]);
      SettingsHold(c, s0, s, started, k);
      RunHolds(h, c, s0, started, a.run.nested, k);
      LogHolds(c, s0, RunAll(h, started, a.run.nested), Deposited(d, n, a.resourceID, a.sender, a.data), k);
    }
  }

  lemma {:induction false} RunHolds(h: Digest, c: Restraint, s0: State, s: State, actions: seq<Action>, k: Key)
    requires Holds(c, s0, s, k) && AllObey(c, actions)
    ensures Holds(c, s0, RunAll(h, s, actions), k)
    decreases actions, 0
  {
    if actions != [] {
      hide Holds, AddressSet.Valid;
      StepHolds(h, c, s0, s, actions[0], k);
      RunHolds(h, c, s0, After(h, s, actions[0]), actions[1..], k);
    }
  }

  // ----- what follows -----

  // Only relayers move proposals: whatever everybody else does, directly or from inside a
  // handler, every record stays as it was, no vote is counted and nothing is executed.
  lemma OutsidersMoveNothing(h: Digest, s: State, actions: seq<Action>, k: Key)
    requires AllObey(Outsiders(s.relayers.Members()), actions)
    ensures var z := RunAll(h, s, actions);
            && z.Record(k) == s.Record(k)
            && Votes(z.journal, k) == Votes(s.journal, k) && Calls(z.journal, k) == Calls(s.journal, k)
  {
    hide AddressSet.Valid, AddressSet.Members;
    var c := Outsiders(s.relayers.Members());
    HoldsAtFirst(c, s, k);
    RunHolds(h, c, s, s, actions, k);
  }

  // Until the pause is lifted no vote is counted, nothing is executed and no deposit is taken;
  // a proposal can only be cancelled.
  lemma PauseStopsTrade(h: Digest, s: State, actions: seq<Action>, k: Key)
    requires s.paused && AllObey(WhilePaused, actions)
    ensures var z := RunAll(h, s, actions);
            && (z.Record(k) == s.Record(k) || z.Record(k) == s.Record(k).(status := Cancelled))
            && Votes(z.journal, k) == Votes(s.journal, k) && Calls(z.journal, k) == Calls(s.journal, k)
            && (forall d, n :: Deposits(z.journal, d, n) == Deposits(s.journal, d, n))
  {
    hide AddressSet.Valid;
    HoldsAtFirst(WhilePaused, s, k);
    RunHolds(h, WhilePaused, s, s, actions, k);
  }

  // An open proposal is not cancelled by any run up to the last block of its expiry.
  lemma NotCancelledEarly(h: Digest, s: State, actions: seq<Action>, k: Key, last: nat)
    requires s.Record(k).status.Active? || s.Record(k).status.Passed?
    requires last <= s.Record(k).proposedBlock + s.expiry && AllObey(UpToBlock(last), actions)
    ensures !RunAll(h, s, actions).Record(k).status.Cancelled?
  {
    hide AddressSet.Valid;
    HoldsAtFirst(UpToBlock(last), s, k);
    RunHolds(h, UpToBlock(last), s, s, actions, k);
  }

  // As long as no handler has code no proposal passes, whoever votes: the vote that would reach
  // the threshold is undone each time.
  lemma NothingPassesWithoutCode(h: Digest, s: State, actions: seq<Action>, k: Key)
    requires !s.Record(k).status.Passed? && !s.Record(k).status.Executed? && AllObey(Codeless, actions)
    ensures var z := RunAll(h, s, actions);
            && !z.Record(k).status.Passed? && !z.Record(k).status.Executed?
            && Calls(z.journal, k) == Calls(s.journal, k)
  {
    hide AddressSet.Valid;
    HoldsAtFirst(Codeless, s, k);
    RunHolds(h, Codeless, s, s, actions, k);
  }

  // A relayer's vote after the expiry is not counted: it cancels an open proposal, which then
  // stays as it is and is never executed, whatever happens later.
  lemma LateVoteCancels(h: Digest, s: State, a: Action, later: seq<Action>)
    requires Reachable(h, s) && a.Vote? && s.relayers.Contains(a.sender) && !s.paused
             && s.HandlerOf(a.resourceID) != ZERO_ADDRESS
    requires var p := s.Record(ProposalKey(h, a.domainID, a.depositNonce, s.HandlerOf(a.resourceID), a.data));
             && p.status.Active? && !HasVoted(p, s.relayers.IndexOf(a.sender))
             && p.proposedBlock + s.expiry < a.block < p.proposedBlock + TWO_40
    ensures var k := ProposalKey(h, a.domainID, a.depositNonce, s.HandlerOf(a.resourceID), a.data);
            var z := RunAll(h, After(h, s, a), later);
            z.Record(k) == s.Record(k).(status := Cancelled) && Calls(z.journal, k) == 0
  {
    hide Reachable, HasVoted, VoteStep, RunAll, CallInv, VoteInv, QuorumInv, SizeInv, NonceInv, Genuine,
         AddressSet.Valid;
    var k := ProposalKey(h, a.domainID, a.depositNonce, s.HandlerOf(a.resourceID), a.data);
    var t := After(h, s, a);
    LateVote(h, s, a);
    assert Step(h, s, a) == VoteStep(h, s, a);
    ReachableAfter(h, s, a);
    CancelledForGood(h, t, later, k);
  }

  // The branch of the late vote alone.
  lemma LateVote(h: Digest, s: State, a: Action)
    requires a.Vote? && s.relayers.Contains(a.sender) && !s.paused && s.HandlerOf(a.resourceID) != ZERO_ADDRESS
    requires var p := s.Record(ProposalKey(h, a.domainID, a.depositNonce, s.HandlerOf(a.resourceID), a.data));
             && p.status.Active? && !HasVoted(p, s.relayers.IndexOf(a.sender))
             && p.proposedBlock + s.expiry < a.block < p.proposedBlock + TWO_40
    ensures var k := ProposalKey(h, a.domainID, a.depositNonce, s.HandlerOf(a.resourceID), a.data);
            VoteStep(h, s, a) == Ok(s.Store(k, s.Record(k).(status := Cancelled)))
  {
    hide HasVoted, AddressSet.Valid, CountVote, PassIfReached, CallStep, Or;
    var p := s.Record(ProposalKey(h, a.domainID, a.depositNonce, s.HandlerOf(a.resourceID), a.data));
    assert AgeExceeds(a.block, p, s.expiry);
  }

  // A cancelled proposal is never executed and never changes.
  lemma CancelledForGood(h: Digest, s: State, later: seq<Action>, k: Key)
    requires Reachable(h, s) && s.Record(k).status.Cancelled?
    ensures var z := RunAll(h, s, later);
            z.Record(k) == s.Record(k) && Calls(z.journal, k) == 0
  {
    hide Reachable, RunAll, VoteInv, QuorumInv, SizeInv, NonceInv, Genuine, AddressSet.Valid;
    ReachableInvFor(h, s, k);
    RunKeeps(h, s, later, Watch(k, false, 0, 0, false));
  }
}
