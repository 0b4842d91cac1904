// What each bridge call other than a vote answers and does, exactly: when it commits, and what
// it changes and leaves alone when it does.
module Operations {
  import opened Words
  import opened Bytes
  import opened AddressSets
  import opened Protocol
  import opened History
  import opened Invariants
  import opened Theorems

  // Only the record of one proposal, and the history, may differ.
  ghost predicate OnlyRecord(s: State, t: State, k: Key) {
    && t == s.(proposals := t.proposals, journal := t.journal)
    && (forall other | other != k :: t.Record(other) == s.Record(other))
  }

  // ----- executions -----

  function KeyOfExecution(h: Digest, s: State, a: Action): Key
    requires a.Execute?
  {
    ProposalKey(h, a.domainID, a.depositNonce, s.HandlerOf(a.resourceID), a.data)
  }

  // executeProposal commits if and only if a relayer executes a passed proposal on a running
  // bridge under a handler with code, which returns or may fail.
  lemma ExecutionAccepted(h: Digest, s: State, a: Action)
    requires a.Execute?
    ensures Step(h, s, a).Ok? <==>
              && s.relayers.Contains(a.sender) && !s.paused && s.Record(KeyOfExecution(h, s, a)).status.Passed?
              && a.run.hasCode && (a.run.succeeds || !a.revertOnFail)
    ensures Step(h, s, a).Err? ==> After(h, s, a) == s
  {
    hide AddressSet.Valid, RunAll;
    StepOfExecution(h, s, a);
  }

  lemma StepOfExecution(h: Digest, s: State, a: Action)
    requires a.Execute?
    ensures Step(h, s, a) == CallStep(h, s, a.sender, KeyOfExecution(h, s, a), s.HandlerOf(a.resourceID),
                                      a.destinationDomainID, a.resourceID, a.data, a.revertOnFail, a.run)
  {}

  // A handler that returns leaves the proposal Executed, whatever it called, with the call as
  // the last event. One that fails leaves the storage as it was.
  lemma ExecutionEffect(h: Digest, s: State, a: Action)
    requires Reachable(h, s) && a.Execute? && Step(h, s, a).Ok?
    ensures var k, t := KeyOfExecution(h, s, a), After(h, s, a);
            if a.run.succeeds then
              && t.Record(k) == s.Record(k).(status := Executed)
              && t.journal.Then?
              && t.journal.event == Called(k, a.sender, a.destinationDomainID, a.resourceID,
                                           s.HandlerOf(a.resourceID), a.data)
            else t.(journal := s.journal) == s && t.journal == Then(s.journal, CallFailed(k))
  {
    hide Reachable, Inv, CallStep;
    StepOfExecution(h, s, a);
    ReachableInvFor(h, s, KeyOfExecution(h, s, a));
    CallEffect(h, s, a.sender, KeyOfExecution(h, s, a), s.HandlerOf(a.resourceID), a.destinationDomainID,
               a.resourceID, a.data, a.revertOnFail, a.run);
  }

  lemma CallEffect(h: Digest, s: State, sender: Address, k: Key, handler: Address, d: uint8, r: ResourceID,
                   data: Bytes, revertOnFail: bool, run: HandlerRun)
    requires Inv(h, s, Watch(k, false, 0, 0, false))
    requires CallStep(h, s, sender, k, handler, d, r, data, revertOnFail, run).Ok?
    ensures var t := CallStep(h, s, sender, k, handler, d, r, data, revertOnFail, run).value;
            if run.succeeds then
              && t.Record(k) == s.Record(k).(status := Executed) && t.journal.Then?
              && t.journal.event == Called(k, sender, d, r, handler, data)
            else t.(journal := s.journal) == s && t.journal == Then(s.journal, CallFailed(k))
  {
    hide Inv, RunAll, AddressSet.Valid;
    if run.succeeds {
      var w, marked := Watch(k, false, 0, 0, false), s.Store(k, s.Record(k).(status := Executed));
      MarkExecutedKeeps(h, s, k, w);
      RunKeeps(h, marked, run.nested, w.(calling := true));
    }
  }

  // ----- cancellations -----

  function KeyOfCancel(a: Action): Key
    requires a.Cancel?
  {
    Key(DestNonce(a.domainID, a.depositNonce), a.dataHash)
  }

  // cancelProposal commits if and only if a relayer, even on a paused bridge, names an open or
  // passed proposal whose age in blocks, counted modulo 2^40, exceeds the expiry. It cancels that
  // proposal and changes nothing else.
  lemma CancelAccepted(h: Digest, s: State, a: Action)
    requires a.Cancel?
    ensures var p := s.Record(KeyOfCancel(a));
            Step(h, s, a).Ok? <==>
              && s.relayers.Contains(a.sender) && (p.status.Active? || p.status.Passed?)
              && p.proposedBlock <= a.block && (a.block - p.proposedBlock) % TWO_40 > s.expiry
    ensures Step(h, s, a).Err? ==> After(h, s, a) == s
    ensures Step(h, s, a).Ok? ==>
              var k, t := KeyOfCancel(a), After(h, s, a);
              OnlyRecord(s, t, k) && t.Record(k) == s.Record(k).(status := Cancelled) && t.journal == s.journal
  {
    hide AddressSet.Valid, CancelStep;
    assert Step(h, s, a) == CancelStep(s, a);
    CancelAnswer(s, a);
  }

  lemma CancelAnswer(s: State, a: Action)
    requires a.Cancel?
    ensures var p := s.Record(KeyOfCancel(a));
            CancelStep(s, a).Ok? <==>
              && s.relayers.Contains(a.sender) && (p.status.Active? || p.status.Passed?)
              && p.proposedBlock <= a.block && (a.block - p.proposedBlock) % TWO_40 > s.expiry
    ensures CancelStep(s, a).Ok? ==>
              var k, t := KeyOfCancel(a), CancelStep(s, a).value;
              OnlyRecord(s, t, k) && t.Record(k) == s.Record(k).(status := Cancelled) && t.journal == s.journal
  {
    hide AddressSet.Valid;
  }

  // ----- deposits -----

  // deposit commits if and only if the bridge runs, the resource is mapped, its handler has code
  // and returns, and the counter stays within 64 bits. The depositor's nonce is the next one,
  // even if the handler has deposited in between.
  lemma DepositAccepted(h: Digest, s: State, a: Action)
    requires a.Deposit?
    ensures Step(h, s, a).Ok? <==>
              && !s.paused && s.HandlerOf(a.resourceID) != ZERO_ADDRESS && a.run.hasCode && a.run.succeeds
              && s.DepositCount(a.destinationDomainID) + 1 < TWO_64
    ensures Step(h, s, a).Err? ==> After(h, s, a) == s
    ensures Step(h, s, a).Ok? ==>
              && After(h, s, a).journal.Then?
              && After(h, s, a).journal.event
                 == Deposited(a.destinationDomainID, s.DepositCount(a.destinationDomainID) + 1, a.resourceID, a.sender,
                              a.data)
    ensures Step(h, s, a).Ok? && a.run.nested == [] ==>
              var t := After(h, s, a);
              && t == s.(depositCounts := t.depositCounts, journal := t.journal) && t.journal.earlier == s.journal
              && (forall d :: t.DepositCount(d) == s.DepositCount(d) + if d == a.destinationDomainID then 1 else 0)
  {
    hide AddressSet.Valid, RunAll;
    assert Step(h, s, a) == DepositStep(h, s, a);
    EmptyRun(h, s.(depositCounts := s.depositCounts[a.destinationDomainID :=
                                                      s.DepositCount(a.destinationDomainID) + 1]));
  }

  lemma EmptyRun(h: Digest, s: State)
    ensures RunAll(h, s, []) == s
  {}

  // ----- administration -----

  predicate ChangesRoles(a: Action) {
    a.AdminAddRelayer? || a.AdminRemoveRelayer? || a.GrantRelayer? || a.RevokeRelayer?
  }

  // The role as a set: adminAddRelayer adds a new relayer while there are fewer than 200,
  // adminRemoveRelayer takes out a current one, and granting and revoking are never refused.
  lemma RolesChanged(h: Digest, s: State, a: Action)
    requires ChangesRoles(a)
    ensures Step(h, s, a).Ok? <==>
              && (a.AdminAddRelayer? ==> a.relayer !in s.relayers.Members() && |s.relayers.Members()| < 200)
              && (a.AdminRemoveRelayer? ==> a.relayer in s.relayers.Members())
    ensures var t := After(h, s, a);
            && t == s.(relayers := t.relayers, journal := t.journal)
            && t.relayers.Members() ==
                 if Step(h, s, a).Err? then s.relayers.Members()
                 else if a.AdminAddRelayer? || a.GrantRelayer? then s.relayers.Members() + {a.relayer}
                 else s.relayers.Members() - {a.relayer}
  {
    hide AddressSet.Valid, AddressSet.Members, AddressSet.Contains, Grant, Revoke, Step;
    if a.AdminAddRelayer? || a.GrantRelayer? {
      RoleGiven(h, s, a);
    } else {
      RoleTaken(h, s, a);
    }
  }

  lemma RoleGiven(h: Digest, s: State, a: Action)
    requires a.AdminAddRelayer? || a.GrantRelayer?
    ensures Step(h, s, a).Ok? <==>
              (a.AdminAddRelayer? ==> a.relayer !in s.relayers.Members() && |s.relayers.Members()| < 200)
    ensures Step(h, s, a).Ok? ==> After(h, s, a) == Grant(s, a.relayer)
    ensures var t := Grant(s, a.relayer);
            && t == s.(relayers := t.relayers, journal := t.journal)
            && t.relayers.Members() == s.relayers.Members() + {a.relayer}
  {
    GrantAdds(s, a.relayer);
    MemberTests(s.relayers, a.relayer);
    hide AddressSet.Valid, AddressSet.Members, AddressSet.Contains, Grant, VoteStep, CallStep, CancelStep, DepositStep,
         RunAll;
  }

  lemma RoleTaken(h: Digest, s: State, a: Action)
    requires a.AdminRemoveRelayer? || a.RevokeRelayer?
    ensures Step(h, s, a).Ok? <==> (a.AdminRemoveRelayer? ==> a.relayer in s.relayers.Members())
    ensures Step(h, s, a).Ok? ==> After(h, s, a) == Revoke(s, a.relayer)
    ensures var t := Revoke(s, a.relayer);
            && t == s.(relayers := t.relayers, journal := t.journal)
            && t.relayers.Members() == s.relayers.Members() - {a.relayer}
  {
    RevokeRemoves(s, a.relayer);
    MemberTests(s.relayers, a.relayer);
    hide AddressSet.Valid, AddressSet.Members, AddressSet.Contains, Revoke, VoteStep, CallStep, CancelStep, DepositStep,
         RunAll;
  }

  lemma MemberTests(r: Relayers, x: Address)
    ensures x in r.Members() <==> r.Contains(x)
    ensures |r.Members()| == |r.values|
  {
    MembersAreDistinct(r);
    hide AddressSet.Valid, AddressSet.Members;
  }

  lemma RevokeRemoves(s: State, x: Address)
    ensures var t := Revoke(s, x);
            && t == s.(relayers := t.relayers, journal := t.journal)
            && t.relayers.Members() == s.relayers.Members() - {x}
  {
    MembersAreDistinct(s.relayers);
    RemoveRefinesDelete(s.relayers, x);
    hide AddressSet.Valid, AddressSet.Members, AddressSet.Remove;
    assert !s.relayers.Contains(x) ==> s.relayers.Members() - {x} == s.relayers.Members();
  }

  // The threshold takes every 8-bit value, the pause is a switch, and the deposit counter only
  // goes up. Each changes that one setting, and nothing when it is refused.
  lemma SettingsChanged(h: Digest, s: State, a: Action)
    requires a.ChangeThreshold? || a.SetPaused? || a.SetDepositNonce?
    ensures Step(h, s, a).Ok? <==>
              if a.ChangeThreshold? then a.newThreshold <= 255
              else if a.SetPaused? then s.paused != a.paused
              else s.DepositCount(a.destinationDomainID) < a.nonce
    ensures Step(h, s, a).Err? ==> After(h, s, a) == s
    ensures Step(h, s, a).Ok? ==>
              var t := After(h, s, a);
              if a.ChangeThreshold? then t.threshold == a.newThreshold && t.(threshold := s.threshold) == s
              else if a.SetPaused? then t.paused == a.paused && t.(paused := s.paused) == s
              else
                && t == s.(depositCounts := t.depositCounts, journal := t.journal)
                && (forall d :: t.DepositCount(d) == if d == a.destinationDomainID then a.nonce else s.DepositCount(d))
  {
    hide AddressSet.Valid;
  }

  // A resource is mapped if and only if its handler has code and returns. The mapping is on
  // record even if the handler maps again; a handler that calls nothing leaves it in force, and
  // no other resource is touched.
  lemma ResourceMapped(h: Digest, s: State, a: Action)
    requires Reachable(h, s) && a.SetResource?
    ensures Step(h, s, a).Ok? <==> a.run.hasCode && a.run.succeeds
    ensures Step(h, s, a).Err? ==> After(h, s, a) == s
    ensures Step(h, s, a).Ok? ==> Occurs(After(h, s, a).journal, ResourceSet(a.resourceID, a.handler))
    ensures Step(h, s, a).Ok? && a.run.nested == [] ==>
              var t := After(h, s, a);
              && t == s.(handlers := t.handlers, journal := t.journal)
              && (forall r :: t.HandlerOf(r) == if r == a.resourceID then a.handler else s.HandlerOf(r))
  {
    hide AddressSet.Valid, RunAll, Reachable, Inv, Grows;
    var t, w := MapResource(s, a.resourceID, a.handler), Watch(Key(0, 0), false, 0, 0, false);
    ReachableInv(h, s, w);
    MapResourceKeeps(h, s, a.resourceID, a.handler, w);
    RunKeeps(h, t, a.run.nested, w);
    GrowsOccurs(t.journal, RunAll(h, t, a.run.nested).journal, ResourceSet(a.resourceID, a.handler));
    EmptyRun(h, t);
  }

  lemma GrowsOccurs(j: Journal, later: Journal, e: Event)
    requires Grows(j, later) && Occurs(j, e)
    ensures Occurs(later, e)
  {}

  // ----- deployment -----

  // A new bridge has the settings it was given, exactly the listed relayers, and nothing else.
  lemma NewBridge(relayers: seq<Address>, threshold: nat, expiry: nat)
    ensures Deploy(relayers, threshold, expiry).Ok? <==> threshold <= 255 && expiry < TWO_40
    ensures Deploy(relayers, threshold, expiry).Ok? ==>
              var s := Deploy(relayers, threshold, expiry).value;
              && s.threshold == threshold && s.expiry == expiry && !s.paused
              && s.proposals == map[] && s.depositCounts == map[] && s.handlers == map[]
              && s.relayers.Members() == Elements(relayers)
  {
    hide GrantAll;
    if Deploy(relayers, threshold, expiry).Ok? {
      GrantsAdd(State(map[], map[], AddressSet([], map[]), threshold, expiry, map[], false, Empty), relayers);
    }
  }

  lemma {:induction false} GrantsAdd(s: State, xs: seq<Address>)
    ensures var t := GrantAll(s, xs);
            && t == s.(relayers := t.relayers, journal := t.journal)
            && t.relayers.Members() == s.relayers.Members() + Elements(xs)
    decreases |xs|
  {
    hide AddressSet.Valid, AddressSet.Members, Grant, Elements;
    ElementsOfRest(xs);
    if xs != [] {
      GrantAdds(s, xs[0]);
      GrantsAdd(Grant(s, xs[0]), xs[1..]);
    }
  }

  lemma ElementsOfRest(xs: seq<Address>)
    ensures Elements(xs) == if xs == [] then {} else {xs[0]} + Elements(xs[1..])
  {}

  lemma GrantAdds(s: State, x: Address)
    ensures var t := Grant(s, x);
            && t == s.(relayers := t.relayers, journal := t.journal)
            && t.relayers.Members() == s.relayers.Members() + {x}
  {
    MembersAreDistinct(s.relayers);
    AddRefinesInsert(s.relayers, x);
    hide AddressSet.Valid, AddressSet.Members, AddressSet.Add;
  }
}
