// What one call from outside does to a bridge when its handler makes no calls back: which
// proposals it executes and which votes, deposits and handler calls it adds to the history.
module Outcomes {
  import opened Words
  import opened Bytes
  import opened AddressSets
  import opened Protocol
  import opened History

  // Deposits and handler calls only.
  ghost function Trades(j: Journal): Journal {
    match j
    case Empty => Empty
    case Then(earlier, e) => if e.Deposited? || e.Called? then Then(Trades(earlier), e) else Trades(earlier)
  }

  lemma {:induction false} TradesOccur(j: Journal, e: Event)
    requires e.Deposited? || e.Called?
    ensures Occurs(j, e) <==> Occurs(Trades(j), e)
  {
    match j
    case Empty =>
    case Then(earlier, _) => TradesOccur(earlier, e);
  }

  ghost predicate SameExecuted(s: State, t: State) {
    forall k :: s.Record(k).status.Executed? <==> t.Record(k).status.Executed?
  }

  ghost predicate OneExecuted(s: State, t: State, k: Key) {
    && !s.Record(k).status.Executed? && t.Record(k).status.Executed?
    && (forall k' | k' != k :: s.Record(k').status.Executed? <==> t.Record(k').status.Executed?)
  }

  // No votes but for the given proposal, and only if its count went up; no resource mapped.
  ghost predicate VotesOnlyFor(j: Journal, later: Journal, k: Key) {
    && (forall v | Occurs(later, v) && v.Voted? && !Occurs(j, v) :: v.key == k && Votes(later, k) > Votes(j, k))
    && (forall v | Occurs(j, v) :: Occurs(later, v))
    && (forall e | Occurs(later, e) && e.ResourceSet? :: Occurs(j, e))
  }

  // Either nothing is executed and nothing traded, or exactly this proposal and its one call.
  ghost predicate Outcome(s: State, t: State, call: Event, succeeds: bool)
    requires call.Called?
  {
    && t.handlers == s.handlers
    && VotesOnlyFor(s.journal, t.journal, call.key)
    && (if t.Record(call.key).status.Executed? && !s.Record(call.key).status.Executed? then
          succeeds && OneExecuted(s, t, call.key) && Trades(t.journal) == Then(Trades(s.journal), call)
        else
          SameExecuted(s, t) && Trades(t.journal) == Trades(s.journal))
  }

  // The handler call that a vote or an execution would make.
  function CallOf(h: Digest, s: State, a: Action): (call: Event)
    requires a.Vote? || a.Execute?
    ensures call.Called?
  {
    var handler := s.HandlerOf(a.resourceID);
    Called(ProposalKey(h, a.domainID, a.depositNonce, handler, a.data), a.sender, a.destinationDomainID, a.resourceID,
           handler, a.data)
  }

  lemma CallOutcome(h: Digest, s: State, call: Event, revertOnFail: bool, run: HandlerRun)
    requires call.Called? && run.nested == []
    ensures var r := CallStep(h, s, call.sender, call.key, call.handler, call.destinationDomainID, call.resourceID,
                              call.data, revertOnFail, run);
            r.Ok? ==> Outcome(s, r.value, call, run.succeeds)
  {
    var marked := s.Store(call.key, s.Record(call.key).(status := Executed));
    assert RunAll(h, marked, run.nested) == marked;
  }

  lemma CountOutcome(s: State, k: Key, p: Proposal, a: Action)
    requires a.Vote? && s.relayers.Contains(a.sender) && p.yesVotesTotal < 255 && !s.Record(k).status.Executed?
    ensures var t := PassIfReached(CountVote(s, k, p, a.sender, a.destinationDomainID, a.resourceID, a.data), k);
            && SameExecuted(s, t) && Trades(t.journal) == Trades(s.journal) && t.handlers == s.handlers
            && VotesOnlyFor(s.journal, t.journal, k) && Votes(t.journal, k) > Votes(s.journal, k)
  {
    hide AddressSet.Valid;
    var counted := CountVote(s, k, p, a.sender, a.destinationDomainID, a.resourceID, a.data);
    assert Trades(counted.journal) == Trades(s.journal);
    assert Votes(counted.journal, k) == Votes(s.journal, k) + 1;
    assert forall v | Occurs(counted.journal, v) :: v == counted.journal.event || Occurs(s.journal, v);
    var t := PassIfReached(counted, k);
    assert t.journal == counted.journal || t.journal == Then(counted.journal, PassedAt(k, s.threshold));
    assert forall v | Occurs(t.journal, v) :: v == PassedAt(k, s.threshold) || Occurs(counted.journal, v);
    assert Votes(t.journal, k) == Votes(counted.journal, k);
    forall v | Occurs(s.journal, v) ensures Occurs(t.journal, v) {
      assert Occurs(counted.journal, v);
    }
  }

  lemma VotesThenCall(s: State, counted: State, t: State, call: Event, succeeds: bool)
    requires call.Called? && Outcome(counted, t, call, succeeds)
    requires SameExecuted(s, counted) && Trades(counted.journal) == Trades(s.journal) && counted.handlers == s.handlers
    requires VotesOnlyFor(s.journal, counted.journal, call.key)
             && Votes(counted.journal, call.key) > Votes(s.journal, call.key)
    requires Votes(t.journal, call.key) >= Votes(counted.journal, call.key)
    ensures Outcome(s, t, call, succeeds)
  {
    hide Trades, Votes, Occurs;
  }

  lemma CallKeepsVotes(h: Digest, s: State, call: Event, revertOnFail: bool, run: HandlerRun)
    requires call.Called? && run.nested == []
    ensures var r := CallStep(h, s, call.sender, call.key, call.handler, call.destinationDomainID, call.resourceID,
                              call.data, revertOnFail, run);
            r.Ok? ==> Votes(r.value.journal, call.key) == Votes(s.journal, call.key)
  {
    var marked := s.Store(call.key, s.Record(call.key).(status := Executed));
    assert RunAll(h, marked, run.nested) == marked;
  }

  lemma VoteOutcome(h: Digest, s: State, a: Action)
    requires a.Vote? && a.run.nested == []
    ensures Outcome(s, After(h, s, a), CallOf(h, s, a), a.run.succeeds)
  {
    hide CountVote, PassIfReached, CallStep, AddressSet.Valid, Outcome, SameExecuted, VotesOnlyFor;
    var call := CallOf(h, s, a);
    var k, p := call.key, s.Record(call.key);
    assert Step(h, s, a) == VoteStep(h, s, a);
    if Step(h, s, a).Err? || (p.status.Active? && AgeExceeds(a.block, p, s.expiry)) {
      NothingTraded(s, After(h, s, a), call, a.run.succeeds);
    } else if p.status.Passed? {
      CallOutcome(h, s, call, true, a.run);
    } else {
      var record := if p.status.Inactive? then Proposal(Active, 0, 0, a.block % TWO_40) else p;
      var counted := PassIfReached(CountVote(s, k, record, a.sender, a.destinationDomainID, a.resourceID, a.data), k);
      CountOutcome(s, k, record, a);
      if counted.Record(k).status.Passed? {
        CallOutcome(h, counted, call, false, a.run);
        CallKeepsVotes(h, counted, call, false, a.run);
        VotesThenCall(s, counted, After(h, s, a), call, a.run.succeeds);
      } else {
        OnlyCounted(s, counted, call, a.run.succeeds);
      }
    }
  }

  lemma OnlyCounted(s: State, t: State, call: Event, succeeds: bool)
    requires call.Called? && t.handlers == s.handlers
    requires SameExecuted(s, t) && Trades(t.journal) == Trades(s.journal)
             && VotesOnlyFor(s.journal, t.journal, call.key)
    ensures Outcome(s, t, call, succeeds)
  {
    hide VotesOnlyFor;
  }

  // Nothing at all, or one cancellation.
  lemma NothingTraded(s: State, t: State, call: Event, succeeds: bool)
    requires call.Called?
    requires t == s || (s.Record(call.key).status.Active?
                        && t == s.Store(call.key, s.Record(call.key).(status := Cancelled)))
    ensures Outcome(s, t, call, succeeds)
  {}

  lemma RelayOutcome(h: Digest, s: State, a: Action)
    requires (a.Vote? || a.Execute?) && a.run.nested == []
    ensures Outcome(s, After(h, s, a), CallOf(h, s, a), a.run.succeeds)
  {
    if a.Vote? {
      VoteOutcome(h, s, a);
    } else {
      hide CallStep, Outcome;
      var call := CallOf(h, s, a);
      CallOutcome(h, s, call, a.revertOnFail, a.run);
      assert Step(h, s, a) == CallStep(h, s, a.sender, call.key, call.handler, a.destinationDomainID, a.resourceID,
                                       a.data, a.revertOnFail, a.run);
      if Step(h, s, a).Err? {
        NothingTraded(s, s, call, a.run.succeeds);
      }
    }
  }

  lemma AdminOutcome(h: Digest, s: State, a: Action)
    requires !a.Vote? && !a.Execute? && !a.Deposit? && !a.SetResource?
    ensures var t := After(h, s, a);
            && SameExecuted(s, t) && Trades(t.journal) == Trades(s.journal) && t.handlers == s.handlers
            && (forall v | Occurs(t.journal, v) && v.Voted? :: Occurs(s.journal, v))
            && (forall v | Occurs(s.journal, v) :: Occurs(t.journal, v))
  {
    hide AddressSet.Valid, AddressSet.Add, AddressSet.Remove, AddressSet.Contains, CancelStep, After, Trades;
    if a.Cancel? {
      CancelOutcome(s, a);
      CancelShape(h, s, a);
    } else {
      AdminShape(h, s, a);
      UntradedJournal(s.journal, After(h, s, a).journal);
    }
  }

  lemma CancelShape(h: Digest, s: State, a: Action)
    requires a.Cancel?
    ensures After(h, s, a) == if CancelStep(s, a).Ok? then CancelStep(s, a).value else s
  {
    hide CancelStep;
  }

  lemma UntradedJournal(j: Journal, later: Journal)
    requires later == j || (later.Then? && later.earlier == j
                            && (later.event.Granted? || later.event.Revoked? || later.event.NonceSet?))
    ensures Trades(later) == Trades(j)
    ensures forall v | Occurs(later, v) && v.Voted? :: Occurs(j, v)
    ensures forall v | Occurs(j, v) :: Occurs(later, v)
  {}

  // Administration changes no record and adds at most one event, on roles or nonces.
  lemma AdminShape(h: Digest, s: State, a: Action)
    requires !a.Vote? && !a.Execute? && !a.Deposit? && !a.SetResource? && !a.Cancel?
    ensures var t := After(h, s, a);
            && t.proposals == s.proposals && t.handlers == s.handlers
            && (t.journal == s.journal ||
                (t.journal.Then? && t.journal.earlier == s.journal
                 && (t.journal.event.Granted? || t.journal.event.Revoked? || t.journal.event.NonceSet?)))
  {
    hide AddressSet.Valid, AddressSet.Add, AddressSet.Remove, AddressSet.Contains;
  }

  lemma CancelOutcome(s: State, a: Action)
    requires a.Cancel?
    ensures CancelStep(s, a).Ok? ==>
              var t := CancelStep(s, a).value;
              SameExecuted(s, t) && t.journal == s.journal && t.handlers == s.handlers
  {}

  lemma DepositOutcome(h: Digest, s: State, a: Action)
    requires a.Deposit? && a.run.nested == [] && Step(h, s, a).Ok?
    ensures var t, n := Step(h, s, a).value, s.DepositCount(a.destinationDomainID) + 1;
            && t.proposals == s.proposals && t.handlers == s.handlers && n < TWO_64
            && t.journal == Then(s.journal, Deposited(a.destinationDomainID, n, a.resourceID, a.sender, a.data))
  {
    var n := s.DepositCount(a.destinationDomainID) + 1;
    var started := s.(depositCounts := s.depositCounts[a.destinationDomainID := n]);
    assert RunAll(h, started, a.run.nested) == started;
  }
}
