// The generated Go iterator over deposit events: a log channel and a subscription-end
// channel read by Next, against a producer that may act between any two reads.
module EventIterator {
  import opened Words

  // How a subscription ends: cleanly or with an error.
  type Failure = Option<string>

  // `sent` and `returned` record the whole history; `logs` is what is still in the channel.
  datatype Iter<L, E> = Iter(event: Option<E>, logs: seq<L>, ended: Option<Failure>, done: bool, fail: Failure,
                             sent: seq<L>, returned: seq<E>)

  datatype Move<L> = Send(log: L) | End(failure: Failure) | Next(takeEnd: bool)

  // Receiving one log: it is unpacked and returned, or stops the iteration.
  function Receive<L, E>(unpack: L -> Option<E>, it: Iter<L, E>): (Iter<L, E>, bool)
    requires it.logs != []
  {
    var rest := it.(logs := it.logs[1..]);
    match unpack(it.logs[0])
    case Some(e) => (rest.(event := Some(e), returned := it.returned + [e]), true)
    case None => (rest.(event := None, fail := Some("unpack")), false)
  }

  // Whether a call of Next can go on: a waiting select needs a log or the end of the
  // subscription, and takes either when both are there.
  predicate Ready<L, E>(it: Iter<L, E>, takeEnd: bool) {
    it.fail != None || it.done || (if takeEnd then it.ended != None else it.logs != [])
  }

  // Once the end has been seen, whatever is in the channel is delivered without waiting.
  function Drain<L, E>(unpack: L -> Option<E>, it: Iter<L, E>): (Iter<L, E>, bool) {
    if it.fail != None || it.logs == [] then (it, false) else Receive(unpack, it)
  }

  function NextStep<L, E>(unpack: L -> Option<E>, it: Iter<L, E>, takeEnd: bool): (Iter<L, E>, bool)
    requires Ready(it, takeEnd)
  {
    if it.fail != None || it.done then Drain(unpack, it)
    else if takeEnd then Drain(unpack, it.(done := true, fail := it.ended.value))
    else Receive(unpack, it)
  }

  // One step of producer or consumer; a producer sends nothing after the end, and a consumer
  // that is not ready waits.
  function Step<L, E>(unpack: L -> Option<E>, it: Iter<L, E>, m: Move<L>): Iter<L, E> {
    match m
    case Send(log) => if it.ended == None then it.(logs := it.logs + [log], sent := it.sent + [log]) else it
    case End(failure) => if it.ended == None then it.(ended := Some(failure)) else it
    case Next(takeEnd) => if Ready(it, takeEnd) then NextStep(unpack, it, takeEnd).0 else it
  }

  function Run<L, E>(unpack: L -> Option<E>, it: Iter<L, E>, moves: seq<Move<L>>): Iter<L, E>
    decreases |moves|
  {
    if moves == [] then it else Run(unpack, Step(unpack, it, moves[0]), moves[1..])
  }

  function Start<L, E>(): Iter<L, E> {
    Iter(None, [], None, false, None, [], [])
  }

  // The events returned are those of the first logs sent, in order; what is left is still in
  // the channel, and nothing else is missing unless the iteration has failed.
  ghost predicate InOrder<L, E>(unpack: L -> Option<E>, it: Iter<L, E>) {
    && |it.returned| + |it.logs| <= |it.sent|
    && (forall i | 0 <= i < |it.returned| :: unpack(it.sent[i]) == Some(it.returned[i]))
    && it.logs == it.sent[|it.sent| - |it.logs|..]
    && (it.fail == None ==> |it.returned| + |it.logs| == |it.sent|)
    && (it.done ==> it.ended != None)
  }

  lemma ReceiveInOrder<L, E>(unpack: L -> Option<E>, it: Iter<L, E>)
    requires InOrder(unpack, it) && it.fail == None && it.logs != []
    ensures InOrder(unpack, Receive(unpack, it).0)
  {
    var k := |it.sent| - |it.logs|;
    assert it.logs[0] == it.sent[k] && it.logs[1..] == it.sent[k + 1..];
  }

  lemma StepInOrder<L, E>(unpack: L -> Option<E>, it: Iter<L, E>, m: Move<L>)
    requires InOrder(unpack, it)
    ensures InOrder(unpack, Step(unpack, it, m))
  {
    match m
    case Send(log) =>
      var sent := it.sent + [log];
      assert it.logs + [log] == sent[|it.sent| - |it.logs|..];
    case End(_) =>
    case Next(takeEnd) =>
      if Ready(it, takeEnd) && it.fail == None {
        if !it.done && takeEnd {
          var closed := it.(done := true, fail := it.ended.value);
          if closed.fail == None && closed.logs != [] {
            ReceiveInOrder(unpack, closed);
          }
        } else if it.logs != [] {
          ReceiveInOrder(unpack, it);
        }
      }
  }

  lemma {:induction false} RunInOrder<L, E>(unpack: L -> Option<E>, it: Iter<L, E>, moves: seq<Move<L>>)
    requires InOrder(unpack, it)
    ensures InOrder(unpack, Run(unpack, it, moves))
    decreases |moves|
  {
    if moves != [] {
      StepInOrder(unpack, it, moves[0]);
      RunInOrder(unpack, Step(unpack, it, moves[0]), moves[1..]);
    }
  }

  // The logs that a producer sends before the end of the subscription.
  function Logs<L>(moves: seq<Move<L>>): seq<L>
    decreases |moves|
  {
    if moves == [] || moves[0].End? then []
    else if moves[0].Send? then [moves[0].log] + Logs(moves[1..])
    else Logs(moves[1..])
  }

  // How a producer ends the subscription: the first end counts.
  function EndOf<L>(moves: seq<Move<L>>): Option<Failure>
    decreases |moves|
  {
    if moves == [] then None
    else if moves[0].End? then Some(moves[0].failure)
    else EndOf(moves[1..])
  }

  lemma {:induction false} RunSends<L, E>(unpack: L -> Option<E>, it: Iter<L, E>, moves: seq<Move<L>>)
    ensures Run(unpack, it, moves).sent == it.sent + if it.ended == None then Logs(moves) else []
    ensures Run(unpack, it, moves).ended == if it.ended == None then EndOf(moves) else it.ended
    decreases |moves|
  {
    if moves != [] {
      RunSends(unpack, Step(unpack, it, moves[0]), moves[1..]);
    }
  }

  // Exactly when Next answers true, what it then delivers, and when it fails, which is for good.
  // The oldest log in the channel is taken out, and its unpacking is the event the caller reads.
  lemma NextAnswers<L, E>(unpack: L -> Option<E>, it: Iter<L, E>, takeEnd: bool)
    requires Ready(it, takeEnd)
    ensures var next, more := NextStep(unpack, it, takeEnd).0, NextStep(unpack, it, takeEnd).1;
            && (more <==>
                  && it.fail == None && it.logs != [] && unpack(it.logs[0]) != None
                  && (takeEnd && !it.done ==> it.ended == Some(None)))
            && (more ==>
                  && next.event == unpack(it.logs[0]) != None && next.logs == it.logs[1..]
                  && next.returned == it.returned + [next.event.value])
            && (!more ==> next.returned == it.returned)
            && (next.fail != None <==>
                  || it.fail != None || (takeEnd && !it.done && it.ended.value != None)
                  || (it.logs != [] && unpack(it.logs[0]) == None))
            && (next.done <==> it.done || (it.fail == None && takeEnd))
            && (it.fail != None ==> next == it)
            && next.sent == it.sent && next.ended == it.ended
  {}

  // For every interleaving, the events returned are the logs sent, unpacked and in order, up to
  // the one read last: an answer of true sets the event to the unpacking of the next log sent.
  // Once Next answers false without a failure they are all of them, and no more will be sent.
  lemma ReturnsLogsInOrder<L, E>(unpack: L -> Option<E>, moves: seq<Move<L>>, takeEnd: bool)
    ensures var it := Run(unpack, Start<L, E>(), moves);
            && it.sent == Logs(moves) && it.ended == EndOf(moves) && |it.returned| <= |it.sent|
            && (forall i | 0 <= i < |it.returned| :: unpack(it.sent[i]) == Some(it.returned[i]))
            && (Ready(it, takeEnd) && NextStep(unpack, it, takeEnd).1 ==>
                  var next := NextStep(unpack, it, takeEnd).0;
                  && |it.returned| < |it.sent|
                  && next.event == unpack(it.sent[|it.returned|]) == Some(next.returned[|it.returned|])
                  && |next.returned| == |it.returned| + 1)
            && (Ready(it, takeEnd) && !NextStep(unpack, it, takeEnd).1
                && NextStep(unpack, it, takeEnd).0.fail == None ==>
                  |it.returned| == |it.sent| && it.ended != None)
  {
    RunInOrder(unpack, Start<L, E>(), moves);
    RunSends(unpack, Start<L, E>(), moves);
    hide Run;
    var it := Run(unpack, Start<L, E>(), moves);
    if Ready(it, takeEnd) {
      NextAnswers(unpack, it, takeEnd);
      if NextStep(unpack, it, takeEnd).1 {
        assert it.logs[0] == it.sent[|it.returned|];
      } else if NextStep(unpack, it, takeEnd).0.fail == None {
        LastAnswer(unpack, it, takeEnd);
      }
    }
  }

  // An answer of false without a failure comes from an empty channel after the end.
  lemma LastAnswer<L, E>(unpack: L -> Option<E>, it: Iter<L, E>, takeEnd: bool)
    requires InOrder(unpack, it) && Ready(it, takeEnd)
    requires !NextStep(unpack, it, takeEnd).1 && NextStep(unpack, it, takeEnd).0.fail == None
    ensures |it.returned| == |it.sent| && it.ended != None
  {}

  // Nothing more can come: the iteration has failed, or everything before the end was delivered.
  predicate Over<L, E>(it: Iter<L, E>) {
    it.fail != None || (it.done && it.ended != None && it.logs == [])
  }

  // An answer of false is final: whatever happens next, Next never waits again, answers false
  // again and delivers nothing.
  lemma FalseIsFinal<L, E>(unpack: L -> Option<E>, before: seq<Move<L>>, takeEnd: bool, later: seq<Move<L>>,
                           again: bool)
    requires Ready(Run(unpack, Start<L, E>(), before), takeEnd)
    requires !NextStep(unpack, Run(unpack, Start<L, E>(), before), takeEnd).1
    ensures var it := NextStep(unpack, Run(unpack, Start<L, E>(), before), takeEnd).0;
            var z := Run(unpack, it, later);
            && z.returned == it.returned && Ready(z, again)
            && !NextStep(unpack, z, again).1 && NextStep(unpack, z, again).0.returned == it.returned
  {
    hide Run, InOrder, NextStep, Ready, Over;
    StartInOrder(unpack);
    RunInOrder(unpack, Start<L, E>(), before);
    var it := NextStep(unpack, Run(unpack, Start<L, E>(), before), takeEnd).0;
    FalseEnds(unpack, Run(unpack, Start<L, E>(), before), takeEnd);
    StaysOver(unpack, it, later);
    OverAnswersFalse(unpack, Run(unpack, it, later), again);
  }

  lemma StartInOrder<L, E>(unpack: L -> Option<E>)
    ensures InOrder(unpack, Start<L, E>())
  {}

  lemma FalseEnds<L, E>(unpack: L -> Option<E>, it: Iter<L, E>, takeEnd: bool)
    requires InOrder(unpack, it) && Ready(it, takeEnd) && !NextStep(unpack, it, takeEnd).1
    ensures Over(NextStep(unpack, it, takeEnd).0)
  {}

  lemma OverAnswersFalse<L, E>(unpack: L -> Option<E>, it: Iter<L, E>, takeEnd: bool)
    requires Over(it)
    ensures Ready(it, takeEnd) && !NextStep(unpack, it, takeEnd).1
    ensures NextStep(unpack, it, takeEnd).0.returned == it.returned
  {}

  lemma {:induction false} StaysOver<L, E>(unpack: L -> Option<E>, it: Iter<L, E>, moves: seq<Move<L>>)
    requires Over(it)
    ensures var z := Run(unpack, it, moves); Over(z) && z.returned == it.returned
    decreases |moves|
  {
    if moves != [] {
      StaysOver(unpack, Step(unpack, it, moves[0]), moves[1..]);
    }
  }

  // If every log sent unpacks and the subscription does not end in an error, iteration never fails.
  lemma {:induction false} NeverFails<L, E>(unpack: L -> Option<E>, it: Iter<L, E>, moves: seq<Move<L>>)
    requires forall m | m in moves && m.Send? :: unpack(m.log) != None
    requires forall m | m in moves && m.End? :: m.failure == None
    requires forall i | 0 <= i < |it.logs| :: unpack(it.logs[i]) != None
    requires it.fail == None && (it.ended != None ==> it.ended.value == None)
    ensures Run(unpack, it, moves).fail == None
    decreases |moves|
  {
    if moves != [] {
      var next := Step(unpack, it, moves[0]);
      assert moves[0] in moves;
      assert next.fail == None && (next.ended != None ==> next.ended.value == None);
      NeverFails(unpack, next, moves[1..]);
    }
  }

  class BridgeDepositIterator<L, E> {
    const unpack: L -> Option<E>
    var event: Option<E>
    var logs: seq<L>
    var ended: Option<Failure>
    var done: bool
    var fail: Failure
    ghost var sent: seq<L>
    ghost var returned: seq<E>

    ghost function Now(): Iter<L, E>
      reads this
    {
      Iter(event, logs, ended, done, fail, sent, returned)
    }

    constructor (unpack: L -> Option<E>)
      ensures this.unpack == unpack && Now() == Start()
    {
      this.unpack := unpack;
      event, logs, ended, done, fail, sent, returned := None, [], None, false, None, [], [];
    }

    // Taking the end of the subscription calls Next once more; that call finds done set and
    // does not recur.
    method Next(takeEnd: bool) returns (more: bool)
      requires Ready(Now(), takeEnd)
      modifies this
      ensures (Now(), more) == NextStep(unpack, old(Now()), takeEnd)
      decreases !done
    {
      if fail != None {
        return false;
      }
      if done {
        if logs == [] {
          return false;
        }
        more := ReceiveLog();
      } else if takeEnd {
        done := true;
        fail := ended.value;
        more := Next(true);
      } else {
        more := ReceiveLog();
      }
    }

    method ReceiveLog() returns (more: bool)
      requires logs != []
      modifies this
      ensures (Now(), more) == Receive(unpack, old(Now()))
    {
      var unpacked := unpack(logs[0]);
      logs, event := logs[1..], unpacked;
      if unpacked == None {
        fail := Some("unpack");
        return false;
      }
      returned := returned + [unpacked.value];
      more := true;
    }
  }
}
