/** What the handshake delivers: every event can be committed and its effect run, an acknowledged event never times out,
    and an emit ends whatever the control plane does. */
module HandshakeProgress {
  import opened Handshake

  // ---------------------------------------------------------------- one event at a time

  /** The generator has taken a signal that it has not released. */
  predicate Busy(g: Generator) {
    !g.Pulling? && !g.Closed?
  }

  /** The generator has registered the event and not yet seen how it ended. */
  predicate Awaiting(g: Generator) {
    g.Registered? || g.Yielded? || g.Waiting?
  }

  /** Only the last event emitted can be queued, in hand or awaited, and a loop that waits for one is not forgotten. */
  predicate Orderly(w: World) {
    && w.ackTimeout > 0.0
    && (w.generator.Closed? || w.generator.Failing? ==> w.cancelled)
    && (forall id | id in w.waiters :: Awaiting(w.generator) && w.generator.id == id)
    && (w.queue != [] ==> w.nextId > 0 && w.queue == [w.nextId - 1] && !Busy(w.generator))
    && (Busy(w.generator) ==> w.generator.id + 1 == w.nextId)
    && (forall id | id in w.released :: id < w.nextId)
    && (w.queue != [] || Busy(w.generator) ==> w.nextId - 1 !in w.released)
    && (w.loop.Free? || w.loop.Returned? || w.loop.Cleared? ==> w.queue == [] && !Busy(w.generator))
    && (w.loop.Emitting? ==>
          w.loop.id + 1 == w.nextId && (w.queue != [] || Busy(w.generator) || w.loop.id in w.released))
  }

  lemma StepIsOrderly(w: World, l: Label)
    requires Orderly(w)
    ensures Orderly(Step(w, l))
  {
  }

  lemma {:induction false} RunIsOrderly(w: World, labels: seq<Label>)
    requires Orderly(w)
    ensures Orderly(After(w, labels))
  {
    if labels != [] {
      RunIsOrderly(w, labels[..|labels| - 1]);
      StepIsOrderly(After(w, labels[..|labels| - 1]), labels[|labels| - 1]);
    }
  }

  lemma {:induction false} RunsCompose(w: World, a: seq<Label>, b: seq<Label>)
    ensures After(w, a + b) == After(After(w, a), b)
  {
    if b == [] {
      assert a + b == a;
    } else {
      var n := |b| - 1;
      RunsCompose(w, a, b[..n]);
      assert (a + b)[..|a + b| - 1] == a + b[..n];
    }
  }

  lemma OneStep(w: World, l: Label)
    ensures After(w, [l]) == Step(w, l)
  {
    assert [l][..0] == [];
  }

  // ---------------------------------------------------------------- delivery

  /** Nothing is under way. */
  predicate Quiet(w: World) {
    w.loop.Free? && w.generator.Pulling? && w.control.Receiving? && !w.cancelled
  }

  ghost function Sending(): seq<Label> {
    [Emit, Pull, Register, Yield]
  }

  ghost function Committing(n: nat): seq<Label> {
    [] + [Receive(n)] + [Commit] + [SendAck]
  }

  ghost function Acknowledging(n: nat): seq<Label> {
    [AckArrives(n), Resume, AckSeen, Release]
  }

  ghost function Acting(): seq<Label> {
    [EmitReturns, Check, CheckedEffect, Reply]
  }

  /** The event is yielded. */
  function Sent(w: World): World {
    var n := w.nextId;
    w.(loop := Emitting(n), nextId := n + 1, generator := Yielded(n), waiters := map[n := false],
       frames := w.frames + {n})
  }

  /** It is committed, and its acknowledgement on its way. */
  function Stored(w: World): World {
    var n := w.nextId;
    Sent(w).(frames := w.frames + {n} - {n}, control := ControlPlane.Acknowledging(n),
             committed := w.committed + {n}, acks := w.acks + {n})
  }

  /** The acknowledgement has arrived and released the signal. */
  function Acknowledged(w: World): World {
    Stored(w).(generator := Pulling, waiters := map[], released := w.released + {w.nextId})
  }

  /** The event was delivered and its effect run. */
  function Delivered(w: World): World {
    Acknowledged(w).(loop := Free, control := Receiving, effects := w.effects + [Effect(w.nextId, true)])
  }

  lemma SendingSteps(w: World)
    requires Orderly(w) && Quiet(w)
    ensures Step(Step(Step(Step(w, Emit), Pull), Register), Yield) == Sent(w)
  {
    var n := w.nextId;
    assert w.queue == [] && w.waiters == map[];
    var w1 := w.(loop := Emitting(n), nextId := n + 1, queue := [n]);
    assert Step(w, Emit) == w1;
    var w2 := w1.(queue := [], generator := Preparing(n));
    assert Step(w1, Pull) == w2;
    var w3 := w2.(generator := Registered(n), waiters := map[n := false]);
    assert Step(w2, Register) == w3;
  }

  /** Four steps in a row. */
  lemma FourSteps(w: World, a: Label, b: Label, c: Label, d: Label)
    ensures After(w, [a, b, c, d]) == Step(Step(Step(Step(w, a), b), c), d)
  {
    OneStep(w, a);
    RunsCompose(w, [a], [b]);
    OneStep(Step(w, a), b);
    RunsCompose(w, [a] + [b], [c]);
    OneStep(Step(Step(w, a), b), c);
    RunsCompose(w, [a] + [b] + [c], [d]);
    OneStep(Step(Step(Step(w, a), b), c), d);
    assert [a] + [b] + [c] + [d] == [a, b, c, d];
  }

  lemma EventIsSent(w: World)
    requires Orderly(w) && Quiet(w)
    ensures After(w, Sending()) == Sent(w)
  {
    SendingSteps(w);
    FourSteps(w, Emit, Pull, Register, Yield);
  }

  lemma EventIsStored(w: World)
    requires w.control.Receiving?
    ensures After(Sent(w), Committing(w.nextId)) == Stored(w)
  {
    var n, s := w.nextId, Sent(w);
    var w1 := s.(control := Handling(n), frames := w.frames + {n} - {n});
    Then(s, [], Receive(n), s, w1);
    var w2 := w1.(control := Committed(n), committed := w.committed + {n});
    Then(s, [] + [Receive(n)], Commit, w1, w2);
    Then(s, [] + [Receive(n)] + [Commit], SendAck, w2, Stored(w));
  }

  lemma AckIsHeard(s: World, n: nat)
    requires s.ackTimeout > 0.0 && s.generator == Yielded(n) && s.waiters == map[n := false] && n in s.acks
    ensures Step(Step(s, AckArrives(n)), Resume) == s.(generator := Waiting(n), waiters := map[n := true])
  {
  }

  lemma AckIsSeen(s: World, n: nat)
    requires s.generator == Waiting(n) && s.waiters == map[n := true]
    ensures Step(Step(s, AckSeen), Release)
            == s.(generator := Pulling, waiters := map[], released := s.released + {n})
  {
    assert map[n := true] - {n} == map[];
  }

  lemma EventIsAcknowledged(w: World)
    requires w.ackTimeout > 0.0
    ensures After(Stored(w), Acknowledging(w.nextId)) == Acknowledged(w)
  {
    AckIsHeard(Stored(w), w.nextId);
    AckIsSeen(Stored(w).(generator := Waiting(w.nextId), waiters := map[w.nextId := true]), w.nextId);
    FourSteps(Stored(w), AckArrives(w.nextId), Resume, AckSeen, Release);
  }

  lemma EffectRuns(w: World)
    requires !w.cancelled
    ensures After(Acknowledged(w), Acting()) == Delivered(w)
  {
    var n, s := w.nextId, Acknowledged(w);
    var w1 := s.(loop := Returned(n));
    assert Step(s, EmitReturns) == w1;
    var w2 := w1.(loop := Cleared(n));
    assert Step(w1, Check) == w2;
    FourSteps(s, EmitReturns, Check, CheckedEffect, Reply);
  }

  ghost function Delivery(n: nat): seq<Label> {
    Sending() + Committing(n) + Acknowledging(n) + Acting()
  }

  /** From every quiet world that a run can reach, the next event can be committed, acknowledged and followed by its
      checked effect, after which the world is quiet again. */
  lemma EventIsDelivered(w: World)
    requires Orderly(w) && Quiet(w)
    ensures After(w, Delivery(w.nextId)) == Delivered(w) && Quiet(Delivered(w)) && Orderly(Delivered(w))
  {
    var n := w.nextId;
    EventIsSent(w);
    EventIsStored(w);
    RunsCompose(w, Sending(), Committing(n));
    EventIsAcknowledged(w);
    RunsCompose(w, Sending() + Committing(n), Acknowledging(n));
    EffectRuns(w);
    RunsCompose(w, Sending() + Committing(n) + Acknowledging(n), Acting());
    RunIsOrderly(w, Delivery(n));
  }

  /** So after every run that leaves the handshake quiet, some continuation commits the next event and runs its checked
      effect without cancelling the run. */
  lemma NextEventIsDelivered(ackTimeout: real, labels: seq<Label>)
    requires ackTimeout > 0.0 && Quiet(After(Init(ackTimeout), labels))
    ensures var w := After(Init(ackTimeout), labels);
            var v := After(Init(ackTimeout), labels + Delivery(w.nextId));
            && !v.cancelled && w.nextId in v.committed && v.committed == w.committed + {w.nextId}
            && v.effects == w.effects + [Effect(w.nextId, true)] && Quiet(v)
  {
    var w := After(Init(ackTimeout), labels);
    RunIsOrderly(Init(ackTimeout), labels);
    EventIsDelivered(w);
    RunsCompose(Init(ackTimeout), labels, Delivery(w.nextId));
  }

  /** The checked effects of a run of events. */
  function Effects(n: nat): seq<Effect> {
    seq(n, i requires 0 <= i < n => Effect(i, true))
  }

  /** With a positive ACK timeout any number of events can be delivered one after the other: each is committed and its
      effect runs, in order, and the run is not cancelled. */
  lemma {:induction false} EveryEventCanBeDelivered(ackTimeout: real, n: nat) returns (labels: seq<Label>)
    requires ackTimeout > 0.0
    ensures var w := After(Init(ackTimeout), labels);
            && Quiet(w) && Orderly(w) && w.nextId == n
            && w.effects == Effects(n) && forall i | 0 <= i < n :: i in w.committed
  {
    if n == 0 {
      labels := [];
    } else {
      var before := EveryEventCanBeDelivered(ackTimeout, n - 1);
      var w := After(Init(ackTimeout), before);
      EventIsDelivered(w);
      labels := before + Delivery(n - 1);
      RunsCompose(Init(ackTimeout), before, Delivery(n - 1));
      assert Effects(n) == Effects(n - 1) + [Effect(n - 1, true)];
    }
  }

  // ---------------------------------------------------------------- no timeout after an acknowledgement

  /** The waiter of the event is set, or the event is behind the generator. */
  predicate Heard(w: World, id: nat) {
    || (id in w.waiters && w.waiters[id])
    || (id < w.nextId && id !in w.queue
        && (w.generator.Preparing? || Awaiting(w.generator) ==> w.generator.id != id))
  }

  lemma StepIsHeard(w: World, l: Label, id: nat)
    requires Orderly(w) && Heard(w, id)
    ensures Heard(Step(w, l), id)
  {
  }

  lemma {:induction false} RunIsHeard(w: World, labels: seq<Label>, id: nat)
    requires Orderly(w) && Heard(w, id)
    ensures Heard(After(w, labels), id)
  {
    if labels != [] {
      RunIsHeard(w, labels[..|labels| - 1], id);
      RunIsOrderly(w, labels[..|labels| - 1]);
      StepIsHeard(After(w, labels[..|labels| - 1]), labels[|labels| - 1], id);
    }
  }

  /** Once the ACK of a registered event has arrived, the wait for it never times out, whatever happens in between:
      it can only end with the release of the signal. */
  lemma AcknowledgedNeverTimesOut(w: World, id: nat, labels: seq<Label>)
    requires Orderly(w) && id in w.acks && id in w.waiters
    ensures var v := After(Step(w, AckArrives(id)), labels);
            v.generator == Waiting(id) ==>
              Step(v, AckTimedOut) == v && Step(v, AckSeen).generator == Releasing(id)
  {
    StepIsOrderly(w, AckArrives(id));
    RunIsHeard(Step(w, AckArrives(id)), labels, id);
  }

  // ---------------------------------------------------------------- an emit always ends

  /** The steps from here until the loop thread can go on. */
  function Distance(w: World): nat {
    match w.generator
    case Pulling => 6
    case Preparing(_) => 5
    case Registered(_) => 4
    case Yielded(_) => 3
    case Waiting(_) => 2
    case _ => 1
  }

  /** The worker's next step towards the end of an emit that is neither released nor cancelled. */
  function Onward(w: World): Label {
    match w.generator
    case Pulling => Pull
    case Preparing(_) => Register
    case Registered(_) => Yield
    case Yielded(_) => Resume
    case Waiting(id) => if id in w.waiters && w.waiters[id] then AckSeen else AckTimedOut
    case _ => Release
  }

  lemma OnwardAdvances(w: World)
    requires Orderly(w) && w.loop.Emitting? && !w.cancelled && w.loop.id !in w.released
    ensures var v := Step(w, Onward(w));
            && !ControlLabel(Onward(w)) && v.loop == w.loop
            && (v.cancelled || v.loop.id in v.released || Distance(v) < Distance(w))
  {
  }

  /** Whatever the control plane does or fails to do, the worker alone can end every emit: it returns or raises. */
  lemma {:induction false} EmitEnds(w: World) returns (labels: seq<Label>)
    requires Orderly(w) && w.loop.Emitting?
    ensures forall l | l in labels :: !ControlLabel(l)
    ensures var v := After(w, labels); v.loop == Returned(w.loop.id) || v.loop == LoopThread.Cancelled
    decreases !w.cancelled && w.loop.id !in w.released, Distance(w)
  {
    if w.cancelled || w.loop.id in w.released {
      labels := [if w.loop.id in w.released then EmitReturns else EmitRaises];
      OneStep(w, labels[0]);
    } else {
      OnwardAdvances(w);
      StepIsOrderly(w, Onward(w));
      var rest := EmitEnds(Step(w, Onward(w)));
      labels := [Onward(w)] + rest;
      RunsCompose(w, [Onward(w)], rest);
      OneStep(w, Onward(w));
    }
  }

  // ---------------------------------------------------------------- a control plane that stops

  /** The control plane stops exactly when its handler fails on an event or the reply to an ACK is rejected, and stays
      stopped. */
  lemma StopsIff(w: World, l: Label)
    ensures Step(w, l).control == Stopped <==>
              || w.control == Stopped
              || (l == HandlerFails && w.control.Handling?) || (l == ReplyRejected && w.control.Acknowledging?)
  {
  }

  /** From then on nothing is committed or acknowledged, and every event acted on after a check was committed before. */
  lemma {:induction false} StoppedCommitsNothing(w: World, labels: seq<Label>)
    requires Inv(w) && w.control == Stopped
    ensures var v := After(w, labels);
            && v.control == Stopped && v.committed == w.committed && v.acks == w.acks
            && forall e | e in v.effects && e.checked :: e.id in w.committed
  {
    if labels != [] {
      StoppedCommitsNothing(w, labels[..|labels| - 1]);
      StopsIff(After(w, labels[..|labels| - 1]), labels[|labels| - 1]);
    }
    RunKeeps(w, labels);
  }
}
