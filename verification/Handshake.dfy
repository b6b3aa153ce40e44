/** The handshake between the worker and the control plane, as an interleaving of four parties.

    The loop thread puts a signal on the queue and waits until it is released.  The response
    generator takes the signal, registers a waiter, yields the event, waits for its ACK and
    releases the signal.  The control plane's stream loop receives an event, commits it and
    only then acknowledges it.  The ACK is a separate call that sets the waiter.
    Any party may move at any time; a label that is not enabled changes nothing.
 */
module Handshake {

  datatype LoopThread =
    | Free                   // between two emits
    | Emitting(id: nat)      // the signal is queued, its release awaited
    | Returned(id: nat)      // emit returned normally
    | Cleared(id: nat)       // and a cancellation check passed after it
    | Cancelled              // emit or the check raised

  datatype Generator =
    | Pulling
    | Preparing(id: nat)     // validating the signal and building its event
    | Registered(id: nat)    // about to yield
    | Yielded(id: nat)       // the event is with the transport
    | Waiting(id: nat)       // waiting for the ACK
    | Releasing(id: nat)     // about to release, normally
    | Failing(id: nat)       // an exception is unwinding: cancelled, about to release
    | Closed

  datatype ControlPlane =
    | Receiving
    | Handling(id: nat)
    | Committed(id: nat)
    | Acknowledging(id: nat)
    | Stopped

  /** An external effect of the loop, and the event whose emit came before it. */
  datatype Effect = Effect(id: nat, checked: bool)

  datatype World = World(
    ackTimeout: real, loop: LoopThread, nextId: nat, queue: seq<nat>, released: set<nat>, cancelled: bool,
    generator: Generator, waiters: map<nat, bool>, frames: set<nat>,
    control: ControlPlane, committed: set<nat>, acks: set<nat>, effects: seq<Effect>)

  datatype Label =
    // loop thread
    | Emit | EmitReturns | EmitRaises | Proceed | Check | CheckedEffect | UncheckedEffect
    // generator
    | Pull | Reject | Register | Yield | Resume | Close | AckSeen | AckTimedOut | Release
    // control plane and transport
    | Receive(id: nat) | Commit | HandlerFails | SendAck | Reply | ReplyRejected
    // ACK call and cancellation call
    | AckArrives(id: nat) | CancelRun

  function Init(ackTimeout: real): World {
    World(ackTimeout, Free, 0, [], {}, false, Pulling, map[], {}, Receiving, {}, {}, [])
  }

  function StepLoop(w: World, l: Label): World {
    match l
    case Emit =>
      if w.loop.Free? then w.(loop := Emitting(w.nextId), queue := w.queue + [w.nextId], nextId := w.nextId + 1)
      else w
    case EmitReturns => if w.loop.Emitting? && w.loop.id in w.released then w.(loop := Returned(w.loop.id)) else w
    case EmitRaises => if w.loop.Emitting? && w.cancelled then w.(loop := LoopThread.Cancelled) else w
    case Proceed => if w.loop.Returned? then w.(loop := Free) else w
    case Check =>
      if !w.loop.Returned? then w
      else w.(loop := if w.cancelled then LoopThread.Cancelled else Cleared(w.loop.id))
    case CheckedEffect =>
      if w.loop.Cleared? then w.(loop := Free, effects := w.effects + [Effect(w.loop.id, true)]) else w
    case UncheckedEffect =>
      if w.loop.Returned? then w.(loop := Free, effects := w.effects + [Effect(w.loop.id, false)]) else w
    case _ => w
  }

  function StepGenerator(w: World, l: Label): World {
    match l
    case Pull =>
      if w.generator.Pulling? && w.queue != [] then w.(generator := Preparing(w.queue[0]), queue := w.queue[1..]) else w
    case Reject =>
      if w.generator.Preparing? then w.(cancelled := true, generator := Failing(w.generator.id)) else w
    case Register =>
      if !w.generator.Preparing? then w
      else if w.ackTimeout <= 0.0 then w.(generator := Registered(w.generator.id))
      else if w.generator.id in w.waiters then w.(cancelled := true, generator := Failing(w.generator.id))
      else w.(generator := Registered(w.generator.id), waiters := w.waiters[w.generator.id := false])
    case Yield =>
      if w.generator.Registered? then w.(generator := Yielded(w.generator.id), frames := w.frames + {w.generator.id})
      else w
    case Resume =>
      if !w.generator.Yielded? then w
      else w.(generator := if w.ackTimeout <= 0.0 then Releasing(w.generator.id) else Waiting(w.generator.id))
    case Close =>
      if !w.generator.Yielded? then w
      else w.(cancelled := true, waiters := w.waiters - {w.generator.id}, generator := Failing(w.generator.id))
    case AckSeen =>
      if w.generator.Waiting? && w.generator.id in w.waiters && w.waiters[w.generator.id]
      then w.(waiters := w.waiters - {w.generator.id}, generator := Releasing(w.generator.id)) else w
    case AckTimedOut =>
      if w.generator.Waiting? && !(w.generator.id in w.waiters && w.waiters[w.generator.id])
      then w.(cancelled := true, waiters := w.waiters - {w.generator.id}, generator := Failing(w.generator.id)) else w
    case Release =>
      if w.generator.Releasing? then w.(released := w.released + {w.generator.id}, generator := Pulling)
      else if w.generator.Failing? then w.(released := w.released + {w.generator.id}, generator := Closed)
      else w
    case _ => w
  }

  function StepControl(w: World, l: Label): World {
    match l
    case Receive(id) =>
      if w.control.Receiving? && id in w.frames then w.(control := Handling(id), frames := w.frames - {id}) else w
    case Commit =>
      if w.control.Handling? then w.(committed := w.committed + {w.control.id}, control := Committed(w.control.id))
      else w
    case HandlerFails => if w.control.Handling? then w.(control := Stopped) else w
    case SendAck =>
      if w.control.Committed? then w.(acks := w.acks + {w.control.id}, control := Acknowledging(w.control.id)) else w
    case Reply => if w.control.Acknowledging? then w.(control := Receiving) else w
    case ReplyRejected => if w.control.Acknowledging? then w.(control := Stopped) else w
    case AckArrives(id) =>
      if id in w.acks && id in w.waiters then w.(waiters := w.waiters[id := true]) else w
    case CancelRun => w.(cancelled := true)
    case _ => w
  }

  predicate LoopLabel(l: Label) {
    l.Emit? || l.EmitReturns? || l.EmitRaises? || l.Proceed? || l.Check? || l.CheckedEffect? || l.UncheckedEffect?
  }

  predicate ControlLabel(l: Label) {
    l.Receive? || l.Commit? || l.HandlerFails? || l.SendAck? || l.Reply? || l.ReplyRejected? || l.AckArrives?
        || l.CancelRun?
  }

  function Step(w: World, l: Label): World {
    if LoopLabel(l) then StepLoop(w, l) else if ControlLabel(l) then StepControl(w, l) else StepGenerator(w, l)
  }

  function After(w: World, labels: seq<Label>): World {
    if labels == [] then w else Step(After(w, labels[..|labels| - 1]), labels[|labels| - 1])
  }

  /** emit has returned normally for the event only if it was committed or the run is cancelled, and an effect
      behind a passed check only follows a committed event. */
  predicate CommitBeforeEffect(w: World) {
    && (w.loop.Returned? ==> w.loop.id in w.committed || w.cancelled)
    && (forall i | 0 <= i < |w.effects| ::
          if w.effects[i].checked then w.effects[i].id in w.committed
          else w.effects[i].id in w.committed || w.cancelled)
  }

  predicate Inv(w: World) {
    && w.ackTimeout > 0.0
    && w.acks <= w.committed
    && (forall id | id in w.waiters && w.waiters[id] :: id in w.committed)
    && (forall id | id in w.released :: id in w.committed || w.cancelled)
    && (w.control.Committed? ==> w.control.id in w.committed)
    && (w.generator.Releasing? ==> w.generator.id in w.committed)
    && (w.generator.Failing? ==> w.cancelled)
    && (w.loop.Cleared? ==> w.loop.id in w.committed)
    && CommitBeforeEffect(w)
  }

  lemma LoopKeeps(w: World, l: Label)
    requires Inv(w)
    ensures Inv(StepLoop(w, l))
  {
  }

  lemma GeneratorKeeps(w: World, l: Label)
    requires Inv(w)
    ensures Inv(StepGenerator(w, l))
  {
  }

  lemma ControlKeeps(w: World, l: Label)
    requires Inv(w)
    ensures Inv(StepControl(w, l))
  {
  }

  lemma {:induction false} RunKeeps(w: World, labels: seq<Label>)
    requires Inv(w)
    ensures Inv(After(w, labels))
  {
    if labels != [] {
      RunKeeps(w, labels[..|labels| - 1]);
      var before, l := After(w, labels[..|labels| - 1]), labels[|labels| - 1];
      LoopKeeps(before, l);
      GeneratorKeeps(before, l);
      ControlKeeps(before, l);
    }
  }

  /** One more step, given by the world it leads to. */
  lemma Then(w: World, labels: seq<Label>, l: Label, before: World, after: World)
    requires After(w, labels) == before && Step(before, l) == after
    ensures After(w, labels + [l]) == after
  {
    assert (labels + [l])[..|labels|] == labels;
  }

  /** The world in which the first event is about to be yielded. */
  function FirstEvent(ackTimeout: real): World {
    Init(ackTimeout).(nextId := 1, loop := Emitting(0), generator := Registered(0),
                      waiters := if ackTimeout <= 0.0 then map[] else map[0 := false])
  }

  lemma FirstEmit(ackTimeout: real)
    ensures After(Init(ackTimeout), [] + [Emit] + [Pull] + [Register]) == FirstEvent(ackTimeout)
  {
    var w0 := Init(ackTimeout);
    var w1 := w0.(nextId := 1, queue := [0], loop := Emitting(0));
    var w2 := w1.(queue := [], generator := Preparing(0));
    Then(w0, [], Emit, w0, w1);
    Then(w0, [] + [Emit], Pull, w1, w2);
    Then(w0, [] + [Emit] + [Pull], Register, w2, FirstEvent(ackTimeout));
  }

  /** Without a positive ACK timeout, a model call can run behind a passed check while nothing was ever committed:
      its event is yielded and never received. */
  lemma NoTimeoutNoCommit(ackTimeout: real)
    requires ackTimeout <= 0.0
    ensures exists labels :: !CommitBeforeEffect(After(Init(ackTimeout), labels))
  {
    var w0 := Init(ackTimeout);
    FirstEmit(ackTimeout);
    var l3 := [] + [Emit] + [Pull] + [Register];
    var w3 := FirstEvent(ackTimeout);
    var w4 := w3.(generator := Yielded(0), frames := {0});
    Then(w0, l3, Yield, w3, w4);
    var w5 := w4.(generator := Releasing(0));
    Then(w0, l3 + [Yield], Resume, w4, w5);
    var w6 := w5.(generator := Pulling, released := {0});
    Then(w0, l3 + [Yield] + [Resume], Release, w5, w6);
    var l6 := l3 + [Yield] + [Resume] + [Release];
    var w7 := w6.(loop := Returned(0));
    Then(w0, l6, EmitReturns, w6, w7);
    var w8 := w7.(loop := Cleared(0));
    Then(w0, l6 + [EmitReturns], Check, w7, w8);
    var w9 := w8.(loop := Free, effects := [Effect(0, true)]);
    Then(w0, l6 + [EmitReturns] + [Check], CheckedEffect, w8, w9);
    assert w9.effects[0] == Effect(0, true);
  }

  /** Commit before effect holds in every interleaving if and only if the ACK timeout is positive. */
  lemma CommitBeforeEffectIff(ackTimeout: real)
    ensures ackTimeout > 0.0 <==> forall labels :: CommitBeforeEffect(After(Init(ackTimeout), labels))
  {
    if ackTimeout > 0.0 {
      forall labels ensures CommitBeforeEffect(After(Init(ackTimeout), labels)) {
        RunKeeps(Init(ackTimeout), labels);
      }
    } else {
      NoTimeoutNoCommit(ackTimeout);
    }
  }

  /** A call without a cancellation check can run although its event was never committed, even with a positive
      ACK timeout: the stream closes on the yielded event and the released emit returns. */
  lemma UncheckedEffectWithoutCommit(ackTimeout: real)
    requires ackTimeout > 0.0
    ensures exists labels :: var w := After(Init(ackTimeout), labels);
              w.effects == [Effect(0, false)] && w.committed == {} && w.cancelled
  {
    var w0 := Init(ackTimeout);
    FirstEmit(ackTimeout);
    var l3 := [] + [Emit] + [Pull] + [Register];
    var w3 := FirstEvent(ackTimeout);
    var w4 := w3.(generator := Yielded(0), frames := {0});
    Then(w0, l3, Yield, w3, w4);
    var w5 := w4.(cancelled := true, waiters := w3.waiters - {0}, generator := Failing(0));
    Then(w0, l3 + [Yield], Close, w4, w5);
    var w6 := w5.(generator := Closed, released := {0});
    Then(w0, l3 + [Yield] + [Close], Release, w5, w6);
    var l6 := l3 + [Yield] + [Close] + [Release];
    var w7 := w6.(loop := Returned(0));
    Then(w0, l6, EmitReturns, w6, w7);
    var w8 := w7.(loop := Free, effects := [Effect(0, false)]);
    Then(w0, l6 + [EmitReturns], UncheckedEffect, w7, w8);
  }
}
