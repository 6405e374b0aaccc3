/** The delivery protocol: frame loop, bounded channel and batcher as concurrent processes, with a
    sink that may refuse any send. */
module Delivery {
  import opened Event
  import opened Batch
  import opened Pipeline

  /** The frame loop: reading, blocked on the full channel, or gone, perhaps abandoning a match. */
  datatype Producer = Reading | Blocked(blocked: MatchEvent) | Gone(abandoned: seq<MatchEvent>)

  /** What the batcher is sending for. */
  datatype Goal = UntilSettled | UntilEmpty | UntilEmptyThenExit

  /** The batcher: at the head of its loop, in a send, or past its clean or early exit. */
  datatype Consumer = Receiving | Sending(goal: Goal) | Finished | Broken(poison: MatchEvent)

  datatype State = State(
    ledger: Ledger,
    producer: Producer,
    channel: seq<MatchEvent>,
    consumer: Consumer,
    buffer: seq<MatchEvent>,
    acked: seq<seq<MatchEvent>>)

  datatype Step =
    // frame loop
    | Read(parsed: Parsed) | Unblock | StopReading
    // batcher
    | Receive | Acknowledge | Refuse | TimeOut | SeeClosed

  datatype Setup = Setup(config: Config, capacity: nat)

  ghost predicate ValidSetup(u: Setup) { u.capacity >= 1 && u.config.maxMessages >= 1 }

  const INIT := State(EMPTY_LEDGER, Reading, [], Receiving, [], [])

  predicate Exited(s: State) { s.consumer.Finished? || s.consumer.Broken? }

  // ---------- steps ----------

  predicate Enabled(u: Setup, s: State, step: Step) {
    match step
    case Read(p) => s.producer.Reading? && WellFormed(p)
    case Unblock => s.producer.Blocked? && (Exited(s) || |s.channel| < u.capacity)
    case StopReading => !s.producer.Gone?
    case Receive => s.consumer.Receiving? && s.channel != []
    case Acknowledge => s.consumer.Sending?
    case Refuse => s.consumer.Sending?
    case TimeOut => s.consumer.Receiving? && s.buffer != []
    case SeeClosed => s.consumer.Receiving? && s.channel == [] && s.producer.Gone?
  }

  /** A match meets the channel: taken, refused because the receiver is gone, or held back. */
  function Offered(u: Setup, s: State, e: MatchEvent): State {
    if Exited(s) then s.(producer := Gone([e]))
    else if |s.channel| < u.capacity then
      s.(ledger := Enqueued(s.ledger, e), producer := Reading, channel := s.channel + [e])
    else s.(ledger := Delayed(s.ledger), producer := Blocked(e))
  }

  function ReadFrame(u: Setup, s: State, p: Parsed): State {
    var t := s.(ledger := Inspected(s.ledger, p));
    match MatchOf(p)
    case None => t
    case Some(e) => Offered(u, t, e)
  }

  function Received(u: Setup, s: State): State
    requires s.channel != []
  {
    var e, t := s.channel[0], s.(channel := s.channel[1..]);
    if u.config.size(e) > u.config.maxBytes then t.(consumer := Broken(e))
    else
      var buffer := s.buffer + [e];
      t.(buffer := buffer, consumer := if Settled(u.config, buffer) then Receiving else Sending(UntilSettled))
  }

  function Acknowledged(u: Setup, s: State): State
    requires s.consumer.Sending?
  {
    var n := Cut(u.config, s.buffer);
    var rest, goal := s.buffer[n..], s.consumer.goal;
    var more := if goal.UntilSettled? then !Settled(u.config, rest) else rest != [];
    s.(acked := s.acked + [s.buffer[..n]], buffer := rest,
       consumer := if more then s.consumer else if goal.UntilEmptyThenExit? then Finished else Receiving)
  }

  function Do(u: Setup, s: State, step: Step): State
    requires Enabled(u, s, step)
  {
    match step
    case Read(p) => ReadFrame(u, s, p)
    case Unblock => Offered(u, s, s.producer.blocked)
    case StopReading => s.(producer := Gone(OnTheWay(s.producer)))
    case Receive => Received(u, s)
    case Acknowledge => Acknowledged(u, s)
    case Refuse => s
    case TimeOut => s.(consumer := Sending(UntilEmpty))
    case SeeClosed => s.(consumer := if s.buffer == [] then Finished else Sending(UntilEmptyThenExit))
  }

  /** A run of steps from a state, if every step is enabled when it is taken. */
  function From(u: Setup, s: State, steps: seq<Step>): Option<State> {
    if steps == [] then Some(s)
    else
      match From(u, s, steps[..|steps| - 1])
      case None => None
      case Some(t) =>
        var step := steps[|steps| - 1];
        if Enabled(u, t, step) then Some(Do(u, t, step)) else None
  }

  // ---------- what every run keeps ----------

  function OnTheWay(p: Producer): seq<MatchEvent> {
    match p
    case Reading => []
    case Blocked(e) => [e]
    case Gone(lost) => lost
  }

  function Poison(c: Consumer): seq<MatchEvent> { if c.Broken? then [c.poison] else [] }

  /** Nothing is lost, duplicated or reordered: delivered, buffered, poisoned and still in the
      channel, this is exactly what was enqueued. */
  ghost predicate Conserved(s: State) {
    Flatten(s.acked) + s.buffer + Poison(s.consumer) + s.channel == s.ledger.sent
  }

  ghost predicate PhaseOk(u: Setup, s: State) {
    match s.consumer
    case Receiving => Settled(u.config, s.buffer)
    case Sending(goal) =>
      && s.buffer != []
      && (goal.UntilSettled? ==> !Settled(u.config, s.buffer))
      && (goal.UntilEmptyThenExit? ==> s.channel == [] && s.producer.Gone?)
    case Finished => s.buffer == [] && s.channel == [] && s.producer.Gone?
    case Broken(e) => u.config.size(e) > u.config.maxBytes
  }

  ghost predicate Inv(u: Setup, s: State) {
    && Conserved(s)
    && |s.channel| <= u.capacity
    && Accounted(s.ledger, OnTheWay(s.producer))
    && AllSmall(u.config, s.buffer)
    && WithinCaps(u.config, s.acked)
    && PhaseOk(u, s)
  }

  lemma OfferedKeeps(u: Setup, s: State, e: MatchEvent)
    requires ValidSetup(u) && Conserved(s) && |s.channel| <= u.capacity && Accounted(s.ledger, [e])
    requires AllSmall(u.config, s.buffer) && WithinCaps(u.config, s.acked) && PhaseOk(u, s)
    requires !s.producer.Gone?
    ensures Inv(u, Offered(u, s, e))
  {
    hide Settled, Bytes, Flatten;
  }

  lemma ReceivedKeeps(u: Setup, s: State)
    requires ValidSetup(u) && Inv(u, s) && Enabled(u, s, Receive)
    ensures Inv(u, Received(u, s))
  {
    hide Bytes, Flatten, Accounted, WithinCaps;
    assert s.channel == [s.channel[0]] + s.channel[1..];
    var t := Received(u, s);
    assert Flatten(t.acked) + t.buffer + Poison(t.consumer) + t.channel
      == Flatten(s.acked) + s.buffer + [s.channel[0]] + s.channel[1..];
  }

  lemma AcknowledgedKeeps(u: Setup, s: State)
    requires ValidSetup(u) && Inv(u, s) && Enabled(u, s, Acknowledge)
    ensures Inv(u, Acknowledged(u, s))
  {
    hide Bytes, Flatten, Accounted, Cut, Fits;
    var n := Cut(u.config, s.buffer);
    var batch, rest := s.buffer[..n], s.buffer[n..];
    CutOfSmall(u.config, s.buffer);
    FlattenAppend(s.acked, [batch]);
    FlattenOne(batch);
    assert s.buffer == batch + rest;
    assert Flatten(s.acked + [batch]) + rest == Flatten(s.acked) + s.buffer;
  }

  lemma StepKeeps(u: Setup, s: State, step: Step)
    requires ValidSetup(u) && Inv(u, s) && Enabled(u, s, step)
    ensures Inv(u, Do(u, s, step))
  {
    hide Settled, Bytes, Flatten, Accounted;
    match step
    case Read(p) =>
      AccountedInspected(s.ledger, p);
      var t := s.(ledger := Inspected(s.ledger, p));
      if MatchOf(p).Some? { OfferedKeeps(u, t, MatchOf(p).value); }
    case Unblock => OfferedKeeps(u, s, s.producer.blocked);
    case Receive => ReceivedKeeps(u, s);
    case Acknowledge => AcknowledgedKeeps(u, s);
    case _ =>
  }

  /** Safety over every run. */
  lemma {:induction false} RunKeeps(u: Setup, s: State, steps: seq<Step>)
    requires ValidSetup(u) && Inv(u, s) && From(u, s, steps).Some?
    ensures Inv(u, From(u, s, steps).value)
  {
    if steps != [] {
      RunKeeps(u, s, steps[..|steps| - 1]);
      StepKeeps(u, From(u, s, steps[..|steps| - 1]).value, steps[|steps| - 1]);
    }
  }

  // ---------- results ----------

  lemma InitKeeps(u: Setup)
    requires ValidSetup(u)
    ensures Inv(u, INIT)
  {
  }

  /** A clean exit of the batcher: everything that was ever enqueued was delivered, in order. */
  lemma CleanExitDeliversAll(u: Setup, steps: seq<Step>)
    requires ValidSetup(u) && From(u, INIT, steps).Some? && From(u, INIT, steps).value.consumer.Finished?
    ensures var s := From(u, INIT, steps).value;
      Flatten(s.acked) == s.ledger.sent && s.channel == []
  {
    InitKeeps(u);
    RunKeeps(u, INIT, steps);
    var s := From(u, INIT, steps).value;
    assert Flatten(s.acked) + [] + [] + [] == Flatten(s.acked);
  }

  /** At any time, and after an early exit too, what was delivered is a prefix of what was enqueued;
      only an event over the byte cap makes the batcher exit early. */
  lemma DeliveredIsPrefix(u: Setup, steps: seq<Step>)
    requires ValidSetup(u) && From(u, INIT, steps).Some?
    ensures var s := From(u, INIT, steps).value;
      && Flatten(s.acked) <= s.ledger.sent && s.ledger.sent <= s.ledger.archived
      && |s.ledger.sent| <= |Flatten(s.acked)| + |s.buffer| + 1 + u.capacity
      && (s.consumer.Broken? ==> !AllSmall(u.config, s.ledger.sent))
  {
    InitKeeps(u);
    RunKeeps(u, INIT, steps);
    var s := From(u, INIT, steps).value;
    if s.consumer.Broken? { assert s.ledger.sent[|Flatten(s.acked)| + |s.buffer|] == s.consumer.poison; }
  }

  predicate MovesBatcher(step: Step) { step.Receive? || step.Acknowledge? || step.TimeOut? || step.SeeClosed? }

  /** No deadlock: unless it idles on an empty channel, a live batcher can always move, and a
      blocked frame loop is waiting for nothing but that. */
  lemma SomethingMoves(u: Setup, s: State) returns (step: Step)
    requires ValidSetup(u) && Inv(u, s) && !Exited(s)
    requires s.producer.Reading? ==> s.channel != [] || s.buffer != []
    ensures Enabled(u, s, step)
    ensures MovesBatcher(step) || (step.Unblock? && s.producer.Blocked? && s.channel == [])
  {
    match s.consumer
    case Sending(_) => step := Acknowledge;
    case _ =>
      step := if s.channel != [] then Receive else if s.buffer != [] then TimeOut
        else if s.producer.Gone? then SeeClosed else Unblock;
  }

  /** Work left for the batcher. */
  function WorkLeft(s: State): nat {
    4 * |s.channel| + 2 * |s.buffer| + if s.consumer.Receiving? then 1 else 0
  }

  lemma MoveUsesWork(u: Setup, s: State, step: Step)
    requires ValidSetup(u) && Inv(u, s) && Enabled(u, s, step) && s.producer.Gone?
    ensures var t := Do(u, s, step);
      && t.producer.Gone? && t.ledger.sent == s.ledger.sent
      && WorkLeft(t) + (if MovesBatcher(step) then 1 else 0) <= WorkLeft(s)
  {
    hide Settled, Flatten, Accounted, WithinCaps, Conserved;
    if step.Acknowledge? { CutOfSmall(u.config, s.buffer); }
  }

  function Moves(steps: seq<Step>): nat {
    if steps == [] then 0 else Moves(steps[..|steps| - 1]) + if MovesBatcher(steps[|steps| - 1]) then 1 else 0
  }

  /** Once the frame loop is gone, the drain is bounded: however often the sink refuses, the batcher
      takes at most `WorkLeft` moves. */
  lemma {:induction false} DrainIsBounded(u: Setup, s: State, steps: seq<Step>)
    requires ValidSetup(u) && Inv(u, s) && s.producer.Gone? && From(u, s, steps).Some?
    ensures var t := From(u, s, steps).value;
      && t.producer.Gone? && t.ledger.sent == s.ledger.sent
      && Moves(steps) + WorkLeft(t) <= WorkLeft(s)
  {
    hide Inv;
    if steps != [] {
      var front := steps[..|steps| - 1];
      DrainIsBounded(u, s, front);
      RunKeeps(u, s, front);
      MoveUsesWork(u, From(u, s, front).value, steps[|steps| - 1]);
    }
  }

  lemma {:induction false} FittingIsSmall(c: Config, b: seq<MatchEvent>)
    requires Bytes(c, b) <= c.maxBytes
    ensures AllSmall(c, b)
  {
    if b != [] {
      FittingIsSmall(c, b[..|b| - 1]);
      assert b == b[..|b| - 1] + [b[|b| - 1]];
    }
  }

  lemma {:induction false} DeliveredIsSmall(c: Config, batches: seq<seq<MatchEvent>>)
    requires WithinCaps(c, batches)
    ensures AllSmall(c, Flatten(batches))
  {
    if batches != [] {
      DeliveredIsSmall(c, batches[..|batches| - 1]);
      FittingIsSmall(c, batches[|batches| - 1]);
    }
  }

  /** The drain ends well exactly when it can: once the frame loop is gone and the batcher cannot
      move any more, it has delivered every enqueued match if and only if each is within the byte
      cap; otherwise it stopped at the first one that is not. */
  lemma DrainDeliversAll(u: Setup, steps: seq<Step>)
    requires ValidSetup(u) && From(u, INIT, steps).Some?
    requires var s := From(u, INIT, steps).value;
      s.producer.Gone? && forall step :: MovesBatcher(step) ==> !Enabled(u, s, step)
    ensures var s := From(u, INIT, steps).value;
      && Exited(s)
      && (s.consumer.Finished? <==> AllSmall(u.config, s.ledger.sent))
      && (Flatten(s.acked) == s.ledger.sent <==> AllSmall(u.config, s.ledger.sent))
  {
    hide Enabled, Do, Bytes;
    var s := From(u, INIT, steps).value;
    InitKeeps(u);
    RunKeeps(u, INIT, steps);
    if !Exited(s) {
      var step := SomethingMoves(u, s);
      assert false;
    }
    DeliveredIsPrefix(u, steps);
    DeliveredIsSmall(u.config, s.acked);
    if s.consumer.Finished? { CleanExitDeliversAll(u, steps); }
  }

  // ---------- the batcher's turns as steps ----------

  lemma OneStep(u: Setup, s: State, step: Step)
    requires Enabled(u, s, step)
    ensures From(u, s, [step]) == Some(Do(u, s, step))
  {
    assert [step][..0] == [];
    assert From(u, s, []) == Some(s);
  }

  lemma TwoSteps(u: Setup, s: State, one: Step, two: Step)
    requires Enabled(u, s, one) && Enabled(u, Do(u, s, one), two)
    ensures From(u, s, [one, two]) == Some(Do(u, Do(u, s, one), two))
  {
    assert [one, two][..1] == [one];
    OneStep(u, s, one);
  }

  /** A turn that takes an event is a receive, and one acknowledged send if one is due. */
  lemma TakingIsSteps(u: Setup, s: State) returns (steps: seq<Step>)
    requires ValidSetup(u) && Inv(u, s) && Enabled(u, s, Receive)
    requires u.config.size(s.channel[0]) <= u.config.maxBytes
    ensures var (batches, rest) := Pushed(u.config, s.buffer, s.channel[0]);
      From(u, s, steps) == Some(s.(channel := s.channel[1..], acked := s.acked + batches, buffer := rest))
  {
    hide Inv, Bytes, Flatten;
    var e := s.channel[0];
    var all := s.buffer + [e];
    var t := Received(u, s);
    assert Settled(u.config, s.buffer) by { PhaseOf(u, s); }
    OneByte(u.config, s.buffer, e);
    if Settled(u.config, all) {
      steps := [Receive];
      OneStep(u, s, Receive);
      assert s.acked + [] == s.acked;
    } else {
      steps := [Receive, Acknowledge];
      var n := if Fits(u.config, all) then |all| else |s.buffer|;
      assert all[..|all|] == all && all[|all|..] == [];
      CutIs(u.config, all, n);
      PushedSplits(u.config, s.buffer, e);
      TwoSteps(u, s, Receive, Acknowledge);
    }
  }

  lemma PhaseOf(u: Setup, s: State)
    requires Inv(u, s) && s.consumer.Receiving?
    ensures Settled(u.config, s.buffer)
  {
  }

  /** A turn in which the timer fires is one acknowledged send of the whole buffer. */
  lemma FiringIsSteps(u: Setup, s: State)
    requires ValidSetup(u) && Inv(u, s) && Enabled(u, s, TimeOut)
    ensures From(u, s, [TimeOut, Acknowledge]) == Some(s.(acked := s.acked + [s.buffer], buffer := []))
  {
    var b := s.buffer;
    assert b[..|b|] == b && b[|b|..] == [];
    CutIs(u.config, b, |b|);
    TwoSteps(u, s, TimeOut, Acknowledge);
  }

  /** The turn that sees the channel closed sends what is buffered, and exits. */
  lemma ClosingIsSteps(u: Setup, s: State)
    requires ValidSetup(u) && Inv(u, s) && Enabled(u, s, SeeClosed)
    ensures From(u, s, if s.buffer == [] then [SeeClosed] else [SeeClosed, Acknowledge])
      == Some(s.(acked := s.acked + if s.buffer == [] then [] else [s.buffer], buffer := [], consumer := Finished))
  {
    hide Inv, Bytes, Flatten;
    var b := s.buffer;
    if b == [] {
      OneStep(u, s, SeeClosed);
      assert s.acked + [] == s.acked;
    } else {
      assert b[..|b|] == b && b[|b|..] == [];
      PhaseOf(u, s);
      CutIs(u.config, b, |b|);
      TwoSteps(u, s, SeeClosed, Acknowledge);
    }
  }

  /** The turn that takes an event over the byte cap exits at once: nothing is sent, and the buffer is
      left behind with it. */
  lemma FailingIsSteps(u: Setup, s: State)
    requires ValidSetup(u) && Inv(u, s) && Enabled(u, s, Receive)
    requires u.config.size(s.channel[0]) > u.config.maxBytes
    ensures From(u, s, [Receive]) == Some(s.(channel := s.channel[1..], consumer := Broken(s.channel[0])))
  {
    OneStep(u, s, Receive);
  }
}
