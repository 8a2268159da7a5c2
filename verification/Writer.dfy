// The bounded writer of one connection: any number of threads enqueue, any
// number call Shutdown, and one goroutine drains the queue into the transport.
//
// Every lock-protected region, channel operation and transport call is one
// atomic step.  A step whose guard is false leaves the state as it is (the
// thread waits), so the runs of the machine are all sequences of steps.
module WriterMachine {
  import opened Types

  datatype Drainer =
    | Receiving            // blocked in the range over the queue
    | InHand(ev: Event)    // received, the closed flag not yet checked
    | Checked(ev: Event)   // counted as in flight, the write not yet started
    | Writing(ev: Event)   // inside WriteMessage
    | Written              // WriteMessage returned, Done not yet called
    | Exited(dropped: seq<Event>)   // run returned; what it held then is gone

  datatype Pc =
    | Sending(ev: Event)   // passed the closed check, about to try the send
    | Waiting(ev: Event)   // blocked in the send with the timer running
    | AwaitInflight        // set the closed flag, waits for the in-flight frame
    | CloseQueue
    | CloseConn
    | CloseDone
  {
    predicate Shutting() {
      !Sending? && !Waiting?
    }
  }

  // accepted, frames and closer are histories: every event the queue took, every
  // event handed to the transport, and the thread that set the closed flag.
  datatype Writer = Writer(
    cap: nat,
    queue: seq<Event>,
    closed: bool,
    closer: Option<Tid>,
    queueClosed: bool,
    inflight: nat,
    connCloses: nat,
    doneCloses: nat,
    drainer: Drainer,
    threads: map<Tid, Pc>,
    accepted: seq<Event>,
    frames: seq<Event>,
    fault: bool)

  datatype Step =
    | BeginEnqueue(t: Tid, ev: Event)
    | Send(t: Tid)
    | GiveUp(t: Tid)
    | BeginShutdown(t: Tid)
    | ShutdownNext(t: Tid)
    | Receive
    | Check
    | StartWrite
    | FinishWrite
    | InflightDone

  function NewWriter(queueSize: int): Writer {
    Writer(if queueSize < 1 then 1 else queueSize, [], false, None, false, 0, 0, 0, Receiving, map[], [], [], false)
  }

  function Accept(s: Writer, t: Tid, ev: Event): Writer {
    s.(queue := s.queue + [ev], accepted := s.accepted + [ev], threads := s.threads - {t})
  }

  function SendStep(s: Writer, t: Tid): Writer
    requires t in s.threads
  {
    match s.threads[t]
    case Sending(ev) =>
      if s.queueClosed then s.(fault := true)
      else if |s.queue| < s.cap then Accept(s, t, ev)
      else s.(threads := s.threads[t := Waiting(ev)])
    case Waiting(ev) =>
      if s.queueClosed then s.(fault := true)
      else if |s.queue| < s.cap then Accept(s, t, ev)
      else s
    case _ => s
  }

  // One statement of Shutdown after its locked region.  Closing a channel twice
  // panics, and so does every sender blocked on a channel that is closed.
  function ShutdownStep(s: Writer, t: Tid): Writer
    requires t in s.threads
  {
    match s.threads[t]
    case AwaitInflight =>
      if s.inflight == 0 then s.(threads := s.threads[t := CloseQueue]) else s
    case CloseQueue =>
      s.(queueClosed := true,
      threads := s.threads[t := CloseConn],
      fault := s.queueClosed || exists u | u in s.threads :: s.threads[u].Waiting?)
    case CloseConn =>
      s.(connCloses := s.connCloses + 1, threads := s.threads[t := CloseDone])
    case CloseDone =>
      s.(doneCloses := s.doneCloses + 1, threads := s.threads - {t}, fault := s.doneCloses > 0)
    case _ => s
  }

  // The loop of run, one statement at a time.
  function ReceiveStep(s: Writer): Writer {
    if !s.drainer.Receiving? then s
    else if s.queue != [] then s.(queue := s.queue[1..], drainer := InHand(s.queue[0]))
    else if s.queueClosed then s.(drainer := Exited([]))
    else s
  }

  function CheckStep(s: Writer): Writer {
    if !s.drainer.InHand? then s
    else if s.closed then s.(drainer := Exited([s.drainer.ev]))
    else s.(inflight := s.inflight + 1, drainer := Checked(s.drainer.ev))
  }

  function StartWriteStep(s: Writer): Writer {
    if s.drainer.Checked? then s.(drainer := Writing(s.drainer.ev)) else s
  }

  function FinishWriteStep(s: Writer): Writer {
    if s.drainer.Writing? then s.(frames := s.frames + [s.drainer.ev], drainer := Written) else s
  }

  // A WaitGroup that drops below zero panics.
  function InflightDoneStep(s: Writer): Writer {
    if !s.drainer.Written? then s
    else if s.inflight == 0 then s.(fault := true)
    else s.(inflight := s.inflight - 1, drainer := Receiving)
  }

  function Apply(s: Writer, a: Step): Writer {
    if s.fault then s else
    match a
    case BeginEnqueue(t, ev) =>
      if t in s.threads || s.closed then s else s.(threads := s.threads[t := Sending(ev)])
    case Send(t) => if t in s.threads then SendStep(s, t) else s
    case GiveUp(t) =>
      if t in s.threads && s.threads[t].Waiting? then s.(threads := s.threads - {t}) else s
    case BeginShutdown(t) =>
      if t in s.threads || s.closed then s
      else s.(closed := true, closer := Some(t), threads := s.threads[t := AwaitInflight])
    case ShutdownNext(t) => if t in s.threads then ShutdownStep(s, t) else s
    case Receive => ReceiveStep(s)
    case Check => CheckStep(s)
    case StartWrite => StartWriteStep(s)
    case FinishWrite => FinishWriteStep(s)
    case InflightDone => InflightDoneStep(s)
  }

  function Run(s: Writer, steps: seq<Step>): Writer
    decreases |steps|
  {
    if steps == [] then s else Run(Apply(s, steps[0]), steps[1..])
  }

  lemma RunFive(s: Writer, a: Step, b: Step, c: Step, d: Step, e: Step)
    ensures Run(s, [a, b, c, d, e]) == Apply(Apply(Apply(Apply(Apply(s, a), b), c), d), e)
  {
    var s1 := Apply(s, a);
    var s2 := Apply(s1, b);
    var s3 := Apply(s2, c);
    var s4 := Apply(s3, d);
    assert Run(s4, [e]) == Apply(s4, e);
    assert Run(s3, [d, e]) == Run(s4, [e]);
    assert Run(s2, [c, d, e]) == Run(s3, [d, e]);
    assert Run(s1, [b, c, d, e]) == Run(s2, [c, d, e]);
  }

  // How far the one effective Shutdown has come: 0 before it, 5 when it returned.
  function Phase(s: Writer): nat {
    if s.closer.None? then 0
    else if s.closer.value !in s.threads then 5
    else match s.threads[s.closer.value]
      case AwaitInflight => 1
      case CloseQueue => 2
      case CloseConn => 3
      case CloseDone => 4
      case _ => 6
  }

  ghost predicate ShutdownPhase(s: Writer) {
    && (forall t | t in s.threads && s.threads[t].Shutting() :: s.closer == Some(t))
    && Phase(s) <= 5
    && (s.closed <==> Phase(s) >= 1)
    && (Phase(s) >= 2 ==> s.inflight == 0)
    && (s.queueClosed <==> Phase(s) >= 3)
    && s.connCloses == (if Phase(s) >= 4 then 1 else 0)
    && s.doneCloses == (if Phase(s) >= 5 then 1 else 0)
  }

  // The event the drainer took off the queue and did not hand to the transport.
  function Held(d: Drainer): seq<Event> {
    match d
    case InHand(ev) => [ev]
    case Checked(ev) => [ev]
    case Writing(ev) => [ev]
    case Exited(dropped) => dropped
    case _ => []
  }

  ghost predicate Fifo(s: Writer) {
    && |s.queue| <= s.cap
    && |Held(s.drainer)| <= 1
    && s.accepted == s.frames + Held(s.drainer) + s.queue
    && (s.drainer.Exited? ==> s.closed)
  }

  ghost predicate Inv(s: Writer) {
    && s.cap >= 1
    && s.inflight == (if s.drainer.Checked? || s.drainer.Writing? || s.drainer.Written? then 1 else 0)
    && ShutdownPhase(s)
    && Fifo(s)
  }

  lemma EnqueueKeepsPhase(s: Writer, t: Tid, ev: Event)
    requires ShutdownPhase(s) && !s.fault
    ensures var s' := Apply(s, BeginEnqueue(t, ev)); !s'.fault && ShutdownPhase(s')
    ensures var s' := Apply(s, GiveUp(t)); !s'.fault && ShutdownPhase(s')
    ensures var s' := Apply(s, Send(t)); s'.fault || ShutdownPhase(s')
  {
    assert Phase(Apply(s, BeginEnqueue(t, ev))) == Phase(s);
    assert Phase(Apply(s, GiveUp(t))) == Phase(s);
    assert Phase(Apply(s, Send(t))) == Phase(s);
  }

  lemma SendKeepsFifo(s: Writer, t: Tid)
    requires Fifo(s) && t in s.threads
    ensures Fifo(SendStep(s, t))
  {
    var s' := SendStep(s, t);
    if s'.queue != s.queue {
      var e := s.threads[t].ev;
      assert s'.accepted == (s.frames + Held(s.drainer) + s.queue) + [e] == s'.frames + Held(s'.drainer) + s'.queue;
    }
  }

  lemma ReceiveKeepsInv(s: Writer)
    requires Inv(s) && !s.fault
    ensures Inv(ReceiveStep(s)) && !ReceiveStep(s).fault
  {
    var s' := ReceiveStep(s);
    assert Phase(s') == Phase(s);
    if s.drainer.Receiving? && s.queue != [] {
      assert s.frames + [] + s.queue == s.frames + [s.queue[0]] + s.queue[1..];
    }
  }

  lemma CheckKeepsInv(s: Writer)
    requires Inv(s) && !s.fault
    ensures Inv(CheckStep(s)) && !CheckStep(s).fault
  {
    assert Phase(CheckStep(s)) == Phase(s);
  }

  lemma StartWriteKeepsInv(s: Writer)
    requires Inv(s) && !s.fault
    ensures Inv(StartWriteStep(s)) && !StartWriteStep(s).fault
  {
    assert Phase(StartWriteStep(s)) == Phase(s);
  }

  lemma FinishWriteKeepsInv(s: Writer)
    requires Inv(s) && !s.fault
    ensures Inv(FinishWriteStep(s)) && !FinishWriteStep(s).fault
  {
    var s' := FinishWriteStep(s);
    assert Phase(s') == Phase(s);
    assert s.frames + Held(s.drainer) + s.queue == s'.frames + Held(s'.drainer) + s'.queue;
  }

  lemma InflightDoneKeepsInv(s: Writer)
    requires Inv(s) && !s.fault
    ensures Inv(InflightDoneStep(s)) && !InflightDoneStep(s).fault
  {
    assert Phase(InflightDoneStep(s)) == Phase(s);
  }

  lemma ShutdownKeepsInv(s: Writer, t: Tid)
    requires Inv(s) && !s.fault
    ensures var s' := Apply(s, BeginShutdown(t)); !s'.fault && Inv(s')
    ensures Inv(Apply(s, ShutdownNext(t)))
  {
  }

  lemma StepKeepsInv(s: Writer, a: Step)
    requires Inv(s)
    ensures Inv(Apply(s, a))
  {
    if !s.fault {
      match a
      case BeginEnqueue(t, ev) => EnqueueKeepsPhase(s, t, ev);
      case Send(t) =>
        EnqueueKeepsPhase(s, t, Event(0, "", ""));
        if t in s.threads { SendKeepsFifo(s, t); }
      case GiveUp(t) => EnqueueKeepsPhase(s, t, Event(0, "", ""));
      case BeginShutdown(t) => ShutdownKeepsInv(s, t);
      case ShutdownNext(t) => ShutdownKeepsInv(s, t);
      case Receive => ReceiveKeepsInv(s);
      case Check => CheckKeepsInv(s);
      case StartWrite => StartWriteKeepsInv(s);
      case FinishWrite => FinishWriteKeepsInv(s);
      case InflightDone => InflightDoneKeepsInv(s);
    }
  }

  lemma {:induction false} RunKeepsInv(s: Writer, steps: seq<Step>)
    requires Inv(s)
    ensures Inv(Run(s, steps)) && Run(s, steps).cap == s.cap
    decreases |steps|
  {
    if steps != [] {
      CapStays(s, steps[0]);
      StepKeepsInv(s, steps[0]);
      RunKeepsInv(Apply(s, steps[0]), steps[1..]);
    }
  }

  lemma CapStays(s: Writer, a: Step)
    ensures Apply(s, a).cap == s.cap
  {
  }

  // ---- What every run of any number of callers guarantees.

  // The transport and the done channel are closed at most once, and a released
  // transport sees no frame: none is being written and none is about to be.
  // The in-flight counter is one exactly from the drainer's check to its Done.
  lemma TransportReleasedOnce(queueSize: int, steps: seq<Step>)
    ensures var s := Run(NewWriter(queueSize), steps);
            && s.connCloses <= 1
            && s.doneCloses <= s.connCloses
            && (s.connCloses == 1 ==> s.closed && s.queueClosed && !s.drainer.Checked? && !s.drainer.Writing?)
            && (s.inflight == 1 <==> s.drainer.Checked? || s.drainer.Writing? || s.drainer.Written?)
            && s.inflight <= 1
  {
    RunKeepsInv(NewWriter(queueSize), steps);
  }

  lemma InitInv(queueSize: int)
    ensures Inv(NewWriter(queueSize))
  {
  }

  lemma InvMeansFifo(s: Writer)
    requires Inv(s)
    ensures Fifo(s)
  {
  }

  lemma BacklogIsBounded(s: Writer)
    requires Fifo(s)
    ensures s.frames <= s.accepted && |s.accepted| - |s.frames| <= s.cap + 1
  {
    assert s.accepted == s.frames + (Held(s.drainer) + s.queue);
  }

  // The queue is first in, first out and loses nothing: what was accepted is
  // what was written, then what the drainer holds, then what is queued.  Only a
  // closed writer's drainer stops with an event in hand.  The backlog is bounded.
  lemma AcceptedIsConserved(queueSize: int, steps: seq<Step>)
    ensures var s := Run(NewWriter(queueSize), steps);
            && s.accepted == s.frames + Held(s.drainer) + s.queue
            && s.frames <= s.accepted
            && (s.drainer.Exited? ==> s.closed)
            && |s.accepted| - |s.frames| <= (if queueSize < 1 then 1 else queueSize) + 1
  {
    InitInv(queueSize);
    hide Run, Inv;
    RunKeepsInv(NewWriter(queueSize), steps);
    InvMeansFifo(Run(NewWriter(queueSize), steps));
    BacklogIsBounded(Run(NewWriter(queueSize), steps));
  }

  // From a state with its transport released, no run writes another frame.
  lemma {:induction false} NoFrameAfterRelease(s: Writer, steps: seq<Step>)
    requires Inv(s) && s.connCloses == 1
    ensures Run(s, steps).frames == s.frames && Run(s, steps).connCloses == 1
    decreases |steps|
  {
    if steps != [] {
      StepKeepsInv(s, steps[0]);
      NoFrameAfterRelease(Apply(s, steps[0]), steps[1..]);
    }
  }

  ghost predicate WrittenOrInFlight(s: Writer, n: nat, ev: Event) {
    || (|s.frames| == n && (s.drainer == Checked(ev) || s.drainer == Writing(ev)))
    || (|s.frames| > n && s.frames[n] == ev)
  }

  lemma {:induction false} InFlightStays(s: Writer, steps: seq<Step>, n: nat, ev: Event)
    requires WrittenOrInFlight(s, n, ev)
    ensures WrittenOrInFlight(Run(s, steps), n, ev)
    decreases |steps|
  {
    if steps != [] {
      InFlightStays(Apply(s, steps[0]), steps[1..], n, ev);
    }
  }

  // Shutdown lets the frame in flight finish: once the transport is released,
  // that frame has been written, and it is the next one in order.
  lemma InFlightFrameFinishesFirst(s: Writer, steps: seq<Step>, ev: Event)
    requires Inv(s) && (s.drainer == Checked(ev) || s.drainer == Writing(ev))
    requires Run(s, steps).connCloses == 1
    ensures s.frames + [ev] <= Run(s, steps).frames
  {
    var s' := Run(s, steps);
    RunKeepsInv(s, steps);
    InFlightStays(s, steps, |s.frames|, ev);
    FramesOnlyGrow(s, steps);
    assert s'.frames[..|s.frames| + 1] == s.frames + [ev];
  }

  lemma {:induction false} FramesOnlyGrow(s: Writer, steps: seq<Step>)
    ensures s.frames <= Run(s, steps).frames
    decreases |steps|
  {
    if steps != [] {
      FramesOnlyGrow(Apply(s, steps[0]), steps[1..]);
    }
  }

  // ---- Panics.

  // The writer panics in one way only: an enqueuer past the closed check is
  // still there when the queue is closed or after it was.
  lemma NoFaultWithoutEnqueuers(s: Writer, a: Step)
    requires Inv(s) && !s.fault
    requires s.closed ==> forall t | t in s.threads :: s.threads[t].Shutting()
    ensures !Apply(s, a).fault
  {
    match a
    case InflightDone => InflightDoneKeepsInv(s);
    case _ =>
  }

  ghost predicate OnlyShutdowns(s: Writer) {
    forall t | t in s.threads :: s.threads[t].Shutting()
  }

  lemma ClosedStaysClosed(s: Writer, a: Step)
    requires s.closed && OnlyShutdowns(s)
    ensures Apply(s, a).closed && OnlyShutdowns(Apply(s, a))
  {
  }

  lemma {:induction false} NoFaultOnceClosed(s: Writer, steps: seq<Step>)
    requires Inv(s) && !s.fault && s.closed && OnlyShutdowns(s)
    ensures !Run(s, steps).fault
    decreases |steps|
  {
    if steps != [] {
      StepKeepsInv(s, steps[0]);
      NoFaultWithoutEnqueuers(s, steps[0]);
      ClosedStaysClosed(s, steps[0]);
      hide Inv, Apply;
      NoFaultOnceClosed(Apply(s, steps[0]), steps[1..]);
    }
  }

  // What the drainer has to do until no frame is in flight.
  function FinishFrame(d: Drainer): seq<Step> {
    match d
    case Checked(_) => [StartWrite, FinishWrite, InflightDone]
    case Writing(_) => [FinishWrite, InflightDone]
    case Written => [InflightDone]
    case _ => []
  }

  // The way to a panic on the sender u: the closer t gets as far as the queue.
  function WayToFault(s: Writer, t: Tid, u: Tid): seq<Step> {
    if s.queueClosed then [Send(u)]
    else FinishFrame(s.drainer) + [ShutdownNext(t), ShutdownNext(t), Send(u)]
  }

  lemma {:induction false} RunAppend(s: Writer, a: seq<Step>, b: seq<Step>)
    ensures Run(s, a + b) == Run(Run(s, a), b)
    decreases |a|
  {
    if a == [] {
      assert a + b == b;
    } else {
      assert (a + b)[0] == a[0] && (a + b)[1..] == a[1..] + b;
      RunAppend(Apply(s, a[0]), a[1..], b);
    }
  }

  lemma FrameFinishes(s: Writer)
    requires Inv(s) && !s.fault
    ensures var s' := Run(s, FinishFrame(s.drainer));
            && !s'.fault && s'.inflight == 0 && s'.threads == s.threads
            && s'.queueClosed == s.queueClosed
  {
    var a, b, c := StartWrite, FinishWrite, InflightDone;
    match s.drainer
    case Checked(_) =>
      assert Run(s, [a, b, c]) == Run(Apply(s, a), [b, c]) == Run(Apply(Apply(s, a), b), [c]);
      assert Run(Apply(Apply(s, a), b), [c]) == Apply(Apply(Apply(s, a), b), c);
    case Writing(_) =>
      assert Run(s, [b, c]) == Run(Apply(s, b), [c]) == Apply(Apply(s, b), c);
    case Written => assert Run(s, [c]) == Apply(s, c);
    case _ =>
  }

  // With no frame in flight, two steps take the closer past the queue, unless
  // they panic already.
  lemma QueueCloses(s: Writer, t: Tid, u: Tid)
    requires !s.fault && s.inflight == 0 && t in s.threads && (s.threads[t].AwaitInflight? || s.threads[t].CloseQueue?)
    requires u in s.threads && !s.threads[u].Shutting()
    ensures Run(s, [ShutdownNext(t), ShutdownNext(t), Send(u)]).fault
  {
    var n := ShutdownNext(t);
    var s1 := Apply(s, n);
    var s2 := Apply(s1, n);
    assert s1.fault || (u in s1.threads && s1.threads[u] == s.threads[u]);
    assert s2.fault || (s2.queueClosed && u in s2.threads && s2.threads[u] == s.threads[u]);
    assert Apply(s2, Send(u)).fault;
    assert Run(s2, [Send(u)]) == Apply(s2, Send(u));
    assert Run(s1, [n, Send(u)]) == Run(s2, [Send(u)]);
  }

  lemma SenderFaults(s: Writer, u: Tid)
    requires Inv(s) && !s.fault && s.closed && u in s.threads && !s.threads[u].Shutting()
    ensures s.closer.Some? && Run(s, WayToFault(s, s.closer.value, u)).fault
  {
    var t := s.closer.value;
    if s.queueClosed {
      assert Run(s, [Send(u)]) == Apply(s, Send(u));
    } else {
      assert t in s.threads && (s.threads[t].AwaitInflight? || s.threads[t].CloseQueue?);
      FrameFinishes(s);
      QueueCloses(Run(s, FinishFrame(s.drainer)), t, u);
      RunAppend(s, FinishFrame(s.drainer), [ShutdownNext(t), ShutdownNext(t), Send(u)]);
    }
  }

  // Exactly when a closed writer can still panic: an enqueuer that passed the
  // closed check is left.
  lemma ClosedWriterFaultsIff(s: Writer)
    requires Inv(s) && !s.fault && s.closed
    ensures (exists steps :: Run(s, steps).fault) <==> !OnlyShutdowns(s)
  {
    if OnlyShutdowns(s) {
      forall steps
        ensures !Run(s, steps).fault
      {
        NoFaultOnceClosed(s, steps);
      }
    } else {
      var u :| u in s.threads && !s.threads[u].Shutting();
      SenderFaults(s, u);
    }
  }

  // Left to itself the writer can panic: Enqueue drops its lock between the
  // closed check and the send.  The session rules this out (SessionGate).
  lemma WriterAloneCanFault(ev: Event)
    ensures Run(NewWriter(4), [BeginEnqueue(0, ev), BeginShutdown(1), ShutdownNext(1), ShutdownNext(1), Send(0)]).fault
  {
    var s0 := NewWriter(4);
    var s1 := Apply(s0, BeginEnqueue(0, ev));
    var s2 := Apply(s1, BeginShutdown(1));
    var s3 := Apply(s2, ShutdownNext(1));
    var s4 := Apply(s3, ShutdownNext(1));
    assert s3.threads[1] == CloseQueue && s4.queueClosed && s4.threads[0] == Sending(ev) && !s4.fault;
    var s5 := Apply(s4, Send(0));
    assert s5.fault;
    RunFive(s0, BeginEnqueue(0, ev), BeginShutdown(1), ShutdownNext(1), ShutdownNext(1), Send(0));
  }

  // ---- Whole calls that no other thread disturbs.

  function Enqueued(s: Writer, ev: Event): Writer {
    s.(queue := s.queue + [ev], accepted := s.accepted + [ev])
  }

  // One turn of the drain loop.
  function Drained(s: Writer): Writer
    requires s.queue != []
  {
    if s.closed then s.(queue := s.queue[1..], drainer := Exited([s.queue[0]]))
    else s.(queue := s.queue[1..], frames := s.frames + [s.queue[0]])
  }

  function Released(s: Writer, t: Tid): Writer {
    if s.closed then s
    else
      s.(closed := true, closer := Some(t), queueClosed := true,
         connCloses := s.connCloses + 1, doneCloses := s.doneCloses + 1)
  }

  lemma EnqueueAlone(s: Writer, t: Tid, ev: Event)
    requires Inv(s) && !s.fault && t !in s.threads
    ensures s.closed ==> Run(s, [BeginEnqueue(t, ev), Send(t)]) == s
    ensures !s.closed && |s.queue| < s.cap ==> Run(s, [BeginEnqueue(t, ev), Send(t)]) == Enqueued(s, ev)
    ensures !s.closed && |s.queue| == s.cap ==>
              Run(s, [BeginEnqueue(t, ev), Send(t)]) == s.(threads := s.threads[t := Waiting(ev)])
  {
    var s1 := Apply(s, BeginEnqueue(t, ev));
    var s2 := Apply(s1, Send(t));
    assert Run(s1, [Send(t)]) == s2;
    assert s.threads[t := Sending(ev)] - {t} == s.threads;
    assert s.threads[t := Sending(ev)][t := Waiting(ev)] == s.threads[t := Waiting(ev)];
  }

  lemma DrainTurn(s: Writer)
    requires s.inflight == 0 && s.drainer.Receiving? && s.queue != []
    ensures InflightDoneStep(FinishWriteStep(StartWriteStep(CheckStep(ReceiveStep(s))))) == Drained(s)
  {
  }

  lemma DrainTurnSteps(s: Writer)
    requires !s.fault && s.inflight == 0 && s.drainer.Receiving? && s.queue != []
    ensures Apply(Apply(Apply(Apply(Apply(s, Receive), Check), StartWrite), FinishWrite), InflightDone) == Drained(s)
  {
    DrainTurn(s);
    var s1 := ReceiveStep(s);
    var s2 := CheckStep(s1);
    var s3 := StartWriteStep(s2);
    var s4 := FinishWriteStep(s3);
    assert Apply(s, Receive) == s1;
    assert Apply(s1, Check) == s2;
    assert Apply(s2, StartWrite) == s3;
    assert Apply(s3, FinishWrite) == s4;
  }

  lemma DrainAlone(s: Writer)
    requires !s.fault && s.inflight == 0 && s.drainer.Receiving? && s.queue != []
    ensures Run(s, [Receive, Check, StartWrite, FinishWrite, InflightDone]) == Drained(s)
  {
    DrainTurnSteps(s);
    RunFive(s, Receive, Check, StartWrite, FinishWrite, InflightDone);
  }

  // The locked region and the four statements after it.
  lemma ShutdownBegins(s: Writer, t: Tid)
    requires Inv(s) && !s.fault && s.threads == map[] && s.inflight == 0 && !s.closed
    ensures Apply(Apply(s, BeginShutdown(t)), ShutdownNext(t)) ==
            s.(closed := true, closer := Some(t), threads := map[t := CloseQueue])
  {
    var s1 := Apply(s, BeginShutdown(t));
    assert s1.threads == map[t := AwaitInflight];
  }

  lemma ShutdownEnds(s: Writer, t: Tid)
    requires !s.fault && s.threads == map[t := CloseQueue] && !s.queueClosed && s.doneCloses == 0
    ensures var n := ShutdownNext(t);
            Apply(Apply(Apply(s, n), n), n) ==
            s.(queueClosed := true, connCloses := s.connCloses + 1, doneCloses := 1, threads := map[])
  {
    var n := ShutdownNext(t);
    var s1 := Apply(s, n);
    assert s1.threads == map[t := CloseConn] && !s1.fault;
    var s2 := Apply(s1, n);
    assert s2.threads == map[t := CloseDone];
    assert s2.threads - {t} == map[];
  }

  lemma ShutdownAlone(s: Writer, t: Tid)
    requires Inv(s) && !s.fault && s.threads == map[] && s.inflight == 0
    ensures Run(s, [BeginShutdown(t), ShutdownNext(t), ShutdownNext(t), ShutdownNext(t), ShutdownNext(t)]) == Released(s, t)
  {
    var n := ShutdownNext(t);
    RunFive(s, BeginShutdown(t), n, n, n, n);
    if s.closed {
      assert Apply(s, BeginShutdown(t)) == s == Apply(s, n);
    } else {
      ShutdownBegins(s, t);
      ShutdownEnds(s.(closed := true, closer := Some(t), threads := map[t := CloseQueue]), t);
    }
  }

  lemma QueueKeepsInv(s: Writer, ev: Event)
    requires Inv(s) && |s.queue| < s.cap
    ensures Inv(Enqueued(s, ev))
  {
    assert Phase(Enqueued(s, ev)) == Phase(s);
    assert s.frames + Held(s.drainer) + (s.queue + [ev]) == (s.frames + Held(s.drainer) + s.queue) + [ev];
  }

  lemma DrainedKeepsInv(s: Writer)
    requires Inv(s) && s.inflight == 0 && s.drainer.Receiving? && s.queue != []
    ensures Inv(Drained(s))
  {
    assert Phase(Drained(s)) == Phase(s);
    assert s.frames + [] + s.queue == s.frames + [s.queue[0]] + s.queue[1..];
    assert s.frames + [] + s.queue == (s.frames + [s.queue[0]]) + [] + s.queue[1..];
  }

  datatype EnqueueResult = Accepted | ErrClosed | ErrBackpressure

  // The writer object.  A method is one whole call; what the other goroutines
  // do meanwhile is in the step machine, which these lemmas tie to the calls:
  // EnqueueAlone, DrainAlone and ShutdownAlone.
  class BoundedWriter {
    const cap: nat
    var queue: seq<Event>
    var closed: bool
    var queueClosed: bool
    var inflight: nat
    var connCloses: nat
    var doneCloses: nat
    var drainer: Drainer
    var frames: seq<Event>
    ghost var accepted: seq<Event>

    ghost function View(): Writer
      reads this
    {
      Writer(cap, queue, closed, if closed then Some(0) else None, queueClosed, inflight,
             connCloses, doneCloses, drainer, map[], accepted, frames, false)
    }

    // The writer between two calls: no frame in flight, the drainer not busy.
    ghost predicate Valid()
      reads this
    {
      Inv(View()) && inflight == 0 && (drainer.Receiving? || closed)
    }

    constructor (queueSize: int)
      ensures Valid() && View() == NewWriter(queueSize)
    {
      cap := if queueSize < 1 then 1 else queueSize;
      queue, closed, queueClosed := [], false, false;
      inflight, connCloses, doneCloses := 0, 0, 0;
      drainer, frames, accepted := Receiving, [], [];
    }

    method TryEnqueue(ev: Event) returns (ok: bool)
      requires Inv(View()) && inflight == 0 && !queueClosed
      modifies this
      ensures Inv(View())
      ensures ok == (|old(queue)| < cap)
      ensures View() == if ok then Enqueued(old(View()), ev) else old(View())
    {
      ok := |queue| < cap;
      if ok {
        QueueKeepsInv(View(), ev);
        queue := queue + [ev];
        accepted := accepted + [ev];
      }
    }

    // drained says whether the drainer frees a slot before the timer fires.
    method Enqueue(ev: Event, drained: bool) returns (err: EnqueueResult)
      requires Valid()
      modifies this
      ensures Valid() && closed == old(closed)
      ensures accepted == if err == Accepted then old(accepted) + [ev] else old(accepted)
      ensures err == if old(closed) then ErrClosed
                     else if |old(queue)| < cap || drained then Accepted
                     else ErrBackpressure
      ensures View() == if err != Accepted then old(View())
                        else if |old(queue)| < cap then Enqueued(old(View()), ev)
                        else Enqueued(Drained(old(View())), ev)
    {
      if closed {
        return ErrClosed;
      }
      var ok := TryEnqueue(ev);
      if ok {
        return Accepted;
      }
      if !drained {
        return ErrBackpressure;
      }
      DrainOne();
      QueueKeepsInv(View(), ev);
      queue := queue + [ev];
      accepted := accepted + [ev];
      return Accepted;
    }

    method DrainOne()
      requires Inv(View()) && inflight == 0 && drainer.Receiving? && queue != []
      modifies this
      ensures Valid()
      ensures View() == Drained(old(View()))
    {
      DrainedKeepsInv(View());
      var ev := queue[0];
      queue := queue[1..];
      if closed {
        drainer := Exited([ev]);
        return;
      }
      inflight := inflight + 1;
      frames := frames + [ev];
      inflight := inflight - 1;
    }

    // The drain loop on a queue that nobody refills: every queued event is
    // written in order, unless the writer is closed, when one event is dropped.
    method DrainAll()
      requires Valid() && drainer.Receiving?
      modifies this
      ensures Valid()
      ensures !old(closed) ==> View() == old(View()).(queue := [], frames := old(frames) + old(queue))
      ensures old(closed) && old(queue) != [] ==> View() == Drained(old(View()))
      ensures old(closed) && old(queue) == [] ==> View() == old(View())
    {
      ghost var n := 0;
      while queue != [] && drainer.Receiving?
        invariant n <= |old(queue)|
        invariant !old(closed) ==>
                    View() == old(View()).(queue := old(queue)[n..], frames := old(frames) + old(queue)[..n])
        invariant old(closed) ==>
                    View() == if n == 0 then old(View()) else Drained(old(View()))
        invariant old(closed) && drainer.Receiving? ==> n == 0
        invariant Valid()
        decreases |queue|
      {
        assert old(queue)[..n] + [old(queue)[n]] == old(queue)[..n + 1];
        DrainOne();
        n := n + 1;
      }
      if !closed {
        assert n == |old(queue)|;
      }
    }

    method Shutdown()
      requires Valid()
      modifies this
      ensures Valid() && View() == Released(old(View()), 0)
    {
      if closed {
        return;
      }
      closed := true;
      queueClosed := true;
      connCloses := connCloses + 1;
      doneCloses := doneCloses + 1;
    }
  }
}