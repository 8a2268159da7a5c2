// The session lock and connection state around the writer: why a delivery never
// sends on a closed queue, although Enqueue on its own can.
//
// Deliver and ReplayWrite check the state under the session lock and keep the
// lock until their Enqueue returned.  Evict and Remove change the state under
// the lock and call Shutdown after releasing it.  EndReplay's flush calls
// Enqueue without the lock; its steps are part of the machine too.
module SessionGate {
  import opened Types
  import W = WriterMachine

  datatype Pc =
    | Delivering   // past the state check, holds the session lock
    | Flushing     // EndReplay after it released the lock
    | Evicting     // BeginClose succeeded, Shutdown not yet called
    | EvictShut    // inside Evict's Shutdown, or past it
    | Finishing    // FinishClose released the lock, Shutdown not yet called
    | FinishShut   // inside FinishClose's Shutdown, or past it

  // closedChCloses counts the closes of closedCh; the second one panics.
  // finishes is a history: how often FinishClose was called.
  datatype Gate = Gate(
    writer: W.Writer,
    state: ConnState,
    holder: Option<Tid>,
    pcs: map<Tid, Pc>,
    closedChCloses: nat,
    finishes: nat)

  datatype Step =
    | Enter(t: Tid)
    | EnqueueCall(t: Tid, ev: Event)
    | Send(t: Tid)
    | GiveUp(t: Tid)
    | Leave(t: Tid)
    | FlushCall(t: Tid, ev: Event)
    | Suspect
    | Evict(t: Tid)
    | Remove(t: Tid)
    | ShutdownCall(t: Tid)
    | ShutdownNext(t: Tid)
    | RemoveAfterEvict(t: Tid)
    | Release(t: Tid)
    | Drain(a: W.Step)

  function NewSession(queueSize: int): Gate {
    Gate(W.NewWriter(queueSize), Active, None, map[], 0, 0)
  }

  predicate At(s: Gate, t: Tid, pc: Pc) {
    t in s.pcs && s.pcs[t] == pc
  }

  function OnWriter(s: Gate, a: W.Step): Gate {
    s.(writer := W.Apply(s.writer, a))
  }

  // A panic ends the process: nothing happens after it.
  function Apply(s: Gate, a: Step): Gate {
    if s.writer.fault || s.closedChCloses > 1 then s else
    match a
    case Enter(t) =>
      if t !in s.pcs && s.holder.None? && s.state.Accepting()
      then s.(holder := Some(t), pcs := s.pcs[t := Delivering]) else s
    case EnqueueCall(t, ev) =>
      if At(s, t, Delivering) && t !in s.writer.threads then OnWriter(s, W.BeginEnqueue(t, ev)) else s
    case Send(t) => if At(s, t, Delivering) || At(s, t, Flushing) then OnWriter(s, W.Send(t)) else s
    case GiveUp(t) => if At(s, t, Delivering) || At(s, t, Flushing) then OnWriter(s, W.GiveUp(t)) else s
    case Leave(t) =>
      if t in s.writer.threads then s
      else if At(s, t, Delivering) then s.(holder := None, pcs := s.pcs - {t})
      else if At(s, t, Flushing) then s.(pcs := s.pcs - {t})
      else s
    case FlushCall(t, ev) =>
      if t !in s.pcs then OnWriter(s, W.BeginEnqueue(t, ev)).(pcs := s.pcs[t := Flushing]) else s
    case Suspect =>
      if s.holder.None? && s.state.Active? then s.(state := Suspected) else s
    case Evict(t) =>
      if t !in s.pcs && s.holder.None? && s.state.Accepting()
      then s.(state := Closing, pcs := s.pcs[t := Evicting]) else s
    case Remove(t) =>
      if t !in s.pcs && s.holder.None? then s.(state := Closed, pcs := s.pcs[t := Finishing], finishes := s.finishes + 1) else s
    case ShutdownCall(t) =>
      if At(s, t, Evicting) then OnWriter(s, W.BeginShutdown(t)).(pcs := s.pcs[t := EvictShut])
      else if At(s, t, Finishing) then OnWriter(s, W.BeginShutdown(t)).(pcs := s.pcs[t := FinishShut])
      else s
    case ShutdownNext(t) =>
      if At(s, t, EvictShut) || At(s, t, FinishShut) then OnWriter(s, W.ShutdownNext(t)) else s
    case RemoveAfterEvict(t) =>
      if At(s, t, EvictShut) && t !in s.writer.threads && s.holder.None?
      then s.(state := Closed, pcs := s.pcs[t := Finishing], finishes := s.finishes + 1) else s
    case Release(t) =>
      if At(s, t, FinishShut) && t !in s.writer.threads
      then s.(closedChCloses := s.closedChCloses + 1, pcs := s.pcs - {t}) else s
    case Drain(d) =>
      if d.Receive? || d.Check? || d.StartWrite? || d.FinishWrite? || d.InflightDone? then OnWriter(s, d) else s
  }

  function Run(s: Gate, steps: seq<Step>): Gate
    decreases |steps|
  {
    if steps == [] then s else Run(Apply(s, steps[0]), steps[1..])
  }

  // The invariant of every run: who may be where in the writer.
  ghost predicate Inv(s: Gate) {
    && W.Inv(s.writer)
    && (forall t | t in s.pcs && s.pcs[t] == Delivering :: s.holder == Some(t))
    && (s.holder.Some? ==> s.state.Accepting() && At(s, s.holder.value, Delivering))
    && (forall t | t in s.pcs && s.pcs[t] != Delivering && s.pcs[t] != Flushing :: !s.state.Accepting())
    && (s.writer.closed ==> !s.state.Accepting())
    && (forall t | t in s.writer.threads :: t in s.pcs)
    && (forall t | t in s.writer.threads && !s.writer.threads[t].Shutting() ::
          s.pcs[t] == Delivering || s.pcs[t] == Flushing)
    && (forall t | t in s.writer.threads && s.writer.threads[t].Shutting() ::
          s.pcs[t] == EvictShut || s.pcs[t] == FinishShut)
  }

  // A flush has passed the closed check of an Enqueue and not sent yet.
  ghost predicate FlushUnderWay(s: Gate) {
    exists u :: At(s, u, Flushing) && u in s.writer.threads
  }

  // The Shutdown that sets the closed flag.
  predicate Closes(s: Gate, a: Step) {
    a.ShutdownCall? && (At(s, a.t, Evicting) || At(s, a.t, Finishing)) && !s.writer.closed
  }

  // Once the writer is closed, no flush is under way.
  ghost predicate Clean(s: Gate) {
    s.writer.closed ==> !FlushUnderWay(s)
  }

  ghost predicate Threads(w: W.Writer, w': W.Writer, t: Tid) {
    && (forall u | u in w'.threads && u != t :: u in w.threads && w'.threads[u] == w.threads[u])
    && (t in w'.threads && t in w.threads ==> (w'.threads[t].Shutting() <==> w.threads[t].Shutting()))
  }

  lemma EnqueueFacts(w: W.Writer, t: Tid, ev: Event)
    ensures var w' := W.Apply(w, W.BeginEnqueue(t, ev));
            Threads(w, w', t) && w'.closed == w.closed && (t in w'.threads && t !in w.threads ==> !w'.threads[t].Shutting())
    ensures var w' := W.Apply(w, W.Send(t));
            Threads(w, w', t) && w'.closed == w.closed && (t in w'.threads ==> t in w.threads)
    ensures var w' := W.Apply(w, W.GiveUp(t));
            Threads(w, w', t) && w'.closed == w.closed && (t in w'.threads ==> t in w.threads)
  {
  }

  lemma ShutdownFacts(w: W.Writer, t: Tid)
    ensures var w' := W.Apply(w, W.BeginShutdown(t));
            Threads(w, w', t) && (t in w'.threads && t !in w.threads ==> w'.threads[t].Shutting())
    ensures var w' := W.Apply(w, W.ShutdownNext(t));
            Threads(w, w', t) && w'.closed == w.closed && (t in w'.threads ==> t in w.threads)
  {
  }

  // Under the session's rules an enqueuer of a closed writer can only be a flush:
  // every other one holds the lock of a session that accepts events.
  lemma OnlyFlushesAreLeft(s: Gate)
    requires Inv(s) && s.writer.closed
    ensures W.OnlyShutdowns(s.writer) <==> !FlushUnderWay(s)
  {
    forall t | t in s.writer.threads && !s.writer.threads[t].Shutting()
      ensures At(s, t, Flushing)
    {
      assert s.pcs[t] == Delivering ==> s.holder == Some(t);
    }
    forall u | At(s, u, Flushing) && u in s.writer.threads
      ensures !s.writer.threads[u].Shutting()
    {
    }
  }

  lemma NoWriterFault(s: Gate, a: W.Step)
    requires Inv(s) && Clean(s) && !s.writer.fault
    ensures !W.Apply(s.writer, a).fault
  {
    if s.writer.closed {
      OnlyFlushesAreLeft(s);
    }
    W.NoFaultWithoutEnqueuers(s.writer, a);
  }

  lemma FlushCallKeepsInv(s: Gate, t: Tid, ev: Event)
    requires Inv(s)
    ensures Inv(Apply(s, FlushCall(t, ev)))
  {
    hide W.Inv, W.Apply;
    W.StepKeepsInv(s.writer, W.BeginEnqueue(t, ev));
    EnqueueFacts(s.writer, t, ev);
  }

  lemma DeliveryKeepsInv(s: Gate, a: Step)
    requires Inv(s)
    requires a.Enter? || a.EnqueueCall? || a.Send? || a.GiveUp? || a.Leave?
    ensures Inv(Apply(s, a))
  {
    hide W.Inv, W.Apply;
    match a
    case EnqueueCall(t, ev) =>
      W.StepKeepsInv(s.writer, W.BeginEnqueue(t, ev));
      EnqueueFacts(s.writer, t, ev);
    case Send(t) =>
      W.StepKeepsInv(s.writer, W.Send(t));
      EnqueueFacts(s.writer, t, Event(0, "", ""));
    case GiveUp(t) =>
      W.StepKeepsInv(s.writer, W.GiveUp(t));
      EnqueueFacts(s.writer, t, Event(0, "", ""));
    case _ =>
  }

  lemma ShutdownCallKeepsInv(s: Gate, t: Tid)
    requires Inv(s)
    ensures Inv(Apply(s, ShutdownCall(t)))
  {
    hide W.Inv, W.Apply;
    W.StepKeepsInv(s.writer, W.BeginShutdown(t));
    ShutdownFacts(s.writer, t);
  }

  lemma ShutdownNextKeepsInv(s: Gate, t: Tid)
    requires Inv(s)
    ensures Inv(Apply(s, ShutdownNext(t)))
  {
    hide W.Inv, W.Apply;
    W.StepKeepsInv(s.writer, W.ShutdownNext(t));
    ShutdownFacts(s.writer, t);
  }

  lemma DrainFacts(w: W.Writer, d: W.Step)
    requires d.Receive? || d.Check? || d.StartWrite? || d.FinishWrite? || d.InflightDone?
    ensures W.Apply(w, d).threads == w.threads && W.Apply(w, d).closed == w.closed
  {
  }

  lemma DrainKeepsInv(s: Gate, d: W.Step)
    requires Inv(s)
    requires d.Receive? || d.Check? || d.StartWrite? || d.FinishWrite? || d.InflightDone?
    ensures Inv(OnWriter(s, d))
  {
    hide W.Inv, W.Apply;
    W.StepKeepsInv(s.writer, d);
    DrainFacts(s.writer, d);
  }

  lemma StepKeepsInv(s: Gate, a: Step)
    requires Inv(s)
    ensures Inv(Apply(s, a))
  {
    if Apply(s, a) != s {
      match a
      case FlushCall(t, ev) => FlushCallKeepsInv(s, t, ev);
      case ShutdownCall(t) => ShutdownCallKeepsInv(s, t);
      case ShutdownNext(t) => ShutdownNextKeepsInv(s, t);
      case Drain(d) => DrainKeepsInv(s, d);
      case Suspect => QuietStepKeepsInv(s, a);
      case Evict(_) => QuietStepKeepsInv(s, a);
      case Remove(_) => QuietStepKeepsInv(s, a);
      case RemoveAfterEvict(_) => QuietStepKeepsInv(s, a);
      case Release(_) => QuietStepKeepsInv(s, a);
      case _ => DeliveryKeepsInv(s, a);
    }
  }

  lemma QuietStepKeepsInv(s: Gate, a: Step)
    requires Inv(s) && (a.Suspect? || a.Evict? || a.Remove? || a.RemoveAfterEvict? || a.Release?)
    ensures Inv(Apply(s, a))
  {
    hide W.Inv, W.Apply;
  }

  // A later flush is refused, so only the Shutdown that sets the closed flag can
  // catch one under way.
  lemma StepKeepsClean(s: Gate, a: Step)
    requires Inv(s) && Clean(s) && (Closes(s, a) ==> !FlushUnderWay(s))
    ensures Clean(Apply(s, a))
  {
    var s' := Apply(s, a);
    if s'.writer.closed && s' != s {
      assert !FlushUnderWay(s) by {
        WhoCloses(s, a);
      }
      forall u | At(s', u, Flushing) && u in s'.writer.threads
        ensures At(s, u, Flushing) && u in s.writer.threads
      {
        FlushWasUnderWay(s, a, u);
      }
    }
  }

  lemma WhoCloses(s: Gate, a: Step)
    ensures Apply(s, a).writer.closed && !s.writer.closed ==> Closes(s, a)
  {
  }

  lemma FlushWasUnderWay(s: Gate, a: Step, u: Tid)
    requires Inv(s) && Apply(s, a).writer.closed && At(Apply(s, a), u, Flushing) && u in Apply(s, a).writer.threads
    ensures At(s, u, Flushing) && u in s.writer.threads
  {
    hide W.Inv;
  }

  // No Shutdown of the run sets the closed flag while a flush is under way.
  ghost predicate CleanShutdowns(s: Gate, steps: seq<Step>)
    decreases |steps|
  {
    steps == [] || ((Closes(s, steps[0]) ==> !FlushUnderWay(s)) && CleanShutdowns(Apply(s, steps[0]), steps[1..]))
  }

  lemma StepIsSafe(s: Gate, a: Step)
    requires Inv(s) && Clean(s) && !s.writer.fault
    ensures !Apply(s, a).writer.fault
  {
    var s' := Apply(s, a);
    if s'.writer != s.writer {
      var b :| s'.writer == W.Apply(s.writer, b) by {
        WriterStep(s, a);
      }
      NoWriterFault(s, b);
    }
  }

  lemma WriterStep(s: Gate, a: Step)
    ensures Apply(s, a).writer == s.writer || exists b :: Apply(s, a).writer == W.Apply(s.writer, b)
  {
    hide W.Apply;
  }

  lemma {:induction false} RunKeepsInv(s: Gate, steps: seq<Step>)
    requires Inv(s)
    ensures Inv(Run(s, steps))
    ensures Clean(s) && !s.writer.fault && CleanShutdowns(s, steps) ==> Clean(Run(s, steps)) && !Run(s, steps).writer.fault
    decreases |steps|
  {
    if steps != [] {
      StepKeepsInv(s, steps[0]);
      if Clean(s) && !s.writer.fault && CleanShutdowns(s, steps) {
        StepKeepsClean(s, steps[0]);
        StepIsSafe(s, steps[0]);
      }
      hide Inv, Clean, Apply;
      RunKeepsInv(Apply(s, steps[0]), steps[1..]);
    }
  }

  lemma InitInv(queueSize: int)
    ensures Inv(NewSession(queueSize)) && Clean(NewSession(queueSize)) && !NewSession(queueSize).writer.fault
  {
    W.InitInv(queueSize);
  }

  // In every run of deliveries, replay writes, flushes, evictions and removals in
  // which no flush is under way when the closed flag is set: no send meets a
  // closed queue and the queue is closed once; a closed writer belongs to a
  // closing session; and a delivery past its state check holds the lock.
  lemma StateGatesTheQueue(queueSize: int, steps: seq<Step>)
    requires CleanShutdowns(NewSession(queueSize), steps)
    ensures var s := Run(NewSession(queueSize), steps);
            && !s.writer.fault
            && (s.writer.closed ==> s.state.Closing? || s.state.Closed?)
            && (forall t | t in s.pcs && s.pcs[t] == Delivering :: s.holder == Some(t) && s.state.Accepting())
            && (s.writer.queueClosed ==> forall t | t in s.writer.threads :: s.writer.threads[t].Shutting())
  {
    InitInv(queueSize);
    RunKeepsInv(NewSession(queueSize), steps);
    var s := Run(NewSession(queueSize), steps);
    QueueClosedMeansClosed(s);
    if s.writer.closed {
      OnlyFlushesAreLeft(s);
    }
    hide Run;
  }

  lemma QueueClosedMeansClosed(s: Gate)
    requires Inv(s)
    ensures s.writer.queueClosed ==> s.writer.closed
  {
  }

  // A run without flushes is one of these.
  lemma {:induction false} WithoutFlushIsClean(s: Gate, steps: seq<Step>)
    requires forall t | t in s.pcs :: s.pcs[t] != Flushing
    requires forall i | 0 <= i < |steps| :: !steps[i].FlushCall?
    ensures CleanShutdowns(s, steps)
    decreases |steps|
  {
    if steps != [] {
      hide W.Apply;
      WithoutFlushIsClean(Apply(s, steps[0]), steps[1..]);
    }
  }

  // ---- Exactly when a flush panics.

  // A writer step as a step of the session that takes it.
  function Lift(a: W.Step): Step {
    match a
    case ShutdownNext(t) => ShutdownNext(t)
    case Send(t) => Send(t)
    case _ => Drain(a)
  }

  function LiftAll(steps: seq<W.Step>): seq<Step> {
    seq(|steps|, i requires 0 <= i < |steps| => Lift(steps[i]))
  }

  predicate CanLift(s: Gate, a: W.Step) {
    match a
    case ShutdownNext(t) => At(s, t, EvictShut) || At(s, t, FinishShut)
    case Send(t) => At(s, t, Flushing)
    case StartWrite => true
    case FinishWrite => true
    case InflightDone => true
    case _ => false
  }

  lemma {:induction false} LiftedRun(s: Gate, steps: seq<W.Step>)
    requires s.closedChCloses <= 1 && forall i | 0 <= i < |steps| :: CanLift(s, steps[i])
    ensures Run(s, LiftAll(steps)).writer == W.Run(s.writer, steps)
    decreases |steps|
  {
    if steps != [] {
      var s1 := Apply(s, Lift(steps[0]));
      assert CanLift(s, steps[0]);
      assert s1 == OnWriter(s, steps[0]) by {
        FaultStays(s.writer, steps[0]);
      }
      assert LiftAll(steps)[0] == Lift(steps[0]) && LiftAll(steps)[1..] == LiftAll(steps[1..]);
      forall i | 0 <= i < |steps[1..]|
        ensures CanLift(s1, steps[1..][i])
      {
        assert CanLift(s, steps[i + 1]);
      }
      hide W.Apply, Apply, CanLift;
      LiftedRun(s1, steps[1..]);
    }
  }

  lemma FaultStays(w: W.Writer, a: W.Step)
    ensures w.fault ==> W.Apply(w, a) == w
  {
  }

  // A flush that is under way when the writer is closed can always still panic.
  lemma FlushCanPanic(s: Gate)
    requires Inv(s) && !s.writer.fault && s.closedChCloses <= 1 && s.writer.closed && FlushUnderWay(s)
    ensures exists steps :: Run(s, steps).writer.fault
  {
    var u :| At(s, u, Flushing) && u in s.writer.threads;
    W.SenderFaults(s.writer, u);
    CloserIsShutting(s);
    var t := s.writer.closer.value;
    hide W.Inv, W.Run;
    var way := W.WayToFault(s.writer, t, u);
    assert forall i | 0 <= i < |way| :: CanLift(s, way[i]);
    LiftedRun(s, way);
    assert Run(s, LiftAll(way)).writer.fault;
  }

  lemma CloserIsShutting(s: Gate)
    requires Inv(s) && s.writer.closed
    ensures s.writer.closer.Some?
    ensures !s.writer.queueClosed ==>
              At(s, s.writer.closer.value, EvictShut) || At(s, s.writer.closer.value, FinishShut)
  {
  }

  // The exact condition, at the Shutdown that sets the closed flag in any run: the
  // process can panic on the writer afterwards iff a flush is under way then.
  lemma PanicsIffFlushUnderWay(queueSize: int, before: seq<Step>, t: Tid)
    requires var s := Run(NewSession(queueSize), before);
             !s.writer.fault && s.closedChCloses <= 1 && Closes(s, ShutdownCall(t))
    ensures var s := Run(NewSession(queueSize), before);
            (exists steps :: Run(Apply(s, ShutdownCall(t)), steps).writer.fault) <==> FlushUnderWay(s)
  {
    InitInv(queueSize);
    RunKeepsInv(NewSession(queueSize), before);
    var s := Run(NewSession(queueSize), before);
    hide Run;
    StepKeepsInv(s, ShutdownCall(t));
    var s' := Apply(s, ShutdownCall(t));
    ClosingCall(s, t);
    if FlushUnderWay(s) {
      FlushCanPanic(s');
    } else {
      forall steps
        ensures !Run(s', steps).writer.fault
      {
        ClosedRunsAreClean(s', steps);
        RunKeepsInv(s', steps);
      }
    }
  }

  lemma ClosingCall(s: Gate, t: Tid)
    requires Inv(s) && !s.writer.fault && s.closedChCloses <= 1 && Closes(s, ShutdownCall(t))
    ensures var s' := Apply(s, ShutdownCall(t));
            && s'.writer.closed && !s'.writer.fault && s'.closedChCloses <= 1
            && (FlushUnderWay(s') <==> FlushUnderWay(s))
  {
    hide W.Inv;
    var s' := Apply(s, ShutdownCall(t));
    assert t !in s.writer.threads;
    forall u
      ensures At(s', u, Flushing) && u in s'.writer.threads <==> At(s, u, Flushing) && u in s.writer.threads
    {
    }
  }

  lemma {:induction false} ClosedRunsAreClean(s: Gate, steps: seq<Step>)
    requires s.writer.closed
    ensures CleanShutdowns(s, steps)
    decreases |steps|
  {
    if steps != [] {
      ClosedRunsAreClean(Apply(s, steps[0]), steps[1..]);
    }
  }

  // The calls of FinishClose that have not closed the closed channel yet.
  ghost function Finishers(pcs: map<Tid, Pc>): set<Tid> {
    set t | t in pcs && (pcs[t] == Finishing || pcs[t] == FinishShut)
  }

  ghost predicate EachFinishCloses(s: Gate) {
    s.closedChCloses + |Finishers(s.pcs)| == s.finishes
  }

  lemma FinishersAfter(pcs: map<Tid, Pc>, t: Tid, pc: Pc)
    ensures Finishers(pcs - {t}) == Finishers(pcs) - {t}
    ensures Finishers(pcs[t := pc]) == (Finishers(pcs) - {t}) + (if pc == Finishing || pc == FinishShut then {t} else {})
  {
  }

  lemma FinisherMoves(pcs: map<Tid, Pc>, t: Tid, pc: Pc)
    ensures var was, now := Finishers(pcs), Finishers(pcs[t := pc]);
            |now| == |was| - (if t in was then 1 else 0) + (if pc == Finishing || pc == FinishShut then 1 else 0)
    ensures |Finishers(pcs - {t})| == |Finishers(pcs)| - (if t in Finishers(pcs) then 1 else 0)
  {
    FinishersAfter(pcs, t, pc);
    hide Finishers;
  }

  lemma StepKeepsFinishes(s: Gate, a: Step)
    requires EachFinishCloses(s)
    ensures EachFinishCloses(Apply(s, a))
  {
    hide W.Apply;
    match a
    case Enter(t) => FinisherMoves(s.pcs, t, Delivering);
    case Leave(t) => FinisherMoves(s.pcs, t, Delivering);
    case FlushCall(t, _) => FinisherMoves(s.pcs, t, Flushing);
    case Evict(t) => FinisherMoves(s.pcs, t, Evicting);
    case Remove(t) => FinisherMoves(s.pcs, t, Finishing);
    case ShutdownCall(t) => FinisherMoves(s.pcs, t, EvictShut); FinisherMoves(s.pcs, t, FinishShut);
    case RemoveAfterEvict(t) => FinisherMoves(s.pcs, t, Finishing);
    case Release(t) => FinisherMoves(s.pcs, t, Finishing);
    case _ =>
  }

  lemma {:induction false} RunKeepsFinishes(s: Gate, steps: seq<Step>)
    requires EachFinishCloses(s)
    ensures EachFinishCloses(Run(s, steps))
    decreases |steps|
  {
    if steps != [] {
      StepKeepsFinishes(s, steps[0]);
      RunKeepsFinishes(Apply(s, steps[0]), steps[1..]);
    }
  }

  // In every run, flushes included, the closed channel is closed once for each
  // FinishClose that got that far; so the second one panics and the first never.
  lemma ClosedOncePerFinish(queueSize: int, steps: seq<Step>)
    ensures var s := Run(NewSession(queueSize), steps);
            && s.closedChCloses == s.finishes - |Finishers(s.pcs)|
            && (s.finishes <= 1 ==> s.closedChCloses <= 1)
  {
    RunKeepsFinishes(NewSession(queueSize), steps);
  }

  // It does happen: a flush sends without the lock, a removal in between closes
  // the queue under it, and the process panics.
  lemma FlushCanFault(ev: Event)
    ensures Run(NewSession(4),
                [FlushCall(0, ev), Remove(1), ShutdownCall(1), ShutdownNext(1), ShutdownNext(1), Send(0)]).writer.fault
  {
    var s0 := NewSession(4);
    var s3 := Apply(Apply(Apply(s0, FlushCall(0, ev)), Remove(1)), ShutdownCall(1));
    FlushAndRemove(ev);
    QueueClosesUnderSender(s3, ev);
    RunSix(s0, FlushCall(0, ev), Remove(1), ShutdownCall(1), ShutdownNext(1), ShutdownNext(1), Send(0));
  }

  lemma FlushAndRemove(ev: Event)
    ensures var s := Apply(Apply(Apply(NewSession(4), FlushCall(0, ev)), Remove(1)), ShutdownCall(1));
            && At(s, 0, Flushing) && At(s, 1, FinishShut) && s.closedChCloses == 0
            && s.writer.threads == map[0 := W.Sending(ev), 1 := W.AwaitInflight]
            && !s.writer.fault && s.writer.inflight == 0 && !s.writer.queueClosed
  {
  }

  lemma QueueClosesUnderSender(s: Gate, ev: Event)
    requires At(s, 0, Flushing) && At(s, 1, FinishShut) && s.closedChCloses == 0
    requires s.writer.threads == map[0 := W.Sending(ev), 1 := W.AwaitInflight]
    requires !s.writer.fault && s.writer.inflight == 0 && !s.writer.queueClosed
    ensures Apply(Apply(Apply(s, ShutdownNext(1)), ShutdownNext(1)), Send(0)).writer.fault
  {
  }

  lemma RunSix(s: Gate, a: Step, b: Step, c: Step, d: Step, e: Step, f: Step)
    ensures Run(s, [a, b, c, d, e, f]) == Apply(Apply(Apply(Apply(Apply(Apply(s, a), b), c), d), e), f)
  {
    var s1 := Apply(s, a);
    var s2 := Apply(s1, b);
    var s3 := Apply(s2, c);
    var s4 := Apply(s3, d);
    var s5 := Apply(s4, e);
    assert Run(s5, [f]) == Apply(s5, f);
    assert Run(s4, [e, f]) == Run(s5, [f]);
    assert Run(s3, [d, e, f]) == Run(s4, [e, f]);
    assert Run(s2, [c, d, e, f]) == Run(s3, [d, e, f]);
    assert Run(s1, [b, c, d, e, f]) == Run(s2, [c, d, e, f]);
  }
}
