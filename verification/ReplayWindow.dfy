// The replay window against live traffic: any number of deliveries, replays
// and closings of one session between two reconnects.
//
// Deliver, ReplayWrite and EndReplay's locked part run under the session lock
// and are one step each; the flush that EndReplay does after unlocking offers
// one event per step, so live deliveries can fall between.
module ReplayMachine {
  import opened Types

  // What the queue took, with histories: a live event carries its arrival
  // number and the number of windows opened before it arrived; a replayed event
  // carries the number of its window.
  datatype Item =
    | Live(ev: Event, arrival: nat, stamp: nat)
    | Replayed(ev: Event, window: nat)

  datatype Pc =
    | Replaying(window: nat, todo: seq<Event>)    // between BeginReplay and EndReplay
    | Flushing(window: nat, rest: seq<Item>)      // EndReplay after unlocking

  // arrivals, windows, buffered, offered, cleared, fetched and stopped are
  // histories: how many live events arrived, how many windows were opened, and for
  // each window what was buffered in it, what its flush has offered, whether
  // FinishClose emptied it, the events its replay fetched, and whether a write of
  // it failed.
  datatype Session = Session(
    state: ConnState,
    replaying: bool,
    buffer: seq<Item>,
    queue: seq<Item>,
    threads: map<Tid, Pc>,
    arrivals: nat,
    windows: nat,
    buffered: map<nat, seq<Item>>,
    offered: map<nat, seq<Item>>,
    cleared: set<nat>,
    fetched: map<nat, seq<Event>>,
    stopped: set<nat>)

  datatype Step =
    | Deliver(ev: Event, accepted: bool)
    | BeginReplay(t: Tid, events: seq<Event>)
    | ReplayWrite(t: Tid, accepted: bool)
    | EndReplay(t: Tid)
    | FlushNext(t: Tid, accepted: bool)
    | Suspect
    | BeginClose
    | FinishClose

  function NewSession(): Session {
    Session(Active, false, [], [], map[], 0, 0, map[], map[], {}, map[], {})
  }

  function DeliverStep(s: Session, ev: Event, accepted: bool): Session {
    if !s.state.Accepting() then s
    else
      var item := Live(ev, s.arrivals, s.windows);
      if s.replaying then
        s.(buffer := s.buffer + [item], arrivals := s.arrivals + 1,
           buffered := s.buffered[s.windows := s.buffer + [item]])
      else if accepted then s.(queue := s.queue + [item], arrivals := s.arrivals + 1)
      else s.(arrivals := s.arrivals + 1)
  }

  // events is what the source will return inside the window.
  function BeginStep(s: Session, t: Tid, events: seq<Event>): Session {
    if t in s.threads || !s.state.Accepting() || s.replaying then s
    else
      var w := s.windows + 1;
      s.(replaying := true, buffer := [], windows := w, threads := s.threads[t := Replaying(w, events)],
         buffered := s.buffered[w := []], offered := s.offered[w := []], fetched := s.fetched[w := events])
  }

  // One turn of the replay's loop; the first write that fails ends it.
  function WriteStep(s: Session, t: Tid, window: nat, todo: seq<Event>, accepted: bool): Session {
    if todo == [] then s
    else if s.state.Accepting() && accepted then
      s.(queue := s.queue + [Replayed(todo[0], window)], threads := s.threads[t := Replaying(window, todo[1..])])
    else s.(threads := s.threads[t := Replaying(window, [])], stopped := s.stopped + {window})
  }

  function EndStep(s: Session, t: Tid, window: nat): Session {
    s.(replaying := false, buffer := [], threads := s.threads[t := Flushing(window, s.buffer)])
  }

  function At(m: map<nat, seq<Item>>, w: nat): seq<Item> {
    if w in m then m[w] else []
  }

  // One turn of the flush loop; the result of the offer is ignored.
  function FlushStep(s: Session, t: Tid, window: nat, rest: seq<Item>, accepted: bool): Session {
    if rest == [] then s.(threads := s.threads - {t})
    else
      s.(queue := if accepted then s.queue + [rest[0]] else s.queue,
         threads := s.threads[t := Flushing(window, rest[1..])],
         offered := s.offered[window := At(s.offered, window) + [rest[0]]])
  }

  function Apply(s: Session, a: Step): Session {
    match a
    case Deliver(ev, accepted) => DeliverStep(s, ev, accepted)
    case BeginReplay(t, events) => BeginStep(s, t, events)
    case ReplayWrite(t, accepted) =>
      if t in s.threads && s.threads[t].Replaying?
      then WriteStep(s, t, s.threads[t].window, s.threads[t].todo, accepted) else s
    case EndReplay(t) =>
      if t in s.threads && s.threads[t].Replaying? && s.threads[t].todo == []
      then EndStep(s, t, s.threads[t].window) else s
    case FlushNext(t, accepted) =>
      if t in s.threads && s.threads[t].Flushing?
      then FlushStep(s, t, s.threads[t].window, s.threads[t].rest, accepted) else s
    case Suspect => if s.state.Active? then s.(state := Suspected) else s
    case BeginClose => if s.state.Accepting() then s.(state := Closing) else s
    case FinishClose =>
      s.(state := Closed, replaying := false, buffer := [],
         cleared := if s.replaying then s.cleared + {s.windows} else s.cleared)
  }

  function Run(s: Session, steps: seq<Step>): Session
    decreases |steps|
  {
    if steps == [] then s else Run(Apply(s, steps[0]), steps[1..])
  }

  // ---- Replay before live.

  ghost predicate StampedAt(items: seq<Item>, w: nat) {
    forall i | 0 <= i < |items| :: items[i].Live? && items[i].stamp == w
  }

  // A live event that is queued before a replayed one arrived before that
  // replay's window was opened.
  ghost predicate ReplayFirst(queue: seq<Item>) {
    forall i, j | 0 <= i < j < |queue| && queue[i].Live? && queue[j].Replayed? :: queue[i].stamp < queue[j].window
  }

  // Every queued live event arrived in a window up to w.
  ghost predicate StampedUpTo(queue: seq<Item>, w: nat) {
    forall i | 0 <= i < |queue| && queue[i].Live? :: queue[i].stamp <= w
  }

  // While a window is open no live event of its time has been queued.
  ghost predicate QueueInv(s: Session) {
    && ReplayFirst(s.queue)
    && StampedUpTo(s.queue, s.windows)
    && (s.replaying ==> s.windows >= 1 && StampedUpTo(s.queue, s.windows - 1))
  }

  ghost predicate WindowInv(s: Session) {
    && QueueInv(s)
    // Until the session is closed, a running replay belongs to the open window.
    && (forall t | t in s.threads && s.threads[t].Replaying? && !s.state.Closed? ::
          s.replaying && s.threads[t].window == s.windows)
    && (forall t, u | t in s.threads && u in s.threads && t != u :: s.threads[t].window != s.threads[u].window)
    && (forall t | t in s.threads :: 1 <= s.threads[t].window <= s.windows)
    && (s.state.Closed? ==> !s.replaying)
    && StampedAt(s.buffer, s.windows)
    && (!s.replaying ==> s.buffer == [])
    && (forall t | t in s.threads && s.threads[t].Flushing? ::
          StampedAt(s.threads[t].rest, s.threads[t].window) && (s.replaying ==> s.threads[t].window < s.windows))
  }

  lemma QueueTakes(queue: seq<Item>, x: Item, w: nat)
    requires ReplayFirst(queue) && StampedUpTo(queue, w)
    requires x.Live? ==> x.stamp <= w
    requires x.Replayed? ==> w < x.window
    ensures ReplayFirst(queue + [x]) && StampedUpTo(queue + [x], w)
  {
  }

  lemma DeliverKeepsWindowInv(s: Session, ev: Event, accepted: bool)
    requires WindowInv(s)
    ensures WindowInv(DeliverStep(s, ev, accepted))
  {
    QueueTakes(s.queue, Live(ev, s.arrivals, s.windows), s.windows);
  }

  lemma BeginKeepsWindowInv(s: Session, t: Tid, events: seq<Event>)
    requires WindowInv(s)
    ensures WindowInv(BeginStep(s, t, events))
  {
  }

  lemma WriteKeepsWindowInv(s: Session, t: Tid, accepted: bool)
    requires WindowInv(s) && t in s.threads && s.threads[t].Replaying?
    ensures WindowInv(WriteStep(s, t, s.threads[t].window, s.threads[t].todo, accepted))
  {
    hide ReplayFirst, StampedUpTo;
    var todo := s.threads[t].todo;
    if s.state.Accepting() && todo != [] {
      QueueTakes(s.queue, Replayed(todo[0], s.windows), s.windows - 1);
      UpToMore(s.queue + [Replayed(todo[0], s.windows)], s.windows - 1, s.windows);
    }
  }

  lemma UpToMore(queue: seq<Item>, w: nat, w': nat)
    requires StampedUpTo(queue, w) && w <= w'
    ensures StampedUpTo(queue, w')
  {
  }

  lemma EndKeepsWindowInv(s: Session, t: Tid)
    requires WindowInv(s) && t in s.threads && s.threads[t].Replaying?
    ensures WindowInv(EndStep(s, t, s.threads[t].window))
  {
  }

  lemma FlushKeepsWindowInv(s: Session, t: Tid, accepted: bool)
    requires WindowInv(s) && t in s.threads && s.threads[t].Flushing?
    ensures WindowInv(FlushStep(s, t, s.threads[t].window, s.threads[t].rest, accepted))
  {
    hide ReplayFirst, StampedUpTo;
    var w, rest := s.threads[t].window, s.threads[t].rest;
    if rest != [] {
      assert StampedAt(rest, w);
      assert StampedAt(rest[1..], w);
      QueueTakes(s.queue, rest[0], s.windows);
      if s.replaying {
        QueueTakes(s.queue, rest[0], s.windows - 1);
      }
    }
  }

  lemma StepKeepsWindowInv(s: Session, a: Step)
    requires WindowInv(s)
    ensures WindowInv(Apply(s, a))
  {
    match a
    case Deliver(ev, accepted) => DeliverKeepsWindowInv(s, ev, accepted);
    case BeginReplay(t, events) => BeginKeepsWindowInv(s, t, events);
    case ReplayWrite(t, accepted) => if Apply(s, a) != s { WriteKeepsWindowInv(s, t, accepted); }
    case EndReplay(t) => if Apply(s, a) != s { EndKeepsWindowInv(s, t); }
    case FlushNext(t, accepted) => if Apply(s, a) != s { FlushKeepsWindowInv(s, t, accepted); }
    case _ =>
  }

  lemma {:induction false} RunKeepsWindowInv(s: Session, steps: seq<Step>)
    requires WindowInv(s)
    ensures WindowInv(Run(s, steps))
    decreases |steps|
  {
    if steps != [] {
      StepKeepsWindowInv(s, steps[0]);
      RunKeepsWindowInv(Apply(s, steps[0]), steps[1..]);
    }
  }

  // In every run each accepted replayed event is queued before every live event
  // that arrived after its window was opened, buffered or not.
  lemma ReplayPrecedesLive(steps: seq<Step>)
    ensures ReplayFirst(Run(NewSession(), steps).queue)
  {
    RunKeepsWindowInv(NewSession(), steps);
  }

  // ---- The flush offers what was buffered, once and in order.

  ghost predicate Ascending(items: seq<Item>) {
    && (forall i | 0 <= i < |items| :: items[i].Live?)
    && (forall i, j | 0 <= i < j < |items| :: items[i].arrival < items[j].arrival)
  }

  // The offers of one window: a prefix of what was buffered, in arrival order,
  // and nothing at all if FinishClose emptied the window.
  ghost predicate OfferOk(buffered: seq<Item>, offered: seq<Item>, arrivals: nat, cleared: bool) {
    && Ascending(buffered)
    && (forall i | 0 <= i < |buffered| :: buffered[i].arrival < arrivals)
    && offered <= buffered
    && (cleared ==> offered == [])
  }

  ghost predicate OffersOk(s: Session) {
    forall w: nat :: OfferOk(At(s.buffered, w), At(s.offered, w), s.arrivals, w in s.cleared)
  }

  ghost predicate Unfinished(s: Session, w: nat) {
    exists t :: t in s.threads && s.threads[t].window == w
  }

  // How far the offers of each window have come.
  ghost predicate Progress(s: Session) {
    && (forall w: nat | w > s.windows :: w !in s.cleared && At(s.buffered, w) == [] && At(s.offered, w) == [])
    // The open window holds its buffer back, and its replay is still running.
    && (s.replaying ==>
          && s.windows !in s.cleared
          && At(s.offered, s.windows) == []
          && At(s.buffered, s.windows) == s.buffer
          && Unfinished(s, s.windows))
    // A window that is not open any more was emptied, or its thread flushes it.
    && (forall t | t in s.threads && s.threads[t].Replaying? && s.state.Closed? :: s.threads[t].window in s.cleared)
    && (forall t | t in s.threads && s.threads[t].Flushing? ::
          if s.threads[t].window in s.cleared then s.threads[t].rest == []
          else At(s.offered, s.threads[t].window) + s.threads[t].rest == At(s.buffered, s.threads[t].window))
    && (forall w: nat | w !in s.cleared && At(s.offered, w) != At(s.buffered, w) :: Unfinished(s, w))
  }

  ghost predicate OfferInv(s: Session) {
    WindowInv(s) && OffersOk(s) && Progress(s)
  }

  lemma SameThreads(s: Session, s': Session)
    requires forall t | t in s.threads :: t in s'.threads && s'.threads[t].window == s.threads[t].window
    ensures forall w | Unfinished(s, w) :: Unfinished(s', w)
  {
  }

  // The open window takes the newest arrival.
  lemma OfferTakes(s: Session, item: Item)
    requires OfferOk(s.buffer, [], s.arrivals, false) && item.Live? && item.arrival == s.arrivals
    ensures OfferOk(s.buffer + [item], [], s.arrivals + 1, false)
  {
  }

  lemma OfferLater(buffered: seq<Item>, offered: seq<Item>, n: nat, m: nat, cleared: bool)
    requires OfferOk(buffered, offered, n, cleared) && n <= m
    ensures OfferOk(buffered, offered, m, cleared)
  {
  }

  lemma DeliverKeepsOffers(s: Session, ev: Event, accepted: bool)
    requires OfferInv(s)
    ensures OffersOk(DeliverStep(s, ev, accepted))
  {
    var s' := DeliverStep(s, ev, accepted);
    assert OfferOk(At(s.buffered, s.windows), At(s.offered, s.windows), s.arrivals, s.windows in s.cleared);
    if s.replaying {
      OfferTakes(s, Live(ev, s.arrivals, s.windows));
    }
    hide OfferOk, WindowInv, Unfinished;
    forall w: nat
      ensures OfferOk(At(s'.buffered, w), At(s'.offered, w), s'.arrivals, w in s'.cleared)
    {
      OfferLater(At(s.buffered, w), At(s.offered, w), s.arrivals, s'.arrivals, w in s.cleared);
    }
  }

  lemma DeliverKeepsProgress(s: Session, ev: Event, accepted: bool)
    requires WindowInv(s) && Progress(s)
    ensures Progress(DeliverStep(s, ev, accepted))
  {
    hide QueueInv;
    var s' := DeliverStep(s, ev, accepted);
    SameThreads(s, s');
    assert forall w | w != s.windows :: At(s'.buffered, w) == At(s.buffered, w);
  }

  lemma BeginKeepsOffers(s: Session, t: Tid, events: seq<Event>)
    requires OffersOk(s)
    ensures OffersOk(BeginStep(s, t, events))
  {
    var s' := BeginStep(s, t, events);
    forall w: nat
      ensures OfferOk(At(s'.buffered, w), At(s'.offered, w), s'.arrivals, w in s'.cleared)
    {
      assert OfferOk(At(s.buffered, w), At(s.offered, w), s.arrivals, w in s.cleared);
    }
  }

  lemma BeginKeepsProgress(s: Session, t: Tid, events: seq<Event>)
    requires WindowInv(s) && Progress(s)
    ensures Progress(BeginStep(s, t, events))
  {
    hide QueueInv;
    var s' := BeginStep(s, t, events);
    if s' != s {
      SameThreads(s, s');
      assert s'.threads[t].window == s'.windows;
      assert forall w | w != s'.windows :: At(s'.buffered, w) == At(s.buffered, w) && At(s'.offered, w) == At(s.offered, w);
      assert Unfinished(s', s'.windows);
    }
  }

  lemma EndKeepsProgress(s: Session, t: Tid)
    requires WindowInv(s) && Progress(s) && t in s.threads && s.threads[t].Replaying?
    ensures Progress(EndStep(s, t, s.threads[t].window))
  {
    hide QueueInv;
    SameThreads(s, EndStep(s, t, s.threads[t].window));
  }

  lemma FlushKeepsOffers(s: Session, t: Tid, accepted: bool)
    requires OfferInv(s) && t in s.threads && s.threads[t].Flushing?
    ensures OffersOk(FlushStep(s, t, s.threads[t].window, s.threads[t].rest, accepted))
  {
    var w, rest := s.threads[t].window, s.threads[t].rest;
    var s' := FlushStep(s, t, w, rest, accepted);
    forall v: nat
      ensures OfferOk(At(s'.buffered, v), At(s'.offered, v), s'.arrivals, v in s'.cleared)
    {
      assert OfferOk(At(s.buffered, v), At(s.offered, v), s.arrivals, v in s.cleared);
      if v == w && rest != [] {
        assert At(s.offered, w) + rest == (At(s.offered, w) + [rest[0]]) + rest[1..];
      }
    }
  }

  lemma FlushEndKeepsProgress(s: Session, t: Tid)
    requires WindowInv(s) && Progress(s) && t in s.threads && s.threads[t].Flushing? && s.threads[t].rest == []
    ensures Progress(s.(threads := s.threads - {t}))
  {
    hide QueueInv;
    var w := s.threads[t].window;
    var s' := s.(threads := s.threads - {t});
    assert At(s.offered, w) + [] == At(s.offered, w);
    forall v | Unfinished(s, v) && v != w
      ensures Unfinished(s', v)
    {
      var u :| u in s.threads && s.threads[u].window == v;
      assert s'.threads[u].window == v;
    }
  }

  lemma FlushKeepsProgress(s: Session, t: Tid, accepted: bool)
    requires WindowInv(s) && Progress(s) && t in s.threads && s.threads[t].Flushing?
    ensures Progress(FlushStep(s, t, s.threads[t].window, s.threads[t].rest, accepted))
  {
    hide QueueInv, StampedAt, Unfinished;
    var w, rest := s.threads[t].window, s.threads[t].rest;
    var s' := FlushStep(s, t, w, rest, accepted);
    if rest == [] {
      FlushEndKeepsProgress(s, t);
    } else {
      SameThreads(s, s');
      assert At(s.offered, w) + rest == (At(s.offered, w) + [rest[0]]) + rest[1..];
      assert forall v | v != w :: At(s'.offered, v) == At(s.offered, v);
    }
  }

  lemma FinishKeepsOffers(s: Session)
    requires OfferInv(s)
    ensures OffersOk(Apply(s, FinishClose)) && Progress(Apply(s, FinishClose))
  {
    hide QueueInv;
    var s' := Apply(s, FinishClose);
    SameThreads(s, s');
    forall w: nat
      ensures OfferOk(At(s'.buffered, w), At(s'.offered, w), s'.arrivals, w in s'.cleared)
    {
      assert OfferOk(At(s.buffered, w), At(s.offered, w), s.arrivals, w in s.cleared);
    }
  }

  // The same threads are at the same windows, flushes as far as they were.
  ghost predicate SameWindows(s: Session, s': Session) {
    && s'.threads.Keys == s.threads.Keys
    && (forall t | t in s.threads ::
          if s.threads[t].Flushing? then s'.threads[t] == s.threads[t]
          else s'.threads[t].Replaying? && s'.threads[t].window == s.threads[t].window)
  }

  lemma UntouchedWindows(s: Session, s': Session)
    requires OffersOk(s) && Progress(s)
    requires s'.buffered == s.buffered && s'.offered == s.offered && s'.cleared == s.cleared
    requires s'.windows == s.windows && SameWindows(s, s') && s'.arrivals == s.arrivals
    requires s'.replaying == s.replaying && s'.buffer == s.buffer && (s'.state.Closed? <==> s.state.Closed?)
    ensures OffersOk(s') && Progress(s')
  {
    SameThreads(s, s');
    hide Unfinished, OfferOk;
  }

  lemma EndKeepsOffers(s: Session, t: Tid)
    requires OffersOk(s) && t in s.threads && s.threads[t].Replaying?
    ensures OffersOk(EndStep(s, t, s.threads[t].window))
  {
    hide OfferOk;
  }

  lemma WriteTouches(s: Session, t: Tid, accepted: bool)
    requires t in s.threads && s.threads[t].Replaying?
    ensures var s' := WriteStep(s, t, s.threads[t].window, s.threads[t].todo, accepted);
            s' == s.(queue := s'.queue, threads := s'.threads, stopped := s'.stopped) && SameWindows(s, s')
  {
    var s' := WriteStep(s, t, s.threads[t].window, s.threads[t].todo, accepted);
    assert s'.threads.Keys == s.threads.Keys;
  }

  lemma OtherStep(s: Session, a: Step)
    requires a.ReplayWrite? || a.Suspect? || a.BeginClose?
    ensures var s' := Apply(s, a);
            && s' == s.(queue := s'.queue, threads := s'.threads, stopped := s'.stopped, state := s'.state)
            && SameWindows(s, s') && (s'.state.Closed? <==> s.state.Closed?)
  {
    if a.ReplayWrite? && a.t in s.threads && s.threads[a.t].Replaying? {
      WriteTouches(s, a.t, a.accepted);
      hide WriteStep;
    }
  }

  lemma StepKeepsOfferInv(s: Session, a: Step)
    requires OfferInv(s)
    ensures OfferInv(Apply(s, a))
  {
    hide WindowInv, OffersOk, Progress, SameWindows, DeliverStep, BeginStep, WriteStep, EndStep, FlushStep;
    StepKeepsWindowInv(s, a);
    var s' := Apply(s, a);
    if a.ReplayWrite? || a.Suspect? || a.BeginClose? {
      OtherStep(s, a);
      UntouchedWindows(s, s');
    } else if s' != s {
      match a
      case Deliver(ev, accepted) =>
        DeliverKeepsOffers(s, ev, accepted);
        DeliverKeepsProgress(s, ev, accepted);
      case BeginReplay(t, events) =>
        BeginKeepsOffers(s, t, events);
        BeginKeepsProgress(s, t, events);
      case EndReplay(t) =>
        EndKeepsOffers(s, t);
        EndKeepsProgress(s, t);
      case FlushNext(t, accepted) =>
        FlushKeepsOffers(s, t, accepted);
        FlushKeepsProgress(s, t, accepted);
      case FinishClose => FinishKeepsOffers(s);
    }
  }

  lemma {:induction false} RunKeepsOfferInv(s: Session, steps: seq<Step>)
    requires OfferInv(s)
    ensures OfferInv(Run(s, steps))
    decreases |steps|
  {
    hide OfferInv;
    if steps != [] {
      StepKeepsOfferInv(s, steps[0]);
      RunKeepsOfferInv(Apply(s, steps[0]), steps[1..]);
    }
  }

  // In every run the flush offers what was buffered in its window in arrival
  // order; once its thread is gone every buffered event has been offered exactly
  // once, unless FinishClose emptied the window, and then none was.
  lemma BufferedIsOfferedOnce(steps: seq<Step>, w: nat)
    ensures var s := Run(NewSession(), steps);
            && Ascending(At(s.buffered, w))
            && At(s.offered, w) <= At(s.buffered, w)
            && (w in s.cleared ==> At(s.offered, w) == [])
            && (w !in s.cleared && !Unfinished(s, w) ==> At(s.offered, w) == At(s.buffered, w))
  {
    RunKeepsOfferInv(NewSession(), steps);
    var s := Run(NewSession(), steps);
    assert OfferOk(At(s.buffered, w), At(s.offered, w), s.arrivals, w in s.cleared);
  }

  // ---- What a replay queues.

  function ReplayedOf(queue: seq<Item>, w: nat): seq<Event> {
    if queue == [] then []
    else
      var rest := ReplayedOf(queue[..|queue| - 1], w);
      var last := queue[|queue| - 1];
      if last.Replayed? && last.window == w then rest + [last.ev] else rest
  }

  lemma ReplayedSnoc(queue: seq<Item>, x: Item, w: nat)
    ensures ReplayedOf(queue + [x], w) ==
            ReplayedOf(queue, w) + if x.Replayed? && x.window == w then [x.ev] else []
  {
    assert (queue + [x])[..|queue|] == queue;
  }

  function FetchedBy(s: Session, w: nat): seq<Event> {
    if w in s.fetched then s.fetched[w] else []
  }

  ghost predicate ReplayUnderWay(s: Session, w: nat) {
    exists t :: t in s.threads && s.threads[t].Replaying? && s.threads[t].window == w
  }

  // A window's replay has queued a prefix of what it fetched; what it has still to
  // write completes that, unless a write failed.
  ghost predicate ContentInv(s: Session) {
    && (forall w: nat :: ReplayedOf(s.queue, w) <= FetchedBy(s, w))
    && (forall w: nat | w > s.windows :: ReplayedOf(s.queue, w) == FetchedBy(s, w) == [])
    && (forall t | t in s.threads && s.threads[t].Replaying? ::
          if s.threads[t].window in s.stopped then s.threads[t].todo == []
          else ReplayedOf(s.queue, s.threads[t].window) + s.threads[t].todo == FetchedBy(s, s.threads[t].window))
    && (forall w: nat | w !in s.stopped && ReplayedOf(s.queue, w) != FetchedBy(s, w) :: ReplayUnderWay(s, w))
    && (forall w | w in s.stopped :: w <= s.windows)
  }

  lemma BeginKeepsContent(s: Session, t: Tid, events: seq<Event>)
    requires WindowInv(s) && ContentInv(s)
    ensures ContentInv(BeginStep(s, t, events))
  {
    hide QueueInv, StampedAt, ReplayedOf;
    var s' := BeginStep(s, t, events);
    if s' != s {
      assert s'.threads[t].window == s'.windows;
      assert ReplayUnderWay(s', s'.windows);
      assert forall w | w != s'.windows :: FetchedBy(s', w) == FetchedBy(s, w);
    }
  }

  lemma StillUnderWay(s: Session, s': Session, v: nat)
    requires ReplayUnderWay(s, v)
    requires forall u | u in s.threads && s.threads[u].Replaying? && s.threads[u].window == v ::
               u in s'.threads && s'.threads[u].Replaying? && s'.threads[u].window == v
    ensures ReplayUnderWay(s', v)
  {
    var u :| u in s.threads && s.threads[u].Replaying? && s.threads[u].window == v;
    assert s'.threads[u].window == v;
  }

  lemma AcceptedWrite(s: Session, t: Tid)
    requires t in s.threads && s.threads[t].Replaying? && s.threads[t].todo != [] && s.state.Accepting()
    ensures var w, todo := s.threads[t].window, s.threads[t].todo;
            var s' := WriteStep(s, t, w, todo, true);
            && s' == s.(queue := s'.queue, threads := s.threads[t := Replaying(w, todo[1..])])
            && (forall v: nat ::
                  ReplayedOf(s'.queue, v) == ReplayedOf(s.queue, v) + if v == w then [todo[0]] else [])
  {
    var w, todo := s.threads[t].window, s.threads[t].todo;
    forall v: nat
      ensures ReplayedOf(s.queue + [Replayed(todo[0], w)], v) ==
              ReplayedOf(s.queue, v) + if v == w then [todo[0]] else []
    {
      ReplayedSnoc(s.queue, Replayed(todo[0], w), v);
    }
  }

  lemma AcceptedWriteKeepsContent(s: Session, t: Tid)
    requires WindowInv(s) && ContentInv(s) && t in s.threads && s.threads[t].Replaying? && s.threads[t].todo != []
    requires s.state.Accepting()
    ensures ContentInv(WriteStep(s, t, s.threads[t].window, s.threads[t].todo, true))
  {
    hide QueueInv, StampedAt, ReplayedOf, ReplayUnderWay, WriteStep;
    var w, todo := s.threads[t].window, s.threads[t].todo;
    var s' := WriteStep(s, t, w, todo, true);
    AcceptedWrite(s, t);
    var more := ReplayedOf(s.queue, w) + [todo[0]];
    assert FetchedBy(s, w) == ReplayedOf(s.queue, w) + todo == more + todo[1..];
    assert more <= FetchedBy(s, w) && ReplayedOf(s'.queue, w) == more;
    assert w !in s.stopped && w <= s.windows;
    assert forall v: nat :: FetchedBy(s', v) == FetchedBy(s, v);
    assert forall v: nat | v != w :: ReplayedOf(s'.queue, v) == ReplayedOf(s.queue, v);
    forall v | ReplayUnderWay(s, v)
      ensures ReplayUnderWay(s', v)
    {
      StillUnderWay(s, s', v);
    }
    ThisUnderWay(s', t);
  }

  lemma ThisUnderWay(s: Session, t: Tid)
    requires t in s.threads && s.threads[t].Replaying?
    ensures ReplayUnderWay(s, s.threads[t].window)
  {
  }

  lemma FailedWriteKeepsContent(s: Session, t: Tid, accepted: bool)
    requires WindowInv(s) && ContentInv(s) && t in s.threads && s.threads[t].Replaying? && s.threads[t].todo != []
    requires !(s.state.Accepting() && accepted)
    ensures ContentInv(WriteStep(s, t, s.threads[t].window, s.threads[t].todo, accepted))
  {
    hide QueueInv, StampedAt, ReplayedOf, ReplayUnderWay;
    var w, todo := s.threads[t].window, s.threads[t].todo;
    var s' := WriteStep(s, t, w, todo, accepted);
    forall v | ReplayUnderWay(s, v)
      ensures ReplayUnderWay(s', v)
    {
      StillUnderWay(s, s', v);
    }
    assert forall v :: FetchedBy(s', v) == FetchedBy(s, v);
  }

  lemma WriteKeepsContent(s: Session, t: Tid, accepted: bool)
    requires WindowInv(s) && ContentInv(s) && t in s.threads && s.threads[t].Replaying?
    ensures ContentInv(WriteStep(s, t, s.threads[t].window, s.threads[t].todo, accepted))
  {
    hide WindowInv, ContentInv;
    if s.threads[t].todo == [] {
    } else if s.state.Accepting() && accepted {
      AcceptedWriteKeepsContent(s, t);
    } else {
      FailedWriteKeepsContent(s, t, accepted);
    }
  }

  // Ending the replay: whatever was not stopped is complete.
  lemma EndKeepsContent(s: Session, t: Tid)
    requires WindowInv(s) && ContentInv(s) && t in s.threads && s.threads[t].Replaying? && s.threads[t].todo == []
    ensures ContentInv(EndStep(s, t, s.threads[t].window))
  {
    hide QueueInv, StampedAt, ReplayedOf, ReplayUnderWay;
    var w := s.threads[t].window;
    var s' := EndStep(s, t, w);
    assert ReplayedOf(s.queue, w) + [] == ReplayedOf(s.queue, w);
    assert w !in s.stopped ==> ReplayedOf(s'.queue, w) == FetchedBy(s', w);
    assert forall v: nat :: FetchedBy(s', v) == FetchedBy(s, v) && ReplayedOf(s'.queue, v) == ReplayedOf(s.queue, v);
    forall v | ReplayUnderWay(s, v) && v != w
      ensures ReplayUnderWay(s', v)
    {
      StillUnderWay(s, s', v);
    }
  }

  // A step that queues live events only.
  lemma LiveKeepsContent(s: Session, s': Session)
    requires ContentInv(s)
    requires s'.queue == s.queue || exists x: Item :: x.Live? && s'.queue == s.queue + [x]
    requires s'.windows == s.windows && s'.fetched == s.fetched && s'.stopped == s.stopped
    requires forall t | t in s'.threads && s'.threads[t].Replaying? :: t in s.threads && s'.threads[t] == s.threads[t]
    requires forall t | t in s.threads && s.threads[t].Replaying? :: t in s'.threads && s'.threads[t] == s.threads[t]
    ensures ContentInv(s')
  {
    hide ReplayedOf;
    forall w: nat
      ensures ReplayedOf(s'.queue, w) == ReplayedOf(s.queue, w)
    {
      if s'.queue != s.queue {
        var x: Item :| x.Live? && s'.queue == s.queue + [x];
        ReplayedSnoc(s.queue, x, w);
      }
    }
    forall w | ReplayUnderWay(s, w)
      ensures ReplayUnderWay(s', w)
    {
      StillUnderWay(s, s', w);
    }
    hide ReplayUnderWay;
    assert forall w :: FetchedBy(s', w) == FetchedBy(s, w);
  }

  lemma LiveStepQueue(s: Session, a: Step)
    requires WindowInv(s) && !a.BeginReplay? && !a.ReplayWrite? && !a.EndReplay?
    ensures var s' := Apply(s, a);
            && (s'.queue == s.queue || exists x: Item :: x.Live? && s'.queue == s.queue + [x])
            && s'.windows == s.windows && s'.fetched == s.fetched && s'.stopped == s.stopped
  {
    hide QueueInv;
    if a.FlushNext? && a.t in s.threads && s.threads[a.t].Flushing? && s.threads[a.t].rest != [] {
      assert StampedAt(s.threads[a.t].rest, s.threads[a.t].window);
      assert s.threads[a.t].rest[0].Live?;
    }
  }

  lemma LiveStep(s: Session, a: Step)
    requires WindowInv(s) && !a.BeginReplay? && !a.ReplayWrite? && !a.EndReplay?
    ensures var s' := Apply(s, a);
            && (s'.queue == s.queue || exists x: Item :: x.Live? && s'.queue == s.queue + [x])
            && s'.windows == s.windows && s'.fetched == s.fetched && s'.stopped == s.stopped
            && (forall t | t in s'.threads && s'.threads[t].Replaying? :: t in s.threads && s'.threads[t] == s.threads[t])
            && (forall t | t in s.threads && s.threads[t].Replaying? :: t in s'.threads && s'.threads[t] == s.threads[t])
  {
    LiveStepQueue(s, a);
    hide WindowInv;
  }

  lemma {:induction false} RunKeepsContent(s: Session, steps: seq<Step>)
    requires WindowInv(s) && ContentInv(s)
    ensures ContentInv(Run(s, steps))
    decreases |steps|
  {
    if steps != [] {
      var a, s1 := steps[0], Apply(s, steps[0]);
      StepKeepsWindowInv(s, a);
      hide WindowInv, ContentInv;
      match a {
        case BeginReplay(t, events) => BeginKeepsContent(s, t, events);
        case ReplayWrite(t, accepted) => if s1 != s { WriteKeepsContent(s, t, accepted); }
        case EndReplay(t) => if s1 != s { EndKeepsContent(s, t); }
        case _ =>
          LiveStep(s, a);
          LiveKeepsContent(s, s1);
      }
      RunKeepsContent(s1, steps[1..]);
    }
  }

  lemma InitContent()
    ensures WindowInv(NewSession()) && ContentInv(NewSession())
  {
  }

  // In every run, whatever closes or delivers in between: what the queue has of a
  // window's replay is a prefix of the events fetched, in order; once the replay
  // is over it is all of them, unless a write failed.
  lemma ReplayQueuesWhatItFetched(steps: seq<Step>, w: nat)
    ensures var s := Run(NewSession(), steps);
            && ReplayedOf(s.queue, w) <= FetchedBy(s, w)
            && (w !in s.stopped && !ReplayUnderWay(s, w) ==> ReplayedOf(s.queue, w) == FetchedBy(s, w))
  {
    InitContent();
    RunKeepsContent(NewSession(), steps);
    hide Run;
  }

  // ---- The order among live events.

  ghost predicate Before(xs: seq<Item>, ys: seq<Item>) {
    forall i, j | 0 <= i < |xs| && 0 <= j < |ys| && xs[i].Live? && ys[j].Live? :: xs[i].arrival < ys[j].arrival
  }

  ghost predicate Arrived(xs: seq<Item>, n: nat) {
    forall i | 0 <= i < |xs| && xs[i].Live? :: xs[i].arrival < n
  }

  ghost predicate Apart(xs: seq<Item>, ys: seq<Item>) {
    forall i, j | 0 <= i < |xs| && 0 <= j < |ys| && xs[i].Live? && ys[j].Live? :: xs[i].arrival != ys[j].arrival
  }

  // What a flush still has to offer.
  function Rest(s: Session, t: Tid): seq<Item> {
    if t in s.threads && s.threads[t].Flushing? then s.threads[t].rest else []
  }

  // The live events that wait, in buffers and flushes, are in arrival order.
  ghost predicate WaitingInv(s: Session) {
    && Ascending(s.buffer) && Arrived(s.buffer, s.arrivals)
    && (forall t :: Ascending(Rest(s, t)) && Arrived(Rest(s, t), s.arrivals) && Before(Rest(s, t), s.buffer))
    && (forall t, u | t != u :: Apart(Rest(s, t), Rest(s, u)))
  }

  ghost predicate LiveInOrder(queue: seq<Item>) {
    forall i, j | 0 <= i < j < |queue| && queue[i].Live? && queue[j].Live? :: queue[i].arrival < queue[j].arrival
  }

  // The queue has the live events in arrival order, ahead of all that wait.
  ghost predicate InOrder(s: Session) {
    && LiveInOrder(s.queue) && Arrived(s.queue, s.arrivals)
    && Before(s.queue, s.buffer)
    && (forall t :: Before(s.queue, Rest(s, t)))
  }

  // The live event that a step puts on the queue, if it does.
  function Queued(s: Session, a: Step): seq<Item> {
    match a
    case Deliver(ev, accepted) =>
      if s.state.Accepting() && !s.replaying && accepted then [Live(ev, s.arrivals, s.windows)] else []
    case FlushNext(t, accepted) => if Rest(s, t) != [] && accepted then [Rest(s, t)[0]] else []
    case _ => []
  }

  // The step queues a live event ahead of an older one that a flush still holds.
  ghost predicate Overtakes(s: Session, a: Step) {
    Queued(s, a) != [] && Queued(s, a)[0].Live? &&
    exists u :: Rest(s, u) != [] && Rest(s, u)[0].Live? && Rest(s, u)[0].arrival < Queued(s, a)[0].arrival
  }

  // The events a step leaves waiting: one of the sequences may lose its head,
  // the buffer may gain a new arrival, or it moves to an ended replay's flush.
  lemma BufferAfter(s: Session, a: Step)
    ensures var s' := Apply(s, a);
            && s.arrivals <= s'.arrivals
            && (s'.buffer == s.buffer || s'.buffer == []
                || (s'.buffer == s.buffer + [Live(a.ev, s.arrivals, s.windows)] && s'.arrivals == s.arrivals + 1))
  {
  }

  lemma RestOf(s: Session, a: Step, u: Tid)
    ensures var s' := Apply(s, a);
            || Rest(s', u) == Rest(s, u)
            || (a.FlushNext? && u == a.t && Rest(s, u) != [] && Rest(s', u) == Rest(s, u)[1..])
            || (a.EndReplay? && u == a.t && Rest(s, u) == [] && Rest(s', u) == s.buffer && s'.buffer == [])
  {
  }

  lemma RestAfter(s: Session, a: Step)
    ensures var s' := Apply(s, a);
            && s.arrivals <= s'.arrivals
            && (forall u | Rest(s', u) != Rest(s, u) ::
                  || (a.FlushNext? && u == a.t && Rest(s, u) != [] && Rest(s', u) == Rest(s, u)[1..])
                  || (a.EndReplay? && u == a.t && Rest(s, u) == [] && Rest(s', u) == s.buffer && s'.buffer == []))
            && (s'.buffer == s.buffer || s'.buffer == []
                || (s'.buffer == s.buffer + [Live(a.ev, s.arrivals, s.windows)] && s'.arrivals == s.arrivals + 1))
  {
    hide Apply, Rest;
    BufferAfter(s, a);
    forall u
      ensures var s' := Apply(s, a);
              || Rest(s', u) == Rest(s, u)
              || (a.FlushNext? && u == a.t && Rest(s, u) != [] && Rest(s', u) == Rest(s, u)[1..])
              || (a.EndReplay? && u == a.t && Rest(s, u) == [] && Rest(s', u) == s.buffer && s'.buffer == [])
    {
      RestOf(s, a, u);
    }
  }

  lemma StepKeepsRests(s: Session, a: Step, t: Tid)
    requires WaitingInv(s)
    ensures var s' := Apply(s, a);
            Ascending(Rest(s', t)) && Arrived(Rest(s', t), s'.arrivals) && Before(Rest(s', t), s'.buffer)
  {
    RestAfter(s, a);
    hide Apply, Rest, Apart;
    assert Before(Rest(s, t), s.buffer) && Ascending(Rest(s, t)) && Arrived(Rest(s, t), s.arrivals);
  }

  lemma StepKeepsApart(s: Session, a: Step, t: Tid, u: Tid)
    requires WaitingInv(s) && t != u
    ensures Apart(Rest(Apply(s, a), t), Rest(Apply(s, a), u))
  {
    RestAfter(s, a);
    hide Apply, Rest, Ascending, Arrived;
    assert Apart(Rest(s, t), Rest(s, u)) && Before(Rest(s, t), s.buffer) && Before(Rest(s, u), s.buffer);
  }

  lemma StepKeepsWaiting(s: Session, a: Step)
    requires WaitingInv(s)
    ensures WaitingInv(Apply(s, a))
  {
    hide Apply, Rest, Before, Apart;
    var s' := Apply(s, a);
    RestAfter(s, a);
    forall t
      ensures Ascending(Rest(s', t)) && Arrived(Rest(s', t), s'.arrivals) && Before(Rest(s', t), s'.buffer)
    {
      StepKeepsRests(s, a, t);
    }
    forall t, u | t != u
      ensures Apart(Rest(s', t), Rest(s', u))
    {
      StepKeepsApart(s, a, t, u);
    }
  }

  lemma QueueGrows(s: Session, a: Step)
    ensures var s' := Apply(s, a);
            || s'.queue == s.queue + Queued(s, a)
            || (a.ReplayWrite? && Queued(s, a) == [] && |s'.queue| == |s.queue| + 1
                && s'.queue[..|s.queue|] == s.queue && s'.queue[|s.queue|].Replayed?)
  {
  }

  lemma QueuedBy(s: Session, a: Step)
    ensures Queued(s, a) != [] ==>
              || (a.Deliver? && !s.replaying && Queued(s, a) == [Live(a.ev, s.arrivals, s.windows)]
                  && Apply(s, a) == s.(queue := s.queue + Queued(s, a), arrivals := s.arrivals + 1))
              || (a.FlushNext? && Rest(s, a.t) != [] && Queued(s, a) == [Rest(s, a.t)[0]]
                  && Apply(s, a).buffer == s.buffer && Apply(s, a).arrivals == s.arrivals)
  {
  }

  lemma QueueAfter(s: Session, a: Step)
    ensures var s' := Apply(s, a);
            || s'.queue == s.queue + Queued(s, a)
            || (a.ReplayWrite? && Queued(s, a) == [] && |s'.queue| == |s.queue| + 1
                && s'.queue[..|s.queue|] == s.queue && s'.queue[|s.queue|].Replayed?)
    ensures Queued(s, a) != [] ==>
              || (a.Deliver? && !s.replaying && Queued(s, a) == [Live(a.ev, s.arrivals, s.windows)]
                  && Apply(s, a) == s.(queue := s.queue + Queued(s, a), arrivals := s.arrivals + 1))
              || (a.FlushNext? && Rest(s, a.t) != [] && Queued(s, a) == [Rest(s, a.t)[0]]
                  && Apply(s, a).buffer == s.buffer && Apply(s, a).arrivals == s.arrivals)
    ensures a.FlushNext? && Rest(s, a.t) != [] ==> Rest(Apply(s, a), a.t) == Rest(s, a.t)[1..]
    ensures a.Deliver? || a.FlushNext? ==> forall u | !a.FlushNext? || u != a.t :: Rest(Apply(s, a), u) == Rest(s, u)
  {
    QueueGrows(s, a);
    QueuedBy(s, a);
    hide Queued;
  }

  lemma QuietStepKeepsOrder(s: Session, a: Step)
    requires WaitingInv(s) && InOrder(s) && Queued(s, a) == []
    ensures InOrder(Apply(s, a))
  {
    hide Apply, Queued;
    var s' := Apply(s, a);
    RestAfter(s, a);
    QueueAfter(s, a);
    assert forall i | 0 <= i < |s'.queue| && s'.queue[i].Live? :: i < |s.queue| && s'.queue[i] == s.queue[i];
    forall t
      ensures Before(s'.queue, Rest(s', t))
    {
      assert Before(s.queue, Rest(s, t));
    }
  }

  lemma QueuedInOrder(s: Session, a: Step)
    requires WaitingInv(s) && InOrder(s) && (!s.replaying ==> s.buffer == [])
    requires Queued(s, a) != [] && !Overtakes(s, a)
    ensures InOrder(Apply(s, a))
  {
    hide Apply, Queued;
    var s' := Apply(s, a);
    var x := Queued(s, a)[0];
    QueueAfter(s, a);
    assert s'.queue == s.queue + [x];
    forall u
      ensures Before(s'.queue, Rest(s', u))
    {
      assert Before(s.queue, Rest(s, u)) && Ascending(Rest(s, u)) && Arrived(Rest(s, u), s.arrivals);
      if a.FlushNext? && u != a.t {
        assert Apart(Rest(s, a.t), Rest(s, u));
      }
    }
    if a.FlushNext? {
      assert Before(s.queue, Rest(s, a.t)) && Before(Rest(s, a.t), s.buffer) && Arrived(Rest(s, a.t), s.arrivals);
    }
  }

  lemma OvertakingBreaksOrder(s: Session, a: Step)
    requires Overtakes(s, a)
    ensures !InOrder(Apply(s, a))
  {
    hide Apply, Queued;
    var s' := Apply(s, a);
    var x := Queued(s, a)[0];
    QueueAfter(s, a);
    var u :| Rest(s, u) != [] && Rest(s, u)[0].Live? && Rest(s, u)[0].arrival < x.arrival;
    assert Rest(s', u) == Rest(s, u);
    assert s'.queue[|s.queue|] == x;
    assert !Before(s'.queue, Rest(s', u));
  }

  // A step keeps the live events in arrival order exactly if it does not let a
  // younger one past the flush.
  lemma OrderKeptIffNotOvertaken(s: Session, a: Step)
    requires WaitingInv(s) && InOrder(s) && (!s.replaying ==> s.buffer == [])
    ensures InOrder(Apply(s, a)) <==> !Overtakes(s, a)
  {
    hide Apply;
    if Queued(s, a) == [] {
      QuietStepKeepsOrder(s, a);
    } else if Overtakes(s, a) {
      OvertakingBreaksOrder(s, a);
    } else {
      QueuedInOrder(s, a);
    }
  }

  // What a caller can check: a delivery that is queued directly overtakes iff some
  // flush has not offered everything yet.
  lemma DeliveryOvertakesIff(s: Session, ev: Event)
    requires WaitingInv(s) && s.state.Accepting() && !s.replaying
    ensures Overtakes(s, Deliver(ev, true)) <==> exists u :: Rest(s, u) != []
  {
    forall u | Rest(s, u) != []
      ensures Rest(s, u)[0].Live? && Rest(s, u)[0].arrival < s.arrivals
    {
      assert Ascending(Rest(s, u)) && Arrived(Rest(s, u), s.arrivals);
    }
  }

  // And the queue itself is out of order as soon as that flush offers its next
  // event and the writer accepts it.
  lemma OvertakenQueueIsOutOfOrder(s: Session, a: Step)
    requires Overtakes(s, a)
    ensures exists u :: !LiveInOrder(Apply(Apply(s, a), FlushNext(u, true)).queue)
  {
    hide Apply, Queued, Rest;
    var s1 := Apply(s, a);
    var x := Queued(s, a)[0];
    QueueAfter(s, a);
    var u :| Rest(s, u) != [] && Rest(s, u)[0].Live? && Rest(s, u)[0].arrival < x.arrival;
    assert Rest(s1, u) == Rest(s, u) && s1.queue[|s.queue|] == x;
    var s2 := Apply(s1, FlushNext(u, true));
    OfferIsQueued(s1, u);
    assert s2.queue[|s.queue|] == x && s2.queue[|s1.queue|] == Rest(s, u)[0];
    assert !LiveInOrder(s2.queue);
  }

  lemma OfferIsQueued(s: Session, u: Tid)
    requires Rest(s, u) != []
    ensures Apply(s, FlushNext(u, true)).queue == s.queue + [Rest(s, u)[0]]
  {
  }

  ghost predicate NeverOvertakes(s: Session, steps: seq<Step>)
    decreases |steps|
  {
    steps == [] || (!Overtakes(s, steps[0]) && NeverOvertakes(Apply(s, steps[0]), steps[1..]))
  }

  lemma {:induction false} RunKeepsWaiting(s: Session, steps: seq<Step>)
    requires WaitingInv(s)
    ensures WaitingInv(Run(s, steps))
    decreases |steps|
  {
    hide Apply, WaitingInv;
    if steps != [] {
      StepKeepsWaiting(s, steps[0]);
      RunKeepsWaiting(Apply(s, steps[0]), steps[1..]);
    }
  }

  lemma {:induction false} RunKeepsOrder(s: Session, steps: seq<Step>)
    requires WindowInv(s) && WaitingInv(s) && InOrder(s) && NeverOvertakes(s, steps)
    ensures InOrder(Run(s, steps))
    decreases |steps|
  {
    hide Apply, WaitingInv, InOrder, QueueInv;
    if steps != [] {
      StepKeepsWindowInv(s, steps[0]);
      StepKeepsWaiting(s, steps[0]);
      OrderKeptIffNotOvertaken(s, steps[0]);
      RunKeepsOrder(Apply(s, steps[0]), steps[1..]);
    }
  }

  lemma {:induction false} RunConcat(s: Session, a: seq<Step>, b: seq<Step>)
    ensures Run(s, a + b) == Run(Run(s, a), b)
    decreases |a|
  {
    hide Apply;
    if a == [] {
      assert a + b == b;
    } else {
      assert (a + b)[0] == a[0] && (a + b)[1..] == a[1..] + b;
      RunConcat(Apply(s, a[0]), a[1..], b);
    }
  }

  // In a run in which nothing overtakes a flush, the queue takes all live events,
  // buffered or not, in the order in which they arrived.
  lemma LiveOrderWithoutOvertaking(steps: seq<Step>)
    requires NeverOvertakes(NewSession(), steps)
    ensures LiveInOrder(Run(NewSession(), steps).queue)
  {
    RunKeepsOrder(NewSession(), steps);
  }

  // A delivery can fall into the unlocked flush: the event that arrived third is
  // queued between the two that were buffered before it.
  lemma FlushCanBeOvertaken(a: Event, b: Event, c: Event)
    ensures Run(NewSession(), [BeginReplay(0, []), Deliver(a, true), Deliver(b, true), EndReplay(0),
                               FlushNext(0, true), Deliver(c, true), FlushNext(0, true)]).queue
         == [Live(a, 0, 1), Live(c, 2, 1), Live(b, 1, 1)]
  {
    var s0 := NewSession();
    var s1 := Apply(s0, BeginReplay(0, []));
    var s2 := Apply(s1, Deliver(a, true));
    var s3 := Apply(s2, Deliver(b, true));
    var s4 := Apply(s3, EndReplay(0));
    assert s4.threads[0] == Flushing(1, [Live(a, 0, 1), Live(b, 1, 1)]);
    var s5 := Apply(s4, FlushNext(0, true));
    assert s5.threads[0] == Flushing(1, [Live(b, 1, 1)]);
    var s6 := Apply(s5, Deliver(c, true));
    var s7 := Apply(s6, FlushNext(0, true));
    assert s7.queue == [Live(a, 0, 1), Live(c, 2, 1), Live(b, 1, 1)];
    RunSeven(s0, BeginReplay(0, []), Deliver(a, true), Deliver(b, true), EndReplay(0),
             FlushNext(0, true), Deliver(c, true), FlushNext(0, true));
  }

  lemma RunSeven(s: Session, a: Step, b: Step, c: Step, d: Step, e: Step, f: Step, g: Step)
    ensures Run(s, [a, b, c, d, e, f, g]) == Apply(Apply(Apply(Apply(Apply(Apply(Apply(s, a), b), c), d), e), f), g)
  {
    hide Apply;
    var s1 := Apply(s, a);
    var s2 := Apply(s1, b);
    var s3 := Apply(s2, c);
    var s4 := Apply(s3, d);
    var s5 := Apply(s4, e);
    var s6 := Apply(s5, f);
    assert Run(s6, [g]) == Apply(s6, g);
    assert Run(s5, [f, g]) == Run(s6, [g]);
    assert Run(s4, [e, f, g]) == Run(s5, [f, g]);
    assert Run(s3, [d, e, f, g]) == Run(s4, [e, f, g]);
    assert Run(s2, [c, d, e, f, g]) == Run(s3, [d, e, f, g]);
    assert Run(s1, [b, c, d, e, f, g]) == Run(s2, [c, d, e, f, g]);
  }
}
