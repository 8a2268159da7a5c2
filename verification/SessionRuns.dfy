// What holds of one session over every series of its calls: how much its limiter
// lets through, whose its tracker is, and what a replay window leaves on the queue.
// Each act is one whole call, a delivery with any confirmations inside it.
module SessionRuns {
  import opened Types
  import S = SessionModel
  import Ack
  import Flow

  datatype Act =
    | Deliver(ev: Event, c: S.Chance, mid: seq<int>, late: seq<int>)
    | Confirm(n: int)
    | BeginReplay
    | ReplayWrite(ev: Event, room: bool)
    | EndReplay(rooms: seq<bool>)
    | Suspect
    | BeginClose
    | FinishClose
    | Reconnect(rate: real, burst: int)

  function Step(s: S.SessionState, a: Act): S.SessionState {
    match a
    case Deliver(ev, c, mid, late) => S.DeliverAmid(s, ev, c, mid, late).0
    case Confirm(n) => S.Confirm(s, n)
    case BeginReplay => S.BeginReplay(s).0
    case ReplayWrite(ev, room) => S.ReplayWrite(s, ev, room).0
    case EndReplay(rooms) => if |rooms| == |s.buffer| then S.EndReplay(s, rooms) else s
    case Suspect => S.Suspect(s)
    case BeginClose => S.BeginClose(s).0
    case FinishClose => S.FinishClose(s)
    case Reconnect(rate, burst) => S.Reconnect(s, rate, burst)
  }

  function Run(s: S.SessionState, acts: seq<Act>): S.SessionState
    decreases |acts|
  {
    if acts == [] then s else Run(Step(s, acts[0]), acts[1..])
  }

  // ---- Offers.

  // The events whose offer had room.
  function Offered(events: seq<Event>, rooms: seq<bool>): seq<Event>
    requires |rooms| == |events|
    decreases |events|
  {
    if events == [] then [] else (if rooms[0] then [events[0]] else []) + Offered(events[1..], rooms[1..])
  }

  lemma {:induction false} OfferedSnoc(events: seq<Event>, rooms: seq<bool>, ev: Event, room: bool)
    requires |rooms| == |events|
    ensures Offered(events + [ev], rooms + [room]) == Offered(events, rooms) + (if room then [ev] else [])
    decreases |events|
  {
    var events', rooms' := events + [ev], rooms + [room];
    if events == [] {
      assert events' == [ev] && rooms' == [room] && Offered([], []) == [];
    } else {
      assert events'[1..] == events[1..] + [ev] && rooms'[1..] == rooms[1..] + [room];
      OfferedSnoc(events[1..], rooms[1..], ev, room);
    }
  }

  lemma {:induction false} AllOffered(events: seq<Event>, rooms: seq<bool>)
    requires |rooms| == |events| && forall i | 0 <= i < |rooms| :: rooms[i]
    ensures Offered(events, rooms) == events
    decreases |events|
  {
    if events != [] {
      AllOffered(events[1..], rooms[1..]);
    }
  }

  lemma {:induction false} FlushIs(s: S.SessionState, events: seq<Event>, rooms: seq<bool>)
    requires |rooms| == |events|
    ensures S.Flush(s, events, rooms) ==
            s.(accepted := s.accepted + if s.writerClosed then [] else Offered(events, rooms))
    decreases |events|
  {
    if events == [] {
      assert s.accepted + [] == s.accepted;
    } else {
      var last := |events| - 1;
      FlushIs(s, events[..last], rooms[..last]);
      OfferedSnoc(events[..last], rooms[..last], events[last], rooms[last]);
      assert events[..last] + [events[last]] == events && rooms[..last] + [rooms[last]] == rooms;
    }
  }

  // EndReplay closes the window and, while the writer is open, queues exactly the
  // buffered events whose offer had room, in order: the whole buffer if all had.
  lemma EndReplayFlushesTheBuffer(s: S.SessionState, rooms: seq<bool>)
    requires |rooms| == |s.buffer|
    ensures var s' := S.EndReplay(s, rooms);
            && s' == s.(replaying := false, buffer := [], accepted := s'.accepted)
            && s'.accepted == s.accepted + (if s.writerClosed then [] else Offered(s.buffer, rooms))
            && (!s.writerClosed && (forall i | 0 <= i < |rooms| :: rooms[i]) ==> s'.accepted == s.accepted + s.buffer)
  {
    FlushIs(s.(replaying := false, buffer := []), s.buffer, rooms);
    if forall i | 0 <= i < |rooms| :: rooms[i] {
      AllOffered(s.buffer, rooms);
    }
  }

  // ---- The limiter.

  // A delivery that comes to the limiter: the session accepts events, and neither
  // check of the tracker stops it.
  predicate Comes(s: S.SessionState, a: Act) {
    && a.Deliver? && s.state.Accepting()
    && !S.Rebound(s).tracker.Covered(a.ev.sequence)
    && !S.Confirmed(S.Rebound(s), a.mid).tracker.IsPending(a.ev.sequence)
  }

  // It gets past the limiter as well.
  predicate Passes(s: S.SessionState, a: Act) {
    Comes(s, a) && Flow.Allows(s.limits, s.id, a.c.now)
  }

  // What the session takes of it: the queue or the buffer grew.
  ghost predicate Takes(s: S.SessionState, a: Act) {
    a.Deliver? && (Step(s, a).accepted != s.accepted || Step(s, a).buffer != s.buffer)
  }

  // Where a delivery gets to, in any state: a delivery that does not come to the
  // limiter leaves it, the queue and the buffer alone; one that does is paid for,
  // and is refused iff there was no token.
  lemma DeliveryOutcome(s: S.SessionState, a: Act)
    requires a.Deliver?
    ensures var (s', r) := S.DeliverAmid(s, a.ev, a.c, a.mid, a.late);
            && s' == s.(tracker := s'.tracker, epoch := s'.epoch, limits := s'.limits, buffer := s'.buffer,
                        accepted := s'.accepted)
            && s'.limits == (if Comes(s, a) then Flow.Spend(s.limits, s.id, a.c.now) else s.limits)
            && s'.buffer == s.buffer + (if Passes(s, a) && s.replaying then [a.ev] else [])
            && s'.accepted == s.accepted +
                 (if Passes(s, a) && !s.replaying && !s.writerClosed && a.c.room then [a.ev] else [])
  {
    hide Flow.Allows, Flow.Spend, S.Confirmed, S.Rebound, Ack.AckState.Covered, Ack.AckState.IsPending;
    ConfirmsKeep(s, a.mid, a.late);
    ConfirmsKeep(S.Rebound(s), a.mid, a.late);
    ReboundKeeps(s);
  }

  // And what it answers.
  lemma DeliveryAnswer(s: S.SessionState, a: Act)
    requires a.Deliver?
    ensures var r := S.DeliverAmid(s, a.ev, a.c, a.mid, a.late).1;
            && (r == S.ErrLimited <==> Comes(s, a) && !Passes(s, a))
            && (r == S.ErrBackpressure <==> Passes(s, a) && !s.replaying && !s.writerClosed && !a.c.room)
            && (r == S.ErrClosed <==> !s.state.Accepting() || (Passes(s, a) && !s.replaying && s.writerClosed))
            && (r == S.Ok <==> s.state.Accepting() &&
                               (Comes(s, a) ==> Passes(s, a) && (s.replaying || (!s.writerClosed && a.c.room))))
  {
    hide Flow.Allows, Flow.Spend, S.Confirmed, S.Rebound, Ack.AckState.Covered, Ack.AckState.IsPending;
    ConfirmsKeep(s, a.mid, a.late);
    ConfirmsKeep(S.Rebound(s), a.mid, a.late);
    ReboundKeeps(s);
  }

  lemma ConfirmsKeep(s: S.SessionState, mid: seq<int>, late: seq<int>)
    ensures var s' := S.Confirmed(S.Confirmed(s, mid), late);
            s' == s.(tracker := s'.tracker)
  {
    S.ConfirmedChanges(s, mid);
    S.ConfirmedChanges(S.Confirmed(s, mid), late);
  }

  lemma ReboundKeeps(s: S.SessionState)
    ensures S.Rebound(s) == s.(tracker := S.Rebound(s).tracker, epoch := S.Rebound(s).epoch)
  {
  }

  // The calls of Allow that a series makes.
  function Trace(s: S.SessionState, acts: seq<Act>): seq<Flow.Call>
    decreases |acts|
  {
    if acts == [] then []
    else (if Comes(s, acts[0]) then [Flow.Call(s.id, acts[0].c.now)] else []) + Trace(Step(s, acts[0]), acts[1..])
  }

  // How many of its deliveries the session takes.
  ghost function Taken(s: S.SessionState, acts: seq<Act>): nat
    decreases |acts|
  {
    if acts == [] then 0 else (if Takes(s, acts[0]) then 1 else 0) + Taken(Step(s, acts[0]), acts[1..])
  }

  // The series lies between two reconnects.
  ghost predicate OneLife(acts: seq<Act>) {
    forall i | 0 <= i < |acts| :: !acts[i].Reconnect?
  }

  // The deliveries come in the order of time, from a time to another.
  ghost predicate Within(acts: seq<Act>, from: real, to: real) {
    && (forall i | 0 <= i < |acts| && acts[i].Deliver? :: from <= acts[i].c.now <= to)
    && (forall i, j | 0 <= i < j < |acts| && acts[i].Deliver? && acts[j].Deliver? :: acts[i].c.now <= acts[j].c.now)
  }

  lemma WithinTail(acts: seq<Act>, from: real, to: real)
    requires acts != [] && Within(acts, from, to)
    ensures Within(acts[1..], if acts[0].Deliver? then acts[0].c.now else from, to)
  {
  }

  lemma StepLimits(s: S.SessionState, a: Act)
    requires !a.Reconnect?
    ensures var s' := Step(s, a);
            && s'.id == s.id
            && s'.limits == if Comes(s, a) then Flow.Spend(s.limits, s.id, a.c.now) else s.limits
    ensures Takes(s, a) ==> Passes(s, a)
  {
    hide Flow.Allows, Flow.Spend, S.Flush, S.Rebound, S.Confirmed;
    if a.Deliver? {
      DeliveryOutcome(s, a);
      hide S.DeliverAmid;
    } else if a.EndReplay? && |a.rooms| == |s.buffer| {
      FlushIs(s.(replaying := false, buffer := []), s.buffer, a.rooms);
    }
  }

  lemma {:induction false} RunLimits(s: S.SessionState, acts: seq<Act>)
    requires OneLife(acts)
    ensures var s', trace := Run(s, acts), Trace(s, acts);
            && s'.id == s.id && s'.limits == Flow.After(s.limits, trace)
            && Taken(s, acts) <= Flow.AllowedCount(s.limits, trace, s.id)
            && forall i | 0 <= i < |trace| :: trace[i].sid == s.id
    decreases |acts|
  {
    hide Step, Comes, Takes, Flow.Allows, Flow.Spend;
    if acts != [] {
      var rest := Trace(Step(s, acts[0]), acts[1..]);
      StepLimits(s, acts[0]);
      RunLimits(Step(s, acts[0]), acts[1..]);
      if Comes(s, acts[0]) {
        ComesIsDelivery(s, acts[0]);
        assert ([Flow.Call(s.id, acts[0].c.now)] + rest)[1..] == rest;
      } else {
        assert [] + rest == rest;
      }
    }
  }

  lemma {:induction false} TraceWithin(s: S.SessionState, acts: seq<Act>, from: real, to: real)
    requires Within(acts, from, to)
    ensures Flow.Ordered(Trace(s, acts), from)
    ensures forall i | 0 <= i < |Trace(s, acts)| :: Trace(s, acts)[i].now <= to
    decreases |acts|
  {
    hide Step;
    if acts != [] {
      WithinTail(acts, from, to);
      TraceWithin(Step(s, acts[0]), acts[1..], if acts[0].Deliver? then acts[0].c.now else from, to);
    }
  }

  ghost predicate SamePolicy(acts: seq<Act>, rate: real, burst: int) {
    forall i | 0 <= i < |acts| && acts[i].Reconnect? :: acts[i].rate == rate && acts[i].burst == burst
  }

  // The session's limiter is in order, and keeps to its policy.
  ghost predicate Limited(s: S.SessionState, rate: real, burst: int, latest: real) {
    && Flow.Sound(s.limits, latest)
    && (s.limits.rate, s.limits.burst) == (Flow.FromPolicy(rate, burst).rate, Flow.FromPolicy(rate, burst).burst)
  }

  lemma {:induction false} RunIsLimited(s: S.SessionState, acts: seq<Act>, rate: real, burst: int, from: real, to: real)
    requires Limited(s, rate, burst, from) && Within(acts, from, to) && SamePolicy(acts, rate, burst) && from <= to
    ensures Limited(Run(s, acts), rate, burst, to)
    decreases |acts|
  {
    hide Step, Comes;
    if acts != [] {
      var a := acts[0];
      var s1 := Step(s, a);
      var next := if a.Deliver? then a.c.now else from;
      WithinTail(acts, from, to);
      if a.Reconnect? {
        NewLimits(s, a);
      } else {
        StepLimits(s, a);
        StepIsLimited(s, a, from, next);
      }
      RunIsLimited(s1, acts[1..], rate, burst, next, to);
    }
  }

  lemma StepIsLimited(s: S.SessionState, a: Act, from: real, next: real)
    requires Flow.Sound(s.limits, from) && from <= next && !a.Reconnect? && (a.Deliver? ==> a.c.now == next)
    ensures var l := Step(s, a).limits;
            Flow.Sound(l, next) && (l.rate, l.burst) == (s.limits.rate, s.limits.burst)
  {
    hide Step, Comes;
    StepLimits(s, a);
    if Comes(s, a) {
      ComesIsDelivery(s, a);
      Flow.SpendIsSound(s.limits, s.id, from, next);
    }
  }

  lemma NewLimits(s: S.SessionState, a: Act)
    requires a.Reconnect?
    ensures Step(s, a).limits == Flow.FromPolicy(a.rate, a.burst) && Step(s, a).id == s.id
  {
  }

  lemma TakenEarns(s: S.SessionState, acts: seq<Act>, from: real, to: real)
    requires Flow.Sound(s.limits, from) && from <= to && Within(acts, from, to) && OneLife(acts)
    ensures Taken(s, acts) as real <= s.limits.burst + Flow.Earned(to - from, s.limits.rate)
  {
    hide Run, Trace, Taken, Flow.Refilled, Flow.Earned, Within;
    var calls := Trace(s, acts);
    RunLimits(s, acts);
    TraceWithin(s, acts, from, to);
    Flow.NothingEarned(0.0, s.limits.rate);
    EarnedGrows(0.0, to - from, s.limits.rate);
    if calls != [] {
      Flow.CountBound(s.limits, calls, s.id, from);
      Flow.RefillBounds(s.limits, s.id, from, calls[0].now);
      assert calls[|calls| - 1].now - calls[0].now <= to - from;
      EarnedGrows(calls[|calls| - 1].now - calls[0].now, to - from, s.limits.rate);
    }
  }

  // In any series of calls, after any series with as many reconnects as you like,
  // the deliveries that are queued or buffered between two times number at most
  // the burst plus the rate times the length, unless the session reconnects.
  lemma DeliveriesAreLimited(id: SessionID, rate: real, burst: int, before: seq<Act>, acts: seq<Act>,
                             since: real, from: real, to: real)
    requires since <= from <= to && Within(before, since, from) && Within(acts, from, to)
    requires SamePolicy(before, rate, burst) && OneLife(acts)
    ensures var valid := rate > 0.0 && burst > 0;
            var most := if valid then burst as real else 400.0;
            var perSecond := if valid then rate else 200.0;
            Taken(Run(S.NewSession(id, rate, burst), before), acts) as real <= most + (to - from) * perSecond
  {
    hide Run, Taken, Flow.Earned, Within, OneLife, SamePolicy;
    RunIsLimited(S.NewSession(id, rate, burst), before, rate, burst, since, from);
    var s := Run(S.NewSession(id, rate, burst), before);
    TakenEarns(s, acts, from, to);
    Flow.EarnedIs(to - from, s.limits.rate);
  }

  lemma EarnedGrows(a: real, b: real, rate: real)
    requires a <= b && rate > 0.0
    ensures Flow.Earned(a, rate) <= Flow.Earned(b, rate)
  {
  }

  lemma {:induction false} AssuredDeliveriesPass(s: S.SessionState, acts: seq<Act>, from: real, to: real, tokens: real,
                                                 i: nat)
    requires OneLife(acts) && Within(acts, from, to) && Flow.Assured(s.limits, s.id, from, tokens)
    requires i < |acts| && Comes(Run(s, acts[..i]), acts[i]) && |Trace(s, acts[..i])| as real + 1.0 <= tokens
    ensures Passes(Run(s, acts[..i]), acts[i])
    decreases i
  {
    hide Flow.Assured, Flow.Allows, Flow.Spend, Step, Comes;
    var a := acts[0];
    if i == 0 {
      assert Comes(s, a);
      ComesIsDelivery(s, a);
      Flow.CallTakesItsOwn(s.limits, s.id, from, Flow.Call(s.id, a.c.now), tokens);
    } else {
      assert acts[..i][0] == a && acts[..i][1..] == acts[1..][..i - 1];
      StepLimits(s, a);
      WithinTail(acts, from, to);
      if Comes(s, a) {
        ComesIsDelivery(s, a);
        Flow.CallTakesItsOwn(s.limits, s.id, from, Flow.Call(s.id, a.c.now), tokens);
        AssuredDeliveriesPass(Step(s, a), acts[1..], a.c.now, to, tokens - 1.0, i - 1);
      } else {
        var next := if a.Deliver? then a.c.now else from;
        Flow.WaitingLosesNothing(s.limits, s.id, from, next, tokens);
        AssuredDeliveriesPass(Step(s, a), acts[1..], next, to, tokens, i - 1);
      }
    }
  }

  lemma ComesIsDelivery(s: S.SessionState, a: Act)
    requires Comes(s, a)
    ensures a.Deliver?
  {
  }

  // As many deliveries as the burst get past the limiter of a new or reconnected
  // session, and of one that has been idle long enough to earn the burst again.
  lemma BurstIsNotLimited(id: SessionID, rate: real, burst: int, before: seq<Act>, acts: seq<Act>,
                          since: real, last: real, from: real, to: real, i: nat)
    requires since <= last <= from <= to && Within(before, since, last) && Within(acts, from, to)
    requires SamePolicy(before, rate, burst) && OneLife(acts) && i < |acts| && acts[i].Deliver?
    requires var valid := rate > 0.0 && burst > 0;
             && (|before| > 0 && !before[|before| - 1].Reconnect? ==>
                   (from - last) * (if valid then rate else 200.0) >= if valid then burst as real else 400.0)
             && |Trace(Run(S.NewSession(id, rate, burst), before), acts[..i])| < if valid then burst else 400
    ensures var s := Run(Run(S.NewSession(id, rate, burst), before), acts[..i]);
            S.DeliverAmid(s, acts[i].ev, acts[i].c, acts[i].mid, acts[i].late).1 != S.ErrLimited
  {
    hide Run, Trace, Within, Comes, Flow.Assured, Flow.Earned, Step, S.DeliverAmid;
    var s := Run(S.NewSession(id, rate, burst), before);
    RunIsLimited(S.NewSession(id, rate, burst), before, rate, burst, since, last);
    LastReconnect(S.NewSession(id, rate, burst), before);
    Flow.EarnedIs(from - last, s.limits.rate);
    if s.id in s.limits.last {
      EarnedGrows(from - last, from - s.limits.last[s.id].seen, s.limits.rate);
    }
    Flow.IdleFills(s.limits, s.id, last, from);
    var s' := Run(s, acts[..i]);
    DeliveryAnswer(s', acts[i]);
    if Comes(s', acts[i]) {
      AssuredDeliveriesPass(s, acts, from, to, s.limits.burst, i);
    }
  }

  // Right after a reconnect, or at the start, no call has been noted.
  lemma {:induction false} LastReconnect(s: S.SessionState, acts: seq<Act>)
    ensures acts == [] ==> Run(s, acts) == s
    ensures acts != [] && acts[|acts| - 1].Reconnect? ==> Run(s, acts).limits.last == map[]
    decreases |acts|
  {
    hide Step;
    if acts != [] {
      LastReconnect(Step(s, acts[0]), acts[1..]);
      if acts[0].Reconnect? {
        NewLimits(s, acts[0]);
      }
    }
  }

  // ---- The tracker.

  ghost predicate OwnTracker(s: S.SessionState) {
    s.tracker.owner == s.id && s.tracker.epoch == s.epoch
  }

  function Confirms(ns: seq<int>): seq<Ack.Call> {
    seq(|ns|, i requires 0 <= i < |ns| => Ack.Confirm(ns[i]))
  }

  // What a call tells the tracker: its confirmations, and of a delivery that it
  // was queued.
  function Told(s: S.SessionState, a: Act): seq<Ack.Call> {
    match a
    case Deliver(ev, _, mid, late) =>
      Confirms(mid + late) + (if |Step(s, a).accepted| > |s.accepted| then [Ack.Record(ev.sequence, true)] else [])
    case Confirm(n) => [Ack.Confirm(n)]
    case Reconnect(_, _) => [Ack.Reset]
    case _ => []
  }

  function ToldBy(s: S.SessionState, acts: seq<Act>): seq<Ack.Call>
    decreases |acts|
  {
    if acts == [] then [] else Told(s, acts[0]) + ToldBy(Step(s, acts[0]), acts[1..])
  }

  lemma {:induction false} AfterConcat(s: Ack.AckState, a: seq<Ack.Call>, b: seq<Ack.Call>)
    ensures Ack.After(s, a + b) == Ack.After(Ack.After(s, a), b)
    decreases |b|
  {
    hide Ack.Step;
    if b == [] {
      assert a + b == a;
    } else {
      var last := |b| - 1;
      assert (a + b)[..|a + b| - 1] == a + b[..last] && (a + b)[|a + b| - 1] == b[last];
      AfterConcat(s, a, b[..last]);
    }
  }

  lemma {:induction false} ConfirmedIsTold(s: S.SessionState, ns: seq<int>)
    ensures S.Confirmed(s, ns).tracker == Ack.After(s.tracker, Confirms(ns))
    decreases |ns|
  {
    if ns != [] {
      ConfirmedIsTold(S.Confirm(s, ns[0]), ns[1..]);
      assert Confirms(ns) == [Ack.Confirm(ns[0])] + Confirms(ns[1..]);
      AfterConcat(s.tracker, [Ack.Confirm(ns[0])], Confirms(ns[1..]));
      TellOne(s.tracker, Ack.Confirm(ns[0]));
    }
  }

  lemma TellOne(s: Ack.AckState, c: Ack.Call)
    ensures Ack.After(s, [c]) == Ack.Step(s, c)
  {
    assert [c][..0] == [];
    assert Ack.After(s, []) == s;
  }

  lemma {:induction false} ConfirmedTwice(s: S.SessionState, a: seq<int>, b: seq<int>)
    ensures S.Confirmed(S.Confirmed(s, a), b) == S.Confirmed(s, a + b)
    decreases |a|
  {
    hide S.Confirm;
    if a == [] {
      assert a + b == b;
    } else {
      assert (a + b)[0] == a[0] && (a + b)[1..] == a[1..] + b;
      ConfirmedTwice(S.Confirm(s, a[0]), a[1..], b);
    }
  }

  // A delivery by the session's own tracker: the confirmations inside it, and a
  // record iff the queue grew.
  lemma DeliveryTracks(s: S.SessionState, a: Act)
    requires a.Deliver? && OwnTracker(s)
    ensures var s' := Step(s, a);
            var told := S.Confirmed(s, a.mid + a.late).tracker;
            && (s'.id, s'.epoch) == (s.id, s.epoch)
            && s'.tracker == if |s'.accepted| > |s.accepted| then told.Record(a.ev.sequence, true) else told
  {
    hide Flow.Allows, Flow.Spend, S.Confirmed;
    ConfirmsKeep(s, a.mid, a.late);
    ConfirmedTwice(s, a.mid, a.late);
  }

  lemma StepTracks(s: S.SessionState, a: Act)
    requires OwnTracker(s)
    ensures var s' := Step(s, a);
            OwnTracker(s') && s'.tracker == Ack.After(s.tracker, Told(s, a))
  {
    hide S.Flush, S.DeliverAmid, S.Confirmed, Flow.FromPolicy;
    if a.Deliver? {
      DeliveryTracks(s, a);
      var told := S.Confirmed(s, a.mid + a.late);
      ConfirmedIsTold(s, a.mid + a.late);
      S.ConfirmedChanges(s, a.mid + a.late);
      var record := Ack.Record(a.ev.sequence, true);
      AfterConcat(s.tracker, Confirms(a.mid + a.late), if |Step(s, a).accepted| > |s.accepted| then [record] else []);
      TellOne(told.tracker, record);
    } else if a.Confirm? {
      TellOne(s.tracker, Ack.Confirm(a.n));
    } else if a.Reconnect? {
      TellOne(s.tracker, Ack.Reset);
    } else if a.EndReplay? && |a.rooms| == |s.buffer| {
      EndReplayFlushesTheBuffer(s, a.rooms);
    }
  }

  lemma {:induction false} RunTracks(s: S.SessionState, acts: seq<Act>)
    requires OwnTracker(s)
    ensures var s' := Run(s, acts);
            OwnTracker(s') && s'.tracker == Ack.After(s.tracker, ToldBy(s, acts))
    decreases |acts|
  {
    hide Step, Told, OwnTracker, Ack.Step;
    if acts != [] {
      StepTracks(s, acts[0]);
      RunTracks(Step(s, acts[0]), acts[1..]);
      AfterConcat(s.tracker, Told(s, acts[0]), ToldBy(Step(s, acts[0]), acts[1..]));
    }
  }

  // In every series of calls the tracker stays the session's own, so no delivery
  // ever replaces it; and while the session accepts events, the tracker stops a
  // delivery iff since the last reconnect a sequence at or above it was confirmed,
  // or it was queued and not confirmed since.
  lemma TrackerStopsIff(id: SessionID, rate: real, burst: int, acts: seq<Act>, ev: Event, c: S.Chance)
    ensures var s, told := Run(S.NewSession(id, rate, burst), acts), ToldBy(S.NewSession(id, rate, burst), acts);
            && S.Rebound(s) == s
            && (s.state.Accepting() ==>
                  (!Comes(s, Deliver(ev, c, [], [])) <==>
                     || ev.sequence <= 0
                     || (exists n :: ev.sequence <= n && Ack.Confirmed(told, n))
                     || Ack.LastRecorded(told, ev.sequence)))
  {
    hide Run, ToldBy, Ack.Confirmed, Ack.LastRecorded, Ack.After;
    RunTracks(S.NewSession(id, rate, burst), acts);
    Ack.TrackerMeaning(id, ToldBy(S.NewSession(id, rate, burst), acts));
  }

  // A tracker of another owner or epoch counts for nothing: the delivery meets a
  // fresh one, whatever the old one held, and that stays the session's own.
  lemma ForeignTrackerIsDropped(s: S.SessionState, ev: Event, c: S.Chance)
    requires s.state.Accepting() && !OwnTracker(s)
    ensures var (s', r) := S.Deliver(s, ev, c);
            && OwnTracker(s') && s'.tracker.acked == 0
            && s'.tracker.pending == (if |s'.accepted| > |s.accepted| then {ev.sequence} else {})
            && (Comes(s, Deliver(ev, c, [], [])) <==> ev.sequence > 0)
  {
    hide Flow.Allows, Flow.Spend;
  }

  // ---- Starting over.

  // Deliveries one after the other, each with room in the writer.
  function Deliveries(evs: seq<Event>, times: seq<real>): seq<Act>
    requires |times| == |evs|
  {
    seq(|evs|, i requires 0 <= i < |evs| => Deliver(evs[i], S.Chance(times[i], true), [], []))
  }

  // Nothing but the limiter can keep a delivery of the event off the queue.
  ghost predicate Open(s: S.SessionState) {
    (s.state.Active? || s.state.Suspected?) && !s.replaying && !s.writerClosed
  }

  // Closing has begun.
  ghost predicate Shut(s: S.SessionState) {
    s.state.Closing? || s.state.Closed?
  }

  ghost predicate New(s: S.SessionState, n: int) {
    !S.Rebound(s).tracker.Covered(n) && !S.Rebound(s).tracker.IsPending(n)
  }

  lemma OneIsQueued(s: S.SessionState, a: Act)
    requires Open(s) && a.Deliver? && a.mid == a.late == [] && a.c.room && New(s, a.ev.sequence)
    requires Flow.Allows(s.limits, s.id, a.c.now)
    ensures var s' := Step(s, a);
            && Open(s') && s'.accepted == s.accepted + [a.ev] && S.DeliverAmid(s, a.ev, a.c, [], []).1 == S.Ok
            && s'.state == s.state && s'.id == s.id && s'.limits == Flow.Spend(s.limits, s.id, a.c.now)
            && forall n | New(s, n) && n != a.ev.sequence :: New(s', n)
  {
    hide Flow.Allows, Flow.Spend;
    S.DeliverUndisturbed(s, a.ev, a.c);
  }

  lemma {:induction false} NewEventsAreQueued(s: S.SessionState, evs: seq<Event>, times: seq<real>, from: real, tokens: real)
    requires |times| == |evs| && |evs| as real <= tokens && Flow.Assured(s.limits, s.id, from, tokens) && Open(s)
    requires (forall i | 0 <= i < |times| :: from <= times[i]) && forall i, j | 0 <= i < j < |times| :: times[i] <= times[j]
    requires forall i | 0 <= i < |evs| :: New(s, evs[i].sequence)
    requires forall i, j | 0 <= i < j < |evs| :: evs[i].sequence != evs[j].sequence
    ensures var s' := Run(s, Deliveries(evs, times));
            s'.accepted == s.accepted + evs && s'.state == s.state
    decreases |evs|
  {
    hide Step, Open, New, Flow.Assured, Flow.Allows, Flow.Spend;
    if evs != [] {
      var a := Deliver(evs[0], S.Chance(times[0], true), [], []);
      assert Deliveries(evs, times) == [a] + Deliveries(evs[1..], times[1..]);
      Flow.CallTakesItsOwn(s.limits, s.id, from, Flow.Call(s.id, times[0]), tokens);
      OneIsQueued(s, a);
      NewEventsAreQueued(Step(s, a), evs[1..], times[1..], times[0], tokens - 1.0);
    }
  }

  // New events, in the order of time, no more than a burst of them.
  ghost predicate FirstBurst(rate: real, burst: int, evs: seq<Event>, times: seq<real>) {
    && |times| == |evs| && |evs| <= (if rate > 0.0 && burst > 0 then burst else 400)
    && (forall i, j | 0 <= i < j < |times| :: times[i] <= times[j])
    && (forall i | 0 <= i < |evs| :: evs[i].sequence > 0)
    && (forall i, j | 0 <= i < j < |evs| :: evs[i].sequence != evs[j].sequence)
  }

  lemma FirstBurstIsQueued(s: S.SessionState, rate: real, burst: int, evs: seq<Event>, times: seq<real>)
    requires FirstBurst(rate, burst, evs, times) && Open(s) && s.accepted == []
    requires s.limits == Flow.FromPolicy(rate, burst) && forall n | n > 0 :: New(s, n)
    ensures var s' := Run(s, Deliveries(evs, times));
            s'.accepted == evs && s'.state == s.state
  {
    hide Run, Flow.Assured, Deliveries, New, Open;
    var from := if times == [] then 0.0 else times[0];
    Flow.IdleFills(s.limits, s.id, from, from);
    NewEventsAreQueued(s, evs, times, from, s.limits.burst);
    assert [] + evs == evs;
  }

  // A new session, and from any state whatever a reconnected one, is active and
  // takes as many new events as the burst, all on its writer's empty queue.
  lemma StartDelivers(id: SessionID, s: S.SessionState, rate: real, burst: int, evs: seq<Event>, times: seq<real>)
    requires FirstBurst(rate, burst, evs, times)
    ensures var s' := Run(S.NewSession(id, rate, burst), Deliveries(evs, times));
            s'.accepted == evs && s'.state == Active
    ensures var s' := Run(S.Reconnect(s, rate, burst), Deliveries(evs, times));
            s'.accepted == evs && s'.state == Active
  {
    hide FirstBurst, Run, Deliveries, Flow.FromPolicy;
    FirstBurstIsQueued(S.NewSession(id, rate, burst), rate, burst, evs, times);
    FirstBurstIsQueued(S.Reconnect(s, rate, burst), rate, burst, evs, times);
  }

  // What Reconnect brings back, from any state: a first delivery goes through, a
  // replay window opens, and the closed channel can be closed once.
  lemma ReconnectRevives(s: S.SessionState, rate: real, burst: int, ev: Event, now: real)
    requires ev.sequence > 0
    ensures var s' := S.Reconnect(s, rate, burst);
            var (d, r) := S.Deliver(s', ev, S.Chance(now, true));
            && r == S.Ok && d.accepted == [ev] && d.state == Active
            && S.BeginReplay(s').1
            && S.FinishClose(s').closes == 1
            && s'.tracker.epoch == s.tracker.epoch + 1
  {
    hide Flow.Allows, Flow.Spend;
    var s' := S.Reconnect(s, rate, burst);
    assert Flow.Allows(s'.limits, s'.id, now) by {
      FullAllows(s'.limits, s'.id, now);
    }
  }

  lemma FullAllows(l: Flow.Limits, sid: SessionID, now: real)
    requires sid !in l.last && l.burst >= 1.0
    ensures Flow.Allows(l, sid, now)
  {
  }

  // After a reconnect, in any series of calls before it, the tracker is the
  // session's own: nothing confirmed before counts, and what is confirmed after
  // covers the deliveries up to it.
  lemma ReconnectTracks(id: SessionID, rate: real, burst: int, acts: seq<Act>, n: int, ev: Event, c: S.Chance)
    ensures var s := S.Reconnect(Run(S.NewSession(id, rate, burst), acts), rate, burst);
            && (S.ResumeFrom(s), s.tracker.pending) == (1, {})
            && (ev.sequence <= n ==> S.Deliver(S.Confirm(s, n), ev, c) == (S.Confirm(s, n), S.Ok))
            && (0 < n < ev.sequence && c.room ==> S.Deliver(S.Confirm(s, n), ev, c).0.accepted == [ev])
  {
    hide Flow.Allows, Flow.Spend, Run, ToldBy;
    RunTracks(S.NewSession(id, rate, burst), acts);
    var s := S.Reconnect(Run(S.NewSession(id, rate, burst), acts), rate, burst);
    FullAllows(s.limits, s.id, c.now);
  }

  // ---- The replay window.

  // What a series writes as replayed events, and what its deliveries pass on.
  function Written(s: S.SessionState, acts: seq<Act>): seq<Event>
    decreases |acts|
  {
    if acts == [] then []
    else
      var a := acts[0];
      (if a.ReplayWrite? && s.state.Accepting() && !s.writerClosed && a.room then [a.ev] else [])
      + Written(Step(s, a), acts[1..])
  }

  function Passed(s: S.SessionState, acts: seq<Act>): seq<Event>
    decreases |acts|
  {
    if acts == [] then []
    else (if Passes(s, acts[0]) then [acts[0].ev] else []) + Passed(Step(s, acts[0]), acts[1..])
  }

  // Calls that may come while a window is open; FinishClose would empty it.
  predicate Inside(a: Act) {
    !a.BeginReplay? && !a.EndReplay? && !a.FinishClose? && !a.Reconnect?
  }

  lemma StepInWindow(s: S.SessionState, a: Act)
    requires s.replaying && Inside(a)
    ensures var s' := Step(s, a);
            && s'.replaying && s'.writerClosed == s.writerClosed
            && s'.buffer == s.buffer + (if Passes(s, a) then [a.ev] else [])
            && s'.accepted == s.accepted +
                 if a.ReplayWrite? && s.state.Accepting() && !s.writerClosed && a.room then [a.ev] else []
  {
    hide Passes, S.Rebound, S.Confirmed, S.DeliverAmid;
    if a.Deliver? {
      DeliveryOutcome(s, a);
    } else {
      OnlyDeliveriesPass(s, a);
    }
  }

  lemma OnlyDeliveriesPass(s: S.SessionState, a: Act)
    ensures Passes(s, a) ==> a.Deliver?
  {
  }

  lemma {:induction false} SeriesInWindow(s: S.SessionState, acts: seq<Act>)
    requires s.replaying && forall i | 0 <= i < |acts| :: Inside(acts[i])
    ensures var s' := Run(s, acts);
            && s'.replaying && s'.writerClosed == s.writerClosed
            && s'.buffer == s.buffer + Passed(s, acts)
            && s'.accepted == s.accepted + Written(s, acts)
    decreases |acts|
  {
    hide Step, Inside, Passes;
    if acts != [] {
      StepInWindow(s, acts[0]);
      OnlyDeliveriesPass(s, acts[0]);
      SeriesInWindow(Step(s, acts[0]), acts[1..]);
    }
  }

  // A whole window: from any state in which it opens, over any deliveries,
  // replayed events and other calls in any order, the queue gets the replayed
  // events that had room, in order, and then, when the window ends, the live
  // events that got past every check in between, in order, each that has room.
  lemma ReplayComesFirst(s: S.SessionState, acts: seq<Act>, rooms: seq<bool>)
    requires S.BeginReplay(s).1 && forall i | 0 <= i < |acts| :: Inside(acts[i])
    requires |rooms| == |Passed(Step(s, BeginReplay), acts)|
    ensures var s1 := Step(s, BeginReplay);
            var s' := Run(s1, acts);
            var end := Step(s', EndReplay(rooms));
            && |s'.buffer| == |rooms| && !end.replaying && end.buffer == []
            && end.accepted == s.accepted + Written(s1, acts)
                               + (if s.writerClosed then [] else Offered(Passed(s1, acts), rooms))
            && (!s.writerClosed && (forall i | 0 <= i < |rooms| :: rooms[i]) ==>
                  end.accepted == s.accepted + Written(s1, acts) + Passed(s1, acts))
  {
    hide Inside, Run, Written, Passed, Offered, S.Flush;
    var s1 := Step(s, BeginReplay);
    SeriesInWindow(s1, acts);
    var s' := Run(s1, acts);
    assert s'.buffer == Passed(s1, acts);
    EndReplayFlushesTheBuffer(s', rooms);
  }

  // The flush does not record what it queues: an event delivered in a window is
  // still unknown to the tracker afterwards, so a second delivery of it, with a
  // token to spend, queues it again.
  lemma FlushedEventIsQueuedAgain(s: S.SessionState, ev: Event, c: S.Chance, c': S.Chance)
    requires Open(s) && New(s, ev.sequence) && c'.room
    requires Flow.Allows(s.limits, s.id, c.now)
    ensures var begun := Step(s, BeginReplay);
            var delivered := Step(begun, Deliver(ev, c, [], []));
            var flushed := S.EndReplay(delivered, [true]);
            && delivered.buffer == [ev] && flushed.accepted == s.accepted + [ev]
            && New(flushed, ev.sequence)
            && (Flow.Allows(flushed.limits, s.id, c'.now) ==>
                  Step(flushed, Deliver(ev, c', [], [])).accepted == s.accepted + [ev, ev])
  {
    hide Flow.Allows, Flow.Spend, S.Flush, S.DeliverAmid;
    var begun := Step(s, BeginReplay);
    S.DeliverUndisturbed(begun, ev, c);
    var delivered := Step(begun, Deliver(ev, c, [], []));
    assert delivered.buffer == [ev];
    EndReplayFlushesTheBuffer(delivered, [true]);
    var flushed := S.EndReplay(delivered, [true]);
    assert flushed.accepted == s.accepted + [ev];
    if Flow.Allows(flushed.limits, s.id, c'.now) {
      hide New;
      OneIsQueued(flushed, Deliver(ev, c', [], []));
    }
  }

  // ---- Closing.

  function Finishes(acts: seq<Act>): nat
    decreases |acts|
  {
    if acts == [] then 0 else (if acts[0].FinishClose? then 1 else 0) + Finishes(acts[1..])
  }

  lemma StepOfClosing(s: S.SessionState, a: Act)
    requires Shut(s) && !a.Reconnect?
    ensures var s' := Step(s, a);
            && Shut(s') && s'.limits == s.limits
            && (s.writerClosed ==> s'.writerClosed)
            && (s.writerClosed || s.buffer == [] ==> s'.accepted == s.accepted && (s.buffer == [] ==> s'.buffer == []))
            && (a.Deliver? ==> S.DeliverAmid(s, a.ev, a.c, a.mid, a.late).1 == S.ErrClosed && s'.accepted == s.accepted)
            && (a.ReplayWrite? ==> S.ReplayWrite(s, a.ev, a.room).1 == S.ErrClosed && s'.accepted == s.accepted)
            && (a.BeginReplay? ==> !S.BeginReplay(s).1)
            && (a.BeginClose? ==> !S.BeginClose(s).1)
            && s'.closes == s.closes + if a.FinishClose? then 1 else 0
  {
    hide S.Flush, S.Confirmed;
    if a.Deliver? {
      ConfirmsKeep(s, a.mid, a.late);
    } else if a.EndReplay? && |a.rooms| == |s.buffer| {
      EndReplayFlushesTheBuffer(s, a.rooms);
    }
  }

  // Once closing has begun it stays begun until a reconnect: every delivery and
  // replayed write is refused, no window opens, nobody wins the closing again and
  // no token is spent; from an empty buffer or a closed writer nothing more is
  // queued at all; and the channel is closed once per FinishClose.
  lemma {:induction false} ClosingEndsDelivery(s: S.SessionState, acts: seq<Act>, a: Act)
    requires Shut(s) && OneLife(acts) && !a.Reconnect?
    ensures var s' := Run(s, acts);
            && Shut(s') && s'.limits == s.limits
            && (s.writerClosed || s.buffer == [] ==> s'.accepted == s.accepted)
            && s'.closes == s.closes + Finishes(acts)
            && (a.Deliver? ==> S.DeliverAmid(s', a.ev, a.c, a.mid, a.late).1 == S.ErrClosed)
            && (a.ReplayWrite? ==> S.ReplayWrite(s', a.ev, a.room).1 == S.ErrClosed)
            && !S.BeginReplay(s').1 && !S.BeginClose(s').1
    decreases |acts|
  {
    hide Step, S.DeliverAmid, S.ReplayWrite, S.BeginReplay, S.BeginClose;
    if acts == [] {
      StepOfClosing(s, a);
      StepOfClosing(s, BeginReplay);
      StepOfClosing(s, BeginClose);
    } else {
      StepOfClosing(s, acts[0]);
      ClosingEndsDelivery(Step(s, acts[0]), acts[1..], a);
    }
  }

  // FinishClose and a BeginClose that wins begin it, from any state.
  lemma BothBeginClosing(s: S.SessionState)
    ensures var s' := Step(s, FinishClose); Shut(s') && s'.writerClosed && s'.accepted == s.accepted
    ensures Shut(Step(s, BeginClose))
    ensures S.BeginClose(s).1 <==> !Shut(s)
  {
  }

  ghost predicate Closes(a: Act) {
    a.BeginClose? || a.FinishClose?
  }

  lemma StepCloses(s: S.SessionState, a: Act)
    requires !Shut(s) && !a.Reconnect?
    ensures Shut(Step(s, a)) <==> Closes(a)
  {
    hide S.Flush, S.Rebound, S.Confirmed, S.Admit;
    if a.Deliver? {
      DeliveryOutcome(s, a);
      hide S.DeliverAmid, Passes, Comes;
    } else if a.EndReplay? && |a.rooms| == |s.buffer| {
      EndReplayFlushesTheBuffer(s, a.rooms);
    }
  }

  // A session that accepts events stops doing so, before a reconnect, iff someone
  // closes it: no delivery, suspicion or replay does.
  lemma {:induction false} ShutIffClosed(s: S.SessionState, acts: seq<Act>)
    requires !Shut(s) && OneLife(acts)
    ensures Shut(Run(s, acts)) <==> exists i :: 0 <= i < |acts| && Closes(acts[i])
    decreases |acts|
  {
    hide Step, Closes;
    if acts != [] {
      StepCloses(s, acts[0]);
      if Closes(acts[0]) {
        ClosingEndsDelivery(Step(s, acts[0]), acts[1..], Suspect);
      } else {
        ShutIffClosed(Step(s, acts[0]), acts[1..]);
        assert forall i | 1 <= i < |acts| :: acts[i] == acts[1..][i - 1];
        assert forall i | 0 <= i < |acts[1..]| :: acts[1..][i] == acts[i + 1];
      }
    }
  }
}
