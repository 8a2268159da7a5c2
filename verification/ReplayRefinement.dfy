// The session's calls against the step machine of its replay windows: in any
// series of whole calls the two have the same queue, buffer, window and state, so
// what holds of the machine's queue holds of the session's.
module ReplayRefinement {
  import opened Types
  import S = SessionModel
  import opened SessionRuns
  import R = ReplayMachine

  function Events(items: seq<R.Item>): seq<Event>
    decreases |items|
  {
    if items == [] then [] else Events(items[..|items| - 1]) + [items[|items| - 1].ev]
  }

  lemma EventsSnoc(items: seq<R.Item>, x: R.Item)
    ensures Events(items + [x]) == Events(items) + [x.ev]
  {
    assert (items + [x])[..|items|] == items;
  }

  lemma {:induction false} EventsConcat(a: seq<R.Item>, b: seq<R.Item>)
    ensures Events(a + b) == Events(a) + Events(b)
    decreases |b|
  {
    if b == [] {
      assert a + b == a;
    } else {
      var last := |b| - 1;
      EventsConcat(a, b[..last]);
      assert (a + b)[..|a + b| - 1] == a + b[..last];
    }
  }

  lemma {:induction false} EventsLength(items: seq<R.Item>)
    ensures |Events(items)| == |items|
    decreases |items|
  {
    if items != [] {
      EventsLength(items[..|items| - 1]);
    }
  }

  ghost predicate Agree(m: R.Session, s: S.SessionState) {
    m.state == s.state && m.replaying == s.replaying && Events(m.buffer) == s.buffer && Events(m.queue) == s.accepted
  }

  // ---- One call of each kind.

  // A delivery is a step of the machine iff it gets past every check; the queue
  // takes its event iff the writer is open and has room.
  lemma DeliverAgrees(m: R.Session, s: S.SessionState, a: Act)
    requires Agree(m, s) && a.Deliver?
    ensures var m' := if Passes(s, a) then R.Apply(m, R.Deliver(a.ev, a.c.room && !s.writerClosed)) else m;
            Agree(m', Step(s, a)) && m'.threads == m.threads
  {
    hide S.DeliverAmid, S.Rebound, S.Confirmed, Events;
    DeliveryOutcome(s, a);
    PassesAccepting(s, a);
    hide Passes;
    var item := R.Live(a.ev, m.arrivals, m.windows);
    EventsSnoc(m.buffer, item);
    EventsSnoc(m.queue, item);
  }

  lemma PassesAccepting(s: S.SessionState, a: Act)
    ensures Passes(s, a) ==> s.state.Accepting()
  {
  }

  lemma BeginAgrees(m: R.Session, s: S.SessionState, t: Tid, events: seq<Event>)
    requires Agree(m, s) && t !in m.threads
    ensures var m' := R.Apply(m, R.BeginReplay(t, events));
            && Agree(m', S.BeginReplay(s).0)
            && (S.BeginReplay(s).1 <==> t in m'.threads)
            && forall u | u in m.threads :: u in m'.threads && m'.threads[u] == m.threads[u]
  {
  }

  lemma WriteAgrees(m: R.Session, s: S.SessionState, t: Tid, room: bool)
    requires Agree(m, s) && t in m.threads && m.threads[t].Replaying? && m.threads[t].todo != []
    ensures var todo := m.threads[t].todo;
            var m' := R.Apply(m, R.ReplayWrite(t, room && !s.writerClosed));
            && Agree(m', S.ReplayWrite(s, todo[0], room).0)
            && t in m'.threads && m'.threads[t].Replaying?
            && m'.threads[t].todo == if S.ReplayWrite(s, todo[0], room).1 == S.Ok then todo[1..] else []
  {
    EventsSnoc(m.queue, R.Replayed(m.threads[t].todo[0], m.threads[t].window));
  }

  // The offers of one flush and its last look at an empty rest.
  function Offers(t: Tid, rooms: seq<bool>, open: bool): seq<R.Step>
    decreases |rooms|
  {
    if rooms == [] then [R.FlushNext(t, false)] else [R.FlushNext(t, open && rooms[0])] + Offers(t, rooms[1..], open)
  }

  ghost predicate FlushedTo(m: R.Session, m': R.Session, t: Tid, queued: seq<Event>) {
    && m'.state == m.state && m'.replaying == m.replaying && m'.buffer == m.buffer
    && m'.threads == m.threads - {t}
    && Events(m'.queue) == Events(m.queue) + queued
  }

  lemma OfferOne(m: R.Session, t: Tid, accepted: bool)
    requires R.Rest(m, t) != []
    ensures var m', rest := R.Apply(m, R.FlushNext(t, accepted)), R.Rest(m, t);
            && m'.state == m.state && m'.replaying == m.replaying && m'.buffer == m.buffer
            && t in m'.threads && m'.threads[t].Flushing? && R.Rest(m', t) == rest[1..]
            && m'.threads - {t} == m.threads - {t}
            && Events(m'.queue) == Events(m.queue) + if accepted then [rest[0].ev] else []
  {
    EventsSnoc(m.queue, R.Rest(m, t)[0]);
  }

  lemma EventsHead(items: seq<R.Item>)
    requires items != []
    ensures Events(items) == [items[0].ev] + Events(items[1..])
  {
    EventsConcat(items[..1], items[1..]);
    assert items[..1] + items[1..] == items;
    assert items[..1][..0] == [] && Events([]) == [];
  }

  lemma FlushDone(m: R.Session, t: Tid)
    requires t in m.threads && m.threads[t].Flushing? && R.Rest(m, t) == []
    ensures R.Run(m, [R.FlushNext(t, false)]) == m.(threads := m.threads - {t})
  {
    assert R.Run(m, [R.FlushNext(t, false)]) == R.Apply(m, R.FlushNext(t, false));
  }

  lemma {:induction false} OffersFlush(m: R.Session, t: Tid, rooms: seq<bool>, open: bool)
    requires t in m.threads && m.threads[t].Flushing? && |rooms| == |R.Rest(m, t)| == |Events(R.Rest(m, t))|
    ensures FlushedTo(m, R.Run(m, Offers(t, rooms, open)), t,
                      if open then Offered(Events(R.Rest(m, t)), rooms) else [])
    decreases |rooms|
  {
    hide R.Apply, R.Rest, R.Run, Events, Offered;
    var rest := R.Rest(m, t);
    if rooms == [] {
      FlushDone(m, t);
      OfferedStep(rooms, rest);
      assert Events(m.queue) + [] == Events(m.queue);
    } else {
      var step := R.FlushNext(t, open && rooms[0]);
      var m1 := R.Apply(m, step);
      OfferOne(m, t, open && rooms[0]);
      OfferedStep(rooms, rest);
      OffersFlush(m1, t, rooms[1..], open);
      RunHead(m, step, Offers(t, rooms[1..], open));
    }
  }

  lemma OfferedStep(rooms: seq<bool>, rest: seq<R.Item>)
    requires |rooms| == |rest| == |Events(rest)|
    ensures rest == [] ==> Offered(Events(rest), rooms) == []
    ensures rest != [] ==>
              && |Events(rest[1..])| == |rest| - 1
              && Offered(Events(rest), rooms) ==
                 (if rooms[0] then [rest[0].ev] else []) + Offered(Events(rest[1..]), rooms[1..])
  {
    hide Events;
    if rest != [] {
      EventsHead(rest);
      EventsLength(rest[1..]);
    }
  }

  // EndReplay is the machine's locked step and all its offers.
  lemma EndAgrees(m: R.Session, s: S.SessionState, t: Tid, rooms: seq<bool>)
    requires Agree(m, s) && |rooms| == |s.buffer|
    requires t in m.threads && m.threads[t].Replaying? && m.threads[t].todo == []
    ensures var m' := R.Run(m, [R.EndReplay(t)] + Offers(t, rooms, !s.writerClosed));
            Agree(m', S.EndReplay(s, rooms)) && m'.threads == m.threads - {t}
  {
    hide R.Run, Offers, Offered, S.Flush, Events;
    var m1 := R.Apply(m, R.EndReplay(t));
    assert R.Rest(m1, t) == m.buffer;
    EventsLength(m.buffer);
    OffersFlush(m1, t, rooms, !s.writerClosed);
    EndReplayFlushesTheBuffer(s, rooms);
    EventsNone();
    RunHead(m, R.EndReplay(t), Offers(t, rooms, !s.writerClosed));
  }

  lemma EventsNone()
    ensures Events([]) == []
  {
  }

  lemma RunHead(m: R.Session, a: R.Step, rest: seq<R.Step>)
    ensures R.Run(m, [a] + rest) == R.Run(R.Apply(m, a), rest)
  {
    assert ([a] + rest)[1..] == rest;
  }

  lemma ClosingAgrees(m: R.Session, s: S.SessionState)
    requires Agree(m, s)
    ensures Agree(R.Apply(m, R.Suspect), S.Suspect(s))
    ensures Agree(R.Apply(m, R.BeginClose), S.BeginClose(s).0)
  {
    hide Events;
  }

  lemma FinishAgrees(m: R.Session, s: S.SessionState)
    requires Agree(m, s)
    ensures Agree(R.Apply(m, R.FinishClose), S.FinishClose(s))
  {
    hide Events;
    EventsNone();
  }

  // ---- Whole series of calls.

  // A call, with the thread that makes it where that matters.
  datatype Call =
    | Live(ev: Event, c: S.Chance, mid: seq<int>, late: seq<int>)
    | Confirmation(n: int)
    | Opening(t: Tid, events: seq<Event>)
    | Writing(t: Tid, room: bool)
    | Ending(t: Tid, rooms: seq<bool>)
    | Suspicion
    | Closing
    | Finishing

  // The thread is where it makes the call.
  predicate Due(m: R.Session, s: S.SessionState, call: Call) {
    match call
    case Opening(t, _) => t !in m.threads
    case Writing(t, _) => t in m.threads && m.threads[t].Replaying? && m.threads[t].todo != []
    case Ending(t, rooms) => t in m.threads && m.threads[t].Replaying? && m.threads[t].todo == [] && |rooms| == |s.buffer|
    case _ => true
  }

  // The call of the session, and the steps of the machine.
  function ActOf(m: R.Session, s: S.SessionState, call: Call): Act
    requires Due(m, s, call)
  {
    match call
    case Live(ev, c, mid, late) => Deliver(ev, c, mid, late)
    case Confirmation(n) => Confirm(n)
    case Opening(_, _) => BeginReplay
    case Writing(t, room) => ReplayWrite(m.threads[t].todo[0], room)
    case Ending(_, rooms) => EndReplay(rooms)
    case Suspicion => Suspect
    case Closing => BeginClose
    case Finishing => FinishClose
  }

  function StepsOf(m: R.Session, s: S.SessionState, call: Call): seq<R.Step>
    requires Due(m, s, call)
  {
    match call
    case Live(ev, c, mid, late) =>
      if Passes(s, ActOf(m, s, call)) then [R.Deliver(ev, c.room && !s.writerClosed)] else []
    case Confirmation(_) => []
    case Opening(t, events) => [R.BeginReplay(t, events)]
    case Writing(t, room) => [R.ReplayWrite(t, room && !s.writerClosed)]
    case Ending(t, rooms) => [R.EndReplay(t)] + Offers(t, rooms, !s.writerClosed)
    case Suspicion => [R.Suspect]
    case Closing => [R.BeginClose]
    case Finishing => [R.FinishClose]
  }

  // Between whole calls no flush is under way.
  ghost predicate NoFlush(m: R.Session) {
    forall t | t in m.threads :: m.threads[t].Replaying?
  }

  lemma RunOne(m: R.Session, a: R.Step)
    ensures R.Run(m, [a]) == R.Apply(m, a) && R.Run(m, []) == m
  {
    assert [a][1..] == [];
  }

  lemma CallAgrees(m: R.Session, s: S.SessionState, call: Call)
    requires Agree(m, s) && NoFlush(m) && Due(m, s, call)
    ensures var m' := R.Run(m, StepsOf(m, s, call));
            Agree(m', Step(s, ActOf(m, s, call))) && NoFlush(m')
  {
    hide R.Run, Offers, Passes, Events, Agree, S.DeliverAmid, S.EndReplay, R.DeliverStep;
    match call
    case Live(ev, c, mid, late) =>
      DeliverAgrees(m, s, ActOf(m, s, call));
      RunOne(m, R.Deliver(ev, c.room && !s.writerClosed));
    case Confirmation(n) =>
      RunOne(m, R.Suspect);
      ConfirmAgrees(m, s, n);
    case Opening(t, events) =>
      BeginAgrees(m, s, t, events);
      RunOne(m, R.BeginReplay(t, events));
    case Writing(t, room) =>
      WriteAgrees(m, s, t, room);
      RunOne(m, R.ReplayWrite(t, room && !s.writerClosed));
    case Ending(t, rooms) => EndAgrees(m, s, t, rooms);
    case Finishing =>
      FinishAgrees(m, s);
      RunOne(m, R.FinishClose);
    case Suspicion =>
      ClosingAgrees(m, s);
      RunOne(m, R.Suspect);
    case Closing =>
      ClosingAgrees(m, s);
      RunOne(m, R.BeginClose);
  }

  lemma ConfirmAgrees(m: R.Session, s: S.SessionState, n: int)
    requires Agree(m, s)
    ensures Agree(m, S.Confirm(s, n))
  {
  }

  // What a series makes of the session, and the machine's run beside it.  A call
  // that is not due is not made.
  function Acts(m: R.Session, s: S.SessionState, calls: seq<Call>): seq<Act>
    decreases |calls|
  {
    if calls == [] then []
    else if !Due(m, s, calls[0]) then Acts(m, s, calls[1..])
    else
      var a := ActOf(m, s, calls[0]);
      [a] + Acts(R.Run(m, StepsOf(m, s, calls[0])), Step(s, a), calls[1..])
  }

  function Steps(m: R.Session, s: S.SessionState, calls: seq<Call>): seq<R.Step>
    decreases |calls|
  {
    if calls == [] then []
    else if !Due(m, s, calls[0]) then Steps(m, s, calls[1..])
    else
      var steps := StepsOf(m, s, calls[0]);
      steps + Steps(R.Run(m, steps), Step(s, ActOf(m, s, calls[0])), calls[1..])
  }

  lemma {:induction false} SeriesAgrees(m: R.Session, s: S.SessionState, calls: seq<Call>)
    requires Agree(m, s) && NoFlush(m)
    ensures var m' := R.Run(m, Steps(m, s, calls));
            Agree(m', Run(s, Acts(m, s, calls))) && NoFlush(m')
    decreases |calls|
  {
    hide Agree, NoFlush, Due, Step, ActOf, StepsOf, R.Apply;
    if calls != [] {
      if Due(m, s, calls[0]) {
        var steps, a := StepsOf(m, s, calls[0]), ActOf(m, s, calls[0]);
        var m1, s1 := R.Run(m, steps), Step(s, a);
        CallAgrees(m, s, calls[0]);
        SeriesAgrees(m1, s1, calls[1..]);
        R.RunConcat(m, steps, Steps(m1, s1, calls[1..]));
        assert ([a] + Acts(m1, s1, calls[1..]))[1..] == Acts(m1, s1, calls[1..]);
      } else {
        SeriesAgrees(m, s, calls[1..]);
      }
    }
  }

  // ---- Whole calls overtake nothing.

  lemma QuietStep(m: R.Session, a: R.Step)
    requires NoFlush(m) && !a.FlushNext?
    ensures !R.Overtakes(m, a)
  {
  }

  // While one thread flushes and no other does, its offers are in order.
  ghost predicate OnlyFlush(m: R.Session, t: Tid) {
    forall u | u in m.threads && u != t :: m.threads[u].Replaying?
  }

  lemma OwnOffer(m: R.Session, t: Tid, accepted: bool)
    requires OnlyFlush(m, t)
    ensures !R.Overtakes(m, R.FlushNext(t, accepted)) && OnlyFlush(R.Apply(m, R.FlushNext(t, accepted)), t)
  {
  }

  lemma {:induction false} OffersOvertakeNothing(m: R.Session, t: Tid, rooms: seq<bool>, open: bool)
    requires OnlyFlush(m, t)
    ensures R.NeverOvertakes(m, Offers(t, rooms, open))
    decreases |rooms|
  {
    hide R.Apply, OnlyFlush, R.Overtakes;
    if rooms == [] {
      OwnOffer(m, t, false);
    } else {
      OwnOffer(m, t, open && rooms[0]);
      OffersOvertakeNothing(R.Apply(m, R.FlushNext(t, open && rooms[0])), t, rooms[1..], open);
      assert Offers(t, rooms, open)[1..] == Offers(t, rooms[1..], open);
    }
  }

  lemma CallOvertakesNothing(m: R.Session, s: S.SessionState, call: Call)
    requires NoFlush(m) && Due(m, s, call)
    ensures R.NeverOvertakes(m, StepsOf(m, s, call))
  {
    hide R.Overtakes, Offers, Passes;
    var steps := StepsOf(m, s, call);
    if call.Ending? {
      QuietStep(m, R.EndReplay(call.t));
      var m1 := R.Apply(m, R.EndReplay(call.t));
      OffersOvertakeNothing(m1, call.t, call.rooms, !s.writerClosed);
      assert steps[1..] == Offers(call.t, call.rooms, !s.writerClosed);
    } else if steps != [] {
      QuietStep(m, steps[0]);
      assert steps[1..] == [];
    }
  }

  lemma {:induction false} NeverConcat(m: R.Session, a: seq<R.Step>, b: seq<R.Step>)
    requires R.NeverOvertakes(m, a) && R.NeverOvertakes(R.Run(m, a), b)
    ensures R.NeverOvertakes(m, a + b)
    decreases |a|
  {
    hide R.Apply, R.Overtakes;
    if a == [] {
      assert a + b == b;
    } else {
      assert (a + b)[0] == a[0] && (a + b)[1..] == a[1..] + b;
      NeverConcat(R.Apply(m, a[0]), a[1..], b);
    }
  }

  lemma {:induction false} SeriesOvertakesNothing(m: R.Session, s: S.SessionState, calls: seq<Call>)
    requires Agree(m, s) && NoFlush(m)
    ensures R.NeverOvertakes(m, Steps(m, s, calls))
    decreases |calls|
  {
    hide Agree, NoFlush, Due, Step, ActOf, StepsOf, R.Apply, R.Overtakes;
    if calls != [] {
      if Due(m, s, calls[0]) {
        var steps := StepsOf(m, s, calls[0]);
        var m1, s1 := R.Run(m, steps), Step(s, ActOf(m, s, calls[0]));
        CallAgrees(m, s, calls[0]);
        CallOvertakesNothing(m, s, calls[0]);
        SeriesOvertakesNothing(m1, s1, calls[1..]);
        NeverConcat(m, steps, Steps(m1, s1, calls[1..]));
      } else {
        SeriesOvertakesNothing(m, s, calls[1..]);
      }
    }
  }

  // In any series of whole calls on a new session, the session's queue is that of
  // a run of the machine, which has every replayed event before the live events
  // that arrived after its window opened, and, as no call falls into a flush, the
  // live events in the order of their arrival, buffered or not.
  lemma SessionIsTheMachine(id: SessionID, rate: real, burst: int, calls: seq<Call>)
    ensures var s0, m0 := S.NewSession(id, rate, burst), R.NewSession();
            var m, s := R.Run(m0, Steps(m0, s0, calls)), Run(s0, Acts(m0, s0, calls));
            && Agree(m, s) && R.ReplayFirst(m.queue) && R.LiveInOrder(m.queue)
  {
    hide R.Run, R.NeverOvertakes, Run;
    var s0, m0 := S.NewSession(id, rate, burst), R.NewSession();
    assert Agree(m0, s0);
    SeriesAgrees(m0, s0, calls);
    SeriesOvertakesNothing(m0, s0, calls);
    R.ReplayPrecedesLive(Steps(m0, s0, calls));
    R.LiveOrderWithoutOvertaking(Steps(m0, s0, calls));
  }
}
