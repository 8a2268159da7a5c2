// One session: connection state, delivery, confirmation and the replay window,
// as functions that say what each call does when it runs by itself.  The class
// below is proved against them; the interleavings of calls are in
// DeliveryMachine and ReplayMachine.
module SessionModel {
  import opened Types
  import Ack
  import Flow

  // accepted is the history of the present writer's queue; closes counts the
  // closes of the present closed channel, and the second one panics.
  datatype SessionState = SessionState(
    id: SessionID,
    state: ConnState,
    tracker: Ack.AckState,
    epoch: nat,
    limits: Flow.Limits,
    replaying: bool,
    buffer: seq<Event>,
    writerClosed: bool,
    accepted: seq<Event>,
    closes: nat)

  datatype Outcome = Ok | ErrClosed | ErrLimited | ErrBackpressure

  // What a delivery meets: the time, and whether the writer's queue has or gets
  // room before the timer fires.
  datatype Chance = Chance(now: real, room: bool)

  function NewSession(id: SessionID, rate: real, burst: int): SessionState {
    SessionState(id, Active, Ack.Fresh(id), 0, Flow.FromPolicy(rate, burst), false, [], false, [], 0)
  }

  function Enqueue(s: SessionState, ev: Event, room: bool): (SessionState, Outcome) {
    if s.writerClosed then (s, ErrClosed)
    else if room then (s.(accepted := s.accepted + [ev]), Ok)
    else (s, ErrBackpressure)
  }

  // A tracker that is not this incarnation's is replaced by a fresh one.
  function Rebound(s: SessionState): SessionState {
    if s.tracker.owner != s.id || s.tracker.epoch != s.epoch
    then s.(tracker := Ack.Fresh(s.id), epoch := 0) else s
  }

  function Deliver(s: SessionState, ev: Event, c: Chance): (SessionState, Outcome) {
    if !s.state.Accepting() then (s, ErrClosed)
    else
      var s := Rebound(s);
      if s.tracker.Covered(ev.sequence) || s.tracker.IsPending(ev.sequence) then (s, Ok)
      else
        var paid := s.(limits := Flow.Spend(s.limits, s.id, c.now));
        if !Flow.Allows(s.limits, s.id, c.now) then (paid, ErrLimited) else Admit(paid, ev, c.room)
  }

  // A live event past every check: buffered in a replay window, queued outside.
  function Admit(s: SessionState, ev: Event, room: bool): (SessionState, Outcome) {
    if s.replaying then (s.(buffer := s.buffer + [ev]), Ok)
    else
      var (s, r) := Enqueue(s, ev, room);
      (if r == Ok then s.(tracker := s.tracker.Record(ev.sequence, true)) else s, r)
  }

  function Confirm(s: SessionState, n: int): SessionState {
    s.(tracker := s.tracker.Confirm(n))
  }

  function Confirmed(s: SessionState, ns: seq<int>): SessionState
    decreases |ns|
  {
    if ns == [] then s else Confirmed(Confirm(s, ns[0]), ns[1..])
  }

  // A delivery among confirmations, which do not take the session lock: those of
  // mid fall between the two checks of the tracker, those of late between the
  // second check and the record.
  function DeliverAmid(s: SessionState, ev: Event, c: Chance, mid: seq<int>, late: seq<int>): (SessionState, Outcome) {
    if !s.state.Accepting() then (Confirmed(Confirmed(s, mid), late), ErrClosed)
    else
      var s := Rebound(s);
      var covered := s.tracker.Covered(ev.sequence);
      var s := Confirmed(s, mid);
      var pending := s.tracker.IsPending(ev.sequence);
      var s := Confirmed(s, late);
      if covered || pending then (s, Ok)
      else
        var paid := s.(limits := Flow.Spend(s.limits, s.id, c.now));
        if !Flow.Allows(s.limits, s.id, c.now) then (paid, ErrLimited) else Admit(paid, ev, c.room)
  }

  lemma DeliverUndisturbed(s: SessionState, ev: Event, c: Chance)
    ensures DeliverAmid(s, ev, c, [], []) == Deliver(s, ev, c)
  {
  }

  lemma {:induction false} ConfirmedChanges(s: SessionState, ns: seq<int>)
    ensures var s' := Confirmed(s, ns);
            && s' == s.(tracker := s'.tracker)
            && (s'.tracker.owner, s'.tracker.epoch) == (s.tracker.owner, s.tracker.epoch)
            && s'.tracker.acked >= s.tracker.acked
            && (forall n :: n in s'.tracker.pending <==> n in s.tracker.pending && n !in ns)
    decreases |ns|
  {
    if ns != [] {
      ConfirmedChanges(Confirm(s, ns[0]), ns[1..]);
    }
  }

  function ResumeFrom(s: SessionState): int {
    s.tracker.acked + 1
  }

  function BeginReplay(s: SessionState): (SessionState, bool) {
    if !s.state.Accepting() || s.replaying then (s, false)
    else (s.(replaying := true, buffer := []), true)
  }

  function ReplayWrite(s: SessionState, ev: Event, room: bool): (SessionState, Outcome) {
    if !s.state.Accepting() then (s, ErrClosed) else Enqueue(s, ev, room)
  }

  // The flush drops every error, so it offers each event once, in order.
  function Flush(s: SessionState, events: seq<Event>, rooms: seq<bool>): SessionState
    requires |rooms| == |events|
  {
    if events == [] then s
    else
      var last := |events| - 1;
      Enqueue(Flush(s, events[..last], rooms[..last]), events[last], rooms[last]).0
  }

  function EndReplay(s: SessionState, rooms: seq<bool>): SessionState
    requires |rooms| == |s.buffer|
  {
    Flush(s.(replaying := false, buffer := []), s.buffer, rooms)
  }

  function BeginClose(s: SessionState): (SessionState, bool) {
    if s.state.Accepting() then (s.(state := Closing), true) else (s, false)
  }

  function Suspect(s: SessionState): SessionState {
    if s.state.Active? then s.(state := Suspected) else s
  }

  function FinishClose(s: SessionState): SessionState {
    s.(state := Closed, replaying := false, buffer := [], writerClosed := true, closes := s.closes + 1)
  }

  function Reconnect(s: SessionState, rate: real, burst: int): SessionState {
    SessionState(s.id, Active, s.tracker.Reset(), s.tracker.epoch + 1, Flow.FromPolicy(rate, burst), false, [], false, [], 0)
  }
}

// The session object.
module SessionObject {
  import opened Types
  import opened S = SessionModel
  import Ack
  import Flow
  import W = WriterMachine

  class Session {
    const id: SessionID
    const queueSize: int
    const rate: real
    const burst: int
    var state: ConnState
    var writer: W.BoundedWriter
    var tracker: Ack.Tracker
    var flow: Flow.Limiter
    var epoch: nat
    var replaying: bool
    var buffer: seq<Event>
    var closes: nat

    ghost predicate Valid()
      reads this, writer
    {
      writer.Valid()
    }

    ghost function Value(): SessionState
      reads this, writer, tracker, flow
    {
      SessionState(id, state, tracker.State(), epoch, flow.State(), replaying, buffer, writer.closed, writer.accepted,
                   closes)
    }

    ghost function Footprint(): set<object>
      reads this
    {
      {this, writer, tracker, flow}
    }

    constructor (id: SessionID, queueSize: int, rate: real, burst: int)
      ensures Valid() && fresh(Footprint())
      ensures Value() == NewSession(id, rate, burst)
      ensures this.queueSize == queueSize && this.rate == rate && this.burst == burst
    {
      this.id, this.queueSize, this.rate, this.burst := id, queueSize, rate, burst;
      state := Active;
      writer := new W.BoundedWriter(queueSize);
      tracker := new Ack.Tracker(id);
      flow := new Flow.Limiter(rate, burst);
      epoch, replaying, buffer, closes := 0, false, [], 0;
    }

    // A tracker of an older incarnation is replaced.
    method Rebind()
      requires Valid()
      modifies this`tracker, this`epoch
      ensures Valid() && (tracker == old(tracker) || fresh(tracker))
      ensures Value() == Rebound(old(Value()))
    {
      hide W.BoundedWriter.Valid, Flow.FromPolicy;
      if tracker.owner != id || tracker.epoch != epoch {
        tracker := new Ack.Tracker(id);
        epoch := tracker.epoch;
      }
    }

    // The end of Deliver, for an event that passed every check.
    method Admit(ev: Event, drained: bool) returns (r: Outcome)
      requires Valid()
      modifies this`buffer, writer, tracker
      ensures Valid()
      ensures var room := |old(writer.queue)| < writer.cap || drained;
              (Value(), r) == S.Admit(old(Value()), ev, room)
    {
      hide W.Inv, W.BoundedWriter.Valid, W.BoundedWriter.View;
      if replaying {
        buffer := buffer + [ev];
        return Ok;
      }
      var e := writer.Enqueue(ev, drained);
      if e.Accepted? {
        tracker.Record(ev.sequence, true);
        return Ok;
      }
      return if e.ErrClosed? then ErrClosed else ErrBackpressure;
    }

    method Deliver(ev: Event, now: real, drained: bool) returns (r: Outcome)
      requires Valid()
      modifies this, writer, tracker, flow
      ensures Valid() && writer == old(writer) && flow == old(flow)
      ensures tracker == old(tracker) || fresh(tracker)
      ensures var room := |old(writer.queue)| < writer.cap || drained;
              (Value(), r) == S.Deliver(old(Value()), ev, Chance(now, room))
    {
      hide W.BoundedWriter.Valid, Flow.Allows, Flow.Spend, S.Admit, Rebound;
      if state == Closing || state == Closed {
        return ErrClosed;
      }
      Rebind();
      if ev.sequence <= tracker.acked || ev.sequence in tracker.pending {
        return Ok;
      }
      var allowed := flow.Allow(id, now);
      if !allowed {
        return ErrLimited;
      }
      r := Admit(ev, drained);
    }

    method Confirm(n: int)
      requires Valid()
      modifies tracker
      ensures Valid() && Value() == S.Confirm(old(Value()), n)
    {
      tracker.Confirm(n);
    }

    method BeginReplay() returns (ok: bool)
      requires Valid()
      modifies this`replaying, this`buffer
      ensures Valid() && (Value(), ok) == S.BeginReplay(old(Value()))
    {
      if state == Closing || state == Closed {
        return false;
      }
      if replaying {
        return false;
      }
      replaying := true;
      buffer := [];
      return true;
    }

    method ReplayWrite(ev: Event, drained: bool) returns (r: Outcome)
      requires Valid()
      modifies writer
      ensures Valid()
      ensures var room := |old(writer.queue)| < writer.cap || drained;
              (Value(), r) == S.ReplayWrite(old(Value()), ev, room)
    {
      hide W.Inv, W.BoundedWriter.Valid, W.BoundedWriter.View, Flow.Allows, Flow.Spend;
      if state == Closing || state == Closed {
        return ErrClosed;
      }
      var e := writer.Enqueue(ev, drained);
      return if e.Accepted? then Ok else if e.ErrClosed? then ErrClosed else ErrBackpressure;
    }

    // rooms records how each offer of the flush fared.
    method EndReplay(drains: seq<bool>) returns (ghost rooms: seq<bool>)
      requires Valid() && |drains| == |buffer|
      modifies this`replaying, this`buffer, writer
      ensures Valid() && |rooms| == |old(buffer)|
      ensures Value() == S.EndReplay(old(Value()), rooms)
    {
      hide W.Inv;
      var flush := buffer;
      replaying := false;
      buffer := [];
      rooms := [];
      ghost var closedWindow := Value();
      var i := 0;
      while i < |flush|
        invariant i <= |flush| && |rooms| == i
        invariant Valid() && state == old(state) && !replaying && buffer == []
        invariant Value() == Flush(closedWindow, flush[..i], rooms)
      {
        rooms := rooms + [|writer.queue| < writer.cap || drains[i]];
        var _ := writer.Enqueue(flush[i], drains[i]);
        assert flush[..i + 1][..i] == flush[..i] && rooms[..i + 1][..i] == rooms[..i];
        i := i + 1;
      }
      assert flush[..|flush|] == flush;
    }

    method BeginClose() returns (won: bool)
      requires Valid()
      modifies this`state
      ensures Valid() && (Value(), won) == S.BeginClose(old(Value()))
    {
      match state
      case Active => state := Closing; return true;
      case Suspected => state := Closing; return true;
      case _ => return false;
    }

    method Suspect()
      requires Valid()
      modifies this`state
      ensures Valid() && Value() == S.Suspect(old(Value()))
    {
      if state == Active {
        state := Suspected;
      }
    }

    method FinishClose()
      requires Valid()
      modifies this`state, this`replaying, this`buffer, this`closes, writer
      ensures Valid() && Value() == S.FinishClose(old(Value()))
    {
      state := Closed;
      replaying := false;
      buffer := [];
      writer.Shutdown();
      closes := closes + 1;
    }

    method Reconnect()
      requires Valid()
      modifies this, tracker
      ensures Valid() && tracker == old(tracker) && fresh(writer) && fresh(flow)
      ensures Value() == S.Reconnect(old(Value()), rate, burst)
    {
      hide W.Inv;
      writer := new W.BoundedWriter(queueSize);
      tracker.Reset();
      epoch := tracker.epoch;
      flow := new Flow.Limiter(rate, burst);
      state := Active;
      replaying := false;
      buffer := [];
      closes := 0;
    }
  }
}
