// Replaying missed events into a session after a reconnect.
module ResumeModel {
  import opened Types
  import opened S = SessionModel
  import E = EventStore

  datatype ReplayError = AlreadyReplaying | SourceUnavailable | WriteFailed(cause: Outcome)

  // The bound that Replay passes to Since, and the one its comment calls for.
  function Fetched(st: E.StoreState, s: SessionState): seq<Event> {
    st.Since(ResumeFrom(s))
  }

  // In sequence numbers: an event is fetched iff it is retained, committed and at
  // least two above the confirmed position.
  lemma FetchedSequences(st: E.StoreState, s: SessionState, ev: Event)
    requires E.Inv(st)
    ensures ev in Fetched(st, s) <==> ev in st.events && s.tracker.acked + 2 <= ev.sequence <= st.committed
    ensures forall i, j | 0 <= i < j < |Fetched(st, s)| :: Fetched(st, s)[i].sequence < Fetched(st, s)[j].sequence
  {
    E.SinceIsExact(st, ResumeFrom(s));
  }

  // The documented replay, every committed event after the confirmed position,
  // is what the repair fetches that passes the confirmed position itself.
  lemma RepairedFetchIsDocumented(st: E.StoreState, s: SessionState, ev: Event)
    requires E.Inv(st)
    ensures ev in st.Since(s.tracker.acked) <==> ev in st.events && s.tracker.acked < ev.sequence <= st.committed
  {
    E.SinceIsExact(st, s.tracker.acked);
  }

  lemma SliceHead(events: seq<Event>, low: nat, high: nat)
    requires low < high <= |events|
    ensures events[low..high] == [events[low]] + events[low + 1..high]
  {
  }

  // The code meets the documentation exactly when the event next to the confirmed
  // position is not there to be replayed; otherwise that one event is left out.
  lemma CodeSkipsTheNextEvent(st: E.StoreState, s: SessionState)
    requires E.Inv(st) && s.tracker.acked >= 0
    ensures var documented := st.Since(s.tracker.acked);
            var available := s.tracker.acked + 1 <= st.committed && s.tracker.acked + 1 <= |st.events|;
            && (Fetched(st, s) == documented <==> !available)
            && (available ==> documented == [st.events[s.tracker.acked]] + Fetched(st, s))
  {
    hide E.Between;
    var a := s.tracker.acked;
    E.BetweenIsSlice(st, a, st.committed);
    E.BetweenIsSlice(st, a + 1, st.committed);
    if a < st.committed && a < |st.events| {
      SliceHead(st.events, a, E.Cut(st, st.committed));
    }
  }

  // A reconnect resets the confirmed position, so whatever was confirmed before,
  // the replay after it starts from sequence 2.
  lemma ReconnectForgetsPosition(st: E.StoreState, s: SessionState, rate: real, burst: int, ev: Event)
    requires E.Inv(st)
    ensures ev in Fetched(st, Reconnect(s, rate, burst)) <==> ev in st.events && 2 <= ev.sequence <= st.committed
  {
    FetchedSequences(st, Reconnect(s, rate, burst), ev);
  }
}

// The resumer object.
module ResumeObject {
  import opened Types
  import S = SessionModel
  import opened ResumeModel
  import E = EventStore
  import opened SessionObject
  import W = WriterMachine

  class Resumer {
    const source: E.Store?

    constructor (source: E.Store?)
      ensures this.source == source
    {
      this.source := source;
    }

    ghost predicate Ready()
      reads source, if source == null then {} else {source.ring as object, source.ring.buf}
    {
      source != null ==> source.Valid()
    }

    // The events the source returns, or nothing without a source.
    ghost function Events(after: int): Option<seq<Event>>
      requires Ready()
      reads source, if source == null then {} else {source.ring as object, source.ring.buf}
    {
      if source == null then None else Some(source.State().Since(after))
    }

    // The work inside the window: fetch and write until the first failure.
    // written counts the events the writer accepted.
    method Work(sess: Session, drains: nat -> bool) returns (err: Option<ReplayError>, ghost written: nat)
      requires Ready() && sess.Valid() && sess.state.Accepting()
      modifies sess.writer
      ensures sess.Valid()
      ensures source == null ==> err == Some(SourceUnavailable) && sess.Value() == old(sess.Value())
      ensures source != null ==>
                var events := old(Events(sess.tracker.acked + 1)).value;
                && written <= |events|
                && sess.Value() == old(sess.Value()).(accepted := old(sess.Value()).accepted + events[..written])
                && (written == |events| <==> err == None)
                && (err != None ==> err == Some(WriteFailed(if sess.writer.closed then S.ErrClosed else S.ErrBackpressure)))
                && (err == Some(WriteFailed(S.ErrBackpressure)) ==> !drains(written))
    {
      hide W.Inv, W.BoundedWriter.View;
      written := 0;
      if source == null {
        return Some(SourceUnavailable), 0;
      }
      var events := source.Since(sess.tracker.acked + 1);
      ghost var before := sess.Value();
      assert before.accepted + events[..0] == before.accepted;
      var i := 0;
      while i < |events|
        invariant i <= |events| && written == i
        invariant sess.Valid() && sess.writer.closed == old(sess.writer.closed)
        invariant sess.Value() == before.(accepted := before.accepted + events[..i])
      {
        var r := sess.ReplayWrite(events[i], drains(i));
        if r != S.Ok {
          return Some(WriteFailed(r)), i;
        }
        assert (before.accepted + events[..i]) + [events[i]] == before.accepted + events[..i + 1];
        i := i + 1;
        written := i;
      }
      return None, i;
    }

    // One replay that no live delivery disturbs.  drains(i) says whether the
    // drainer frees a slot in time for the i-th write.
    method Replay(sess: Session, drains: nat -> bool) returns (err: Option<ReplayError>, ghost written: nat)
      requires Ready() && sess.Valid() && (!sess.replaying ==> sess.buffer == [])
      modifies sess`replaying, sess`buffer, sess.writer
      ensures sess.Valid()
      ensures !old(sess.state).Accepting() || old(sess.replaying) ==>
                err == Some(AlreadyReplaying) && sess.Value() == old(sess.Value())
      ensures old(sess.state).Accepting() && !old(sess.replaying) && source == null ==>
                err == Some(SourceUnavailable) && sess.Value() == old(sess.Value())
      ensures old(sess.state).Accepting() && !old(sess.replaying) && source != null ==>
                var events := old(Events(sess.tracker.acked + 1)).value;
                && written <= |events|
                && sess.Value() == old(sess.Value()).(accepted := old(sess.Value()).accepted + events[..written])
                && (written == |events| <==> err == None)
    {
      hide W.Inv;
      written := 0;
      var began := sess.BeginReplay();
      if !began {
        return Some(AlreadyReplaying), 0;
      }
      err, written := Work(sess, drains);
      ghost var rooms := sess.EndReplay([]);
      assert rooms == [];
    }
  }
}
