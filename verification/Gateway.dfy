// What one whole publish does to the store, the cursor and the sessions.
module PipelineModel {
  import opened Types
  import opened FanoutModel
  import E = EventStore
  import S = SessionModel

  datatype Outcome = Sequence(n: int) | RingFull | NotDelivered(cause: Result) | InvalidSequence

  datatype Pipeline = Pipeline(store: E.StoreState, cursor: int, sessions: Sessions, published: nat, failed: nat)

  // Append, dispatch, commit: the cursors move after a dispatch without error,
  // and after nothing else.
  ghost function Through(p: Pipeline, ev: Event, sids: seq<SessionID>, rounds: seq<seq<S.Chance>>): (Pipeline, Outcome)
    requires Fits(rounds, [ev], sids)
  {
    var (store, a) := p.store.Append(ev);
    if a.RingFull? then (p.(store := store), RingFull)
    else
      var (sessions, results) := Batch(p.sessions, [ev.(sequence := a.n)], sids, rounds);
      Settled(p.(store := store, sessions := sessions), FirstError(results), a.n)
  }

  function Settled(p: Pipeline, err: Result, n: int): (Pipeline, Outcome) {
    if err != Delivered then (p.(failed := p.failed + 1), NotDelivered(err)) else Finished(p, n)
  }

  function Finished(p: Pipeline, n: int): (Pipeline, Outcome) {
    var (store, c) := p.store.Commit(n);
    if c.InvalidSequence? then (p.(store := store), InvalidSequence)
    else
      (p.(store := store, cursor := if n > p.cursor then n else p.cursor, published := p.published + 1), Sequence(n))
  }

  lemma OneEvent(m: Sessions, ev: Event, sids: seq<SessionID>, cs: seq<S.Chance>)
    requires |cs| == |sids|
    ensures Fits([cs], [ev], sids)
    ensures var (m', results) := Batch(m, [ev], sids, [cs]);
            && m' == Round(m, ev, sids, cs).0
            && FirstError(results) == FirstIn(Round(m, ev, sids, cs).1)
  {
    assert [ev][..0] == [] && [cs][..0] == [];
    var rs := Round(m, ev, sids, cs).1;
    assert [] + [rs] == [rs] && [rs][..0] == [];
  }

  // The attempt on session j of the snapshot.
  function Attempted(p: Pipeline, ev: Event, sid: SessionID, c: S.Chance): (r: Result) {
    if sid in p.sessions then Seen(S.Deliver(p.sessions[sid], ev, c).1) else NoSession(sid)
  }

  lemma DispatchOne(p: Pipeline, ev: Event, sids: seq<SessionID>, cs: seq<S.Chance>)
    requires NoDuplicates(sids) && |cs| == |sids|
    ensures Fits([cs], [ev], sids)
    ensures var (sessions, results) := Batch(p.sessions, [ev], sids, [cs]);
            && sessions.Keys == p.sessions.Keys
            && (forall sid | sid in p.sessions && sid !in sids :: sessions[sid] == p.sessions[sid])
            && (forall j | 0 <= j < |sids| && sids[j] in p.sessions ::
                  sessions[sids[j]] == S.Deliver(p.sessions[sids[j]], ev, cs[j]).0)
            && (FirstError(results) == Delivered <==>
                  forall j | 0 <= j < |sids| :: Attempted(p, ev, sids[j], cs[j]) == Delivered)
  {
    hide Batch, Round, FirstIn, FirstError, S.Deliver, NoDuplicates;
    OneEvent(p.sessions, ev, sids, cs);
    RoundIsPerSession(p.sessions, ev, sids, cs);
    FirstInIsFirst(Round(p.sessions, ev, sids, cs).1);
  }

  // A whole publish.  A full store refuses it and nothing else happens.  Otherwise
  // the event is retained, with its topic and payload under the next sequence, and
  // offered to every session of the snapshot once; the sequence is returned, and
  // committed and passed by the cursor, iff every one of them is registered and
  // answered without an error.  Exactly one counter counts it.
  lemma PublishIs(p: Pipeline, ev: Event, sids: seq<SessionID>, cs: seq<S.Chance>)
    requires NoDuplicates(sids) && |cs| == |sids|
    ensures Fits([cs], [ev], sids)
    ensures var (p', r) := Through(p, ev, sids, [cs]);
            var n := p.store.counter + 1;
            var stored := Event(n, ev.topic, ev.payload);
            && p'.store.counter == n
            && (r == RingFull <==> |p.store.events| >= p.store.cap)
            && (r == RingFull ==> p' == p.(store := p.store.(counter := n)))
            && (r != RingFull ==>
                  && p'.store.events == p.store.events + [stored]
                  && p'.sessions.Keys == p.sessions.Keys
                  && (forall sid | sid in p.sessions && sid !in sids :: p'.sessions[sid] == p.sessions[sid])
                  && (forall j | 0 <= j < |sids| && sids[j] in p.sessions ::
                        p'.sessions[sids[j]] == S.Deliver(p.sessions[sids[j]], stored, cs[j]).0)
                  && (r == Sequence(n) <==>
                        forall j | 0 <= j < |sids| ::
                          sids[j] in p.sessions && S.Deliver(p.sessions[sids[j]], stored, cs[j]).1 == S.Ok)
                  && (if r == Sequence(n)
                      then p'.store.committed == E.Max(p.store.committed, n) && p'.cursor == E.Max(p.cursor, n)
                           && (p'.published, p'.failed) == (p.published + 1, p.failed)
                      else r.NotDelivered? && p'.store.committed == p.store.committed && p'.cursor == p.cursor
                           && (p'.published, p'.failed) == (p.published, p.failed + 1)))
  {
    hide Batch, FirstError, S.Deliver, NoDuplicates;
    assert Fits([cs], [ev], sids);
    DispatchOne(p, Event(p.store.counter + 1, ev.topic, ev.payload), sids, cs);
  }
}

// The gateway end to end: one publish at a time, while sessions are bound,
// suspected, unregistered, closed and bound again at any point of it, and clients
// confirm at any time, also in the middle of a delivery.  Nobody reconnects and no
// replay window is open.  Subscriptions decide nothing here but the snapshot of
// each publish, which is an argument of its step and may be any list of sessions.
module GatewayModel {
  import opened Types
  import opened FanoutModel
  import opened EventStore
  import opened PipelineModel
  import S = SessionModel
  import Calls = SessionRuns

  // target is the session Get returned for the next id, until it is delivered to.
  datatype Publishing =
    | Idle
    | Busy(ev: Event, sids: seq<SessionID>, next: nat, target: Option<nat>, err: Result)

  // A publish that returned without an error, and the snapshot it went to.
  datatype Published = Published(ev: Event, sids: seq<SessionID>)

  // objs are all sessions ever bound; ids says which of them are registered.
  // published is a history: the publishes that returned without an error.
  datatype Gateway = Gateway(
    store: StoreState,
    progress: int,
    objs: seq<S.SessionState>,
    ids: map<SessionID, nat>,
    current: Publishing,
    published: seq<Published>)

  // Calls on a session name it by its place in objs: they reach it whether it is
  // registered or not.
  datatype Action =
    | Bind(sid: SessionID, rate: real, burst: int)
    | Unregister(k: nat)
    | Confirm(k: nat, n: int)
    | Suspect(k: nat)
    | BeginClose(k: nat)
    | FinishClose(k: nat)
    | Publish(ev: Event, sids: seq<SessionID>)
    | Get
    | Deliver(chance: S.Chance, mid: seq<int>, late: seq<int>)
    | Return

  function NewGateway(capacity: int): Gateway {
    Gateway(NewStore(capacity), 0, [], map[], Idle, [])
  }

  function BindStep(s: Gateway, sid: SessionID, rate: real, burst: int): Gateway {
    if sid in s.ids && s.ids[sid] < |s.objs| && s.objs[s.ids[sid]].state != Closed then s
    else s.(objs := s.objs + [S.NewSession(sid, rate, burst)], ids := s.ids[sid := |s.objs|])
  }

  function UnregisterStep(s: Gateway, k: nat): Gateway {
    if k < |s.objs| && s.objs[k].id in s.ids && s.ids[s.objs[k].id] == k then s.(ids := s.ids - {s.objs[k].id}) else s
  }

  // Publish up to the snapshot; a full store ends it there.
  function PublishStep(s: Gateway, ev: Event, sids: seq<SessionID>): Gateway {
    var (store, r) := s.store.Append(ev);
    match r
    case RingFull => s.(store := store)
    case Appended(n) => s.(store := store, current := Busy(ev.(sequence := n), sids, 0, None, Delivered))
  }

  function Tried(b: Publishing, r: Result): Publishing
    requires b.Busy?
  {
    b.(next := b.next + 1, target := None, err := if b.err != Delivered then b.err else r)
  }

  function GetStep(s: Gateway): Gateway
    requires s.current.Busy? && s.current.next < |s.current.sids|
  {
    var b := s.current;
    var sid := b.sids[b.next];
    if sid in s.ids then s.(current := b.(target := Some(s.ids[sid]))) else s.(current := Tried(b, NoSession(sid)))
  }

  // mid and late are the client's confirmations inside the delivery.
  function DeliverStep(s: Gateway, k: nat, c: S.Chance, mid: seq<int>, late: seq<int>): Gateway
    requires s.current.Busy? && k < |s.objs|
  {
    var (x, r) := S.DeliverAmid(s.objs[k], s.current.ev, c, mid, late);
    s.(objs := s.objs[k := x], current := Tried(s.current, Seen(r)))
  }

  function ReturnStep(s: Gateway): Gateway
    requires s.current.Busy?
  {
    var b := s.current;
    if b.err != Delivered then s.(current := Idle)
    else
      var (store, r) := s.store.Commit(b.ev.sequence);
      match r
      case InvalidSequence => s.(store := store, current := Idle)
      case Committed =>
        s.(store := store,
           progress := if b.ev.sequence > s.progress then b.ev.sequence else s.progress,
           current := Idle,
           published := s.published + [Published(b.ev, b.sids)])
  }

  function OnObject(s: Gateway, k: nat, x: S.SessionState): Gateway
    requires k < |s.objs|
  {
    s.(objs := s.objs[k := x])
  }

  // Every snapshot lists a session at most once.
  ghost predicate Enabled(s: Gateway, a: Action) {
    match a
    case Bind(_, _, _) => true
    case Unregister(_) => true
    case Publish(_, sids) => s.current.Idle? && NoDuplicates(sids)
    case Get => s.current.Busy? && s.current.next < |s.current.sids| && s.current.target.None?
    case Deliver(_, _, _) => s.current.Busy? && s.current.target.Some? && s.current.target.value < |s.objs|
    case Return => s.current.Busy? && s.current.next >= |s.current.sids|
    case _ => a.k < |s.objs|
  }

  ghost function Apply(s: Gateway, a: Action): Gateway {
    if !Enabled(s, a) then s else
    match a
    case Bind(sid, rate, burst) => BindStep(s, sid, rate, burst)
    case Unregister(k) => UnregisterStep(s, k)
    case Confirm(k, n) => OnObject(s, k, S.Confirm(s.objs[k], n))
    case Suspect(k) => OnObject(s, k, S.Suspect(s.objs[k]))
    case BeginClose(k) => OnObject(s, k, S.BeginClose(s.objs[k]).0)
    case FinishClose(k) => OnObject(s, k, S.FinishClose(s.objs[k]))
    case Publish(ev, sids) => PublishStep(s, ev, sids)
    case Get => GetStep(s)
    case Deliver(c, mid, late) => DeliverStep(s, s.current.target.value, c, mid, late)
    case Return => ReturnStep(s)
  }

  ghost function Execute(s: Gateway, actions: seq<Action>): Gateway
    decreases |actions|
  {
    if actions == [] then s else Execute(Apply(s, actions[0]), actions[1..])
  }

  // ---- One session.

  ghost predicate InOrder(events: seq<Event>, counter: int) {
    && (forall i, j | 0 <= i < j < |events| :: events[i].sequence < events[j].sequence)
    && (forall i | 0 <= i < |events| :: 0 < events[i].sequence <= counter)
  }

  // Nothing the session has or awaits is as late as n.
  ghost predicate Before(s: S.SessionState, n: int) {
    && (forall i | 0 <= i < |s.accepted| :: s.accepted[i].sequence < n)
    && (forall k | k in s.tracker.pending :: k < n)
  }

  // The tracker is always the session's own, so Deliver never replaces it.
  ghost predicate SessionOk(s: S.SessionState, sid: SessionID, counter: int) {
    && s.id == sid && s.tracker.owner == sid && s.tracker.epoch == s.epoch
    && !s.replaying && s.buffer == []
    && InOrder(s.accepted, counter)
    && (forall k | k in s.tracker.pending :: k <= counter)
  }

  // The session's writer accepted the event, or its client confirmed past it.
  ghost predicate Reached(s: S.SessionState, ev: Event) {
    ev in s.accepted || ev.sequence <= s.tracker.acked
  }

  ghost predicate Grows(s: S.SessionState, s': S.SessionState) {
    s.accepted <= s'.accepted && s.tracker.acked <= s'.tracker.acked
  }

  lemma GrowsKeepsReached(s: S.SessionState, s': S.SessionState, ev: Event)
    requires Grows(s, s')
    ensures Reached(s, ev) ==> Reached(s', ev)
  {
  }

  // The decisive step: a delivery of the latest event appends it or finds it
  // covered; it never finds it pending.
  lemma DeliverLatest(s: S.SessionState, sid: SessionID, ev: Event, c: S.Chance, mid: seq<int>, late: seq<int>)
    requires SessionOk(s, sid, ev.sequence) && Before(s, ev.sequence) && ev.sequence > 0
    ensures var (s', r) := S.DeliverAmid(s, ev, c, mid, late);
            && SessionOk(s', sid, ev.sequence) && Grows(s, s')
            && (r == S.Ok ==> Reached(s', ev))
  {
    S.ConfirmedChanges(s, mid);
    S.ConfirmedChanges(S.Confirmed(s, mid), late);
  }

  lemma LaterCounter(s: S.SessionState, sid: SessionID, counter: int)
    requires SessionOk(s, sid, counter)
    ensures SessionOk(s, sid, counter + 1) && Before(s, counter + 1)
  {
  }

  // A call other than a delivery: nothing accepted, nothing new pending.
  ghost predicate Quiet(s: S.SessionState, s': S.SessionState) {
    && (s'.id, s'.tracker.owner, s'.tracker.epoch, s'.epoch) == (s.id, s.tracker.owner, s.tracker.epoch, s.epoch)
    && s'.accepted == s.accepted
    && s'.tracker.acked >= s.tracker.acked && s'.tracker.pending <= s.tracker.pending
    && (!s.replaying && s.buffer == [] ==> !s'.replaying && s'.buffer == [])
  }

  lemma CallsAreQuiet(s: S.SessionState, n: int)
    ensures Quiet(s, S.Confirm(s, n)) && Quiet(s, S.Suspect(s))
    ensures Quiet(s, S.BeginClose(s).0) && Quiet(s, S.FinishClose(s))
  {
  }

  lemma QuietKeepsSession(s: S.SessionState, s': S.SessionState, sid: SessionID, counter: int)
    requires SessionOk(s, sid, counter) && Quiet(s, s')
    ensures SessionOk(s', sid, counter) && Grows(s, s') && forall m | Before(s, m) :: Before(s', m)
  {
  }

  // ---- The whole gateway.

  ghost predicate SessionsOk(s: Gateway) {
    && (forall k | 0 <= k < |s.objs| :: SessionOk(s.objs[k], s.objs[k].id, s.store.counter))
    && (forall sid | sid in s.ids :: s.ids[sid] < |s.objs| && s.objs[s.ids[sid]].id == sid)
  }

  // A session of this id was reached.
  ghost predicate ReachedSome(s: Gateway, sid: SessionID, ev: Event) {
    exists k :: 0 <= k < |s.objs| && s.objs[k].id == sid && Reached(s.objs[k], ev)
  }

  ghost predicate ReachedAll(s: Gateway, sids: seq<SessionID>, ev: Event) {
    forall j | 0 <= j < |sids| :: ReachedSome(s, sids[j], ev)
  }

  // The sessions of the ids still to be offered the event have nothing as late; of
  // each other id one was reached, unless an attempt failed.
  ghost predicate CurrentOk(s: Gateway) {
    s.current.Busy? ==>
      var b := s.current;
      && b.ev.sequence == s.store.counter > 0 && b.next <= |b.sids| && NoDuplicates(b.sids)
      && (b.target.Some? ==>
            b.next < |b.sids| && b.target.value < |s.objs| && s.objs[b.target.value].id == b.sids[b.next])
      && (forall k | 0 <= k < |s.objs| && s.objs[k].id !in b.sids[..b.next] :: Before(s.objs[k], b.ev.sequence))
      && (b.err == Delivered ==> ReachedAll(s, b.sids[..b.next], b.ev))
  }

  ghost predicate PublishedOk(s: Gateway) {
    forall i | 0 <= i < |s.published| ::
      s.published[i].ev.sequence <= s.store.committed && ReachedAll(s, s.published[i].sids, s.published[i].ev)
  }

  ghost predicate Inv(s: Gateway) {
    && EventStore.Inv(s.store)
    && SessionsOk(s) && CurrentOk(s) && PublishedOk(s)
    && s.progress == s.store.committed
  }

  // Sessions are added, and those that are there grow.
  ghost predicate Kept(s: Gateway, s': Gateway) {
    |s.objs| <= |s'.objs| &&
    forall k | 0 <= k < |s.objs| :: s'.objs[k].id == s.objs[k].id && Grows(s.objs[k], s'.objs[k])
  }

  lemma KeptKeepsReached(s: Gateway, s': Gateway, sid: SessionID, ev: Event)
    requires Kept(s, s') && ReachedSome(s, sid, ev)
    ensures ReachedSome(s', sid, ev)
  {
    hide Reached, Grows;
    var k :| 0 <= k < |s.objs| && s.objs[k].id == sid && Reached(s.objs[k], ev);
    GrowsKeepsReached(s.objs[k], s'.objs[k], ev);
  }

  lemma KeptKeepsAll(s: Gateway, s': Gateway, sids: seq<SessionID>, ev: Event)
    requires Kept(s, s') && ReachedAll(s, sids, ev)
    ensures ReachedAll(s', sids, ev)
  {
    hide ReachedSome, Kept;
    forall j | 0 <= j < |sids|
      ensures ReachedSome(s', sids[j], ev)
    {
      KeptKeepsReached(s, s', sids[j], ev);
    }
  }

  lemma KeptKeepsPublished(s: Gateway, s': Gateway)
    requires PublishedOk(s) && Kept(s, s')
    requires s'.published == s.published && s.store.committed <= s'.store.committed
    ensures PublishedOk(s')
  {
    hide ReachedAll, Kept;
    forall i | 0 <= i < |s.published|
      ensures ReachedAll(s', s.published[i].sids, s.published[i].ev)
    {
      KeptKeepsAll(s, s', s.published[i].sids, s.published[i].ev);
    }
  }

  lemma GrowsItself(x: S.SessionState)
    ensures Grows(x, x)
  {
  }

  lemma OneGrows(s: Gateway, k: nat, x: S.SessionState)
    requires k < |s.objs| && x.id == s.objs[k].id && Grows(s.objs[k], x)
    ensures Kept(s, OnObject(s, k, x))
  {
    hide Grows;
    forall j | 0 <= j < |s.objs|
      ensures Grows(s.objs[j], OnObject(s, k, x).objs[j])
    {
      GrowsItself(s.objs[j]);
    }
  }

  // A call on one session that is no delivery.
  lemma CallKeepsInv(s: Gateway, k: nat, x: S.SessionState)
    requires Inv(s) && k < |s.objs| && Quiet(s.objs[k], x)
    ensures Inv(OnObject(s, k, x))
  {
    QuietKeepsSession(s.objs[k], x, s.objs[k].id, s.store.counter);
    assert x.id == s.objs[k].id;
    hide SessionOk, Before, ReachedAll, EventStore.Inv, Grows, Quiet;
    var s' := OnObject(s, k, x);
    OneGrows(s, k, x);
    KeptKeepsPublished(s, s');
    if s.current.Busy? && s.current.err == Delivered {
      KeptKeepsAll(s, s', s.current.sids[..s.current.next], s.current.ev);
    }
  }

  lemma BindKeepsInv(s: Gateway, sid: SessionID, rate: real, burst: int)
    requires Inv(s)
    ensures Inv(BindStep(s, sid, rate, burst))
  {
    var s' := BindStep(s, sid, rate, burst);
    var x := S.NewSession(sid, rate, burst);
    assert EventStore.Inv(s.store) ==> SessionOk(x, sid, s.store.counter);
    assert forall n :: Before(x, n);
    assert x.id == sid;
    hide SessionOk, Before, ReachedAll, EventStore.Inv, Grows, S.NewSession;
    if s' != s {
      assert Kept(s, s') by {
        forall j | 0 <= j < |s.objs|
          ensures Grows(s.objs[j], s'.objs[j])
        {
          GrowsItself(s.objs[j]);
        }
      }
      KeptKeepsPublished(s, s');
      if s.current.Busy? && s.current.err == Delivered {
        KeptKeepsAll(s, s', s.current.sids[..s.current.next], s.current.ev);
      }
    }
  }

  // A step that leaves the sessions alone.
  lemma SameSessions(s: Gateway, s': Gateway)
    requires s'.objs == s.objs
    ensures Kept(s, s')
  {
    forall j | 0 <= j < |s.objs|
      ensures Grows(s.objs[j], s'.objs[j])
    {
      GrowsItself(s.objs[j]);
    }
  }

  lemma UnregisterKeepsInv(s: Gateway, k: nat)
    requires Inv(s)
    ensures Inv(UnregisterStep(s, k))
  {
    hide SessionOk, Before, ReachedAll, EventStore.Inv, Kept;
    var s' := UnregisterStep(s, k);
    SameSessions(s, s');
    KeptKeepsPublished(s, s');
    if s.current.Busy? && s.current.err == Delivered {
      KeptKeepsAll(s, s', s.current.sids[..s.current.next], s.current.ev);
    }
  }

  lemma PublishKeepsInv(s: Gateway, ev: Event, sids: seq<SessionID>)
    requires Inv(s) && s.current.Idle? && NoDuplicates(sids)
    ensures Inv(PublishStep(s, ev, sids))
  {
    hide SessionOk, Before, Reached, Kept;
    var s' := PublishStep(s, ev, sids);
    forall k | 0 <= k < |s.objs|
      ensures SessionOk(s.objs[k], s.objs[k].id, s.store.counter + 1) && Before(s.objs[k], s.store.counter + 1)
    {
      LaterCounter(s.objs[k], s.objs[k].id, s.store.counter);
    }
    SameSessions(s, s');
    KeptKeepsPublished(s, s');
  }

  lemma GetKeepsInv(s: Gateway)
    requires Inv(s) && s.current.Busy? && s.current.next < |s.current.sids|
    ensures Inv(GetStep(s))
  {
    hide SessionOk, Before, ReachedAll, EventStore.Inv, Kept;
    var b, s' := s.current, GetStep(s);
    SameSessions(s, s');
    KeptKeepsPublished(s, s');
    assert b.sids[..b.next + 1] == b.sids[..b.next] + [b.sids[b.next]];
    if b.err == Delivered {
      KeptKeepsAll(s, s', b.sids[..b.next], b.ev);
    }
  }

  lemma OneMoreReached(s: Gateway, sids: seq<SessionID>, k: nat, ev: Event)
    requires ReachedAll(s, sids, ev) && k < |s.objs| && Reached(s.objs[k], ev)
    ensures ReachedAll(s, sids + [s.objs[k].id], ev)
  {
    hide Reached;
    assert ReachedSome(s, s.objs[k].id, ev);
  }

  lemma DeliverKeepsInv(s: Gateway, c: S.Chance, mid: seq<int>, late: seq<int>)
    requires Inv(s) && s.current.Busy? && s.current.target.Some?
    ensures s.current.target.value < |s.objs| && Inv(DeliverStep(s, s.current.target.value, c, mid, late))
  {
    hide SessionOk, Before, Reached, ReachedAll, EventStore.Inv, S.DeliverAmid, Grows, Kept;
    var b := s.current;
    var k, sid := b.target.value, b.sids[b.next];
    var (x, r) := S.DeliverAmid(s.objs[k], b.ev, c, mid, late);
    var s' := DeliverStep(s, k, c, mid, late);
    assert sid !in b.sids[..b.next];
    DeliverLatest(s.objs[k], sid, b.ev, c, mid, late);
    OneGrows(s, k, x);
    SameSessions(OnObject(s, k, x), s');
    KeptKeepsPublished(s, OnObject(s, k, x));
    KeptKeepsPublished(OnObject(s, k, x), s');
    assert b.sids[..b.next + 1] == b.sids[..b.next] + [sid];
    if s'.current.err == Delivered {
      KeptKeepsAll(s, OnObject(s, k, x), b.sids[..b.next], b.ev);
      KeptKeepsAll(OnObject(s, k, x), s', b.sids[..b.next], b.ev);
      OneMoreReached(s', b.sids[..b.next], k, b.ev);
    }
  }

  lemma ReturnKeepsInv(s: Gateway)
    requires Inv(s) && s.current.Busy? && s.current.next >= |s.current.sids|
    ensures Inv(ReturnStep(s))
  {
    hide SessionOk, Before, ReachedAll, Kept;
    var b, s' := s.current, ReturnStep(s);
    assert b.sids[..b.next] == b.sids;
    SameSessions(s, s');
    assert PublishedOk(s.(store := s'.store)) by {
      SameSessions(s, s.(store := s'.store));
      KeptKeepsPublished(s, s.(store := s'.store));
    }
    forall i | 0 <= i < |s.published|
      ensures ReachedAll(s', s.published[i].sids, s.published[i].ev)
    {
      KeptKeepsAll(s, s', s.published[i].sids, s.published[i].ev);
    }
    if b.err == Delivered {
      KeptKeepsAll(s, s', b.sids, b.ev);
    }
  }

  lemma StepKeepsInv(s: Gateway, a: Action)
    requires Inv(s)
    ensures Inv(Apply(s, a))
  {
    hide Inv, Quiet;
    if Enabled(s, a) {
      match a
      case Bind(sid, rate, burst) => BindKeepsInv(s, sid, rate, burst);
      case Unregister(k) => UnregisterKeepsInv(s, k);
      case Publish(ev, sids) => PublishKeepsInv(s, ev, sids);
      case Get => GetKeepsInv(s);
      case Deliver(c, mid, late) => DeliverKeepsInv(s, c, mid, late);
      case Return => ReturnKeepsInv(s);
      case Confirm(k, n) => CallsAreQuiet(s.objs[k], n); CallKeepsInv(s, k, S.Confirm(s.objs[k], n));
      case Suspect(k) => CallsAreQuiet(s.objs[k], 0); CallKeepsInv(s, k, S.Suspect(s.objs[k]));
      case BeginClose(k) => CallsAreQuiet(s.objs[k], 0); CallKeepsInv(s, k, S.BeginClose(s.objs[k]).0);
      case FinishClose(k) => CallsAreQuiet(s.objs[k], 0); CallKeepsInv(s, k, S.FinishClose(s.objs[k]));
    }
  }

  lemma {:induction false} ExecuteKeepsInv(s: Gateway, actions: seq<Action>)
    requires Inv(s)
    ensures Inv(Execute(s, actions))
    decreases |actions|
  {
    if actions != [] {
      StepKeepsInv(s, actions[0]);
      hide Inv, Apply;
      ExecuteKeepsInv(Apply(s, actions[0]), actions[1..]);
    }
  }

  lemma InitInv(capacity: int)
    ensures Inv(NewGateway(capacity))
  {
  }

  // ---- A publish that nothing disturbs is the pipeline's.

  // The registered sessions, by id.
  ghost function Registered(s: Gateway): Sessions {
    map sid | sid in s.ids && s.ids[sid] < |s.objs| :: s.objs[s.ids[sid]]
  }

  ghost function AttemptOnce(s: Gateway, c: S.Chance): Gateway {
    Apply(Apply(s, Get), Deliver(c, [], []))
  }

  ghost function Attempts(s: Gateway, cs: seq<S.Chance>): Gateway {
    if cs == [] then s else AttemptOnce(Attempts(s, cs[..|cs| - 1]), cs[|cs| - 1])
  }

  // The three parts of a publish, run one after the other.
  ghost function PublishSteps(s: Gateway, ev: Event, sids: seq<SessionID>, cs: seq<S.Chance>): Gateway {
    Apply(Attempts(Apply(s, Publish(ev, sids)), cs), Return)
  }

  lemma AttemptSteps(s: Gateway, c: S.Chance)
    requires SessionsOk(s) && s.current.Busy? && s.current.next < |s.current.sids| && s.current.target.None?
    ensures var b, s' := s.current, AttemptOnce(s, c);
            var sid := b.sids[b.next];
            if sid in s.ids then
              var k := s.ids[sid];
              var (x, r) := S.Deliver(s.objs[k], b.ev, c);
              s' == s.(objs := s.objs[k := x], current := Tried(b, Seen(r)))
            else s' == s.(current := Tried(b, NoSession(sid)))
  {
    var b := s.current;
    var sid := b.sids[b.next];
    if sid in s.ids {
      S.DeliverUndisturbed(s.objs[s.ids[sid]], b.ev, c);
    }
    hide S.Deliver, S.DeliverAmid, SessionOk;
  }

  lemma RegisteredMoves(s: Gateway, sid: SessionID, x: S.SessionState)
    requires SessionsOk(s) && sid in s.ids
    ensures Registered(s.(objs := s.objs[s.ids[sid] := x])) == Registered(s)[sid := x]
  {
    hide SessionOk;
  }

  // Bind and the locked part of Remove do to the registered sessions what the
  // registry's do: a Bind gives the id a new session unless its session is open,
  // and a Remove takes away the very session it is called for.
  lemma RegistrationAlone(s: Gateway, sid: SessionID, rate: real, burst: int, k: nat)
    requires SessionsOk(s)
    ensures var was, now := Registered(s), Registered(Apply(s, Bind(sid, rate, burst)));
            now == if sid in was && was[sid].state != Closed then was else was[sid := S.NewSession(sid, rate, burst)]
    ensures var was, now := Registered(s), Registered(Apply(s, Unregister(k)));
            now == if k < |s.objs| && s.objs[k].id in was && s.ids[s.objs[k].id] == k then was - {s.objs[k].id} else was
  {
    hide SessionOk, S.NewSession;
  }

  lemma AttemptAlone(s: Gateway, c: S.Chance)
    requires Inv(s) && s.current.Busy? && s.current.next < |s.current.sids| && s.current.target.None?
    ensures var s' := AttemptOnce(s, c);
            var b := s.current;
            var (m, r) := Attempt(Registered(s), b.sids[b.next], b.ev, c);
            && s' == s.(objs := s'.objs, current := Tried(b, r))
            && Inv(s') && Registered(s') == m
  {
    hide Inv, S.Deliver, Apply;
    InvMeansSessions(s);
    StepKeepsInv(s, Get);
    StepKeepsInv(Apply(s, Get), Deliver(c, [], []));
    AttemptSteps(s, c);
    var sid := s.current.sids[s.current.next];
    if sid in s.ids {
      RegisteredMoves(s, sid, S.Deliver(s.objs[s.ids[sid]], s.current.ev, c).0);
    }
  }

  lemma {:induction false} AttemptsAlone(s: Gateway, cs: seq<S.Chance>)
    requires Inv(s) && s.current.Busy? && s.current.next == 0 && s.current.target.None? && s.current.err == Delivered
    requires |cs| <= |s.current.sids|
    ensures var b := s.current;
            var s' := Attempts(s, cs);
            var (m, rs) := Round(Registered(s), b.ev, b.sids[..|cs|], cs);
            && s' == s.(objs := s'.objs, current := b.(next := |cs|, err := FirstIn(rs)))
            && Inv(s') && Registered(s') == m
  {
    hide Attempt, Inv, Apply, SessionsOk;
    if cs != [] {
      var k := |cs| - 1;
      var b := s.current;
      var s1 := Attempts(s, cs[..k]);
      AttemptsAlone(s, cs[..k]);
      AttemptAlone(s1, cs[k]);
      assert cs == cs[..k] + [cs[k]];
      RoundStep(Registered(s), b.ev, b.sids, k, cs[..k], cs[k]);
      var (m1, rs) := Round(Registered(s), b.ev, b.sids[..k], cs[..k]);
      FirstInStep(rs, Attempt(m1, b.sids[k], b.ev, cs[k]).1);
    }
  }

  lemma {:induction false} AttemptsIdle(s: Gateway, cs: seq<S.Chance>)
    requires s.current.Idle?
    ensures Attempts(s, cs) == s
    decreases |cs|
  {
    if cs != [] {
      AttemptsIdle(s, cs[..|cs| - 1]);
    }
  }

  lemma ReturnAlone(s: Gateway, p: Pipeline, n: int, r: Result)
    requires s.current.Busy? && s.current.next >= |s.current.sids| && s.current.err == r && s.current.ev.sequence == n
    requires (p.store, p.cursor, p.sessions, p.published) == (s.store, s.progress, Registered(s), |s.published|)
    ensures var s' := Apply(s, Return);
            var (p', o) := Settled(p, r, n);
            && (s'.store, s'.progress, Registered(s')) == (p'.store, p'.cursor, p'.sessions)
            && s'.current.Idle? && |s'.published| == p'.published
            && (o.Sequence? ==> o.n == n && s'.published == s.published + [Published(s.current.ev, s.current.sids)])
            && (!o.Sequence? ==> s'.published == s.published)
  {
    assert Registered(Apply(s, Return)) == Registered(s);
  }

  lemma PublishAlone(s: Gateway, ev: Event, sids: seq<SessionID>, cs: seq<S.Chance>, failed: nat)
    requires Inv(s) && s.current.Idle? && NoDuplicates(sids) && |cs| == |sids|
    ensures Fits([cs], [ev], sids)
    ensures var s' := PublishSteps(s, ev, sids, cs);
            var (p, r) := Through(Pipeline(s.store, s.progress, Registered(s), |s.published|, failed), ev, sids, [cs]);
            && (s'.store, s'.progress, Registered(s')) == (p.store, p.cursor, p.sessions)
            && s'.current.Idle? && |s'.published| == p.published
            && (r.Sequence? ==> s'.published == s.published + [Published(ev.(sequence := r.n), sids)])
            && (!r.Sequence? ==> s'.published == s.published)
  {
    hide Batch, Round, FirstError, FirstIn, Inv, AttemptOnce, Attempts, Settled;
    var s1 := Apply(s, Publish(ev, sids));
    var ev' := ev.(sequence := s.store.counter + 1);
    StepKeepsInv(s, Publish(ev, sids));
    assert Registered(s1) == Registered(s);
    OneEvent(Registered(s), ev, sids, cs);
    OneEvent(Registered(s), ev', sids, cs);
    if s1.current.Idle? {
      AttemptsIdle(s1, cs);
    } else {
      AttemptsAlone(s1, cs);
      assert sids[..|cs|] == sids;
      var s2 := Attempts(s1, cs);
      var p := Pipeline(s2.store, s.progress, Registered(s2), |s.published|, failed);
      ReturnAlone(s2, p, ev'.sequence, s2.current.err);
      hide Apply;
    }
  }

  lemma InvMeansSessions(s: Gateway)
    requires Inv(s)
    ensures SessionsOk(s)
  {
  }

  // In every run the writer of each session, registered or not any more, accepts
  // strictly increasing sequences, across all topics and whatever the snapshots
  // were.
  lemma AcceptedInSequenceOrder(capacity: int, actions: seq<Action>, k: nat)
    requires k < |Execute(NewGateway(capacity), actions).objs|
    ensures var s := Execute(NewGateway(capacity), actions);
            InOrder(s.objs[k].accepted, s.store.counter)
  {
    hide Execute;
    InitInv(capacity);
    ExecuteKeepsInv(NewGateway(capacity), actions);
    var s := Execute(NewGateway(capacity), actions);
    assert SessionOk(s.objs[k], s.objs[k].id, s.store.counter);
  }

  // A publish that returned without an error reached a session of every id in its
  // snapshot: the writer took the event, or the client had confirmed past it.  Its
  // sequence is committed, and progress is the committed position.
  lemma SuccessReachesSnapshot(capacity: int, actions: seq<Action>, i: nat, sid: SessionID)
    requires var s := Execute(NewGateway(capacity), actions);
             i < |s.published| && sid in s.published[i].sids
    ensures var s := Execute(NewGateway(capacity), actions);
            && ReachedSome(s, sid, s.published[i].ev)
            && s.published[i].ev.sequence <= s.store.committed == s.progress
  {
    hide Execute, ReachedSome;
    InitInv(capacity);
    ExecuteKeepsInv(NewGateway(capacity), actions);
    var s := Execute(NewGateway(capacity), actions);
    assert ReachedAll(s, s.published[i].sids, s.published[i].ev);
  }

  // ---- What was asked for is what arrives.

  // The events of the publishes that a step, or a run, begins.
  ghost function Asks(s: Gateway, a: Action): seq<Event> {
    if a.Publish? && Enabled(s, a) then [a.ev] else []
  }

  ghost function AskedBy(s: Gateway, actions: seq<Action>): seq<Event>
    decreases |actions|
  {
    if actions == [] then [] else Asks(s, actions[0]) + AskedBy(Apply(s, actions[0]), actions[1..])
  }

  // The event is the one of that publish, under its number.
  ghost predicate IsAsked(ev: Event, asked: seq<Event>) {
    var n := ev.sequence;
    1 <= n <= |asked| && ev == Event(n, asked[n - 1].topic, asked[n - 1].payload)
  }

  ghost predicate AllAsked(events: seq<Event>, asked: seq<Event>) {
    forall i | 0 <= i < |events| :: IsAsked(events[i], asked)
  }

  ghost predicate PublishedAsked(published: seq<Published>, asked: seq<Event>) {
    forall i | 0 <= i < |published| :: IsAsked(published[i].ev, asked)
  }

  ghost predicate FromPublishes(s: Gateway, asked: seq<Event>) {
    && s.store.counter == |asked|
    && AllAsked(s.store.events, asked)
    && (s.current.Busy? ==> IsAsked(s.current.ev, asked))
    && PublishedAsked(s.published, asked)
    && forall k | 0 <= k < |s.objs| :: AllAsked(s.objs[k].accepted, asked)
  }

  lemma AskedStay(s: Gateway, asked: seq<Event>, more: seq<Event>)
    requires FromPublishes(s, asked)
    ensures FromPublishes(s.(store := s.store.(counter := |asked + more|)), asked + more)
  {
  }

  lemma PublishAsks(s: Gateway, ev: Event, sids: seq<SessionID>, asked: seq<Event>)
    requires FromPublishes(s, asked)
    ensures FromPublishes(PublishStep(s, ev, sids), asked + [ev])
  {
    AskedStay(s, asked, [ev]);
    AppendKeepsTheEvent(s.store, ev);
  }

  // A delivery queues the current event or nothing.
  lemma DeliverQueues(x: S.SessionState, ev: Event, c: S.Chance, mid: seq<int>, late: seq<int>)
    ensures var x' := S.DeliverAmid(x, ev, c, mid, late).0;
            x'.accepted == x.accepted || x'.accepted == x.accepted + [ev]
  {
    hide S.DeliverAmid, Calls.Passes, Calls.Comes;
    Calls.DeliveryOutcome(x, Calls.Deliver(ev, c, mid, late));
    assert x.accepted + [] == x.accepted;
  }

  lemma DeliverKeepsAsked(s: Gateway, k: nat, c: S.Chance, mid: seq<int>, late: seq<int>, asked: seq<Event>)
    requires FromPublishes(s, asked) && s.current.Busy? && k < |s.objs|
    ensures FromPublishes(DeliverStep(s, k, c, mid, late), asked)
  {
    hide S.DeliverAmid, PublishedAsked, IsAsked;
    DeliverQueues(s.objs[k], s.current.ev, c, mid, late);
  }

  lemma SessionCallsQueueNothing(s: Gateway, a: Action)
    requires Enabled(s, a) && (a.Confirm? || a.Suspect? || a.BeginClose? || a.FinishClose?)
    ensures var s' := Apply(s, a);
            && s' == s.(objs := s'.objs) && |s'.objs| == |s.objs|
            && forall k | 0 <= k < |s.objs| :: s'.objs[k].accepted == s.objs[k].accepted
  {
  }

  lemma StepKeepsAsked(s: Gateway, a: Action, asked: seq<Event>)
    requires FromPublishes(s, asked)
    ensures FromPublishes(Apply(s, a), asked + Asks(s, a))
  {
    hide AllAsked, IsAsked, S.DeliverAmid, S.NewSession, S.FinishClose, S.BeginClose, S.Suspect, S.Confirm;
    assert asked + [] == asked;
    if Enabled(s, a) {
      if a.Publish? {
        PublishAsks(s, a.ev, a.sids, asked);
      } else if a.Deliver? {
        DeliverKeepsAsked(s, s.current.target.value, a.chance, a.mid, a.late, asked);
      } else if a.Bind? {
        NothingAsked(a.sid, a.rate, a.burst, asked);
      } else if a.Confirm? || a.Suspect? || a.BeginClose? || a.FinishClose? {
        SessionCallsQueueNothing(s, a);
      }
    }
  }

  lemma NothingAsked(sid: SessionID, rate: real, burst: int, asked: seq<Event>)
    ensures AllAsked(S.NewSession(sid, rate, burst).accepted, asked)
  {
  }

  lemma {:induction false} ExecuteKeepsAsked(s: Gateway, actions: seq<Action>, asked: seq<Event>)
    requires FromPublishes(s, asked)
    ensures FromPublishes(Execute(s, actions), asked + AskedBy(s, actions))
    decreases |actions|
  {
    hide Apply, FromPublishes, Asks;
    if actions == [] {
      assert asked + [] == asked;
    } else {
      var more, s1 := Asks(s, actions[0]), Apply(s, actions[0]);
      StepKeepsAsked(s, actions[0], asked);
      ExecuteKeepsAsked(s1, actions[1..], asked + more);
      assert asked + AskedBy(s, actions) == (asked + more) + AskedBy(s1, actions[1..]);
    }
  }

  // In every run, every event on any session's queue and every event reported as
  // published is the one of the n-th publish, with its topic and its payload, where
  // n is its sequence.
  lemma EventsArriveAsPublished(capacity: int, actions: seq<Action>)
    ensures var s, asked := Execute(NewGateway(capacity), actions), AskedBy(NewGateway(capacity), actions);
            && (forall k, i | 0 <= k < |s.objs| && 0 <= i < |s.objs[k].accepted| :: IsAsked(s.objs[k].accepted[i], asked))
            && (forall i | 0 <= i < |s.published| :: IsAsked(s.published[i].ev, asked))
  {
    hide Execute, IsAsked, AskedBy;
    ExecuteKeepsAsked(NewGateway(capacity), actions, []);
    var asked := AskedBy(NewGateway(capacity), actions);
    assert [] + asked == asked;
    var s := Execute(NewGateway(capacity), actions);
    assert forall k | 0 <= k < |s.objs| :: AllAsked(s.objs[k].accepted, asked);
  }
}

// The gateway and the snapshot cache together: which subscribers a publish reaches.
module SubscriberReach {
  import opened Types
  import C = SnapshotCache
  import G = GatewayModel

  // The session's subscribe had returned when the snapshot began, and until it
  // was returned nobody unsubscribed the session or deleted the topic.
  ghost predicate SubscribedThroughout(log: seq<C.Change>, r: C.Snapshot, sid: SessionID) {
    exists i: nat :: SubscribedAt(log, r, sid, i)
  }

  ghost predicate SubscribedAt(log: seq<C.Change>, r: C.Snapshot, sid: SessionID, i: nat) {
    && i < r.start && i < |log| && log[i] == C.Bind(sid)
    && (forall j | i < j < r.end && j < |log| :: log[j] != C.Unbind(sid) && log[j] != C.Clear)
  }

  lemma {:induction false} StaysBound(log: seq<C.Change>, sid: SessionID, i: nat, k: nat)
    requires i < k <= |log| && log[i] == C.Bind(sid)
    requires forall j | i < j < k :: log[j] != C.Unbind(sid) && log[j] != C.Clear
    ensures sid in C.BindingsAfter(log[..k])
    decreases k
  {
    hide C.BindingsAfter;
    OneMoreChange(log, sid, k);
    if k > i + 1 {
      StaysBound(log, sid, i, k - 1);
    }
  }

  lemma OneMoreChange(log: seq<C.Change>, sid: SessionID, k: nat)
    requires 0 < k <= |log|
    ensures log[k - 1] == C.Bind(sid) ==> sid in C.BindingsAfter(log[..k])
    ensures log[k - 1] != C.Unbind(sid) && log[k - 1] != C.Clear && sid in C.BindingsAfter(log[..k - 1]) ==>
              sid in C.BindingsAfter(log[..k])
  {
    assert log[..k][..k - 1] == log[..k - 1] && log[..k][k - 1] == log[k - 1];
  }

  // A coherent snapshot lists every session that is subscribed throughout it.
  lemma SubscriberIsListed(log: seq<C.Change>, r: C.Snapshot, sid: SessionID)
    requires C.Coherent(log, r) && SubscribedThroughout(log, r, sid)
    ensures sid in r.entry.sessions
  {
    var k: nat :| r.start <= k <= r.end && C.MembersAt(log, k, r.entry.sessions);
    var i: nat :| SubscribedAt(log, r, sid, i);
    StaysBound(log, sid, i, k);
  }

  // In any run of the cache without a deletion that restarts the version, next to
  // any run of the gateway in which publish i was given the list of snapshot j: if
  // that publish returned without an error, it reached every session whose
  // subscribe had returned before the snapshot began and that stayed subscribed.
  lemma PublishReachesSubscribers(capacity: int, actions: seq<G.Action>, i: nat,
                                  keepsVersions: bool, steps: seq<C.Step>, j: nat, sid: SessionID)
    requires C.NoRestart(keepsVersions, steps)
    requires var g := G.Execute(G.NewGateway(capacity), actions);
             var c := C.Run(C.NewCache(keepsVersions), steps);
             && i < |g.published| && j < |c.returned|
             && (forall u :: u in g.published[i].sids <==> u in c.returned[j].entry.sessions)
             && SubscribedThroughout(c.log, c.returned[j], sid)
    ensures var g := G.Execute(G.NewGateway(capacity), actions);
            G.ReachedSome(g, sid, g.published[i].ev)
  {
    C.GrowingVersionsAreCoherent(keepsVersions, steps);
    var c := C.Run(C.NewCache(keepsVersions), steps);
    SubscriberIsListed(c.log, c.returned[j], sid);
    G.SuccessReachesSnapshot(capacity, actions, i, sid);
  }
}

// The publish pipeline as an object over the store and the fanout.
module BrokerObject {
  import opened Types
  import opened FanoutModel
  import opened FanoutObject
  import opened PipelineModel
  import opened SessionObject
  import opened TopicSync
  import E = EventStore
  import S = SessionModel

  class Broker {
    const store: E.Store
    const fanout: Fanout
    const cursor: E.Cursor
    var published: nat
    var failed: nat

    constructor (store: E.Store, fanout: Fanout)
      ensures this.store == store && this.fanout == fanout
      ensures fresh(cursor) && cursor.pos == 0 && published == failed == 0
    {
      this.store, this.fanout := store, fanout;
      cursor := new E.Cursor();
      published, failed := 0, 0;
    }

    ghost predicate Ready()
      reads store, store.ring, store.ring.buf, fanout.subs, fanout.subs.reg, fanout.subs.reg.refs, fanout.subs.tree
      reads fanout.subs.tree.repr, fanout.sessions, fanout.Bound(), set s | s in fanout.Bound() :: s.writer
    {
      store.Valid() && fanout.subs.Valid() && fanout.Ready()
    }

    ghost function View(): Pipeline
      requires store.Valid()
      reads this, store, store.ring, store.ring.buf, cursor, fanout.sessions, fanout.Bound()
      reads set s | s in fanout.Bound() :: s.writer
      reads set s | s in fanout.Bound() :: s.tracker
      reads set s | s in fanout.Bound() :: s.flow
    {
      Pipeline(store.State(), cursor.pos, fanout.States(), published, failed)
    }

    ghost predicate Foreign(o: object) {
      o != store && o != store.ring && o != store.ring.buf && o != cursor && o != this
    }

    // The store and the cursor are no part of any session.
    lemma NothingShared()
      ensures forall s: Session | s in fanout.Bound() ::
                Foreign(s) && Foreign(s.writer) && Foreign(s.tracker) && Foreign(s.flow)
    {
    }

    method Append(ev: Event) returns (a: E.AppendResult)
      requires Ready()
      modifies store, store.ring, store.ring.buf
      ensures Ready()
      ensures a == old(store.State()).Append(ev).1
      ensures View() == old(View()).(store := old(store.State()).Append(ev).0)
    {
      hide E.Ring.Valid, E.Ring.Contents, Fanout.Ready, Fanout.States, TopicRegistry.Valid;
      NothingShared();
      a := store.Append(ev);
      assert fanout.Bound() == old(fanout.Bound());
    }

    method Dispatch(ev: Event, chance: (nat, nat) -> (real, bool))
      returns (err: Result, ghost sids: seq<SessionID>, ghost rounds: seq<seq<S.Chance>>)
      requires Ready()
      modifies fanout, fanout.Bound()
      modifies set s | s in fanout.Bound() :: s.writer
      modifies set s | s in fanout.Bound() :: s.tracker
      modifies set s | s in fanout.Bound() :: s.flow
      ensures Ready() && Fits(rounds, [ev], sids)
      ensures old(fanout.Coherent()) ==> Lists(sids, fanout.subs.reg.Bag(), ev.topic)
      ensures var (m, results) := Batch(old(fanout.States()), [ev], sids, rounds);
              View() == old(View()).(sessions := m) && err == FirstError(results)
    {
      hide E.Ring.Valid, E.Ring.Contents, Fanout.Ready, Fanout.States, Fanout.Coherent, TopicRegistry.Valid;
      hide Batch, Lists, Fits, FirstError, AllSuccesses;
      NothingShared();
      err, sids, rounds := fanout.Dispatch(ev.topic, [ev], chance);
    }

    method Finish(n: int) returns (r: Outcome)
      requires Ready()
      modifies this`published, store, cursor
      ensures Ready() && (View(), r) == Finished(old(View()), n)
    {
      hide E.Ring.Valid, E.Ring.Contents, Fanout.Ready, Fanout.States, TopicRegistry.Valid;
      NothingShared();
      var c := store.Commit(n);
      assert fanout.Bound() == old(fanout.Bound());
      if c.InvalidSequence? {
        return InvalidSequence;
      }
      cursor.Advance(n);
      published := published + 1;
      return Sequence(n);
    }

    // The two ways on after a dispatch.
    method Settle(err: Result, n: int) returns (r: Outcome)
      requires Ready()
      modifies this`published, this`failed, store, cursor
      ensures Ready() && (View(), r) == Settled(old(View()), err, n)
    {
      hide Broker.Ready, Fanout.States, Finished;
      NothingShared();
      if err != Delivered {
        failed := failed + 1;
        assert fanout.Bound() == old(fanout.Bound());
        return NotDelivered(err);
      }
      r := Finish(n);
    }

    method Publish(ev: Event, chance: (nat, nat) -> (real, bool))
      returns (r: Outcome, ghost sids: seq<SessionID>, ghost rounds: seq<seq<S.Chance>>)
      requires Ready()
      modifies this`published, this`failed, store, store.ring, store.ring.buf, cursor, fanout, fanout.Bound()
      modifies set s | s in fanout.Bound() :: s.writer
      modifies set s | s in fanout.Bound() :: s.tracker
      modifies set s | s in fanout.Bound() :: s.flow
      ensures Ready() && Fits(rounds, [ev], sids)
      ensures (View(), r) == Through(old(View()), ev, sids, rounds)
      ensures old(fanout.Coherent()) && !r.RingFull? ==> Lists(sids, fanout.subs.reg.Bag(), ev.topic)
    {
      hide Broker.Ready, Fanout.States, Fanout.Coherent, Batch, Lists, FirstError, Settled;
      sids, rounds := [], [[]];
      var a := Append(ev);
      if a.RingFull? {
        return RingFull, sids, rounds;
      }
      var err;
      err, sids, rounds := Dispatch(ev.(sequence := a.n), chance);
      r := Settle(err, a.n);
    }
  }
}
