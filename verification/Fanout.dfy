// Broadcasting a batch of events to the sessions of one snapshot.
module FanoutModel {
  import opened Types
  import S = SessionModel

  type Sessions = map<SessionID, S.SessionState>

  // What one attempt comes to: nil, no such session, or the session's error.
  datatype Result = Delivered | NoSession(sid: SessionID) | Failed(cause: S.Outcome)

  function Seen(r: S.Outcome): Result {
    if r == S.Ok then Delivered else Failed(r)
  }

  function Attempt(m: Sessions, sid: SessionID, ev: Event, c: S.Chance): (Sessions, Result) {
    if sid !in m then (m, NoSession(sid))
    else
      var (s, r) := S.Deliver(m[sid], ev, c);
      (m[sid := s], Seen(r))
  }

  // One event for every session of the snapshot, in its order.
  function Round(m: Sessions, ev: Event, sids: seq<SessionID>, cs: seq<S.Chance>): (r: (Sessions, seq<Result>))
    requires |cs| == |sids|
    ensures |r.1| == |sids|
  {
    if sids == [] then (m, [])
    else
      var last := |sids| - 1;
      var (m1, rs) := Round(m, ev, sids[..last], cs[..last]);
      var (m2, r) := Attempt(m1, sids[last], ev, cs[last]);
      (m2, rs + [r])
  }

  ghost predicate Fits(rounds: seq<seq<S.Chance>>, events: seq<Event>, sids: seq<SessionID>) {
    |rounds| == |events| && forall i | 0 <= i < |rounds| :: |rounds[i]| == |sids|
  }

  // Every event in turn; results[i][j] is what event i came to at session j.
  ghost function Batch(m: Sessions, events: seq<Event>, sids: seq<SessionID>, rounds: seq<seq<S.Chance>>)
    : (r: (Sessions, seq<seq<Result>>))
    requires Fits(rounds, events, sids)
    ensures |r.1| == |events| && forall i | 0 <= i < |events| :: |r.1[i]| == |sids|
  {
    if events == [] then (m, [])
    else
      var last := |events| - 1;
      var (m1, rs) := Batch(m, events[..last], sids, rounds[..last]);
      var (m2, r) := Round(m1, events[last], sids, rounds[last]);
      (m2, rs + [r])
  }

  // ---- What one session of the snapshot sees of it.

  function Each(s: S.SessionState, events: seq<Event>, cs: seq<S.Chance>): (r: (S.SessionState, seq<S.Outcome>))
    requires |cs| == |events|
    ensures |r.1| == |events|
  {
    if events == [] then (s, [])
    else
      var last := |events| - 1;
      var (s1, rs) := Each(s, events[..last], cs[..last]);
      var (s2, r) := S.Deliver(s1, events[last], cs[last]);
      (s2, rs + [r])
  }

  function Column(rounds: seq<seq<S.Chance>>, j: nat): (c: seq<S.Chance>)
    requires forall i | 0 <= i < |rounds| :: j < |rounds[i]|
    ensures |c| == |rounds|
  {
    seq(|rounds|, i requires 0 <= i < |rounds| => rounds[i][j])
  }

  lemma AttemptIsLocal(m: Sessions, sid: SessionID, ev: Event, c: S.Chance)
    ensures var (m', r) := Attempt(m, sid, ev, c);
            && m'.Keys == m.Keys
            && (forall u | u in m && u != sid :: m'[u] == m[u])
            && (if sid in m then (m'[sid], r) == (S.Deliver(m[sid], ev, c).0, Seen(S.Deliver(m[sid], ev, c).1))
                else r == NoSession(sid))
  {
    hide S.Deliver;
  }

  lemma InitApart(sids: seq<SessionID>)
    requires NoDuplicates(sids) && sids != []
    ensures var last := |sids| - 1;
            && NoDuplicates(sids[..last]) && sids[last] !in sids[..last]
            && forall sid :: sid in sids <==> sid in sids[..last] || sid == sids[last]
  {
    assert sids == sids[..|sids| - 1] + [sids[|sids| - 1]];
  }

  // A round offers the event to each of its sessions once and to no other.
  lemma {:induction false} RoundIsPerSession(m: Sessions, ev: Event, sids: seq<SessionID>, cs: seq<S.Chance>)
    requires |cs| == |sids| && NoDuplicates(sids)
    ensures var (m', rs) := Round(m, ev, sids, cs);
            && m'.Keys == m.Keys
            && (forall sid | sid in m && sid !in sids :: m'[sid] == m[sid])
            && (forall j | 0 <= j < |sids| ::
                  if sids[j] in m
                  then var (s, r) := S.Deliver(m[sids[j]], ev, cs[j]); m'[sids[j]] == s && rs[j] == Seen(r)
                  else rs[j] == NoSession(sids[j]))
  {
    hide S.Deliver, Attempt;
    if sids != [] {
      var last := |sids| - 1;
      InitApart(sids);
      RoundIsPerSession(m, ev, sids[..last], cs[..last]);
      AttemptIsLocal(Round(m, ev, sids[..last], cs[..last]).0, sids[last], ev, cs[last]);
      hide NoDuplicates;
    }
  }

  // The nested loops come to the same as giving every session of the snapshot
  // the whole batch in order, each by itself, and touching no other session.
  lemma {:induction false} BatchIsPerSession(m: Sessions, events: seq<Event>, sids: seq<SessionID>,
                                             rounds: seq<seq<S.Chance>>)
    requires Fits(rounds, events, sids) && NoDuplicates(sids)
    ensures var (m', rs) := Batch(m, events, sids, rounds);
            && m'.Keys == m.Keys
            && (forall sid | sid in m && sid !in sids :: m'[sid] == m[sid])
            && (forall j | 0 <= j < |sids| && sids[j] in m ::
                  var (s, outcomes) := Each(m[sids[j]], events, Column(rounds, j));
                  m'[sids[j]] == s && forall i | 0 <= i < |events| :: rs[i][j] == Seen(outcomes[i]))
            && (forall i, j | 0 <= i < |events| && 0 <= j < |sids| && sids[j] !in m :: rs[i][j] == NoSession(sids[j]))
  {
    hide S.Deliver, Round;
    if events != [] {
      var last := |events| - 1;
      BatchIsPerSession(m, events[..last], sids, rounds[..last]);
      var m1 := Batch(m, events[..last], sids, rounds[..last]).0;
      RoundIsPerSession(m1, events[last], sids, rounds[last]);
      forall j | 0 <= j < |sids|
        ensures Column(rounds, j)[..last] == Column(rounds[..last], j) && Column(rounds, j)[last] == rounds[last][j]
      {
      }
    }
  }

  function NoRounds(n: nat): seq<seq<S.Chance>> {
    seq(n, _ => [])
  }

  // Without subscribers nothing is attempted.
  lemma {:induction false} EmptySnapshot(m: Sessions, events: seq<Event>, rounds: seq<seq<S.Chance>>)
    requires rounds == NoRounds(|events|)
    ensures Fits(rounds, events, [])
    ensures var (m', results) := Batch(m, events, [], rounds);
            m' == m && FirstError(results) == Delivered && AllSuccesses(results) == 0
  {
    if events != [] {
      EmptySnapshot(m, events[..|events| - 1], rounds[..|events| - 1]);
    }
  }

  // ---- The error that is returned and the counter.

  function FirstIn(rs: seq<Result>): Result {
    if rs == [] then Delivered
    else
      var first := FirstIn(rs[..|rs| - 1]);
      if first != Delivered then first else rs[|rs| - 1]
  }

  function FirstError(results: seq<seq<Result>>): Result {
    if results == [] then Delivered
    else
      var first := FirstError(results[..|results| - 1]);
      if first != Delivered then first else FirstIn(results[|results| - 1])
  }

  lemma {:induction false} FirstInIsFirst(rs: seq<Result>)
    ensures FirstIn(rs) == Delivered <==> forall k | 0 <= k < |rs| :: rs[k] == Delivered
    ensures FirstIn(rs) != Delivered ==>
              exists k :: 0 <= k < |rs| && rs[k] == FirstIn(rs) && forall l | 0 <= l < k :: rs[l] == Delivered
  {
    if rs != [] {
      var init := rs[..|rs| - 1];
      FirstInIsFirst(init);
      if FirstIn(init) != Delivered {
        var k :| 0 <= k < |init| && init[k] == FirstIn(init) && forall l | 0 <= l < k :: init[l] == Delivered;
        assert rs[k] == FirstIn(rs) && forall l | 0 <= l < k :: rs[l] == init[l];
      } else {
        assert forall l | 0 <= l < |init| :: rs[l] == init[l];
      }
    }
  }

  // Dispatch returns nil iff every attempt succeeded.
  lemma {:induction false} NilIffAllDelivered(results: seq<seq<Result>>)
    ensures FirstError(results) == Delivered <==>
            forall i, j | 0 <= i < |results| && 0 <= j < |results[i]| :: results[i][j] == Delivered
  {
    if results != [] {
      var init, last := results[..|results| - 1], results[|results| - 1];
      NilIffAllDelivered(init);
      FirstInIsFirst(last);
      assert forall i | 0 <= i < |init| :: results[i] == init[i];
    }
  }

  // The error it returns otherwise is that of the first attempt that failed.
  lemma {:induction false} FirstErrorIsFirst(results: seq<seq<Result>>)
    requires FirstError(results) != Delivered
    ensures exists i, j ::
              && 0 <= i < |results| && 0 <= j < |results[i]| && results[i][j] == FirstError(results)
              && (forall l | 0 <= l < j :: results[i][l] == Delivered)
              && (forall h, l | 0 <= h < i && 0 <= l < |results[h]| :: results[h][l] == Delivered)
  {
    var init, last := results[..|results| - 1], results[|results| - 1];
    assert forall i | 0 <= i < |init| :: results[i] == init[i];
    if FirstError(init) != Delivered {
      FirstErrorIsFirst(init);
      var i, j :| && 0 <= i < |init| && 0 <= j < |init[i]| && init[i][j] == FirstError(init)
                  && (forall l | 0 <= l < j :: init[i][l] == Delivered)
                  && (forall h, l | 0 <= h < i && 0 <= l < |init[h]| :: init[h][l] == Delivered);
      assert results[i][j] == FirstError(results);
    } else {
      NilIffAllDelivered(init);
      FirstInIsFirst(last);
      var j :| 0 <= j < |last| && last[j] == FirstIn(last) && forall l | 0 <= l < j :: last[l] == Delivered;
      assert results[|results| - 1][j] == FirstError(results);
    }
  }

  function Successes(rs: seq<Result>): nat {
    if rs == [] then 0 else Successes(rs[..|rs| - 1]) + if rs[|rs| - 1] == Delivered then 1 else 0
  }

  lemma RoundStep(m: Sessions, ev: Event, sids: seq<SessionID>, j: nat, cs: seq<S.Chance>, c: S.Chance)
    requires |cs| == j < |sids|
    ensures var (m1, rs) := Round(m, ev, sids[..j], cs);
            var (m2, r) := Attempt(m1, sids[j], ev, c);
            Round(m, ev, sids[..j + 1], cs + [c]) == (m2, rs + [r])
  {
    assert sids[..j + 1][..j] == sids[..j] && (cs + [c])[..j] == cs;
  }

  lemma NothingYet(m: Sessions, ev: Event, sids: seq<SessionID>)
    ensures Round(m, ev, sids[..0], []) == (m, []) && FirstIn([]) == Delivered && Successes([]) == 0
  {
  }

  lemma FirstInStep(rs: seq<Result>, r: Result)
    ensures FirstIn(rs + [r]) == if FirstIn(rs) != Delivered then FirstIn(rs) else r
    ensures Successes(rs + [r]) == Successes(rs) + if r == Delivered then 1 else 0
  {
    assert (rs + [r])[..|rs|] == rs;
  }

  function AllSuccesses(results: seq<seq<Result>>): nat {
    if results == [] then 0 else AllSuccesses(results[..|results| - 1]) + Successes(results[|results| - 1])
  }

  lemma {:induction false} SuccessesBounded(rs: seq<Result>)
    ensures Successes(rs) <= |rs|
    ensures Successes(rs) == |rs| <==> forall k | 0 <= k < |rs| :: rs[k] == Delivered
  {
    if rs != [] {
      SuccessesBounded(rs[..|rs| - 1]);
      assert forall k | 0 <= k < |rs| - 1 :: rs[..|rs| - 1][k] == rs[k];
    }
  }

  // A dispatch without an error counts one delivery for each event and session.
  lemma {:induction false} FullDispatchCounts(results: seq<seq<Result>>, n: nat)
    requires forall i | 0 <= i < |results| :: |results[i]| == n
    ensures AllSuccesses(results) <= |results| * n
    ensures FirstError(results) == Delivered <==> AllSuccesses(results) == |results| * n
  {
    if results != [] {
      var init, last := results[..|results| - 1], results[|results| - 1];
      FullDispatchCounts(init, n);
      SuccessesBounded(last);
      FirstInIsFirst(last);
      assert |results| * n == |init| * n + n;
    }
  }
}

// The fanout object over the subscriptions and the session registry.
module FanoutObject {
  import opened Types
  import opened FanoutModel
  import opened Membership
  import opened TopicSync
  import opened TopicTree
  import S = SessionModel
  import opened SessionObject
  import opened RegistryObject
  import Ack
  import Flow
  import C = SnapshotCache
  import W = WriterMachine

  datatype Entry = Entry(version: nat, sessions: seq<SessionID>)

  ghost predicate Lists(out: seq<SessionID>, bag: multiset<Binding>, topic: string) {
    NoDuplicates(out) && forall sid :: sid in out <==> (sid, topic) in bag
  }

  // No cached version is ahead of its topic's, and one that is not behind it
  // comes with the topic's present subscribers.
  ghost predicate CacheOk(cache: map<string, Entry>, versions: map<string, nat>, bag: multiset<Binding>) {
    forall topic | topic in cache ::
      && NoDuplicates(cache[topic].sessions)
      && cache[topic].version <= VersionIn(versions, topic)
      && (cache[topic].version == VersionIn(versions, topic) ==> Lists(cache[topic].sessions, bag, topic))
  }

  // Every change that bumps the version of its topic leaves the cache fresh.
  lemma BumpKeepsCache(cache: map<string, Entry>, versions: map<string, nat>,
                       bag: multiset<Binding>, bag': multiset<Binding>, topic: string)
    requires CacheOk(cache, versions, bag)
    requires forall b: Binding | b.1 != topic :: bag'[b] == bag[b]
    ensures CacheOk(cache, versions[topic := VersionIn(versions, topic) + 1], bag')
  {
    var versions' := versions[topic := VersionIn(versions, topic) + 1];
    forall t | t in cache && t != topic && cache[t].version == VersionIn(versions', t)
      ensures Lists(cache[t].sessions, bag', t)
    {
      assert Lists(cache[t].sessions, bag, t);
      assert forall sid: SessionID :: (sid, t) in bag' <==> (sid, t) in bag;
    }
  }

  // DeleteTopic, which drops the version, leaves it fresh iff the topic's entry
  // has version 0 and nothing in it, or there is none.
  lemma DropKeepsCacheIff(cache: map<string, Entry>, versions: map<string, nat>,
                          bag: multiset<Binding>, bag': multiset<Binding>, topic: string)
    requires CacheOk(cache, versions, bag) && Cleared(bag', bag, topic)
    ensures CacheOk(cache, versions - {topic}, bag') <==> topic !in cache || cache[topic] == Entry(0, [])
  {
    var versions' := versions - {topic};
    forall t | t in cache && t != topic && cache[t].version == VersionIn(versions', t)
      ensures Lists(cache[t].sessions, bag', t)
    {
      assert Lists(cache[t].sessions, bag, t);
      assert forall sid: SessionID :: bag'[(sid, t)] == bag[(sid, t)];
    }
    assert forall sid: SessionID :: (sid, topic) !in bag';
    if topic in cache && cache[topic].sessions != [] {
      assert cache[topic].sessions[0] in cache[topic].sessions;
    }
  }

  // The topic after n subscriptions of one session to it.
  function Subscribed(versions: map<string, nat>, topic: string, n: nat): map<string, nat> {
    if n == 0 then versions else versions[topic := VersionIn(versions, topic) + n]
  }

  // Any other entry does come to be served when it is wrong: after as many new
  // subscriptions as its version says, the next snapshot hits it, and it is not
  // the list of the subscribers.
  lemma DroppedEntryIsServedWrong(cache: map<string, Entry>, versions: map<string, nat>,
                                  bag: multiset<Binding>, topic: string)
    requires topic in cache && cache[topic] != Entry(0, [])
    requires topic !in versions && forall b | b in bag :: b.1 != topic
    ensures exists n: nat, x: SessionID ::
              && cache[topic].version == VersionIn(Subscribed(versions, topic, n), topic)
              && !Lists(cache[topic].sessions, bag[(x, topic) := n], topic)
  {
    var e := cache[topic];
    var x := C.FreshSession(set sid | sid in e.sessions);
    var n := e.version;
    assert n == VersionIn(Subscribed(versions, topic, n), topic);
    var bag' := bag[(x, topic) := n];
    if n == 0 {
      assert e.sessions[0] in e.sessions && (e.sessions[0], topic) !in bag';
    } else {
      assert (x, topic) in bag' && x !in e.sessions;
    }
    assert !Lists(e.sessions, bag', topic);
  }

  // The objects behind each id: the session and what it points to.
  datatype Link = Link(session: Session, writer: W.BoundedWriter, tracker: Ack.Tracker, flow: Flow.Limiter)

  ghost predicate AllApart(links: map<SessionID, Link>) {
    forall a, b | a in links && b in links && a != b ::
      && links[a].session != links[b].session && links[a].writer != links[b].writer
      && links[a].tracker != links[b].tracker && links[a].flow != links[b].flow
  }

  // A session may get a tracker of its own.
  lemma StillApart(links: map<SessionID, Link>, id: SessionID, tracker: Ack.Tracker)
    requires AllApart(links) && id in links
    requires tracker == links[id].tracker || forall a | a in links && a != id :: links[a].tracker != tracker
    ensures AllApart(links[id := links[id].(tracker := tracker)])
  {
  }

  class Fanout {
    const subs: TopicRegistry
    const sessions: SessionRegistry
    var cache: map<string, Entry>
    var hits: nat
    var misses: nat
    var delivered: nat

    constructor (subs: TopicRegistry, sessions: SessionRegistry)
      ensures this.subs == subs && this.sessions == sessions
      ensures cache == map[] && hits == misses == delivered == 0
    {
      this.subs, this.sessions := subs, sessions;
      cache, hits, misses, delivered := map[], 0, 0, 0;
    }

    ghost predicate Coherent()
      reads this, subs, subs.reg, subs.reg.refs
    {
      CacheOk(cache, subs.versions, subs.reg.Bag())
    }

    // A hit returns the cached list, a miss reads the subscribers and caches
    // them; either way, from a fresh cache, the list is the present subscribers.
    method TakeSnapshot(topic: string) returns (out: seq<SessionID>)
      requires subs.Valid()
      modifies this`cache, this`hits, this`misses
      ensures topic in old(cache) && old(cache)[topic].version == subs.VersionOf(topic) ==>
                out == old(cache)[topic].sessions && cache == old(cache) && hits == old(hits) + 1 && misses == old(misses)
      ensures !(topic in old(cache) && old(cache)[topic].version == subs.VersionOf(topic)) ==>
                && cache == old(cache)[topic := Entry(subs.VersionOf(topic), out)]
                && misses == old(misses) + 1 && hits == old(hits)
                && Lists(out, subs.reg.Bag(), topic)
      ensures old(Coherent()) ==> Coherent() && Lists(out, subs.reg.Bag(), topic)
    {
      hide TopicRegistry.Valid, Tree.Counts, NoDuplicates;
      var version := subs.Version(topic);
      if topic in cache {
        if cache[topic].version == version {
          hits := hits + 1;
          return cache[topic].sessions;
        }
        cache := cache - {topic};
      }
      misses := misses + 1;
      out := subs.Subscribers(topic);
      cache := cache[topic := Entry(version, out)];
    }

    // ---- Delivery.

    ghost function Bound(): set<Session>
      reads sessions
    {
      sessions.byID.Values
    }

    ghost function Links(): map<SessionID, Link>
      reads sessions, Bound()
    {
      map id | id in sessions.byID ::
        var s := sessions.byID[id]; Link(s, s.writer, s.tracker, s.flow)
    }

    // The registered sessions are valid and share nothing.
    ghost predicate Ready()
      reads sessions, Bound(), set s | s in Bound() :: s.writer
    {
      (forall id | id in sessions.byID :: sessions.byID[id].Valid()) && AllApart(Links())
    }

    ghost function States(): Sessions
      reads sessions, Bound(), set s | s in Bound() :: s.writer
      reads set s | s in Bound() :: s.tracker, set s | s in Bound() :: s.flow
    {
      map id | id in sessions.byID :: sessions.byID[id].Value()
    }

    lemma StatesRead()
      ensures States().Keys == sessions.byID.Keys
      ensures forall id | id in sessions.byID :: States()[id] == sessions.byID[id].Value()
    {
    }

    lemma StatesAre(m: Sessions)
      requires m.Keys == sessions.byID.Keys && forall id | id in sessions.byID :: m[id] == sessions.byID[id].Value()
      ensures States() == m
    {
    }

    lemma LinksRead()
      ensures Links().Keys == sessions.byID.Keys
      ensures forall id | id in sessions.byID ::
                var s := sessions.byID[id]; Links()[id] == Link(s, s.writer, s.tracker, s.flow)
    {
    }

    lemma LinksAre(links: map<SessionID, Link>)
      requires links.Keys == sessions.byID.Keys
      requires forall id | id in sessions.byID ::
                 var s := sessions.byID[id]; links[id] == Link(s, s.writer, s.tracker, s.flow)
      ensures Links() == links
    {
    }

    lemma OthersApart(sid: SessionID)
      requires AllApart(Links()) && sid in sessions.byID
      ensures var s := sessions.byID[sid];
              forall id | id in sessions.byID && id != sid ::
                var t := sessions.byID[id];
                t != s && t.writer != s.writer && t.tracker != s.tracker && t.flow != s.flow
    {
      LinksRead();
    }

    // Deliveries exchange no writer and no limiter, and no tracker but for a new one.
    twostate predicate SameParts()
      reads sessions, Bound()
    {
      && sessions.byID == old(sessions.byID)
      && (forall s | s in old(Bound()) ::
            s.writer == old(s.writer) && s.flow == old(s.flow) && (s.tracker == old(s.tracker) || fresh(s.tracker)))
    }

    twostate predicate OthersStand(sid: SessionID)
      reads sessions, Bound(), set s | s in Bound() :: s.writer
      reads set s | s in Bound() :: s.tracker, set s | s in Bound() :: s.flow
    {
      && SameParts()
      && forall id | id in sessions.byID && id != sid ::
           var t := sessions.byID[id];
           unchanged(t) && unchanged(t.writer) && unchanged(t.tracker) && unchanged(t.flow)
    }

    // When all but one of the registered sessions stand as they were, all stay
    // valid and apart, and only the state of that one may be another.
    twostate lemma OneMovedApart(sid: SessionID)
      requires old(Ready()) && sid in old(sessions.byID) && OthersStand(sid) && sessions.byID[sid].Valid()
      ensures Ready()
    {
      hide W.BoundedWriter.Valid, AllApart;
      ghost var links, tracker := old(Links()), sessions.byID[sid].tracker;
      StillApart(links, sid, tracker);
      LinksAre(links[sid := links[sid].(tracker := tracker)]);
    }

    twostate lemma OneMovedStates(sid: SessionID)
      requires sid in old(sessions.byID) && OthersStand(sid)
      ensures States() == old(States())[sid := sessions.byID[sid].Value()]
    {
      hide Session.Value;
      StatesAre(old(States())[sid := sessions.byID[sid].Value()]);
    }

    // Delivering to one registered session changes the state of that one only.
    method DeliverTo(sess: Session, ghost sid: SessionID, ev: Event, now: real, drained: bool) returns (e: S.Outcome)
      requires Ready() && sid in sessions.byID && sess == sessions.byID[sid]
      modifies sess, sess.writer, sess.tracker, sess.flow
      ensures Ready() && SameParts()
      ensures var c := S.Chance(now, |old(sess.writer.queue)| < sess.writer.cap || drained);
              (States(), Seen(e)) == Attempt(old(States()), sid, ev, c)
    {
      hide S.Deliver, W.BoundedWriter.Valid, Session.Value, Fanout.States, Fanout.Links, AllApart;
      StatesRead();
      OthersApart(sid);
      e := sess.Deliver(ev, now, drained);
      OneMovedApart(sid);
      OneMovedStates(sid);
    }

    // drained says whether the session's drainer frees a slot in time.
    method Deliver(sid: SessionID, ev: Event, now: real, drained: bool) returns (r: Result, ghost c: S.Chance)
      requires Ready()
      modifies this`delivered, Bound(), set s | s in Bound() :: s.writer
      modifies set s | s in Bound() :: s.tracker, set s | s in Bound() :: s.flow
      ensures Ready() && SameParts()
      ensures c.now == now && (States(), r) == Attempt(old(States()), sid, ev, c)
      ensures delivered == old(delivered) + if r == Delivered then 1 else 0
    {
      hide Fanout.Ready, Fanout.States;
      c := S.Chance(now, drained);
      var sess := sessions.Get(sid);
      if sess == null {
        StatesRead();
        return NoSession(sid), c;
      }
      c := S.Chance(now, |sess.writer.queue| < sess.writer.cap || drained);
      var e := DeliverTo(sess, sid, ev, now, drained);
      if e != S.Ok {
        return Failed(e), c;
      }
      delivered := delivered + 1;
      return Delivered, c;
    }

    // One event, for every session of the snapshot in turn; first is the error so
    // far.  chance(j) is when attempt j happens and whether it gets a slot in time.
    method DispatchRound(ev: Event, sids: seq<SessionID>, first: Result, chance: nat -> (real, bool))
      returns (err: Result, ghost cs: seq<S.Chance>)
      requires Ready()
      modifies this`delivered, Bound(), set s | s in Bound() :: s.writer
      modifies set s | s in Bound() :: s.tracker, set s | s in Bound() :: s.flow
      ensures Ready() && SameParts() && |cs| == |sids|
      ensures var (m, rs) := Round(old(States()), ev, sids, cs);
              && States() == m
              && err == (if first != Delivered then first else FirstIn(rs))
              && delivered == old(delivered) + Successes(rs)
    {
      hide Fanout.Ready, Fanout.States, Attempt, Round, FirstIn, Successes;
      NothingYet(States(), ev, sids);
      ghost var m := States();
      err, cs := first, [];
      var j := 0;
      ghost var rs: seq<Result> := [];
      while j < |sids|
        invariant j <= |sids| && |cs| == j && Ready() && SameParts()
        invariant (States(), rs) == Round(m, ev, sids[..j], cs)
        invariant err == if first != Delivered then first else FirstIn(rs)
        invariant delivered == old(delivered) + Successes(rs)
      {
        var (now, drained) := chance(j);
        var r, c := Deliver(sids[j], ev, now, drained);
        if err == Delivered {
          err := r;
        }
        RoundStep(m, ev, sids, j, cs, c);
        FirstInStep(rs, r);
        cs, rs := cs + [c], rs + [r];
        j := j + 1;
      }
      assert sids[..j] == sids;
    }

    // The loops of Dispatch, over a snapshot already taken.
    method Broadcast(events: seq<Event>, sids: seq<SessionID>, chance: (nat, nat) -> (real, bool))
      returns (err: Result, ghost rounds: seq<seq<S.Chance>>)
      requires Ready()
      modifies this`delivered, Bound(), set s | s in Bound() :: s.writer
      modifies set s | s in Bound() :: s.tracker, set s | s in Bound() :: s.flow
      ensures Ready() && SameParts() && Fits(rounds, events, sids)
      ensures var (m, results) := Batch(old(States()), events, sids, rounds);
              && States() == m
              && err == FirstError(results)
              && delivered == old(delivered) + AllSuccesses(results)
    {
      hide Fanout.Ready, Fanout.States, Round, Successes, FirstIn;
      err, rounds := Delivered, [];
      ghost var results: seq<seq<Result>> := [];
      var i: nat := 0;
      while i < |events|
        invariant i <= |events| && Fits(rounds, events[..i], sids)
        invariant Ready() && SameParts()
        invariant (States(), results) == Batch(old(States()), events[..i], sids, rounds)
        invariant err == FirstError(results)
        invariant delivered == old(delivered) + AllSuccesses(results)
      {
        ghost var m := States();
        ghost var cs;
        err, cs := DispatchRound(events[i], sids, err, (j: nat) => chance(i, j));
        ghost var rs := Round(m, events[i], sids, cs).1;
        assert events[..i + 1][..i] == events[..i] && (rounds + [cs])[..i] == rounds && (results + [rs])[..i] == results;
        rounds, results := rounds + [cs], results + [rs];
        i := i + 1;
      }
      assert events[..i] == events;
    }

    // The snapshot is taken once; then every event goes to every session in it.
    // rounds[i][j] is the chance of event i at session j.
    method Dispatch(topic: string, events: seq<Event>, chance: (nat, nat) -> (real, bool))
      returns (err: Result, ghost sids: seq<SessionID>, ghost rounds: seq<seq<S.Chance>>)
      requires subs.Valid() && Ready()
      modifies this, Bound(), set s | s in Bound() :: s.writer
      modifies set s | s in Bound() :: s.tracker, set s | s in Bound() :: s.flow
      ensures Ready() && SameParts() && Fits(rounds, events, sids)
      ensures topic in cache && cache[topic] == Entry(subs.VersionOf(topic), sids)
      ensures old(Coherent()) ==> Coherent() && Lists(sids, subs.reg.Bag(), topic)
      ensures var (m, results) := Batch(old(States()), events, sids, rounds);
              && States() == m
              && err == FirstError(results)
              && delivered == old(delivered) + AllSuccesses(results)
    {
      hide Fanout.Ready, Fanout.States, Batch, FirstError, AllSuccesses, TopicRegistry.Valid, Lists, CacheOk, Fits;
      var sessions := TakeSnapshot(topic);
      sids := sessions;
      if |sessions| == 0 {
        rounds := NoRounds(|events|);
        EmptySnapshot(States(), events, rounds);
        return Delivered, sids, rounds;
      }
      err, rounds := Broadcast(events, sessions, chance);
    }
  }
}
