// The session registry, the evictor and the heartbeat as objects over sessions.
module RegistryObject {
  import opened Types
  import opened RegistryModel
  import S = SessionModel
  import opened SessionObject
  import H = HeartbeatModel
  import W = WriterMachine

  function IdOf(): Session -> SessionID {
    (s: Session) => s.id
  }

  // A loop over a list without duplicates has come to the elements before i.
  ghost predicate DoneUpTo<T>(all: seq<T>, i: nat, done: set<T>) {
    forall j | 0 <= j < |all| :: all[j] in done <==> j < i
  }

  lemma NothingDone<T>(all: seq<T>)
    ensures DoneUpTo(all, 0, {})
  {
  }

  lemma OneMoreDone<T>(all: seq<T>, i: nat, done: set<T>)
    requires NoDuplicates(all) && i < |all| && DoneUpTo(all, i, done)
    ensures all[i] !in done && DoneUpTo(all, i + 1, done + {all[i]})
  {
  }

  lemma AllDone<T>(all: seq<T>, done: set<T>)
    requires DoneUpTo(all, |all|, done)
    ensures forall x | x in all :: x in done
  {
  }

  class SessionRegistry {
    var byID: map<SessionID, Session>
    var active: set<Session>
    var lastSeen: map<SessionID, real>
    var incarnations: map<SessionID, nat>

    ghost function View(): Reg<Session>
      reads this
    {
      Reg(byID, active, lastSeen, incarnations)
    }

    constructor ()
      ensures View() == Empty()
    {
      byID, active, lastSeen, incarnations := map[], {}, map[], map[];
    }

    // The registered session of the id unless it is closed, else a new one.
    method Bind(id: SessionID, queueSize: int, rate: real, burst: int, now: real) returns (s: Session)
      modifies this
      ensures id in old(byID) && old(byID[id].state) != Closed ==> s == old(byID[id]) && View() == old(View())
      ensures id !in old(byID) || old(byID[id].state) == Closed ==>
                && fresh(s.Footprint()) && s.Valid() && s.id == id && s.Value() == S.NewSession(id, rate, burst)
                && View() == Registered(old(View()), id, s, now, 0)
    {
      if id in byID && byID[id].state != Closed {
        return byID[id];
      }
      s := new Session(id, queueSize, rate, burst);
      byID := byID[id := s];
      active := active + {s};
      lastSeen := lastSeen[id := now];
      incarnations := incarnations[id := s.tracker.epoch];
    }

    method Remove(s: Session)
      requires s.Valid()
      modifies this, s`state, s`replaying, s`buffer, s`closes, s.writer
      ensures s.Valid() && s.Value() == S.FinishClose(old(s.Value()))
      ensures View() == Unregistered(old(View()), s.id, s)
    {
      if s.id in byID && byID[s.id] == s {
        byID := byID - {s.id};
      }
      active := active - {s};
      lastSeen := lastSeen - {s.id};
      incarnations := incarnations - {s.id};
      s.FinishClose();
    }

    method Get(id: SessionID) returns (s: Session?)
      ensures s == if id in byID then byID[id] else null
    {
      s := if id in byID then byID[id] else null;
    }

    method IsLive(id: SessionID) returns (live: bool)
      ensures live <==> id in byID && byID[id].state.Accepting()
    {
      if id !in byID {
        return false;
      }
      var st := byID[id].state;
      return st != Closing && st != Closed;
    }

    method Touch(id: SessionID, now: real) returns (ok: bool)
      modifies this`lastSeen
      ensures ok <==> id in byID && byID[id].state.Accepting()
      ensures View() == if ok then Renewed(old(View()), id, now) else old(View())
    {
      if id !in byID {
        return false;
      }
      var st := byID[id].state;
      if st == Closing || st == Closed {
        return false;
      }
      lastSeen := lastSeen[id := now];
      return true;
    }

    method LastSeen(id: SessionID) returns (last: Option<real>)
      ensures last == if id in lastSeen then Some(lastSeen[id]) else None
    {
      last := if id in lastSeen then Some(lastSeen[id]) else None;
    }

    // A snapshot of the active sessions, each once, in whatever order.
    method Sessions() returns (out: seq<Session>)
      ensures NoDuplicates(out) && forall s :: s in out <==> s in active
    {
      out := [];
      var todo := active;
      while todo != {}
        invariant NoDuplicates(out)
        invariant forall s :: s in out || s in todo <==> s in active
        invariant forall s | s in out :: s !in todo
        decreases todo
      {
        var s :| s in todo;
        out := out + [s];
        todo := todo - {s};
      }
    }
  }

  class Evictor {
    const registry: SessionRegistry
    var evicted: nat

    constructor (registry: SessionRegistry)
      ensures this.registry == registry && evicted == 0
    {
      this.registry := registry;
      evicted := 0;
    }

    // Only the call whose BeginClose succeeds goes on to tear the session down.
    method Evict(s: Session)
      requires s.Valid()
      modifies this`evicted, registry, s`state, s`replaying, s`buffer, s`closes, s.writer
      ensures s.Valid()
      ensures !old(s.state).Accepting() ==>
                s.Value() == old(s.Value()) && registry.View() == old(registry.View()) && evicted == old(evicted)
      ensures old(s.state).Accepting() ==>
                && s.Value() == S.FinishClose(old(s.Value()))
                && registry.View() == Unregistered(old(registry.View()), s.id, s)
                && evicted == old(evicted) + 1
    {
      hide W.Inv;
      var won := s.BeginClose();
      if !won {
        return;
      }
      s.writer.Shutdown();
      registry.Remove(s);
      evicted := evicted + 1;
    }
  }

  class Heartbeat {
    const registry: SessionRegistry
    const evictor: Evictor
    const timeout: real
    const suspect: real

    constructor (registry: SessionRegistry, timeout: real, suspect: real)
      ensures this.registry == registry && this.timeout == timeout && this.suspect == suspect
      ensures fresh(evictor) && evictor.registry == registry && evictor.evicted == 0
    {
      this.registry, this.timeout, this.suspect := registry, timeout, suspect;
      evictor := new Evictor(registry);
    }

    // The registry is in order, and its sessions share no writer.
    ghost predicate Ready()
      reads this, evictor, registry, registry.active, set s | s in registry.active :: s.writer
    {
      && evictor.registry == registry
      && Consistent(registry.View(), IdOf())
      && (forall s | s in registry.active :: s.Valid())
      && (forall s, t | s in registry.active && t in registry.active && s != t :: s.writer != t.writer)
    }

    method Classify(age: real) returns (st: ConnState)
      ensures st == H.Classify(H.Thresholds(timeout, suspect), age)
    {
      if age > timeout {
        return Closing;
      }
      if age > suspect {
        return Suspected;
      }
      return Active;
    }

    method Renew(id: SessionID, now: real) returns (ok: bool)
      modifies registry`lastSeen
      ensures ok <==> id in registry.byID && registry.byID[id].state.Accepting()
      ensures registry.View() == if ok then Renewed(old(registry.View()), id, now) else old(registry.View())
    {
      ok := registry.Touch(id, now);
    }

    ghost function Watched(s: Session): H.Watch
      reads s, registry
    {
      H.Watch(s.state, if s.id in registry.lastSeen then registry.lastSeen[s.id] else 0.0)
    }

    // The active sessions as the sweep sees them.
    ghost function Watches(): map<Session, H.Watch>
      reads this, registry, registry.active
    {
      map s | s in registry.active :: Watched(s)
    }

    lemma WatchesRead()
      ensures Watches().Keys == registry.active && forall s | s in registry.active :: Watches()[s] == Watched(s)
    {
    }

    lemma WatchesAre(ws: map<Session, H.Watch>)
      requires ws.Keys == registry.active && forall s | s in registry.active :: ws[s] == Watched(s)
      ensures Watches() == ws
    {
    }

    ghost function Limits(): H.Thresholds {
      H.Thresholds(timeout, suspect)
    }

    lemma SeenUnderOwnId(s: Session)
      requires Ready() && s in registry.active
      ensures Holds(registry.View(), s.id, s) && s.id in registry.lastSeen
      ensures Watches()[s := Watched(s)] == Watches()
    {
      OwnId(registry.View(), IdOf(), s);
    }

    // The three things a sweep does to a session it finds alive.
    method Expire(s: Session)
      requires Ready() && s in registry.active && s.state.Accepting()
      modifies evictor`evicted, registry, s`state, s`replaying, s`buffer, s`closes, s.writer
      ensures Ready() && registry.active == old(registry.active) - {s}
      ensures Watches() == old(Watches()) - {s} && s.state.Closed?
      ensures evictor.evicted == old(evictor.evicted) + 1
    {
      hide Consistent, W.BoundedWriter.Valid, Heartbeat.Watches;
      ghost var view, all := registry.View(), Watches();
      WatchesRead();
      OwnId(view, IdOf(), s);
      RemoveKeepsConsistentIff(view, IdOf(), s);
      evictor.Evict(s);
      WatchesAre(all - {s});
    }

    method MarkSuspected(s: Session)
      requires Ready() && s in registry.active
      modifies s`state
      ensures Ready()
      ensures var w := old(Watched(s));
              Watches() == old(Watches())[s := if w.state == Active then w.(state := Suspected) else w]
    {
      hide Consistent, W.BoundedWriter.Valid, Heartbeat.Watches;
      ghost var all, w := Watches(), Watched(s);
      WatchesRead();
      s.Suspect();
      WatchesAre(all[s := if w.state == Active then w.(state := Suspected) else w]);
    }

    method Refresh(s: Session, now: real)
      requires Ready() && s in registry.active && s.state.Accepting()
      modifies registry
      ensures Ready() && registry.active == old(registry.active)
      ensures Watches() == old(Watches())[s := old(Watched(s)).(last := now)]
    {
      hide Consistent, W.BoundedWriter.Valid, Heartbeat.Watches;
      ghost var view, all, w := registry.View(), Watches(), Watched(s);
      WatchesRead();
      OwnId(view, IdOf(), s);
      RenewKeepsConsistent(view, IdOf(), s.id, now);
      var _ := Renew(s.id, now);
      WatchesAre(all[s := w.(last := now)]);
    }

    // The body of the sweep's loop, for one session.
    method Visit(s: Session, k: H.Tick)
      requires Ready() && s in registry.active
      modifies evictor`evicted, registry, s`state, s`replaying, s`buffer, s`closes, s.writer
      ensures Ready()
      ensures registry.active ==
              if H.Evicts(Limits(), old(Watched(s)), k) then old(registry.active) - {s} else old(registry.active)
      ensures var all, w := old(Watches()), old(Watched(s));
              if H.Evicts(Limits(), w, k)
              then Watches() == all - {s} && s.state.Closed? && evictor.evicted == old(evictor.evicted) + 1
              else Watches() == all[s := H.Sweep(Limits(), w, k)] && evictor.evicted == old(evictor.evicted)
    {
      hide Heartbeat.Ready, Heartbeat.Watches, Consistent;
      SeenUnderOwnId(s);
      var live := registry.IsLive(s.id);
      if !live {
        return;
      }
      var last := registry.LastSeen(s.id);
      if last.None? {
        return;
      }
      var st := Classify(k.now - last.value);
      if st == Closing {
        Expire(s);
      } else if st == Suspected {
        MarkSuspected(s);
      } else {
        Refresh(s, k.renewal);
      }
    }

    // The tick of one sweep, with the clock reading each session's renewal gets.
    static function Ticks(now: real, clock: SessionID -> real): Session -> H.Tick {
      (s: Session) => H.Tick(now, clock(s.id))
    }

    // One sweep does to every session what the model says, and to nothing else;
    // the evictions it counts are the sessions the registry lost.
    method Sweep(now: real, clock: SessionID -> real)
      requires Ready()
      modifies evictor`evicted, registry, registry.active, set s | s in registry.active :: s.writer
      ensures Ready()
      ensures Watches() == H.SweptOver(Limits(), old(Watches()), Ticks(now, clock), old(registry.active))
      ensures evictor.evicted == old(evictor.evicted) + |old(registry.active)| - |registry.active|
    {
      hide H.SweptOver, H.Sweep, H.Evicts, Heartbeat.Ready, Heartbeat.Watches, DoneUpTo, NoDuplicates;
      var all := registry.Sessions();
      var i := 0;
      ghost var done: set<Session> := {};
      ghost var before := Watches();
      H.SweptOverNothing(Limits(), before, Ticks(now, clock));
      WatchesRead();
      NothingDone(all);
      while i < |all|
        invariant i <= |all| && done <= old(registry.active) && DoneUpTo(all, i, done)
        invariant Ready() && registry.active <= old(registry.active)
        invariant forall s | s in old(registry.active) :: s.writer == old(s.writer)
        invariant Watches() == H.SweptOver(Limits(), before, Ticks(now, clock), done)
        invariant evictor.evicted == old(evictor.evicted) + |old(registry.active)| - |registry.active|
      {
        OneMoreDone(all, i, done);
        H.SweptOverStep(Limits(), before, Ticks(now, clock), done, all[i]);
        WatchesRead();
        Visit(all[i], H.Tick(now, clock(all[i].id)));
        done := done + {all[i]};
        i := i + 1;
      }
      AllDone(all, done);
      assert done == old(registry.active);
    }
  }
}
