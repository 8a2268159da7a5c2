// The session registry's maps as values, over whatever stands for a session.
module RegistryModel {
  import opened Types

  datatype Reg<S(==)> = Reg(
    byID: map<SessionID, S>,
    active: set<S>,
    lastSeen: map<SessionID, real>,
    incarnations: map<SessionID, nat>)

  function Empty<S(==)>(): Reg<S> {
    Reg(map[], {}, map[], map[])
  }

  function Registered<S(==)>(r: Reg<S>, id: SessionID, s: S, now: real, epoch: nat): Reg<S> {
    Reg(r.byID[id := s], r.active + {s}, r.lastSeen[id := now], r.incarnations[id := epoch])
  }

  // The locked region of Remove.
  function Unregistered<S(==)>(r: Reg<S>, id: SessionID, s: S): Reg<S> {
    Reg(if Holds(r, id, s) then r.byID - {id} else r.byID,
        r.active - {s}, r.lastSeen - {id}, r.incarnations - {id})
  }

  predicate Holds<S(==)>(r: Reg<S>, id: SessionID, s: S) {
    id in r.byID && r.byID[id] == s
  }

  function Renewed<S(==)>(r: Reg<S>, id: SessionID, now: real): Reg<S> {
    r.(lastSeen := r.lastSeen[id := now])
  }

  // The four maps tell the same story: the active sessions are the registered
  // ones, each under its own id, and each id has a heartbeat and an incarnation.
  ghost predicate Consistent<S>(r: Reg<S>, idOf: S -> SessionID) {
    && (forall id | id in r.byID :: r.byID[id] in r.active && idOf(r.byID[id]) == id)
    && (forall s | s in r.active :: Holds(r, idOf(s), s))
    && r.lastSeen.Keys == r.byID.Keys
    && r.incarnations.Keys == r.byID.Keys
  }

  lemma RegisterKeepsConsistent<S>(r: Reg<S>, idOf: S -> SessionID, s: S, now: real, epoch: nat)
    requires Consistent(r, idOf) && idOf(s) !in r.byID
    ensures var id, r' := idOf(s), Registered(r, idOf(s), s, now, epoch);
            && Consistent(r', idOf)
            && Holds(r', id, s) && r'.lastSeen[id] == now && r'.incarnations[id] == epoch
            && forall u | u in r.byID :: u in r'.byID && r'.byID[u] == r.byID[u] && r'.lastSeen[u] == r.lastSeen[u]
                                         && r'.incarnations[u] == r.incarnations[u]
  {
  }

  // Registering under a free id and removing again leaves no trace.
  lemma RemoveUndoesRegister<S>(r: Reg<S>, idOf: S -> SessionID, s: S, now: real, epoch: nat)
    requires Consistent(r, idOf) && idOf(s) !in r.byID
    ensures Unregistered(Registered(r, idOf(s), s, now, epoch), idOf(s), s) == r
  {
    var r' := Unregistered(Registered(r, idOf(s), s, now, epoch), idOf(s), s);
    assert r'.byID == r.byID && r'.lastSeen == r.lastSeen && r'.incarnations == r.incarnations;
    assert s !in r.active;
    assert r'.active == r.active;
  }

  lemma RenewKeepsConsistent<S>(r: Reg<S>, idOf: S -> SessionID, id: SessionID, now: real)
    requires Consistent(r, idOf) && id in r.byID
    ensures Consistent(Renewed(r, id, now), idOf)
  {
  }

  // Different registered sessions have different ids, and each has a heartbeat.
  lemma OwnId<S>(r: Reg<S>, idOf: S -> SessionID, s: S)
    requires Consistent(r, idOf) && s in r.active
    ensures Holds(r, idOf(s), s) && idOf(s) in r.lastSeen
    ensures forall t | t in r.active && t != s :: idOf(t) != idOf(s)
  {
  }

  // Removing any session at all keeps the maps together iff the session is
  // registered or its id is free; otherwise the id is bound to a newer session,
  // and that one loses its heartbeat.
  lemma RemoveKeepsConsistentIff<S>(r: Reg<S>, idOf: S -> SessionID, s: S)
    requires Consistent(r, idOf)
    ensures Consistent(Unregistered(r, idOf(s), s), idOf) <==> Holds(r, idOf(s), s) || idOf(s) !in r.byID
  {
    var id, r' := idOf(s), Unregistered(r, idOf(s), s);
    if Holds(r, id, s) {
      forall t | t in r'.active
        ensures Holds(r', idOf(t), t)
      {
        assert Holds(r, idOf(t), t);
      }
    } else if id in r.byID {
      assert id in r'.byID && id !in r'.lastSeen;
    } else {
      assert s !in r.active;
      assert r'.active == r.active && r'.lastSeen == r.lastSeen && r'.incarnations == r.incarnations;
    }
  }
}

// The life of sessions from Bind to FinishClose, with any number of threads
// evicting, removing, suspecting and renewing them.  Every locked region and the
// close of a channel is one step; Reconnect, which revives a session, is not
// among them.  Bind and Touch read a session's state, under the session's lock,
// inside their region under the registry lock: they take two steps, between
// which the registry stands still and the sessions do not.
module LifecycleMachine {
  import opened Types
  import opened RegistryModel
  import Heart = HeartbeatModel

  // One session object: serial tells two sessions of the same id apart.
  datatype Handle = Handle(serial: nat, id: SessionID)

  datatype Pc =
    | Removing(h: Handle)    // in Remove, before its locked region
    | Finishing(h: Handle)   // after it, before FinishClose
    | Releasing(h: Handle)   // in FinishClose, closed, the channel not yet closed
    | Binding(h: Handle, closed: bool)   // in Bind, has read the state of the registered session
    | Renewing(h: Handle)    // in Touch, has read a state that lets it renew
  {
    predicate HoldsRegistry() {
      Binding? || Renewing?
    }
  }

  // wins, touched and finished are histories: the sessions whose BeginClose
  // succeeded, those Touch renewed and those whose closed channel was closed.
  datatype Life = Life(
    reg: Reg<Handle>,
    lock: Option<Tid>,
    states: map<Handle, ConnState>,
    serials: nat,
    threads: map<Tid, Pc>,
    wins: seq<Handle>,
    touched: seq<Handle>,
    finished: seq<Handle>,
    fault: bool)

  datatype Step =
    | Bind(t: Tid, id: SessionID, now: real)
    | BindEnd(t: Tid, now: real)
    | Suspect(h: Handle)
    | BeginEvict(t: Tid, h: Handle)
    | BeginRemove(t: Tid, h: Handle)
    | Unregister(t: Tid)
    | Finish(t: Tid)
    | Release(t: Tid)
    | TouchRead(t: Tid, id: SessionID)
    | TouchWrite(t: Tid, now: real)

  function NewLife(): Life {
    Life(Empty(), None, map[], 0, map[], [], [], [], false)
  }

  function StateOf(s: Life, h: Handle): Option<ConnState> {
    if h in s.states then Some(s.states[h]) else None
  }

  predicate Live(s: Life, h: Handle) {
    h in s.states && s.states[h].Accepting()
  }

  function Register(s: Life, id: SessionID, now: real): Life {
    var h := Handle(s.serials, id);
    s.(reg := Registered(s.reg, id, h, now, 0), states := s.states[h := Active], serials := s.serials + 1)
  }

  function BindStep(s: Life, t: Tid, id: SessionID, now: real): Life {
    if t in s.threads || s.lock.Some? then s
    else if id !in s.reg.byID then Register(s, id, now)
    else
      var h := s.reg.byID[id];
      s.(lock := Some(t), threads := s.threads[t := Binding(h, StateOf(s, h) == Some(Closed))])
  }

  function BindEndStep(s: Life, t: Tid, pc: Pc, now: real): Life
    requires pc.Binding?
  {
    var s' := if pc.closed then Register(s, pc.h.id, now) else s;
    s'.(lock := None, threads := s.threads - {t})
  }

  function EvictStep(s: Life, t: Tid, h: Handle): Life {
    if t in s.threads || !Live(s, h) then s
    else s.(states := s.states[h := Closing], threads := s.threads[t := Removing(h)], wins := s.wins + [h])
  }

  function UnregisterStep(s: Life, t: Tid, h: Handle): Life {
    s.(reg := Unregistered(s.reg, h.id, h), threads := s.threads[t := Finishing(h)])
  }

  function FinishStep(s: Life, t: Tid, h: Handle): Life {
    s.(states := s.states[h := Closed], threads := s.threads[t := Releasing(h)])
  }

  // Closing the closed channel a second time panics.
  function ReleaseStep(s: Life, t: Tid, h: Handle): Life {
    s.(threads := s.threads - {t}, finished := s.finished + [h], fault := h in s.finished)
  }

  function TouchReadStep(s: Life, t: Tid, id: SessionID): Life {
    if t in s.threads || s.lock.Some? || id !in s.reg.byID || !Live(s, s.reg.byID[id]) then s
    else s.(lock := Some(t), threads := s.threads[t := Renewing(s.reg.byID[id])])
  }

  function TouchWriteStep(s: Life, t: Tid, h: Handle, now: real): Life {
    s.(reg := Renewed(s.reg, h.id, now), lock := None, threads := s.threads - {t}, touched := s.touched + [h])
  }

  function Apply(s: Life, a: Step): Life {
    if s.fault then s else
    match a
    case Bind(t, id, now) => BindStep(s, t, id, now)
    case BindEnd(t, now) =>
      if t in s.threads && s.threads[t].Binding? then BindEndStep(s, t, s.threads[t], now) else s
    case Suspect(h) => if StateOf(s, h) == Some(Active) then s.(states := s.states[h := Suspected]) else s
    case BeginEvict(t, h) => EvictStep(s, t, h)
    case BeginRemove(t, h) =>
      if t in s.threads || h !in s.states then s else s.(threads := s.threads[t := Removing(h)])
    case Unregister(t) =>
      if t in s.threads && s.threads[t].Removing? && s.lock.None? then UnregisterStep(s, t, s.threads[t].h) else s
    case Finish(t) =>
      if t in s.threads && s.threads[t].Finishing? then FinishStep(s, t, s.threads[t].h) else s
    case Release(t) =>
      if t in s.threads && s.threads[t].Releasing? then ReleaseStep(s, t, s.threads[t].h) else s
    case TouchRead(t, id) => TouchReadStep(s, t, id)
    case TouchWrite(t, now) =>
      if t in s.threads && s.threads[t].Renewing? then TouchWriteStep(s, t, s.threads[t].h, now) else s
  }

  function Run(s: Life, steps: seq<Step>): Life
    decreases |steps|
  {
    if steps == [] then s else Run(Apply(s, steps[0]), steps[1..])
  }

  // ---- States only move forward.

  ghost predicate Known(s: Life) {
    && (forall h | h in s.states :: h.serial < s.serials)
    && (forall id | id in s.reg.byID :: s.reg.byID[id] in s.states)
    && (forall t | t in s.threads :: s.threads[t].h in s.states)
  }

  ghost predicate Forward(s: Life, s': Life) {
    forall h | h in s.states :: h in s'.states && s.states[h].Rank() <= s'.states[h].Rank()
  }

  lemma StepIsForward(s: Life, a: Step)
    requires Known(s)
    ensures Known(Apply(s, a)) && Forward(s, Apply(s, a))
  {
  }

  lemma {:induction false} RanksNeverDecrease(s: Life, steps: seq<Step>)
    requires Known(s)
    ensures Known(Run(s, steps)) && Forward(s, Run(s, steps))
    decreases |steps|
  {
    if steps != [] {
      StepIsForward(s, steps[0]);
      RanksNeverDecrease(Apply(s, steps[0]), steps[1..]);
    }
  }

  // ---- Renewal against closing.

  // At most one thread is in a region under the registry lock.
  ghost predicate LockOk(s: Life) {
    && (forall t | t in s.threads && s.threads[t].HoldsRegistry() :: s.lock == Some(t))
    && (s.lock.Some? ==> s.lock.value in s.threads && s.threads[s.lock.value].HoldsRegistry())
  }

  // A Touch of the session has read its state and not yet written.
  ghost predicate RenewalUnderWay(s: Life, h: Handle) {
    s.lock.Some? && s.lock.value in s.threads && s.threads[s.lock.value] == Renewing(h)
  }

  lemma StepKeepsLock(s: Life, a: Step)
    requires LockOk(s)
    ensures LockOk(Apply(s, a))
  {
  }

  // What a step adds to the renewals of a session whose closing has begun.
  lemma StepRenews(s: Life, a: Step, h: Handle)
    requires Known(s) && LockOk(s) && h in s.states && !s.states[h].Accepting()
    ensures var s' := Apply(s, a);
            && s.touched <= s'.touched
            && (RenewalUnderWay(s', h) ==> RenewalUnderWay(s, h) && h !in s'.touched[|s.touched|..])
            && multiset(s'.touched[|s.touched|..])[h] <= (if RenewalUnderWay(s, h) then 1 else 0)
  {
    var s' := Apply(s, a);
    assert s'.touched == s.touched || exists g :: s'.touched == s.touched + [g] && RenewalUnderWay(s, g);
  }

  lemma {:induction false} LateRenewals(s: Life, steps: seq<Step>, h: Handle)
    requires Known(s) && LockOk(s) && h in s.states && !s.states[h].Accepting()
    ensures var s' := Run(s, steps);
            && s.touched <= s'.touched
            && multiset(s'.touched[|s.touched|..])[h] <= (if RenewalUnderWay(s, h) then 1 else 0)
    decreases |steps|
  {
    if steps != [] {
      var s1 := Apply(s, steps[0]);
      StepIsForward(s, steps[0]);
      StepKeepsLock(s, steps[0]);
      StepRenews(s, steps[0], h);
      hide Apply, Known, LockOk;
      LateRenewals(s1, steps[1..], h);
      var s' := Run(s1, steps[1..]);
      assert s'.touched[|s.touched|..] == s1.touched[|s.touched|..] + s'.touched[|s1.touched|..];
    }
  }

  ghost predicate Orderly(s: Life) {
    Known(s) && LockOk(s)
  }

  lemma {:induction false} RunIsOrderly(s: Life, steps: seq<Step>)
    requires Orderly(s)
    ensures Orderly(Run(s, steps))
    decreases |steps|
  {
    if steps != [] {
      StepIsForward(s, steps[0]);
      StepKeepsLock(s, steps[0]);
      RunIsOrderly(Apply(s, steps[0]), steps[1..]);
    }
  }

  // A Touch whose state read comes after BeginClose never renews.
  lemma NoRenewalAfterClose(before: seq<Step>, steps: seq<Step>, h: Handle)
    requires var s := Run(NewLife(), before); h in s.states && !s.states[h].Accepting() && !RenewalUnderWay(s, h)
    ensures var s := Run(NewLife(), before);
            var s' := Run(s, steps);
            s.touched <= s'.touched && h !in s'.touched[|s.touched|..]
  {
    RunIsOrderly(NewLife(), before);
    LateRenewals(Run(NewLife(), before), steps, h);
  }

  // A session is renewed after its closing has begun iff a Touch that read its
  // state before holds the registry lock by then; and then at most once.
  lemma RenewedAfterCloseIff(before: seq<Step>, h: Handle, now: real)
    requires var s := Run(NewLife(), before); h in s.states && !s.states[h].Accepting() && !s.fault
    ensures var s := Run(NewLife(), before);
            && ((exists steps :: |s.touched| <= |Run(s, steps).touched| && h in Run(s, steps).touched[|s.touched|..])
                <==> RenewalUnderWay(s, h))
            && forall steps :: var s' := Run(s, steps);
                 s.touched <= s'.touched && multiset(s'.touched[|s.touched|..])[h] <= 1
  {
    RunIsOrderly(NewLife(), before);
    var s := Run(NewLife(), before);
    forall steps
      ensures var s' := Run(s, steps);
              && s.touched <= s'.touched
              && multiset(s'.touched[|s.touched|..])[h] <= (if RenewalUnderWay(s, h) then 1 else 0)
    {
      LateRenewals(s, steps, h);
    }
    if RenewalUnderWay(s, h) {
      var late := [TouchWrite(s.lock.value, now)];
      assert Run(s, late) == Apply(s, late[0]);
      assert Run(s, late).touched[|s.touched|..] == [h];
      assert h in Run(s, late).touched[|s.touched|..];
    }
  }

  // It does happen: the state is read, the closing begins, and the heartbeat of
  // the closing session is renewed.
  lemma CodeCanRenewAfterClose(id: SessionID)
    ensures var h := Handle(0, id);
            var s := Run(NewLife(), [Bind(0, id, 0.0), TouchRead(1, id), BeginEvict(2, h), TouchWrite(1, 1.0)]);
            && s.wins == [h] && s.touched == [h] && StateOf(s, h) == Some(Closing)
            && s.reg.lastSeen == map[id := 1.0]
  {
    var h := Handle(0, id);
    RunFour(NewLife(), Bind(0, id, 0.0), TouchRead(1, id), BeginEvict(2, h), TouchWrite(1, 1.0));
    var s1 := Apply(NewLife(), Bind(0, id, 0.0));
    assert s1.reg.byID == map[id := h] && s1.states == map[h := Active] && s1.reg.lastSeen == map[id := 0.0];
    var s2 := Apply(s1, TouchRead(1, id));
    assert s2.threads == map[1 := Renewing(h)];
    var s3 := Apply(s2, BeginEvict(2, h));
    assert s3.threads == map[1 := Renewing(h), 2 := Removing(h)];
  }

  ghost predicate WinsOk(s: Life) {
    Known(s) && NoDuplicates(s.wins) && forall h | h in s.wins :: h in s.states && !s.states[h].Accepting()
  }

  lemma StepKeepsWins(s: Life, a: Step)
    requires WinsOk(s)
    ensures WinsOk(Apply(s, a))
  {
    StepIsForward(s, a);
  }

  lemma {:induction false} RunKeepsWins(s: Life, steps: seq<Step>)
    requires WinsOk(s)
    ensures WinsOk(Run(s, steps))
    decreases |steps|
  {
    if steps != [] {
      StepKeepsWins(s, steps[0]);
      RunKeepsWins(Apply(s, steps[0]), steps[1..]);
    }
  }

  // BeginClose succeeds at most once per session, so each is evicted at most once.
  lemma EvictedAtMostOnce(steps: seq<Step>)
    ensures NoDuplicates(Run(NewLife(), steps).wins)
  {
    RunKeepsWins(NewLife(), steps);
  }

  // ---- No closed session is registered.

  ghost predicate RegisteredOpen(s: Life) {
    forall id | id in s.reg.byID ::
      var h := s.reg.byID[id]; h in s.states && h.id == id && !s.states[h].Closed?
  }

  // A session on its way out of FinishClose is not registered; one that a thread
  // holds the registry lock for is, and that thread has not found it closed.
  ghost predicate ThreadsOpen(s: Life) {
    && (forall t | t in s.threads && (s.threads[t].Finishing? || s.threads[t].Releasing?) ::
          !Holds(s.reg, s.threads[t].h.id, s.threads[t].h))
    && (forall t | t in s.threads && s.threads[t].HoldsRegistry() :: Holds(s.reg, s.threads[t].h.id, s.threads[t].h))
    && (forall t | t in s.threads && s.threads[t].Binding? :: !s.threads[t].closed)
  }

  ghost predicate OpenRegistry(s: Life) {
    Known(s) && LockOk(s) && RegisteredOpen(s) && ThreadsOpen(s)
  }

  lemma StepKeepsRegisteredOpen(s: Life, a: Step)
    requires OpenRegistry(s)
    ensures RegisteredOpen(Apply(s, a))
  {
  }

  lemma StepKeepsThreadsOpen(s: Life, a: Step)
    requires OpenRegistry(s)
    ensures ThreadsOpen(Apply(s, a))
  {
  }

  lemma StepKeepsOpen(s: Life, a: Step)
    requires OpenRegistry(s)
    ensures OpenRegistry(Apply(s, a))
  {
    hide Known, LockOk, RegisteredOpen, ThreadsOpen;
    StepIsForward(s, a);
    StepKeepsLock(s, a);
    StepKeepsRegisteredOpen(s, a);
    StepKeepsThreadsOpen(s, a);
  }

  lemma {:induction false} RunKeepsOpen(s: Life, steps: seq<Step>)
    requires OpenRegistry(s)
    ensures OpenRegistry(Run(s, steps))
    decreases |steps|
  {
    if steps != [] {
      StepKeepsOpen(s, steps[0]);
      RunKeepsOpen(Apply(s, steps[0]), steps[1..]);
    }
  }

  // In every run, removed twice or not, a registered session is not closed.  So
  // a Bind that finds its id registered has never read the state closed, and
  // ends by returning that session, which is registered still.
  lemma RegisteredIsOpen(steps: seq<Step>)
    ensures var s := Run(NewLife(), steps);
            && (forall id | id in s.reg.byID :: s.reg.byID[id] in s.states && !s.states[s.reg.byID[id]].Closed?)
            && (forall t, now | t in s.threads && s.threads[t].Binding? && !s.fault ::
                  && Holds(s.reg, s.threads[t].h.id, s.threads[t].h)
                  && Apply(s, BindEnd(t, now)) == s.(lock := None, threads := s.threads - {t}))
  {
    RunKeepsOpen(NewLife(), steps);
  }

  // ---- The registry's maps stay together.

  function IdOf(): Handle -> SessionID {
    (h: Handle) => h.id
  }

  // A Remove finds its session registered, or its id free.
  ghost predicate RemoveFindsIts(s: Life, a: Step) {
    a.Unregister? && a.t in s.threads && s.threads[a.t].Removing? && s.lock.None? ==>
      Holds(s.reg, s.threads[a.t].h.id, s.threads[a.t].h) || s.threads[a.t].h.id !in s.reg.byID
  }

  ghost predicate RemovesFindTheirs(s: Life, steps: seq<Step>)
    decreases |steps|
  {
    steps == [] || (RemoveFindsIts(s, steps[0]) && RemovesFindTheirs(Apply(s, steps[0]), steps[1..]))
  }

  lemma StepKeepsConsistent(s: Life, a: Step)
    requires OpenRegistry(s) && Consistent(s.reg, IdOf()) && RemoveFindsIts(s, a)
    ensures Consistent(Apply(s, a).reg, IdOf())
  {
    hide Consistent, LockOk, Known;
    match a
    case Bind(t, id, now) =>
      if id !in s.reg.byID {
        RegisterKeepsConsistent(s.reg, IdOf(), Handle(s.serials, id), now, 0);
      }
    case Unregister(t) =>
      if Apply(s, a) != s {
        RemoveKeepsConsistentIff(s.reg, IdOf(), s.threads[t].h);
      }
    case TouchWrite(t, now) =>
      if Apply(s, a) != s {
        RenewKeepsConsistent(s.reg, IdOf(), s.threads[t].h.id, now);
      }
    case _ =>
  }

  lemma {:induction false} RegistryStaysConsistent(s: Life, steps: seq<Step>)
    requires OpenRegistry(s) && Consistent(s.reg, IdOf()) && RemovesFindTheirs(s, steps)
    ensures Consistent(Run(s, steps).reg, IdOf())
    decreases |steps|
  {
    if steps != [] {
      StepKeepsConsistent(s, steps[0]);
      StepKeepsOpen(s, steps[0]);
      RegistryStaysConsistent(Apply(s, steps[0]), steps[1..]);
    }
  }

  // ---- Eviction alone never removes twice.

  predicate Tearing(pc: Pc) {
    !pc.HoldsRegistry()
  }

  // A session that accepts events is registered; one that is closing has one
  // thread removing it; and only a closed one had its channel closed.
  ghost predicate OneRemoverEach(s: Life) {
    && (forall h | h in s.states && s.states[h].Accepting() :: Holds(s.reg, h.id, h))
    && (forall t | t in s.threads && Tearing(s.threads[t]) ::
          s.threads[t].h in s.states && s.states[s.threads[t].h] == if s.threads[t].Releasing? then Closed else Closing)
    && (forall t | t in s.threads && s.threads[t].Removing? :: Holds(s.reg, s.threads[t].h.id, s.threads[t].h))
    && (forall t, u | t in s.threads && u in s.threads && t != u && Tearing(s.threads[t]) && Tearing(s.threads[u]) ::
          s.threads[t].h != s.threads[u].h)
    && (forall h | h in s.finished :: h in s.states && s.states[h].Closed?)
    && (forall t | t in s.threads && s.threads[t].Releasing? :: s.threads[t].h !in s.finished)
  }

  ghost predicate EvictInv(s: Life) {
    OpenRegistry(s) && OneRemoverEach(s) && !s.fault
  }

  lemma RegisterKeepsRemovers(s: Life, id: SessionID, now: real)
    requires EvictInv(s) && id !in s.reg.byID
    ensures OneRemoverEach(Register(s, id, now))
  {
    hide LockOk, ThreadsOpen, RegisteredOpen;
    var h := Handle(s.serials, id);
    assert h !in s.states;
  }

  lemma BindKeepsRemovers(s: Life, t: Tid, id: SessionID, now: real)
    requires EvictInv(s)
    ensures OneRemoverEach(BindStep(s, t, id, now))
  {
    if id !in s.reg.byID {
      RegisterKeepsRemovers(s, id, now);
    }
    hide OpenRegistry, Register;
  }

  lemma BindEndKeepsRemovers(s: Life, t: Tid, now: real)
    requires EvictInv(s) && t in s.threads && s.threads[t].Binding?
    ensures OneRemoverEach(BindEndStep(s, t, s.threads[t], now))
  {
  }

  lemma EvictKeepsRemovers(s: Life, t: Tid, h: Handle)
    requires EvictInv(s)
    ensures OneRemoverEach(EvictStep(s, t, h))
  {
    hide OpenRegistry;
  }

  lemma UnregisterKeepsRemovers(s: Life, t: Tid)
    requires EvictInv(s) && t in s.threads && s.threads[t].Removing?
    ensures OneRemoverEach(UnregisterStep(s, t, s.threads[t].h))
  {
    hide OpenRegistry;
  }

  lemma FinishKeepsRemovers(s: Life, t: Tid)
    requires EvictInv(s) && t in s.threads && s.threads[t].Finishing?
    ensures OneRemoverEach(FinishStep(s, t, s.threads[t].h))
  {
    hide OpenRegistry;
  }

  lemma ReleaseKeepsRemovers(s: Life, t: Tid)
    requires EvictInv(s) && t in s.threads && s.threads[t].Releasing?
    ensures var s' := ReleaseStep(s, t, s.threads[t].h); OneRemoverEach(s') && !s'.fault
  {
    hide OpenRegistry;
  }

  lemma TouchKeepsRemovers(s: Life, t: Tid, id: SessionID, now: real)
    requires EvictInv(s)
    ensures OneRemoverEach(TouchReadStep(s, t, id))
    ensures t in s.threads && s.threads[t].Renewing? ==> OneRemoverEach(TouchWriteStep(s, t, s.threads[t].h, now))
  {
    hide OpenRegistry;
  }

  lemma SuspectKeepsRemovers(s: Life, h: Handle)
    requires EvictInv(s)
    ensures OneRemoverEach(Apply(s, Suspect(h)))
  {
    hide OpenRegistry;
  }

  lemma RemoverFindsIts(s: Life, a: Step)
    requires EvictInv(s)
    ensures RemoveFindsIts(s, a)
  {
    hide OpenRegistry;
  }

  lemma StepKeepsEvictInv(s: Life, a: Step)
    requires EvictInv(s) && !a.BeginRemove?
    ensures EvictInv(Apply(s, a)) && RemoveFindsIts(s, a)
  {
    hide OpenRegistry, OneRemoverEach;
    StepKeepsOpen(s, a);
    RemoverFindsIts(s, a);
    match a
    case Bind(t, id, now) => BindKeepsRemovers(s, t, id, now);
    case BindEnd(t, now) => if Apply(s, a) != s { BindEndKeepsRemovers(s, t, now); }
    case BeginEvict(t, h) => EvictKeepsRemovers(s, t, h);
    case Unregister(t) => if Apply(s, a) != s { UnregisterKeepsRemovers(s, t); }
    case Finish(t) => if Apply(s, a) != s { FinishKeepsRemovers(s, t); }
    case Release(t) => if Apply(s, a) != s { ReleaseKeepsRemovers(s, t); }
    case TouchRead(t, id) => TouchKeepsRemovers(s, t, id, 0.0);
    case TouchWrite(t, now) => if Apply(s, a) != s { TouchKeepsRemovers(s, t, s.threads[t].h.id, now); }
    case Suspect(h) => SuspectKeepsRemovers(s, h);
  }

  lemma {:induction false} RunKeepsEvictInv(s: Life, steps: seq<Step>)
    requires EvictInv(s) && Consistent(s.reg, IdOf())
    requires forall i | 0 <= i < |steps| :: !steps[i].BeginRemove?
    ensures EvictInv(Run(s, steps)) && Consistent(Run(s, steps).reg, IdOf())
    decreases |steps|
  {
    if steps != [] {
      StepKeepsEvictInv(s, steps[0]);
      StepKeepsConsistent(s, steps[0]);
      RunKeepsEvictInv(Apply(s, steps[0]), steps[1..]);
    }
  }

  // With any number of evictions, and no other caller of Remove, the registry is
  // consistent after every step, and no closed channel is closed twice.
  lemma EvictionKeepsRegistry(steps: seq<Step>)
    requires forall i | 0 <= i < |steps| :: !steps[i].BeginRemove?
    ensures var s := Run(NewLife(), steps);
            && Consistent(s.reg, IdOf()) && !s.fault
            && (forall h | h in s.states && s.states[h].Accepting() :: Holds(s.reg, h.id, h) && h.id in s.reg.lastSeen)
  {
    RunKeepsEvictInv(NewLife(), steps);
  }

  // ---- Heartbeats.

  // What a step does to the heartbeat of an id: it registers or renews a session
  // of the id at a time, or it removes one.
  datatype Mark = Beat(id: SessionID, at: real) | Gone(id: SessionID)

  function Marks(s: Life, a: Step): seq<Mark> {
    var s' := Apply(s, a);
    match a
    case Bind(_, id, now) => if s'.serials > s.serials then [Beat(id, now)] else []
    case BindEnd(t, now) => if s'.serials > s.serials && t in s.threads then [Beat(s.threads[t].h.id, now)] else []
    case TouchWrite(_, now) => if |s'.touched| > |s.touched| then [Beat(s'.touched[|s.touched|].id, now)] else []
    case Unregister(t) =>
      if t in s.threads && t in s'.threads && s.threads[t].Removing? && s'.threads[t].Finishing?
      then [Gone(s.threads[t].h.id)] else []
    case _ => []
  }

  function History(s: Life, steps: seq<Step>): seq<Mark>
    decreases |steps|
  {
    if steps == [] then [] else Marks(s, steps[0]) + History(Apply(s, steps[0]), steps[1..])
  }

  // Mark i is the last one of its id.
  ghost predicate Latest(log: seq<Mark>, i: int) {
    0 <= i < |log| && forall j | i < j < |log| :: log[j].id != log[i].id
  }

  ghost predicate LatestIs(log: seq<Mark>, m: Mark) {
    exists i :: Latest(log, i) && log[i] == m
  }

  // The registry has the heartbeats that the latest marks leave, and no others.
  ghost predicate SeenAsMarked(reg: Reg<Handle>, log: seq<Mark>) {
    forall id, at :: (id in reg.lastSeen && reg.lastSeen[id] == at) <==> LatestIs(log, Beat(id, at))
  }

  lemma LatestSnoc(log: seq<Mark>, x: Mark, i: int)
    ensures Latest(log + [x], i) <==> i == |log| || (Latest(log, i) && log[i].id != x.id)
  {
    var log' := log + [x];
    assert log'[|log|] == x;
    if Latest(log, i) && log[i].id != x.id {
      assert forall j | i < j < |log'| :: log'[j].id != log'[i].id;
    }
    if Latest(log', i) && i < |log| {
      forall j | i < j < |log|
        ensures log[j].id != log[i].id
      {
        assert log'[j] == log[j];
      }
    }
  }

  lemma OneMoreMark(log: seq<Mark>, m: Mark, x: Mark)
    ensures LatestIs(log + [x], m) <==> m == x || (m.id != x.id && LatestIs(log, m))
  {
    var log' := log + [x];
    if m.id != x.id && LatestIs(log, m) {
      var i :| Latest(log, i) && log[i] == m;
      LatestSnoc(log, x, i);
      assert log'[i] == m;
    }
    if m == x {
      LatestSnoc(log, x, |log|);
    } else if LatestIs(log', m) {
      var i :| Latest(log', i) && log'[i] == m;
      LatestSnoc(log, x, i);
      assert log'[i] == log[i];
    }
  }

  function Marked(seen: map<SessionID, real>, m: Mark): map<SessionID, real> {
    match m
    case Beat(id, at) => seen[id := at]
    case Gone(id) => seen - {id}
  }

  lemma MarkedOnce(reg: Reg<Handle>, reg': Reg<Handle>, log: seq<Mark>, x: Mark)
    requires SeenAsMarked(reg, log)
    requires reg'.lastSeen == Marked(reg.lastSeen, x)
    ensures SeenAsMarked(reg', log + [x])
  {
    hide LatestIs;
    forall id, at
      ensures (id in reg'.lastSeen && reg'.lastSeen[id] == at) <==> LatestIs(log + [x], Beat(id, at))
    {
      OneMoreMark(log, Beat(id, at), x);
    }
  }

  lemma StepMarks(s: Life, a: Step)
    ensures var s', ms := Apply(s, a), Marks(s, a);
            && |ms| <= 1
            && (ms == [] ==> s'.reg.lastSeen == s.reg.lastSeen)
            && (ms != [] ==> s'.reg.lastSeen == Marked(s.reg.lastSeen, ms[0]))
  {
  }

  lemma {:induction false} RunIsMarked(s: Life, log: seq<Mark>, steps: seq<Step>)
    requires SeenAsMarked(s.reg, log)
    ensures SeenAsMarked(Run(s, steps).reg, log + History(s, steps))
    decreases |steps|
  {
    hide Apply, Marks, SeenAsMarked;
    if steps == [] {
      assert log + History(s, steps) == log;
    } else {
      var s1, ms := Apply(s, steps[0]), Marks(s, steps[0]);
      StepMarks(s, steps[0]);
      if ms == [] {
        assert log + ms == log;
        SameMarks(s.reg, s1.reg, log);
      } else {
        assert ms == [ms[0]];
        MarkedOnce(s.reg, s1.reg, log, ms[0]);
      }
      RunIsMarked(s1, log + ms, steps[1..]);
      assert log + History(s, steps) == (log + ms) + History(s1, steps[1..]);
    }
  }

  lemma SameMarks(reg: Reg<Handle>, reg': Reg<Handle>, log: seq<Mark>)
    requires SeenAsMarked(reg, log) && reg'.lastSeen == reg.lastSeen
    ensures SeenAsMarked(reg', log)
  {
  }

  // In every run, the heartbeat of an id is the time of the latest Bind that
  // registered or Touch that renewed a session of it, and there is none iff a
  // Remove of the id has come since (or nothing at all).
  lemma HeartbeatIsTheLatest(steps: seq<Step>)
    ensures var s, log := Run(NewLife(), steps), History(NewLife(), steps);
            forall id, at :: (id in s.reg.lastSeen && s.reg.lastSeen[id] == at) <==> LatestIs(log, Beat(id, at))
  {
    RunIsMarked(NewLife(), [], steps);
    assert [] + History(NewLife(), steps) == History(NewLife(), steps);
  }

  // When every Remove finds its session registered or its id free, each registered
  // id has such a heartbeat, and a sweep that ticks soon enough after it neither
  // suspects nor evicts the session but renews it.
  lemma YoungSessionIsSpared(steps: seq<Step>, id: SessionID, h: Heart.Thresholds, k: Heart.Tick)
    requires RemovesFindTheirs(NewLife(), steps)
    requires var s, log := Run(NewLife(), steps), History(NewLife(), steps);
             && id in s.reg.byID
             && forall at | LatestIs(log, Beat(id, at)) :: k.now - at <= Heart.Shorter(h)
    ensures var s := Run(NewLife(), steps);
            && id in s.reg.lastSeen && LatestIs(History(NewLife(), steps), Beat(id, s.reg.lastSeen[id]))
            && (Live(s, s.reg.byID[id]) ==>
                  var state := s.states[s.reg.byID[id]];
                  Heart.Sweep(h, Heart.Watch(state, s.reg.lastSeen[id]), k) == Heart.Watch(state, k.renewal))
  {
    RegistryStaysConsistent(NewLife(), steps);
    HeartbeatIsTheLatest(steps);
    RegisteredIsOpen(steps);
    hide Run, History, LatestIs;
  }

  // ---- A second Remove.

  lemma RunFour(s: Life, a: Step, b: Step, c: Step, d: Step)
    ensures Run(s, [a, b, c, d]) == Apply(Apply(Apply(Apply(s, a), b), c), d)
  {
    var s1 := Apply(s, a);
    var s2 := Apply(s1, b);
    var s3 := Apply(s2, c);
    assert Run(s3, [d]) == Apply(s3, d);
    assert Run(s2, [c, d]) == Run(s3, [d]);
    assert Run(s1, [b, c, d]) == Run(s2, [c, d]);
  }

  lemma EvictOnce(id: SessionID)
    ensures var h := Handle(0, id);
            Run(Run(NewLife(), [Bind(0, id, 0.0), BeginEvict(0, h), Unregister(0), Finish(0)]), [Release(0)]) ==
            Life(Empty(), None, map[h := Closed], 1, map[], [h], [], [h], false)
  {
    var h := Handle(0, id);
    RunFour(NewLife(), Bind(0, id, 0.0), BeginEvict(0, h), Unregister(0), Finish(0));
    var s1 := Apply(NewLife(), Bind(0, id, 0.0));
    assert s1.reg == Reg(map[id := h], {h}, map[id := 0.0], map[id := 0]);
    var s2 := Apply(s1, BeginEvict(0, h));
    var s3 := Apply(s2, Unregister(0));
    assert s3.reg == Empty();
    var s4 := Apply(s3, Finish(0));
    assert s4.threads == map[0 := Releasing(h)];
    assert Run(s4, [Release(0)]) == Apply(s4, Release(0));
  }

  // The connection's read loop removes its session again once eviction has
  // closed the transport.  If the client is back by then, its new session loses
  // its heartbeat, and the process panics on the closed channel.
  lemma SecondRemoveForgetsTheNewSession(id: SessionID)
    ensures var h := Handle(0, id);
            var evicted := Run(Run(NewLife(), [Bind(0, id, 0.0), BeginEvict(0, h), Unregister(0), Finish(0)]), [Release(0)]);
            var s := Run(Run(evicted, [Bind(0, id, 1.0), BeginRemove(1, h), Unregister(1), Finish(1)]), [Release(1)]);
            id in s.reg.byID && Live(s, s.reg.byID[id]) && id !in s.reg.lastSeen && s.fault
  {
    var h := Handle(0, id);
    EvictOnce(id);
    var s := Life(Empty(), None, map[h := Closed], 1, map[], [h], [], [h], false);
    RunFour(s, Bind(0, id, 1.0), BeginRemove(1, h), Unregister(1), Finish(1));
    RebindAndRemove(s, id, h);
    var s4 := Apply(Apply(Apply(Apply(s, Bind(0, id, 1.0)), BeginRemove(1, h)), Unregister(1)), Finish(1));
    assert Run(s4, [Release(1)]) == Apply(s4, Release(1));
  }

  lemma RebindAndRemove(s: Life, id: SessionID, h: Handle)
    requires s == Life(Empty(), None, map[h := Closed], 1, map[], [h], [], [h], false) && h == Handle(0, id)
    ensures var s4 := Apply(Apply(Apply(Apply(s, Bind(0, id, 1.0)), BeginRemove(1, h)), Unregister(1)), Finish(1));
            var h' := Handle(1, id);
            && s4.reg.byID == map[id := h'] && id !in s4.reg.lastSeen && Live(s4, h')
            && s4.threads == map[1 := Releasing(h)] && s4.finished == [h] && !s4.fault
  {
    var h' := Handle(1, id);
    var s1 := Apply(s, Bind(0, id, 1.0));
    assert s1.reg.byID == map[id := h'] && s1.states == map[h := Closed, h' := Active];
    var s2 := Apply(s1, BeginRemove(1, h));
    var s3 := Apply(s2, Unregister(1));
    assert s3.reg.byID == map[id := h'] && s3.threads == map[1 := Finishing(h)];
  }
}

// What a heartbeat sweep does to one session, and what sweeps alone add up to.
module HeartbeatModel {
  import opened Types
  import opened RegistryModel

  datatype Thresholds = Thresholds(timeout: real, suspect: real)

  // A session as the sweep sees it: its state and its last heartbeat.
  datatype Watch = Watch(state: ConnState, last: real)

  function Classify(h: Thresholds, age: real): ConnState {
    if age > h.timeout then Closing else if age > h.suspect then Suspected else Active
  }

  // now is the tick's time; a renewal reads the clock again and gets renewal.
  datatype Tick = Tick(now: real, renewal: real)

  function Sweep(h: Thresholds, w: Watch, k: Tick): Watch {
    if !w.state.Accepting() then w
    else match Classify(h, k.now - w.last)
      case Closing => w.(state := Closed)
      case Suspected => if w.state == Active then w.(state := Suspected) else w
      case _ => w.(last := k.renewal)
  }

  function Sweeps(h: Thresholds, w: Watch, ticks: seq<Tick>): Watch
    decreases |ticks|
  {
    if ticks == [] then w else Sweeps(h, Sweep(h, w, ticks[0]), ticks[1..])
  }

  predicate Evicts(h: Thresholds, w: Watch, k: Tick) {
    w.state.Accepting() && Sweep(h, w, k).state.Closed?
  }

  // A sweep that has come to some of the sessions: those it evicted are gone.
  // It reads the clock again at every renewal, so each session has its own tick.
  ghost function SweptOver<S>(h: Thresholds, all: map<S, Watch>, tick: S -> Tick, done: set<S>): map<S, Watch> {
    map s | s in all && !(s in done && Evicts(h, all[s], tick(s))) ::
      if s in done then Sweep(h, all[s], tick(s)) else all[s]
  }

  lemma SweptOverNothing<S>(h: Thresholds, all: map<S, Watch>, tick: S -> Tick)
    ensures SweptOver(h, all, tick, {}) == all
  {
  }

  lemma SweptOverStep<S>(h: Thresholds, all: map<S, Watch>, tick: S -> Tick, done: set<S>, s: S)
    requires s in all && s !in done
    ensures var w, was := all[s], SweptOver(h, all, tick, done);
            && s in was && was[s] == w
            && SweptOver(h, all, tick, done + {s}) ==
               if Evicts(h, w, tick(s)) then was - {s} else was[s := Sweep(h, w, tick(s))]
  {
  }

  // One sweep over all sessions, decided by their ages alone: who is lost, who
  // becomes suspected, who is renewed, and who is left as it was.
  lemma SweepDecides<S>(h: Thresholds, all: map<S, Watch>, tick: S -> Tick, s: S)
    requires s in all
    ensures var out := SweptOver(h, all, tick, all.Keys);
            var w, age := all[s], tick(s).now - all[s].last;
            && (s !in out <==> w.state.Accepting() && age > h.timeout)
            && (s in out && out[s] != w ==>
                  || (age <= h.timeout && age > h.suspect && w.state == Active && out[s] == Watch(Suspected, w.last))
                  || (age <= Shorter(h) && w.state.Accepting() && out[s] == Watch(w.state, tick(s).renewal)))
            && (w.state == Active && age <= h.timeout ==> (out[s].state == Suspected <==> age > h.suspect))
            && (w.state.Accepting() && age <= Shorter(h) ==> out[s].last == tick(s).renewal)
  {
  }

  // A session bound at some time outlives, unsuspected, every sweep that ticks
  // soon enough after it.
  lemma BoundSessionIsSpared<S>(r: Reg<S>, id: SessionID, s: S, at: real, epoch: nat, h: Thresholds,
                                all: map<S, Watch>, tick: S -> Tick)
    requires var r' := Registered(r, id, s, at, epoch);
             s in all && (id in r'.lastSeen ==> all[s] == Watch(Active, r'.lastSeen[id]))
    requires tick(s).now - at <= Shorter(h)
    ensures var out := SweptOver(h, all, tick, all.Keys);
            && id in Registered(r, id, s, at, epoch).lastSeen
            && s in out && out[s] == Watch(Active, tick(s).renewal)
  {
    SweepDecides(h, all, tick, s);
  }

  lemma SweepIsForward(h: Thresholds, w: Watch, k: Tick)
    ensures w.state.Rank() <= Sweep(h, w, k).state.Rank()
  {
  }

  lemma {:induction false} SweepsAreForward(h: Thresholds, w: Watch, ticks: seq<Tick>)
    ensures w.state.Rank() <= Sweeps(h, w, ticks).state.Rank()
    decreases |ticks|
  {
    if ticks != [] {
      SweepIsForward(h, w, ticks[0]);
      SweepsAreForward(h, Sweep(h, w, ticks[0]), ticks[1..]);
    }
  }

  // The time that passed before each tick since the renewal of the tick before.
  function Gap(last: real, ticks: seq<Tick>, i: nat): real
    requires i < |ticks|
  {
    ticks[i].now - if i == 0 then last else ticks[i - 1].renewal
  }

  function Shorter(h: Thresholds): real {
    if h.timeout < h.suspect then h.timeout else h.suspect
  }

  // Since a sweep renews every session it finds young, the age it sees is only
  // the time since the sweep before: a client that never sends anything stays
  // Active iff no two sweeps are further apart than the thresholds.
  lemma {:induction false} SilentClientStaysActiveIff(h: Thresholds, w: Watch, ticks: seq<Tick>)
    requires w.state == Active
    ensures Sweeps(h, w, ticks).state == Active <==>
            forall i | 0 <= i < |ticks| :: Gap(w.last, ticks, i) <= Shorter(h)
    decreases |ticks|
  {
    if ticks != [] {
      var w1, rest := Sweep(h, w, ticks[0]), ticks[1..];
      assert Gap(w.last, ticks, 0) == ticks[0].now - w.last;
      if Gap(w.last, ticks, 0) <= Shorter(h) {
        SilentClientStaysActiveIff(h, w1, rest);
        assert forall i | 0 <= i < |rest| :: Gap(w1.last, rest, i) == Gap(w.last, ticks, i + 1);
        assert forall i | 1 <= i < |ticks| :: Gap(w.last, ticks, i) == Gap(w1.last, rest, i - 1);
      } else {
        assert w1.state != Active;
        SweepsAreForward(h, w1, rest);
      }
    }
  }

  ghost predicate Later(ticks: seq<Tick>, from: real) {
    && (forall i | 0 <= i < |ticks| :: from <= ticks[i].now)
    && (forall i, j | 0 <= i < j < |ticks| :: ticks[i].now <= ticks[j].now)
  }

  // Once a silent client is too old to be renewed, sweeps only let it age: it is
  // closed iff the latest of them came more than the timeout after its heartbeat.
  lemma {:induction false} SuspectedClientIsClosedIff(h: Thresholds, w: Watch, ticks: seq<Tick>, since: real)
    requires w.state.Accepting() && since - w.last > h.suspect && Later(ticks, since)
    ensures var w' := Sweeps(h, w, ticks);
            && w'.last == w.last
            && (w'.state == Closed <==> ticks != [] && ticks[|ticks| - 1].now - w.last > h.timeout)
    decreases |ticks|
  {
    if ticks != [] {
      var w1, rest := Sweep(h, w, ticks[0]), ticks[1..];
      assert Classify(h, ticks[0].now - w.last) != Active;
      if w1.state.Accepting() {
        assert rest != [] ==> rest[|rest| - 1] == ticks[|ticks| - 1];
        SuspectedClientIsClosedIff(h, w1, rest, since);
      } else {
        SweepsAreForward(h, w1, rest);
        ClosedStays(h, w1, rest);
        assert ticks[0].now <= ticks[|ticks| - 1].now;
      }
    }
  }

  lemma {:induction false} ClosedStays(h: Thresholds, w: Watch, ticks: seq<Tick>)
    requires !w.state.Accepting()
    ensures Sweeps(h, w, ticks) == w
    decreases |ticks|
  {
    if ticks != [] {
      ClosedStays(h, w, ticks[1..]);
    }
  }
}
