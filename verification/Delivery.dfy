// Deliver against Confirm.  Deliver holds the session lock throughout, but the
// tracker has its own lock and Confirm takes only that one, so a confirmation
// can fall between any two of Deliver's tracker calls.
module DeliveryMachine {
  import opened Types
  import opened Ack
  import S = SessionModel
  import Flow

  // Where the one delivery that holds the session lock has got to.
  datatype Pc =
    | First(n: int)      // about to make the first of the two tracker checks
    | Second(n: int)     // the first check let it through
    | Admitted(n: int)   // both checks let it through
    | Queued(n: int)     // the writer accepted it, not yet recorded

  // What Deliver does with an event both checks let through.
  datatype Fate = Refused | Buffered | Accepted

  // enqueued is a history: what Deliver put on the queue in this epoch.
  // raced is one too: the sequences confirmed between the checks of their delivery.
  datatype Session = Session(
    pendingFirst: bool,
    tracker: AckState,
    holder: Option<Pc>,
    enqueued: seq<int>,
    raced: set<int>)

  datatype Action =
    | Begin(n: int)
    | CheckFirst
    | CheckSecond
    | Admit(fate: Fate)
    | RecordDelivery
    | Confirmation(n: int)
    | Reconnect

  // pendingFirst selects the repair that asks Pending before Covered; the code
  // asks Covered first.
  function NewSession(pendingFirst: bool, owner: SessionID): Session {
    Session(pendingFirst, Fresh(owner), None, [], {})
  }

  predicate FirstStops(s: Session, n: int) {
    if s.pendingFirst then s.tracker.IsPending(n) else s.tracker.Covered(n)
  }

  predicate SecondStops(s: Session, n: int) {
    if s.pendingFirst then s.tracker.Covered(n) else s.tracker.IsPending(n)
  }

  function Apply(s: Session, a: Action): Session {
    match a
    case Begin(n) => if s.holder.None? then s.(holder := Some(First(n))) else s
    case CheckFirst =>
      if s.holder.Some? && s.holder.value.First?
      then s.(holder := if FirstStops(s, s.holder.value.n) then None else Some(Second(s.holder.value.n))) else s
    case CheckSecond =>
      if s.holder.Some? && s.holder.value.Second?
      then s.(holder := if SecondStops(s, s.holder.value.n) then None else Some(Admitted(s.holder.value.n))) else s
    case Admit(fate) =>
      if s.holder.Some? && s.holder.value.Admitted?
      then if fate == Accepted then s.(holder := Some(Queued(s.holder.value.n)), enqueued := s.enqueued + [s.holder.value.n])
           else s.(holder := None)
      else s
    case RecordDelivery =>
      if s.holder.Some? && s.holder.value.Queued?
      then s.(holder := None, tracker := s.tracker.Record(s.holder.value.n, true)) else s
    case Confirmation(n) =>
      s.(tracker := s.tracker.Confirm(n),
         raced := if s.holder == Some(Second(n)) then s.raced + {n} else s.raced)
    case Reconnect =>
      if s.holder.None? then s.(tracker := s.tracker.Reset(), enqueued := [], raced := {}) else s
  }

  function Run(s: Session, actions: seq<Action>): Session
    decreases |actions|
  {
    if actions == [] then s else Run(Apply(s, actions[0]), actions[1..])
  }

  // Everything enqueued in this epoch is pending, confirmed or about to be recorded.
  ghost predicate Accounted(s: Session) {
    forall n | n in s.enqueued :: s.tracker.IsPending(n) || s.tracker.Covered(n) || s.holder == Some(Queued(n))
  }

  // Nothing was enqueued twice, and nothing enqueued is about to be again,
  // except what a confirmation raced with.
  ghost predicate OnceUnlessRaced(s: Session) {
    && (forall i, j | 0 <= i < j < |s.enqueued| && s.enqueued[i] == s.enqueued[j] :: s.enqueued[i] in s.raced)
    && (s.holder.Some? && s.holder.value.Second? && s.holder.value.n in s.enqueued && s.holder.value.n !in s.raced ==>
          if s.pendingFirst then s.tracker.Covered(s.holder.value.n) else s.tracker.IsPending(s.holder.value.n))
    && (s.holder.Some? && s.holder.value.Admitted? && s.holder.value.n in s.enqueued ==> s.holder.value.n in s.raced)
  }

  lemma StepKeepsAccounts(s: Session, a: Action)
    requires Accounted(s) && OnceUnlessRaced(s)
    ensures Accounted(Apply(s, a)) && OnceUnlessRaced(Apply(s, a))
  {
  }

  lemma {:induction false} RunKeepsAccounts(s: Session, actions: seq<Action>)
    requires Accounted(s) && OnceUnlessRaced(s)
    ensures Accounted(Run(s, actions)) && OnceUnlessRaced(Run(s, actions))
    decreases |actions|
  {
    if actions != [] {
      StepKeepsAccounts(s, actions[0]);
      RunKeepsAccounts(Apply(s, actions[0]), actions[1..]);
    }
  }

  // In every run, whatever the order of the two checks: every sequence Deliver
  // enqueued in the present epoch is pending, at or below the confirmed
  // position, or held by the delivery that is about to record it.
  lemma EnqueuedIsAccounted(pendingFirst: bool, owner: SessionID, actions: seq<Action>)
    ensures Accounted(Run(NewSession(pendingFirst, owner), actions))
  {
    RunKeepsAccounts(NewSession(pendingFirst, owner), actions);
  }

  // The code delivers a sequence at most once per epoch unless a confirmation
  // of that very sequence fell between its two checks.
  lemma AtMostOnceUnlessRaced(owner: SessionID, actions: seq<Action>, i: nat, j: nat)
    requires var s := Run(NewSession(false, owner), actions);
             i < j < |s.enqueued| && s.enqueued[i] == s.enqueued[j]
    ensures var s := Run(NewSession(false, owner), actions);
            s.enqueued[i] in s.raced
  {
    RunKeepsAccounts(NewSession(false, owner), actions);
  }

  // Asking Pending before Covered closes the gap: at most once in every run.
  ghost predicate Repaired(s: Session) {
    && s.pendingFirst
    && Accounted(s)
    && NoDuplicates(s.enqueued)
    && (s.holder.Some? && s.holder.value.Second? && s.holder.value.n in s.enqueued ==> s.tracker.Covered(s.holder.value.n))
    && (s.holder.Some? && s.holder.value.Admitted? ==> s.holder.value.n !in s.enqueued)
  }

  lemma StepKeepsRepaired(s: Session, a: Action)
    requires Repaired(s)
    ensures Repaired(Apply(s, a))
  {
  }

  lemma {:induction false} RunKeepsRepaired(s: Session, actions: seq<Action>)
    requires Repaired(s)
    ensures Repaired(Run(s, actions))
    decreases |actions|
  {
    if actions != [] {
      StepKeepsRepaired(s, actions[0]);
      RunKeepsRepaired(Apply(s, actions[0]), actions[1..]);
    }
  }

  lemma PendingFirstIsAtMostOnce(owner: SessionID, actions: seq<Action>)
    ensures NoDuplicates(Run(NewSession(true, owner), actions).enqueued)
  {
    RunKeepsRepaired(NewSession(true, owner), actions);
  }

  // ---- Exactly when a repeated delivery gets through.

  function ConfirmAll(s: Session, confirms: seq<int>): Session
    decreases |confirms|
  {
    if confirms == [] then s else ConfirmAll(Apply(s, Confirmation(confirms[0])), confirms[1..])
  }

  lemma {:induction false} ConfirmAllPending(s: Session, confirms: seq<int>, n: int)
    ensures var s' := ConfirmAll(s, confirms);
            && s'.holder == s.holder && s'.pendingFirst == s.pendingFirst
            && (s'.tracker.IsPending(n) <==> s.tracker.IsPending(n) && n !in confirms)
    decreases |confirms|
  {
    if confirms != [] {
      ConfirmAllPending(Apply(s, Confirmation(confirms[0])), confirms[1..], n);
    }
  }

  // A repeated delivery of an enqueued sequence that is not confirmed yet meets
  // the first check, then any confirmations, then the second check: the code
  // lets it through exactly if one of them confirms that sequence.
  lemma RepeatPassesIffConfirmedBetween(owner: SessionID, actions: seq<Action>, n: int, confirms: seq<int>)
    requires var s := Run(NewSession(false, owner), actions);
             s.holder == None && n in s.enqueued && !s.tracker.Covered(n)
    ensures var s := Run(NewSession(false, owner), actions);
            var between := ConfirmAll(Apply(Apply(s, Begin(n)), CheckFirst), confirms);
            Apply(between, CheckSecond).holder == Some(Admitted(n)) <==> n in confirms
  {
    RunKeepsAccounts(NewSession(false, owner), actions);
    KeepsOrder(NewSession(false, owner), actions);
    var s := Run(NewSession(false, owner), actions);
    var s2 := Apply(Apply(s, Begin(n)), CheckFirst);
    assert s2.holder == Some(Second(n)) && s2.tracker.IsPending(n);
    ConfirmAllPending(s2, confirms, n);
  }

  // ---- The machine's delivery is the session's.

  // What becomes of an event that passed both checks.
  function FateOf(x: S.SessionState, c: S.Chance): Fate {
    if !Flow.Allows(x.limits, x.id, c.now) then Refused
    else if x.replaying then Buffered
    else if x.writerClosed || !c.room then Refused
    else Accepted
  }

  // One delivery from its first check to its record, with the confirmations mid
  // between its checks and late before its record.
  function OneDelivery(s: Session, n: int, mid: seq<int>, fate: Fate, late: seq<int>): Session {
    var checked := Apply(ConfirmAll(Apply(Apply(s, Begin(n)), CheckFirst), mid), CheckSecond);
    Apply(ConfirmAll(Apply(checked, Admit(fate)), late), RecordDelivery)
  }

  lemma {:induction false} ConfirmAllTracks(s: Session, x: S.SessionState, ns: seq<int>)
    requires s.tracker == x.tracker
    ensures var s' := ConfirmAll(s, ns);
            && s'.tracker == S.Confirmed(x, ns).tracker
            && (s'.holder, s'.enqueued, s'.pendingFirst) == (s.holder, s.enqueued, s.pendingFirst)
    decreases |ns|
  {
    if ns != [] {
      ConfirmAllTracks(Apply(s, Confirmation(ns[0])), S.Confirm(x, ns[0]), ns[1..]);
    }
  }

  // The machine and the session agree on the tracker and on what is enqueued,
  // wherever the confirmations fall.
  lemma OneDeliveryIsDeliverAmid(s: Session, x: S.SessionState, ev: Event, c: S.Chance, mid: seq<int>, late: seq<int>)
    requires s.holder == None && !s.pendingFirst && s.tracker == x.tracker
    requires x.state.Accepting() && x.tracker.owner == x.id && x.tracker.epoch == x.epoch
    ensures var s' := OneDelivery(s, ev.sequence, mid, FateOf(x, c), late);
            var (x', r) := S.DeliverAmid(x, ev, c, mid, late);
            && s'.holder == None && s'.tracker == x'.tracker
            && x'.accepted == x.accepted + (if s'.enqueued == s.enqueued then [] else [ev])
            && (s'.enqueued == s.enqueued || s'.enqueued == s.enqueued + [ev.sequence])
  {
    hide Flow.Allows, Flow.Spend;
    var n := ev.sequence;
    var s1 := Apply(Apply(s, Begin(n)), CheckFirst);
    ConfirmAllTracks(s1, x, mid);
    var x1 := S.Confirmed(x, mid);
    var s2 := Apply(Apply(ConfirmAll(s1, mid), CheckSecond), Admit(FateOf(x, c)));
    ConfirmAllTracks(s2, x1, late);
    S.ConfirmedChanges(x, mid);
    S.ConfirmedChanges(x1, late);
  }

  lemma {:induction false} KeepsOrder(s: Session, actions: seq<Action>)
    ensures Run(s, actions).pendingFirst == s.pendingFirst
    decreases |actions|
  {
    if actions != [] {
      KeepsOrder(Apply(s, actions[0]), actions[1..]);
    }
  }

  lemma {:induction false} RunAppend(s: Session, a: seq<Action>, b: seq<Action>)
    ensures Run(s, a + b) == Run(Run(s, a), b)
    decreases |a|
  {
    if a == [] {
      assert a + b == b;
    } else {
      assert (a + b)[0] == a[0] && (a + b)[1..] == a[1..] + b;
      RunAppend(Apply(s, a[0]), a[1..], b);
    }
  }

  lemma FirstDelivery(owner: SessionID)
    ensures var s := Run(NewSession(false, owner), [Begin(1), CheckFirst, CheckSecond, Admit(Accepted), RecordDelivery]);
            s == Session(false, AckState(owner, 0, {1}, 0), None, [1], {})
  {
    var s0 := NewSession(false, owner);
    var s1 := Apply(s0, Begin(1));
    var s2 := Apply(s1, CheckFirst);
    var s3 := Apply(s2, CheckSecond);
    var s4 := Apply(s3, Admit(Accepted));
    var s5 := Apply(s4, RecordDelivery);
    assert Run(s4, [RecordDelivery]) == s5;
    assert Run(s3, [Admit(Accepted), RecordDelivery]) == s5;
    assert Run(s2, [CheckSecond, Admit(Accepted), RecordDelivery]) == s5;
    assert Run(s1, [CheckFirst, CheckSecond, Admit(Accepted), RecordDelivery]) == s5;
  }

  // The race exists: sequence 1 is queued twice in one epoch.
  lemma CodeCanDeliverTwice(owner: SessionID)
    ensures exists actions :: Run(NewSession(false, owner), actions).enqueued == [1, 1]
  {
    var first := [Begin(1), CheckFirst, CheckSecond, Admit(Accepted), RecordDelivery];
    var again := [Begin(1), CheckFirst, Confirmation(1), CheckSecond, Admit(Accepted)];
    FirstDelivery(owner);
    var s0 := Session(false, AckState(owner, 0, {1}, 0), None, [1], {});
    var s1 := Apply(s0, Begin(1));
    var s2 := Apply(s1, CheckFirst);
    var s3 := Apply(s2, Confirmation(1));
    var s4 := Apply(s3, CheckSecond);
    var s5 := Apply(s4, Admit(Accepted));
    assert s5.enqueued == [1, 1];
    assert Run(s4, [Admit(Accepted)]) == s5;
    assert Run(s3, [CheckSecond, Admit(Accepted)]) == s5;
    assert Run(s2, [Confirmation(1), CheckSecond, Admit(Accepted)]) == s5;
    assert Run(s1, [CheckFirst, Confirmation(1), CheckSecond, Admit(Accepted)]) == s5;
    RunAppend(NewSession(false, owner), first, again);
    assert Run(NewSession(false, owner), first + again).enqueued == [1, 1];
  }
}
