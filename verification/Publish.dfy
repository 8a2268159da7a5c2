// Any number of concurrent Publish calls: append, dispatch, commit, advance.
// Each is one locked region of its own, so the regions of different calls
// interleave freely; what a dispatch decides is an argument of its step.
module PublishMachine {
  import opened Types
  import opened EventStore

  datatype Pc =
    | Appended(n: int)     // sequence assigned, not yet dispatched
    | Dispatched(n: int)   // dispatch succeeded, not yet committed
    | Committing(n: int)   // committed, the progress cursor not yet advanced

  // returned, failed and commits are histories: the sequences Publish returned,
  // those whose dispatch failed and those that were committed.
  datatype Broker = Broker(
    store: StoreState,
    progress: int,
    threads: map<Tid, Pc>,
    returned: seq<int>,
    failed: set<int>,
    commits: set<int>)

  datatype Action =
    | Append(t: Tid, ev: Event)
    | Dispatch(t: Tid, ok: bool)
    | Commit(t: Tid)
    | Advance(t: Tid)

  function NewBroker(capacity: int): Broker {
    Broker(NewStore(capacity), 0, map[], [], {}, {})
  }

  function AppendStep(s: Broker, t: Tid, ev: Event): Broker {
    var (store, r) := s.store.Append(ev);
    match r
    case Appended(n) => s.(store := store, threads := s.threads[t := Pc.Appended(n)])
    case RingFull => s.(store := store)
  }

  function DispatchStep(s: Broker, t: Tid, n: int, ok: bool): Broker {
    if ok then s.(threads := s.threads[t := Dispatched(n)])
    else s.(threads := s.threads - {t}, failed := s.failed + {n})
  }

  function CommitStep(s: Broker, t: Tid, n: int): Broker {
    var (store, r) := s.store.Commit(n);
    match r
    case Committed => s.(store := store, threads := s.threads[t := Committing(n)], commits := s.commits + {n})
    case InvalidSequence => s.(store := store, threads := s.threads - {t})
  }

  function AdvanceStep(s: Broker, t: Tid, n: int): Broker {
    s.(progress := if n > s.progress then n else s.progress,
    threads := s.threads - {t},
    returned := s.returned + [n])
  }

  function Apply(s: Broker, a: Action): Broker {
    match a
    case Append(t, ev) => if t in s.threads then s else AppendStep(s, t, ev)
    case Dispatch(t, ok) =>
      if t in s.threads && s.threads[t].Appended? then DispatchStep(s, t, s.threads[t].n, ok) else s
    case Commit(t) =>
      if t in s.threads && s.threads[t].Dispatched? then CommitStep(s, t, s.threads[t].n) else s
    case Advance(t) =>
      if t in s.threads && s.threads[t].Committing? then AdvanceStep(s, t, s.threads[t].n) else s
  }

  function Execute(s: Broker, actions: seq<Action>): Broker
    decreases |actions|
  {
    if actions == [] then s else Execute(Apply(s, actions[0]), actions[1..])
  }

  // Every sequence belongs to at most one call, running, failed or returned.
  ghost predicate Distinct(s: Broker) {
    && (forall t, u | t in s.threads && u in s.threads && t != u :: s.threads[t].n != s.threads[u].n)
    && (forall t | t in s.threads :: 0 < s.threads[t].n <= s.store.counter)
    && (forall t | t in s.threads :: s.threads[t].n !in s.failed && s.threads[t].n !in s.returned)
    && (forall n | n in s.failed :: n <= s.store.counter && n !in s.returned)
    && (forall n | n in s.returned :: n <= s.store.counter)
    && NoDuplicates(s.returned)
  }

  ghost predicate HeldBySome(threads: map<Tid, Pc>, n: int) {
    exists t :: t in threads && threads[t] == Committing(n)
  }

  lemma HeldBy(threads: map<Tid, Pc>, t: Tid)
    requires t in threads && threads[t].Committing?
    ensures HeldBySome(threads, threads[t].n)
  {
    assert threads[t] == Committing(threads[t].n);
  }

  // Removing or moving a call that is not committing n leaves n where it is.
  lemma StillHeld(threads: map<Tid, Pc>, threads': map<Tid, Pc>, n: int, t: Tid)
    requires HeldBySome(threads, n)
    requires t in threads ==> threads[t] != Committing(n)
    requires forall u | u in threads && u != t :: u in threads' && threads'[u] == threads[u]
    ensures HeldBySome(threads', n)
  {
    var u :| u in threads && threads[u] == Committing(n);
    assert threads'[u] == Committing(n);
  }

  // The committed position is the greatest committed sequence, the progress
  // position the greatest returned one; a commit that did not return yet is
  // held by its call.
  ghost predicate Cursors(s: Broker) {
    && (s.store.committed == 0 || s.store.committed in s.commits)
    && (forall n | n in s.commits :: n <= s.store.committed)
    && s.progress <= s.store.committed
    && (forall n | n in s.returned :: n <= s.progress && n in s.commits)
    && (forall n | n in s.commits :: n in s.returned || HeldBySome(s.threads, n))
    && (forall t | t in s.threads && s.threads[t].Committing? :: s.threads[t].n in s.commits)
    && (forall t | t in s.threads && !s.threads[t].Committing? :: s.threads[t].n !in s.commits)
    && s.commits !! s.failed
  }

  ghost predicate Good(s: Broker) {
    Inv(s.store) && Distinct(s) && Cursors(s) && s.progress >= 0
  }

  lemma AppendKeepsDistinct(s: Broker, t: Tid, ev: Event)
    requires Good(s)
    ensures var s' := Apply(s, Append(t, ev)); Inv(s'.store) && Distinct(s')
  {
    hide Cursors;
  }

  lemma AppendKeepsCursors(s: Broker, t: Tid, ev: Event)
    requires Good(s)
    ensures Cursors(Apply(s, Append(t, ev)))
  {
    hide HeldBySome;
    if t !in s.threads {
      var s' := AppendStep(s, t, ev);
      forall n | n in s.commits && n !in s'.returned
        ensures HeldBySome(s'.threads, n)
      {
        StillHeld(s.threads, s'.threads, n, t);
      }
    }
  }

  lemma DispatchKeepsDistinct(s: Broker, t: Tid, ok: bool)
    requires Good(s)
    ensures var s' := Apply(s, Dispatch(t, ok)); Inv(s'.store) && Distinct(s')
  {
    hide Cursors;
  }

  lemma DispatchKeepsCursors(s: Broker, t: Tid, ok: bool)
    requires Good(s)
    ensures Cursors(Apply(s, Dispatch(t, ok)))
  {
    hide HeldBySome;
    if t in s.threads && s.threads[t].Appended? {
      var s' := DispatchStep(s, t, s.threads[t].n, ok);
      forall n | n in s.commits && n !in s'.returned
        ensures HeldBySome(s'.threads, n)
      {
        StillHeld(s.threads, s'.threads, n, t);
      }
    }
  }

  lemma CommitKeepsDistinct(s: Broker, t: Tid)
    requires Good(s)
    ensures var s' := Apply(s, Commit(t)); Inv(s'.store) && Distinct(s')
  {
    hide Cursors;
  }

  lemma CommitKeepsCursors(s: Broker, t: Tid)
    requires Good(s)
    ensures Cursors(Apply(s, Commit(t)))
  {
    hide HeldBySome;
    if t in s.threads && s.threads[t].Dispatched? {
      var s' := CommitStep(s, t, s.threads[t].n);
      assert s.store.Commit(s.threads[t].n).1.Committed?;
      HeldBy(s'.threads, t);
      forall n | n in s.commits && n !in s'.returned
        ensures HeldBySome(s'.threads, n)
      {
        StillHeld(s.threads, s'.threads, n, t);
      }
    }
  }

  lemma AdvanceKeepsDistinct(s: Broker, t: Tid)
    requires Good(s)
    ensures var s' := Apply(s, Advance(t)); Inv(s'.store) && Distinct(s')
  {
    hide Cursors;
  }

  lemma AdvanceKeepsCursors(s: Broker, t: Tid)
    requires Good(s)
    ensures Cursors(Apply(s, Advance(t)))
  {
    hide HeldBySome;
    if t in s.threads && s.threads[t].Committing? {
      var s' := AdvanceStep(s, t, s.threads[t].n);
      forall n | n in s.commits && n !in s'.returned
        ensures HeldBySome(s'.threads, n)
      {
        StillHeld(s.threads, s'.threads, n, t);
      }
    }
  }

  lemma StepIsGood(s: Broker, a: Action)
    requires Good(s)
    ensures Good(Apply(s, a))
  {
    hide Distinct, Cursors, Inv;
    match a
    case Append(t, ev) => AppendKeepsDistinct(s, t, ev); AppendKeepsCursors(s, t, ev);
    case Dispatch(t, ok) => DispatchKeepsDistinct(s, t, ok); DispatchKeepsCursors(s, t, ok);
    case Commit(t) => CommitKeepsDistinct(s, t); CommitKeepsCursors(s, t);
    case Advance(t) => AdvanceKeepsDistinct(s, t); AdvanceKeepsCursors(s, t);
  }

  lemma {:induction false} RunIsGood(s: Broker, actions: seq<Action>)
    requires Good(s)
    ensures Good(Execute(s, actions))
    decreases |actions|
  {
    if actions != [] {
      StepIsGood(s, actions[0]);
      RunIsGood(Apply(s, actions[0]), actions[1..]);
    }
  }

  // ---- What every interleaving of any number of publishers guarantees.

  lemma PublishersAgree(capacity: int, actions: seq<Action>)
    ensures var s := Execute(NewBroker(capacity), actions);
            && NoDuplicates(s.returned)
            && s.progress <= s.store.committed <= s.store.counter
            && (forall n | n in s.commits :: n <= s.store.committed && n !in s.failed)
            && (s.store.committed == 0 || s.store.committed in s.commits)
            && (forall n | n in s.returned :: n in s.commits)
  {
    RunIsGood(NewBroker(capacity), actions);
  }

  // Once no call is between its commit and its advance, the two cursors agree.
  lemma QuietCursorsAgree(capacity: int, actions: seq<Action>)
    requires var s := Execute(NewBroker(capacity), actions);
             forall t | t in s.threads :: !s.threads[t].Committing?
    ensures var s := Execute(NewBroker(capacity), actions);
            s.progress == s.store.committed
  {
    RunIsGood(NewBroker(capacity), actions);
    var s := Execute(NewBroker(capacity), actions);
    if s.store.committed > 0 {
      assert s.store.committed in s.commits;
    }
  }

  lemma {:induction false} ExecuteSnoc(s: Broker, actions: seq<Action>, k: nat)
    requires k < |actions|
    ensures Execute(s, actions[..k + 1]) == Apply(Execute(s, actions[..k]), actions[k])
    decreases |actions|
  {
    if k == 0 {
      assert actions[..1] == [actions[0]] && actions[..0] == [];
      assert Execute(s, [actions[0]]) == Execute(Apply(s, actions[0]), []);
    } else {
      assert actions[..k + 1][1..] == actions[1..][..k] && actions[..k][1..] == actions[1..][..k - 1];
      ExecuteSnoc(Apply(s, actions[0]), actions[1..], k - 1);
    }
  }

  // No dispatch of thread t has succeeded and is on its way to the cursors.
  predicate NothingToCommit(s: Broker, t: Tid) {
    t in s.threads ==> s.threads[t].Appended?
  }

  lemma {:induction false} StaysWithoutCommit(s: Broker, actions: seq<Action>, t: Tid)
    requires NothingToCommit(s, t) && forall i | 0 <= i < |actions| :: actions[i] != Dispatch(t, true)
    ensures NothingToCommit(Execute(s, actions), t)
    decreases |actions|
  {
    if actions != [] {
      assert actions[0] != Dispatch(t, true);
      StaysWithoutCommit(Apply(s, actions[0]), actions[1..], t);
    }
  }

  // A failed publish moves nothing: in any run, among any other publishes, no
  // step of a thread whose dispatches all fail moves the committed position or
  // the progress, and none of its sequences is committed or returned.
  lemma FailureMovesNothing(s: Broker, actions: seq<Action>, t: Tid, k: nat)
    requires NothingToCommit(s, t) && forall i | 0 <= i < |actions| :: actions[i] != Dispatch(t, true)
    requires k < |actions| && actions[k].t == t
    ensures var b, a := Execute(s, actions[..k]), Execute(s, actions[..k + 1]);
            && (a.store.committed, a.progress) == (b.store.committed, b.progress)
            && (a.commits, a.returned) == (b.commits, b.returned)
  {
    StaysWithoutCommit(s, actions[..k], t);
    ExecuteSnoc(s, actions, k);
    hide Execute;
    assert actions[k] != Dispatch(t, true);
  }

  lemma PendingIsAboveCommitted(st: StoreState, ev: Event)
    requires Inv(st) && ev in st.events
    ensures ev in st.Pending() <==> ev.sequence > st.committed
  {
    hide Above;
    AboveIsSuffix(st.events, st.committed);
    var i :| 0 <= i < |st.events| && st.events[i] == ev;
    var cut := Max(0, Min(st.committed, |st.events|));
    if ev.sequence > st.committed {
      assert st.events[cut..][i - cut] == ev;
    }
  }

  // The promise that a failed broadcast stays retryable: a retained event whose
  // dispatch failed is among the pending ones exactly as long as no later
  // sequence has been committed.
  lemma RetryableUntilJumped(capacity: int, actions: seq<Action>, ev: Event)
    requires var s := Execute(NewBroker(capacity), actions);
             ev in s.store.events && ev.sequence in s.failed
    ensures var s := Execute(NewBroker(capacity), actions);
            ev in s.store.Pending() <==> forall m | m in s.commits :: m < ev.sequence
  {
    RunIsGood(NewBroker(capacity), actions);
    var s := Execute(NewBroker(capacity), actions);
    hide Execute, Distinct, Above;
    PendingIsAboveCommitted(s.store, ev);
  }

  // A later commit does jump over an earlier failure.
  lemma CommitJumpsOverFailure(a: Event, b: Event)
    ensures var s := Execute(NewBroker(4),
                             [Append(0, a), Dispatch(0, false), Append(1, b), Dispatch(1, true), Commit(1)]);
            1 in s.failed && s.store.committed == 2 && s.store.Pending() == []
  {
    var s0 := NewBroker(4);
    var s1 := Apply(s0, Append(0, a));
    var s2 := Apply(s1, Dispatch(0, false));
    var s3 := Apply(s2, Append(1, b));
    var s4 := Apply(s3, Dispatch(1, true));
    var s5 := Apply(s4, Commit(1));
    assert s5.store.events == [a.(sequence := 1), b.(sequence := 2)] && s5.store.committed == 2;
    AboveIsSuffix(s5.store.events, 2);
    assert Execute(s4, [Commit(1)]) == s5;
    assert Execute(s3, [Dispatch(1, true), Commit(1)]) == s5;
    assert Execute(s2, [Append(1, b), Dispatch(1, true), Commit(1)]) == s5;
    assert Execute(s1, [Dispatch(0, false), Append(1, b), Dispatch(1, true), Commit(1)]) == s5;
  }
}
