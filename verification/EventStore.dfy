// The bounded event store: a circular buffer, the sequence counter and the
// commit cursor.
module EventStore {
  import opened Types

  // The buffer position of the i-th retained event.
  function Slot(head: nat, i: nat, cap: nat): (k: nat)
    requires cap > 0
    ensures k < cap
  {
    (head + i) % cap
  }

  lemma MulMonotone(a: int, b: int, c: nat)
    ensures a <= b ==> a * c <= b * c
  {
  }

  lemma WrapsOnce(x: nat, cap: nat)
    requires cap <= x < cap + cap
    ensures x % cap == x - cap
  {
    var q := x / cap;
    MulMonotone(q, 0, cap);
    MulMonotone(2, q, cap);
    assert x == q * cap + x % cap;
    assert q == 1;
  }

  lemma SlotIs(head: nat, i: nat, cap: nat)
    requires head < cap && i < cap
    ensures Slot(head, i, cap) == if head + i < cap then head + i else head + i - cap
  {
    if head + i >= cap {
      WrapsOnce(head + i, cap);
    }
  }

  lemma SlotsDiffer(head: nat, cap: nat, j: nat)
    requires head < cap && j < cap
    ensures forall i: nat | i < j :: Slot(head, i, cap) != Slot(head, j, cap)
  {
    hide Slot;
    SlotIs(head, j, cap);
    forall i: nat | i < j
      ensures Slot(head, i, cap) != Slot(head, j, cap)
    {
      SlotIs(head, i, cap);
    }
  }

  class Ring {
    const cap: nat
    const buf: array<Event>
    const head: nat
    var count: nat

    ghost predicate Valid()
      reads this, buf
    {
      cap >= 1 && buf.Length == cap && head < cap && count <= cap
    }

    // The retained events in insertion order.
    ghost function Contents(): (s: seq<Event>)
      requires Valid()
      reads this, buf
      ensures |s| == count
    {
      seq(count, i requires 0 <= i < count && Valid() reads this, buf => buf[Slot(head, i, cap)])
    }

    constructor (capacity: int)
      ensures Valid() && fresh(buf) && Contents() == []
      ensures cap == if capacity < 1 then 1 else capacity
    {
      var n: nat := if capacity < 1 then 1 else capacity;
      cap, head, count := n, 0, 0;
      buf := new Event[n](_ => Event(0, "", ""));
    }

    method Push(ev: Event) returns (ok: bool)
      requires Valid()
      modifies this`count, buf
      ensures Valid()
      ensures ok == (|old(Contents())| < cap)
      ensures Contents() == if ok then old(Contents()) + [ev] else old(Contents())
    {
      hide Slot;
      if count == cap {
        return false;
      }
      ghost var was := Contents();
      SlotsDiffer(head, cap, count);
      buf[Slot(head, count, cap)] := ev;
      count := count + 1;
      assert Contents()[..count - 1] == was;
      return true;
    }

    // The event with exactly this sequence, if it is retained.
    method Get(n: int) returns (r: Option<Event>)
      requires Valid()
      ensures r == Find(Contents(), n)
    {
      var i := 0;
      while i < count
        invariant i <= count
        invariant Find(Contents(), n) == Find(Contents()[i..], n)
      {
        var ev := buf[Slot(head, i, cap)];
        assert Contents()[i..][0] == ev;
        if ev.sequence == n {
          return Some(ev);
        }
        assert Contents()[i..][1..] == Contents()[i + 1..];
        i := i + 1;
      }
      return None;
    }
  }

  // The first event with the sequence.
  function Find(events: seq<Event>, n: int): Option<Event> {
    if events == [] then None
    else if events[0].sequence == n then Some(events[0])
    else Find(events[1..], n)
  }

  // ---- The store as a value.

  datatype AppendResult = Appended(n: int) | RingFull
  datatype CommitResult = Committed | InvalidSequence

  datatype StoreState = StoreState(cap: nat, events: seq<Event>, counter: int, committed: int) {
    function Append(ev: Event): (StoreState, AppendResult) {
      var s := this.(counter := counter + 1);
      if |events| < cap then (s.(events := events + [ev.(sequence := counter + 1)]), Appended(counter + 1))
      else (s, RingFull)
    }

    function Commit(n: int): (StoreState, CommitResult) {
      if n > counter then (this, InvalidSequence)
      else (this.(committed := if n > committed then n else committed), Committed)
    }

    // The committed events above the position, in order.
    function Since(after: int): seq<Event> {
      Between(events, after, committed)
    }

    function Pending(): seq<Event> {
      Above(events, committed)
    }
  }

  // The events of the sequences low + 1 to high that are retained, looked up one by one.
  function Between(events: seq<Event>, low: int, high: int): seq<Event>
    decreases high - low
  {
    if high <= low then []
    else
      var rest := Between(events, low, high - 1);
      match Find(events, high)
      case Some(ev) => rest + [ev]
      case None => rest
  }

  function Above(events: seq<Event>, low: int): seq<Event> {
    if events == [] then []
    else
      var rest := Above(events[..|events| - 1], low);
      var last := events[|events| - 1];
      if last.sequence > low then rest + [last] else rest
  }

  function NewStore(capacity: int): StoreState {
    StoreState(if capacity < 1 then 1 else capacity, [], 0, 0)
  }

  class Store {
    const ring: Ring
    var counter: int
    var committed: int

    ghost predicate Valid()
      reads this, ring, ring.buf
    {
      ring.Valid()
    }

    ghost function State(): StoreState
      requires Valid()
      reads this, ring, ring.buf
    {
      StoreState(ring.cap, ring.Contents(), counter, committed)
    }

    constructor (capacity: int)
      ensures Valid() && fresh(ring) && fresh(ring.buf) && State() == NewStore(capacity)
    {
      ring := new Ring(capacity);
      counter, committed := 0, 0;
    }

    method Append(ev: Event) returns (r: AppendResult)
      requires Valid()
      modifies this, ring, ring.buf
      ensures Valid()
      ensures (State(), r) == old(State()).Append(ev)
    {
      counter := counter + 1;
      var stored := ev.(sequence := counter);
      var ok := ring.Push(stored);
      if !ok {
        return RingFull;
      }
      return Appended(counter);
    }

    method Commit(n: int) returns (r: CommitResult)
      requires Valid()
      modifies this
      ensures Valid()
      ensures (State(), r) == old(State()).Commit(n)
    {
      if n > counter {
        return InvalidSequence;
      }
      if n > committed {
        committed := n;
      }
      return Committed;
    }

    method Since(after: int) returns (out: seq<Event>)
      requires Valid()
      ensures out == State().Since(after)
    {
      out := [];
      var n := after + 1;
      while n <= committed
        invariant n <= committed + 1 || n == after + 1
        invariant n >= after + 1
        invariant out == Between(ring.Contents(), after, n - 1)
      {
        var r := ring.Get(n);
        if r.Some? {
          out := out + [r.value];
        }
        n := n + 1;
      }
    }

    method Pending() returns (out: seq<Event>)
      requires Valid()
      ensures out == State().Pending()
    {
      out := [];
      var i := 0;
      while i < ring.count
        invariant i <= ring.count
        invariant out == Above(ring.Contents()[..i], committed)
      {
        var ev := ring.buf[Slot(ring.head, i, ring.cap)];
        assert ring.Contents()[..i + 1][..i] == ring.Contents()[..i];
        if ev.sequence > committed {
          out := out + [ev];
        }
        i := i + 1;
      }
      assert ring.Contents()[..ring.count] == ring.Contents();
    }
  }

  // A consumer's read position, which never moves back.
  class Cursor {
    var pos: int

    constructor ()
      ensures pos == 0
    {
      pos := 0;
    }

    method Advance(n: int)
      modifies this
      ensures pos == if n > old(pos) then n else old(pos)
    {
      if n > pos {
        pos := n;
      }
    }
  }

  // ---- What holds after every run of calls.

  datatype Call = AppendCall(ev: Event) | CommitCall(n: int)

  function Step(s: StoreState, c: Call): StoreState {
    match c
    case AppendCall(ev) => s.Append(ev).0
    case CommitCall(n) => s.Commit(n).0
  }

  function Run(s: StoreState, calls: seq<Call>): StoreState
    decreases |calls|
  {
    if calls == [] then s else Run(Step(s, calls[0]), calls[1..])
  }

  // The retained events are the sequences 1, 2, 3, ... in order; the counter is
  // their number until the buffer is full and never smaller; the committed
  // position never passes the counter.
  ghost predicate Inv(s: StoreState) {
    && 1 <= s.cap
    && |s.events| <= s.cap
    && (forall i | 0 <= i < |s.events| :: s.events[i].sequence == i + 1)
    && s.counter >= |s.events|
    && (|s.events| < s.cap ==> s.counter == |s.events|)
    && 0 <= s.committed <= s.counter
  }

  lemma {:induction false} RunKeepsInv(s: StoreState, calls: seq<Call>)
    requires Inv(s)
    ensures Inv(Run(s, calls))
    decreases |calls|
  {
    if calls != [] {
      RunKeepsInv(Step(s, calls[0]), calls[1..]);
    }
  }

  function Min(a: int, b: int): int {
    if a < b then a else b
  }

  function Max(a: int, b: int): int {
    if a < b then b else a
  }

  lemma {:induction false} FindInOrder(events: seq<Event>, first: int, n: int)
    requires forall i | 0 <= i < |events| :: events[i].sequence == first + i
    ensures Find(events, n) == if first <= n < first + |events| then Some(events[n - first]) else None
  {
    if events != [] {
      FindInOrder(events[1..], first + 1, n);
    }
  }

  // Where a position in the sequence numbering falls in the buffer.
  function Cut(s: StoreState, n: int): (k: nat)
    ensures k <= |s.events|
  {
    Max(0, Min(n, |s.events|))
  }

  lemma SliceGrows(events: seq<Event>, low: nat, high: nat)
    requires low <= high < |events|
    ensures events[low..high] + [events[high]] == events[low..high + 1]
  {
  }

  // The lookup loop of Since returns a contiguous slice of the buffer.
  lemma {:induction false} BetweenIsSlice(s: StoreState, low: int, high: int)
    requires Inv(s)
    ensures Between(s.events, low, high) == if low < high then s.events[Cut(s, low)..Cut(s, high)] else []
    decreases high - low
  {
    if low < high {
      BetweenIsSlice(s, low, high - 1);
      FindInOrder(s.events, 1, high);
      if 1 <= high <= |s.events| {
        SliceGrows(s.events, Cut(s, low), high - 1);
      }
    }
  }

  lemma {:induction false} AboveNothing(events: seq<Event>, low: int)
    requires forall i | 0 <= i < |events| :: events[i].sequence <= low
    ensures Above(events, low) == []
  {
    if events != [] {
      AboveNothing(events[..|events| - 1], low);
    }
  }

  lemma SuffixOfInit(events: seq<Event>, k: nat)
    requires k < |events|
    ensures events[..|events| - 1][k..] + [events[|events| - 1]] == events[k..]
  {
  }

  lemma {:induction false} AboveIsSuffix(events: seq<Event>, low: int)
    requires forall i | 0 <= i < |events| :: events[i].sequence == i + 1
    ensures Above(events, low) == events[Max(0, Min(low, |events|))..]
  {
    if |events| <= low {
      AboveNothing(events, low);
    } else if events != [] {
      var init, last := events[..|events| - 1], events[|events| - 1];
      AboveIsSuffix(init, low);
      SuffixOfInit(events, Max(0, low));
      assert last.sequence > low;
    }
  }

  // Since and Pending split what is retained at the committed position: the
  // two together are the whole buffer in order, so nothing is lost or in both.
  lemma SinceAndPendingPartition(capacity: int, calls: seq<Call>)
    ensures var s := Run(NewStore(capacity), calls);
            Inv(s) && s.Since(0) + s.Pending() == s.events
  {
    RunKeepsInv(NewStore(capacity), calls);
    var s := Run(NewStore(capacity), calls);
    BetweenIsSlice(s, 0, s.committed);
    AboveIsSuffix(s.events, s.committed);
  }

  lemma SliceMembers(events: seq<Event>, low: nat, high: nat)
    requires low <= high <= |events|
    requires forall i | 0 <= i < |events| :: events[i].sequence == i + 1
    ensures forall ev :: ev in events[low..high] <==> ev in events && low < ev.sequence <= high
    ensures forall i, j | 0 <= i < j < high - low :: events[low..high][i].sequence < events[low..high][j].sequence
  {
    forall ev | ev in events && low < ev.sequence <= high
      ensures ev in events[low..high]
    {
      var i :| 0 <= i < |events| && events[i] == ev;
      assert events[low..high][i - low] == ev;
    }
  }

  // Since returns exactly the retained committed events above the position,
  // ascending and each once.
  lemma SinceIsExact(s: StoreState, after: int)
    requires Inv(s)
    ensures var out := s.Since(after);
            && (forall i, j | 0 <= i < j < |out| :: out[i].sequence < out[j].sequence)
            && (forall ev :: ev in out <==> ev in s.events && after < ev.sequence <= s.committed)
  {
    BetweenIsSlice(s, after, s.committed);
    hide Between;
    var out := s.Since(after);
    if after < s.committed {
      var low, high := Cut(s, after), Cut(s, s.committed);
      SliceMembers(s.events, low, high);
      assert out == s.events[low..high];
    }
  }

  // An event once retained stays retained, unchanged and in place.
  lemma {:induction false} RetainedForever(s: StoreState, calls: seq<Call>)
    ensures s.events <= Run(s, calls).events && Run(s, calls).cap == s.cap
    decreases |calls|
  {
    if calls != [] {
      RetainedForever(Step(s, calls[0]), calls[1..]);
    }
  }

  // ---- What is retained is what was appended.

  lemma AppendKeepsTheEvent(s: StoreState, ev: Event)
    ensures var (s', r) := s.Append(ev);
            && s'.counter == s.counter + 1
            && (r == Appended(s.counter + 1) <==> |s.events| < s.cap)
            && (r == RingFull <==> |s'.events| == |s.events|)
            && s'.events[..|s.events|] == s.events
            && (r.Appended? ==> s'.events[|s.events|..] == [Event(r.n, ev.topic, ev.payload)])
  {
  }

  // The arguments of the Append calls of a run, in order.
  function Appends(calls: seq<Call>): seq<Event>
    decreases |calls|
  {
    if calls == [] then [] else (if calls[0].AppendCall? then [calls[0].ev] else []) + Appends(calls[1..])
  }

  // What a run of appends of evs makes of a store.
  ghost predicate Kept(s: StoreState, s': StoreState, evs: seq<Event>) {
    var n := |s.events|;
    && s'.cap == s.cap
    && s'.counter == s.counter + |evs|
    && |s'.events| == (if n + |evs| < s.cap then n + |evs| else s.cap)
    && n <= |s'.events| && s'.events[..n] == s.events
    && forall i | n <= i < |s'.events| :: s'.events[i] == Event(i + 1, evs[i - n].topic, evs[i - n].payload)
  }

  lemma StepKeeps(s: StoreState, c: Call)
    requires Inv(s)
    ensures Inv(Step(s, c)) && Kept(s, Step(s, c), if c.AppendCall? then [c.ev] else [])
  {
    RunKeepsInv(s, [c]);
    assert Run(s, [c]) == Step(s, c);
    if c.AppendCall? {
      AppendKeepsTheEvent(s, c.ev);
    }
  }

  lemma KeptCompose(s: StoreState, s1: StoreState, s2: StoreState, first: seq<Event>, rest: seq<Event>)
    requires |first| <= 1 && |s.events| <= s.cap && Kept(s, s1, first) && Kept(s1, s2, rest)
    ensures Kept(s, s2, first + rest)
  {
    assert s2.events[..|s1.events|][..|s.events|] == s2.events[..|s.events|];
    assert forall i | |s.events| <= i < |s1.events| :: s2.events[i] == s2.events[..|s1.events|][i];
  }

  lemma {:induction false} AppendsAreKept(s: StoreState, calls: seq<Call>)
    requires Inv(s)
    ensures Kept(s, Run(s, calls), Appends(calls))
    decreases |calls|
  {
    hide Step, Kept;
    if calls == [] {
      assert Kept(s, s, []) by {
        NothingKept(s);
      }
    } else {
      var c := calls[0];
      var s1 := Step(s, c);
      StepKeeps(s, c);
      AppendsAreKept(s1, calls[1..]);
      KeptCompose(s, s1, Run(s, calls), if c.AppendCall? then [c.ev] else [], Appends(calls[1..]));
    }
  }

  lemma NothingKept(s: StoreState)
    requires Inv(s)
    ensures Kept(s, s, [])
  {
  }

  // In every run the ring holds the first appended events, as many as fit: the
  // i-th has the topic and the payload of the i-th Append and i as its sequence.
  // Every Append uses up one sequence, kept or not.
  lemma RetainedIsWhatWasAppended(capacity: int, calls: seq<Call>)
    ensures var s := Run(NewStore(capacity), calls);
            var evs := Appends(calls);
            && s.counter == |evs|
            && |s.events| == Min(Max(1, capacity), |evs|)
            && forall i | 0 <= i < |s.events| :: s.events[i] == Event(i + 1, evs[i].topic, evs[i].payload)
  {
    AppendsAreKept(NewStore(capacity), calls);
  }

  lemma SinceCounts(s: StoreState, after: nat)
    requires Inv(s)
    ensures var out := s.Since(after);
            && |out| == Max(0, Min(s.committed, |s.events|) - after)
            && forall k | 0 <= k < |out| :: out[k] == s.events[after + k]
  {
    BetweenIsSlice(s, after, s.committed);
    hide Between;
  }

  // So Since answers with the events as they were appended.
  lemma SinceReturnsWhatWasAppended(capacity: int, calls: seq<Call>, after: nat)
    ensures var s := Run(NewStore(capacity), calls);
            var evs, out := Appends(calls), s.Since(after);
            && |out| == Max(0, Min(s.committed, Min(Max(1, capacity), |evs|)) - after)
            && forall k | 0 <= k < |out| :: out[k] == Event(after + k + 1, evs[after + k].topic, evs[after + k].payload)
  {
    hide Run, Appends, Inv, StoreState.Since;
    var s := Run(NewStore(capacity), calls);
    assert Inv(NewStore(capacity)) by {
      InvOfNew(capacity);
    }
    RunKeepsInv(NewStore(capacity), calls);
    RetainedIsWhatWasAppended(capacity, calls);
    SinceCounts(s, after);
  }

  lemma InvOfNew(capacity: int)
    ensures Inv(NewStore(capacity))
  {
  }

  // Call i is a Commit of n that does not pass the sequences assigned by then.
  ghost predicate CommitsAt(calls: seq<Call>, i: int, n: int) {
    0 <= i < |calls| && calls[i] == CommitCall(n) && n <= |Appends(calls[..i])|
  }

  lemma {:induction false} RunSnoc(s: StoreState, calls: seq<Call>, c: Call)
    ensures Run(s, calls + [c]) == Step(Run(s, calls), c)
    decreases |calls|
  {
    hide Step;
    if calls == [] {
      assert [c][1..] == [];
    } else {
      assert (calls + [c])[0] == calls[0] && (calls + [c])[1..] == calls[1..] + [c];
      RunSnoc(Step(s, calls[0]), calls[1..], c);
    }
  }

  // In every run the committed position is the greatest sequence committed so far
  // that had been assigned by then, or 0.
  lemma {:induction false} CommittedIsGreatest(capacity: int, calls: seq<Call>)
    ensures var s := Run(NewStore(capacity), calls);
            && (s.committed == 0 || exists i :: CommitsAt(calls, i, s.committed))
            && forall i, n | CommitsAt(calls, i, n) :: n <= s.committed
    decreases |calls|
  {
    if calls != [] {
      var last := |calls| - 1;
      var init, c := calls[..last], calls[last];
      assert calls == init + [c];
      CommittedIsGreatest(capacity, init);
      RunSnoc(NewStore(capacity), init, c);
      RetainedIsWhatWasAppended(capacity, init);
      hide Run, Appends;
      var was, s := Run(NewStore(capacity), init), Run(NewStore(capacity), calls);
      assert forall i | 0 <= i <= last :: calls[..i] == init[..i];
      assert init[..last] == init;
      forall i, n | CommitsAt(calls, i, n)
        ensures n <= s.committed
      {
        if i < last {
          assert CommitsAt(init, i, n);
        }
      }
      if was.committed != 0 {
        var i :| CommitsAt(init, i, was.committed);
        assert CommitsAt(calls, i, was.committed);
      }
      if c.CommitCall? && s.committed == c.n && s.committed != was.committed {
        assert CommitsAt(calls, last, s.committed);
      }
    }
  }
}
