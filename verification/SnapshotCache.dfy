// The fanout's snapshot cache for one topic, read and filled while other
// threads subscribe, unsubscribe and delete the topic.
//
// A mutator changes the membership and afterwards changes the version; a reader
// reads the version and afterwards, on a miss, the membership.  Each of these is
// its own locked region, so the regions of different threads interleave freely;
// the fanout lock is held from the lookup to the store of a miss.
module SnapshotCache {
  import opened Types

  datatype Change = Bind(sid: SessionID) | Unbind(sid: SessionID) | Clear

  function Changed(b: multiset<SessionID>, c: Change): multiset<SessionID> {
    match c
    case Bind(sid) => b + multiset{sid}
    case Unbind(sid) => b - multiset{sid}
    case Clear => multiset{}
  }

  // The bindings after a history of changes, and the sessions bound by them.
  function BindingsAfter(log: seq<Change>): multiset<SessionID> {
    if log == [] then multiset{} else Changed(BindingsAfter(log[..|log| - 1]), log[|log| - 1])
  }

  function Members(b: multiset<SessionID>): set<SessionID> {
    set sid | sid in b
  }

  // gen is a history: the DeleteTopic count when the entry's version was read.
  datatype Entry = Entry(version: nat, sessions: set<SessionID>, gen: nat)

  // A returned snapshot.  start is the history's length up to the last change
  // whose call had returned when takeSnapshot began, end its length on return.
  datatype Snapshot = Snapshot(start: nat, end: nat, gen: nat, hit: bool, entry: Entry)

  datatype Pc =
    | NeedBump(index: nat)     // changed the membership, not yet the version
    | NeedDrop(index: nat)     // DeleteTopic between its two regions
    | Begun(start: nat)
    | HasVersion(start: nat, gen: nat, version: nat)
    | Missed(start: nat, gen: nat, version: nat)   // holds the fanout lock
    | Loaded(start: nat, entry: Entry)             // holds the fanout lock
  {
    predicate Mutating() {
      NeedBump? || NeedDrop?
    }

    predicate Filling() {
      Missed? || Loaded?
    }
  }

  // marks is a history: marks[g][v] is the history's length up to the last
  // change whose call had returned when the version became v after g deletions.
  datatype Cache = Cache(
    keepsVersions: bool,
    bindings: multiset<SessionID>,
    version: nat,
    entry: Option<Entry>,
    holder: Option<Tid>,
    threads: map<Tid, Pc>,
    log: seq<Change>,
    marks: seq<seq<nat>>,
    returned: seq<Snapshot>)

  datatype Step =
    | Subscribe(t: Tid, sid: SessionID)
    | Unsubscribe(t: Tid, sid: SessionID)
    | DeleteTopic(t: Tid)
    | Bump(t: Tid)
    | Drop(t: Tid)
    | Begin(t: Tid)
    | ReadVersion(t: Tid)
    | Lookup(t: Tid)
    | Load(t: Tid)
    | Store(t: Tid)

  // keepsVersions selects the repair in which DeleteTopic bumps the version
  // and leaves it in the map; the code deletes it, so it restarts from zero.
  function NewCache(keepsVersions: bool): Cache {
    Cache(keepsVersions, multiset{}, 0, None, None, map[], [], [[0]], [])
  }

  function Max(a: nat, b: nat): nat {
    if a < b then b else a
  }

  function Gen(s: Cache): nat
    requires s.marks != []
  {
    |s.marks| - 1
  }

  ghost predicate MarksOk(s: Cache) {
    && s.marks != []
    && (forall g | 0 <= g < |s.marks| :: s.marks[g] != [])
    && |s.marks[Gen(s)]| == s.version + 1
  }

  // The mark of the present version.
  function Mark(marks: seq<seq<nat>>): nat {
    if marks == [] || marks[|marks| - 1] == [] then 0
    else var m := marks[|marks| - 1]; m[|m| - 1]
  }

  function Mutate(s: Cache, t: Tid, c: Change, pc: Pc): Cache {
    if t in s.threads then s
    else s.(bindings := Changed(s.bindings, c), log := s.log + [c], threads := s.threads[t := pc])
  }

  function BumpVersion(s: Cache, t: Tid, index: nat): Cache {
    if s.marks == [] then s
    else s.(version := s.version + 1,
    marks := s.marks[|s.marks| - 1 := s.marks[|s.marks| - 1] + [Max(Mark(s.marks), index + 1)]],
    threads := s.threads - {t})
  }

  function DropVersion(s: Cache, t: Tid, index: nat): Cache {
    s.(version := 0, marks := s.marks + [[Max(Mark(s.marks), index + 1)]], threads := s.threads - {t})
  }

  function LookupStep(s: Cache, t: Tid, pc: Pc): Cache
    requires pc.HasVersion?
  {
    if s.holder.Some? then s
    else if s.entry.Some? && s.entry.value.version == pc.version then
      s.(threads := s.threads - {t},
      returned := s.returned + [Snapshot(pc.start, |s.log|, pc.gen, true, s.entry.value)])
    else
      s.(entry := None, holder := Some(t), threads := s.threads[t := Missed(pc.start, pc.gen, pc.version)])
  }

  function StoreStep(s: Cache, t: Tid, pc: Pc): Cache
    requires pc.Loaded?
  {
    s.(entry := Some(pc.entry), holder := None, threads := s.threads - {t},
    returned := s.returned + [Snapshot(pc.start, |s.log|, pc.entry.gen, false, pc.entry)])
  }

  function Apply(s: Cache, a: Step): Cache {
    match a
    case Subscribe(t, sid) => Mutate(s, t, Bind(sid), NeedBump(|s.log|))
    case Unsubscribe(t, sid) => Mutate(s, t, Unbind(sid), NeedBump(|s.log|))
    case DeleteTopic(t) => Mutate(s, t, Clear, NeedDrop(|s.log|))
    case Bump(t) =>
      if t in s.threads && s.threads[t].NeedBump? then BumpVersion(s, t, s.threads[t].index) else s
    case Drop(t) =>
      if t !in s.threads || !s.threads[t].NeedDrop? then s
      else if s.keepsVersions then BumpVersion(s, t, s.threads[t].index)
      else DropVersion(s, t, s.threads[t].index)
    case Begin(t) => if t in s.threads then s else s.(threads := s.threads[t := Begun(Mark(s.marks))])
    case ReadVersion(t) =>
      if t in s.threads && s.threads[t].Begun? && s.marks != []
      then s.(threads := s.threads[t := HasVersion(s.threads[t].start, Gen(s), s.version)]) else s
    case Lookup(t) =>
      if t in s.threads && s.threads[t].HasVersion? then LookupStep(s, t, s.threads[t]) else s
    case Load(t) =>
      if t in s.threads && s.threads[t].Missed?
      then var pc := s.threads[t];
           s.(threads := s.threads[t := Loaded(pc.start, Entry(pc.version, Members(s.bindings), pc.gen))])
      else s
    case Store(t) => if t in s.threads && s.threads[t].Loaded? then StoreStep(s, t, s.threads[t]) else s
  }

  function Run(s: Cache, steps: seq<Step>): Cache
    decreases |steps|
  {
    if steps == [] then s else Run(Apply(s, steps[0]), steps[1..])
  }

  // ---- Coherence.

  predicate MembersAt(log: seq<Change>, k: nat, sessions: set<SessionID>) {
    k <= |log| && sessions == Members(BindingsAfter(log[..k]))
  }

  // The sessions are the membership at some moment between two positions.
  ghost predicate Held(log: seq<Change>, sessions: set<SessionID>, from: nat, to: nat) {
    exists k | from <= k <= to :: MembersAt(log, k, sessions)
  }

  // The snapshot is the membership at a moment before it was returned and after
  // every change whose call had returned when takeSnapshot began.
  ghost predicate Coherent(log: seq<Change>, r: Snapshot) {
    Held(log, r.entry.sessions, r.start, r.end)
  }

  lemma HeldLonger(log: seq<Change>, log': seq<Change>, sessions: set<SessionID>, from: nat, to: nat, from': nat, to': nat)
    requires Held(log, sessions, from, to) && log <= log' && from' <= from && to <= to'
    ensures Held(log', sessions, from', to')
  {
    var k :| from <= k <= to && MembersAt(log, k, sessions);
    assert log'[..k] == log[..k];
    assert MembersAt(log', k, sessions);
  }

  lemma HeldNow(s: Cache, from: nat)
    requires s.bindings == BindingsAfter(s.log) && from <= |s.log|
    ensures Held(s.log, Members(s.bindings), from, |s.log|)
  {
    assert s.log[..|s.log|] == s.log;
    assert MembersAt(s.log, |s.log|, Members(s.bindings));
  }

  // ---- What holds in every run.

  ghost predicate PcBasic(log: seq<Change>, marks: seq<seq<nat>>, pc: Pc) {
    match pc
    case NeedBump(index) => index < |log|
    case NeedDrop(index) => index < |log|
    case Begun(start) => start <= Mark(marks)
    case HasVersion(start, _, _) => start <= Mark(marks)
    case Missed(start, _, _) => start <= Mark(marks)
    case Loaded(start, e) => start <= Mark(marks) && Held(log, e.sessions, start, |log|)
  }

  // The fanout lock is held from a miss to its store, and the entry is gone then.
  ghost predicate HolderOk(s: Cache) {
    && (s.holder.Some? ==> s.holder.value in s.threads && s.threads[s.holder.value].Filling() && s.entry.None?)
    && (forall t | t in s.threads && s.threads[t].Filling() :: s.holder == Some(t))
  }

  ghost predicate Basic(s: Cache) {
    && MarksOk(s) && HolderOk(s)
    && s.bindings == BindingsAfter(s.log)
    && (forall g, v | 0 <= g < |s.marks| && 0 <= v < |s.marks[g]| :: s.marks[g][v] <= |s.log|)
    && (forall t | t in s.threads :: PcBasic(s.log, s.marks, s.threads[t]))
  }

  // A step only extends the histories.
  ghost predicate Extends(s: Cache, s': Cache) {
    && s.log <= s'.log
    && |s.marks| <= |s'.marks|
    && (forall g | 0 <= g < |s.marks| :: s.marks[g] <= s'.marks[g])
    && Mark(s.marks) <= Mark(s'.marks)
  }

  lemma StepExtends(s: Cache, a: Step)
    requires MarksOk(s)
    ensures Extends(s, Apply(s, a)) && MarksOk(Apply(s, a)) && s.returned <= Apply(s, a).returned
    ensures Apply(s, a).keepsVersions == s.keepsVersions
  {
  }

  lemma ExtendsKeepsPc(s: Cache, s': Cache, pc: Pc)
    requires Extends(s, s') && PcBasic(s.log, s.marks, pc)
    ensures PcBasic(s'.log, s'.marks, pc)
  {
    if pc.Loaded? {
      HeldLonger(s.log, s'.log, pc.entry.sessions, pc.start, |s.log|, pc.start, |s'.log|);
    }
  }

  // The program counter of the stepping thread after its step.
  ghost predicate Moved(s: Cache, a: Step, log: seq<Change>, pc: Pc) {
    match pc
    case NeedBump(index) => index < |log|
    case NeedDrop(index) => index < |log|
    case Begun(start) => start == Mark(s.marks)
    case HasVersion(start, gen, version) =>
      a.t in s.threads && s.threads[a.t] == Begun(start) && s.marks != [] && gen == Gen(s) && version == s.version
    case Missed(start, gen, version) => a.t in s.threads && s.threads[a.t] == HasVersion(start, gen, version)
    case Loaded(start, e) =>
      a.t in s.threads && s.threads[a.t] == Missed(start, e.gen, e.version) && e.sessions == Members(s.bindings)
  }

  lemma ThreadAfter(s: Cache, a: Step, t: Tid)
    requires t in Apply(s, a).threads
    ensures var s' := Apply(s, a);
            (t in s.threads && s'.threads[t] == s.threads[t]) || Moved(s, a, s'.log, s'.threads[t])
  {
  }

  lemma StepKeepsThreads(s: Cache, a: Step, t: Tid)
    requires Basic(s) && t in Apply(s, a).threads
    ensures PcBasic(Apply(s, a).log, Apply(s, a).marks, Apply(s, a).threads[t])
  {
    hide Apply, Held, HolderOk, BindingsAfter;
    var s' := Apply(s, a);
    StepExtends(s, a);
    ThreadAfter(s, a, t);
    if t in s.threads && s'.threads[t] == s.threads[t] {
      ExtendsKeepsPc(s, s', s.threads[t]);
    } else if s'.threads[t].Loaded? {
      assert PcBasic(s.log, s.marks, s.threads[a.t]);
      HeldNow(s, s.threads[a.t].start);
      HeldLonger(s.log, s'.log, Members(s.bindings), s.threads[a.t].start, |s.log|, s.threads[a.t].start, |s'.log|);
    } else {
      assert s'.threads[t].HasVersion? || s'.threads[t].Missed? ==> PcBasic(s.log, s.marks, s.threads[a.t]);
    }
  }

  lemma LogAfter(s: Cache, a: Step)
    ensures var s' := Apply(s, a);
            || (s'.log == s.log && s'.bindings == s.bindings)
            || exists c :: s'.log == s.log + [c] && s'.bindings == Changed(s.bindings, c)
  {
    hide BindingsAfter, Changed;
  }

  lemma StepKeepsBindings(s: Cache, a: Step)
    requires s.bindings == BindingsAfter(s.log)
    ensures Apply(s, a).bindings == BindingsAfter(Apply(s, a).log)
  {
    LogAfter(s, a);
    hide Apply, Changed;
    var s' := Apply(s, a);
    if s'.log != s.log {
      assert s'.log[..|s.log|] == s.log;
    }
  }

  lemma StepKeepsHolder(s: Cache, a: Step)
    requires HolderOk(s)
    ensures HolderOk(Apply(s, a))
  {
  }

  lemma StepKeepsMarks(s: Cache, a: Step)
    requires Basic(s)
    ensures var s' := Apply(s, a);
            forall g, v | 0 <= g < |s'.marks| && 0 <= v < |s'.marks[g]| :: s'.marks[g][v] <= |s'.log|
  {
    hide HolderOk, Held, BindingsAfter;
    if (a.Bump? || a.Drop?) && a.t in s.threads {
      assert PcBasic(s.log, s.marks, s.threads[a.t]);
    }
  }

  lemma StepKeepsBasic(s: Cache, a: Step)
    requires Basic(s)
    ensures Basic(Apply(s, a))
  {
    hide Apply, PcBasic, HolderOk;
    var s' := Apply(s, a);
    StepExtends(s, a);
    StepKeepsHolder(s, a);
    StepKeepsBindings(s, a);
    StepKeepsMarks(s, a);
    forall t | t in s'.threads
      ensures PcBasic(s'.log, s'.marks, s'.threads[t])
    {
      StepKeepsThreads(s, a, t);
    }
  }

  lemma {:induction false} RunKeepsBasic(s: Cache, steps: seq<Step>)
    requires Basic(s)
    ensures Basic(Run(s, steps)) && s.returned <= Run(s, steps).returned && s.log <= Run(s, steps).log
    ensures Run(s, steps).keepsVersions == s.keepsVersions
    decreases |steps|
  {
    if steps != [] {
      StepKeepsBasic(s, steps[0]);
      StepExtends(s, steps[0]);
      hide Basic, Apply;
      RunKeepsBasic(Apply(s, steps[0]), steps[1..]);
    }
  }

  lemma InitIsBasic(keepsVersions: bool)
    ensures Basic(NewCache(keepsVersions)) && SafeCache(NewCache(keepsVersions))
  {
  }

  // ---- Exactly when nothing stale can be served any more.

  // The entry that is stored, or that the holder of the lock is about to store.
  function LiveEntry(s: Cache): Option<Entry> {
    if s.entry.Some? then s.entry
    else if s.holder.Some? && s.holder.value in s.threads && s.threads[s.holder.value].Loaded?
    then Some(s.threads[s.holder.value].entry)
    else None
  }

  // A reader that carries a version: it may hit an entry, or store one under it.
  predicate Carries(s: Cache, t: Tid) {
    t in s.threads && (s.threads[t].HasVersion? || s.threads[t].Missed?)
  }

  // The entry is not ahead of the version; at the version, it holds what a reader
  // that begins now may see; and so for every reader that has its version.
  ghost predicate EntrySafe(s: Cache, e: Entry) {
    && e.version <= s.version
    && (e.version == s.version ==> Held(s.log, e.sessions, Mark(s.marks), |s.log|))
    && (forall t | t in s.threads && s.threads[t].HasVersion? && s.threads[t].version == e.version ::
          Held(s.log, e.sessions, s.threads[t].start, |s.log|))
  }

  ghost predicate SafeCache(s: Cache) {
    && (LiveEntry(s).Some? ==> EntrySafe(s, LiveEntry(s).value))
    && (forall t | Carries(s, t) :: s.threads[t].version <= s.version)
  }

  // A step after which the version restarts.
  predicate Restarts(keepsVersions: bool, a: Step) {
    a.Drop? && !keepsVersions
  }

  ghost predicate NoRestart(keepsVersions: bool, steps: seq<Step>) {
    forall i | 0 <= i < |steps| :: !Restarts(keepsVersions, steps[i])
  }

  ghost predicate CoherentFrom(s: Cache, n: nat) {
    forall i | n <= i < |s.returned| :: Coherent(s.log, s.returned[i])
  }

  lemma OldReturnsStayCoherent(s: Cache, a: Step, n: nat)
    requires Basic(s) && CoherentFrom(s, n)
    ensures forall i | n <= i < |s.returned| :: Coherent(Apply(s, a).log, Apply(s, a).returned[i])
  {
    StepExtends(s, a);
    var s' := Apply(s, a);
    forall i | n <= i < |s.returned|
      ensures Coherent(s'.log, s'.returned[i])
    {
      var r := s.returned[i];
      HeldLonger(s.log, s'.log, r.entry.sessions, r.start, r.end, r.start, r.end);
    }
  }

  // In a safe cache a step returns a coherent snapshot.
  lemma SafeReturn(s: Cache, a: Step)
    requires Basic(s) && SafeCache(s)
    ensures CoherentFrom(Apply(s, a), |s.returned|)
  {
    hide Held, BindingsAfter;
    if (a.Lookup? || a.Store?) && a.t in s.threads {
      assert PcBasic(s.log, s.marks, s.threads[a.t]);
    }
  }

  lemma SafeAfterMutate(s: Cache, t: Tid, c: Change, pc: Pc)
    requires Basic(s) && SafeCache(s) && pc.Mutating()
    ensures SafeCache(Mutate(s, t, c, pc))
  {
    var s' := Mutate(s, t, c, pc);
    if s' != s && LiveEntry(s).Some? {
      var e := LiveEntry(s).value;
      forall from: nat | Held(s.log, e.sessions, from, |s.log|)
        ensures Held(s'.log, e.sessions, from, |s'.log|)
      {
        HeldLonger(s.log, s'.log, e.sessions, from, |s.log|, from, |s'.log|);
      }
      hide Held;
      assert LiveEntry(s') == LiveEntry(s);
    }
  }

  lemma SafeAfterBump(s: Cache, t: Tid, index: nat)
    requires Basic(s) && SafeCache(s) && t in s.threads && s.threads[t].Mutating()
    ensures SafeCache(BumpVersion(s, t, index))
  {
    hide Held;
    assert LiveEntry(BumpVersion(s, t, index)) == LiveEntry(s);
  }

  // A reader that reads the version of the entry began before the next mark.
  lemma SafeAfterRead(s: Cache, t: Tid)
    requires Basic(s) && SafeCache(s) && t in s.threads && s.threads[t].Begun?
    ensures SafeCache(Apply(s, ReadVersion(t)))
  {
    hide Held, HolderOk, BindingsAfter;
    var pc := HasVersion(s.threads[t].start, Gen(s), s.version);
    var s' := s.(threads := s.threads[t := pc]);
    assert Apply(s, ReadVersion(t)) == s';
    assert LiveEntry(s') == LiveEntry(s);
    assert PcBasic(s.log, s.marks, s.threads[t]);
    if LiveEntry(s).Some? {
      var e := LiveEntry(s).value;
      if e.version == s.version {
        HeldLonger(s.log, s.log, e.sessions, Mark(s.marks), |s.log|, pc.start, |s.log|);
      }
      assert EntrySafe(s', e);
    }
  }

  lemma SafeAfterLookup(s: Cache, t: Tid)
    requires Basic(s) && SafeCache(s) && t in s.threads && s.threads[t].HasVersion?
    ensures SafeCache(LookupStep(s, t, s.threads[t]))
  {
    hide Held;
  }

  // What is loaded now is right for everybody who began before now.
  lemma SafeAfterLoad(s: Cache, t: Tid)
    requires Basic(s) && SafeCache(s) && t in s.threads && s.threads[t].Missed?
    ensures SafeCache(Apply(s, Load(t)))
  {
    hide Held, BindingsAfter;
    var pc := s.threads[t];
    var e := Entry(pc.version, Members(s.bindings), pc.gen);
    var s' := s.(threads := s.threads[t := Loaded(pc.start, e)]);
    assert Apply(s, Load(t)) == s';
    MarkIsCurrent(s);
    HeldNow(s, Mark(s.marks));
    assert Carries(s, t);
    forall u | u in s'.threads && s'.threads[u].HasVersion?
      ensures Held(s'.log, e.sessions, s'.threads[u].start, |s'.log|)
    {
      assert PcBasic(s.log, s.marks, s.threads[u]);
      HeldNow(s, s.threads[u].start);
    }
    assert LiveEntry(s') == Some(e);
  }

  lemma SafeAfterStore(s: Cache, t: Tid)
    requires Basic(s) && SafeCache(s) && t in s.threads && s.threads[t].Loaded?
    ensures SafeCache(StoreStep(s, t, s.threads[t]))
  {
    hide Held;
  }

  lemma StepKeepsSafe(s: Cache, a: Step)
    requires Basic(s) && SafeCache(s) && !Restarts(s.keepsVersions, a)
    ensures SafeCache(Apply(s, a))
  {
    hide Basic, SafeCache;
    if Apply(s, a) != s {
      match a
      case Subscribe(t, sid) => SafeAfterMutate(s, t, Bind(sid), NeedBump(|s.log|));
      case Unsubscribe(t, sid) => SafeAfterMutate(s, t, Unbind(sid), NeedBump(|s.log|));
      case DeleteTopic(t) => SafeAfterMutate(s, t, Clear, NeedDrop(|s.log|));
      case Bump(t) => SafeAfterBump(s, t, s.threads[t].index);
      case Drop(t) => SafeAfterBump(s, t, s.threads[t].index);
      case Begin(t) => SafeAfterBegin(s, t);
      case ReadVersion(t) => SafeAfterRead(s, t);
      case Lookup(t) => SafeAfterLookup(s, t);
      case Load(t) => SafeAfterLoad(s, t);
      case Store(t) => SafeAfterStore(s, t);
    }
  }

  lemma SafeAfterBegin(s: Cache, t: Tid)
    requires SafeCache(s) && t !in s.threads
    ensures SafeCache(Apply(s, Begin(t)))
  {
    hide Held;
    assert LiveEntry(Apply(s, Begin(t))) == LiveEntry(s) || LiveEntry(s).None?;
  }

  lemma {:induction false} SafeRunsAreCoherent(s: Cache, steps: seq<Step>, n: nat)
    requires Basic(s) && SafeCache(s) && NoRestart(s.keepsVersions, steps) && n <= |s.returned| && CoherentFrom(s, n)
    ensures CoherentFrom(Run(s, steps), n)
    decreases |steps|
  {
    if steps != [] {
      var a := steps[0];
      assert !Restarts(s.keepsVersions, a);
      StepKeepsBasic(s, a);
      StepKeepsSafe(s, a);
      StepExtends(s, a);
      SafeReturn(s, a);
      OldReturnsStayCoherent(s, a, n);
      hide Basic, SafeCache, Coherent, Apply;
      SafeRunsAreCoherent(Apply(s, a), steps[1..], n);
    }
  }

  // ---- A cache that is not safe can serve a stale snapshot.

  // Some continuation in which the version does not restart returns a snapshot
  // that is not coherent.
  ghost predicate Doomed(s: Cache) {
    exists steps :: NoRestart(s.keepsVersions, steps) && !CoherentFrom(Run(s, steps), |s.returned|)
  }

  lemma DoomedAfter(s: Cache, a: Step)
    requires Basic(s) && Doomed(Apply(s, a)) && !Restarts(s.keepsVersions, a)
    ensures Doomed(s)
  {
    var s1 := Apply(s, a);
    StepExtends(s, a);
    var steps :| NoRestart(s1.keepsVersions, steps) && !CoherentFrom(Run(s1, steps), |s1.returned|);
    var i :| |s1.returned| <= i < |Run(s1, steps).returned| && !Coherent(Run(s1, steps).log, Run(s1, steps).returned[i]);
    hide Apply, Coherent;
    assert ([a] + steps)[1..] == steps;
    assert Run(s, [a] + steps) == Run(s1, steps);
    assert NoRestart(s.keepsVersions, [a] + steps);
    assert !CoherentFrom(Run(s, [a] + steps), |s.returned|);
  }

  lemma StaleHit(s: Cache, t: Tid)
    requires Basic(s) && s.entry.Some? && t in s.threads && s.threads[t].HasVersion?
    requires s.threads[t].version == s.entry.value.version
    requires !Held(s.log, s.entry.value.sessions, s.threads[t].start, |s.log|)
    ensures Doomed(s)
  {
    hide Held;
    var s' := Apply(s, Lookup(t));
    var n := |s.returned|;
    assert s'.returned[n] == Snapshot(s.threads[t].start, |s.log|, s.threads[t].gen, true, s.entry.value);
    assert !Coherent(s'.log, s'.returned[n]);
    assert Run(s', []) == s';
    assert !CoherentFrom(Run(s', []), n);
    assert Run(s, [Lookup(t)]) == s';
    assert !CoherentFrom(Run(s, [Lookup(t)]), n);
  }

  // A reader that begins now hits an entry that is behind the last mark.
  lemma StaleNow(s: Cache, u: Tid)
    requires Basic(s) && s.entry.Some? && u !in s.threads
    requires s.entry.value.version == s.version && !Held(s.log, s.entry.value.sessions, Mark(s.marks), |s.log|)
    ensures Doomed(s)
  {
    var s1 := Apply(s, Begin(u));
    var s2 := Apply(s1, ReadVersion(u));
    StepKeepsBasic(s, Begin(u));
    StepKeepsBasic(s1, ReadVersion(u));
    ReaderBegins(s, u);
    hide Basic, Doomed, Held, Apply;
    StaleHit(s2, u);
    DoomedAfter(s1, ReadVersion(u));
    DoomedAfter(s, Begin(u));
  }

  lemma ReaderBegins(s: Cache, u: Tid)
    requires MarksOk(s) && u !in s.threads
    ensures var s' := Apply(Apply(s, Begin(u)), ReadVersion(u));
            s' == s.(threads := s.threads[u := HasVersion(Mark(s.marks), Gen(s), s.version)])
  {
    var s1 := Apply(s, Begin(u));
    assert s1 == s.(threads := s.threads[u := Begun(Mark(s.marks))]);
    assert s1.threads[u := HasVersion(Mark(s.marks), Gen(s), s.version)] ==
           s.threads[u := HasVersion(Mark(s.marks), Gen(s), s.version)];
  }

  lemma SubscribeThenBump(s: Cache, u: Tid, x: SessionID)
    requires MarksOk(s) && u !in s.threads && Mark(s.marks) <= |s.log|
    ensures var s' := Apply(Apply(s, Subscribe(u, x)), Bump(u));
            && s'.version == s.version + 1 && s'.entry == s.entry && u !in s'.threads
            && Mark(s'.marks) == |s'.log| && s'.bindings == s.bindings + multiset{x}
  {
    hide BindingsAfter;
    var s1 := Apply(s, Subscribe(u, x));
    assert s1.threads[u] == NeedBump(|s.log|) && s1.marks == s.marks;
    var s' := Apply(s1, Bump(u));
    assert s' == BumpVersion(s1, u, |s.log|);
  }

  lemma SubscribeAndBump(s: Cache, u: Tid, x: SessionID)
    requires Basic(s) && u !in s.threads
    ensures var s' := Apply(Apply(s, Subscribe(u, x)), Bump(u));
            && Basic(s') && s'.version == s.version + 1 && s'.entry == s.entry && u !in s'.threads
            && Mark(s'.marks) == |s'.log| && x in Members(s'.bindings)
            && (Doomed(s') ==> Doomed(s))
  {
    MarkIsCurrent(s);
    SubscribeThenBump(s, u, x);
    hide Basic, Doomed, Apply;
    var s1 := Apply(s, Subscribe(u, x));
    StepKeepsBasic(s, Subscribe(u, x));
    StepKeepsBasic(s1, Bump(u));
    if Doomed(Apply(s1, Bump(u))) {
      DoomedAfter(s1, Bump(u));
      DoomedAfter(s, Subscribe(u, x));
    }
  }

  lemma MarkIsCurrent(s: Cache)
    requires Basic(s)
    ensures s.version < |s.marks[Gen(s)]| && Mark(s.marks) == s.marks[Gen(s)][s.version] <= |s.log|
  {
  }

  lemma OnlyNow(s: Cache, sessions: set<SessionID>)
    requires s.bindings == BindingsAfter(s.log)
    ensures Held(s.log, sessions, |s.log|, |s.log|) <==> sessions == Members(s.bindings)
  {
    assert s.log[..|s.log|] == s.log;
    assert MembersAt(s.log, |s.log|, sessions) <==> sessions == Members(s.bindings);
  }

  // The versions catch up with an entry that is ahead, and by then a session it
  // does not have is bound.
  lemma {:induction false} EntryAhead(s: Cache, u: Tid, x: SessionID)
    requires Basic(s) && s.entry.Some? && u !in s.threads
    requires s.entry.value.version > s.version && x !in s.entry.value.sessions
    ensures Doomed(s)
    decreases s.entry.value.version - s.version
  {
    var s' := Apply(Apply(s, Subscribe(u, x)), Bump(u));
    SubscribeAndBump(s, u, x);
    OnlyNow(s', s'.entry.value.sessions);
    hide Basic, Doomed, Held, Apply;
    if s'.entry.value.version == s'.version {
      StaleNow(s', u);
    } else {
      EntryAhead(s', u, x);
    }
  }

  lemma {:induction false} FreshNat(ns: set<nat>) returns (n: nat)
    ensures forall k | k in ns :: k < n
  {
    if ns == {} {
      n := 0;
    } else {
      var k :| k in ns;
      var m := FreshNat(ns - {k});
      assert forall j | j in ns :: j == k || j in ns - {k};
      n := if m <= k then k + 1 else m;
    }
  }

  lemma FreshSession(sessions: set<SessionID>) returns (x: SessionID)
    ensures x !in sessions
  {
    var lengths := set y | y in sessions :: |y.name|;
    var n := FreshNat(lengths);
    assert forall y | y in sessions :: |y.name| in lengths;
    x := SessionID(seq(n, _ => 'x'));
  }

  lemma EntryUnsafe(s: Cache)
    requires Basic(s) && s.entry.Some? && !EntrySafe(s, s.entry.value)
    ensures Doomed(s)
  {
    hide Basic, Doomed, Held;
    var e := s.entry.value;
    var u := FreshNat(s.threads.Keys);
    var x := FreshSession(e.sessions);
    if e.version > s.version {
      EntryAhead(s, u, x);
    } else if e.version == s.version && !Held(s.log, e.sessions, Mark(s.marks), |s.log|) {
      StaleNow(s, u);
    } else {
      var t :| t in s.threads && s.threads[t].HasVersion? && s.threads[t].version == e.version
               && !Held(s.log, e.sessions, s.threads[t].start, |s.log|);
      StaleHit(s, t);
    }
  }

  lemma LoadedUnsafe(s: Cache, t: Tid)
    requires Basic(s) && t in s.threads && s.threads[t].Loaded? && !EntrySafe(s, s.threads[t].entry)
    ensures Doomed(s)
  {
    var s' := Apply(s, Store(t));
    StepKeepsBasic(s, Store(t));
    hide Basic, Doomed, Held;
    assert !EntrySafe(s', s'.entry.value) by {
      StoreKeepsUnsafe(s, t);
    }
    EntryUnsafe(s');
    DoomedAfter(s, Store(t));
  }

  lemma StoreKeepsUnsafe(s: Cache, t: Tid)
    requires t in s.threads && s.threads[t].Loaded?
    ensures EntrySafe(Apply(s, Store(t)), s.threads[t].entry) ==> EntrySafe(s, s.threads[t].entry)
  {
    hide Held;
    var s' := Apply(s, Store(t));
    assert forall u | u in s.threads && u != t :: u in s'.threads && s'.threads[u] == s.threads[u];
  }

  // A reader with a version that is ahead stores an entry under it.
  lemma MissedAhead(s: Cache, t: Tid)
    requires Basic(s) && t in s.threads && s.threads[t].Missed? && s.threads[t].version > s.version
    ensures Doomed(s)
  {
    StepKeepsBasic(s, Load(t));
    hide Basic, Doomed, Held;
    LoadedUnsafe(Apply(s, Load(t)), t);
    DoomedAfter(s, Load(t));
  }

  lemma ReaderAhead(s: Cache, t: Tid)
    requires Basic(s) && s.holder.None? && t in s.threads && s.threads[t].HasVersion? && s.threads[t].version > s.version
    ensures Doomed(s)
  {
    StepKeepsBasic(s, Lookup(t));
    hide Basic, Doomed, Held;
    if s.entry.Some? && s.entry.value.version == s.threads[t].version {
      EntryUnsafe(s);
    } else {
      MissedAhead(Apply(s, Lookup(t)), t);
      DoomedAfter(s, Lookup(t));
    }
  }

  // The thread that holds the lock finishes first.
  lemma ReaderWaits(s: Cache, t: Tid, h: Tid)
    requires Basic(s) && s.holder == Some(h) && h in s.threads && s.threads[h].Loaded? && h != t
    requires t in s.threads && s.threads[t].HasVersion? && s.threads[t].version > s.version
    ensures Doomed(s)
  {
    hide Basic, Doomed, Held;
    StepKeepsBasic(s, Store(h));
    ReaderAhead(Apply(s, Store(h)), t);
    DoomedAfter(s, Store(h));
  }

  lemma CarrierAhead(s: Cache, t: Tid)
    requires Basic(s) && Carries(s, t) && s.threads[t].version > s.version
    ensures Doomed(s)
  {
    hide Doomed, Held;
    if s.threads[t].Missed? {
      MissedAhead(s, t);
    } else if s.holder.None? {
      ReaderAhead(s, t);
    } else {
      var h := s.holder.value;
      if s.threads[h].Loaded? {
        ReaderWaits(s, t, h);
      } else {
        StepKeepsBasic(s, Load(h));
        ReaderWaits(Apply(s, Load(h)), t, h);
        DoomedAfter(s, Load(h));
      }
    }
  }

  lemma UnsafeIsDoomed(s: Cache)
    requires Basic(s) && !SafeCache(s)
    ensures Doomed(s)
  {
    hide Basic, Doomed, EntrySafe;
    if LiveEntry(s).Some? && !EntrySafe(s, LiveEntry(s).value) {
      if s.entry.Some? {
        EntryUnsafe(s);
      } else {
        LoadedUnsafe(s, s.holder.value);
      }
    } else {
      var t :| Carries(s, t) && s.threads[t].version > s.version;
      CarrierAhead(s, t);
    }
  }

  // The exact condition, for every state any run reaches, with any readers and
  // mutators in flight: all that later steps return is coherent, as long as the
  // version does not restart again, iff the cache is safe.
  lemma CoherentIffSafe(keepsVersions: bool, before: seq<Step>)
    ensures var s := Run(NewCache(keepsVersions), before);
            (forall steps | NoRestart(keepsVersions, steps) :: CoherentFrom(Run(s, steps), |s.returned|)) <==> SafeCache(s)
  {
    InitIsBasic(keepsVersions);
    RunKeepsBasic(NewCache(keepsVersions), before);
    var s := Run(NewCache(keepsVersions), before);
    if SafeCache(s) {
      forall steps | NoRestart(keepsVersions, steps)
        ensures CoherentFrom(Run(s, steps), |s.returned|)
      {
        SafeRunsAreCoherent(s, steps, |s.returned|);
      }
    } else {
      UnsafeIsDoomed(s);
    }
  }

  // With no deletion of the topic, or with the repair in which a deletion keeps
  // the version growing, every snapshot is coherent, hit or miss.
  lemma GrowingVersionsAreCoherent(keepsVersions: bool, steps: seq<Step>)
    requires NoRestart(keepsVersions, steps)
    ensures CoherentFrom(Run(NewCache(keepsVersions), steps), 0)
  {
    InitIsBasic(keepsVersions);
    SafeRunsAreCoherent(NewCache(keepsVersions), steps, 0);
  }

  lemma {:induction false} RunKeepsTracked(s: Cache, steps: seq<Step>)
    requires Basic(s) && LastChangeTracked(s)
    ensures Basic(Run(s, steps)) && LastChangeTracked(Run(s, steps))
    decreases |steps|
  {
    if steps != [] {
      StepKeepsBasic(s, steps[0]);
      StepKeepsTracked(s, steps[0]);
      RunKeepsTracked(Apply(s, steps[0]), steps[1..]);
    }
  }

  ghost predicate HoldsLastChange(s: Cache, t: Tid) {
    t in s.threads && s.threads[t].Mutating() && s.threads[t].index + 1 == |s.log|
  }

  ghost predicate LastChangeTracked(s: Cache) {
    Mark(s.marks) >= |s.log| || exists t :: HoldsLastChange(s, t)
  }

  lemma StepKeepsTracked(s: Cache, a: Step)
    requires MarksOk(s) && LastChangeTracked(s)
    ensures LastChangeTracked(Apply(s, a))
  {
    var s' := Apply(s, a);
    if a.Subscribe? || a.Unsubscribe? || a.DeleteTopic? {
      if s' != s {
        assert HoldsLastChange(s', a.t);
      }
    } else if Mark(s'.marks) < |s'.log| {
      assert Mark(s.marks) <= Mark(s'.marks);
      var t :| HoldsLastChange(s, t);
      assert HoldsLastChange(s', t);
    }
  }

  ghost predicate NoMutator(s: Cache) {
    forall t | t in s.threads :: !s.threads[t].Mutating()
  }

  // With no mutator between its regions the last mark is the whole history.
  lemma QuietMark(s: Cache)
    requires Basic(s) && LastChangeTracked(s) && NoMutator(s)
    ensures Mark(s.marks) == |s.log|
  {
  }

  // Between calls: what is cached does no harm iff it is behind the version, or
  // at it with the present members.
  lemma QuietCacheIsSafeIff(keepsVersions: bool, before: seq<Step>)
    requires Run(NewCache(keepsVersions), before).threads == map[]
    ensures var s := Run(NewCache(keepsVersions), before);
            (forall steps | NoRestart(keepsVersions, steps) :: CoherentFrom(Run(s, steps), |s.returned|)) <==>
            (s.entry.Some? ==>
               || s.entry.value.version < s.version
               || (s.entry.value.version == s.version && s.entry.value.sessions == Members(s.bindings)))
  {
    CoherentIffSafe(keepsVersions, before);
    InitIsBasic(keepsVersions);
    RunKeepsTracked(NewCache(keepsVersions), before);
    var s := Run(NewCache(keepsVersions), before);
    QuietMark(s);
    if s.entry.Some? {
      OnlyNow(s, s.entry.value.sessions);
    }
    hide Basic, Held, CoherentFrom, Run;
  }

  // What the second region of DeleteTopic may find: with the version back at 0
  // and the deletion itself marked, the entry must be of version 0 and hold what
  // was so since, and no reader in flight may carry another version.
  ghost predicate DropFindsNothing(s: Cache, index: nat) {
    && (LiveEntry(s).Some? ==>
          var e := LiveEntry(s).value;
          e.version == 0 && Held(s.log, e.sessions, Max(Mark(s.marks), index + 1), |s.log|))
    && (forall t | Carries(s, t) :: s.threads[t].version == 0)
  }

  lemma SafeDropIff(s: Cache, t: Tid)
    requires Basic(s) && t in s.threads && s.threads[t].NeedDrop?
    ensures SafeCache(DropVersion(s, t, s.threads[t].index)) <==> DropFindsNothing(s, s.threads[t].index)
  {
    var index := s.threads[t].index;
    var s' := DropVersion(s, t, index);
    assert LiveEntry(s') == LiveEntry(s);
    assert Mark(s'.marks) == Max(Mark(s.marks), index + 1);
    assert forall u :: Carries(s', u) <==> Carries(s, u);
    if DropFindsNothing(s, index) && LiveEntry(s).Some? {
      var e := LiveEntry(s).value;
      forall u | u in s'.threads && s'.threads[u].HasVersion?
        ensures Held(s.log, e.sessions, s'.threads[u].start, |s.log|)
      {
        assert PcBasic(s.log, s.marks, s.threads[u]);
        HeldLonger(s.log, s.log, e.sessions, Mark(s'.marks), |s.log|, s'.threads[u].start, |s.log|);
      }
    }
    hide Held;
  }

  // Whether a deletion lets a stale snapshot through later is decided by what its
  // second region finds, readers in flight included.
  lemma DropIsSafeIff(before: seq<Step>, t: Tid)
    requires var s := Run(NewCache(false), before); t in s.threads && s.threads[t].NeedDrop?
    ensures var s := Run(NewCache(false), before);
            var s' := Apply(s, Drop(t));
            (forall steps | NoRestart(false, steps) :: CoherentFrom(Run(s', steps), |s'.returned|)) <==>
            DropFindsNothing(s, s.threads[t].index)
  {
    var s := Run(NewCache(false), before);
    InitIsBasic(false);
    RunKeepsBasic(NewCache(false), before);
    SafeDropIff(s, t);
    RunSnoc(NewCache(false), before, Drop(t));
    CoherentIffSafe(false, before + [Drop(t)]);
  }

  lemma {:induction false} RunAppend(s: Cache, a: seq<Step>, b: seq<Step>)
    ensures Run(s, a + b) == Run(Run(s, a), b)
    decreases |a|
  {
    if a == [] {
      assert a + b == b;
    } else {
      assert (a + b)[0] == a[0] && (a + b)[1..] == a[1..] + b;
      RunAppend(Apply(s, a[0]), a[1..], b);
    }
  }

  lemma RunSnoc(s: Cache, steps: seq<Step>, a: Step)
    ensures Run(s, steps + [a]) == Apply(Run(s, steps), a)
  {
    RunAppend(s, steps, [a]);
    assert Run(Run(s, steps), [a]) == Run(Apply(Run(s, steps), a), []);
  }

  // ---- Entries cached since the last deletion.

  ghost predicate ValidVersion(marks: seq<seq<nat>>, gen: nat, version: nat) {
    gen < |marks| && version < |marks[gen]|
  }

  ghost predicate EntryOk(log: seq<Change>, marks: seq<seq<nat>>, e: Entry) {
    ValidVersion(marks, e.gen, e.version) && Held(log, e.sessions, marks[e.gen][e.version], |log|)
  }

  ghost predicate ReaderOk(marks: seq<seq<nat>>, start: nat, gen: nat, version: nat) {
    ValidVersion(marks, gen, version) && start <= marks[gen][version]
  }

  ghost predicate PcOk(log: seq<Change>, marks: seq<seq<nat>>, pc: Pc) {
    match pc
    case HasVersion(start, gen, version) => ReaderOk(marks, start, gen, version)
    case Missed(start, gen, version) => ReaderOk(marks, start, gen, version)
    case Loaded(start, e) => ReaderOk(marks, start, e.gen, e.version) && EntryOk(log, marks, e)
    case _ => true
  }

  // Not a hit on an entry from before a deletion.
  predicate SameGeneration(r: Snapshot) {
    r.hit ==> r.entry.gen == r.gen
  }

  ghost predicate GenInv(s: Cache) {
    && (s.entry.Some? ==> EntryOk(s.log, s.marks, s.entry.value))
    && (forall t | t in s.threads :: PcOk(s.log, s.marks, s.threads[t]))
    && (forall i | 0 <= i < |s.returned| && SameGeneration(s.returned[i]) :: Coherent(s.log, s.returned[i]))
  }

  lemma ExtendsKeepsEntry(s: Cache, s': Cache, e: Entry)
    requires Extends(s, s') && EntryOk(s.log, s.marks, e)
    ensures EntryOk(s'.log, s'.marks, e)
  {
    HeldLonger(s.log, s'.log, e.sessions, s.marks[e.gen][e.version], |s.log|, s'.marks[e.gen][e.version], |s'.log|);
  }

  lemma ExtendsKeepsOk(s: Cache, s': Cache, pc: Pc)
    requires Extends(s, s') && PcOk(s.log, s.marks, pc)
    ensures PcOk(s'.log, s'.marks, pc)
  {
    if pc.Loaded? {
      ExtendsKeepsEntry(s, s', pc.entry);
    }
    hide Held;
  }

  lemma StepKeepsPcs(s: Cache, a: Step, t: Tid)
    requires Basic(s) && GenInv(s) && t in Apply(s, a).threads
    ensures PcOk(Apply(s, a).log, Apply(s, a).marks, Apply(s, a).threads[t])
  {
    hide Apply, Held, HolderOk, BindingsAfter;
    var s' := Apply(s, a);
    StepExtends(s, a);
    ThreadAfter(s, a, t);
    if t in s.threads && s'.threads[t] == s.threads[t] {
      ExtendsKeepsOk(s, s', s.threads[t]);
    } else if s'.threads[t].HasVersion? || s'.threads[t].Filling() {
      assert PcBasic(s.log, s.marks, s.threads[a.t]) && PcOk(s.log, s.marks, s.threads[a.t]);
      MovedIsOk(s, a, s'.threads[t]);
      ExtendsKeepsOk(s, s', s'.threads[t]);
    }
  }

  lemma MovedIsOk(s: Cache, a: Step, pc: Pc)
    requires Basic(s) && GenInv(s) && a.t in s.threads && (pc.HasVersion? || pc.Filling()) && Moved(s, a, s.log, pc)
    ensures PcOk(s.log, s.marks, pc)
  {
    assert PcBasic(s.log, s.marks, s.threads[a.t]) && PcOk(s.log, s.marks, s.threads[a.t]);
    if pc.Loaded? {
      HeldNow(s, s.marks[pc.entry.gen][pc.entry.version]);
    }
    hide Held, HolderOk, BindingsAfter;
  }

  lemma EntryAfter(s: Cache, a: Step)
    ensures var s' := Apply(s, a);
            || s'.entry.None? || s'.entry == s.entry
            || (a.t in s.threads && s.threads[a.t].Loaded? && s'.entry == Some(s.threads[a.t].entry))
  {
  }

  lemma StepKeepsEntry(s: Cache, a: Step)
    requires Basic(s) && GenInv(s)
    ensures var s' := Apply(s, a); s'.entry.Some? ==> EntryOk(s'.log, s'.marks, s'.entry.value)
  {
    StepExtends(s, a);
    EntryAfter(s, a);
    hide Apply, Held, Extends, EntryOk, HolderOk, BindingsAfter;
    var s' := Apply(s, a);
    if s'.entry.Some? {
      if s'.entry == s.entry {
        ExtendsKeepsEntry(s, s', s.entry.value);
      } else {
        assert PcOk(s.log, s.marks, s.threads[a.t]);
        ExtendsKeepsEntry(s, s', s.threads[a.t].entry);
      }
    }
  }

  // A hit on an entry of the reader's generation: the entry was filled from a
  // membership read after the reader's version was read.
  lemma HitIsCoherent(log: seq<Change>, marks: seq<seq<nat>>, start: nat, e: Entry)
    requires EntryOk(log, marks, e) && ReaderOk(marks, start, e.gen, e.version)
    ensures Held(log, e.sessions, start, |log|)
  {
    HeldLonger(log, log, e.sessions, marks[e.gen][e.version], |log|, start, |log|);
  }

  lemma NewReturnIsCoherent(s: Cache, a: Step)
    requires Basic(s) && GenInv(s)
    ensures var s' := Apply(s, a);
            forall i | |s.returned| <= i < |s'.returned| && SameGeneration(s'.returned[i]) :: Coherent(s'.log, s'.returned[i])
  {
    if (a.Lookup? || a.Store?) && a.t in s.threads {
      var pc := s.threads[a.t];
      assert PcBasic(s.log, s.marks, pc) && PcOk(s.log, s.marks, pc);
      if pc.HasVersion? && s.entry.Some? && s.entry.value.version == pc.version && s.entry.value.gen == pc.gen {
        HitIsCoherent(s.log, s.marks, pc.start, s.entry.value);
      }
    }
    hide Held, HolderOk, EntryOk, ReaderOk, BindingsAfter;
  }

  lemma StepKeepsGenInv(s: Cache, a: Step)
    requires Basic(s) && GenInv(s)
    ensures GenInv(Apply(s, a))
  {
    hide Apply, PcOk, EntryOk, Basic;
    var s' := Apply(s, a);
    StepKeepsEntry(s, a);
    NewReturnIsCoherent(s, a);
    ReturnsGrow(s, a);
    forall t | t in s'.threads
      ensures PcOk(s'.log, s'.marks, s'.threads[t])
    {
      StepKeepsPcs(s, a, t);
    }
    forall i | 0 <= i < |s'.returned| && SameGeneration(s'.returned[i])
      ensures Coherent(s'.log, s'.returned[i])
    {
      if i < |s.returned| {
        ReturnStaysCoherent(s, a, i);
      }
    }
  }

  lemma ReturnsGrow(s: Cache, a: Step)
    requires Basic(s)
    ensures s.returned <= Apply(s, a).returned
  {
    StepExtends(s, a);
  }

  lemma ReturnStaysCoherent(s: Cache, a: Step, i: nat)
    requires Basic(s) && i < |s.returned| && Coherent(s.log, s.returned[i])
    ensures i < |Apply(s, a).returned| && Apply(s, a).returned[i] == s.returned[i]
    ensures Coherent(Apply(s, a).log, s.returned[i])
  {
    StepExtends(s, a);
    var r := s.returned[i];
    HeldLonger(s.log, Apply(s, a).log, r.entry.sessions, r.start, r.end, r.start, r.end);
  }

  lemma {:induction false} RunKeepsGenInv(s: Cache, steps: seq<Step>)
    requires Basic(s) && GenInv(s)
    ensures GenInv(Run(s, steps))
    decreases |steps|
  {
    if steps != [] {
      StepKeepsBasic(s, steps[0]);
      StepKeepsGenInv(s, steps[0]);
      hide Basic, GenInv, Apply;
      RunKeepsGenInv(Apply(s, steps[0]), steps[1..]);
    }
  }

  // In every run, deletions included: a snapshot that is not a hit on an entry
  // from before a deletion is coherent.
  lemma SnapshotsAreCoherent(keepsVersions: bool, steps: seq<Step>)
    ensures var s := Run(NewCache(keepsVersions), steps);
            forall i | 0 <= i < |s.returned| && SameGeneration(s.returned[i]) :: Coherent(s.log, s.returned[i])
  {
    InitIsBasic(keepsVersions);
    RunKeepsGenInv(NewCache(keepsVersions), steps);
  }

  // An entry at the current version, cached since the last deletion, holds the
  // current subscribers whenever no mutator is between its two regions.
  lemma CurrentEntryIsExact(keepsVersions: bool, steps: seq<Step>)
    requires var s := Run(NewCache(keepsVersions), steps);
             && s.entry.Some?
             && s.entry.value.version == s.version
             && s.entry.value.gen == |s.marks| - 1
             && NoMutator(s)
    ensures var s := Run(NewCache(keepsVersions), steps);
            s.entry.value.sessions == Members(s.bindings)
  {
    hide Basic, GenInv, LastChangeTracked, Run;
    InitIsBasic(keepsVersions);
    InitIsTracked(keepsVersions);
    RunKeepsTracked(NewCache(keepsVersions), steps);
    RunKeepsGenInv(NewCache(keepsVersions), steps);
    CurrentEntryExact(Run(NewCache(keepsVersions), steps));
  }

  lemma InitIsTracked(keepsVersions: bool)
    ensures LastChangeTracked(NewCache(keepsVersions)) && GenInv(NewCache(keepsVersions))
  {
  }

  lemma CurrentEntryExact(s: Cache)
    requires Basic(s) && GenInv(s) && LastChangeTracked(s) && NoMutator(s)
    requires s.entry.Some? && s.entry.value.version == s.version && s.entry.value.gen == |s.marks| - 1
    ensures s.entry.value.sessions == Members(s.bindings)
  {
    hide Held;
    QuietMark(s);
    MarkIsCurrent(s);
    OnlyNow(s, s.entry.value.sessions);
  }

  // ---- The stale hit.

  lemma RunSeven(s: Cache, a: Step, b: Step, c: Step, d: Step, e: Step, f: Step, g: Step)
    ensures Run(s, [a, b, c, d, e, f, g]) == Apply(Apply(Apply(Apply(Apply(Apply(Apply(s, a), b), c), d), e), f), g)
  {
    var s1 := Apply(s, a);
    var s2 := Apply(s1, b);
    var s3 := Apply(s2, c);
    var s4 := Apply(s3, d);
    var s5 := Apply(s4, e);
    var s6 := Apply(s5, f);
    assert Run(s6, [g]) == Apply(s6, g);
    assert Run(s5, [f, g]) == Run(s6, [g]);
    assert Run(s4, [e, f, g]) == Run(s5, [f, g]);
    assert Run(s3, [d, e, f, g]) == Run(s4, [e, f, g]);
    assert Run(s2, [c, d, e, f, g]) == Run(s3, [d, e, f, g]);
    assert Run(s1, [b, c, d, e, f, g]) == Run(s2, [c, d, e, f, g]);
  }

  lemma FirstSubscriber(a: SessionID)
    ensures Apply(Apply(NewCache(false), Subscribe(0, a)), Bump(0))
         == Cache(false, multiset{a}, 1, None, None, map[], [Bind(a)], [[0, 1]], [])
  {
    assert [0] + [Max(0, 1)] == [0, 1];
    assert [[0]][0 := [0, 1]] == [[0, 1]];
  }

  lemma FillCache(a: SessionID)
    ensures var s := Run(NewCache(false), [Subscribe(0, a), Bump(0), Begin(1), ReadVersion(1), Lookup(1), Load(1), Store(1)]);
            && s.entry == Some(Entry(1, {a}, 0)) && s.version == 1 && s.bindings == multiset{a}
            && s.threads == map[] && s.holder == None && s.log == [Bind(a)] && s.marks == [[0, 1]]
            && |s.returned| == 1 && !s.keepsVersions
  {
    var s0 := NewCache(false);
    FirstSubscriber(a);
    var s2 := Apply(Apply(s0, Subscribe(0, a)), Bump(0));
    var s3 := Apply(s2, Begin(1));
    var s4 := Apply(s3, ReadVersion(1));
    assert s4.threads == map[1 := HasVersion(1, 0, 1)];
    var s5 := Apply(s4, Lookup(1));
    var s6 := Apply(s5, Load(1));
    assert Members(multiset{a}) == {a};
    assert s6.threads == map[1 := Loaded(1, Entry(1, {a}, 0))];
    var s7 := Apply(s6, Store(1));
    RunSeven(s0, Subscribe(0, a), Bump(0), Begin(1), ReadVersion(1), Lookup(1), Load(1), Store(1));
  }

  lemma DeleteAndSubscribe(s: Cache, b: SessionID)
    requires s.version == 1 && !s.keepsVersions && s.threads == map[] && |s.log| == 1 && s.marks == [[0, 1]]
    ensures var s' := Apply(Apply(Apply(s, DeleteTopic(0)), Drop(0)), Subscribe(0, b));
            s' == s.(bindings := multiset{b}, version := 0, threads := map[0 := NeedBump(2)],
                     log := s.log + [Clear, Bind(b)], marks := [[0, 1], [2]])
  {
    var s1 := Apply(s, DeleteTopic(0));
    assert s1.threads == map[0 := NeedDrop(1)];
    var s2 := Apply(s1, Drop(0));
    assert s2.version == 0 && s2.marks == [[0, 1], [2]] && s2.threads == map[];
    assert s.log + [Clear] + [Bind(b)] == s.log + [Clear, Bind(b)];
  }

  lemma DeleteAndRejoin(s: Cache, a: SessionID, b: SessionID)
    requires s.entry == Some(Entry(1, {a}, 0)) && s.version == 1 && !s.keepsVersions
    requires s.threads == map[] && s.holder == None && s.log == [Bind(a)] && s.marks == [[0, 1]]
    ensures var s' := Run(s, [DeleteTopic(0), Drop(0), Subscribe(0, b), Bump(0), Begin(1), ReadVersion(1), Lookup(1)]);
            && s'.threads == map[] && s'.bindings == multiset{b} && |s'.log| == 3
            && s'.returned == s.returned + [Snapshot(3, 3, 1, true, Entry(1, {a}, 0))]
  {
    DeleteAndSubscribe(s, b);
    var s3 := Apply(Apply(Apply(s, DeleteTopic(0)), Drop(0)), Subscribe(0, b));
    var s4 := Apply(s3, Bump(0));
    assert [2] + [Max(2, 3)] == [2, 3];
    assert s4.version == 1 && s4.marks == [[0, 1], [2, 3]] && s4.threads == map[];
    var s5 := Apply(s4, Begin(1));
    var s6 := Apply(s5, ReadVersion(1));
    assert s6.threads == map[1 := HasVersion(3, 1, 1)];
    var s7 := Apply(s6, Lookup(1));
    assert s7.threads == map[];
    RunSeven(s, DeleteTopic(0), Drop(0), Subscribe(0, b), Bump(0), Begin(1), ReadVersion(1), Lookup(1));
  }

  // In the code the version restarts after DeleteTopic, so a later snapshot can
  // hit an entry from before it: here every call has returned, only b is bound,
  // and the snapshot holds a instead.
  lemma DeletedTopicServesStaleSnapshot(a: SessionID, b: SessionID)
    requires a != b
    ensures exists steps ::
              var s := Run(NewCache(false), steps);
              && s.threads == map[] && s.bindings == multiset{b}
              && |s.returned| == 2 && s.returned[1].hit && s.returned[1].entry.sessions == {a}
              && !Coherent(s.log, s.returned[1])
  {
    var fill := [Subscribe(0, a), Bump(0), Begin(1), ReadVersion(1), Lookup(1), Load(1), Store(1)];
    var rejoin := [DeleteTopic(0), Drop(0), Subscribe(0, b), Bump(0), Begin(1), ReadVersion(1), Lookup(1)];
    FillCache(a);
    DeleteAndRejoin(Run(NewCache(false), fill), a, b);
    RunAppend(NewCache(false), fill, rejoin);
    hide Run, Apply, Held, Basic;
    InitIsBasic(false);
    RunKeepsBasic(NewCache(false), fill + rejoin);
    var s := Run(NewCache(false), fill + rejoin);
    NotBound(s, a, b);
    assert s.threads == map[];
  }

  lemma NotBound(s: Cache, a: SessionID, b: SessionID)
    requires Basic(s) && a != b && s.bindings == multiset{b}
    ensures !Held(s.log, {a}, |s.log|, |s.log|)
  {
    hide Held;
    OnlyNow(s, {a});
    assert b in Members(s.bindings) && b !in {a};
  }
}
