// The subscription facade: the topic tree and the membership registry side by
// side, and a version per topic.
module TopicSync {
  import opened Types
  import opened Membership
  import opened TopicPath
  import opened TopicTree

  // A binding counts at every node on the path of its topic.
  function Under(p: seq<string>): Binding -> nat {
    (b: Binding) => if p <= Path(b.1) then 1 else 0
  }

  function RefsAt(m: Refs<string>, p: seq<string>): int {
    if p in m then m[p] else 0
  }

  // Every node below the root holds as many references as there are bindings to
  // topics at or below it; a node that does not exist would hold none.
  ghost predicate Synced(m: Refs<string>, bag: multiset<Binding>) {
    forall p | p != [] :: RefsAt(m, p) == Weight(bag, Under(p))
  }

  ghost predicate PrefixClosed(m: Refs<string>) {
    forall p, q | q in m && Prefix(p, q) :: p in m
  }

  // ---- Sums of weights.

  lemma {:induction false} WeightSum(bag: multiset<Binding>, f: Binding -> nat, g: Binding -> nat, h: Binding -> nat)
    requires forall b | b in bag :: h(b) == f(b) + g(b)
    ensures Weight(bag, h) == Weight(bag, f) + Weight(bag, g)
    decreases |bag|
  {
    if bag != multiset{} {
      var b :| b in bag;
      WeightRemove(bag, f, b);
      WeightRemove(bag, g, b);
      WeightRemove(bag, h, b);
      WeightSum(bag - multiset{b}, f, g, h);
    }
  }

  lemma WeightAgrees(bag: multiset<Binding>, f: Binding -> nat, g: Binding -> nat)
    requires forall b | b in bag :: f(b) == g(b)
    ensures Weight(bag, f) == Weight(bag, g)
  {
    var zero := (b: Binding) => 0;
    WeightZero(bag, zero);
    WeightSum(bag, g, zero, f);
  }

  lemma {:induction false} WeightPositive(bag: multiset<Binding>, f: Binding -> nat)
    ensures Weight(bag, f) == 0 <==> forall b | b in bag :: f(b) == 0
  {
    if forall b | b in bag :: f(b) == 0 {
      WeightZero(bag, f);
    } else {
      var b :| b in bag && f(b) != 0;
      WeightRemove(bag, f, b);
    }
  }

  ghost function SumOfCounts(bag: multiset<Binding>, topics: set<string>): nat {
    if topics == {} then 0
    else var t :| t in topics; TopicCount(bag, t) + SumOfCounts(bag, topics - {t})
  }

  function AmongTopics(topics: set<string>): Binding -> nat {
    (b: Binding) => if b.1 in topics then 1 else 0
  }

  lemma {:induction false} CountsAddUp(bag: multiset<Binding>, topics: set<string>)
    ensures SumOfCounts(bag, topics) == Weight(bag, AmongTopics(topics))
  {
    if topics == {} {
      WeightZero(bag, AmongTopics(topics));
    } else {
      var t :| t in topics && SumOfCounts(bag, topics) == TopicCount(bag, t) + SumOfCounts(bag, topics - {t});
      CountsAddUp(bag, topics - {t});
      assert TopicCount(bag, t) == Weight(bag, OnTopic(t));
      WeightSum(bag, OnTopic(t), AmongTopics(topics - {t}), AmongTopics(topics));
    }
  }

  ghost function TopicsUnder(bag: multiset<Binding>, p: seq<string>): set<string> {
    set b | b in bag && p <= Path(b.1) :: b.1
  }

  // In sync means: the references at a path are the sum, over the bound topics
  // at or below it, of the topic's total bindings.
  lemma RefsAreSumsOfCounts(m: Refs<string>, bag: multiset<Binding>, p: seq<string>)
    requires Synced(m, bag) && p != []
    ensures RefsAt(m, p) == SumOfCounts(bag, TopicsUnder(bag, p))
  {
    var topics := TopicsUnder(bag, p);
    CountsAddUp(bag, topics);
    forall b | b in bag
      ensures Under(p)(b) == AmongTopics(topics)(b)
    {
      if b.1 in topics {
        var c :| c in bag && p <= Path(c.1) && c.1 == b.1;
      }
    }
    WeightAgrees(bag, Under(p), AmongTopics(topics));
  }

  lemma SyncedAtFirst(m: Refs<string>)
    requires m == map[[] := 0]
    ensures Synced(m, multiset{}) && PrefixClosed(m)
  {
  }

  lemma JoinKeepsSync(m: Refs<string>, m': Refs<string>, bag: multiset<Binding>, sid: SessionID, topic: string)
    requires Joined(m, m', Path(topic))
    ensures Synced(m, bag) ==> Synced(m', bag + multiset{(sid, topic)})
  {
    forall p | p != [] && Synced(m, bag)
      ensures RefsAt(m', p) == Weight(bag + multiset{(sid, topic)}, Under(p))
    {
      WeightAdd(bag, Under(p), (sid, topic));
      assert p in m' <==> p in m || Prefix(p, Path(topic));
    }
  }

  // Leaving counts down along the path whether or not the session was bound.
  lemma LeaveSyncsIff(m: Refs<string>, m': Refs<string>, bag: multiset<Binding>, sid: SessionID, topic: string)
    requires PrefixClosed(m) && Left(m, m', Path(topic))
    ensures Synced(m, bag) ==>
              (Synced(m', bag - multiset{(sid, topic)}) <==>
               (sid, topic) in bag || Path(topic) == [] || Path(topic)[..1] !in m)
  {
    var path, b := Path(topic), (sid, topic);
    if !Synced(m, bag) {
    } else if b in bag {
      forall p | p != []
        ensures RefsAt(m', p) == Weight(bag - multiset{b}, Under(p))
      {
        WeightRemove(bag, Under(p), b);
      }
    } else if path == [] || path[..1] !in m {
      assert bag - multiset{b} == bag;
      forall p | p != []
        ensures RefsAt(m', p) == RefsAt(m, p)
      {
        if p in m && Prefix(p, path) {
          assert path[..1] == p[..1] && Prefix(p[..1], p);
        }
      }
    } else {
      assert bag - multiset{b} == bag;
      var p := path[..1];
      assert Prefix(p, path) && RefsAt(m', p) == RefsAt(m, p) - 1;
    }
  }

  lemma FirstSegment(p: seq<string>, path: seq<string>)
    requires p != [] && path != [] && Comparable(p, path)
    ensures p[0] == path[0]
  {
  }

  // Clearing a topic takes its own bindings off the weight of its own path only.
  lemma ClearedWeight(bag: multiset<Binding>, bag': multiset<Binding>, topic: string, p: seq<string>)
    requires Cleared(bag', bag, topic) && !(p <= Path(topic))
    ensures Weight(bag', Under(p)) == Weight(bag, Under(p))
    decreases |bag|
  {
    if exists b :: b in bag && b.1 == topic {
      var b :| b in bag && b.1 == topic;
      WeightRemove(bag, Under(p), b);
      ClearedWeight(bag - multiset{b}, bag', topic, p);
    } else {
      assert bag' == bag;
    }
  }

  predicate SameStart(p: seq<string>, q: seq<string>) {
    p != [] && q != [] && p[0] == q[0]
  }

  // No other topic with a binding starts with the same segment.
  ghost predicate AloneUnderRoot(bag: multiset<Binding>, topic: string) {
    forall b | b in bag && b.1 != topic :: !SameStart(Path(b.1), Path(topic))
  }

  // What deleting a topic leaves of the references: along the path, and below
  // its end, nothing.
  lemma RefsAfterDelete(m: Refs<string>, m': Refs<string>, path: seq<string>, p: seq<string>)
    requires PrefixClosed(m) && path != [] && Removed(m, m', path, 0) && p != []
    ensures RefsAt(m', p) == if Comparable(p, path) then 0 else RefsAt(m, p)
  {
    assert OnPath(path, 0, p) <==> Prefix(p, path);
    if path !in m && Prefix(path, p) {
      assert p !in m;
    }
  }

  // Deleting a topic clears its own bindings, but the tree loses everything below
  // the topic and all references above it.
  lemma DeleteSyncsIff(m: Refs<string>, m': Refs<string>, bag: multiset<Binding>, bag': multiset<Binding>, topic: string)
    requires PrefixClosed(m) && Cleared(bag', bag, topic)
    requires if Path(topic) == [] then m' == m else Removed(m, m', Path(topic), 0)
    ensures Synced(m, bag) ==> (Synced(m', bag') <==> AloneUnderRoot(bag, topic))
  {
    var path := Path(topic);
    if !Synced(m, bag) {
    } else if path == [] {
      forall p | p != []
        ensures RefsAt(m', p) == Weight(bag', Under(p))
      {
        ClearedWeight(bag, bag', topic, p);
      }
    } else if AloneUnderRoot(bag, topic) {
      forall p | p != []
        ensures RefsAt(m', p) == Weight(bag', Under(p))
      {
        RefsAfterDelete(m, m', path, p);
        if Comparable(p, path) {
          NoneLeftUnder(bag, bag', topic, p);
        } else {
          ClearedWeight(bag, bag', topic, p);
        }
      }
    } else {
      var b :| b in bag && b.1 != topic && SameStart(Path(b.1), path);
      var p := [path[0]];
      RefsAfterDelete(m, m', path, p);
      assert b in bag' && Under(p)(b) == 1;
      WeightPositive(bag', Under(p));
      assert RefsAt(m', p) != Weight(bag', Under(p));
    }
  }

  lemma NoneLeftUnder(bag: multiset<Binding>, bag': multiset<Binding>, topic: string, p: seq<string>)
    requires Cleared(bag', bag, topic) && Path(topic) != [] && AloneUnderRoot(bag, topic)
    requires p != [] && Comparable(p, Path(topic))
    ensures Weight(bag', Under(p)) == 0
  {
    FirstSegment(p, Path(topic));
    forall b | b in bag'
      ensures Under(p)(b) == 0
    {
      assert b in bag && b.1 != topic;
    }
    WeightZero(bag', Under(p));
  }

  // ---- Whole runs.

  datatype Op =
    | Subscribe(sid: SessionID, topic: string)
    | Unsubscribe(sid: SessionID, topic: string)
    | DeleteTopic(topic: string)

  // The tree's references next to the registry's bindings.
  datatype Sides = Sides(refs: Refs<string>, bag: multiset<Binding>)

  // What each operation does to the two sides.
  ghost predicate Does(v: Sides, op: Op, v': Sides) {
    match op
    case Subscribe(sid, topic) =>
      Joined(v.refs, v'.refs, Path(topic)) && v'.bag == v.bag + multiset{(sid, topic)}
    case Unsubscribe(sid, topic) =>
      Left(v.refs, v'.refs, Path(topic)) && v'.bag == v.bag - multiset{(sid, topic)}
    case DeleteTopic(topic) =>
      && (if Path(topic) == [] then v'.refs == v.refs else Removed(v.refs, v'.refs, Path(topic), 0))
      && Cleared(v'.bag, v.bag, topic)
  }

  // An unsubscribe of a bound session, or of one whose topic's first segment the
  // tree does not have; a deletion of a topic that shares its first segment with
  // no other bound topic.
  ghost predicate InKeeping(v: Sides, op: Op) {
    match op
    case Subscribe(_, _) => true
    case Unsubscribe(sid, topic) => (sid, topic) in v.bag || Path(topic) == [] || Path(topic)[..1] !in v.refs
    case DeleteTopic(topic) => AloneUnderRoot(v.bag, topic)
  }

  // Below a pruned node there is only what goes with it.
  lemma BelowUnbranched(m: Refs<string>, path: seq<string>, p: seq<string>, q: seq<string>)
    requires q in m && Prefix(p, q) && OnPath(path, 0, p) && Unbranched(m, path, p)
    ensures Prefix(path, q) || (OnPath(path, 0, q) && Unbranched(m, path, q))
  {
    assert Comparable(q, path);
    forall r | r in m && Prefix(q, r)
      ensures Comparable(r, path)
    {
      assert Prefix(p, r);
    }
  }

  lemma RemovedStaysClosed(m: Refs<string>, m': Refs<string>, path: seq<string>)
    requires PrefixClosed(m) && path != [] && Removed(m, m', path, 0)
    ensures PrefixClosed(m')
  {
    if path in m {
      forall p, q | q in m' && Prefix(p, q)
        ensures p in m'
      {
        assert p in m && (Prefix(path, p) ==> Prefix(path, q));
        if OnPath(path, 0, p) && Unbranched(m, path, p) {
          BelowUnbranched(m, path, p, q);
        }
      }
    }
  }

  lemma StaysClosed(v: Sides, op: Op, v': Sides)
    requires PrefixClosed(v.refs) && Does(v, op, v')
    ensures PrefixClosed(v'.refs)
  {
    match op
    case Subscribe(sid, topic) =>
      forall p, q | q in v'.refs && Prefix(p, q)
        ensures p in v'.refs
      {
        assert q in v.refs || Prefix(q, Path(topic));
        assert Prefix(q, Path(topic)) ==> Prefix(p, Path(topic));
      }
    case Unsubscribe(sid, topic) =>
    case DeleteTopic(topic) =>
      if Path(topic) != [] {
        RemovedStaysClosed(v.refs, v'.refs, Path(topic));
      }
  }

  lemma StepSyncsIff(v: Sides, op: Op, v': Sides)
    requires PrefixClosed(v.refs) && Does(v, op, v')
    ensures Synced(v.refs, v.bag) ==> (Synced(v'.refs, v'.bag) <==> InKeeping(v, op))
  {
    hide Synced, PrefixClosed, Joined, Left, Removed, Cleared, AloneUnderRoot, Path;
    match op
    case Subscribe(sid, topic) => JoinKeepsSync(v.refs, v'.refs, v.bag, sid, topic);
    case Unsubscribe(sid, topic) => LeaveSyncsIff(v.refs, v'.refs, v.bag, sid, topic);
    case DeleteTopic(topic) => DeleteSyncsIff(v.refs, v'.refs, v.bag, v'.bag, topic);
  }

  // From the empty registry, after any run of operations that are in keeping,
  // every node's references are the sum of the total bindings of the topics at
  // or below it.
  lemma {:induction false} RunKeepsSync(views: seq<Sides>, ops: seq<Op>)
    requires |views| == |ops| + 1 && views[0] == Sides(map[[] := 0], multiset{})
    requires forall i | 0 <= i < |ops| :: Does(views[i], ops[i], views[i + 1]) && InKeeping(views[i], ops[i])
    ensures var v := views[|ops|];
            && PrefixClosed(v.refs) && Synced(v.refs, v.bag)
            && forall p | p != [] :: RefsAt(v.refs, p) == SumOfCounts(v.bag, TopicsUnder(v.bag, p))
    decreases |ops|
  {
    var v := views[|ops|];
    if ops == [] {
      SyncedAtFirst(v.refs);
    } else {
      var n := |ops| - 1;
      RunKeepsSync(views[..n + 1], ops[..n]);
      assert Does(views[n], ops[n], v) && InKeeping(views[n], ops[n]);
      StaysClosed(views[n], ops[n], v);
      StepSyncsIff(views[n], ops[n], v);
    }
    forall p | p != []
      ensures RefsAt(v.refs, p) == SumOfCounts(v.bag, TopicsUnder(v.bag, p))
    {
      RefsAreSumsOfCounts(v.refs, v.bag, p);
    }
  }

  // ---- Interleaved calls.
  //
  // Subscribe and Unsubscribe change the tree in one locked region and the
  // registry in another; the regions of different calls fall in any order.

  datatype Region =
    | JoinTree(b: Binding)
    | JoinRegistry(b: Binding)
    | LeaveTree(b: Binding)
    | LeaveRegistry(b: Binding)

  // joining and leaving are the bindings of the calls between their two regions.
  datatype Midway = Midway(refs: Refs<string>, bag: multiset<Binding>, joining: multiset<Binding>, leaving: multiset<Binding>)

  ghost predicate Moves(v: Midway, r: Region, v': Midway) {
    match r
    case JoinTree(b) =>
      Joined(v.refs, v'.refs, Path(b.1)) && v' == v.(refs := v'.refs, joining := v.joining + multiset{b})
    case JoinRegistry(b) =>
      b in v.joining && v' == v.(bag := v.bag + multiset{b}, joining := v.joining - multiset{b})
    case LeaveTree(b) =>
      Left(v.refs, v'.refs, Path(b.1)) && v' == v.(refs := v'.refs, leaving := v.leaving + multiset{b})
    case LeaveRegistry(b) =>
      b in v.leaving && v' == v.(bag := v.bag - multiset{b}, leaving := v.leaving - multiset{b})
  }

  // The references are ahead of the registry by the calls that are joining, and
  // behind it by those that are leaving.
  ghost predicate Balanced(v: Midway) {
    forall p | p != [] :: RefsAt(v.refs, p) + Weight(v.leaving, Under(p)) == Weight(v.bag, Under(p)) + Weight(v.joining, Under(p))
  }

  // A leaving call finds the whole path in the tree, and the binding in the registry.
  ghost predicate InStep(v: Midway, r: Region) {
    match r
    case LeaveTree(b) => Path(b.1) == [] || Path(b.1) in v.refs
    case LeaveRegistry(b) => Path(b.1) == [] || b in v.bag
    case _ => true
  }

  lemma JoinTreeBalances(v: Midway, b: Binding, v': Midway)
    requires Balanced(v) && Moves(v, JoinTree(b), v')
    ensures Balanced(v')
  {
    forall p | p != []
      ensures RefsAt(v'.refs, p) == RefsAt(v.refs, p) + Under(p)(b)
      ensures Weight(v'.joining, Under(p)) == Weight(v.joining, Under(p)) + Under(p)(b)
    {
      WeightAdd(v.joining, Under(p), b);
      assert p in v'.refs <==> p in v.refs || Prefix(p, Path(b.1));
    }
  }

  lemma JoinRegistryBalances(v: Midway, b: Binding, v': Midway)
    requires Balanced(v) && Moves(v, JoinRegistry(b), v')
    ensures Balanced(v')
  {
    forall p | p != []
      ensures Weight(v'.bag, Under(p)) == Weight(v.bag, Under(p)) + Under(p)(b)
      ensures Weight(v.joining, Under(p)) == Weight(v'.joining, Under(p)) + Under(p)(b)
    {
      WeightAdd(v.bag, Under(p), b);
      WeightRemove(v.joining, Under(p), b);
    }
  }

  lemma LeaveTreeBalancesIff(v: Midway, b: Binding, v': Midway)
    requires PrefixClosed(v.refs) && Balanced(v) && Moves(v, LeaveTree(b), v')
    ensures Balanced(v') <==> InStep(v, LeaveTree(b))
  {
    var path := Path(b.1);
    forall p | p != []
      ensures RefsAt(v'.refs, p) == RefsAt(v.refs, p) - (if p in v.refs then Under(p)(b) else 0)
      ensures Weight(v'.leaving, Under(p)) == Weight(v.leaving, Under(p)) + Under(p)(b)
    {
      WeightAdd(v.leaving, Under(p), b);
      assert Prefix(p, path) <==> Under(p)(b) == 1;
    }
    if path in v.refs {
      assert forall p | Under(p)(b) == 1 :: Prefix(p, path) && p in v.refs;
    } else if path != [] {
      assert Under(path)(b) == 1;
      assert RefsAt(v'.refs, path) + Weight(v'.leaving, Under(path)) !=
             Weight(v'.bag, Under(path)) + Weight(v'.joining, Under(path));
    }
  }

  lemma LeaveRegistryBalancesIff(v: Midway, b: Binding, v': Midway)
    requires Balanced(v) && Moves(v, LeaveRegistry(b), v')
    ensures Balanced(v') <==> InStep(v, LeaveRegistry(b))
  {
    var path := Path(b.1);
    forall p | p != []
      ensures Weight(v.leaving, Under(p)) == Weight(v'.leaving, Under(p)) + Under(p)(b)
      ensures Weight(v.bag, Under(p)) == Weight(v'.bag, Under(p)) + (if b in v.bag then Under(p)(b) else 0)
    {
      WeightRemove(v.leaving, Under(p), b);
      if b in v.bag {
        WeightRemove(v.bag, Under(p), b);
      } else {
        assert v'.bag == v.bag;
      }
    }
    if b !in v.bag && path != [] {
      assert Under(path)(b) == 1;
      assert RefsAt(v'.refs, path) + Weight(v'.leaving, Under(path)) !=
             Weight(v'.bag, Under(path)) + Weight(v'.joining, Under(path));
    }
  }

  lemma RegionBalancesIff(v: Midway, r: Region, v': Midway)
    requires PrefixClosed(v.refs) && Balanced(v) && Moves(v, r, v')
    ensures PrefixClosed(v'.refs) && (Balanced(v') <==> InStep(v, r))
  {
    hide Balanced, PrefixClosed, InStep;
    match r
    case JoinTree(b) =>
      JoinTreeBalances(v, b, v');
      StaysClosed(Sides(v.refs, v.bag), Subscribe(b.0, b.1), Sides(v'.refs, v.bag + multiset{b}));
      assert InStep(v, r) by { JoinsAreInStep(v, r); }
    case JoinRegistry(b) =>
      JoinRegistryBalances(v, b, v');
      assert InStep(v, r) by { JoinsAreInStep(v, r); }
    case LeaveTree(b) =>
      LeaveTreeBalancesIff(v, b, v');
      StaysClosed(Sides(v.refs, v.bag), Unsubscribe(b.0, b.1), Sides(v'.refs, v.bag - multiset{b}));
    case LeaveRegistry(b) => LeaveRegistryBalancesIff(v, b, v');
  }

  lemma JoinsAreInStep(v: Midway, r: Region)
    requires r.JoinTree? || r.JoinRegistry?
    ensures InStep(v, r)
  {
  }

  ghost predicate IsRun(views: seq<Midway>, regions: seq<Region>) {
    && |views| == |regions| + 1
    && views[0] == Midway(map[[] := 0], multiset{}, multiset{}, multiset{})
    && forall i | 0 <= i < |regions| :: Moves(views[i], regions[i], views[i + 1])
  }

  lemma RunPrefix(views: seq<Midway>, regions: seq<Region>)
    requires IsRun(views, regions) && regions != []
    ensures IsRun(views[..|views| - 1], regions[..|regions| - 1])
  {
  }

  lemma {:induction false} InterleavedRunBalances(views: seq<Midway>, regions: seq<Region>)
    requires IsRun(views, regions) && forall i | 0 <= i < |regions| :: InStep(views[i], regions[i])
    ensures PrefixClosed(views[|regions|].refs) && Balanced(views[|regions|])
    decreases |regions|
  {
    if regions == [] {
      SyncedAtFirst(views[0].refs);
    } else {
      var n := |regions| - 1;
      RunPrefix(views, regions);
      InterleavedRunBalances(views[..n + 1], regions[..n]);
      RegionBalancesIff(views[n], regions[n], views[n + 1]);
    }
  }

  // After any interleaving of subscribes and unsubscribes whose regions are in
  // step, the tree and the registry agree as soon as no call is under way.
  lemma QuietRunIsSynced(views: seq<Midway>, regions: seq<Region>)
    requires IsRun(views, regions) && forall i | 0 <= i < |regions| :: InStep(views[i], regions[i])
    requires views[|regions|].joining == views[|regions|].leaving == multiset{}
    ensures var v := views[|regions|];
            && Synced(v.refs, v.bag)
            && forall p | p != [] :: RefsAt(v.refs, p) == SumOfCounts(v.bag, TopicsUnder(v.bag, p))
  {
    InterleavedRunBalances(views, regions);
    var v := views[|regions|];
    assert Synced(v.refs, v.bag) by {
      hide IsRun, InStep, PrefixClosed;
    }
    forall p | p != []
      ensures RefsAt(v.refs, p) == SumOfCounts(v.bag, TopicsUnder(v.bag, p))
    {
      RefsAreSumsOfCounts(v.refs, v.bag, p);
    }
  }

  // What a caller can see to: an unsubscribe begins only when the session has more
  // bindings to the topic than unsubscribes of it are under way.
  ghost predicate ToSpare(v: Midway, r: Region) {
    r.LeaveTree? ==> v.leaving[r.b] < v.bag[r.b]
  }

  lemma {:induction false} WeightUnion(a: multiset<Binding>, b: multiset<Binding>, f: Binding -> nat)
    ensures Weight(a + b, f) == Weight(a, f) + Weight(b, f)
    decreases |b|
  {
    if b == multiset{} {
      assert a + b == a;
    } else {
      var x :| x in b;
      WeightRemove(b, f, x);
      WeightRemove(a + b, f, x);
      WeightUnion(a, b - multiset{x}, f);
      assert a + b - multiset{x} == a + (b - multiset{x});
    }
  }

  lemma SpareIsInStep(v: Midway, r: Region)
    requires Balanced(v) && v.leaving <= v.bag && ToSpare(v, r) && (r.LeaveRegistry? ==> r.b in v.leaving)
    ensures InStep(v, r)
  {
    if r.LeaveTree? && Path(r.b.1) != [] {
      var f := Under(Path(r.b.1));
      WeightAdd(v.leaving, f, r.b);
      var rest := v.bag - (v.leaving + multiset{r.b});
      assert (v.leaving + multiset{r.b}) + rest == v.bag;
      WeightUnion(v.leaving + multiset{r.b}, rest, f);
      assert RefsAt(v.refs, Path(r.b.1)) >= 1;
    }
  }

  lemma MoveKeepsSpare(v: Midway, r: Region, v': Midway)
    requires Moves(v, r, v') && v.leaving <= v.bag && ToSpare(v, r)
    ensures v'.leaving <= v'.bag
  {
    hide Joined, Left;
  }

  // Runs of callers that see to it are in step throughout, in any interleaving.
  lemma {:induction false} SpareRunIsInStep(views: seq<Midway>, regions: seq<Region>)
    requires IsRun(views, regions) && forall i | 0 <= i < |regions| :: ToSpare(views[i], regions[i])
    ensures views[|regions|].leaving <= views[|regions|].bag
    ensures forall i | 0 <= i < |regions| :: InStep(views[i], regions[i])
    decreases |regions|
  {
    hide Moves, InStep, ToSpare, Balanced, PrefixClosed;
    if regions != [] {
      var n := |regions| - 1;
      var views', regions' := views[..n + 1], regions[..n];
      RunPrefix(views, regions);
      forall i | 0 <= i < n
        ensures ToSpare(views'[i], regions'[i])
      {
        assert ToSpare(views[i], regions[i]);
      }
      SpareRunIsInStep(views', regions');
      InterleavedRunBalances(views', regions');
      LeavingRegistryLeaves(views[n], regions[n], views[n + 1]);
      SpareIsInStep(views[n], regions[n]);
      MoveKeepsSpare(views[n], regions[n], views[n + 1]);
      forall i | 0 <= i < |regions|
        ensures InStep(views[i], regions[i])
      {
        assert i < n ==> InStep(views'[i], regions'[i]);
      }
    }
  }

  lemma LeavingRegistryLeaves(v: Midway, r: Region, v': Midway)
    requires Moves(v, r, v')
    ensures r.LeaveRegistry? ==> r.b in v.leaving
  {
  }

  // A topic without an entry has version 0.
  function VersionIn(versions: map<string, nat>, topic: string): nat {
    if topic in versions then versions[topic] else 0
  }

  class TopicRegistry {
    const reg: Registry
    const tree: Tree<string>
    var versions: map<string, nat>

    ghost predicate Valid()
      reads this, reg, reg.refs, tree, tree.repr
    {
      reg.Valid() && tree.Valid()
    }

    ghost function View(): Sides
      requires Valid()
      reads this, reg, reg.refs, tree, tree.repr
    {
      Sides(tree.Counts(), reg.Bag())
    }

    ghost predicate InSync()
      requires Valid()
      reads this, reg, reg.refs, tree, tree.repr
    {
      Synced(View().refs, View().bag)
    }

    constructor ()
      ensures Valid() && InSync() && versions == map[]
      ensures fresh(reg) && fresh(reg.refs) && fresh(tree) && fresh(tree.repr)
    {
      hide Tree.Valid, Registry.Valid, Synced, Tree.Counts;
      reg := new Registry();
      tree := new Tree();
      new;
      SyncedAtFirst(tree.Counts());
      versions := map[];
    }

    method Bump(topic: string)
      modifies this`versions
      ensures versions == old(versions)[topic := old(VersionOf(topic)) + 1]
    {
      versions := versions[topic := (if topic in versions then versions[topic] else 0) + 1];
    }

    function VersionOf(topic: string): nat
      reads this`versions
    {
      VersionIn(versions, topic)
    }

    lemma Closed()
      requires Valid()
      ensures PrefixClosed(tree.Counts())
    {
      forall p, q | q in tree.Counts() && Prefix(p, q)
        ensures p in tree.Counts()
      {
        ClosedUnderPrefix(tree.root, tree.nodes, tree.Children(), p, q);
      }
    }

    method Subscribe(sid: SessionID, topic: string)
      requires Valid()
      modifies this`versions, reg, reg.refs, tree, tree.repr
      ensures Valid() && fresh(tree.repr - old(tree.repr))
      ensures Does(old(View()), Op.Subscribe(sid, topic), View())
      ensures versions == old(versions)[topic := old(VersionOf(topic)) + 1]
      ensures old(InSync()) ==> InSync()
    {
      hide Tree.Valid, Registry.Valid, Synced, Joined, Path, Tree.Counts;
      ghost var m, bag := tree.Counts(), reg.Bag();
      var parts := Segments(topic);
      tree.Join(parts);
      assert reg.Valid() && reg.Bag() == bag;
      reg.Join(sid, topic);
      assert tree.Valid() && Joined(m, tree.Counts(), Path(topic));
      Bump(topic);
      assert reg.Valid() && tree.Valid();
      JoinKeepsSync(m, tree.Counts(), bag, sid, topic);
    }

    method Unsubscribe(sid: SessionID, topic: string)
      requires Valid()
      modifies this`versions, reg, reg.refs, tree.repr
      ensures Valid()
      ensures Does(old(View()), Op.Unsubscribe(sid, topic), View())
      ensures versions == old(versions)[topic := old(VersionOf(topic)) + 1]
      ensures old(InSync()) ==> (InSync() <==> InKeeping(old(View()), Op.Unsubscribe(sid, topic)))
    {
      hide Tree.Valid, Registry.Valid, Synced, Left, Path, Tree.Counts, PrefixClosed;
      ghost var m, bag := tree.Counts(), reg.Bag();
      Closed();
      var parts := Segments(topic);
      tree.Leave(parts);
      reg.Leave(sid, topic);
      Bump(topic);
      LeaveSyncsIff(m, tree.Counts(), bag, sid, topic);
    }

    method DeleteTopic(topic: string)
      requires Valid()
      modifies this`versions, reg, reg.refs, tree`nodes, tree.repr
      ensures Valid()
      ensures Does(old(View()), Op.DeleteTopic(topic), View())
      ensures versions == old(versions) - {topic}
      ensures old(InSync()) ==> (InSync() <==> InKeeping(old(View()), Op.DeleteTopic(topic)))
    {
      hide Tree.Valid, Registry.Valid, Synced, Removed, Path, Tree.Counts, PrefixClosed, Cleared, AloneUnderRoot;
      ghost var m, bag := tree.Counts(), reg.Bag();
      Closed();
      var parts := Segments(topic);
      tree.Delete(parts);
      reg.ClearTopic(topic);
      if topic in versions {
        versions := versions[topic := versions[topic] + 1];
        versions := versions - {topic};
      }
      DeleteSyncsIff(m, tree.Counts(), bag, reg.Bag(), topic);
    }

    method Version(topic: string) returns (v: nat)
      ensures v == VersionOf(topic)
    {
      v := if topic in versions then versions[topic] else 0;
    }

    method Subscribers(topic: string) returns (out: seq<SessionID>)
      requires Valid()
      ensures NoDuplicates(out) && forall sid :: sid in out <==> (sid, topic) in reg.Bag()
    {
      out := reg.Subscribers(topic);
    }
  }
}
