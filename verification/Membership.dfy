// Which sessions are bound to which topics: the reference counts and the two
// inverse membership maps, all describing one multiset of bindings.
module Membership {
  import opened Types

  type Binding = (SessionID, string)

  // How much a multiset of bindings weighs when binding b weighs f(b).
  ghost function Weight(bag: multiset<Binding>, f: Binding -> nat): nat
    decreases |bag|
  {
    if bag == multiset{} then 0
    else var b :| b in bag; f(b) + Weight(bag - multiset{b}, f)
  }

  lemma {:induction false} WeightRemove(bag: multiset<Binding>, f: Binding -> nat, b: Binding)
    requires b in bag
    ensures Weight(bag, f) == f(b) + Weight(bag - multiset{b}, f)
    decreases |bag|
  {
    var c :| c in bag && Weight(bag, f) == f(c) + Weight(bag - multiset{c}, f);
    if c != b {
      WeightRemove(bag - multiset{c}, f, b);
      WeightRemove(bag - multiset{b}, f, c);
      assert bag - multiset{c} - multiset{b} == bag - multiset{b} - multiset{c};
    }
  }

  lemma WeightAdd(bag: multiset<Binding>, f: Binding -> nat, b: Binding)
    ensures Weight(bag + multiset{b}, f) == Weight(bag, f) + f(b)
  {
    WeightRemove(bag + multiset{b}, f, b);
    assert bag + multiset{b} - multiset{b} == bag;
  }

  // All copies of one binding at once.
  lemma {:induction false} WeightDrop(bag: multiset<Binding>, f: Binding -> nat, b: Binding)
    ensures Weight(bag, f) == bag[b] * f(b) + Weight(bag[b := 0], f)
    decreases bag[b]
  {
    if bag[b] == 0 {
      assert bag[b := 0] == bag;
    } else {
      WeightRemove(bag, f, b);
      WeightDrop(bag - multiset{b}, f, b);
      assert (bag - multiset{b})[b := 0] == bag[b := 0];
      assert bag[b] * f(b) == f(b) + (bag[b] - 1) * f(b);
    }
  }

  lemma {:induction false} WeightZero(bag: multiset<Binding>, f: Binding -> nat)
    requires forall b | b in bag :: f(b) == 0
    ensures Weight(bag, f) == 0
    decreases |bag|
  {
    if bag != multiset{} {
      var c :| c in bag && Weight(bag, f) == f(c) + Weight(bag - multiset{c}, f);
      WeightZero(bag - multiset{c}, f);
    }
  }

  function OnTopic(topic: string): Binding -> nat {
    (b: Binding) => if b.1 == topic then 1 else 0
  }

  // The total bindings of a topic, with multiplicity.
  ghost function TopicCount(bag: multiset<Binding>, topic: string): nat {
    Weight(bag, OnTopic(topic))
  }

  function CountOf(byTopic: map<string, map<SessionID, nat>>, topic: string, sid: SessionID): nat {
    if topic in byTopic && sid in byTopic[topic] then byTopic[topic][sid] else 0
  }

  // The bag without the bindings of one topic.
  ghost predicate Cleared(bag: multiset<Binding>, was: multiset<Binding>, topic: string) {
    forall b: Binding :: bag[b] == if b.1 == topic then 0 else was[b]
  }

  class RefCounter {
    var byTopic: map<string, map<SessionID, nat>>
    ghost var bag: multiset<Binding>

    ghost predicate Valid()
      reads this
    {
      && (forall topic, sid :: CountOf(byTopic, topic, sid) == bag[(sid, topic)])
      && (forall topic, sid | topic in byTopic && sid in byTopic[topic] :: byTopic[topic][sid] >= 1)
    }

    constructor ()
      ensures Valid() && bag == multiset{}
    {
      byTopic := map[];
      bag := multiset{};
    }

    method Add(topic: string, sid: SessionID)
      requires Valid()
      modifies this
      ensures Valid() && bag == old(bag) + multiset{(sid, topic)}
    {
      if topic !in byTopic {
        byTopic := byTopic[topic := map[]];
      }
      var n := if sid in byTopic[topic] then byTopic[topic][sid] else 0;
      byTopic := byTopic[topic := byTopic[topic][sid := n + 1]];
      bag := bag + multiset{(sid, topic)};
    }

    method Sub(topic: string, sid: SessionID)
      requires Valid()
      modifies this
      ensures Valid() && bag == old(bag) - multiset{(sid, topic)}
    {
      if topic !in byTopic {
        assert CountOf(byTopic, topic, sid) == 0;
        return;
      }
      assert CountOf(byTopic, topic, sid) == bag[(sid, topic)];
      bag := bag - multiset{(sid, topic)};
      if sid !in byTopic[topic] || byTopic[topic][sid] <= 1 {
        byTopic := byTopic[topic := byTopic[topic] - {sid}];
        return;
      }
      byTopic := byTopic[topic := byTopic[topic][sid := byTopic[topic][sid] - 1]];
    }

    method Count(topic: string, sid: SessionID) returns (n: nat)
      requires Valid()
      ensures n == bag[(sid, topic)]
    {
      n := if topic in byTopic && sid in byTopic[topic] then byTopic[topic][sid] else 0;
      assert n == CountOf(byTopic, topic, sid);
    }

    method Sum(topic: string) returns (total: nat)
      requires Valid()
      ensures total == TopicCount(bag, topic)
    {
      total := 0;
      var counts := if topic in byTopic then byTopic[topic] else map[];
      var keys := counts.Keys;
      ghost var rest := bag;
      while keys != {}
        invariant keys <= counts.Keys
        invariant forall sid :: rest[(sid, topic)] == if sid in keys then counts[sid] else 0
        invariant total + Weight(rest, OnTopic(topic)) == TopicCount(bag, topic)
        decreases keys
      {
        var sid :| sid in keys;
        WeightDrop(rest, OnTopic(topic), (sid, topic));
        total := total + counts[sid];
        rest := rest[(sid, topic) := 0];
        keys := keys - {sid};
      }
      WeightZero(rest, OnTopic(topic));
    }

    method Clear(topic: string)
      requires Valid()
      modifies this
      ensures Valid() && Cleared(bag, old(bag), topic)
    {
      ghost var counts := if topic in byTopic then byTopic[topic] else map[];
      ghost var keys := counts.Keys;
      while keys != {}
        invariant forall b: Binding :: bag[b] == if b.1 == topic && b.0 !in keys then 0 else old(bag)[b]
        decreases keys
      {
        ghost var sid :| sid in keys;
        bag := bag[(sid, topic) := 0];
        keys := keys - {sid};
      }
      byTopic := byTopic - {topic};
    }
  }

  // The sessions a topic maps to, or the topics a session maps to.
  function Inner<K, V>(m: map<K, set<V>>, k: K): set<V> {
    if k in m then m[k] else {}
  }

  // Both maps are the support of the bag.
  ghost predicate Support(byTopic: map<string, set<SessionID>>, bySession: map<SessionID, set<string>>,
                          bag: multiset<Binding>) {
    forall topic, sid ::
      && (sid in Inner(byTopic, topic) <==> (sid, topic) in bag)
      && (topic in Inner(bySession, sid) <==> (sid, topic) in bag)
  }

  lemma SupportAfterJoin(byTopic: map<string, set<SessionID>>, bySession: map<SessionID, set<string>>,
                         bag: multiset<Binding>, sid: SessionID, topic: string)
    requires Support(byTopic, bySession, bag)
    ensures Support(byTopic[topic := Inner(byTopic, topic) + {sid}],
                    bySession[sid := Inner(bySession, sid) + {topic}],
                    bag + multiset{(sid, topic)})
  {
  }

  lemma SupportAfterLeave(byTopic: map<string, set<SessionID>>, bySession: map<SessionID, set<string>>,
                          bag: multiset<Binding>, sid: SessionID, topic: string,
                          byTopic': map<string, set<SessionID>>, bySession': map<SessionID, set<string>>)
    requires Support(byTopic, bySession, bag)
    requires forall t ::
               Inner(byTopic', t) ==
               if t == topic && bag[(sid, topic)] <= 1 then Inner(byTopic, t) - {sid} else Inner(byTopic, t)
    requires forall u ::
               Inner(bySession', u) ==
               if u == sid && bag[(sid, topic)] <= 1 then Inner(bySession, u) - {topic} else Inner(bySession, u)
    ensures Support(byTopic', bySession', bag - multiset{(sid, topic)})
  {
  }

  lemma SupportAfterClear(byTopic: map<string, set<SessionID>>, bySession: map<SessionID, set<string>>,
                          bag: multiset<Binding>, topic: string,
                          bySession': map<SessionID, set<string>>, bag': multiset<Binding>)
    requires Support(byTopic, bySession, bag) && Cleared(bag', bag, topic)
    requires forall u ::
               Inner(bySession', u) ==
               if u in Inner(byTopic, topic) then Inner(bySession, u) - {topic} else Inner(bySession, u)
    ensures Support(byTopic - {topic}, bySession', bag')
  {
    forall t, u
      ensures u in Inner(byTopic - {topic}, t) <==> (u, t) in bag'
      ensures t in Inner(bySession', u) <==> (u, t) in bag'
    {
      assert bag'[(u, t)] == if t == topic then 0 else bag[(u, t)];
    }
  }

  class Registry {
    const refs: RefCounter
    var byTopic: map<string, set<SessionID>>
    var bySession: map<SessionID, set<string>>

    ghost predicate Valid()
      reads this, refs
    {
      refs.Valid() && Support(byTopic, bySession, refs.bag)
    }

    ghost function Bag(): multiset<Binding>
      reads this, refs
    {
      refs.bag
    }

    constructor ()
      ensures Valid() && fresh(refs) && Bag() == multiset{}
    {
      refs := new RefCounter();
      byTopic, bySession := map[], map[];
    }

    method Join(sid: SessionID, topic: string)
      requires Valid()
      modifies this, refs
      ensures Valid() && Bag() == old(Bag()) + multiset{(sid, topic)}
    {
      hide RefCounter.Valid, Support;
      SupportAfterJoin(byTopic, bySession, refs.bag, sid, topic);
      ghost var topics, sessions := byTopic, bySession;
      refs.Add(topic, sid);
      if topic !in byTopic {
        byTopic := byTopic[topic := {}];
      }
      byTopic := byTopic[topic := byTopic[topic] + {sid}];
      if sid !in bySession {
        bySession := bySession[sid := {}];
      }
      bySession := bySession[sid := bySession[sid] + {topic}];
      assert byTopic == topics[topic := Inner(topics, topic) + {sid}];
      assert bySession == sessions[sid := Inner(sessions, sid) + {topic}];
    }

    method Leave(sid: SessionID, topic: string)
      requires Valid()
      modifies this, refs
      ensures Valid() && Bag() == old(Bag()) - multiset{(sid, topic)}
    {
      hide RefCounter.Valid, Support;
      ghost var topics, sessions, was := byTopic, bySession, refs.bag;
      refs.Sub(topic, sid);
      var n := refs.Count(topic, sid);
      if n == 0 {
        if topic in byTopic {
          byTopic := byTopic[topic := byTopic[topic] - {sid}];
        }
        if sid in bySession {
          bySession := bySession[sid := bySession[sid] - {topic}];
        }
      }
      SupportAfterLeave(topics, sessions, was, sid, topic, byTopic, bySession);
    }

    method ClearTopic(topic: string)
      requires Valid()
      modifies this, refs
      ensures Valid() && Cleared(Bag(), old(Bag()), topic)
    {
      hide RefCounter.Valid, Support;
      var sids := if topic in byTopic then byTopic[topic] else {};
      ghost var all, topics, sessions, was := sids, byTopic, bySession, refs.bag;
      while sids != {}
        modifies this`bySession
        invariant sids <= all
        invariant forall u ::
                    Inner(bySession, u) ==
                    if u in all - sids then Inner(sessions, u) - {topic} else Inner(sessions, u)
        decreases sids
      {
        var sid :| sid in sids;
        if sid in bySession {
          bySession := bySession[sid := bySession[sid] - {topic}];
          if bySession[sid] == {} {
            bySession := bySession - {sid};
          }
        }
        sids := sids - {sid};
      }
      byTopic := byTopic - {topic};
      refs.Clear(topic);
      SupportAfterClear(topics, sessions, was, topic, bySession, refs.bag);
    }

    method Has(sid: SessionID, topic: string) returns (bound: bool)
      requires Valid()
      ensures bound <==> (sid, topic) in Bag()
    {
      bound := topic in byTopic && sid in byTopic[topic];
      assert bound == (sid in Inner(byTopic, topic));
    }

    method Count(topic: string) returns (n: nat)
      requires Valid()
      ensures n == TopicCount(Bag(), topic)
    {
      n := refs.Sum(topic);
    }

    // The bound sessions, each once, in whatever order the map gives them.
    method Subscribers(topic: string) returns (out: seq<SessionID>)
      requires Valid()
      ensures NoDuplicates(out)
      ensures forall sid :: sid in out <==> (sid, topic) in Bag()
    {
      out := [];
      var todo := if topic in byTopic then byTopic[topic] else {};
      while todo != {}
        invariant NoDuplicates(out)
        invariant forall sid :: sid in out || sid in todo <==> sid in Inner(byTopic, topic)
        invariant forall sid | sid in out :: sid !in todo
        decreases todo
      {
        var sid :| sid in todo;
        out := out + [sid];
        todo := todo - {sid};
      }
    }
  }
}
