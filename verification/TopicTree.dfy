// The topic tree: a trie of heap nodes, each with a reference count.
//
// The tree keeps, as ghost state, which node every path leads to.  Its abstract
// value is the map from the paths that exist to their reference counts.
module TopicTree {

  type Refs<K(==)> = map<seq<K>, int>

  ghost predicate Prefix<K>(p: seq<K>, q: seq<K>) {
    p <= q
  }

  // ---- What each operation does to the counts.

  // Every node on the path exists afterwards and has one reference more.
  ghost predicate Joined<K(!new)>(m: Refs<K>, m': Refs<K>, path: seq<K>) {
    && (forall p :: p in m' <==> p in m || Prefix(p, path))
    && (forall p | p in m' :: m'[p] == (if p in m then m[p] else 0) + (if p != [] && Prefix(p, path) then 1 else 0))
  }

  // Every node on the path that exists has one reference less.
  ghost predicate Left<K>(m: Refs<K>, m': Refs<K>, path: seq<K>) {
    && m'.Keys == m.Keys
    && (forall p | p in m :: m'[p] == m[p] - (if p != [] && Prefix(p, path) then 1 else 0))
  }

  ghost predicate Comparable<K>(p: seq<K>, q: seq<K>) {
    Prefix(p, q) || Prefix(q, p)
  }

  // Nothing branches off the path at p or below it.
  ghost predicate Unbranched<K>(m: Refs<K>, path: seq<K>, p: seq<K>) {
    forall q | q in m && Prefix(p, q) :: Comparable(q, path)
  }

  // The nodes of the path that lie deeper than depth.
  ghost predicate OnPath<K>(path: seq<K>, depth: nat, p: seq<K>) {
    depth < |p| && Prefix(p, path)
  }

  // The subtree at the path is gone, its ancestors deeper than depth have no
  // references, and those from which nothing else branches off are gone too.
  ghost predicate Removed<K(!new)>(m: Refs<K>, m': Refs<K>, path: seq<K>, depth: nat) {
    if path in m then
      && (forall p :: p in m' <==> p in m && !Prefix(path, p) && !(OnPath(path, depth, p) && Unbranched(m, path, p)))
      && (forall p | p in m' :: m'[p] == if OnPath(path, depth, p) then 0 else m[p])
    else
      && m'.Keys == m.Keys
      && (forall p | p in m :: m'[p] == if OnPath(path, depth, p) then 0 else m[p])
  }

  lemma PrefixStep<K(!new)>(path: seq<K>, i: nat)
    requires i < |path|
    ensures forall p :: Prefix(p, path[..i + 1]) <==> Prefix(p, path[..i]) || p == path[..i + 1]
  {
    forall p
      ensures Prefix(p, path[..i + 1]) <==> Prefix(p, path[..i]) || p == path[..i + 1]
    {
      if p <= path[..i + 1] && |p| <= i {
        assert p == path[..i + 1][..|p|] == path[..i][..|p|];
      }
      if p <= path[..i] {
        assert p == path[..i][..|p|] == path[..i + 1][..|p|];
      }
    }
  }

  lemma NextSlice<K>(path: seq<K>, i: nat)
    requires i < |path|
    ensures path[..i] + [path[i]] == path[..i + 1]
  {
  }

  lemma JoinedNothing<K(!new)>(m: Refs<K>, path: seq<K>)
    requires [] in m
    ensures Joined(m, m, path[..0])
  {
    forall p: seq<K>
      ensures Prefix(p, path[..0]) <==> p == []
    {
    }
  }

  lemma LeftNothing<K(!new)>(m: Refs<K>, path: seq<K>)
    ensures Left(m, m, path[..0])
  {
  }

  lemma PrefixSplit<K>(path: seq<K>, i: nat, p: seq<K>)
    requires i < |path|
    ensures Prefix(p, path) ==> Prefix(p, path[..i]) || Prefix(path[..i + 1], p)
    ensures Prefix(p, path[..i]) ==> Prefix(p, path)
  {
    if p <= path {
      assert p == path[..|p|];
      if |p| <= i {
        assert path[..|p|] == path[..i][..|p|];
      } else {
        assert path[..i + 1] == path[..|p|][..i + 1];
      }
    }
    if p <= path[..i] {
      assert p == path[..i][..|p|] == path[..|p|];
    }
  }

  // A path that breaks off: below the break there is nothing to count down.
  lemma LeftCutShort<K(!new)>(m: Refs<K>, m1: Refs<K>, path: seq<K>, i: nat)
    requires i < |path| && Left(m, m1, path[..i])
    requires forall p | p in m1 :: !Prefix(path[..i + 1], p)
    ensures Left(m, m1, path)
  {
    forall p | p in m
      ensures Prefix(p, path) <==> Prefix(p, path[..i])
    {
      PrefixSplit(path, i, p);
    }
  }

  // One reference more for one path, which exists afterwards.
  function Entered<K(==)>(m: Refs<K>, p: seq<K>): Refs<K> {
    m[p := (if p in m then m[p] else 0) + 1]
  }

  lemma EnteredTwice<K(!new)>(m: Refs<K>, p: seq<K>)
    ensures p !in m ==> m[p := 0][p := 1] == Entered(m, p)
  {
  }

  lemma JoinedStep<K(!new)>(m: Refs<K>, m1: Refs<K>, path: seq<K>, i: nat)
    requires i < |path| && Joined(m, m1, path[..i])
    ensures Joined(m, Entered(m1, path[..i + 1]), path[..i + 1])
  {
    PrefixStep(path, i);
    hide Prefix;
  }

  lemma LeftStep<K(!new)>(m: Refs<K>, m1: Refs<K>, m2: Refs<K>, path: seq<K>, i: nat)
    requires i < |path| && Left(m, m1, path[..i]) && path[..i + 1] in m1
    requires m2 == m1[path[..i + 1] := m1[path[..i + 1]] - 1]
    ensures Left(m, m2, path[..i + 1])
  {
    PrefixStep(path, i);
    hide Prefix;
  }

  lemma OnPathStep<K(!new)>(path: seq<K>, depth: nat)
    requires depth < |path|
    ensures forall p :: OnPath(path, depth, p) <==> OnPath(path, depth + 1, p) || p == path[..depth + 1]
  {
    forall p
      ensures OnPath(path, depth, p) <==> OnPath(path, depth + 1, p) || p == path[..depth + 1]
    {
      if OnPath(path, depth, p) && |p| == depth + 1 {
        assert p == path[..|p|];
      }
    }
  }

  lemma OnPathBelow<K(!new)>(path: seq<K>, depth: nat)
    requires depth < |path|
    ensures forall p | OnPath(path, depth, p) :: Prefix(path[..depth + 1], p)
    ensures Prefix(path[..depth + 1], path)
  {
    forall p | OnPath(path, depth, p)
      ensures Prefix(path[..depth + 1], p)
    {
      assert p == path[..|p|] && path[..depth + 1] == p[..depth + 1];
    }
  }

  lemma RemovedNothing<K(!new)>(m: Refs<K>, path: seq<K>, depth: nat)
    requires depth < |path| && forall p | p in m :: !Prefix(path[..depth + 1], p)
    ensures path !in m && Removed(m, m, path, depth)
  {
    OnPathBelow(path, depth);
  }

  // The node of the whole path is cut off with everything below it.
  lemma RemovedLeaf<K(!new)>(m: Refs<K>, path: seq<K>)
    requires path in m && path != []
    ensures Removed(m, Cut(m[path := 0], path), path, |path| - 1)
  {
    var last := |path| - 1;
    assert forall p | OnPath(path, last, p) :: p == path;
  }

  // An ancestor that stays is left without references.
  lemma RemovedKept<K(!new)>(m: Refs<K>, m1: Refs<K>, path: seq<K>, depth: nat)
    requires depth + 1 < |path| && path[..depth + 1] in m && Removed(m, m1, path, depth + 1)
    requires path in m ==> !Unbranched(m, path, path[..depth + 1])
    ensures path[..depth + 1] in m1 && Removed(m, m1[path[..depth + 1] := 0], path, depth)
  {
    OnPathStep(path, depth);
  }

  // Below a node from which nothing branches off, the removal leaves nothing.
  lemma NothingBelow<K(!new)>(m: Refs<K>, m1: Refs<K>, path: seq<K>, depth: nat, p: seq<K>)
    requires depth + 1 < |path| && path in m && Removed(m, m1, path, depth + 1)
    requires Unbranched(m, path, path[..depth + 1]) && p in m1 && path[..depth + 1] <= p
    ensures p == path[..depth + 1]
  {
    assert Comparable(p, path);
    assert Unbranched(m, path, p) by {
      forall q | q in m && Prefix(p, q)
        ensures Comparable(q, path)
      {
        assert Prefix(path[..depth + 1], q);
      }
    }
    assert !OnPath(path, depth + 1, p);
  }

  // An ancestor from which nothing else branches off goes too.
  lemma RemovedPruned<K(!new)>(m: Refs<K>, m1: Refs<K>, path: seq<K>, depth: nat)
    requires depth + 1 < |path| && path in m && path[..depth + 1] in m && Removed(m, m1, path, depth + 1)
    requires Unbranched(m, path, path[..depth + 1])
    ensures path[..depth + 1] in m1 && Removed(m, Cut(m1[path[..depth + 1] := 0], path[..depth + 1]), path, depth)
  {
    var to := path[..depth + 1];
    OnPathStep(path, depth);
    OnPathBelow(path, depth);
    forall p | p in m1 && to <= p
      ensures p == to
    {
      NothingBelow(m, m1, path, depth, p);
    }
  }

  // Unwinding by one level: the ancestor loses its references, and goes with the
  // removed subtree if nothing else branches off there.
  lemma RemovedStep<K(!new)>(m: Refs<K>, m1: Refs<K>, path: seq<K>, depth: nat, removed: bool)
    requires depth + 1 < |path| && path[..depth + 1] in m && Removed(m, m1, path, depth + 1)
    requires removed <==> path in m
    ensures path[..depth + 1] in m1
    ensures var to := path[..depth + 1];
            Removed(m, if removed && Unbranched(m, path, to) then Cut(m1[to := 0], to) else m1[to := 0], path, depth)
  {
    if removed && Unbranched(m, path, path[..depth + 1]) {
      RemovedPruned(m, m1, path, depth);
    } else {
      RemovedKept(m, m1, path, depth);
    }
  }

  // ---- The shape of the heap: which node a path leads to, and its children.

  type Nodes<K(==,!new)> = map<seq<K>, Node<K>>
  type Kids<K(==,!new)> = map<seq<K>, map<K, Node<K>>>

  // Different paths lead to different nodes; a path exists iff its parent has
  // the last segment among its children, and that child is the path's node.
  ghost predicate Shape<K(!new)>(root: Node<K>, nodes: Nodes<K>, kids: Kids<K>) {
    && kids.Keys == nodes.Keys
    && [] in nodes && nodes[[]] == root
    && (forall p, q | p in nodes && q in nodes && nodes[p] == nodes[q] :: p == q)
    && (forall p, k | p in nodes :: k in kids[p] <==> p + [k] in nodes)
    && (forall p, k | p in nodes && k in kids[p] :: kids[p][k] == nodes[p + [k]])
    && (forall p, k | p + [k] in nodes :: p in nodes)
  }

  lemma SnocInjective<K(!new)>(p: seq<K>, k: K)
    ensures forall q, j :: q + [j] == p + [k] <==> q == p && j == k
    ensures forall j :: p + [k] != p + [k] + [j]
  {
    forall q, j | q + [j] == p + [k]
      ensures q == p && j == k
    {
      assert q == (q + [j])[..|q|] && j == (q + [j])[|q|];
      assert |q| == |p|;
    }
    forall j
      ensures p + [k] != p + [k] + [j]
    {
      assert |p + [k]| != |p + [k] + [j]|;
    }
  }

  lemma ShapeAddChild<K(!new)>(root: Node<K>, nodes: Nodes<K>, kids: Kids<K>, p: seq<K>, k: K, child: Node<K>)
    requires Shape(root, nodes, kids) && p in nodes && k !in kids[p]
    requires forall q | q in nodes :: nodes[q] != child
    ensures Shape(root, nodes[p + [k] := child], kids[p := kids[p][k := child]][p + [k] := map[]])
  {
    var to := p + [k];
    var nodes', kids' := nodes[to := child], kids[p := kids[p][k := child]][to := map[]];
    SnocInjective(p, k);
    assert to !in nodes;
    assert forall j :: to + [j] !in nodes;
    forall q, j | q in nodes'
      ensures j in kids'[q] <==> q + [j] in nodes'
      ensures j in kids'[q] ==> kids'[q][j] == nodes'[q + [j]]
    {
      if q == to {
        assert to + [j] !in nodes';
      }
    }
    forall q, j | q + [j] in nodes'
      ensures q in nodes'
    {
    }
  }

  lemma ShapeAt<K(!new)>(root: Node<K>, nodes: Nodes<K>, kids: Kids<K>, p: seq<K>)
    requires Shape(root, nodes, kids) && p in nodes
    ensures forall q | q in nodes && nodes[q] == nodes[p] :: q == p
  {
  }

  lemma ShapeChild<K(!new)>(root: Node<K>, nodes: Nodes<K>, kids: Kids<K>, p: seq<K>, k: K)
    requires Shape(root, nodes, kids) && p in nodes
    ensures p in kids && (k in kids[p] <==> p + [k] in nodes)
    ensures k in kids[p] ==> kids[p][k] == nodes[p + [k]]
  {
  }

  // Below a path that does not exist there is no path either.
  lemma {:induction false} ClosedUnderPrefix<K(!new)>(root: Node<K>, nodes: Nodes<K>, kids: Kids<K>, p: seq<K>, q: seq<K>)
    requires Shape(root, nodes, kids) && q in nodes && p <= q
    ensures p in nodes
    decreases |q|
  {
    if p != q {
      var q' := q[..|q| - 1];
      assert q' + [q[|q| - 1]] == q;
      assert p == q'[..|p|];
      ClosedUnderPrefix(root, nodes, kids, p, q');
    }
  }

  lemma NothingBeyond<K(!new)>(root: Node<K>, nodes: Nodes<K>, kids: Kids<K>, p: seq<K>)
    requires Shape(root, nodes, kids)
    ensures p !in nodes ==> forall q | q in nodes :: !Prefix(p, q)
  {
    forall q | q in nodes
      ensures Prefix(p, q) ==> p in nodes
    {
      if p <= q {
        ClosedUnderPrefix(root, nodes, kids, p, q);
      }
    }
  }

  // What is left of a map over paths when one path and all below it are gone.
  function Cut<K(==), V>(m: map<seq<K>, V>, p: seq<K>): map<seq<K>, V> {
    map q | q in m && !(p <= q) :: m[q]
  }

  lemma ShapeCut<K(!new)>(root: Node<K>, nodes: Nodes<K>, kids: Kids<K>, p: seq<K>, k: K)
    requires Shape(root, nodes, kids) && p in nodes && k in kids[p]
    ensures Shape(root, Cut(nodes, p + [k]), Cut(kids[p := kids[p] - {k}], p + [k]))
  {
    var to := p + [k];
    var nodes', kids' := Cut(nodes, to), Cut(kids[p := kids[p] - {k}], to);
    SnocInjective(p, k);
    forall q, j
      ensures to <= q + [j] <==> to <= q || (q == p && j == k)
    {
      if to <= q + [j] && !(to <= q) {
        assert q + [j] == to;
      }
      if to <= q {
        assert (q + [j])[..|to|] == q[..|to|];
      }
    }
  }

  // A node has children after the removal below it iff something branches off there.
  lemma ChildlessIffUnbranched<K(!new)>(root: Node<K>, nodes: Nodes<K>, kids: Kids<K>, m: Refs<K>, m1: Refs<K>,
                                        path: seq<K>, depth: nat)
    requires Shape(root, nodes, kids) && nodes.Keys == m1.Keys
    requires depth + 1 < |path| && path in m && path[..depth + 1] in m && Removed(m, m1, path, depth + 1)
    ensures path[..depth + 1] in nodes && (kids[path[..depth + 1]] == map[] <==> Unbranched(m, path, path[..depth + 1]))
  {
    var to := path[..depth + 1];
    OnPathBelow(path, depth);
    assert !Prefix(path, to) && !OnPath(path, depth + 1, to);
    if Unbranched(m, path, to) {
      forall k
        ensures k !in kids[to]
      {
        if to + [k] in m1 {
          NothingBelow(m, m1, path, depth, to + [k]);
        }
      }
      assert kids[to] == map[];
    } else {
      var q :| q in m && Prefix(to, q) && !Comparable(q, path);
      assert q in m1 && q != to;
      var next := to + [q[|to|]];
      assert next == q[..|to| + 1];
      ClosedUnderPrefix(root, nodes, kids, next, q);
      assert q[|to|] in kids[to];
    }
  }

  // Every path that still exists leads to the node it led to before.
  ghost predicate Within<K(!new)>(nodes': Nodes<K>, nodes: Nodes<K>) {
    forall p | p in nodes' :: p in nodes && nodes'[p] == nodes[p]
  }

  lemma WithinItself<K(!new)>(nodes: Nodes<K>)
    ensures Within(nodes, nodes)
  {
  }

  lemma CutIsWithin<K(!new)>(nodes: Nodes<K>, p: seq<K>)
    ensures Within(nodes, nodes) && Within(Cut(nodes, p), nodes)
  {
  }

  lemma WithinTransitive<K(!new)>(a: Nodes<K>, b: Nodes<K>, c: Nodes<K>)
    requires Within(a, b) && Within(b, c)
    ensures Within(a, c)
  {
  }

  // A node that still exists still hangs under the same parent.
  lemma StillThere<K(!new)>(root: Node<K>, nodes': Nodes<K>, nodes: Nodes<K>, kids: Kids<K>, p: seq<K>, k: K)
    requires Shape(root, nodes', kids) && Within(nodes', nodes) && p + [k] in nodes'
    ensures p in nodes' && p in nodes && nodes'[p] == nodes[p]
  {
  }

  class Node<K(==,!new)> {
    var children: map<K, Node<K>>
    var refs: int
    var deleted: bool

    constructor ()
      ensures children == map[] && refs == 0 && !deleted
    {
      children, refs, deleted := map[], 0, false;
    }
  }

  class Tree<K(==,!new)> {
    const root: Node<K>
    ghost var nodes: map<seq<K>, Node<K>>
    ghost var repr: set<Node<K>>

    ghost predicate Owned()
      reads this
    {
      forall p | p in nodes :: nodes[p] in repr
    }

    ghost predicate Valid()
      reads this, repr
    {
      Owned() && Shape(root, nodes, Children())
    }

    ghost function Children(): Kids<K>
      requires Owned()
      reads this, repr
    {
      map p | p in nodes :: nodes[p].children
    }

    ghost function Counts(): Refs<K>
      requires Valid()
      reads this, repr
    {
      map p | p in nodes :: nodes[p].refs
    }

    constructor ()
      ensures Valid() && fresh(repr) && Counts() == map[[] := 0]
    {
      root := new Node();
      new;
      nodes := map[[] := root];
      repr := {root};
    }

    // The two views of the heap, read at one path.
    lemma ViewsAt(p: seq<K>)
      requires Valid() && p in nodes
      ensures p in Children() && Children()[p] == nodes[p].children
      ensures Counts().Keys == nodes.Keys && Counts()[p] == nodes[p].refs
    {
    }

    // The two views of the heap, read and recognised path by path.
    lemma ViewsRead()
      requires Valid()
      ensures Counts().Keys == nodes.Keys && Children().Keys == nodes.Keys
      ensures forall p | p in nodes :: Children()[p] == nodes[p].children && Counts()[p] == nodes[p].refs
    {
    }

    lemma ChildrenAre(kids: Kids<K>)
      requires Owned() && kids.Keys == nodes.Keys && forall p | p in nodes :: kids[p] == nodes[p].children
      ensures Children() == kids
    {
    }

    lemma CountsAre(m: Refs<K>)
      requires Valid() && m.Keys == nodes.Keys && forall p | p in nodes :: m[p] == nodes[p].refs
      ensures Counts() == m
    {
    }

    lemma RootAt()
      requires Valid()
      ensures [] in nodes && nodes[[]] == root && [] in Counts()
    {
    }

    lemma SamePaths()
      requires Valid()
      ensures Counts().Keys == nodes.Keys && Children().Keys == nodes.Keys
    {
    }

    // node.refs = n, for the node at a path.
    method SetRefs(node: Node<K>, n: int, ghost at: seq<K>)
      requires Valid() && at in nodes && node == nodes[at]
      modifies node`refs
      ensures Valid() && Counts() == old(Counts())[at := n] && Children() == old(Children())
    {
      ghost var kids := Children();
      hide Shape;
      node.refs := n;
      assert Children() == kids;
      assert forall p | p in nodes && p != at :: nodes[p] != node by {
        ShapeAt(root, nodes, kids, at);
      }
    }

    // node.deleted = true, which nothing ever reads.
    method MarkDeleted(node: Node<K>, ghost at: seq<K>)
      requires Valid() && at in nodes && node == nodes[at]
      modifies node`deleted
      ensures Valid() && Counts() == old(Counts()) && Children() == old(Children())
    {
      ghost var kids, m := Children(), Counts();
      hide Shape;
      node.deleted := true;
      assert Children() == kids;
      assert Counts() == m;
    }

    // node.children[part] = child, for the node at a path without that child.
    method Link(node: Node<K>, part: K, child: Node<K>, ghost at: seq<K>)
      requires Valid() && at in nodes && node == nodes[at] && part !in node.children
      requires child.children == map[] && child.refs == 0 && forall p | p in nodes :: nodes[p] != child
      modifies this`nodes, this`repr, node`children
      ensures Valid() && at + [part] !in old(nodes)
      ensures nodes == old(nodes)[at + [part] := child] && repr == old(repr) + {child}
      ensures Counts() == old(Counts())[at + [part] := 0]
    {
      hide Shape, Tree.Children, Tree.Counts;
      ghost var kids, to, m := Children(), at + [part], Counts();
      ViewsRead();
      ShapeAt(root, nodes, kids, at);
      ShapeChild(root, nodes, kids, at, part);
      ShapeAddChild(root, nodes, kids, at, part, child);
      node.children := node.children[part := child];
      nodes := nodes[to := child];
      repr := repr + {child};
      ChildrenAre(kids[at := kids[at][part := child]][to := map[]]);
      CountsAre(m[to := 0]);
    }

    // One turn of Join's loop: the child is made if it is missing, and counted.
    method Enter(node: Node<K>, part: K, ghost at: seq<K>) returns (next: Node<K>)
      requires Valid() && at in nodes && node == nodes[at]
      modifies this`nodes, this`repr, repr
      ensures Valid() && fresh(repr - old(repr))
      ensures at + [part] in nodes && next == nodes[at + [part]]
      ensures Counts() == Entered(old(Counts()), at + [part])
    {
      hide Shape, Tree.Children, Tree.Counts;
      ghost var to, m := at + [part], Counts();
      ShapeChild(root, nodes, Children(), at, part);
      ViewsAt(at);
      if part !in node.children {
        next := new Node();
        Link(node, part, next, at);
      } else {
        next := node.children[part];
      }
      ViewsAt(to);
      ghost var m1 := Counts();
      SetRefs(next, next.refs + 1, to);
      EnteredTwice(m, to);
    }

    method Join(parts: seq<K>)
      requires Valid()
      modifies this`nodes, this`repr, repr
      ensures Valid() && fresh(repr - old(repr))
      ensures Joined(old(Counts()), Counts(), parts)
    {
      hide Joined, Prefix, Entered, Tree.Counts, Tree.Valid;
      var node := root;
      var i := 0;
      ghost var m, at := Counts(), parts[..0];
      RootAt();
      JoinedNothing(m, parts);
      while i < |parts|
        invariant 0 <= i <= |parts| && at == parts[..i]
        invariant Valid() && fresh(repr - old(repr))
        invariant at in nodes && node == nodes[at]
        invariant Joined(m, Counts(), at)
      {
        var part := parts[i];
        JoinedStep(m, Counts(), parts, i);
        NextSlice(parts, i);
        node := Enter(node, part, at);
        i := i + 1;
        at := parts[..i];
      }
      assert at == parts;
    }

    method Leave(parts: seq<K>)
      requires Valid()
      modifies repr
      ensures Valid() && Left(old(Counts()), Counts(), parts)
    {
      hide Shape, Left, Prefix, Tree.Counts;
      var node := root;
      var i := 0;
      ghost var m := Counts();
      RootAt();
      LeftNothing(m, parts);
      while i < |parts|
        invariant 0 <= i <= |parts|
        invariant Valid()
        invariant parts[..i] in nodes && node == nodes[parts[..i]]
        invariant Left(m, Counts(), parts[..i])
      {
        var part := parts[i];
        ghost var at, to, m1 := parts[..i], parts[..i + 1], Counts();
        NextSlice(parts, i);
        ShapeChild(root, nodes, Children(), at, part);
        ViewsAt(at);
        if part !in node.children {
          SamePaths();
          NothingBeyond(root, nodes, Children(), to);
          LeftCutShort(m, m1, parts, i);
          return;
        }
        node := node.children[part];
        ViewsAt(to);
        SetRefs(node, node.refs - 1, to);
        LeftStep(m, m1, Counts(), parts, i);
        i := i + 1;
      }
      assert parts[..|parts|] == parts;
    }

    // delete(node.children, part): the child's subtree is no longer reachable.
    method Detach(node: Node<K>, part: K, ghost at: seq<K>)
      requires Valid() && at in nodes && node == nodes[at] && part in node.children
      modifies this`nodes, node`children
      ensures Valid() && nodes == Cut(old(nodes), at + [part])
      ensures Counts() == Cut(old(Counts()), at + [part])
    {
      hide Shape, Tree.Children, Tree.Counts;
      ghost var kids, to, m := Children(), at + [part], Counts();
      ViewsRead();
      ShapeAt(root, nodes, kids, at);
      ShapeCut(root, nodes, kids, at, part);
      node.children := node.children - {part};
      nodes := Cut(nodes, to);
      ChildrenAre(Cut(kids[at := kids[at] - {part}], to));
      CountsAre(Cut(m, to));
    }

    method Delete(parts: seq<K>)
      requires Valid()
      modifies this`nodes, repr
      ensures Valid()
      ensures parts == [] ==> Counts() == old(Counts())
      ensures parts != [] ==> Removed(old(Counts()), Counts(), parts, 0)
    {
      if |parts| == 0 {
        return;
      }
      assert parts[..0] == [];
      var _ := RemovePath(root, parts, 0);
    }

    // The end of the path: the last child loses its references and is cut off.
    method DropLeaf(node: Node<K>, part: K, ghost parts: seq<K>)
      requires Valid() && parts != [] && part == parts[|parts| - 1] && parts in nodes
      requires parts[..|parts| - 1] in nodes && node == nodes[parts[..|parts| - 1]]
      modifies this`nodes, repr
      ensures Valid() && nodes == Cut(old(nodes), parts)
      ensures Removed(old(Counts()), Counts(), parts, |parts| - 1)
    {
      ghost var at, m := parts[..|parts| - 1], Counts();
      assert at + [part] == parts;
      RemovedLeaf(m, parts);
      ShapeChild(root, nodes, Children(), at, part);
      hide Shape, Removed, Cut, Tree.Children, Tree.Counts;
      var child := node.children[part];
      SetRefs(child, 0, parts);
      MarkDeleted(child, parts);
      Detach(node, part, at);
    }

    // The way back: the child loses its references, and is cut off if something
    // below it was removed and it has no children left.
    method Unwind(node: Node<K>, part: K, removed: bool, ghost at: seq<K>)
      requires Valid() && at in nodes && node == nodes[at] && at + [part] in nodes
      modifies this`nodes, repr
      ensures Valid()
      ensures var to, m := at + [part], old(Counts());
              var pruned := removed && old(Children()[at + [part]]) == map[];
              && nodes == (if pruned then Cut(old(nodes), to) else old(nodes))
              && Counts() == (if pruned then Cut(m[to := 0], to) else m[to := 0])
    {
      ghost var to := at + [part];
      ShapeChild(root, nodes, Children(), at, part);
      hide Shape, Cut, Tree.Children, Tree.Counts;
      ViewsAt(at);
      ViewsAt(to);
      var child := node.children[part];
      SetRefs(child, 0, to);
      if removed {
        MarkDeleted(child, to);
        ViewsAt(to);
        if child.children == map[] && child.refs == 0 {
          Detach(node, part, at);
        }
      }
    }

    method RemovePath(node: Node<K>, parts: seq<K>, depth: nat) returns (removed: bool)
      requires Valid() && depth < |parts|
      requires parts[..depth] in nodes && node == nodes[parts[..depth]]
      modifies this`nodes, repr
      ensures Valid() && (removed <==> parts in old(nodes))
      ensures Removed(old(Counts()), Counts(), parts, depth)
      ensures Within(nodes, old(nodes))
      decreases |parts| - depth
    {
      ghost var at, to, m := parts[..depth], parts[..depth + 1], Counts();
      var part := parts[depth];
      NextSlice(parts, depth);
      ShapeChild(root, nodes, Children(), at, part);
      hide Shape, Removed, Unbranched, Prefix, Cut, Tree.Children, Tree.Counts, Within;
      assert to in nodes <==> part in node.children by {
        ViewsAt(at);
      }
      if part !in node.children {
        NothingBeyond(root, nodes, Children(), to);
        RemovedNothing(m, parts, depth);
        WithinItself(nodes);
        return false;
      }
      var child := node.children[part];
      assert child == nodes[to] by {
        ViewsAt(at);
      }
      if depth == |parts| - 1 {
        CutIsWithin(nodes, to);
        assert to == parts && at == parts[..|parts| - 1];
        DropLeaf(node, part, parts);
        return true;
      }
      removed := RemovePath(child, parts, depth + 1);
      ghost var nodes1, m1 := nodes, Counts();
      RemovedStep(m, m1, parts, depth, removed);
      StillThere(root, nodes1, old(nodes), Children(), at, part);
      if removed {
        ChildlessIffUnbranched(root, nodes1, Children(), m, m1, parts, depth);
      }
      CutIsWithin(nodes1, to);
      Unwind(node, part, removed, at);
      WithinTransitive(nodes, nodes1, old(nodes));
    }
  }
}
