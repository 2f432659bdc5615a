/** The pipeline graph as the object the runtime keeps: an insertion-ordered adjacency
  * table, a list of links, and two worklist algorithms over them. */
module Dags {
  import opened Graphs

  datatype Outcome = Done | ValueError

  /** Released and waiting nodes are distinct, and together they are the nodes whose countdown is at zero. */
  ghost predicate Ready(names: set<Name>, inDeg: map<Name, int>, order: seq<Name>, queue: seq<Name>)
    requires inDeg.Keys == names
  {
    && Distinct(order + queue)
    && (forall n :: n in order + queue ==> n in names)
    && (forall n :: n in names ==> (inDeg[n] == 0 <==> n in order + queue))
  }

  /** A worklist algorithm between two nodes: `order` released so far, `queue` waiting. */
  ghost predicate Worklist(
    edges: seq<Link>, names: set<Name>, inDeg: map<Name, int>, order: seq<Name>, queue: seq<Name>)
  {
    && inDeg.Keys == names
    && (forall n :: n in names ==> inDeg[n] == InCount(edges, n) - Notified(edges, order, n))
    && Ready(names, inDeg, order, queue)
  }

  /** The same while the last released node has still to notify the targets in `todo`. */
  ghost predicate Notifying(
    edges: seq<Link>, names: set<Name>, inDeg: map<Name, int>, order: seq<Name>, queue: seq<Name>, todo: set<Name>)
  {
    && inDeg.Keys == names
    && (forall n :: n in names ==>
                      inDeg[n] == InCount(edges, n) - Notified(edges, order, n) + (if n in todo then 1 else 0))
    && Ready(names, inDeg, order, queue)
  }

  lemma NotifyOne(
      edges: seq<Link>, names: set<Name>, inDeg: map<Name, int>, order: seq<Name>, queue: seq<Name>, todo: set<Name>,
      n: Name)
    requires Notifying(edges, names, inDeg, order, queue, todo) && n in todo && n in names
    ensures Notifying(edges, names, inDeg[n := inDeg[n] - 1], order,
                      if inDeg[n] == 1 then queue + [n] else queue, todo - {n})
  {
    assert forall i :: 0 <= i < |order| ==> order[i] == (order + queue)[i];
    CountdownAtZero(edges, order, n);
    assert inDeg[n] >= 1;
    assert n !in order + queue;
    assert order + (queue + [n]) == (order + queue) + [n];
  }

  lemma NextIsReleased(
      edges: seq<Link>, names: set<Name>, inDeg: map<Name, int>, order: seq<Name>, queue: seq<Name>,
      order': seq<Name>, queue': seq<Name>, todo: set<Name>)
    requires Worklist(edges, names, inDeg, order, queue)
    requires order' != [] && order'[..|order'| - 1] == order
    requires Distinct(order' + queue') && forall n :: n in order' + queue' <==> n in order + queue
    requires todo <= names && forall n :: n in names ==> (n in todo <==> Has(edges, Last(order'), n))
    ensures Notifying(edges, names, inDeg, order', queue', todo)
  {
  }

  /** Which nodes a worklist holds: those with every origin released and no repeated link. */
  lemma HeldNodes(edges: seq<Link>, names: set<Name>, inDeg: map<Name, int>, order: seq<Name>, queue: seq<Name>,
    n: Name)
    requires Worklist(edges, names, inDeg, order, queue) && n in names
    ensures n in order + queue <==> !Repeated(edges, n) && forall m :: Has(edges, m, n) ==> m in order
  {
    assert forall i :: 0 <= i < |order| ==> order[i] == (order + queue)[i];
    CountdownAtZero(edges, order, n);
  }

  lemma PopLast(order: seq<Name>, queue: seq<Name>)
    requires queue != [] && Distinct(order + queue)
    ensures Distinct((order + [Last(queue)]) + queue[..|queue| - 1])
    ensures forall n :: n in (order + [Last(queue)]) + queue[..|queue| - 1] <==> n in order + queue
  {
    var a, b, k := order + queue, (order + [Last(queue)]) + queue[..|queue| - 1], |order|;
    forall i | 0 <= i < |b|
      ensures b[i] == a[if i < k then i else if i == k then |a| - 1 else i - 1]
    {
    }
    assert forall i :: 0 <= i < |a| ==> a[i] == b[if i < k then i else if i == |a| - 1 then k else i + 1];
    forall n ensures n in b <==> n in a {
      if n in b {
        var i :| 0 <= i < |b| && b[i] == n;
        assert n == a[if i < k then i else if i == k then |a| - 1 else i - 1];
      }
    }
  }

  /** A waiting node may come next in a release order. */
  lemma HeldOrder(
      edges: seq<Link>, names: set<Name>, inDeg: map<Name, int>, order: seq<Name>, queue: seq<Name>, cur: Name)
    requires Worklist(edges, names, inDeg, order, queue) && ReleaseOrder(edges, order) && cur in queue
    ensures ReleaseOrder(edges, order + [cur])
  {
    var next, all := order + [cur], order + queue;
    var k :| 0 <= k < |queue| && queue[k] == cur;
    assert all[|order| + k] == cur && cur in all;
    HeldNodes(edges, names, inDeg, order, queue, cur);
    assert forall i :: 0 <= i < |order| ==> next[i] == all[i] && next[..i] == order[..i];
    assert next[..|order|] == order;
  }

  lemma EmptyWorklist(edges: seq<Link>, names: set<Name>, inDeg: map<Name, int>, order: seq<Name>)
    requires Worklist(edges, names, inDeg, order, [])
    ensures Exhausted(edges, names, order)
    ensures Distinct(order) && forall n :: n in order ==> n in names
  {
    assert order + [] == order;
    forall n | n in names && n !in order
      ensures Repeated(edges, n) || exists m :: Has(edges, m, n) && m !in order
    {
      HeldNodes(edges, names, inDeg, order, [], n);
    }
  }

  /** In the middle of a level: of the nodes `whole` that made the queue when the level began,
    * `level` are released and the first `left` of the queue are still to come. */
  ghost predicate MidLevel(
    edges: seq<Link>, names: set<Name>, inDeg: map<Name, int>, done: seq<Name>, level: seq<Name>, queue: seq<Name>,
    whole: seq<Name>, left: nat)
  {
    && left <= |queue| && level + queue[..left] == whole
    && Worklist(edges, names, inDeg, done + level, queue)
    && forall j :: left <= j < |queue| ==> EnteredFrom(edges, level, queue[j])
  }

  lemma TakeFirst(
      edges: seq<Link>, names: set<Name>, inDeg: map<Name, int>, done: seq<Name>, level: seq<Name>, queue: seq<Name>,
      whole: seq<Name>, left: nat, todo: set<Name>)
    requires MidLevel(edges, names, inDeg, done, level, queue, whole, left) && left > 0
    requires todo <= names && forall n :: n in names ==> (n in todo <==> Has(edges, queue[0], n))
    ensures queue[0] in names
    ensures Notifying(edges, names, inDeg, done + (level + [queue[0]]), queue[1..], todo)
  {
    var order, order' := done + level, done + (level + [queue[0]]);
    assert order' + queue[1..] == order + queue;
    assert order'[..|order'| - 1] == order;
    assert queue[0] in order + queue;
    NextIsReleased(edges, names, inDeg, order, queue, order', queue[1..], todo);
  }

  lemma FirstTaken(
      edges: seq<Link>, names: set<Name>, inDeg: map<Name, int>, done: seq<Name>, level: seq<Name>, queue: seq<Name>,
      whole: seq<Name>, left: nat, inDeg': map<Name, int>, queue': seq<Name>)
    requires MidLevel(edges, names, inDeg, done, level, queue, whole, left) && left > 0
    requires Worklist(edges, names, inDeg', done + (level + [queue[0]]), queue')
    requires |queue'| >= |queue| - 1 && queue'[..|queue| - 1] == queue[1..]
    requires forall i :: |queue| - 1 <= i < |queue'| ==> Has(edges, queue[0], queue'[i])
    ensures MidLevel(edges, names, inDeg', done, level + [queue[0]], queue', whole, left - 1)
  {
    var level' := level + [queue[0]];
    assert queue'[..left - 1] == queue[1..][..left - 1] == queue[1..left];
    forall j | left - 1 <= j < |queue'| ensures EnteredFrom(edges, level', queue'[j]) {
      if j < |queue| - 1 {
        assert queue'[j] == queue'[..|queue| - 1][j] == queue[j + 1];
        assert EnteredFrom(edges, level, queue[j + 1]);
        var m :| m in level && Has(edges, m, queue[j + 1]);
        assert m in level' && Has(edges, m, queue'[j]);
      } else {
        assert queue[0] in level' && Has(edges, queue[0], queue'[j]);
      }
    }
  }

  lemma OldLayerOk(edges: seq<Link>, layers: seq<seq<Name>>, level: seq<Name>, k: nat)
    requires k < |layers| && LayerOk(edges, layers, k)
    ensures LayerOk(edges, layers + [level], k)
  {
    assert (layers + [level])[..k] == layers[..k];
  }

  /** A whole queue taken while nothing else is released makes one more layer. */
  lemma NewLayerOk(edges: seq<Link>, names: set<Name>, inDeg: map<Name, int>, layers: seq<seq<Name>>, level: seq<Name>)
    requires Worklist(edges, names, inDeg, Flatten(layers), level)
    requires layers != [] ==> forall n :: n in level ==> EnteredFrom(edges, Last(layers), n)
    ensures LayerOk(edges, layers + [level], |layers|)
  {
    forall n | n in level
      ensures !Repeated(edges, n) && (forall m :: Has(edges, m, n) ==> m in Flatten(layers))
    {
      assert n in Flatten(layers) + level;
      HeldNodes(edges, names, inDeg, Flatten(layers), level, n);
    }
    assert (layers + [level])[..|layers|] == layers;
  }

  /** Between levels: the layers made so far, and the next one waiting as the whole queue. */
  ghost predicate BetweenLevels(edges: seq<Link>, names: set<Name>, inDeg: map<Name, int>, layers: seq<seq<Name>>,
    queue: seq<Name>)
  {
    && Worklist(edges, names, inDeg, Flatten(layers), queue)
    && (forall k :: 0 <= k < |layers| ==> layers[k] != [] && LayerOk(edges, layers, k))
    && (layers != [] ==> forall n :: n in queue ==> EnteredFrom(edges, Last(layers), n))
  }

  lemma LevelDone(
      edges: seq<Link>, names: set<Name>, inDeg: map<Name, int>, layers: seq<seq<Name>>, whole: seq<Name>,
      inDeg': map<Name, int>, level: seq<Name>, queue: seq<Name>)
    requires BetweenLevels(edges, names, inDeg, layers, whole) && whole != []
    requires MidLevel(edges, names, inDeg', Flatten(layers), level, queue, whole, 0)
    ensures BetweenLevels(edges, names, inDeg', layers + [level], queue)
    ensures |Flatten(layers)| < |Flatten(layers + [level])| <= |names|
  {
    assert level == whole;
    FlattenSnoc(layers, level);
    LayersOk(edges, names, inDeg, layers, level);
    assert forall j :: 0 <= j < |queue| ==> EnteredFrom(edges, level, queue[j]);
    DistinctSize(Flatten(layers + [level]) + queue, names);
  }

  lemma FlattenSnoc<T>(layers: seq<seq<T>>, level: seq<T>)
    ensures Flatten(layers + [level]) == Flatten(layers) + level && Last(layers + [level]) == level
  {
    assert (layers + [level])[..|layers|] == layers;
  }

  lemma LayersOk(edges: seq<Link>, names: set<Name>, inDeg: map<Name, int>, layers: seq<seq<Name>>, level: seq<Name>)
    requires BetweenLevels(edges, names, inDeg, layers, level) && level != []
    ensures forall k :: 0 <= k < |layers| + 1 ==> (layers + [level])[k] != [] && LayerOk(edges, layers + [level], k)
  {
    NewLayerOk(edges, names, inDeg, layers, level);
    forall k | 0 <= k < |layers| + 1 ensures (layers + [level])[k] != [] && LayerOk(edges, layers + [level], k) {
      if k < |layers| { OldLayerOk(edges, layers, level, k); }
    }
  }

  class Dag {
    var nodes: seq<Name>               // the keys of the adjacency table, oldest first
    var adj: map<Name, set<Name>>
    var edges: seq<Link>

    ghost predicate Valid()
      reads this
    {
      && Distinct(nodes)
      && (forall n :: n in adj <==> n in nodes)
      && (forall e :: e in edges ==> e.0 in adj && e.1 in adj)
      && (forall m, n :: m in adj ==> (n in adj[m] <==> Has(edges, m, n)))
    }

    constructor ()
      ensures Valid() && adj.Keys == {} && edges == [] && nodes == []
    {
      nodes, adj, edges := [], map[], [];
    }

    method AddNode(node: Name)
      requires Valid()
      modifies this
      ensures Valid() && edges == old(edges)
      ensures adj.Keys == old(adj.Keys) + {node}
      ensures nodes == if node in old(adj) then old(nodes) else old(nodes) + [node]
    {
      if node !in adj {
        assert forall e :: e in edges ==> e.0 != node;
        adj := adj[node := {}];
        nodes := nodes + [node];
      }
    }

    method AddEdge(src: Name, dst: Name) returns (r: Outcome)
      requires Valid()
      modifies this
      ensures Valid() && nodes == old(nodes) && adj.Keys == old(adj.Keys)
      ensures r.Done? <==> src in old(adj) && dst in old(adj)
      ensures edges == if r.Done? then old(edges) + [(src, dst)] else old(edges)
    {
      if src !in adj || dst !in adj {
        return ValueError;
      }
      edges := edges + [(src, dst)];
      adj := adj[src := adj[src] + {dst}];
      r := Done;
    }

    method InDegree() returns (deg: map<Name, int>)
      requires Valid()
      ensures deg.Keys == adj.Keys && forall n :: n in deg ==> deg[n] == InCount(edges, n)
    {
      deg := map n | n in adj :: 0;
      for i := 0 to |edges|
        invariant deg.Keys == adj.Keys
        invariant forall n :: n in deg ==> deg[n] == InCount(edges[..i], n)
      {
        assert edges[i] in edges;
        assert edges[..i + 1][..i] == edges[..i];
        deg := deg[edges[i].1 := deg[edges[i].1] + 1];
      }
      assert edges[..|edges|] == edges;
    }

    method OutDegree() returns (deg: map<Name, int>)
      requires Valid()
      ensures deg.Keys == adj.Keys && forall n :: n in deg ==> deg[n] == OutCount(edges, n)
    {
      deg := map n | n in adj :: 0;
      for i := 0 to |edges|
        invariant deg.Keys == adj.Keys
        invariant forall n :: n in deg ==> deg[n] == OutCount(edges[..i], n)
      {
        assert edges[i] in edges;
        assert edges[..i + 1][..i] == edges[..i];
        deg := deg[edges[i].0 := deg[edges[i].0] + 1];
      }
      assert edges[..|edges|] == edges;
    }

    /** The nodes no link enters, oldest first: where both algorithms begin. */
    method Roots(inDeg: map<Name, int>) returns (queue: seq<Name>)
      requires Valid()
      requires inDeg.Keys == adj.Keys && forall n :: n in inDeg ==> inDeg[n] == InCount(edges, n)
      ensures Worklist(edges, adj.Keys, inDeg, [], queue)
    {
      queue := [];
      for i := 0 to |nodes|
        invariant forall n :: n in queue <==> n in nodes[..i] && inDeg[n] == 0
        invariant Distinct(queue)
      {
        assert nodes[..i + 1] == nodes[..i] + [nodes[i]];
        if inDeg[nodes[i]] == 0 {
          queue := queue + [nodes[i]];
        }
      }
      assert nodes[..|nodes|] == nodes;
      assert [] + queue == queue;
    }

    /** The inner loop both algorithms share: count down every target of cur, in any order,
      * and queue those that reach zero. */
    method Release(inDeg: map<Name, int>, queue: seq<Name>, cur: Name, ghost order: seq<Name>)
      returns (inDeg': map<Name, int>, queue': seq<Name>)
      requires Valid() && cur in adj && order != [] && Last(order) == cur
      requires Notifying(edges, adj.Keys, inDeg, order, queue, adj[cur])
      ensures Worklist(edges, adj.Keys, inDeg', order, queue')
      ensures |queue'| >= |queue| && queue'[..|queue|] == queue
      ensures forall i :: |queue| <= i < |queue'| ==> Has(edges, cur, queue'[i])
    {
      inDeg', queue' := inDeg, queue;
      var todo := adj[cur];
      while todo != {}
        invariant todo <= adj[cur]
        invariant Notifying(edges, adj.Keys, inDeg', order, queue', todo)
        invariant |queue'| >= |queue| && queue'[..|queue|] == queue
        invariant forall i :: |queue| <= i < |queue'| ==> Has(edges, cur, queue'[i])
        decreases todo
      {
        var n :| n in todo;
        assert Has(edges, cur, n) && (cur, n) in edges;
        NotifyOne(edges, adj.Keys, inDeg', order, queue', todo, n);
        todo := todo - {n};
        inDeg' := inDeg'[n := inDeg'[n] - 1];
        if inDeg'[n] == 0 {
          queue' := queue' + [n];
        }
      }
    }

    /** True exactly when the links contain a cycle or repeat a link. */
    method HasCycle() returns (cyclic: bool)
      requires Valid()
      ensures cyclic <==> !Distinct(edges) || exists p :: IsCycle(edges, p)
    {
      var inDeg := InDegree();
      var queue := Roots(inDeg);
      var visited := 0;
      ghost var order: seq<Name> := [];
      while queue != []
        invariant Worklist(edges, adj.Keys, inDeg, order, queue)
        invariant ReleaseOrder(edges, order) && visited == |order| <= |adj.Keys|
        decreases |adj.Keys| - |order|
      {
        var cur := queue[|queue| - 1];
        ghost var order', rest := order + [cur], queue[..|queue| - 1];
        PopLast(order, queue);
        HeldOrder(edges, adj.Keys, inDeg, order, queue, cur);
        NextIsReleased(edges, adj.Keys, inDeg, order, queue, order', rest, adj[cur]);
        DistinctSize(order', adj.Keys);
        queue := queue[..|queue| - 1];
        visited := visited + 1;
        order := order';
        inDeg, queue := Release(inDeg, queue, cur, order);
      }
      EmptyWorklist(edges, adj.Keys, inDeg, order);
      DistinctSize(order, adj.Keys);
      ReleaseOrderIsExact(edges, adj.Keys, order);
      AllReleasable(edges, adj.Keys);
      cyclic := visited != |adj|;
    }

    /** The middle loop of BFS: release the nodes that make the queue as it stands, one level. */
    method ReleaseLevel(inDeg: map<Name, int>, queue: seq<Name>, ghost done: seq<Name>)
      returns (inDeg': map<Name, int>, level: seq<Name>, queue': seq<Name>)
      requires Valid() && Worklist(edges, adj.Keys, inDeg, done, queue)
      ensures MidLevel(edges, adj.Keys, inDeg', done, level, queue', queue, 0)
    {
      inDeg', level, queue' := inDeg, [], queue;
      assert done + level == done;
      var levelSize := |queue|;
      for i := 0 to levelSize
        invariant MidLevel(edges, adj.Keys, inDeg', done, level, queue', queue, levelSize - i)
      {
        var node := queue'[0];
        ghost var inDeg1, level1, queue1 := inDeg', level, queue';
        assert node in adj by { assert node in done + level + queue'; }
        TakeFirst(edges, adj.Keys, inDeg', done, level, queue', queue, levelSize - i, adj[node]);
        queue' := queue'[1..];
        level := level + [node];
        assert Last(done + level) == node;
        inDeg', queue' := Release(inDeg', queue', node, done + level);
        FirstTaken(edges, adj.Keys, inDeg1, done, level1, queue1, queue, levelSize - i, inDeg', queue');
      }
    }

    /** The layers in which the runtime stops nodes (and, reversed, starts them). */
    method BFS() returns (layers: seq<seq<Name>>)
      requires Valid()
      ensures Layering(edges, adj.Keys, layers)
    {
      var inDeg := InDegree();
      var queue := Roots(inDeg);
      layers := [];
      while queue != []
        invariant BetweenLevels(edges, adj.Keys, inDeg, layers, queue)
        decreases |adj.Keys| - |Flatten(layers)|
      {
        ghost var inDeg0, whole := inDeg, queue;
        var level;
        inDeg, level, queue := ReleaseLevel(inDeg, queue, Flatten(layers));
        LevelDone(edges, adj.Keys, inDeg0, layers, whole, inDeg, level, queue);
        layers := layers + [level];
      }
      EmptyWorklist(edges, adj.Keys, inDeg, Flatten(layers));
    }
  }
}
