/** Directed graphs given as a list of links: paths, cycles, repeated links, and
  * the two facts about release orders on which the layering rests. */
module Graphs {
  type Name = string
  type Link = (Name, Name)

  predicate Has(edges: seq<Link>, m: Name, n: Name)
  {
    (m, n) in edges
  }

  ghost predicate EnteredFrom(edges: seq<Link>, origins: seq<Name>, n: Name)
  {
    exists m :: m in origins && Has(edges, m, n)
  }

  /** How many links enter n, a repeated link counting each time. */
  function InCount(edges: seq<Link>, n: Name): nat
  {
    if edges == [] then 0
    else InCount(edges[..|edges| - 1], n) + (if edges[|edges| - 1].1 == n then 1 else 0)
  }

  /** How many links leave n, a repeated link counting each time. */
  function OutCount(edges: seq<Link>, n: Name): nat
  {
    if edges == [] then 0
    else OutCount(edges[..|edges| - 1], n) + (if edges[|edges| - 1].0 == n then 1 else 0)
  }

  function Preds(edges: seq<Link>, n: Name): set<Name>
  {
    set e | e in edges && e.1 == n :: e.0
  }

  ghost predicate Repeated(edges: seq<Link>, n: Name)
  {
    exists i, j :: 0 <= i < j < |edges| && edges[i] == edges[j] && edges[j].1 == n
  }

  ghost predicate Distinct<T>(s: seq<T>)
  {
    forall i, j :: 0 <= i < j < |s| ==> s[i] != s[j]
  }

  function Last<T>(s: seq<T>): T
    requires s != []
  {
    s[|s| - 1]
  }

  ghost predicate IsPath(edges: seq<Link>, p: seq<Name>)
  {
    p != [] && forall i :: 0 <= i < |p| - 1 ==> (p[i], p[i + 1]) in edges
  }

  ghost predicate PathTo(edges: seq<Link>, p: seq<Name>, n: Name)
  {
    IsPath(edges, p) && Last(p) == n
  }

  ghost predicate IsCycle(edges: seq<Link>, p: seq<Name>)
  {
    IsPath(edges, p) && |p| > 1 && p[0] == Last(p)
  }

  ghost predicate OnCycle(edges: seq<Link>, n: Name)
  {
    exists p :: IsCycle(edges, p) && p[0] == n
  }

  /** A node is blocked when it lies on a cycle or a repeated link enters it. */
  ghost predicate Blocked(edges: seq<Link>, n: Name)
  {
    OnCycle(edges, n) || Repeated(edges, n)
  }

  /** No path from a blocked node ends at n (a one-node path counts). */
  ghost predicate Releasable(edges: seq<Link>, n: Name)
  {
    forall p :: PathTo(edges, p, n) ==> !Blocked(edges, p[0])
  }

  // ----- counting links -----

  function InPlaces(edges: seq<Link>, n: Name): set<int>
  {
    set i | 0 <= i < |edges| && edges[i].1 == n
  }

  function OutPlaces(edges: seq<Link>, n: Name): set<int>
  {
    set i | 0 <= i < |edges| && edges[i].0 == n
  }

  lemma PlacesOfLast(init: seq<Link>, e: Link, n: Name)
    ensures InPlaces(init + [e], n) == InPlaces(init, n) + (if e.1 == n then {|init|} else {})
    ensures OutPlaces(init + [e], n) == OutPlaces(init, n) + (if e.0 == n then {|init|} else {})
    ensures |init| !in InPlaces(init, n) && |init| !in OutPlaces(init, n)
  {
  }

  lemma NoPlaces(edges: seq<Link>, n: Name)
    ensures InPlaces(edges, n) == {} <==> forall e :: e in edges ==> e.1 != n
    ensures OutPlaces(edges, n) == {} <==> forall e :: e in edges ==> e.0 != n
  {
    forall i | 0 <= i < |edges|
      ensures i in InPlaces(edges, n) <==> edges[i].1 == n
      ensures i in OutPlaces(edges, n) <==> edges[i].0 == n
    {
    }
  }

  lemma {:induction false} CountsArePlaces(edges: seq<Link>, n: Name)
    ensures InCount(edges, n) == |InPlaces(edges, n)| && OutCount(edges, n) == |OutPlaces(edges, n)|
  {
    hide InPlaces, OutPlaces;
    if edges == [] {
      NoPlaces(edges, n);
    } else {
      var init, e := edges[..|edges| - 1], Last(edges);
      CountsArePlaces(init, n);
      PlacesOfLast(init, e, n);
      assert edges == init + [e];
    }
  }

  /** The two counts are the numbers of links, by their places in the list; they are zero without any. */
  lemma CountsAreNumbers(edges: seq<Link>, n: Name)
    ensures InCount(edges, n) == |set i | 0 <= i < |edges| && edges[i].1 == n|
    ensures OutCount(edges, n) == |set i | 0 <= i < |edges| && edges[i].0 == n|
    ensures InCount(edges, n) == 0 <==> forall e :: e in edges ==> e.1 != n
    ensures OutCount(edges, n) == 0 <==> forall e :: e in edges ==> e.0 != n
  {
    hide InCount, OutCount;
    CountsArePlaces(edges, n);
    NoPlaces(edges, n);
  }

  lemma {:induction false} InCountCoversPreds(edges: seq<Link>, n: Name)
    ensures |Preds(edges, n)| <= InCount(edges, n)
    ensures |Preds(edges, n)| == InCount(edges, n) <==> !Repeated(edges, n)
  {
    if edges == [] {
      assert Preds(edges, n) == {};
    } else {
      var init, e := edges[..|edges| - 1], Last(edges);
      InCountCoversPreds(init, n);
      PredsOfLast(init, e, n);
      assert edges == init + [e];
      if e.1 == n {
        RepeatedLast(init, e);
      } else {
        RepeatedInit(edges, n);
      }
    }
  }

  lemma PredsOfLast(init: seq<Link>, e: Link, n: Name)
    ensures Preds(init + [e], n) == Preds(init, n) + (if e.1 == n then {e.0} else {})
  {
    var edges := init + [e];
    forall m ensures m in Preds(edges, n) <==> m in Preds(init, n) || (e.1 == n && m == e.0) {
      if m in Preds(init, n) {
        assert (m, n) in init && (m, n) in edges;
      }
      assert e in edges;
    }
  }

  lemma RepeatedLast(init: seq<Link>, e: Link)
    ensures Repeated(init + [e], e.1) <==> e.0 in Preds(init, e.1) || Repeated(init, e.1)
  {
    var edges, n := init + [e], e.1;
    if e.0 in Preds(init, n) {
      assert e in init;
      var i :| 0 <= i < |init| && init[i] == e;
      assert edges[i] == edges[|init|];
    }
    if Repeated(init, n) {
      var i, j :| 0 <= i < j < |init| && init[i] == init[j] && init[j].1 == n;
      assert edges[i] == edges[j] && edges[j].1 == n;
    }
    if Repeated(edges, n) {
      var i, j :| 0 <= i < j < |edges| && edges[i] == edges[j] && edges[j].1 == n;
      assert init[i] == edges[i];
      if j < |init| {
        assert init[i] == init[j];
      } else {
        assert e in init;
      }
    }
  }

  lemma RepeatedInit(edges: seq<Link>, n: Name)
    requires edges != [] && Last(edges).1 != n
    ensures Repeated(edges, n) <==> Repeated(edges[..|edges| - 1], n)
  {
    var init := edges[..|edges| - 1];
    if Repeated(init, n) {
      var i, j :| 0 <= i < j < |init| && init[i] == init[j] && init[j].1 == n;
      assert edges[i] == edges[j] && edges[j].1 == n;
    }
    if Repeated(edges, n) {
      var i, j :| 0 <= i < j < |edges| && edges[i] == edges[j] && edges[j].1 == n;
      assert init[i] == init[j] && init[j].1 == n;
    }
  }

  lemma SubsetSize<T>(a: set<T>, b: set<T>)
    requires a <= b
    ensures |a| <= |b|
    ensures |a| == |b| ==> a == b
  {
    assert b == a + (b - a);
  }

  lemma {:induction false} DistinctSize<T>(s: seq<T>, all: set<T>)
    requires Distinct(s) && forall x :: x in s ==> x in all
    ensures |s| <= |all|
    ensures |s| == |all| <==> forall x :: x in all ==> x in s
  {
    if s == [] {
      assert |all| == 0 <==> all == {};
    } else {
      var x := Last(s);
      DistinctSize(s[..|s| - 1], all - {x});
      assert s == s[..|s| - 1] + [x];
    }
  }

  /** How many nodes of the order have a link to n. */
  function Notified(edges: seq<Link>, order: seq<Name>, n: Name): nat
  {
    if order == [] then 0
    else Notified(edges, order[..|order| - 1], n) + (if (Last(order), n) in edges then 1 else 0)
  }

  lemma OneMoreInCommon<T>(p: set<T>, before: set<T>, x: T)
    requires x !in before
    ensures |p * (before + {x})| == |p * before| + if x in p then 1 else 0
  {
    assert p * (before + {x}) == if x in p then p * before + {x} else p * before;
  }

  function Elements<T>(s: seq<T>): set<T>
  {
    set x | x in s
  }

  lemma ElementsSnoc<T>(s: seq<T>, x: T)
    ensures Elements(s + [x]) == Elements(s) + {x}
  {
  }

  lemma {:induction false} NotifiedCountsPreds(edges: seq<Link>, order: seq<Name>, n: Name)
    requires Distinct(order)
    ensures Notified(edges, order, n) == |Preds(edges, n) * Elements(order)|
  {
    hide Elements;
    if order == [] {
      assert Elements(order) == {} by {
        ElementsOfNone<Name>();
      }
      assert Preds(edges, n) * {} == {};
    } else {
      var init, cur := order[..|order| - 1], Last(order);
      NotifiedCountsPreds(edges, init, n);
      assert order == init + [cur];
      NotRepeatedLast(order);
      ElementsSnoc(init, cur);
      assert cur in Preds(edges, n) <==> (cur, n) in edges;
      OneMoreInCommon(Preds(edges, n), Elements(init), cur);
    }
  }

  lemma ElementsOfNone<T>()
    ensures Elements<T>([]) == {}
  {
  }

  lemma NotRepeatedLast<T>(s: seq<T>)
    requires s != [] && Distinct(s)
    ensures Last(s) !in Elements(s[..|s| - 1]) && Distinct(s[..|s| - 1])
  {
  }

  /** A countdown that starts at the link count and drops once per released origin reaches
    * zero exactly when all origins are released and no link repeats. */
  lemma CountdownAtZero(edges: seq<Link>, order: seq<Name>, n: Name)
    requires Distinct(order)
    ensures Notified(edges, order, n) <= InCount(edges, n)
    ensures Notified(edges, order, n) == InCount(edges, n)
            <==> !Repeated(edges, n) && forall m :: Has(edges, m, n) ==> m in order
  {
    var p, all := Preds(edges, n), Elements(order);
    NotifiedCountsPreds(edges, order, n);
    InCountCoversPreds(edges, n);
    SubsetSize(p * all, p);
    if forall m :: m in p ==> m in order {
      assert p * all == p;
    }
  }

  // ----- release orders -----

  /** Every node of the order comes after all its origins and is entered by no repeated link. */
  ghost predicate ReleaseOrder(edges: seq<Link>, order: seq<Name>)
  {
    && Distinct(order)
    && forall i :: 0 <= i < |order| ==>
                     !Repeated(edges, order[i]) && forall m :: Has(edges, m, order[i]) ==> m in order[..i]
  }

  /** Whatever the order leaves out is entered by a repeated link or has an origin left out. */
  ghost predicate Exhausted(edges: seq<Link>, names: set<Name>, order: seq<Name>)
  {
    forall n :: n in names && n !in order ==> Repeated(edges, n) || exists m :: Has(edges, m, n) && m !in order
  }

  lemma {:induction false} PathStaysInOrder(edges: seq<Link>, order: seq<Name>, p: seq<Name>, i: nat)
    requires ReleaseOrder(edges, order) && IsPath(edges, p)
    requires i < |order| && Last(p) == order[i]
    ensures exists j :: 0 <= j <= i && order[j] == p[0]
    ensures |p| > 1 ==> exists j :: 0 <= j < i && order[j] == p[0]
    decreases |p|
  {
    if |p| > 1 {
      var q := p[..|p| - 1];
      assert (p[|p| - 2], p[|p| - 1]) in edges;
      assert Has(edges, Last(q), order[i]);
      assert Last(q) in order[..i];
      var k :| 0 <= k < i && order[k] == Last(q);
      PathStaysInOrder(edges, order, q, k);
    }
  }

  lemma OrderedNodesAreReleasable(edges: seq<Link>, order: seq<Name>, n: Name)
    requires ReleaseOrder(edges, order) && n in order
    ensures Releasable(edges, n)
  {
    var i :| 0 <= i < |order| && order[i] == n;
    forall p | PathTo(edges, p, n) ensures !Blocked(edges, p[0]) {
      PathStaysInOrder(edges, order, p, i);
      var j :| 0 <= j <= i && order[j] == p[0];
      assert !Repeated(edges, order[j]);
      if OnCycle(edges, p[0]) {
        var c :| IsCycle(edges, c) && c[0] == p[0];
        PathStaysInOrder(edges, order, c, j);
        assert false;
      }
    }
  }

  /** From a node left out one can walk back through left-out nodes; the walk must meet a
    * repeated link or close a cycle before it runs out of names. */
  lemma {:induction false} LeftOutIsBlocked(
      edges: seq<Link>, names: set<Name>, order: seq<Name>, p: seq<Name>, unvisited: set<Name>)
    requires Exhausted(edges, names, order)
    requires forall e :: e in edges ==> e.0 in names && e.1 in names
    requires IsPath(edges, p) && (forall x :: x in p ==> x in names && x !in order)
    requires unvisited == (set x | x in names && x !in p)
    ensures !Releasable(edges, Last(p))
    decreases unvisited
  {
    hide OnCycle, Repeated;
    assert PathTo(edges, p, Last(p));
    if !Repeated(edges, p[0]) {
      var m :| Has(edges, m, p[0]) && m !in order;
      assert (m, p[0]) in edges;
      ExtendBack(edges, m, p);
      if m in p {
        CloseCycle(edges, m, p);
      } else {
        assert m in unvisited;
        LeftOutIsBlocked(edges, names, order, [m] + p, unvisited - {m});
      }
    }
  }

  lemma ExtendBack(edges: seq<Link>, m: Name, p: seq<Name>)
    requires IsPath(edges, p) && (m, p[0]) in edges
    ensures IsPath(edges, [m] + p) && Last([m] + p) == Last(p) && PathTo(edges, [m] + p, Last(p))
  {
    var q := [m] + p;
    forall i | 0 <= i < |q| - 1
      ensures (q[i], q[i + 1]) in edges
    {
      assert i > 0 ==> (p[i - 1], p[i]) in edges;
    }
  }

  lemma CloseCycle(edges: seq<Link>, m: Name, p: seq<Name>)
    requires IsPath(edges, [m] + p) && m in p
    ensures OnCycle(edges, m)
  {
    var k :| 0 <= k < |p| && p[k] == m;
    var c := ([m] + p)[..k + 2];
    assert IsCycle(edges, c) && c[0] == m;
  }

  /** Any exhausted release order holds exactly the releasable names, however it was produced. */
  lemma ReleaseOrderIsExact(edges: seq<Link>, names: set<Name>, order: seq<Name>)
    requires ReleaseOrder(edges, order) && Exhausted(edges, names, order)
    requires forall e :: e in edges ==> e.0 in names && e.1 in names
    ensures forall n :: n in names ==> (n in order <==> Releasable(edges, n))
  {
    forall n | n in names ensures n in order <==> Releasable(edges, n) {
      if n in order {
        OrderedNodesAreReleasable(edges, order, n);
      } else {
        assert IsPath(edges, [n]);
        LeftOutIsBlocked(edges, names, order, [n], set x | x in names && x !in [n]);
      }
    }
  }

  lemma CycleBlocks(edges: seq<Link>, p: seq<Name>)
    requires IsCycle(edges, p)
    ensures !Releasable(edges, p[0]) && (p[0], p[1]) in edges
  {
    assert PathTo(edges, [p[0]], p[0]);
    assert OnCycle(edges, p[0]);
  }

  lemma RepetitionBlocks(edges: seq<Link>, i: nat, j: nat)
    requires i < j < |edges| && edges[i] == edges[j]
    ensures !Releasable(edges, edges[j].1) && edges[j] in edges
  {
    var n := edges[j].1;
    assert Repeated(edges, n);
    assert PathTo(edges, [n], n);
  }

  /** All names are releasable exactly when there is neither a cycle nor a repeated link. */
  lemma AllReleasable(edges: seq<Link>, names: set<Name>)
    requires forall e :: e in edges ==> e.0 in names && e.1 in names
    ensures (forall n :: n in names ==> Releasable(edges, n))
            <==> Distinct(edges) && !exists p :: IsCycle(edges, p)
  {
    forall p | IsCycle(edges, p) ensures exists n :: n in names && !Releasable(edges, n) {
      CycleBlocks(edges, p);
    }
    forall i, j | 0 <= i < j < |edges| && edges[i] == edges[j]
      ensures exists n :: n in names && !Releasable(edges, n)
    {
      RepetitionBlocks(edges, i, j);
    }
    if Distinct(edges) && !exists p :: IsCycle(edges, p) {
      forall n | n in names ensures Releasable(edges, n) {
      }
    }
  }

  // ----- layers -----

  function Flatten<T>(layers: seq<seq<T>>): seq<T>
  {
    if layers == [] then [] else Flatten(layers[..|layers| - 1]) + Last(layers)
  }

  lemma {:induction false} InFlatten<T>(layers: seq<seq<T>>, x: T)
    ensures x in Flatten(layers) <==> exists k :: 0 <= k < |layers| && x in layers[k]
  {
    if layers != [] {
      var init := layers[..|layers| - 1];
      InFlatten(init, x);
      if x in Flatten(init) {
        var k :| 0 <= k < |init| && x in init[k];
        assert x in layers[k];
      }
      if k :| 0 <= k < |layers| && x in layers[k] {
        assert k < |init| ==> x in init[k];
      }
    }
  }

  /** One layer: entered only from earlier layers, and, past the first, each node from the layer just before. */
  ghost predicate LayerOk(edges: seq<Link>, layers: seq<seq<Name>>, k: nat)
    requires k < |layers|
  {
    forall n :: n in layers[k] ==>
                  && !Repeated(edges, n)
                  && (forall m :: Has(edges, m, n) ==> m in Flatten(layers[..k]))
                  && (k > 0 ==> EnteredFrom(edges, layers[k - 1], n))
  }

  ghost predicate Layering(edges: seq<Link>, names: set<Name>, layers: seq<seq<Name>>)
  {
    && Distinct(Flatten(layers))
    && (forall n :: n in Flatten(layers) ==> n in names)
    && (forall k :: 0 <= k < |layers| ==> layers[k] != [] && LayerOk(edges, layers, k))
    && Exhausted(edges, names, Flatten(layers))
  }

  /** The longest path that ends at n has k links. */
  ghost predicate LongestPathTo(edges: seq<Link>, n: Name, k: nat)
  {
    && (exists p :: PathTo(edges, p, n) && |p| == k + 1)
    && (forall p :: PathTo(edges, p, n) ==> |p| <= k + 1)
  }

  lemma {:induction false} SomePathThroughLayers(edges: seq<Link>, names: set<Name>, layers: seq<seq<Name>>,
    k: nat, n: Name)
    returns (p: seq<Name>)
    requires Layering(edges, names, layers) && k < |layers| && n in layers[k]
    ensures PathTo(edges, p, n) && |p| == k + 1
  {
    if k == 0 {
      p := [n];
    } else {
      assert LayerOk(edges, layers, k);
      var m :| m in layers[k - 1] && Has(edges, m, n);
      var q := SomePathThroughLayers(edges, names, layers, k - 1, m);
      p := q + [n];
      forall i | 0 <= i < |p| - 1 ensures (p[i], p[i + 1]) in edges {
        if i < |q| - 1 { assert (q[i], q[i + 1]) in edges; }
      }
    }
  }

  lemma {:induction false} PathsStayWithinLayers(edges: seq<Link>, names: set<Name>, layers: seq<seq<Name>>,
    k: nat, p: seq<Name>)
    requires Layering(edges, names, layers) && k < |layers|
    requires IsPath(edges, p) && Last(p) in layers[k]
    ensures |p| <= k + 1
    decreases |p|
  {
    if |p| > 1 {
      var q := p[..|p| - 1];
      assert (p[|p| - 2], p[|p| - 1]) in edges;
      assert LayerOk(edges, layers, k);
      assert Has(edges, Last(q), Last(p));
      InFlatten(layers[..k], Last(q));
      var j :| 0 <= j < k && Last(q) in layers[..k][j];
      PathsStayWithinLayers(edges, names, layers, j, q);
    }
  }

  lemma LayerIsLongestPath(edges: seq<Link>, names: set<Name>, layers: seq<seq<Name>>, k: nat, n: Name)
    requires Layering(edges, names, layers) && k < |layers| && n in layers[k]
    ensures LongestPathTo(edges, n, k)
  {
    var p := SomePathThroughLayers(edges, names, layers, k, n);
    forall q | PathTo(edges, q, n) ensures |q| <= k + 1 {
      PathsStayWithinLayers(edges, names, layers, k, q);
    }
  }

  /** Flattening a layering gives a release order. */
  lemma {:induction false} FlattenIsReleaseOrder(edges: seq<Link>, layers: seq<seq<Name>>)
    requires Distinct(Flatten(layers))
    requires forall k :: 0 <= k < |layers| ==> LayerOk(edges, layers, k)
    ensures ReleaseOrder(edges, Flatten(layers))
  {
    if layers != [] {
      var init := layers[..|layers| - 1];
      var a, b := Flatten(init), Last(layers);
      var f := Flatten(layers);
      assert f == a + b && a == f[..|a|];
      forall k | 0 <= k < |init| ensures LayerOk(edges, init, k) {
        assert LayerOk(edges, layers, k);
        assert init[..k] == layers[..k];
      }
      FlattenIsReleaseOrder(edges, init);
      assert LayerOk(edges, layers, |layers| - 1);
      forall i | 0 <= i < |f|
        ensures !Repeated(edges, f[i]) && forall m :: Has(edges, m, f[i]) ==> m in f[..i]
      {
        if i < |a| {
          assert f[i] == a[i] && f[..i] == a[..i];
        } else {
          assert f[i] == b[i - |a|];
          assert f[..i] == a + b[..i - |a|];
        }
      }
    }
  }

  /** What a layering contains: exactly the names that no cycle and no repeated link leads to. */
  lemma LayeringHoldsReleasable(edges: seq<Link>, names: set<Name>, layers: seq<seq<Name>>)
    requires Layering(edges, names, layers)
    requires forall e :: e in edges ==> e.0 in names && e.1 in names
    ensures forall n :: n in names ==> (n in Flatten(layers) <==> Releasable(edges, n))
  {
    FlattenIsReleaseOrder(edges, layers);
    ReleaseOrderIsExact(edges, names, Flatten(layers));
  }

  /** A link between two nodes of a layering goes to a later layer. */
  lemma LinksGoToLaterLayers(edges: seq<Link>, names: set<Name>, layers: seq<seq<Name>>, i: nat, j: nat, m: Name,
    n: Name)
    requires Layering(edges, names, layers)
    requires i < |layers| && j < |layers| && m in layers[i] && n in layers[j] && (m, n) in edges
    ensures i < j
  {
    hide Layering, Distinct;
    var p := SomePathThroughLayers(edges, names, layers, i, m);
    var q := p + [n];
    forall x | 0 <= x < |q| - 1
      ensures (q[x], q[x + 1]) in edges
    {
      assert x < |p| - 1 ==> (p[x], p[x + 1]) in edges;
    }
    PathsStayWithinLayers(edges, names, layers, j, q);
  }
}
