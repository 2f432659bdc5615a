/** What the validation of a pipeline's graph buys: a complete and safe start, and a stop that
  * loses nothing. */
module Validation {
  import opened Graphs
  import opened Dags
  import opened Nodes
  import opened Systems
  import opened Pipelines
  import Safety
  import Lossless

  ghost predicate Acyclic(links: seq<Link>)
  {
    Distinct(links) && !exists p :: IsCycle(links, p)
  }

  ghost predicate Within(links: seq<Link>, names: set<Name>)
  {
    forall l :: l in links ==> l.0 in names && l.1 in names
  }

  /** The checks pass: no cycle, no repeated link, and every node without an origin is a source. */
  ghost predicate Validated(links: seq<Link>, names: set<Name>, types: map<Name, string>)
  {
    && Acyclic(links) && Within(links, names) && names <= types.Keys
    && forall n :: n in names && (forall l :: l in links ==> l.1 != n) ==> types[n] == "source"
  }

  /** Builds a graph from a configuration; a link to an unknown node is an error. */
  method BuildDag(nodes: seq<Name>, links: seq<Link>) returns (r: Result<()>, dag: Dag)
    ensures fresh(dag) && dag.Valid()
    ensures r.Ok? <==> Within(links, set n | n in nodes)
    ensures r.Raised? ==> r == Raised(Fault.ValueError)
    ensures r.Ok? ==> dag.edges == links && dag.adj.Keys == set n | n in nodes
  {
    dag := new Dag();
    for i := 0 to |nodes|
      invariant fresh(dag) && dag.Valid() && dag.edges == []
      invariant dag.adj.Keys == set n | n in nodes[..i]
    {
      assert nodes[..i + 1] == nodes[..i] + [nodes[i]];
      dag.AddNode(nodes[i]);
    }
    assert nodes[..|nodes|] == nodes;
    ghost var names := dag.adj.Keys;
    for i := 0 to |links|
      invariant fresh(dag) && dag.Valid() && dag.edges == links[..i] && dag.adj.Keys == names
      invariant Within(links[..i], names)
    {
      assert links[i] in links && links[..i + 1] == links[..i] + [links[i]];
      var added := dag.AddEdge(links[i].0, links[i].1);
      if added.ValueError? {
        return Raised(Fault.ValueError), dag;
      }
    }
    assert links[..|links|] == links;
    r := Ok(());
  }

  /** A node counts no link into it exactly if none enters it. */
  lemma UnlinkedAreSources(links: seq<Link>, names: set<Name>, types: map<Name, string>, inDegree: map<Name, int>)
    requires inDegree.Keys == names <= types.Keys && forall n :: n in names ==> inDegree[n] == InCount(links, n)
    ensures (set n | n in inDegree && inDegree[n] == 0 && types[n] != "source") == {}
      <==> forall n :: n in names && (forall l :: l in links ==> l.1 != n) ==> types[n] == "source"
  {
    hide InCount;
    var bad := set n | n in inDegree && inDegree[n] == 0 && types[n] != "source";
    forall n | n in names
      ensures n in bad <==> types[n] != "source" && forall l :: l in links ==> l.1 != n
    {
      CountsAreNumbers(links, n);
    }
  }

  lemma LinkedSinks(links: seq<Link>, names: set<Name>, types: map<Name, string>, outDegree: map<Name, int>)
    requires outDegree.Keys == names <= types.Keys && forall n :: n in names ==> outDegree[n] == OutCount(links, n)
    requires Within(links, names)
    ensures (set n | n in outDegree && outDegree[n] != 0 && types[n] == "sink") != {}
      <==> exists l :: l in links && types[l.0] == "sink"
  {
    hide OutCount;
    var bad := set n | n in outDegree && outDegree[n] != 0 && types[n] == "sink";
    forall n | n in names
      ensures n in bad <==> types[n] == "sink" && exists l :: l in links && l.0 == n
    {
      CountsAreNumbers(links, n);
    }
    assert forall l :: l in links && types[l.0] == "sink" ==> l.0 in bad;
  }

  /** The graph checks. Success carries whether the warning about sinks with outputs was given. */
  method CheckDagProperties(dag: Dag, types: map<Name, string>) returns (r: Result<bool>)
    requires dag.Valid() && dag.adj.Keys <= types.Keys
    ensures r.Ok? <==> Validated(dag.edges, dag.adj.Keys, types)
    ensures r.Raised? ==> r == Raised(ValidationError)
    ensures r.Ok? ==> (r.value <==> exists l :: l in dag.edges && types[l.0] == "sink")
  {
    hide InCount, OutCount, Distinct, IsCycle;
    var cyclic := dag.HasCycle();
    if cyclic {
      return Raised(ValidationError);
    }
    var inDegree := dag.InDegree();
    var outDegree := dag.OutDegree();
    UnlinkedAreSources(dag.edges, dag.adj.Keys, types, inDegree);
    LinkedSinks(dag.edges, dag.adj.Keys, types, outDegree);
    var nonSources := set n | n in inDegree && inDegree[n] == 0 && types[n] != "source";
    if nonSources != {} {
      return Raised(ValidationError);
    }
    var sinks := set n | n in outDegree && outDegree[n] != 0 && types[n] == "sink";
    r := Ok(sinks != {});
  }

  // ----- the start -----

  lemma {:induction false} StartLayerAppend(p: seq<Name>, q: seq<Name>)
    ensures StartLayer(p + q) == StartLayer(p) + StartLayer(q)
  {
    if q == [] {
      assert p + q == p;
    } else {
      assert (p + q)[..|p + q| - 1] == p + q[..|q| - 1] && Last(p + q) == Last(q);
      StartLayerAppend(p, q[..|q| - 1]);
    }
  }

  lemma {:induction false} StartScriptFollowsOrder(layers: seq<seq<Name>>)
    ensures StartScript(layers) == StartLayer(StartOrder(layers))
  {
    if layers != [] {
      StartScriptFollowsOrder(layers[..|layers| - 1]);
      StartLayerAppend(Last(layers), StartOrder(layers[..|layers| - 1]));
    }
  }

  lemma {:induction false} StartOrderMembers(layers: seq<seq<Name>>, n: Name)
    ensures n in StartOrder(layers) <==> n in Flatten(layers)
  {
    if layers != [] {
      StartOrderMembers(layers[..|layers| - 1], n);
    }
  }

  /** Every link is started from its far end: the destination before the origin. */
  ghost predicate AgainstTheFlow(links: seq<Link>, order: seq<Name>)
  {
    forall a, b :: 0 <= a < |order| && 0 <= b < |order| && Has(links, order[a], order[b]) ==> b < a
  }

  lemma DistinctHalves<T>(p: seq<T>, q: seq<T>)
    ensures Distinct(p + q) <==> Distinct(p) && Distinct(q) && forall x :: x in p ==> x !in q
  {
    var all := p + q;
    assert forall i :: 0 <= i < |p| ==> all[i] == p[i];
    assert forall i :: 0 <= i < |q| ==> all[|p| + i] == q[i];
    if Distinct(all) {
      forall i, j | 0 <= i < |p| && 0 <= j < |q| ensures p[i] != q[j] {
        assert all[i] != all[|p| + j];
      }
      forall i, j | 0 <= i < j < |q| ensures q[i] != q[j] {
        assert all[|p| + i] != all[|p| + j];
      }
    }
    if Distinct(p) && Distinct(q) && forall x :: x in p ==> x !in q {
      forall i, j | 0 <= i < j < |all| ensures all[i] != all[j] {
        assert if i < |p| then all[i] == p[i] && p[i] in p else all[i] == q[i - |p|];
        assert if j < |p| then all[j] == p[j] else all[j] == q[j - |p|] && q[j - |p|] in q;
      }
    }
  }

  lemma AgainstAppend(links: seq<Link>, last: seq<Name>, rest: seq<Name>)
    requires AgainstTheFlow(links, rest)
    requires forall o, d :: o in last && Has(links, o, d) ==> d !in last && d !in rest
    ensures AgainstTheFlow(links, last + rest)
  {
    var all := last + rest;
    forall a, b | 0 <= a < |all| && 0 <= b < |all| && Has(links, all[a], all[b]) ensures b < a {
      assert all[b] in last || all[b] in rest;
      assert all[a] !in last;
      assert a >= |last| && all[a] == rest[a - |last|];
      assert b < |last| || all[b] == rest[b - |last|];
    }
  }

  lemma {:induction false} StartOrderIsSafe(links: seq<Link>, layers: seq<seq<Name>>)
    requires Distinct(Flatten(layers))
    requires forall k :: 0 <= k < |layers| ==> LayerOk(links, layers, k)
    ensures Distinct(StartOrder(layers)) && AgainstTheFlow(links, StartOrder(layers))
  {
    if layers != [] {
      var init, last := layers[..|layers| - 1], Last(layers);
      var rest, flat := StartOrder(init), Flatten(init);
      forall k | 0 <= k < |init| ensures LayerOk(links, init, k) {
        assert LayerOk(links, layers, k) && init[..k] == layers[..k];
      }
      forall x ensures x in rest <==> x in flat {
        StartOrderMembers(init, x);
      }
      DistinctHalves(flat, last);
      DistinctHalves(last, rest);
      StartOrderIsSafe(links, init);
      assert LayerOk(links, layers, |init|);
      forall o, d | o in last && Has(links, o, d) ensures d !in last && d !in rest {
        if d in rest { OriginIsEarlier(links, layers, o, d); }
      }
      AgainstAppend(links, last, rest);
    }
  }

  lemma OriginIsEarlier(links: seq<Link>, layers: seq<seq<Name>>, o: Name, d: Name)
    requires layers != [] && Has(links, o, d) && d in StartOrder(layers[..|layers| - 1])
    requires forall k :: 0 <= k < |layers| ==> LayerOk(links, layers, k)
    ensures o in Flatten(layers[..|layers| - 1])
  {
    var init := layers[..|layers| - 1];
    StartOrderMembers(init, d);
    InFlatten(init, d);
    var k :| 0 <= k < |init| && d in init[k];
    assert LayerOk(links, layers, k) && init[..k] == layers[..k];
    InFlatten(layers[..k], o);
    var j :| 0 <= j < k && o in layers[..k][j];
    InFlatten(init, o);
    assert o in init[j];
  }

  /** A validated pipeline starts completely and safely: `start` creates the threads of every node
    * exactly once, of every destination before any of its origins, and the layer it reaches last
    * holds nothing but source-typed nodes. */
  lemma ValidatedStart(links: seq<Link>, names: set<Name>, types: map<Name, string>, layers: seq<seq<Name>>)
    requires Validated(links, names, types) && Layering(links, names, layers)
    ensures var order := StartOrder(layers);
            && StartScript(layers) == StartLayer(order)
            && Distinct(order) && (forall n :: n in order <==> n in names)
            && AgainstTheFlow(links, order)
    ensures layers != [] ==> forall n :: n in layers[0] ==> n in types && types[n] == "source"
  {
    hide StartOrder, StartScript, StartLayer, Flatten, Acyclic;
    StartScriptFollowsOrder(layers);
    StartOrderIsSafe(links, layers);
    AllLayered(links, names, layers);
    forall n ensures n in StartOrder(layers) <==> n in names {
      StartOrderMembers(layers, n);
    }
    if layers != [] {
      forall n | n in layers[0] ensures n in types && types[n] == "source" {
        FirstLayerIsRoots(links, layers, n);
        CountsAreNumbers(links, n);
        InFlatten(layers, n);
      }
    }
  }

  lemma FirstLayerIsRoots(links: seq<Link>, layers: seq<seq<Name>>, n: Name)
    requires layers != [] && LayerOk(links, layers, 0) && n in layers[0]
    ensures InCount(links, n) == 0
  {
    assert layers[..0] == [];
    assert forall e :: e in links && e.1 == n ==> Has(links, e.0, n);
    assert Preds(links, n) == {};
    InCountCoversPreds(links, n);
  }

  lemma AllLayered(links: seq<Link>, names: set<Name>, layers: seq<seq<Name>>)
    requires Acyclic(links) && Within(links, names) && Layering(links, names, layers)
    ensures forall n :: n in names <==> n in Flatten(layers)
  {
    AllReleasable(links, names);
    LayeringHoldsReleasable(links, names, layers);
  }

  // ----- the stop -----

  /** The runtime has the links of the pipeline: every node puts to the distinct targets of its links. */
  ghost predicate Linked(c: Config, links: seq<Link>)
  {
    c.dests.Keys == c.names && forall n :: n in c.names ==> c.dests[n] == Targets(links, n)
  }

  /** A graph without cycle or repeated link meets all the runtime is assumed to meet, and a link to a node that cannot
    * stop itself is one over which nothing is missed, if with stop-propagate its origin is the only one. */
  lemma LinkedPipelineIsWellFormed(c: Config, links: seq<Link>)
    requires Acyclic(links) && Within(links, c.names)
    requires Layering(links, c.names, c.startLayers) && Layering(links, c.names, c.layers)
    requires Linked(c, links)
    ensures WellFormed(c)
    ensures forall o, d ::
      (o, d) in links && !SelfStops(c, d) && (c.propagate ==> InCount(links, d) <= 1) ==> Feeds(c, o, d)
  {
    AllLayered(links, c.names, c.startLayers);
    AllLayered(links, c.names, c.layers);
    forall o, d ensures Origin(c, o, d) <==> o in c.names && Has(links, o, d) {
      TargetsAreLinked(links, o, d);
    }
    forall o | o in c.names ensures Distinct(c.dests[o]) {
      TargetsAreLinked(links, o, o);
    }
    LayersComeFirst(links, c.names, c.layers);
    forall o, d | Has(links, o, d) ensures o in c.names && d in c.names && InCount(links, d) > 0 {
      assert (o, d) in links;
      OriginsAreFew(links, o, o, d);
    }
    forall o, d | (o, d) in links && !SelfStops(c, d) && (c.propagate ==> InCount(links, d) <= 1)
      ensures Feeds(c, o, d)
    {
      assert Has(links, o, d);
      if c.propagate {
        forall o', o'' | Origin(c, o', d) && Origin(c, o'', d) ensures o' == o'' {
          OriginsAreFew(links, o', o'', d);
        }
      }
    }
  }

  lemma LayersComeFirst(links: seq<Link>, names: set<Name>, layers: seq<seq<Name>>)
    requires Layering(links, names, layers)
    ensures forall k, o, d :: 0 <= k < |layers| && d in layers[k] && Has(links, o, d) ==> o in Flatten(layers[..k])
  {
    forall k, o, d | 0 <= k < |layers| && d in layers[k] && Has(links, o, d) ensures o in Flatten(layers[..k]) {
      assert LayerOk(links, layers, k);
    }
  }

  lemma OriginsAreFew(links: seq<Link>, o: Name, o': Name, d: Name)
    requires Has(links, o, d) && Has(links, o', d)
    ensures InCount(links, d) > 0 && (InCount(links, d) <= 1 ==> o == o')
  {
    assert {(o, d), (o', d)} == {(o, d)} || o != o';
    assert o in Preds(links, d) && o' in Preds(links, d);
    SubsetSize({o, o'}, Preds(links, d));
    InCountCoversPreds(links, d);
  }

  /** Lossless shutdown of a pipeline as a user builds it, over every link to a node that cannot stop
    * itself and, with stop-propagate, has one origin. */
  lemma PipelineStopIsLossless(c: Config, links: seq<Link>, run: seq<State>, o: Name, d: Name, who: Sender)
    requires Acyclic(links) && Within(links, c.names)
    requires Layering(links, c.names, c.startLayers) && Layering(links, c.names, c.layers)
    requires Linked(c, links)
    requires Run(c, run) && Last(run).pc == |Script(c)|
    requires (o, d) in links && !SelfStops(c, d) && (c.propagate ==> InCount(links, d) <= 1)
    requires d in Last(run).nodes && Lossless.NoSuspend(Last(run).nodes[d].accepted) && who in {Worker(o), Update(o)}
    ensures Safety.From(Last(run).nodes[d].handled, who) == Sent(Last(run), who)
  {
    LinkedPipelineIsWellFormed(c, links);
    TargetsAreLinked(links, o, d);
    Lossless.LosslessShutdown(c, run, o, d, who);
  }
}
