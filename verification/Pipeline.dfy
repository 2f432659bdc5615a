/** The pipeline object: linking nodes, starting them against the flow and stopping them along it. What it does
  * to the nodes is recorded, and the record is the script that drives the transition system. */
module Pipelines {
  import opened Graphs
  import opened Dags
  import opened Systems

  datatype Status = NEW | READY | RUNNING

  datatype Fault = RuntimeError | KeyError | ValueError | ValidationError

  datatype Result<T> = Ok(value: T) | Raised(fault: Fault)

  /** The distinct targets of the links that leave o, in the order they were first linked. */
  function Targets(links: seq<Link>, o: Name): seq<Name>
  {
    if links == [] then []
    else
      var before, l := Targets(links[..|links| - 1], o), Last(links);
      if l.0 == o && l.1 !in before then before + [l.1] else before
  }

  /** The origins of the links that enter d, one for each link. */
  function Incoming(links: seq<Link>, d: Name): seq<Name>
  {
    if links == [] then []
    else Incoming(links[..|links| - 1], d) + (if Last(links).1 == d then [Last(links).0] else [])
  }

  lemma {:induction false} TargetsAreLinked(links: seq<Link>, o: Name, d: Name)
    ensures Distinct(Targets(links, o))
    ensures d in Targets(links, o) <==> Has(links, o, d)
  {
    if links != [] {
      TargetsAreLinked(links[..|links| - 1], o, d);
      TargetsAreLinked(links[..|links| - 1], o, Last(links).1);
      assert links == links[..|links| - 1] + [Last(links)];
    }
  }

  /** Targets come in the order in which they were first linked. */
  lemma {:induction false} TargetsAreInOrder(links: seq<Link>, o: Name, i: nat, j: nat)
    requires i < j < |Targets(links, o)|
    ensures exists k :: 0 <= k < |links| && links[k] == (o, Targets(links, o)[i])
                        && (o, Targets(links, o)[j]) !in links[..k + 1]
  {
    var init, l := links[..|links| - 1], Last(links);
    var before := Targets(init, o);
    if j < |before| {
      TargetsAreInOrder(init, o, i, j);
      var k :| 0 <= k < |init| && init[k] == (o, before[i]) && (o, before[j]) !in init[..k + 1];
      assert links[k] == init[k] && links[..k + 1] == init[..k + 1];
    } else {
      TargetsAreLinked(init, o, before[i]);
      TargetsAreLinked(init, o, l.1);
      var k :| 0 <= k < |init| && init[k] == (o, before[i]);
      assert links[k] == init[k] && forall m :: m in links[..k + 1] ==> m in init;
    }
  }

  /** The origins of a node are exactly those of the links that enter it, once for each link, in linking order. */
  lemma {:induction false} IncomingIsExact(links: seq<Link>, d: Name)
    ensures |Incoming(links, d)| == InCount(links, d)
    ensures forall i :: 0 <= i < |links| && links[i].1 == d ==>
        InCount(links[..i], d) < |Incoming(links, d)| && Incoming(links, d)[InCount(links[..i], d)] == links[i].0
  {
    if links != [] {
      var init := links[..|links| - 1];
      IncomingIsExact(init, d);
      forall i | 0 <= i < |links| && links[i].1 == d
        ensures InCount(links[..i], d) < |Incoming(links, d)|
        ensures Incoming(links, d)[InCount(links[..i], d)] == links[i].0
      {
        if i < |init| {
          assert links[..i] == init[..i] && links[i] == init[i];
        }
      }
    }
  }

  /** The two tables the nodes keep of their links. */
  ghost predicate LinkTables(
    links: seq<Link>, names: set<Name>, dests: map<Name, seq<Name>>, origins: map<Name, seq<Name>>)
  {
    && dests.Keys == names && origins.Keys == names
    && (forall n :: n in names ==> dests[n] == Targets(links, n))
    && (forall n :: n in names ==> origins[n] == Incoming(links, n))
  }

  lemma LinkOne(
      links: seq<Link>, names: set<Name>, dests: map<Name, seq<Name>>, origins: map<Name, seq<Name>>, l: Link)
    requires LinkTables(links, names, dests, origins) && l.0 in names && l.1 in names
    ensures LinkTables(links + [l], names,
                       if l.1 in dests[l.0] then dests else dests[l.0 := dests[l.0] + [l.1]],
                       origins[l.1 := origins[l.1] + [l.0]])
  {
    assert (links + [l])[..|links|] == links && Last(links + [l]) == l;
  }

  /** The order in which `start` reaches the nodes. */
  function StartOrder(layers: seq<seq<Name>>): seq<Name>
  {
    if layers == [] then [] else Last(layers) + StartOrder(layers[..|layers| - 1])
  }

  class Pipeline {
    var status: Status
    const dag: Dag
    var dests: map<Name, seq<Name>>     // each node's destinations, in linking order
    var origins: map<Name, seq<Name>>   // each node's origins, one per link
    var calls: seq<PipeOp>              // what start and stop have done to the nodes, in order

    ghost predicate Valid()
      reads `dests, `origins, dag
    {
      dag.Valid() && LinkTables(dag.edges, dag.adj.Keys, dests, origins)
    }

    constructor ()
      ensures Valid() && fresh(dag) && status == NEW && calls == [] && dag.nodes == [] && dag.edges == []
    {
      status := NEW;
      dag := new Dag();
      dests, origins, calls := map[], map[], [];
    }

    method AddNode(n: Name)
      requires Valid()
      modifies `dests, `origins, dag
      ensures Valid() && dag.edges == old(dag.edges) && dag.adj.Keys == old(dag.adj.Keys) + {n}
    {
      hide Targets, Incoming, Distinct;
      if n !in dag.adj {
        FreshNode(dag.edges, dag.adj.Keys, n);
        dests := dests[n := []];
        origins := origins[n := []];
      }
      dag.AddNode(n);
    }

    method AddLink(src: Name, dst: Name) returns (r: Result<()>)
      requires Valid()
      modifies `dests, `origins, dag
      ensures Valid() && dag.adj.Keys == old(dag.adj.Keys)
      ensures r.Ok? <==> src in dag.adj && dst in dag.adj
      ensures r.Raised? ==> r == Raised(KeyError)
      ensures dag.edges == if r.Ok? then old(dag.edges) + [(src, dst)] else old(dag.edges)
    {
      if src !in dests || dst !in dests {
        return Raised(KeyError);
      }
      hide LinkTables;
      LinkOne(dag.edges, dag.adj.Keys, dests, origins, (src, dst));
      if dst !in dests[src] {
        dests := dests[src := dests[src] + [dst]];
      }
      origins := origins[dst := origins[dst] + [src]];
      var added := dag.AddEdge(src, dst);
      r := Ok(());
    }

    predicate Known(links: seq<Link>, names: set<Name>)
    {
      forall l :: l in links ==> l.0 in names && l.1 in names
    }

    /** Creates and links the nodes. A link to an unknown node stops it part way, and the pipeline
      * stays as it was linked so far. */
    method Warmup(nodes: seq<Name>, links: seq<Link>) returns (r: Result<()>)
      requires Valid()
      modifies `status, `dests, `origins, dag
      ensures Valid()
      ensures r == Raised(RuntimeError) <==> old(status) != NEW
      ensures r == Raised(RuntimeError) ==>
        status == old(status) && dag.edges == old(dag.edges) && dag.adj.Keys == old(dag.adj.Keys)
      ensures r != Raised(RuntimeError) ==>
        && dag.adj.Keys == old(dag.adj.Keys) + (set n | n in nodes)
        && (r == Ok(()) <==> Known(links, dag.adj.Keys))
        && (r == Ok(()) ==> status == READY && dag.edges == old(dag.edges) + links)
        && (r != Ok(()) ==> r == Raised(KeyError) && status == NEW
                            && exists k :: 0 <= k < |links| && dag.edges == old(dag.edges) + links[..k])
    {
      hide Valid, Targets, Incoming;
      if status != NEW {
        return Raised(RuntimeError);
      }
      for i := 0 to |nodes|
        invariant Valid() && status == NEW && dag.edges == old(dag.edges)
        invariant dag.adj.Keys == old(dag.adj.Keys) + (set n | n in nodes[..i])
      {
        assert nodes[..i + 1] == nodes[..i] + [nodes[i]];
        AddNode(nodes[i]);
      }
      assert nodes[..|nodes|] == nodes;
      ghost var names := dag.adj.Keys;
      for i := 0 to |links|
        invariant Valid() && status == NEW && dag.edges == old(dag.edges) + links[..i]
        invariant dag.adj.Keys == names && Known(links[..i], names)
      {
        assert links[i] in links && links[..i + 1] == links[..i] + [links[i]];
        var linked := AddLink(links[i].0, links[i].1);
        if linked.Raised? {
          return linked;
        }
      }
      assert links[..|links|] == links;
      status := READY;
      r := Ok(());
    }

    method StartNodes(layer: seq<Name>)
      modifies `calls
      ensures calls == old(calls) + StartLayer(layer)
    {
      for j := 0 to |layer|
        invariant calls == old(calls) + StartLayer(layer[..j])
      {
        assert layer[..j + 1][..j] == layer[..j];
        calls := calls + StartNode(layer[j]);
      }
      assert layer[..|layer|] == layer;
    }

    method PutStops(layer: seq<Name>)
      modifies `calls
      ensures calls == old(calls) + PutLayer(layer)
    {
      for j := 0 to |layer|
        invariant calls == old(calls) + PutLayer(layer[..j])
      {
        assert layer[..j + 1][..j] == layer[..j];
        calls := calls + [PutStop(layer[j])];
      }
      assert layer[..|layer|] == layer;
    }

    method JoinNodes(layer: seq<Name>)
      modifies `calls
      ensures calls == old(calls) + JoinLayer(layer)
    {
      for j := 0 to |layer|
        invariant calls == old(calls) + JoinLayer(layer[..j])
      {
        assert layer[..j + 1][..j] == layer[..j];
        calls := calls + JoinNode(layer[j]);
      }
      assert layer[..|layer|] == layer;
    }

    method StartAll(layers: seq<seq<Name>>)
      modifies `calls
      ensures calls == old(calls) + StartScript(layers)
    {
      var i := |layers|;
      assert layers[..i] == layers;
      while i > 0
        invariant 0 <= i <= |layers|
        invariant calls + StartScript(layers[..i]) == old(calls) + StartScript(layers)
      {
        i := i - 1;
        assert layers[..i + 1][..i] == layers[..i] && Last(layers[..i + 1]) == layers[i];
        StartNodes(layers[i]);
      }
    }

    method StopAll(layers: seq<seq<Name>>)
      modifies `calls
      ensures calls == old(calls) + StopScript(layers)
    {
      for i := 0 to |layers|
        invariant calls == old(calls) + StopScript(layers[..i])
      {
        assert layers[..i + 1][..i] == layers[..i] && Last(layers[..i + 1]) == layers[i];
        PutStops(layers[i]);
        JoinNodes(layers[i]);
      }
      assert layers[..|layers|] == layers;
    }

    /** Starts the nodes layer by layer, last layer first. */
    method Start() returns (r: Result<()>, layers: seq<seq<Name>>)
      requires Valid()
      modifies `status, `calls
      ensures r.Ok? <==> old(status) == READY && dag.adj.Keys != {}
      ensures r.Raised? ==> r == Raised(RuntimeError) && status == old(status) && calls == old(calls)
      ensures r.Ok? ==> status == RUNNING && Layering(dag.edges, dag.adj.Keys, layers)
                        && calls == old(calls) + StartScript(layers)
    {
      hide Layering;
      if status != READY || dag.adj.Keys == {} {
        return Raised(RuntimeError), [];
      }
      layers := dag.BFS();
      StartAll(layers);
      status := RUNNING;
      r := Ok(());
    }

    /** Stops the nodes layer by layer, first layer first: a stop to every node of the layer, then a
      * join of every node of it. */
    method Stop() returns (r: Result<()>, layers: seq<seq<Name>>)
      requires Valid()
      modifies `status, `calls
      ensures r.Ok? <==> old(status) == RUNNING && dag.adj.Keys != {}
      ensures r.Raised? ==> r == Raised(RuntimeError) && status == old(status) && calls == old(calls)
      ensures r.Ok? ==> status == READY && Layering(dag.edges, dag.adj.Keys, layers)
                        && calls == old(calls) + StopScript(layers)
    {
      hide Layering;
      if status != RUNNING || dag.adj.Keys == {} {
        return Raised(RuntimeError), [];
      }
      layers := dag.BFS();
      StopAll(layers);
      status := READY;
      r := Ok(());
    }
  }

  lemma FreshNode(edges: seq<Link>, names: set<Name>, n: Name)
    requires (forall e :: e in edges ==> e.0 in names && e.1 in names) && n !in names
    ensures Targets(edges, n) == [] && Incoming(edges, n) == []
  {
    NoLinks(edges, n);
  }

  lemma {:induction false} NoLinks(edges: seq<Link>, n: Name)
    requires forall e :: e in edges ==> e.0 != n && e.1 != n
    ensures Targets(edges, n) == [] && Incoming(edges, n) == []
  {
    if edges != [] {
      assert Last(edges) in edges && forall e :: e in edges[..|edges| - 1] ==> e in edges;
      NoLinks(edges[..|edges| - 1], n);
    }
  }
}
