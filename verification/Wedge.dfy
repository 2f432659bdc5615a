/** Why the progress results must except a clogged node. In every pipeline that has a node and whose queues are
  * bounded, signals put from outside behind the stop of a node can choke its worker, and then no way on leads to the
  * return of `stop`. In the original, whose joins time out, `stop` then returns with that worker blocked for good. */
module Wedge {
  import opened Graphs
  import opened Messages
  import opened Nodes
  import opened Systems
  import opened Safety
  import opened Shutdown
  import opened Clogs
  import opened Liveness
  import opened Drain
  import opened Reaching
  import opened Returning

  /** The first thing the pipeline's stop does is to send some node its stop. */
  lemma FirstStop(c: Config) returns (n: Name)
    requires WellFormed(c) && c.names != {}
    ensures n in c.names && |StartScript(c.startLayers)| + 1 < |Script(c)| - 1
    ensures Script(c)[|StartScript(c.startLayers)| + 1] == PutStop(n)
  {
    var m :| m in c.names;
    var a, b := StartScript(c.startLayers), StopScript(c.layers);
    StopScriptOps(c.layers, PutStop(m));
    StopScriptOps(c.layers, JoinOp(m, 0));
    assert PutStop(m) in b && JoinOp(m, 0) in b;
    StopScriptOps(c.layers, b[0]);
    if b[0].JoinOp? {
      PutLayerFirst(c.layers, 0);
    }
    n := b[0].node;
    assert Script(c)[|a| + 1] == b[0] && |b| > 1;
  }

  // ----- the stop, and the signals behind it -----

  /** The node's stop is put into its queue. */
  lemma StopIsPut(c: Config, before: State, n: Name) returns (s: State)
    requires Starting(c, before, |StartScript(c.startLayers)| + 1) && n in c.names && c.maxsize >= 1
    requires |StartScript(c.startLayers)| + 1 < |Script(c)| && Script(c)[|StartScript(c.startLayers)| + 1] == PutStop(n)
    ensures Reached(c, s) && s.tx == map[] && s.pc == |StartScript(c.startLayers)| + 2 && n in s.nodes
    ensures s.nodes[n] == Accept(before.nodes[n], Entry(Pipe, StopMessage(0)))
    ensures s.nodes[n].worker.WIdle? && s.nodes[n].update.UIdle?
  {
    ReachedInv(c, before);
    StartedNode(c, before, n);
    AcceptsFirst(before.nodes[n], Entry(Pipe, StopMessage(0)));
    hide Reached, Inv, StartScript, Script, WellFormed, Enabled, Apply, Untouched, Accept, StopMessage;
    PutBegins(c, before, n);
    ThenReached(c, before, PipeStep(0));
    var s1 := BeginTx(before.(pc := before.pc + 1), Pipe, StopMessage(0), [n]);
    FirstPut(before, n, StopMessage(0));
    hide BeginTx, Putting, SetNode;
    var s2 := PutGoesIn(c, s1, Pipe, StopMessage(0), [n]);
    PutIsLast(s1, n, Accept(before.nodes[n], Entry(Pipe, StopMessage(0))), Pipe, StopMessage(0));
    s := s2;
  }

  lemma FirstPut(before: State, n: Name, msg: Message)
    requires before.tx == map[]
    ensures var s := BeginTx(before.(pc := before.pc + 1), Pipe, msg, [n]);
      s.tx == Putting(Pipe, msg, [n]) && s.nodes == before.nodes && s.pc == before.pc + 1
  {
  }

  lemma PutIsLast(s: State, n: Name, ns: NodeState, who: Sender, msg: Message)
    ensures var t := SetNode(s, n, ns).(tx := Putting(who, msg, [n][1..]));
      t.tx == map[] && t.pc == s.pc && n in t.nodes && t.nodes[n] == ns
  {
  }

  lemma AcceptsFirst(ns: NodeState, e: Entry)
    requires Untouched(ns) && !ns.worker.WNew? && !ns.update.UNew?
    ensures ns.inbound == [] && !ns.draining && Accept(ns, e).worker.WIdle? && Accept(ns, e).update.UIdle?
    ensures Accept(ns, e).inbound == [e] && Accept(ns, e).out == []
    ensures !Accept(ns, e).draining && !Accept(ns, e).suspended
  {
  }

  lemma PutBegins(c: Config, s: State, n: Name)
    requires Shape(c, s) && Pipe !in s.tx && s.pc < |Script(c)| && Script(c)[s.pc] == PutStop(n)
    ensures Enabled(c, s, PipeStep(0))
    ensures Apply(c, s, PipeStep(0)) == BeginTx(s.(pc := s.pc + 1), Pipe, StopMessage(0), [n])
  {
    hide Script;
  }

  /** In any pipeline with a node and bounded queues there is a run, with a stop under way, that ends with a choked
    * worker: the buffer is full, and nobody is left to take from it. */
  lemma StopCanWedge(c: Config) returns (run: seq<State>, n: Name)
    requires WellFormed(c) && c.names != {} && c.maxsize >= 1
    ensures Run(c, run) && |StartScript(c.startLayers)| < Last(run).pc < |Script(c)|
    ensures n in c.names && n in Last(run).nodes && Choked(c, Last(run).nodes[n])
  {
    hide Reached, StartScript, Script, WellFormed;
    var started := Starts(c, |StartScript(c.startLayers)|);
    var serving := Serves(c, started);
    n := FirstStop(c);
    var put := StopIsPut(c, serving, n);
    assert put.nodes[n].inbound == [Entry(Pipe, StopMessage(0))];
    var met := StopIsMet(c, put, n, Entry(Pipe, StopMessage(0)));
    var s := Chokes(c, met, n);
    run := RunTo(c, s);
  }

  /** Left to itself it goes on from there until no thread can move, the stop still under way. */
  lemma WedgeRunsDown(c: Config, past: seq<State>, n: Name) returns (run: seq<State>, steps: seq<Action>)
    requires WellFormed(c) && Run(c, past) && n in c.names && n in Last(past).nodes && Choked(c, Last(past).nodes[n])
    ensures Moves(c, run, steps) && run[0] == Last(past) && Shape(c, Last(run)) && !CanMove(c, Last(run))
    ensures Last(run).pc < |Script(c)|
  {
    hide WellFormed, CanMove, Choked, Inv, Measure, Script;
    RunKeepsInv(c, past);
    var g, names := GaugeExists(c);
    run, steps := RunsDown(c, g, names, Last(past));
    ChokedNeverReturns(c, past, n, run, steps);
  }

  // ----- exactly when a stop can always return -----

  /** A stop is under way, and no way on leads to its return. */
  ghost predicate Lost(c: Config, past: seq<State>)
  {
    && Run(c, past) && |StartScript(c.startLayers)| < Last(past).pc
    && forall run, steps :: Moves(c, run, steps) && run[0] == Last(past) ==> Last(run).pc < |Script(c)|
  }

  /** A pipeline can lose a stop exactly if it has a node and its queues are bounded. */
  lemma StopsAreLostIff(c: Config)
    requires WellFormed(c)
    ensures (exists past :: Lost(c, past)) <==> c.names != {} && c.maxsize >= 1
  {
    hide WellFormed, StartScript, Script, Enabled, Apply;
    if c.names != {} && c.maxsize >= 1 {
      var past, n := StopCanWedge(c);
      forall run, steps | Moves(c, run, steps) && run[0] == Last(past)
        ensures Last(run).pc < |Script(c)|
      {
        ChokedNeverReturns(c, past, n, run, steps);
      }
      assert Lost(c, past);
    } else {
      forall past | Run(c, past) && |StartScript(c.startLayers)| < Last(past).pc
        ensures !Lost(c, past)
      {
        var run, steps := StopCanSettle(c, past);
        assert Last(run).pc == |Script(c)|;
      }
    }
  }
}
