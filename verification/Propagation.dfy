/** Stop-propagate: a node that was stopped by it hands it on, so that it comes down to every node that can be
  * reached. */
module Propagation {
  import opened Graphs
  import opened Messages
  import opened Nodes
  import opened Systems
  import opened Safety
  import opened Shutdown
  import opened Clogs
  import opened Liveness

  /** The node's control thread is through with a stop-propagate. */
  predicate HandedOn(ns: NodeState)
  {
    ns.control.CDone? && Propagates(ns.control.msg)
  }

  /** A node that is through with a stop-propagate has put a stop to the target, or is about to. */
  ghost predicate Spread(s: State, o: Name, d: Name)
    requires o in s.nodes && d in s.nodes
  {
    HandedOn(s.nodes[o]) ==>
      HasStop(s.nodes[d].accepted) || (Sender.Control(o) in s.tx && d in s.tx[Sender.Control(o)].left)
  }

  /** What a step leaves as it is, as far as the spreading from o to d goes. */
  ghost predicate Undisturbed(s: State, t: State, o: Name, d: Name)
    requires o in s.nodes && d in s.nodes
  {
    && o in t.nodes && d in t.nodes && s.nodes[d].accepted <= t.nodes[d].accepted
    && (t.nodes[o].control.CDone? ==> t.nodes[o].control == s.nodes[o].control)
    && (Sender.Control(o) in s.tx ==> Sender.Control(o) in t.tx && t.tx[Sender.Control(o)] == s.tx[Sender.Control(o)])
  }

  lemma UndisturbedSpreads(s: State, t: State, o: Name, d: Name)
    requires o in s.nodes && d in s.nodes && Spread(s, o, d) && Undisturbed(s, t, o, d)
    ensures Spread(t, o, d)
  {
    var more := t.nodes[d].accepted[|s.nodes[d].accepted|..];
    assert t.nodes[d].accepted == s.nodes[d].accepted + more;
    HasStopAppend(s.nodes[d].accepted, more);
  }

  lemma OwnStepIsUndisturbed(c: Config, s: State, a: Action, o: Name, d: Name)
    requires Shape(c, s) && Enabled(c, s, a) && o in c.names && d in c.names && Own(a) && a != ControlJoin(o)
    requires s.nodes[o].update.UGot? ==> s.nodes[o].control.CNone?
    ensures Undisturbed(s, Apply(c, s, a), o, d)
  {
    hide Enabled, Apply, OwnMay, OwnAfter;
    OwnStep(c, s, a);
    OwnKeepsPuts(c, s, a, Sender.Control(o));
    OwnLeaves(s.nodes[a.n], a);
  }

  lemma PutStepIsUndisturbed(c: Config, s: State, a: Action, o: Name, d: Name)
    requires Shape(c, s) && Enabled(c, s, a) && o in c.names && d in c.names
    requires (a.PutCheck? || a.PutEnqueue?) && a.who != Sender.Control(o)
    ensures Undisturbed(s, Apply(c, s, a), o, d)
  {
    hide Script, Room, OpReady, JoinReady, Stops, Stamped, Propagates;
  }

  lemma OuterStepIsUndisturbed(c: Config, s: State, a: Action, o: Name, d: Name)
    requires Shape(c, s) && Enabled(c, s, a) && o in c.names && d in c.names && (a.PipeStep? || a.External?)
    ensures Undisturbed(s, Apply(c, s, a), o, d)
  {
    hide Enabled, Apply;
    OuterNodes(c, s, a, o);
    OuterNodes(c, s, a, d);
    OuterPuts(c, s, a, Sender.Control(o));
  }

  lemma OuterLeaves(ns: NodeState)
    ensures forall e :: Accept(ns, e).control == ns.control && ns.accepted <= Accept(ns, e).accepted
    ensures forall k, h :: StartThread(ns, k, h).control == ns.control && StartThread(ns, k, h).accepted == ns.accepted
  {
  }

  lemma OuterNodes(c: Config, s: State, a: Action, n: Name)
    requires Shape(c, s) && Enabled(c, s, a) && n in c.names && (a.PipeStep? || a.External?)
    ensures n in Apply(c, s, a).nodes && Apply(c, s, a).nodes[n].control == s.nodes[n].control
    ensures s.nodes[n].accepted <= Apply(c, s, a).nodes[n].accepted
  {
    hide Script, Room, OpReady, JoinReady, Stops, Propagates, BeginTx, StartThread, Accept;
    BeginKeepsNodes();
    OuterLeaves(s.nodes[n]);
  }

  // ----- every step keeps it -----

  lemma JoinSpreads(c: Config, s: State, o: Name, d: Name)
    requires Shape(c, s) && Enabled(c, s, ControlJoin(o)) && Origin(c, o, d) && d in c.names
    ensures o in Apply(c, s, ControlJoin(o)).nodes && d in Apply(c, s, ControlJoin(o)).nodes
    ensures Spread(Apply(c, s, ControlJoin(o)), o, d)
  {
    hide Script, Stamped, Propagates, HasStop;
  }

  lemma PutSpreads(c: Config, s: State, a: Action, o: Name, d: Name)
    requires Inv(c, s) && WellFormed(c) && Enabled(c, s, a) && Origin(c, o, d) && o in c.names && d in c.names
    requires (a.PutCheck? || a.PutEnqueue?) && a.who == Sender.Control(o) && Spread(s, o, d)
    ensures o in Apply(c, s, a).nodes && d in Apply(c, s, a).nodes && Spread(Apply(c, s, a), o, d)
  {
    hide NodesOk, TxsOk, Quiet, Streams, Signals, ScriptOk, Script, WellFormed, Room, Stops;
    var t := s.tx[a.who];
    ControlPuts(c, s, o);
    if t.left[0] == d {
      var e := Entry(a.who, t.msg);
      HasStopAppend(s.nodes[d].accepted, [e]);
      assert e in [e];
      DrainingMeansStop(c, s, d);
    }
  }

  lemma ControlPuts(c: Config, s: State, o: Name)
    requires Inv(c, s) && Sender.Control(o) in s.tx
    ensures Stops(s.tx[Sender.Control(o)].msg)
  {
    hide NodesOk, Quiet, Streams, Signals, ScriptOk, Script;
    assert TxOk(c, s, Sender.Control(o), s.tx[Sender.Control(o)]);
  }

  lemma DrainingMeansStop(c: Config, s: State, d: Name)
    requires Inv(c, s) && d in c.names
    ensures s.nodes[d].draining ==> HasStop(s.nodes[d].accepted)
  {
    hide TxsOk, Quiet, Streams, Signals, ScriptOk, Script;
    NodeFacts(c, s, d);
    if s.nodes[d].draining {
      StopWasAccepted(s.nodes[d]);
    }
  }

  lemma StepSpreads(c: Config, s: State, a: Action, o: Name, d: Name)
    requires Inv(c, s) && WellFormed(c) && Enabled(c, s, a) && Origin(c, o, d) && o in c.names && d in c.names
    requires Spread(s, o, d)
    ensures o in Apply(c, s, a).nodes && d in Apply(c, s, a).nodes && Spread(Apply(c, s, a), o, d)
  {
    hide NodesOk, TxsOk, Quiet, Streams, Signals, ScriptOk, Script, WellFormed, Enabled, Apply, Spread, Undisturbed;
    NodeFacts(c, s, o);
    if a == ControlJoin(o) {
      JoinSpreads(c, s, o, d);
    } else if (a.PutCheck? || a.PutEnqueue?) && a.who == Sender.Control(o) {
      PutSpreads(c, s, a, o, d);
    } else {
      StepIsUndisturbed(c, s, a, o, d);
      StepKeepsInv(c, s, a);
      UndisturbedSpreads(s, Apply(c, s, a), o, d);
    }
  }

  lemma StepIsUndisturbed(c: Config, s: State, a: Action, o: Name, d: Name)
    requires Shape(c, s) && Enabled(c, s, a) && o in c.names && d in c.names && a != ControlJoin(o)
    requires !((a.PutCheck? || a.PutEnqueue?) && a.who == Sender.Control(o))
    requires s.nodes[o].update.UGot? ==> s.nodes[o].control.CNone?
    ensures Undisturbed(s, Apply(c, s, a), o, d)
  {
    hide Enabled, Apply, Undisturbed;
    if Own(a) {
      OwnStepIsUndisturbed(c, s, a, o, d);
    } else if a.PutCheck? || a.PutEnqueue? {
      PutStepIsUndisturbed(c, s, a, o, d);
    } else {
      OuterStepIsUndisturbed(c, s, a, o, d);
    }
  }

  /** In every reachable state a stop-propagate that a node is through with has reached, or is still being put to,
    * each of its targets. */
  lemma {:induction false} AlwaysSpread(c: Config, run: seq<State>, o: Name, d: Name)
    requires WellFormed(c) && Run(c, run) && Origin(c, o, d) && o in c.names && d in c.names
    ensures o in Last(run).nodes && d in Last(run).nodes && Spread(Last(run), o, d)
    decreases |run|
  {
    hide WellFormed, Inv, Spread, Enabled, Apply;
    if |run| == 1 {
      NothingToSpread(c, o, d);
    } else {
      var before := run[..|run| - 1];
      RunBefore(c, run);
      AlwaysSpread(c, before, o, d);
      RunKeepsInv(c, before);
      InvShape(c, Last(before));
      var a :| Enabled(c, Last(before), a) && Last(run) == Apply(c, Last(before), a);
      StepSpreads(c, Last(before), a, o, d);
    }
  }

  lemma NothingToSpread(c: Config, o: Name, d: Name)
    requires o in c.names && d in c.names
    ensures o in Init(c).nodes && d in Init(c).nodes && Spread(Init(c), o, d)
  {
  }

  // ----- when nothing can move any more -----

  /** No thread can move, no node is clogged, and no source function still owes its last return. */
  ghost predicate AtRest(c: Config, s: State)
    requires Shape(c, s)
  {
    !CanMove(c, s) && forall n :: n in c.names ==> !Clogged(c, s.nodes[n]) && !Calling(s.nodes[n])
  }

  lemma AtRestIsDone(c: Config, s: State, n: Name, level: map<Name, nat>)
    requires Inv(c, s) && WellFormed(c) && Serving(c, s) && Levelled(c, level) && n in c.names && AtRest(c, s)
    requires HasStop(s.nodes[n].accepted)
    ensures Ended(s.nodes[n]) && s.nodes[n].control.CDone?
  {
    hide NodesOk, TxsOk, Quiet, Streams, Signals, ScriptOk, WellFormed, Script, NodeInv, CanPush, CanWindUp, CanMove;
    var ns := s.nodes[n];
    NoMoveNoProgress(c, s, n);
    if !Ended(ns) || !(ns.source.SNew? || ns.source.SEnded?) {
      NodeEnds(c, s, n, level);
    }
    StartedNode(c, s, n);
    StoppedFacts(ns);
    if ns.control.CFlag? {
      MoveIsMove(c, s, ControlFlag(n));
    }
    if ns.control.CJoin? {
      JoinIsReady(ns);
      MoveIsMove(c, s, ControlJoin(n));
    }
  }

  lemma JoinIsReady(ns: NodeState)
    requires NodeInv(ns) && ns.control.CJoin? && Ended(ns) && (ns.source.SNew? || ns.source.SEnded?)
    ensures JoinReady(ns, ns.control.k)
  {
  }

  lemma MoveIsMove(c: Config, s: State, a: Action)
    requires Shape(c, s) && Internal(c, s, a)
    ensures CanMove(c, s)
  {
  }

  /** A stop that meets a node that cannot stop itself, before the pipeline is stopped, is a stop-propagate. */
  lemma StopIsPropagate(c: Config, s: State, d: Name)
    requires Inv(c, s) && !SelfStops(c, d) && d in c.names && Stopping(s.nodes[d])
    requires s.pc <= |StartScript(c.startLayers)|
    ensures !s.nodes[d].control.CNone? && Propagates(s.nodes[d].control.msg)
  {
    hide TxsOk, Quiet, Streams, ScriptOk, Script, StartScript;
    NodeFacts(c, s, d);
    StopWasAccepted(s.nodes[d]);
    var e :| e in s.nodes[d].accepted && e.msg == s.nodes[d].control.msg;
    assert SignalOk(c, s.pc, d, e);
  }

  lemma NextIsStopped(c: Config, s: State, o: Name, d: Name, level: map<Name, nat>)
    requires Inv(c, s) && WellFormed(c) && Serving(c, s) && Levelled(c, level) && AtRest(c, s)
    requires Origin(c, o, d) && o in c.names && d in c.names && Spread(s, o, d) && HandedOn(s.nodes[o])
    ensures HasStop(s.nodes[d].accepted)
  {
    hide NodesOk, TxsOk, Quiet, Streams, Signals, ScriptOk, WellFormed, Script, CanPush, CanMove, HasStop;
    NoMoveNoProgress(c, s, d);
    if Sender.Control(o) in s.tx {
      TxLeft(c, s, Sender.Control(o));
      PutPushes(c, s, Sender.Control(o));
      QueuePushes(c, s, s.tx[Sender.Control(o)].left[0], level);
    }
  }

  /** Stop-propagate comes down to every node: as long as the pipeline's own stop is not called, once nothing can move
    * any more and nothing is clogged, every node that can be reached from one stopped by it, over nodes that cannot
    * stop themselves, is over, and was stopped by it. */
  lemma {:induction false} StopPropagates(c: Config, run: seq<State>, p: seq<Name>)
    requires WellFormed(c) && Run(c, run) && Last(run).pc == |StartScript(c.startLayers)|
    requires Shape(c, Last(run)) && AtRest(c, Last(run))
    requires p != [] && p[0] in c.names && forall i :: 0 <= i < |p| - 1 ==> Origin(c, p[i], p[i + 1])
    requires forall i :: 0 < i < |p| ==> !SelfStops(c, p[i])
    requires Stopping(Last(run).nodes[p[0]]) && !Last(run).nodes[p[0]].control.CNone?
    requires Propagates(Last(run).nodes[p[0]].control.msg)
    ensures Last(p) in c.names && Ended(Last(run).nodes[Last(p)]) && HandedOn(Last(run).nodes[Last(p)])
    decreases |p|
  {
    hide Inv, AtRest, Levelled, HasStop, Spread, StartScript;
    var s := Last(run);
    var level := LevelsExist(c);
    RunKeepsInv(c, run);
    if |p| == 1 {
      StoppingHasStop(c, s, p[0]);
      AtRestIsDone(c, s, p[0], level);
    } else {
      var before := p[..|p| - 1];
      var o, d := Last(before), Last(p);
      assert Origin(c, p[|p| - 2], p[|p| - 1]);
      StopPropagates(c, run, before);
      AlwaysSpread(c, run, o, d);
      NextIsStopped(c, s, o, d, level);
      AtRestIsDone(c, s, d, level);
      StopIsPropagate(c, s, d);
    }
  }

  lemma StoppingHasStop(c: Config, s: State, n: Name)
    requires Inv(c, s) && n in c.names && Stopping(s.nodes[n])
    ensures HasStop(s.nodes[n].accepted)
  {
    hide TxsOk, Quiet, Streams, Signals, ScriptOk, Script;
    NodeFacts(c, s, n);
    StopWasAccepted(s.nodes[n]);
  }
}
