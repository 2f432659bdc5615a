/** Over whole runs: the invariant holds in every reachable state, and so a pipeline whose stop has
  * returned has lost, doubled and reordered nothing along any link. */
module Shutdown {
  import opened Graphs
  import opened Messages
  import opened Nodes
  import opened Systems
  import opened Safety

  // ----- the pipeline's thread -----

  lemma {:induction false} StartLayerPairs(layer: seq<Name>, i: nat)
    requires i < |StartLayer(layer)| && StartLayer(layer)[i].StartOp? && StartLayer(layer)[i].k == 1
    ensures i > 0 && StartLayer(layer)[i - 1] == StartOp(StartLayer(layer)[i].node, 0)
  {
    var init, all := StartLayer(layer[..|layer| - 1]), StartLayer(layer);
    assert all == init + StartNode(Last(layer));
    if i < |init| {
      StartLayerPairs(layer[..|layer| - 1], i);
    } else {
      assert all[i] == StartNode(Last(layer))[i - |init|];
      assert all[i - 1] == StartNode(Last(layer))[i - 1 - |init|];
    }
  }

  lemma {:induction false} StartScriptPairs(layers: seq<seq<Name>>, i: nat)
    requires i < |StartScript(layers)| && StartScript(layers)[i].StartOp? && StartScript(layers)[i].k == 1
    ensures i > 0 && StartScript(layers)[i - 1] == StartOp(StartScript(layers)[i].node, 0)
  {
    var a, b := StartLayer(Last(layers)), StartScript(layers[..|layers| - 1]);
    assert StartScript(layers) == a + b;
    if i < |a| {
      StartLayerOps(Last(layers), a[i]);
      StartLayerPairs(Last(layers), i);
    } else {
      StartScriptPairs(layers[..|layers| - 1], i - |a|);
    }
  }

  lemma UpdateStartsSecond(c: Config, i: nat)
    requires i < |Script(c)| && Script(c)[i].StartOp? && Script(c)[i].k == 1
    ensures i > 0 && Script(c)[i - 1] == StartOp(Script(c)[i].node, 0)
  {
    var a, b := StartScript(c.startLayers), StopScript(c.layers);
    var op := Script(c)[i];
    assert op == if i < |a| then a[i] else if i == |a| then Serve else b[i - |a| - 1];
    StopScriptOps(c.layers, op);
    assert i > |a| ==> op in b;
    StartScriptPairs(c.startLayers, i);
    assert Script(c)[i - 1] == a[i - 1];
  }

  lemma DoneBefore(c: Config, s: State, i: nat)
    requires Shape(c, s) && ScriptOk(c, s) && i < s.pc
    ensures OpDone(c, s, i)
  {
  }

  lemma PcNextKeepsInv(c: Config, s: State)
    requires Inv(c, s) && Pipe !in s.tx && s.pc < |Script(c)| && !Script(c)[s.pc].PutStop?
    requires OpDone(c, s, s.pc)
    ensures Inv(c, s.(pc := s.pc + 1))
  {
    var s' := s.(pc := s.pc + 1);
    PcNextTxs(c, s);
    PcNextRest(c, s);
    forall i | 0 <= i < s'.pc ensures OpDone(c, s', i) {
      assert OpDone(c, s, i);
    }
  }

  lemma PcNextTxs(c: Config, s: State)
    requires Shape(c, s) && TxsOk(c, s) && Pipe !in s.tx && s.pc < |Script(c)|
    ensures TxsOk(c, s.(pc := s.pc + 1))
  {
    var s' := s.(pc := s.pc + 1);
    forall who | who in s'.tx ensures TxOk(c, s', who, s'.tx[who]) {
      assert TxOk(c, s, who, s.tx[who]);
    }
    assert forall who :: Sent(s', who) == Sent(s, who);
  }

  lemma PcNextRest(c: Config, s: State)
    requires Shape(c, s) && s.pc < |Script(c)|
    ensures NodesOk(c, s) ==> NodesOk(c, s.(pc := s.pc + 1))
    ensures Quiet(c, s) ==> Quiet(c, s.(pc := s.pc + 1))
    ensures Signals(c, s) ==> Signals(c, s.(pc := s.pc + 1))
    ensures Streams(c, s) ==> Streams(c, s.(pc := s.pc + 1))
  {
    hide NodeInv, StopsLast, HasStop, From, Script;
    assert forall who, d :: Delivered(s.(pc := s.pc + 1), who, d) == Delivered(s, who, d);
  }

  lemma TxFacts(c: Config, s: State, n: Name)
    requires Shape(c, s) && TxsOk(c, s)
    ensures Worker(n) in s.tx ==> n in c.names && s.nodes[n].worker.WIdle?
    ensures Update(n) in s.tx ==> n in c.names && s.nodes[n].update.UBusy?
    ensures Sender.Control(n) in s.tx ==> n in c.names && s.nodes[n].control.CDone?
    ensures Source(n) in s.tx ==> n in c.names && s.nodes[n].source.SLoop?
  {
    assert Source(n) in s.tx ==> TxOk(c, s, Source(n), s.tx[Source(n)]);
    assert Worker(n) in s.tx ==> TxOk(c, s, Worker(n), s.tx[Worker(n)]);
    assert Update(n) in s.tx ==> TxOk(c, s, Update(n), s.tx[Update(n)]);
    assert Sender.Control(n) in s.tx ==> TxOk(c, s, Sender.Control(n), s.tx[Sender.Control(n)]);
  }

  lemma StartIsLocal(c: Config, s: State, n: Name, k: nat)
    requires Shape(c, s) && TxsOk(c, s) && n in c.names
    requires Onward(s.nodes[n], StartThread(s.nodes[n], k, n in c.sources))
    ensures LocalStep(c, s, n, StartThread(s.nodes[n], k, n in c.sources))
  {
    hide TxsOk;
    TxFacts(c, s, n);
  }

  lemma StartOpKeepsInv(c: Config, s: State, n: Name, k: nat)
    requires Inv(c, s) && Pipe !in s.tx && s.pc < |Script(c)| && Script(c)[s.pc] == StartOp(n, k) && n in c.names
    ensures Inv(c, SetNode(s.(pc := s.pc + 1), n, StartThread(s.nodes[n], k, n in c.sources)))
  {
    hide NodesOk, TxsOk, Quiet, Streams, Signals, ScriptOk, NodeInv, Onward, LocalStep, WellFormed;
    var ns := StartThread(s.nodes[n], k, n in c.sources);
    NodeFacts(c, s, n);
    if k == 1 {
      UpdateStartsSecond(c, s.pc);
      DoneBefore(c, s, s.pc - 1);
    }
    StartKeepsInv(s.nodes[n], k, n in c.sources);
    StartIsLocal(c, s, n, k);
    LocalStepKeepsInv(c, s, n, ns);
    PcNextKeepsInv(c, SetNode(s, n, ns));
  }

  lemma PutStopKeepsInv(c: Config, s: State, n: Name, id: int)
    requires Inv(c, s) && Pipe !in s.tx && s.pc < |Script(c)| && Script(c)[s.pc] == PutStop(n) && n in c.names
    ensures Inv(c, BeginTx(s.(pc := s.pc + 1), Pipe, StopMessage(id), [n]))
  {
    hide NodesOk, TxsOk, Quiet, Streams, Signals, ScriptOk;
    var s1 := s.(pc := s.pc + 1);
    PcNextTxs(c, s);
    PcNextRest(c, s);
    BeginTxs(c, s1, Pipe, StopMessage(id), [n]);
    BeginStreams(c, s1, Pipe, StopMessage(id), [n]);
    BeginRest(c, s1, Pipe, StopMessage(id), [n]);
    PutStopScript(c, s, n, id);
  }

  lemma BeginRest(c: Config, s: State, who: Sender, msg: Message, left: seq<Name>)
    requires Shape(c, s) && NodesOk(c, s) && Quiet(c, s) && Signals(c, s)
    ensures Shape(c, BeginTx(s, who, msg, left)) && NodesOk(c, BeginTx(s, who, msg, left))
    ensures Quiet(c, BeginTx(s, who, msg, left)) && Signals(c, BeginTx(s, who, msg, left))
  {
    hide NodeInv, StopsLast, HasStop;
  }

  lemma PutStopScript(c: Config, s: State, n: Name, id: int)
    requires Shape(c, s) && ScriptOk(c, s) && Pipe !in s.tx
    requires s.pc < |Script(c)| && Script(c)[s.pc] == PutStop(n) && n in c.names
    ensures ScriptOk(c, BeginTx(s.(pc := s.pc + 1), Pipe, StopMessage(id), [n]))
  {
    var s' := BeginTx(s.(pc := s.pc + 1), Pipe, StopMessage(id), [n]);
    forall i | 0 <= i < s'.pc ensures OpDone(c, s', i) {
      assert i < s.pc ==> OpDone(c, s, i);
    }
  }

  lemma JoinOpKeepsInv(c: Config, s: State, n: Name, k: nat)
    requires Inv(c, s) && WellFormed(c) && Pipe !in s.tx && s.pc < |Script(c)| && Script(c)[s.pc] == JoinOp(n, k)
    requires n in c.names && JoinReady(s.nodes[n], k)
    ensures Inv(c, s.(pc := s.pc + 1))
  {
    hide NodesOk, TxsOk, Quiet, Streams, Signals, ScriptOk;
    ScriptStartsFirst(c, s.pc, n, 0);
    ScriptStartsFirst(c, s.pc, n, 1);
    ScriptStartsFirst(c, s.pc, n, 2);
    var i :| 0 <= i < s.pc && Script(c)[i] == StartOp(n, 0);
    var j :| 0 <= j < s.pc && Script(c)[j] == StartOp(n, 1);
    var l :| 0 <= l < s.pc && Script(c)[l] == StartOp(n, 2);
    DoneBefore(c, s, i);
    DoneBefore(c, s, j);
    DoneBefore(c, s, l);
    PcNextKeepsInv(c, s);
  }

  lemma PipeStepKeepsInv(c: Config, s: State, id: int)
    requires Inv(c, s) && WellFormed(c) && Enabled(c, s, PipeStep(id))
    ensures Inv(c, Apply(c, s, PipeStep(id)))
  {
    hide NodesOk, TxsOk, Quiet, Streams, Signals, ScriptOk;
    ScriptNames(c, s.pc);
    match Script(c)[s.pc] {
      case StartOp(n, k) => StartOpKeepsInv(c, s, n, k);
      case Serve => PcNextKeepsInv(c, s);
      case PutStop(n) => PutStopKeepsInv(c, s, n, id);
      case JoinOp(n, k) => JoinOpKeepsInv(c, s, n, k);
    }
  }

  // ----- every step -----

  lemma NodeFacts(c: Config, s: State, n: Name)
    requires Shape(c, s) && NodesOk(c, s) && n in c.names
    ensures NodeInv(s.nodes[n]) && (s.nodes[n].source != SNew ==> n in c.sources)
    ensures s.nodes[n].update.UGot? ==> s.nodes[n].control.CNone?
    ensures s.nodes[n].source.SHave? ==> !Stops(s.nodes[n].source.msg)
  {
  }

  lemma ControlSignal(c: Config, s: State, n: Name)
    requires Shape(c, s) && NodesOk(c, s) && Signals(c, s) && n in c.names
    ensures !s.nodes[n].control.CNone? && Propagates(s.nodes[n].control.msg) ==> c.propagate
  {
    NodeFacts(c, s, n);
    if !s.nodes[n].control.CNone? {
      StopWasAccepted(s.nodes[n]);
    }
  }

  predicate OfWorker(a: Action)
  {
    a.WorkerTake? || a.WorkerDecide? || a.WorkerGive? || a.WorkerQuit?
  }

  predicate OfUpdate(a: Action)
  {
    a.UpdateGet? || a.UpdateBegin? || a.Transmit? || a.UpdateFinish? || a.UpdateQuit?
  }

  predicate OfSource(a: Action)
  {
    a.SourceTop? || a.SourceYield? || a.SourceCheck?
  }

  predicate OfControl(a: Action)
  {
    a.ControlRun? || a.ControlFlag? || a.ControlJoin?
  }

  predicate Own(a: Action)
  {
    OfWorker(a) || OfUpdate(a) || OfSource(a) || OfControl(a)
  }

  /** What a step of a node's own threads asks of the node. */
  predicate OwnMay(ns: NodeState, a: Action)
  {
    match a
    case WorkerTake(_) => ns.worker.WIdle? && ns.inbound != []
    case WorkerDecide(_) => ns.worker.WHold?
    case WorkerGive(_) => ns.worker.WGive?
    case WorkerQuit(_) => ns.worker.WIdle? && ns.stopWorker
    case UpdateGet(_) => ns.update.UIdle? && ns.out != []
    case UpdateBegin(_) => ns.update.UGot?
    case Transmit(_, _) => ns.update.UBusy?
    case UpdateFinish(_) => ns.update.UBusy? && ns.pending > 0
    case UpdateQuit(_) => ns.update.UBreak? || (ns.update.UIdle? && ns.stopUpdate)
    case SourceTop(_) => ns.source.SLoop?
    case SourceYield(_, _) => ns.source.SCall?
    case SourceCheck(_) => ns.source.SHave?
    case ControlRun(_, i) => i < |ns.spawned|
    case ControlFlag(_) => ns.control.CFlag?
    case ControlJoin(_) => ns.control.CJoin?
    case _ => false
  }

  /** What such a step makes of the node. */
  function OwnAfter(ns: NodeState, a: Action): NodeState
    requires OwnMay(ns, a)
  {
    match a
    case WorkerTake(_) => Take(ns)
    case WorkerDecide(_) => Decide(ns)
    case WorkerGive(_) => Give(ns)
    case WorkerQuit(_) => WorkerExit(ns)
    case UpdateGet(_) => Get(ns)
    case UpdateBegin(_) => Begin(ns)
    case Transmit(_, _) => CountSend(ns)
    case UpdateFinish(_) => Finish(ns)
    case UpdateQuit(_) => UpdateExit(ns)
    case SourceTop(_) => SourceLoop(ns)
    case SourceYield(_, msg) => SourceReturn(ns, msg)
    case SourceCheck(_) => SourceGuard(ns)
    case ControlRun(_, i) => RunControl(ns, i)
    case ControlFlag(_) => RaiseFlag(ns)
    case ControlJoin(_) => JoinNext(ns)
  }

  /** A step of a node's own threads changes that node alone. */
  lemma OwnStep(c: Config, s: State, a: Action)
    requires Shape(c, s) && Enabled(c, s, a) && Own(a)
    ensures a.n in c.names && OwnMay(s.nodes[a.n], a)
    ensures Apply(c, s, a).nodes == s.nodes[a.n := OwnAfter(s.nodes[a.n], a)]
  {
    hide Script, Room, OpReady, JoinReady, Stops, Stamped, Propagates, BeginTx, Forwards;
    hide Take, Decide, Give, WorkerExit, Get, Begin, CountSend, Finish, UpdateExit;
    hide SourceLoop, SourceReturn, SourceGuard, RunControl, RaiseFlag, JoinNext;
    BeginKeepsNodes();
  }

  lemma BeginKeepsNodes()
    ensures forall s, who, msg, left :: BeginTx(s, who, msg, left).nodes == s.nodes
  {
  }

  // What each kind of thread leaves alone in its node.

  lemma WorkerLeaves(ns: NodeState, a: Action)
    requires OfWorker(a) && OwnMay(ns, a)
    ensures var t := OwnAfter(ns, a);
      && t.update == ns.update && t.source == ns.source && t.control == ns.control && t.accepted == ns.accepted
      && |ns.out| <= |t.out| && (!a.WorkerDecide? ==> t.disposed == ns.disposed)
      && (ns.worker.WGive? && !a.WorkerGive? ==> false) && !ns.worker.WEnded?
  {
  }

  predicate LeftByUpdate(ns: NodeState, t: NodeState)
  {
    && t.worker == ns.worker && t.source == ns.source && t.accepted == ns.accepted && t.inbound == ns.inbound
    && t.disposed == ns.disposed && (t.control == ns.control || (ns.update.UGot? && t.control.CFlag?))
    && (Stopping(ns) ==> t.update.UEnded? && t.out == ns.out)
  }

  lemma UpdateLeaves(ns: NodeState, a: Action)
    requires OfUpdate(a) && OwnMay(ns, a)
    ensures LeftByUpdate(ns, OwnAfter(ns, a))
  {
    hide LeftByUpdate, Get, Begin, CountSend, Finish, UpdateExit, Stops, IsControl;
    match a {
      case UpdateGet(_) => assert LeftByUpdate(ns, Get(ns)) by { GetLeaves(ns); }
      case UpdateBegin(_) => assert LeftByUpdate(ns, Begin(ns)) by { BeginLeaves(ns); }
      case Transmit(_, _) => assert LeftByUpdate(ns, CountSend(ns)) by { BusyLeaves(ns); }
      case UpdateFinish(_) => assert LeftByUpdate(ns, Finish(ns)) by { BusyLeaves(ns); }
      case UpdateQuit(_) => assert LeftByUpdate(ns, UpdateExit(ns)) by { UpdateExitLeaves(ns); }
    }
  }

  lemma GetLeaves(ns: NodeState)
    requires ns.update.UIdle? && ns.out != []
    ensures LeftByUpdate(ns, Get(ns))
  {
  }

  lemma BeginLeaves(ns: NodeState)
    requires ns.update.UGot?
    ensures LeftByUpdate(ns, Begin(ns))
  {
    hide Stops, IsControl;
    var e := ns.update.entry;
    if !IsControl(e.msg) {
      assert LeftByUpdate(ns, ns.(update := UBusy(e, 0), lastId := Some(e.msg.id), pending := ns.pending + 1));
    }
  }

  lemma BusyLeaves(ns: NodeState)
    requires ns.update.UBusy?
    ensures LeftByUpdate(ns, CountSend(ns)) && (ns.pending > 0 ==> LeftByUpdate(ns, Finish(ns)))
  {
  }

  lemma UpdateExitLeaves(ns: NodeState)
    requires ns.update.UBreak? || (ns.update.UIdle? && ns.stopUpdate)
    ensures LeftByUpdate(ns, UpdateExit(ns))
  {
  }

  predicate LeftBySource(ns: NodeState, t: NodeState)
  {
    && t.worker == ns.worker && t.update == ns.update && t.control == ns.control && t.accepted == ns.accepted
    && t.inbound == ns.inbound && t.out == ns.out && t.disposed == ns.disposed
  }

  lemma SourceLeaves(ns: NodeState, a: Action)
    requires OfSource(a) && OwnMay(ns, a)
    ensures LeftBySource(ns, OwnAfter(ns, a))
  {
    hide LeftBySource, SourceLoop, SourceReturn, SourceGuard, Stops;
    match a {
      case SourceTop(_) => assert LeftBySource(ns, SourceLoop(ns)) by { LoopLeaves(ns); }
      case SourceYield(_, msg) => assert LeftBySource(ns, SourceReturn(ns, msg)) by { ReturnLeaves(ns, msg); }
      case SourceCheck(_) => assert LeftBySource(ns, SourceGuard(ns)) by { LoopLeaves(ns); }
    }
  }

  lemma LoopLeaves(ns: NodeState)
    ensures ns.source.SLoop? ==> LeftBySource(ns, SourceLoop(ns))
    ensures ns.source.SHave? ==> LeftBySource(ns, SourceGuard(ns))
  {
  }

  lemma ReturnLeaves(ns: NodeState, msg: Message)
    requires ns.source.SCall?
    ensures LeftBySource(ns, SourceReturn(ns, msg))
  {
    hide Stops;
  }

  predicate LeftByControl(ns: NodeState, t: NodeState)
  {
    && t.worker == ns.worker && t.update == ns.update && t.source == ns.source && t.accepted == ns.accepted
    && t.inbound == ns.inbound && t.out == ns.out && t.disposed == ns.disposed
  }

  lemma ControlLeaves(ns: NodeState, a: Action)
    requires OfControl(a) && OwnMay(ns, a)
    ensures LeftByControl(ns, OwnAfter(ns, a))
    ensures !a.ControlJoin? ==> OwnAfter(ns, a).control == ns.control || !OwnAfter(ns, a).control.CDone?
  {
    hide LeftByControl, RunControl, RaiseFlag, JoinNext;
    match a {
      case ControlRun(_, i) => RunLeaves(ns, i);
      case ControlFlag(_) => FlagLeaves(ns);
      case ControlJoin(_) => JoinLeaves(ns);
    }
  }

  lemma RunLeaves(ns: NodeState, i: nat)
    requires i < |ns.spawned|
    ensures LeftByControl(ns, RunControl(ns, i)) && RunControl(ns, i).control == ns.control
  {
  }

  lemma FlagLeaves(ns: NodeState)
    requires ns.control.CFlag?
    ensures LeftByControl(ns, RaiseFlag(ns)) && !RaiseFlag(ns).control.CDone?
  {
    hide RaiseFlag;
    RaiseFlagByCases(ns);
  }

  lemma JoinLeaves(ns: NodeState)
    requires ns.control.CJoin?
    ensures LeftByControl(ns, JoinNext(ns))
  {
  }

  lemma OwnLeaves(ns: NodeState, a: Action)
    requires Own(a) && OwnMay(ns, a)
    ensures OwnAfter(ns, a).accepted == ns.accepted
    ensures !a.ControlJoin? ==> OwnAfter(ns, a).control == ns.control || !OwnAfter(ns, a).control.CDone?
  {
    hide OwnMay, OwnAfter;
    if OfWorker(a) {
      WorkerLeaves(ns, a);
    } else if OfUpdate(a) {
      UpdateLeaves(ns, a);
    } else if OfSource(a) {
      SourceLeaves(ns, a);
    } else {
      ControlLeaves(ns, a);
    }
  }

  /** The thread a step is one of. */
  function SenderOf(a: Action): Sender
    requires Own(a)
  {
    if OfWorker(a) then Worker(a.n)
    else if OfUpdate(a) then Update(a.n)
    else if OfSource(a) then Source(a.n)
    else Sender.Control(a.n)
  }

  /** The steps with which a thread may enter `transmit` or `put`. */
  predicate MayPut(a: Action)
  {
    a.WorkerDecide? || a.Transmit? || a.SourceYield? || a.SourceCheck? || a.ControlJoin?
  }

  /** What is put, and what has been sent, by any thread but the one that takes the step. */
  ghost predicate SamePuts(s: State, t: State, w: Sender)
  {
    && (w in t.tx <==> w in s.tx) && (w in s.tx ==> t.tx[w] == s.tx[w])
    && Sent(t, w) == Sent(s, w)
  }

  lemma BeginKeepsOthers(w: Sender)
    ensures forall s, who, msg, left :: who != w ==> SamePuts(s, BeginTx(s, who, msg, left), w)
  {
  }

  lemma SetKeepsPuts(w: Sender)
    ensures forall s, n, ns :: SamePuts(s, SetNode(s, n, ns), w)
    ensures forall s: State, t, u :: SamePuts(s, t, w) && SamePuts(t, u, w) ==> SamePuts(s, u, w)
  {
  }

  lemma OwnKeepsPuts(c: Config, s: State, a: Action, w: Sender)
    requires Shape(c, s) && Enabled(c, s, a) && Own(a) && (w == SenderOf(a) ==> !MayPut(a))
    ensures SamePuts(s, Apply(c, s, a), w)
  {
    hide Script, Room, OpReady, JoinReady, Stops, Stamped, Propagates, BeginTx, SetNode, SamePuts, Forwards;
    hide Take, Decide, Give, WorkerExit, Get, Begin, CountSend, Finish, UpdateExit;
    hide SourceLoop, SourceReturn, SourceGuard, RunControl, RaiseFlag, JoinNext;
    BeginKeepsOthers(w);
    SetKeepsPuts(w);
  }

  lemma OuterPuts(c: Config, s: State, a: Action, w: Sender)
    requires Shape(c, s) && Enabled(c, s, a) && (a.PipeStep? || a.External?) && w != Pipe
    ensures SamePuts(s, Apply(c, s, a), w)
  {
    hide Script, Room, OpReady, JoinReady, Stops, Propagates, BeginTx, SetNode, SamePuts, StartThread;
    BeginKeepsOthers(w);
    SetKeepsPuts(w);
    PcKeepsPuts(s, w);
  }

  lemma PcKeepsPuts(s: State, w: Sender)
    ensures SamePuts(s, s.(pc := s.pc + 1), w)
  {
  }

  lemma WorkerStepKeepsInv(c: Config, s: State, a: Action)
    requires Inv(c, s) && OfWorker(a) && Enabled(c, s, a)
    ensures Inv(c, Apply(c, s, a))
  {
    hide NodesOk, TxsOk, Quiet, Streams, Signals, ScriptOk, NodeInv, Script;
    var n := a.n;
    var ns := s.nodes[n];
    NodeFacts(c, s, n);
    TxFacts(c, s, n);
    match a {
      case WorkerTake(_) => TakeKeepsInv(ns); LocalStepKeepsInv(c, s, n, Take(ns));
      case WorkerDecide(_) =>
        DecideKeepsInv(ns);
        LocalStepKeepsInv(c, s, n, Decide(ns));
        if Forwards(ns) {
          BeginTxKeepsInv(c, SetNode(s, n, Decide(ns)), Worker(n), Stamped(ns, ns.worker.entry.msg), c.dests[n]);
        }
      case WorkerGive(_) => GiveKeepsInv(ns); LocalStepKeepsInv(c, s, n, Give(ns));
      case WorkerQuit(_) => WorkerExitKeepsInv(ns); LocalStepKeepsInv(c, s, n, WorkerExit(ns));
    }
  }

  lemma UpdateBeginKeepsInv(c: Config, s: State, n: Name)
    requires Inv(c, s) && Enabled(c, s, UpdateBegin(n))
    ensures Inv(c, Apply(c, s, UpdateBegin(n)))
  {
    hide NodesOk, TxsOk, Quiet, Streams, Signals, ScriptOk, NodeInv, Script;
    NodeFacts(c, s, n);
    TxFacts(c, s, n);
    BeginKeepsInv(s.nodes[n]);
    LocalStepKeepsInv(c, s, n, Begin(s.nodes[n]));
  }

  lemma UpdateStepKeepsInv(c: Config, s: State, a: Action)
    requires Inv(c, s) && OfUpdate(a) && Enabled(c, s, a)
    ensures Inv(c, Apply(c, s, a))
  {
    hide NodesOk, TxsOk, Quiet, Streams, Signals, ScriptOk, NodeInv, Script;
    var n := a.n;
    var ns := s.nodes[n];
    NodeFacts(c, s, n);
    TxFacts(c, s, n);
    match a {
      case UpdateGet(_) => GetKeepsInv(ns); LocalStepKeepsInv(c, s, n, Get(ns));
      case UpdateBegin(_) => UpdateBeginKeepsInv(c, s, n);
      case Transmit(_, msg) => TransmitKeepsInv(c, s, n, msg);
      case UpdateFinish(_) => FinishKeepsInv(ns); LocalStepKeepsInv(c, s, n, Finish(ns));
      case UpdateQuit(_) => UpdateExitKeepsInv(ns); LocalStepKeepsInv(c, s, n, UpdateExit(ns));
    }
  }

  lemma TransmitKeepsInv(c: Config, s: State, n: Name, msg: Message)
    requires Inv(c, s) && Enabled(c, s, Transmit(n, msg))
    ensures Inv(c, Apply(c, s, Transmit(n, msg)))
  {
    hide NodesOk, TxsOk, Quiet, Streams, Signals, ScriptOk, NodeInv, Script;
    var ns := s.nodes[n];
    NodeFacts(c, s, n);
    TxFacts(c, s, n);
    CountSendKeepsInv(ns);
    LocalStepKeepsInv(c, s, n, CountSend(ns));
    BeginTxKeepsInv(c, SetNode(s, n, CountSend(ns)), Update(n), Stamped(ns, msg), c.dests[n]);
  }

  lemma YieldKeepsInv(c: Config, s: State, n: Name, msg: Message)
    requires Inv(c, s) && Enabled(c, s, SourceYield(n, msg))
    ensures Inv(c, Apply(c, s, SourceYield(n, msg)))
  {
    hide NodesOk, TxsOk, Quiet, Streams, Signals, ScriptOk, NodeInv, Script;
    var ns := s.nodes[n];
    NodeFacts(c, s, n);
    TxFacts(c, s, n);
    SourceReturnKeepsInv(ns, msg);
    LocalStepKeepsInv(c, s, n, SourceReturn(ns, msg));
    if Stops(msg) {
      BeginTxKeepsInv(c, SetNode(s, n, SourceReturn(ns, msg)), Source(n), msg, [n]);
    }
  }

  lemma SourceStepKeepsInv(c: Config, s: State, a: Action)
    requires Inv(c, s) && OfSource(a) && Enabled(c, s, a)
    ensures Inv(c, Apply(c, s, a))
  {
    hide NodesOk, TxsOk, Quiet, Streams, Signals, ScriptOk, NodeInv, Script;
    var n := a.n;
    var ns := s.nodes[n];
    NodeFacts(c, s, n);
    TxFacts(c, s, n);
    match a {
      case SourceTop(_) => SourceLoopKeepsInv(ns); LocalStepKeepsInv(c, s, n, SourceLoop(ns));
      case SourceYield(_, msg) => YieldKeepsInv(c, s, n, msg);
      case SourceCheck(_) =>
        SourceGuardKeepsInv(ns);
        LocalStepKeepsInv(c, s, n, SourceGuard(ns));
        if !ns.stopSource {
          BeginTxKeepsInv(c, SetNode(s, n, SourceGuard(ns)), Source(n), ns.source.msg, [n]);
        }
    }
  }

  lemma ControlStepKeepsInv(c: Config, s: State, a: Action)
    requires Inv(c, s) && OfControl(a) && Enabled(c, s, a)
    ensures Inv(c, Apply(c, s, a))
  {
    hide NodesOk, TxsOk, Quiet, Streams, Signals, ScriptOk, NodeInv, Script;
    var n := a.n;
    var ns := s.nodes[n];
    NodeFacts(c, s, n);
    TxFacts(c, s, n);
    match a {
      case ControlRun(_, i) => RunControlKeepsInv(ns, i); LocalStepKeepsInv(c, s, n, RunControl(ns, i));
      case ControlFlag(_) => ControlFlagKeepsInv(c, s, n);
      case ControlJoin(_) => ControlJoinKeepsInv(c, s, n);
    }
  }

  lemma ControlFlagKeepsInv(c: Config, s: State, n: Name)
    requires Inv(c, s) && Enabled(c, s, ControlFlag(n))
    ensures Inv(c, Apply(c, s, ControlFlag(n)))
  {
    hide NodesOk, TxsOk, Quiet, Streams, Signals, ScriptOk, NodeInv, Script;
    NodeFacts(c, s, n);
    TxFacts(c, s, n);
    RaiseFlagKeepsInv(s.nodes[n]);
    LocalStepKeepsInv(c, s, n, RaiseFlag(s.nodes[n]));
  }

  lemma ControlJoinKeepsInv(c: Config, s: State, n: Name)
    requires Inv(c, s) && Enabled(c, s, ControlJoin(n))
    ensures Inv(c, Apply(c, s, ControlJoin(n)))
  {
    hide NodesOk, TxsOk, Quiet, Streams, Signals, ScriptOk, NodeInv, Script;
    var ns := s.nodes[n];
    NodeFacts(c, s, n);
    TxFacts(c, s, n);
    JoinNextKeepsInv(ns);
    ControlSignal(c, s, n);
    LocalStepKeepsInv(c, s, n, JoinNext(ns));
    if JoinNext(ns).control.CDone? && Propagates(ns.control.msg) {
      BeginTxKeepsInv(c, SetNode(s, n, JoinNext(ns)), Sender.Control(n), Stamped(ns, ns.control.msg), c.dests[n]);
    }
  }

  lemma PutStepKeepsInv(c: Config, s: State, who: Sender)
    requires Inv(c, s) && WellFormed(c)
    ensures Enabled(c, s, PutCheck(who)) ==> Inv(c, Apply(c, s, PutCheck(who)))
    ensures Enabled(c, s, PutEnqueue(who)) ==> Inv(c, Apply(c, s, PutEnqueue(who)))
  {
    hide NodesOk, TxsOk, Quiet, Streams, Signals, ScriptOk;
    if Enabled(c, s, PutCheck(who)) {
      if s.nodes[s.tx[who].left[0]].draining {
        DropKeepsInv(c, s, who);
      } else {
        CheckKeepsInv(c, s, who);
      }
    }
    if Enabled(c, s, PutEnqueue(who)) {
      DeliverKeepsInv(c, s, who);
    }
  }

  lemma CheckKeepsInv(c: Config, s: State, who: Sender)
    requires Inv(c, s) && who in s.tx
    ensures Inv(c, s.(tx := s.tx[who := s.tx[who].(checked := true)]))
  {
    hide NodesOk, ScriptOk, Quiet, Signals, From, Script;
    var s' := s.(tx := s.tx[who := s.tx[who].(checked := true)]);
    forall w | w in s'.tx ensures TxOk(c, s', w, s'.tx[w]) {
      assert TxOk(c, s, w, s.tx[w]);
    }
    assert forall w :: Sent(s', w) == Sent(s, w);
    assert forall w, d :: Delivered(s', w, d) == Delivered(s, w, d);
    CheckRest(c, s, who);
  }

  lemma CheckRest(c: Config, s: State, who: Sender)
    requires Shape(c, s) && NodesOk(c, s) && Quiet(c, s) && Signals(c, s) && ScriptOk(c, s) && who in s.tx
    ensures var s' := s.(tx := s.tx[who := s.tx[who].(checked := true)]);
            Shape(c, s') && NodesOk(c, s') && Quiet(c, s') && Signals(c, s') && ScriptOk(c, s')
  {
    hide NodeInv, StopsLast, HasStop, Script;
    var s' := s.(tx := s.tx[who := s.tx[who].(checked := true)]);
    forall i | 0 <= i < s.pc ensures OpDone(c, s', i) {
      assert OpDone(c, s, i);
    }
  }

  lemma StepKeepsInv(c: Config, s: State, a: Action)
    requires Inv(c, s) && WellFormed(c) && Enabled(c, s, a)
    ensures Inv(c, Apply(c, s, a))
  {
    hide NodesOk, TxsOk, Quiet, Streams, Signals, ScriptOk;
    if OfWorker(a) {
      WorkerStepKeepsInv(c, s, a);
    } else if OfUpdate(a) {
      UpdateStepKeepsInv(c, s, a);
    } else if OfSource(a) {
      SourceStepKeepsInv(c, s, a);
    } else if OfControl(a) {
      ControlStepKeepsInv(c, s, a);
    } else {
      match a {
        case PutCheck(who) => PutStepKeepsInv(c, s, who);
        case PutEnqueue(who) => PutStepKeepsInv(c, s, who);
        case PipeStep(id) => PipeStepKeepsInv(c, s, id);
        case External(n, id, signal) =>
          ExternalKeepsInv(c, s, n, Entry(Outside, Message(id, "", Payload.Control(signal), None)));
      }
    }
  }

  lemma InitInv(c: Config)
    requires WellFormed(c)
    ensures Inv(c, Init(c))
  {
  }

  lemma RunBefore(c: Config, run: seq<State>)
    requires Run(c, run) && |run| > 1
    ensures Run(c, run[..|run| - 1]) && Next(c, Last(run[..|run| - 1]), Last(run))
  {
    var before := run[..|run| - 1];
    forall i | 0 <= i < |before| - 1 ensures Next(c, before[i], before[i + 1]) {
      assert Next(c, run[i], run[i + 1]);
    }
    assert Next(c, run[|run| - 2], run[|run| - 1]);
  }

  lemma {:induction false} RunKeepsInv(c: Config, run: seq<State>)
    requires WellFormed(c) && Run(c, run)
    ensures Inv(c, Last(run))
    decreases |run|
  {
    if |run| == 1 {
      InitInv(c);
    } else {
      var before := run[..|run| - 1];
      RunBefore(c, run);
      RunKeepsInv(c, before);
      var a :| Enabled(c, Last(before), a) && Last(run) == Apply(c, Last(before), a);
      StepKeepsInv(c, Last(before), a);
    }
  }

  // ----- forwarding is sending -----

  /** What was sent is what was forwarded, message by message, except for the stamp put on it. */
  ghost predicate SentOn(forwarded: seq<Entry>, sent: seq<Message>)
  {
    && |forwarded| == |sent|
    && forall i :: 0 <= i < |sent| ==> sent[i] == forwarded[i].msg.(dataSource := sent[i].dataSource)
  }

  /** Only the worker's decision adds to what a node has disposed of. */
  lemma DisposedFrame(c: Config, s: State, a: Action, n: Name)
    requires Shape(c, s) && Enabled(c, s, a) && n in c.names && !(a.WorkerDecide? && a.n == n)
    ensures n in Apply(c, s, a).nodes && Apply(c, s, a).nodes[n].disposed == s.nodes[n].disposed
  {
    if Own(a) {
      hide Enabled, Apply, OwnMay, OwnAfter;
      OwnStep(c, s, a);
      if a.n == n {
        OwnDisposes(s.nodes[n], a);
      }
    } else {
      DisposedFromOutside(c, s, a, n);
    }
  }

  lemma OwnDisposes(ns: NodeState, a: Action)
    requires OwnMay(ns, a) && !a.WorkerDecide?
    ensures OwnAfter(ns, a).disposed == ns.disposed
  {
    hide OwnAfter;
    if OfWorker(a) {
      WorkerLeaves(ns, a);
    } else if OfUpdate(a) {
      UpdateLeaves(ns, a);
    } else if OfSource(a) {
      SourceLeaves(ns, a);
    } else {
      ControlLeaves(ns, a);
    }
  }

  lemma DisposedFromOutside(c: Config, s: State, a: Action, n: Name)
    requires Shape(c, s) && Enabled(c, s, a) && n in c.names
    requires !Own(a)
    ensures n in Apply(c, s, a).nodes && Apply(c, s, a).nodes[n].disposed == s.nodes[n].disposed
  {
    hide Script, Room, OpReady, JoinReady, Stops, Stamped, Propagates;
  }

  /** Only its decision to forward makes a worker transmit, and only its decisions dispose of anything. */
  lemma ForwardingFrame(c: Config, s: State, a: Action, n: Name)
    requires Shape(c, s) && Enabled(c, s, a) && n in c.names && !(a.WorkerDecide? && a.n == n)
    ensures n in Apply(c, s, a).nodes && Apply(c, s, a).nodes[n].disposed == s.nodes[n].disposed
    ensures Sent(Apply(c, s, a), Worker(n)) == Sent(s, Worker(n))
  {
    DisposedFrame(c, s, a, n);
    if Own(a) {
      hide Enabled, Apply;
      OwnKeepsPuts(c, s, a, Worker(n));
    } else {
      SentFromOutside(c, s, a, n);
    }
  }

  lemma BeginSends(s: State, who: Sender, msg: Message, left: seq<Name>, w: Sender)
    ensures Sent(BeginTx(s, who, msg, left), w) == Sent(s, w) + (if w == who then [msg] else [])
  {
  }

  lemma SentFromOutside(c: Config, s: State, a: Action, n: Name)
    requires Shape(c, s) && Enabled(c, s, a) && n in c.names
    requires !Own(a)
    ensures Sent(Apply(c, s, a), Worker(n)) == Sent(s, Worker(n))
  {
    hide Script, Room, OpReady, JoinReady, Stops, Stamped, Propagates;
  }

  lemma SentOnSnoc(forwarded: seq<Entry>, sent: seq<Message>, e: Entry, stamp: Option<int>)
    requires SentOn(forwarded, sent)
    ensures SentOn(forwarded + [e], sent + [e.msg.(dataSource := stamp)])
  {
  }

  lemma DecisionSends(c: Config, s: State, n: Name)
    requires Shape(c, s) && Enabled(c, s, WorkerDecide(n))
    requires SentOn(Forwarded(s.nodes[n].disposed), Sent(s, Worker(n)))
    ensures var t := Apply(c, s, WorkerDecide(n));
      n in t.nodes && SentOn(Forwarded(t.nodes[n].disposed), Sent(t, Worker(n)))
  {
    hide Script, SentOn, Forwarded, Sent;
    var ns := s.nodes[n];
    var e := ns.worker.entry;
    EntriesSnoc(ns.disposed, Disposal(e, Forwards(ns)));
    BeginSends(SetNode(s, n, Decide(ns)), Worker(n), Stamped(ns, e.msg), c.dests[n], Worker(n));
    LocalSends(s, n, Decide(ns), Worker(n));
    SentOnSnoc(Forwarded(ns.disposed), Sent(s, Worker(n)), e, ns.lastId);
    SnocNothing(Forwarded(ns.disposed));
  }

  lemma LocalSends(s: State, n: Name, ns: NodeState, w: Sender)
    ensures Sent(SetNode(s, n, ns), w) == Sent(s, w)
  {
  }

  /** In every reachable state a worker has transmitted exactly what its node has forwarded, in that order. */
  lemma {:induction false} ForwardedIsSent(c: Config, run: seq<State>, n: Name)
    requires WellFormed(c) && Run(c, run) && n in c.names
    ensures n in Last(run).nodes && SentOn(Forwarded(Last(run).nodes[n].disposed), Sent(Last(run), Worker(n)))
    decreases |run|
  {
    hide WellFormed, Inv, SentOn;
    if |run| == 1 {
      NothingSent(c, n);
    } else {
      var before := run[..|run| - 1];
      RunBefore(c, run);
      ForwardedIsSent(c, before, n);
      RunKeepsInv(c, before);
      InvShape(c, Last(before));
      var a :| Enabled(c, Last(before), a) && Last(run) == Apply(c, Last(before), a);
      if a == WorkerDecide(n) {
        DecisionSends(c, Last(before), n);
      } else {
        ForwardingFrame(c, Last(before), a, n);
      }
    }
  }

  lemma NothingSent(c: Config, n: Name)
    requires n in c.names
    ensures n in Init(c).nodes && SentOn(Forwarded(Init(c).nodes[n].disposed), Sent(Init(c), Worker(n)))
  {
  }

  lemma InvShape(c: Config, s: State)
    requires Inv(c, s)
    ensures Shape(c, s)
  {
  }

  // ----- what a node has done when it stops -----

  /** A node's queue, its buffer and the hands of its threads hold, in order and once each, exactly
    * the accepted messages that have not been dealt with, in every reachable state; and what its
    * worker has taken past the buffer is exactly what it has transmitted. */
  lemma NodeIsOneQueue(c: Config, run: seq<State>, n: Name)
    requires WellFormed(c) && Run(c, run) && n in c.names
    ensures n in Last(run).nodes && Flow(Last(run).nodes[n])
    ensures forall d :: d in Last(run).nodes[n].disposed && d.forwarded ==> !IsControl(d.entry.msg)
    ensures SentOn(Forwarded(Last(run).nodes[n].disposed), Sent(Last(run), Worker(n)))
  {
    ForwardedIsSent(c, run, n);
    RunKeepsInv(c, run);
    NodeFacts(c, Last(run), n);
  }

  /** A prefix of what was kept is what was kept of a prefix that ends in a kept entry. */
  lemma {:induction false} KeptPrefix(q: seq<Disposal>, h: seq<Entry>) returns (m: nat)
    requires h != [] && h <= Kept(q)
    ensures 0 < m <= |q| && Kept(q[..m]) == h && !q[m - 1].forwarded
  {
    var init := q[..|q| - 1];
    if h <= Kept(init) {
      m := KeptPrefix(init, h);
      assert q[..m] == init[..m];
    } else {
      m := |q|;
      assert q[..m] == q;
    }
  }

  lemma {:induction false} NoEarlierStop(q: seq<Disposal>, h: seq<Entry>)
    requires q != [] && !Last(q).forwarded && Kept(q) == h && h != [] && !HasStop(h[..|h| - 1])
    requires forall d :: d in q && d.forwarded ==> !IsControl(d.entry.msg)
    ensures Last(q).entry == Last(h) && !HasStop(Entries(q[..|q| - 1]))
  {
    var init := q[..|q| - 1];
    assert Kept(init) == h[..|h| - 1];
    assert forall d :: d in init ==> d in q;
    forall e | e in Entries(init) ensures !Stops(e.msg) {
      KeptAreEntries(init, e);
      ForwardedAreData(init, e);
    }
  }

  lemma {:induction false} ForwardedAreData(q: seq<Disposal>, e: Entry)
    requires forall d :: d in q && d.forwarded ==> !IsControl(d.entry.msg)
    ensures e in Forwarded(q) ==> !IsControl(e.msg)
  {
    if q != [] {
      assert Last(q) in q && forall x :: x in q[..|q| - 1] ==> x in q;
      ForwardedAreData(q[..|q| - 1], e);
    }
  }

  lemma {:induction false} EntriesPrefix(q: seq<Disposal>, m: nat)
    requires m <= |q|
    ensures |Entries(q)| == |q| && Entries(q[..m]) == Entries(q)[..m]
  {
    if m < |q| {
      EntriesPrefix(q[..|q| - 1], m);
      assert q[..|q| - 1][..m] == q[..m];
    } else {
      assert q[..m] == q;
      if q != [] { EntriesPrefix(q[..|q| - 1], m - 1); }
    }
  }

  /** The first m accepted messages are those up to the first stop, and the node is done with them. */
  ghost predicate DrainedUpTo(ns: NodeState, m: nat)
  {
    && 0 < m <= |ns.accepted| && m <= |ns.disposed|
    && Stops(ns.accepted[m - 1].msg) && !HasStop(ns.accepted[..m - 1])
    && Entries(ns.disposed[..m]) == ns.accepted[..m]
    && Kept(ns.disposed[..m]) == ns.handled
  }

  lemma StoppedIsDrained(ns: NodeState) returns (m: nat)
    requires NodeInv(ns) && Stopping(ns)
    ensures DrainedUpTo(ns, m)
  {
    hide Threads, Kept, Entries;
    m := KeptPrefix(ns.disposed, ns.handled);
    var mine := ns.disposed[..m];
    assert mine[..m - 1] == ns.disposed[..m - 1] && forall d :: d in mine ==> d in ns.disposed;
    NoEarlierStop(mine, ns.handled);
    AcceptedPrefix(ns, m);
    AcceptedPrefix(ns, m - 1);
    assert mine == mine[..m - 1] + [Last(mine)];
    EntriesSnoc(mine[..m - 1], Last(mine));
    assert |ns.accepted[..m - 1]| == m - 1;
    assert ns.accepted[m - 1] == ns.accepted[..m][m - 1] == Last(mine).entry;
  }

  lemma AcceptedPrefix(ns: NodeState, m: nat)
    requires Flow(ns) && m <= |ns.disposed|
    ensures m <= |ns.accepted| && ns.accepted[..m] == Entries(ns.disposed[..m])
  {
    hide Kept;
    EntriesPrefix(ns.disposed, m);
    PrefixOfSum(Entries(ns.disposed), InWorker(ns) + ns.inbound, m);
    assert ns.accepted == Entries(ns.disposed) + (InWorker(ns) + ns.inbound);
  }

  lemma PrefixOfSum<T>(p: seq<T>, q: seq<T>, m: nat)
    requires m <= |p|
    ensures (p + q)[..m] == p[..m]
  {
  }

  /** When the update thread is over, the node has dealt, in order, with everything accepted up to
    * and including the first stop: each message was updated or, while suspended, sent on. */
  lemma StopDrainsNode(c: Config, run: seq<State>, n: Name)
    requires WellFormed(c) && Run(c, run) && n in c.names
    requires n in Last(run).nodes && Stopping(Last(run).nodes[n])
    ensures exists m :: DrainedUpTo(Last(run).nodes[n], m)
    ensures SentOn(Forwarded(Last(run).nodes[n].disposed), Sent(Last(run), Worker(n)))
  {
    ForwardedIsSent(c, run, n);
    RunKeepsInv(c, run);
    NodeFacts(c, Last(run), n);
    var m := StoppedIsDrained(Last(run).nodes[n]);
  }

  // ----- what a link has carried when its target stops -----

  lemma {:induction false} NothingAfterStop(p: seq<Entry>, q: seq<Entry>, who: Sender)
    requires StopsLast(p + q) && HasStop(p) && IsFeeder(who)
    ensures From(p + q, who) == From(p, who)
  {
    if q == [] {
      assert p + q == p;
    } else {
      var init := q[..|q| - 1];
      var all := p + q;
      assert all == (p + init) + [Last(q)];
      assert forall i :: 0 <= i < |p + init| ==> (p + init)[i] == all[i];
      NothingAfterStop(p, init, who);
      FromSnoc(p + init, Last(q), who);
      var e :| e in p && Stops(e.msg);
      var i :| 0 <= i < |p| && p[i] == e;
      assert all[i] == e && all[|all| - 1] == Last(q);
    }
  }

  lemma NoStopBeforeFeeder(before: seq<Entry>, e: Entry)
    requires StopsLast(before + [e]) && IsFeeder(e.sender)
    ensures !HasStop(before)
  {
    forall x | x in before ensures !Stops(x.msg) {
      var i :| 0 <= i < |before| && before[i] == x;
      assert (before + [e])[i] == x && (before + [e])[|before|] == e;
    }
  }

  lemma {:induction false} KeptStopsLast(q: seq<Disposal>)
    requires StopsLast(Entries(q))
    ensures StopsLast(Kept(q))
  {
    if q != [] {
      var init, e := q[..|q| - 1], Last(q).entry;
      var before, all := Entries(init), Entries(q);
      assert all == before + [e];
      assert forall i :: 0 <= i < |before| ==> before[i] == all[i];
      KeptStopsLast(init);
      if IsFeeder(e.sender) {
        NoStopBeforeFeeder(before, e);
        forall x | x in Kept(init) ensures !Stops(x.msg) {
          KeptAreEntries(init, x);
        }
      }
      StopsLastSnoc(Kept(init), e);
    }
  }

  /** All of it, in order, shared out between two parts that each keep the order. */
  ghost predicate Interleaves(all: seq<Message>, a: seq<Message>, b: seq<Message>)
  {
    if all == [] then a == [] && b == []
    else
      || (a != [] && Last(a) == Last(all) && Interleaves(all[..|all| - 1], a[..|a| - 1], b))
      || (b != [] && Last(b) == Last(all) && Interleaves(all[..|all| - 1], a, b[..|b| - 1]))
  }

  lemma InterleavesSnoc(all: seq<Message>, a: seq<Message>, b: seq<Message>, m: Message)
    requires Interleaves(all, a, b)
    ensures Interleaves(all + [m], a + [m], b) && Interleaves(all + [m], a, b + [m])
  {
    assert (all + [m])[..|all|] == all && (a + [m])[..|a|] == a && (b + [m])[..|b|] == b;
  }

  /** What one sender put in is shared out between what was kept and what was forwarded. */
  lemma {:induction false} KeptOrForwarded(q: seq<Disposal>, who: Sender)
    ensures Interleaves(From(Entries(q), who), From(Kept(q), who), From(Forwarded(q), who))
  {
    if q != [] {
      var init, d := q[..|q| - 1], Last(q);
      KeptOrForwarded(init, who);
      FromSnoc(Entries(init), d.entry, who);
      FromSnoc(Kept(init), d.entry, who);
      FromSnoc(Forwarded(init), d.entry, who);
      InterleavesSnoc(From(Entries(init), who), From(Kept(init), who), From(Forwarded(init), who), d.entry.msg);
      SnocNothing(Kept(init));
      SnocNothing(Forwarded(init));
      assert From(Entries(init), who) + [] == From(Entries(init), who);
      assert From(Kept(init), who) + [] == From(Kept(init), who);
      assert From(Forwarded(init), who) + [] == From(Forwarded(init), who);
    }
  }

  lemma SnocNothing(q: seq<Entry>)
    ensures q + [] == q
  {
  }

  /** Whenever a node that is not exposed has met a stop, from whatever side it came, every node linked to it has
    * ended, and the stopped node has dealt with all that those nodes ever sent it: each message was updated
    * or, if the node was suspended, sent on by its worker, exactly once and in the order sent. */
  lemma StoppedNodeMissedNothing(c: Config, run: seq<State>, o: Name, d: Name, who: Sender)
    requires WellFormed(c) && Run(c, run) && Feeds(c, o, d) && who in {Worker(o), Update(o)}
    requires d in Last(run).nodes && Stopping(Last(run).nodes[d])
    ensures o in Last(run).nodes && Ended(Last(run).nodes[o])
    ensures var ns := Last(run).nodes[d];
      && Interleaves(Sent(Last(run), who), From(ns.handled, who), From(Forwarded(ns.disposed), who))
      && SentOn(Forwarded(ns.disposed), Sent(Last(run), Worker(d)))
  {
    hide Interleaves, SentOn, Forwarded, Kept, Entries;
    RunKeepsInv(c, run);
    StoppedTarget(c, Last(run), o, d, who);
    KeptOrForwarded(Last(run).nodes[d].disposed, who);
    ForwardedIsSent(c, run, d);
  }

  lemma StoppedTarget(c: Config, s: State, o: Name, d: Name, who: Sender)
    requires Inv(c, s) && Feeds(c, o, d) && o in c.names && d in c.names && who in {Worker(o), Update(o)}
    requires Stopping(s.nodes[d])
    ensures Ended(s.nodes[o])
    ensures From(Entries(s.nodes[d].disposed), who) == Sent(s, who)
    ensures From(Kept(s.nodes[d].disposed), who) == From(s.nodes[d].handled, who)
  {
    hide NodesOk, TxsOk, Signals, ScriptOk, Script, From;
    NodeFacts(c, s, d);
    StopWasAccepted(s.nodes[d]);
    TxFacts(c, s, o);
    assert From(s.nodes[d].accepted, who) == Delivered(s, who, d);
    StopsAreLast(c, s, d);
    StoppedFlow(s.nodes[d], who);
  }

  lemma StopsAreLast(c: Config, s: State, d: Name)
    requires Shape(c, s) && NodesOk(c, s) && d in c.names && !Exposed(c, d)
    ensures StopsLast(s.nodes[d].accepted)
  {
  }

  lemma StoppedFlow(ns: NodeState, who: Sender)
    requires NodeInv(ns) && StopsLast(ns.accepted) && Stopping(ns) && IsFeeder(who)
    ensures From(Entries(ns.disposed), who) == From(ns.accepted, who)
    ensures From(Kept(ns.disposed), who) == From(ns.handled, who)
  {
    var e := Last(ns.handled);
    var q, rest := Entries(ns.disposed), InWorker(ns) + ns.inbound;
    var kept := InUpdate(ns) + ns.out + ToBuffer(ns);
    assert ns.accepted == q + rest && Kept(ns.disposed) == ns.handled + kept;
    assert e in ns.handled && e in Kept(ns.disposed);
    KeptAreEntries(ns.disposed, e);
    NothingAfterStop(q, rest, who);
    assert forall i :: 0 <= i < |q| ==> q[i] == ns.accepted[i];
    KeptStopsLast(ns.disposed);
    NothingAfterStop(ns.handled, kept, who);
  }

  /** When `stop` has returned, every worker, update and source thread has ended. */
  lemma PipelineStopEndsAll(c: Config, run: seq<State>, n: Name)
    requires WellFormed(c) && Run(c, run) && n in c.names && Last(run).pc == |Script(c)|
    ensures n in Last(run).nodes && Ended(Last(run).nodes[n])
    ensures n in c.sources ==> Last(run).nodes[n].source.SEnded?
  {
    RunKeepsInv(c, run);
    StoppedMeansEnded(c, Last(run), n);
  }

  lemma StoppedMeansEnded(c: Config, s: State, n: Name)
    requires WellFormed(c) && Inv(c, s) && n in c.names && s.pc == |Script(c)|
    ensures n in s.nodes && Ended(s.nodes[n]) && (n in c.sources ==> s.nodes[n].source.SEnded?)
  {
    ScriptJoinsAll(c, n, 1);
    ScriptJoinsAll(c, n, 2);
    ScriptJoinsAll(c, n, 3);
    var l :| 0 <= l < |Script(c)| && Script(c)[l] == JoinOp(n, 1);
    DoneBefore(c, s, l);
    var i :| 0 <= i < |Script(c)| && Script(c)[i] == JoinOp(n, 2);
    var j :| 0 <= j < |Script(c)| && Script(c)[j] == JoinOp(n, 3);
    DoneBefore(c, s, i);
    DoneBefore(c, s, j);
  }
}
