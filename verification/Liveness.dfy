/** That the runtime never waits for itself: while messages are on their way, or a stop is, the messages or the
  * stop can be moved on, except at a node that is clogged: its stop met, and a queue full behind it for good. */
module Liveness {
  import opened Graphs
  import opened Messages
  import opened Nodes
  import opened Systems
  import opened Safety
  import opened Shutdown
  import opened Clogs

  /** Links lead to strictly lower levels. */
  ghost predicate Levelled(c: Config, level: map<Name, nat>)
  {
    && c.names <= level.Keys
    && forall o, d :: Origin(c, o, d) && o in c.names && d in c.names ==> level[d] < level[o]
  }

  /** The first layer a name is in. */
  function FirstLayer(layers: seq<seq<Name>>, n: Name): nat
  {
    if layers == [] then 0
    else if n in Flatten(layers[..|layers| - 1]) then FirstLayer(layers[..|layers| - 1], n)
    else |layers| - 1
  }

  lemma {:induction false} FirstLayerIsFirst(layers: seq<seq<Name>>, n: Name, k: nat)
    requires n in Flatten(layers) && k <= |layers|
    ensures FirstLayer(layers, n) < |layers| && n in layers[FirstLayer(layers, n)]
    ensures n in Flatten(layers[..k]) ==> FirstLayer(layers, n) < k
  {
    var init := layers[..|layers| - 1];
    if n in Flatten(init) {
      FirstLayerIsFirst(init, n, if k < |layers| then k else k - 1);
      assert k < |layers| ==> init[..k] == layers[..k];
    } else if k < |layers| {
      FlattenPrefix(init, k, n);
      assert init[..k] == layers[..k];
    }
  }

  lemma {:induction false} FlattenPrefix(layers: seq<seq<Name>>, k: nat, n: Name)
    requires k <= |layers|
    ensures n in Flatten(layers[..k]) ==> n in Flatten(layers)
  {
    if k < |layers| {
      assert layers[..|layers| - 1][..k] == layers[..k];
      FlattenPrefix(layers[..|layers| - 1], k, n);
    } else {
      assert layers[..k] == layers;
    }
  }

  /** The layers of a well-formed pipeline give its links something to go down along. */
  lemma LevelsExist(c: Config) returns (level: map<Name, nat>)
    requires WellFormed(c)
    ensures Levelled(c, level) && forall n :: n in c.names ==> level[n] <= |c.layers|
  {
    level := map n | n in c.names :: LevelOf(c, n);
    forall o, d | Origin(c, o, d) && o in c.names && d in c.names
      ensures level[d] < level[o]
    {
      FirstLayerIsFirst(c.layers, d, 0);
      FirstLayerIsFirst(c.layers, o, FirstLayer(c.layers, d));
    }
  }

  function LevelOf(c: Config, n: Name): nat
  {
    if FirstLayer(c.layers, n) < |c.layers| then |c.layers| - FirstLayer(c.layers, n) else 0
  }

  /** A step that needs neither a caller outside, nor a source function to return, nor a call of stop. */
  ghost predicate Internal(c: Config, s: State, a: Action)
    requires Shape(c, s)
  {
    Enabled(c, s, a) && !a.External? && !a.SourceYield?
      && (a.PipeStep? ==> s.pc < |Script(c)| && !Script(c)[s.pc].Serve?)
  }

  ghost predicate CanMove(c: Config, s: State)
    requires Shape(c, s)
  {
    exists a :: Internal(c, s, a)
  }

  /** The steps that move a message which is already there: no loop of a source, no end of a thread, nothing new. */
  predicate Pushes(a: Action)
  {
    || a.WorkerTake? || a.WorkerDecide? || a.WorkerGive?
    || a.UpdateGet? || a.UpdateBegin? || a.UpdateFinish?
    || a.PutCheck? || a.PutEnqueue?
  }

  ghost predicate CanPush(c: Config, s: State)
    requires Shape(c, s)
  {
    exists a :: Pushes(a) && Enabled(c, s, a)
  }

  lemma PushIsMove(c: Config, s: State)
    requires Shape(c, s) && CanPush(c, s)
    ensures CanMove(c, s)
  {
    var a :| Pushes(a) && Enabled(c, s, a);
    assert Internal(c, s, a);
  }

  /** The pipeline's thread is past the start of all nodes. */
  predicate Serving(c: Config, s: State)
  {
    s.pc >= |StartScript(c.startLayers)|
  }

  lemma StartedNode(c: Config, s: State, n: Name)
    requires Inv(c, s) && WellFormed(c) && Serving(c, s) && n in c.names
    ensures NodeInv(s.nodes[n]) && !s.nodes[n].worker.WNew? && !s.nodes[n].update.UNew?
    ensures Sender.Update(n) in s.tx ==> s.nodes[n].update.UBusy?
  {
    hide NodesOk, TxsOk, Quiet, Streams, Signals;
    NodeFacts(c, s, n);
    TxFacts(c, s, n);
    var a := StartScript(c.startLayers);
    StartScriptOps(c.startLayers, StartOp(n, 0));
    StartScriptOps(c.startLayers, StartOp(n, 1));
    var i :| 0 <= i < |a| && a[i] == StartOp(n, 0);
    var j :| 0 <= j < |a| && a[j] == StartOp(n, 1);
    assert Script(c)[i] == a[i] && Script(c)[j] == a[j];
    DoneBefore(c, s, i);
    DoneBefore(c, s, j);
  }

  lemma TxLeft(c: Config, s: State, who: Sender)
    requires Inv(c, s) && WellFormed(c) && who in s.tx
    ensures s.tx[who].left != [] && s.tx[who].left[0] in c.names
    ensures IsFeeder(who) || who.Control? ==> who.node in c.names && Origin(c, who.node, s.tx[who].left[0])
  {
    hide NodesOk, Quiet, Streams, Signals, ScriptOk;
    var t := s.tx[who];
    assert TxOk(c, s, who, t);
    if who == Pipe {
      ScriptNames(c, s.pc - 1);
    } else if IsFeeder(who) || who.Control? {
      TailStep(t.left, c.dests[who.node]);
      assert Origin(c, who.node, t.left[0]);
    }
  }

  // ----- pushing -----

  lemma Push(c: Config, s: State, a: Action)
    requires Shape(c, s) && Pushes(a) && Enabled(c, s, a)
    ensures CanPush(c, s)
  {
  }

  lemma NoStopMeansGoing(c: Config, s: State, d: Name)
    requires Inv(c, s) && d in c.names && !HasStop(s.nodes[d].accepted)
    ensures !Stopping(s.nodes[d])
  {
    hide TxsOk, Quiet, Streams, Signals, ScriptOk;
    NodeFacts(c, s, d);
    if Stopping(s.nodes[d]) {
      StopWasAccepted(s.nodes[d]);
    }
  }

  lemma PutPushes(c: Config, s: State, who: Sender)
    requires Shape(c, s) && who in s.tx && s.tx[who].left != [] && s.tx[who].left[0] in c.names
    ensures CanPush(c, s) || (s.tx[who].checked && !Room(c, s.nodes[s.tx[who].left[0]].inbound))
  {
    hide Script, Room, CanPush;
    if !s.tx[who].checked {
      Push(c, s, PutCheck(who));
    } else if Room(c, s.nodes[s.tx[who].left[0]].inbound) {
      Push(c, s, PutEnqueue(who));
    }
  }

  /** A thread that transmits data pushes it, or its next queue is full and that node's threads push. */
  lemma FeederPushes(c: Config, s: State, who: Sender, level: map<Name, nat>)
    requires Inv(c, s) && WellFormed(c) && Serving(c, s) && Levelled(c, level)
    requires IsFeeder(who) && who in s.tx && who.node in c.names
    ensures CanPush(c, s) || HeldUpBy(c, s, who)
    decreases level[who.node], 0
  {
    hide NodesOk, TxsOk, Quiet, Streams, Signals, ScriptOk, CanPush, Script, HasStop, HeldUpBy, Jammed, Exposed;
    FeederMeetsNoStop(c, s, who);
    var d := s.tx[who].left[0];
    PutPushes(c, s, who);
    if !CanPush(c, s) {
      QueuePushes(c, s, d, level);
      if !Jammed(c, s, d) && !Exposed(c, d) {
        NoStopMeansGoing(c, s, d);
      }
      HeldUpFromBelow(c, s, who, d);
    }
  }

  /** A full inbound queue. */
  lemma QueuePushes(c: Config, s: State, d: Name, level: map<Name, nat>)
    requires Inv(c, s) && WellFormed(c) && Serving(c, s) && Levelled(c, level)
    requires d in c.names && !Room(c, s.nodes[d].inbound)
    ensures CanPush(c, s) || Clogged(c, s.nodes[d]) || Jammed(c, s, d)
    decreases level[d], 4
  {
    hide NodesOk, TxsOk, Quiet, Streams, Signals, ScriptOk, WellFormed, Script, NodeInv, CanPush, Jammed;
    StartedNode(c, s, d);
    var ns := s.nodes[d];
    if ns.worker.WEnded? {
      EndedMeansStopping(ns);
    } else {
      WorkerPushes(c, s, d, level);
    }
  }

  lemma EndedMeansStopping(ns: NodeState)
    requires NodeInv(ns) && ns.worker.WEnded?
    ensures Stopping(ns)
  {
  }

  /** The worker has a message in its hand, or next. */
  predicate WorkerHasOne(s: State, d: Name)
    requires d in s.nodes
  {
    var ns := s.nodes[d];
    Worker(d) in s.tx || ns.worker.WHold? || ns.worker.WGive? || (ns.worker.WIdle? && ns.inbound != [])
  }

  lemma WorkerPushes(c: Config, s: State, d: Name, level: map<Name, nat>)
    requires Inv(c, s) && WellFormed(c) && Serving(c, s) && Levelled(c, level)
    requires d in c.names && WorkerHasOne(s, d)
    ensures CanPush(c, s) || Choked(c, s.nodes[d]) || Jammed(c, s, d)
    decreases level[d], 3
  {
    hide NodesOk, TxsOk, Quiet, Streams, Signals, ScriptOk, WellFormed, Script, NodeInv, Room, CanPush, HeldUpBy;
    var ns := s.nodes[d];
    if Worker(d) in s.tx {
      FeederPushes(c, s, Worker(d), level);
    } else if ns.worker.WIdle? {
      Push(c, s, WorkerTake(d));
    } else if ns.worker.WHold? {
      Push(c, s, WorkerDecide(d));
    } else if Room(c, ns.out) {
      Push(c, s, WorkerGive(d));
    } else if !Stopping(ns) {
      FullIsNotEmpty(c, ns.out);
      StartedNode(c, s, d);
      UpdatePushes(c, s, d, level);
    }
  }

  lemma FullIsNotEmpty(c: Config, q: seq<Entry>)
    requires !Room(c, q)
    ensures q != []
  {
  }

  /** The update thread has a message in its hand, or next. */
  predicate UpdateHasOne(s: State, d: Name)
    requires d in s.nodes
  {
    var ns := s.nodes[d];
    ns.update.UGot? || ns.update.UBusy? || (ns.update.UIdle? && ns.out != [])
  }

  lemma UpdatePushes(c: Config, s: State, d: Name, level: map<Name, nat>)
    requires Inv(c, s) && WellFormed(c) && Serving(c, s) && Levelled(c, level)
    requires d in c.names && UpdateHasOne(s, d)
    ensures CanPush(c, s) || HeldUpBy(c, s, Update(d))
    decreases level[d], 1
  {
    hide NodesOk, TxsOk, Quiet, Streams, Signals, ScriptOk, WellFormed, Script, NodeInv, Room, CanPush, HeldUpBy;
    var ns := s.nodes[d];
    if ns.update.UGot? {
      Push(c, s, UpdateBegin(d));
    } else if ns.update.UBusy? {
      BusyIsPending(c, s, d);
      if Update(d) in s.tx {
        FeederPushes(c, s, Update(d), level);
      } else {
        Push(c, s, UpdateFinish(d));
      }
    } else {
      Push(c, s, UpdateGet(d));
    }
  }

  lemma BusyIsPending(c: Config, s: State, d: Name)
    requires Inv(c, s) && d in c.names
    ensures s.nodes[d].pending == if s.nodes[d].update.UBusy? then 1 else 0
  {
    hide TxsOk, Quiet, Streams, Signals, ScriptOk;
    NodeFacts(c, s, d);
  }

  // ----- no deadlock -----

  /** A message is on its way through the node: some thread that has not met the stop has it or has it next, or
    * the node's own source is putting it. */
  ghost predicate OnItsWay(s: State, n: Name)
    requires n in s.nodes
  {
    var ns := s.nodes[n];
    || Worker(n) in s.tx || Update(n) in s.tx || Source(n) in s.tx
    || (!ns.worker.WEnded? && InWorker(ns) + ToBuffer(ns) + ns.inbound != [])
    || (!Stopping(ns) && InUpdate(ns) + ns.out != [])
  }

  lemma NodePushes(c: Config, s: State, n: Name, level: map<Name, nat>)
    requires Inv(c, s) && WellFormed(c) && Serving(c, s) && Levelled(c, level) && n in c.names && OnItsWay(s, n)
    ensures
      || CanPush(c, s) || HeldUp(c, s, n)
      || (Clogged(c, s.nodes[n]) && (s.nodes[n].worker.WGive? || Source(n) in s.tx))
  {
    hide NodesOk, TxsOk, Quiet, Streams, Signals, ScriptOk, WellFormed, Script, NodeInv, CanPush, HeldUpBy;
    StartedNode(c, s, n);
    var ns := s.nodes[n];
    if WorkerHasOne(s, n) {
      WorkerPushes(c, s, n, level);
    } else if Source(n) in s.tx {
      SourcePutsToItself(c, s, n);
      PutPushes(c, s, Source(n));
      if !CanPush(c, s) {
        QueuePushes(c, s, n, level);
      }
    } else {
      UpdatePushes(c, s, n, level);
    }
  }

  lemma SourcePutsToItself(c: Config, s: State, n: Name)
    requires Inv(c, s) && Source(n) in s.tx
    ensures n in c.names && s.tx[Source(n)].left == [n]
  {
    hide NodesOk, Quiet, Streams, Signals, ScriptOk;
    assert TxOk(c, s, Source(n), s.tx[Source(n)]);
  }

  /** No deadlock: in every reachable state of a started pipeline in which a message is on its way through a node,
    * some message can be pushed on, unless that very node is clogged, which it is not if no stop was sent to it, or
    * a thread of it is held up by a clogged exposed node further down. */
  lemma NoDeadlock(c: Config, run: seq<State>, n: Name)
    requires WellFormed(c) && Run(c, run) && n in c.names
    requires Serving(c, Last(run)) && n in Last(run).nodes && OnItsWay(Last(run), n)
    ensures Shape(c, Last(run))
    ensures CanPush(c, Last(run)) || Clogged(c, Last(run).nodes[n]) || HeldUp(c, Last(run), n)
    ensures !HasStop(Last(run).nodes[n].accepted) ==> CanPush(c, Last(run)) || HeldUp(c, Last(run), n)
  {
    hide Inv, Serving, OnItsWay, CanPush, WellFormed, Levelled, HeldUpBy;
    RunKeepsInv(c, run);
    InvShape(c, Last(run));
    var level := LevelsExist(c);
    NodePushes(c, Last(run), n, level);
    if !HasStop(Last(run).nodes[n].accepted) {
      NoStopMeansGoing(c, Last(run), n);
    }
  }

  /** When nothing can be pushed, the messages still on their way are exactly those of clogged nodes, in the hand of a
    * worker that cannot give or of a source that cannot put, and those of nodes with a thread that transmits; and
    * then that thread is held up by a clogged exposed node further down. */
  lemma OnlyClogsRemain(c: Config, run: seq<State>, n: Name)
    requires WellFormed(c) && Run(c, run) && n in c.names
    requires Serving(c, Last(run)) && Shape(c, Last(run)) && !CanPush(c, Last(run))
    ensures var s := Last(run);
      OnItsWay(s, n) <==>
        || (Clogged(c, s.nodes[n]) && (s.nodes[n].worker.WGive? || Source(n) in s.tx))
        || Worker(n) in s.tx || Update(n) in s.tx
    ensures forall who :: who in {Worker(n), Update(n)} && who in Last(run).tx ==> HeldUpBy(c, Last(run), who)
  {
    RunKeepsInv(c, run);
    var level := LevelsExist(c);
    var s := Last(run);
    NamesKnown(c, s);
    hide Inv, Serving, CanPush, WellFormed, Levelled, HeldUpBy, OnItsWay, Clogged;
    forall who | who in {Worker(n), Update(n)} && who in s.tx
      ensures HeldUpBy(c, s, who)
    {
      FeederPushes(c, s, who, level);
    }
    if OnItsWay(s, n) {
      NodePushes(c, s, n, level);
      if HeldUpBy(c, s, Worker(n)) { HeldUpIsPutting(c, s, Worker(n)); }
      if HeldUpBy(c, s, Update(n)) { HeldUpIsPutting(c, s, Update(n)); }
    }
    if
      || (Clogged(c, s.nodes[n]) && (s.nodes[n].worker.WGive? || Source(n) in s.tx))
      || Worker(n) in s.tx || Update(n) in s.tx
    {
      StuckIsOnItsWay(c, s, n);
    }
  }

  lemma NamesKnown(c: Config, s: State)
    requires Shape(c, s)
    ensures s.nodes.Keys == c.names
  {
  }

  lemma StuckIsOnItsWay(c: Config, s: State, n: Name)
    requires n in s.nodes
    requires || (Clogged(c, s.nodes[n]) && (s.nodes[n].worker.WGive? || Source(n) in s.tx))
             || Worker(n) in s.tx || Update(n) in s.tx
    ensures OnItsWay(s, n)
  {
  }

  /** Any thread in the middle of a put, also a control thread or the pipeline's. */
  lemma PutsGoOn(c: Config, run: seq<State>, who: Sender)
    requires WellFormed(c) && Run(c, run) && Serving(c, Last(run)) && who in Last(run).tx
    ensures Shape(c, Last(run)) && Last(run).tx[who].left != [] && Last(run).tx[who].left[0] in c.names
    ensures var d := Last(run).tx[who].left[0];
      CanPush(c, Last(run)) || Clogged(c, Last(run).nodes[d]) || Jammed(c, Last(run), d)
    ensures IsFeeder(who) ==> CanPush(c, Last(run)) || HeldUpBy(c, Last(run), who)
  {
    hide Serving, CanPush, WellFormed, NodesOk, TxsOk, Quiet, Streams, Signals, ScriptOk, Script, HeldUpBy, Jammed;
    var s := Last(run);
    var level := LevelsExist(c);
    RunKeepsInv(c, run);
    TxLeft(c, s, who);
    PutPushes(c, s, who);
    if IsFeeder(who) {
      FeederPushes(c, s, who, level);
    }
    if !CanPush(c, s) {
      QueuePushes(c, s, s.tx[who].left[0], level);
    }
  }

  lemma {:induction false} StopIsOnItsWay(ns: NodeState)
    requires NodeInv(ns) && HasStop(ns.accepted) && !Stopping(ns)
    ensures InWorker(ns) + ToBuffer(ns) + ns.inbound != [] || InUpdate(ns) + ns.out != []
  {
    var e :| e in ns.accepted && Stops(e.msg);
    KeptAreEntries(ns.disposed, e);
    ForwardedAreData(ns.disposed, e);
    assert e in Entries(ns.disposed) || e in InWorker(ns) || e in ns.inbound;
    assert e in Kept(ns.disposed) ==> e in InUpdate(ns) || e in ns.out || e in ToBuffer(ns);
  }

  // ----- while the pipeline stops -----

  /** The source function is still being called, though the source has been told to stop. */
  predicate Calling(ns: NodeState)
  {
    ns.source.SCall? && ns.stopSource
  }

  /** The steps by which a node that stops comes to its end, and the pipeline's own. */
  predicate WindsUp(a: Action, n: Name)
  {
    a.PipeStep? ||
    ((a.ControlFlag? || a.UpdateQuit? || a.WorkerQuit? || a.SourceTop? || a.SourceCheck?) && a.n == n)
  }

  ghost predicate CanWindUp(c: Config, s: State, n: Name)
    requires Shape(c, s)
  {
    exists a :: WindsUp(a, n) && Internal(c, s, a)
                && (a.SourceTop? || a.SourceCheck? ==> n in c.names && s.nodes[n].stopSource)
  }

  /** The operation under way, of those the pipeline's stop consists of, is about this node. */
  predicate Concerns(c: Config, s: State, n: Name)
  {
    if Pipe in s.tx then s.tx[Pipe].left == [n]
    else s.pc < |Script(c)| && (Script(c)[s.pc].PutStop? || Script(c)[s.pc].JoinOp?) && Script(c)[s.pc].node == n
  }

  lemma WindUp(c: Config, s: State, a: Action, n: Name)
    requires Shape(c, s) && WindsUp(a, n) && Internal(c, s, a)
    requires a.SourceTop? || a.SourceCheck? ==> n in c.names && s.nodes[n].stopSource
    ensures CanWindUp(c, s, n)
  {
  }

  lemma WindingUpIsMoving(c: Config, s: State, n: Name)
    requires Shape(c, s) && CanWindUp(c, s, n)
    ensures CanMove(c, s)
  {
    var a :| WindsUp(a, n) && Internal(c, s, a)
             && (a.SourceTop? || a.SourceCheck? ==> n in c.names && s.nodes[n].stopSource);
  }

  lemma NoMoveNoProgress(c: Config, s: State, n: Name)
    requires Shape(c, s) && !CanMove(c, s)
    ensures !CanPush(c, s) && !CanWindUp(c, s, n)
  {
    hide CanMove, CanPush, CanWindUp, HeldUpBy;
    if CanPush(c, s) {
      PushIsMove(c, s);
    }
    if CanWindUp(c, s, n) {
      WindingUpIsMoving(c, s, n);
    }
  }

  /** What a node that has met its stop can still be waiting for. */
  lemma StoppedFacts(ns: NodeState)
    requires NodeInv(ns) && Stopping(ns)
    ensures ns.control.CFlag? || ns.control.CJoin? || ns.control.CDone?
    ensures ns.control.CJoin? || ns.control.CDone? ==> ns.stopWorker && ns.stopSource
    ensures ns.control.CDone? ==> Ended(ns)
    ensures ns.control.CJoin? ==> ns.pending == 0 && ns.control.k < 4
    ensures ns.control.CJoin? && ns.worker.WEnded? && ns.update.UEnded? ==> JoinReady(ns, 2) && JoinReady(ns, 3)
  {
  }

  /** A source thread told to stop comes to its end, unless its source function has not returned. */
  lemma SourceEnds(c: Config, s: State, n: Name, level: map<Name, nat>)
    requires Inv(c, s) && WellFormed(c) && Serving(c, s) && Levelled(c, level) && n in c.names
    requires s.nodes[n].stopSource && !s.nodes[n].source.SNew? && !s.nodes[n].source.SEnded?
    ensures CanPush(c, s) || CanWindUp(c, s, n) || Clogged(c, s.nodes[n]) || Calling(s.nodes[n]) || HeldUp(c, s, n)
  {
    hide NodesOk, TxsOk, Quiet, Streams, Signals, ScriptOk, WellFormed, Script, NodeInv, CanPush, CanWindUp, HeldUpBy;
    var ns := s.nodes[n];
    if Source(n) in s.tx {
      SourcePutsToItself(c, s, n);
      PutPushes(c, s, Source(n));
      if !CanPush(c, s) {
        QueuePushes(c, s, n, level);
      }
    } else if ns.source.SLoop? {
      WindUp(c, s, SourceTop(n), n);
    } else if ns.source.SHave? {
      WindUp(c, s, SourceCheck(n), n);
    }
  }

  /** A worker told to stop comes to its end, or still has something to push, or is choked. */
  lemma WorkerEnds(c: Config, s: State, n: Name, level: map<Name, nat>)
    requires Inv(c, s) && WellFormed(c) && Serving(c, s) && Levelled(c, level) && n in c.names
    requires s.nodes[n].stopWorker && !s.nodes[n].worker.WEnded?
    ensures CanPush(c, s) || CanWindUp(c, s, n) || Choked(c, s.nodes[n]) || HeldUp(c, s, n)
  {
    hide NodesOk, TxsOk, Quiet, Streams, Signals, ScriptOk, WellFormed, Script, NodeInv, CanPush, CanWindUp, HeldUpBy;
    StartedNode(c, s, n);
    if WorkerHasOne(s, n) {
      WorkerPushes(c, s, n, level);
    } else {
      WindUp(c, s, WorkerQuit(n), n);
    }
  }

  /** Once a stop has been accepted, a node not yet over comes nearer to its end. */
  lemma NodeEnds(c: Config, s: State, n: Name, level: map<Name, nat>)
    requires Inv(c, s) && WellFormed(c) && Serving(c, s) && Levelled(c, level) && n in c.names
    requires HasStop(s.nodes[n].accepted)
    requires !Ended(s.nodes[n]) || !(s.nodes[n].source.SNew? || s.nodes[n].source.SEnded?)
    ensures CanPush(c, s) || CanWindUp(c, s, n) || Clogged(c, s.nodes[n]) || Calling(s.nodes[n]) || HeldUp(c, s, n)
  {
    hide NodesOk, TxsOk, Quiet, Streams, Signals, ScriptOk, WellFormed, Script, NodeInv, CanPush, CanWindUp, HeldUpBy;
    StartedNode(c, s, n);
    var ns := s.nodes[n];
    if !Stopping(ns) {
      StopIsOnItsWay(ns);
      EndedMeansNotStopped(ns);
      NodePushes(c, s, n, level);
    } else {
      StoppedFacts(ns);
      if ns.control.CFlag? {
        WindUp(c, s, ControlFlag(n), n);
      } else if !ns.update.UEnded? {
        WindUp(c, s, UpdateQuit(n), n);
      } else if !ns.worker.WEnded? {
        WorkerEnds(c, s, n, level);
      } else {
        SourceEnds(c, s, n, level);
      }
    }
  }

  lemma EndedMeansNotStopped(ns: NodeState)
    requires NodeInv(ns) && !Stopping(ns)
    ensures !ns.worker.WEnded? && !ns.update.UEnded?
  {
  }

  lemma LayerPutFirst(layer: seq<Name>, i: nat)
    requires i < |PutLayer(layer) + JoinLayer(layer)| && (PutLayer(layer) + JoinLayer(layer))[i].JoinOp?
    ensures var ops := PutLayer(layer) + JoinLayer(layer);
      exists j :: 0 <= j < i && ops[j] == PutStop(ops[i].node)
  {
    var puts, joins := PutLayer(layer), JoinLayer(layer);
    var op := (puts + joins)[i];
    if i < |puts| {
      assert op in puts;
      PutLayerOps(layer, op);
    } else {
      assert op in joins;
      JoinLayerOps(layer, op);
      PutLayerOps(layer, PutStop(op.node));
      var j :| 0 <= j < |puts| && puts[j] == PutStop(op.node);
      assert (puts + joins)[j] == puts[j];
    }
  }

  lemma {:induction false} PutLayerFirst(layers: seq<seq<Name>>, i: nat)
    requires i < |StopScript(layers)| && StopScript(layers)[i].JoinOp?
    ensures exists j :: 0 <= j < i && StopScript(layers)[j] == PutStop(StopScript(layers)[i].node)
  {
    var init, all := layers[..|layers| - 1], StopScript(layers);
    var before, ops := StopScript(init), PutLayer(Last(layers)) + JoinLayer(Last(layers));
    assert all == before + ops;
    hide StopScript, PutLayer, JoinLayer;
    if i < |before| {
      PutLayerFirst(init, i);
      var j :| 0 <= j < i && before[j] == PutStop(before[i].node);
      assert all[j] == before[j];
    } else {
      LayerPutFirst(Last(layers), i - |before|);
      var j :| 0 <= j < i - |before| && ops[j] == PutStop(ops[i - |before|].node);
      assert all[|before| + j] == ops[j];
    }
  }

  /** A node is joined only after the stop was put to it. */
  lemma JoinedAfterPut(c: Config, s: State)
    requires Inv(c, s) && WellFormed(c) && s.pc < |Script(c)| && Script(c)[s.pc].JoinOp? && Pipe !in s.tx
    ensures Script(c)[s.pc].node in c.names && HasStop(s.nodes[Script(c)[s.pc].node].accepted)
    ensures Serving(c, s)
  {
    hide NodesOk, TxsOk, Quiet, Streams, Signals, WellFormed, HasStop, StartScript, StopScript;
    var a, b := StartScript(c.startLayers), StopScript(c.layers);
    var i := s.pc;
    assert Script(c)[i] == if i < |a| then a[i] else if i == |a| then Serve else b[i - |a| - 1];
    if i < |a| { StartScriptOps(c.startLayers, a[i]); }
    PutLayerFirst(c.layers, i - |a| - 1);
    var j :| 0 <= j < i - |a| - 1 && b[j] == PutStop(b[i - |a| - 1].node);
    assert Script(c)[|a| + 1 + j] == b[j];
    DoneBefore(c, s, |a| + 1 + j);
  }

  lemma NotServing(c: Config, i: nat)
    requires |StartScript(c.startLayers)| < i < |Script(c)|
    ensures Script(c)[i].PutStop? || Script(c)[i].JoinOp?
  {
    var a, b := StartScript(c.startLayers), StopScript(c.layers);
    assert Script(c)[i] == b[i - |a| - 1];
    StopScriptOps(c.layers, b[i - |a| - 1]);
  }

  lemma PipeGoesOn(c: Config, s: State, level: map<Name, nat>) returns (n: Name)
    requires Inv(c, s) && WellFormed(c) && Levelled(c, level)
    requires |StartScript(c.startLayers)| < s.pc < |Script(c)|
    ensures Concerns(c, s, n) && n in c.names
    ensures CanPush(c, s) || CanWindUp(c, s, n) || Clogged(c, s.nodes[n]) || Calling(s.nodes[n]) || HeldUp(c, s, n)
  {
    hide NodesOk, TxsOk, Quiet, Streams, Signals, ScriptOk, WellFormed, NodeInv, CanPush, CanWindUp, HeldUpBy;
    ScriptNames(c, s.pc);
    NotServing(c, s.pc);
    if Pipe in s.tx {
      n := PipePutsToOne(c, s);
      PutPushes(c, s, Pipe);
      if !CanPush(c, s) {
        QueuePushes(c, s, n, level);
      }
    } else {
      n := Script(c)[s.pc].node;
      if OpReady(c, s, Script(c)[s.pc]) {
        WindUp(c, s, PipeStep(0), n);
      } else {
        JoinGoesOn(c, s, n, level);
      }
    }
  }

  lemma PipePutsToOne(c: Config, s: State) returns (n: Name)
    requires Inv(c, s) && WellFormed(c) && Pipe in s.tx
    ensures s.tx[Pipe].left == [n] && n in c.names
  {
    hide NodesOk, Quiet, Streams, Signals, ScriptOk;
    TxLeft(c, s, Pipe);
    assert TxOk(c, s, Pipe, s.tx[Pipe]);
    n := s.tx[Pipe].left[0];
  }

  lemma JoinGoesOn(c: Config, s: State, n: Name, level: map<Name, nat>)
    requires Inv(c, s) && WellFormed(c) && Levelled(c, level) && Pipe !in s.tx
    requires s.pc < |Script(c)| && Script(c)[s.pc].JoinOp? && Script(c)[s.pc].node == n && n in c.names
    requires !OpReady(c, s, Script(c)[s.pc])
    ensures CanPush(c, s) || CanWindUp(c, s, n) || Clogged(c, s.nodes[n]) || Calling(s.nodes[n]) || HeldUp(c, s, n)
  {
    hide NodesOk, TxsOk, Quiet, Streams, Signals, ScriptOk, WellFormed, NodeInv, CanPush, CanWindUp, HeldUpBy, Script;
    JoinedAfterPut(c, s);
    if Script(c)[s.pc].k == 0 {
      BusyIsPending(c, s, n);
      UpdatePushes(c, s, n, level);
    } else {
      NodeEnds(c, s, n, level);
    }
  }

  /** A stop makes progress: from the call of `stop` until it returns, a message can be pushed on, or the node the
    * pipeline is busy with can come nearer to its end, unless that very node is clogged, or its source function, told
    * to stop, has not returned, or a thread of it is held up by a clogged exposed node further down. */
  lemma StopProgresses(c: Config, run: seq<State>) returns (n: Name)
    requires WellFormed(c) && Run(c, run)
    requires |StartScript(c.startLayers)| < Last(run).pc < |Script(c)|
    ensures Shape(c, Last(run)) && Concerns(c, Last(run), n) && n in c.names
    ensures CanPush(c, Last(run)) || CanWindUp(c, Last(run), n)
            || Clogged(c, Last(run).nodes[n]) || Calling(Last(run).nodes[n]) || HeldUp(c, Last(run), n)
  {
    hide Inv, CanPush, CanWindUp, HeldUpBy, WellFormed, Script, StartScript;
    RunKeepsInv(c, run);
    InvShape(c, Last(run));
    var level := LevelsExist(c);
    n := PipeGoesOn(c, Last(run), level);
  }
}
