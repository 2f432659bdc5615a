/** Who suspends a node and what it stamps, over whole runs; and that a pipeline which has stopped, with no node
  * suspended, has lost nothing. */
module Lossless {
  import opened Graphs
  import opened Messages
  import opened Nodes
  import opened Systems
  import opened Safety
  import opened Shutdown

  // ----- signals and stamps -----

  /** The last of some signals to suspend or resume is a suspend. */
  ghost predicate Suspending(ran: seq<Signal>)
  {
    exists i :: 0 <= i < |ran| && ran[i].Suspend? && forall j :: i < j < |ran| ==> !ran[j].Resume?
  }

  /** The control signals among some messages that do not stop a node. */
  function Commands(q: seq<Entry>): seq<Signal>
  {
    if q == [] then []
    else
      var p := Last(q).msg.payload;
      Commands(q[..|q| - 1]) + (if p.Control? && p.signal !in {Stop, StopPropagate} then [p.signal] else [])
  }

  /** The id of the last data message. */
  function LastDataId(q: seq<Entry>): Option<int>
  {
    if q == [] then None
    else if Last(q).msg.payload.Control? then LastDataId(q[..|q| - 1])
    else Some(Last(q).msg.id)
  }

  function Working(ns: NodeState): seq<Entry>
  {
    if ns.update.UBusy? then [ns.update.entry] else []
  }

  /** The flag, the signals still to be run and the last data id are what the messages taken up call for. */
  ghost predicate Controlled(ns: NodeState)
  {
    && (ns.suspended <==> Suspending(ns.ran))
    && multiset(ns.ran) + multiset(ns.spawned) == multiset(Commands(ns.handled))
    && ns.lastId == LastDataId(ns.handled + Working(ns))
  }

  predicate SameControl(a: NodeState, b: NodeState)
  {
    && b.suspended == a.suspended && b.ran == a.ran && b.spawned == a.spawned && b.handled == a.handled
    && b.lastId == a.lastId && Working(b) == Working(a)
  }

  lemma HandledSnoc(q: seq<Entry>, e: Entry)
    ensures var p := e.msg.payload;
      Commands(q + [e]) == Commands(q) + (if p.Control? && p.signal !in {Stop, StopPropagate} then [p.signal] else [])
    ensures LastDataId(q + [e]) == if IsControl(e.msg) then LastDataId(q) else Some(e.msg.id)
  {
    assert (q + [e])[..|q|] == q;
  }

  lemma SuspendingSnoc(ran: seq<Signal>, signal: Signal)
    ensures Suspending(ran + [signal]) <==> signal.Suspend? || (Suspending(ran) && !signal.Resume?)
  {
    var more := ran + [signal];
    if signal.Suspend? {
      assert more[|ran|].Suspend?;
    }
    if Suspending(ran) && !signal.Resume? {
      var i :| 0 <= i < |ran| && ran[i].Suspend? && forall j :: i < j < |ran| ==> !ran[j].Resume?;
      assert more[i].Suspend?;
    }
    if Suspending(more) && !signal.Suspend? {
      var i :| 0 <= i < |more| && more[i].Suspend? && forall j :: i < j < |more| ==> !more[j].Resume?;
      assert ran[i].Suspend? && more[|ran|] == signal;
      assert forall j :: i < j < |ran| ==> ran[j] == more[j];
    }
  }

  lemma RunControlled(ns: NodeState, i: nat)
    requires Controlled(ns) && i < |ns.spawned|
    ensures Controlled(RunControl(ns, i))
  {
    hide Suspending, Commands, LastDataId;
    SuspendingSnoc(ns.ran, ns.spawned[i]);
    assert ns.spawned == ns.spawned[..i] + [ns.spawned[i]] + ns.spawned[i + 1..];
  }

  lemma BeginTakesUp(ns: NodeState)
    requires ns.update.UGot?
    ensures var t, e := Begin(ns), ns.update.entry; var p := e.msg.payload;
      && t.suspended == ns.suspended && t.ran == ns.ran
      && if !p.Control? then
           && t.handled == ns.handled && Working(t) == [e] && t.lastId == Some(e.msg.id) && t.spawned == ns.spawned
         else
           && t.handled == ns.handled + [e] && Working(t) == [] && t.lastId == ns.lastId
           && t.spawned == ns.spawned + (if p.signal !in {Stop, StopPropagate} then [p.signal] else [])
  {
    assert ns.spawned + [] == ns.spawned;
  }

  lemma BeginControlled(ns: NodeState)
    requires Controlled(ns) && ns.update.UGot?
    ensures Controlled(Begin(ns))
  {
    hide Suspending, Commands, LastDataId, Begin;
    BeginTakesUp(ns);
    assert Working(ns) == [];
    var e := ns.update.entry;
    HandledSnoc(ns.handled, e);
    assert ns.handled + [] == ns.handled && (ns.handled + [e]) + [] == ns.handled + [e];
    assert Commands(ns.handled) + [] == Commands(ns.handled);
  }

  lemma FinishControlled(ns: NodeState)
    requires Controlled(ns) && ns.update.UBusy? && ns.pending > 0 && !IsControl(ns.update.entry.msg)
    ensures Controlled(Finish(ns))
  {
    hide Suspending, Commands, LastDataId;
    var e := ns.update.entry;
    HandledSnoc(ns.handled, e);
    assert (ns.handled + [e]) + [] == ns.handled + [e] && Commands(ns.handled) + [] == Commands(ns.handled);
  }

  lemma OwnControlled(ns: NodeState, a: Action)
    requires NodeInv(ns) && Own(a) && OwnMay(ns, a) && Controlled(ns)
    ensures Controlled(OwnAfter(ns, a))
  {
    hide Controlled, Flow, StopIsLast;
    match a {
      case ControlRun(_, i) => RunControlled(ns, i);
      case UpdateBegin(_) => BeginControlled(ns);
      case UpdateFinish(_) => FinishControlled(ns);
      case _ =>
        OwnSameControl(ns, a);
        SameControlled(ns, OwnAfter(ns, a));
    }
  }

  lemma SameControlled(a: NodeState, b: NodeState)
    requires Controlled(a) && SameControl(a, b)
    ensures Controlled(b)
  {
  }

  lemma OwnSameControl(ns: NodeState, a: Action)
    requires Own(a) && OwnMay(ns, a) && !a.ControlRun? && !a.UpdateBegin? && !a.UpdateFinish?
    ensures SameControl(ns, OwnAfter(ns, a))
  {
    hide Stops, IsControl, RaiseFlag;
    if a.ControlFlag? {
      RaiseFlagByCases(ns);
    }
  }

  /** Steps of others let a node be, queue a message or create a thread. */
  lemma OuterStep(c: Config, s: State, a: Action, n: Name)
    requires Shape(c, s) && Enabled(c, s, a) && n in c.names && !Own(a)
    ensures n in Apply(c, s, a).nodes
    ensures var ns, t := s.nodes[n], Apply(c, s, a).nodes[n];
      || t == ns || (exists e :: t == Accept(ns, e)) || (exists k, b :: t == StartThread(ns, k, b))
  {
    hide Script, Room, OpReady, JoinReady, Stops, Stamped, Propagates, Accept, StartThread;
  }

  lemma OuterLeaves(ns: NodeState, t: NodeState)
    requires t == ns || (exists e :: t == Accept(ns, e)) || (exists k, b :: t == StartThread(ns, k, b))
    ensures SameControl(ns, t) && ns.accepted <= t.accepted
  {
    hide SameControl, Accept, StartThread;
    SameAsItself(ns);
    if e :| t == Accept(ns, e) {
      AcceptLeaves(ns, e);
    } else if k, b :| t == StartThread(ns, k, b) {
      StartLeaves(ns, k, b);
    }
  }

  lemma SameAsItself(ns: NodeState)
    ensures SameControl(ns, ns)
  {
  }

  lemma AcceptLeaves(ns: NodeState, e: Entry)
    ensures SameControl(ns, Accept(ns, e)) && ns.accepted <= Accept(ns, e).accepted
  {
  }

  lemma StartLeaves(ns: NodeState, k: nat, b: bool)
    ensures SameControl(ns, StartThread(ns, k, b)) && ns.accepted <= StartThread(ns, k, b).accepted
  {
  }

  lemma StepControlled(c: Config, s: State, a: Action, n: Name)
    requires Inv(c, s) && Enabled(c, s, a) && n in c.names
    ensures n in Apply(c, s, a).nodes && s.nodes[n].accepted <= Apply(c, s, a).nodes[n].accepted
    ensures Controlled(s.nodes[n]) ==> Controlled(Apply(c, s, a).nodes[n])
  {
    hide Enabled, Apply, NodesOk, TxsOk, Quiet, Streams, Signals, ScriptOk, NodeInv, Controlled, OwnMay, OwnAfter;
    NodeFacts(c, s, n);
    if Own(a) {
      OwnStep(c, s, a);
      if a.n == n && Controlled(s.nodes[n]) {
        OwnControlled(s.nodes[n], a);
      }
      if a.n == n {
        OwnLeaves(s.nodes[n], a);
      }
    } else {
      OuterStep(c, s, a, n);
      OuterLeaves(s.nodes[n], Apply(c, s, a).nodes[n]);
      if Controlled(s.nodes[n]) {
        SameControlled(s.nodes[n], Apply(c, s, a).nodes[n]);
      }
    }
  }

  lemma NewIsControlled()
    ensures Controlled(NewNode())
  {
  }

  lemma {:induction false} RunIsControlled(c: Config, run: seq<State>, n: Name)
    requires WellFormed(c) && Run(c, run) && n in c.names
    ensures n in Last(run).nodes && Controlled(Last(run).nodes[n])
    decreases |run|
  {
    hide WellFormed, Inv, Controlled, Enabled, Apply;
    if |run| == 1 {
      NewIsControlled();
    } else {
      var before := run[..|run| - 1];
      RunBefore(c, run);
      RunIsControlled(c, before, n);
      RunKeepsInv(c, before);
      InvShape(c, Last(before));
      var a :| Enabled(c, Last(before), a) && Last(run) == Apply(c, Last(before), a);
      StepControlled(c, Last(before), a, n);
    }
  }

  /** In every reachable state a node is suspended exactly if the last suspend or resume whose control thread has run
    * was a suspend; each signal that was handled has a control thread of its own, which has run or is still to run;
    * and the data source id is that of the last data message taken up, the one being updated if there is one. */
  lemma LastSignalDecides(c: Config, run: seq<State>, n: Name)
    requires WellFormed(c) && Run(c, run) && n in c.names
    ensures n in Last(run).nodes
    ensures var ns := Last(run).nodes[n];
      && (ns.suspended <==> Suspending(ns.ran))
      && multiset(ns.ran) + multiset(ns.spawned) == multiset(Commands(ns.handled))
      && ns.lastId == LastDataId(ns.handled + Working(ns))
      && (ns.update.UBusy? ==> ns.lastId == Some(ns.update.entry.msg.id))
  {
    RunIsControlled(c, run, n);
    RunKeepsInv(c, run);
    NodeFacts(c, Last(run), n);
    var ns := Last(run).nodes[n];
    if ns.update.UBusy? {
      HandledSnoc(ns.handled, ns.update.entry);
    }
  }

  // ----- what is transmitted -----

  /** One step of a run. */
  ghost predicate Takes(c: Config, s: State, a: Action, t: State)
  {
    s.nodes.Keys == c.names && c.dests.Keys == c.names && Enabled(c, s, a) && t == Apply(c, s, a)
  }

  lemma RunUpTo(c: Config, run: seq<State>, i: nat)
    requires Run(c, run) && i < |run|
    ensures Run(c, run[..i + 1]) && Last(run[..i + 1]) == run[i]
  {
    var before := run[..i + 1];
    forall k | 0 <= k < |before| - 1 ensures Next(c, before[k], before[k + 1]) {
      assert Next(c, run[k], run[k + 1]);
    }
  }

  /** Every decision of a worker goes by the signals: data is transmitted, stamped with the id of the last data message
    * taken up, exactly if the last suspend or resume that has run was a suspend, and goes to the buffer otherwise, as
    * control messages always do. */
  lemma DecisionsFollowSignals(c: Config, run: seq<State>, i: nat, n: Name)
    requires WellFormed(c) && Run(c, run) && i + 1 < |run| && n in c.names
    requires Takes(c, run[i], WorkerDecide(n), run[i + 1])
    ensures n in run[i + 1].nodes
    ensures var ns, ns', sent := run[i].nodes[n], run[i + 1].nodes[n], Sent(run[i], Worker(n));
      var e := ns.worker.entry;
      if Suspending(ns.ran) && !IsControl(e.msg) then
        && ns'.worker == WIdle && ns'.disposed == ns.disposed + [Disposal(e, true)]
        && Sent(run[i + 1], Worker(n)) == sent + [e.msg.(dataSource := LastDataId(ns.handled + Working(ns)))]
      else
        && ns'.worker == WGive(e) && ns'.disposed == ns.disposed + [Disposal(e, false)]
        && Sent(run[i + 1], Worker(n)) == sent
  {
    hide WellFormed, Suspending, LastDataId, Commands, Run, Inv;
    RunUpTo(c, run, i);
    RunKeepsInv(c, run[..i + 1]);
    InvShape(c, run[i]);
    LastSignalDecides(c, run[..i + 1], n);
    DecisionIs(c, run[i], n);
  }

  lemma DecisionIs(c: Config, s: State, n: Name)
    requires Shape(c, s) && Enabled(c, s, WorkerDecide(n))
    ensures var ns, t := s.nodes[n], Apply(c, s, WorkerDecide(n)); var e := ns.worker.entry;
      && n in t.nodes
      && if ns.suspended && !IsControl(e.msg) then
           && t.nodes[n].worker == WIdle && t.nodes[n].disposed == ns.disposed + [Disposal(e, true)]
           && Sent(t, Worker(n)) == Sent(s, Worker(n)) + [e.msg.(dataSource := ns.lastId)]
         else
           && t.nodes[n].worker == WGive(e) && t.nodes[n].disposed == ns.disposed + [Disposal(e, false)]
           && Sent(t, Worker(n)) == Sent(s, Worker(n))
  {
    hide Script;
    var ns := s.nodes[n];
    BeginSends(SetNode(s, n, Decide(ns)), Worker(n), Stamped(ns, ns.worker.entry.msg), c.dests[n], Worker(n));
    LocalSends(s, n, Decide(ns), Worker(n));
  }

  /** What `update` transmits bears the id of the message being updated, and nothing else the update thread does
    * transmits anything. */
  lemma UpdatesAreStamped(c: Config, run: seq<State>, i: nat, a: Action, n: Name)
    requires WellFormed(c) && Run(c, run) && i + 1 < |run| && n in c.names && Takes(c, run[i], a, run[i + 1])
    ensures a.Transmit? && a.n == n ==>
        && run[i].nodes[n].update.UBusy?
        && Sent(run[i + 1], Update(n))
           == Sent(run[i], Update(n)) + [a.msg.(dataSource := Some(run[i].nodes[n].update.entry.msg.id))]
    ensures !(a.Transmit? && a.n == n) ==> Sent(run[i + 1], Update(n)) == Sent(run[i], Update(n))
  {
    hide WellFormed, Suspending, LastDataId, Commands, Run, Inv;
    RunUpTo(c, run, i);
    RunKeepsInv(c, run[..i + 1]);
    InvShape(c, run[i]);
    if a.Transmit? && a.n == n {
      LastSignalDecides(c, run[..i + 1], n);
      TransmissionIs(c, run[i], n, a.msg);
    } else if Own(a) {
      hide Enabled, Apply;
      OwnKeepsPuts(c, run[i], a, Update(n));
    } else {
      OuterKeepsSent(c, run[i], a, Update(n));
    }
  }

  lemma TransmissionIs(c: Config, s: State, n: Name, msg: Message)
    requires Shape(c, s) && Enabled(c, s, Transmit(n, msg))
    ensures Sent(Apply(c, s, Transmit(n, msg)), Update(n))
      == Sent(s, Update(n)) + [msg.(dataSource := s.nodes[n].lastId)]
  {
    hide Script;
    var ns := s.nodes[n];
    BeginSends(SetNode(s, n, CountSend(ns)), Update(n), Stamped(ns, msg), c.dests[n], Update(n));
    LocalSends(s, n, CountSend(ns), Update(n));
  }

  lemma OuterKeepsSent(c: Config, s: State, a: Action, w: Sender)
    requires Shape(c, s) && Enabled(c, s, a) && !Own(a) && w != Pipe
    ensures Sent(Apply(c, s, a), w) == Sent(s, w)
  {
    hide Script, Room, OpReady, JoinReady, Stops, Stamped, Propagates, Accept, StartThread;
  }

  // ----- without suspension -----

  /** No message among these asks a node to suspend. */
  ghost predicate NoSuspend(q: seq<Entry>)
  {
    forall e :: e in q ==> e.msg.payload != Payload.Control(Suspend)
  }

  lemma {:induction false} CommandsAreHandled(q: seq<Entry>, signal: Signal)
    requires signal in Commands(q)
    ensures exists e :: e in q && e.msg.payload == Payload.Control(signal)
  {
    var p := Last(q).msg.payload;
    if p.Control? && p.signal == signal {
      assert Last(q) in q;
    } else {
      CommandsAreHandled(q[..|q| - 1], signal);
      var e :| e in q[..|q| - 1] && e.msg.payload == Payload.Control(signal);
      assert e in q;
    }
  }

  lemma HandledWasAccepted(ns: NodeState, e: Entry)
    requires NodeInv(ns) && e in ns.handled
    ensures e in ns.accepted
  {
    KeptAreEntries(ns.disposed, e);
    assert e in Kept(ns.disposed);
    assert e in Entries(ns.disposed);
  }

  lemma NodeIsSound(c: Config, run: seq<State>, n: Name)
    requires WellFormed(c) && Run(c, run) && n in c.names
    ensures n in Last(run).nodes && NodeInv(Last(run).nodes[n])
  {
    RunKeepsInv(c, run);
    NodeFacts(c, Last(run), n);
  }

  /** A node that has accepted no suspend is not suspended. */
  lemma NotSuspended(c: Config, run: seq<State>, n: Name)
    requires WellFormed(c) && Run(c, run) && n in c.names
    requires n in Last(run).nodes && NoSuspend(Last(run).nodes[n].accepted)
    ensures !Last(run).nodes[n].suspended
  {
    hide WellFormed, Inv, Commands, LastDataId;
    LastSignalDecides(c, run, n);
    NodeIsSound(c, run, n);
    hide Run;
    var ns := Last(run).nodes[n];
    if ns.suspended {
      var i :| 0 <= i < |ns.ran| && ns.ran[i].Suspend?;
      assert ns.ran[i] in multiset(ns.ran) && ns.ran[i] in multiset(Commands(ns.handled));
      CommandsAreHandled(ns.handled, Suspend);
      var e :| e in ns.handled && e.msg.payload == Payload.Control(Suspend);
      HandledWasAccepted(ns, e);
    }
  }

  lemma NoForwardStep(c: Config, s: State, a: Action, n: Name)
    requires Shape(c, s) && Enabled(c, s, a) && n in c.names && !s.nodes[n].suspended
    ensures n in Apply(c, s, a).nodes
    ensures Forwarded(s.nodes[n].disposed) == [] ==> Forwarded(Apply(c, s, a).nodes[n].disposed) == []
  {
    if a.WorkerDecide? && a.n == n {
      EntriesSnoc(s.nodes[n].disposed, Disposal(s.nodes[n].worker.entry, false));
    } else {
      DisposedFrame(c, s, a, n);
    }
  }

  /** A node that has accepted no suspend has forwarded nothing. */
  lemma {:induction false} NeverForwards(c: Config, run: seq<State>, n: Name)
    requires WellFormed(c) && Run(c, run) && n in c.names
    requires n in Last(run).nodes && NoSuspend(Last(run).nodes[n].accepted)
    ensures Forwarded(Last(run).nodes[n].disposed) == []
    decreases |run|
  {
    hide WellFormed, Inv, Enabled, Apply, Controlled;
    if |run| > 1 {
      var before := run[..|run| - 1];
      RunBefore(c, run);
      RunKeepsInv(c, before);
      InvShape(c, Last(before));
      var a :| Enabled(c, Last(before), a) && Last(run) == Apply(c, Last(before), a);
      StepControlled(c, Last(before), a, n);
      SoonerNoSuspend(Last(before).nodes[n].accepted, Last(run).nodes[n].accepted);
      NotSuspended(c, before, n);
      NeverForwards(c, before, n);
      NoForwardStep(c, Last(before), a, n);
    }
  }

  lemma SoonerNoSuspend(sooner: seq<Entry>, later: seq<Entry>)
    requires sooner <= later && NoSuspend(later)
    ensures NoSuspend(sooner)
  {
    assert forall e :: e in sooner ==> e in later;
  }

  lemma {:induction false} KeptIsAll(q: seq<Disposal>)
    requires Forwarded(q) == []
    ensures Kept(q) == Entries(q)
  {
    if q != [] {
      KeptIsAll(q[..|q| - 1]);
    }
  }

  /** A node that was sent no suspend and has met a stop, from whatever side it came, has updated exactly the
    * messages that each node linked to it transmitted, once each and in order. */
  lemma StoppedNodeIsLossless(c: Config, run: seq<State>, o: Name, d: Name, who: Sender)
    requires WellFormed(c) && Run(c, run) && Feeds(c, o, d) && who in {Worker(o), Update(o)}
    requires d in Last(run).nodes && Stopping(Last(run).nodes[d]) && NoSuspend(Last(run).nodes[d].accepted)
    ensures From(Last(run).nodes[d].handled, who) == Sent(Last(run), who)
  {
    RunKeepsInv(c, run);
    StoppedTarget(c, Last(run), o, d, who);
    NeverForwards(c, run, d);
    KeptIsAll(Last(run).nodes[d].disposed);
  }

  /** Lossless shutdown: after `stop` returns, the target of every link, if it was sent no suspend, has updated exactly
    * the messages its origin transmitted, by its update thread or, while that was suspended, by its worker, once each
    * and in order. */
  lemma LosslessShutdown(c: Config, run: seq<State>, o: Name, d: Name, who: Sender)
    requires WellFormed(c) && Run(c, run) && Last(run).pc == |Script(c)|
    requires Feeds(c, o, d) && who in {Worker(o), Update(o)}
    requires d in Last(run).nodes && NoSuspend(Last(run).nodes[d].accepted)
    ensures From(Last(run).nodes[d].handled, who) == Sent(Last(run), who)
  {
    PipelineStopEndsAll(c, run, d);
    StoppedNodeIsLossless(c, run, o, d, who);
  }
}
