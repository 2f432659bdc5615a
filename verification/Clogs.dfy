/** How a node gets clogged: its stop met, and a queue of its own full behind it for good; and whom that holds up. */
module Clogs {
  import opened Graphs
  import opened Messages
  import opened Nodes
  import opened Systems
  import opened Safety
  import opened Shutdown

  /** The worker has a message for a buffer that is full and that nobody takes from any more. */
  predicate Choked(c: Config, ns: NodeState)
  {
    Stopping(ns) && ns.worker.WGive? && !Room(c, ns.out)
  }

  /** The inbound queue is full and nobody takes from it any more. */
  predicate Shut(c: Config, ns: NodeState)
  {
    Stopping(ns) && ns.worker.WEnded? && !Room(c, ns.inbound)
  }

  predicate Clogged(c: Config, ns: NodeState)
  {
    Choked(c, ns) || Shut(c, ns)
  }

  /** What keeps a clogged node clogged: its stop stays met, its worker stays where it is, its queues do not shrink. */
  predicate Stuck(a: NodeState, b: NodeState)
  {
    && (Stopping(a) ==> Stopping(b))
    && (a.worker.WGive? || a.worker.WEnded? ==> b.worker == a.worker)
    && |a.out| <= |b.out| && (a.worker.WGive? || a.worker.WEnded? ==> |a.inbound| <= |b.inbound|)
  }

  lemma StuckIsClogged(c: Config, a: NodeState, b: NodeState)
    requires Stuck(a, b)
    ensures (Choked(c, a) ==> Choked(c, b)) && (Shut(c, a) ==> Shut(c, b))
    ensures Clogged(c, a) && !Room(c, a.inbound) ==> !Room(c, b.inbound)
  {
  }

  /** A clog never clears, whatever any thread or caller does. */
  lemma ClogsAreForever(c: Config, s: State, a: Action, n: Name)
    requires Shape(c, s) && Enabled(c, s, a) && n in c.names && Clogged(c, s.nodes[n])
    ensures n in Apply(c, s, a).nodes
    ensures Choked(c, s.nodes[n]) ==> Choked(c, Apply(c, s, a).nodes[n])
    ensures Shut(c, s.nodes[n]) ==> Shut(c, Apply(c, s, a).nodes[n])
    ensures !Room(c, s.nodes[n].inbound) ==> !Room(c, Apply(c, s, a).nodes[n].inbound)
  {
    hide Choked, Shut, Clogged, Stuck, Grows, Enabled, Apply, OwnMay, OwnAfter;
    if Own(a) {
      OwnStep(c, s, a);
      if a.n == n {
        GiveNeedsRoom(c, s, a);
        OwnIsStuck(c, s.nodes[n], a);
      } else {
        SameIsStuck(s.nodes[n]);
      }
    } else {
      GrowsFromOutside(c, s, a, n);
      GrowsIsStuck(s.nodes[n], Apply(c, s, a).nodes[n]);
    }
    StuckIsClogged(c, s.nodes[n], Apply(c, s, a).nodes[n]);
  }

  lemma GiveNeedsRoom(c: Config, s: State, a: Action)
    requires Shape(c, s) && Enabled(c, s, a) && Own(a) && a.n in c.names
    ensures a.WorkerGive? ==> Room(c, s.nodes[a.n].out)
  {
  }

  lemma OwnIsStuck(c: Config, ns: NodeState, a: Action)
    requires Own(a) && OwnMay(ns, a) && Clogged(c, ns) && (a.WorkerGive? ==> Room(c, ns.out))
    ensures Stuck(ns, OwnAfter(ns, a))
  {
    hide OwnAfter, Room;
    if OfWorker(a) {
      WorkerLeaves(ns, a);
    } else if OfUpdate(a) {
      UpdateLeaves(ns, a);
    } else if OfSource(a) {
      SourceLeaves(ns, a);
    } else {
      ControlLeaves(ns, a);
    }
  }

  lemma SameIsStuck(ns: NodeState)
    ensures Stuck(ns, ns)
  {
  }

  /** What a step from outside the node leaves: its threads, once they exist, where they are, and its queues no
    * shorter. */
  predicate Grows(a: NodeState, b: NodeState)
  {
    && (a.worker.WNew? || b.worker == a.worker) && (a.update.UNew? || b.update == a.update)
    && |a.inbound| <= |b.inbound| && |a.out| <= |b.out|
  }

  lemma OutsideGrows(ns: NodeState)
    ensures Grows(ns, ns)
    ensures forall e :: Grows(ns, Accept(ns, e))
    ensures forall k, h :: Grows(ns, StartThread(ns, k, h))
  {
  }

  lemma GrowsFromOutside(c: Config, s: State, a: Action, n: Name)
    requires Shape(c, s) && Enabled(c, s, a) && n in c.names && !Own(a)
    ensures n in Apply(c, s, a).nodes && Grows(s.nodes[n], Apply(c, s, a).nodes[n])
  {
    hide Script, Room, OpReady, JoinReady, Stops, Stamped, Propagates, BeginTx, Grows, StartThread, Accept;
    BeginKeepsNodes();
    OutsideGrows(s.nodes[n]);
  }

  lemma GrowsIsStuck(a: NodeState, b: NodeState)
    requires Grows(a, b)
    ensures Stuck(a, b)
  {
  }

  // ----- what it takes to clog a node -----

  /** What lies in a node that has met its stop arrived after its first stop. */
  lemma BacklogIsLate(ns: NodeState, m: nat)
    requires NodeInv(ns) && Stopping(ns) && DrainedUpTo(ns, m)
    ensures |ns.out| + |ToBuffer(ns)| + |InWorker(ns)| + |ns.inbound| <= |ns.accepted| - m
  {
    EntriesPrefix(ns.disposed, m);
    KeptLength(ns.disposed, m);
  }

  lemma {:induction false} KeptLength(q: seq<Disposal>, m: nat)
    requires m <= |q|
    ensures |Kept(q)| <= |Kept(q[..m])| + |q| - m
  {
    if m < |q| {
      KeptLength(q[..|q| - 1], m);
      assert q[..|q| - 1][..m] == q[..m];
    } else {
      assert q[..m] == q;
    }
  }

  /** A node is clogged only if at least a queue's capacity of messages was accepted after its first stop, one more
    * if the worker is the one that waits; with unbounded queues none ever is. */
  lemma ClogsTakeLateArrivals(c: Config, run: seq<State>, n: Name) returns (m: nat)
    requires WellFormed(c) && Run(c, run) && n in c.names && n in Last(run).nodes && Clogged(c, Last(run).nodes[n])
    ensures var ns := Last(run).nodes[n];
      && 0 < m <= |ns.accepted| && Stops(ns.accepted[m - 1].msg) && !HasStop(ns.accepted[..m - 1])
      && 0 < c.maxsize && c.maxsize + (if ns.worker.WGive? then 1 else 0) <= |ns.accepted| - m
  {
    hide NodesOk, TxsOk, Quiet, Streams, Signals, ScriptOk, Script, WellFormed;
    RunKeepsInv(c, run);
    NodeFacts(c, Last(run), n);
    m := StoppedIsDrained(Last(run).nodes[n]);
    BacklogIsLate(Last(run).nodes[n], m);
  }

  // ----- threads held up by a clog further down -----

  /** The thread transmits, has read the draining flag of the node, and finds its queue full. */
  predicate WaitsAt(c: Config, s: State, who: Sender, d: Name)
  {
    && who in s.tx && s.tx[who].checked && s.tx[who].left != [] && s.tx[who].left[0] == d
    && d in s.nodes && !Room(c, s.nodes[d].inbound)
  }

  /** As long as this thread waits, nothing is taken from the inbound queue of its node: it is the worker, or the
    * update thread while the worker has the buffer full before it. */
  predicate Jams(c: Config, s: State, who: Sender)
  {
    && IsFeeder(who) && who.node in s.nodes
    && (who.Worker? || (s.nodes[who.node].worker.WGive? && !Room(c, s.nodes[who.node].out)))
  }

  /** Each thread waits at the node of the next, which jams it, and the last at a clogged node. That node met its stop
    * while an origin still ran. */
  ghost predicate Chain(c: Config, s: State, ws: seq<Sender>, d: Name)
  {
    && ws != [] && (forall i :: 0 <= i < |ws| ==> IsFeeder(ws[i]))
    && (forall i :: 0 < i < |ws| ==> WaitsAt(c, s, ws[i - 1], ws[i].node) && Jams(c, s, ws[i]))
    && WaitsAt(c, s, Last(ws), d) && Exposed(c, d) && Clogged(c, s.nodes[d])
  }

  ghost predicate HeldUpBy(c: Config, s: State, who: Sender)
  {
    exists ws, d :: Chain(c, s, ws, d) && ws[0] == who
  }

  /** A thread of the node is held up. */
  ghost predicate HeldUp(c: Config, s: State, n: Name)
  {
    HeldUpBy(c, s, Worker(n)) || HeldUpBy(c, s, Update(n))
  }

  /** A thread that jams the node is held up. */
  ghost predicate Jammed(c: Config, s: State, n: Name)
  {
    || (HeldUpBy(c, s, Worker(n)) && Jams(c, s, Worker(n)))
    || (HeldUpBy(c, s, Update(n)) && Jams(c, s, Update(n)))
  }

  lemma HeldUpFromBelow(c: Config, s: State, who: Sender, d: Name)
    requires IsFeeder(who) && WaitsAt(c, s, who, d)
    requires Jammed(c, s, d) || (Exposed(c, d) && Clogged(c, s.nodes[d]))
    ensures HeldUpBy(c, s, who)
  {
    hide Exposed, Clogged, WaitsAt, Jams;
    if Jammed(c, s, d) {
      var next := if HeldUpBy(c, s, Worker(d)) && Jams(c, s, Worker(d)) then Worker(d) else Update(d);
      var ws: seq<Sender>, e :| Chain(c, s, ws, e) && ws[0] == next;
      assert Chain(c, s, [who] + ws, e) && ([who] + ws)[0] == who;
    } else {
      assert Chain(c, s, [who], d) && [who][0] == who;
    }
  }

  lemma HeldUpIsPutting(c: Config, s: State, who: Sender)
    requires HeldUpBy(c, s, who)
    ensures who in s.tx
  {
    hide Exposed, Clogged, Jams;
    var ws: seq<Sender>, d :| Chain(c, s, ws, d) && ws[0] == who;
    if |ws| == 1 {
      assert Last(ws) == who;
    } else {
      assert Jams(c, s, ws[1]);
    }
  }

  lemma HeldUpIsFeeding(c: Config, s: State, who: Sender)
    requires HeldUpBy(c, s, who)
    ensures IsFeeder(who)
  {
    hide Exposed, Clogged, Jams, WaitsAt;
  }

  // ----- which stay held up -----

  lemma WaiterStays(c: Config, s: State, a: Action, who: Sender, d: Name)
    requires Inv(c, s) && Enabled(c, s, a) && IsFeeder(who) && WaitsAt(c, s, who, d)
    ensures SamePuts(s, Apply(c, s, a), who)
  {
    hide NodesOk, TxsOk, Quiet, Streams, Signals, ScriptOk, Script;
    TxFacts(c, s, who.node);
    assert who == Worker(who.node) || who == Update(who.node);
    if Own(a) {
      OwnerIsElsewhere(c, s, a, who);
      hide Enabled, Apply;
      OwnKeepsPuts(c, s, a, who);
    } else if a.PutCheck? || a.PutEnqueue? {
      OtherPutsGoOn(c, s, a, who, d);
    } else {
      hide Enabled, Apply;
      OuterPuts(c, s, a, who);
    }
  }

  lemma OwnerIsElsewhere(c: Config, s: State, a: Action, who: Sender)
    requires Shape(c, s) && Enabled(c, s, a) && Own(a) && IsFeeder(who) && who in s.tx && who.node in c.names
    requires if who.Worker? then s.nodes[who.node].worker.WIdle? else s.nodes[who.node].update.UBusy?
    ensures who == SenderOf(a) ==> !MayPut(a)
  {
    hide Script;
  }

  lemma OtherPutsGoOn(c: Config, s: State, a: Action, who: Sender, d: Name)
    requires Shape(c, s) && Enabled(c, s, a) && (a.PutCheck? || a.PutEnqueue?) && WaitsAt(c, s, who, d)
    ensures SamePuts(s, Apply(c, s, a), who)
  {
    hide Script, Room;
  }

  /** A jammed node keeps its worker where it is, and its queues do not shrink. */
  lemma JamStays(c: Config, s: State, a: Action, who: Sender)
    requires Inv(c, s) && Enabled(c, s, a) && who in s.tx && Jams(c, s, who)
    ensures who.node in Apply(c, s, a).nodes && Jams(c, Apply(c, s, a), who)
    ensures !Room(c, s.nodes[who.node].inbound) ==> !Room(c, Apply(c, s, a).nodes[who.node].inbound)
  {
    hide NodesOk, TxsOk, Quiet, Streams, Signals, ScriptOk, Script, Enabled, Apply, Jams, Room;
    JammerStands(c, s, who);
    var n := who.node;
    if Own(a) {
      OwnStep(c, s, a);
      if a.n == n {
        JammedThreadsWait(c, s, a, who);
        OthersAreStill(s.nodes[n], a, who);
      } else {
        StillGrows(s.nodes[n]);
      }
    } else {
      GrowsFromOutside(c, s, a, n);
    }
    JamsOn(c, s, Apply(c, s, a), who);
  }

  lemma JammerStands(c: Config, s: State, who: Sender)
    requires Shape(c, s) && TxsOk(c, s) && who in s.tx && Jams(c, s, who)
    ensures IsFeeder(who) && who.node in c.names
    ensures if who.Worker? then s.nodes[who.node].worker.WIdle? else s.nodes[who.node].update.UBusy?
    ensures s.nodes[who.node].worker.WIdle? || s.nodes[who.node].worker.WGive?
  {
    hide TxsOk, Room;
    TxFacts(c, s, who.node);
    assert who == Worker(who.node) || who == Update(who.node);
  }

  /** While the worker waits in a put, no step of it can be taken; and none of either thread while the update thread
    * waits behind a full buffer. */
  lemma JammedThreadsWait(c: Config, s: State, a: Action, who: Sender)
    requires Shape(c, s) && Enabled(c, s, a) && Own(a) && who in s.tx && Jams(c, s, who) && a.n == who.node
    requires who.node in c.names
    requires if who.Worker? then s.nodes[who.node].worker.WIdle? else s.nodes[who.node].update.UBusy?
    ensures !OfWorker(a) && (who.Update? ==> !OfUpdate(a))
  {
    hide Script;
  }

  lemma StillGrows(ns: NodeState)
    ensures Grows(ns, ns)
  {
  }

  lemma JamsOn(c: Config, s: State, t: State, who: Sender)
    requires Jams(c, s, who) && who.node in t.nodes && !s.nodes[who.node].worker.WNew?
    requires var a, b := s.nodes[who.node], t.nodes[who.node];
      b.worker == a.worker && |a.inbound| <= |b.inbound| && (who.Update? ==> |a.out| <= |b.out|)
    ensures Jams(c, t, who)
    ensures !Room(c, s.nodes[who.node].inbound) ==> !Room(c, t.nodes[who.node].inbound)
  {
  }

  lemma OthersAreStill(ns: NodeState, a: Action, who: Sender)
    requires Own(a) && OwnMay(ns, a) && !OfWorker(a) && (who.Update? ==> !OfUpdate(a))
    ensures var t := OwnAfter(ns, a);
      t.worker == ns.worker && |ns.inbound| <= |t.inbound| && (who.Update? ==> |ns.out| <= |t.out|)
  {
    hide OwnMay, OwnAfter;
    if OfUpdate(a) {
      UpdateLeaves(ns, a);
    } else if OfSource(a) {
      SourceLeaves(ns, a);
    } else {
      ControlLeaves(ns, a);
    }
  }

  lemma ChainStays(c: Config, s: State, a: Action, ws: seq<Sender>, d: Name)
    requires Inv(c, s) && WellFormed(c) && Enabled(c, s, a) && Chain(c, s, ws, d)
    ensures Chain(c, Apply(c, s, a), ws, d)
  {
    hide NodesOk, TxsOk, Quiet, Streams, Signals, ScriptOk, Script, WellFormed, Enabled, Apply, Room, Jams, Clogged;
    hide Exposed;
    var t := Apply(c, s, a);
    forall i | 0 < i < |ws|
      ensures WaitsAt(c, t, ws[i - 1], ws[i].node) && Jams(c, t, ws[i])
    {
      WaiterStays(c, s, a, ws[i - 1], ws[i].node);
      JamIsPut(c, s, ws, d, i);
      JamStays(c, s, a, ws[i]);
    }
    WaiterStays(c, s, a, Last(ws), d);
    WaitsAtKnown(c, s, Last(ws), d);
    ClogsStay(c, s, a, d);
  }

  lemma JamIsPut(c: Config, s: State, ws: seq<Sender>, d: Name, i: nat)
    requires Chain(c, s, ws, d) && i < |ws|
    ensures ws[i] in s.tx
  {
    if i == |ws| - 1 {
      assert ws[i] == Last(ws);
    } else {
      assert Jams(c, s, ws[i + 1]);
    }
  }

  lemma WaitsAtKnown(c: Config, s: State, who: Sender, d: Name)
    requires Shape(c, s) && WaitsAt(c, s, who, d)
    ensures d in c.names && !Room(c, s.nodes[d].inbound)
  {
  }

  lemma ClogsStay(c: Config, s: State, a: Action, n: Name)
    requires Shape(c, s) && Enabled(c, s, a) && n in c.names && Clogged(c, s.nodes[n]) && !Room(c, s.nodes[n].inbound)
    ensures n in Apply(c, s, a).nodes && Clogged(c, Apply(c, s, a).nodes[n])
    ensures !Room(c, Apply(c, s, a).nodes[n].inbound)
  {
    hide Enabled, Apply, Room, Choked, Shut;
    ClogsAreForever(c, s, a, n);
  }

  /** A thread that is held up stays so, whatever any thread or caller does. */
  lemma HeldUpIsForever(c: Config, s: State, a: Action, who: Sender)
    requires Inv(c, s) && WellFormed(c) && Enabled(c, s, a) && HeldUpBy(c, s, who)
    ensures HeldUpBy(c, Apply(c, s, a), who)
  {
    InvShape(c, s);
    hide Inv, WellFormed, Enabled, Apply, WaitsAt, Jams, Exposed, Clogged;
    var ws: seq<Sender>, d :| Chain(c, s, ws, d) && ws[0] == who;
    ChainStays(c, s, a, ws, d);
    assert Chain(c, Apply(c, s, a), ws, d);
  }
}
