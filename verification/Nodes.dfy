/** One node: its inbound queue, its buffer's out queue, and the steps of the threads that
  * move messages between them. A step is one queue operation, one locked block, or one read
  * or write of a flag; between two steps any other thread may run. */
module Nodes {
  import opened Graphs
  import opened Messages

  /** Who put a message in a node's queue: one of the threads of a node, the pipeline, or a caller outside. */
  datatype Sender =
    | Worker(node: Name) | Update(node: Name) | Source(node: Name) | Control(node: Name) | Pipe | Outside

  datatype Entry = Entry(sender: Sender, msg: Message)

  /** What the worker did with an entry: forwarded it (suspended node) or passed it to the buffer. */
  datatype Disposal = Disposal(entry: Entry, forwarded: bool)

  datatype WorkerPc = WNew | WIdle | WHold(entry: Entry) | WGive(entry: Entry) | WEnded
  datatype UpdatePc = UNew | UIdle | UGot(entry: Entry) | UBusy(entry: Entry, sends: nat) | UBreak | UEnded
  datatype SourcePc = SNew | SLoop | SCall | SHave(msg: Message) | SEnded
  datatype ControlPc = CNone | CFlag(msg: Message, k: nat) | CJoin(msg: Message, k: nat) | CDone(msg: Message)

  /** `accepted`, `disposed`, `handled` and `ran` are histories: what entered the inbound queue, what the worker has
    * dealt with, what the update thread is through with, and the signals whose control threads have run, each in
    * order. */
  datatype NodeState = NodeState(
    inbound: seq<Entry>, out: seq<Entry>,
    worker: WorkerPc, update: UpdatePc, source: SourcePc, control: ControlPc, spawned: seq<Signal>,
    draining: bool, stopWorker: bool, stopSource: bool, stopUpdate: bool, suspended: bool,
    pending: nat, lastId: Option<int>,
    accepted: seq<Entry>, disposed: seq<Disposal>, handled: seq<Entry>, ran: seq<Signal>)

  function NewNode(): NodeState
  {
    NodeState([], [], WNew, UNew, SNew, CNone, [], false, false, false, false, false, 0, None, [], [], [], [])
  }

  // ----- the steps -----

  function Accept(ns: NodeState, e: Entry): NodeState
  {
    ns.(inbound := ns.inbound + [e], accepted := ns.accepted + [e])
  }

  function Take(ns: NodeState): NodeState
    requires ns.worker.WIdle? && ns.inbound != []
  {
    ns.(inbound := ns.inbound[1..], worker := WHold(ns.inbound[0]))
  }

  predicate Forwards(ns: NodeState)
    requires ns.worker.WHold?
  {
    ns.suspended && !IsControl(ns.worker.entry.msg)
  }

  function Decide(ns: NodeState): NodeState
    requires ns.worker.WHold?
  {
    var e := ns.worker.entry;
    ns.(worker := if Forwards(ns) then WIdle else WGive(e),
        disposed := ns.disposed + [Disposal(e, Forwards(ns))])
  }

  function Give(ns: NodeState): NodeState
    requires ns.worker.WGive?
  {
    ns.(out := ns.out + [ns.worker.entry], worker := WIdle)
  }

  function WorkerExit(ns: NodeState): NodeState
    requires ns.worker.WIdle? && ns.stopWorker
  {
    ns.(worker := WEnded)
  }

  function Get(ns: NodeState): NodeState
    requires ns.update.UIdle? && ns.out != []
  {
    ns.(out := ns.out[1..], update := UGot(ns.out[0]))
  }

  /** A control message spawns a control thread, and a stop also ends the update loop; any other
    * message becomes the one being worked on. */
  function Begin(ns: NodeState): NodeState
    requires ns.update.UGot?
  {
    var e := ns.update.entry;
    if !IsControl(e.msg) then
      ns.(update := UBusy(e, 0), lastId := Some(e.msg.id), pending := ns.pending + 1)
    else if Stops(e.msg) then
      ns.(update := UBreak, control := CFlag(e.msg, 0), handled := ns.handled + [e])
    else
      ns.(update := UIdle, spawned := ns.spawned + [e.msg.payload.signal], handled := ns.handled + [e])
  }

  function CountSend(ns: NodeState): NodeState
    requires ns.update.UBusy?
  {
    ns.(update := UBusy(ns.update.entry, ns.update.sends + 1))
  }

  function Finish(ns: NodeState): NodeState
    requires ns.update.UBusy? && ns.pending > 0
  {
    ns.(update := UIdle, handled := ns.handled + [ns.update.entry], pending := ns.pending - 1)
  }

  function UpdateExit(ns: NodeState): NodeState
    requires ns.update.UBreak? || (ns.update.UIdle? && ns.stopUpdate)
  {
    ns.(update := UEnded)
  }

  /** A control thread for a signal that neither stops nor starts the node. */
  function RunControl(ns: NodeState, i: nat): NodeState
    requires i < |ns.spawned|
  {
    ns.(spawned := ns.spawned[..i] + ns.spawned[i + 1..], ran := ns.ran + [ns.spawned[i]],
        suspended := if ns.spawned[i].Suspend? then true else if ns.spawned[i].Resume? then false else ns.suspended)
  }

  /** `stop` raises its four flags one after the other, then joins. */
  function RaiseFlag(ns: NodeState): NodeState
    requires ns.control.CFlag?
  {
    var m, k := ns.control.msg, ns.control.k;
    if k == 0 then ns.(draining := true, control := CFlag(m, 1))
    else if k == 1 then ns.(stopWorker := true, control := CFlag(m, 2))
    else if k == 2 then ns.(stopSource := true, control := CFlag(m, 3))
    else ns.(stopUpdate := true, control := CJoin(m, 0))
  }

  lemma RaiseFlagByCases(ns: NodeState)
    requires ns.control.CFlag?
    ensures var m, k, t := ns.control.msg, ns.control.k, RaiseFlag(ns);
      && (k == 0 ==> t == ns.(draining := true, control := CFlag(m, 1)))
      && (k == 1 ==> t == ns.(stopWorker := true, control := CFlag(m, 2)))
      && (k == 2 ==> t == ns.(stopSource := true, control := CFlag(m, 3)))
      && (k > 2 ==> t == ns.(stopUpdate := true, control := CJoin(m, 0)))
  {
  }

  /** The four waits of `join`: no update under way, then source, worker and update thread over. */
  predicate JoinReady(ns: NodeState, k: nat)
  {
    if k == 0 then ns.pending == 0
    else if k == 1 then ns.source.SNew? || ns.source.SEnded?
    else if k == 2 then ns.worker.WNew? || ns.worker.WEnded?
    else ns.update.UNew? || ns.update.UEnded?
  }

  function JoinNext(ns: NodeState): NodeState
    requires ns.control.CJoin?
  {
    ns.(control := if ns.control.k < 3 then CJoin(ns.control.msg, ns.control.k + 1) else CDone(ns.control.msg))
  }

  /** The three threads `start` creates, each only if it does not exist yet. */
  function StartThread(ns: NodeState, k: nat, hasSource: bool): NodeState
  {
    if k == 0 then ns.(draining := false, worker := if ns.worker.WNew? then WIdle else ns.worker)
    else if k == 1 then ns.(update := if ns.update.UNew? then UIdle else ns.update)
    else ns.(source := if hasSource && ns.source.SNew? then SLoop else ns.source)
  }

  function SourceLoop(ns: NodeState): NodeState
    requires ns.source.SLoop?
  {
    ns.(source := if ns.stopSource then SEnded else SCall)
  }

  function SourceReturn(ns: NodeState, msg: Message): NodeState
    requires ns.source.SCall?
  {
    if Stops(msg) then ns.(stopSource := true, source := SLoop) else ns.(source := SHave(msg))
  }

  function SourceGuard(ns: NodeState): NodeState
    requires ns.source.SHave?
  {
    ns.(source := if ns.stopSource then SEnded else SLoop)
  }

  // ----- what every step keeps -----

  function Entries(q: seq<Disposal>): seq<Entry>
  {
    if q == [] then [] else Entries(q[..|q| - 1]) + [Last(q).entry]
  }

  function Kept(q: seq<Disposal>): seq<Entry>
  {
    if q == [] then []
    else Kept(q[..|q| - 1]) + (if Last(q).forwarded then [] else [Last(q).entry])
  }

  function Forwarded(q: seq<Disposal>): seq<Entry>
  {
    if q == [] then []
    else Forwarded(q[..|q| - 1]) + (if Last(q).forwarded then [Last(q).entry] else [])
  }

  function InWorker(ns: NodeState): seq<Entry>
  {
    if ns.worker.WHold? then [ns.worker.entry] else []
  }

  function ToBuffer(ns: NodeState): seq<Entry>
  {
    if ns.worker.WGive? then [ns.worker.entry] else []
  }

  function InUpdate(ns: NodeState): seq<Entry>
  {
    if ns.update.UGot? || ns.update.UBusy? then [ns.update.entry] else []
  }

  ghost predicate HasStop(q: seq<Entry>)
  {
    exists e :: e in q && Stops(e.msg)
  }

  /** The update thread has met a stop. */
  predicate Stopping(ns: NodeState)
  {
    ns.update.UBreak? || ns.update.UEnded?
  }

  predicate Ended(ns: NodeState)
  {
    ns.worker.WEnded? && ns.update.UEnded?
  }

  /** The node is one first-in first-out queue: the two buffers and the hands of the two threads,
    * laid end to end, are what was accepted, in order; nothing is lost, doubled or overtaken. */
  predicate Flow(ns: NodeState)
  {
    && ns.accepted == Entries(ns.disposed) + InWorker(ns) + ns.inbound
    && Kept(ns.disposed) == ns.handled + InUpdate(ns) + ns.out + ToBuffer(ns)
  }

  /** At most one stop is ever handled, and it is the last thing handled. */
  ghost predicate StopIsLast(ns: NodeState)
  {
    if Stopping(ns)
    then ns.handled != [] && Stops(Last(ns.handled).msg)
         && (!ns.control.CNone? ==> ns.control.msg == Last(ns.handled).msg) && !HasStop(ns.handled[..|ns.handled| - 1])
    else !HasStop(ns.handled)
  }

  ghost predicate Threads(ns: NodeState)
  {
    && ns.pending == (if ns.update.UBusy? then 1 else 0)
    && (ns.update.UBusy? ==> !IsControl(ns.update.entry.msg))
    && (ns.control.CNone? <==> !Stopping(ns))
    && (ns.draining || ns.stopWorker || ns.stopUpdate || ns.worker.WEnded? ==> Stopping(ns))
    && (!ns.update.UNew? ==> !ns.worker.WNew?)
    && (ns.source.SHave? ==> !Stops(ns.source.msg))
    && match ns.control
       case CNone => true
       case CFlag(_, k) =>
         k < 4 && (k > 1 ==> ns.stopWorker) && (k > 2 ==> ns.stopSource)
       case CJoin(_, k) =>
         && k < 4 && ns.stopWorker && ns.stopSource && ns.stopUpdate
         && (k > 2 ==> ns.worker.WEnded?)
       case CDone(_) => ns.stopWorker && ns.stopSource && ns.stopUpdate && Ended(ns)
  }

  ghost predicate NodeInv(ns: NodeState)
  {
    && Flow(ns) && StopIsLast(ns) && Threads(ns)
    && (forall d :: d in ns.disposed && d.forwarded ==> !IsControl(d.entry.msg))
  }

  /** What no step of the node undoes. */
  predicate Onward(a: NodeState, b: NodeState)
  {
    && (a.worker.WEnded? ==> b.worker.WEnded?) && (a.update.UEnded? ==> b.update.UEnded?)
    && (a.source.SEnded? ==> b.source.SEnded?) && (!a.worker.WNew? ==> !b.worker.WNew?)
    && (!a.update.UNew? ==> !b.update.UNew?) && (!a.source.SNew? ==> !b.source.SNew?)
    && b.accepted == a.accepted
  }

  lemma EntriesSnoc(q: seq<Disposal>, d: Disposal)
    ensures Entries(q + [d]) == Entries(q) + [d.entry]
    ensures Kept(q + [d]) == Kept(q) + (if d.forwarded then [] else [d.entry])
    ensures Forwarded(q + [d]) == Forwarded(q) + (if d.forwarded then [d.entry] else [])
  {
    assert (q + [d])[..|q|] == q;
  }

  lemma HasStopAppend(p: seq<Entry>, q: seq<Entry>)
    ensures HasStop(p + q) <==> HasStop(p) || HasStop(q)
  {
    forall e | e in p + q ensures e in p || e in q {}
    forall e | e in p || e in q ensures e in p + q {}
  }

  lemma TakeKeepsInv(ns: NodeState)
    requires NodeInv(ns) && ns.worker.WIdle? && ns.inbound != []
    ensures NodeInv(Take(ns)) && Onward(ns, Take(ns))
  {
    assert ns.inbound == [ns.inbound[0]] + ns.inbound[1..];
  }

  lemma DecideKeepsInv(ns: NodeState)
    requires NodeInv(ns) && ns.worker.WHold?
    ensures NodeInv(Decide(ns)) && Onward(ns, Decide(ns))
  {
    EntriesSnoc(ns.disposed, Disposal(ns.worker.entry, Forwards(ns)));
  }

  lemma GiveKeepsInv(ns: NodeState)
    requires NodeInv(ns) && ns.worker.WGive?
    ensures NodeInv(Give(ns)) && Onward(ns, Give(ns))
  {
  }

  lemma WorkerExitKeepsInv(ns: NodeState)
    requires NodeInv(ns) && ns.worker.WIdle? && ns.stopWorker
    ensures NodeInv(WorkerExit(ns)) && Onward(ns, WorkerExit(ns))
  {
    SameFlow(ns, WorkerExit(ns));
  }

  lemma GetKeepsInv(ns: NodeState)
    requires NodeInv(ns) && ns.update.UIdle? && ns.out != []
    ensures NodeInv(Get(ns)) && Onward(ns, Get(ns))
  {
    assert ns.out == [ns.out[0]] + ns.out[1..];
  }

  lemma SameFlow(a: NodeState, b: NodeState)
    requires NodeInv(a)
    requires b.inbound == a.inbound && b.out == a.out && b.disposed == a.disposed && b.handled == a.handled
    requires b.accepted == a.accepted
    requires InWorker(b) == InWorker(a) && ToBuffer(b) == ToBuffer(a) && InUpdate(b) == InUpdate(a)
    requires Stopping(b) == Stopping(a)
      && (b.control.CNone? || (a.control == b.control) || (!a.control.CNone? && b.control.msg == a.control.msg))
    ensures NodeInv(b) <==> Threads(b)
  {
  }

  lemma HandleOne(handled: seq<Entry>, e: Entry)
    ensures HasStop(handled + [e]) <==> HasStop(handled) || Stops(e.msg)
    ensures Last(handled + [e]) == e && (handled + [e])[..|handled + [e]| - 1] == handled
  {
    HasStopAppend(handled, [e]);
    assert HasStop([e]) <==> Stops(e.msg) by { assert e in [e]; }
  }

  lemma BeginKeepsInv(ns: NodeState)
    requires NodeInv(ns) && ns.update.UGot?
    ensures NodeInv(Begin(ns)) && Onward(ns, Begin(ns))
  {
    var e, after := ns.update.entry, Begin(ns);
    HandleOne(ns.handled, e);
    assert Kept(ns.disposed) == (ns.handled + [e]) + ns.out + ToBuffer(ns);
    if !IsControl(e.msg) {
      assert Threads(after);
    } else if Stops(e.msg) {
      assert Threads(after);
    } else {
      assert Threads(after);
    }
    assert Flow(after);
  }

  lemma CountSendKeepsInv(ns: NodeState)
    requires NodeInv(ns) && ns.update.UBusy?
    ensures NodeInv(CountSend(ns)) && Onward(ns, CountSend(ns))
  {
    SameFlow(ns, CountSend(ns));
  }

  lemma FinishKeepsInv(ns: NodeState)
    requires NodeInv(ns) && ns.update.UBusy?
    ensures NodeInv(Finish(ns)) && Onward(ns, Finish(ns))
  {
    HandleOne(ns.handled, ns.update.entry);
  }

  lemma UpdateExitKeepsInv(ns: NodeState)
    requires NodeInv(ns) && (ns.update.UBreak? || (ns.update.UIdle? && ns.stopUpdate))
    ensures NodeInv(UpdateExit(ns)) && Onward(ns, UpdateExit(ns))
  {
  }

  lemma RaiseFlagKeepsInv(ns: NodeState)
    requires NodeInv(ns) && ns.control.CFlag?
    ensures NodeInv(RaiseFlag(ns)) && Onward(ns, RaiseFlag(ns))
  {
    hide Flow, StopIsLast;
    var m, k := ns.control.msg, ns.control.k;
    if k == 0 {
      SameFlow(ns, ns.(draining := true, control := CFlag(m, 1)));
    } else if k == 1 {
      SameFlow(ns, ns.(stopWorker := true, control := CFlag(m, 2)));
    } else if k == 2 {
      SameFlow(ns, ns.(stopSource := true, control := CFlag(m, 3)));
    } else {
      SameFlow(ns, ns.(stopUpdate := true, control := CJoin(m, 0)));
    }
  }

  lemma JoinNextKeepsInv(ns: NodeState)
    requires NodeInv(ns) && ns.control.CJoin? && JoinReady(ns, ns.control.k)
    ensures NodeInv(JoinNext(ns)) && Onward(ns, JoinNext(ns))
  {
    hide Flow, StopIsLast;
    SameFlow(ns, JoinNext(ns));
  }

  lemma RunControlKeepsInv(ns: NodeState, i: nat)
    requires NodeInv(ns) && i < |ns.spawned|
    ensures NodeInv(RunControl(ns, i)) && Onward(ns, RunControl(ns, i))
  {
    SameFlow(ns, RunControl(ns, i));
  }

  lemma StartKeepsInv(ns: NodeState, k: nat, hasSource: bool)
    requires NodeInv(ns)
    requires k == 1 ==> !ns.worker.WNew?
    ensures NodeInv(StartThread(ns, k, hasSource)) && Onward(ns, StartThread(ns, k, hasSource))
  {
    hide Flow, StopIsLast;
    if k == 0 {
      SameFlow(ns, ns.(draining := false, worker := if ns.worker.WNew? then WIdle else ns.worker));
    } else if k == 1 {
      SameFlow(ns, ns.(update := if ns.update.UNew? then UIdle else ns.update));
    } else {
      SameFlow(ns, ns.(source := if hasSource && ns.source.SNew? then SLoop else ns.source));
    }
  }

  lemma SourceLoopKeepsInv(ns: NodeState)
    requires NodeInv(ns) && ns.source.SLoop?
    ensures NodeInv(SourceLoop(ns)) && Onward(ns, SourceLoop(ns))
  {
    SameFlow(ns, SourceLoop(ns));
  }

  lemma SourceReturnKeepsInv(ns: NodeState, msg: Message)
    requires NodeInv(ns) && ns.source.SCall?
    ensures NodeInv(SourceReturn(ns, msg)) && Onward(ns, SourceReturn(ns, msg))
  {
    hide Flow, StopIsLast;
    if Stops(msg) {
      SameFlow(ns, ns.(stopSource := true, source := SLoop));
    } else {
      SameFlow(ns, ns.(source := SHave(msg)));
    }
  }

  lemma SourceGuardKeepsInv(ns: NodeState)
    requires NodeInv(ns) && ns.source.SHave?
    ensures NodeInv(SourceGuard(ns)) && Onward(ns, SourceGuard(ns))
  {
    SameFlow(ns, SourceGuard(ns));
  }

  lemma AcceptKeepsInv(ns: NodeState, e: Entry)
    requires NodeInv(ns)
    ensures NodeInv(Accept(ns, e))
  {
  }

  /** A stop that has been handled was accepted. */
  lemma StopWasAccepted(ns: NodeState)
    requires NodeInv(ns) && Stopping(ns)
    ensures HasStop(ns.accepted)
    ensures exists e :: e in ns.accepted && e.msg == ns.control.msg
  {
    var e := Last(ns.handled);
    KeptAreEntries(ns.disposed, e);
    assert e in Kept(ns.disposed);
    assert e in Entries(ns.disposed);
  }

  lemma {:induction false} KeptAreEntries(q: seq<Disposal>, e: Entry)
    ensures e in Kept(q) || e in Forwarded(q) <==> e in Entries(q)
  {
    if q != [] {
      KeptAreEntries(q[..|q| - 1], e);
    }
  }
}
