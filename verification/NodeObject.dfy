/** A node as the object it is: a method for each step its threads take in the transition system, done in place, and
  * shown to do exactly what that step does to the node. Where a queue operation would wait, its method changes
  * nothing and says so. `worker`, `update`, `source` and `control` say where the node's threads stand. */
module NodeObjects {
  import opened Messages
  import opened Nodes
  import opened Systems

  class Node {
    const maxsize: int   // of both queues; zero or less is unbounded

    var queue: seq<Entry>
    var buffer: seq<Entry>
    var draining: bool
    var stopWorkerEvent: bool
    var stopSourceEvent: bool
    var stopUpdateEvent: bool
    var suspended: bool
    var pendingUpdates: nat
    var lastDataSourceEvtId: Option<int>

    var worker: WorkerPc
    var update: UpdatePc
    var source: SourcePc
    var control: ControlPc
    var spawned: seq<Signal>

    ghost var accepted: seq<Entry>
    ghost var disposed: seq<Disposal>
    ghost var handled: seq<Entry>
    ghost var ran: seq<Signal>

    ghost function View(): NodeState
      reads this
    {
      NodeState(queue, buffer, worker, update, source, control, spawned,
                draining, stopWorkerEvent, stopSourceEvent, stopUpdateEvent, suspended,
                pendingUpdates, lastDataSourceEvtId, accepted, disposed, handled, ran)
    }

    constructor (maxsize: int)
      ensures View() == NewNode() && NodeInv(View()) && this.maxsize == maxsize
    {
      this.maxsize := maxsize;
      queue, buffer := [], [];
      draining, stopWorkerEvent, stopSourceEvent, stopUpdateEvent, suspended := false, false, false, false, false;
      pendingUpdates, lastDataSourceEvtId := 0, None;
      worker, update, source, control, spawned := WNew, UNew, SNew, CNone, [];
      accepted, disposed, handled, ran := [], [], [], [];
    }

    /** The first half of `put`: is the message to be discarded? */
    method PutChecks() returns (discard: bool)
      ensures discard == View().draining
    {
      discard := draining;
    }

    /** The second half, whatever has become of the flag in between: the message is queued as soon as there is room. */
    method PutEnqueues(e: Entry) returns (done: bool)
      requires NodeInv(View())
      modifies `queue, `accepted
      ensures done == HasRoom(maxsize, old(queue)) && NodeInv(View())
      ensures View() == if done then Accept(old(View()), e) else old(View())
    {
      hide NodeInv;
      AcceptKeepsInv(View(), e);
      done := HasRoom(maxsize, queue);
      if done {
        queue := queue + [e];
        accepted := accepted + [e];
      }
    }

    /** A put that nothing interrupts. */
    method Put(e: Entry) returns (waits: bool)
      requires NodeInv(View())
      modifies `queue, `accepted
      ensures waits <==> !old(draining) && !HasRoom(maxsize, old(queue))
      ensures View() == (if old(draining) || waits then old(View()) else Accept(old(View()), e)) && NodeInv(View())
    {
      var discard := PutChecks();
      if discard {
        return false;
      }
      var done := PutEnqueues(e);
      return !done;
    }

    /** `start`: takes the draining flag back and creates each thread that does not exist yet. */
    method Start(hasSource: bool)
      requires NodeInv(View())
      modifies `draining, `worker, `update, `source
      ensures View() == StartThread(StartThread(StartThread(old(View()), 0, hasSource), 1, hasSource), 2, hasSource)
      ensures NodeInv(View()) && !draining
      ensures worker == (if old(worker).WNew? then WIdle else old(worker))
        && update == (if old(update).UNew? then UIdle else old(update))
        && source == if hasSource && old(source).SNew? then SLoop else old(source)
    {
      hide NodeInv, StartThread;
      ghost var was := View();
      StartKeepsInv(was, 0, hasSource);
      WorkerStarts(was, hasSource);
      ThreadsStart(was, hasSource);
      StartKeepsInv(StartThread(was, 0, hasSource), 1, hasSource);
      StartKeepsInv(StartThread(StartThread(was, 0, hasSource), 1, hasSource), 2, hasSource);
      StartWorker(hasSource);
      StartUpdate(hasSource);
      StartSource(hasSource);
    }

    method StartWorker(hasSource: bool)
      modifies `draining, `worker
      ensures View() == StartThread(old(View()), 0, hasSource)
    {
      draining := false;
      if worker.WNew? {
        worker := WIdle;
      }
    }

    method StartUpdate(hasSource: bool)
      modifies `update
      ensures View() == StartThread(old(View()), 1, hasSource)
    {
      if update.UNew? {
        update := UIdle;
      }
    }

    method StartSource(hasSource: bool)
      modifies `source
      ensures View() == StartThread(old(View()), 2, hasSource)
    {
      if hasSource && source.SNew? {
        source := SLoop;
      }
    }

    /** The head of the worker's loop. */
    method WorkerLoops() returns (over: bool)
      requires NodeInv(View()) && worker.WIdle?
      modifies `worker
      ensures over == stopWorkerEvent && NodeInv(View())
      ensures View() == if over then WorkerExit(old(View())) else old(View())
    {
      hide NodeInv;
      over := stopWorkerEvent;
      if over {
        WorkerExitKeepsInv(View());
        worker := WEnded;
      }
    }

    /** The worker gets the next message, if there is one. */
    method WorkerTakes() returns (got: bool)
      requires NodeInv(View()) && worker.WIdle?
      modifies `queue, `worker
      ensures got == (old(queue) != []) && NodeInv(View())
      ensures View() == if got then Take(old(View())) else old(View())
    {
      hide NodeInv;
      got := queue != [];
      if got {
        TakeKeepsInv(View());
        worker := WHold(queue[0]);
        queue := queue[1..];
      }
    }

    /** A suspended node has its worker transmit the message (the result), unless it is a control message; any other
      * message is for the buffer. */
    method WorkerDecides() returns (transmitted: Option<Message>)
      requires NodeInv(View()) && worker.WHold?
      modifies `worker, `disposed
      ensures View() == Decide(old(View())) && NodeInv(View())
      ensures transmitted ==
        if old(suspended) && !IsControl(old(worker).entry.msg) then Some(Stamped(old(View()), old(worker).entry.msg))
        else None
    {
      hide NodeInv;
      DecideKeepsInv(View());
      var e := worker.entry;
      if suspended && !IsControl(e.msg) {
        transmitted := Some(Stamps(e.msg));
        disposed := disposed + [Disposal(e, true)];
        worker := WIdle;
      } else {
        transmitted := None;
        disposed := disposed + [Disposal(e, false)];
        worker := WGive(e);
      }
    }

    /** What `transmit` puts into the queues of all destinations: the message with the id of the last data message. */
    function Stamps(message: Message): (stamped: Message)
      reads this
      ensures stamped == Stamped(View(), message)
    {
      message.(dataSource := lastDataSourceEvtId)
    }

    /** The worker passes the message to the buffer as soon as there is room. */
    method WorkerGives() returns (done: bool)
      requires NodeInv(View()) && worker.WGive?
      modifies `buffer, `worker
      ensures done == HasRoom(maxsize, old(buffer)) && NodeInv(View())
      ensures View() == if done then Give(old(View())) else old(View())
    {
      hide NodeInv;
      done := HasRoom(maxsize, buffer);
      if done {
        GiveKeepsInv(View());
        buffer := buffer + [worker.entry];
        worker := WIdle;
      }
    }

    /** The head of the update thread's loop, and its way out after a stop. */
    method UpdateLoops() returns (over: bool)
      requires NodeInv(View()) && (update.UIdle? || update.UBreak?)
      modifies `update
      ensures over == (old(update).UBreak? || stopUpdateEvent) && NodeInv(View())
      ensures View() == if over then UpdateExit(old(View())) else old(View())
    {
      hide NodeInv;
      over := update.UBreak? || stopUpdateEvent;
      if over {
        UpdateExitKeepsInv(View());
        update := UEnded;
      }
    }

    method UpdateGets() returns (got: bool)
      requires NodeInv(View()) && update.UIdle?
      modifies `buffer, `update
      ensures got == (old(buffer) != []) && NodeInv(View())
      ensures View() == if got then Get(old(View())) else old(View())
    {
      hide NodeInv;
      got := buffer != [];
      if got {
        GetKeepsInv(View());
        update := UGot(buffer[0]);
        buffer := buffer[1..];
      }
    }

    /** The update thread begins with the message it got: a control message starts a control thread and a stop
      * ends the loop; any other message is counted as pending and goes to `update` (the result). */
    method UpdateBegins() returns (updating: bool)
      requires NodeInv(View()) && update.UGot?
      modifies `update, `lastDataSourceEvtId, `pendingUpdates, `control, `spawned, `handled
      ensures View() == Begin(old(View())) && NodeInv(View())
      ensures updating <==> !IsControl(old(update).entry.msg)
    {
      hide NodeInv;
      BeginKeepsInv(View());
      updating := !IsControl(update.entry.msg);
      if updating {
        CountsPending();
      } else {
        HandlesControl();
      }
    }

    method CountsPending()
      requires update.UGot? && !IsControl(update.entry.msg)
      modifies `update, `lastDataSourceEvtId, `pendingUpdates
      ensures View() == Begin(old(View()))
    {
      lastDataSourceEvtId := Some(update.entry.msg.id);
      pendingUpdates := pendingUpdates + 1;
      update := UBusy(update.entry, 0);
    }

    method HandlesControl()
      requires update.UGot? && IsControl(update.entry.msg)
      modifies `update, `control, `spawned, `handled
      ensures View() == Begin(old(View()))
    {
      var e := update.entry;
      handled := handled + [e];
      if Value(e.msg.payload.signal) < 0 {
        control := CFlag(e.msg, 0);
        update := UBreak;
      } else {
        spawned := spawned + [e.msg.payload.signal];
        update := UIdle;
      }
    }

    /** A call of `transmit` inside `update`. */
    method Transmits(message: Message) returns (stamped: Message)
      requires NodeInv(View()) && update.UBusy?
      modifies `update
      ensures View() == CountSend(old(View())) && NodeInv(View())
      ensures stamped == Stamped(old(View()), message)
    {
      hide NodeInv;
      CountSendKeepsInv(View());
      stamped := Stamps(message);
      update := UBusy(update.entry, update.sends + 1);
    }

    /** `update` has returned. */
    method UpdateFinishes()
      requires NodeInv(View()) && update.UBusy? && pendingUpdates > 0
      modifies `update, `pendingUpdates, `handled
      ensures View() == Finish(old(View())) && NodeInv(View())
    {
      FinishKeepsInv(View());
      handled := handled + [update.entry];
      update := UIdle;
      pendingUpdates := pendingUpdates - 1;
    }

    /** The head of the source's loop. */
    method SourceLoops() returns (over: bool)
      requires NodeInv(View()) && source.SLoop?
      modifies `source
      ensures over == stopSourceEvent && View() == SourceLoop(old(View())) && NodeInv(View())
    {
      hide NodeInv;
      SourceLoopKeepsInv(View());
      over := stopSourceEvent;
      source := if over then SEnded else SCall;
    }

    /** The source function has returned a message: a stop is put at once (the result), after its own flag is up. */
    method SourceReturns(message: Message) returns (puts: bool)
      requires NodeInv(View()) && source.SCall?
      modifies `source, `stopSourceEvent
      ensures puts == Stops(message) && View() == SourceReturn(old(View()), message) && NodeInv(View())
    {
      hide NodeInv;
      SourceReturnKeepsInv(View(), message);
      puts := IsControl(message) && Value(message.payload.signal) < 0;
      if puts {
        stopSourceEvent := true;
        source := SLoop;
      } else {
        source := SHave(message);
      }
    }

    /** Any other message is dropped if the source was told to stop in the meantime, and else put (the result). */
    method SourceChecks() returns (puts: Option<Message>)
      requires NodeInv(View()) && source.SHave?
      modifies `source
      ensures puts == if stopSourceEvent then None else Some(old(source).msg)
      ensures View() == SourceGuard(old(View())) && NodeInv(View())
    {
      hide NodeInv;
      SourceGuardKeepsInv(View());
      puts := if stopSourceEvent then None else Some(source.msg);
      source := if stopSourceEvent then SEnded else SLoop;
    }

    /** A control thread for a signal that neither stops nor starts the node. */
    method ControlRuns(i: nat)
      requires NodeInv(View()) && i < |spawned|
      modifies `spawned, `suspended, `ran
      ensures View() == RunControl(old(View()), i) && NodeInv(View())
    {
      hide NodeInv;
      RunControlKeepsInv(View(), i);
      if spawned[i].Suspend? {
        suspended := true;
      } else if spawned[i].Resume? {
        suspended := false;
      }
      ran := ran + [spawned[i]];
      spawned := spawned[..i] + spawned[i + 1..];
    }

    /** `stop` raises its flags one by one. */
    method RaisesDraining()
      requires NodeInv(View()) && control.CFlag? && control.k == 0
      modifies `draining, `control
      ensures View() == RaiseFlag(old(View())) && NodeInv(View())
    {
      hide NodeInv;
      RaiseFlagKeepsInv(View());
      draining := true;
      control := CFlag(control.msg, 1);
    }

    method RaisesStopWorker()
      requires NodeInv(View()) && control.CFlag? && control.k == 1
      modifies `stopWorkerEvent, `control
      ensures View() == RaiseFlag(old(View())) && NodeInv(View())
    {
      hide NodeInv;
      RaiseFlagKeepsInv(View());
      stopWorkerEvent := true;
      control := CFlag(control.msg, 2);
    }

    method RaisesStopSource()
      requires NodeInv(View()) && control.CFlag? && control.k == 2
      modifies `stopSourceEvent, `control
      ensures View() == RaiseFlag(old(View())) && NodeInv(View())
    {
      hide NodeInv;
      RaiseFlagKeepsInv(View());
      stopSourceEvent := true;
      control := CFlag(control.msg, 3);
    }

    method RaisesStopUpdate()
      requires NodeInv(View()) && control.CFlag? && control.k == 3
      modifies `stopUpdateEvent, `control
      ensures View() == RaiseFlag(old(View())) && NodeInv(View())
    {
      hide NodeInv;
      RaiseFlagKeepsInv(View());
      stopUpdateEvent := true;
      control := CJoin(control.msg, 0);
    }

    /** The flags of `stop`, in the order it raises them, with nothing in between. */
    method StopRaisesFlags()
      requires NodeInv(View()) && control.CFlag? && control.k == 0
      modifies `draining, `stopWorkerEvent, `stopSourceEvent, `stopUpdateEvent, `control
      ensures View() == RaiseFlag(RaiseFlag(RaiseFlag(RaiseFlag(old(View()))))) && NodeInv(View())
      ensures draining && stopWorkerEvent && stopSourceEvent && stopUpdateEvent
    {
      hide NodeInv, RaiseFlag;
      FlagsGoUp(View());
      RaisesDraining();
      RaisesStopWorker();
      RaisesStopSource();
      RaisesStopUpdate();
    }

    /** One of the four waits of `join`: is it over? */
    method Joins(k: nat) returns (over: bool)
      requires NodeInv(View())
      ensures over == JoinReady(View(), k)
      ensures k == 0 ==> (over <==> !update.UBusy?)
      ensures k == 1 ==> (over <==> source == SNew || source == SEnded)
      ensures k == 2 ==> (over <==> worker == WNew || worker == WEnded)
      ensures k > 2 ==> (over <==> update == UNew || update == UEnded)
    {
      if k == 0 {
        over := pendingUpdates == 0;
      } else if k == 1 {
        over := source.SNew? || source.SEnded?;
      } else if k == 2 {
        over := worker.WNew? || worker.WEnded?;
      } else {
        over := update.UNew? || update.UEnded?;
      }
    }

    /** The same inside `stop`, which goes on to the next wait; after the last one a stop-propagate is transmitted
      * (the result). */
    method StopJoins() returns (transmitted: Option<Message>)
      requires NodeInv(View()) && control.CJoin?
      modifies `control
      ensures View() == (if JoinReady(old(View()), old(control).k) then JoinNext(old(View())) else old(View()))
      ensures NodeInv(View())
      ensures transmitted ==
        if control.CDone? && Propagates(control.msg) then Some(Stamped(View(), control.msg)) else None
    {
      hide NodeInv;
      var over := Joins(control.k);
      transmitted := None;
      if over {
        JoinNextKeepsInv(View());
        if control.k < 3 {
          control := CJoin(control.msg, control.k + 1);
        } else {
          control := CDone(control.msg);
          if Propagates(control.msg) {
            transmitted := Some(Stamps(control.msg));
          }
        }
      }
    }
  }

  lemma FlagsGoUp(ns: NodeState)
    requires ns.control.CFlag? && ns.control.k == 0
    ensures var a := RaiseFlag(ns);
      && a.control == CFlag(ns.control.msg, 1) && a.draining
      && var b := RaiseFlag(a);
      && b.control == CFlag(ns.control.msg, 2) && b.draining && b.stopWorker
      && var c := RaiseFlag(b);
      && c.control == CFlag(ns.control.msg, 3) && c.draining && c.stopWorker && c.stopSource
      && var d := RaiseFlag(c);
      && d.draining && d.stopWorker && d.stopSource && d.stopUpdate
  {
  }

  lemma ThreadsStart(ns: NodeState, hasSource: bool)
    ensures var t := StartThread(StartThread(StartThread(ns, 0, hasSource), 1, hasSource), 2, hasSource);
      && !t.draining
      && t.worker == (if ns.worker.WNew? then WIdle else ns.worker)
      && t.update == (if ns.update.UNew? then UIdle else ns.update)
      && t.source == if hasSource && ns.source.SNew? then SLoop else ns.source
  {
  }

  lemma WorkerStarts(ns: NodeState, hasSource: bool)
    ensures !StartThread(ns, 0, hasSource).worker.WNew?
  {
  }
}
