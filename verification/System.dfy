/** The whole runtime as a transition system: every node's threads, the control threads, the
  * thread that drives the pipeline, and callers outside, interleaved in any order. */
module Systems {
  import opened Graphs
  import opened Messages
  import opened Nodes

  /** A thread inside `put` or `transmit`: the message, the queues still to reach, and whether the
    * next queue's draining flag has been read (and found down). */
  datatype Tx = Tx(msg: Message, left: seq<Name>, checked: bool)

  /** The pipeline's own thread, unrolled: its loops over layers as a list of operations. */
  datatype PipeOp =
    | StartOp(node: Name, k: nat)   // create thread k of the node
    | Serve                         // run until stop is called
    | PutStop(node: Name)
    | JoinOp(node: Name, k: nat)    // wait number k of join

  datatype Config = Config(
    names: set<Name>, dests: map<Name, seq<Name>>,
    sources: set<Name>,   // nodes with a source function
    enders: set<Name>,    // nodes whose source function may return a stop signal
    startLayers: seq<seq<Name>>, layers: seq<seq<Name>>,   // as computed by start, and again by stop
    maxsize: int,      // queue capacity; zero or less is unbounded
    fanout: nat,       // how many messages one update transmits at most
    propagate: bool)   // whether sources may emit the stop-propagate signal

  /** `sent` is a history: what each thread has begun to transmit. */
  datatype State = State(nodes: map<Name, NodeState>, tx: map<Sender, Tx>, sent: map<Sender, seq<Message>>, pc: nat)

  predicate Room(c: Config, q: seq<Entry>)
  {
    HasRoom(c.maxsize, q)
  }

  ghost predicate Origin(c: Config, o: Name, d: Name)
  {
    o in c.dests && d in c.dests[o]
  }

  // ----- the pipeline's script -----

  function StartNode(n: Name): seq<PipeOp>
  {
    [StartOp(n, 0), StartOp(n, 1), StartOp(n, 2)]
  }

  function StartLayer(layer: seq<Name>): seq<PipeOp>
  {
    if layer == [] then [] else StartLayer(layer[..|layer| - 1]) + StartNode(Last(layer))
  }

  /** Layers are started last to first. */
  function StartScript(layers: seq<seq<Name>>): seq<PipeOp>
  {
    if layers == [] then [] else StartLayer(Last(layers)) + StartScript(layers[..|layers| - 1])
  }

  function PutLayer(layer: seq<Name>): seq<PipeOp>
  {
    if layer == [] then [] else PutLayer(layer[..|layer| - 1]) + [PutStop(Last(layer))]
  }

  function JoinNode(n: Name): seq<PipeOp>
  {
    [JoinOp(n, 0), JoinOp(n, 1), JoinOp(n, 2), JoinOp(n, 3)]
  }

  function JoinLayer(layer: seq<Name>): seq<PipeOp>
  {
    if layer == [] then [] else JoinLayer(layer[..|layer| - 1]) + JoinNode(Last(layer))
  }

  /** Layers are stopped first to last: a stop to every node of the layer, then a join of every one. */
  function StopScript(layers: seq<seq<Name>>): seq<PipeOp>
  {
    if layers == [] then []
    else StopScript(layers[..|layers| - 1]) + (PutLayer(Last(layers)) + JoinLayer(Last(layers)))
  }

  function Script(c: Config): seq<PipeOp>
  {
    StartScript(c.startLayers) + [Serve] + StopScript(c.layers)
  }

  // ----- steps -----

  /** `External` is the second half of a put by some caller outside: any number of callers may have read the draining
    * flag while it was down and queue later, so it is not guarded by the flag. */
  datatype Action =
    | WorkerTake(n: Name) | WorkerDecide(n: Name) | WorkerGive(n: Name) | WorkerQuit(n: Name)
    | UpdateGet(n: Name) | UpdateBegin(n: Name) | Transmit(n: Name, msg: Message) | UpdateFinish(n: Name)
    | UpdateQuit(n: Name)
    | SourceTop(n: Name) | SourceYield(n: Name, msg: Message) | SourceCheck(n: Name)
    | ControlRun(n: Name, i: nat) | ControlFlag(n: Name) | ControlJoin(n: Name)
    | PutCheck(who: Sender) | PutEnqueue(who: Sender)
    | PipeStep(id: int)
    | External(n: Name, id: int, signal: Signal)

  predicate OpReady(c: Config, s: State, op: PipeOp)
    requires s.nodes.Keys == c.names
  {
    match op
    case StartOp(n, k) => n in c.names
    case Serve => true
    case PutStop(n) => true
    case JoinOp(n, k) => n in c.names && JoinReady(s.nodes[n], k)
  }

  ghost predicate Enabled(c: Config, s: State, a: Action)
    requires s.nodes.Keys == c.names && c.dests.Keys == c.names
  {
    match a
    case WorkerTake(n) => n in c.names && Worker(n) !in s.tx && s.nodes[n].worker.WIdle? && s.nodes[n].inbound != []
    case WorkerDecide(n) => n in c.names && s.nodes[n].worker.WHold?
    case WorkerGive(n) => n in c.names && s.nodes[n].worker.WGive? && Room(c, s.nodes[n].out)
    case WorkerQuit(n) => n in c.names && Worker(n) !in s.tx && s.nodes[n].worker.WIdle? && s.nodes[n].stopWorker
    case UpdateGet(n) => n in c.names && s.nodes[n].update.UIdle? && s.nodes[n].out != []
    case UpdateBegin(n) => n in c.names && s.nodes[n].update.UGot?
    case Transmit(n, msg) =>
      && n in c.names && Update(n) !in s.tx
      && s.nodes[n].update.UBusy? && s.nodes[n].update.sends < c.fanout && !Stops(msg)
    case UpdateFinish(n) =>
      n in c.names && Update(n) !in s.tx && s.nodes[n].update.UBusy? && s.nodes[n].pending > 0
    case UpdateQuit(n) =>
      n in c.names && (s.nodes[n].update.UBreak? || (s.nodes[n].update.UIdle? && s.nodes[n].stopUpdate))
    case SourceTop(n) => n in c.names && Source(n) !in s.tx && s.nodes[n].source.SLoop?
    case SourceYield(n, msg) =>
      n in c.names && s.nodes[n].source.SCall? && (Stops(msg) ==> n in c.enders) && (Propagates(msg) ==> c.propagate)
    case SourceCheck(n) => n in c.names && s.nodes[n].source.SHave?
    case ControlRun(n, i) => n in c.names && i < |s.nodes[n].spawned| && !s.nodes[n].spawned[i].Start?
    case ControlFlag(n) => n in c.names && s.nodes[n].control.CFlag?
    case ControlJoin(n) => n in c.names && s.nodes[n].control.CJoin? && JoinReady(s.nodes[n], s.nodes[n].control.k)
    case PutCheck(who) => who in s.tx && s.tx[who].left != [] && s.tx[who].left[0] in c.names && !s.tx[who].checked
    case PutEnqueue(who) =>
      && who in s.tx && s.tx[who].left != [] && s.tx[who].left[0] in c.names && s.tx[who].checked
      && Room(c, s.nodes[s.tx[who].left[0]].inbound)
    case PipeStep(id) =>
      && s.pc < |Script(c)| && Pipe !in s.tx
      && OpReady(c, s, Script(c)[s.pc])
    case External(n, id, signal) => n in c.names && Value(signal) > 0 && Room(c, s.nodes[n].inbound)
  }

  function SetNode(s: State, n: Name, ns: NodeState): State
  {
    s.(nodes := s.nodes[n := ns])
  }

  function Sent(s: State, who: Sender): seq<Message>
  {
    if who in s.sent then s.sent[who] else []
  }

  /** A thread enters `transmit` (or `put`, with one queue to reach). */
  function BeginTx(s: State, who: Sender, msg: Message, left: seq<Name>): State
  {
    s.(tx := if left == [] then s.tx else s.tx[who := Tx(msg, left, false)],
       sent := s.sent[who := Sent(s, who) + [msg]])
  }

  /** The thread is through with the next queue. */
  function Advance(s: State, who: Sender): State
    requires who in s.tx && s.tx[who].left != []
  {
    var t := s.tx[who];
    s.(tx := if |t.left| == 1 then s.tx - {who} else s.tx[who := Tx(t.msg, t.left[1..], false)])
  }

  /** `transmit` stamps the message with the id of the last data message taken up for update. */
  function Stamped(ns: NodeState, msg: Message): Message
  {
    msg.(dataSource := ns.lastId)
  }

  function StopMessage(id: int): Message
  {
    Message(id, "pipeline", Payload.Control(Stop), None)
  }

  ghost function Apply(c: Config, s: State, a: Action): State
    requires s.nodes.Keys == c.names && c.dests.Keys == c.names && Enabled(c, s, a)
  {
    match a
    case WorkerTake(n) => SetNode(s, n, Take(s.nodes[n]))
    case WorkerDecide(n) =>
      var ns := s.nodes[n];
      var s' := SetNode(s, n, Decide(ns));
      if Forwards(ns) then BeginTx(s', Worker(n), Stamped(ns, ns.worker.entry.msg), c.dests[n]) else s'
    case WorkerGive(n) => SetNode(s, n, Give(s.nodes[n]))
    case WorkerQuit(n) => SetNode(s, n, WorkerExit(s.nodes[n]))
    case UpdateGet(n) => SetNode(s, n, Get(s.nodes[n]))
    case UpdateBegin(n) => SetNode(s, n, Begin(s.nodes[n]))
    case Transmit(n, msg) =>
      BeginTx(SetNode(s, n, CountSend(s.nodes[n])), Update(n), Stamped(s.nodes[n], msg), c.dests[n])
    case UpdateFinish(n) => SetNode(s, n, Finish(s.nodes[n]))
    case UpdateQuit(n) => SetNode(s, n, UpdateExit(s.nodes[n]))
    case SourceTop(n) => SetNode(s, n, SourceLoop(s.nodes[n]))
    case SourceYield(n, msg) =>
      var s' := SetNode(s, n, SourceReturn(s.nodes[n], msg));
      if Stops(msg) then BeginTx(s', Source(n), msg, [n]) else s'
    case SourceCheck(n) =>
      var ns := s.nodes[n];
      var s' := SetNode(s, n, SourceGuard(ns));
      if ns.stopSource then s' else BeginTx(s', Source(n), ns.source.msg, [n])
    case ControlRun(n, i) => SetNode(s, n, RunControl(s.nodes[n], i))
    case ControlFlag(n) => SetNode(s, n, RaiseFlag(s.nodes[n]))
    case ControlJoin(n) =>
      var ns := s.nodes[n];
      var s' := SetNode(s, n, JoinNext(ns));
      if JoinNext(ns).control.CDone? && Propagates(ns.control.msg)
      then BeginTx(s', Sender.Control(n), Stamped(ns, ns.control.msg), c.dests[n]) else s'
    case PutCheck(who) =>
      var t := s.tx[who];
      if s.nodes[t.left[0]].draining then Advance(s, who)
      else s.(tx := s.tx[who := t.(checked := true)])
    case PutEnqueue(who) =>
      var t := s.tx[who];
      Advance(SetNode(s, t.left[0], Accept(s.nodes[t.left[0]], Entry(who, t.msg))), who)
    case PipeStep(id) =>
      var s' := s.(pc := s.pc + 1);
      (match Script(c)[s.pc]
       case StartOp(n, k) => SetNode(s', n, StartThread(s.nodes[n], k, n in c.sources))
       case PutStop(n) => BeginTx(s', Pipe, StopMessage(id), [n])
       case _ => s')
    case External(n, id, signal) =>
      SetNode(s, n, Accept(s.nodes[n], Entry(Outside, Message(id, "", Payload.Control(signal), None))))
  }

  ghost predicate Next(c: Config, s: State, s': State)
  {
    s.nodes.Keys == c.names && c.dests.Keys == c.names && exists a :: Enabled(c, s, a) && s' == Apply(c, s, a)
  }

  function Init(c: Config): State
  {
    State(map n | n in c.names :: NewNode(), map[], map[], 0)
  }

  /** A run: it begins with nothing started, and each state follows from the one before by one step. */
  ghost predicate Run(c: Config, run: seq<State>)
  {
    && run != [] && run[0] == Init(c)
    && forall i :: 0 <= i < |run| - 1 ==> Next(c, run[i], run[i + 1])
  }

  // ----- what is assumed of a pipeline -----

  /** Links join known nodes, each once, and the layers hold every node after all its origins. */
  ghost predicate WellFormed(c: Config)
  {
    && c.dests.Keys == c.names
    && (forall o, d :: Origin(c, o, d) ==> o in c.names && d in c.names)
    && (forall o :: o in c.names ==> Distinct(c.dests[o]))
    && (forall n :: n in c.names <==> n in Flatten(c.layers))
    && (forall n :: n in c.names <==> n in Flatten(c.startLayers))
    && (forall k, o, d :: 0 <= k < |c.layers| && d in c.layers[k] && Origin(c, o, d) ==> o in Flatten(c.layers[..k]))
  }

  /** The node's own source function may return a stop. */
  predicate SelfStops(c: Config, n: Name)
  {
    n in c.enders && n in c.sources
  }

  ghost predicate HasTwoOrigins(c: Config, d: Name)
  {
    exists o, o' :: Origin(c, o, d) && Origin(c, o', d) && o != o'
  }

  /** A stop may come to the node while one of its origins still runs: from its own source function, or, if it has
    * several origins, as a stop-propagate handed on by another one. */
  ghost predicate Exposed(c: Config, d: Name)
  {
    SelfStops(c, d) || (c.propagate && HasTwoOrigins(c, d))
  }

  /** A link to a node that meets a stop only when its origins are over. */
  ghost predicate Feeds(c: Config, o: Name, d: Name)
  {
    Origin(c, o, d) && !Exposed(c, d)
  }
}
