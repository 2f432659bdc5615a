/** Runs built step by step: what can be reached from the start of a pipeline. */
module Reaching {
  import opened Graphs
  import opened Messages
  import opened Nodes
  import opened Systems
  import opened Safety
  import opened Shutdown

  ghost predicate Reached(c: Config, s: State)
  {
    WellFormed(c) && exists run :: Run(c, run) && Last(run) == s
  }

  lemma ReachedInv(c: Config, s: State)
    requires Reached(c, s)
    ensures Inv(c, s) && Shape(c, s)
  {
    var run :| Run(c, run) && Last(run) == s;
    RunKeepsInv(c, run);
  }

  lemma ThenReached(c: Config, s: State, a: Action)
    requires Reached(c, s) && Shape(c, s) && Enabled(c, s, a)
    ensures Reached(c, Apply(c, s, a))
  {
    hide Enabled, Apply, WellFormed;
    var run :| Run(c, run) && Last(run) == s;
    var longer := run + [Apply(c, s, a)];
    forall i | 0 <= i < |longer| - 1
      ensures Next(c, longer[i], longer[i + 1])
    {
      assert i < |run| - 1 ==> Next(c, run[i], run[i + 1]);
      assert i == |run| - 1 ==> longer[i] == s;
    }
    assert Run(c, longer) && Last(longer) == Apply(c, s, a);
  }

  lemma RunTo(c: Config, s: State) returns (run: seq<State>)
    requires Reached(c, s)
    ensures Run(c, run) && Last(run) == s
  {
    run :| Run(c, run) && Last(run) == s;
  }

  // ----- single steps, from any reachable state -----

  lemma Takes(c: Config, s: State, n: Name)
    requires Reached(c, s) && n in c.names && n in s.nodes && Worker(n) !in s.tx
    requires s.nodes[n].worker.WIdle? && s.nodes[n].inbound != []
    ensures Reached(c, SetNode(s, n, Take(s.nodes[n])))
  {
    ReachedInv(c, s);
    hide Reached, Inv;
    ThenReached(c, s, WorkerTake(n));
  }

  lemma Decides(c: Config, s: State, n: Name)
    requires Reached(c, s) && n in c.names && n in s.nodes
    requires s.nodes[n].worker.WHold? && !Forwards(s.nodes[n])
    ensures Reached(c, SetNode(s, n, Decide(s.nodes[n])))
  {
    ReachedInv(c, s);
    hide Reached, Inv, Script, Decide;
    ThenReached(c, s, WorkerDecide(n));
  }

  lemma Gives(c: Config, s: State, n: Name)
    requires Reached(c, s) && n in c.names && n in s.nodes
    requires s.nodes[n].worker.WGive? && Room(c, s.nodes[n].out)
    ensures Reached(c, SetNode(s, n, Give(s.nodes[n])))
  {
    ReachedInv(c, s);
    hide Reached, Inv, Script, Give;
    ThenReached(c, s, WorkerGive(n));
  }

  lemma Gets(c: Config, s: State, n: Name)
    requires Reached(c, s) && n in c.names && n in s.nodes && s.nodes[n].update.UIdle? && s.nodes[n].out != []
    ensures Reached(c, SetNode(s, n, Get(s.nodes[n])))
  {
    ReachedInv(c, s);
    hide Reached, Inv, Script, Get;
    ThenReached(c, s, UpdateGet(n));
  }

  lemma Begins(c: Config, s: State, n: Name)
    requires Reached(c, s) && n in c.names && n in s.nodes && s.nodes[n].update.UGot?
    ensures Reached(c, SetNode(s, n, Begin(s.nodes[n])))
  {
    ReachedInv(c, s);
    BeginsNext(c, s, n);
    hide Reached, Inv, Enabled, Apply;
    ThenReached(c, s, UpdateBegin(n));
  }

  lemma BeginsNext(c: Config, s: State, n: Name)
    requires Shape(c, s) && n in c.names && s.nodes[n].update.UGot?
    ensures Enabled(c, s, UpdateBegin(n)) && Apply(c, s, UpdateBegin(n)) == SetNode(s, n, Begin(s.nodes[n]))
  {
    hide Script, Begin, SetNode, BeginTx;
  }

  function Signalled(id: int): Entry
  {
    Entry(Outside, Message(id, "", Payload.Control(Resume), None))
  }

  lemma IsSignalled(c: Config, s: State, n: Name, id: int)
    requires Reached(c, s) && n in c.names && n in s.nodes && Room(c, s.nodes[n].inbound)
    ensures Reached(c, SetNode(s, n, Accept(s.nodes[n], Signalled(id))))
  {
    ReachedInv(c, s);
    SignalArrives(c, s, n, id);
    hide Reached, Inv, Enabled, Apply;
    ThenReached(c, s, External(n, id, Resume));
  }

  lemma SignalArrives(c: Config, s: State, n: Name, id: int)
    requires Shape(c, s) && n in c.names && Room(c, s.nodes[n].inbound)
    ensures Enabled(c, s, External(n, id, Resume))
    ensures Apply(c, s, External(n, id, Resume)) == SetNode(s, n, Accept(s.nodes[n], Signalled(id)))
  {
    hide Script, Accept, SetNode, Room, OpReady, JoinReady, BeginTx;
  }

  /** The one put under way, if it is not over. */
  function Putting(who: Sender, msg: Message, left: seq<Name>): map<Sender, Tx>
  {
    if left == [] then map[] else map[who := Tx(msg, left, false)]
  }

  /** A put that nothing interrupts, to a node whose queue is empty. */
  lemma PutGoesIn(c: Config, before: State, who: Sender, msg: Message, left: seq<Name>) returns (s: State)
    requires Reached(c, before) && left != [] && before.tx == Putting(who, msg, left)
    requires left[0] in c.names && left[0] in before.nodes
    requires before.nodes[left[0]].inbound == [] && !before.nodes[left[0]].draining
    ensures Reached(c, s)
    ensures s == SetNode(before, left[0], Accept(before.nodes[left[0]], Entry(who, msg))).(
                   tx := Putting(who, msg, left[1..]))
  {
    hide Reached, Inv, Script, Enabled, Apply;
    var put := Tx(msg, left, false);
    ReachedInv(c, before);
    PutIsChecked(c, before, who, put);
    ThenReached(c, before, PutCheck(who));
    var mid := before.(tx := map[who := put.(checked := true)]);
    ReachedInv(c, mid);
    PutIsDone(c, mid, who, put.(checked := true));
    ThenReached(c, mid, PutEnqueue(who));
    s := Apply(c, mid, PutEnqueue(who));
  }

  lemma PutIsChecked(c: Config, s: State, who: Sender, put: Tx)
    requires Shape(c, s) && s.tx == map[who := put] && put.left != [] && !put.checked
    requires put.left[0] in c.names && !s.nodes[put.left[0]].draining
    ensures Enabled(c, s, PutCheck(who))
    ensures Apply(c, s, PutCheck(who)) == s.(tx := map[who := put.(checked := true)])
  {
    hide Script;
    assert s.tx[who := put.(checked := true)] == map[who := put.(checked := true)];
  }

  lemma PutIsDone(c: Config, s: State, who: Sender, put: Tx)
    requires Shape(c, s) && s.tx == map[who := put] && put.left != [] && put.checked
    requires put.left[0] in c.names && s.nodes[put.left[0]].inbound == []
    ensures Enabled(c, s, PutEnqueue(who))
    ensures var n := put.left[0];
      Apply(c, s, PutEnqueue(who))
      == SetNode(s, n, Accept(s.nodes[n], Entry(who, put.msg))).(tx := Putting(who, put.msg, put.left[1..]))
  {
    hide Script;
    assert s.tx - {who} == map[];
    assert s.tx[who := Tx(put.msg, put.left[1..], false)] == map[who := Tx(put.msg, put.left[1..], false)];
  }

  lemma Finishes(c: Config, s: State, n: Name)
    requires Reached(c, s) && n in c.names && n in s.nodes && Update(n) !in s.tx
    requires s.nodes[n].update.UBusy? && s.nodes[n].pending > 0
    ensures Reached(c, SetNode(s, n, Finish(s.nodes[n])))
  {
    ReachedInv(c, s);
    FinishIsNext(c, s, n);
    hide Reached, Inv, Enabled, Apply;
    ThenReached(c, s, UpdateFinish(n));
  }

  lemma FinishIsNext(c: Config, s: State, n: Name)
    requires Shape(c, s) && n in c.names && Update(n) !in s.tx && s.nodes[n].update.UBusy? && s.nodes[n].pending > 0
    ensures Enabled(c, s, UpdateFinish(n)) && Apply(c, s, UpdateFinish(n)) == SetNode(s, n, Finish(s.nodes[n]))
  {
    hide Script, Finish, SetNode, BeginTx;
  }

  /** The worker takes the one message there is, and holds it for the buffer. */
  lemma TakesUp(c: Config, before: State, n: Name, e: Entry) returns (s: State)
    requires Reached(c, before) && Worker(n) !in before.tx && n in c.names && n in before.nodes
    requires before.nodes[n].worker.WIdle? && before.nodes[n].inbound == [e]
    requires IsControl(e.msg) || !before.nodes[n].suspended
    ensures Reached(c, s)
    ensures s == SetNode(before, n, before.nodes[n].(inbound := [], worker := WGive(e),
                                                     disposed := before.nodes[n].disposed + [Disposal(e, false)]))
  {
    hide Reached;
    Takes(c, before, n);
    var s1 := SetNode(before, n, Take(before.nodes[n]));
    Decides(c, s1, n);
    s := SetNode(s1, n, Decide(s1.nodes[n]));
    assert [e][1..] == [];
  }

  lemma SourceCalls(c: Config, s: State, n: Name)
    requires Reached(c, s) && n in c.names && n in s.nodes && s.tx == map[]
    requires s.nodes[n].source.SLoop? && !s.nodes[n].stopSource
    ensures Reached(c, SetNode(s, n, s.nodes[n].(source := SCall)))
  {
    ReachedInv(c, s);
    SourceCallsNext(c, s, n);
    hide Reached, Inv, Enabled, Apply;
    ThenReached(c, s, SourceTop(n));
  }

  lemma SourceCallsNext(c: Config, s: State, n: Name)
    requires Shape(c, s) && n in c.names && s.tx == map[] && s.nodes[n].source.SLoop? && !s.nodes[n].stopSource
    ensures Enabled(c, s, SourceTop(n))
    ensures Apply(c, s, SourceTop(n))
         == SetNode(s, n, s.nodes[n].(source := SCall))
  {
    hide Script, BeginTx, SetNode, OpReady, JoinReady, Room;
  }

  /** A source function returns a stop. */
  lemma SourceStops(c: Config, s: State, n: Name, msg: Message)
    requires Reached(c, s) && n in c.enders && n in c.names && n in s.nodes && s.tx == map[]
    requires s.nodes[n].source.SCall? && Stops(msg) && (Propagates(msg) ==> c.propagate)
    ensures Reached(c, BeginTx(SetNode(s, n, s.nodes[n].(stopSource := true, source := SLoop)), Source(n), msg, [n]))
  {
    ReachedInv(c, s);
    StopIsNext(c, s, n, msg);
    hide Reached, Inv, Enabled, Apply;
    ThenReached(c, s, SourceYield(n, msg));
  }

  lemma StopIsNext(c: Config, s: State, n: Name, msg: Message)
    requires Shape(c, s) && n in c.enders && n in c.names && s.nodes[n].source.SCall? && Stops(msg)
    requires Propagates(msg) ==> c.propagate
    ensures Enabled(c, s, SourceYield(n, msg))
    ensures Apply(c, s, SourceYield(n, msg))
         == BeginTx(SetNode(s, n, s.nodes[n].(stopSource := true, source := SLoop)), Source(n), msg, [n])
  {
    hide Script, BeginTx, SetNode, Stops, Propagates;
  }

  /** A source function returns data. */
  lemma SourceReturnsData(c: Config, s: State, n: Name, msg: Message)
    requires Reached(c, s) && n in c.names && n in s.nodes && s.tx == map[]
    requires s.nodes[n].source.SCall? && !IsControl(msg)
    ensures Reached(c, SetNode(s, n, s.nodes[n].(source := SHave(msg))))
  {
    ReachedInv(c, s);
    SourceReturnsDataNext(c, s, n, msg);
    hide Reached, Inv, Enabled, Apply;
    ThenReached(c, s, SourceYield(n, msg));
  }

  lemma SourceReturnsDataNext(c: Config, s: State, n: Name, msg: Message)
    requires Shape(c, s) && n in c.names && s.tx == map[] && s.nodes[n].source.SCall? && !IsControl(msg)
    ensures Enabled(c, s, SourceYield(n, msg))
    ensures Apply(c, s, SourceYield(n, msg))
         == SetNode(s, n, s.nodes[n].(source := SHave(msg)))
  {
    hide Script, BeginTx, SetNode, OpReady, JoinReady, Room;
  }

  lemma SourcePuts(c: Config, s: State, n: Name)
    requires Reached(c, s) && n in c.names && n in s.nodes && s.tx == map[]
    requires s.nodes[n].source.SHave? && !s.nodes[n].stopSource
    ensures Reached(c, BeginTx(SetNode(s, n, s.nodes[n].(source := SLoop)), Source(n), s.nodes[n].source.msg, [n]))
  {
    ReachedInv(c, s);
    SourcePutsNext(c, s, n);
    hide Reached, Inv, Enabled, Apply;
    ThenReached(c, s, SourceCheck(n));
  }

  lemma SourcePutsNext(c: Config, s: State, n: Name)
    requires Shape(c, s) && n in c.names && s.tx == map[] && s.nodes[n].source.SHave? && !s.nodes[n].stopSource
    ensures Enabled(c, s, SourceCheck(n))
    ensures Apply(c, s, SourceCheck(n))
         == BeginTx(SetNode(s, n, s.nodes[n].(source := SLoop)), Source(n), s.nodes[n].source.msg, [n])
  {
    hide Script, BeginTx, SetNode, OpReady, JoinReady, Room;
  }

  lemma UpdateSends(c: Config, s: State, n: Name, msg: Message)
    requires Reached(c, s) && n in c.names && n in s.nodes && Update(n) !in s.tx && c.fanout > 0
    requires s.nodes[n].update.UBusy? && s.nodes[n].update.sends == 0 && !Stops(msg)
    ensures n in c.dests
    ensures Reached(c, BeginTx(SetNode(s, n, CountSend(s.nodes[n])), Update(n), Stamped(s.nodes[n], msg), c.dests[n]))
  {
    ReachedInv(c, s);
    SendIsNext(c, s, n, msg);
    hide Reached, Inv, Enabled, Apply;
    ThenReached(c, s, Transmit(n, msg));
  }

  lemma SendIsNext(c: Config, s: State, n: Name, msg: Message)
    requires Shape(c, s) && n in c.names && Update(n) !in s.tx && c.fanout > 0
    requires s.nodes[n].update.UBusy? && s.nodes[n].update.sends == 0 && !Stops(msg)
    ensures Enabled(c, s, Transmit(n, msg))
    ensures Apply(c, s, Transmit(n, msg))
         == BeginTx(SetNode(s, n, CountSend(s.nodes[n])), Update(n), Stamped(s.nodes[n], msg), c.dests[n])
  {
    hide Script, CountSend, BeginTx, SetNode, Stamped;
  }

  /** The node once its worker has the message for the buffer, and once its update thread has got it. */
  function Held(ns: NodeState, e: Entry): NodeState
  {
    ns.(inbound := [], worker := WGive(e), disposed := ns.disposed + [Disposal(e, false)])
  }

  function Got(ns: NodeState, e: Entry): NodeState
  {
    ns.(inbound := [], update := UGot(e), disposed := ns.disposed + [Disposal(e, false)])
  }

  lemma HeldIsGot(ns: NodeState, e: Entry)
    requires ns.worker.WIdle? && ns.update.UIdle? && ns.out == []
    ensures Held(ns, e).worker.WGive? && Held(ns, e).out == []
    ensures Give(Held(ns, e)).update.UIdle? && Give(Held(ns, e)).out == [e]
    ensures Get(Give(Held(ns, e))) == Got(ns, e) && Got(ns, e).update.UGot?
  {
    assert [e][1..] == [];
  }

  lemma SetTwice(s: State, n: Name, a: NodeState, b: NodeState)
    ensures SetNode(SetNode(s, n, a), n, b) == SetNode(s, n, b)
    ensures n in SetNode(s, n, a).nodes && SetNode(s, n, a).nodes[n] == a && SetNode(s, n, a).tx == s.tx
  {
  }

  /** The one message in a node's queue comes to its update thread. */
  lemma ComesToUpdate(c: Config, before: State, n: Name, e: Entry) returns (s: State)
    requires Reached(c, before) && Worker(n) !in before.tx && n in c.names && n in before.nodes
    requires before.nodes[n].worker.WIdle? && before.nodes[n].inbound == [e] && !before.nodes[n].suspended
    requires before.nodes[n].update.UIdle? && before.nodes[n].out == []
    ensures Reached(c, s)
    ensures s == SetNode(before, n, Begin(Got(before.nodes[n], e)))
  {
    hide Reached, Begin, SetNode;
    var ns := before.nodes[n];
    var s1 := TakesUp(c, before, n, e);
    HeldIsGot(ns, e);
    assert s1 == SetNode(before, n, Held(ns, e));
    hide Give, Get, Held, Got;
    SetTwice(before, n, Held(ns, e), Give(Held(ns, e)));
    Gives(c, s1, n);
    var s2 := SetNode(before, n, Give(Held(ns, e)));
    SetTwice(before, n, Give(Held(ns, e)), Got(ns, e));
    Gets(c, s2, n);
    var s3 := SetNode(before, n, Got(ns, e));
    SetTwice(before, n, Got(ns, e), Begin(Got(ns, e)));
    Begins(c, s3, n);
    s := SetNode(before, n, Begin(Got(ns, e)));
  }

  // ----- a stop, and signals behind it -----

  /** Nothing differs but one node. */
  predicate OnlyAt(s: State, t: State, n: Name)
  {
    n in s.nodes && n in t.nodes && t == SetNode(s, n, t.nodes[n])
  }

  lemma OnlyAtTwice(s: State, t: State, u: State, n: Name)
    requires OnlyAt(s, t, n) && OnlyAt(t, u, n)
    ensures OnlyAt(s, u, n)
  {
  }

  /** The stop of a node is met, and `k` messages lie in its buffer and none before it. */
  ghost predicate Behind(c: Config, s: State, n: Name, k: nat)
  {
    && Reached(c, s) && s.tx == map[] && n in c.names && n in s.nodes
    && Stopping(s.nodes[n]) && !s.nodes[n].draining && s.nodes[n].worker.WIdle?
    && s.nodes[n].inbound == [] && |s.nodes[n].out| == k
  }

  lemma StopIsMet(c: Config, before: State, n: Name, e: Entry) returns (s: State)
    requires Reached(c, before) && before.tx == map[] && n in c.names && n in before.nodes
    requires before.nodes[n].worker.WIdle? && before.nodes[n].inbound == [e] && Stops(e.msg)
    requires before.nodes[n].update.UIdle? && before.nodes[n].out == []
    requires !before.nodes[n].draining && !before.nodes[n].suspended
    ensures Behind(c, s, n, 0) && OnlyAt(before, s, n)
    ensures s.nodes[n].control == CFlag(e.msg, 0) && s.nodes[n].update.UBreak?
    ensures s.nodes[n].source == before.nodes[n].source && s.nodes[n].stopSource == before.nodes[n].stopSource
  {
    hide Reached;
    s := ComesToUpdate(c, before, n, e);
  }

  /** One more signal, taken up by the worker. */
  lemma OneMore(c: Config, before: State, n: Name, k: nat) returns (s: State)
    requires Behind(c, before, n, k) && c.maxsize >= 1
    ensures Reached(c, s) && OnlyAt(before, s, n) && Stopping(s.nodes[n]) && !s.nodes[n].draining
    ensures s.nodes[n].worker.WGive? && s.nodes[n].inbound == [] && |s.nodes[n].out| == k
  {
    hide Reached;
    IsSignalled(c, before, n, 0);
    var s1 := SetNode(before, n, Accept(before.nodes[n], Signalled(0)));
    assert s1.nodes[n].inbound == [Signalled(0)];
    s := TakesUp(c, s1, n, Signalled(0));
  }

  lemma {:induction false} BufferFills(c: Config, before: State, n: Name, k: nat) returns (s: State)
    requires Behind(c, before, n, 0) && k <= c.maxsize && c.maxsize >= 1
    ensures Behind(c, s, n, k) && OnlyAt(before, s, n)
  {
    if k == 0 {
      s := before;
    } else {
      hide Reached, OnlyAt;
      var s0 := BufferFills(c, before, n, k - 1);
      var s1 := OneMore(c, s0, n, k - 1);
      s := FillsByOne(c, s1, n, k - 1);
      OnlyAtTwice(before, s0, s1, n);
      OnlyAtTwice(before, s1, s, n);
    }
  }

  lemma FillsByOne(c: Config, before: State, n: Name, k: nat) returns (s: State)
    requires Reached(c, before) && before.tx == map[] && n in c.names && n in before.nodes && k < c.maxsize
    requires Stopping(before.nodes[n]) && !before.nodes[n].draining && before.nodes[n].worker.WGive?
    requires before.nodes[n].inbound == [] && |before.nodes[n].out| == k
    ensures Behind(c, s, n, k + 1) && OnlyAt(before, s, n)
  {
    hide Reached;
    Gives(c, before, n);
    s := SetNode(before, n, Give(before.nodes[n]));
  }

  /** Signals choke the worker of a node that has met its stop. */
  lemma Chokes(c: Config, before: State, n: Name) returns (s: State)
    requires Behind(c, before, n, 0) && c.maxsize >= 1
    ensures Reached(c, s) && OnlyAt(before, s, n) && Stopping(s.nodes[n]) && !s.nodes[n].draining
    ensures s.nodes[n].worker.WGive? && |s.nodes[n].out| == c.maxsize && s.nodes[n].inbound == []
  {
    hide Reached, OnlyAt;
    var full := BufferFills(c, before, n, c.maxsize);
    s := OneMore(c, full, n, c.maxsize);
    OnlyAtTwice(before, full, s, n);
  }

  /** More signals fill the inbound queue behind it. */
  lemma {:induction false} QueueFills(c: Config, before: State, n: Name, k: nat) returns (s: State)
    requires Reached(c, before) && n in c.names && n in before.nodes && before.nodes[n].inbound == [] && k <= c.maxsize
    ensures Reached(c, s) && OnlyAt(before, s, n) && |s.nodes[n].inbound| == k
    ensures s.nodes[n].worker == before.nodes[n].worker && s.nodes[n].update == before.nodes[n].update
    ensures s.nodes[n].out == before.nodes[n].out && s.nodes[n].draining == before.nodes[n].draining
  {
    if k == 0 {
      s := before;
    } else {
      hide Reached;
      var s0 := QueueFills(c, before, n, k - 1);
      IsSignalled(c, s0, n, 0);
      s := SetNode(s0, n, Accept(s0.nodes[n], Signalled(0)));
    }
  }

  // ----- the start -----

  /** Nothing has happened in the node but its start. */
  predicate Untouched(ns: NodeState)
  {
    && (ns.worker.WNew? || ns.worker.WIdle?) && (ns.update.UNew? || ns.update.UIdle?)
    && (ns.source.SNew? || ns.source.SLoop?)
    && ns == NewNode().(worker := ns.worker, update := ns.update, source := ns.source)
  }

  ghost predicate Starting(c: Config, s: State, k: nat)
  {
    && Reached(c, s) && s.pc == k && s.tx == map[] && s.sent == map[] && s.nodes.Keys == c.names
    && forall n :: n in c.names ==> Untouched(s.nodes[n])
  }

  lemma InitIsReached(c: Config)
    requires WellFormed(c)
    ensures Starting(c, Init(c), 0)
  {
    assert Run(c, [Init(c)]) && Last([Init(c)]) == Init(c);
  }

  lemma {:induction false} Starts(c: Config, k: nat) returns (s: State)
    requires WellFormed(c) && k <= |StartScript(c.startLayers)|
    ensures Starting(c, s, k)
  {
    hide WellFormed, Starting, StartScript, Script;
    if k == 0 {
      InitIsReached(c);
      s := Init(c);
    } else {
      var before := Starts(c, k - 1);
      s := StartsOne(c, before, k - 1);
    }
  }

  lemma StartsOne(c: Config, before: State, k: nat) returns (s: State)
    requires k < |StartScript(c.startLayers)| && Starting(c, before, k)
    ensures Starting(c, s, k + 1)
  {
    ReachedInv(c, before);
    var op := StartOpAt(c, k);
    hide Reached, Inv, Starting, WellFormed, StartScript, Script, StartThread, Enabled, Apply;
    StartingShape(c, before, k);
    StartApplies(c, before, op);
    ThenReached(c, before, PipeStep(0));
    s := SetNode(before.(pc := k + 1), op.node, StartThread(before.nodes[op.node], op.k, op.node in c.sources));
    StartingOn(c, before, k, op, s);
  }

  lemma StartingShape(c: Config, s: State, k: nat)
    requires Starting(c, s, k)
    ensures Reached(c, s) && s.tx == map[] && s.sent == map[] && s.pc == k
  {
  }

  lemma StartingOn(c: Config, before: State, k: nat, op: PipeOp, s: State)
    requires Starting(c, before, k) && op.StartOp? && op.node in c.names && op.node in before.nodes && Reached(c, s)
    requires s == SetNode(before.(pc := k + 1), op.node,
                          StartThread(before.nodes[op.node], op.k, op.node in c.sources))
    ensures Starting(c, s, k + 1)
  {
    hide Reached, Untouched, StartThread;
    StaysUntouched(before.nodes[op.node], op.k, op.node in c.sources);
  }

  lemma StartOpAt(c: Config, k: nat) returns (op: PipeOp)
    requires k < |StartScript(c.startLayers)| && WellFormed(c)
    ensures k < |Script(c)| && Script(c)[k] == op && op.StartOp? && op.node in c.names
  {
    op := StartScript(c.startLayers)[k];
    assert Script(c)[k] == op;
    StartScriptOps(c.startLayers, op);
    ScriptNames(c, k);
  }

  lemma StartApplies(c: Config, s: State, op: PipeOp)
    requires Shape(c, s) && Pipe !in s.tx && s.pc < |Script(c)| && Script(c)[s.pc] == op
    requires op.StartOp? && op.node in c.names
    ensures Enabled(c, s, PipeStep(0))
    ensures Apply(c, s, PipeStep(0))
         == SetNode(s.(pc := s.pc + 1), op.node, StartThread(s.nodes[op.node], op.k, op.node in c.sources))
  {
    hide Script;
  }

  lemma StaysUntouched(ns: NodeState, k: nat, hasSource: bool)
    requires Untouched(ns)
    ensures Untouched(StartThread(ns, k, hasSource))
  {
  }

  lemma Serves(c: Config, before: State) returns (s: State)
    requires Starting(c, before, |StartScript(c.startLayers)|)
    ensures Starting(c, s, |StartScript(c.startLayers)| + 1)
  {
    ReachedInv(c, before);
    assert Script(c)[|StartScript(c.startLayers)|] == Serve;
    hide Reached, Inv, StartScript, Script;
    ThenReached(c, before, PipeStep(0));
    s := before.(pc := before.pc + 1);
  }

  /** The node's threads are there, and nothing else has happened in it. */
  predicate Ready(ns: NodeState, hasSource: bool)
  {
    ns == NewNode().(worker := WIdle, update := UIdle, source := if hasSource then SLoop else SNew)
  }

  /** A pipeline that is started, with nothing done yet. */
  lemma StartedReady(c: Config) returns (s: State)
    requires WellFormed(c)
    ensures Reached(c, s) && s.tx == map[] && s.sent == map[]
    ensures forall n :: n in c.names ==> n in s.nodes && Ready(s.nodes[n], n in c.sources)
  {
    s := Starts(c, |StartScript(c.startLayers)|);
    hide Reached, StartScript, Script;
    forall n | n in c.names
      ensures n in s.nodes && Ready(s.nodes[n], n in c.sources)
    {
      ReachedInv(c, s);
      ReadyAtStart(c, s, n);
    }
  }

  lemma ReadyAtStart(c: Config, s: State, n: Name)
    requires WellFormed(c) && Starting(c, s, |StartScript(c.startLayers)|) && Inv(c, s)
    requires n in c.names
    ensures n in s.nodes && Ready(s.nodes[n], n in c.sources)
  {
    hide NodesOk, TxsOk, Quiet, Streams, Signals, Reached;
    var a := StartScript(c.startLayers);
    for k := 0 to 3
      invariant k > 0 ==> !s.nodes[n].worker.WNew?
      invariant k > 1 ==> !s.nodes[n].update.UNew?
      invariant k > 2 && n in c.sources ==> !s.nodes[n].source.SNew?
    {
      StartScriptOps(c.startLayers, StartOp(n, k));
      var i :| 0 <= i < |a| && a[i] == StartOp(n, k);
      assert Script(c)[i] == a[i];
      DoneBefore(c, s, i);
    }
    NoSourceUnasked(c, s, n);
  }

  lemma NoSourceUnasked(c: Config, s: State, n: Name)
    requires Shape(c, s) && NodesOk(c, s) && n in c.names
    ensures n !in c.sources ==> s.nodes[n].source.SNew?
  {
  }
}
