/** What every step of the runtime keeps, and what follows for a pipeline that has stopped. */
module Safety {
  import opened Graphs
  import opened Messages
  import opened Nodes
  import opened Systems

  /** The threads of a node that move data along its links. */
  predicate IsFeeder(who: Sender)
  {
    who.Worker? || who.Update?
  }

  /** What one sender put in a queue, in order. */
  function From(q: seq<Entry>, who: Sender): seq<Message>
  {
    if q == [] then []
    else From(q[..|q| - 1], who) + (if Last(q).sender == who then [Last(q).msg] else [])
  }

  /** What one sender has already put in d's queue, of what it has begun to transmit. */
  function Delivered(s: State, who: Sender, d: Name): seq<Message>
  {
    var all := Sent(s, who);
    if who in s.tx && d in s.tx[who].left && all != [] then all[..|all| - 1] else all
  }

  /** After a stop, nothing comes from a feeder. */
  ghost predicate StopsLast(q: seq<Entry>)
  {
    forall i, j :: 0 <= i < j < |q| && Stops(q[i].msg) ==> !IsFeeder(q[j].sender)
  }

  predicate IsTail<T(==)>(t: seq<T>, s: seq<T>)
  {
    |t| <= |s| && t == s[|s| - |t|..]
  }

  /** Which thread is in the middle of a put, with what, and where that thread stands. */
  ghost predicate TxOk(c: Config, s: State, who: Sender, t: Tx)
    requires s.nodes.Keys == c.names && c.dests.Keys == c.names
  {
    && t.left != []
    && match who
       case Worker(n) =>
         n in c.names && s.nodes[n].worker.WIdle? && IsTail(t.left, c.dests[n]) && !Stops(t.msg)
       case Update(n) =>
         n in c.names && s.nodes[n].update.UBusy? && IsTail(t.left, c.dests[n]) && !Stops(t.msg)
       case Control(n) =>
         && n in c.names && s.nodes[n].control.CDone? && IsTail(t.left, c.dests[n])
         && c.propagate && Propagates(t.msg)
       case Source(n) =>
         && n in c.names && n in c.sources && s.nodes[n].source.SLoop? && t.left == [n]
         && (Stops(t.msg) ==> n in c.enders) && (Propagates(t.msg) ==> c.propagate)
       case Pipe =>
         && 0 < s.pc <= |Script(c)| && Script(c)[s.pc - 1] == PutStop(t.left[0]) && |t.left| == 1
         && !Propagates(t.msg) && Stops(t.msg)
       case Outside => false
  }

  ghost predicate OpDone(c: Config, s: State, i: nat)
    requires s.nodes.Keys == c.names && i < |Script(c)|
  {
    match Script(c)[i]
    case StartOp(n, k) =>
      && n in c.names && (k == 0 ==> !s.nodes[n].worker.WNew?) && (k == 1 ==> !s.nodes[n].update.UNew?)
      && (k == 2 && n in c.sources ==> !s.nodes[n].source.SNew?)
    case Serve => true
    case PutStop(n) => n in c.names && (HasStop(s.nodes[n].accepted) || (Pipe in s.tx && i == s.pc - 1))
    case JoinOp(n, k) =>
      && n in c.names && (k == 2 ==> s.nodes[n].worker.WEnded?) && (k == 3 ==> s.nodes[n].update.UEnded?)
      && (k == 1 && n in c.sources ==> s.nodes[n].source.SEnded?)
  }

  ghost predicate Shape(c: Config, s: State)
  {
    && s.nodes.Keys == c.names && c.dests.Keys == c.names
    && s.pc <= |Script(c)|
  }

  ghost predicate NodesOk(c: Config, s: State)
    requires Shape(c, s)
  {
    forall n :: n in c.names ==> NodeInv(s.nodes[n]) && (!Exposed(c, n) ==> StopsLast(s.nodes[n].accepted))
                                 && (s.nodes[n].source != SNew ==> n in c.sources)
  }

  ghost predicate TxsOk(c: Config, s: State)
    requires Shape(c, s)
  {
    forall who :: who in s.tx ==>
                    TxOk(c, s, who, s.tx[who])
                    && (IsFeeder(who) ==> Sent(s, who) != [] && Last(Sent(s, who)) == s.tx[who].msg)
  }

  /** A stop reaches a node that is not exposed only once nothing upstream can send any more. */
  ghost predicate Quiet(c: Config, s: State)
    requires Shape(c, s)
  {
    forall o, d :: Feeds(c, o, d) && d in c.names && o in c.names && HasStop(s.nodes[d].accepted) ==> Ended(s.nodes[o])
  }

  /** Every link carries exactly what its origin transmits, in order. */
  ghost predicate Streams(c: Config, s: State)
    requires Shape(c, s)
  {
    forall who, d :: IsFeeder(who) && Feeds(c, who.node, d) && d in c.names
                     ==> From(s.nodes[d].accepted, who) == Delivered(s, who, d)
  }

  /** Where a stop may come from: down a chain of stop-propagate, from the pipeline once its stop was called, or
    * from a source function that may return one. */
  predicate SignalOk(c: Config, pc: nat, n: Name, e: Entry)
  {
    && (Propagates(e.msg) ==> c.propagate)
    && (Stops(e.msg) ==>
          || Propagates(e.msg) || (e.sender == Pipe && |StartScript(c.startLayers)| < pc) || SelfStops(c, n))
  }

  ghost predicate Signals(c: Config, s: State)
    requires Shape(c, s)
  {
    forall n, e :: n in c.names && e in s.nodes[n].accepted ==> SignalOk(c, s.pc, n, e)
  }

  ghost predicate ScriptOk(c: Config, s: State)
    requires Shape(c, s)
  {
    forall i :: 0 <= i < s.pc ==> OpDone(c, s, i)
  }

  ghost predicate Inv(c: Config, s: State)
  {
    && Shape(c, s) && NodesOk(c, s) && TxsOk(c, s) && Quiet(c, s) && Streams(c, s) && Signals(c, s) && ScriptOk(c, s)
  }

  // ----- small facts -----

  lemma FromSnoc(q: seq<Entry>, e: Entry, who: Sender)
    ensures From(q + [e], who) == From(q, who) + (if e.sender == who then [e.msg] else [])
  {
    assert (q + [e])[..|q|] == q;
  }

  lemma StopsLastSnoc(q: seq<Entry>, e: Entry)
    requires StopsLast(q) && (IsFeeder(e.sender) ==> !HasStop(q))
    ensures StopsLast(q + [e])
  {
    var r := q + [e];
    forall i, j | 0 <= i < j < |r| && Stops(r[i].msg) ensures !IsFeeder(r[j].sender) {
      assert r[i] == q[i] && q[i] in q;
    }
  }

  lemma TailStep<T>(t: seq<T>, s: seq<T>)
    requires IsTail(t, s) && t != [] && Distinct(s)
    ensures IsTail(t[1..], s) && t[0] in s && t[0] !in t[1..]
  {
    var k := |s| - |t|;
    assert forall i :: 0 <= i < |t| ==> t[i] == s[k + i];
    assert t[1..] == s[k + 1..];
  }

  // ----- a step of one node's own threads -----

  /** A step that touches one node, adds nothing to its inbound queue, and starts no put. */
  ghost predicate LocalStep(c: Config, s: State, n: Name, ns: NodeState)
    requires Shape(c, s)
  {
    && n in c.names && Onward(s.nodes[n], ns)
    && (Worker(n) in s.tx ==> ns.worker.WIdle?)
    && (Update(n) in s.tx ==> ns.update.UBusy?)
    && (Sender.Control(n) in s.tx ==> ns.control.CDone?)
    && (Source(n) in s.tx ==> ns.source.SLoop?)
  }

  lemma LocalStepKeepsInv(c: Config, s: State, n: Name, ns: NodeState)
    requires Inv(c, s) && LocalStep(c, s, n, ns)
    requires NodeInv(ns) && (ns.source != SNew ==> n in c.sources)
    ensures Inv(c, SetNode(s, n, ns))
  {
    hide NodesOk, TxsOk, Quiet, Streams, Signals, ScriptOk;
    LocalNodes(c, s, n, ns);
    LocalTxs(c, s, n, ns);
    LocalQuiet(c, s, n, ns);
    LocalStreams(c, s, n, ns);
    LocalScript(c, s, n, ns);
  }

  lemma LocalNodes(c: Config, s: State, n: Name, ns: NodeState)
    requires Shape(c, s) && NodesOk(c, s) && LocalStep(c, s, n, ns)
    requires NodeInv(ns) && (ns.source != SNew ==> n in c.sources)
    ensures NodesOk(c, SetNode(s, n, ns))
  {
    hide NodeInv, StopsLast, Script;
  }

  lemma LocalTxs(c: Config, s: State, n: Name, ns: NodeState)
    requires Shape(c, s) && TxsOk(c, s) && LocalStep(c, s, n, ns)
    ensures TxsOk(c, SetNode(s, n, ns))
  {
    var s' := SetNode(s, n, ns);
    forall who | who in s'.tx ensures TxOk(c, s', who, s'.tx[who]) {
      assert TxOk(c, s, who, s.tx[who]);
    }
    assert forall who :: Sent(s', who) == Sent(s, who);
  }

  lemma LocalQuiet(c: Config, s: State, n: Name, ns: NodeState)
    requires Shape(c, s) && LocalStep(c, s, n, ns)
    ensures Quiet(c, s) ==> Quiet(c, SetNode(s, n, ns))
    ensures Signals(c, s) ==> Signals(c, SetNode(s, n, ns))
  {
  }

  lemma LocalStreams(c: Config, s: State, n: Name, ns: NodeState)
    requires Shape(c, s) && Streams(c, s) && LocalStep(c, s, n, ns)
    ensures Streams(c, SetNode(s, n, ns))
  {
    var s' := SetNode(s, n, ns);
    forall who, d | IsFeeder(who) && Feeds(c, who.node, d) && d in c.names
      ensures From(s'.nodes[d].accepted, who) == Delivered(s', who, d)
    {
      assert s'.nodes[d].accepted == s.nodes[d].accepted;
      assert Delivered(s', who, d) == Delivered(s, who, d);
    }
  }

  lemma LocalScript(c: Config, s: State, n: Name, ns: NodeState)
    requires Shape(c, s) && ScriptOk(c, s) && LocalStep(c, s, n, ns)
    ensures ScriptOk(c, SetNode(s, n, ns))
  {
    forall i | 0 <= i < s.pc ensures OpDone(c, SetNode(s, n, ns), i) {
      assert OpDone(c, s, i);
    }
  }

  // ----- a thread begins to put -----

  lemma BeginTxKeepsInv(c: Config, s: State, who: Sender, msg: Message, left: seq<Name>)
    requires Inv(c, s) && who !in s.tx && who != Pipe
    requires left != [] ==> TxOk(c, s, who, Tx(msg, left, false))
    requires IsFeeder(who) && who.node in c.names ==> left == c.dests[who.node]
    ensures Inv(c, BeginTx(s, who, msg, left))
  {
    hide TxsOk, Streams, ScriptOk, NodeInv, Script;
    BeginTxs(c, s, who, msg, left);
    BeginStreams(c, s, who, msg, left);
    BeginScript(c, s, who, msg, left);
  }

  lemma BeginTxs(c: Config, s: State, who: Sender, msg: Message, left: seq<Name>)
    requires Shape(c, s) && TxsOk(c, s) && who !in s.tx
    requires left != [] ==> TxOk(c, s, who, Tx(msg, left, false))
    ensures TxsOk(c, BeginTx(s, who, msg, left))
  {
    var s' := BeginTx(s, who, msg, left);
    forall w | w in s'.tx
      ensures TxOk(c, s', w, s'.tx[w])
      ensures IsFeeder(w) ==> Sent(s', w) != [] && Last(Sent(s', w)) == s'.tx[w].msg
    {
      if w == who {
        assert Sent(s', w) == Sent(s, w) + [msg];
      } else {
        assert TxOk(c, s, w, s.tx[w]) && Sent(s', w) == Sent(s, w);
      }
    }
  }

  lemma BeginStreams(c: Config, s: State, who: Sender, msg: Message, left: seq<Name>)
    requires Shape(c, s) && Streams(c, s) && who !in s.tx
    requires IsFeeder(who) && who.node in c.names ==> left == c.dests[who.node]
    ensures Streams(c, BeginTx(s, who, msg, left))
  {
    hide From, Delivered, Script;
    var s' := BeginTx(s, who, msg, left);
    forall w, d | IsFeeder(w) && Feeds(c, w.node, d) && d in c.names
      ensures From(s'.nodes[d].accepted, w) == Delivered(s', w, d)
    {
      assert From(s.nodes[d].accepted, w) == Delivered(s, w, d);
      BeginDelivered(s, who, msg, left, w, d);
    }
  }

  /** What has just begun to be put has been delivered nowhere yet. */
  lemma BeginDelivered(s: State, who: Sender, msg: Message, left: seq<Name>, w: Sender, d: Name)
    requires who !in s.tx && (w == who ==> d in left)
    ensures Delivered(BeginTx(s, who, msg, left), w, d) == Delivered(s, w, d)
  {
    var s' := BeginTx(s, who, msg, left);
    if w == who {
      assert Sent(s', w) == Sent(s, w) + [msg];
      assert Sent(s', w)[..|Sent(s, w)|] == Sent(s, w);
    } else {
      assert Sent(s', w) == Sent(s, w);
    }
  }

  lemma BeginScript(c: Config, s: State, who: Sender, msg: Message, left: seq<Name>)
    requires Shape(c, s) && ScriptOk(c, s) && who !in s.tx
    ensures ScriptOk(c, BeginTx(s, who, msg, left))
  {
    forall i | 0 <= i < s.pc ensures OpDone(c, BeginTx(s, who, msg, left), i) {
      assert OpDone(c, s, i);
    }
  }

  // ----- the order of the pipeline's operations -----

  lemma StartNodeOps(n: Name, op: PipeOp)
    ensures op in StartNode(n) <==> op.StartOp? && op.node == n && op.k < 3
  {
    assert op.StartOp? && op.node == n && op.k < 3 ==> op == StartNode(n)[op.k];
  }

  lemma {:induction false} StartLayerOps(layer: seq<Name>, op: PipeOp)
    ensures op in StartLayer(layer) <==> op.StartOp? && op.node in layer && op.k < 3
  {
    if layer != [] {
      StartLayerOps(layer[..|layer| - 1], op);
      assert layer == layer[..|layer| - 1] + [Last(layer)];
      StartNodeOps(Last(layer), op);
    }
  }

  lemma {:induction false} StartScriptOps(layers: seq<seq<Name>>, op: PipeOp)
    ensures op in StartScript(layers) <==> op.StartOp? && op.node in Flatten(layers) && op.k < 3
  {
    if layers != [] {
      StartScriptOps(layers[..|layers| - 1], op);
      StartLayerOps(Last(layers), op);
    }
  }

  lemma {:induction false} PutLayerOps(layer: seq<Name>, op: PipeOp)
    ensures op in PutLayer(layer) <==> op.PutStop? && op.node in layer
  {
    if layer != [] {
      PutLayerOps(layer[..|layer| - 1], op);
      assert layer == layer[..|layer| - 1] + [Last(layer)];
    }
  }

  lemma JoinNodeOps(n: Name, op: PipeOp)
    ensures op in JoinNode(n) <==> op.JoinOp? && op.node == n && op.k < 4
  {
    assert op.JoinOp? && op.node == n && op.k < 4 ==> op == JoinNode(n)[op.k];
  }

  lemma {:induction false} JoinLayerOps(layer: seq<Name>, op: PipeOp)
    ensures op in JoinLayer(layer) <==> op.JoinOp? && op.node in layer && op.k < 4
  {
    if layer != [] {
      JoinLayerOps(layer[..|layer| - 1], op);
      assert layer == layer[..|layer| - 1] + [Last(layer)];
      JoinNodeOps(Last(layer), op);
    }
  }

  lemma {:induction false} StopScriptOps(layers: seq<seq<Name>>, op: PipeOp)
    ensures op in StopScript(layers)
            <==> (op.PutStop? || (op.JoinOp? && op.k < 4)) && op.node in Flatten(layers)
  {
    if layers != [] {
      StopScriptOps(layers[..|layers| - 1], op);
      PutLayerOps(Last(layers), op);
      JoinLayerOps(Last(layers), op);
    }
  }

  /** Every node is joined before a stop is put to a node of a later layer. */
  lemma {:induction false} JoinsBeforePut(layers: seq<seq<Name>>, i: nat, o: Name, k: nat)
    requires i < |StopScript(layers)| && StopScript(layers)[i].PutStop? && k < 4
    requires forall j, d :: 0 <= j < |layers| && d in layers[j] && d == StopScript(layers)[i].node
                            ==> o in Flatten(layers[..j])
    ensures exists j :: 0 <= j < i && StopScript(layers)[j] == JoinOp(o, k)
  {
    var init, all := layers[..|layers| - 1], StopScript(layers);
    var before := StopScript(init);
    assert all == before + (PutLayer(Last(layers)) + JoinLayer(Last(layers)));
    if i < |before| {
      forall j, d | 0 <= j < |init| && d in init[j] && d == before[i].node ensures o in Flatten(init[..j]) {
        assert init[..j] == layers[..j];
      }
      JoinsBeforePut(init, i, o, k);
      var j :| 0 <= j < i && before[j] == JoinOp(o, k);
      assert all[j] == before[j];
    } else {
      var op := all[i];
      assert op in PutLayer(Last(layers)) + JoinLayer(Last(layers));
      PutLayerOps(Last(layers), op);
      JoinLayerOps(Last(layers), op);
      assert o in Flatten(init);
      StopScriptOps(init, JoinOp(o, k));
      var j :| 0 <= j < |before| && before[j] == JoinOp(o, k);
      assert all[j] == before[j];
    }
  }

  lemma ScriptPutAfterJoins(c: Config, i: nat, o: Name, k: nat)
    requires WellFormed(c) && i < |Script(c)| && Script(c)[i].PutStop? && k < 4
    requires Origin(c, o, Script(c)[i].node)
    ensures exists j :: 0 <= j < i && Script(c)[j] == JoinOp(o, k)
  {
    var a, b := StartScript(c.startLayers), StopScript(c.layers);
    assert Script(c)[i] == if i < |a| then a[i] else if i == |a| then Serve else b[i - |a| - 1];
    if i < |a| { StartScriptOps(c.startLayers, a[i]); }
    JoinsBeforePut(c.layers, i - |a| - 1, o, k);
    var j :| 0 <= j < i - |a| - 1 && b[j] == JoinOp(o, k);
    assert Script(c)[|a| + 1 + j] == b[j];
  }

  /** Every thread of every node is created before anything is stopped. */
  lemma ScriptStartsFirst(c: Config, i: nat, n: Name, k: nat)
    requires WellFormed(c) && i < |Script(c)| && k < 3 && n in c.names
    requires Script(c)[i].PutStop? || Script(c)[i].JoinOp?
    ensures exists j :: 0 <= j < i && Script(c)[j] == StartOp(n, k)
  {
    var a := StartScript(c.startLayers);
    if i < |a| { StartScriptOps(c.startLayers, a[i]); }
    assert i > |a| by { assert Script(c)[|a|] == Serve; }
    StartScriptOps(c.startLayers, StartOp(n, k));
    var j :| 0 <= j < |a| && a[j] == StartOp(n, k);
    assert Script(c)[j] == a[j];
  }

  lemma ScriptNames(c: Config, i: nat)
    requires WellFormed(c) && i < |Script(c)|
    ensures Script(c)[i].Serve? || Script(c)[i].node in c.names
  {
    var a, b := StartScript(c.startLayers), StopScript(c.layers);
    assert Script(c)[i] == if i < |a| then a[i] else if i == |a| then Serve else b[i - |a| - 1];
    if i < |a| { StartScriptOps(c.startLayers, a[i]); }
    if i > |a| { StopScriptOps(c.layers, b[i - |a| - 1]); }
  }

  /** Every node is joined somewhere, so when the script is over all have ended. */
  lemma ScriptJoinsAll(c: Config, n: Name, k: nat)
    requires WellFormed(c) && n in c.names && k < 4
    ensures exists j :: 0 <= j < |Script(c)| && Script(c)[j] == JoinOp(n, k)
  {
    var a, b := StartScript(c.startLayers), StopScript(c.layers);
    StopScriptOps(c.layers, JoinOp(n, k));
    var j :| 0 <= j < |b| && b[j] == JoinOp(n, k);
    assert Script(c)[|a| + 1 + j] == b[j];
  }

  // ----- the next queue of a put is reached -----

  /** Who may put what into d, given what is already there. */
  ghost predicate MayArrive(c: Config, s: State, d: Name, e: Entry)
    requires Shape(c, s)
  {
    && d in c.names
    && (IsFeeder(e.sender) && !Exposed(c, d) ==> !HasStop(s.nodes[d].accepted))
    && (Stops(e.msg) ==> forall o :: o in c.names && Feeds(c, o, d) ==> Ended(s.nodes[o]))
    && SignalOk(c, s.pc, d, e)
  }

  function Arrive(s: State, d: Name, e: Entry): State
    requires d in s.nodes
  {
    SetNode(s, d, Accept(s.nodes[d], e))
  }

  lemma ArriveNodes(c: Config, s: State, d: Name, e: Entry)
    requires Shape(c, s) && NodesOk(c, s) && MayArrive(c, s, d, e)
    ensures NodesOk(c, Arrive(s, d, e))
  {
    hide NodeInv, StopsLast, HasStop, Script;
    var s' := Arrive(s, d, e);
    AcceptKeepsInv(s.nodes[d], e);
    if !Exposed(c, d) {
      StopsLastSnoc(s.nodes[d].accepted, e);
    }
    forall n | n in c.names && n != d ensures s'.nodes[n] == s.nodes[n] {
    }
  }

  lemma ArriveQuiet(c: Config, s: State, d: Name, e: Entry)
    requires Shape(c, s) && Quiet(c, s) && Signals(c, s) && MayArrive(c, s, d, e)
    ensures Quiet(c, Arrive(s, d, e)) && Signals(c, Arrive(s, d, e))
  {
    var s' := Arrive(s, d, e);
    forall o, d' | Feeds(c, o, d') && d' in c.names && o in c.names && HasStop(s'.nodes[d'].accepted)
      ensures Ended(s'.nodes[o])
    {
      if d' == d {
        HasStopAppend(s.nodes[d].accepted, [e]);
      }
      assert Ended(s.nodes[o]);
    }
  }

  lemma ArriveTxs(c: Config, s: State, d: Name, e: Entry)
    requires Shape(c, s) && TxsOk(c, s) && d in c.names
    ensures TxsOk(c, Arrive(s, d, e))
  {
    var s' := Arrive(s, d, e);
    forall who | who in s'.tx ensures TxOk(c, s', who, s'.tx[who]) {
      assert TxOk(c, s, who, s.tx[who]);
    }
    assert forall who :: Sent(s', who) == Sent(s, who);
  }

  lemma ArriveScript(c: Config, s: State, d: Name, e: Entry)
    requires Shape(c, s) && ScriptOk(c, s) && d in c.names
    ensures ScriptOk(c, Arrive(s, d, e))
  {
    HasStopAppend(s.nodes[d].accepted, [e]);
    forall i | 0 <= i < s.pc ensures OpDone(c, Arrive(s, d, e), i) {
      assert OpDone(c, s, i);
    }
  }

  lemma ExternalKeepsInv(c: Config, s: State, d: Name, e: Entry)
    requires Inv(c, s) && d in c.names && e.sender == Outside && !Stops(e.msg)
    ensures Inv(c, Arrive(s, d, e))
  {
    hide NodesOk, TxsOk, Quiet, Streams, Signals, ScriptOk;
    ArriveNodes(c, s, d, e);
    ArriveQuiet(c, s, d, e);
    ArriveTxs(c, s, d, e);
    ArriveScript(c, s, d, e);
    ArriveStreams(c, s, d, e);
  }

  lemma SameDelivered(s: State, t: State, w: Sender, x: Name)
    requires t.tx == s.tx && t.sent == s.sent
    ensures Delivered(t, w, x) == Delivered(s, w, x) && Sent(t, w) == Sent(s, w)
  {
  }

  lemma ArriveDelivers(s: State, d: Name, e: Entry, w: Sender, x: Name)
    requires d in s.nodes && x in s.nodes
    ensures Delivered(Arrive(s, d, e), w, x) == Delivered(s, w, x) && Sent(Arrive(s, d, e), w) == Sent(s, w)
    ensures From(Arrive(s, d, e).nodes[x].accepted, w)
         == From(s.nodes[x].accepted, w) + (if x == d && e.sender == w then [e.msg] else [])
  {
    hide From, Delivered, Sent;
    FromSnoc(s.nodes[d].accepted, e, w);
    assert From(s.nodes[x].accepted, w) + [] == From(s.nodes[x].accepted, w);
    SameDelivered(s, Arrive(s, d, e), w, x);
  }

  lemma ArriveStreams(c: Config, s: State, d: Name, e: Entry)
    requires Shape(c, s) && Streams(c, s) && d in c.names && !IsFeeder(e.sender)
    ensures Streams(c, Arrive(s, d, e))
  {
    hide From, Delivered, Sent, Script;
    var s' := Arrive(s, d, e);
    forall w, x | IsFeeder(w) && Feeds(c, w.node, x) && x in c.names
      ensures From(s'.nodes[x].accepted, w) == Delivered(s', w, x)
    {
      ArriveDelivers(s, d, e, w, x);
      assert From(s.nodes[x].accepted, w) + [] == From(s.nodes[x].accepted, w);
    }
  }

  lemma AdvanceTxs(c: Config, s: State, who: Sender)
    requires Shape(c, s) && TxsOk(c, s) && who in s.tx
    requires forall o :: o in c.names ==> Distinct(c.dests[o])
    ensures s.tx[who].left != [] && TxsOk(c, Advance(s, who))
  {
    hide Script, TxOk, Sent;
    OwnTxAdvances(c, s, who);
    var s' := Advance(s, who);
    forall w | w in s'.tx
      ensures TxOk(c, s', w, s'.tx[w])
      ensures IsFeeder(w) ==> Sent(s', w) != [] && Last(Sent(s', w)) == s'.tx[w].msg
    {
      SameSent(s, s', w);
      if w != who {
        SameTxOk(c, s, s', w, s.tx[w]);
      }
    }
  }

  lemma SameSent(s: State, t: State, w: Sender)
    requires t.sent == s.sent
    ensures Sent(t, w) == Sent(s, w)
  {
  }

  lemma SameTxOk(c: Config, s: State, t: State, w: Sender, tx: Tx)
    requires Shape(c, s) && TxOk(c, s, w, tx) && t.nodes == s.nodes && t.pc == s.pc
    ensures TxOk(c, t, w, tx)
  {
    hide Script, IsTail;
  }

  lemma OwnTxAdvances(c: Config, s: State, who: Sender)
    requires Shape(c, s) && TxsOk(c, s) && who in s.tx
    requires forall o :: o in c.names ==> Distinct(c.dests[o])
    ensures s.tx[who].left != []
    ensures who in Advance(s, who).tx ==> TxOk(c, Advance(s, who), who, Advance(s, who).tx[who])
  {
    hide Script, IsTail, Distinct, Propagates, Stops;
    assert TxOk(c, s, who, s.tx[who]);
    if !who.Pipe? && !who.Outside? && !who.Source? {
      TailStep(s.tx[who].left, c.dests[who.node]);
    }
  }

  lemma AdvanceScript(c: Config, s: State, who: Sender)
    requires Shape(c, s) && ScriptOk(c, s) && who in s.tx && TxOk(c, s, who, s.tx[who])
    requires who == Pipe && s.tx[who].left[0] in c.names ==> HasStop(s.nodes[s.tx[who].left[0]].accepted)
    ensures ScriptOk(c, Advance(s, who))
  {
    forall i | 0 <= i < s.pc ensures OpDone(c, Advance(s, who), i) {
      assert OpDone(c, s, i);
    }
  }

  lemma AdvanceRest(c: Config, s: State, who: Sender)
    requires Shape(c, s) && who in s.tx && s.tx[who].left != []
    ensures NodesOk(c, s) ==> NodesOk(c, Advance(s, who))
    ensures Quiet(c, s) ==> Quiet(c, Advance(s, who))
    ensures Signals(c, s) ==> Signals(c, Advance(s, who))
  {
  }

  lemma DropStreams(c: Config, s: State, who: Sender)
    requires Shape(c, s) && Streams(c, s) && who in s.tx && s.tx[who].left != []
    requires IsFeeder(who) ==> Exposed(c, s.tx[who].left[0]) && s.tx[who].left[0] !in s.tx[who].left[1..]
    ensures Streams(c, Advance(s, who))
  {
    hide From, Delivered, Sent, Script;
    var s' := Advance(s, who);
    forall w, x | IsFeeder(w) && Feeds(c, w.node, x) && x in c.names
      ensures From(s'.nodes[x].accepted, w) == Delivered(s', w, x)
    {
      if w == who {
        AdvanceDelivers(s, who, w, x);
      } else {
        OthersDelivered(s, who, w, x);
      }
    }
  }

  lemma OthersDelivered(s: State, who: Sender, w: Sender, x: Name)
    requires who in s.tx && s.tx[who].left != [] && w != who
    ensures Delivered(Advance(s, who), w, x) == Delivered(s, w, x)
  {
  }

  /** A queue whose node drains refuses only what no link carries. */
  lemma DropKeepsInv(c: Config, s: State, who: Sender)
    requires Inv(c, s) && WellFormed(c) && who in s.tx
    requires s.tx[who].left != [] && s.tx[who].left[0] in c.names && s.nodes[s.tx[who].left[0]].draining
    ensures Inv(c, Advance(s, who))
  {
    hide Quiet, Streams, Signals, ScriptOk, Script;
    var d := s.tx[who].left[0];
    assert NodeInv(s.nodes[d]) && TxOk(c, s, who, s.tx[who]);
    StopWasAccepted(s.nodes[d]);
    PutMayArrive(c, s, who);
    if IsFeeder(who) {
      FeederMeetsNoStop(c, s, who);
    }
    AdvanceTxs(c, s, who);
    AdvanceScript(c, s, who);
    AdvanceRest(c, s, who);
    DropStreams(c, s, who);
  }

  /** The pipeline's stop reaches a node only after all its origins have been joined. */
  lemma PipeStopIsLate(c: Config, s: State, o: Name)
    requires Shape(c, s) && ScriptOk(c, s) && WellFormed(c)
    requires Pipe in s.tx && TxOk(c, s, Pipe, s.tx[Pipe]) && Origin(c, o, s.tx[Pipe].left[0])
    ensures o in c.names && Ended(s.nodes[o])
  {
    ScriptPutAfterJoins(c, s.pc - 1, o, 2);
    ScriptPutAfterJoins(c, s.pc - 1, o, 3);
    var i :| 0 <= i < s.pc - 1 && Script(c)[i] == JoinOp(o, 2);
    var j :| 0 <= j < s.pc - 1 && Script(c)[j] == JoinOp(o, 3);
    assert OpDone(c, s, i) && OpDone(c, s, j);
  }

  /** What is being put comes from where a stop may come from, if it is one. */
  lemma PutSignalOk(c: Config, s: State, who: Sender)
    requires Shape(c, s) && who in s.tx && TxOk(c, s, who, s.tx[who])
    ensures s.tx[who].left[0] in c.names ==> SignalOk(c, s.pc, s.tx[who].left[0], Entry(who, s.tx[who].msg))
  {
    if who == Pipe {
      var a := StartScript(c.startLayers);
      var op := Script(c)[s.pc - 1];
      assert s.pc - 1 < |a| ==> op == a[s.pc - 1];
      StartScriptOps(c.startLayers, op);
      assert s.pc - 1 < |a| ==> op in a;
    }
  }

  /** Data is put only to nodes that have not been sent a stop, unless they are exposed. */
  lemma FeederMeetsNoStop(c: Config, s: State, who: Sender)
    requires Inv(c, s) && WellFormed(c) && IsFeeder(who) && who in s.tx
    ensures s.tx[who].left != [] && who.node in c.names && Origin(c, who.node, s.tx[who].left[0])
    ensures s.tx[who].left[0] in c.names && s.tx[who].left[0] !in s.tx[who].left[1..]
    ensures !Exposed(c, s.tx[who].left[0]) ==> !HasStop(s.nodes[s.tx[who].left[0]].accepted)
  {
    hide NodesOk, Streams, Signals, ScriptOk, Script, HasStop;
    assert TxOk(c, s, who, s.tx[who]);
    TailStep(s.tx[who].left, c.dests[who.node]);
    assert Origin(c, who.node, s.tx[who].left[0]);
    if !Exposed(c, s.tx[who].left[0]) {
      assert Feeds(c, who.node, s.tx[who].left[0]);
    }
  }

  /** A stop is put to a node that is not exposed only when its origins have all ended. */
  lemma StopMeetsNoFeeder(c: Config, s: State, who: Sender, o: Name)
    requires Inv(c, s) && WellFormed(c) && who in s.tx && TxOk(c, s, who, s.tx[who]) && Stops(s.tx[who].msg)
    requires o in c.names && Feeds(c, o, s.tx[who].left[0])
    ensures Ended(s.nodes[o])
  {
    hide TxsOk, Quiet, Streams, Signals, ScriptOk, Script, HasStop;
    var t := s.tx[who];
    if who.Control? {
      TailStep(t.left, c.dests[who.node]);
      assert Origin(c, who.node, t.left[0]) && NodeInv(s.nodes[who.node]);
    } else if who == Pipe {
      PipeStopIsLate(c, s, o);
    }
  }

  lemma PutMayArrive(c: Config, s: State, who: Sender)
    requires Inv(c, s) && WellFormed(c) && who in s.tx
    ensures s.tx[who].left != []
    ensures s.tx[who].left[0] in c.names ==> MayArrive(c, s, s.tx[who].left[0], Entry(who, s.tx[who].msg))
  {
    hide SignalOk, Script, NodesOk, Quiet, Streams, Signals, ScriptOk, HasStop, WellFormed;
    assert TxOk(c, s, who, s.tx[who]);
    PutSignalOk(c, s, who);
    if IsFeeder(who) {
      FeederMeetsNoStop(c, s, who);
    }
    if Stops(s.tx[who].msg) {
      forall o | o in c.names && Feeds(c, o, s.tx[who].left[0])
        ensures Ended(s.nodes[o])
      {
        StopMeetsNoFeeder(c, s, who, o);
      }
    }
  }

  lemma AdvanceDelivers(s: State, who: Sender, w: Sender, x: Name)
    requires who in s.tx && s.tx[who].left != [] && s.tx[who].left[0] !in s.tx[who].left[1..]
    ensures Delivered(Advance(s, who), w, x)
            == if w == who && x == s.tx[who].left[0] then Sent(s, w) else Delivered(s, w, x)
  {
    var left := s.tx[who].left;
    assert left == [left[0]] + left[1..];
    assert x in left <==> x == left[0] || x in left[1..];
  }

  lemma DeliverOne(s: State, who: Sender, d: Name, w: Sender, x: Name)
    requires who in s.tx && d in s.nodes && x in s.nodes
    requires s.tx[who].left != [] && d == s.tx[who].left[0] && d !in s.tx[who].left[1..]
    requires IsFeeder(who) ==> Sent(s, who) != [] && Last(Sent(s, who)) == s.tx[who].msg
    requires IsFeeder(w) && From(s.nodes[x].accepted, w) == Delivered(s, w, x)
    ensures var s' := Advance(Arrive(s, d, Entry(who, s.tx[who].msg)), who);
            From(s'.nodes[x].accepted, w) == Delivered(s', w, x)
  {
    hide From, Delivered, Sent;
    var e := Entry(who, s.tx[who].msg);
    var s1 := Arrive(s, d, e);
    AdvanceDelivers(s1, who, w, x);
    ArriveDelivers(s, d, e, w, x);
    if w == who && x == d {
      LastIsOutstanding(s, who, d);
    }
  }

  lemma LastIsOutstanding(s: State, who: Sender, d: Name)
    requires who in s.tx && d in s.tx[who].left && Sent(s, who) != []
    ensures Sent(s, who) == Delivered(s, who, d) + [Last(Sent(s, who))]
  {
  }

  lemma DeliverStreams(c: Config, s: State, who: Sender, d: Name)
    requires Shape(c, s) && Streams(c, s) && TxsOk(c, s) && who in s.tx && d in c.names
    requires s.tx[who].left != [] && d == s.tx[who].left[0] && d !in s.tx[who].left[1..]
    ensures Streams(c, Advance(Arrive(s, d, Entry(who, s.tx[who].msg)), who))
  {
    forall w, x | IsFeeder(w) && Feeds(c, w.node, x) && x in c.names
      ensures var s' := Advance(Arrive(s, d, Entry(who, s.tx[who].msg)), who);
              From(s'.nodes[x].accepted, w) == Delivered(s', w, x)
    {
      DeliverOne(s, who, d, w, x);
    }
  }

  lemma DeliverKeepsInv(c: Config, s: State, who: Sender)
    requires Inv(c, s) && WellFormed(c) && who in s.tx
    requires s.tx[who].left != [] && s.tx[who].left[0] in c.names
    ensures Inv(c, Advance(Arrive(s, s.tx[who].left[0], Entry(who, s.tx[who].msg)), who))
  {
    hide NodesOk, Quiet, Streams, Signals, ScriptOk, Script;
    var t := s.tx[who];
    var d, e := t.left[0], Entry(who, t.msg);
    var s1 := Arrive(s, d, e);
    PutMayArrive(c, s, who);
    ArriveNodes(c, s, d, e);
    ArriveQuiet(c, s, d, e);
    ArriveTxs(c, s, d, e);
    ArriveScript(c, s, d, e);
    assert TxOk(c, s, who, t) && TxOk(c, s1, who, t);
    if !who.Pipe? && !who.Outside? && !who.Source? {
      TailStep(t.left, c.dests[who.node]);
    }
    HasStopAppend(s.nodes[d].accepted, [e]);
    assert Stops(e.msg) ==> HasStop([e]) by { assert e in [e]; }
    DeliverStreams(c, s, who, d);
    AdvanceTxs(c, s1, who);
    AdvanceScript(c, s1, who);
    AdvanceRest(c, s1, who);
  }
}
