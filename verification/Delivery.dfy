/** Data gets everywhere: from a node with a source function it can be brought along any links to the update thread of
  * any node below, with everything else at rest; and nowhere else does any ever come. */
module Delivery {
  import opened Graphs
  import opened Messages
  import opened Nodes
  import opened Systems
  import opened Safety
  import opened Shutdown
  import opened Liveness
  import opened Reaching

  ghost predicate Path(c: Config, p: seq<Name>)
  {
    p != [] && forall i :: 0 < i < |p| ==> Origin(c, p[i - 1], p[i])
  }

  /** A node with a source function reaches this one. */
  ghost predicate Fed(c: Config, n: Name)
  {
    exists p :: Path(c, p) && p[0] in c.sources && Last(p) == n
  }

  function DataReturned(): Message
  {
    Message(1, "", Object("", ""), None)
  }

  /** Nothing lies in the node but what its update thread may have in its hand, and it has not been sent a stop. */
  ghost predicate Calm(ns: NodeState, hasSource: bool)
  {
    && ns.worker.WIdle? && ns.inbound == [] && ns.out == []
    && !ns.draining && !ns.suspended && !ns.stopSource && (hasSource ==> ns.source.SLoop?)
    && !HasStop(ns.accepted)
  }

  ghost predicate Idle(ns: NodeState, hasSource: bool)
  {
    Calm(ns, hasSource) && ns.update.UIdle?
  }

  /** The update thread has a message and has not sent anything for it. */
  ghost predicate Busy(ns: NodeState, hasSource: bool)
  {
    Calm(ns, hasSource) && ns.update.UBusy? && ns.update.sends == 0
  }

  /** Every node is idle, except that this one has something to work on. */
  ghost predicate BusyAt(c: Config, s: State, n: Name)
  {
    && Reached(c, s) && s.tx == map[] && s.nodes.Keys == c.names && n in c.names
    && forall m :: m in c.names ==>
         if m == n then Busy(s.nodes[m], m in c.sources) else Idle(s.nodes[m], m in c.sources)
  }

  // ----- one node -----

  lemma ReadyIsIdle(ns: NodeState, hasSource: bool)
    requires Ready(ns, hasSource)
    ensures Idle(ns, hasSource)
  {
  }

  /** What becomes of an idle node when one data message comes to its update thread. */
  lemma IdleTakesUp(ns: NodeState, e: Entry, hasSource: bool)
    requires Idle(ns, hasSource) && !IsControl(e.msg)
    ensures Accept(ns, e).inbound == [e] && Accept(ns, e).worker.WIdle? && Accept(ns, e).update.UIdle?
    ensures Accept(ns, e).out == [] && !Accept(ns, e).suspended
    ensures Busy(Begin(Got(Accept(ns, e), e)), hasSource) && Begin(Got(Accept(ns, e), e)).pending > 0
  {
    HandleOne(ns.accepted, e);
    var b := Got(Accept(ns, e), e);
    assert Begin(b) == b.(update := UBusy(e, 0), lastId := Some(e.msg.id), pending := b.pending + 1);
  }

  lemma BusyFinishes(ns: NodeState, hasSource: bool)
    requires Calm(ns, hasSource) && ns.update.UBusy? && ns.pending > 0
    ensures Idle(Finish(ns), hasSource)
  {
  }

  // ----- one link further -----

  /** The node n transmits; of its targets, those before `left` are through with the message, except that x still works
    * on it. */
  ghost predicate Spreading(c: Config, s: State, n: Name, x: Name, msg: Message, left: seq<Name>)
  {
    && Reached(c, s) && s.tx == Putting(Update(n), msg, left) && s.nodes.Keys == c.names
    && n in c.names && x in c.names && n != x
    && n !in left && Distinct(left) && (forall y :: y in left ==> y in c.names)
    && Calm(s.nodes[n], n in c.sources) && s.nodes[n].update.UBusy?
    && (if x in left then Idle(s.nodes[x], x in c.sources) else Busy(s.nodes[x], x in c.sources))
    && forall m :: m in c.names && m != n && m != x ==> Idle(s.nodes[m], m in c.sources)
  }

  /** The target takes the message up. */
  lemma TargetTakesUp(c: Config, before: State, n: Name, msg: Message, left: seq<Name>) returns (s: State)
    requires Reached(c, before) && left != [] && before.tx == Putting(Update(n), msg, left) && !IsControl(msg)
    requires left[0] in c.names && left[0] in before.nodes && Idle(before.nodes[left[0]], left[0] in c.sources)
    ensures Reached(c, s) && s.tx == Putting(Update(n), msg, left[1..])
    ensures left[0] in s.nodes && Busy(s.nodes[left[0]], left[0] in c.sources) && s.nodes[left[0]].pending > 0
    ensures s.nodes == before.nodes[left[0] := s.nodes[left[0]]]
  {
    hide Reached, Idle, Busy, Accept, Got, Begin;
    var y := left[0];
    var e := Entry(Update(n), msg);
    IdleIsCalm(before.nodes[y], y in c.sources);
    IdleTakesUp(before.nodes[y], e, y in c.sources);
    var s1 := PutGoesIn(c, before, Update(n), msg, left);
    s := ComesToUpdate(c, s1, y, e);
  }

  lemma IdleIsCalm(ns: NodeState, hasSource: bool)
    requires Idle(ns, hasSource)
    ensures ns.inbound == [] && !ns.draining
  {
  }

  lemma SpreadsOne(c: Config, before: State, n: Name, x: Name, msg: Message, left: seq<Name>) returns (s: State)
    requires Spreading(c, before, n, x, msg, left) && left != [] && !IsControl(msg)
    ensures Spreading(c, s, n, x, msg, left[1..])
  {
    hide Reached, Calm;
    var y := left[0];
    assert left == [y] + left[1..];
    var s1 := TargetTakesUp(c, before, n, msg, left);
    if y == x {
      s := s1;
    } else {
      Finishes(c, s1, y);
      BusyFinishes(s1.nodes[y], y in c.sources);
      s := SetNode(s1, y, Finish(s1.nodes[y]));
    }
  }

  lemma {:induction false} Spreads(c: Config, before: State, n: Name, x: Name, msg: Message, left: seq<Name>)
    returns (s: State)
    requires Spreading(c, before, n, x, msg, left) && !IsControl(msg)
    ensures Spreading(c, s, n, x, msg, [])
    decreases |left|
  {
    if left == [] {
      s := before;
    } else {
      var s1 := SpreadsOne(c, before, n, x, msg, left);
      s := Spreads(c, s1, n, x, msg, left[1..]);
    }
  }

  lemma LinkIsProper(c: Config, n: Name, x: Name)
    requires WellFormed(c) && Origin(c, n, x)
    ensures n in c.names && x in c.names && n != x && x in c.dests[n] && n !in c.dests[n]
    ensures Distinct(c.dests[n]) && forall y :: y in c.dests[n] ==> y in c.names
  {
    var level := LevelsExist(c);
    forall y | y in c.dests[n] ensures y in c.names && y != n {
      assert Origin(c, n, y);
    }
  }

  lemma StartsSpreading(c: Config, before: State, n: Name, x: Name, msg: Message)
    requires BusyAt(c, before, n) && x in c.names && n != x && n in c.dests && x in c.dests[n] && n !in c.dests[n]
    requires Distinct(c.dests[n]) && forall y :: y in c.dests[n] ==> y in c.names
    requires Reached(c, BeginTx(SetNode(before, n, CountSend(before.nodes[n])), Update(n), msg, c.dests[n]))
    ensures Spreading(c, BeginTx(SetNode(before, n, CountSend(before.nodes[n])), Update(n), msg, c.dests[n]), n, x, msg,
      c.dests[n])
  {
    hide Reached;
    StillCalm(before.nodes[n], n in c.sources);
  }

  lemma StillCalm(ns: NodeState, hasSource: bool)
    requires Busy(ns, hasSource)
    ensures Calm(CountSend(ns), hasSource) && CountSend(ns).update.UBusy?
  {
  }

  lemma BusyIsKnown(c: Config, s: State, n: Name)
    requires BusyAt(c, s, n)
    ensures Reached(c, s) && s.tx == map[] && n in c.names && n in s.nodes
    ensures s.nodes[n].update.UBusy? && s.nodes[n].update.sends == 0
  {
  }

  lemma GoesFurther(c: Config, before: State, n: Name, x: Name) returns (s: State)
    requires WellFormed(c) && BusyAt(c, before, n) && Origin(c, n, x) && c.fanout > 0
    ensures BusyAt(c, s, x)
  {
    BusyIsKnown(c, before, n);
    hide Reached, WellFormed, Calm, BusyAt, Spreading, Origin;
    LinkIsProper(c, n, x);
    UpdateSends(c, before, n, DataReturned());
    var msg := Stamped(before.nodes[n], DataReturned());
    var s1 := BeginTx(SetNode(before, n, CountSend(before.nodes[n])), Update(n), msg, c.dests[n]);
    StartsSpreading(c, before, n, x, msg);
    var s2 := Spreads(c, s1, n, x, msg, c.dests[n]);
    s := SpreadIsOver(c, s2, n, x, msg);
  }

  lemma SpreadIsOver(c: Config, before: State, n: Name, x: Name, msg: Message) returns (s: State)
    requires Spreading(c, before, n, x, msg, [])
    ensures BusyAt(c, s, x)
  {
    hide Reached, Calm;
    BusyHasPending(c, before, n);
    Finishes(c, before, n);
    BusyFinishes(before.nodes[n], n in c.sources);
    s := SetNode(before, n, Finish(before.nodes[n]));
  }

  lemma BusyHasPending(c: Config, s: State, n: Name)
    requires Reached(c, s) && n in c.names && n in s.nodes && s.nodes[n].update.UBusy?
    ensures s.nodes[n].pending > 0
  {
    ReachedInv(c, s);
    BusyIsPending(c, s, n);
  }

  // ----- all the way -----

  lemma SourceFeeds(c: Config, n: Name) returns (s: State)
    requires WellFormed(c) && n in c.names && n in c.sources
    ensures BusyAt(c, s, n)
  {
    hide Reached, WellFormed;
    var before := StartedReady(c);
    forall m | m in c.names ensures Idle(before.nodes[m], m in c.sources) {
      ReadyIsIdle(before.nodes[m], m in c.sources);
    }
    var e := Entry(Source(n), DataReturned());
    SourceCalls(c, before, n);
    var s1 := SetNode(before, n, before.nodes[n].(source := SCall));
    SourceReturnsData(c, s1, n, DataReturned());
    var s2 := SetNode(s1, n, s1.nodes[n].(source := SHave(DataReturned())));
    SourcePuts(c, s2, n);
    var s3 := BeginTx(SetNode(s2, n, s2.nodes[n].(source := SLoop)), Source(n), DataReturned(), [n]);
    assert s3.tx == Putting(Source(n), DataReturned(), [n]);
    IdleTakesUp(s3.nodes[n], e, true);
    var s4 := PutGoesIn(c, s3, Source(n), DataReturned(), [n]);
    s := ComesToUpdate(c, s4, n, e);
    KeysKnown(c, s);
  }

  lemma KeysKnown(c: Config, s: State)
    requires Reached(c, s)
    ensures s.nodes.Keys == c.names
  {
    ReachedInv(c, s);
  }

  lemma PathBefore(c: Config, p: seq<Name>)
    requires Path(c, p) && |p| > 1
    ensures var init := p[..|p| - 1]; Path(c, init) && init[0] == p[0] && Origin(c, Last(init), Last(p))
  {
    var init := p[..|p| - 1];
    forall i | 0 < i < |init| ensures Origin(c, init[i - 1], init[i]) {
      assert Origin(c, p[i - 1], p[i]);
    }
    assert p[|p| - 1] == Last(p) && Origin(c, p[|p| - 1 - 1], p[|p| - 1]);
  }

  lemma {:induction false} DataGetsThere(c: Config, p: seq<Name>) returns (s: State)
    requires WellFormed(c) && Path(c, p) && p[0] in c.sources && p[0] in c.names && c.fanout > 0
    ensures BusyAt(c, s, Last(p))
    decreases |p|
  {
    hide WellFormed, BusyAt;
    if |p| == 1 {
      s := SourceFeeds(c, p[0]);
    } else {
      var init := p[..|p| - 1];
      PathBefore(c, p);
      var before := DataGetsThere(c, init);
      s := GoesFurther(c, before, Last(init), Last(p));
    }
  }

  // ----- nowhere else -----

  /** The node may come to data, and this thread of it to transmitting any. */
  ghost predicate MaySend(c: Config, w: Sender)
    requires IsFeeder(w)
  {
    Fed(c, w.node) && (w.Update? ==> c.fanout > 0)
  }

  ghost predicate EntryOk(c: Config, n: Name, e: Entry)
  {
    (!IsControl(e.msg) ==> Fed(c, n)) && (IsFeeder(e.sender) ==> MaySend(c, e.sender))
  }

  ghost predicate SendersOk(c: Config, s: State)
  {
    forall w :: IsFeeder(w) && (w in s.tx || Sent(s, w) != []) ==> MaySend(c, w)
  }

  ghost predicate EntriesOk(c: Config, s: State)
  {
    forall n, e :: n in s.nodes && e in s.nodes[n].accepted ==> EntryOk(c, n, e)
  }

  lemma FedBySource(c: Config, n: Name)
    requires n in c.sources
    ensures Fed(c, n)
  {
    assert Path(c, [n]) && [n][0] == n && Last([n]) == n;
  }

  lemma FedFurther(c: Config, n: Name, x: Name)
    requires Fed(c, n) && Origin(c, n, x)
    ensures Fed(c, x)
  {
    var p :| Path(c, p) && p[0] in c.sources && Last(p) == n;
    var q := p + [x];
    forall i | 0 < i < |q| ensures Origin(c, q[i - 1], q[i]) {
      assert i < |p| ==> Origin(c, p[i - 1], p[i]);
      assert i == |p| ==> q[i - 1] == Last(p) && q[i] == x;
    }
    assert Path(c, q) && q[0] == p[0] && Last(q) == x;
  }

  /** What a thread has in its hand was accepted. */
  lemma InHandWasAccepted(ns: NodeState)
    requires NodeInv(ns)
    ensures ns.worker.WHold? ==> ns.worker.entry in ns.accepted
    ensures ns.update.UBusy? ==> ns.update.entry in ns.accepted && !IsControl(ns.update.entry.msg)
  {
    if ns.worker.WHold? {
      assert ns.worker.entry in InWorker(ns);
    }
    if ns.update.UBusy? {
      assert ns.update.entry in InUpdate(ns);
      assert ns.update.entry in Kept(ns.disposed);
      KeptAreEntries(ns.disposed, ns.update.entry);
    }
  }

  /** The thread begins to transmit. */
  ghost predicate BeginsToSend(c: Config, s: State, a: Action, w: Sender)
    requires Shape(c, s) && Enabled(c, s, a)
  {
    (a.WorkerDecide? && w == Worker(a.n) && Forwards(s.nodes[a.n])) || (a.Transmit? && w == Update(a.n))
  }

  /** A thread begins to transmit only data it has in its hand, or while it has some. */
  lemma BeginnersAreFed(c: Config, s: State, a: Action, w: Sender)
    requires Inv(c, s) && Enabled(c, s, a) && EntriesOk(c, s) && IsFeeder(w)
    requires BeginsToSend(c, s, a, w)
    ensures MaySend(c, w)
  {
    hide TxsOk, Quiet, Streams, Signals, ScriptOk, Script, Fed;
    NodeFacts(c, s, a.n);
    hide NodesOk, NodeInv;
    InHandWasAccepted(s.nodes[a.n]);
    assert a.WorkerDecide? ==> EntryOk(c, a.n, s.nodes[a.n].worker.entry);
    assert a.Transmit? ==> EntryOk(c, a.n, s.nodes[a.n].update.entry);
  }

  /** What a step may change about what a thread has sent and is putting: nothing new, unless it begins to transmit. */
  ghost predicate NothingNew(s: State, t: State, w: Sender)
  {
    (w in t.tx ==> w in s.tx) && Sent(t, w) == Sent(s, w)
  }

  lemma OnlyBeginnersSend(c: Config, s: State, a: Action, w: Sender)
    requires Shape(c, s) && Enabled(c, s, a) && IsFeeder(w)
    requires !BeginsToSend(c, s, a, w)
    ensures NothingNew(s, Apply(c, s, a), w)
  {
    if Own(a) {
      if a.WorkerDecide? && w == Worker(a.n) {
        KeptBack(c, s, a);
      } else {
        hide Enabled, Apply;
        OwnKeepsPuts(c, s, a, w);
      }
    } else if a.PutCheck? || a.PutEnqueue? {
      PutsBringNothingNew(c, s, a, w);
    } else {
      hide Enabled, Apply;
      OuterPuts(c, s, a, w);
    }
  }

  lemma KeptBack(c: Config, s: State, a: Action)
    requires Shape(c, s) && Enabled(c, s, a) && a.WorkerDecide? && !Forwards(s.nodes[a.n])
    ensures NothingNew(s, Apply(c, s, a), Worker(a.n))
  {
    hide Script, Decide, Forwards;
  }

  lemma PutsBringNothingNew(c: Config, s: State, a: Action, w: Sender)
    requires Shape(c, s) && Enabled(c, s, a) && (a.PutCheck? || a.PutEnqueue?)
    ensures NothingNew(s, Apply(c, s, a), w)
  {
    hide Script, Room, Accept;
  }

  lemma SenderStaysOk(c: Config, s: State, a: Action, w: Sender)
    requires Inv(c, s) && Enabled(c, s, a) && SendersOk(c, s) && EntriesOk(c, s)
    requires IsFeeder(w) && (w in Apply(c, s, a).tx || Sent(Apply(c, s, a), w) != [])
    ensures MaySend(c, w)
  {
    InvShape(c, s);
    hide Inv, MaySend, EntriesOk, BeginsToSend, Enabled, Apply, Sent;
    if BeginsToSend(c, s, a, w) {
      BeginnersAreFed(c, s, a, w);
    } else {
      OnlyBeginnersSend(c, s, a, w);
      assert w in s.tx || Sent(s, w) != [];
    }
  }

  lemma SendersStayOk(c: Config, s: State, a: Action)
    requires Inv(c, s) && Enabled(c, s, a) && SendersOk(c, s) && EntriesOk(c, s)
    ensures SendersOk(c, Apply(c, s, a))
  {
    InvShape(c, s);
    hide Inv, Enabled, Apply, MaySend, EntriesOk, Sent;
    var t := Apply(c, s, a);
    forall w | IsFeeder(w) && (w in t.tx || Sent(t, w) != [])
      ensures MaySend(c, w)
    {
      SenderStaysOk(c, s, a, w);
    }
  }

  predicate AddsSignal(before: seq<Entry>, after: seq<Entry>)
  {
    after != [] && after[..|after| - 1] == before && Last(after).sender == Outside && IsControl(Last(after).msg)
  }

  /** Only puts and callers outside add to what a node has accepted. */
  lemma AcceptedBy(c: Config, s: State, a: Action, n: Name)
    requires Shape(c, s) && Enabled(c, s, a) && n in c.names
    ensures n in Apply(c, s, a).nodes
    ensures Apply(c, s, a).nodes[n].accepted == s.nodes[n].accepted
      || (a.PutEnqueue? && n == s.tx[a.who].left[0]
          && Apply(c, s, a).nodes[n].accepted == s.nodes[n].accepted + [Entry(a.who, s.tx[a.who].msg)])
      || AddsSignal(s.nodes[n].accepted, Apply(c, s, a).nodes[n].accepted)
  {
    if Own(a) {
      hide Enabled, Apply;
      OwnStep(c, s, a);
      OwnLeaves(s.nodes[a.n], a);
    } else if a.External? {
      SignalIsControl(c, s, a, n);
    } else if a.PipeStep? {
      StartAcceptsNothing(c, s, a, n);
    } else {
      PutAccepts(c, s, a, n);
    }
  }

  lemma SignalIsControl(c: Config, s: State, a: Action, n: Name)
    requires Shape(c, s) && Enabled(c, s, a) && n in c.names && a.External?
    ensures n in Apply(c, s, a).nodes
    ensures Apply(c, s, a).nodes[n].accepted == s.nodes[n].accepted
      || AddsSignal(s.nodes[n].accepted, Apply(c, s, a).nodes[n].accepted)
  {
    hide Script, Room;
  }

  lemma StartAcceptsNothing(c: Config, s: State, a: Action, n: Name)
    requires Shape(c, s) && Enabled(c, s, a) && n in c.names && a.PipeStep?
    ensures n in Apply(c, s, a).nodes && Apply(c, s, a).nodes[n].accepted == s.nodes[n].accepted
  {
    hide Script, Room, JoinReady, BeginTx, StartThread;
    BeginKeepsNodes();
    forall k, h ensures StartThread(s.nodes[n], k, h).accepted == s.nodes[n].accepted {
      StartKeepsAccepted(s.nodes[n], k, h);
    }
  }

  lemma StartKeepsAccepted(ns: NodeState, k: nat, hasSource: bool)
    ensures StartThread(ns, k, hasSource).accepted == ns.accepted
  {
  }

  lemma PutAccepts(c: Config, s: State, a: Action, n: Name)
    requires Shape(c, s) && Enabled(c, s, a) && n in c.names && (a.PutCheck? || a.PutEnqueue?)
    ensures n in Apply(c, s, a).nodes
    ensures Apply(c, s, a).nodes[n].accepted == s.nodes[n].accepted
      || (a.PutEnqueue? && n == s.tx[a.who].left[0]
          && Apply(c, s, a).nodes[n].accepted == s.nodes[n].accepted + [Entry(a.who, s.tx[a.who].msg)])
  {
    hide Script, Room;
  }

  lemma PutEntryOk(c: Config, s: State, who: Sender)
    requires Inv(c, s) && WellFormed(c) && SendersOk(c, s) && who in s.tx && s.tx[who].left != []
    ensures EntryOk(c, s.tx[who].left[0], Entry(who, s.tx[who].msg))
  {
    hide NodesOk, Quiet, Streams, Signals, ScriptOk, Script, Fed, WellFormed;
    var t := s.tx[who];
    assert TxOk(c, s, who, t);
    if IsFeeder(who) {
      TxLeft(c, s, who);
      FedFurther(c, who.node, t.left[0]);
    } else if who.Source? {
      FedBySource(c, who.node);
    }
  }

  lemma SignalEntryOk(c: Config, n: Name, before: seq<Entry>, after: seq<Entry>, e: Entry)
    requires AddsSignal(before, after) && e in after && e !in before
    ensures EntryOk(c, n, e)
  {
    assert after == before + [Last(after)];
  }

  lemma PutReaches(c: Config, s: State, a: Action)
    requires Shape(c, s) && Enabled(c, s, a) && a.PutEnqueue?
    ensures a.who in s.tx && s.tx[a.who].left != []
  {
  }

  lemma NewEntryOk(c: Config, s: State, a: Action, n: Name, before: seq<Entry>, after: seq<Entry>, e: Entry)
    requires Inv(c, s) && WellFormed(c) && SendersOk(c, s) && e in after && e !in before
    requires a.PutEnqueue? ==> a.who in s.tx && s.tx[a.who].left != []
    requires after == before || AddsSignal(before, after)
      || (a.PutEnqueue? && n == s.tx[a.who].left[0] && after == before + [Entry(a.who, s.tx[a.who].msg)])
    ensures EntryOk(c, n, e)
  {
    hide Inv, WellFormed, SendersOk, EntryOk, AddsSignal;
    if AddsSignal(before, after) {
      SignalEntryOk(c, n, before, after, e);
    } else {
      PutEntryOk(c, s, a.who);
    }
  }

  lemma EntriesStayOk(c: Config, s: State, a: Action)
    requires Inv(c, s) && WellFormed(c) && Enabled(c, s, a) && SendersOk(c, s) && EntriesOk(c, s)
    ensures EntriesOk(c, Apply(c, s, a))
  {
    InvShape(c, s);
    StepKeepsInv(c, s, a);
    InvShape(c, Apply(c, s, a));
    if a.PutEnqueue? {
      PutReaches(c, s, a);
    }
    hide WellFormed, Inv, Enabled, Apply, EntryOk, SendersOk, AddsSignal;
    var t := Apply(c, s, a);
    forall n, e | n in t.nodes && e in t.nodes[n].accepted
      ensures EntryOk(c, n, e)
    {
      AcceptedBy(c, s, a, n);
      if e !in s.nodes[n].accepted {
        NewEntryOk(c, s, a, n, s.nodes[n].accepted, t.nodes[n].accepted, e);
      }
    }
  }

  /** In every reachable state, only nodes that a source function feeds have been sent data, and only they have sent
    * any. */
  lemma {:induction false} OnlyFedNodesSend(c: Config, run: seq<State>)
    requires WellFormed(c) && Run(c, run)
    ensures SendersOk(c, Last(run)) && EntriesOk(c, Last(run))
    decreases |run|
  {
    if |run| > 1 {
      hide WellFormed, Inv, Enabled, Apply, SendersOk, EntriesOk;
      var before := run[..|run| - 1];
      RunBefore(c, run);
      OnlyFedNodesSend(c, before);
      RunKeepsInv(c, before);
      InvShape(c, Last(before));
      var a :| Enabled(c, Last(before), a) && Last(run) == Apply(c, Last(before), a);
      SendersStayOk(c, Last(before), a);
      EntriesStayOk(c, Last(before), a);
    }
  }
}
