/** Why nothing is promised about links to a node that stops itself: its source function returns a stop while the
  * origins of the node still run. What they send from then on is lost, or they wait for good. */
module SelfStopping {
  import opened Graphs
  import opened Messages
  import opened Nodes
  import opened Systems
  import opened Safety
  import opened Shutdown
  import opened Clogs
  import opened Liveness
  import opened Reaching
  import opened Delivery

  /** The node stops itself. */
  lemma StopsItself(c: Config, before: State, n: Name, msg: Message) returns (s: State)
    requires Reached(c, before) && before.tx == map[] && n in c.names && n in c.enders
    requires n in before.nodes && Idle(before.nodes[n], true) && Stops(msg) && (Propagates(msg) ==> c.propagate)
    ensures Behind(c, s, n, 0) && s.nodes == before.nodes[n := s.nodes[n]]
    ensures s.nodes[n].control == CFlag(msg, 0) && s.nodes[n].update.UBreak?
    ensures s.nodes[n].source.SLoop? && s.nodes[n].stopSource
  {
    hide Reached;
    var e := Entry(Source(n), msg);
    SourceCalls(c, before, n);
    var s1 := SetNode(before, n, before.nodes[n].(source := SCall));
    SourceStops(c, s1, n, msg);
    var s2 := BeginTx(SetNode(s1, n, s1.nodes[n].(stopSource := true, source := SLoop)), Source(n), msg, [n]);
    assert s2.tx == Putting(Source(n), msg, [n]);
    var s3 := PutGoesIn(c, s2, Source(n), msg, [n]);
    s := StopIsMet(c, s3, n, e);
  }

  function ReturnedStop(signal: Signal): (m: Message)
    requires Value(signal) < 0
    ensures Stops(m)
  {
    Message(0, "", Payload.Control(signal), None)
  }

  // ----- exactly when messages can be missed -----

  /** The node has met a stop, and something its origin sent was neither updated nor sent on. */
  ghost predicate Missed(c: Config, run: seq<State>, o: Name, d: Name)
  {
    && Run(c, run) && d in Last(run).nodes && Stopping(Last(run).nodes[d])
    && var ns := Last(run).nodes[d];
       !Interleaves(Sent(Last(run), Update(o)), From(ns.handled, Update(o)), From(Forwarded(ns.disposed), Update(o)))
  }

  lemma {:induction false} SharesHaveItsLength(all: seq<Message>, a: seq<Message>, b: seq<Message>)
    requires Interleaves(all, a, b)
    ensures |all| == |a| + |b|
    decreases |all|
  {
    if all != [] {
      if a != [] && Last(a) == Last(all) && Interleaves(all[..|all| - 1], a[..|a| - 1], b) {
        SharesHaveItsLength(all[..|all| - 1], a[..|a| - 1], b);
      } else {
        SharesHaveItsLength(all[..|all| - 1], a, b[..|b| - 1]);
      }
    }
  }

  /** Once the target has stopped itself, what the origin sends next is missed, if nothing was before. */
  lemma NextIsMissed(c: Config, s: State, o: Name, d: Name) returns (run: seq<State>)
    requires Reached(c, s) && Update(o) !in s.tx && c.fanout > 0 && o != d
    requires o in c.names && o in s.nodes && s.nodes[o].update.UBusy? && s.nodes[o].update.sends == 0
    requires d in s.nodes && Stopping(s.nodes[d])
    ensures Missed(c, run, o, d)
  {
    hide Reached, Interleaves, From, Forwarded;
    run := RunTo(c, s);
    if !Missed(c, run, o, d) {
      var ns := s.nodes[d];
      SharesHaveItsLength(Sent(s, Update(o)), From(ns.handled, Update(o)), From(Forwarded(ns.disposed), Update(o)));
      UpdateSends(c, s, o, DataReturned());
      var msg := Stamped(s.nodes[o], DataReturned());
      var t := BeginTx(SetNode(s, o, CountSend(s.nodes[o])), Update(o), msg, c.dests[o]);
      run := RunTo(c, t);
      assert |Sent(t, Update(o))| == |Sent(s, Update(o))| + 1 && t.nodes[d] == ns;
      if !Missed(c, run, o, d) {
        SharesHaveItsLength(Sent(t, Update(o)), From(ns.handled, Update(o)), From(Forwarded(ns.disposed), Update(o)));
      }
    }
  }

  lemma {:induction false} NothingFrom(q: seq<Entry>, who: Sender)
    requires forall e :: e in q ==> e.sender != who
    ensures From(q, who) == []
  {
    if q != [] {
      NothingFrom(q[..|q| - 1], who);
    }
  }

  /** Of a thread that can send nothing nothing is missed. */
  lemma NothingToMiss(c: Config, run: seq<State>, o: Name, d: Name)
    requires WellFormed(c) && Run(c, run) && d in Last(run).nodes && !MaySend(c, Update(o))
    ensures !Missed(c, run, o, d)
  {
    OnlyFedNodesSend(c, run);
    RunKeepsInv(c, run);
    var ns := Last(run).nodes[d];
    hide MaySend;
    NodeIsSound(c, Last(run), d);
    forall e | e in ns.handled || e in Forwarded(ns.disposed)
      ensures e.sender != Update(o)
    {
      DealtWithWasAccepted(ns, e);
      assert EntryOk(c, d, e);
    }
    NothingFrom(ns.handled, Update(o));
    NothingFrom(Forwarded(ns.disposed), Update(o));
  }

  lemma NodeIsSound(c: Config, s: State, n: Name)
    requires Inv(c, s) && n in s.nodes
    ensures NodeInv(s.nodes[n])
  {
    hide TxsOk, Quiet, Streams, Signals, ScriptOk, Script;
    NodeFacts(c, s, n);
  }

  lemma DealtWithWasAccepted(ns: NodeState, e: Entry)
    requires NodeInv(ns) && (e in ns.handled || e in Forwarded(ns.disposed))
    ensures e in ns.accepted
  {
    KeptAreEntries(ns.disposed, e);
    assert e in Kept(ns.disposed) || e in Forwarded(ns.disposed);
  }

  /** Along a link into a node which, if stop-propagate is used, has no other origin, messages can be missed exactly if
    * the node may stop itself, and its origin can come to data and send any. */
  lemma MissesIffSelfStopping(c: Config, o: Name, d: Name)
    requires WellFormed(c) && Origin(c, o, d) && (c.propagate ==> !HasTwoOrigins(c, d))
    ensures (exists run :: Missed(c, run, o, d)) <==> SelfStops(c, d) && Fed(c, o) && c.fanout > 0
  {
    hide WellFormed, Reached, Missed, Fed, Origin;
    if SelfStops(c, d) && Fed(c, o) && c.fanout > 0 {
      LinkIsProper(c, o, d);
      var s := GetsBusy(c, o);
      var stopped := StopsItself(c, s, d, ReturnedStop(Stop));
      var run := NextIsMissed(c, stopped, o, d);
    } else {
      forall run
        ensures !Missed(c, run, o, d)
      {
        NothingIsMissed(c, run, o, d);
      }
    }
  }

  lemma NothingIsMissed(c: Config, run: seq<State>, o: Name, d: Name)
    requires WellFormed(c) && Origin(c, o, d) && (c.propagate ==> !HasTwoOrigins(c, d))
    requires !(SelfStops(c, d) && Fed(c, o) && c.fanout > 0)
    ensures !Missed(c, run, o, d)
  {
    hide WellFormed, Interleaves, Stopping, Fed, HasTwoOrigins;
    if Run(c, run) && d in Last(run).nodes && Stopping(Last(run).nodes[d]) {
      if SelfStops(c, d) {
        NothingToMiss(c, run, o, d);
      } else {
        StoppedNodeMissedNothing(c, run, o, d, Update(o));
      }
    }
  }

  lemma GetsBusy(c: Config, o: Name) returns (s: State)
    requires WellFormed(c) && Fed(c, o) && c.fanout > 0 && o in c.names
    ensures BusyAt(c, s, o)
  {
    hide WellFormed, BusyAt;
    var p :| Path(c, p) && p[0] in c.sources && Last(p) == o;
    FirstIsKnown(c, p);
    s := DataGetsThere(c, p);
  }

  lemma FirstIsKnown(c: Config, p: seq<Name>)
    requires WellFormed(c) && Path(c, p) && Last(p) in c.names
    ensures p[0] in c.names
  {
    if |p| > 1 {
      assert Origin(c, p[1 - 1], p[1]);
    }
  }

  // ----- exactly when an origin can wait for good -----

  /** The origin was sent no stop, and its update thread waits in a put to the target, which is clogged. */
  ghost predicate WaitsInVain(c: Config, run: seq<State>, o: Name, d: Name)
  {
    && Run(c, run) && o in Last(run).nodes && !HasStop(Last(run).nodes[o].accepted)
    && WaitsAt(c, Last(run), Update(o), d) && Clogged(c, Last(run).nodes[d])
  }

  /** A put with nothing in its way comes to the node. */
  lemma {:induction false} PutComesTo(c: Config, before: State, who: Sender, msg: Message, left: seq<Name>, d: Name)
    returns (s: State, rest: seq<Name>)
    requires Reached(c, before) && before.tx == Putting(who, msg, left) && d in left && Distinct(left)
    requires forall y :: y in left && y != d ==> y in c.names && y in before.nodes
    requires forall y :: y in left && y != d ==> before.nodes[y].inbound == [] && !before.nodes[y].draining
    ensures Reached(c, s) && rest != [] && rest[0] == d && s.tx == Putting(who, msg, rest)
    ensures forall n :: n in before.nodes && (n !in left || n == d) ==> n in s.nodes && s.nodes[n] == before.nodes[n]
    ensures forall n :: n in before.nodes ==> n in s.nodes && s.nodes[n].update == before.nodes[n].update
    decreases |left|
  {
    if left[0] == d {
      s, rest := before, left;
    } else {
      hide Reached, Putting;
      assert left == [left[0]] + left[1..];
      var s1 := PutGoesIn(c, before, who, msg, left);
      s, rest := PutComesTo(c, s1, who, msg, left[1..], d);
    }
  }

  lemma PutWaits(c: Config, before: State, who: Sender, msg: Message, left: seq<Name>) returns (s: State)
    requires Reached(c, before) && left != [] && before.tx == Putting(who, msg, left)
    requires left[0] in c.names && left[0] in before.nodes && !before.nodes[left[0]].draining
    requires !Room(c, before.nodes[left[0]].inbound)
    ensures Reached(c, s) && WaitsAt(c, s, who, left[0]) && s.nodes == before.nodes
  {
    ReachedInv(c, before);
    hide Reached, Inv, Enabled, Apply;
    PutIsChecked(c, before, who, Tx(msg, left, false));
    ThenReached(c, before, PutCheck(who));
    s := Apply(c, before, PutCheck(who));
  }

  lemma OriginWaits(c: Config, o: Name, d: Name) returns (run: seq<State>)
    requires WellFormed(c) && Origin(c, o, d) && SelfStops(c, d) && Fed(c, o) && c.fanout > 0 && c.maxsize >= 1
    ensures WaitsInVain(c, run, o, d)
  {
    hide WellFormed, Reached, Fed, Origin;
    LinkIsProper(c, o, d);
    var s0 := GetsBusy(c, o);
    var s1 := StopsItself(c, s0, d, ReturnedStop(Stop));
    var s2 := Chokes(c, s1, d);
    var s3 := QueueFills(c, s2, d, c.maxsize);
    UpdateSends(c, s3, o, DataReturned());
    var msg := Stamped(s3.nodes[o], DataReturned());
    var s4 := BeginTx(SetNode(s3, o, CountSend(s3.nodes[o])), Update(o), msg, c.dests[o]);
    var s5, rest := PutComesTo(c, s4, Update(o), msg, c.dests[o], d);
    var s6 := PutWaits(c, s5, Update(o), msg, rest);
    run := RunTo(c, s6);
  }

  /** Along such a link an origin that was sent no stop can come to wait at its clogged target exactly if the target may
    * stop itself, the origin can come to data and send any, and queues are bounded; and then it waits for good. */
  lemma WaitsIffSelfStopping(c: Config, o: Name, d: Name)
    requires WellFormed(c) && Origin(c, o, d) && (c.propagate ==> !HasTwoOrigins(c, d))
    ensures (exists run :: WaitsInVain(c, run, o, d))
      <==> SelfStops(c, d) && Fed(c, o) && c.fanout > 0 && c.maxsize >= 1
    ensures forall run :: WaitsInVain(c, run, o, d) ==> run != [] && HeldUpBy(c, Last(run), Update(o))
  {
    hide WellFormed, Reached, WaitsInVain, Fed, Origin, HeldUpBy;
    if SelfStops(c, d) && Fed(c, o) && c.fanout > 0 && c.maxsize >= 1 {
      var run := OriginWaits(c, o, d);
    }
    forall run | WaitsInVain(c, run, o, d)
      ensures SelfStops(c, d) && Fed(c, o) && c.fanout > 0 && c.maxsize >= 1
      ensures run != [] && HeldUpBy(c, Last(run), Update(o))
    {
      WaitingTells(c, run, o, d);
    }
  }

  lemma WaitingTells(c: Config, run: seq<State>, o: Name, d: Name)
    requires WellFormed(c) && Origin(c, o, d) && (c.propagate ==> !HasTwoOrigins(c, d)) && WaitsInVain(c, run, o, d)
    ensures SelfStops(c, d) && Fed(c, o) && c.fanout > 0 && c.maxsize >= 1
    ensures run != [] && HeldUpBy(c, Last(run), Update(o))
  {
    hide WellFormed, Fed, HasTwoOrigins, NodesOk, TxsOk, Streams, Signals, ScriptOk, Script, HasStop;
    var s := Last(run);
    OnlyFedNodesSend(c, run);
    assert MaySend(c, Update(o));
    RunKeepsInv(c, run);
    TxFacts(c, s, o);
    StoppedWasSent(c, s, d);
    assert !Feeds(c, o, d);
    HeldUpFromBelow(c, s, Update(o), d);
  }

  lemma StoppedWasSent(c: Config, s: State, d: Name)
    requires Inv(c, s) && d in s.nodes && Stopping(s.nodes[d])
    ensures d in c.names && HasStop(s.nodes[d].accepted)
  {
    NodeIsSound(c, s, d);
    StopWasAccepted(s.nodes[d]);
  }

  // ----- stop-propagate into a node with two origins -----

  lemma LocalReached(c: Config, s: State, a: Action)
    requires Reached(c, s) && Shape(c, s) && Enabled(c, s, a) && Own(a) && !MayPut(a)
    ensures a.n in c.names && OwnMay(s.nodes[a.n], a) && Reached(c, SetNode(s, a.n, OwnAfter(s.nodes[a.n], a)))
  {
    OwnStep(c, s, a);
    OwnApplies(c, s, a);
    hide Reached, Enabled, Apply, OwnMay, OwnAfter;
    ThenReached(c, s, a);
  }

  lemma OwnApplies(c: Config, s: State, a: Action)
    requires Shape(c, s) && Enabled(c, s, a) && Own(a) && !MayPut(a) && a.n in c.names && OwnMay(s.nodes[a.n], a)
    ensures Apply(c, s, a) == SetNode(s, a.n, OwnAfter(s.nodes[a.n], a))
  {
    hide Script, Room, OpReady, JoinReady, Stops, Stamped, Propagates, BeginTx, SetNode, Forwards;
    hide Take, Decide, Give, WorkerExit, Get, Begin, CountSend, Finish, UpdateExit;
    hide SourceLoop, SourceReturn, SourceGuard, RunControl, RaiseFlag, JoinNext;
  }

  /** The node's own stop raises a flag. */
  lemma FlagIsRaised(c: Config, before: State, n: Name) returns (s: State)
    requires Reached(c, before) && n in c.names && n in before.nodes && before.nodes[n].control.CFlag?
    ensures Reached(c, s) && s == SetNode(before, n, RaiseFlag(before.nodes[n]))
  {
    ReachedInv(c, before);
    FlagIsNext(c, before, n);
    hide Reached, Inv, RaiseFlag, Enabled, Apply;
    ThenReached(c, before, ControlFlag(n));
    s := SetNode(before, n, RaiseFlag(before.nodes[n]));
  }

  lemma FlagIsNext(c: Config, s: State, n: Name)
    requires Shape(c, s) && n in c.names && s.nodes[n].control.CFlag?
    ensures Enabled(c, s, ControlFlag(n)) && Apply(c, s, ControlFlag(n)) == SetNode(s, n, RaiseFlag(s.nodes[n]))
  {
    hide Script, RaiseFlag, SetNode, BeginTx;
  }

  lemma AllFlagsUp(ns: NodeState)
    requires ns.control.CFlag? && ns.control.k == 0
    ensures RaiseFlag(ns).control.CFlag? && RaiseFlag(RaiseFlag(ns)).control.CFlag?
    ensures RaiseFlag(RaiseFlag(RaiseFlag(ns))).control.CFlag?
    ensures RaiseFlag(RaiseFlag(RaiseFlag(RaiseFlag(ns)))) == ns.(draining := true, stopWorker := true,
      stopSource := true, stopUpdate := true, control := CJoin(ns.control.msg, 0))
  {
  }

  lemma FlagsAreRaised(c: Config, before: State, n: Name) returns (s: State)
    requires Reached(c, before) && n in c.names && n in before.nodes
    requires before.nodes[n].control.CFlag? && before.nodes[n].control.k == 0
    ensures Reached(c, s)
    ensures s == SetNode(before, n, before.nodes[n].(draining := true, stopWorker := true, stopSource := true,
      stopUpdate := true, control := CJoin(before.nodes[n].control.msg, 0)))
  {
    hide Reached, RaiseFlag, SetNode;
    var ns := before.nodes[n];
    AllFlagsUp(ns);
    var s1 := FlagIsRaised(c, before, n);
    SetTwice(before, n, RaiseFlag(ns), RaiseFlag(RaiseFlag(ns)));
    var s2 := FlagIsRaised(c, s1, n);
    SetTwice(before, n, RaiseFlag(RaiseFlag(ns)), RaiseFlag(RaiseFlag(RaiseFlag(ns))));
    var s3 := FlagIsRaised(c, s2, n);
    SetTwice(before, n, RaiseFlag(RaiseFlag(RaiseFlag(ns))), RaiseFlag(RaiseFlag(RaiseFlag(RaiseFlag(ns)))));
    s := FlagIsRaised(c, s3, n);
  }

  /** The three threads of a node that was told to stop and has nothing left end. */
  lemma ThreadsEnd(c: Config, before: State, n: Name) returns (s: State)
    requires Reached(c, before) && before.tx == map[] && n in c.names && n in before.nodes
    requires var ns := before.nodes[n];
      ns.worker.WIdle? && ns.stopWorker && ns.update.UBreak? && ns.source.SLoop? && ns.stopSource
    ensures Reached(c, s)
    ensures s == SetNode(before, n, before.nodes[n].(source := SEnded, worker := WEnded, update := UEnded))
  {
    hide Reached, Inv;
    ReachedInv(c, before);
    LocalReached(c, before, SourceTop(n));
    var s1 := SetNode(before, n, before.nodes[n].(source := SEnded));
    ReachedInv(c, s1);
    LocalReached(c, s1, WorkerQuit(n));
    var s2 := SetNode(s1, n, s1.nodes[n].(worker := WEnded));
    ReachedInv(c, s2);
    LocalReached(c, s2, UpdateQuit(n));
    s := SetNode(s2, n, s2.nodes[n].(update := UEnded));
  }

  lemma JoinIsOver(c: Config, before: State, n: Name, k: nat) returns (s: State)
    requires Reached(c, before) && before.tx == map[] && n in c.names && n in before.nodes && k < 3
    requires before.nodes[n].control.CJoin? && before.nodes[n].control.k == k
    requires Ended(before.nodes[n]) && before.nodes[n].source.SEnded? && before.nodes[n].pending == 0
    ensures Reached(c, s)
    ensures s == SetNode(before, n, before.nodes[n].(control := CJoin(before.nodes[n].control.msg, k + 1)))
  {
    ReachedInv(c, before);
    JoinIsNext(c, before, n, k);
    hide Reached, Inv, Enabled, Apply;
    ThenReached(c, before, ControlJoin(n));
    s := Apply(c, before, ControlJoin(n));
  }

  lemma JoinIsNext(c: Config, s: State, n: Name, k: nat)
    requires Shape(c, s) && n in c.names && k < 3 && s.nodes[n].control.CJoin? && s.nodes[n].control.k == k
    requires Ended(s.nodes[n]) && s.nodes[n].source.SEnded? && s.nodes[n].pending == 0
    ensures Enabled(c, s, ControlJoin(n))
    ensures Apply(c, s, ControlJoin(n))
         == SetNode(s, n, s.nodes[n].(control := CJoin(s.nodes[n].control.msg, k + 1)))
  {
    hide Script, BeginTx, SetNode, Stamped;
  }

  /** After the last wait a stop-propagate is transmitted. */
  lemma HandsOn(c: Config, before: State, n: Name) returns (s: State)
    requires Reached(c, before) && before.tx == map[] && n in c.names && n in before.nodes
    requires before.nodes[n].control.CJoin? && before.nodes[n].control.k == 3
    requires Propagates(before.nodes[n].control.msg) && Ended(before.nodes[n])
    ensures n in c.dests && Reached(c, s)
    ensures var msg := Stamped(before.nodes[n], before.nodes[n].control.msg);
      s.tx == Putting(Sender.Control(n), msg, c.dests[n])
    ensures forall m :: m != n && m in before.nodes ==> m in s.nodes && s.nodes[m] == before.nodes[m]
  {
    ReachedInv(c, before);
    HandingOnIsNext(c, before, n);
    hide Reached, Inv, Enabled, Apply;
    ThenReached(c, before, ControlJoin(n));
    s := Apply(c, before, ControlJoin(n));
  }

  lemma HandingOnIsNext(c: Config, s: State, n: Name)
    requires Shape(c, s) && s.tx == map[] && n in c.names && s.nodes[n].control.CJoin? && s.nodes[n].control.k == 3
    requires Propagates(s.nodes[n].control.msg) && Ended(s.nodes[n])
    ensures Enabled(c, s, ControlJoin(n))
    ensures Apply(c, s, ControlJoin(n)) == BeginTx(SetNode(s, n, JoinNext(s.nodes[n])), Sender.Control(n),
      Stamped(s.nodes[n], s.nodes[n].control.msg), c.dests[n])
  {
    hide Script, BeginTx, SetNode, Stamped;
  }

  /** A node that stops itself by stop-propagate comes to hand it on. */
  lemma SpreadsItsStop(c: Config, before: State, n: Name) returns (s: State, msg: Message)
    requires Reached(c, before) && before.tx == map[] && n in c.names && n in c.enders && c.propagate
    requires n in before.nodes && Idle(before.nodes[n], true)
    ensures n in c.dests && Reached(c, s) && s.tx == Putting(Sender.Control(n), msg, c.dests[n]) && Stops(msg)
    ensures forall m :: m != n && m in before.nodes ==> m in s.nodes && s.nodes[m] == before.nodes[m]
  {
    hide Reached, Stamped;
    var s1 := StopsItself(c, before, n, ReturnedStop(StopPropagate));
    var s2 := FlagsAreRaised(c, s1, n);
    var s3 := ThreadsEnd(c, s2, n);
    NothingPending(c, s3, n);
    var s4 := JoinIsOver(c, s3, n, 0);
    var s5 := JoinIsOver(c, s4, n, 1);
    var s6 := JoinIsOver(c, s5, n, 2);
    s := HandsOn(c, s6, n);
    msg := Stamped(s6.nodes[n], s6.nodes[n].control.msg);
    StampedStops(s6.nodes[n], s6.nodes[n].control.msg);
  }

  lemma StampedStops(ns: NodeState, msg: Message)
    ensures Stops(Stamped(ns, msg)) == Stops(msg)
  {
  }

  lemma NothingPending(c: Config, s: State, n: Name)
    requires Reached(c, s) && n in c.names && n in s.nodes && s.nodes[n].update.UEnded?
    ensures s.nodes[n].pending == 0
  {
    ReachedInv(c, s);
    BusyIsPending(c, s, n);
  }

  lemma CalmIsOpen(ns: NodeState, hasSource: bool)
    requires Calm(ns, hasSource)
    ensures ns.worker.WIdle? && ns.inbound == [] && ns.out == [] && !ns.draining && !ns.suspended
  {
  }

  /** A stop that is being put to idle nodes comes to this one and is met. */
  lemma StopComesBy(c: Config, before: State, who: Sender, msg: Message, left: seq<Name>, d: Name, o: Name)
    returns (s: State)
    requires Reached(c, before) && before.tx == Putting(who, msg, left) && d in left && Distinct(left) && Stops(msg)
    requires !who.Worker? && who != Update(o) && d != o && o in before.nodes && d in c.names
    requires forall y :: y in left ==> y in c.names && y in before.nodes && Calm(before.nodes[y], y in c.sources)
    requires before.nodes[d].update.UIdle?
    ensures Reached(c, s) && d in s.nodes && Stopping(s.nodes[d]) && Update(o) !in s.tx
    ensures o in s.nodes && s.nodes[o].update == before.nodes[o].update
  {
    hide Reached, Calm, Begin, Got, Stopping;
    forall y | y in left
      ensures before.nodes[y].inbound == [] && !before.nodes[y].draining
    {
      CalmIsOpen(before.nodes[y], y in c.sources);
    }
    CalmIsOpen(before.nodes[d], d in c.sources);
    var s2, rest := PutComesTo(c, before, who, msg, left, d);
    var s3 := PutGoesIn(c, s2, who, msg, rest);
    s := ComesToUpdate(c, s3, d, Entry(who, msg));
    StopIsTakenUp(s3.nodes[d], Entry(who, msg));
  }

  lemma StopIsTakenUp(ns: NodeState, e: Entry)
    requires Stops(e.msg)
    ensures Got(ns, e).update.UGot? && Stopping(Begin(Got(ns, e)))
  {
  }

  /** Why stop-propagate needs unique origins: if another origin of the target stops itself by it, the target stops
    * while this one still runs. */
  lemma TwoOriginsMiss(c: Config, o: Name, o': Name, d: Name) returns (run: seq<State>)
    requires WellFormed(c) && Origin(c, o, d) && Origin(c, o', d) && o != o' && c.propagate && SelfStops(c, o')
    requires Fed(c, o) && c.fanout > 0
    ensures Missed(c, run, o, d)
  {
    hide WellFormed, Reached, Fed, Missed, Origin, Calm, Begin;
    LinkIsProper(c, o, d);
    LinkIsProper(c, o', d);
    var s0 := GetsBusy(c, o);
    var s1, msg := SpreadsItsStop(c, s0, o');
    var e := Entry(Sender.Control(o'), msg);
    assert s1.nodes[d] == s0.nodes[d] && s1.nodes[o] == s0.nodes[o];
    var s4 := StopComesBy(c, s1, Sender.Control(o'), msg, c.dests[o'], d, o);
    run := NextIsMissed(c, s4, o, d);
  }
}
