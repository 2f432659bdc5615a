/** From every reachable state of a remote service that has not been told to stop, a new call can still succeed. */
module RemoteProgress {
  import opened Graphs
  import opened Messages
  import opened Remotes
  import opened RemoteSafety
  import opened RemoteOutcomes

  /** The actions can be taken one after the other from `s`, and end in `t`. */
  ghost predicate Leads(s: State, actions: seq<Action>, t: State)
    decreases |actions|
  {
    if actions == [] then s == t
    else Enabled(s, actions[0]) && Leads(Apply(s, actions[0]), actions[1..], t)
  }

  lemma OneStep(s: State, a: Action)
    requires Enabled(s, a)
    ensures Leads(s, [a], Apply(s, a))
  {
    hide Enabled, Apply;
    assert [a][1..] == [];
  }

  lemma {:induction false} Joined(s: State, first: seq<Action>, t: State, then_: seq<Action>, u: State)
    requires Leads(s, first, t) && Leads(t, then_, u)
    ensures Leads(s, first + then_, u)
    decreases |first|
  {
    hide Enabled, Apply;
    if first == [] {
      assert [] + then_ == then_;
    } else {
      Joined(Apply(s, first[0]), first[1..], t, then_, u);
      assert (first + then_)[1..] == first[1..] + then_;
    }
  }

  lemma OneMore(s: State, actions: seq<Action>, t: State, a: Action)
    requires Leads(s, actions, t) && Enabled(t, a)
    ensures Leads(s, actions + [a], Apply(t, a))
  {
    hide Enabled, Apply;
    OneStep(t, a);
    Joined(s, actions, t, [a], Apply(t, a));
  }

  lemma {:induction false} LeadsKeepsInv(s: State, actions: seq<Action>, t: State)
    requires Inv(s) && Leads(s, actions, t)
    ensures Inv(t)
    decreases |actions|
  {
    hide Inv, Enabled, Apply;
    if actions != [] {
      StepKeepsInv(s, actions[0]);
      LeadsKeepsInv(Apply(s, actions[0]), actions[1..], t);
    }
  }

  /** The dispatcher ends only when it is told to stop. */
  lemma {:induction false} EndedWhenStopping(states: seq<State>, actions: seq<Action>, n: nat)
    requires Run(states, actions) && n < |states|
    ensures states[n].dispatcher.Ended? ==> states[n].stopping
  {
    hide CallAfter, Bump, Concerned;
    if n > 0 {
      EndedWhenStopping(states, actions, n - 1);
    }
  }

  // ----- coming to rest -----

  predicate AtRest(s: State)
  {
    s.dispatcher.Idle? && s.queue == [] && s.inbox == [] && s.updating.None?
  }

  lemma CompletesWhatItHolds(s: State)
    requires Inv(s) && s.dispatcher.Completing?
    ensures Enabled(s, Dispatcher(Complete))
  {
    hide IdsOk, SubmittedOk, NodeOk, PendingOk, FuturesOk, QueueOk, HandledOk, AnswersOk, StatsOk, IsFirst;
  }

  /** The dispatcher can finish what it is at. */
  lemma DispatcherRests(s: State) returns (more: seq<Action>, t: State)
    requires Inv(s) && !s.dispatcher.Ended?
    ensures Leads(s, more, t) && t.dispatcher.Idle? && |t.calls| == |s.calls|
    ensures t.queue == s.queue && t.inbox == s.inbox && t.updating == s.updating
  {
    hide Inv, Leads;
    more, t := [], s;
    NoStep(s);
    if t.dispatcher.Holding? {
      OneMore(s, more, t, Dispatcher(Lookup));
      more, t := more + [Dispatcher(Lookup)], Apply(t, Dispatcher(Lookup));
      LeadsKeepsInv(s, more, t);
    }
    if t.dispatcher.Completing? {
      CompletesWhatItHolds(t);
      OneMore(s, more, t, Dispatcher(Complete));
      more, t := more + [Dispatcher(Complete)], Apply(t, Dispatcher(Complete));
    }
  }

  lemma NoStep(s: State)
    ensures Leads(s, [], s)
  {
  }

  /** The dispatcher can work off its queue. */
  lemma {:induction false} QueueEmpties(s: State) returns (more: seq<Action>, t: State)
    requires Inv(s) && !s.dispatcher.Ended?
    ensures Leads(s, more, t) && t.dispatcher.Idle? && |t.calls| == |s.calls|
    ensures t.queue == [] && t.inbox == s.inbox && t.updating == s.updating
    decreases |s.queue|
  {
    hide Inv, Leads;
    more, t := DispatcherRests(s);
    if t.queue != [] {
      OneMore(s, more, t, Dispatcher(Fetch));
      var u := Apply(t, Dispatcher(Fetch));
      LeadsKeepsInv(s, more + [Dispatcher(Fetch)], u);
      var rest, v := QueueEmpties(u);
      Joined(s, more + [Dispatcher(Fetch)], u, rest, v);
      more, t := more + [Dispatcher(Fetch)] + rest, v;
    }
  }

  /** The node can finish its updates, transmitting nothing. */
  lemma {:induction false} InboxEmpties(s: State) returns (more: seq<Action>, t: State)
    ensures Leads(s, more, t) && t.inbox == [] && t.updating.None?
    ensures t.queue == s.queue && t.dispatcher == s.dispatcher && t.calls == s.calls
    decreases |s.inbox|
  {
    hide Leads;
    more, t := [], s;
    NoStep(s);
    if t.updating.Some? {
      OneMore(s, more, t, Node(Finish));
      more, t := more + [Node(Finish)], Apply(t, Node(Finish));
    }
    if t.inbox != [] {
      OneMore(s, more, t, Node(Take));
      var u := Apply(t, Node(Take));
      var rest, v := InboxEmpties(u);
      Joined(s, more + [Node(Take)], u, rest, v);
      more, t := more + [Node(Take)] + rest, v;
    }
  }

  lemma ComesToRest(s: State) returns (more: seq<Action>, t: State)
    requires Inv(s) && !s.dispatcher.Ended?
    ensures Leads(s, more, t) && AtRest(t) && Inv(t) && |t.calls| == |s.calls|
  {
    hide Inv, Leads;
    var first, u := InboxEmpties(s);
    LeadsKeepsInv(s, first, u);
    var then_, v := QueueEmpties(u);
    Joined(s, first, u, then_, v);
    more, t := first + then_, v;
    LeadsKeepsInv(s, more, t);
  }

  // ----- one call from beginning to end -----

  /** The newest call, with its request registered and the service at rest otherwise. */
  predicate JustRegistered(s: State, c: nat, id: int)
  {
    && AtRest(s) && |s.calls| == c + 1 && s.calls[c] == Call(Registered, Some(id), Unset, 0)
    && id >= 1 && id in s.pending && s.pending[id] == c
  }

  lemma NextIdIsFree(s: State)
    requires Inv(s)
    ensures s.counter >= 1 && s.counter !in s.pending
  {
    hide StatsOk, AnswersOk, CompletingOk, FuturesOk, QueueOk, HandledOk, SubmittedOk, NodeOk, PendingOk;
    forall i | i in s.pending
      ensures i < s.counter
    {
      PendingCall(s, i);
      HasId(s, s.pending[i]);
    }
  }

  lemma NewCallRegisters(s: State) returns (actions: seq<Action>, t: State)
    requires Inv(s) && AtRest(s)
    ensures Leads(s, actions, t) && JustRegistered(t, |s.calls|, s.counter)
  {
    hide Inv, Leads, Bump;
    NextIdIsFree(s);
    var c := |s.calls|;
    actions, t := [Receive], Apply(s, Receive);
    OneStep(s, Receive);
    OneMore(s, actions, t, Caller(c, Parse(Readable)));
    actions, t := actions + [Caller(c, Parse(Readable))], Apply(t, Caller(c, Parse(Readable)));
    assert t.calls[c] == Call(Tagged, Some(s.counter), Unset, 0) && t.pending == s.pending;
    OneMore(s, actions, t, Caller(c, Register(true)));
    actions, t := actions + [Caller(c, Register(true))], Apply(t, Caller(c, Register(true)));
  }

  /** The newest call waits, and the dispatcher holds the output for its request. */
  predicate OutputInHand(s: State, c: nat, id: int, m: Message)
  {
    && |s.calls| == c + 1 && s.calls[c] == Call(Waiting, Some(id), Unset, 0)
    && id >= 1 && id in s.pending && s.pending[id] == c
    && s.dispatcher == Holding(m.(dataSource := Some(id)))
  }

  /** The request is put, taken up, and answered by one transmission. */
  lemma RequestIsWorkedOn(s: State, c: nat, id: int, m: Message) returns (actions: seq<Action>, t: State)
    requires JustRegistered(s, c, id)
    ensures Leads(s, actions, t) && OutputInHand(t, c, id, m)
  {
    hide Leads, Bump;
    actions, t := [Caller(c, Submit(true))], Apply(s, Caller(c, Submit(true)));
    OneStep(s, Caller(c, Submit(true)));
    assert t.inbox == [id];
    OneMore(s, actions, t, Node(Take));
    actions, t := actions + [Node(Take)], Apply(t, Node(Take));
    OneMore(s, actions, t, Node(Transmit(m)));
    actions, t := actions + [Node(Transmit(m))], Apply(t, Node(Transmit(m)));
    assert t.queue == [m.(dataSource := Some(id))];
    OneMore(s, actions, t, Dispatcher(Fetch));
    actions, t := actions + [Dispatcher(Fetch)], Apply(t, Dispatcher(Fetch));
  }

  /** The output is looked up and the future completed. */
  lemma AnswerArrives(s: State, c: nat, id: int, m: Message) returns (actions: seq<Action>, t: State)
    requires OutputInHand(s, c, id, m)
    ensures Leads(s, actions, t)
    ensures |t.calls| == c + 1 && t.calls[c] == Call(Waiting, Some(id), Answered(m.(dataSource := Some(id))), 1)
  {
    hide Leads;
    actions, t := [Dispatcher(Lookup)], Apply(s, Dispatcher(Lookup));
    OneStep(s, Dispatcher(Lookup));
    OneMore(s, actions, t, Dispatcher(Complete));
    actions, t := actions + [Dispatcher(Complete)], Apply(t, Dispatcher(Complete));
  }

  /** The call collects its answer and replies. */
  lemma CallReturns(s: State, c: nat, id: int, m: Message) returns (actions: seq<Action>, t: State)
    requires |s.calls| == c + 1 && s.calls[c] == Call(Waiting, Some(id), Answered(m), 1)
    ensures Leads(s, actions, t)
    ensures |t.calls| == c + 1 && t.calls[c].id == Some(id) && t.calls[c].pc == Done(Success(m))
  {
    hide Leads, Bump;
    actions, t := [Caller(c, Collect)], Apply(s, Caller(c, Collect));
    OneStep(s, Caller(c, Collect));
    assert t.calls[c].pc == Leaving(Some(m));
    OneMore(s, actions, t, Caller(c, Leave));
    actions, t := actions + [Caller(c, Leave)], Apply(t, Caller(c, Leave));
    assert t.calls[c].pc == Replying(m);
    OneMore(s, actions, t, Caller(c, Reply(true)));
    actions, t := actions + [Caller(c, Reply(true))], Apply(t, Caller(c, Reply(true)));
  }

  lemma NewCallSucceeds(s: State, m: Message) returns (actions: seq<Action>, t: State)
    requires Inv(s) && AtRest(s)
    ensures Leads(s, actions, t) && |t.calls| > |s.calls| && Last(t.calls).id.Some?
    ensures Last(t.calls).pc == Done(Success(m.(dataSource := Last(t.calls).id)))
  {
    hide Inv, Leads, Apply, Enabled, JustRegistered, OutputInHand;
    var c, id := |s.calls|, s.counter;
    var first, a := NewCallRegisters(s);
    var second, b := RequestIsWorkedOn(a, c, id, m);
    var third, d := AnswerArrives(b, c, id, m);
    var fourth, e := CallReturns(d, c, id, m.(dataSource := Some(id)));
    Joined(s, first, a, second, b);
    Joined(s, first + second, b, third, d);
    Joined(s, first + second + third, d, fourth, e);
    actions, t := first + second + third + fourth, e;
  }

  /** In every reachable state of a service that has not been told to stop, whatever it has gone through, there is a way
    * to go on in which a new call comes in, the node answers its request with any message `m`, and the call succeeds
    * with just that message, stamped with its own id. */
  lemma CallsCanSucceed(states: seq<State>, actions: seq<Action>, n: nat, m: Message)
    returns (more: seq<Action>, t: State)
    requires Run(states, actions) && n < |states| && !states[n].stopping
    ensures Leads(states[n], more, t) && |t.calls| > |states[n].calls| && Last(t.calls).id.Some?
    ensures Last(t.calls).pc == Done(Success(m.(dataSource := Last(t.calls).id)))
  {
    hide Inv, Leads, Apply, Enabled;
    RunKeepsInv(states, actions, n);
    EndedWhenStopping(states, actions, n);
    var first, s := ComesToRest(states[n]);
    var then_, u := NewCallSucceeds(s, m);
    Joined(states[n], first, s, then_, u);
    more, t := first + then_, u;
  }
}
