/** What becomes of a call over a whole run of the remote service: how each outcome is earned, that an answer gets to
  * its caller, that requests are worked off in order, and that from every state a call can still succeed. */
module RemoteOutcomes {
  import opened Graphs
  import opened Messages
  import opened Remotes
  import opened RemoteSafety

  // ----- where a call stands -----

  /** The step of call `c` that an action is, if any. */
  function OwnOf(a: Action, c: nat): seq<CallerMove>
  {
    if a.Caller? && a.call == c then [a.move] else []
  }

  /** The steps of call `c` among some actions. */
  function Moves(actions: seq<Action>, c: nat): seq<CallerMove>
  {
    if actions == [] then []
    else
      Moves(actions[..|actions| - 1], c) + OwnOf(Last(actions), c)
  }

  /** The call was read, had a sender, and was put into the node. */
  predicate WasPut(moves: seq<CallerMove>)
  {
    |moves| >= 3 && moves[0] == Parse(Readable) && moves[1] == Register(true) && moves[2].Submit?
  }

  /** The call's steps after its request was put: it collected the future or gave it up, left, and replied. */
  predicate WentOn(moves: seq<CallerMove>, future: Future)
  {
    && WasPut(moves) && |moves| <= 6
    && (|moves| > 3 ==> moves[3] == GiveUp || (moves[3] == Collect && !future.Unset?))
    && (|moves| > 4 ==> moves[4] == Leave)
    && (|moves| > 5 ==> moves[5].Reply?)
  }

  /** What the call collected. */
  function Got(moves: seq<CallerMove>, future: Future): Option<Message>
    requires |moves| > 3
  {
    if moves[3] == Collect && future.Answered? then Some(future.message) else None
  }

  /** How the call comes out of it. */
  function Final(got: Option<Message>, encodes: bool): Outcome
  {
    if got.None? then Timeout else if encodes then Success(got.value) else Failed
  }

  /** Where a call stands after the steps it has taken. */
  predicate Stands(moves: seq<CallerMove>, call: Call)
  {
    if moves == [] then call.pc == Received
    else if moves == [Parse(BadValue)] || moves == [Parse(Readable), Register(false)] then call.pc == Done(Invalid)
    else if moves == [Parse(Unreadable)] then call.pc == Done(Failed)
    else if moves == [Parse(Readable)] then call.pc == Tagged
    else if moves == [Parse(Readable), Register(true)] then call.pc == Registered
    else
      && WentOn(moves, call.future)
      && (|moves| == 3 ==> call.pc == Waiting)
      && (|moves| == 4 ==> call.pc == Leaving(Got(moves, call.future)))
      && (|moves| == 5 ==>
            var got := Got(moves, call.future);
            call.pc == if got.Some? then Replying(got.value) else Raising)
      && (|moves| == 6 ==> call.pc == Done(Final(Got(moves, call.future), moves[5].encodes)))
  }

  /** A call's own step. */
  lemma OwnMove(moves: seq<CallerMove>, call: Call, move: CallerMove, counter: int, duplicate: bool)
    requires Stands(moves, call) && CallerMay(call, move) && (call.pc.Tagged? ==> !duplicate)
    ensures Stands(moves + [move], CallAfter(call, move, counter, duplicate))
  {
    var more := moves + [move];
    assert more[..|moves|] == moves;
    assert |moves| <= 5;
  }

  /** Steps of others leave a call where it is, and complete its future only if it is open. */
  lemma OthersLeaveCall(s: State, a: Action, c: nat)
    requires Inv(s) && Enabled(s, a) && c < |s.calls| && !(a.Caller? && a.call == c)
    ensures var t := Apply(s, a);
      && c < |t.calls| && t.calls[c].pc == s.calls[c].pc && t.calls[c].id == s.calls[c].id
      && (t.calls[c].future == s.calls[c].future || s.calls[c].future.Unset?)
  {
    hide IdsOk, SubmittedOk, NodeOk, PendingOk, FuturesOk, QueueOk, HandledOk, AnswersOk, StatsOk, IsFirst, Bump,
      CallAfter, CallerMay;
    match a
    case Receive =>
    case Caller(d, move) => assert Apply(s, a).calls == s.calls[d := Apply(s, a).calls[d]];
    case Node(work) =>
    case Dispatcher(op) =>
    case Expire(ids) =>
    case RequestStop =>
    case ShutdownClear =>
  }

  lemma OtherMove(moves: seq<CallerMove>, before: Call, after: Call)
    requires Stands(moves, before) && after.pc == before.pc
    requires after.future == before.future || before.future.Unset?
    ensures Stands(moves, after)
  {
  }

  lemma OwnStepOfCall(s: State, c: nat, move: CallerMove)
    requires Inv(s) && c < |s.calls| && CallerMay(s.calls[c], move)
    ensures var t, call := CallerStep(s, c, move), s.calls[c];
      && |t.calls| == |s.calls|
      && t.calls[c] == CallAfter(call, move, s.counter, call.id.Some? && call.id.value in s.pending)
      && (call.pc.Tagged? ==> call.id.Some? && call.id.value !in s.pending)
  {
    hide Inv, Bump, CallAfter;
    var call := s.calls[c];
    HasId(s, c);
    if call.pc.Tagged? && call.id.value in s.pending {
      PendingCall(s, call.id.value);
      IdsDiffer(s, c, s.pending[call.id.value]);
    }
  }

  lemma StandsStep(s: State, a: Action, moves: seq<CallerMove>, c: nat)
    requires Inv(s) && Enabled(s, a) && c < |s.calls| && Stands(moves, s.calls[c])
    ensures c < |Apply(s, a).calls| && Stands(moves + OwnOf(a, c), Apply(s, a).calls[c])
  {
    hide Inv, Stands, CallAfter, CallerMay;
    var call := s.calls[c];
    if a.Caller? && a.call == c {
      OwnStepOfCall(s, c, a.move);
      OwnMove(moves, call, a.move, s.counter, call.id.Some? && call.id.value in s.pending);
    } else {
      OthersLeaveCall(s, a, c);
      OtherMove(moves, call, Apply(s, a).calls[c]);
      assert moves + [] == moves;
    }
  }

  lemma Newcomer(call: Call)
    requires call.pc == Received
    ensures Stands([], call)
  {
  }

  lemma PendingCall(s: State, id: int)
    requires Inv(s) && id in s.pending
    ensures s.pending[id] < |s.calls| && Awaits(s.calls[s.pending[id]], id)
  {
    hide IdsOk, SubmittedOk, NodeOk, FuturesOk, QueueOk, HandledOk, AnswersOk, StatsOk, CompletingOk, Awaits;
  }

  lemma IdsDiffer(s: State, c: nat, d: nat)
    requires Inv(s) && c < |s.calls| && d < |s.calls| && s.calls[c].id.Some? && s.calls[c].id == s.calls[d].id
    ensures c == d
  {
    hide SubmittedOk, NodeOk, PendingOk, FuturesOk, QueueOk, HandledOk, AnswersOk, StatsOk, CompletingOk;
  }

  lemma MovesSnoc(actions: seq<Action>, n: nat, c: nat)
    requires n < |actions|
    ensures Moves(actions[..n + 1], c) == Moves(actions[..n], c) + OwnOf(actions[n], c)
  {
    assert actions[..n + 1][..n] == actions[..n];
  }

  lemma CallsOnlyGrow(s: State, a: Action)
    requires Enabled(s, a)
    ensures a.Receive? ==> Apply(s, a).calls == s.calls + [Call(Received, None, Unset, 0)]
    ensures !a.Receive? ==> |Apply(s, a).calls| == |s.calls|
  {
    hide Bump, CallAfter, CallerMay, Concerned;
  }

  /** A call takes no step before it is there. */
  lemma {:induction false} NoMovesYet(states: seq<State>, actions: seq<Action>, n: nat, c: nat)
    requires Run(states, actions) && n < |states| && c >= |states[n].calls|
    ensures Moves(actions[..n], c) == []
  {
    hide Apply;
    if n > 0 {
      CallsOnlyGrow(states[n - 1], actions[n - 1]);
      NoMovesYet(states, actions, n - 1, c);
      MovesSnoc(actions, n - 1, c);
    }
  }

  /** In every reachable state every call stands where its own steps have brought it. */
  lemma {:induction false} EveryCallStands(states: seq<State>, actions: seq<Action>, n: nat, c: nat)
    requires Run(states, actions) && n < |states| && c < |states[n].calls|
    ensures Stands(Moves(actions[..n], c), states[n].calls[c])
  {
    hide Inv, Stands, Moves, Apply, Enabled;
    assert n > 0;
    var s, a := states[n - 1], actions[n - 1];
    RunKeepsInv(states, actions, n - 1);
    MovesSnoc(actions, n - 1, c);
    if c < |s.calls| {
      EveryCallStands(states, actions, n - 1, c);
      StandsStep(s, a, Moves(actions[..n - 1], c), c);
    } else {
      NoMovesYet(states, actions, n - 1, c);
      CallsOnlyGrow(s, a);
      Newcomer(states[n].calls[c]);
    }
  }

  // ----- outcomes -----

  /** Every outcome is earned, and by nothing else than this. A call succeeds with a message exactly if its request was
    * put, its future was answered with that message, and the call collected it and could encode the reply. It times
    * out exactly if its request was put and it gave up or its future was timed out. It is invalid exactly if it could
    * not be read or had no sender, and fails otherwise. */
  lemma OutcomesAreEarned(states: seq<State>, actions: seq<Action>, n: nat, c: nat)
    requires Run(states, actions) && n < |states| && c < |states[n].calls|
    ensures var call, moves := states[n].calls[c], Moves(actions[..n], c);
      && (forall m :: call.pc == Done(Success(m)) <==>
            WasPut(moves) && moves[3..] == [Collect, Leave, Reply(true)] && call.future == Answered(m))
      && (call.pc == Done(Timeout) <==>
            WasPut(moves) && |moves| == 6 && (moves[3] == GiveUp || call.future == TimedOut))
      && (call.pc == Done(Invalid) <==> moves == [Parse(BadValue)] || moves == [Parse(Readable), Register(false)])
      && (call.pc == Done(Failed) <==>
            || moves == [Parse(Unreadable)]
            || (WasPut(moves) && moves[3..] == [Collect, Leave, Reply(false)] && call.future.Answered?))
  {
    EveryCallStands(states, actions, n, c);
    StandsByOutcome(Moves(actions[..n], c), states[n].calls[c]);
  }

  lemma StandsByOutcome(moves: seq<CallerMove>, call: Call)
    requires Stands(moves, call)
    ensures forall m :: call.pc == Done(Success(m)) <==>
        WasPut(moves) && moves[3..] == [Collect, Leave, Reply(true)] && call.future == Answered(m)
    ensures call.pc == Done(Timeout) <==>
        WasPut(moves) && |moves| == 6 && (moves[3] == GiveUp || call.future == TimedOut)
    ensures call.pc == Done(Invalid) <==> moves == [Parse(BadValue)] || moves == [Parse(Readable), Register(false)]
    ensures call.pc == Done(Failed) <==>
        || moves == [Parse(Unreadable)]
        || (WasPut(moves) && moves[3..] == [Collect, Leave, Reply(false)] && call.future.Answered?)
  {
    if |moves| == 6 {
      assert moves[3..] == [moves[3], moves[4], moves[5]];
    }
  }

  /** A completed future stays as it is. */
  lemma {:induction false} FutureStays(states: seq<State>, actions: seq<Action>, n: nat, k: nat, c: nat)
    requires Run(states, actions) && n <= k < |states| && c < |states[n].calls| && !states[n].calls[c].future.Unset?
    ensures c < |states[k].calls| && states[k].calls[c].future == states[n].calls[c].future
  {
    hide Inv, Apply, Enabled, Init;
    if k > n {
      FutureStays(states, actions, n, k - 1, c);
      RunKeepsInv(states, actions, k - 1);
      FutureStep(states[k - 1], actions[k - 1], c);
    }
  }

  lemma FutureStep(s: State, a: Action, c: nat)
    requires Inv(s) && Enabled(s, a) && c < |s.calls| && !s.calls[c].future.Unset?
    ensures c < |Apply(s, a).calls| && Apply(s, a).calls[c].future == s.calls[c].future
  {
    hide Inv, CallAfter, CallerMay;
    if a.Caller? && a.call == c {
      FutureOfOwn(s.calls[c], a.move, s.counter, s.calls[c].id.Some? && s.calls[c].id.value in s.pending);
    } else {
      OthersLeaveCall(s, a, c);
    }
  }

  lemma FutureOfOwn(call: Call, move: CallerMove, counter: int, duplicate: bool)
    requires CallerMay(call, move)
    ensures CallAfter(call, move, counter, duplicate).future == call.future
  {
  }

  lemma {:induction false} MovesFrom(actions: seq<Action>, n: nat, k: nat, c: nat)
    requires n <= k <= |actions|
    ensures Moves(actions[..k], c) == Moves(actions[..n], c) + Moves(actions[n..k], c)
  {
    if k > n {
      MovesFrom(actions, n, k - 1, c);
      MovesSnoc(actions, k - 1, c);
      assert actions[n..k][..k - 1 - n] == actions[n..k - 1] && Last(actions[n..k]) == actions[k - 1];
    } else {
      assert actions[n..k] == [];
    }
  }

  /** Only a call whose future is open can give up. */
  lemma {:induction false} NoGivingUp(states: seq<State>, actions: seq<Action>, n: nat, k: nat, c: nat)
    requires Run(states, actions) && n <= k < |states| && c < |states[n].calls| && !states[n].calls[c].future.Unset?
    ensures GiveUp !in Moves(actions[n..k], c)
  {
    hide Inv, Apply, Init;
    if k > n {
      NoGivingUp(states, actions, n, k - 1, c);
      FutureStays(states, actions, n, k - 1, c);
      assert actions[n..k][..k - 1 - n] == actions[n..k - 1] && Last(actions[n..k]) == actions[k - 1];
    }
  }

  /** Where a call gets to from waiting with its answer there. */
  lemma WaitingOn(moves: seq<CallerMove>, own: seq<CallerMove>, before: Call, after: Call, m: Message)
    requires Stands(moves, before) && before.pc.Waiting? && Stands(moves + own, after)
    requires after.future == Answered(m) && GiveUp !in own
    ensures own <= [Collect, Leave, Reply(true)] || own == [Collect, Leave, Reply(false)]
    ensures after.pc == match |own|
                        case 0 => Waiting
                        case 1 => Leaving(Some(m))
                        case 2 => Replying(m)
                        case _ => Done(if own == [Collect, Leave, Reply(true)] then Success(m) else Failed)
  {
    var all := moves + own;
    assert |moves| == 3;
    assert WentOn(all, after.future) && |all| == 3 + |own|;
    if |own| == 1 {
      assert own == [all[3]] && own[0] in own;
    } else if |own| == 2 {
      assert own == [all[3], all[4]] && own[0] in own;
    } else if |own| == 3 {
      assert own == [all[3], all[4], all[5]] && own[0] in own;
    }
  }

  lemma HasId(s: State, c: nat)
    requires Inv(s) && c < |s.calls|
    ensures IdFits(s.counter, s.calls[c])
  {
    hide IdFits, SubmittedOk, NodeOk, PendingOk, FuturesOk, QueueOk, HandledOk, AnswersOk, StatsOk, CompletingOk;
  }

  lemma MayGoOn(s: State, c: nat)
    requires Inv(s) && c < |s.calls|
    ensures s.calls[c].pc == Waiting && s.calls[c].future.Answered? ==> CallerMay(s.calls[c], Collect)
    ensures s.calls[c].pc.Leaving? ==> CallerMay(s.calls[c], Leave)
    ensures s.calls[c].pc.Replying? ==> forall e :: CallerMay(s.calls[c], Reply(e))
  {
    hide Inv;
    HasId(s, c);
  }

  /** A call whose future has been answered while it waits goes on by its own steps alone, whatever the others do: it
    * can collect the answer, leave, and reply, and if the reply can be encoded it succeeds with that very answer. */
  lemma AnsweredCallSucceeds(states: seq<State>, actions: seq<Action>, n: nat, k: nat, c: nat, m: Message)
    requires Run(states, actions) && n <= k < |states| && c < |states[n].calls|
    requires states[n].calls[c].pc.Waiting? && states[n].calls[c].future == Answered(m)
    ensures c < |states[k].calls| && states[k].calls[c].future == Answered(m)
    ensures var own, pc := Moves(actions[n..k], c), states[k].calls[c].pc;
      && (own <= [Collect, Leave, Reply(true)] || own == [Collect, Leave, Reply(false)])
      && (own == [] ==> Enabled(states[k], Caller(c, Collect)))
      && (own == [Collect] ==> Enabled(states[k], Caller(c, Leave)))
      && (own == [Collect, Leave] ==> forall e :: Enabled(states[k], Caller(c, Reply(e))))
      && (own == [Collect, Leave, Reply(true)] ==> pc == Done(Success(m)))
      && (own == [Collect, Leave, Reply(false)] ==> pc == Done(Failed))
  {
    hide Inv, Apply, Init, Stands, CallerMay, Moves, IdFits;
    FutureStays(states, actions, n, k, c);
    EveryCallStands(states, actions, n, c);
    EveryCallStands(states, actions, k, c);
    MovesFrom(actions, n, k, c);
    RunKeepsInv(states, actions, k);
    HasId(states[k], c);
    var mine, own, call := Moves(actions[..n], c), Moves(actions[n..k], c), states[k].calls[c];
    assert Moves(actions[..k], c) == mine + own;
    assert states[n].calls[c].pc.Waiting?;
    NoGivingUp(states, actions, n, k, c);
    WaitingOn(mine, own, states[n].calls[c], call, m);
    MayGoOn(states[k], c);
  }

  // ----- who is pending -----

  /** A call with a sender is registered under its own id, whatever is pending; one without is turned away. */
  lemma SendersAreRegistered(states: seq<State>, actions: seq<Action>, n: nat, c: nat, hasSender: bool)
    requires Run(states, actions) && n < |actions| && actions[n] == Caller(c, Register(hasSender))
    ensures var s, t := states[n], states[n + 1];
      && c < |s.calls| && s.calls[c].id.Some? && s.calls[c].id.value !in s.pending && c < |t.calls|
      && t.calls[c].pc == (if hasSender then Registered else Done(Invalid))
      && t.pending == if hasSender then s.pending[s.calls[c].id.value := c] else s.pending
  {
    hide Inv, Bump;
    RunKeepsInv(states, actions, n);
    OwnStepOfCall(states[n], c, Register(hasSender));
  }

  /** Whoever waits with an open future is pending under its id, or is about to be answered. */
  predicate Attended(s: State, c: nat)
    requires c < |s.calls|
  {
    MayWait(s.calls[c]) && s.calls[c].future.Unset? ==>
      || (s.calls[c].id.Some? && s.calls[c].id.value in s.pending && s.pending[s.calls[c].id.value] == c)
      || (s.dispatcher.Completing? && s.dispatcher.call == c)
  }

  lemma StaysAttended(s: State, a: Action, c: nat)
    requires Inv(s) && Enabled(s, a) && c < |s.calls| && Attended(s, c)
    ensures c < |Apply(s, a).calls| && Attended(Apply(s, a), c)
  {
    hide Inv, Bump, Concerned;
    if a.Caller? && a.call == c {
      OwnStepOfCall(s, c, a.move);
    } else {
      OthersLeaveCall(s, a, c);
      HasId(s, c);
      match a
      case Receive =>
      case Caller(d, move) => if MayWait(s.calls[c]) { LeavesOthersPending(s, d, move, c); }
      case Node(work) =>
      case Dispatcher(op) =>
      case Expire(ids) => CancelsTheOpen(s, ids, c);
      case RequestStop =>
      case ShutdownClear => CancelsTheOpen(s, s.pending.Keys, c);
    }
  }

  lemma LeavesOthersPending(s: State, d: nat, move: CallerMove, c: nat)
    requires Inv(s) && d < |s.calls| && c < |s.calls| && c != d && CallerMay(s.calls[d], move)
    requires s.calls[c].id.Some?
    ensures var t, id := CallerStep(s, d, move), s.calls[c].id.value;
      t.dispatcher == s.dispatcher && (id in s.pending ==> id in t.pending && t.pending[id] == s.pending[id])
  {
    hide Inv, Bump, CallAfter;
    if s.calls[d].id == s.calls[c].id {
      IdsDiffer(s, c, d);
    }
  }

  lemma CancelsTheOpen(s: State, ids: set<int>, c: nat)
    requires c < |s.calls| && Attended(s, c)
    ensures c < |CancelAll(s, ids).calls| && Attended(CancelAll(s, ids), c)
  {
  }

  /** The pending map is exact in every reachable state: a request is pending exactly if there is a call with its id
    * that waits for it, with its future open and its answer not in the dispatcher's hands. */
  lemma {:induction false} PendingIsExact(states: seq<State>, actions: seq<Action>, n: nat, c: nat)
    requires Run(states, actions) && n < |states| && c < |states[n].calls|
    ensures var s, call := states[n], states[n].calls[c];
      (call.id.Some? && call.id.value in s.pending)
      <==> MayWait(call) && call.future.Unset? && !(s.dispatcher.Completing? && s.dispatcher.call == c)
  {
    hide Inv, Apply, Enabled;
    AllAttended(states, actions, n, c);
    RunKeepsInv(states, actions, n);
    var s, call := states[n], states[n].calls[c];
    if call.id.Some? && call.id.value in s.pending {
      PendingMeansOpen(s, c);
    }
  }

  lemma {:induction false} AllAttended(states: seq<State>, actions: seq<Action>, n: nat, c: nat)
    requires Run(states, actions) && n < |states| && c < |states[n].calls|
    ensures Attended(states[n], c)
  {
    hide Inv, Apply, Attended;
    assert n > 0;
    RunKeepsInv(states, actions, n - 1);
    CallsOnlyGrow(states[n - 1], actions[n - 1]);
    if c < |states[n - 1].calls| {
      AllAttended(states, actions, n - 1, c);
      StaysAttended(states[n - 1], actions[n - 1], c);
    } else {
      NewcomerIsAttended(states[n], c);
    }
  }

  lemma NewcomerIsAttended(s: State, c: nat)
    requires c < |s.calls| && s.calls[c].pc == Received
    ensures Attended(s, c)
  {
  }

  lemma PendingMeansOpen(s: State, c: nat)
    requires Inv(s) && c < |s.calls| && s.calls[c].id.Some? && s.calls[c].id.value in s.pending
    ensures MayWait(s.calls[c]) && s.calls[c].future.Unset? && !(s.dispatcher.Completing? && s.dispatcher.call == c)
  {
    hide IdsOk, SubmittedOk, NodeOk, FuturesOk, QueueOk, HandledOk, AnswersOk, StatsOk, IsFirst;
    var id := s.calls[c].id.value;
    PendingCall(s, id);
    IdsDiffer(s, c, s.pending[id]);
  }

  /** The cleaner and the shutdown take out just the entries they name, and time out just the futures of those. */
  lemma CancelledAreTimedOut(states: seq<State>, actions: seq<Action>, n: nat, ids: set<int>)
    requires Run(states, actions) && n < |actions|
    requires actions[n] == Expire(ids) || (actions[n] == ShutdownClear && ids == states[n].pending.Keys)
    ensures var s, t := states[n], states[n + 1];
      && t.pending == s.pending - ids && |t.calls| == |s.calls|
      && forall c :: 0 <= c < |s.calls| ==>
           t.calls[c].pc == s.calls[c].pc && t.calls[c].id == s.calls[c].id
           && t.calls[c].future == if s.calls[c].id.Some? && s.calls[c].id.value in ids then TimedOut
                                   else s.calls[c].future
  {
    hide Inv, Concerned;
    var s, t := states[n], states[n + 1];
    RunKeepsInv(states, actions, n);
    forall c | 0 <= c < |s.calls|
      ensures Concerned(s, ids, c) <==> s.calls[c].id.Some? && s.calls[c].id.value in ids
      ensures Concerned(s, ids, c) ==> s.calls[c].future.Unset?
    {
      ConcernedById(s, ids, c);
    }
  }

  lemma ConcernedById(s: State, ids: set<int>, c: nat)
    requires Inv(s) && c < |s.calls| && ids <= s.pending.Keys
    ensures Concerned(s, ids, c) <==> s.calls[c].id.Some? && s.calls[c].id.value in ids
    ensures Concerned(s, ids, c) ==> s.calls[c].future.Unset?
  {
    hide Inv;
    var id := s.calls[c].id;
    if id.Some? && id.value in ids {
      PendingCall(s, id.value);
      IdsDiffer(s, c, s.pending[id.value]);
    }
  }

  // ----- the way of an answer -----

  /** When the dispatcher looks up the first output for a pending request, it takes the entry out, and completes the
    * future of the call that was registered under it, with that output, as soon as it goes on; the future stays so. */
  lemma {:induction false} FirstOutputAnswers(states: seq<State>, actions: seq<Action>, n: nat, k: nat, id: int)
    requires Run(states, actions) && n < k < |states| && actions[n] == Dispatcher(Lookup)
    requires states[n].dispatcher.message.dataSource == Some(id) && id in states[n].pending
    ensures states[n + 1].pending == states[n].pending - {id}
    ensures var c, m := states[n].pending[id], states[n].dispatcher.message;
      && c < |states[n].calls| && c < |states[k].calls| && states[k].calls[c].id == Some(id)
      && IsFirst(states[n].log, id, m)
      && if Dispatcher(Complete) in actions[n + 1..k] then states[k].calls[c].future == Answered(m)
         else states[k].dispatcher == Completing(c, m) && Enabled(states[k], Dispatcher(Complete))
  {
    hide Inv, Apply, IsFirst;
    var s, m := states[n], states[n].dispatcher.message;
    RunKeepsInv(states, actions, n);
    LookupFinds(s, id);
    if k == n + 1 {
      assert actions[n + 1..k] == [];
      RunKeepsInv(states, actions, k);
    } else {
      FirstOutputAnswers(states, actions, n, k - 1, id);
      RunKeepsInv(states, actions, k - 1);
      AnswerOnItsWay(states[k - 1], actions[k - 1], s.pending[id], m, id);
      assert actions[n + 1..k] == actions[n + 1..k - 1] + [actions[k - 1]];
    }
  }

  lemma LookupFinds(s: State, id: int)
    requires Inv(s) && Enabled(s, Dispatcher(Lookup)) && s.dispatcher.message.dataSource == Some(id) && id in s.pending
    ensures var c, t := s.pending[id], Apply(s, Dispatcher(Lookup));
      && c < |s.calls| && s.calls[c].id == Some(id) && IsFirst(s.log, id, s.dispatcher.message)
      && t.calls == s.calls && t.pending == s.pending - {id} && t.dispatcher == Completing(c, s.dispatcher.message)
      && Enabled(t, Dispatcher(Complete))
  {
    hide IsFirst, StatsOk, AnswersOk, CompletingOk;
    InHandIsFirst(s);
    PendingCall(s, id);
    HasId(s, s.pending[id]);
  }

  /** One step in the way of an answer to its future. */
  lemma AnswerOnItsWay(s: State, a: Action, c: nat, m: Message, id: int)
    requires Inv(s) && Enabled(s, a) && c < |s.calls| && s.calls[c].id == Some(id)
    ensures var t := Apply(s, a);
      && c < |t.calls| && t.calls[c].id == Some(id)
      && (s.calls[c].future == Answered(m) ==> t.calls[c].future == Answered(m))
      && (s.dispatcher == Completing(c, m) && a != Dispatcher(Complete) ==>
            t.dispatcher == s.dispatcher && Enabled(t, Dispatcher(Complete)))
      && (s.dispatcher == Completing(c, m) && a == Dispatcher(Complete) ==> t.calls[c].future == Answered(m))
  {
    hide Inv, Bump, CallAfter;
    if a.Caller? && a.call == c {
      OwnStepOfCall(s, c, a.move);
      FutureOfOwn(s.calls[c], a.move, s.counter, id in s.pending);
      HasId(s, c);
      KeepsId(s.calls[c], a.move, s.counter, id in s.pending);
    } else {
      OthersLeaveCall(s, a, c);
    }
  }

  lemma KeepsId(call: Call, move: CallerMove, counter: int, duplicate: bool)
    requires CallerMay(call, move) && IdFits(counter, call) && call.id.Some?
    ensures CallAfter(call, move, counter, duplicate).id == call.id
  {
  }

  // ----- requests are worked off in order -----

  /** The ids of the requests put into the node and kept by it, in the order they were put. */
  function PutIds(states: seq<State>, actions: seq<Action>): seq<int>
    requires |states| > |actions|
    requires forall i :: 0 <= i < |actions| ==> Enabled(states[i], actions[i])
  {
    if actions == [] then []
    else
      var s, a := states[|actions| - 1], actions[|actions| - 1];
      assert Enabled(s, a);
      PutIds(states, actions[..|actions| - 1])
      + (if a.Caller? && a.move == Submit(true) then [s.calls[a.call].id.value] else [])
  }

  function Count(actions: seq<Action>, a: Action): nat
  {
    multiset(actions)[a]
  }

  lemma CountSnoc(actions: seq<Action>, n: nat, a: Action)
    requires n < |actions|
    ensures Count(actions[..n + 1], a) == Count(actions[..n], a) + (if actions[n] == a then 1 else 0)
  {
    assert actions[..n + 1] == actions[..n] + [actions[n]];
  }

  /** The node takes up the requests in the order they were put, each once: with `k` of them taken up, it holds those
    * from `k` on, and the one it is updating is the one before. */
  lemma {:induction false} RequestsAreTakenInOrder(states: seq<State>, actions: seq<Action>, n: nat)
    requires Run(states, actions) && n < |states|
    ensures var put, k := PutIds(states, actions[..n]), Count(actions[..n], Node(Take));
      && k <= |put| && states[n].inbox == put[k..]
      && (states[n].updating.Some? ==> k > 0 && states[n].updating.value == put[k - 1])
  {
    hide Apply, Enabled, PutIds, Count;
    if n == 0 {
      assert actions[..0] == [];
      NothingPut(states);
    } else {
      var s, a := states[n - 1], actions[n - 1];
      RequestsAreTakenInOrder(states, actions, n - 1);
      PutIdsSnoc(states, actions, n - 1);
      CountSnoc(actions, n - 1, Node(Take));
      InboxStep(s, a, PutIds(states, actions[..n - 1]), Count(actions[..n - 1], Node(Take)));
    }
  }

  lemma NothingPut(states: seq<State>)
    requires |states| > 0
    ensures PutIds(states, []) == [] && forall a :: Count([], a) == 0
  {
  }

  lemma PutIdsSnoc(states: seq<State>, actions: seq<Action>, n: nat)
    requires n < |actions| && |states| > |actions|
    requires forall i :: 0 <= i < |actions| ==> Enabled(states[i], actions[i])
    ensures var a := actions[n];
      PutIds(states, actions[..n + 1])
      == PutIds(states, actions[..n])
         + (if a.Caller? && a.move == Submit(true) then [states[n].calls[a.call].id.value] else [])
  {
    hide Enabled;
    assert actions[..n + 1][..n] == actions[..n] && actions[..n + 1][n] == actions[n];
  }

  lemma InboxStep(s: State, a: Action, put: seq<int>, k: nat)
    requires Enabled(s, a) && k <= |put| && s.inbox == put[k..]
    requires s.updating.Some? ==> k > 0 && s.updating.value == put[k - 1]
    ensures var t := Apply(s, a);
      var put' := put + (if a.Caller? && a.move == Submit(true) then [s.calls[a.call].id.value] else []);
      var k' := if a == Node(Take) then k + 1 else k;
      && k' <= |put'| && t.inbox == put'[k'..]
      && (t.updating.Some? ==> k' > 0 && t.updating.value == put'[k' - 1])
  {
    hide Bump, CallAfter, Concerned;
    if a.Caller? {
      var call := s.calls[a.call];
      assert put[k..] + [] == put[k..] && put + [] == put;
      if a.move == Submit(true) {
        assert (put + [call.id.value])[k..] == put[k..] + [call.id.value];
      }
    } else {
      assert put + [] == put;
    }
  }
}
