/** What every run of the remote service keeps: whose answer a caller gets, who completes a future, what the
  * pending map holds, and what the statistics add up to. */
module RemoteSafety {
  import opened Messages
  import opened Remotes

  /** `m` is the first message the node transmitted while it was updating request `id`. */
  ghost predicate IsFirst(log: seq<Sent>, id: int, m: Message)
  {
    exists k :: 0 <= k < |log| && log[k] == Sent(id, m) && forall j :: 0 <= j < k ==> log[j].request != id
  }

  predicate InFlight(call: Call)
  {
    !call.pc.Done?
  }

  // ----- the invariant -----

  /** Ids are never reused: at most one call has any one. */
  ghost predicate IdsOk(counter: int, calls: seq<Call>)
  {
    && counter >= 1
    && (forall c :: 0 <= c < |calls| ==> IdFits(counter, calls[c]))
    && (forall c, d :: 0 <= c < d < |calls| && calls[c].id.Some? ==> calls[c].id != calls[d].id)
  }

  predicate IdFits(counter: int, call: Call)
  {
    && (call.id.Some? ==> 1 <= call.id.value < counter)
    && (call.pc.Received? ==> call.id.None?)
    && (!call.pc.Received? && InFlight(call) ==> call.id.Some?)
  }

  ghost predicate SubmittedOk(counter: int, calls: seq<Call>, submitted: set<int>)
  {
    && (forall i :: i in submitted ==> 1 <= i < counter)
    && (forall c :: 0 <= c < |calls| ==> NotYetSubmitted(calls[c], submitted))
  }

  predicate NotYetSubmitted(call: Call, submitted: set<int>)
  {
    call.id.Some? && (call.pc.Tagged? || call.pc.Registered?) ==> call.id.value !in submitted
  }

  /** The node works on submitted requests only, and stamps what it transmits with the one it is updating. */
  ghost predicate NodeOk(inbox: seq<int>, updating: Option<int>, lastId: Option<int>, log: seq<Sent>,
    submitted: set<int>)
  {
    && (forall i :: i in inbox ==> i in submitted)
    && (updating.Some? ==> updating.value in submitted && lastId == updating)
    && (forall k :: 0 <= k < |log| ==> log[k].request in submitted && log[k].message.dataSource == Some(log[k].request))
  }

  predicate MayWait(call: Call)
  {
    call.pc.Registered? || call.pc.Waiting? || call.pc.Leaving?
  }

  ghost predicate PendingOk(pending: map<int, nat>, calls: seq<Call>)
  {
    forall i :: i in pending ==> pending[i] < |calls| && Awaits(calls[pending[i]], i)
  }

  predicate Awaits(call: Call, id: int)
  {
    call.id == Some(id) && MayWait(call) && call.future.Unset?
  }

  predicate FutureOk(call: Call)
  {
    && call.settled == (if call.future.Unset? then 0 else 1)
    && (call.pc.Received? || call.pc.Tagged? ==> call.future.Unset?)
  }

  ghost predicate FuturesOk(calls: seq<Call>)
  {
    forall c :: 0 <= c < |calls| ==> FutureOk(calls[c])
  }

  function InHand(dispatcher: DispatcherPc): seq<Message>
  {
    if dispatcher.Holding? then [dispatcher.message] else []
  }

  /** What the dispatcher holds and what is queued is what the log has beyond `handled`. */
  ghost predicate QueueOk(log: seq<Sent>, handled: nat, dispatcher: DispatcherPc, queue: seq<Message>)
  {
    var ahead := InHand(dispatcher) + queue;
    |log| == handled + |ahead| && forall k :: 0 <= k < |ahead| ==> ahead[k] == log[handled + k].message
  }

  ghost predicate HandledOk(log: seq<Sent>, handled: nat, pending: map<int, nat>)
  {
    handled <= |log| && forall k :: 0 <= k < handled ==> log[k].request !in pending
  }

  /** Whoever is about to be answered is no longer pending and has not been answered before. */
  ghost predicate CompletingOk(log: seq<Sent>, dispatcher: DispatcherPc, pending: map<int, nat>, calls: seq<Call>)
  {
    dispatcher.Completing? ==>
      var c := dispatcher.call;
      && c < |calls| && calls[c].id.Some? && calls[c].id.value !in pending && calls[c].future.Unset?
      && !calls[c].pc.Received? && !calls[c].pc.Tagged?
      && IsFirst(log, calls[c].id.value, dispatcher.response)
  }

  ghost predicate AnsweredOk(log: seq<Sent>, call: Call)
  {
    call.future.Answered? ==> call.id.Some? && IsFirst(log, call.id.value, call.future.message)
  }

  predicate ReplyOk(call: Call)
  {
    match call.pc
    case Leaving(Some(m)) => call.future == Answered(m)
    case Replying(m) => call.future == Answered(m)
    case Done(Success(m)) => call.future == Answered(m)
    case _ => true
  }

  ghost predicate AnswersOk(log: seq<Sent>, calls: seq<Call>)
  {
    forall c :: 0 <= c < |calls| ==> AnsweredOk(log, calls[c]) && ReplyOk(calls[c])
  }

  // ----- the statistics -----

  datatype Kind = Running | Succeeded | Expired | Rejected | Broken

  function KindOf(call: Call): Kind
  {
    match call.pc
    case Done(Success(_)) => Succeeded
    case Done(Timeout) => Expired
    case Done(Invalid) => Rejected
    case Done(Failed) => Broken
    case _ => Running
  }

  function Tally(calls: seq<Call>, kind: Kind): nat
  {
    if calls == [] then 0
    else Tally(calls[..|calls| - 1], kind) + (if KindOf(calls[|calls| - 1]) == kind then 1 else 0)
  }

  lemma {:induction false} TallyUpdate(calls: seq<Call>, c: nat, call: Call, kind: Kind)
    requires c < |calls|
    ensures Tally(calls[c := call], kind) + (if KindOf(calls[c]) == kind then 1 else 0)
         == Tally(calls, kind) + (if KindOf(call) == kind then 1 else 0)
  {
    var init := calls[..|calls| - 1];
    if c == |calls| - 1 {
      assert calls[c := call][..c] == init;
    } else {
      TallyUpdate(init, c, call, kind);
      assert calls[c := call][..|calls| - 1] == init[c := call];
    }
  }

  lemma {:induction false} TallySame(calls: seq<Call>, others: seq<Call>, kind: Kind)
    requires |calls| == |others| && forall c :: 0 <= c < |calls| ==> KindOf(calls[c]) == KindOf(others[c])
    ensures Tally(calls, kind) == Tally(others, kind)
  {
    if calls != [] {
      TallySame(calls[..|calls| - 1], others[..|others| - 1], kind);
    }
  }

  lemma {:induction false} TallyCoversAll(calls: seq<Call>)
    ensures |calls| == Tally(calls, Running) + Tally(calls, Succeeded) + Tally(calls, Expired)
      + Tally(calls, Rejected) + Tally(calls, Broken)
  {
    if calls != [] {
      TallyCoversAll(calls[..|calls| - 1]);
    }
  }

  ghost predicate StatsOk(s: State)
  {
    && Stat(s.stats, "total_requests") == |s.calls|
    && Stat(s.stats, "successful_requests") == Tally(s.calls, Succeeded)
    && Stat(s.stats, "timeout_requests") == Tally(s.calls, Expired)
    && Stat(s.stats, "invalid_requests") == Tally(s.calls, Rejected)
    && Stat(s.stats, "failed_requests") == Tally(s.calls, Broken)
    && Stat(s.stats, "timeouts") == 0
  }

  ghost predicate Inv(s: State)
  {
    && IdsOk(s.counter, s.calls)
    && SubmittedOk(s.counter, s.calls, s.submitted)
    && NodeOk(s.inbox, s.updating, s.lastId, s.log, s.submitted)
    && PendingOk(s.pending, s.calls)
    && FuturesOk(s.calls)
    && QueueOk(s.log, s.handled, s.dispatcher, s.queue)
    && HandledOk(s.log, s.handled, s.pending)
    && CompletingOk(s.log, s.dispatcher, s.pending, s.calls)
    && AnswersOk(s.log, s.calls)
    && StatsOk(s)
  }

  // ----- a caller's step -----

  /** What a caller's own step does to its call: it moves on, it may get an id, and its future stays. */
  lemma CallMoves(call: Call, move: CallerMove, counter: int, duplicate: bool)
    requires CallerMay(call, move) && IdFits(counter, call) && FutureOk(call) && ReplyOk(call) && counter >= 1
    ensures var after := CallAfter(call, move, counter, duplicate);
      && after.future == call.future && after.settled == call.settled
      && FutureOk(after) && ReplyOk(after)
      && (if move == Parse(Readable) then call.id.None? && after.id == Some(counter) else after.id == call.id)
      && IdFits(if move == Parse(Readable) then counter + 1 else counter, after)
  {
  }

  lemma IdsUpdate(counter: int, counter': int, calls: seq<Call>, c: nat, after: Call)
    requires IdsOk(counter, calls) && c < |calls| && counter <= counter' && IdFits(counter', after)
    requires after.id == calls[c].id || (after.id == Some(counter))
    ensures IdsOk(counter', calls[c := after])
  {
  }

  lemma CallerKeepsIds(s: State, c: nat, move: CallerMove)
    requires IdsOk(s.counter, s.calls) && FuturesOk(s.calls) && AnswersOk(s.log, s.calls)
    requires c < |s.calls| && CallerMay(s.calls[c], move)
    ensures IdsOk(CallerStep(s, c, move).counter, CallerStep(s, c, move).calls)
    ensures FuturesOk(CallerStep(s, c, move).calls)
    ensures AnswersOk(s.log, CallerStep(s, c, move).calls) && CallerStep(s, c, move).log == s.log
  {
    hide CallAfter, CallerMay, IdFits, FutureOk, ReplyOk, Bump, IsFirst;
    var duplicate := s.calls[c].id.Some? && s.calls[c].id.value in s.pending;
    CallMoves(s.calls[c], move, s.counter, duplicate);
    IdsUpdate(s.counter, CallerStep(s, c, move).counter, s.calls, c, CallAfter(s.calls[c], move, s.counter, duplicate));
  }

  /** An id is put into the node once, by the call it was given to. */
  lemma CallerKeepsSubmitted(s: State, c: nat, move: CallerMove)
    requires IdsOk(s.counter, s.calls) && SubmittedOk(s.counter, s.calls, s.submitted)
    requires NodeOk(s.inbox, s.updating, s.lastId, s.log, s.submitted)
    requires c < |s.calls| && CallerMay(s.calls[c], move)
    ensures var t := CallerStep(s, c, move);
      SubmittedOk(t.counter, t.calls, t.submitted) && NodeOk(t.inbox, t.updating, t.lastId, t.log, t.submitted)
  {
    hide Bump;
    assert IdFits(s.counter, s.calls[c]) && NotYetSubmitted(s.calls[c], s.submitted);
    var t := CallerStep(s, c, move);
    forall d | 0 <= d < |t.calls|
      ensures NotYetSubmitted(t.calls[d], t.submitted)
    {
      assert NotYetSubmitted(s.calls[d], s.submitted);
    }
  }

  lemma CallerKeepsPending(s: State, c: nat, move: CallerMove)
    requires IdsOk(s.counter, s.calls) && FuturesOk(s.calls) && PendingOk(s.pending, s.calls)
    requires c < |s.calls| && CallerMay(s.calls[c], move)
    ensures PendingOk(CallerStep(s, c, move).pending, CallerStep(s, c, move).calls)
  {
    hide Bump;
    assert IdFits(s.counter, s.calls[c]) && FutureOk(s.calls[c]);
    var t := CallerStep(s, c, move);
    forall i | i in t.pending
      ensures t.pending[i] < |t.calls| && Awaits(t.calls[t.pending[i]], i)
    {
      if i in s.pending {
        assert Awaits(s.calls[s.pending[i]], i);
      }
    }
  }

  /** A newly registered id is in no message that has been transmitted. */
  lemma CallerKeepsHandled(s: State, c: nat, move: CallerMove)
    requires SubmittedOk(s.counter, s.calls, s.submitted) && NodeOk(s.inbox, s.updating, s.lastId, s.log, s.submitted)
    requires HandledOk(s.log, s.handled, s.pending)
    requires c < |s.calls| && CallerMay(s.calls[c], move)
    ensures HandledOk(s.log, s.handled, CallerStep(s, c, move).pending)
  {
    hide Bump;
    assert NotYetSubmitted(s.calls[c], s.submitted);
  }

  lemma CallerKeepsCompleting(s: State, c: nat, move: CallerMove)
    requires IdsOk(s.counter, s.calls) && CompletingOk(s.log, s.dispatcher, s.pending, s.calls)
    requires c < |s.calls| && CallerMay(s.calls[c], move)
    ensures CompletingOk(s.log, s.dispatcher, CallerStep(s, c, move).pending, CallerStep(s, c, move).calls)
  {
    hide Bump, IsFirst;
  }

  lemma CallerKeepsStats(s: State, c: nat, move: CallerMove)
    requires StatsOk(s) && c < |s.calls| && CallerMay(s.calls[c], move)
    ensures StatsOk(CallerStep(s, c, move))
  {
    hide Tally;
    var after := CallerStep(s, c, move).calls[c];
    TallyUpdate(s.calls, c, after, Succeeded);
    TallyUpdate(s.calls, c, after, Expired);
    TallyUpdate(s.calls, c, after, Rejected);
    TallyUpdate(s.calls, c, after, Broken);
  }

  lemma CallerKeepsInv(s: State, c: nat, move: CallerMove)
    requires Inv(s) && c < |s.calls| && CallerMay(s.calls[c], move)
    ensures Inv(CallerStep(s, c, move))
  {
    hide IdsOk, SubmittedOk, NodeOk, PendingOk, FuturesOk, QueueOk, HandledOk, CompletingOk, AnswersOk, StatsOk,
      CallAfter, CallerMay, Bump;
    CallerKeepsIds(s, c, move);
    CallerKeepsSubmitted(s, c, move);
    CallerKeepsPending(s, c, move);
    CallerKeepsHandled(s, c, move);
    CallerKeepsCompleting(s, c, move);
    CallerKeepsStats(s, c, move);
  }

  // ----- the node's steps -----

  lemma FirstStays(log: seq<Sent>, more: Sent, id: int, m: Message)
    requires IsFirst(log, id, m)
    ensures IsFirst(log + [more], id, m)
  {
    var k :| 0 <= k < |log| && log[k] == Sent(id, m) && forall j :: 0 <= j < k ==> log[j].request != id;
    assert (log + [more])[k] == Sent(id, m);
  }

  lemma NodeKeepsInv(s: State, work: NodeMove)
    requires Inv(s) && NodeMay(s, work)
    ensures Inv(NodeStep(s, work))
  {
    hide IdsOk, SubmittedOk, PendingOk, FuturesOk, StatsOk, QueueOk, AnswersOk, HandledOk, CompletingOk;
    StatsFrame(s, NodeStep(s, work));
    match work
    case Take =>
      assert forall i :: i in s.inbox[1..] ==> i in s.inbox;
      var head: int := s.inbox[0];
      assert head in s.inbox && head in s.submitted;
    case Transmit(m) => TransmitKeepsInv(s, m);
    case Finish =>
  }

  lemma TransmitKeepsInv(s: State, message: Message)
    requires Inv(s) && NodeMay(s, Transmit(message))
    ensures Inv(NodeStep(s, Transmit(message)))
  {
    hide IdsOk, SubmittedOk, PendingOk, FuturesOk, IsFirst, StatsOk, ReplyOk, QueueOk;
    var t := NodeStep(s, Transmit(message));
    var more := Sent(s.updating.value, message.(dataSource := s.lastId));
    assert t.log == s.log + [more] && t.queue == s.queue + [more.message];
    StatsFrame(s, t);
    QueueGrows(s.log, s.handled, s.dispatcher, s.queue, more);
    forall id, m | IsFirst(s.log, id, m)
      ensures IsFirst(t.log, id, m)
    {
      FirstStays(s.log, more, id, m);
    }
    forall c | 0 <= c < |s.calls|
      ensures AnsweredOk(t.log, s.calls[c]) && ReplyOk(s.calls[c])
    {
      assert AnsweredOk(s.log, s.calls[c]);
    }
  }

  lemma QueueGrows(log: seq<Sent>, handled: nat, dispatcher: DispatcherPc, queue: seq<Message>, more: Sent)
    requires QueueOk(log, handled, dispatcher, queue)
    ensures QueueOk(log + [more], handled, dispatcher, queue + [more.message])
  {
    var ahead := InHand(dispatcher) + queue;
    assert InHand(dispatcher) + (queue + [more.message]) == ahead + [more.message];
    forall k | 0 <= k < |ahead| + 1
      ensures (ahead + [more.message])[k] == (log + [more])[handled + k].message
    {
      if k < |ahead| {
        assert ahead[k] == log[handled + k].message;
      }
    }
  }

  lemma StatsFrame(s: State, t: State)
    requires StatsOk(s) && t.stats == s.stats && t.calls == s.calls
    ensures StatsOk(t)
  {
  }

  // ----- the dispatcher's steps -----

  /** The message in hand is the first one for its request, if that request is still pending. */
  lemma InHandIsFirst(s: State)
    requires SubmittedOk(s.counter, s.calls, s.submitted) && NodeOk(s.inbox, s.updating, s.lastId, s.log, s.submitted)
    requires QueueOk(s.log, s.handled, s.dispatcher, s.queue) && HandledOk(s.log, s.handled, s.pending)
    requires s.dispatcher.Holding?
    ensures s.handled < |s.log| && s.dispatcher.message.dataSource == Some(s.log[s.handled].request)
      && s.log[s.handled].request >= 1
    ensures s.log[s.handled].request in s.pending ==> IsFirst(s.log, s.log[s.handled].request, s.dispatcher.message)
  {
    var ahead := InHand(s.dispatcher) + s.queue;
    assert ahead[0] == s.log[s.handled + 0].message;
    var entry := s.log[s.handled];
    assert entry == Sent(entry.request, s.dispatcher.message);
  }

  lemma FetchKeepsInv(s: State)
    requires Inv(s) && DispatcherMay(s, Fetch)
    ensures Inv(DispatcherStep(s, Fetch))
  {
    hide IdsOk, SubmittedOk, NodeOk, PendingOk, FuturesOk, HandledOk, AnswersOk, StatsOk;
    StatsFrame(s, DispatcherStep(s, Fetch));
    assert [s.queue[0]] + s.queue[1..] == [] + s.queue;
  }

  lemma LookupKeepsInv(s: State)
    requires Inv(s) && DispatcherMay(s, Lookup)
    ensures Inv(DispatcherStep(s, Lookup))
  {
    hide IdsOk, SubmittedOk, NodeOk, FuturesOk, AnswersOk, StatsOk, IsFirst;
    var t := DispatcherStep(s, Lookup);
    StatsFrame(s, t);
    InHandIsFirst(s);
    var id := s.log[s.handled].request;
    assert id in s.pending ==> Awaits(s.calls[s.pending[id]], id);
    forall k | 0 <= k < |s.queue|
      ensures s.queue[k] == s.log[s.handled + 1 + k].message
    {
      assert (InHand(s.dispatcher) + s.queue)[k + 1] == s.log[s.handled + (k + 1)].message;
    }
  }

  lemma CompleteKeepsInv(s: State)
    requires Inv(s) && DispatcherMay(s, Complete)
    ensures Inv(DispatcherStep(s, Complete))
  {
    hide IsFirst, StatsOk;
    var c := s.dispatcher.call;
    var t := DispatcherStep(s, Complete);
    assert FutureOk(s.calls[c]) && ReplyOk(s.calls[c]) && IdFits(s.counter, s.calls[c]);
    KindsFrame(s, t);
    PendingElsewhere(s.pending, s.calls, c, t.calls[c]);
  }

  lemma PendingElsewhere(pending: map<int, nat>, calls: seq<Call>, c: nat, after: Call)
    requires PendingOk(pending, calls) && c < |calls| && calls[c].id.Some? && calls[c].id.value !in pending
    ensures PendingOk(pending, calls[c := after])
  {
    forall i | i in pending
      ensures pending[i] != c && Awaits(calls[pending[i]], i)
    {
    }
  }

  lemma KindsFrame(s: State, t: State)
    requires StatsOk(s) && t.stats == s.stats && |t.calls| == |s.calls|
    requires forall c :: 0 <= c < |s.calls| ==> KindOf(t.calls[c]) == KindOf(s.calls[c])
    ensures StatsOk(t)
  {
    TallySame(s.calls, t.calls, Succeeded);
    TallySame(s.calls, t.calls, Expired);
    TallySame(s.calls, t.calls, Rejected);
    TallySame(s.calls, t.calls, Broken);
  }

  lemma DispatcherKeepsInv(s: State, op: DispatcherMove)
    requires Inv(s) && DispatcherMay(s, op)
    ensures Inv(DispatcherStep(s, op))
  {
    match op
    case Fetch => FetchKeepsInv(s);
    case Lookup => LookupKeepsInv(s);
    case Complete => CompleteKeepsInv(s);
    case Quit => StatsFrame(s, DispatcherStep(s, Quit));
  }

  // ----- the cleaner and the shutdown -----

  /** A cancelled entry's future had not been completed, and is from now on no one else's to complete. */
  lemma CancelKeepsCalls(s: State, ids: set<int>, c: nat)
    requires PendingOk(s.pending, s.calls) && c < |s.calls|
    requires IdFits(s.counter, s.calls[c]) && FutureOk(s.calls[c]) && ReplyOk(s.calls[c])
      && AnsweredOk(s.log, s.calls[c])
    ensures var after := CancelAll(s, ids).calls[c];
      && after.pc == s.calls[c].pc && after.id == s.calls[c].id
      && IdFits(s.counter, after) && FutureOk(after) && ReplyOk(after) && AnsweredOk(s.log, after)
      && (Concerned(s, ids, c) ==> s.calls[c].future.Unset? && after.future == TimedOut)
      && (!Concerned(s, ids, c) ==> after == s.calls[c])
  {
    if Concerned(s, ids, c) {
      assert Awaits(s.calls[c], s.calls[c].id.value);
    }
  }

  lemma CancelKeepsInv(s: State, ids: set<int>)
    requires Inv(s)
    ensures Inv(CancelAll(s, ids))
  {
    hide IdFits, FutureOk, ReplyOk, AnsweredOk, IsFirst, QueueOk, NodeOk, StatsOk, KindOf;
    var t := CancelAll(s, ids);
    forall c | 0 <= c < |s.calls|
      ensures t.calls[c].pc == s.calls[c].pc && t.calls[c].id == s.calls[c].id
      ensures IdFits(t.counter, t.calls[c]) && FutureOk(t.calls[c]) && ReplyOk(t.calls[c])
        && AnsweredOk(t.log, t.calls[c])
      ensures Concerned(s, ids, c) || t.calls[c] == s.calls[c]
    {
      CancelKeepsCalls(s, ids, c);
    }
    CancelKeepsPending(s, ids);
    CancelKeepsKinds(s, ids);
    KindsFrame(s, t);
  }

  lemma CancelKeepsKinds(s: State, ids: set<int>)
    ensures forall c :: 0 <= c < |s.calls| ==> KindOf(CancelAll(s, ids).calls[c]) == KindOf(s.calls[c])
  {
  }

  lemma CancelKeepsPending(s: State, ids: set<int>)
    requires PendingOk(s.pending, s.calls)
    ensures PendingOk(CancelAll(s, ids).pending, CancelAll(s, ids).calls)
  {
    var t := CancelAll(s, ids);
    forall i | i in t.pending
      ensures t.pending[i] < |t.calls| && Awaits(t.calls[t.pending[i]], i)
    {
      assert Awaits(s.calls[s.pending[i]], i);
    }
  }

  // ----- every run -----

  lemma ReceiveKeepsInv(s: State)
    requires Inv(s)
    ensures Inv(Apply(s, Receive))
  {
    hide IsFirst, QueueOk, NodeOk, HandledOk, StatsOk, IdFits, FutureOk, ReplyOk, AnsweredOk;
    NewcomerIsOk(s.counter, s.log);
    ReceiveKeepsStats(s);
    var t := Apply(s, Receive);
    assert PendingOk(t.pending, t.calls) by {
      forall i | i in s.pending
        ensures Awaits(t.calls[s.pending[i]], i)
      {
        assert Awaits(s.calls[s.pending[i]], i);
      }
    }
  }

  lemma NewcomerIsOk(counter: int, log: seq<Sent>)
    ensures var call := Call(Received, None, Unset, 0);
      IdFits(counter, call) && FutureOk(call) && ReplyOk(call) && AnsweredOk(log, call)
  {
  }

  lemma ReceiveKeepsStats(s: State)
    requires StatsOk(s)
    ensures StatsOk(Apply(s, Receive))
  {
    var t := Apply(s, Receive);
    assert t.calls[..|s.calls|] == s.calls;
  }

  lemma StepKeepsInv(s: State, a: Action)
    requires Inv(s) && Enabled(s, a)
    ensures Inv(Apply(s, a))
  {
    match a
    case Receive => ReceiveKeepsInv(s);
    case Caller(c, move) => CallerKeepsInv(s, c, move);
    case Node(work) => NodeKeepsInv(s, work);
    case Dispatcher(op) => DispatcherKeepsInv(s, op);
    case Expire(ids) => CancelKeepsInv(s, ids);
    case RequestStop => StatsFrame(s, Apply(s, a));
    case ShutdownClear => CancelKeepsInv(s, s.pending.Keys);
  }

  lemma InitHasInv()
    ensures Inv(Init())
  {
  }

  lemma {:induction false} RunKeepsInv(states: seq<State>, actions: seq<Action>, n: nat)
    requires Run(states, actions) && n < |states|
    ensures Inv(states[n])
  {
    hide Inv, Apply, Enabled;
    if n == 0 {
      InitHasInv();
    } else {
      RunKeepsInv(states, actions, n - 1);
      StepKeepsInv(states[n - 1], actions[n - 1]);
    }
  }

  // ----- what that means for callers -----

  /** Correlation: a call that succeeds returns the first message the node transmitted while it was updating
    * that call's own request, and no other call has that request's id. However many calls, timeouts,
    * clean-ups and late outputs there are, no answer reaches anyone else. */
  lemma ResponsesAreCorrelated(states: seq<State>, actions: seq<Action>, n: nat, c: nat)
    requires Run(states, actions) && n < |states| && c < |states[n].calls| && states[n].calls[c].pc.Done?
    requires states[n].calls[c].pc.outcome.Success?
    ensures var s, call := states[n], states[n].calls[c];
      && call.id.Some? && IsFirst(s.log, call.id.value, call.pc.outcome.response)
      && call.pc.outcome.response.dataSource == call.id
      && forall d :: 0 <= d < |s.calls| && d != c ==> s.calls[d].id != call.id
  {
    RunKeepsInv(states, actions, n);
    var s, call := states[n], states[n].calls[c];
    assert ReplyOk(call) && AnsweredOk(s.log, call);
    var k :| 0 <= k < |s.log| && s.log[k] == Sent(call.id.value, call.pc.outcome.response);
    forall d | 0 <= d < |s.calls| && d != c
      ensures s.calls[d].id != call.id
    {
      var lo, hi := if c < d then c else d, if c < d then d else c;
      assert s.calls[lo].id.None? || s.calls[lo].id != s.calls[hi].id;
    }
  }

  /** The dispatcher looks at the node's outputs one by one in the order they were transmitted, and an output that is
    * not the first for its request, be it equal to the first or not, is dropped: nothing else changes. */
  lemma LaterOutputsAreDropped(states: seq<State>, actions: seq<Action>, n: nat)
    requires Run(states, actions) && n < |actions| && actions[n] == Dispatcher(Lookup)
    ensures var s := states[n];
      && s.handled < |s.log| && s.dispatcher.message == s.log[s.handled].message
      && s.dispatcher.message.dataSource == Some(s.log[s.handled].request) && states[n + 1].handled == s.handled + 1
    ensures var s := states[n];
      (exists j :: 0 <= j < s.handled && s.log[j].request == s.log[s.handled].request)
      ==> states[n + 1] == s.(dispatcher := Idle, handled := s.handled + 1)
  {
    hide IdsOk, SubmittedOk, NodeOk, PendingOk, FuturesOk, CompletingOk, AnswersOk, StatsOk, IsFirst;
    RunKeepsInv(states, actions, n);
    var s := states[n];
    InHandIsFirst(s);
    assert (InHand(s.dispatcher) + s.queue)[0] == s.log[s.handled + 0].message;
  }

  /** A future is completed at most once, and whoever completes one finds it open: the dispatcher the one it
    * has taken out, the cleaner and the shutdown those they take out. */
  lemma FuturesCompleteOnce(states: seq<State>, actions: seq<Action>, n: nat, c: nat)
    requires Run(states, actions) && n < |states| && c < |states[n].calls|
    ensures states[n].calls[c].settled <= 1
    ensures states[n].calls[c].settled == 1 <==> !states[n].calls[c].future.Unset?
    ensures n < |actions| && actions[n] == Dispatcher(Complete) && states[n].dispatcher.call == c ==>
        states[n].calls[c].future.Unset?
    ensures forall ids :: Concerned(states[n], ids, c) ==> states[n].calls[c].future.Unset?
  {
    RunKeepsInv(states, actions, n);
    var s := states[n];
    assert FutureOk(s.calls[c]);
    forall ids | Concerned(s, ids, c)
      ensures s.calls[c].future.Unset?
    {
      assert Awaits(s.calls[c], s.calls[c].id.value);
    }
  }

  /** Every pending id belongs to one call, which is still in flight and has not been answered; an id is never
    * registered twice. */
  lemma PendingIdsAreInFlight(states: seq<State>, actions: seq<Action>, n: nat)
    requires Run(states, actions) && n < |states|
    ensures var s := states[n]; forall i :: i in s.pending ==>
        && s.pending[i] < |s.calls| && s.calls[s.pending[i]].id == Some(i) && MayWait(s.calls[s.pending[i]])
        && s.calls[s.pending[i]].future.Unset?
        && forall d :: 0 <= d < |s.calls| && s.calls[d].id == Some(i) ==> d == s.pending[i]
    ensures var s := states[n]; forall c :: 0 <= c < |s.calls| && s.calls[c].pc.Tagged? ==>
        s.calls[c].id.Some? && s.calls[c].id.value !in s.pending
  {
    RunKeepsInv(states, actions, n);
    var s := states[n];
    assert forall i :: i in s.pending ==> Awaits(s.calls[s.pending[i]], i);
    forall c | 0 <= c < |s.calls| && s.calls[c].pc.Tagged?
      ensures s.calls[c].id.Some? && s.calls[c].id.value !in s.pending
    {
      assert IdFits(s.counter, s.calls[c]);
    }
  }

  function OfKind(calls: seq<Call>, kind: Kind): set<int>
  {
    set c | 0 <= c < |calls| && KindOf(calls[c]) == kind
  }

  lemma {:induction false} TallyCounts(calls: seq<Call>, kind: Kind)
    ensures Tally(calls, kind) == |OfKind(calls, kind)|
  {
    hide KindOf;
    if calls != [] {
      var init := calls[..|calls| - 1];
      TallyCounts(init, kind);
      OneMoreOfKind(init, calls[|calls| - 1], kind);
      assert calls == init + [calls[|calls| - 1]];
    }
  }

  lemma OneMoreOfKind(calls: seq<Call>, call: Call, kind: Kind)
    ensures OfKind(calls + [call], kind) == OfKind(calls, kind) + (if KindOf(call) == kind then {|calls|} else {})
  {
    hide KindOf;
  }

  /** The books balance in every reachable state: each counter is the number of calls that ended in its way, and all
    * requests are successful, timed out, invalid, failed or still in flight. The published counter `timeouts` stays
    * at zero whatever happens. */
  lemma StatisticsBalance(states: seq<State>, actions: seq<Action>, n: nat)
    requires Run(states, actions) && n < |states|
    ensures var s := states[n]; var calls := s.calls;
      && Stat(s.stats, "total_requests") == |calls|
      && Stat(s.stats, "successful_requests")
         == |set c | 0 <= c < |calls| && calls[c].pc.Done? && calls[c].pc.outcome.Success?|
      && Stat(s.stats, "timeout_requests") == |set c | 0 <= c < |calls| && calls[c].pc == Done(Timeout)|
      && Stat(s.stats, "invalid_requests") == |set c | 0 <= c < |calls| && calls[c].pc == Done(Invalid)|
      && Stat(s.stats, "failed_requests") == |set c | 0 <= c < |calls| && calls[c].pc == Done(Failed)|
      && Stat(s.stats, "timeouts") == 0
    ensures var s := states[n];
      Stat(s.stats, "total_requests")
      == Stat(s.stats, "successful_requests") + Stat(s.stats, "timeout_requests") + Stat(s.stats, "invalid_requests")
         + Stat(s.stats, "failed_requests") + |set c | 0 <= c < |s.calls| && InFlight(s.calls[c])|
  {
    RunKeepsInv(states, actions, n);
    var calls := states[n].calls;
    TallyCoversAll(calls);
    CountsByKind(calls);
  }

  lemma CountsByKind(calls: seq<Call>)
    ensures Tally(calls, Succeeded) == |set c | 0 <= c < |calls| && calls[c].pc.Done? && calls[c].pc.outcome.Success?|
    ensures Tally(calls, Expired) == |set c | 0 <= c < |calls| && calls[c].pc == Done(Timeout)|
    ensures Tally(calls, Rejected) == |set c | 0 <= c < |calls| && calls[c].pc == Done(Invalid)|
    ensures Tally(calls, Broken) == |set c | 0 <= c < |calls| && calls[c].pc == Done(Failed)|
    ensures Tally(calls, Running) == |set c | 0 <= c < |calls| && InFlight(calls[c])|
  {
    hide Tally;
    TallyCounts(calls, Succeeded);
    TallyCounts(calls, Expired);
    TallyCounts(calls, Rejected);
    TallyCounts(calls, Broken);
    TallyCounts(calls, Running);
    assert OfKind(calls, Succeeded)
      == set c | 0 <= c < |calls| && calls[c].pc.Done? && calls[c].pc.outcome.Success?;
    assert OfKind(calls, Expired) == set c | 0 <= c < |calls| && calls[c].pc == Done(Timeout);
    assert OfKind(calls, Rejected) == set c | 0 <= c < |calls| && calls[c].pc == Done(Invalid);
    assert OfKind(calls, Broken) == set c | 0 <= c < |calls| && calls[c].pc == Done(Failed);
    assert OfKind(calls, Running) == set c | 0 <= c < |calls| && InFlight(calls[c]);
  }
}
