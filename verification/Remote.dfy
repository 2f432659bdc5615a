/** The remote service around one node: many callers, one dispatcher, one cleaner and a shutdown share a map
  * of pending requests. Each locked block, queue operation and future operation is one step. */
module Remotes {
  import opened Messages

  datatype Future = Unset | Answered(message: Message) | TimedOut

  datatype Outcome = Success(response: Message) | Timeout | Invalid | Failed

  /** Where a caller stands in `SendAndReceive`. */
  datatype CallPc =
    | Received
    | Tagged
    | Registered
    | Waiting
    | Leaving(got: Option<Message>)
    | Replying(response: Message)
    | Raising
    | Done(outcome: Outcome)

  /** `settled` counts how often the future was completed. */
  datatype Call = Call(pc: CallPc, id: Option<int>, future: Future, settled: nat)

  datatype Parsed = Readable | BadValue | Unreadable

  datatype DispatcherPc = Idle | Holding(message: Message) | Completing(call: nat, response: Message) | Ended

  /** A transmission, with the id of the request the node was updating when it made it. */
  datatype Sent = Sent(request: int, message: Message)

  /** `inbox` is everything between the node's `put` and its `update`, which a passthrough node keeps in one
    * first-in first-out order. `submitted`, `log` and `handled` are history: the ids put so far, all
    * transmissions so far, and how many of them the dispatcher is done with. */
  datatype State = State(
    counter: int,
    calls: seq<Call>,
    pending: map<int, nat>,
    stats: map<string, int>,
    inbox: seq<int>,
    updating: Option<int>,
    lastId: Option<int>,
    queue: seq<Message>,
    dispatcher: DispatcherPc,
    stopping: bool,
    submitted: set<int>,
    log: seq<Sent>,
    handled: nat)

  datatype CallerMove =
    | Parse(parsed: Parsed)
    | Register(hasSender: bool)
    | Submit(kept: bool)
    | Collect
    | GiveUp
    | Leave
    | Reply(encodes: bool)

  datatype NodeMove = Take | Transmit(message: Message) | Finish

  datatype DispatcherMove = Fetch | Lookup | Complete | Quit

  datatype Action =
    | Receive
    | Caller(call: nat, move: CallerMove)
    | Node(work: NodeMove)
    | Dispatcher(op: DispatcherMove)
    | Expire(ids: set<int>)
    | RequestStop
    | ShutdownClear

  function Bump(stats: map<string, int>, name: string): map<string, int>
  {
    stats[name := Stat(stats, name) + 1]
  }

  function Stat(stats: map<string, int>, name: string): int
  {
    if name in stats then stats[name] else 0
  }

  function StatName(outcome: Outcome): string
  {
    match outcome
    case Success(_) => "successful_requests"
    case Timeout => "timeout_requests"
    case Invalid => "invalid_requests"
    case Failed => "failed_requests"
  }

  function Init(): State
  {
    State(1, [], map[],
          map["total_requests" := 0, "successful_requests" := 0, "failed_requests" := 0, "timeouts" := 0],
          [], None, None, [], Idle, false, {}, [], 0)
  }

  function Settle(call: Call, future: Future): Call
  {
    call.(future := future, settled := call.settled + 1)
  }

  /** Cancelling leaves a completed future alone. */
  function Cancelled(call: Call): Call
  {
    if call.future.Unset? then Settle(call, TimedOut) else call
  }

  /** Whether the pending entry of one of these ids is this call's. */
  predicate Concerned(s: State, ids: set<int>, c: nat)
    requires c < |s.calls|
  {
    var id := s.calls[c].id;
    id.Some? && id.value in ids && id.value in s.pending && s.pending[id.value] == c
  }

  /** One locked block that takes the given entries out and cancels their futures. */
  function CancelAll(s: State, ids: set<int>): State
  {
    s.(calls := seq(|s.calls|, c requires 0 <= c < |s.calls| =>
                  if Concerned(s, ids, c) then Cancelled(s.calls[c]) else s.calls[c]),
       pending := s.pending - ids)
  }

  predicate CallerMay(call: Call, move: CallerMove)
  {
    match move
    case Parse(_) => call.pc.Received?
    case Register(_) => call.pc.Tagged? && call.id.Some?
    case Submit(_) => call.pc.Registered? && call.id.Some?
    case Collect => call.pc.Waiting? && !call.future.Unset?
    case GiveUp => call.pc.Waiting? && call.future.Unset?
    case Leave => call.pc.Leaving? && call.id.Some?
    case Reply(_) => call.pc.Replying? || call.pc.Raising?
  }

  /** `SendAndReceive`, from one shared access to the next, as the call itself sees it: `counter` is the next
    * id, `duplicate` says whether its own id is already pending. */
  function CallAfter(call: Call, move: CallerMove, counter: int, duplicate: bool): Call
    requires CallerMay(call, move)
  {
    match move
    case Parse(Readable) => call.(pc := Tagged, id := Some(counter))
    case Parse(BadValue) => call.(pc := Done(Invalid))
    case Parse(Unreadable) => call.(pc := Done(Failed))
    case Register(hasSender) => call.(pc := if !hasSender || duplicate then Done(Invalid) else Registered)
    case Submit(_) => call.(pc := Waiting)
    case Collect => call.(pc := Leaving(if call.future.Answered? then Some(call.future.message) else None))
    case GiveUp => call.(pc := Leaving(None))
    case Leave => call.(pc := if call.pc.got.Some? then Replying(call.pc.got.value) else Raising)
    case Reply(encodes) =>
      call.(pc := Done(if call.pc.Raising? then Timeout else if encodes then Success(call.pc.response) else Failed))
  }

  /** The same step with what it does to the shared state. A call that ends is counted under its outcome. */
  function CallerStep(s: State, c: nat, move: CallerMove): State
    requires c < |s.calls| && CallerMay(s.calls[c], move)
  {
    var call := s.calls[c];
    var after := CallAfter(call, move, s.counter, call.id.Some? && call.id.value in s.pending);
    var stats := if after.pc.Done? then Bump(s.stats, StatName(after.pc.outcome)) else s.stats;
    var t := s.(calls := s.calls[c := after], stats := stats);
    match move
    case Parse(Readable) => t.(counter := s.counter + 1)
    case Register(_) => if after.pc.Registered? then t.(pending := s.pending[call.id.value := c]) else t
    case Submit(kept) =>
      t.(inbox := s.inbox + (if kept then [call.id.value] else []), submitted := s.submitted + {call.id.value})
    case Leave => t.(pending := s.pending - {call.id.value})
    case _ => t
  }

  predicate NodeMay(s: State, work: NodeMove)
  {
    match work
    case Take => s.updating.None? && s.inbox != []
    case Transmit(_) => s.updating.Some?
    case Finish => s.updating.Some?
  }

  function NodeStep(s: State, work: NodeMove): State
    requires NodeMay(s, work)
  {
    match work
    case Take => s.(inbox := s.inbox[1..], updating := Some(s.inbox[0]), lastId := Some(s.inbox[0]))
    case Transmit(m) =>
      var stamped := m.(dataSource := s.lastId);
      s.(queue := s.queue + [stamped], log := s.log + [Sent(s.updating.value, stamped)])
    case Finish => s.(updating := None)
  }

  predicate DispatcherMay(s: State, op: DispatcherMove)
  {
    match op
    case Fetch => s.dispatcher.Idle? && s.queue != []
    case Lookup => s.dispatcher.Holding?
    case Complete => s.dispatcher.Completing? && s.dispatcher.call < |s.calls|
    case Quit => s.dispatcher.Idle? && s.stopping
  }

  function DispatcherStep(s: State, op: DispatcherMove): State
    requires DispatcherMay(s, op)
  {
    match op
    case Fetch => s.(queue := s.queue[1..], dispatcher := Holding(s.queue[0]))
    case Lookup =>
      var stamp := s.dispatcher.message.dataSource;
      if stamp.None? || stamp.value == 0 || stamp.value !in s.pending then
        s.(dispatcher := Idle, handled := s.handled + 1)
      else
        s.(dispatcher := Completing(s.pending[stamp.value], s.dispatcher.message),
           pending := s.pending - {stamp.value}, handled := s.handled + 1)
    case Complete =>
      var c := s.dispatcher.call;
      s.(calls := s.calls[c := Settle(s.calls[c], Answered(s.dispatcher.response))], dispatcher := Idle)
    case Quit => s.(dispatcher := Ended)
  }

  predicate Enabled(s: State, a: Action)
  {
    match a
    case Receive => true
    case Caller(c, move) => c < |s.calls| && CallerMay(s.calls[c], move)
    case Node(work) => NodeMay(s, work)
    case Dispatcher(op) => DispatcherMay(s, op)
    case Expire(ids) => ids <= s.pending.Keys
    case RequestStop => true
    case ShutdownClear => s.stopping
  }

  function Apply(s: State, a: Action): State
    requires Enabled(s, a)
  {
    match a
    case Receive => s.(calls := s.calls + [Call(Received, None, Unset, 0)], stats := Bump(s.stats, "total_requests"))
    case Caller(c, move) => CallerStep(s, c, move)
    case Node(work) => NodeStep(s, work)
    case Dispatcher(op) => DispatcherStep(s, op)
    case Expire(ids) => CancelAll(s, ids)
    case RequestStop => s.(stopping := true)
    case ShutdownClear => CancelAll(s, s.pending.Keys)
  }

  ghost predicate Run(states: seq<State>, actions: seq<Action>)
  {
    && |states| == |actions| + 1 && states[0] == Init()
    && forall i :: 0 <= i < |actions| ==>
         Enabled(states[i], actions[i]) && states[i + 1] == Apply(states[i], actions[i])
  }
}
