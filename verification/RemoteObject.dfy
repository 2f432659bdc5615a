/** The remote service as the object it is: the locked blocks that loop over the pending map, and one round of
  * the dispatcher, done in place and shown to be the steps of the same name. */
module RemoteObjects {
  import opened Messages
  import opened Remotes

  class MessagingService {
    var counter: int
    var calls: seq<Call>
    var pendingRequests: map<int, nat>
    var stats: map<string, int>
    var inbox: seq<int>
    var updating: Option<int>
    var lastId: Option<int>
    var dispatchingQueue: seq<Message>
    var dispatcher: DispatcherPc
    var stopEvent: bool

    ghost var submitted: set<int>
    ghost var log: seq<Sent>
    ghost var handled: nat

    ghost function View(): State
      reads this
    {
      State(counter, calls, pendingRequests, stats, inbox, updating, lastId, dispatchingQueue, dispatcher, stopEvent,
            submitted, log, handled)
    }

    constructor ()
      ensures View() == Init()
    {
      counter, calls, pendingRequests := 1, [], map[];
      stats := map["total_requests" := 0, "successful_requests" := 0, "failed_requests" := 0, "timeouts" := 0];
      inbox, updating, lastId, dispatchingQueue := [], None, None, [];
      dispatcher, stopEvent, submitted, log, handled := Idle, false, {}, [], 0;
    }

    /** `RequestContext.cancel`: a future that is done stays as it is. */
    method Cancel(c: nat)
      requires c < |calls|
      modifies `calls
      ensures calls == old(calls)[c := Cancelled(old(calls)[c])]
    {
      if calls[c].future.Unset? {
        calls := calls[c := calls[c].(future := TimedOut, settled := calls[c].settled + 1)];
      }
    }

    /** One pass of the cleaner: whatever is pending and overdue is popped and cancelled. */
    method CleanUp(overdue: set<int>)
      requires forall i :: i in pendingRequests ==> Owned(View(), i)
      modifies `calls, `pendingRequests
      ensures View() == CancelAll(old(View()), overdue * old(pendingRequests).Keys)
    {
      hide CancelAll;
      ghost var was := View();
      var expired := set i | i in pendingRequests && i in overdue;
      ghost var all, done := expired, {};
      CancelNone(was);
      while expired != {}
        invariant done + expired == all && done !! expired && all <= was.pending.Keys
        invariant View() == CancelAll(was, done)
        decreases expired
      {
        SomeMember(expired);
        var id :| id in expired;
        CancelOneMore(was, done, id);
        var c := pendingRequests[id];
        pendingRequests := pendingRequests - {id};
        Cancel(c);
        expired := expired - {id};
        done := done + {id};
      }
      assert done == all == overdue * was.pending.Keys;
    }

    /** The end of the shutdown: every pending future is cancelled, then the map is cleared. */
    method ClearPending()
      requires forall i :: i in pendingRequests ==> Owned(View(), i)
      modifies `calls, `pendingRequests
      ensures View() == CancelAll(old(View()), old(pendingRequests).Keys)
    {
      hide CancelAll;
      ghost var was := View();
      var left := pendingRequests.Keys;
      ghost var done: set<int> := {};
      CancelNone(was);
      while left != {}
        invariant done + left == was.pending.Keys && done !! left
        invariant View() == CancelAll(was, done).(pending := was.pending)
        decreases left
      {
        SomeMember(left);
        var id :| id in left;
        CancelOneMore(was, done, id);
        Cancel(pendingRequests[id]);
        left := left - {id};
        done := done + {id};
      }
      NothingPending(was);
      pendingRequests := map[];
    }

    /** One round of the dispatcher, from its queue to the future. */
    method DispatchOne()
      requires dispatcher.Idle? && dispatchingQueue != []
        && forall i :: i in pendingRequests ==> pendingRequests[i] < |calls|
      modifies `dispatchingQueue, `calls, `pendingRequests, `handled
      ensures var looked := DispatcherStep(DispatcherStep(old(View()), Fetch), Lookup);
        View() == if looked.dispatcher.Completing? then DispatcherStep(looked, Complete) else looked
    {
      var message := dispatchingQueue[0];
      dispatchingQueue := dispatchingQueue[1..];
      handled := handled + 1;
      if message.dataSource.None? || message.dataSource.value == 0 {
        return;
      }
      var id := message.dataSource.value;
      if id in pendingRequests {
        var c := pendingRequests[id];
        pendingRequests := pendingRequests - {id};
        calls := calls[c := calls[c].(future := Answered(message), settled := calls[c].settled + 1)];
      }
    }
  }

  /** A pending entry refers to the call that has its id. */
  ghost predicate Owned(s: State, i: int)
    requires i in s.pending
  {
    s.pending[i] < |s.calls| && s.calls[s.pending[i]].id == Some(i)
  }

  lemma SomeMember(s: set<int>)
    ensures s != {} ==> exists i :: i in s
  {
    assert (forall i :: i !in s) ==> s == {};
  }

  lemma CancelNone(s: State)
    ensures CancelAll(s, {}) == s
  {
    assert CancelAll(s, {}).calls == s.calls;
  }

  lemma NothingPending(s: State)
    ensures CancelAll(s, s.pending.Keys).pending == map[]
  {
  }

  lemma CancelOneMore(s: State, done: set<int>, id: int)
    requires id in s.pending && id !in done && Owned(s, id)
    ensures var t := CancelAll(s, done); var c := s.pending[id];
      && |t.calls| == |s.calls| && id in t.pending && t.pending[id] == c
      && CancelAll(s, done + {id}) == t.(calls := t.calls[c := Cancelled(t.calls[c])], pending := t.pending - {id})
  {
    var t, c := CancelAll(s, done), s.pending[id];
    assert t.calls[c] == s.calls[c];
    assert CancelAll(s, done + {id}).calls == t.calls[c := Cancelled(t.calls[c])];
    assert CancelAll(s, done + {id}).pending == t.pending - {id};
  }
}
