/** A node's message buffer: what arrives is stored by creator, and after each arrival the policy's choice
  * is popped out and queued for the node. */
module Buffers {
  import opened Graphs
  import opened Messages
  import opened Tables
  import opened Policies

  datatype Policy = Passthrough | Prompter(every: int) | Summarizer(every: int)

  ghost predicate Chooses(policy: Policy, t: Table, marks: seq<Mark>)
  {
    match policy
    case Passthrough => marks == PassthroughMarks(t)
    case Prompter(every) => marks == PrompterMarks(t, every)
    case Summarizer(every) => SummarizerChooses(t, every, marks)
  }

  /** The summarizer's policy reads the topic of every message. */
  ghost predicate Readable(policy: Policy, t: Table)
  {
    policy.Summarizer? ==> forall c :: c in t.lists ==> HaveTopics(t.lists[c])
  }

  /** One arrival: `m` is stored, the policy chooses, and `taken` leaves the buffer. */
  ghost predicate PutStep(policy: Policy, before: Table, m: Message, after: Table, taken: seq<Message>)
  {
    var t := Append(before, m);
    exists marks ::
      && Chooses(policy, t, marks) && MarksOk(t, marks)
      && after == Remaining(t, marks) && taken == Taken(t, marks)
  }

  // ----- a whole run -----

  /** A run from an empty buffer: `tables[n]` is held after `n` arrivals, `taken[n]` left the table at arrival `n`. */
  ghost predicate BufferRun(policy: Policy, arrivals: seq<Message>, tables: seq<Table>, taken: seq<seq<Message>>)
  {
    && |tables| == |arrivals| + 1 && |taken| == |arrivals|
    && tables[0] == Table([], map[]) && (policy.Summarizer? ==> HaveTopics(arrivals))
    && forall n :: 0 <= n < |arrivals| ==> PutStep(policy, tables[n], arrivals[n], tables[n + 1], taken[n])
  }

  /** The arrivals at which something left the table. */
  function Departures(taken: seq<seq<Message>>): seq<nat>
  {
    if taken == [] then []
    else Departures(taken[..|taken| - 1]) + (if Last(taken) == [] then [] else [|taken| - 1])
  }

  /** What is given out for messages that left together: a single one as it is, several as the batch of them. */
  predicate Carries(name: string, given: Message, together: seq<Message>)
  {
    if |together| == 1 then given == together[0]
    else given.payload == Batch(together) && given.creator == name + "_sync" && given.dataSource == None
  }

  /** One message has been given out for each departure, in order. */
  ghost predicate Carried(name: string, taken: seq<seq<Message>>, given: seq<Message>)
  {
    && |given| == |Departures(taken)|
    && forall j :: 0 <= j < |given| ==>
         Departures(taken)[j] < |taken| && Carries(name, given[j], taken[Departures(taken)[j]])
  }

  lemma DeparturesSnoc(taken: seq<seq<Message>>, more: seq<Message>)
    ensures Departures(taken + [more]) == Departures(taken) + (if more == [] then [] else [|taken|])
  {
    assert (taken + [more])[..|taken|] == taken;
  }

  lemma CarriedMore(name: string, taken: seq<seq<Message>>, given: seq<Message>, more: seq<Message>, out: Message)
    requires Carried(name, taken, given)
    ensures more == [] ==> Carried(name, taken + [more], given)
    ensures more != [] && Carries(name, out, more) ==> Carried(name, taken + [more], given + [out])
  {
    hide Carries;
    DeparturesSnoc(taken, more);
    assert Departures(taken) + [] == Departures(taken);
  }

  lemma RunMore(policy: Policy, arrivals: seq<Message>, tables: seq<Table>, taken: seq<seq<Message>>, m: Message,
    after: Table, more: seq<Message>)
    requires BufferRun(policy, arrivals, tables, taken) && PutStep(policy, Last(tables), m, after, more)
    requires policy.Summarizer? ==> m.payload.Object?
    ensures BufferRun(policy, arrivals + [m], tables + [after], taken + [more])
  {
    hide PutStep;
  }

  lemma AppendOk(t: Table, m: Message)
    requires TableOk(t)
    ensures TableOk(Append(t, m))
  {
  }

  lemma {:induction false} FirstMarksFit(t: Table, i: nat, n: int)
    requires TableOk(t) && i <= |t.order|
    ensures MarksOk(t, FirstMarks(t, i, n))
    ensures forall k :: 0 <= k < |FirstMarks(t, i, n)| ==> FirstMarks(t, i, n)[k].creator in t.order[..i]
  {
    if i > 0 {
      FirstMarksFit(t, i - 1, n);
      assert t.order[..i] == t.order[..i - 1] + [t.order[i - 1]];
    }
  }

  lemma UptoFits(s: seq<Message>, topic: string, every: int)
    ensures Within(Upto(Positions(s, topic), every), s) && Increasing(Upto(Positions(s, topic), every))
  {
    PositionsAreExact(s, topic);
  }

  /** Every policy marks each creator at most once, with increasing positions that its list has. */
  lemma ChoicesFit(policy: Policy, t: Table, marks: seq<Mark>)
    requires TableOk(t) && Chooses(policy, t, marks)
    ensures MarksOk(t, marks)
  {
    match policy
    case Passthrough =>
    case Prompter(every) => FirstMarksFit(t, |t.order|, every);
    case Summarizer(every) =>
      if marks != [] {
        var g :| IsBest(t, every, Group(|t.order|, 0), g)
          && marks == [Mark(t.order[g.source], Upto(GroupPositions(t, g), every))];
        UptoFits(ListOf(t, g.source), Topics(ListOf(t, g.source))[g.topic], every);
      }
  }

  /** `arrivals`, `tables`, `taken` and `got` are histories since the last flush: what was put, what the table held
    * before and after each arrival, what left it then, and what the update thread has got.
    *
    * `waiting` is the message with which a thread waits in the put to the out queue. It holds the data lock, so that
    * no other put and no flush can begin. */
  class Buffer {
    const name: string
    const policy: Policy
    const maxsize: int   // of the out queue; zero or less is unbounded
    var data: Table
    var outQueue: seq<Message>
    var waiting: Option<Message>
    ghost var arrivals: seq<Message>
    ghost var tables: seq<Table>
    ghost var taken: seq<seq<Message>>
    ghost var got: seq<Message>

    /** What was got and what is yet to be got are what was given out, one message for each departure from the table. */
    ghost predicate Valid()
      reads this
    {
      && Sound() && BufferRun(policy, arrivals, tables, taken) && data == Last(tables)
      && Carried(name, taken, got + Outgoing())
    }

    ghost predicate Sound()
      reads `data, `outQueue, `waiting
    {
      && TableOk(data) && Readable(policy, data)
      && (maxsize > 0 ==> |outQueue| <= maxsize) && (waiting.Some? ==> !HasRoom(maxsize, outQueue))
    }

    /** What has been given out and not been got yet, in order. */
    function Outgoing(): seq<Message>
      reads `outQueue, `waiting
    {
      outQueue + (if waiting.Some? then [waiting.value] else [])
    }

    constructor (name: string, policy: Policy, maxsize: int)
      ensures Valid() && this.name == name && this.policy == policy && this.maxsize == maxsize
      ensures data == Table([], map[]) && outQueue == [] && waiting == None
    {
      this.name, this.policy, this.maxsize := name, policy, maxsize;
      data, outQueue, waiting := Table([], map[]), [], None;
      arrivals, tables, taken, got := [], [Table([], map[])], [], [];
    }

    /** Stores a message and queues what the policy gives out, or waits with it while the out queue is full. `id` is
      * the id a batch message would get. */
    method Put(m: Message, id: int)
      requires Valid() && waiting == None && (policy.Summarizer? ==> m.payload.Object?)
      modifies `data, `outQueue, `waiting, `arrivals, `tables, `taken
      ensures Valid() && arrivals == old(arrivals) + [m] && |taken| == |old(taken)| + 1
      ensures PutStep(policy, old(data), m, data, Last(taken))
      ensures Last(taken) == [] ==> Outgoing() == old(Outgoing())
      ensures |Last(taken)| == 1 ==> Outgoing() == old(Outgoing()) + Last(taken)
      ensures |Last(taken)| > 1 ==>
          Outgoing() == old(Outgoing()) + [Message(id, name + "_sync", Batch(Last(taken)), None)]
      ensures waiting.Some? <==> Last(taken) != [] && !HasRoom(maxsize, old(outQueue))
    {
      hide Append, Remaining, Taken, Chooses, MarksOk, BufferRun, Carried;
      ghost var given := got + Outgoing();
      Store(m);
      var marks := NextBatch();
      ghost var t := data;
      ChoicesFit(policy, t, marks);
      Consume(marks, id);
      ghost var more := Taken(t, marks);
      assert PutStep(policy, old(data), m, data, more);
      RunMore(policy, arrivals, tables, taken, m, data, more);
      CarriedMore(name, taken, given, more, if more == [] then m else Last(Outgoing()));
      assert got + Outgoing() == if more == [] then given else given + [Last(Outgoing())];
      arrivals, tables, taken := arrivals + [m], tables + [data], taken + [more];
    }

    method Store(m: Message)
      requires Sound() && (policy.Summarizer? ==> m.payload.Object?)
      modifies `data
      ensures Sound() && data == Append(old(data), m)
    {
      if m.creator !in data.lists {
        data := Table(data.order + [m.creator], data.lists[m.creator := []]);
        assert [] + [m] == [m];
      }
      data := data.(lists := data.lists[m.creator := data.lists[m.creator] + [m]]);
      assert data == Append(old(data), m);
      AppendOk(old(data), m);
    }

    method NextBatch() returns (marks: seq<Mark>)
      requires Sound()
      ensures Chooses(policy, data, marks)
    {
      match policy
      case Passthrough => marks := PassthroughMarks(data);
      case Prompter(every) => marks := PrompterNextBatch(data, every);
      case Summarizer(every) => marks := SummarizerNextBatch(data, every);
    }

    /** Takes out what the marks name, popping each creator's positions from the highest down, and queues it. */
    method Consume(marks: seq<Mark>, id: int)
      requires Sound() && waiting == None && MarksOk(data, marks)
      modifies `data, `outQueue, `waiting
      ensures Sound() && data == Remaining(old(data), marks)
      ensures var toSend := Taken(old(data), marks);
        && (toSend == [] ==> Outgoing() == old(outQueue))
        && (|toSend| == 1 ==> Outgoing() == old(outQueue) + toSend)
        && (|toSend| > 1 ==> Outgoing() == old(outQueue) + [Message(id, name + "_sync", Batch(toSend), None)])
        && (waiting.Some? <==> toSend != [] && !HasRoom(maxsize, old(outQueue)))
    {
      hide Remaining, Picked, Unmarked, Backwards, Taken, HaveTopics;
      ghost var was := data;
      NothingTaken(was);
      var toSend: seq<Message> := [];
      RemainingOfNone(was);
      for i := 0 to |marks|
        invariant outQueue == old(outQueue) && waiting == None && data == Remaining(was, marks[..i])
        invariant MarksOk(was, marks[..i]) && toSend == Taken(was, marks[..i])
      {
        TakenStep(was, marks, i);
        RemainingStep(was, marks[..i], marks[i]);
        assert marks[..i] + [marks[i]] == marks[..i + 1];
        var popped, rest := PopAll(data.lists[marks[i].creator], marks[i].positions);
        toSend := toSend + popped;
        data := data.(lists := data.lists[marks[i].creator := rest]);
      }
      assert marks[..|marks|] == marks;
      RemainingOk(was, marks);
      RemainingIsReadable(policy, was, marks);
      GiveOut(toSend, id);
    }

    /** One message is queued as it is, several as one batch message with an id of its own. */
    method GiveOut(toSend: seq<Message>, id: int)
      requires Sound() && waiting == None
      modifies `outQueue, `waiting
      ensures Sound()
      ensures toSend == [] ==> Outgoing() == old(outQueue)
      ensures |toSend| == 1 ==> Outgoing() == old(outQueue) + toSend
      ensures |toSend| > 1 ==> Outgoing() == old(outQueue) + [Message(id, name + "_sync", Batch(toSend), None)]
      ensures waiting.Some? <==> toSend != [] && !HasRoom(maxsize, old(outQueue))
    {
      if toSend == [] {
        return;
      }
      waiting := Some(if |toSend| == 1 then toSend[0] else Message(id, name + "_sync", Batch(toSend), None));
      assert |toSend| == 1 ==> toSend == [toSend[0]];
      var _ := PutOut();
    }

    /** The put to the out queue, as soon as there is room. */
    method PutOut() returns (done: bool)
      requires waiting.Some?
      modifies `outQueue, `waiting
      ensures done == HasRoom(maxsize, old(outQueue)) && Outgoing() == old(Outgoing())
      ensures if done then waiting == None && |outQueue| == |old(outQueue)| + 1
        else waiting == old(waiting) && outQueue == old(outQueue)
    {
      done := HasRoom(maxsize, outQueue);
      if done {
        outQueue := outQueue + [waiting.value];
        waiting := None;
      }
    }

    /** The update thread gets the next message, if there is one; a put that waits goes on. */
    method Get() returns (m: Option<Message>)
      requires Valid()
      modifies `outQueue, `waiting, `got
      ensures Valid()
      ensures if old(outQueue) == [] then m == None && Outgoing() == old(Outgoing()) && got == old(got)
        else m.Some? && [m.value] + Outgoing() == old(Outgoing()) && got == old(got) + [m.value] && waiting == None
    {
      hide BufferRun, Carried;
      if outQueue == [] {
        return None;
      }
      m := Some(outQueue[0]);
      ghost var given := got + Outgoing();
      outQueue := outQueue[1..];
      got := got + [m.value];
      assert got + Outgoing() == given;
      if waiting.Some? {
        var done := PutOut();
      }
    }

    /** Drops everything the buffer holds. */
    method Flush()
      requires waiting == None
      modifies `data, `outQueue, `arrivals, `tables, `taken, `got
      ensures Valid() && data == Table([], map[]) && outQueue == [] && arrivals == []
    {
      arrivals, tables, taken, got := [], [Table([], map[])], [], [];
      data := Table([], map[]);
      while outQueue != []
        modifies `outQueue
        decreases |outQueue|
      {
        outQueue := outQueue[1..];
      }
    }
  }

  lemma NothingTaken(t: Table)
    ensures MarksOk(t, []) && Taken(t, []) == []
  {
  }

  lemma {:induction false} UnmarkedHaveTopics(s: seq<Message>, positions: seq<nat>)
    requires HaveTopics(s)
    ensures HaveTopics(Unmarked(s, positions))
  {
    if s != [] {
      UnmarkedHaveTopics(s[..|s| - 1], positions);
    }
  }

  lemma RemainingIsReadable(policy: Policy, t: Table, marks: seq<Mark>)
    requires Readable(policy, t)
    ensures Readable(policy, Remaining(t, marks))
  {
    forall c | c in t.lists && HaveTopics(t.lists[c])
      ensures HaveTopics(Unmarked(t.lists[c], MarkedIn(marks, c)))
    {
      UnmarkedHaveTopics(t.lists[c], MarkedIn(marks, c));
    }
  }
}
