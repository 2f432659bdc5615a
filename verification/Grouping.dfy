/** A buffer under the summarizer's policy, read as plain chunking: every group of messages of one creator
  * and one topic fills up to `every` and leaves. */
module Grouping {
  import opened Graphs
  import opened Messages
  import opened Tables
  import opened Policies
  import opened Buffers
  import opened Batching

  predicate InGroup(m: Message, c: string, topic: string)
  {
    m.creator == c && m.payload.Object? && m.payload.topic == topic
  }

  function OfGroup(s: seq<Message>, c: string, topic: string): seq<Message>
  {
    if s == [] then []
    else OfGroup(s[..|s| - 1], c, topic) + (if InGroup(Last(s), c, topic) then [Last(s)] else [])
  }

  function Others(s: seq<Message>, c: string, topic: string): seq<Message>
  {
    if s == [] then []
    else Others(s[..|s| - 1], c, topic) + (if InGroup(Last(s), c, topic) then [] else [Last(s)])
  }

  function OffTopic(s: seq<Message>, topic: string): seq<Message>
  {
    if s == [] then []
    else OffTopic(s[..|s| - 1], topic) + (if Topic(Last(s)) == topic then [] else [Last(s)])
  }

  // ----- the reference: one list in arrival order, no sources and no indices -----

  predicate Completes(every: int, pending: seq<Message>, m: Message)
  {
    |OfGroup(pending + [m], m.creator, Topic(m))| == every
  }

  /** What is still held after some arrivals. */
  function Pending(every: int, s: seq<Message>): seq<Message>
  {
    if s == [] then []
    else
      var pending := Pending(every, s[..|s| - 1]);
      if Completes(every, pending, Last(s)) then Others(pending + [Last(s)], Last(s).creator, Topic(Last(s)))
      else pending + [Last(s)]
  }

  /** What the last arrival releases: its whole group if it completes it, newest first. */
  function Released(every: int, s: seq<Message>): seq<Message>
    requires s != []
  {
    var pending := Pending(every, s[..|s| - 1]);
    if Completes(every, pending, Last(s)) then Backwards(OfGroup(pending + [Last(s)], Last(s).creator, Topic(Last(s))))
    else []
  }

  // ----- indices against filters -----

  lemma {:induction false} PickedIsOnTopic(s: seq<Message>, topic: string)
    ensures Within(Positions(s, topic), s) && Picked(s, Positions(s, topic)) == OnTopic(s, topic)
  {
    PositionsAreExact(s, topic);
    if s != [] {
      var init := s[..|s| - 1];
      PickedIsOnTopic(init, topic);
      assert Picked(s, Positions(init, topic)) == Picked(init, Positions(init, topic));
    }
  }

  lemma {:induction false} UnmarkedIsOffTopic(s: seq<Message>, topic: string, k: nat)
    requires k <= |s|
    ensures Unmarked(s[..k], Positions(s, topic)) == OffTopic(s[..k], topic)
  {
    if k > 0 {
      UnmarkedIsOffTopic(s, topic, k - 1);
      PositionsAreExact(s, topic);
      assert s[..k][..k - 1] == s[..k - 1];
    }
  }

  lemma {:induction false} GroupIsTopicOfCreator(s: seq<Message>, c: string, topic: string)
    requires HaveTopics(s)
    ensures OnTopic(FromCreator(s, c), topic) == OfGroup(s, c, topic)
  {
    if s != [] {
      var init := s[..|s| - 1];
      var mine := FromCreator(init, c);
      GroupIsTopicOfCreator(init, c, topic);
      Snoc(mine, Last(s));
      assert mine + [] == mine && OfGroup(init, c, topic) + [] == OfGroup(init, c, topic);
    }
  }

  lemma OthersSnoc(s: seq<Message>, m: Message, c: string, topic: string)
    ensures Others(s + [m], c, topic)
      == if InGroup(m, c, topic) then Others(s, c, topic) else Others(s, c, topic) + [m]
  {
    Snoc(s, m);
    assert Others(s, c, topic) + [] == Others(s, c, topic);
  }

  lemma OffTopicSnoc(s: seq<Message>, m: Message, topic: string)
    ensures OffTopic(s + [m], topic) == if Topic(m) == topic then OffTopic(s, topic) else OffTopic(s, topic) + [m]
  {
    Snoc(s, m);
    assert OffTopic(s, topic) + [] == OffTopic(s, topic);
  }

  lemma {:induction false} OthersByCreator(s: seq<Message>, c: string, topic: string, d: string)
    requires HaveTopics(s)
    ensures FromCreator(Others(s, c, topic), d)
      == if d == c then OffTopic(FromCreator(s, d), topic) else FromCreator(s, d)
  {
    if s != [] {
      hide Others, OffTopic, FromCreator;
      var init, m := s[..|s| - 1], Last(s);
      assert s == init + [m];
      OthersByCreator(init, c, topic, d);
      OthersSnoc(init, m, c, topic);
      FromCreatorSnoc(init, m, d);
      FromCreatorSnoc(Others(init, c, topic), m, d);
      OffTopicSnoc(FromCreator(init, d), m, topic);
    }
  }

  lemma {:induction false} OthersAreHeld(s: seq<Message>, c: string, topic: string)
    ensures forall m :: m in Others(s, c, topic) ==> m in s
  {
    if s != [] {
      OthersAreHeld(s[..|s| - 1], c, topic);
    }
  }

  // ----- one arrival -----

  ghost predicate Small(every: int, held: seq<Message>)
  {
    forall c, topic :: |OfGroup(held, c, topic)| < every
  }

  lemma GroupSize(t: Table, creators: seq<string>, held: seq<Message>, g: Group)
    requires Holds(t, creators, held) && InTable(t, g) && HaveTopics(held)
    ensures |GroupPositions(t, g)| == |OfGroup(held, t.order[g.source], Topics(ListOf(t, g.source))[g.topic])|
  {
    PickedIsOnTopic(ListOf(t, g.source), Topics(ListOf(t, g.source))[g.topic]);
    GroupIsTopicOfCreator(held, t.order[g.source], Topics(ListOf(t, g.source))[g.topic]);
  }

  /** When all groups were small, only the group of the new message can be eligible. */
  lemma OnlyItsGroup(every: int, t: Table, creators: seq<string>, held: seq<Message>, m: Message, g: Group)
    requires Holds(t, creators, held + [m]) && Small(every, held) && Eligible(t, every, g) && HaveTopics(held + [m])
    ensures t.order[g.source] == m.creator && Topics(ListOf(t, g.source))[g.topic] == Topic(m)
    ensures Completes(every, held, m)
  {
    var c, topic := t.order[g.source], Topics(ListOf(t, g.source))[g.topic];
    GroupSize(t, creators, held + [m], g);
    Snoc(held, m);
    assert |OfGroup(held, c, topic)| < every;
  }

  lemma HoldsTopic(list: seq<Message>, topic: string)
    requires Positions(list, topic) != []
    ensures topic in Topics(list)
  {
    TopicsAreDistinct(list);
  }

  lemma ItsGroup(every: int, t: Table, creators: seq<string>, held: seq<Message>, m: Message) returns (g: Group)
    requires Holds(t, creators, held + [m]) && m.creator in creators && Completes(every, held, m) && every >= 1
    requires HaveTopics(held + [m])
    ensures Eligible(t, every, g)
  {
    hide OnTopic, FromCreator, OfGroup, Positions, Topics, Distinct;
    var i :| 0 <= i < |t.order| && t.order[i] == m.creator;
    var list := ListOf(t, i);
    PickedIsOnTopic(list, Topic(m));
    GroupIsTopicOfCreator(held + [m], m.creator, Topic(m));
    HoldsTopic(list, Topic(m));
    var k :| 0 <= k < |Topics(list)| && Topics(list)[k] == Topic(m);
    g := Group(i, k);
  }

  /** The choice from a table of small groups and one more message. */
  lemma ChoiceFromSmall(every: int, t: Table, creators: seq<string>, held: seq<Message>, m: Message, marks: seq<Mark>)
    requires every >= 1 && Holds(t, creators, held + [m]) && m.creator in creators && Small(every, held)
    requires HaveTopics(held + [m])
    requires SummarizerChooses(t, every, marks)
    ensures m.creator in t.lists
    ensures marks
      == if Completes(every, held, m) then [Mark(m.creator, Positions(t.lists[m.creator], Topic(m)))] else []
  {
    var end := Group(|t.order|, 0);
    InOrder(t, creators, held + [m]);
    if Completes(every, held, m) {
      var own := ItsGroup(every, t, creators, held, m);
      var g :| IsBest(t, every, end, g) && marks == [Mark(t.order[g.source], Upto(GroupPositions(t, g), every))];
      OnlyItsGroup(every, t, creators, held, m, g);
      GroupSize(t, creators, held + [m], g);
    } else if marks != [] {
      var g :| IsBest(t, every, end, g);
      OnlyItsGroup(every, t, creators, held, m, g);
    }
  }

  lemma InOrder(t: Table, creators: seq<string>, held: seq<Message>)
    requires Holds(t, creators, held)
    ensures forall c :: c in creators ==> c in t.lists
  {
  }

  lemma SummarizerStep(every: int, arrivals: seq<Message>, held: seq<Message>, t: Table, m: Message, after: Table,
    taken: seq<Message>)
    requires every >= 1 && Holds(t, Creators(arrivals), held) && Small(every, held) && HaveTopics(held + [m])
    requires PutStep(Summarizer(every), t, m, after, taken)
    ensures Completes(every, held, m) ==>
        && taken == Backwards(OfGroup(held + [m], m.creator, Topic(m)))
        && Holds(after, Creators(arrivals + [m]), Others(held + [m], m.creator, Topic(m)))
    ensures !Completes(every, held, m) ==> taken == [] && Holds(after, Creators(arrivals + [m]), held + [m])
  {
    hide Append, Taken, Remaining, OfGroup, Positions;
    var t1, creators := Append(t, m), Creators(arrivals + [m]);
    AppendHolds(t, arrivals, held, m);
    Snoc(arrivals, m);
    var marks :| SummarizerChooses(t1, every, marks) && MarksOk(t1, marks) && after == Remaining(t1, marks)
      && taken == Taken(t1, marks);
    ChoiceFromSmall(every, t1, creators, held, m, marks);
    if marks == [] {
      NoMarksNoChange(t1);
    } else {
      GroupLeaves(t1, creators, held + [m], m.creator, Topic(m));
    }
  }

  lemma GroupTaken(t: Table, creators: seq<string>, held: seq<Message>, c: string, topic: string)
    requires Holds(t, creators, held) && c in t.lists && HaveTopics(held)
    ensures var marks := [Mark(c, Positions(t.lists[c], topic))];
      MarksOk(t, marks) && Taken(t, marks) == Backwards(OfGroup(held, c, topic))
  {
    hide Picked, Unmarked, Backwards, OnTopic, OfGroup, Positions, FromCreator;
    var mark := Mark(c, Positions(t.lists[c], topic));
    PositionsAreExact(t.lists[c], topic);
    PickedIsOnTopic(t.lists[c], topic);
    GroupIsTopicOfCreator(held, c, topic);
    MarkMore(t, [], mark);
    assert [] + [mark] == [mark];
    assert [] + Backwards(OfGroup(held, c, topic)) == Backwards(OfGroup(held, c, topic));
  }

  lemma GroupRemains(t: Table, creators: seq<string>, held: seq<Message>, c: string, topic: string)
    requires Holds(t, creators, held) && c in t.lists && HaveTopics(held)
    ensures Holds(Remaining(t, [Mark(c, Positions(t.lists[c], topic))]), creators, Others(held, c, topic))
  {
    hide Unmarked, OffTopic, Others, Positions, FromCreator, Remaining, Distinct;
    var list := t.lists[c];
    var mark := Mark(c, Positions(list, topic));
    UnmarkedIsOffTopic(list, topic, |list|);
    assert list[..|list|] == list;
    RemainingOfNone(t);
    RemainingStep(t, [], mark);
    assert [] + [mark] == [mark];
    OthersAreHeld(held, c, topic);
    forall d | d in t.lists
      ensures Remaining(t, [mark]).lists[d] == FromCreator(Others(held, c, topic), d)
    {
      OthersByCreator(held, c, topic, d);
    }
  }

  /** Taking out all positions of a topic takes out the group, and leaves the others where they were. */
  lemma GroupLeaves(t: Table, creators: seq<string>, held: seq<Message>, c: string, topic: string)
    requires Holds(t, creators, held) && c in t.lists && HaveTopics(held)
    ensures var marks := [Mark(c, Positions(t.lists[c], topic))];
      && MarksOk(t, marks) && Taken(t, marks) == Backwards(OfGroup(held, c, topic))
      && Holds(Remaining(t, marks), creators, Others(held, c, topic))
  {
    hide *;
    GroupTaken(t, creators, held, c, topic);
    GroupRemains(t, creators, held, c, topic);
  }

  // ----- whole runs -----

  function LastOf<T>(s: seq<T>, n: nat): seq<T>
    requires n <= |s|
  {
    s[|s| - n..]
  }

  lemma {:induction false} OthersOfGroup(s: seq<Message>, c: string, topic: string, d: string, other: string)
    ensures OfGroup(Others(s, c, topic), d, other) == if d == c && other == topic then [] else OfGroup(s, d, other)
  {
    if s != [] {
      var init := s[..|s| - 1];
      var others := Others(init, c, topic);
      OthersOfGroup(init, c, topic, d, other);
      Snoc(others, Last(s));
      assert others + [] == others && OfGroup(init, d, other) + [] == OfGroup(init, d, other);
    }
  }

  lemma LastOfSnoc<T>(s: seq<T>, x: T, n: nat)
    requires n <= |s|
    ensures LastOf(s + [x], n + 1) == LastOf(s, n) + [x] && LastOf(s + [x], 0) == []
  {
  }

  lemma OfGroupSnoc(s: seq<Message>, m: Message, c: string, topic: string)
    ensures OfGroup(s + [m], c, topic)
      == if InGroup(m, c, topic) then OfGroup(s, c, topic) + [m] else OfGroup(s, c, topic)
  {
    Snoc(s, m);
    assert OfGroup(s, c, topic) + [] == OfGroup(s, c, topic);
  }

  /** Of every group, what is pending is what arrived since the group last filled up: the last messages of
    * the group, as many as its size leaves over `every`. */
  lemma {:induction false} PendingIsRemainder(every: nat, s: seq<Message>, c: string, topic: string)
    requires every >= 1
    ensures Remainder(|OfGroup(s, c, topic)|, every) <= |OfGroup(s, c, topic)|
    ensures OfGroup(Pending(every, s), c, topic)
      == LastOf(OfGroup(s, c, topic), Remainder(|OfGroup(s, c, topic)|, every))
  {
    hide Remainder, OfGroup, LastOf, Others;
    if s == [] {
      EmptyGroup(every, c, topic);
    } else {
      var init, m := s[..|s| - 1], Last(s);
      var pending, sofar := Pending(every, init), OfGroup(init, c, topic);
      assert s == init + [m];
      PendingIsRemainder(every, init, c, topic);
      RemainderStep(|sofar|, every);
      OfGroupSnoc(init, m, c, topic);
      OfGroupSnoc(pending, m, c, topic);
      OthersOfGroup(pending + [m], m.creator, Topic(m), c, topic);
      LastOfSnoc(sofar, m, Remainder(|sofar|, every));
      LastOfSize(sofar, Remainder(|sofar|, every));
    }
  }

  lemma LastOfSize<T>(s: seq<T>, n: nat)
    requires n <= |s|
    ensures |LastOf(s, n)| == n
  {
  }

  lemma EmptyGroup(every: nat, c: string, topic: string)
    requires every >= 1
    ensures Remainder(0, every) == 0 && OfGroup([], c, topic) == [] && LastOf<Message>([], 0) == []
  {
  }

  /** An arrival releases a batch exactly when it brings its group to a multiple of `every`, and then the
    * batch is the last `every` messages of that group, newest first. */
  lemma ReleasedExactly(every: nat, s: seq<Message>)
    requires every >= 1 && s != [] && Last(s).payload.Object?
    ensures var group := OfGroup(s, Last(s).creator, Last(s).payload.topic);
      if Remainder(|group|, every) == 0 then |group| >= every && Released(every, s) == Backwards(LastOf(group, every))
      else Released(every, s) == []
  {
    hide Remainder, OfGroup, LastOf, Others, Backwards;
    var init, m := s[..|s| - 1], Last(s);
    var pending, sofar := Pending(every, init), OfGroup(init, m.creator, Topic(m));
    assert s == init + [m];
    PendingIsRemainder(every, init, m.creator, Topic(m));
    RemainderStep(|sofar|, every);
    OfGroupSnoc(init, m, m.creator, Topic(m));
    OfGroupSnoc(pending, m, m.creator, Topic(m));
    LastOfSnoc(sofar, m, Remainder(|sofar|, every));
    LastOfSize(sofar, Remainder(|sofar|, every));
  }

  lemma {:induction false} PendingHaveArrived(every: int, s: seq<Message>)
    ensures forall m :: m in Pending(every, s) ==> m in s
  {
    if s != [] {
      var pending := Pending(every, s[..|s| - 1]);
      PendingHaveArrived(every, s[..|s| - 1]);
      OthersAreHeld(pending + [Last(s)], Last(s).creator, Topic(Last(s)));
    }
  }

  lemma PendingIsSmall(every: nat, s: seq<Message>)
    requires every >= 1
    ensures Small(every, Pending(every, s))
  {
    forall c, topic
      ensures |OfGroup(Pending(every, s), c, topic)| < every
    {
      PendingIsRemainder(every, s, c, topic);
      RemainderStep(|OfGroup(s, c, topic)|, every);
    }
  }

  /** The buffer with the summarizer's policy refines the reference: after every arrival it holds exactly the
    * pending messages, and it gives out exactly what the reference releases. */
  lemma {:induction false} SummarizerChunksGroups(every: nat, arrivals: seq<Message>, tables: seq<Table>,
    taken: seq<seq<Message>>, n: nat)
    requires every >= 1 && BufferRun(Summarizer(every), arrivals, tables, taken) && n <= |arrivals|
    ensures Holds(tables[n], Creators(arrivals[..n]), Pending(every, arrivals[..n]))
    ensures n > 0 ==> taken[n - 1] == Released(every, arrivals[..n])
  {
    hide PutStep, Creators, Holds, Small, OfGroup, Others, Completes;
    if n > 0 {
      SummarizerChunksGroups(every, arrivals, tables, taken, n - 1);
      Next(arrivals, n - 1);
      Snoc(arrivals[..n - 1], arrivals[n - 1]);
      PendingIsSmall(every, arrivals[..n - 1]);
      PendingHaveArrived(every, arrivals[..n - 1]);
      SummarizerStep(every, arrivals[..n - 1], Pending(every, arrivals[..n - 1]), tables[n - 1], arrivals[n - 1],
        tables[n], taken[n - 1]);
    } else {
      EmptyHolds();
    }
  }

  // ----- what is delivered -----

  /** The arrivals that bring their group to a multiple of `every`. */
  function Completions(every: nat, s: seq<Message>): seq<nat>
    requires every >= 1
  {
    if s == [] then []
    else
      Completions(every, s[..|s| - 1])
      + (if Remainder(|OfGroup(s, Last(s).creator, Topic(Last(s)))|, every) == 0 then [|s| - 1] else [])
  }

  /** The group that an arrival is in, up to and including it. */
  function GroupUpTo(s: seq<Message>, n: nat): seq<Message>
    requires n < |s|
  {
    OfGroup(s[..n + 1], s[n].creator, Topic(s[n]))
  }

  lemma {:induction false} CompletionsDepart(every: nat, arrivals: seq<Message>, taken: seq<seq<Message>>, n: nat)
    requires every >= 1 && n <= |arrivals| == |taken|
    requires forall k :: 0 <= k < n ==> (taken[k] != [] <==> Remainder(|GroupUpTo(arrivals, k)|, every) == 0)
    ensures Departures(taken[..n]) == Completions(every, arrivals[..n])
  {
    hide Remainder, OfGroup, Departures, Completions, GroupUpTo;
    if n == 0 {
      NoneYet(every);
    } else {
      CompletionsDepart(every, arrivals, taken, n - 1);
      CompletionsSnoc(every, arrivals, n - 1);
      assert taken[..n] == taken[..n - 1] + [taken[n - 1]];
      DeparturesSnoc(taken[..n - 1], taken[n - 1]);
    }
  }

  lemma NoneYet(every: nat)
    requires every >= 1
    ensures Departures([]) == [] && Completions(every, []) == []
  {
  }

  lemma CompletionsSnoc(every: nat, s: seq<Message>, n: nat)
    requires every >= 1 && n < |s|
    ensures Completions(every, s[..n + 1])
      == Completions(every, s[..n]) + (if Remainder(|GroupUpTo(s, n)|, every) == 0 then [n] else [])
  {
    hide Remainder, OfGroup;
    assert s[..n + 1][..n] == s[..n] && Last(s[..n + 1]) == s[n];
  }

  lemma TakenByGroup(every: nat, arrivals: seq<Message>, tables: seq<Table>, taken: seq<seq<Message>>, k: nat)
    requires every >= 1 && BufferRun(Summarizer(every), arrivals, tables, taken) && k < |arrivals| == |taken|
    ensures var group := GroupUpTo(arrivals, k);
      if Remainder(|group|, every) == 0 then |group| >= every && taken[k] == Backwards(LastOf(group, every))
      else taken[k] == []
  {
    hide BufferRun, Holds, Creators, Remainder, OfGroup, LastOf, Backwards, Pending, Released;
    RunSizes(Summarizer(every), arrivals, tables, taken);
    SummarizerChunksGroups(every, arrivals, tables, taken, k + 1);
    assert Last(arrivals[..k + 1]) == arrivals[k];
    ReleasedExactly(every, arrivals[..k + 1]);
  }

  lemma LastInGroup(s: seq<Message>, n: nat)
    requires n < |s| && s[n].payload.Object?
    ensures GroupUpTo(s, n) != [] && Last(GroupUpTo(s, n)) == s[n]
  {
    assert s[..n + 1] == s[..n] + [s[n]];
    OfGroupSnoc(s[..n], s[n], s[n].creator, Topic(s[n]));
  }

  /** Under the summarizer's policy the update thread gets one message for each arrival that brings its group to a
    * multiple of `every`: the batch of the last `every` messages of that group, newest first. */
  lemma SummarizerDelivers(every: nat, name: string, arrivals: seq<Message>, tables: seq<Table>,
    taken: seq<seq<Message>>, given: seq<Message>, j: nat)
    requires every >= 1 && BufferRun(Summarizer(every), arrivals, tables, taken) && Carried(name, taken, given)
    ensures |given| == |Completions(every, arrivals)|
    ensures j < |given| ==>
        var n := Completions(every, arrivals)[j];
        && n < |arrivals| && every <= |GroupUpTo(arrivals, n)| && Last(GroupUpTo(arrivals, n)) == arrivals[n]
        && if every == 1 then given[j] == arrivals[n]
           else given[j].payload == Batch(Backwards(LastOf(GroupUpTo(arrivals, n), every)))
  {
    hide BufferRun, Departures, Completions, GroupUpTo, Remainder;
    RunSizes(Summarizer(every), arrivals, tables, taken);
    forall k | 0 <= k < |taken|
      ensures taken[k] != [] <==> Remainder(|GroupUpTo(arrivals, k)|, every) == 0
    {
      TakenByGroup(every, arrivals, tables, taken, k);
    }
    CompletionsDepart(every, arrivals, taken, |taken|);
    DeparturesAre(taken, |taken|);
    assert taken[..|taken|] == taken && arrivals[..|taken|] == arrivals;
    if j < |given| {
      var n := Departures(taken)[j];
      TakenByGroup(every, arrivals, tables, taken, n);
      LastInGroup(arrivals, n);
      assert Carries(name, given[j], taken[n]);
    }
  }
}
