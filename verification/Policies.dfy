/** The policies that decide what a buffer gives out next: relay everything, the first `every` messages
  * across sources, or `every` messages of one topic of the fullest source. */
module Policies {
  import opened Graphs
  import opened Messages
  import opened Tables

  function UpTo(n: nat): (r: seq<nat>)
    ensures |r| == n && forall i :: 0 <= i < n ==> r[i] == i
  {
    seq(n, i requires 0 <= i => i)
  }

  function ListOf(t: Table, i: nat): seq<Message>
    requires i < |t.order|
  {
    if t.order[i] in t.lists then t.lists[t.order[i]] else []
  }

  // ----- passthrough -----

  function PassthroughMarks(t: Table): seq<Mark>
  {
    seq(|t.order|, i requires 0 <= i < |t.order| => Mark(t.order[i], UpTo(|ListOf(t, i)|)))
  }

  // ----- the first `every` messages, source by source -----

  /** How many messages the first `i` sources hold. */
  function Total(t: Table, i: nat): nat
    requires i <= |t.order|
  {
    if i == 0 then 0 else Total(t, i - 1) + |ListOf(t, i - 1)|
  }

  /** What the first `i` sources contribute when `n` messages are wanted: each gives what is still missing,
    * as far as it reaches, oldest messages first, and a source that gives nothing is not marked. */
  function FirstMarks(t: Table, i: nat, n: int): seq<Mark>
    requires i <= |t.order|
  {
    if i == 0 then []
    else
      var missing := n - Total(t, i - 1);
      var count := if missing < |ListOf(t, i - 1)| then missing else |ListOf(t, i - 1)|;
      FirstMarks(t, i - 1, n) + (if count > 0 then [Mark(t.order[i - 1], UpTo(count))] else [])
  }

  function PrompterMarks(t: Table, every: int): seq<Mark>
  {
    if every > Total(t, |t.order|) then [] else FirstMarks(t, |t.order|, every)
  }

  method PrompterNextBatch(t: Table, every: int) returns (marked: seq<Mark>)
    requires TableOk(t)
    ensures marked == PrompterMarks(t, every)
  {
    var available := 0;
    for i := 0 to |t.order|
      invariant available == Total(t, i)
    {
      available := available + |t.lists[t.order[i]]|;
    }
    if every > available {
      return [];
    }
    marked := [];
    var remaining := every;
    for i := 0 to |t.order|
      invariant marked == FirstMarks(t, i, every)
      invariant remaining == (if every <= 0 then every else if Total(t, i) <= every then every - Total(t, i) else 0)
    {
      if remaining == 0 {
        NoMoreMarks(t, i, every);
        break;
      }
      var have := |t.lists[t.order[i]]|;
      var countToTake := if have < remaining then have else remaining;
      if countToTake > 0 {
        marked := marked + [Mark(t.order[i], UpTo(countToTake))];
        remaining := remaining - countToTake;
      }
    }
  }

  lemma {:induction false} NoMoreMarks(t: Table, i: nat, n: int)
    requires i <= |t.order| && n <= Total(t, i)
    ensures FirstMarks(t, |t.order|, n) == FirstMarks(t, i, n)
    decreases |t.order| - i
  {
    if i < |t.order| {
      NoMoreMarks(t, i + 1, n);
    }
  }

  // ----- `every` messages of one topic of the fullest source -----

  /** The topic of a message's payload. Only object payloads have one; the policy asks for no others. */
  function Topic(m: Message): string
  {
    if m.payload.Object? then m.payload.topic else ""
  }

  predicate HaveTopics(s: seq<Message>)
  {
    forall m :: m in s ==> m.payload.Object?
  }

  /** The topics of a list, in order of first appearance. */
  function Topics(s: seq<Message>): seq<string>
  {
    if s == [] then []
    else
      var earlier := Topics(s[..|s| - 1]);
      if Topic(Last(s)) in earlier then earlier else earlier + [Topic(Last(s))]
  }

  /** The positions of a topic's messages. */
  function Positions(s: seq<Message>, topic: string): seq<nat>
  {
    if s == [] then []
    else Positions(s[..|s| - 1], topic) + (if Topic(Last(s)) == topic then [|s| - 1] else [])
  }

  lemma {:induction false} TopicsAreDistinct(s: seq<Message>)
    ensures Distinct(Topics(s))
    ensures forall topic :: topic in Topics(s) <==> Positions(s, topic) != []
  {
    if s != [] {
      TopicsAreDistinct(s[..|s| - 1]);
    }
  }

  /** Topics come in the order in which they first appear. */
  lemma {:induction false} TopicsAreInOrder(s: seq<Message>, i: nat, j: nat)
    requires i < j < |Topics(s)|
    ensures Positions(s, Topics(s)[i]) != [] && Positions(s, Topics(s)[j]) != []
    ensures Positions(s, Topics(s)[i])[0] < Positions(s, Topics(s)[j])[0]
  {
    var init := s[..|s| - 1];
    TopicsAreDistinct(s);
    TopicsAreDistinct(init);
    assert Topics(s)[i] in Topics(s) && Topics(s)[j] in Topics(s);
    assert Topics(s)[i] == Topics(init)[i];
    if j < |Topics(init)| {
      TopicsAreInOrder(init, i, j);
    } else {
      assert Topics(init)[i] in Topics(init) && Topics(s)[j] !in Topics(init);
      PositionsAreExact(init, Topics(s)[i]);
      assert Positions(init, Topics(s)[i])[0] in Positions(init, Topics(s)[i]);
    }
  }

  lemma {:induction false} PositionsAreExact(s: seq<Message>, topic: string)
    ensures Increasing(Positions(s, topic)) && Within(Positions(s, topic), s)
    ensures forall p: nat :: p in Positions(s, topic) <==> p < |s| && Topic(s[p]) == topic
  {
    if s != [] {
      var init := s[..|s| - 1];
      PositionsAreExact(init, topic);
      assert forall p: nat :: p < |init| ==> init[p] == s[p];
    }
  }

  /** Python's `s[:n]`, negative `n` counting from the end. */
  function Upto<T>(s: seq<T>, n: int): seq<T>
  {
    if n >= |s| then s
    else if n >= 0 then s[..n]
    else if |s| + n >= 0 then s[..|s| + n]
    else []
  }

  /** A group: the number of a source, and the number of a topic among that source's topics. */
  datatype Group = Group(source: nat, topic: nat)

  predicate InTable(t: Table, g: Group)
  {
    g.source < |t.order| && g.topic < |Topics(ListOf(t, g.source))|
  }

  function GroupPositions(t: Table, g: Group): seq<nat>
    requires InTable(t, g)
  {
    Positions(ListOf(t, g.source), Topics(ListOf(t, g.source))[g.topic])
  }

  predicate Eligible(t: Table, every: int, g: Group)
  {
    InTable(t, g) && |GroupPositions(t, g)| >= every
  }

  /** A longer source wins; between sources of one length the larger group wins. */
  predicate Exceeds(t: Table, g: Group, h: Group)
    requires InTable(t, g) && InTable(t, h)
  {
    || |ListOf(t, g.source)| > |ListOf(t, h.source)|
    || (|ListOf(t, g.source)| == |ListOf(t, h.source)| && |GroupPositions(t, g)| > |GroupPositions(t, h)|)
  }

  predicate Before(g: Group, h: Group)
  {
    g.source < h.source || (g.source == h.source && g.topic < h.topic)
  }

  /** The first of the greatest among the eligible groups that come before `end`. */
  ghost predicate IsBest(t: Table, every: int, end: Group, g: Group)
  {
    && Eligible(t, every, g) && Before(g, end)
    && (forall h :: Eligible(t, every, h) && Before(h, end) ==> !Exceeds(t, h, g))
    && (forall h :: Eligible(t, every, h) && Before(h, g) ==> Exceeds(t, g, h))
  }

  ghost predicate NoneEligible(t: Table, every: int, end: Group)
  {
    forall h :: Eligible(t, every, h) ==> !Before(h, end)
  }

  /** What the policy answers: nothing without an eligible group, otherwise the first `every` of the best group. */
  ghost predicate SummarizerChooses(t: Table, every: int, marks: seq<Mark>)
  {
    var end := Group(|t.order|, 0);
    || (marks == [] && NoneEligible(t, every, end))
    || exists g :: IsBest(t, every, end, g) && marks == [Mark(t.order[g.source], Upto(GroupPositions(t, g), every))]
  }

  method GroupByTopic(messages: seq<Message>) returns (topics: seq<string>, indices: map<string, seq<nat>>)
    requires HaveTopics(messages)
    ensures topics == Topics(messages)
    ensures indices.Keys == (set topic | topic in topics)
    ensures forall topic :: topic in topics ==> indices[topic] == Positions(messages, topic) && indices[topic] != []
    ensures forall i, j :: 0 <= i < j < |topics| ==> indices[topics[i]][0] < indices[topics[j]][0]
  {
    topics, indices := [], map[];
    for idx := 0 to |messages|
      invariant topics == Topics(messages[..idx])
      invariant forall topic :: topic in indices <==> topic in topics
      invariant forall topic :: topic in topics ==> indices[topic] == Positions(messages[..idx], topic)
    {
      var topic := messages[idx].payload.topic;
      assert messages[..idx + 1][..idx] == messages[..idx];
      TopicsAreDistinct(messages[..idx]);
      if topic !in indices {
        topics, indices := topics + [topic], indices[topic := []];
      }
      indices := indices[topic := indices[topic] + [idx]];
    }
    assert messages[..|messages|] == messages;
    TopicsAreDistinct(messages);
    forall i, j | 0 <= i < j < |topics|
      ensures indices[topics[i]][0] < indices[topics[j]][0]
    {
      TopicsAreInOrder(messages, i, j);
    }
  }

  method SummarizerNextBatch(t: Table, every: int) returns (marks: seq<Mark>)
    requires TableOk(t) && forall c :: c in t.lists ==> HaveTopics(t.lists[c])
    ensures SummarizerChooses(t, every, marks)
  {
    var bestSource: Option<string> := None;
    var bestTopicIndices: seq<nat> := [];
    var maxSourceLength := -1;
    var maxTopicCount := -1;
    ghost var best := Group(0, 0);
    for i := 0 to |t.order|
      invariant BestSoFar(t, every, Group(i, 0), best, bestSource, bestTopicIndices, maxSourceLength, maxTopicCount)
    {
      var messages := t.lists[t.order[i]];
      var topics, indices := GroupByTopic(messages);
      for k := 0 to |topics|
        invariant BestSoFar(t, every, Group(i, k), best, bestSource, bestTopicIndices, maxSourceLength, maxTopicCount)
      {
        var topicCount := |indices[topics[k]]|;
        StepBest(t, every, Group(i, k), best, bestSource, bestTopicIndices, maxSourceLength, maxTopicCount);
        if (topicCount >= every && |messages| > maxSourceLength)
           || (|messages| == maxSourceLength && topicCount > maxTopicCount) {
          bestSource, bestTopicIndices := Some(t.order[i]), indices[topics[k]];
          maxSourceLength, maxTopicCount := |messages|, topicCount;
          best := Group(i, k);
        }
      }
      NextSource(t, every, i, best, bestSource, bestTopicIndices, maxSourceLength, maxTopicCount);
    }
    if bestSource.Some? {
      return [Mark(bestSource.value, Upto(bestTopicIndices, every))];
    }
    return [];
  }

  /** The loop's variables describe the best group so far, or no eligible group has been seen. */
  ghost predicate BestSoFar(t: Table, every: int, end: Group, best: Group,
                            source: Option<string>, indices: seq<nat>, length: int, count: int)
  {
    if source.None? then length == -1 && NoneEligible(t, every, end)
    else
      && IsBest(t, every, end, best)
      && source.value == t.order[best.source] && indices == GroupPositions(t, best)
      && length == |ListOf(t, best.source)| && count == |indices|
  }

  /** The group at `end` replaces the best so far exactly when the policy's condition holds of it. */
  lemma StepBest(t: Table, every: int, end: Group, best: Group,
                 source: Option<string>, indices: seq<nat>, length: int, count: int)
    requires InTable(t, end)
    requires BestSoFar(t, every, end, best, source, indices, length, count)
    ensures
      var length', indices' := |ListOf(t, end.source)|, GroupPositions(t, end);
      var next := Group(end.source, end.topic + 1);
      if (|indices'| >= every && length' > length) || (length' == length && |indices'| > count)
      then BestSoFar(t, every, next, end, Some(t.order[end.source]), indices', length', |indices'|)
      else BestSoFar(t, every, next, best, source, indices, length, count)
  {
    hide ListOf, Topics, Positions;
    var next := Group(end.source, end.topic + 1);
    assert forall h :: Before(h, next) <==> Before(h, end) || h == end;
  }

  lemma NextSource(t: Table, every: int, i: nat, best: Group,
                   source: Option<string>, indices: seq<nat>, length: int, count: int)
    requires i < |t.order|
    requires BestSoFar(t, every, Group(i, |Topics(ListOf(t, i))|), best, source, indices, length, count)
    ensures BestSoFar(t, every, Group(i + 1, 0), best, source, indices, length, count)
  {
    hide ListOf, Topics, Positions;
    assert forall h :: InTable(t, h) ==> (Before(h, Group(i + 1, 0)) <==> Before(h, Group(i, |Topics(ListOf(t, i))|)));
  }

  /** There is at most one answer. */
  lemma SummarizerAnswerIsUnique(t: Table, every: int, marks: seq<Mark>, other: seq<Mark>)
    requires SummarizerChooses(t, every, marks) && SummarizerChooses(t, every, other)
    ensures marks == other
  {
    hide ListOf, Topics, Positions;
  }

  ghost predicate OneTopic(s: seq<Message>, positions: seq<nat>)
    requires Within(positions, s)
  {
    forall i, j :: 0 <= i < |positions| && 0 <= j < |positions| ==> Topic(s[positions[i]]) == Topic(s[positions[j]])
  }

  lemma UptoIsPrefix(s: seq<Message>, topic: string, every: int)
    requires 1 <= every <= |Positions(s, topic)|
    ensures var positions := Upto(Positions(s, topic), every);
      |positions| == every && Increasing(positions) && Within(positions, s) && OneTopic(s, positions)
  {
    PositionsAreExact(s, topic);
    hide Positions;
    var positions := Upto(Positions(s, topic), every);
    forall i | 0 <= i < |positions|
      ensures positions[i] < |s| && Topic(s[positions[i]]) == topic
    {
      assert positions[i] == Positions(s, topic)[i] && positions[i] in Positions(s, topic);
    }
  }

  /** With a positive `every`, an answer is exactly `every` positions of messages of one topic, in increasing order. */
  lemma SummarizerAnswerShape(t: Table, every: int, marks: seq<Mark>)
    requires TableOk(t) && every >= 1 && SummarizerChooses(t, every, marks)
    ensures MarksOk(t, marks) && |marks| <= 1
    ensures marks != [] ==> |marks[0].positions| == every && OneTopic(t.lists[marks[0].creator], marks[0].positions)
  {
    hide Positions, Topics, OneTopic, Upto;
    if marks != [] {
      var g :| IsBest(t, every, Group(|t.order|, 0), g)
        && marks == [Mark(t.order[g.source], Upto(GroupPositions(t, g), every))];
      UptoIsPrefix(ListOf(t, g.source), Topics(ListOf(t, g.source))[g.topic], every);
    }
  }
}
