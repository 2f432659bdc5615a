/** The contents of a node's message buffer, lists of messages by creator, and what taking marked
  * messages out of them yields and leaves. */
module Tables {
  import opened Graphs
  import opened Messages

  /** The buffer's dictionary: `order` is the order in which creators first appeared. */
  datatype Table = Table(order: seq<string>, lists: map<string, seq<Message>>)

  ghost predicate TableOk(t: Table)
  {
    Distinct(t.order) && forall c :: c in t.order <==> c in t.lists
  }

  /** What a policy asks for: for some creators, positions in their lists. */
  datatype Mark = Mark(creator: string, positions: seq<nat>)

  predicate Increasing(s: seq<nat>)
  {
    forall i, j :: 0 <= i < j < |s| ==> s[i] < s[j]
  }

  ghost predicate AllAbove(positions: seq<nat>, p: nat)
  {
    forall q :: q in positions ==> p < q
  }

  predicate Within<T>(positions: seq<nat>, s: seq<T>)
  {
    forall i :: 0 <= i < |positions| ==> positions[i] < |s|
  }

  predicate Fits(t: Table, m: Mark)
  {
    m.creator in t.lists && Within(m.positions, t.lists[m.creator])
  }

  predicate MarksOk(t: Table, marks: seq<Mark>)
  {
    && (forall i :: 0 <= i < |marks| ==> Fits(t, marks[i]) && Increasing(marks[i].positions))
    && (forall i, j :: 0 <= i < j < |marks| ==> marks[i].creator != marks[j].creator)
  }

  function Append(t: Table, m: Message): Table
  {
    if m.creator in t.lists then t.(lists := t.lists[m.creator := t.lists[m.creator] + [m]])
    else Table(t.order + [m.creator], t.lists[m.creator := [m]])
  }

  // ----- one list -----

  /** The elements at some positions, in the order of the positions. */
  function Picked<T>(s: seq<T>, positions: seq<nat>): seq<T>
    requires Within(positions, s)
  {
    seq(|positions|, i requires 0 <= i < |positions| => s[positions[i]])
  }

  /** The elements at all other positions, in their order. */
  function Unmarked<T>(s: seq<T>, positions: seq<nat>): seq<T>
  {
    if s == [] then []
    else Unmarked(s[..|s| - 1], positions) + (if |s| - 1 in positions then [] else [Last(s)])
  }

  /** Back to front. */
  function Backwards<T>(s: seq<T>): seq<T>
  {
    seq(|s|, i requires 0 <= i < |s| => s[|s| - 1 - i])
  }

  lemma {:induction false} BackwardsKeepsContents<T>(s: seq<T>)
    ensures multiset(Backwards(s)) == multiset(s)
  {
    if s != [] {
      var init := s[..|s| - 1];
      BackwardsKeepsContents(init);
      assert s == init + [Last(s)];
      assert Backwards(s) == [Last(s)] + Backwards(init);
    }
  }

  lemma {:induction false} NothingMarked<T>(s: seq<T>, positions: seq<nat>)
    requires forall p :: p in positions ==> p >= |s|
    ensures Unmarked(s, positions) == s
  {
    if s != [] {
      NothingMarked(s[..|s| - 1], positions);
      assert s == s[..|s| - 1] + [Last(s)];
    }
  }

  /** Below the lowest mark nothing has moved, so the next position down can be popped as it stands. */
  lemma {:induction false} PopNext<T>(s: seq<T>, p: nat, higher: seq<nat>)
    requires p < |s| && AllAbove(higher, p)
    ensures p < |Unmarked(s, higher)| && Unmarked(s, higher)[p] == s[p]
    ensures Unmarked(s, [p] + higher) == WithoutAt(Unmarked(s, higher), p)
  {
    hide WithoutAt;
    var init := s[..|s| - 1];
    var u := Unmarked(init, higher);
    if p == |s| - 1 {
      NothingMarked(init, higher);
      NothingMarked(init, [p] + higher);
      WithoutLast(u, Last(s));
    } else {
      PopNext(init, p, higher);
      assert |s| - 1 in [p] + higher <==> |s| - 1 in higher;
      WithoutAtSnoc(u, Last(s), p);
      assert u + [] == u && WithoutAt(u, p) + [] == WithoutAt(u, p);
    }
  }

  function WithoutAt<T>(s: seq<T>, p: nat): seq<T>
    requires p < |s|
  {
    s[..p] + s[p + 1..]
  }

  lemma WithoutLast<T>(s: seq<T>, x: T)
    ensures WithoutAt(s + [x], |s|) == s
  {
  }

  lemma WithoutAtSnoc<T>(s: seq<T>, x: T, p: nat)
    requires p < |s|
    ensures WithoutAt(s + [x], p) == WithoutAt(s, p) + [x]
  {
    assert (s + [x])[..p] == s[..p];
    assert (s + [x])[p + 1..] == s[p + 1..] + [x];
  }

  lemma BackwardsCons<T>(x: T, s: seq<T>)
    ensures Backwards([x] + s) == Backwards(s) + [x]
  {
  }

  lemma PickedCons<T>(s: seq<T>, p: nat, higher: seq<nat>)
    requires p < |s| && Within(higher, s)
    ensures Within([p] + higher, s) && Picked(s, [p] + higher) == [s[p]] + Picked(s, higher)
  {
  }

  lemma IncreasingTail(positions: seq<nat>, j: nat)
    requires Increasing(positions) && j < |positions|
    ensures positions[j..] == [positions[j]] + positions[j + 1..]
    ensures Increasing(positions[j + 1..]) && AllAbove(positions[j + 1..], positions[j])
  {
  }

  lemma WithinTail<T>(positions: seq<nat>, s: seq<T>, j: nat)
    requires Within(positions, s) && j <= |positions|
    ensures Within(positions[j..], s)
    ensures j < |positions| ==> positions[j] < |s|
  {
  }

  /** Pops the given positions, highest first. What comes out is back to front; what stays keeps its order. */
  method PopAll<T>(s: seq<T>, positions: seq<nat>) returns (popped: seq<T>, rest: seq<T>)
    requires Increasing(positions) && Within(positions, s)
    ensures popped == Backwards(Picked(s, positions))
    ensures rest == Unmarked(s, positions)
  {
    hide Backwards, Picked, Unmarked, Within, Increasing, AllAbove;
    popped, rest := [], s;
    var j := |positions|;
    NothingMarked(s, []);
    PopNone(s, positions);
    while j > 0
      invariant 0 <= j <= |positions| && Within(positions[j..], s)
      invariant rest == Unmarked(s, positions[j..])
      invariant popped == Backwards(Picked(s, positions[j..]))
    {
      j := j - 1;
      var p := positions[j];
      IncreasingTail(positions, j);
      WithinTail(positions, s, j);
      PopNext(s, p, positions[j + 1..]);
      PickedCons(s, p, positions[j + 1..]);
      BackwardsCons(s[p], Picked(s, positions[j + 1..]));
      popped, rest := popped + [rest[p]], WithoutAt(rest, p);
    }
    assert positions[0..] == positions;
  }

  lemma PopNone<T>(s: seq<T>, positions: seq<nat>)
    ensures positions[|positions|..] == [] && Within(positions[|positions|..], s) && Backwards(Picked(s, [])) == []
  {
  }

  /** Taking marked messages out of a list loses none and invents none. */
  lemma {:induction false} NothingLost<T>(s: seq<T>, positions: seq<nat>)
    requires Increasing(positions) && Within(positions, s)
    ensures multiset(Backwards(Picked(s, positions))) + multiset(Unmarked(s, positions)) == multiset(s)
    decreases |positions|
  {
    hide Backwards, Picked, Unmarked, Within, Increasing, AllAbove;
    BackwardsKeepsContents(Picked(s, positions));
    if positions == [] {
      NothingMarked(s, positions);
      PickedNone(s);
    } else {
      IncreasingTail(positions, 0);
      WithinTail(positions, s, 1);
      WithinTail(positions, s, 0);
      assert positions[0..] == positions;
      NothingLost(s, positions[1..]);
      BackwardsKeepsContents(Picked(s, positions[1..]));
      PickedCons(s, positions[0], positions[1..]);
      PopNext(s, positions[0], positions[1..]);
      PopKeepsContents(Unmarked(s, positions[1..]), positions[0]);
    }
  }

  lemma PickedNone<T>(s: seq<T>)
    ensures Picked(s, []) == []
  {
  }

  lemma PopKeepsContents<T>(u: seq<T>, p: nat)
    requires p < |u|
    ensures multiset(u) == multiset{u[p]} + multiset(WithoutAt(u, p))
  {
    assert u == u[..p] + [u[p]] + u[p + 1..];
  }

  // ----- one whole consumption -----

  /** What a consumption takes: creator by creator in mark order, newest first within a creator. */
  function Taken(t: Table, marks: seq<Mark>): seq<Message>
    requires MarksOk(t, marks)
  {
    if marks == [] then []
    else Taken(t, marks[..|marks| - 1]) + Backwards(Picked(t.lists[Last(marks).creator], Last(marks).positions))
  }

  /** The positions marked in one creator's list. */
  function MarkedIn(marks: seq<Mark>, c: string): seq<nat>
  {
    if marks == [] then []
    else if Last(marks).creator == c then Last(marks).positions else MarkedIn(marks[..|marks| - 1], c)
  }

  function Remaining(t: Table, marks: seq<Mark>): Table
  {
    t.(lists := map c | c in t.lists :: Unmarked(t.lists[c], MarkedIn(marks, c)))
  }

  lemma {:induction false} NotMarked(marks: seq<Mark>, c: string)
    requires forall i :: 0 <= i < |marks| ==> marks[i].creator != c
    ensures MarkedIn(marks, c) == []
  {
    if marks != [] {
      NotMarked(marks[..|marks| - 1], c);
    }
  }

  lemma RemainingOfNone(t: Table)
    ensures Remaining(t, []) == t
  {
    forall c | c in t.lists
      ensures Unmarked(t.lists[c], MarkedIn([], c)) == t.lists[c]
    {
      NothingMarked(t.lists[c], []);
    }
  }

  /** One more mark changes the list of one creator, which no earlier mark has touched. */
  lemma RemainingStep(t: Table, marks: seq<Mark>, m: Mark)
    requires m.creator in t.lists && forall i :: 0 <= i < |marks| ==> marks[i].creator != m.creator
    ensures m.creator in Remaining(t, marks).lists && Remaining(t, marks).lists[m.creator] == t.lists[m.creator]
    ensures Remaining(t, marks + [m]) == var was := Remaining(t, marks);
              was.(lists := was.lists[m.creator := Unmarked(t.lists[m.creator], m.positions)])
  {
    hide Unmarked;
    NotMarked(marks, m.creator);
    NothingMarked(t.lists[m.creator], []);
    assert (marks + [m])[..|marks|] == marks && Last(marks + [m]) == m;
    var was := Remaining(t, marks);
    assert Remaining(t, marks + [m]).lists == was.lists[m.creator := Unmarked(t.lists[m.creator], m.positions)];
  }

  lemma RemainingOk(t: Table, marks: seq<Mark>)
    requires TableOk(t)
    ensures TableOk(Remaining(t, marks))
  {
  }

  lemma TakenStep(t: Table, marks: seq<Mark>, i: nat)
    requires MarksOk(t, marks) && i < |marks|
    ensures MarksOk(t, marks[..i]) && MarksOk(t, marks[..i + 1])
    ensures Taken(t, marks[..i + 1])
      == Taken(t, marks[..i]) + Backwards(Picked(t.lists[marks[i].creator], marks[i].positions))
  {
    assert marks[..i + 1][..i] == marks[..i];
  }
}
