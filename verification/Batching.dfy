/** What a buffer gives out over a whole run, policy by policy, in terms of the arrivals alone. */
module Batching {
  import opened Graphs
  import opened Messages
  import opened Tables
  import opened Policies
  import opened Buffers

  // ----- readings of a list of arrivals -----

  function FromCreator(s: seq<Message>, c: string): seq<Message>
  {
    if s == [] then []
    else FromCreator(s[..|s| - 1], c) + (if Last(s).creator == c then [Last(s)] else [])
  }

  function OnTopic(s: seq<Message>, topic: string): seq<Message>
  {
    if s == [] then []
    else OnTopic(s[..|s| - 1], topic) + (if Topic(Last(s)) == topic then [Last(s)] else [])
  }

  /** Creators in order of first appearance. */
  function Creators(s: seq<Message>): seq<string>
  {
    if s == [] then []
    else
      var earlier := Creators(s[..|s| - 1]);
      if Last(s).creator in earlier then earlier else earlier + [Last(s).creator]
  }

  /** Messages creator by creator, newest first within a creator. */
  function ByCreator(creators: seq<string>, s: seq<Message>): seq<Message>
  {
    if creators == [] then []
    else ByCreator(creators[..|creators| - 1], s) + Backwards(FromCreator(s, Last(creators)))
  }

  lemma Snoc<T>(s: seq<T>, x: T)
    ensures (s + [x])[..|s|] == s && Last(s + [x]) == x
  {
  }

  /** The table holds `held`, filed under `creators`. */
  ghost predicate Holds(t: Table, creators: seq<string>, held: seq<Message>)
  {
    && TableOk(t) && t.order == creators
    && (forall m :: m in held ==> m.creator in creators)
    && (forall c :: c in t.lists ==> t.lists[c] == FromCreator(held, c))
  }

  lemma {:induction false} NoneFrom(s: seq<Message>, c: string)
    requires forall m :: m in s ==> m.creator != c
    ensures FromCreator(s, c) == []
  {
    if s != [] {
      NoneFrom(s[..|s| - 1], c);
    }
  }

  lemma AppendHolds(t: Table, arrivals: seq<Message>, held: seq<Message>, m: Message)
    requires Holds(t, Creators(arrivals), held)
    ensures Holds(Append(t, m), Creators(arrivals + [m]), held + [m])
  {
    Snoc(arrivals, m);
    AppendOk(t, m);
    if m.creator !in t.lists {
      NoneFrom(held, m.creator);
    }
    forall c | c in Append(t, m).lists
      ensures Append(t, m).lists[c] == FromCreator(held + [m], c)
    {
      Snoc(held, m);
    }
  }

  /** Filing by creator only permutes. */
  lemma {:induction false} ByCreatorKeepsContents(creators: seq<string>, s: seq<Message>)
    requires Distinct(creators) && forall m :: m in s ==> m.creator in creators
    ensures multiset(ByCreator(creators, s)) == multiset(s) && |ByCreator(creators, s)| == |s|
  {
    if s == [] {
      NothingFiled(creators);
    } else {
      var init := s[..|s| - 1];
      assert s == init + [Last(s)];
      assert forall m :: m in init ==> m in s;
      ByCreatorKeepsContents(creators, init);
      OneMoreFiled(creators, init, Last(s));
    }
    assert |multiset(ByCreator(creators, s))| == |multiset(s)|;
  }

  lemma {:induction false} NothingFiled(creators: seq<string>)
    ensures ByCreator(creators, []) == []
  {
    if creators != [] {
      NothingFiled(creators[..|creators| - 1]);
    }
  }

  lemma FromCreatorSnoc(s: seq<Message>, m: Message, c: string)
    ensures FromCreator(s + [m], c) == if m.creator == c then FromCreator(s, c) + [m] else FromCreator(s, c)
  {
    Snoc(s, m);
    assert FromCreator(s, c) + [] == FromCreator(s, c);
  }

  lemma {:induction false} OneMoreFiled(creators: seq<string>, s: seq<Message>, m: Message)
    requires Distinct(creators)
    ensures multiset(ByCreator(creators, s + [m]))
         == multiset(ByCreator(creators, s)) + (if m.creator in creators then multiset{m} else multiset{})
  {
    hide Backwards, FromCreator;
    if creators != [] {
      var init, c := creators[..|creators| - 1], Last(creators);
      assert creators == init + [c];
      OneMoreFiled(init, s, m);
      FromCreatorSnoc(s, m, c);
      BackwardsKeepsContents(FromCreator(s, c));
      BackwardsKeepsContents(FromCreator(s + [m], c));
    }
  }

  // ----- taking everything -----

  /** The marks name every position of the first `i` lists, in order. */
  ghost predicate TakesAll(t: Table, i: nat, marks: seq<Mark>, creators: seq<string>, held: seq<Message>)
    requires i <= |t.order|
  {
    && MarksOk(t, marks) && (forall k :: 0 <= k < |marks| ==> marks[k].creator in t.order[..i])
    && i <= |creators| && Taken(t, marks) == ByCreator(creators[..i], held)
    && forall k :: 0 <= k < i ==> Unmarked(ListOf(t, k), MarkedIn(marks, t.order[k])) == []
  }

  lemma {:induction false} AllUnmarked<T>(s: seq<T>, positions: seq<nat>)
    requires forall p :: 0 <= p < |s| ==> p in positions
    ensures Unmarked(s, positions) == []
  {
    if s != [] {
      AllUnmarked(s[..|s| - 1], positions);
    }
  }

  lemma WholeList<T>(s: seq<T>)
    ensures Within(UpTo(|s|), s) && Picked(s, UpTo(|s|)) == s && Unmarked(s, UpTo(|s|)) == []
  {
    forall p | 0 <= p < |s|
      ensures p in UpTo(|s|)
    {
      assert UpTo(|s|)[p] == p;
    }
    AllUnmarked(s, UpTo(|s|));
  }

  /** A mark for all of the next list goes with marks for earlier lists. */
  lemma WholeListMarked(t: Table, i: nat, marks: seq<Mark>)
    requires i < |t.order| && TableOk(t) && MarksOk(t, marks)
    requires forall k :: 0 <= k < |marks| ==> marks[k].creator in t.order[..i]
    ensures var m := Mark(t.order[i], UpTo(|ListOf(t, i)|));
      && MarksOk(t, marks + [m]) && Taken(t, marks + [m]) == Taken(t, marks) + Backwards(ListOf(t, i))
      && (forall k :: 0 <= k < |marks + [m]| ==> (marks + [m])[k].creator in t.order[..i + 1])
      && forall c :: MarkedIn(marks + [m], c) == if c == t.order[i] then m.positions else MarkedIn(marks, c)
  {
    hide Picked, Unmarked, Backwards, MarkedIn, Taken;
    WholeList(ListOf(t, i));
    assert t.order[..i + 1] == t.order[..i] + [t.order[i]];
    assert t.order[i] !in t.order[..i];
    MarkMore(t, marks, Mark(t.order[i], UpTo(|ListOf(t, i)|)));
  }

  lemma NoneLeft(t: Table, i: nat, marks: seq<Mark>, more: seq<Mark>)
    requires i < |t.order| && TableOk(t)
    requires forall k :: 0 <= k < i ==> Unmarked(ListOf(t, k), MarkedIn(marks, t.order[k])) == []
    requires forall c :: MarkedIn(more, c) == if c == t.order[i] then UpTo(|ListOf(t, i)|) else MarkedIn(marks, c)
    ensures forall k :: 0 <= k <= i ==> Unmarked(ListOf(t, k), MarkedIn(more, t.order[k])) == []
  {
    hide Picked, Unmarked, MarkedIn, ListOf;
    forall k | 0 <= k <= i
      ensures Unmarked(ListOf(t, k), MarkedIn(more, t.order[k])) == []
    {
      if k == i {
        WholeList(ListOf(t, i));
      } else {
        assert t.order[k] != t.order[i];
      }
    }
  }

  lemma TakesOneMore(t: Table, i: nat, marks: seq<Mark>, creators: seq<string>, held: seq<Message>)
    requires i < |t.order| && Holds(t, creators, held) && TakesAll(t, i, marks, creators, held)
    ensures TakesAll(t, i + 1, marks + [Mark(t.order[i], UpTo(|ListOf(t, i)|))], creators, held)
  {
    hide Unmarked, Backwards, FromCreator, MarkedIn, Taken, MarksOk, Distinct;
    WholeListMarked(t, i, marks);
    NoneLeft(t, i, marks, marks + [Mark(t.order[i], UpTo(|ListOf(t, i)|))]);
    HeldInOrder(t, i, creators, held);
    assert creators[..i + 1][..i] == creators[..i];
  }

  lemma MarkMore(t: Table, marks: seq<Mark>, m: Mark)
    requires MarksOk(t, marks) && Fits(t, m) && Increasing(m.positions)
    requires forall k :: 0 <= k < |marks| ==> marks[k].creator != m.creator
    ensures MarksOk(t, marks + [m])
    ensures Taken(t, marks + [m]) == Taken(t, marks) + Backwards(Picked(t.lists[m.creator], m.positions))
    ensures forall c :: MarkedIn(marks + [m], c) == if c == m.creator then m.positions else MarkedIn(marks, c)
  {
    var more := marks + [m];
    assert more[..|marks|] == marks && Last(more) == m && more[..|more|] == more;
    assert MarksOk(t, more);
    TakenStep(t, more, |marks|);
  }

  lemma NothingBackwards()
    ensures Backwards<Message>([]) == []
  {
  }

  lemma UnmarkedNothing(positions: seq<nat>)
    ensures Unmarked<Message>([], positions) == []
  {
  }

  lemma SkipsEmpty(t: Table, i: nat, marks: seq<Mark>, creators: seq<string>, held: seq<Message>)
    requires i < |t.order| && Holds(t, creators, held) && TakesAll(t, i, marks, creators, held) && ListOf(t, i) == []
    ensures TakesAll(t, i + 1, marks, creators, held)
  {
    hide FromCreator, Backwards, MarkedIn, Unmarked, Holds, Taken, MarksOk;
    HeldInOrder(t, i, creators, held);
    assert creators[..i + 1] == creators[..i] + [creators[i]] && (creators[..i] + [creators[i]])[..i] == creators[..i];
    assert t.order[..i + 1] == t.order[..i] + [t.order[i]];
    NothingBackwards();
    UnmarkedNothing(MarkedIn(marks, t.order[i]));
    assert ByCreator(creators[..i], held) + [] == ByCreator(creators[..i], held);
  }

  lemma HeldInOrder(t: Table, i: nat, creators: seq<string>, held: seq<Message>)
    requires i < |t.order| && Holds(t, creators, held)
    ensures creators == t.order && FromCreator(held, creators[i]) == ListOf(t, i)
  {
  }

  lemma NothingToTake(t: Table, creators: seq<string>, held: seq<Message>)
    ensures TakesAll(t, 0, [], creators, held)
  {
  }

  lemma {:induction false} PassthroughTakesAll(t: Table, i: nat, creators: seq<string>, held: seq<Message>)
    requires i <= |t.order| && Holds(t, creators, held)
    ensures TakesAll(t, i, PassthroughMarks(t)[..i], creators, held)
  {
    hide TakesAll, Holds;
    if i == 0 {
      NothingToTake(t, creators, held);
    } else {
      PassthroughTakesAll(t, i - 1, creators, held);
      TakesOneMore(t, i - 1, PassthroughMarks(t)[..i - 1], creators, held);
      assert PassthroughMarks(t)[..i] == PassthroughMarks(t)[..i - 1] + [PassthroughMarks(t)[i - 1]];
    }
  }

  lemma WholeListFirst(t: Table, i: nat, n: int)
    requires 0 < i <= |t.order| && Total(t, i) <= n
    ensures FirstMarks(t, i, n) == var earlier := FirstMarks(t, i - 1, n);
      if ListOf(t, i - 1) == [] then earlier else earlier + [Mark(t.order[i - 1], UpTo(|ListOf(t, i - 1)|))]
    ensures Total(t, i - 1) <= n
  {
    assert FirstMarks(t, i - 1, n) + [] == FirstMarks(t, i - 1, n);
  }

  /** When no more is held than is wanted, the prompter's policy takes all of it too. */
  lemma {:induction false} PrompterTakesAll(t: Table, i: nat, n: int, creators: seq<string>, held: seq<Message>)
    requires i <= |t.order| && Holds(t, creators, held) && Total(t, i) <= n
    ensures TakesAll(t, i, FirstMarks(t, i, n), creators, held)
  {
    hide TakesAll, Holds;
    if i == 0 {
      NothingToTake(t, creators, held);
    } else {
      WholeListFirst(t, i, n);
      PrompterTakesAll(t, i - 1, n, creators, held);
      hide FirstMarks, ListOf, Total;
      if ListOf(t, i - 1) == [] {
        SkipsEmpty(t, i - 1, FirstMarks(t, i - 1, n), creators, held);
      } else {
        TakesOneMore(t, i - 1, FirstMarks(t, i - 1, n), creators, held);
      }
    }
  }

  lemma BackwardsLength(s: seq<Message>)
    ensures |Backwards(s)| == |s|
  {
  }

  lemma {:induction false} TotalIsFiled(t: Table, i: nat, creators: seq<string>, held: seq<Message>)
    requires i <= |t.order| && Holds(t, creators, held)
    ensures Total(t, i) == |ByCreator(creators[..i], held)|
  {
    hide Backwards, FromCreator;
    if i > 0 {
      TotalIsFiled(t, i - 1, creators, held);
      BackwardsLength(ListOf(t, i - 1));
      assert creators[..i][..i - 1] == creators[..i - 1];
    }
  }

  /** Once everything is taken the table holds nothing, under the same creators. */
  lemma NothingHeld(t: Table, marks: seq<Mark>, creators: seq<string>, held: seq<Message>)
    requires Holds(t, creators, held) && TakesAll(t, |t.order|, marks, creators, held)
    ensures Holds(Remaining(t, marks), creators, []) && Taken(t, marks) == ByCreator(creators, held)
  {
    RemainingOk(t, marks);
    assert creators[..|t.order|] == creators;
    forall c | c in t.lists
      ensures Remaining(t, marks).lists[c] == []
    {
      var k :| 0 <= k < |t.order| && t.order[k] == c;
      assert Unmarked(ListOf(t, k), MarkedIn(marks, t.order[k])) == [];
    }
  }

  lemma NoMarksNoChange(t: Table)
    ensures MarksOk(t, []) && Taken(t, []) == [] && Remaining(t, []) == t
  {
    RemainingOfNone(t);
  }

  // ----- passthrough -----

  lemma OnlyOne(creators: seq<string>, m: Message)
    requires Distinct(creators) && m.creator in creators
    ensures ByCreator(creators, [m]) == [m]
  {
    ByCreatorKeepsContents(creators, [m]);
    var s := ByCreator(creators, [m]);
    assert s[0] in multiset(s);
  }

  lemma PassthroughStep(arrivals: seq<Message>, t: Table, m: Message, after: Table, taken: seq<Message>)
    requires Holds(t, Creators(arrivals), []) && PutStep(Passthrough, t, m, after, taken)
    ensures taken == [m] && Holds(after, Creators(arrivals + [m]), [])
  {
    hide TakesAll, Append, Remaining, Taken, ByCreator;
    AppendHolds(t, arrivals, [], m);
    var stored, creators := Append(t, m), Creators(arrivals + [m]);
    var marks := PassthroughMarks(stored);
    PassthroughTakesAll(stored, |stored.order|, creators, [] + [m]);
    assert marks[..|stored.order|] == marks && [] + [m] == [m];
    NothingHeld(stored, marks, creators, [m]);
    OnlyOne(creators, m);
  }

  /** Under passthrough a buffer is one first-in first-out queue: each arrival is given out at once, by itself. */
  lemma {:induction false} PassthroughIsFifo(arrivals: seq<Message>, tables: seq<Table>, taken: seq<seq<Message>>,
    n: nat)
    requires BufferRun(Passthrough, arrivals, tables, taken) && n <= |arrivals|
    ensures Holds(tables[n], Creators(arrivals[..n]), [])
    ensures n < |arrivals| ==> taken[n] == [arrivals[n]]
  {
    hide Holds, PutStep, Creators;
    if n > 0 {
      PassthroughIsFifo(arrivals, tables, taken, n - 1);
      Next(arrivals, n - 1);
      PassthroughStep(arrivals[..n - 1], tables[n - 1], arrivals[n - 1], tables[n], taken[n - 1]);
    } else {
      EmptyHolds();
    }
    if n < |arrivals| {
      PassthroughStep(arrivals[..n], tables[n], arrivals[n], tables[n + 1], taken[n]);
    }
  }

  lemma EmptyHolds()
    ensures Holds(Table([], map[]), Creators([]), [])
  {
  }

  lemma Next<T>(s: seq<T>, n: nat)
    requires n < |s|
    ensures s[..n] + [s[n]] == s[..n + 1]
  {
  }

  // ----- the prompter's policy -----

  lemma PrompterStep(every: int, arrivals: seq<Message>, held: seq<Message>, t: Table, m: Message, after: Table,
    taken: seq<Message>)
    requires Holds(t, Creators(arrivals), held) && |held| < every && PutStep(Prompter(every), t, m, after, taken)
    ensures |held| + 1 < every ==> taken == [] && Holds(after, Creators(arrivals + [m]), held + [m])
    ensures |held| + 1 == every ==>
        && taken == ByCreator(Creators(arrivals + [m]), held + [m])
        && Holds(after, Creators(arrivals + [m]), [])
  {
    hide Append, Creators, ByCreator, Remaining, Taken, MarksOk, FirstMarks, Total, FromCreator, TakesAll;
    AppendHolds(t, arrivals, held, m);
    var stored, creators, all := Append(t, m), Creators(arrivals + [m]), held + [m];
    TotalIsFiled(stored, |stored.order|, creators, all);
    assert creators[..|stored.order|] == creators;
    ByCreatorKeepsContents(creators, all);
    NoMarksNoChange(stored);
    if |all| == every {
      PrompterTakesAll(stored, |stored.order|, every, creators, all);
      NothingHeld(stored, PrompterMarks(stored, every), creators, all);
    }
  }

  lemma ModOf(q: int, r: int, d: int)
    requires 0 <= r < d
    ensures (d * q + r) % d == r
  {
    var a := d * q + r;
    var k := a / d - q;
    assert d * k == r - a % d;
    assert (k >= 1 ==> d * k >= d) && (k <= -1 ==> d * k <= -d);
  }

  lemma ModStep(n: nat, d: nat)
    requires d > 0
    ensures (n + 1) % d == if n % d + 1 == d then 0 else n % d + 1
    ensures n % d <= n
  {
    if n % d + 1 == d {
      assert n + 1 == d * (n / d + 1) + 0;
      ModOf(n / d + 1, 0, d);
    } else {
      assert n + 1 == d * (n / d) + (n % d + 1);
      ModOf(n / d, n % d + 1, d);
    }
    if n < d {
      ModOf(0, n, d);
    }
  }

  function Remainder(n: nat, d: nat): nat
    requires d > 0
  {
    n % d
  }

  lemma RemainderStep(n: nat, d: nat)
    requires d > 0
    ensures Remainder(n, d) < d && Remainder(n, d) <= n && Remainder(0, d) == 0
    ensures Remainder(n + 1, d) == if Remainder(n, d) + 1 == d then 0 else Remainder(n, d) + 1
  {
    ModStep(n, d);
  }

  lemma PrompterCuts(every: nat, arrivals: seq<Message>, n: nat, before: Table, after: Table, taken: seq<Message>)
    requires every >= 1 && n < |arrivals| && Remainder(n, every) <= n
    requires Holds(before, Creators(arrivals[..n]), arrivals[n - Remainder(n, every)..n])
    requires PutStep(Prompter(every), before, arrivals[n], after, taken)
    ensures Remainder(n + 1, every) <= n + 1
    ensures Holds(after, Creators(arrivals[..n + 1]), arrivals[n + 1 - Remainder(n + 1, every)..n + 1])
    ensures Remainder(n + 1, every) != 0 ==> taken == []
    ensures Remainder(n + 1, every) == 0 ==>
        n + 1 >= every && taken == ByCreator(Creators(arrivals[..n + 1]), arrivals[n + 1 - every..n + 1])
  {
    hide PutStep, Creators, ByCreator, Holds, Remainder;
    RemainderStep(n, every);
    RemainderStep(n + 1, every);
    var from := n - Remainder(n, every);
    Next(arrivals, n);
    NextIn(arrivals, from, n);
    PrompterStep(every, arrivals[..n], arrivals[from..n], before, arrivals[n], after, taken);
    if Remainder(n + 1, every) == 0 {
      assert arrivals[n + 1..n + 1] == [];
    }
  }

  /** The prompter's policy cuts the arrivals into consecutive runs of `every`, whatever their creators:
    * an output leaves exactly at every `every`-th arrival, and holds the last `every` arrivals and nothing else. */
  lemma {:induction false} PrompterCutsArrivals(every: nat, arrivals: seq<Message>, tables: seq<Table>,
    taken: seq<seq<Message>>, n: nat)
    requires every >= 1 && BufferRun(Prompter(every), arrivals, tables, taken) && n <= |arrivals|
    ensures Remainder(n, every) <= n
    ensures Holds(tables[n], Creators(arrivals[..n]), arrivals[n - Remainder(n, every)..n])
    ensures n > 0 && Remainder(n, every) != 0 ==> taken[n - 1] == []
    ensures n > 0 && Remainder(n, every) == 0 ==>
        && n >= every
        && taken[n - 1] == ByCreator(Creators(arrivals[..n]), arrivals[n - every..n])
        && multiset(taken[n - 1]) == multiset(arrivals[n - every..n])
  {
    hide PutStep, Creators, ByCreator, Holds, Remainder;
    RemainderStep(n, every);
    if n > 0 {
      PrompterCutsArrivals(every, arrivals, tables, taken, n - 1);
      PrompterCuts(every, arrivals, n - 1, tables[n - 1], tables[n], taken[n - 1]);
      if Remainder(n, every) == 0 {
        RunIsFiled(arrivals, n - every, n);
      }
    } else {
      EmptyHolds();
    }
  }

  lemma RunIsFiled(arrivals: seq<Message>, from: nat, n: nat)
    requires from <= n <= |arrivals|
    ensures multiset(ByCreator(Creators(arrivals[..n]), arrivals[from..n])) == multiset(arrivals[from..n])
  {
    hide Creators, ByCreator, Distinct;
    CreatorsCover(arrivals[..n]);
    assert forall m :: m in arrivals[from..n] ==> m in arrivals[..n];
    ByCreatorKeepsContents(Creators(arrivals[..n]), arrivals[from..n]);
  }

  lemma NextIn<T>(s: seq<T>, from: nat, n: nat)
    requires from <= n < |s|
    ensures s[from..n] + [s[n]] == s[from..n + 1] && |s[from..n]| == n - from
  {
  }

  lemma {:induction false} CreatorsCover(s: seq<Message>)
    ensures Distinct(Creators(s)) && forall m :: m in s ==> m.creator in Creators(s)
  {
    if s != [] {
      CreatorsCover(s[..|s| - 1]);
      assert s == s[..|s| - 1] + [Last(s)];
    }
  }

  // ----- the prompter's policy in any table -----

  lemma TakenSize(t: Table, marks: seq<Mark>, m: Mark)
    requires MarksOk(t, marks) && MarksOk(t, marks + [m])
    ensures |Taken(t, marks + [m])| == |Taken(t, marks)| + |m.positions|
  {
    assert (marks + [m])[..|marks|] == marks;
  }

  /** The marks take the oldest messages of each of the first `i` sources, of no source before its predecessors are
    * exhausted. */
  ghost predicate TakesEarliest(t: Table, i: nat, marks: seq<Mark>)
    requires i <= |t.order|
  {
    && (forall j :: 0 <= j < i ==> EarliestOf(t, j, MarkedIn(marks, t.order[j])))
    && (forall j, l :: 0 <= j < l < i && MarkedIn(marks, t.order[l]) != [] ==>
          |MarkedIn(marks, t.order[j])| == |ListOf(t, j)|)
    && (forall k :: 0 <= k < |marks| ==> marks[k].positions != [])
  }

  predicate EarliestOf(t: Table, j: nat, positions: seq<nat>)
    requires j < |t.order|
  {
    |positions| <= |ListOf(t, j)| && forall p :: 0 <= p < |positions| ==> positions[p] == p
  }

  lemma {:induction false} FirstMarksTakeEarliest(t: Table, i: nat, n: int)
    requires TableOk(t) && i <= |t.order|
    ensures MarksOk(t, FirstMarks(t, i, n)) && TakesEarliest(t, i, FirstMarks(t, i, n))
    ensures |Taken(t, FirstMarks(t, i, n))| == if n <= 0 then 0 else if n <= Total(t, i) then n else Total(t, i)
    ensures forall k :: 0 <= k < |FirstMarks(t, i, n)| ==> FirstMarks(t, i, n)[k].creator in t.order[..i]
    ensures n > Total(t, i) ==>
        forall j :: 0 <= j < i ==> |MarkedIn(FirstMarks(t, i, n), t.order[j])| == |ListOf(t, j)|
  {
    hide TakesEarliest, MarkedIn, Taken, MarksOk, ListOf, TableOk;
    FirstMarksFit(t, i, n);
    if i == 0 {
      NothingEarlier(t);
    } else {
      FirstMarksTakeEarliest(t, i - 1, n);
      FirstMarksFit(t, i - 1, n);
      var earlier := FirstMarks(t, i - 1, n);
      var missing := n - Total(t, i - 1);
      var count := if missing < |ListOf(t, i - 1)| then missing else |ListOf(t, i - 1)|;
      OneMoreSource(t, i - 1, earlier, count);
      if count > 0 {
        TakenSize(t, earlier, Mark(t.order[i - 1], UpTo(count)));
      } else {
        assert earlier + [] == earlier;
      }
    }
  }

  lemma NothingEarlier(t: Table)
    ensures TakesEarliest(t, 0, []) && MarksOk(t, []) && Taken(t, []) == []
  {
  }

  lemma MarkedSnoc(marks: seq<Mark>, m: Mark, c: string)
    ensures MarkedIn(marks + [m], c) == if m.creator == c then m.positions else MarkedIn(marks, c)
  {
    assert (marks + [m])[..|marks|] == marks && Last(marks + [m]) == m;
  }

  lemma OneMoreSource(t: Table, i: nat, marks: seq<Mark>, count: int)
    requires TableOk(t) && i < |t.order| && TakesEarliest(t, i, marks) && count <= |ListOf(t, i)|
    requires forall k :: 0 <= k < |marks| ==> marks[k].creator in t.order[..i]
    requires count > 0 ==> forall j :: 0 <= j < i ==> |MarkedIn(marks, t.order[j])| == |ListOf(t, j)|
    ensures var more := marks + (if count > 0 then [Mark(t.order[i], UpTo(count))] else []);
      && TakesEarliest(t, i + 1, more)
      && (forall j :: 0 <= j < i ==> MarkedIn(more, t.order[j]) == MarkedIn(marks, t.order[j]))
      && |MarkedIn(more, t.order[i])| == if count > 0 then count else 0
  {
    hide MarkedIn, ListOf;
    assert t.order[i] !in t.order[..i];
    NotMarked(marks, t.order[i]);
    if count > 0 {
      var m := Mark(t.order[i], UpTo(count));
      MarkedSnoc(marks, m, t.order[i]);
      forall j | 0 <= j < i
        ensures MarkedIn(marks + [m], t.order[j]) == MarkedIn(marks, t.order[j])
      {
        assert t.order[j] in t.order[..i];
        MarkedSnoc(marks, m, t.order[j]);
      }
      EarliestMore(t, i, marks, marks + [m]);
    } else {
      assert marks + [] == marks;
      EarliestMore(t, i, marks, marks);
    }
  }

  lemma EarliestMore(t: Table, i: nat, marks: seq<Mark>, more: seq<Mark>)
    requires i < |t.order| && TakesEarliest(t, i, marks)
    requires forall j :: 0 <= j < i ==> MarkedIn(more, t.order[j]) == MarkedIn(marks, t.order[j])
    requires EarliestOf(t, i, MarkedIn(more, t.order[i]))
    requires MarkedIn(more, t.order[i]) != [] ==>
        forall j :: 0 <= j < i ==> |MarkedIn(marks, t.order[j])| == |ListOf(t, j)|
    requires forall k :: 0 <= k < |more| ==> more[k].positions != []
    ensures TakesEarliest(t, i + 1, more)
  {
    hide MarkedIn, ListOf, EarliestOf;
  }

  /** In any table that holds at least `every` messages the prompter's policy takes just `every`, the oldest of each
    * source, from sources in order, and from none before those ahead of it are exhausted; otherwise nothing. */
  lemma PrompterTakesEarliest(t: Table, every: int)
    requires TableOk(t)
    ensures var marks := PrompterMarks(t, every);
      && MarksOk(t, marks) && TakesEarliest(t, |t.order|, marks)
      && |Taken(t, marks)| == if 0 < every <= Total(t, |t.order|) then every else 0
  {
    FirstMarksTakeEarliest(t, |t.order|, every);
    if every > Total(t, |t.order|) {
      NoMarksNoChange(t);
    }
  }

  // ----- what is delivered -----

  /** Each departure is an arrival at which something left, and they come in order. */
  lemma {:induction false} DeparturesAre(taken: seq<seq<Message>>, n: nat)
    requires n <= |taken|
    ensures forall j :: 0 <= j < |Departures(taken[..n])| ==>
        Departures(taken[..n])[j] < n && taken[Departures(taken[..n])[j]] != []
  {
    if n > 0 {
      DeparturesAre(taken, n - 1);
      assert taken[..n][..n - 1] == taken[..n - 1];
    }
  }

  lemma {:induction false} AllDepart(taken: seq<seq<Message>>, n: nat)
    requires n <= |taken| && forall k :: 0 <= k < n ==> taken[k] != []
    ensures |Departures(taken[..n])| == n && forall j :: 0 <= j < n ==> Departures(taken[..n])[j] == j
  {
    if n > 0 {
      AllDepart(taken, n - 1);
      assert taken[..n][..n - 1] == taken[..n - 1];
    }
  }

  /** Under passthrough the update thread gets exactly the messages that arrived, in that order. */
  lemma PassthroughDelivers(name: string, arrivals: seq<Message>, tables: seq<Table>, taken: seq<seq<Message>>,
    given: seq<Message>)
    requires BufferRun(Passthrough, arrivals, tables, taken) && Carried(name, taken, given)
    ensures given == arrivals
  {
    hide BufferRun, Departures, Holds, Creators;
    RunSizes(Passthrough, arrivals, tables, taken);
    forall n | 0 <= n < |arrivals|
      ensures taken[n] == [arrivals[n]]
    {
      PassthroughIsFifo(arrivals, tables, taken, n);
    }
    AllDepart(taken, |taken|);
    assert taken[..|taken|] == taken;
  }

  lemma RunSizes(policy: Policy, arrivals: seq<Message>, tables: seq<Table>, taken: seq<seq<Message>>)
    requires BufferRun(policy, arrivals, tables, taken)
    ensures |tables| == |arrivals| + 1 && |taken| == |arrivals|
    ensures policy.Summarizer? ==> forall n :: 0 <= n < |arrivals| ==> arrivals[n].payload.Object?
  {
    hide PutStep;
    assert forall n :: 0 <= n < |arrivals| ==> arrivals[n] in arrivals;
  }

  function Multiple(j: nat, d: nat): nat
  {
    j * d
  }

  lemma MultipleStep(j: nat, d: nat)
    requires d > 0
    ensures Multiple(j + 1, d) == Multiple(j, d) + d && Remainder(Multiple(j, d), d) == 0 && Multiple(0, d) == 0
    ensures d == 1 ==> Multiple(j, d) == j
  {
    ModOf(j, 0, d);
  }

  /** A quotient, as the number of multiples that fit. */
  lemma QuotientStep(n: nat, d: nat)
    requires d > 0
    ensures (n + 1) / d == n / d + (if Remainder(n + 1, d) == 0 then 1 else 0)
    ensures Multiple(n / d, d) <= n && 0 / d == 0
    ensures Remainder(n, d) == 0 ==> n == Multiple(n / d, d)
  {
    ModStep(n, d);
    var q, r := n / d, n % d;
    var q', r' := (n + 1) / d, (n + 1) % d;
    assert n == d * q + r && n + 1 == d * q' + r';
    assert d * (q' - q) == (if r + 1 == d then d else 0);
    TimesOne(d, q' - q);
    NothingDivided(d);
  }

  lemma NothingDivided(d: nat)
    requires d > 0
    ensures 0 / d == 0
  {
  }

  lemma TimesOne(d: nat, k: int)
    requires d > 0
    ensures d * k == d ==> k == 1
    ensures d * k == 0 ==> k == 0
  {
    assert (k >= 2 ==> d * k >= 2 * d) && (k <= -1 ==> d * k <= 0 - d);
  }

  lemma {:induction false} MultiplesFit(j: nat, k: nat, d: nat)
    requires d > 0 && j <= k
    ensures Multiple(j, d) <= Multiple(k, d)
  {
    hide Multiple;
    if j < k {
      MultiplesFit(j, k - 1, d);
      MultipleStep(k - 1, d);
    }
  }

  lemma {:induction false} EveryNthDeparts(every: nat, taken: seq<seq<Message>>, n: nat)
    requires every >= 1 && n <= |taken|
    requires forall k :: 0 <= k < n ==> (taken[k] != [] <==> Remainder(k + 1, every) == 0)
    ensures |Departures(taken[..n])| == n / every
    ensures forall j :: 0 <= j < n / every ==> Departures(taken[..n])[j] == Multiple(j + 1, every) - 1
  {
    hide Remainder, Multiple;
    if n > 0 {
      EveryNthDeparts(every, taken, n - 1);
      QuotientStep(n - 1, every);
      QuotientStep(n, every);
      assert taken[..n] == taken[..n - 1] + [taken[n - 1]];
      DeparturesSnoc(taken[..n - 1], taken[n - 1]);
    } else {
      NothingDivided(every);
    }
  }

  /** Under the prompter's policy the update thread gets one message for each `every` arrivals: number `j` is the batch
    * of just the arrivals from `j * every` up to `(j + 1) * every`, in the order of the batch. */
  lemma PrompterDelivers(every: nat, name: string, arrivals: seq<Message>, tables: seq<Table>,
    taken: seq<seq<Message>>, given: seq<Message>, j: nat)
    requires every >= 1 && BufferRun(Prompter(every), arrivals, tables, taken) && Carried(name, taken, given)
    ensures |given| == |arrivals| / every
    ensures j < |given| ==>
        var start, end := Multiple(j, every), Multiple(j + 1, every);
        && start + every == end <= |arrivals|
        && if every == 1 then given[j] == arrivals[j]
           else given[j].payload.Batch?
                && multiset(given[j].payload.messages) == multiset(arrivals[start..end])
                && given[j].payload.messages == ByCreator(Creators(arrivals[..end]), arrivals[start..end])
  {
    hide BufferRun, Departures, Holds, Creators, ByCreator, Remainder, Multiple;
    RunSizes(Prompter(every), arrivals, tables, taken);
    PrompterDepartures(every, arrivals, tables, taken);
    EveryNthDeparts(every, taken, |taken|);
    assert taken[..|taken|] == taken;
    if j < |given| {
      PrompterBatch(every, arrivals, tables, taken, j);
      assert Departures(taken)[j] == Multiple(j + 1, every) - 1;
    }
  }

  lemma PrompterBatch(every: nat, arrivals: seq<Message>, tables: seq<Table>, taken: seq<seq<Message>>, j: nat)
    requires every >= 1 && BufferRun(Prompter(every), arrivals, tables, taken) && |taken| == |arrivals|
    requires j < |arrivals| / every
    ensures var start, end := Multiple(j, every), Multiple(j + 1, every);
      && start + every == end <= |arrivals| && |taken[end - 1]| == every
      && multiset(taken[end - 1]) == multiset(arrivals[start..end])
      && taken[end - 1] == ByCreator(Creators(arrivals[..end]), arrivals[start..end])
      && (every == 1 ==> taken[end - 1][0] == arrivals[j])
  {
    hide BufferRun, Holds, Creators, ByCreator, Remainder, Multiple;
    MultipleStep(j, every);
    MultipleStep(j + 1, every);
    QuotientStep(|arrivals|, every);
    MultiplesFit(j + 1, |arrivals| / every, every);
    var start, end := Multiple(j, every), Multiple(j + 1, every);
    PrompterCutsArrivals(every, arrivals, tables, taken, end);
    SameSize(taken[end - 1], arrivals[start..end]);
    if every == 1 {
      OnlyMember(taken[end - 1], arrivals[start..end]);
    }
  }

  lemma SameSize<T>(a: seq<T>, b: seq<T>)
    requires multiset(a) == multiset(b)
    ensures |a| == |b|
  {
    assert |multiset(a)| == |multiset(b)|;
  }

  lemma OnlyMember<T>(a: seq<T>, b: seq<T>)
    requires multiset(a) == multiset(b) && |b| == |a| == 1
    ensures a[0] == b[0]
  {
    assert a[0] in multiset(a);
  }

  lemma PrompterDepartures(every: nat, arrivals: seq<Message>, tables: seq<Table>, taken: seq<seq<Message>>)
    requires every >= 1 && BufferRun(Prompter(every), arrivals, tables, taken) && |taken| == |arrivals|
    ensures forall k :: 0 <= k < |taken| ==> (taken[k] != [] <==> Remainder(k + 1, every) == 0)
  {
    hide BufferRun, Holds, Creators, ByCreator, Remainder;
    forall k | 0 <= k < |taken|
      ensures taken[k] != [] <==> Remainder(k + 1, every) == 0
    {
      PrompterCutsArrivals(every, arrivals, tables, taken, k + 1);
      if Remainder(k + 1, every) == 0 {
        SameSize(taken[k], arrivals[k + 1 - every..k + 1]);
      }
    }
  }
}
