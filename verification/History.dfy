/** The summarizer's memory of topics: a table of the last summaries by topic, from which the topic that has not
  * been updated for the longest is dropped when a new one needs its place. */
module Histories {
  import opened Graphs

  datatype Entry = Entry(messages: seq<string>, lastUpdated: int)

  /** `order` is the order in which the topics entered. */
  datatype History = History(order: seq<string>, entries: map<string, Entry>)

  datatype Update = Update(topic: string, summary: string, at: int)

  ghost predicate HistoryOk(h: History)
  {
    Distinct(h.order) && forall t :: t in h.order <==> t in h.entries
  }

  /** A deque that keeps the last `max` elements, or all of them if `max` is 0. */
  function LastFew<T>(s: seq<T>, max: int): seq<T>
  {
    if max <= 0 || |s| <= max then s else s[|s| - max..]
  }

  /** `kept` is the end of `all`: the last `max` of them, or all if there are no more or `max` is 0. */
  predicate KeepsLast<T(==)>(kept: seq<T>, all: seq<T>, max: int)
  {
    |kept| == (if 0 < max < |all| then max else |all|) && kept == all[|all| - |kept|..]
  }

  /** The topic with the smallest time among the first `n`, the first of them if there are several. */
  function Oldest(h: History, n: nat): string
    requires HistoryOk(h) && 0 < n <= |h.order|
    ensures Oldest(h, n) in h.order[..n]
  {
    if n == 1 then h.order[0]
    else
      var t := Oldest(h, n - 1);
      assert h.order[n - 1] in h.order && t in h.order;
      if h.entries[h.order[n - 1]].lastUpdated < h.entries[t].lastUpdated then h.order[n - 1] else t
  }

  function Without(s: seq<string>, t: string): seq<string>
  {
    if s == [] then []
    else if s[0] == t then Without(s[1..], t) else [s[0]] + Without(s[1..], t)
  }

  function Dropped(h: History, t: string): History
  {
    History(Without(h.order, t), h.entries - {t})
  }

  predicate Full(h: History, maxTopics: int)
  {
    maxTopics != 0 && |h.order| == maxTopics
  }

  /** The table an update leaves, if nothing is raised. */
  function Updated(h: History, u: Update, maxTopics: int, maxHistory: int): History
    requires HistoryOk(h)
  {
    if u.topic in h.entries then
      h.(entries := h.entries[u.topic := Entry(LastFew(h.entries[u.topic].messages + [u.summary], maxHistory), u.at)])
    else
      var room := if Full(h, maxTopics) then Dropped(h, Oldest(h, |h.order|)) else h;
      History(room.order + [u.topic], room.entries[u.topic := Entry([u.summary], u.at)])
  }

  lemma {:induction false} WithoutAbsent(s: seq<string>, t: string)
    requires t !in s
    ensures Without(s, t) == s
  {
    if s != [] {
      assert s[0] in s;
      WithoutAbsent(s[1..], t);
    }
  }

  lemma {:induction false} WithoutIsExact(s: seq<string>, t: string)
    ensures forall x :: x in Without(s, t) <==> x in s && x != t
  {
    if s != [] {
      WithoutIsExact(s[1..], t);
      assert s == [s[0]] + s[1..];
    }
  }

  lemma {:induction false} WithoutStaysDistinct(s: seq<string>, t: string)
    requires Distinct(s)
    ensures Distinct(Without(s, t)) && |Without(s, t)| == if t in s then |s| - 1 else |s|
  {
    if s != [] {
      assert forall i :: 0 <= i < |s| - 1 ==> s[1..][i] == s[i + 1];
      WithoutStaysDistinct(s[1..], t);
      WithoutIsExact(s[1..], t);
      assert s[0] !in s[1..] && s[0] !in Without(s[1..], t);
      assert t in s <==> t == s[0] || t in s[1..];
    }
  }

  lemma UpdatedIsOk(h: History, u: Update, maxTopics: int, maxHistory: int)
    requires HistoryOk(h)
    ensures HistoryOk(Updated(h, u, maxTopics, maxHistory))
  {
    if Full(h, maxTopics) {
      WithoutIsExact(h.order, Oldest(h, |h.order|));
      WithoutStaysDistinct(h.order, Oldest(h, |h.order|));
    }
  }

  // ----- a whole run -----

  /** The distinct topics of some updates, most recently updated first. */
  function ByRecency(updates: seq<Update>): seq<string>
  {
    if updates == [] then []
    else
      var t := updates[|updates| - 1].topic;
      [t] + Without(ByRecency(updates[..|updates| - 1]), t)
  }

  /** How many of `n` topics there is room for; only a positive limit limits. */
  function Room(maxTopics: int, n: nat): nat
  {
    if 0 < maxTopics < n then maxTopics else n
  }

  /** The `maxTopics` most recently updated topics. */
  function Recent(updates: seq<Update>, maxTopics: int): seq<string>
  {
    ByRecency(updates)[..Room(maxTopics, |ByRecency(updates)|)]
  }

  /** The summaries of a topic since it last came among the most recent ones. */
  function SinceEntry(updates: seq<Update>, maxTopics: int, t: string): seq<string>
  {
    if updates == [] then []
    else
      var before, u := updates[..|updates| - 1], updates[|updates| - 1];
      if u.topic != t then SinceEntry(before, maxTopics, t)
      else (if t in Recent(before, maxTopics) then SinceEntry(before, maxTopics, t) else []) + [u.summary]
  }

  /** When a topic was last updated. */
  function LastUpdate(updates: seq<Update>, t: string): int
  {
    if updates == [] then 0
    else if updates[|updates| - 1].topic == t then updates[|updates| - 1].at
    else LastUpdate(updates[..|updates| - 1], t)
  }

  /** The summary of a topic's last update. */
  function LastSummary(updates: seq<Update>, t: string): string
  {
    if updates == [] then ""
    else if updates[|updates| - 1].topic == t then updates[|updates| - 1].summary
    else LastSummary(updates[..|updates| - 1], t)
  }

  ghost predicate Clock(updates: seq<Update>)
  {
    forall i, j :: 0 <= i < j < |updates| ==> updates[i].at < updates[j].at
  }

  /** The table is the least-recently-used cache the updates call for. */
  ghost predicate IsCache(h: History, updates: seq<Update>, maxTopics: int, maxHistory: int)
  {
    var recent := Recent(updates, maxTopics);
    && HistoryOk(h) && |h.order| == |recent|
    && (forall t :: t in h.entries <==> t in recent)
    && (forall t :: t in h.entries ==>
          && KeepsLast(h.entries[t].messages, SinceEntry(updates, maxTopics, t), maxHistory)
          && h.entries[t].lastUpdated == LastUpdate(updates, t))
  }

  function After(updates: seq<Update>, maxTopics: int, maxHistory: int): (h: History)
    ensures HistoryOk(h)
  {
    if updates == [] then History([], map[])
    else
      var before := After(updates[..|updates| - 1], maxTopics, maxHistory);
      UpdatedIsOk(before, updates[|updates| - 1], maxTopics, maxHistory);
      Updated(before, updates[|updates| - 1], maxTopics, maxHistory)
  }

  lemma {:induction false} RecencyIsOk(updates: seq<Update>)
    ensures Distinct(ByRecency(updates))
    ensures forall t :: t in ByRecency(updates) <==> exists i :: 0 <= i < |updates| && updates[i].topic == t
  {
    if updates != [] {
      var init := updates[..|updates| - 1];
      RecencyIsOk(init);
      WithoutIsExact(ByRecency(init), updates[|updates| - 1].topic);
      WithoutStaysDistinct(ByRecency(init), updates[|updates| - 1].topic);
      assert updates == init + [updates[|updates| - 1]];
      forall t
        ensures t in ByRecency(updates) <==> exists i :: 0 <= i < |updates| && updates[i].topic == t
      {
        if exists i :: 0 <= i < |init| && init[i].topic == t {
          var i :| 0 <= i < |init| && init[i].topic == t;
          assert updates[i].topic == t;
        }
        if t in ByRecency(updates) && t != updates[|updates| - 1].topic {
          var i :| 0 <= i < |init| && init[i].topic == t;
          assert updates[i].topic == t;
        }
      }
    }
  }

  /** Earlier in the list of recency is later in time. */
  lemma {:induction false} RecencyIsByTime(updates: seq<Update>, i: nat, j: nat)
    requires Clock(updates) && i < j < |ByRecency(updates)|
    ensures LastUpdate(updates, ByRecency(updates)[i]) > LastUpdate(updates, ByRecency(updates)[j])
  {
    hide Distinct, Without;
    var init, u := updates[..|updates| - 1], updates[|updates| - 1];
    var earlier := ByRecency(init);
    WithoutIsExact(earlier, u.topic);
    var b := Without(earlier, u.topic)[j - 1];
    assert b in Without(earlier, u.topic);
    if i == 0 {
      UpdatedBefore(init, b, u.at);
    } else {
      var a := Without(earlier, u.topic)[i - 1];
      assert a in Without(earlier, u.topic);
      WithoutKeepsOrder(earlier, u.topic, i - 1, j - 1);
      var k, l :| 0 <= k < l < |earlier| && earlier[k] == a && earlier[l] == b;
      RecencyIsByTime(init, k, l);
    }
  }

  lemma {:induction false} WithoutKeepsOrder(s: seq<string>, t: string, i: nat, j: nat)
    requires i < j < |Without(s, t)|
    ensures exists k, l :: 0 <= k < l < |s| && s[k] == Without(s, t)[i] && s[l] == Without(s, t)[j]
  {
    var rest := s[1..];
    if s[0] == t {
      WithoutKeepsOrder(rest, t, i, j);
      var k, l :| 0 <= k < l < |rest| && rest[k] == Without(rest, t)[i] && rest[l] == Without(rest, t)[j];
      assert s[k + 1] == rest[k] && s[l + 1] == rest[l];
    } else if i > 0 {
      WithoutKeepsOrder(rest, t, i - 1, j - 1);
      var k, l :| 0 <= k < l < |rest| && rest[k] == Without(rest, t)[i - 1] && rest[l] == Without(rest, t)[j - 1];
      assert s[k + 1] == rest[k] && s[l + 1] == rest[l];
    } else {
      WithoutIsExact(rest, t);
      assert Without(rest, t)[j - 1] in rest;
      var l :| 0 <= l < |rest| && rest[l] == Without(rest, t)[j - 1];
      assert s[0] == Without(s, t)[0] && s[l + 1] == rest[l];
    }
  }

  lemma {:induction false} UpdatedBefore(updates: seq<Update>, t: string, at: int)
    requires t in ByRecency(updates) && forall i :: 0 <= i < |updates| ==> updates[i].at < at
    ensures LastUpdate(updates, t) < at
  {
    if updates != [] && updates[|updates| - 1].topic != t {
      WithoutIsExact(ByRecency(updates[..|updates| - 1]), updates[|updates| - 1].topic);
      UpdatedBefore(updates[..|updates| - 1], t, at);
    }
  }

  // ----- one update -----

  lemma {:induction false} WithoutPrefix(s: seq<string>, t: string, k: nat)
    requires Distinct(s) && k <= |s|
    ensures t in s[..k] ==> k >= 1 && k - 1 <= |Without(s, t)| && Without(s, t)[..k - 1] == Without(s[..k], t)
    ensures t !in s[..k] ==> k <= |Without(s, t)| && Without(s, t)[..k] == s[..k]
  {
    if k > 0 {
      assert s[..k] == [s[0]] + s[1..][..k - 1];
      assert forall i :: 0 <= i < |s| - 1 ==> s[1..][i] == s[i + 1];
      assert s[0] !in s[1..];
      WithoutPrefix(s[1..], t, k - 1);
      if s[0] == t {
        WithoutAbsent(s[1..], t);
        WithoutAbsent(s[1..][..k - 1], t);
      }
    }
  }

  /** What one update does to the most recent topics. */
  lemma RecentStep(before: seq<Update>, u: Update, maxTopics: int)
    ensures var all, old_, new_ := ByRecency(before), Recent(before, maxTopics), Recent(before + [u], maxTopics);
      && (u.topic in old_ ==> |new_| == |old_| && forall x :: x in new_ <==> x in old_)
      && (u.topic !in old_ && !(0 < maxTopics <= |all|) ==>
            |new_| == |old_| + 1 && old_ == all && forall x :: x in new_ <==> x == u.topic || x in old_)
      && (u.topic !in old_ && 0 < maxTopics <= |all| ==>
            |new_| == |old_| == maxTopics && forall x :: x in new_ <==> x == u.topic || x in all[..maxTopics - 1])
  {
    hide Distinct, Without;
    assert (before + [u])[..|before|] == before;
    var all, t := ByRecency(before), u.topic;
    var k := Room(maxTopics, |all|);
    RecencyIsOk(before);
    WithoutPrefix(all, t, k);
    WithoutStaysDistinct(all, t);
    WithoutIsExact(all[..k], t);
    if t in all[..k] {
      TakeCons(t, Without(all, t), k);
    } else if 0 < maxTopics <= |all| {
      TakeTake(Without(all, t), all, k);
      TakeCons(t, Without(all, t), k);
    } else {
      WithoutAbsent(all, t);
      TakeCons(t, all, |all| + 1);
    }
  }

  lemma TakeCons(t: string, s: seq<string>, k: nat)
    requires 1 <= k <= |s| + 1
    ensures ([t] + s)[..k] == [t] + s[..k - 1] && s[..|s|] == s
  {
  }

  lemma TakeTake(a: seq<string>, b: seq<string>, k: nat)
    requires 1 <= k <= |a| && k <= |b| && a[..k] == b[..k]
    ensures a[..k - 1] == b[..k - 1]
  {
    assert a[..k - 1] == a[..k][..k - 1] && b[..k - 1] == b[..k][..k - 1];
  }

  lemma {:induction false} OldestIsMinimal(h: History, n: nat, i: nat)
    requires HistoryOk(h) && i < n <= |h.order|
    ensures Oldest(h, n) in h.entries && h.order[i] in h.entries
    ensures h.entries[Oldest(h, n)].lastUpdated <= h.entries[h.order[i]].lastUpdated
  {
    assert h.order[i] in h.order && Oldest(h, n) in h.order;
    if n > 1 {
      OldestIsMinimal(h, n - 1, if i < n - 1 then i else 0);
      assert h.order[n - 1] in h.order;
    }
  }

  /** No topic has a smaller time, and none that entered before has the same. */
  ghost predicate IsFirstOldest(h: History, t: string)
    requires HistoryOk(h)
  {
    exists k :: 0 <= k < |h.order| && h.order[k] == t && FirstOldest(h, |h.order|, k)
  }

  ghost predicate FirstOldest(h: History, n: nat, k: nat)
    requires HistoryOk(h) && k < n <= |h.order|
  {
    forall j :: 0 <= j < n ==>
      if j < k then TimeOf(h, j) > TimeOf(h, k) else TimeOf(h, j) >= TimeOf(h, k)
  }

  function TimeOf(h: History, i: nat): int
    requires HistoryOk(h) && i < |h.order|
  {
    assert h.order[i] in h.order;
    h.entries[h.order[i]].lastUpdated
  }

  lemma {:induction false} OldestIsFirst(h: History, n: nat)
    requires HistoryOk(h) && 0 < n <= |h.order|
    ensures exists k :: 0 <= k < n && h.order[k] == Oldest(h, n) && FirstOldest(h, n, k)
  {
    hide Distinct;
    if n == 1 {
      assert FirstOldest(h, 1, 0);
    } else {
      OldestIsFirst(h, n - 1);
      var k :| 0 <= k < n - 1 && h.order[k] == Oldest(h, n - 1) && FirstOldest(h, n - 1, k);
      if TimeOf(h, n - 1) < TimeOf(h, k) {
        assert FirstOldest(h, n, n - 1);
      } else {
        assert FirstOldest(h, n, k);
      }
    }
  }

  lemma FirstOldestIsIt(h: History)
    requires HistoryOk(h) && h.order != []
    ensures IsFirstOldest(h, Oldest(h, |h.order|))
  {
    hide Oldest, FirstOldest, Distinct;
    OldestIsFirst(h, |h.order|);
  }

  /** In a full cache the topic with the smallest time is the least recent of those held. */
  lemma OldestIsLeastRecent(h: History, updates: seq<Update>, maxTopics: int, maxHistory: int)
    requires Clock(updates) && IsCache(h, updates, maxTopics, maxHistory) && 0 < maxTopics <= |ByRecency(updates)|
    ensures h.order != [] && Oldest(h, |h.order|) == ByRecency(updates)[maxTopics - 1]
  {
    hide Distinct, ByRecency, SinceEntry, LastFew, KeepsLast, LastUpdate, Clock;
    var all, recent := ByRecency(updates), Recent(updates, maxTopics);
    assert recent == all[..maxTopics];
    var oldest, last := Oldest(h, |h.order|), all[maxTopics - 1];
    assert recent[maxTopics - 1] == last && last in recent && last in h.order;
    var i :| 0 <= i < |h.order| && h.order[i] == last;
    OldestIsMinimal(h, |h.order|, i);
    assert oldest in recent;
    var p :| 0 <= p < maxTopics && recent[p] == oldest;
    if p < maxTopics - 1 {
      RecencyIsByTime(updates, p, maxTopics - 1);
    }
  }

  lemma KeepsOneMore(kept: seq<string>, all: seq<string>, x: string, max: int)
    requires KeepsLast(kept, all, max)
    ensures KeepsLast(LastFew(kept + [x], max), all + [x], max)
  {
  }

  lemma EntriesStep(before: seq<Update>, u: Update, maxTopics: int, t: string)
    ensures LastUpdate(before + [u], t) == if t == u.topic then u.at else LastUpdate(before, t)
    ensures SinceEntry(before + [u], maxTopics, t)
         == if t != u.topic then SinceEntry(before, maxTopics, t)
            else (if t in Recent(before, maxTopics) then SinceEntry(before, maxTopics, t) else []) + [u.summary]
  {
    assert (before + [u])[..|before|] == before;
  }

  lemma UpdateKeepsCache(h: History, before: seq<Update>, u: Update, maxTopics: int, maxHistory: int)
    requires Clock(before) && maxHistory >= 0 && IsCache(h, before, maxTopics, maxHistory)
    ensures IsCache(Updated(h, u, maxTopics, maxHistory), before + [u], maxTopics, maxHistory)
  {
    hide Distinct, LastUpdate, SinceEntry, Recent, ByRecency, LastFew, KeepsLast, Clock;
    var h' := Updated(h, u, maxTopics, maxHistory);
    UpdatedIsOk(h, u, maxTopics, maxHistory);
    RecentStep(before, u, maxTopics);
    TopicsStep(h, before, u, maxTopics, maxHistory);
    forall t | t in h'.entries
      ensures KeepsLast(h'.entries[t].messages, SinceEntry(before + [u], maxTopics, t), maxHistory)
      ensures h'.entries[t].lastUpdated == LastUpdate(before + [u], t)
    {
      EntriesStep(before, u, maxTopics, t);
      if t == u.topic {
        if t in h.entries {
          KeepsOneMore(h.entries[t].messages, SinceEntry(before, maxTopics, t), u.summary, maxHistory);
        } else {
          OneSummary(u.summary, maxHistory);
          assert [] + [u.summary] == [u.summary];
        }
      }
    }
  }

  lemma OneSummary(summary: string, maxHistory: int)
    requires maxHistory >= 0
    ensures KeepsLast([summary], [summary], maxHistory)
  {
  }

  lemma TopicsStep(h: History, before: seq<Update>, u: Update, maxTopics: int, maxHistory: int)
    requires Clock(before) && IsCache(h, before, maxTopics, maxHistory)
    ensures var h', new_ := Updated(h, u, maxTopics, maxHistory), Recent(before + [u], maxTopics);
      |h'.order| == |new_| && forall t :: t in h'.entries <==> t in new_
  {
    hide Distinct, LastUpdate, SinceEntry, LastFew, KeepsLast, ByRecency;
    RecentStep(before, u, maxTopics);
    if u.topic !in h.entries && Full(h, maxTopics) {
      OldestIsLeastRecent(h, before, maxTopics, maxHistory);
      LastOfRecent(before, maxTopics);
      assert Oldest(h, |h.order|) in h.order;
      WithoutStaysDistinct(h.order, Oldest(h, |h.order|));
    }
  }

  lemma LastOfRecent(updates: seq<Update>, maxTopics: int)
    requires 0 < maxTopics <= |ByRecency(updates)|
    ensures forall x :: x in ByRecency(updates)[..maxTopics - 1]
                <==> x in Recent(updates, maxTopics) && x != ByRecency(updates)[maxTopics - 1]
  {
    RecencyIsOk(updates);
    var all := ByRecency(updates);
    assert all[..maxTopics] == all[..maxTopics - 1] + [all[maxTopics - 1]];
  }

  lemma UpdatedEntry(h: History, u: Update, maxTopics: int, maxHistory: int)
    requires HistoryOk(h)
    ensures var h' := Updated(h, u, maxTopics, maxHistory);
      && u.topic in h'.entries && h'.entries[u.topic].lastUpdated == u.at
      && if u.topic in h.entries then
           KeepsLast(h'.entries[u.topic].messages, h.entries[u.topic].messages + [u.summary], maxHistory)
         else
           h'.entries[u.topic].messages == [u.summary]
           && h' == var room := if Full(h, maxTopics) then Dropped(h, Oldest(h, |h.order|)) else h;
                    History(room.order + [u.topic], room.entries[u.topic := Entry([u.summary], u.at)])
  {
  }

  lemma ClockBefore(updates: seq<Update>, u: Update)
    requires Clock(updates + [u])
    ensures Clock(updates)
  {
    assert forall i :: 0 <= i < |updates| ==> (updates + [u])[i] == updates[i];
  }

  /** The last summary a held topic has is that of its latest update. */
  lemma {:induction false} LastIsLatest(updates: seq<Update>, maxTopics: int, t: string)
    requires t in ByRecency(updates)
    ensures SinceEntry(updates, maxTopics, t) != []
      && SinceEntry(updates, maxTopics, t)[|SinceEntry(updates, maxTopics, t)| - 1] == LastSummary(updates, t)
  {
    if updates != [] && updates[|updates| - 1].topic != t {
      WithoutIsExact(ByRecency(updates[..|updates| - 1]), updates[|updates| - 1].topic);
      LastIsLatest(updates[..|updates| - 1], maxTopics, t);
    }
  }

  /** After any run of updates with an increasing clock the table holds exactly the `maxTopics` most recently
    * updated topics, each with its last `maxHistory` summaries since it last came in. */
  lemma {:induction false} HistoryIsLruCache(updates: seq<Update>, maxTopics: int, maxHistory: int)
    requires Clock(updates) && maxHistory >= 0
    ensures var h, recent := After(updates, maxTopics, maxHistory), Recent(updates, maxTopics);
      && |h.order| == |recent| && (forall t :: t in h.entries <==> t in recent)
      && forall t :: t in recent ==>
           var kept, all := h.entries[t].messages, SinceEntry(updates, maxTopics, t);
           && |kept| == (if 0 < maxHistory < |all| then maxHistory else |all|) && kept == all[|all| - |kept|..]
           && kept != [] && kept[|kept| - 1] == LastSummary(updates, t)
           && h.entries[t].lastUpdated == LastUpdate(updates, t)
  {
    hide After, SinceEntry, LastUpdate, LastSummary, ByRecency;
    AfterIsCache(updates, maxTopics, maxHistory);
    forall t | t in Recent(updates, maxTopics)
      ensures var kept, all := After(updates, maxTopics, maxHistory).entries[t].messages,
                SinceEntry(updates, maxTopics, t);
        kept != [] && kept[|kept| - 1] == LastSummary(updates, t)
    {
      LastIsLatest(updates, maxTopics, t);
    }
  }

  lemma {:induction false} AfterIsCache(updates: seq<Update>, maxTopics: int, maxHistory: int)
    requires Clock(updates) && maxHistory >= 0
    ensures IsCache(After(updates, maxTopics, maxHistory), updates, maxTopics, maxHistory)
  {
    hide IsCache, Updated;
    if updates == [] {
      EmptyIsCache(maxTopics, maxHistory);
    } else {
      var before, u := updates[..|updates| - 1], updates[|updates| - 1];
      AfterIsCache(before, maxTopics, maxHistory);
      UpdateKeepsCache(After(before, maxTopics, maxHistory), before, u, maxTopics, maxHistory);
      assert updates == before + [u];
    }
  }

  lemma EmptyIsCache(maxTopics: int, maxHistory: int)
    ensures IsCache(History([], map[]), [], maxTopics, maxHistory)
  {
  }

  class SummarizerHistory {
    const maxTopics: int
    const maxHistory: int
    var history: History
    ghost var updates: seq<Update>   // what it was told so far, in order

    /** On an increasing clock, and unless the limit of messages is negative, the table is the cache of its updates. */
    ghost predicate Valid()
      reads this
    {
      && HistoryOk(history)
      && (Clock(updates) && maxHistory >= 0 ==> IsCache(history, updates, maxTopics, maxHistory))
    }

    constructor (maxTopics: int, maxHistory: int)
      ensures Valid() && this.maxTopics == maxTopics && this.maxHistory == maxHistory && history == History([], map[])
      ensures updates == []
    {
      this.maxTopics, this.maxHistory := maxTopics, maxHistory;
      history, updates := History([], map[]), [];
      EmptyIsCache(maxTopics, maxHistory);
    }

    method OldestTopic() returns (oldest: string)
      requires HistoryOk(history) && history.order != []
      ensures oldest == Oldest(history, |history.order|)
      ensures IsFirstOldest(history, oldest)
    {
      hide IsFirstOldest;
      oldest := history.order[0];
      for i := 1 to |history.order|
        invariant oldest == Oldest(history, i)
      {
        assert history.order[i] in history.order;
        if history.entries[history.order[i]].lastUpdated < history.entries[oldest].lastUpdated {
          oldest := history.order[i];
        }
      }
      FirstOldestIsIt(history);
    }

    /** A new topic with a negative `maxHistory` raises, as no deque can be that short; by then the oldest topic
      * may already be gone. */
    method UpdateHistory(u: Update) returns (raised: bool)
      requires Valid()
      modifies this
      ensures Valid() && updates == old(updates) + [u]
      ensures raised <==> u.topic !in old(history).entries && maxHistory < 0
      ensures !raised ==> history == Updated(old(history), u, maxTopics, maxHistory)
      ensures !raised ==> u.topic in history.entries && history.entries[u.topic].lastUpdated == u.at
      ensures !raised && u.topic in old(history).entries ==>
          KeepsLast(history.entries[u.topic].messages, old(history).entries[u.topic].messages + [u.summary], maxHistory)
      ensures !raised && u.topic !in old(history).entries ==> history.entries[u.topic].messages == [u.summary]
      ensures raised ==> history == (if Full(old(history), maxTopics)
                                     then Dropped(old(history), Oldest(old(history), |old(history).order|))
                                     else old(history))
    {
      hide IsCache, Updated;
      UpdatedIsOk(history, u, maxTopics, maxHistory);
      UpdatedEntry(history, u, maxTopics, maxHistory);
      if Clock(updates + [u]) && maxHistory >= 0 {
        ClockBefore(updates, u);
        UpdateKeepsCache(history, updates, u, maxTopics, maxHistory);
      }
      if u.topic in history.entries {
        Remember(u);
        raised := false;
      } else {
        MakeRoom();
        raised := maxHistory < 0;
        if !raised {
          Enter(u);
        }
      }
      updates := updates + [u];
    }

    /** One more summary of a topic that is there, in a deque that may drop its first. */
    method Remember(u: Update)
      requires HistoryOk(history) && u.topic in history.entries
      modifies `history
      ensures history == Updated(old(history), u, maxTopics, maxHistory)
    {
      var messages := history.entries[u.topic].messages + [u.summary];
      if maxHistory > 0 && |messages| > maxHistory {
        messages := messages[|messages| - maxHistory..];
      }
      history := history.(entries := history.entries[u.topic := Entry(messages, u.at)]);
    }

    /** The oldest topic goes if the table is full. */
    method MakeRoom()
      requires HistoryOk(history)
      modifies `history
      ensures HistoryOk(history)
      ensures history == if Full(old(history), maxTopics)
                         then Dropped(old(history), Oldest(old(history), |old(history).order|)) else old(history)
    {
      if maxTopics != 0 && |history.order| == maxTopics {
        var oldest := OldestTopic();
        WithoutIsExact(history.order, oldest);
        WithoutStaysDistinct(history.order, oldest);
        history := History(Without(history.order, oldest), history.entries - {oldest});
      }
    }

    method Enter(u: Update)
      modifies `history
      ensures history == History(old(history).order + [u.topic],
                                 old(history).entries[u.topic := Entry([u.summary], u.at)])
    {
      history := History(history.order + [u.topic], history.entries[u.topic := Entry([u.summary], u.at)]);
    }
  }
}
