/** Word times of a transcription made on concatenated speech, put back on the original time line.
  * Times are exact reals. */
module Rescaling {
  import opened Messages

  datatype Segment = Segment(start: real, end: real)

  /** A buffered audio message: where it starts, and the stretches of it that are speech. */
  datatype Clip = Clip(start: real, speech: seq<Segment>)

  datatype Word = Word(text: string, start: real, end: real, probability: real)

  /** A stretch of speech in absolute time, and its position in the concatenated speech. */
  datatype Span = Span(start: real, end: real, offset: real)

  function Length(s: Span): real
  {
    s.end - s.start
  }

  predicate Covers(s: Span, t: real)
  {
    s.offset <= t < s.offset + Length(s)
  }

  /** A place `at` for the concatenated time `t`, in the span that covers `t`. */
  ghost predicate PlacedIn(s: Span, t: real, at: real)
  {
    Covers(s, t) && at == s.start + (t - s.offset)
  }

  // ----- the spans of a buffer -----

  function ClipSpans(c: Clip, n: nat, offset: real): seq<Span>
    requires n <= |c.speech|
    ensures |ClipSpans(c, n, offset)| == n
  {
    if n == 0 then []
    else
      var earlier := ClipSpans(c, n - 1, offset);
      earlier + [Span(c.start + c.speech[n - 1].start, c.start + c.speech[n - 1].end, End(earlier, offset))]
  }

  /** Where the concatenated speech has got to after some spans. */
  function End(spans: seq<Span>, offset: real): real
  {
    if spans == [] then offset else spans[|spans| - 1].offset + Length(spans[|spans| - 1])
  }

  /** All spans of the first `n` clips. */
  function Spans(buffer: seq<Clip>, n: nat): seq<Span>
    requires n <= |buffer|
  {
    if n == 0 then []
    else Spans(buffer, n - 1) + ClipSpans(buffer[n - 1], |buffer[n - 1].speech|, End(Spans(buffer, n - 1), 0.0))
  }

  function AllSpans(buffer: seq<Clip>): seq<Span>
  {
    Spans(buffer, |buffer|)
  }

  /** How much speech there is. */
  function Total(buffer: seq<Clip>): real
  {
    End(AllSpans(buffer), 0.0)
  }

  /** Offsets run on from span to span. */
  ghost predicate Chained(spans: seq<Span>)
  {
    forall i :: 0 <= i < |spans| ==> spans[i].offset == End(spans[..i], 0.0)
  }

  lemma {:induction false} ClipIsChained(before: seq<Span>, c: Clip, n: nat)
    requires Chained(before) && n <= |c.speech|
    ensures Chained(before + ClipSpans(c, n, End(before, 0.0)))
    ensures End(before + ClipSpans(c, n, End(before, 0.0)), 0.0)
      == End(ClipSpans(c, n, End(before, 0.0)), End(before, 0.0))
  {
    if n == 0 {
      assert before + [] == before;
    } else {
      ClipIsChained(before, c, n - 1);
      var earlier := before + ClipSpans(c, n - 1, End(before, 0.0));
      var all := before + ClipSpans(c, n, End(before, 0.0));
      assert all[..|all| - 1] == earlier;
      forall i | 0 <= i < |all|
        ensures all[i].offset == End(all[..i], 0.0)
      {
        if i < |all| - 1 {
          assert all[..i] == earlier[..i] && all[i] == earlier[i];
        }
      }
    }
  }

  lemma {:induction false} SpansAreChained(buffer: seq<Clip>, n: nat)
    requires n <= |buffer|
    ensures Chained(Spans(buffer, n))
  {
    if n > 0 {
      SpansAreChained(buffer, n - 1);
      ClipIsChained(Spans(buffer, n - 1), buffer[n - 1], |buffer[n - 1].speech|);
    }
  }

  // ----- the loop over spans, for one word -----

  datatype Found = Found(start: Option<real>, end: Option<real>)

  function Both(f: Found): bool
  {
    f.start.Some? && f.end.Some?
  }

  function Look(s: Span, w: Word, f: Found): Found
  {
    Found(if Covers(s, w.start) then Some(s.start + (w.start - s.offset)) else f.start,
          if Covers(s, w.end) then Some(s.start + (w.end - s.offset)) else f.end)
  }

  /** Look at span after span until both times are found. */
  function Search(spans: seq<Span>, w: Word): Found
  {
    if spans == [] then Found(None, None)
    else
      var f := Search(spans[..|spans| - 1], w);
      if Both(f) then f else Look(spans[|spans| - 1], w, f)
  }

  function Moved(w: Word, f: Found): seq<Word>
  {
    if Both(f) then [w.(start := f.start.value, end := f.end.value)] else []
  }

  function Rescaled(words: seq<Word>, spans: seq<Span>): seq<Word>
  {
    if words == [] then []
    else Rescaled(words[..|words| - 1], spans) + Moved(words[|words| - 1], Search(spans, words[|words| - 1]))
  }

  lemma {:induction false} FoundStays(a: seq<Span>, b: seq<Span>, w: Word)
    requires Both(Search(a, w))
    ensures Search(a + b, w) == Search(a, w)
  {
    if b == [] {
      assert a + b == a;
    } else {
      FoundStays(a, b[..|b| - 1], w);
      assert (a + b)[..|a + b| - 1] == a + b[..|b| - 1];
    }
  }

  /** A span is looked at unless both times have been found in earlier ones. */
  ghost predicate LookedAt(spans: seq<Span>, w: Word, n: nat)
    requires n < |spans|
  {
    !(CoveredBefore(spans, n, w.start) && CoveredBefore(spans, n, w.end))
  }

  ghost predicate CoveredBefore(spans: seq<Span>, n: nat, t: real)
    requires n <= |spans|
  {
    exists i :: 0 <= i < n && Covers(spans[i], t)
  }

  /** `found` is the place of time `t` in the last span that covers it, of those that are looked at. */
  ghost predicate FoundLast(spans: seq<Span>, w: Word, t: real, found: Option<real>)
  {
    if found.None? then !CoveredBefore(spans, |spans|, t)
    else exists i :: 0 <= i < |spans| && LookedAt(spans, w, i) && PlacedIn(spans[i], t, found.value)
                     && forall j :: i < j < |spans| && LookedAt(spans, w, j) ==> !Covers(spans[j], t)
  }

  lemma LookedAtPrefix(spans: seq<Span>, w: Word, n: nat)
    requires n < |spans| - 1
    ensures LookedAt(spans[..|spans| - 1], w, n) == LookedAt(spans, w, n)
  {
    var init := spans[..|spans| - 1];
    assert forall i :: 0 <= i < n ==> init[i] == spans[i];
  }

  lemma FoundLastMore(spans: seq<Span>, w: Word, t: real, found: Option<real>)
    requires spans != [] && FoundLast(spans[..|spans| - 1], w, t, found)
    ensures var s := spans[|spans| - 1];
      if LookedAt(spans, w, |spans| - 1) && Covers(s, t) then FoundLast(spans, w, t, Some(s.start + (t - s.offset)))
      else (t == w.start || t == w.end) ==> FoundLast(spans, w, t, found)
  {
    hide Covers, LookedAt, CoveredBefore;
    var last := |spans| - 1;
    var init := spans[..last];
    forall n | 0 <= n < last
      ensures LookedAt(init, w, n) == LookedAt(spans, w, n) && init[n] == spans[n]
    {
      LookedAtPrefix(spans, w, n);
    }
    CoveredPrefix(spans, w, t);
    if found.Some? {
      var i :| 0 <= i < |init| && LookedAt(init, w, i) && PlacedIn(init[i], t, found.value)
        && forall j :: i < j < |init| && LookedAt(init, w, j) ==> !Covers(init[j], t);
      assert LookedAt(spans, w, i) && PlacedIn(spans[i], t, found.value);
    }
  }

  lemma CoveredPrefix(spans: seq<Span>, w: Word, t: real)
    requires spans != []
    ensures var last := |spans| - 1;
      && CoveredBefore(spans, last, t) == CoveredBefore(spans[..last], last, t)
      && (CoveredBefore(spans, |spans|, t) <==> CoveredBefore(spans, last, t) || Covers(spans[last], t))
      && (!LookedAt(spans, w, last) && (t == w.start || t == w.end) ==> CoveredBefore(spans, last, t))
  {
    hide Covers;
    var last := |spans| - 1;
    assert forall i :: 0 <= i < last ==> spans[..last][i] == spans[i];
  }

  /** Whatever the segments, overlapping or not, each time is put in the last span that covers it, of those looked at
    * before both were found. */
  lemma {:induction false} SearchIsExact(spans: seq<Span>, w: Word)
    ensures FoundLast(spans, w, w.start, Search(spans, w).start) && FoundLast(spans, w, w.end, Search(spans, w).end)
  {
    hide FoundLast, Covers, LookedAt;
    if spans == [] {
      NothingCovered(w, w.start);
      NothingCovered(w, w.end);
    } else {
      var init := spans[..|spans| - 1];
      SearchIsExact(init, w);
      var f := Search(init, w);
      FoundLastMore(spans, w, w.start, f.start);
      FoundLastMore(spans, w, w.end, f.end);
      BothMeansOver(spans, w, f);
    }
  }

  lemma NothingCovered(w: Word, t: real)
    ensures FoundLast([], w, t, None)
  {
  }

  lemma BothMeansOver(spans: seq<Span>, w: Word, f: Found)
    requires spans != []
    requires FoundLast(spans[..|spans| - 1], w, w.start, f.start) && FoundLast(spans[..|spans| - 1], w, w.end, f.end)
    ensures LookedAt(spans, w, |spans| - 1) <==> !Both(f)
  {
    hide Covers;
    var init := spans[..|spans| - 1];
    assert forall i :: 0 <= i < |init| ==> init[i] == spans[i];
    hide LookedAt;
    FoundIsCovered(init, w, w.start, f.start);
    FoundIsCovered(init, w, w.end, f.end);
    CoveredPrefix(spans, w, w.start);
    CoveredPrefix(spans, w, w.end);
    LookedAtIs(spans, w, |spans| - 1);
  }

  lemma LookedAtIs(spans: seq<Span>, w: Word, n: nat)
    requires n < |spans|
    ensures LookedAt(spans, w, n) <==> !(CoveredBefore(spans, n, w.start) && CoveredBefore(spans, n, w.end))
  {
  }

  lemma FoundIsCovered(spans: seq<Span>, w: Word, t: real, found: Option<real>)
    requires FoundLast(spans, w, t, found)
    ensures found.Some? <==> CoveredBefore(spans, |spans|, t)
  {
    hide LookedAt;
  }

  method RescaleTrxWords(words: seq<Word>, buffer: seq<Clip>) returns (rescaled: seq<Word>)
    ensures rescaled == Rescale(words, buffer)
    ensures Consecutive(buffer) ==> AreRescaled(buffer, words, Kept(words, Speech(buffer)), rescaled)
  {
    hide Consecutive, AreRescaled, Kept, Speech;
    if Consecutive(buffer) {
      RescalingInvertsConcatenation(words, buffer);
    }
    if buffer == [] || words == [] {
      NothingToRescale(words);
      return [];
    }
    var timeMap := ChunkTimeMap(buffer);
    rescaled := [];
    for j := 0 to |words|
      invariant rescaled == Rescaled(words[..j], AllSpans(buffer))
    {
      var found := SearchMap(words[j], timeMap);
      if Both(found) {
        rescaled := rescaled + [words[j].(start := found.start.value, end := found.end.value)];
      }
      assert words[..j + 1][..j] == words[..j];
    }
    assert words[..|words|] == words;
  }

  /** The first `n` lists of a time map, as one list. */
  function Flat(timeMap: seq<seq<Span>>, n: nat): seq<Span>
    requires n <= |timeMap|
  {
    if n == 0 then [] else Flat(timeMap, n - 1) + timeMap[n - 1]
  }

  lemma {:induction false} FlatFrame(a: seq<seq<Span>>, b: seq<seq<Span>>, n: nat)
    requires n <= |a| && n <= |b| && forall i :: 0 <= i < n ==> a[i] == b[i]
    ensures Flat(a, n) == Flat(b, n)
  {
    if n > 0 {
      FlatFrame(a, b, n - 1);
    }
  }

  method ChunkTimeMap(buffer: seq<Clip>) returns (timeMap: seq<seq<Span>>)
    ensures Flat(timeMap, |timeMap|) == AllSpans(buffer)
  {
    timeMap := [];
    var accumulated := 0.0;
    for i := 0 to |buffer|
      invariant |timeMap| == i && Flat(timeMap, i) == Spans(buffer, i) && accumulated == End(Spans(buffer, i), 0.0)
    {
      var c := buffer[i];
      var offsets: seq<Span> := [];
      ghost var before := accumulated;
      for n := 0 to |c.speech|
        invariant offsets == ClipSpans(c, n, before) && accumulated == End(offsets, before)
      {
        offsets := offsets + [Span(c.start + c.speech[n].start, c.start + c.speech[n].end, accumulated)];
        accumulated := accumulated + (c.speech[n].end - c.speech[n].start);
      }
      EndOfConcat(Spans(buffer, i), offsets);
      FlatFrame(timeMap, timeMap + [offsets], i);
      timeMap := timeMap + [offsets];
    }
  }

  /** The two inner loops: clip by clip, span by span, leaving both as soon as both times are known. */
  method SearchMap(w: Word, timeMap: seq<seq<Span>>) returns (found: Found)
    ensures found == Search(Flat(timeMap, |timeMap|), w)
  {
    hide Look;
    found := Found(None, None);
    for i := 0 to |timeMap|
      invariant found == Search(Flat(timeMap, i), w) && !Both(found)
    {
      found := SearchClip(w, timeMap[i], found, Flat(timeMap, i));
      if Both(found) {
        FlatPrefix(timeMap, i + 1);
        FoundStays(Flat(timeMap, i + 1), Flat(timeMap, |timeMap|)[|Flat(timeMap, i + 1)|..], w);
        return;
      }
    }
  }

  method SearchClip(w: Word, spans: seq<Span>, sofar: Found, ghost before: seq<Span>) returns (found: Found)
    requires sofar == Search(before, w) && !Both(sofar)
    ensures found == Search(before + spans, w)
  {
    hide Look;
    found := sofar;
    assert before + spans[..0] == before;
    for n := 0 to |spans|
      invariant found == Search(before + spans[..n], w) && !Both(found)
    {
      found := Look(spans[n], w, found);
      assert (before + spans[..n + 1])[..|before| + n] == before + spans[..n];
      if Both(found) {
        FoundStays(before + spans[..n + 1], spans[n + 1..], w);
        assert (before + spans[..n + 1]) + spans[n + 1..] == before + spans;
        return;
      }
    }
    assert spans[..|spans|] == spans;
  }

  lemma EndOfConcat(a: seq<Span>, b: seq<Span>)
    ensures End(a + b, 0.0) == End(b, End(a, 0.0))
  {
    if b == [] {
      assert a + b == a;
    }
  }

  lemma {:induction false} NothingToRescale(words: seq<Word>)
    ensures Rescaled(words, []) == []
  {
    if words != [] {
      NothingToRescale(words[..|words| - 1]);
    }
  }

  lemma {:induction false} FlatPrefix(timeMap: seq<seq<Span>>, n: nat)
    requires n <= |timeMap|
    ensures Flat(timeMap, n) <= Flat(timeMap, |timeMap|)
    ensures Flat(timeMap, n) + Flat(timeMap, |timeMap|)[|Flat(timeMap, n)|..] == Flat(timeMap, |timeMap|)
    decreases |timeMap| - n
  {
    if n < |timeMap| {
      FlatPrefix(timeMap, n + 1);
    }
  }

  // ----- speech segments that follow one another -----

  /** Every span runs forward, and each ends before the next begins. */
  ghost predicate Ordered(spans: seq<Span>)
  {
    && (forall i :: 0 <= i < |spans| ==> spans[i].start <= spans[i].end)
    && (forall i, j :: 0 <= i < j < |spans| ==> spans[i].end <= spans[j].start)
  }

  lemma {:induction false} OffsetsIncrease(spans: seq<Span>, i: nat, j: nat)
    requires Chained(spans) && Ordered(spans) && i < j < |spans|
    ensures spans[i].offset + Length(spans[i]) <= spans[j].offset
  {
    assert spans[..j][j - 1] == spans[j - 1];
    if i < j - 1 {
      OffsetsIncrease(spans, i, j - 1);
    }
  }

  /** How much speech there is before a moment of the original time line. */
  function SpeechBefore(spans: seq<Span>, at: real): real
  {
    if spans == [] then 0.0
    else
      var s := spans[|spans| - 1];
      SpeechBefore(spans[..|spans| - 1], at)
        + (if at <= s.start then 0.0 else if at >= s.end then Length(s) else at - s.start)
  }

  ghost predicate InSpeech(spans: seq<Span>, at: real)
  {
    exists i :: 0 <= i < |spans| && spans[i].start <= at < spans[i].end
  }

  lemma {:induction false} PrefixOfSpans(spans: seq<Span>, n: nat)
    requires Chained(spans) && Ordered(spans) && n <= |spans|
    ensures Chained(spans[..n]) && Ordered(spans[..n])
  {
    forall i | 0 <= i < n
      ensures spans[..n][i].offset == End(spans[..n][..i], 0.0)
    {
      assert spans[..n][..i] == spans[..i];
    }
  }

  /** All of the speech lies before a moment after the last span. */
  lemma {:induction false} AllBefore(spans: seq<Span>, at: real)
    requires Chained(spans) && Ordered(spans) && (spans != [] ==> spans[|spans| - 1].end <= at)
    ensures SpeechBefore(spans, at) == End(spans, 0.0) && End(spans, 0.0) >= 0.0
  {
    if spans != [] {
      var last := |spans| - 1;
      PrefixOfSpans(spans, last);
      assert last > 0 ==> spans[last - 1].end <= spans[last].start;
      AllBefore(spans[..last], at);
      assert spans[last].offset == End(spans[..last], 0.0);
    }
  }

  lemma AllBeforeStart(spans: seq<Span>, at: real)
    requires Chained(spans) && Ordered(spans) && spans != [] && spans[|spans| - 1].start <= at
    ensures SpeechBefore(spans[..|spans| - 1], at) == spans[|spans| - 1].offset
  {
    PrefixOfSpans(spans, |spans| - 1);
    AllBefore(spans[..|spans| - 1], at);
  }

  /** Being the place of `t` is lying in that span with exactly `t` of speech before. */
  lemma {:induction false} PlaceHasSpeechBefore(spans: seq<Span>, i: nat, t: real, at: real)
    requires Chained(spans) && Ordered(spans) && i < |spans|
    ensures PlacedIn(spans[i], t, at) <==> spans[i].start <= at < spans[i].end && SpeechBefore(spans, at) == t
  {
    var last := |spans| - 1;
    PrefixOfSpans(spans, last);
    if i == last {
      if spans[last].start <= at {
        AllBeforeStart(spans, at);
      }
    } else {
      PlaceHasSpeechBefore(spans[..last], i, t, at);
    }
  }

  // ----- what the search finds -----

  /** `found` is the right answer for concatenated time `t`: none outside the speech, and otherwise the moment
    * in speech that has `t` of speech before it. */
  ghost predicate Inverts(spans: seq<Span>, t: real, found: Option<real>)
  {
    && (found.Some? <==> 0.0 <= t < End(spans, 0.0))
    && (found.Some? ==> InSpeech(spans, found.value) && SpeechBefore(spans, found.value) == t)
  }

  lemma InvertsOneMore(spans: seq<Span>, t: real, found: Option<real>)
    requires Chained(spans) && Ordered(spans) && spans != []
    requires Inverts(spans[..|spans| - 1], t, found)
    ensures var s := spans[|spans| - 1];
      Inverts(spans, t, if Covers(s, t) then Some(s.start + (t - s.offset)) else found)
    ensures found.Some? ==> Inverts(spans, t, found)
  {
    hide SpeechBefore, InSpeech;
    var last := |spans| - 1;
    PrefixOfSpans(spans, last);
    AllBefore(spans[..last], spans[last].start);
    if found.Some? {
      SpeechStays(spans, found.value);
    }
    if Covers(spans[last], t) {
      LastPlace(spans, t);
    }
  }

  lemma SpeechStays(spans: seq<Span>, at: real)
    requires Ordered(spans) && spans != [] && InSpeech(spans[..|spans| - 1], at)
    ensures InSpeech(spans, at) && SpeechBefore(spans, at) == SpeechBefore(spans[..|spans| - 1], at)
  {
    var before := spans[..|spans| - 1];
    var i :| 0 <= i < |before| && before[i].start <= at < before[i].end;
    assert spans[i] == before[i];
  }

  lemma LastPlace(spans: seq<Span>, t: real)
    requires Chained(spans) && Ordered(spans) && spans != [] && Covers(spans[|spans| - 1], t)
    ensures var s := spans[|spans| - 1]; var at := s.start + (t - s.offset);
      InSpeech(spans, at) && SpeechBefore(spans, at) == t
  {
    hide SpeechBefore, Chained, Ordered;
    var last := |spans| - 1;
    var at := spans[last].start + (t - spans[last].offset);
    PlaceHasSpeechBefore(spans, last, t, at);
    assert PlacedIn(spans[last], t, at) && spans[last].start <= at < spans[last].end;
  }

  lemma {:induction false} SearchInverts(spans: seq<Span>, w: Word)
    requires Chained(spans) && Ordered(spans)
    ensures Inverts(spans, w.start, Search(spans, w).start) && Inverts(spans, w.end, Search(spans, w).end)
  {
    hide Inverts, Chained, Ordered;
    if spans == [] {
      NothingInverts(w.start);
      NothingInverts(w.end);
    } else {
      PrefixOfSpans(spans, |spans| - 1);
      SearchInverts(spans[..|spans| - 1], w);
      var f := Search(spans[..|spans| - 1], w);
      InvertsOneMore(spans, w.start, f.start);
      InvertsOneMore(spans, w.end, f.end);
    }
  }

  lemma NothingInverts(t: real)
    ensures Inverts([], t, None)
  {
  }

  /** Between two moments there is no more speech than time. */
  lemma {:induction false} SpeechIsNoLonger(spans: seq<Span>, at: real, later: real)
    requires Chained(spans) && Ordered(spans) && at <= later
    ensures 0.0 <= SpeechBefore(spans, later) - SpeechBefore(spans, at) <= later - at
  {
    if spans != [] {
      var last := |spans| - 1;
      PrefixOfSpans(spans, last);
      if later <= spans[last].start {
        SpeechIsNoLonger(spans[..last], at, later);
      } else {
        var mid := if at <= spans[last].start then spans[last].start else at;
        SpeechIsNoLonger(spans[..last], at, mid);
        AllBeforeStart(spans, later);
        AllBeforeStart(spans, mid);
      }
    }
  }

  // ----- the clips themselves -----

  /** When segment `n` of a clip begins and ends on the original time line. */
  function Begins(c: Clip, n: nat): real
    requires n < |c.speech|
  {
    c.start + c.speech[n].start
  }

  function Ends(c: Clip, n: nat): real
    requires n < |c.speech|
  {
    c.start + c.speech[n].end
  }

  /** No segment ends before it begins, and each ends before the next begins, in its own clip and in later ones. */
  ghost predicate Consecutive(buffer: seq<Clip>)
  {
    && (forall i, n :: 0 <= i < |buffer| && 0 <= n < |buffer[i].speech| ==> Begins(buffer[i], n) <= Ends(buffer[i], n))
    && (forall i, m, n :: 0 <= i < |buffer| && 0 <= m < n < |buffer[i].speech| ==>
          Ends(buffer[i], m) <= Begins(buffer[i], n))
    && (forall i, j, m, n ::
          0 <= i < j < |buffer| && 0 <= m < |buffer[i].speech| && 0 <= n < |buffer[j].speech| ==>
          Ends(buffer[i], m) <= Begins(buffer[j], n))
  }

  /** A moment lies in the speech if it lies in some segment of some clip. */
  ghost predicate Spoken(buffer: seq<Clip>, at: real)
  {
    exists i, n :: 0 <= i < |buffer| && 0 <= n < |buffer[i].speech| && Begins(buffer[i], n) <= at < Ends(buffer[i], n)
  }

  /** How much of the first `n` segments of a clip is over at a moment. */
  function HeardOf(c: Clip, n: nat, at: real): real
    requires n <= |c.speech|
  {
    if n == 0 then 0.0
    else
      HeardOf(c, n - 1, at)
      + (if at <= Begins(c, n - 1) then 0.0
         else if at >= Ends(c, n - 1) then c.speech[n - 1].end - c.speech[n - 1].start
         else at - Begins(c, n - 1))
  }

  /** How much speech of all clips there is before a moment. */
  function Heard(buffer: seq<Clip>, at: real): real
  {
    if buffer == [] then 0.0
    else
      var c := buffer[|buffer| - 1];
      Heard(buffer[..|buffer| - 1], at) + HeardOf(c, |c.speech|, at)
  }

  function SpeechOf(c: Clip, n: nat): real
    requires n <= |c.speech|
  {
    if n == 0 then 0.0 else SpeechOf(c, n - 1) + (c.speech[n - 1].end - c.speech[n - 1].start)
  }

  /** How much speech there is in all clips. */
  function Speech(buffer: seq<Clip>): real
  {
    if buffer == [] then 0.0
    else
      var c := buffer[|buffer| - 1];
      Speech(buffer[..|buffer| - 1]) + SpeechOf(c, |c.speech|)
  }

  lemma {:induction false} ClipSpanAt(c: Clip, n: nat, offset: real, k: nat)
    requires k < n <= |c.speech|
    ensures ClipSpans(c, n, offset)[k].start == Begins(c, k) && ClipSpans(c, n, offset)[k].end == Ends(c, k)
  {
    if k < n - 1 {
      ClipSpanAt(c, n - 1, offset, k);
    }
  }

  lemma SpansSnoc(buffer: seq<Clip>)
    requires buffer != []
    ensures var init, c := buffer[..|buffer| - 1], buffer[|buffer| - 1];
      AllSpans(buffer) == AllSpans(init) + ClipSpans(c, |c.speech|, End(AllSpans(init), 0.0))
  {
    SpansFrame(buffer, buffer[..|buffer| - 1], |buffer| - 1);
  }

  lemma {:induction false} SpansFrame(a: seq<Clip>, b: seq<Clip>, n: nat)
    requires n <= |a| && n <= |b| && a[..n] == b[..n]
    ensures Spans(a, n) == Spans(b, n)
  {
    if n > 0 {
      assert a[..n][n - 1] == b[..n][n - 1] && a[..n][..n - 1] == a[..n - 1] && b[..n][..n - 1] == b[..n - 1];
      SpansFrame(a, b, n - 1);
    }
  }

  /** Which segment a span is. */
  lemma {:induction false} SegmentOf(buffer: seq<Clip>, k: nat) returns (i: nat, n: nat)
    requires k < |AllSpans(buffer)|
    ensures i < |buffer| && n < |buffer[i].speech|
    ensures AllSpans(buffer)[k].start == Begins(buffer[i], n) && AllSpans(buffer)[k].end == Ends(buffer[i], n)
  {
    hide AllSpans;
    if buffer == [] {
      assert AllSpans(buffer) == [] by { NoSpans(); }
      assert false;
    }
    SpansSnoc(buffer);
    var init, c := buffer[..|buffer| - 1], buffer[|buffer| - 1];
    if k < |AllSpans(init)| {
      i, n := SegmentOf(init, k);
    } else {
      i, n := |buffer| - 1, k - |AllSpans(init)|;
      ClipSpanAt(c, |c.speech|, End(AllSpans(init), 0.0), n);
    }
  }

  lemma NoSpans()
    ensures AllSpans([]) == []
  {
  }

  /** Which span a segment is. */
  lemma {:induction false} SpanOf(buffer: seq<Clip>, i: nat, n: nat) returns (k: nat)
    requires i < |buffer| && n < |buffer[i].speech|
    ensures k < |AllSpans(buffer)|
    ensures AllSpans(buffer)[k].start == Begins(buffer[i], n) && AllSpans(buffer)[k].end == Ends(buffer[i], n)
  {
    hide AllSpans;
    SpansSnoc(buffer);
    var init, c := buffer[..|buffer| - 1], buffer[|buffer| - 1];
    if i < |init| {
      k := SpanOf(init, i, n);
    } else {
      k := |AllSpans(init)| + n;
      ClipSpanAt(c, |c.speech|, End(AllSpans(init), 0.0), n);
    }
  }

  lemma SpokenIsInSpeech(buffer: seq<Clip>, at: real)
    ensures Spoken(buffer, at) <==> InSpeech(AllSpans(buffer), at)
  {
    hide AllSpans;
    if Spoken(buffer, at) {
      var i, n :| 0 <= i < |buffer| && 0 <= n < |buffer[i].speech|
        && Begins(buffer[i], n) <= at < Ends(buffer[i], n);
      var k := SpanOf(buffer, i, n);
    }
    if InSpeech(AllSpans(buffer), at) {
      var k :| 0 <= k < |AllSpans(buffer)| && AllSpans(buffer)[k].start <= at < AllSpans(buffer)[k].end;
      var i, n := SegmentOf(buffer, k);
    }
  }

  lemma {:induction false} ConsecutiveIsOrdered(buffer: seq<Clip>)
    requires Consecutive(buffer)
    ensures Ordered(AllSpans(buffer))
  {
    hide AllSpans;
    if buffer == [] {
      NoSpans();
    } else {
      var init, c := buffer[..|buffer| - 1], buffer[|buffer| - 1];
      var earlier, own := AllSpans(init), ClipSpans(c, |c.speech|, End(AllSpans(init), 0.0));
      SpansSnoc(buffer);
      ConsecutiveIsOrdered(init);
      forall n | 0 <= n < |own|
        ensures own[n].start == Begins(c, n) && own[n].end == Ends(c, n)
      {
        ClipSpanAt(c, |c.speech|, End(AllSpans(init), 0.0), n);
      }
      forall k | 0 <= k < |earlier|
        ensures forall n :: 0 <= n < |own| ==> earlier[k].end <= own[n].start
      {
        var i, m := SegmentOf(init, k);
        assert init[i] == buffer[i];
      }
      OrderedConcat(earlier, own);
    }
  }

  lemma OrderedConcat(a: seq<Span>, b: seq<Span>)
    requires Ordered(a) && Ordered(b)
    requires forall i, j :: 0 <= i < |a| && 0 <= j < |b| ==> a[i].end <= b[j].start
    ensures Ordered(a + b)
  {
  }

  lemma {:induction false} SpeechBeforeConcat(a: seq<Span>, b: seq<Span>, at: real)
    ensures SpeechBefore(a + b, at) == SpeechBefore(a, at) + SpeechBefore(b, at)
  {
    if b == [] {
      assert a + b == a;
    } else {
      SpeechBeforeConcat(a, b[..|b| - 1], at);
      assert (a + b)[..|a + b| - 1] == a + b[..|b| - 1];
    }
  }

  lemma ClipSpansSnoc(c: Clip, n: nat, offset: real)
    requires 0 < n <= |c.speech|
    ensures var earlier, all := ClipSpans(c, n - 1, offset), ClipSpans(c, n, offset);
      all == earlier + [all[n - 1]] && all[n - 1].offset == End(earlier, offset)
    ensures Length(ClipSpans(c, n, offset)[n - 1]) == c.speech[n - 1].end - c.speech[n - 1].start
  {
  }

  lemma SpeechBeforeSnoc(spans: seq<Span>, s: Span, at: real)
    ensures SpeechBefore(spans + [s], at)
      == SpeechBefore(spans, at) + (if at <= s.start then 0.0 else if at >= s.end then Length(s) else at - s.start)
  {
    assert (spans + [s])[..|spans|] == spans;
  }

  lemma {:induction false} HeardOfClip(c: Clip, n: nat, offset: real, at: real)
    requires n <= |c.speech|
    ensures SpeechBefore(ClipSpans(c, n, offset), at) == HeardOf(c, n, at)
    ensures End(ClipSpans(c, n, offset), offset) == offset + SpeechOf(c, n)
  {
    if n > 0 {
      HeardOfClip(c, n - 1, offset, at);
      ClipSpansSnoc(c, n, offset);
      ClipSpanAt(c, n, offset, n - 1);
      SpeechBeforeSnoc(ClipSpans(c, n - 1, offset), ClipSpans(c, n, offset)[n - 1], at);
      hide ClipSpans, SpeechBefore;
    }
  }

  lemma {:induction false} HeardIsSpeechBefore(buffer: seq<Clip>, at: real)
    ensures SpeechBefore(AllSpans(buffer), at) == Heard(buffer, at)
    ensures Total(buffer) == Speech(buffer)
  {
    hide AllSpans, SpeechBefore, HeardOf, SpeechOf, ClipSpans;
    if buffer == [] {
      NoSpans();
      NothingHeard(at);
    } else {
      var init, c := buffer[..|buffer| - 1], buffer[|buffer| - 1];
      var earlier, own := AllSpans(init), ClipSpans(c, |c.speech|, End(AllSpans(init), 0.0));
      SpansSnoc(buffer);
      HeardIsSpeechBefore(init, at);
      SpeechBeforeConcat(earlier, own, at);
      HeardOfClip(c, |c.speech|, End(earlier, 0.0), at);
      EndOfConcat(earlier, own);
    }
  }

  lemma NothingHeard(at: real)
    ensures SpeechBefore([], at) == 0.0
  {
  }

  // ----- the whole list of words -----

  function Rescale(words: seq<Word>, buffer: seq<Clip>): seq<Word>
  {
    Rescaled(words, AllSpans(buffer))
  }

  /** Which words have both times in the speech, in order. */
  function Kept(words: seq<Word>, total: real): seq<nat>
  {
    if words == [] then []
    else
      var w := words[|words| - 1];
      Kept(words[..|words| - 1], total) + (if 0.0 <= w.start < total && 0.0 <= w.end < total then [|words| - 1] else [])
  }

  /** Both times are put back to the moments in speech with just that much speech before them. */
  ghost predicate IsRescaled(buffer: seq<Clip>, w: Word, moved: Word)
  {
    && moved.text == w.text && moved.probability == w.probability
    && Spoken(buffer, moved.start) && Heard(buffer, moved.start) == w.start
    && Spoken(buffer, moved.end) && Heard(buffer, moved.end) == w.end
  }

  /** `rescaled` are the words at the positions `kept`, each put back in its place. */
  ghost predicate AreRescaled(buffer: seq<Clip>, words: seq<Word>, kept: seq<nat>, rescaled: seq<Word>)
  {
    && |rescaled| == |kept|
    && (forall k :: 0 <= k < |kept| ==> kept[k] < |words| && IsRescaled(buffer, words[kept[k]], rescaled[k]))
    && (forall j, k :: 0 <= j < k < |kept| ==> kept[j] < kept[k])
  }

  lemma OneMoreWord(buffer: seq<Clip>, words: seq<Word>, w: Word, kept: seq<nat>, rescaled: seq<Word>)
    requires AreRescaled(buffer, words, kept, rescaled)
    ensures AreRescaled(buffer, words + [w], kept, rescaled)
    ensures forall moved :: IsRescaled(buffer, w, moved) ==>
        AreRescaled(buffer, words + [w], kept + [|words|], rescaled + [moved])
  {
    hide IsRescaled;
  }

  /** With speech segments that follow one another, exactly the words with both times in the speech are kept, in
    * their order, and each kept time is the moment of speech with just that much speech before it: rescaling inverts
    * the concatenation of the speech. */
  lemma {:induction false} RescalingInvertsConcatenation(words: seq<Word>, buffer: seq<Clip>)
    requires Consecutive(buffer)
    ensures AreRescaled(buffer, words, Kept(words, Speech(buffer)), Rescale(words, buffer))
  {
    hide AllSpans, Consecutive, IsRescaled, AreRescaled, Search, Speech, Moved;
    if words == [] {
      NoWords(buffer);
    } else {
      var init, w := words[..|words| - 1], words[|words| - 1];
      var kept, rescaled := Kept(init, Speech(buffer)), Rescale(init, buffer);
      RescalingInvertsConcatenation(init, buffer);
      WordMoves(w, buffer);
      OneMoreWord(buffer, init, w, kept, rescaled);
      assert words == init + [w];
      var moved := Moved(w, Search(AllSpans(buffer), w));
      assert if moved == [] then rescaled + moved == rescaled && kept + [] == kept else moved == [moved[0]];
    }
  }

  lemma NoWords(buffer: seq<Clip>)
    ensures AreRescaled(buffer, [], [], [])
  {
  }

  lemma WordMoves(w: Word, buffer: seq<Clip>)
    requires Consecutive(buffer)
    ensures var moved := Moved(w, Search(AllSpans(buffer), w)); var total := Speech(buffer);
      && |moved| == (if 0.0 <= w.start < total && 0.0 <= w.end < total then 1 else 0)
      && (moved != [] ==> IsRescaled(buffer, w, moved[0]))
  {
    hide SpeechBefore, InSpeech, AllSpans, Ordered, Search, Consecutive, Heard, Speech, Spoken;
    AllSpansAreChained(buffer);
    ConsecutiveIsOrdered(buffer);
    SearchInverts(AllSpans(buffer), w);
    var f := Search(AllSpans(buffer), w);
    HeardIsSpeechBefore(buffer, 0.0);
    if f.start.Some? {
      HeardIsSpeechBefore(buffer, f.start.value);
      SpokenIsInSpeech(buffer, f.start.value);
    }
    if f.end.Some? {
      HeardIsSpeechBefore(buffer, f.end.value);
      SpokenIsInSpeech(buffer, f.end.value);
    }
  }

  lemma AllSpansAreChained(buffer: seq<Clip>)
    ensures Chained(AllSpans(buffer))
  {
    SpansAreChained(buffer, |buffer|);
  }

  /** The map of times is strictly increasing, and no word gets shorter. */
  lemma TimesSpreadOut(buffer: seq<Clip>, t: real, at: real, u: real, later: real)
    requires Consecutive(buffer) && t <= u
    requires Spoken(buffer, at) && Heard(buffer, at) == t && Spoken(buffer, later) && Heard(buffer, later) == u
    ensures later - at >= u - t
  {
    hide AllSpans, Consecutive, Heard, Spoken, Ordered, Chained, InSpeech;
    AllSpansAreChained(buffer);
    ConsecutiveIsOrdered(buffer);
    HeardIsSpeechBefore(buffer, at);
    HeardIsSpeechBefore(buffer, later);
    SpokenIsInSpeech(buffer, at);
    SpokenIsInSpeech(buffer, later);
    var spans := AllSpans(buffer);
    if at <= later {
      SpeechIsNoLonger(spans, at, later);
    } else {
      SpeechIsNoLonger(spans, later, at);
      PlacesAreUnique(spans, t, at, later);
    }
  }

  /** One moment in speech for each amount of speech. */
  lemma PlacesAreUnique(spans: seq<Span>, t: real, at: real, other: real)
    requires Chained(spans) && Ordered(spans)
    requires InSpeech(spans, at) && SpeechBefore(spans, at) == t
    requires InSpeech(spans, other) && SpeechBefore(spans, other) == t
    ensures at == other
  {
    var i :| 0 <= i < |spans| && spans[i].start <= at < spans[i].end;
    var j :| 0 <= j < |spans| && spans[j].start <= other < spans[j].end;
    PlaceHasSpeechBefore(spans, i, t, at);
    PlaceHasSpeechBefore(spans, j, t, other);
    if i < j {
      OffsetsIncrease(spans, i, j);
    } else if j < i {
      OffsetsIncrease(spans, j, i);
    }
  }
}
