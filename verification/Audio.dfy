/** The audio source: samples arrive in packets of any size and leave in blocks of one size. Times are exact reals. */
module Audio {
  datatype Chunk = Chunk(version: nat, audio: seq<int>, start: real, end: real)

  /** The full blocks of a stream, and what is left over. */
  function Blocks(s: seq<int>, size: nat): seq<seq<int>>
    requires size > 0
  {
    if |s| < size then [] else [s[..size]] + Blocks(s[size..], size)
  }

  function Leftover(s: seq<int>, size: nat): seq<int>
    requires size > 0
  {
    if |s| < size then s else Leftover(s[size..], size)
  }

  function Padded(s: seq<int>, size: nat): seq<int>
    requires |s| <= size
  {
    s + seq(size - |s|, _ => 0)
  }

  function Duration(audio: seq<int>, rate: int): real
    requires rate > 0
  {
    |audio| as real / rate as real
  }

  /** Blocks as they are sent: numbered on from `version`, each starting where the one before ended. */
  function Labelled(blocks: seq<seq<int>>, version: nat, start: real, rate: int): seq<Chunk>
    requires rate > 0
  {
    if blocks == [] then []
    else
      var end := start + Duration(blocks[0], rate);
      [Chunk(version, blocks[0], start, end)] + Labelled(blocks[1..], version + 1, end, rate)
  }

  function TotalTime(blocks: seq<seq<int>>, rate: int): real
    requires rate > 0
  {
    if blocks == [] then 0.0 else Duration(blocks[0], rate) + TotalTime(blocks[1..], rate)
  }

  /** A forced flush makes one more block of a leftover. */
  function Tail(rest: seq<int>, size: nat, force: bool): seq<seq<int>>
    requires |rest| < size
  {
    if force && rest != [] then [Padded(rest, size)] else []
  }

  lemma {:induction false} LeftoverIsShort(s: seq<int>, size: nat)
    requires size > 0
    ensures |Leftover(s, size)| < size
    ensures forall i :: 0 <= i < |Blocks(s, size)| ==> |Blocks(s, size)[i]| == size
    decreases |s|
  {
    if |s| >= size {
      LeftoverIsShort(s[size..], size);
    }
  }

  lemma AppendFirst(first: Chunk, a: seq<Chunk>, b: seq<Chunk>)
    ensures [first] + (a + b) == ([first] + a) + b
  {
  }

  lemma LabelledFirst(blocks: seq<seq<int>>, version: nat, start: real, rate: int)
    requires rate > 0 && blocks != []
    ensures var end := start + Duration(blocks[0], rate);
      Labelled(blocks, version, start, rate)
      == [Chunk(version, blocks[0], start, end)] + Labelled(blocks[1..], version + 1, end, rate)
    ensures TotalTime(blocks, rate) == Duration(blocks[0], rate) + TotalTime(blocks[1..], rate)
  {
  }

  lemma LabelledNone(b: seq<seq<int>>, version: nat, start: real, rate: int)
    requires rate > 0
    ensures [] + b == b && Labelled([], version, start, rate) == [] && TotalTime([], rate) == 0.0
    ensures [] + Labelled(b, version, start, rate) == Labelled(b, version, start, rate)
  {
  }

  lemma {:induction false} LabelledConcat(a: seq<seq<int>>, b: seq<seq<int>>, version: nat, start: real, rate: int)
    requires rate > 0
    ensures Labelled(a + b, version, start, rate)
         == Labelled(a, version, start, rate) + Labelled(b, version + |a|, start + TotalTime(a, rate), rate)
    ensures TotalTime(a + b, rate) == TotalTime(a, rate) + TotalTime(b, rate)
  {
    hide Labelled, TotalTime, Duration;
    if a == [] {
      LabelledNone(b, version, start, rate);
    } else {
      var end := start + Duration(a[0], rate);
      assert (a + b)[0] == a[0] && (a + b)[1..] == a[1..] + b;
      LabelledFirst(a + b, version, start, rate);
      LabelledFirst(a, version, start, rate);
      LabelledConcat(a[1..], b, version + 1, end, rate);
      assert end + TotalTime(a[1..], rate) == start + TotalTime(a, rate);
      AppendFirst(Chunk(version, a[0], start, end), Labelled(a[1..], version + 1, end, rate),
                  Labelled(b, version + |a|, start + TotalTime(a, rate), rate));
    }
  }

  /** The source's state as a value. */
  datatype Stream = Stream(pending: seq<int>, absRecv: nat, elapsed: real, sent: seq<Chunk>)

  function Sending(st: Stream, blocks: seq<seq<int>>, rate: int): Stream
    requires rate > 0
  {
    st.(sent := st.sent + Labelled(blocks, st.absRecv, st.elapsed, rate), absRecv := st.absRecv + |blocks|,
        elapsed := st.elapsed + TotalTime(blocks, rate))
  }

  function Received(st: Stream, samples: seq<int>, size: nat, rate: int): Stream
    requires size > 0 && rate > 0
  {
    var s := st.pending + samples;
    Sending(st, Blocks(s, size), rate).(pending := Leftover(s, size))
  }

  function Closed(st: Stream, size: nat, rate: int, force: bool): Stream
    requires size > 0 && rate > 0
  {
    LeftoverIsShort(st.pending, size);
    var blocks := Blocks(st.pending, size) + Tail(Leftover(st.pending, size), size, force);
    Sending(st, blocks, rate).(pending := [], elapsed := 0.0)
  }

  class AudioRtpAv {
    const samplesPerBlock: nat
    const outRate: int
    const flushPartialOnError: bool
    var pending: seq<int>
    var absRecv: nat
    var elapsed: real
    var sent: seq<Chunk>

    predicate Valid()
    {
      samplesPerBlock > 0 && outRate > 0
    }

    function View(): Stream
      reads this
    {
      Stream(pending, absRecv, elapsed, sent)
    }

    constructor (samplesPerBlock: nat, outRate: int, flushPartialOnError: bool)
      requires samplesPerBlock > 0 && outRate > 0
      ensures Valid() && this.samplesPerBlock == samplesPerBlock && this.outRate == outRate
      ensures this.flushPartialOnError == flushPartialOnError && View() == Stream([], 0, 0.0, [])
    {
      this.samplesPerBlock, this.outRate, this.flushPartialOnError := samplesPerBlock, outRate, flushPartialOnError;
      pending, absRecv, elapsed, sent := [], 0, 0.0, [];
    }

    /** The state without the samples still pending. */
    function Flow(): Stream
      reads `absRecv, `elapsed, `sent
    {
      Stream([], absRecv, elapsed, sent)
    }

    method EmitChunk(audio: seq<int>)
      requires Valid()
      modifies `absRecv, `elapsed, `sent
      ensures Flow() == Sending(old(Flow()), [audio], outRate)
    {
      var chunkDuration := |audio| as real / outRate as real;
      OneBlock(audio, absRecv, elapsed, outRate);
      sent := sent + [Chunk(absRecv, audio, elapsed, elapsed + chunkDuration)];
      absRecv := absRecv + 1;
      elapsed := elapsed + chunkDuration;
    }

    method FlushPending(force: bool)
      requires Valid()
      modifies `pending, `absRecv, `elapsed, `sent
      ensures pending == Leftover(old(pending), samplesPerBlock) && |pending| < samplesPerBlock
      ensures Flow() == Sending(old(Flow()),
        Blocks(old(pending), samplesPerBlock) + Tail(pending, samplesPerBlock, force), outRate)
    {
      hide Sending;
      ghost var was := Flow();
      ghost var done: seq<seq<int>> := [];
      SendingNone(was, outRate);
      while |pending| >= samplesPerBlock
        invariant Blocks(old(pending), samplesPerBlock) == done + Blocks(pending, samplesPerBlock)
        invariant Leftover(old(pending), samplesPerBlock) == Leftover(pending, samplesPerBlock)
        invariant Flow() == Sending(was, done, outRate)
      {
        var chunk := pending[..samplesPerBlock];
        pending := pending[samplesPerBlock..];
        EmitChunk(chunk);
        SendingMore(was, done, [chunk], outRate);
        done := done + [chunk];
      }
      assert done + [] == done;
      if force && |pending| > 0 {
        EmitChunk(pending + seq(samplesPerBlock - |pending|, _ => 0));
        SendingMore(was, done, [Padded(pending, samplesPerBlock)], outRate);
      }
    }

    /** One packet's samples. */
    method Receive(samples: seq<int>)
      requires Valid()
      modifies `pending, `absRecv, `elapsed, `sent
      ensures View() == Received(old(View()), samples, samplesPerBlock, outRate)
    {
      pending := pending + samples;
      ghost var s := pending;
      FlushPending(false);
      assert Blocks(s, samplesPerBlock) + [] == Blocks(s, samplesPerBlock);
    }

    /** The end of a connection. */
    method Close()
      requires Valid()
      modifies `pending, `absRecv, `elapsed, `sent
      ensures View() == Closed(old(View()), samplesPerBlock, outRate, flushPartialOnError)
    {
      FlushPending(flushPartialOnError);
      pending := [];
      elapsed := 0.0;
    }

    /** The source's thread: connection after connection, packet after packet, until the stop event, which comes after
      * `limit` packets in all, is found set. However a connection ends, it is closed. */
    method GenerateChunks(connections: seq<seq<seq<int>>>, limit: nat)
      requires Valid() && View() == Stream([], 0, 0.0, [])
      modifies `pending, `absRecv, `elapsed, `sent
      ensures View() == Sessions(FirstPackets(connections, limit), samplesPerBlock, outRate, flushPartialOnError)
    {
      hide Received, Closed, FirstPackets;
      ghost var over: seq<seq<seq<int>>> := [];
      var i, received := 0, 0;
      NothingFirst(connections, limit);
      while i < |connections| && received < limit
        invariant i <= |connections| && received <= limit
        invariant View() == Sessions(over, samplesPerBlock, outRate, flushPartialOnError)
        invariant over + FirstPackets(connections[i..], limit - received) == FirstPackets(connections, limit)
      {
        ghost var before, was := View(), received;
        var k := 0;
        while k < |connections[i]|
          invariant k <= |connections[i]| && received == was + k < limit
          invariant View() == ReceivedAll(before, connections[i][..k], samplesPerBlock, outRate)
        {
          Receive(connections[i][k]);
          assert connections[i][..k + 1][..k] == connections[i][..k];
          k, received := k + 1, received + 1;
          if received >= limit {
            break;
          }
        }
        Close();
        FirstOfNext(connections[i..], limit - was, k);
        assert connections[i..][1..] == connections[i + 1..];
        assert (over + [connections[i][..k]])[..|over|] == over;
        assert (over + [connections[i][..k]]) + FirstPackets(connections[i + 1..], limit - received)
          == over + ([connections[i][..k]] + FirstPackets(connections[i + 1..], limit - received));
        over := over + [connections[i][..k]];
        i := i + 1;
      }
      NothingFirst(connections[i..], limit - received);
      assert over + [] == over;
    }
  }

  /** The first so many packets, and the connections they come over. */
  function FirstPackets(connections: seq<seq<seq<int>>>, limit: nat): seq<seq<seq<int>>>
  {
    if connections == [] || limit == 0 then []
    else
      var n := if |connections[0]| < limit then |connections[0]| else limit;
      [connections[0][..n]] + FirstPackets(connections[1..], limit - n)
  }

  lemma NothingFirst(connections: seq<seq<seq<int>>>, limit: nat)
    ensures connections == [] || limit == 0 ==> FirstPackets(connections, limit) == []
    ensures connections[0..] == connections && [] + FirstPackets(connections, limit) == FirstPackets(connections, limit)
  {
  }

  lemma FirstOfNext(connections: seq<seq<seq<int>>>, limit: nat, k: nat)
    requires connections != [] && k <= |connections[0]| && 0 < limit && k <= limit
    requires k == |connections[0]| || k == limit
    ensures FirstPackets(connections, limit) == [connections[0][..k]] + FirstPackets(connections[1..], limit - k)
  {
  }

  lemma OneBlock(audio: seq<int>, version: nat, start: real, rate: int)
    requires rate > 0
    ensures Labelled([audio], version, start, rate) == [Chunk(version, audio, start, start + Duration(audio, rate))]
    ensures TotalTime([audio], rate) == Duration(audio, rate)
  {
    assert [audio][1..] == [];
  }

  lemma SendingNone(st: Stream, rate: int)
    requires rate > 0
    ensures Sending(st, [], rate) == st
  {
  }

  lemma SendingMore(st: Stream, a: seq<seq<int>>, b: seq<seq<int>>, rate: int)
    requires rate > 0
    ensures Sending(Sending(st, a, rate), b, rate) == Sending(st, a + b, rate)
  {
    LabelledConcat(a, b, st.absRecv, st.elapsed, rate);
  }

  // ----- packets do not matter -----

  function Concat(packets: seq<seq<int>>): seq<int>
  {
    if packets == [] then [] else Concat(packets[..|packets| - 1]) + packets[|packets| - 1]
  }

  lemma {:induction false} CutIsIncremental(a: seq<int>, b: seq<int>, size: nat)
    requires size > 0
    ensures Blocks(a + b, size) == Blocks(a, size) + Blocks(Leftover(a, size) + b, size)
    ensures Leftover(a + b, size) == Leftover(Leftover(a, size) + b, size)
    decreases |a|
  {
    if |a| >= size {
      CutIsIncremental(a[size..], b, size);
      assert (a + b)[size..] == a[size..] + b;
      assert (a + b)[..size] == a[..size];
    }
  }

  function ReceivedAll(st: Stream, packets: seq<seq<int>>, size: nat, rate: int): Stream
    requires size > 0 && rate > 0
  {
    if packets == [] then st
    else Received(ReceivedAll(st, packets[..|packets| - 1], size, rate), packets[|packets| - 1], size, rate)
  }

  /** However a connection's samples are split into packets, the source ends up as if they had come in one. */
  lemma {:induction false} PacketsDoNotMatter(st: Stream, packets: seq<seq<int>>, size: nat, rate: int)
    requires size > 0 && rate > 0 && st.pending == []
    ensures ReceivedAll(st, packets, size, rate) == Received(st, Concat(packets), size, rate)
  {
    if packets != [] {
      var before, samples := packets[..|packets| - 1], packets[|packets| - 1];
      PacketsDoNotMatter(st, before, size, rate);
      CutIsIncremental(Concat(before), samples, size);
      var s := Concat(before);
      assert [] + s == s && [] + (s + samples) == s + samples;
      SendingMore(st, Blocks(s, size), Blocks(Leftover(s, size) + samples, size), rate);
    }
  }

  function JoinBlocks(blocks: seq<seq<int>>): seq<int>
  {
    if blocks == [] then [] else blocks[0] + JoinBlocks(blocks[1..])
  }

  lemma BlocksFirst(s: seq<int>, size: nat)
    requires size > 0
    ensures |s| >= size ==> Blocks(s, size) == [s[..size]] + Blocks(s[size..], size)
    ensures |s| >= size ==> Leftover(s, size) == Leftover(s[size..], size)
    ensures |s| < size ==> Blocks(s, size) == [] && Leftover(s, size) == s
  {
  }

  lemma CutAt(s: seq<int>, size: nat)
    requires size <= |s|
    ensures s[..size] + s[size..] == s
  {
  }

  lemma NothingJoined(s: seq<int>)
    ensures JoinBlocks([]) + s == s
  {
  }

  /** No sample is lost, invented or moved. */
  lemma {:induction false} BlocksAndLeftover(s: seq<int>, size: nat)
    requires size > 0
    ensures JoinBlocks(Blocks(s, size)) + Leftover(s, size) == s
    decreases |s|
  {
    BlocksFirst(s, size);
    hide Blocks, Leftover, JoinBlocks;
    if |s| < size {
      NothingJoined(s);
    } else {
      var rest := s[size..];
      BlocksAndLeftover(rest, size);
      JoinFirst(s[..size], Blocks(rest, size));
      Associate(s[..size], JoinBlocks(Blocks(rest, size)), Leftover(rest, size));
      CutAt(s, size);
    }
  }

  lemma JoinFirst(first: seq<int>, rest: seq<seq<int>>)
    ensures JoinBlocks([first] + rest) == first + JoinBlocks(rest)
  {
    assert ([first] + rest)[1..] == rest;
  }

  lemma Associate(a: seq<int>, b: seq<int>, c: seq<int>)
    ensures (a + b) + c == a + (b + c)
  {
  }

  // ----- whole connections -----

  /** What one connection is cut into, by its samples alone. */
  function SessionBlocks(packets: seq<seq<int>>, size: nat, force: bool): seq<seq<int>>
    requires size > 0
  {
    var s := Concat(packets);
    LeftoverIsShort(s, size);
    Blocks(s, size) + Tail(Leftover(s, size), size, force)
  }

  function Zeros(n: nat): seq<int>
  {
    seq(n, _ => 0)
  }

  lemma {:induction false} JoinMore(blocks: seq<seq<int>>, last: seq<int>)
    ensures JoinBlocks(blocks + [last]) == JoinBlocks(blocks) + last
  {
    if blocks == [] {
      assert [] + [last] == [last] && [last][1..] == [] && JoinBlocks([last]) == last + [];
    } else {
      JoinMore(blocks[1..], last);
      assert (blocks + [last])[1..] == blocks[1..] + [last];
      assert (blocks[0] + JoinBlocks(blocks[1..])) + last == blocks[0] + (JoinBlocks(blocks[1..]) + last);
    }
  }

  /** Every block has the one size, and together the blocks are the samples: exactly, if there is no leftover;
    * with a forced flush, filled up with fewer than a block of zeros; without one, except for the leftover. */
  lemma SessionKeepsSamples(packets: seq<seq<int>>, size: nat, force: bool)
    requires size > 0
    ensures var s, blocks := Concat(packets), SessionBlocks(packets, size, force);
      && (forall i :: 0 <= i < |blocks| ==> |blocks[i]| == size)
      && |Leftover(s, size)| < size
      && (if force && Leftover(s, size) != [] then JoinBlocks(blocks) == s + Zeros(size - |Leftover(s, size)|)
          else JoinBlocks(blocks) + Leftover(s, size) == s)
  {
    var s := Concat(packets);
    LeftoverIsShort(s, size);
    BlocksAndLeftover(s, size);
    var rest := Leftover(s, size);
    if force && rest != [] {
      JoinMore(Blocks(s, size), Padded(rest, size));
      assert (JoinBlocks(Blocks(s, size)) + rest) + Zeros(size - |rest|)
        == JoinBlocks(Blocks(s, size)) + Padded(rest, size);
    } else {
      assert Blocks(s, size) + [] == Blocks(s, size);
    }
  }

  lemma ShortStays(s: seq<int>, size: nat)
    requires |s| < size
    ensures Blocks(s, size) == [] && Leftover(s, size) == s
  {
  }

  lemma OneSession(st: Stream, packets: seq<seq<int>>, size: nat, rate: int, force: bool)
    requires size > 0 && rate > 0 && st.pending == []
    ensures Closed(ReceivedAll(st, packets, size, rate), size, rate, force)
         == Sending(st, SessionBlocks(packets, size, force), rate).(pending := [], elapsed := 0.0)
  {
    var s := Concat(packets);
    PacketsDoNotMatter(st, packets, size, rate);
    LeftoverIsShort(s, size);
    ShortStays(Leftover(s, size), size);
    var tail := Tail(Leftover(s, size), size, force);
    assert [] + s == s && [] + tail == tail;
    SendingMore(st, Blocks(s, size), tail, rate);
  }

  /** The source over a list of connections, each a list of packets. */
  function Sessions(connections: seq<seq<seq<int>>>, size: nat, rate: int, force: bool): Stream
    requires size > 0 && rate > 0
  {
    if connections == [] then Stream([], 0, 0.0, [])
    else
      var before := Sessions(connections[..|connections| - 1], size, rate, force);
      Closed(ReceivedAll(before, connections[|connections| - 1], size, rate), size, rate, force)
  }

  /** What a connection adds depends only on its samples and on how many chunks there were before: its blocks,
    * numbered on, with times from zero. Nothing is carried over from one connection to the next. */
  lemma SessionsAreCut(connections: seq<seq<seq<int>>>, size: nat, rate: int, force: bool, packets: seq<seq<int>>)
    requires size > 0 && rate > 0
    ensures
      var before := Sessions(connections, size, rate, force);
      var after := Sessions(connections + [packets], size, rate, force);
      && after.sent == before.sent + Labelled(SessionBlocks(packets, size, force), |before.sent|, 0.0, rate)
      && after.pending == [] && after.elapsed == 0.0 && after.absRecv == |after.sent|
  {
    BetweenSessions(connections, size, rate, force);
    BetweenSessions(connections + [packets], size, rate, force);
    assert (connections + [packets])[..|connections|] == connections;
    OneSession(Sessions(connections, size, rate, force), packets, size, rate, force);
  }

  lemma {:induction false} BetweenSessions(connections: seq<seq<seq<int>>>, size: nat, rate: int, force: bool)
    requires size > 0 && rate > 0
    ensures var st := Sessions(connections, size, rate, force);
      && st.pending == [] && st.elapsed == 0.0 && st.absRecv == |st.sent|
      && forall k :: 0 <= k < |st.sent| ==> st.sent[k].version == k
  {
    if connections != [] {
      var before := connections[..|connections| - 1];
      var packets := connections[|connections| - 1];
      BetweenSessions(before, size, rate, force);
      OneSession(Sessions(before, size, rate, force), packets, size, rate, force);
      LabelledVersions(SessionBlocks(packets, size, force), Sessions(before, size, rate, force).absRecv, 0.0, rate);
    }
  }

  lemma {:induction false} LabelledVersions(blocks: seq<seq<int>>, version: nat, start: real, rate: int)
    requires rate > 0
    ensures var chunks := Labelled(blocks, version, start, rate);
      && |chunks| == |blocks|
      && forall k :: 0 <= k < |blocks| ==> chunks[k].version == version + k && chunks[k].audio == blocks[k]
  {
    if blocks != [] {
      LabelledVersions(blocks[1..], version + 1, start + Duration(blocks[0], rate), rate);
    }
  }

  /** Chunks tile the time line by their samples: chunk `k` starts after all samples before it, and ends after its own,
    * where the one after it starts. */
  lemma {:induction false} ChunksTile(blocks: seq<seq<int>>, version: nat, start: real, rate: int, k: nat)
    requires rate > 0 && k < |blocks|
    ensures var chunks := Labelled(blocks, version, start, rate);
      && |chunks| == |blocks| && chunks[k].audio == blocks[k] && chunks[k].version == version + k
      && chunks[k].start == start + |JoinBlocks(blocks[..k])| as real / rate as real
      && chunks[k].end == start + |JoinBlocks(blocks[..k + 1])| as real / rate as real
      && (k > 0 ==> chunks[k].start == chunks[k - 1].end)
  {
    LabelledVersions(blocks, version, start, rate);
    ChunkBounds(blocks, version, start, rate, k);
    if k > 0 {
      ChunkBounds(blocks, version, start, rate, k - 1);
    }
  }

  lemma {:induction false} ChunkBounds(blocks: seq<seq<int>>, version: nat, start: real, rate: int, k: nat)
    requires rate > 0 && k < |blocks|
    ensures var chunks := Labelled(blocks, version, start, rate);
      && |chunks| == |blocks|
      && chunks[k].start == start + |JoinBlocks(blocks[..k])| as real / rate as real
      && chunks[k].end == start + |JoinBlocks(blocks[..k + 1])| as real / rate as real
  {
    hide Labelled, JoinBlocks, Duration;
    LabelledFirst(blocks, version, start, rate);
    LabelledVersions(blocks, version, start, rate);
    JoinNone();
    var rest := blocks[1..];
    JoinUpTo(blocks, k + 1);
    TimeAdds(start, blocks[0], JoinBlocks(rest[..k]), rate);
    TimeAdds(start, [], [], rate);
    if k > 0 {
      ChunkBounds(rest, version + 1, start + Duration(blocks[0], rate), rate, k - 1);
      JoinUpTo(blocks, k);
      TimeAdds(start, blocks[0], JoinBlocks(rest[..k - 1]), rate);
    } else {
      TimeAdds(start + Duration(blocks[0], rate), [], [], rate);
      assert blocks[..0] == [] && rest[..0] == [];
    }
  }

  lemma JoinUpTo(blocks: seq<seq<int>>, k: nat)
    requires 0 < k <= |blocks|
    ensures JoinBlocks(blocks[..k]) == blocks[0] + JoinBlocks(blocks[1..][..k - 1])
  {
    JoinFirst(blocks[0], blocks[1..][..k - 1]);
    assert blocks[..k] == [blocks[0]] + blocks[1..][..k - 1];
  }

  lemma TimeAdds(start: real, a: seq<int>, b: seq<int>, rate: int)
    requires rate > 0
    ensures (start + Duration(a, rate)) + |b| as real / rate as real == start + |a + b| as real / rate as real
    ensures a == [] ==> start + |a| as real / rate as real == start
  {
  }

  lemma JoinNone()
    ensures JoinBlocks([]) == []
  {
  }

  /** The packets of some connections, in the order they come. */
  function Packets(connections: seq<seq<seq<int>>>): seq<seq<int>>
  {
    if connections == [] then [] else connections[0] + Packets(connections[1..])
  }

  lemma PacketsFirst(connections: seq<seq<seq<int>>>, i: nat)
    requires 0 < i <= |connections|
    ensures Packets(connections[..i]) == connections[0] + Packets(connections[1..][..i - 1])
  {
    assert connections[..i] == [connections[0]] + connections[1..][..i - 1];
    assert connections[..i][1..] == connections[1..][..i - 1];
  }

  /** What one connection and the rest give, up to a limit. */
  lemma UpToLimit(own: seq<seq<int>>, rest: seq<seq<int>>, first: seq<seq<int>>, limit: nat)
    requires var n := if |own| < limit then |own| else limit;
      first == rest[..if limit - n < |rest| then limit - n else |rest|]
    ensures var n, all := if |own| < limit then |own| else limit, own + rest;
      own[..n] + first == all[..if limit < |all| then limit else |all|]
  {
  }

  /** What is received is the first `limit` packets, each over its own connection. */
  lemma {:induction false} FirstPacketsAreFirst(connections: seq<seq<seq<int>>>, limit: nat)
    ensures var first, all := FirstPackets(connections, limit), Packets(connections);
      && Packets(first) == all[..if limit < |all| then limit else |all|]
      && |first| <= |connections| && forall i :: 0 <= i < |first| ==> first[i] <= connections[i]
  {
    if connections != [] && limit > 0 {
      var n := if |connections[0]| < limit then |connections[0]| else limit;
      var own, rest := connections[0], connections[1..];
      var later := FirstPackets(rest, limit - n);
      FirstPacketsAreFirst(rest, limit - n);
      UpToLimit(own, Packets(rest), Packets(later), limit);
      assert ([own[..n]] + later)[1..] == later;
    }
  }

  /** A connection is begun exactly if the limit has not been reached with those before it. */
  lemma {:induction false} BegunBelowLimit(connections: seq<seq<seq<int>>>, limit: nat, i: nat)
    requires i < |connections|
    ensures i < |FirstPackets(connections, limit)| <==> |Packets(connections[..i])| < limit
  {
    if limit > 0 {
      var n := if |connections[0]| < limit then |connections[0]| else limit;
      if i > 0 {
        BegunBelowLimit(connections[1..], limit - n, i - 1);
        PacketsFirst(connections, i);
      } else {
        assert connections[..0] == [];
      }
    }
  }
}
