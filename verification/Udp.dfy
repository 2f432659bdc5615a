/** The UDP notifier: one message's text cut into JSON packets of bounded size. Texts are strings of one byte
  * per character. */
module Udp {
  import opened Messages

  // ----- decimal numbers and the packet format -----

  function Digit(d: nat): char
    requires d < 10
  {
    "0123456789"[d]
  }

  function Decimal(n: nat): string
    ensures |Decimal(n)| >= 1
  {
    if n < 10 then [Digit(n)] else Decimal(n / 10) + [Digit(n % 10)]
  }

  function Numeral(n: int): string
  {
    if n < 0 then "-" + Decimal(-n) else Decimal(n)
  }

  lemma {:induction false} LongerNumbers(a: nat, b: nat)
    requires a <= b
    ensures |Decimal(a)| <= |Decimal(b)|
    decreases b
  {
    if a >= 10 {
      LongerNumbers(a / 10, b / 10);
    }
  }

  datatype Fragment = Fragment(sequence: int, frag: int, tot: int, data: string)

  /** The fragment as `json.dumps` writes it, when its data needs no escaping. */
  function Dump(f: Fragment): string
  {
    "{" + Member("seq", f.sequence, Member("frag", f.frag, Member("tot", f.tot,
      Opening("data") + ("\"" + (f.data + "\"}")))))
  }

  function Member(key: string, n: int, rest: string): string
  {
    Opening(key) + (Numeral(n) + (", " + rest))
  }

  function Opening(key: string): string
  {
    "\"" + key + "\": "
  }

  lemma DumpSize(f: Fragment)
    ensures |Dump(f)| == 40 + |Numeral(f.sequence)| + |Numeral(f.frag)| + |Numeral(f.tot)| + |f.data|
  {
  }

  // ----- the node -----

  /** What `_prepare_chunks` returns, or raises: a division by zero, the refusal of `json.dumps` to write bytes, or
    * the error for a packet that is too long. */
  datatype Result<T> = Ok(value: T) | ZeroDivisionError | TypeError | ValueError

  /** The node's fields: `dataSize` is what is left of a packet for data. */
  datatype Config = Config(payloadSize: int, maxSequence: int, maxChunks: int, dataSize: int, encodeB64: bool)

  /** Python's `//` and `%`, which round down whatever the signs. */
  function FloorDiv(a: int, b: int): int
    requires b != 0
  {
    if b > 0 then a / b else -a / -b
  }

  function FloorMod(a: int, b: int): int
    requires b != 0
  {
    if b > 0 then a % b else -(-a % -b)
  }

  /** Quotient and remainder, the remainder with the sign of the divisor. */
  lemma FloorDivMod(a: int, b: int)
    requires b != 0
    ensures a == FloorDiv(a, b) * b + FloorMod(a, b)
    ensures if b > 0 then 0 <= FloorMod(a, b) < b else b < FloorMod(a, b) <= 0
  {
    var q, r := -a / -b, -a % -b;
    assert b < 0 ==> -a == q * -b + r && q * -b == -(q * b);
  }

  /** The longest a packet gets without its data, as long as its numbers stay below the maxima. */
  function Overhead(maxSequence: int, maxChunks: int): nat
  {
    |Dump(Fragment(maxSequence, maxChunks - 1, maxChunks - 1, ""))|
  }

  /** What the constructor makes of its arguments. */
  predicate Configured(c: Config)
  {
    c.dataSize == c.payloadSize - Overhead(c.maxSequence, c.maxChunks)
  }

  /** Packets have room for data, and neither of the two numbers is taken modulo zero. */
  predicate Dividing(c: Config)
  {
    1 <= c.dataSize <= c.payloadSize && c.maxSequence != 0 && c.maxChunks != 0
  }

  /** Packets have room for data, and the maxima are such. */
  predicate Usable(c: Config)
  {
    1 <= c.dataSize <= c.payloadSize && c.maxSequence >= 1 && c.maxChunks >= 1
  }

  function FragmentTotal(c: Config, size: nat): nat
    requires 1 <= c.dataSize <= c.payloadSize
  {
    (size + c.payloadSize - 1) / c.dataSize
  }

  function Offset(c: Config, i: nat): nat
    requires c.dataSize >= 1
  {
    i * c.dataSize
  }

  /** Python's `s[start:min(start + n, |s|)]`, empty once `start` is past the end. */
  function Piece(s: string, start: nat, n: nat): string
  {
    if start >= |s| then "" else if start + n <= |s| then s[start..start + n] else s[start..]
  }

  function FragmentAt(c: Config, text: string, version: int, i: nat): Fragment
    requires Dividing(c)
  {
    Fragment(FloorMod(version, c.maxSequence), FloorMod(i, c.maxChunks), FragmentTotal(c, |text|),
      Piece(text, Offset(c, i), c.dataSize))
  }

  function Fragments(c: Config, text: string, version: int, n: nat): seq<Fragment>
    requires Dividing(c)
    ensures |Fragments(c, text, version, n)| == n
  {
    if n == 0 then [] else Fragments(c, text, version, n - 1) + [FragmentAt(c, text, version, n - 1)]
  }

  predicate TooLong(c: Config, f: Fragment)
  {
    |Dump(f)| > c.payloadSize
  }

  class NotifierUdp {
    const config: Config

    constructor (payloadSize: int, maxSequence: int, maxChunks: int, encodeB64: bool)
      ensures Configured(config) && config.payloadSize == payloadSize && config.encodeB64 == encodeB64
      ensures config.maxSequence == maxSequence && config.maxChunks == maxChunks
    {
      var metaOverhead := |Dump(Fragment(maxSequence, maxChunks - 1, maxChunks - 1, ""))|;
      config := Config(payloadSize, maxSequence, maxChunks, payloadSize - metaOverhead, encodeB64);
    }

    /** Without room for data there is nothing to send, and nothing is raised unless the room is exactly none; with
      * room, the errors in the order they are met, or the packets in order. */
    method PrepareChunks(text: string, version: int) returns (r: Result<seq<string>>)
      requires Configured(config)
      ensures config.dataSize == 0 ==> r == ZeroDivisionError
      ensures config.dataSize < 0 ==> r == Ok([])
      ensures config.dataSize > 0 ==>
        if config.maxSequence == 0 || config.maxChunks == 0 then r == ZeroDivisionError
        else if !config.encodeB64 then r == TypeError
        else
          Dividing(config) &&
          var fragments := Fragments(config, text, version, FragmentTotal(config, |text|));
          if exists i :: 0 <= i < |fragments| && TooLong(config, fragments[i]) then r == ValueError
          else
            r.Ok? && |r.value| == |fragments| && forall i :: 0 <= i < |fragments| ==> r.value[i] == Dump(fragments[i])
    {
      OverheadIsPositive(config.maxSequence, config.maxChunks);
      hide Dump;
      if config.dataSize == 0 {
        return ZeroDivisionError;
      }
      var chunks: seq<string> := [];
      var total := FloorDiv(|text| + config.payloadSize - 1, config.dataSize);
      TotalIsPositive(config, |text|);
      ghost var fragments := if Dividing(config) then Fragments(config, text, version, total) else [];
      var i := 0;
      while i < total
        invariant 0 <= i && (i <= total || total <= 0) && |chunks| == i
        invariant i > 0 ==> Dividing(config) && config.encodeB64
        invariant forall k :: 0 <= k < i ==> chunks[k] == Dump(fragments[k]) && !TooLong(config, fragments[k])
      {
        var start := i * config.dataSize;
        var end := if start + config.dataSize < |text| then start + config.dataSize else |text|;
        var data := if start <= end then text[start..end] else "";
        if config.maxSequence == 0 || config.maxChunks == 0 {
          return ZeroDivisionError;
        }
        if !config.encodeB64 {
          return TypeError;
        }
        FragmentsAt(config, text, version, total, i);
        assert data == Piece(text, start, config.dataSize);
        var chunk := Dump(Fragment(FloorMod(version, config.maxSequence), FloorMod(i, config.maxChunks), total, data));
        if |chunk| > config.payloadSize {
          assert TooLong(config, fragments[i]);
          return ValueError;
        }
        chunks := chunks + [chunk];
        i := i + 1;
      }
      return Ok(chunks);
    }
  }

  lemma OverheadIsPositive(maxSequence: int, maxChunks: int)
    ensures Overhead(maxSequence, maxChunks) > 40
  {
    DumpSize(Fragment(maxSequence, maxChunks - 1, maxChunks - 1, ""));
  }

  /** There is at least one packet if there is room for data, and none if there is less than none. */
  lemma TotalIsPositive(c: Config, size: nat)
    requires c.dataSize != 0 && c.dataSize + 1 < c.payloadSize
    ensures var total := FloorDiv(size + c.payloadSize - 1, c.dataSize);
      if c.dataSize < 0 then total <= 0 else total == FragmentTotal(c, size) && total >= 1
  {
    var a, d := size + c.payloadSize - 1, c.dataSize;
    if d < 0 {
      var q := -a / -d;
      assert q * -d <= -a < -d;
      if q >= 1 {
        TimesMonotone(1, q, -d);
      }
    } else {
      var q := a / d;
      assert d <= a < q * d + d;
      if q <= 0 {
        TimesMonotone(q, 0, d);
      }
    }
  }

  lemma {:induction false} FragmentsAt(c: Config, text: string, version: int, n: nat, i: nat)
    requires Dividing(c) && i < n
    ensures Fragments(c, text, version, n)[i] == FragmentAt(c, text, version, i)
  {
    if i < n - 1 {
      FragmentsAt(c, text, version, n - 1, i);
    }
  }

  // ----- packets fit -----

  lemma PacketFits(c: Config, text: string, version: int, i: nat)
    requires Usable(c) && Configured(c) && FragmentTotal(c, |text|) < c.maxChunks
    ensures !TooLong(c, FragmentAt(c, text, version, i))
  {
    hide FragmentTotal, Decimal;
    var f := FragmentAt(c, text, version, i);
    DumpSize(f);
    DumpSize(Fragment(c.maxSequence, c.maxChunks - 1, c.maxChunks - 1, ""));
    LongerNumbers(f.sequence, c.maxSequence);
    LongerNumbers(f.frag, c.maxChunks - 1);
    LongerNumbers(f.tot, c.maxChunks - 1);
  }

  function Digits(n: int): nat
  {
    |Numeral(n)|
  }

  /** What the piece of fragment i leaves unused of the room for data. */
  function Unused(c: Config, size: nat, i: nat): nat
    requires c.dataSize >= 1
  {
    if Offset(c, i) >= size then c.dataSize
    else if Offset(c, i) + c.dataSize <= size then 0 else Offset(c, i) + c.dataSize - size
  }

  /** The digits fragment i needs for its three numbers beyond those set aside for them. */
  function ExtraDigits(c: Config, size: nat, version: int, i: nat): int
    requires Dividing(c)
  {
    Digits(FloorMod(version, c.maxSequence)) + Digits(FloorMod(i, c.maxChunks)) + Digits(FragmentTotal(c, size))
    - Digits(c.maxSequence) - 2 * Digits(c.maxChunks - 1)
  }

  lemma TooLongIff(c: Config, text: string, version: int, i: nat)
    requires Dividing(c) && Configured(c)
    ensures TooLong(c, FragmentAt(c, text, version, i))
      <==> ExtraDigits(c, |text|, version, i) > Unused(c, |text|, i)
  {
    hide FragmentTotal, Numeral, FloorMod, Offset, Dump;
    DumpSize(FragmentAt(c, text, version, i));
    DumpSize(Fragment(c.maxSequence, c.maxChunks - 1, c.maxChunks - 1, ""));
  }

  /** The error occurs exactly when some fragment needs more digits beyond those set aside than its piece leaves
    * unused. */
  lemma ValueErrorIff(c: Config, text: string, version: int)
    requires Dividing(c) && Configured(c)
    ensures var total := FragmentTotal(c, |text|);
      var fragments := Fragments(c, text, version, total);
      (exists i :: 0 <= i < |fragments| && TooLong(c, fragments[i]))
      <==> exists i :: 0 <= i < total && ExtraDigits(c, |text|, version, i) > Unused(c, |text|, i)
  {
    hide TooLong, ExtraDigits, Unused, FragmentTotal, Configured;
    var total := FragmentTotal(c, |text|);
    var fragments := Fragments(c, text, version, total);
    forall i | 0 <= i < total
      ensures TooLong(c, fragments[i]) <==> ExtraDigits(c, |text|, version, i) > Unused(c, |text|, i)
    {
      FragmentsAt(c, text, version, total, i);
      TooLongIff(c, text, version, i);
    }
  }

  /** As long as the fragment total stays below `maxChunks` no packet exceeds the payload size: no error can occur. */
  lemma NoValueError(c: Config, text: string, version: int)
    requires Usable(c) && Configured(c) && FragmentTotal(c, |text|) < c.maxChunks
    ensures var fragments := Fragments(c, text, version, FragmentTotal(c, |text|));
      forall i :: 0 <= i < |fragments| ==> !TooLong(c, fragments[i])
  {
    var total := FragmentTotal(c, |text|);
    forall i | 0 <= i < total
      ensures !TooLong(c, Fragments(c, text, version, total)[i])
    {
      FragmentsAt(c, text, version, total, i);
      PacketFits(c, text, version, i);
    }
  }

  // ----- how many packets -----

  /** The least number of pieces of `n` that hold `size`. */
  function Pieces(size: nat, n: int): nat
    requires n >= 1
  {
    (size + n - 1) / n
  }

  lemma Quotient(a: nat, d: int)
    requires d >= 1
    ensures a / d * d <= a < a / d * d + d
  {
  }

  lemma QuotientMonotone(a: nat, b: nat, d: int)
    requires d >= 1 && a <= b
    ensures a / d <= b / d
  {
    hide *;
    Quotient(a, d);
    Quotient(b, d);
    TimesMonotone(b / d + 1, a / d, d);
  }

  lemma TimesMonotone(x: int, y: int, d: int)
    requires d >= 0
    ensures x <= y ==> x * d <= y * d
    ensures (x + 1) * d == x * d + d
  {
  }

  lemma QuotientShift(a: nat, k: nat, d: int)
    requires d >= 1
    ensures (a + k * d) / d == a / d + k
  {
    Quotient(a, d);
    Quotient(a + k * d, d);
    var q := (a + k * d) / d - (a / d + k);
    assert q * d == (a + k * d) / d * d - a / d * d - k * d;
    assert (q >= 1 ==> q * d >= d) && (q <= -1 ==> q * d <= -d);
  }

  /** The code rounds up by the packet size, not the data size, so it sends more packets than needed; but never
    * more than the overhead, in data sizes rounded up, on top of the least number. */
  lemma CountBounds(c: Config, size: nat)
    requires Usable(c)
    ensures var least := Pieces(size, c.dataSize);
      least <= FragmentTotal(c, size) <= least + Pieces(c.payloadSize - c.dataSize, c.dataSize)
  {
    var d, overhead := c.dataSize, c.payloadSize - c.dataSize;
    QuotientMonotone(size + d - 1, size + c.payloadSize - 1, d);
    Quotient(overhead + d - 1, d);
    var k := Pieces(overhead, d);
    QuotientMonotone(size + c.payloadSize - 1, size + d - 1 + k * d, d);
    QuotientShift(size + d - 1, k, d);
  }

  /** Fragments up to the least number carry data; the ones beyond carry none. */
  lemma ExtraFragmentsAreEmpty(c: Config, text: string, version: int, i: nat)
    requires Usable(c)
    ensures FragmentAt(c, text, version, i).data == "" <==> i >= Pieces(|text|, c.dataSize)
  {
    hide Pieces, Offset, FragmentTotal;
    PiecesReach(c, |text|, i);
  }

  lemma PiecesReach(c: Config, size: nat, i: nat)
    requires Usable(c)
    ensures Offset(c, i) >= size <==> i >= Pieces(size, c.dataSize)
  {
    var d := c.dataSize;
    var least := Pieces(size, d);
    Quotient(size + d - 1, d);
    TimesMonotone(least, i, d);
    TimesMonotone(i + 1, least, d);
    TimesMonotone(i, least, d);
  }

  // ----- reassembly -----

  function Joined(fragments: seq<Fragment>): string
  {
    if fragments == [] then "" else Joined(fragments[..|fragments| - 1]) + fragments[|fragments| - 1].data
  }

  lemma {:induction false} PiecesJoin(c: Config, text: string, version: int, n: nat)
    requires Usable(c)
    ensures Joined(Fragments(c, text, version, n)) == Piece(text, 0, Offset(c, n))
  {
    if n > 0 {
      NextOffset(c, n);
      hide Piece, Offset, FragmentTotal;
      PiecesJoin(c, text, version, n - 1);
      JoinPieces(text, Offset(c, n - 1), c.dataSize);
      var all := Fragments(c, text, version, n);
      assert all[..n - 1] == Fragments(c, text, version, n - 1);
    } else {
      assert Offset(c, 0) == 0;
    }
  }

  lemma NextOffset(c: Config, n: nat)
    requires Usable(c) && n > 0
    ensures Offset(c, n) == Offset(c, n - 1) + c.dataSize
  {
  }

  lemma JoinPieces(text: string, start: nat, n: nat)
    ensures Piece(text, 0, start) + Piece(text, start, n) == Piece(text, 0, start + n)
  {
  }

  /** What a receiver does with packets in any order, some of them possibly repeated: for each number the data of
    * the first packet with that number. */
  function DataOf(received: seq<Fragment>, i: int): string
  {
    if received == [] then ""
    else if received[0].frag == i then received[0].data
    else DataOf(received[1..], i)
  }

  function Reassembled(received: seq<Fragment>, n: nat): string
  {
    if n == 0 then "" else Reassembled(received, n - 1) + DataOf(received, n - 1)
  }

  lemma {:induction false} DataOfUnique(received: seq<Fragment>, f: Fragment)
    requires f in received && forall g :: g in received && g.frag == f.frag ==> g == f
    ensures DataOf(received, f.frag) == f.data
  {
    if received[0].frag != f.frag {
      assert f in received[1..];
      DataOfUnique(received[1..], f);
    } else {
      assert received[0] in received;
    }
  }

  lemma NumbersBelowMax(c: Config, i: nat)
    requires Usable(c) && i < c.maxChunks
    ensures FloorMod(i, c.maxChunks) == i
  {
  }

  lemma {:induction false} ReassembledUpTo(c: Config, text: string, version: int, received: seq<Fragment>, n: nat)
    requires Usable(c) && n <= FragmentTotal(c, |text|) <= c.maxChunks
    requires forall f :: f in received <==> f in Fragments(c, text, version, FragmentTotal(c, |text|))
    ensures Reassembled(received, n) == Joined(Fragments(c, text, version, n))
  {
    hide FragmentAt, FragmentTotal;
    if n > 0 {
      ReassembledUpTo(c, text, version, received, n - 1);
      FragmentIsUnique(c, text, version, received, n - 1);
      hide DataOf;
      DataOfUnique(received, FragmentAt(c, text, version, n - 1));
      assert Fragments(c, text, version, n)[..n - 1] == Fragments(c, text, version, n - 1);
    }
  }

  lemma FragmentIsUnique(c: Config, text: string, version: int, received: seq<Fragment>, i: nat)
    requires Usable(c) && i < FragmentTotal(c, |text|) <= c.maxChunks
    requires forall f :: f in received <==> f in Fragments(c, text, version, FragmentTotal(c, |text|))
    ensures var f := FragmentAt(c, text, version, i);
      f.frag == i && f in received && forall g :: g in received && g.frag == i ==> g == f
  {
    var total := FragmentTotal(c, |text|);
    var all := Fragments(c, text, version, total);
    FragmentsAt(c, text, version, total, i);
    NumbersBelowMax(c, i);
    assert all[i] in all;
    forall g | g in received && g.frag == i
      ensures g == FragmentAt(c, text, version, i)
    {
      var k :| 0 <= k < |all| && all[k] == g;
      FragmentsAt(c, text, version, total, k);
      NumbersBelowMax(c, k);
    }
  }

  /** Any delivery of exactly these fragments, in whatever order and however often repeated, makes up the text. */
  lemma FragmentsReassemble(c: Config, text: string, version: int, received: seq<Fragment>)
    requires Usable(c) && FragmentTotal(c, |text|) <= c.maxChunks
    requires forall f :: f in received <==> f in Fragments(c, text, version, FragmentTotal(c, |text|))
    ensures Reassembled(received, FragmentTotal(c, |text|)) == text
  {
    var total := FragmentTotal(c, |text|);
    ReassembledUpTo(c, text, version, received, total);
    PiecesJoin(c, text, version, total);
    EnoughFragments(c, |text|);
  }

  // ----- what a packet says -----

  function DigitValue(ch: char): nat
  {
    if '0' <= ch <= '9' then (ch - '0') as nat else 0
  }

  function NaturalOf(s: string): nat
  {
    if s == "" then 0 else 10 * NaturalOf(s[..|s| - 1]) + DigitValue(s[|s| - 1])
  }

  function NumberOf(s: string): int
  {
    if s != "" && s[0] == '-' then -(NaturalOf(s[1..]) as int) else NaturalOf(s)
  }

  /** The characters before the first comma. */
  function Field(s: string): (r: string)
    ensures r <= s
  {
    if s == "" || s[0] == ',' then "" else [s[0]] + Field(s[1..])
  }

  /** What follows a text, if the string begins with it. */
  function After(s: string, text: string): Option<string>
  {
    if text <= s then Some(s[|text|..]) else None
  }

  /** The number under a key at the beginning of a string, up to the next comma, and what follows. */
  function Number(s: string, key: string): Option<(int, string)>
  {
    match After(s, Opening(key))
    case None => None
    case Some(value) =>
      match After(value, Field(value) + ", ")
      case None => None
      case Some(rest) => Some((NumberOf(Field(value)), rest))
  }

  /** The text under the last key of an object. */
  function Text(s: string, key: string): Option<string>
  {
    match After(s, Opening(key) + "\"")
    case None => None
    case Some(rest) => if |rest| >= 2 && rest[|rest| - 2..] == "\"}" then Some(rest[..|rest| - 2]) else None
  }

  /** A reader of packets: the numbers under `seq`, `frag` and `tot`, and the text under `data`. */
  function Read(packet: string): Option<Fragment>
  {
    match After(packet, "{") case None => None case Some(s1) =>
    match Number(s1, "seq") case None => None case Some((sequence, s2)) =>
    match Number(s2, "frag") case None => None case Some((frag, s3)) =>
    match Number(s3, "tot") case None => None case Some((tot, s4)) =>
    match Text(s4, "data") case None => None case Some(data) => Some(Fragment(sequence, frag, tot, data))
  }

  lemma {:induction false} DecimalReads(n: nat)
    ensures NaturalOf(Decimal(n)) == n && forall ch :: ch in Decimal(n) ==> '0' <= ch <= '9'
  {
    if n >= 10 {
      DecimalReads(n / 10);
      assert Decimal(n)[..|Decimal(n)| - 1] == Decimal(n / 10);
    }
  }

  lemma NumeralReads(n: int)
    ensures NumberOf(Numeral(n)) == n && ',' !in Numeral(n)
  {
    DecimalReads(if n < 0 then -n else n);
    if n < 0 {
      assert Numeral(n)[1..] == Decimal(-n);
    } else {
      assert Numeral(n)[0] in Decimal(n);
    }
  }

  lemma {:induction false} FieldReads(field: string, rest: string)
    requires ',' !in field && rest != "" && rest[0] == ','
    ensures Field(field + rest) == field
  {
    if field == "" {
      assert field + rest == rest;
    } else {
      assert (field + rest)[1..] == field[1..] + rest;
      FieldReads(field[1..], rest);
    }
  }

  lemma AfterReads(text: string, rest: string)
    ensures After(text + rest, text) == Some(rest)
  {
  }

  /** One number is read under its key, and what follows it is left. */
  lemma NumberReads(key: string, n: int, rest: string)
    ensures Number(Member(key, n, rest), key) == Some((n, rest))
  {
    hide Numeral, NumberOf, Field, After, Opening;
    var value := Numeral(n) + (", " + rest);
    AfterReads(Opening(key), value);
    NumeralReads(n);
    FieldReads(Numeral(n), ", " + rest);
    AfterReads(Numeral(n) + ", ", rest);
    assert Numeral(n) + ", " + rest == value;
  }

  lemma TextReads(key: string, data: string)
    ensures Text(Opening(key) + ("\"" + (data + "\"}")), key) == Some(data)
  {
    hide After, Opening;
    var rest := data + "\"}";
    AfterReads(Opening(key) + "\"", rest);
    assert Opening(key) + "\"" + rest == Opening(key) + ("\"" + rest);
    assert rest[..|rest| - 2] == data && rest[|rest| - 2..] == "\"}";
  }

  /** Reading finds each number under its own key and the data under its own, whatever they are. */
  lemma PacketReads(f: Fragment)
    ensures Read(Dump(f)) == Some(f)
  {
    hide Member, Number, After, Text, Opening;
    var s4 := Opening("data") + ("\"" + (f.data + "\"}"));
    var s3 := Member("tot", f.tot, s4);
    var s2 := Member("frag", f.frag, s3);
    AfterReads("{", Member("seq", f.sequence, s2));
    NumberReads("seq", f.sequence, s2);
    NumberReads("frag", f.frag, s3);
    NumberReads("tot", f.tot, s4);
    TextReads("data", f.data);
  }

  /** A packet determines its fragment. */
  lemma DumpIsInjective(f: Fragment, g: Fragment)
    requires Dump(f) == Dump(g)
    ensures f == g
  {
    PacketReads(f);
    PacketReads(g);
  }

  /** All packets read, if all of them can be. */
  function ReadAll(received: seq<string>): Option<seq<Fragment>>
  {
    if received == [] then Some([])
    else
      match Read(received[0])
      case None => None
      case Some(f) =>
        match ReadAll(received[1..])
        case None => None
        case Some(rest) => Some([f] + rest)
  }

  lemma {:induction false} AllAreRead(received: seq<string>)
    requires forall i :: 0 <= i < |received| ==> Read(received[i]).Some?
    ensures ReadAll(received).Some? && |ReadAll(received).value| == |received|
    ensures forall i :: 0 <= i < |received| ==> Read(received[i]) == Some(ReadAll(received).value[i])
  {
    hide Read;
    if received != [] {
      assert Read(received[0]).Some?;
      AllAreRead(received[1..]);
    }
  }

  /** What a receiver makes of the packets it has: it reads each, and any of them tells how many belong together. */
  function TextOf(received: seq<string>): Option<string>
  {
    match ReadAll(received)
    case None => None
    case Some(all) => if all == [] || all[0].tot < 0 then None else Some(Reassembled(all, all[0].tot))
  }

  /** Packets may arrive in any order and repeatedly: as long as exactly those that were prepared arrive, and there
    * are at most `maxChunks` of them, their contents alone give back the text. */
  lemma PacketsReassemble(c: Config, text: string, version: int, packets: seq<string>, received: seq<string>)
    requires Usable(c) && Configured(c) && FragmentTotal(c, |text|) <= c.maxChunks
    requires var fragments := Fragments(c, text, version, FragmentTotal(c, |text|));
      |packets| == |fragments| && forall i :: 0 <= i < |fragments| ==> packets[i] == Dump(fragments[i])
    requires forall p :: p in received <==> p in packets
    ensures TextOf(received) == Some(text)
  {
    hide Dump, Read, FragmentTotal, Reassembled, Configured;
    var total := FragmentTotal(c, |text|);
    var fragments := Fragments(c, text, version, total);
    forall i | 0 <= i < |received|
      ensures Read(received[i]).Some? && Read(received[i]).value in fragments
    {
      assert received[i] in packets;
      var k :| 0 <= k < |packets| && packets[k] == received[i];
      PacketReads(fragments[k]);
    }
    AllAreRead(received);
    var all := ReadAll(received).value;
    forall f | f in all
      ensures f in fragments
    {
      var i :| 0 <= i < |all| && all[i] == f;
      assert Read(received[i]).value in fragments;
    }
    forall f | f in fragments
      ensures f in all
    {
      var k :| 0 <= k < |fragments| && fragments[k] == f;
      assert packets[k] in received;
      var i :| 0 <= i < |received| && received[i] == packets[k];
      PacketReads(f);
      assert all[i] == f;
    }
    FragmentsReassemble(c, text, version, all);
    SomePacket(c, |text|);
    assert fragments[0] in all;
    assert all[0] in fragments;
    var k :| 0 <= k < |fragments| && fragments[k] == all[0];
    FragmentsAt(c, text, version, total, k);
  }

  lemma SomePacket(c: Config, size: nat)
    requires Usable(c) && Configured(c)
    ensures FragmentTotal(c, size) >= 1
  {
    OverheadIsPositive(c.maxSequence, c.maxChunks);
    TotalIsPositive(c, size);
  }

  lemma EnoughFragments(c: Config, size: nat)
    requires Usable(c)
    ensures Offset(c, FragmentTotal(c, size)) >= size
  {
    CountBounds(c, size);
    Quotient(size + c.dataSize - 1, c.dataSize);
    TimesMonotone(Pieces(size, c.dataSize), FragmentTotal(c, size), c.dataSize);
  }

  /** Fragment numbers tell packets apart exactly when there are at most `maxChunks` of them. */
  lemma NumbersAreDistinctIff(c: Config, text: string, version: int)
    requires Usable(c)
    ensures var total := FragmentTotal(c, |text|);
      (forall i, j :: 0 <= i < j < total ==>
         FragmentAt(c, text, version, i).frag != FragmentAt(c, text, version, j).frag)
      <==> total <= c.maxChunks
  {
    var total := FragmentTotal(c, |text|);
    if total > c.maxChunks {
      assert FragmentAt(c, text, version, 0).frag == 0 && FragmentAt(c, text, version, c.maxChunks).frag == 0;
    } else {
      forall i, j | 0 <= i < j < total
        ensures FragmentAt(c, text, version, i).frag != FragmentAt(c, text, version, j).frag
      {
        NumbersBelowMax(c, i);
        NumbersBelowMax(c, j);
      }
    }
  }
}
