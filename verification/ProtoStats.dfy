/**
 Decoding of the core's traffic counters: gRPC frames around a QueryStatsResponse
 (internal/agent/grpcstats.go). The reference is the wire format itself, "Base 128 Varints"
 and "Message Structure" in the Protocol Buffers encoding specification.
 */
module ProtoStats {

  import opened Options

  type byte = x: int | 0 <= x < 256
  type Bytes = seq<byte>

  const U64: int := 0x1_0000_0000_0000_0000
  const MAX_COUNTER: int := 0x7fff_ffff_ffff_ffff
  const MAX_FRAME: int := 0x40_0000

  // ---- Varints ------------------------------------------------------------------------

  function EncodeVarint(v: nat): (b: Bytes)
    ensures b != []
  {
    if v < 128 then [v] else [v % 128 + 128] + EncodeVarint(v / 128)
  }

  /** Value and length of a varint of at most left bytes, without a limit on the value. */
  function Unlimited(b: Bytes, left: nat): (r: Option<(nat, nat)>)
    ensures r.Some? ==> 1 <= r.value.1 <= |b| && r.value.1 <= left
  {
    if b == [] || left == 0 then None
    else if b[0] < 128 then Some((b[0], 1))
    else match Unlimited(b[1..], left - 1)
      case None => None
      case Some(p) => Some((b[0] - 128 + 128 * p.0, p.1 + 1))
  }

  /** At most ten bytes, and what does not fit 64 bits is cut off. */
  function Varint(b: Bytes): (r: Option<(nat, nat)>)
    ensures r.Some? ==> 1 <= r.value.1 <= |b| && r.value.0 < U64
  {
    match Unlimited(b, 10)
    case None => None
    case Some(p) => Some((p.0 % U64, p.1))
  }

  function Pow128(n: nat): (p: nat)
    ensures p >= 1
  {
    if n == 0 then 1 else 128 * Pow128(n - 1)
  }

  lemma {:induction false} EncodeLength(v: nat, n: nat)
    requires n > 0 && v < Pow128(n)
    ensures |EncodeVarint(v)| <= n
  {
    if v >= 128 { EncodeLength(v / 128, n - 1); }
  }

  lemma {:induction false} DecodeEncoded(v: nat, rest: Bytes, left: nat)
    requires |EncodeVarint(v)| <= left
    ensures Unlimited(EncodeVarint(v) + rest, left) == Some((v, |EncodeVarint(v)|))
  {
    if v >= 128 {
      DecodeEncoded(v / 128, rest, left - 1);
      assert (EncodeVarint(v) + rest)[1..] == EncodeVarint(v / 128) + rest;
    }
  }

  lemma TenBytes()
    ensures U64 <= Pow128(10) && Pow128(9) == 0x8000_0000_0000_0000
  {
    assert Pow128(5) == 0x8_0000_0000;
    assert Pow128(9) == 128 * 128 * 128 * 128 * Pow128(5);
  }

  /** Every 64-bit value is read back, whatever follows it. */
  lemma VarintRoundTrip(v: nat, rest: Bytes)
    requires v < U64
    ensures Varint(EncodeVarint(v) + rest) == Some((v, |EncodeVarint(v)|))
  {
    TenBytes();
    EncodeLength(v, 10);
    DecodeEncoded(v, rest, 10);
  }

  lemma {:induction false} Pow128Grows(a: nat, b: nat)
    requires a <= b
    ensures Pow128(a) <= Pow128(b)
  {
    if a < b { Pow128Grows(a, b - 1); }
  }

  /** Bits 7i .. 7i+6, of which only the lowest is kept in the tenth byte. */
  function Placed(x: nat, i: nat): nat { (x * Pow128(i)) % U64 }

  lemma LowBytes(v: nat, x: nat, i: nat)
    requires i < 9 && x < 128 && v < Pow128(i)
    ensures v + Placed(x, i) == v + Pow128(i) * x < Pow128(i + 1) < U64
  {
    TenBytes();
    Pow128Grows(i + 1, 9);
    var p := Pow128(i);
    assert p * x <= p * 127 by { assert p * (127 - x) >= 0; }
    assert x * p == p * x;
  }

  lemma TenthByte(v: nat, x: nat)
    requires x < 128 && v < Pow128(9)
    ensures v + Placed(x, 9) == (v + Pow128(9) * x) % U64
  {
    TenBytes();
    assert x * Pow128(9) == Pow128(9) * x == (x / 2) * U64 + (x % 2) * Pow128(9);
    Wraps(v, x / 2, (x % 2) * Pow128(9));
    Wraps(0, x / 2, (x % 2) * Pow128(9));
  }

  lemma Wraps(v: nat, k: nat, r: nat)
    requires v + r < U64
    ensures (v + k * U64 + r) % U64 == v + r
  {
  }

  /** v holds the first i bytes, and more are to come. */
  predicate Seen(b: Bytes, v: nat, i: nat)
    requires i <= |b| && i <= 10
  {
    if i == 10 then Unlimited(b, 10).None?
    else v < Pow128(i) && Unlimited(b, 10) == Shifted(Unlimited(b[i..], 10 - i), v, i)
  }

  lemma Adds(v: nat, x: nat, i: nat)
    requires i < 10 && x < 128 && v < Pow128(i)
    ensures v + Placed(x, i) == (v + Pow128(i) * x) % U64
  {
    if i < 9 {
      LowBytes(v, x, i);
      Small(v + Pow128(i) * x);
    } else {
      TenthByte(v, x);
    }
  }

  lemma Small(x: nat)
    requires x < U64
    ensures x % U64 == x
  {
  }

  lemma LastByte(b: Bytes, v: nat, i: nat)
    requires i < |b| && i < 10 && Seen(b, v, i) && b[i] < 128
    ensures Varint(b) == Some((v + Placed(b[i] % 128, i), i + 1))
  {
    assert b[i..][0] == b[i];
    ShiftStep(b[i..], 10 - i, v, i);
    Adds(v, b[i], i);
    assert b[i] % 128 == b[i];
    assert Unlimited(b, 10) == Some((v + Pow128(i) * b[i], i + 1));
  }

  lemma MoreBytes(b: Bytes, v: nat, i: nat)
    requires i < |b| && i < 10 && Seen(b, v, i) && b[i] >= 128
    ensures Seen(b, v + Placed(b[i] % 128, i), i + 1)
  {
    assert b[i..][0] == b[i] && b[i..][1..] == b[i + 1..];
    ShiftStep(b[i..], 10 - i, v, i);
    if i < 9 { LowBytes(v, b[i] % 128, i); }
  }

  lemma NothingSeen(b: Bytes)
    ensures Seen(b, 0, 0)
  {
    assert b[0..] == b && Pow128(0) == 1;
  }

  /** decodeVarint. Each byte's seven bits go above those before it. */
  method DecodeVarint(b: Bytes) returns (r: Option<(nat, nat)>)
    ensures r == Varint(b)
  {
    var v: nat := 0;
    var i: nat := 0;
    NothingSeen(b);
    while i < |b| && i < 10
      invariant i <= |b| && i <= 10 && Seen(b, v, i)
    {
      if b[i] < 128 { LastByte(b, v, i); } else { MoreBytes(b, v, i); }
      v := v + Placed(b[i] % 128, i);
      if b[i] < 128 { return Some((v, i + 1)); }
      i := i + 1;
    }
    r := None;
  }

  function Shifted(r: Option<(nat, nat)>, v: nat, i: nat): Option<(nat, nat)> {
    match r case None => None case Some(p) => Some((v + Pow128(i) * p.0, i + p.1))
  }

  lemma ShiftStep(b: Bytes, left: nat, v: nat, i: nat)
    requires b != [] && left > 0
    ensures b[0] >= 128 ==>
      Shifted(Unlimited(b, left), v, i) == Shifted(Unlimited(b[1..], left - 1), v + Pow128(i) * (b[0] % 128), i + 1)
    ensures b[0] < 128 ==> Shifted(Unlimited(b, left), v, i) == Some((v + Pow128(i) * (b[0] % 128), i + 1))
  {
    var r := Unlimited(b[1..], left - 1);
    if b[0] >= 128 && r.Some? {
      var p, w := Pow128(i), r.value.0;
      assert p * (b[0] - 128 + 128 * w) == p * (b[0] - 128) + 128 * p * w;
      assert Pow128(i + 1) * w == 128 * p * w;
    }
  }

  // ---- Messages --------------------------------------------------------------------------

  /** One field of a message, by wire type 0, 1, 2 and 5. */
  datatype Field =
    | Number(num: nat, v: nat)
    | Fixed64(num: nat, raw: Bytes)
    | Chunk(num: nat, raw: Bytes)
    | Fixed32(num: nat, raw: Bytes)

  function Wire(f: Field): nat {
    match f case Number(_, _) => 0 case Fixed64(_, _) => 1 case Chunk(_, _) => 2 case Fixed32(_, _) => 5
  }

  function Key(f: Field): nat { 8 * f.num + Wire(f) }

  predicate WellFormed(f: Field) {
    && Key(f) < U64
    && (match f
        case Number(_, v) => v < U64
        case Fixed64(_, raw) => |raw| == 8
        case Chunk(_, raw) => |raw| < U64
        case Fixed32(_, raw) => |raw| == 4)
  }

  function Encode(f: Field): (b: Bytes)
    ensures b != []
  {
    EncodeVarint(Key(f)) + (match f
                            case Number(_, v) => EncodeVarint(v)
                            case Chunk(_, raw) => EncodeVarint(|raw|) + raw
                            case _ => f.raw)
  }

  function EncodeAll(fs: seq<Field>): Bytes {
    if fs == [] then [] else Encode(fs[0]) + EncodeAll(fs[1..])
  }

  /** The payload of a field, given its key. */
  function Payload(num: nat, wire: nat, b: Bytes): (r: Option<(Field, Bytes)>)
    ensures r.Some? ==> |r.value.1| <= |b| && r.value.0.num == num && Wire(r.value.0) == wire
  {
    match wire
    case 0 => (match Varint(b) case None => None case Some(p) => Some((Number(num, p.0), b[p.1..])))
    case 1 => if |b| < 8 then None else Some((Fixed64(num, b[..8]), b[8..]))
    case 2 =>
      (match Varint(b)
       case None => None
       case Some(p) =>
         var rest := b[p.1..];
         if p.0 > |rest| then None else Some((Chunk(num, rest[..p.0]), rest[p.0..])))
    case 5 => if |b| < 4 then None else Some((Fixed32(num, b[..4]), b[4..]))
    case _ => None
  }

  function TakeField(b: Bytes): (r: Option<(Field, Bytes)>)
    ensures r.Some? ==> |r.value.1| < |b|
  {
    match Varint(b)
    case None => None
    case Some(p) => Payload(p.0 / 8, p.0 % 8, b[p.1..])
  }

  /** A message is a sequence of fields and nothing else. */
  function Fields(b: Bytes): Option<seq<Field>>
    decreases |b|
  {
    if b == [] then Some([])
    else match TakeField(b)
      case None => None
      case Some(p) => (match Fields(p.1) case None => None case Some(fs) => Some([p.0] + fs))
  }

  lemma FieldRoundTrip(f: Field, rest: Bytes)
    requires WellFormed(f)
    ensures TakeField(Encode(f) + rest) == Some((f, rest))
  {
    var key := EncodeVarint(Key(f));
    var after := Encode(f)[|key|..] + rest;
    assert Encode(f) + rest == key + after;
    VarintRoundTrip(Key(f), after);
    assert (key + after)[|key|..] == after;
    assert Key(f) / 8 == f.num && Key(f) % 8 == Wire(f);
    match f
    case Number(_, v) =>
      VarintRoundTrip(v, rest);
      assert after == EncodeVarint(v) + rest;
      assert after[|EncodeVarint(v)|..] == rest;
    case Chunk(_, raw) =>
      VarintRoundTrip(|raw|, raw + rest);
      assert after == EncodeVarint(|raw|) + (raw + rest);
      assert after[|EncodeVarint(|raw|)|..] == raw + rest;
      assert (raw + rest)[..|raw|] == raw && (raw + rest)[|raw|..] == rest;
    case _ =>
      assert after == f.raw + rest;
      assert after[..|f.raw|] == f.raw && after[|f.raw|..] == rest;
  }

  /** A message is read back field by field, unknown ones included. */
  lemma {:induction false} MessageRoundTrip(fs: seq<Field>)
    requires forall f | f in fs :: WellFormed(f)
    ensures Fields(EncodeAll(fs)) == Some(fs)
  {
    if fs != [] {
      var rest := EncodeAll(fs[1..]);
      FieldRoundTrip(fs[0], rest);
      assert EncodeAll(fs) == Encode(fs[0]) + rest != [];
      assert fs == [fs[0]] + fs[1..];
      MessageRoundTrip(fs[1..]);
    }
  }

  // ---- Stat rows -----------------------------------------------------------------------------

  datatype Row = Row(name: Bytes, value: nat)

  const BLANK := Row([], 0)

  predicate IsName(f: Field) { f.Chunk? && f.num == 1 }

  predicate IsValue(f: Field) { f.Number? && f.num == 2 }

  /** Fields in order; an unknown one changes nothing. */
  function Fill(row: Row, fs: seq<Field>): Option<Row>
    decreases |fs|
  {
    if fs == [] then Some(row)
    else if IsName(fs[0]) then Fill(row.(name := fs[0].raw), fs[1..])
    else if IsValue(fs[0]) then (if fs[0].v > MAX_COUNTER then None else Fill(row.(value := fs[0].v), fs[1..]))
    else Fill(row, fs[1..])
  }

  function LastName(fs: seq<Field>, otherwise: Bytes): Bytes {
    if fs == [] then otherwise else if IsName(fs[|fs| - 1]) then fs[|fs| - 1].raw
      else LastName(fs[..|fs| - 1], otherwise)
  }

  function LastValue(fs: seq<Field>, otherwise: nat): nat {
    if fs == [] then otherwise else if IsValue(fs[|fs| - 1]) then fs[|fs| - 1].v
      else LastValue(fs[..|fs| - 1], otherwise)
  }

  predicate InRange(fs: seq<Field>) { forall f | f in fs && IsValue(f) :: f.v <= MAX_COUNTER }

  lemma {:induction false} LastOfTail(fs: seq<Field>, name: Bytes, value: nat)
    requires fs != []
    ensures LastName(fs, name) == LastName(fs[1..], if IsName(fs[0]) then fs[0].raw else name)
    ensures LastValue(fs, value) == LastValue(fs[1..], if IsValue(fs[0]) then fs[0].v else value)
  {
    var n := |fs| - 1;
    if n > 0 {
      assert fs[1..][n - 1] == fs[n] && fs[1..][..n - 1] == fs[..n][1..];
      LastOfTail(fs[..n], name, value);
    }
  }

  /** The last name and the last value count, and a row is refused exactly when one of its
      values does not fit a signed counter. */
  lemma {:induction false} RowMeaning(row: Row, fs: seq<Field>)
    ensures Fill(row, fs) == if InRange(fs) then Some(Row(LastName(fs, row.name), LastValue(fs, row.value))) else None
    decreases |fs|
  {
    if fs != [] {
      var f := fs[0];
      LastOfTail(fs, row.name, row.value);
      assert InRange(fs) <==> InRange(fs[1..]) && (IsValue(f) ==> f.v <= MAX_COUNTER);
      RowMeaning(Row(if IsName(f) then f.raw else row.name, if IsValue(f) then f.v else row.value), fs[1..]);
    }
  }

  /** What decodeStat answers. */
  function Stat(row: Row, b: Bytes): Option<Row> {
    match Fields(b) case None => None case Some(fs) => Fill(row, fs)
  }

  lemma StatStep(row: Row, b: Bytes)
    requires b != []
    ensures TakeField(b).None? ==> Stat(row, b).None?
    ensures TakeField(b).Some? ==>
      var f, rest := TakeField(b).value.0, TakeField(b).value.1;
      && (IsName(f) ==> Stat(row, b) == Stat(row.(name := f.raw), rest))
      && (IsValue(f) ==> Stat(row, b) == if f.v > MAX_COUNTER then None else Stat(row.(value := f.v), rest))
      && (!IsName(f) && !IsValue(f) ==> Stat(row, b) == Stat(row, rest))
  {
    if TakeField(b).Some? && Fields(TakeField(b).value.1).Some? {
      var f, fs := TakeField(b).value.0, Fields(TakeField(b).value.1).value;
      assert ([f] + fs)[1..] == fs;
    }
  }

  /** skipProto: what is left after a payload of any known wire type. */
  method SkipProto(msg: Bytes, wire: nat) returns (r: Option<Bytes>)
    ensures forall num: nat :: match Payload(num, wire, msg) case None => r.None? case Some(p) => r == Some(p.1)
  {
    match wire
    case 0 =>
      var p := DecodeVarint(msg);
      if p.None? { return None; }
      r := Some(msg[p.value.1..]);
    case 1 =>
      if |msg| < 8 { return None; }
      r := Some(msg[8..]);
    case 2 =>
      var p := DecodeVarint(msg);
      if p.None? { return None; }
      var rest := msg[p.value.1..];
      if p.value.0 > |rest| { return None; }
      r := Some(rest[p.value.0..]);
    case 5 =>
      if |msg| < 4 { return None; }
      r := Some(msg[4..]);
    case _ => r := None;
  }

  /** A length and that many bytes. */
  method TakeChunk(msg: Bytes) returns (r: Option<(Bytes, Bytes)>)
    ensures forall num: nat :: match Payload(num, 2, msg) case None => r.None? case Some(p) => r == Some((p.0.raw, p.1))
  {
    var p := DecodeVarint(msg);
    if p.None? { return None; }
    var rest := msg[p.value.1..];
    if p.value.0 > |rest| { return None; }
    r := Some((rest[..p.value.0], rest[p.value.0..]));
  }

  /** decodeStat. */
  method DecodeStat(b: Bytes) returns (r: Option<Row>)
    ensures r == Stat(BLANK, b)
  {
    var msg, row := b, BLANK;
    while |msg| > 0
      invariant Stat(BLANK, b) == Stat(row, msg)
      decreases |msg|
    {
      StatStep(row, msg);
      var key := DecodeVarint(msg);
      if key.None? { return None; }
      msg := msg[key.value.1..];
      var field, wire := key.value.0 / 8, key.value.0 % 8;
      if field == 1 && wire == 2 {
        var chunk := TakeChunk(msg);
        if chunk.None? { return None; }
        row := row.(name := chunk.value.0);
        msg := chunk.value.1;
      } else if field == 2 && wire == 0 {
        var v := DecodeVarint(msg);
        if v.None? { return None; }
        msg := msg[v.value.1..];
        if v.value.0 > MAX_COUNTER { return None; }
        row := row.(value := v.value.0);
      } else {
        var rest := SkipProto(msg, wire);
        if rest.None? { return None; }
        msg := rest.value;
      }
    }
    r := Some(row);
  }

  /** One row for each field 1, in order. */
  function RowsOf(fs: seq<Field>): Option<seq<Row>> {
    if fs == [] then Some([])
    else
      var tail := RowsOf(fs[1..]);
      if !IsName(fs[0]) then tail
      else
        var row := Stat(BLANK, fs[0].raw);
        if row.None? || tail.None? then None else Some([row.value] + tail.value)
  }

  /** What decodeQueryStats answers. */
  function Query(b: Bytes): Option<seq<Row>> {
    match Fields(b) case None => None case Some(fs) => RowsOf(fs)
  }

  function Prepend(rows: seq<Row>, r: Option<seq<Row>>): Option<seq<Row>> {
    match r case None => None case Some(more) => Some(rows + more)
  }

  lemma QueryStep(b: Bytes)
    requires b != []
    ensures TakeField(b).None? ==> Query(b).None?
    ensures TakeField(b).Some? ==>
      var f, rest := TakeField(b).value.0, TakeField(b).value.1;
      if !IsName(f) then Query(b) == Query(rest)
      else if Stat(BLANK, f.raw).None? then Query(b) == None
      else Query(b) == Prepend([Stat(BLANK, f.raw).value], Query(rest))
  {
    if TakeField(b).Some? && Fields(TakeField(b).value.1).Some? {
      var f, fs := TakeField(b).value.0, Fields(TakeField(b).value.1).value;
      assert ([f] + fs)[1..] == fs;
    }
  }

  lemma PrependNothing(r: Option<seq<Row>>)
    ensures Prepend([], r) == r
  {
    if r.Some? { assert [] + r.value == r.value; }
  }

  lemma PrependTwice(a: seq<Row>, b: seq<Row>, r: Option<seq<Row>>)
    ensures Prepend(a, Prepend(b, r)) == Prepend(a + b, r)
  {
    if r.Some? { assert a + (b + r.value) == (a + b) + r.value; }
  }

  /** decodeQueryStats. */
  method DecodeQueryStats(b: Bytes) returns (r: Option<seq<Row>>)
    ensures r == Query(b)
  {
    var msg := b;
    var rows: seq<Row> := [];
    PrependNothing(Query(b));
    while |msg| > 0
      invariant Query(b) == Prepend(rows, Query(msg))
      decreases |msg|
    {
      QueryStep(msg);
      var key := DecodeVarint(msg);
      if key.None? { return None; }
      msg := msg[key.value.1..];
      var field, wire := key.value.0 / 8, key.value.0 % 8;
      if field == 1 && wire == 2 {
        var chunk := TakeChunk(msg);
        if chunk.None? { return None; }
        var row := DecodeStat(chunk.value.0);
        if row.None? { return None; }
        msg := chunk.value.1;
        PrependTwice(rows, [row.value], Query(msg));
        rows := rows + [row.value];
      } else {
        var rest := SkipProto(msg, wire);
        if rest.None? { return None; }
        msg := rest.value;
      }
    }
    assert rows + [] == rows;
    r := Some(rows);
  }

  function Rows(stats: seq<seq<Field>>): (rows: seq<Row>)
    ensures |rows| == |stats| && forall i | 0 <= i < |stats| ::
      rows[i] == Row(LastName(stats[i], []), LastValue(stats[i], 0))
  {
    seq(|stats|, i requires 0 <= i < |stats| => Row(LastName(stats[i], []), LastValue(stats[i], 0)))
  }

  predicate Sound(st: seq<Field>) { InRange(st) && forall f | f in st :: WellFormed(f) }

  /** fs holds the encoded stats in order, with any other fields in between. */
  predicate Holds(fs: seq<Field>, stats: seq<seq<Field>>) {
    if fs == [] then stats == []
    else if IsName(fs[0]) then stats != [] && fs[0].raw == EncodeAll(stats[0]) && Holds(fs[1..], stats[1..])
    else Holds(fs[1..], stats)
  }

  lemma {:induction false} RowsRoundTrip(fs: seq<Field>, stats: seq<seq<Field>>)
    requires Holds(fs, stats)
    requires forall st | st in stats :: Sound(st)
    ensures RowsOf(fs) == Some(Rows(stats))
  {
    if fs != [] {
      if IsName(fs[0]) {
        var st := stats[0];
        assert Sound(st);
        forall s | s in stats[1..]
          ensures Sound(s)
        {
          assert s in stats;
        }
        RowsRoundTrip(fs[1..], stats[1..]);
        MessageRoundTrip(st);
        RowMeaning(BLANK, st);
        assert Rows(stats) == [Row(LastName(st, []), LastValue(st, 0))] + Rows(stats[1..]);
      } else {
        RowsRoundTrip(fs[1..], stats);
      }
    }
  }

  /** Decoding undoes encoding: every row comes back, whatever unknown fields stand between
      the rows and inside them. */
  lemma QueryRoundTrip(fs: seq<Field>, stats: seq<seq<Field>>)
    requires Holds(fs, stats) && forall f | f in fs :: WellFormed(f)
    requires forall st | st in stats :: Sound(st)
    ensures Query(EncodeAll(fs)) == Some(Rows(stats))
  {
    MessageRoundTrip(fs);
    RowsRoundTrip(fs, stats);
  }

  // ---- gRPC frames -----------------------------------------------------------------------------

  function BigEndian(b: Bytes): nat
    requires |b| == 4
  {
    var b0: nat, b1: nat, b2: nat, b3: nat := b[0], b[1], b[2], b[3];
    0x100_0000 * b0 + 0x1_0000 * b1 + 0x100 * b2 + b3
  }

  function Length32(n: nat): (b: Bytes)
    requires n < 0x1_0000_0000
    ensures |b| == 4 && BigEndian(b) == n
  {
    var a := n / 256;
    var b := a / 256;
    [b / 256, b % 256, a % 256, n % 256]
  }

  function Frame(m: Bytes): Bytes
    requires |m| <= MAX_FRAME
  {
    [0] + Length32(|m|) + m
  }

  /** The first message of a body and what follows it. */
  function TakeFrame(body: Bytes): (r: Option<(Bytes, Bytes)>)
    ensures r.Some? ==> |r.value.1| < |body|
  {
    if |body| < 5 || body[0] != 0 then None
    else
      var n, rest := BigEndian(body[1..5]), body[5..];
      if n > MAX_FRAME || n > |rest| then None else Some((rest[..n], rest[n..]))
  }

  /** What decodeGRPCStats answers. */
  function Frames(body: Bytes): Option<seq<Row>>
    decreases |body|
  {
    if body == [] then Some([])
    else match TakeFrame(body)
      case None => None
      case Some(p) =>
        var rows := Query(p.0);
        if rows.None? then None else Prepend(rows.value, Frames(p.1))
  }

  /** decodeGRPCStats. */
  method DecodeGRPCStats(b: Bytes) returns (r: Option<seq<Row>>)
    ensures r == Frames(b)
  {
    var body := b;
    var all: seq<Row> := [];
    PrependNothing(Frames(b));
    while |body| > 0
      invariant Frames(b) == Prepend(all, Frames(body))
      decreases |body|
    {
      if |body| < 5 { return None; }
      if body[0] != 0 { return None; }
      var n := BigEndian(body[1..5]);
      var rest := body[5..];
      if n > MAX_FRAME || n > |rest| { return None; }
      var rows := DecodeQueryStats(rest[..n]);
      if rows.None? { return None; }
      PrependTwice(all, rows.value, Frames(rest[n..]));
      all := all + rows.value;
      body := rest[n..];
    }
    assert all + [] == all;
    r := Some(all);
  }

  lemma TakeFrameLonger(a: Bytes, b: Bytes)
    requires TakeFrame(a).Some?
    ensures TakeFrame(a + b) == Some((TakeFrame(a).value.0, TakeFrame(a).value.1 + b))
  {
    var n, rest := BigEndian(a[1..5]), a[5..];
    assert (a + b)[1..5] == a[1..5] && (a + b)[5..] == rest + b;
    assert (rest + b)[..n] == rest[..n] && (rest + b)[n..] == rest[n..] + b;
  }

  /** Decoding a concatenation is the concatenation of the decodings. */
  lemma {:induction false} FramesConcatenate(a: Bytes, b: Bytes)
    requires Frames(a).Some?
    ensures Frames(a + b) == Prepend(Frames(a).value, Frames(b))
    decreases |a|
  {
    if a == [] {
      assert [] + b == b;
      PrependNothing(Frames(b));
    } else {
      TakeFrameLonger(a, b);
      var p := TakeFrame(a).value;
      FramesConcatenate(p.1, b);
      PrependTwice(Query(p.0).value, Frames(p.1).value, Frames(b));
    }
  }

  /** A framed message decodes as the message. */
  lemma FrameRoundTrip(m: Bytes)
    requires |m| <= MAX_FRAME
    ensures Frames(Frame(m)) == Query(m)
  {
    var f := Frame(m);
    assert f[1..5] == Length32(|m|) && f[5..] == m;
    assert m[..|m|] == m && m[|m|..] == [];
    if Query(m).Some? { assert Query(m).value + [] == Query(m).value; }
  }
}
