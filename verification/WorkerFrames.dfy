/**
  Length-prefixed frames between the gateway and the code-mode worker: a
  4-byte big-endian size, then the JSON payload. The JSON encoder is any
  sequence of chunks, the decoder any partial function on bytes.
*/
module WorkerFrames {
  import opened Basics

  const MAX_FRAME_BYTES: nat := 16 * 1024 * 1024
  const U32_LIMIT: nat := 0x1_0000_0000

  type Bytes = seq<Byte>

  /** `u32::to_be_bytes` */
  function ToBe(n: nat): (b: Bytes)
    requires n < U32_LIMIT
    ensures |b| == 4
  {
    [n / 0x100_0000, n / 0x1_0000 % 0x100, n / 0x100 % 0x100, n % 0x100]
  }

  /** `u32::from_be_bytes` */
  function FromBe(b: Bytes): (n: nat)
    requires |b| == 4
    ensures n < U32_LIMIT
  {
    var (b0: int, b1: int, b2: int, b3: int) := (b[0], b[1], b[2], b[3]);
    ((b0 * 0x100 + b1) * 0x100 + b2) * 0x100 + b3
  }

  lemma BeRoundTrip(n: nat)
    requires n < U32_LIMIT
    ensures FromBe(ToBe(n)) == n
  {
    var q := n / 0x100;
    assert n == q * 0x100 + n % 0x100;
    assert q / 0x100 == n / 0x1_0000 && q == n / 0x1_0000 * 0x100 + q % 0x100;
    assert n / 0x1_0000 / 0x100 == n / 0x100_0000;
  }

  lemma Digits(h: int, l: int, h': int, l': int)
    requires h * 0x100 + l == h' * 0x100 + l' && 0 <= l < 0x100 && 0 <= l' < 0x100
    ensures h == h' && l == l'
  {
  }

  lemma BeUnique(a: Bytes, b: Bytes)
    requires |a| == |b| == 4 && FromBe(a) == FromBe(b)
    ensures a == b
  {
    var (a0: int, a1: int, a2: int, a3: int) := (a[0], a[1], a[2], a[3]);
    var (b0: int, b1: int, b2: int, b3: int) := (b[0], b[1], b[2], b[3]);
    Digits((a0 * 0x100 + a1) * 0x100 + a2, a3, (b0 * 0x100 + b1) * 0x100 + b2, b3);
    Digits(a0 * 0x100 + a1, a2, b0 * 0x100 + b1, b2);
    Digits(a0, a1, b0, b1);
  }

  /******* Writing *******/

  /** What the JSON serializer does: the chunks it writes, and whether it then fails on its own. */
  datatype Serializer = Serializer(chunks: seq<Bytes>, fails: bool)

  function Flat(chunks: seq<Bytes>): Bytes
  {
    if chunks == [] then [] else Flat(chunks[..|chunks| - 1]) + chunks[|chunks| - 1]
  }

  lemma {:induction false} FlatGrows(chunks: seq<Bytes>, i: nat)
    requires i <= |chunks|
    ensures |Flat(chunks[..i])| <= |Flat(chunks)|
    decreases |chunks| - i
  {
    if i == |chunks| {
      assert chunks[..i] == chunks;
    } else {
      FlatGrows(chunks, i + 1);
      assert chunks[..i + 1][..i] == chunks[..i];
    }
  }

  class LimitedWriter {
    var inner: Bytes
    const limit: nat
    var written: nat
    var exceeded: bool

    predicate Valid()
      reads this
    {
      written == |inner| <= limit
    }

    constructor (limit: nat)
      ensures Valid() && inner == [] && this.limit == limit && !exceeded
    {
      this.limit := limit;
      inner, written, exceeded := [], 0, false;
    }

    /** All of the bytes, or none and the overrun is noted. */
    method Write(bytes: Bytes) returns (ok: bool)
      requires Valid()
      modifies this
      ensures Valid()
      ensures ok == (|old(inner)| + |bytes| <= limit)
      ensures inner == (if ok then old(inner) + bytes else old(inner)) && exceeded == (old(exceeded) || !ok)
    {
      if |bytes| > (if limit >= written then limit - written else 0) {
        exceeded := true;
        return false;
      }
      inner := inner + bytes;
      written := written + |bytes|;
      return true;
    }
  }

  /** `serde_json::to_writer`: chunking does not matter, only the total size does. */
  method ToWriter(w: LimitedWriter, ser: Serializer) returns (ok: bool)
    requires w.Valid() && w.inner == [] && !w.exceeded
    modifies w
    ensures w.Valid()
    ensures w.exceeded == (|Flat(ser.chunks)| > w.limit)
    ensures ok == (!ser.fails && |Flat(ser.chunks)| <= w.limit)
    ensures ok ==> w.inner == Flat(ser.chunks)
  {
    for i := 0 to |ser.chunks|
      invariant w.Valid() && !w.exceeded && w.inner == Flat(ser.chunks[..i])
    {
      assert ser.chunks[..i + 1][..i] == ser.chunks[..i];
      var fits := w.Write(ser.chunks[i]);
      if !fits {
        FlatGrows(ser.chunks, i + 1);
        return false;
      }
    }
    assert ser.chunks[..|ser.chunks|] == ser.chunks;
    return !ser.fails;
  }

  datatype WriteResult = Written | WriteIo | WriteOversized(size: nat) | WriteInvalid

  /** A pipe that breaks once `room` more bytes have gone through, and whose flush may fail. */
  class Pipe {
    var data: Bytes
    var room: nat
    const flushes: bool

    constructor (room: nat, flushes: bool)
      ensures data == [] && this.room == room && this.flushes == flushes
    {
      data, this.room, this.flushes := [], room, flushes;
    }

    method WriteAll(bytes: Bytes) returns (ok: bool)
      modifies this
      ensures ok == (|bytes| <= old(room))
      ensures data == old(data) + bytes[..Min(old(room), |bytes|)] && room == old(room) - Min(old(room), |bytes|)
    {
      var n := Min(room, |bytes|);
      data, room := data + bytes[..n], room - n;
      return n == |bytes|;
    }
  }

  /** The bytes of one frame. */
  function Framed(payload: Bytes): Bytes
    requires |payload| < U32_LIMIT
  {
    ToBe(|payload|) + payload
  }

  /** `write_frame`: accepted exactly if the whole payload fits; a rejected one leaves the pipe as it was. */
  method WriteFrame(pipe: Pipe, ser: Serializer) returns (r: WriteResult)
    modifies pipe
    ensures |Flat(ser.chunks)| > MAX_FRAME_BYTES <==> r.WriteOversized?
    ensures r.WriteOversized? ==> r.size == 16777217
    ensures ser.fails && |Flat(ser.chunks)| <= MAX_FRAME_BYTES <==> r.WriteInvalid?
    ensures r.WriteOversized? || r.WriteInvalid? ==> pipe.data == old(pipe.data) && pipe.room == old(pipe.room)
    ensures r.Written? ==> pipe.data == old(pipe.data) + Framed(Flat(ser.chunks))
    ensures r.WriteIo? ==>
              exists n :: 0 <= n <= 4 + |Flat(ser.chunks)| && pipe.data == old(pipe.data) + Framed(Flat(ser.chunks))[..n]
                          && (n == 4 + |Flat(ser.chunks)| ==> !pipe.flushes)
    ensures r.Written? <==> !ser.fails && |Flat(ser.chunks)| <= MAX_FRAME_BYTES
                            && 4 + |Flat(ser.chunks)| <= old(pipe.room) && pipe.flushes
  {
    var bounded := new LimitedWriter(MAX_FRAME_BYTES);
    var ok := ToWriter(bounded, ser);
    if !ok {
      return if bounded.exceeded then WriteOversized(MAX_FRAME_BYTES + 1) else WriteInvalid;
    }
    var payload := bounded.inner;
    var head := ToBe(|payload|);
    ghost var first := pipe.data;
    ok := pipe.WriteAll(head);
    if !ok {
      assert head[..|pipe.data| - |first|] == Framed(payload)[..|pipe.data| - |first|];
      return WriteIo;
    }
    assert head[..4] == head;
    ok := pipe.WriteAll(payload);
    if !ok {
      ghost var n := |pipe.data| - |first| - 4;
      assert head + payload[..n] == Framed(payload)[..n + 4];
      assert first + head + payload[..n] == first + (head + payload[..n]);
      return WriteIo;
    }
    assert first + head + payload == first + (head + payload);
    if !pipe.flushes {
      assert Framed(payload)[..4 + |payload|] == Framed(payload);
      return WriteIo;
    }
    return Written;
  }

  /** `json_size` */
  method JsonSize(ser: Serializer, limit: nat) returns (size: Option<nat>)
    ensures size == if !ser.fails && |Flat(ser.chunks)| <= limit then Some(|Flat(ser.chunks)|) else None
  {
    var w := new LimitedWriter(limit);
    var ok := ToWriter(w, ser);
    return if ok then Some(w.written) else None;
  }

  /******* Reading *******/

  datatype ReadResult<F> = Got(frame: F) | Eof | ReadIo | ReadOversized(size: nat) | ReadInvalid

  predicate SizeOk(n: nat)
  {
    0 < n <= MAX_FRAME_BYTES
  }

  /** What one `read_frame` makes of the bytes that are left; `broken` says that reading past them fails. */
  function ReadOne<F>(input: Bytes, broken: bool, dec: Bytes -> Option<F>): ReadResult<F>
  {
    if input == [] then (if broken then ReadIo else Eof)
    else if |input| < 4 then ReadIo
    else
      var size := FromBe(input[..4]);
      if !SizeOk(size) then ReadOversized(size)
      else if |input| < 4 + size then ReadIo
      else
        var f := dec(input[4..4 + size]);
        if f.Some? then Got(f.value) else ReadInvalid
  }

  /** What is left after a frame was read. */
  function Rest(input: Bytes): Bytes
    requires |input| >= 4 && |input| >= 4 + FromBe(input[..4])
  {
    input[4 + FromBe(input[..4])..]
  }

  class Reader {
    var input: Bytes
    const broken: bool
    var interrupts: nat

    constructor (input: Bytes, broken: bool, interrupts: nat)
      ensures this.input == input && this.broken == broken && this.interrupts == interrupts
    {
      this.input, this.broken, this.interrupts := input, broken, interrupts;
    }

    method ReadExact(n: nat) returns (bytes: Option<Bytes>)
      modifies this`input
      ensures |old(input)| >= n ==> bytes == Some(old(input)[..n]) && input == old(input)[n..]
      ensures |old(input)| < n ==> bytes.None?
    {
      if |input| < n {
        input := [];
        return None;
      }
      bytes := Some(input[..n]);
      input := input[n..];
    }

    /** `read_frame`: the first byte is retried while the read is interrupted. */
    method ReadFrame<F>(dec: Bytes -> Option<F>) returns (r: ReadResult<F>)
      modifies this
      ensures r == ReadOne(old(input), broken, dec)
      ensures r.Got? ==> |old(input)| >= 4 && |old(input)| >= 4 + FromBe(old(input)[..4]) && input == Rest(old(input))
    {
      while interrupts > 0
        invariant input == old(input)
      {
        interrupts := interrupts - 1;
      }
      if input == [] {
        return if broken then ReadIo else Eof;
      }
      var first := input[..1];
      input := input[1..];
      var others := ReadExact(3);
      if others.None? {
        return ReadIo;
      }
      assert first + others.value == old(input)[..4];
      var size := FromBe(first + others.value);
      if size == 0 || size > MAX_FRAME_BYTES {
        return ReadOversized(size);
      }
      assert input == old(input)[4..];
      var payload := ReadExact(size);
      if payload.None? {
        return ReadIo;
      }
      assert payload.value == old(input)[4..4 + size];
      var f := dec(payload.value);
      return if f.Some? then Got(f.value) else ReadInvalid;
    }
  }

  datatype Session<F> = Session(frames: seq<F>, end: ReadResult<F>)

  /** Reading frames until something other than a frame comes. */
  function ReadAll<F>(input: Bytes, broken: bool, dec: Bytes -> Option<F>): (s: Session<F>)
    ensures !s.end.Got?
    decreases |input|
  {
    var r := ReadOne(input, broken, dec);
    if r.Got? then
      var more := ReadAll(Rest(input), broken, dec);
      Session([r.frame] + more.frames, more.end)
    else Session([], r)
  }

  /******* Whole streams *******/

  /** A payload that fits a frame. */
  type Payload = p: Bytes | SizeOk(|p|) witness [0]

  function Stream(payloads: seq<Payload>): Bytes
  {
    if payloads == [] then [] else Framed(payloads[0]) + Stream(payloads[1..])
  }

  lemma ReadFramed<F>(payload: Payload, tail: Bytes, broken: bool, dec: Bytes -> Option<F>)
    ensures var input := Framed(payload) + tail;
            && |input| == 4 + |payload| + |tail| && FromBe(input[..4]) == |payload| && Rest(input) == tail
            && ReadOne(input, broken, dec) == (if dec(payload).Some? then Got(dec(payload).value) else ReadInvalid)
  {
    BeRoundTrip(|payload|);
    var input := Framed(payload) + tail;
    assert input[..4] == ToBe(|payload|);
    assert input[4..4 + |payload|] == payload;
  }

  /** The number that four bytes say, most significant first. */
  function SizeIn(b: Bytes): nat
    requires |b| >= 4
  {
    b[0] as int * 16777216 + b[1] as int * 65536 + b[2] as int * 256 + b[3] as int
  }

  /** On the wire: four bytes with the payload's size, most significant first, then the payload. */
  lemma FrameLayout(payload: Payload)
    ensures var f := Framed(payload); |f| == 4 + |payload| && SizeIn(f) == |payload| && f[4..] == payload
  {
    BeRoundTrip(|payload|);
    var f := Framed(payload);
    assert f[..4] == ToBe(|payload|);
    assert FromBe(f[..4]) == SizeIn(f);
  }

  /**
    What the bytes decide: a clean end only before any byte, an error inside a
    header or a payload that is cut off, a refusal of sizes 0 and above 16 MiB
    before any payload is read, and otherwise what the payload decodes to.
  */
  lemma BytesDecide<F>(input: Bytes, broken: bool, dec: Bytes -> Option<F>)
    ensures var r := ReadOne(input, broken, dec);
            && (r.Eof? <==> input == [] && !broken)
            && (|input| < 4 ==> r.Eof? || r.ReadIo?)
            && (|input| >= 4 ==>
                  var n := SizeIn(input);
                  && (n == 0 || n > 16777216 <==> r.ReadOversized?)
                  && (r.ReadOversized? ==> r.size == n)
                  && (r.ReadIo? <==> 0 < n <= 16777216 && |input| - 4 < n)
                  && (0 < n <= 16777216 && n <= |input| - 4 ==>
                        if dec(input[4..4 + n]).Some? then r == Got(dec(input[4..4 + n]).value) else r.ReadInvalid?))
  {
    if |input| >= 4 {
      assert FromBe(input[..4]) == SizeIn(input);
    }
  }

  /** A frame cut off anywhere but at its end is an I/O error, or a clean end if nothing of it came. */
  lemma ReadCut<F>(payload: Payload, n: nat, broken: bool, dec: Bytes -> Option<F>)
    requires n < 4 + |payload|
    ensures ReadOne(Framed(payload)[..n], broken, dec) == if n == 0 && !broken then Eof else ReadIo
  {
    BeRoundTrip(|payload|);
    if n >= 4 {
      assert Framed(payload)[..n][..4] == ToBe(|payload|);
    }
  }

  ghost predicate Decodes<F>(payloads: seq<Payload>, frames: seq<F>, dec: Bytes -> Option<F>)
  {
    |payloads| == |frames| && forall i :: 0 <= i < |frames| ==> dec(payloads[i]) == Some(frames[i])
  }

  /** How many frames lie wholly within the first `n` bytes. */
  function Whole(payloads: seq<Payload>, n: nat): (k: nat)
    ensures k <= |payloads|
  {
    if payloads == [] || n < 4 + |payloads[0]| then 0 else 1 + Whole(payloads[1..], n - 4 - |payloads[0]|)
  }

  /** What reading the first `n` bytes of a stream must come to. */
  ghost predicate CutRead<F>(payloads: seq<Payload>, frames: seq<F>, n: nat, broken: bool, s: Session<F>)
    requires |payloads| == |frames|
  {
    var k := Whole(payloads, n);
    s.frames == frames[..k] && s.end == (if |Stream(payloads[..k])| == n && !broken then Eof else ReadIo)
  }

  lemma CutInFirst<F>(payloads: seq<Payload>, frames: seq<F>, n: nat, broken: bool, dec: Bytes -> Option<F>)
    requires |payloads| == |frames| && n <= |Stream(payloads)| && payloads != [] && n < 4 + |payloads[0]|
    ensures CutRead(payloads, frames, n, broken, ReadAll(Stream(payloads)[..n], broken, dec))
  {
    assert Stream(payloads)[..n] == Framed(payloads[0])[..n];
    ReadCut(payloads[0], n, broken, dec);
    assert payloads[..0] == [];
  }

  lemma StreamPrefix(payloads: seq<Payload>, k: nat)
    requires k < |payloads|
    ensures |Stream(payloads[..1 + k])| == 4 + |payloads[0]| + |Stream(payloads[1..][..k])|
  {
    assert payloads[..1 + k][1..] == payloads[1..][..k];
  }

  lemma CutAfterFirst(payloads: seq<Payload>, n: nat)
    requires payloads != [] && 4 + |payloads[0]| <= n <= |Stream(payloads)|
    ensures Stream(payloads)[..n] == Framed(payloads[0]) + Stream(payloads[1..])[..n - 4 - |payloads[0]|]
  {
  }

  lemma ReadAllFramed<F>(payload: Payload, tail: Bytes, broken: bool, dec: Bytes -> Option<F>)
    requires dec(payload).Some?
    ensures var more := ReadAll(tail, broken, dec);
            ReadAll(Framed(payload) + tail, broken, dec) == Session([dec(payload).value] + more.frames, more.end)
  {
    ReadFramed(payload, tail, broken, dec);
  }

  lemma CutLater<F>(payloads: seq<Payload>, frames: seq<F>, n: nat, broken: bool, s: Session<F>)
    requires payloads != [] && |payloads| == |frames| && 4 + |payloads[0]| <= n
    requires CutRead(payloads[1..], frames[1..], n - 4 - |payloads[0]|, broken, s)
    ensures CutRead(payloads, frames, n, broken, Session([frames[0]] + s.frames, s.end))
  {
    var k := Whole(payloads[1..], n - 4 - |payloads[0]|);
    StreamPrefix(payloads, k);
    assert frames[..1 + k] == [frames[0]] + frames[1..][..k];
  }

  lemma DecodesRest<F>(payloads: seq<Payload>, frames: seq<F>, dec: Bytes -> Option<F>)
    requires Decodes(payloads, frames, dec) && payloads != []
    ensures Decodes(payloads[1..], frames[1..], dec) && dec(payloads[0]) == Some(frames[0])
  {
    forall i | 0 <= i < |frames| - 1 ensures dec(payloads[1..][i]) == Some(frames[1..][i]) {
      assert dec(payloads[i + 1]) == Some(frames[i + 1]);
    }
  }

  /**
    Reading any cut of a stream yields exactly the frames that lie wholly
    before the cut. It ends cleanly if and only if the cut is a frame boundary
    and the source has not failed.
  */
  lemma {:induction false} CutStream<F>(payloads: seq<Payload>, frames: seq<F>, n: nat, broken: bool, dec: Bytes -> Option<F>)
    requires Decodes(payloads, frames, dec) && n <= |Stream(payloads)|
    ensures CutRead(payloads, frames, n, broken, ReadAll(Stream(payloads)[..n], broken, dec))
  {
    if payloads != [] {
      if n < 4 + |payloads[0]| {
        CutInFirst(payloads, frames, n, broken, dec);
      } else {
        DecodesRest(payloads, frames, dec);
        var m := n - 4 - |payloads[0]|;
        CutStream(payloads[1..], frames[1..], m, broken, dec);
        CutLater(payloads, frames, n, broken, ReadAll(Stream(payloads[1..])[..m], broken, dec));
        CutAfterFirst(payloads, n);
        ReadAllFramed(payloads[0], Stream(payloads[1..])[..m], broken, dec);
      }
    }
  }

  lemma {:induction false} WholeStream(payloads: seq<Payload>)
    ensures Whole(payloads, |Stream(payloads)|) == |payloads|
  {
    if payloads != [] {
      WholeStream(payloads[1..]);
    }
  }

  /** Reading what was written yields exactly the frames written, then a clean end. */
  lemma RoundTrip<F>(payloads: seq<Payload>, frames: seq<F>, dec: Bytes -> Option<F>)
    requires Decodes(payloads, frames, dec)
    ensures ReadAll(Stream(payloads), false, dec) == Session(frames, Eof)
  {
    var n := |Stream(payloads)|;
    CutStream(payloads, frames, n, false, dec);
    WholeStream(payloads);
    assert Stream(payloads)[..n] == Stream(payloads);
    assert payloads[..|payloads|] == payloads && frames[..|frames|] == frames;
  }

  /** A frame that was read is its framed payload, in front of the rest. */
  lemma GotIsFramed<F>(input: Bytes, broken: bool, dec: Bytes -> Option<F>) returns (p: Payload)
    requires ReadOne(input, broken, dec).Got?
    ensures input == Framed(p) + Rest(input) && dec(p) == Some(ReadOne(input, broken, dec).frame)
  {
    var size := FromBe(input[..4]);
    p := input[4..4 + size];
    BeRoundTrip(size);
    BeUnique(input[..4], ToBe(size));
    assert input == input[..4] + p + Rest(input);
  }

  /** Nothing else is accepted: input read to a clean end is a stream of the frames it yielded. */
  lemma {:induction false} AcceptedIsStream<F>(input: Bytes, dec: Bytes -> Option<F>) returns (payloads: seq<Payload>)
    requires ReadAll(input, false, dec).end.Eof?
    ensures Decodes(payloads, ReadAll(input, false, dec).frames, dec) && input == Stream(payloads)
    decreases |input|
  {
    payloads := [];
    if ReadOne(input, false, dec).Got? {
      var p := GotIsFramed(input, false, dec);
      var more := AcceptedIsStream(Rest(input), dec);
      payloads := [p] + more;
      assert payloads[1..] == more;
    }
  }
}
