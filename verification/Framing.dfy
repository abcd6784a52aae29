/** TCP framing on the EdgeNode (`_read_frame`, `_discard_payload`, `_build_frame`
    in doip_edgenode/session.py). */
module Framing {
  import opened Common

  const HEADER_LEN: nat := 8
  const DISCARD_CHUNK: nat := 4096

  const NACK_PATTERN: byte := 0x00
  const NACK_UNKNOWN_TYPE: byte := 0x01
  const NACK_TOO_LARGE: byte := 0x02
  const NACK_LENGTH: byte := 0x04

  /** A frame on the wire whose length field tells the truth.  `inverse` is free. */
  datatype Packet = Packet(version: byte, inverse: byte, ptype: uint16, payload: Bytes)

  predicate Encodable(p: Packet) { |p.payload| < 0x1_0000_0000 }

  function Encode(p: Packet): Bytes
    requires Encodable(p)
  {
    [p.version, p.inverse] + Encode16(p.ptype) + Encode32(|p.payload|) + p.payload
  }

  /** `_build_frame`: the inverse byte is `0xFF ^ version`. */
  function BuildFrame(ptype: uint16, payload: Bytes, version: byte): Bytes
    requires |payload| < 0x1_0000_0000
  {
    Encode(Packet(version, 255 - version, ptype, payload))
  }

  // ------------------------------------------------------------- header checks

  predicate PatternOk(version: byte, inverse: byte) {
    (version == 0x02 || version == 0x03) && inverse == 255 - version
  }

  predicate Supported(ptype: uint16) {
    ptype in {0x0000, 0x0005, 0x0007, 0x0008, 0x4001, 0x4003, 0x8001}
  }

  predicate LengthOk(ptype: uint16, length: nat) {
    if ptype == 0x8001 then length >= 5
    else if ptype == 0x0000 then length == 1
    else if ptype == 0x0005 then length == 7 || length == 11
    else if ptype == 0x0008 then length == 2
    else length == 0
  }

  /** What becomes of a frame: read, skipped with a NACK, or the end of the session. */
  datatype Verdict = Accept | Reject(code: byte) | Abort(code: byte)

  /** When bytes come.  `arrives(left, i)` is how long after its start a discard that
      begins with `left` bytes of the stream to come has read its chunk `i`. */
  datatype Clock = Clock(arrives: (nat, nat) -> nat, deadline: nat)

  ghost predicate ValidClock(clock: Clock) {
    forall left, i, j :: 0 <= i <= j ==> clock.arrives(left, i) <= clock.arrives(left, j)
  }

  /** The last chunk of `length` bytes is read before the deadline. */
  predicate InTime(clock: Clock, left: nat, length: nat) {
    length == 0 || clock.arrives(left, (length - 1) / DISCARD_CHUNK) < clock.deadline
  }

  function Judge(version: byte, inverse: byte, ptype: uint16, length: nat, limit: nat, inTime: bool): Verdict {
    if !PatternOk(version, inverse) then Abort(NACK_PATTERN)
    else if !Supported(ptype) then Skip(NACK_UNKNOWN_TYPE, inTime)
    else if length > limit then Skip(NACK_TOO_LARGE, inTime)
    else if !LengthOk(ptype, length) then Abort(NACK_LENGTH)
    else Accept
  }

  function Skip(code: byte, inTime: bool): Verdict {
    if inTime then Reject(code) else Abort(code)
  }

  // ---------------------------------------------------------------- the reader

  datatype Result = Frame(raw: Bytes) | Rejected | Ended

  /** One call of the reader on the bytes still to come: its result, the NACKs it
      sent and what is left of the stream. */
  datatype Call = Call(result: Result, nacks: seq<byte>, rest: Bytes)

  function ReadFrame(data: Bytes, limit: nat, clock: Clock): Call {
    if |data| < HEADER_LEN then Call(Ended, [], [])
    else
      var length := Decode32(data[4..8]);
      var body := data[HEADER_LEN..];
      match Judge(data[0], data[1], Decode16(data[2..4]), length, limit, InTime(clock, |data|, length))
      case Abort(code) => Call(Ended, [code], [])
      case Reject(code) =>
        if |body| < length then Call(Ended, [code], []) else Call(Rejected, [code], body[length..])
      case Accept =>
        if |body| < length then Call(Ended, [], [])
        else Call(Frame(data[..HEADER_LEN + length]), [], body[length..])
  }

  /** The session loop: everything it reads and every NACK it sends until it ends. */
  datatype Session = Session(frames: seq<Bytes>, nacks: seq<byte>)

  function ReadAll(data: Bytes, limit: nat, clock: Clock): Session
    decreases |data|
  {
    var call := ReadFrame(data, limit, clock);
    if call.result.Ended? then Session([], call.nacks)
    else
      var later := ReadAll(call.rest, limit, clock);
      Session((if call.result.Frame? then [call.result.raw] else []) + later.frames, call.nacks + later.nacks)
  }

  // -------------------------------------------------------- imperative reader

  /** The bytes a peer will ever send, and how many of them have been consumed. */
  class StreamReader {
    const data: Bytes
    var pos: nat

    ghost predicate Valid()
      reads this
    {
      pos <= |data|
    }

    ghost function Rest(): Bytes
      requires Valid()
      reads this
    {
      data[pos..]
    }

    constructor (bytes: Bytes)
      ensures Valid() && pos == 0 && Rest() == bytes
    {
      data := bytes;
      pos := 0;
    }

    /** `readexactly`; None is the IncompleteReadError at the end of the stream. */
    method ReadExactly(n: nat) returns (chunk: Option<Bytes>)
      requires Valid()
      modifies this`pos
      ensures Valid()
      ensures chunk.Some? <==> n <= |old(Rest())|
      ensures chunk.Some? ==> chunk.value == old(Rest())[..n] && Rest() == old(Rest())[n..]
      ensures chunk.None? ==> Rest() == []
    {
      if n > |data| - pos {
        pos := |data|;
        return None;
      }
      chunk := Some(data[pos..pos + n]);
      pos := pos + n;
    }
  }

  /** Stream rejected bytes in chunks of at most 4096 until the deadline.  Success means
      that exactly `length` bytes are gone; it comes exactly if they are there and the
      last chunk is read in time. */
  method DiscardPayload(reader: StreamReader, length: nat, clock: Clock, left: nat) returns (done: bool, chunks: seq<nat>)
    requires reader.Valid() && ValidClock(clock)
    modifies reader`pos
    ensures reader.Valid()
    ensures done <==> length <= |old(reader.Rest())| && InTime(clock, left, length)
    ensures done ==> reader.Rest() == old(reader.Rest())[length..]
    ensures forall i :: 0 <= i < |chunks| ==> 0 < chunks[i] <= DISCARD_CHUNK
    ensures done ==> Sum(chunks) == length
  {
    var remaining: nat := length;
    chunks := [];
    ghost var before := reader.Rest();
    while remaining > 0
      invariant reader.Valid() && remaining <= length
      invariant length - remaining <= |before| && reader.Rest() == before[length - remaining..]
      invariant forall i :: 0 <= i < |chunks| ==> 0 < chunks[i] <= DISCARD_CHUNK
      invariant Sum(chunks) == length - remaining
      invariant remaining > 0 ==> length - remaining == |chunks| * DISCARD_CHUNK
      invariant remaining == 0 && length > 0 ==> InTime(clock, left, length)
      decreases remaining
    {
      ChunkIndex(length, remaining, |chunks|);
      if clock.arrives(left, |chunks|) >= clock.deadline {
        return false, chunks;
      }
      var size := if remaining < DISCARD_CHUNK then remaining else DISCARD_CHUNK;
      var chunk := reader.ReadExactly(size);
      if chunk.None? {
        return false, chunks;
      }
      DropMore(before, length - remaining, size);
      SumAppend(chunks, size);
      chunks := chunks + [size];
      remaining := remaining - size;
    }
    done := true;
  }

  lemma DropMore(data: Bytes, i: nat, n: nat)
    requires i + n <= |data|
    ensures data[i..][n..] == data[i + n..]
  {
  }

  /** The chunk about to be read is not after the last one, and is the last one exactly
      if the rest fits into it. */
  lemma ChunkIndex(length: nat, remaining: nat, n: nat)
    requires 0 < remaining <= length && length - remaining == n * DISCARD_CHUNK
    ensures n <= (length - 1) / DISCARD_CHUNK
    ensures remaining <= DISCARD_CHUNK ==> n == (length - 1) / DISCARD_CHUNK
  {
  }

  method ReadNext(reader: StreamReader, limit: nat, clock: Clock) returns (result: Result, nacks: seq<byte>)
    requires reader.Valid() && ValidClock(clock)
    modifies reader`pos
    ensures reader.Valid()
    ensures ReadFrame(old(reader.Rest()), limit, clock).result == result
    ensures ReadFrame(old(reader.Rest()), limit, clock).nacks == nacks
    ensures !result.Ended? ==> ReadFrame(old(reader.Rest()), limit, clock).rest == reader.Rest()
  {
    ghost var before := reader.Rest();
    var left := |reader.data| - reader.pos;
    var header := reader.ReadExactly(HEADER_LEN);
    if header.None? {
      return Ended, [];
    }
    var h := header.value;
    assert h[2..4] == before[2..4] && h[4..8] == before[4..8];
    if !PatternOk(h[0], h[1]) {
      return Ended, [NACK_PATTERN];
    }
    var ptype, length := Decode16(h[2..4]), Decode32(h[4..8]);
    if !Supported(ptype) || length > limit {
      var code := if !Supported(ptype) then NACK_UNKNOWN_TYPE else NACK_TOO_LARGE;
      var done, _ := DiscardPayload(reader, length, clock, left);
      return if done then Rejected else Ended, [code];
    }
    if !LengthOk(ptype, length) {
      return Ended, [NACK_LENGTH];
    }
    var payload := reader.ReadExactly(length);
    if payload.None? {
      return Ended, [];
    }
    assert h + payload.value == before[..HEADER_LEN + length];
    return Frame(h + payload.value), [];
  }

  ghost function Sum(xs: seq<nat>): nat {
    if xs == [] then 0 else xs[0] + Sum(xs[1..])
  }

  lemma {:induction false} SumAppend(xs: seq<nat>, x: nat)
    ensures Sum(xs + [x]) == Sum(xs) + x
    decreases |xs|
  {
    if xs == [] {
      assert xs + [x] == [x];
    } else {
      assert (xs + [x])[1..] == xs[1..] + [x];
      SumAppend(xs[1..], x);
    }
  }

  // ---------------------------------------------------------------- theorems

  /** What its own header makes of the first of `packets`. */
  function VerdictOf(packets: seq<Packet>, limit: nat, clock: Clock): Verdict
    requires packets != [] && forall i :: 0 <= i < |packets| ==> Encodable(packets[i])
  {
    var p := packets[0];
    Judge(p.version, p.inverse, p.ptype, |p.payload|, limit, InTime(clock, |Wire(packets)|, |p.payload|))
  }

  function Wire(packets: seq<Packet>): Bytes
    requires forall i :: 0 <= i < |packets| ==> Encodable(packets[i])
  {
    if packets == [] then [] else Encode(packets[0]) + Wire(packets[1..])
  }

  /** What the session should get out of a list of frames, by looking at each
      frame's own header only: the accepted frames in order and one NACK per
      rejected one, up to the first that ends the session. */
  function Expected(packets: seq<Packet>, limit: nat, clock: Clock): Session
    requires forall i :: 0 <= i < |packets| ==> Encodable(packets[i])
  {
    if packets == [] then Session([], [])
    else match VerdictOf(packets, limit, clock)
      case Abort(code) => Session([], [code])
      case Reject(code) =>
        var later := Expected(packets[1..], limit, clock);
        Session(later.frames, [code] + later.nacks)
      case Accept =>
        var later := Expected(packets[1..], limit, clock);
        Session([Encode(packets[0])] + later.frames, later.nacks)
  }

  lemma HeaderOf(p: Packet, tail: Bytes)
    requires Encodable(p)
    ensures var data := Encode(p) + tail;
            && |data| >= HEADER_LEN + |p.payload|
            && data[0] == p.version && data[1] == p.inverse
            && Decode16(data[2..4]) == p.ptype && Decode32(data[4..8]) == |p.payload|
            && data[..HEADER_LEN + |p.payload|] == Encode(p)
            && data[HEADER_LEN..][|p.payload|..] == tail
  {
    var data := Encode(p) + tail;
    assert data[2..4] == Encode16(p.ptype);
    assert data[4..8] == Encode32(|p.payload|);
  }

  /** Framing synchronisation: whatever the frames are and whatever their bodies
      contain, the reader gets exactly what their own headers say. */
  lemma {:induction false} FramingSynchronised(packets: seq<Packet>, limit: nat, clock: Clock)
    requires forall i :: 0 <= i < |packets| ==> Encodable(packets[i])
    ensures ReadAll(Wire(packets), limit, clock) == Expected(packets, limit, clock)
    decreases |packets|
  {
    if packets != [] {
      var p, tail := packets[0], Wire(packets[1..]);
      HeaderOf(p, tail);
      assert Wire(packets) == Encode(p) + tail;
      FramingSynchronised(packets[1..], limit, clock);
    }
  }

  /** Reading inverts building, for every payload type and length the EdgeNode takes. */
  lemma ReadOfBuilt(ptype: uint16, payload: Bytes, version: byte, tail: Bytes, limit: nat, clock: Clock)
    requires |payload| < 0x1_0000_0000 && (version == 0x02 || version == 0x03) && |payload| <= limit
    requires || (ptype == 0x8001 && |payload| >= 5)
             || (ptype == 0x0005 && |payload| in {7, 11})
             || (ptype == 0x0008 && |payload| == 2)
             || (ptype == 0x0000 && |payload| == 1)
             || (ptype in {0x0007, 0x4001, 0x4003} && |payload| == 0)
    ensures ReadFrame(BuildFrame(ptype, payload, version) + tail, limit, clock)
         == Call(Frame(BuildFrame(ptype, payload, version)), [], tail)
  {
    HeaderOf(Packet(version, 255 - version, ptype, payload), tail);
  }

  /** The payload type and length in the bytes of a header, high byte first. */
  function TypeBytes(data: Bytes): int
    requires |data| >= HEADER_LEN
  {
    256 * (data[2] as int) + data[3]
  }

  function LengthBytes(data: Bytes): int
    requires |data| >= HEADER_LEN
  {
    0x100_0000 * (data[4] as int) + 0x1_0000 * (data[5] as int) + 256 * (data[6] as int) + data[7]
  }

  /** Every header, by its bytes: which NACK goes out, if any, and whether the frame is
      read.  The checks come in the order of the codes 0x00, 0x01, 0x02, 0x04, and only
      for a rejected type or size is the body skipped and the session goes on. */
  lemma HeaderDecides(data: Bytes, limit: nat, clock: Clock)
    requires |data| >= 8
    ensures var call := ReadFrame(data, limit, clock);
            var version, ptype, length := data[0], TypeBytes(data), LengthBytes(data);
            var patterned := (version == 2 || version == 3) && data[1] == 255 - version;
            var known := ptype in {0x0000, 0x0005, 0x0007, 0x0008, 0x4001, 0x4003, 0x8001};
            var sized := || (ptype == 0x8001 && length >= 5) || (ptype == 0x0005 && (length == 7 || length == 11))
                         || (ptype == 0x0008 && length == 2) || (ptype == 0x0000 && length == 1)
                         || (ptype in {0x0007, 0x4001, 0x4003} && length == 0);
            && (call.nacks == [0x00] <==> !patterned)
            && (call.nacks == [0x01] <==> patterned && !known)
            && (call.nacks == [0x02] <==> patterned && known && length > limit)
            && (call.nacks == [0x04] <==> patterned && known && length <= limit && !sized)
            && (call.nacks == [] <==> patterned && known && length <= limit && sized)
            && (call.result.Frame? <==> call.nacks == [] && |data| >= 8 + length)
            && (call.result.Frame? ==> call.result.raw == data[..8 + length])
            && (call.result.Rejected? <==> (call.nacks == [0x01] || call.nacks == [0x02])
                                           && |data| >= 8 + length && InTime(clock, |data|, length))
            && (!call.result.Ended? ==> call.rest == data[8 + length..])
  {
    BigEndian(data);
  }

  lemma BigEndian(data: Bytes)
    requires |data| >= HEADER_LEN
    ensures Decode16(data[2..4]) == TypeBytes(data) && Decode32(data[4..8]) == LengthBytes(data)
  {
    assert data[4..8][..2] == data[4..6] && data[4..8][2..] == data[6..8];
  }
}
