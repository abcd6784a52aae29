/** Reading frames from an ECU (`_read_frame` in doip_edgenode/ecu_client.py): bounded
    and structurally checked, never answered. */
module EcuReader {
  import opened Common
  import opened Framing

  /** Payload lengths an ECU frame may have; none for a type the reader does not know. */
  predicate EcuLengthOk(ptype: uint16, length: nat) {
    if ptype in {0x8001, 0x8002, 0x8003} then length >= 5
    else if ptype == 0x0006 then length == 9 || length == 13
    else if ptype == 0x4002 then length == 3 || length == 7
    else if ptype == 0x0000 || ptype == 0x4004 then length == 1
    else if ptype == 0x0008 then length == 2
    else ptype == 0x0007 && length == 0
  }

  /** A complete frame with a valid header pattern and a length its type allows. */
  predicate Shaped(raw: Bytes) {
    && |raw| >= HEADER_LEN
    && PatternOk(raw[0], raw[1])
    && EcuLengthOk(Decode16(raw[2..4]), Decode32(raw[4..8]))
    && |raw| == HEADER_LEN + Decode32(raw[4..8])
  }

  /** What users of the reader need of a frame: a whole header and, in the diagnostic
      types, both addresses and at least one byte more. */
  predicate Legible(raw: Bytes) {
    |raw| >= HEADER_LEN && (Decode16(raw[2..4]) in {0x8001, 0x8002, 0x8003} ==> |raw| >= 13)
  }

  /** A frame the reader has handed over. */
  type EcuFrame = raw: Bytes | Legible(raw) witness [2, 253, 0, 7, 0, 0, 0, 0]

  datatype EcuRead = Got(raw: EcuFrame) | Incomplete | Invalid

  datatype EcuCall = EcuCall(result: EcuRead, rest: Bytes)

  function ReadEcuFrame(data: Bytes, limit: nat): EcuCall {
    if |data| < HEADER_LEN then EcuCall(Incomplete, [])
    else
      var length := Decode32(data[4..8]);
      var body := data[HEADER_LEN..];
      if !PatternOk(data[0], data[1]) || length > limit || !EcuLengthOk(Decode16(data[2..4]), length)
      then EcuCall(Invalid, body)
      else if |body| < length then EcuCall(Incomplete, [])
      else
        CutKeepsHeader(data, HEADER_LEN + length);
        EcuCall(Got(data[..HEADER_LEN + length]), body[length..])
  }

  lemma CutKeepsHeader(data: Bytes, n: nat)
    requires HEADER_LEN <= n <= |data|
    ensures data[..n][2..4] == data[2..4] && data[..n][4..8] == data[4..8]
  {
  }

  method ReadFromEcu(reader: StreamReader, limit: nat) returns (result: EcuRead)
    requires reader.Valid()
    modifies reader`pos
    ensures reader.Valid()
    ensures EcuCall(result, reader.Rest()) == ReadEcuFrame(old(reader.Rest()), limit)
  {
    ghost var before := reader.Rest();
    var header := reader.ReadExactly(HEADER_LEN);
    if header.None? {
      return Incomplete;
    }
    var h := header.value;
    assert h[2..4] == before[2..4] && h[4..8] == before[4..8];
    var ptype, length := Decode16(h[2..4]), Decode32(h[4..8]);
    if !PatternOk(h[0], h[1]) || length > limit || !EcuLengthOk(ptype, length) {
      return Invalid;
    }
    var payload := reader.ReadExactly(length);
    if payload.None? {
      return Incomplete;
    }
    CutKeepsHeader(before, HEADER_LEN + length);
    assert h + payload.value == before[..HEADER_LEN + length];
    return Got(h + payload.value);
  }

  /** The reader takes a frame off the stream exactly when a shaped frame within the
      limit is there, and leaves what follows it. */
  lemma ReadsShapedFrames(data: Bytes, limit: nat, raw: Bytes, tail: Bytes)
    ensures var call := ReadEcuFrame(data, limit);
            (Shaped(raw) && |raw| <= HEADER_LEN + limit && data == raw + tail) <==>
            (call.result.Got? && call.result.raw == raw && call.rest == tail)
  {
    if Shaped(raw) && |raw| <= HEADER_LEN + limit && data == raw + tail {
      assert data[2..4] == raw[2..4] && data[4..8] == raw[4..8];
      assert data[HEADER_LEN..][|raw| - HEADER_LEN..] == tail;
    }
    var call := ReadEcuFrame(data, limit);
    if call.result.Got? {
      var length := Decode32(data[4..8]);
      assert data == data[..HEADER_LEN + length] + data[HEADER_LEN..][length..];
    }
  }

  /** Building a frame of a known type and length gives a shaped frame. */
  lemma BuiltIsShaped(ptype: uint16, payload: Bytes, version: byte)
    requires version == 0x02 || version == 0x03
    requires |payload| < 0x1_0000_0000 && EcuLengthOk(ptype, |payload|)
    ensures Shaped(BuildFrame(ptype, payload, version)) && Legible(BuildFrame(ptype, payload, version))
  {
    var raw := BuildFrame(ptype, payload, version);
    assert raw[2..4] == Encode16(ptype);
    assert raw[4..8] == Encode32(|payload|);
  }

  /** Every ECU header, by its bytes: the frame is read exactly if its pattern, type and
      length are right and it is all there. */
  lemma EcuHeaderDecides(data: Bytes, limit: nat)
    requires |data| >= 8
    ensures var call := ReadEcuFrame(data, limit);
            var version, ptype, length := data[0], TypeBytes(data), LengthBytes(data);
            var good := && (version == 2 || version == 3) && data[1] == 255 - version && length <= limit
                        && (|| (ptype in {0x8001, 0x8002, 0x8003} && length >= 5)
                            || (ptype == 0x0006 && (length == 9 || length == 13))
                            || (ptype == 0x0007 && length == 0) || (ptype == 0x0008 && length == 2)
                            || (ptype == 0x0000 && length == 1) || (ptype == 0x4004 && length == 1)
                            || (ptype == 0x4002 && (length == 3 || length == 7)));
            && (call.result.Invalid? <==> !good)
            && (call.result.Got? <==> good && |data| >= 8 + length)
            && (call.result.Got? ==> call.result.raw == data[..8 + length] && call.rest == data[8 + length..])
  {
    BigEndian(data);
  }
}
