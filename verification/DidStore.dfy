/** Data identifiers of the VirtualEcu without plugins: the value store and the services
    0x22 and 0x2E (virtual_ecu/virtecu/store.py, services/data_identifier.py). */
module DidStore {
  import opened Common
  import opened DidConfig

  const WRITE_DID: byte := 0x2E

  const INCORRECT_LENGTH: byte := 0x13
  const RESPONSE_TOO_LONG: byte := 0x14
  const OUT_OF_RANGE: byte := 0x31
  const ACCESS_DENIED: byte := 0x33

  const ACTIVE_SESSION_DID: uint16 := 0xF186

  datatype Policy = RefuseUnknown | EchoUnknown | SkipUnknown

  datatype Settings = Settings(policy: Policy, maxPayload: nat, resetClearsWrites: bool)

  /** The diagnostic state a service looks at. */
  datatype Tester = Tester(session: byte, level: nat)

  type Values = map<uint16, Bytes>

  datatype Reply = Positive(body: Bytes) | Negative(nrc: byte) | Silence

  /** `DidStore.reset`: every default, nothing for dynamic identifiers. */
  function Defaults(table: Table): Values {
    map did | did in table && table[did].value.Some? :: table[did].value.value
  }

  /** ECUReset: defaults again if the configuration says so. */
  function ResetValues(cfg: Settings, table: Table, values: Values): Values {
    if cfg.resetClearsWrites then Defaults(table) else values
  }

  // --------------------------------------------------------------------- access

  /** The NRC that keeps `t` out, if any: the forced one, the session's, the level's. */
  function Barred(g: Gates, t: Tester): Option<byte> {
    if g.nrc.Some? then g.nrc
    else if g.sessions.Some? && t.session !in g.sessions.value then Some(OUT_OF_RANGE)
    else if g.security > t.level then Some(ACCESS_DENIED)
    else None
  }

  datatype One = Value(bytes: Bytes) | Skipped | Refused(nrc: byte) | Missing

  function Unknown(policy: Policy, did: uint16): One {
    match policy
    case SkipUnknown => Skipped
    case EchoUnknown => Value(Encode16(did))
    case RefuseUnknown => Refused(OUT_OF_RANGE)
  }

  /** `Missing` is the "has no value" branch. */
  function ReadOne(cfg: Settings, table: Table, values: Values, t: Tester, did: uint16): One {
    if did !in table || !table[did].read then Unknown(cfg.policy, did)
    else
      var spec := table[did];
      var barred := Barred(spec.readGates, t);
      if barred.Some? then Refused(barred.value)
      else if spec.value.None? then
        if did == ACTIVE_SESSION_DID then Value([t.session]) else Refused(OUT_OF_RANGE)
      else if did in values then Value(values[did])
      else Missing
  }

  // ----------------------------------------------------------------------- read

  /** `UdsRequest.dids`. */
  function Dids(body: Bytes): (dids: seq<uint16>)
    ensures |dids| == |body| / 2
  {
    if |body| < 2 then [] else [Decode16(body[..2])] + Dids(body[2..])
  }

  datatype Item = Item(did: uint16, bytes: Bytes)

  function Record(items: seq<Item>): Bytes {
    if items == [] then [] else Record(items[..|items| - 1]) + Encode16(items[|items| - 1].did) + items[|items| - 1].bytes
  }

  /** Reading a list of identifiers: the items served, or the NRC that stops it. */
  datatype Batch = Items(items: seq<Item>) | Stopped(nrc: byte)

  function ReadBatch(cfg: Settings, table: Table, values: Values, t: Tester, dids: seq<uint16>): Batch {
    if dids == [] then Items([])
    else
      var init := ReadBatch(cfg, table, values, t, dids[..|dids| - 1]);
      var did := dids[|dids| - 1];
      if init.Stopped? then init
      else match ReadOne(cfg, table, values, t, did)
        case Value(b) => Items(init.items + [Item(did, b)])
        case Skipped => init
        case Refused(nrc) => Stopped(nrc)
        case Missing => Stopped(OUT_OF_RANGE)
  }

  function ReadReply(cfg: Settings, table: Table, values: Values, t: Tester, body: Bytes): Reply {
    if |body| == 0 || |body| % 2 != 0 then Negative(INCORRECT_LENGTH)
    else match ReadBatch(cfg, table, values, t, Dids(body))
      case Stopped(nrc) => Negative(nrc)
      case Items(items) =>
        if items == [] then Silence
        else if 1 + |Record(items)| > cfg.maxPayload then Negative(RESPONSE_TOO_LONG)
        else Positive(Record(items))
  }

  // ---------------------------------------------------------------------- write

  datatype Written = Written(values: Values, reply: Reply)

  function Write(cfg: Settings, table: Table, values: Values, t: Tester, body: Bytes): Written {
    if |body| < 3 then Written(values, Negative(INCORRECT_LENGTH))
    else
      var did, value := Decode16(body[..2]), body[2..];
      if did !in table then
        Written(values, match Unknown(cfg.policy, did)
                        case Value(b) => Positive(b)
                        case Refused(nrc) => Negative(nrc)
                        case _ => Silence)
      else
        var spec := table[did];
        if !spec.write then Written(values, Negative(OUT_OF_RANGE))
        else if Barred(spec.writeGates, t).Some? then Written(values, Negative(Barred(spec.writeGates, t).value))
        else if spec.length.Some? && |value| != spec.length.value then Written(values, Negative(INCORRECT_LENGTH))
        else Written(values[did := value], Positive(Encode16(did)))
  }

  // ----------------------------------------------------------------- the object

  class Store {
    const specs: Table
    var values: Values

    constructor (specs: Table)
      ensures this.specs == specs && values == Defaults(specs)
    {
      this.specs := specs;
      values := map did | did in specs && specs[did].value.Some? :: specs[did].value.value;
    }

    method Reset()
      modifies this
      ensures values == Defaults(specs)
    {
      values := map did | did in specs && specs[did].value.Some? :: specs[did].value.value;
    }

    method EcuReset(cfg: Settings)
      modifies this
      ensures values == ResetValues(cfg, specs, old(values))
    {
      if cfg.resetClearsWrites {
        Reset();
      }
    }

    /** 0x22: the loop over the requested identifiers. */
    method ReadDataByIdentifier(cfg: Settings, t: Tester, body: Bytes) returns (reply: Reply)
      ensures reply == ReadReply(cfg, specs, values, t, body)
    {
      if |body| == 0 || |body| % 2 != 0 {
        return Negative(INCORRECT_LENGTH);
      }
      var dids := Dids(body);
      var record: Bytes := [];
      var served := 0;
      ghost var items: seq<Item> := [];
      for n := 0 to |dids|
        invariant ReadBatch(cfg, specs, values, t, dids[..n]) == Items(items)
        invariant record == Record(items) && served == |items|
      {
        var did := dids[n];
        var one := ReadOne(cfg, specs, values, t, did);
        StopsEarly(cfg, specs, values, t, dids, n + 1);
        assert dids[..n + 1][..n] == dids[..n];
        if one.Refused? || one.Missing? {
          return Negative(if one.Refused? then one.nrc else OUT_OF_RANGE);
        }
        if one.Value? {
          record := record + Encode16(did) + one.bytes;
          served := served + 1;
          ghost var more := items + [Item(did, one.bytes)];
          assert more[..|items|] == items;
          items := more;
        }
      }
      assert dids[..|dids|] == dids;
      if served == 0 {
        return Silence;
      }
      if 1 + |record| > cfg.maxPayload {
        return Negative(RESPONSE_TOO_LONG);
      }
      return Positive(record);
    }

    /** 0x2E. */
    method WriteDataByIdentifier(cfg: Settings, t: Tester, body: Bytes) returns (reply: Reply)
      modifies this
      ensures Written(values, reply) == Write(cfg, specs, old(values), t, body)
    {
      if |body| < 3 {
        return Negative(INCORRECT_LENGTH);
      }
      var did, value := Decode16(body[..2]), body[2..];
      if did !in specs {
        match Unknown(cfg.policy, did) {
          case Value(b) => return Positive(b);
          case Refused(nrc) => return Negative(nrc);
          case _ => return Silence;
        }
      }
      var spec := specs[did];
      if !spec.write {
        return Negative(OUT_OF_RANGE);
      }
      var barred := Barred(spec.writeGates, t);
      if barred.Some? {
        return Negative(barred.value);
      }
      if spec.length.Some? && |value| != spec.length.value {
        return Negative(INCORRECT_LENGTH);
      }
      values := values[did := value];
      return Positive(Encode16(did));
    }
  }

  /** Once an identifier is refused, so is the whole request, with the same NRC. */
  lemma {:induction false} StopsEarly(cfg: Settings, table: Table, values: Values, t: Tester, dids: seq<uint16>, n: nat)
    requires n <= |dids|
    ensures ReadBatch(cfg, table, values, t, dids[..n]).Stopped? ==>
              ReadBatch(cfg, table, values, t, dids) == ReadBatch(cfg, table, values, t, dids[..n])
    decreases |dids|
  {
    if n == |dids| {
      assert dids[..n] == dids;
    } else {
      var init := dids[..|dids| - 1];
      assert init[..n] == dids[..n];
      StopsEarly(cfg, table, values, t, init, n);
    }
  }
}
