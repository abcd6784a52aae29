/** What the identifier services keep over every history of writes and resets. */
module DidTheorems {
  import opened Common
  import opened DidConfig
  import opened DidStore

  // ----------------------------------------------------------------- histories

  datatype Entry = WriteRequest(t: Tester, body: Bytes, reply: Reply) | EcuReset

  ghost function After(cfg: Settings, table: Table, values: Values, e: Entry): Values {
    match e
    case WriteRequest(t, body, _) => Write(cfg, table, values, t, body).values
    case EcuReset => ResetValues(cfg, table, values)
  }

  /** `log` can be observed on a store that starts from its defaults and ends in `values`. */
  ghost predicate Observed(cfg: Settings, table: Table, log: seq<Entry>, values: Values) {
    if log == [] then values == Defaults(table)
    else
      var e := log[|log| - 1];
      exists before ::
        && Observed(cfg, table, log[..|log| - 1], before)
        && (e.WriteRequest? ==> e.reply == Write(cfg, table, before, e.t, e.body).reply)
        && values == After(cfg, table, before, e)
  }

  /** A positive answer to a write of a declared identifier. */
  ghost predicate Accepted(table: Table, e: Entry, did: uint16) {
    e.WriteRequest? && e.reply.Positive? && |e.body| >= 3 && Decode16(e.body[..2]) == did && did in table
  }

  ghost predicate Restores(cfg: Settings, e: Entry) { e.EcuReset? && cfg.resetClearsWrites }

  /** The last value accepted for `did` since the last reset, else its default. */
  ghost function LoggedValue(cfg: Settings, table: Table, log: seq<Entry>, did: uint16): Option<Bytes>
    requires did in table
  {
    if log == [] || Restores(cfg, log[|log| - 1]) then table[did].value
    else
      var e := log[|log| - 1];
      if Accepted(table, e, did) then Some(e.body[2..]) else LoggedValue(cfg, table, log[..|log| - 1], did)
  }

  /** The gates of one identifier, satisfied. */
  ghost predicate Allowed(spec: Spec, t: Tester, value: Bytes) {
    spec.write && MayWrite(spec, t) && (spec.length.Some? ==> |value| == spec.length.value)
  }

  /** A write is accepted exactly when every gate allows it. */
  lemma AcceptedExactly(cfg: Settings, table: Table, values: Values, t: Tester, body: Bytes)
    requires |body| >= 3 && Decode16(body[..2]) in table
    ensures Write(cfg, table, values, t, body).reply.Positive? <==>
            Allowed(table[Decode16(body[..2])], t, body[2..])
    ensures !Write(cfg, table, values, t, body).reply.Positive? ==> Write(cfg, table, values, t, body).values == values
  {
  }

  // ----------------------------------------------------------------- invariant

  /** Declared lengths hold, exactly the static identifiers have values, and those that
      cannot be written still have their default. */
  ghost predicate StoreInv(table: Table, values: Values) {
    && (forall did :: did in values <==> did in table && table[did].value.Some?)
    && (forall did {:trigger values[did]} :: did in values ==>
          && (table[did].length.Some? ==> |values[did]| == table[did].length.value)
          && (!table[did].write ==> Some(values[did]) == table[did].value))
  }

  lemma {:induction false} StoreKeeps(cfg: Settings, table: Table, log: seq<Entry>, values: Values)
    requires WellFormedTable(table) && Observed(cfg, table, log, values)
    ensures StoreInv(table, values)
    ensures forall did {:trigger values[did]} :: did in values ==> Some(values[did]) == LoggedValue(cfg, table, log, did)
    decreases |log|
  {
    if log == [] {
      DefaultsHold(table);
    } else {
      var e, init := log[|log| - 1], log[..|log| - 1];
      var before :|
        && Observed(cfg, table, init, before)
        && (e.WriteRequest? ==> e.reply == Write(cfg, table, before, e.t, e.body).reply)
        && values == After(cfg, table, before, e);
      StoreKeeps(cfg, table, init, before);
      if e.EcuReset? {
        DefaultsHold(table);
      } else {
        WriteKeeps(cfg, table, before, e);
        forall did | did in values ensures Some(values[did]) == LoggedValue(cfg, table, log, did) {
          assert did in before;
          assert Some(before[did]) == LoggedValue(cfg, table, init, did);
        }
      }
    }
  }

  lemma DefaultsHold(table: Table)
    requires WellFormedTable(table)
    ensures StoreInv(table, Defaults(table))
    ensures forall did :: did in Defaults(table) ==> Some(Defaults(table)[did]) == table[did].value
  {
  }

  lemma WriteKeeps(cfg: Settings, table: Table, before: Values, e: Entry)
    requires WellFormedTable(table) && StoreInv(table, before)
    requires e.WriteRequest? && e.reply == Write(cfg, table, before, e.t, e.body).reply
    ensures StoreInv(table, After(cfg, table, before, e))
    ensures var after := After(cfg, table, before, e);
            && after.Keys == before.Keys
            && forall did {:trigger after[did]} :: did in after ==>
                 after[did] == if Accepted(table, e, did) then e.body[2..] else before[did]
  {
    if |e.body| >= 3 && Decode16(e.body[..2]) in table {
      var did := Decode16(e.body[..2]);
      assert WellFormed(table[did]);
      AcceptedExactly(cfg, table, before, e.t, e.body);
    }
  }

  // ------------------------------------------------------------------- theorems

  /** DID store invariant: declared lengths hold, read-only identifiers equal their
      default, and every value is the last one accepted since the last reset. */
  lemma DidStoreInvariant(cfg: Settings, table: Table, log: seq<Entry>, values: Values, did: uint16)
    requires WellFormedTable(table) && Observed(cfg, table, log, values) && did in table
    ensures did in values <==> table[did].value.Some?
    ensures did in values && table[did].length.Some? ==> |values[did]| == table[did].length.value
    ensures did in values && !table[did].write ==> Some(values[did]) == table[did].value
    ensures did in values ==> Some(values[did]) == LoggedValue(cfg, table, log, did)
  {
    StoreKeeps(cfg, table, log, values);
    if did in values {
      assert Some(values[did]) == LoggedValue(cfg, table, log, did);
    }
  }

  /** The entry was a write that every gate of the identifier allowed, and neither a
      reset nor another accepted write followed it. */
  ghost predicate Explains(cfg: Settings, table: Table, log: seq<Entry>, did: uint16, value: Bytes, i: nat) {
    && i < |log| && did in table
    && Accepted(table, log[i], did) && log[i].body[2..] == value && Allowed(table[did], log[i].t, value)
    && forall k :: i < k < |log| ==> !Restores(cfg, log[k]) && !Accepted(table, log[k], did)
  }

  /** Any difference from the default comes from such a write. */
  lemma {:induction false} DifferenceExplained(cfg: Settings, table: Table, log: seq<Entry>, values: Values, did: uint16)
    requires WellFormedTable(table) && Observed(cfg, table, log, values)
    requires did in table && did in values && Some(values[did]) != table[did].value
    ensures exists i :: Explains(cfg, table, log, did, values[did], i)
    decreases |log|
  {
    DidStoreInvariant(cfg, table, log, values, did);
    var e, init := log[|log| - 1], log[..|log| - 1];
    var before :|
      && Observed(cfg, table, init, before)
      && (e.WriteRequest? ==> e.reply == Write(cfg, table, before, e.t, e.body).reply)
      && values == After(cfg, table, before, e);
    if Accepted(table, e, did) {
      AcceptedExactly(cfg, table, before, e.t, e.body);
      assert Explains(cfg, table, log, did, values[did], |log| - 1);
    } else {
      DidStoreInvariant(cfg, table, init, before, did);
      DifferenceExplained(cfg, table, init, before, did);
      var i :| Explains(cfg, table, init, did, before[did], i);
      assert Explains(cfg, table, log, did, values[did], i);
    }
  }

  /** The "has no value" branch is unreachable. */
  lemma ValueNeverMissing(cfg: Settings, table: Table, log: seq<Entry>, values: Values, t: Tester, did: uint16)
    requires WellFormedTable(table) && Observed(cfg, table, log, values)
    ensures !ReadOne(cfg, table, values, t, did).Missing?
  {
    if did in table {
      DidStoreInvariant(cfg, table, log, values, did);
    }
  }

  // ------------------------------------------------------------------------ access

  /** Who may read an identifier of the table. */
  ghost predicate MayRead(spec: Spec, t: Tester) {
    && spec.readGates.nrc.None?
    && (spec.readGates.sessions.Some? ==> t.session in spec.readGates.sessions.value)
    && spec.readGates.security <= t.level
  }

  /** The NRC of closed gates: the forced one, else 0x31 in the wrong session, else 0x33. */
  ghost predicate ClosedWith(g: Gates, t: Tester, nrc: byte) {
    if g.nrc.Some? then nrc == g.nrc.value
    else if g.sessions.Some? && t.session !in g.sessions.value then nrc == 0x31
    else g.security > t.level && nrc == 0x33
  }

  /** What a readable identifier reads as: its stored value, or for the active session the
      tester's own. */
  ghost predicate ReadsAs(table: Table, values: Values, t: Tester, did: uint16, b: Bytes)
    requires did in table
  {
    if table[did].value.Some? then did in values && b == values[did] else did == 0xF186 && b == [t.session]
  }

  /** One identifier, by what is declared of it: the value for those who may read it, the
      NRC of the closed gate for the others, and the policy for what is not in the table. */
  lemma ReadsExactly(cfg: Settings, table: Table, values: Values, t: Tester, did: uint16)
    requires StoreInv(table, values)
    ensures var one := ReadOne(cfg, table, values, t, did);
            if did in table && table[did].read then
              if MayRead(table[did], t) then
                if table[did].value.Some? || did == 0xF186 then one.Value? && ReadsAs(table, values, t, did, one.bytes)
                else one == Refused(0x31)
              else one.Refused? && ClosedWith(table[did].readGates, t, one.nrc)
            else if cfg.policy.EchoUnknown? then one == Value([did / 256, did % 256])
            else if cfg.policy.SkipUnknown? then one == Skipped
            else one == Refused(0x31)
  {
  }

  /** A single read, on the wire. */
  lemma ReadGivesStoredValue(cfg: Settings, table: Table, values: Values, t: Tester, did: uint16)
    requires StoreInv(table, values)
    requires did in table && table[did].read && table[did].value.Some? && MayRead(table[did], t)
    ensures did in values
    ensures ReadReply(cfg, table, values, t, [did / 256, did % 256]) ==
            if 3 + |values[did]| <= cfg.maxPayload then Positive([did / 256, did % 256] + values[did]) else Negative(0x14)
  {
    var body: Bytes := [did / 256, did % 256];
    assert Dids(body) == [did] by {
      assert body[..2] == body && body[2..] == [];
    }
    var one := ReadOne(cfg, table, values, t, did);
    assert [did][..0] == [] && ReadBatch(cfg, table, values, t, []) == Items([]);
    var items := [Item(did, values[did])];
    assert ReadBatch(cfg, table, values, t, [did]) == Items([] + [Item(did, values[did])]);
    assert items[..0] == [] && Record(items) == [] + Encode16(did) + values[did];
  }

  /** A read after an accepted write gives the bytes written, until the next accepted
      write or restoring reset; before any, the default. */
  lemma ReadGivesLastWrite(cfg: Settings, table: Table, log: seq<Entry>, values: Values, t: Tester, did: uint16)
    requires WellFormedTable(table) && Observed(cfg, table, log, values)
    requires did in table && table[did].read && table[did].value.Some? && MayRead(table[did], t)
    ensures var b := LoggedValue(cfg, table, log, did);
            && b.Some?
            && ReadReply(cfg, table, values, t, [did / 256, did % 256]) ==
               if 3 + |b.value| <= cfg.maxPayload then Positive([did / 256, did % 256] + b.value) else Negative(0x14)
  {
    StoreKeeps(cfg, table, log, values);
    DidStoreInvariant(cfg, table, log, values, did);
    ReadGivesStoredValue(cfg, table, values, t, did);
  }

  lemma LastWriteIsLogged(cfg: Settings, table: Table, log: seq<Entry>, e: Entry, did: uint16)
    requires did in table && Accepted(table, e, did)
    ensures LoggedValue(cfg, table, log + [e], did) == Some(e.body[2..])
  {
  }

  /** Why a write is refused, in the order of the checks, and what it does if it is not. */
  lemma WritesExactly(cfg: Settings, table: Table, values: Values, t: Tester, body: Bytes)
    ensures var out := Write(cfg, table, values, t, body);
            && (|body| < 3 ==> out == Written(values, Negative(0x13)))
            && (|body| >= 3 ==>
                  var did := 256 * (body[0] as int) + body[1];
                  if did !in table then
                    out.values == values && out.reply == (if cfg.policy.EchoUnknown? then Positive(body[..2])
                                                          else if cfg.policy.SkipUnknown? then Silence else Negative(0x31))
                  else if !table[did].write then out == Written(values, Negative(0x31))
                  else if !MayWrite(table[did], t) then
                    out.values == values && out.reply.Negative? && ClosedWith(table[did].writeGates, t, out.reply.nrc)
                  else if table[did].length.Some? && |body| - 2 != table[did].length.value then
                    out == Written(values, Negative(0x13))
                  else out == Written(values[did := body[2..]], Positive(body[..2])))
  {
    if |body| >= 3 {
      Encode16OfDecode16(body[..2]);
    }
  }

  ghost predicate MayWrite(spec: Spec, t: Tester) {
    && spec.writeGates.nrc.None?
    && (spec.writeGates.sessions.Some? ==> t.session in spec.writeGates.sessions.value)
    && spec.writeGates.security <= t.level
  }

  lemma Encode16OfDecode16(b: Bytes)
    requires |b| == 2
    ensures Encode16(Decode16(b)) == b
  {
  }

  // ----------------------------------------------------------- reading back records

  /** The request for a list of identifiers. */
  function RequestBody(dids: seq<uint16>): (body: Bytes)
    ensures |body| == 2 * |dids|
  {
    if dids == [] then [] else Encode16(dids[0]) + RequestBody(dids[1..])
  }

  lemma {:induction false} RequestRoundTrip(dids: seq<uint16>)
    ensures Dids(RequestBody(dids)) == dids
    decreases |dids|
  {
    if dids != [] {
      RequestRoundTrip(dids[1..]);
      assert RequestBody(dids)[..2] == Encode16(dids[0]);
      assert RequestBody(dids)[2..] == RequestBody(dids[1..]);
    }
  }

  /** A tester's parser, which knows how long each identifier's value is. */
  function Parse(lengths: uint16 -> nat, record: Bytes): Option<seq<Item>>
    decreases |record|
  {
    if record == [] then Some([])
    else if |record| < 2 then None
    else
      var did := Decode16(record[..2]);
      if |record| < 2 + lengths(did) then None
      else
        var rest := Parse(lengths, record[2 + lengths(did)..]);
        if rest.None? then None else Some([Item(did, record[2..2 + lengths(did)])] + rest.value)
  }

  lemma {:induction false} RecordFromFront(items: seq<Item>)
    requires items != []
    ensures Record(items) == Encode16(items[0].did) + items[0].bytes + Record(items[1..])
    decreases |items|
  {
    var n := |items| - 1;
    if n > 0 {
      var head, tail := items[..n], items[1..];
      RecordFromFront(head);
      assert head[1..] == tail[..n - 1];
      var first := Encode16(items[0].did) + items[0].bytes;
      Regroup(first, Record(head[1..]), Encode16(items[n].did), items[n].bytes);
    } else {
      assert items[..n] == [] && items[1..] == [];
    }
  }

  lemma Regroup(a: Bytes, b: Bytes, c: Bytes, d: Bytes)
    ensures ((a + b) + c) + d == a + ((b + c) + d)
  {
  }

  lemma ParseFirst(lengths: uint16 -> nat, item: Item, rest: Bytes)
    requires lengths(item.did) == |item.bytes|
    ensures var record := Encode16(item.did) + item.bytes + rest;
            Parse(lengths, record) == if Parse(lengths, rest).None? then None else Some([item] + Parse(lengths, rest).value)
  {
    var record, n := Encode16(item.did) + item.bytes + rest, |item.bytes|;
    assert record[..2] == Encode16(item.did) && record[2..2 + n] == item.bytes && record[2 + n..] == rest;
  }

  lemma {:induction false} RecordParses(lengths: uint16 -> nat, items: seq<Item>)
    requires forall i :: 0 <= i < |items| ==> lengths(items[i].did) == |items[i].bytes|
    ensures Parse(lengths, Record(items)) == Some(items)
    decreases |items|
  {
    if items != [] {
      RecordFromFront(items);
      RecordParses(lengths, items[1..]);
      ParseFirst(lengths, items[0], Record(items[1..]));
      assert items == [items[0]] + items[1..];
    }
  }

  /** The requested identifiers that are not skipped, in request order. */
  ghost function NotSkipped(cfg: Settings, table: Table, values: Values, t: Tester, dids: seq<uint16>): seq<uint16> {
    if dids == [] then []
    else
      var did := dids[|dids| - 1];
      NotSkipped(cfg, table, values, t, dids[..|dids| - 1])
      + if ReadOne(cfg, table, values, t, did).Skipped? then [] else [did]
  }

  lemma {:induction false} BatchServes(cfg: Settings, table: Table, values: Values, t: Tester, dids: seq<uint16>)
    requires ReadBatch(cfg, table, values, t, dids).Items?
    ensures var items := ReadBatch(cfg, table, values, t, dids).items;
            var served := NotSkipped(cfg, table, values, t, dids);
            && |items| == |served|
            && forall i :: 0 <= i < |items| ==>
                 items[i].did == served[i] && ReadOne(cfg, table, values, t, served[i]) == Value(items[i].bytes)
    decreases |dids|
  {
    if dids != [] {
      BatchServes(cfg, table, values, t, dids[..|dids| - 1]);
    }
  }

  /** `b` is what the tester should read for `did`. */
  ghost predicate ServedAs(cfg: Settings, table: Table, values: Values, t: Tester, did: uint16, b: Bytes) {
    if did in table && table[did].read then MayRead(table[did], t) && ReadsAs(table, values, t, did, b)
    else cfg.policy.EchoUnknown? && b == [did / 256, did % 256]
  }

  /** The requested identifiers that are served: all of them, but under the skipping policy
      those that are not in the table or not readable. */
  ghost function Served(cfg: Settings, table: Table, dids: seq<uint16>): seq<uint16> {
    if dids == [] then []
    else
      var did := dids[|dids| - 1];
      Served(cfg, table, dids[..|dids| - 1])
      + if cfg.policy.SkipUnknown? && (did !in table || !table[did].read) then [] else [did]
  }

  lemma {:induction false} ServedIsNotSkipped(cfg: Settings, table: Table, values: Values, t: Tester, dids: seq<uint16>)
    requires StoreInv(table, values)
    ensures Served(cfg, table, dids) == NotSkipped(cfg, table, values, t, dids)
    decreases |dids|
  {
    if dids != [] {
      ServedIsNotSkipped(cfg, table, values, t, dids[..|dids| - 1]);
      ReadsExactly(cfg, table, values, t, dids[|dids| - 1]);
    }
  }

  /** A multi-DID response parses back to the served identifiers in request order, each
      with its stored value. */
  lemma MultiDidReadsBack(cfg: Settings, table: Table, values: Values, t: Tester, dids: seq<uint16>, lengths: uint16 -> nat)
    requires StoreInv(table, values)
    requires ReadReply(cfg, table, values, t, RequestBody(dids)).Positive?
    requires forall did, b :: did in dids && ServedAs(cfg, table, values, t, did, b) ==> lengths(did) == |b|
    ensures var items := Parse(lengths, ReadReply(cfg, table, values, t, RequestBody(dids)).body);
            var served := Served(cfg, table, dids);
            && items.Some? && |items.value| == |served| > 0
            && forall i :: 0 <= i < |served| ==>
                 items.value[i].did == served[i] && ServedAs(cfg, table, values, t, served[i], items.value[i].bytes)
  {
    RequestRoundTrip(dids);
    ServedIsNotSkipped(cfg, table, values, t, dids);
    BatchServes(cfg, table, values, t, dids);
    var items := ReadBatch(cfg, table, values, t, dids).items;
    forall i | 0 <= i < |items| ensures ItemServed(cfg, table, values, t, dids, items[i]) {
      NotSkippedRequested(cfg, table, values, t, dids, i);
      ReadsExactly(cfg, table, values, t, items[i].did);
    }
    RecordParses(lengths, items);
  }

  ghost predicate ItemServed(cfg: Settings, table: Table, values: Values, t: Tester, dids: seq<uint16>, item: Item) {
    item.did in dids && ServedAs(cfg, table, values, t, item.did, item.bytes)
  }

  lemma {:induction false} NotSkippedRequested(cfg: Settings, table: Table, values: Values, t: Tester, dids: seq<uint16>, i: nat)
    requires i < |NotSkipped(cfg, table, values, t, dids)|
    ensures NotSkipped(cfg, table, values, t, dids)[i] in dids
    decreases |dids|
  {
    var init := dids[..|dids| - 1];
    if i < |NotSkipped(cfg, table, values, t, init)| {
      NotSkippedRequested(cfg, table, values, t, init, i);
    }
  }
}
