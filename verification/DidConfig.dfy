/** Loading the data-identifier table (`_encode_did_value`, `_load_did`, `_load_dids`
    in virtual_ecu/virtecu/config.py). */
module DidConfig {
  import opened Common

  /** The `type` and `value` of an entry.  `HexText` is the decoded hex string. */
  datatype Source =
    | HexText(bytes: Bytes)
    | AsciiText(text: string)
    | Unsigned(number: int)
    | NoValue
    | Dynamic(hasValue: bool)

  datatype Gates = Gates(sessions: Option<set<byte>>, security: int, nrc: Option<byte>)

  datatype RawEntry = RawEntry(source: Source, length: Option<int>, read: bool, write: bool, readGates: Gates, writeGates: Gates)

  /** A loaded entry; `value` is missing exactly for dynamic identifiers. */
  datatype Spec = Spec(length: Option<nat>, value: Option<Bytes>, read: bool, write: bool, readGates: Gates, writeGates: Gates)

  // ---------------------------------------------------------------- big-endian

  function Power256(width: nat): nat {
    if width == 0 then 1 else 256 * Power256(width - 1)
  }

  function BigEndian(n: nat, width: nat): (b: Bytes)
    ensures |b| == width
  {
    if width == 0 then [] else BigEndian(n / 256, width - 1) + [n % 256]
  }

  function FromBigEndian(b: Bytes): nat {
    if b == [] then 0 else FromBigEndian(b[..|b| - 1]) * 256 + b[|b| - 1]
  }

  lemma {:induction false} BigEndianRoundTrip(n: nat, width: nat)
    requires n < Power256(width)
    ensures FromBigEndian(BigEndian(n, width)) == n
    decreases width
  {
    if width > 0 {
      BigEndianRoundTrip(n / 256, width - 1);
      assert BigEndian(n, width)[..width - 1] == BigEndian(n / 256, width - 1);
    }
  }

  // ------------------------------------------------------------------ encoding

  predicate PureAscii(text: string) { forall i :: 0 <= i < |text| ==> text[i] as int < 128 }

  function AsciiBytes(text: string): (b: Bytes)
    requires PureAscii(text)
    ensures |b| == |text|
  {
    seq(|text|, i requires 0 <= i < |text| => text[i] as int)
  }

  /** `encoded[:length].ljust(length, b"\x00")`. */
  function Fit(b: Bytes, length: nat): Bytes {
    if |b| >= length then b[..length] else b + seq(length - |b|, _ => 0)
  }

  function EncodeValue(source: Source, length: Option<nat>): Option<Bytes>
    requires !source.NoValue? && !source.Dynamic?
  {
    match source
    case HexText(b) => if length.Some? && |b| != length.value then None else Some(b)
    case AsciiText(text) =>
      if !PureAscii(text) then None
      else if length.Some? then Some(Fit(AsciiBytes(text), length.value))
      else Some(AsciiBytes(text))
    case Unsigned(number) =>
      var width := if length.Some? then length.value else 1;
      if 0 <= number < Power256(width) then Some(BigEndian(number, width)) else None
  }

  /** What an encoded value says about the text it came from. */
  ghost predicate Represents(source: Source, length: Option<nat>, b: Bytes) {
    && (length.Some? ==> |b| == length.value)
    && match source
       case HexText(bytes) => b == bytes
       case AsciiText(text) =>
         && PureAscii(text)
         && (length.None? ==> |b| == |text|)
         && forall i :: 0 <= i < |b| ==> b[i] == if i < |text| then text[i] as int else 0
       case Unsigned(number) => FromBigEndian(b) == number && |b| == if length.Some? then length.value else 1
       case _ => false
  }

  /** Encoding succeeds exactly when some byte string represents the value, and then
      gives it. */
  lemma EncodingRepresents(source: Source, length: Option<nat>)
    requires !source.NoValue? && !source.Dynamic?
    ensures var r := EncodeValue(source, length);
            && (r.Some? ==> Represents(source, length, r.value))
            && (r.None? ==> forall b :: !Represents(source, length, b))
  {
    if source.Unsigned? {
      var width := if length.Some? then length.value else 1;
      if 0 <= source.number < Power256(width) {
        BigEndianRoundTrip(source.number, width);
      } else {
        forall b | |b| == width ensures FromBigEndian(b) != source.number {
          FromBigEndianBounded(b);
        }
      }
    }
  }

  lemma {:induction false} FromBigEndianBounded(b: Bytes)
    ensures FromBigEndian(b) < Power256(|b|)
  {
    if b != [] {
      FromBigEndianBounded(b[..|b| - 1]);
    }
  }

  // ------------------------------------------------------------------- loading

  function LoadDid(e: RawEntry): Option<Spec> {
    if e.length.Some? && e.length.value <= 0 then None
    else
      var length: Option<nat> := if e.length.Some? then Some(e.length.value) else None;
      match e.source
      case Dynamic(hasValue) =>
        if hasValue || e.write then None else Some(Spec(length, None, e.read, e.write, e.readGates, e.writeGates))
      case NoValue => None
      case source =>
        var value := EncodeValue(source, length);
        if value.None? then None else Some(Spec(length, value, e.read, e.write, e.readGates, e.writeGates))
  }

  /** What the rest of the ECU relies on. */
  ghost predicate WellFormed(spec: Spec) {
    && (spec.length.Some? && spec.value.Some? ==> |spec.value.value| == spec.length.value)
    && (spec.write ==> spec.value.Some?)
  }

  lemma LoadedIsWellFormed(e: RawEntry)
    requires LoadDid(e).Some?
    ensures WellFormed(LoadDid(e).value)
    ensures LoadDid(e).value.value.None? <==> e.source.Dynamic?
  {
    if !e.source.Dynamic? && !e.source.NoValue? {
      var length: Option<nat> := if e.length.Some? then Some(e.length.value) else None;
      EncodingRepresents(e.source, length);
    }
  }

  /** Which entries load, and that every setting arrives where it belongs. */
  lemma LoadsExactly(e: RawEntry)
    ensures LoadDid(e).Some? <==>
            && (e.length.Some? ==> e.length.value > 0)
            && match e.source
               case NoValue => false
               case Dynamic(hasValue) => !hasValue && !e.write
               case _ => EncodeValue(e.source, if e.length.Some? && e.length.value > 0 then Some(e.length.value) else None).Some?
    ensures LoadDid(e).Some? ==>
              var spec := LoadDid(e).value;
              && (spec.length.Some? <==> e.length.Some?) && (spec.length.Some? ==> spec.length.value == e.length.value)
              && spec.read == e.read && spec.write == e.write
              && spec.readGates == e.readGates && spec.writeGates == e.writeGates
  {
  }

  type Table = map<uint16, Spec>

  ghost predicate Loadable(entries: seq<(int, RawEntry)>) {
    && (forall i :: 0 <= i < |entries| ==> 0 <= entries[i].0 < 0x1_0000 && LoadDid(entries[i].1).Some?)
    && (forall i, j :: 0 <= i < j < |entries| ==> entries[i].0 != entries[j].0)
  }

  /** The table holds exactly the entries, each as loaded. */
  ghost predicate Holds(table: Table, entries: seq<(int, RawEntry)>) {
    && (forall i :: 0 <= i < |entries| ==>
          && 0 <= entries[i].0 < 0x1_0000
          && entries[i].0 in table && LoadDid(entries[i].1) == Some(table[entries[i].0]))
    && (forall did :: did in table ==> exists i :: 0 <= i < |entries| && entries[i].0 == did)
  }

  ghost predicate WellFormedTable(table: Table) {
    forall did :: did in table ==> WellFormed(table[did])
  }

  /** The table is loaded exactly when every entry is good and none is declared twice. */
  method LoadDids(entries: seq<(int, RawEntry)>) returns (table: Option<Table>)
    ensures table.Some? <==> Loadable(entries)
    ensures table.Some? ==> Holds(table.value, entries) && WellFormedTable(table.value)
  {
    var filled: Table := map[];
    for n := 0 to |entries|
      invariant Loadable(entries[..n])
      invariant Holds(filled, entries[..n]) && WellFormedTable(filled)
    {
      var (key, entry) := entries[n];
      if key < 0 || key >= 0x1_0000 {
        return None;
      }
      if key in filled {
        DeclaredTwice(filled, entries, n);
        return None;
      }
      var spec := LoadDid(entry);
      if spec.None? {
        return None;
      }
      LoadedIsWellFormed(entry);
      HoldsExtended(filled, entries[..n], key, entry);
      assert entries[..n + 1] == entries[..n] + [(key, entry)];
      filled := filled[key := spec.value];
    }
    assert entries[..|entries|] == entries;
    return Some(filled);
  }

  lemma DeclaredTwice(table: Table, entries: seq<(int, RawEntry)>, n: nat)
    requires n < |entries| && Holds(table, entries[..n]) && 0 <= entries[n].0 < 0x1_0000 && entries[n].0 in table
    ensures !Loadable(entries)
  {
    var key := entries[n].0;
    var i :| 0 <= i < n && entries[..n][i].0 == key;
    assert entries[i].0 == entries[n].0;
  }

  lemma HoldsExtended(table: Table, entries: seq<(int, RawEntry)>, key: uint16, entry: RawEntry)
    requires Holds(table, entries) && Loadable(entries) && key !in table && LoadDid(entry).Some?
    ensures Holds(table[key := LoadDid(entry).value], entries + [(key, entry)])
    ensures Loadable(entries + [(key, entry)])
  {
    var more := entries + [(key, entry)];
    var wider := table[key := LoadDid(entry).value];
    forall did | did in wider ensures exists i :: 0 <= i < |more| && more[i].0 == did {
      if did == key {
        assert more[|entries|].0 == did;
      } else {
        var i :| 0 <= i < |entries| && entries[i].0 == did;
        assert more[i].0 == did;
      }
    }
  }
}
