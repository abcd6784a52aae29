/** The two UDP discovery responders (doip_edgenode/udp_announcer.py and
    virtual_ecu/virtecu/udp.py, without hooks) and a network that connects them. */
module Discovery {
  import opened Common
  import Framing

  const HEADER_NACK: uint16 := 0x0000
  const ID_REQUEST: uint16 := 0x0001
  const ID_REQUEST_EID: uint16 := 0x0002
  const ID_REQUEST_VIN: uint16 := 0x0003
  const ID_RESPONSE: uint16 := 0x0004
  const STATUS_REQUEST: uint16 := 0x4001
  const STATUS_RESPONSE: uint16 := 0x4002
  const POWER_REQUEST: uint16 := 0x4003
  const POWER_RESPONSE: uint16 := 0x4004

  const MAX_PENDING: nat := 256

  type Payload33 = b: Bytes | |b| == 33 witness seq(33, _ => 0)
  type Payload7 = b: Bytes | |b| == 7 witness seq(7, _ => 0)
  type Payload3 = b: Bytes | |b| == 3 witness [0, 0, 0]

  /** A responder at the moment a datagram arrives: its announcement payload, power
      mode, current entity status and, for an EdgeNode, its payload limit. */
  datatype Node =
    | EdgeNode(announcement: Payload33, powerMode: byte, edgeStatus: Payload3, maxPayload: nat)
    | VirtualEcu(announcement: Payload33, powerMode: byte, ecuStatus: Payload7)

  /** A network, as the set of states its responders may be in. */
  type Network = iset<Node>

  /** What loading an EdgeNode configuration guarantees. */
  ghost predicate ValidNode(n: Node) { n.EdgeNode? ==> n.maxPayload >= 1 }

  ghost predicate ValidNetwork(net: Network) { forall n :: n in net ==> ValidNode(n) }

  predicate IsIdRequest(ptype: uint16) { ptype in {ID_REQUEST, ID_REQUEST_EID, ID_REQUEST_VIN} }

  predicate IsResponse(ptype: uint16) { ptype in {ID_RESPONSE, STATUS_RESPONSE, POWER_RESPONSE} }

  function TypeOf(d: Bytes): uint16
    requires |d| >= 8
  {
    Decode16(d[2..4])
  }

  function LengthOf(d: Bytes): uint32
    requires |d| >= 8
  {
    Decode32(d[4..8])
  }

  function Nack(code: byte): Bytes {
    Framing.BuildFrame(HEADER_NACK, [code], 0x02)
  }

  /** The header pattern check both sides make; identification requests may carry
      version 0xFF. */
  predicate PatternOk(d: Bytes)
    requires |d| >= 8
  {
    d[1] == 255 - d[0] && (d[0] == 0x02 || d[0] == 0x03 || (d[0] == 0xFF && IsIdRequest(TypeOf(d))))
  }

  // ------------------------------------------------------------------- EdgeNode

  /** Payload lengths the EdgeNode listener accepts; none for other payload types. */
  function Lengths(ptype: uint16): set<nat> {
    if ptype == HEADER_NACK then {1}
    else if ptype == ID_REQUEST_EID then {6}
    else if ptype == ID_REQUEST_VIN then {17}
    else if ptype == ID_RESPONSE then {32, 33}
    else if ptype in {ID_REQUEST, STATUS_REQUEST, POWER_REQUEST} then {0}
    else {}
  }

  /** The reply to one datagram, if any.  `allowed`: the source address is usable. */
  function EdgeReply(n: Node, d: Bytes, allowed: bool): Option<Bytes>
    requires n.EdgeNode?
  {
    if !allowed || |d| < 8 then None
    else if !PatternOk(d) then Some(Nack(0x00))
    else if Lengths(TypeOf(d)) == {} then Some(Nack(0x01))
    else if LengthOf(d) > n.maxPayload then Some(Nack(0x02))
    else if LengthOf(d) !in Lengths(TypeOf(d)) || |d| != 8 + LengthOf(d) then Some(Nack(0x04))
    else if TypeOf(d) == HEADER_NACK || TypeOf(d) == ID_RESPONSE then None
    else if TypeOf(d) == ID_REQUEST_EID && d[8..] != n.announcement[19..25] then None
    else if TypeOf(d) == ID_REQUEST_VIN && d[8..] != n.announcement[..17] then None
    else if TypeOf(d) == STATUS_REQUEST then Some(Framing.BuildFrame(STATUS_RESPONSE, n.edgeStatus, 0x02))
    else if TypeOf(d) == POWER_REQUEST then Some(Framing.BuildFrame(POWER_RESPONSE, [n.powerMode], 0x02))
    else Some(Framing.BuildFrame(ID_RESPONSE, n.announcement, 0x02))
  }

  // ----------------------------------------------------------------- VirtualEcu

  predicate Matches(n: Node, d: Bytes)
    requires |d| >= 8
  {
    var req := d[8..];
    || TypeOf(d) == ID_REQUEST
    || (TypeOf(d) == ID_REQUEST_EID && |req| >= 6 && req[..6] == n.announcement[19..25])
    || (TypeOf(d) == ID_REQUEST_VIN && |req| >= 17 && req[..17] == n.announcement[..17])
  }

  /** Here `allowed` says that the datagram is not the listener's own. */
  function EcuReply(n: Node, d: Bytes, allowed: bool): Option<Bytes>
    requires n.VirtualEcu?
  {
    if |d| < 8 || !allowed then None
    else if TypeOf(d) == HEADER_NACK || IsResponse(TypeOf(d)) then None
    else if !PatternOk(d) then Some(Nack(0x00))
    else if !IsIdRequest(TypeOf(d)) && TypeOf(d) != STATUS_REQUEST && TypeOf(d) != POWER_REQUEST then Some(Nack(0x01))
    else if TypeOf(d) == STATUS_REQUEST then Some(Framing.BuildFrame(STATUS_RESPONSE, n.ecuStatus, 0x02))
    else if TypeOf(d) == POWER_REQUEST then Some(Framing.BuildFrame(POWER_RESPONSE, [n.powerMode], 0x02))
    else if Matches(n, d) then Some(Framing.BuildFrame(ID_RESPONSE, n.announcement, 0x02))
    else None
  }

  function Reply(n: Node, d: Bytes, allowed: bool): Option<Bytes> {
    if n.EdgeNode? then EdgeReply(n, d, allowed) else EcuReply(n, d, allowed)
  }

  // ----------------------------------------------------------------------- ranks

  predicate WellFormedNack(d: Bytes) {
    |d| == 9 && (d[0] == 0x02 || d[0] == 0x03) && d[1] == 255 - d[0] && TypeOf(d) == HEADER_NACK && LengthOf(d) == 1
  }

  /** Well-formed NACKs lowest, then responses, then requests and junk. */
  function Rank(d: Bytes): (r: nat)
    ensures r <= 2
  {
    if WellFormedNack(d) then 0 else if |d| >= 8 && IsResponse(TypeOf(d)) then 1 else 2
  }

  lemma BuiltFields(ptype: uint16, payload: Bytes)
    requires |payload| < 0x1_0000
    ensures var d := Framing.BuildFrame(ptype, payload, 0x02);
            |d| == 8 + |payload| && TypeOf(d) == ptype && LengthOf(d) == |payload| && d[0] == 2 && d[1] == 253
  {
    var d := Framing.BuildFrame(ptype, payload, 0x02);
    assert d[2..4] == Encode16(ptype);
    assert d[4..8] == Encode32(|payload|);
  }

  lemma NackRanks()
    ensures forall code: byte :: Rank(Nack(code)) == 0
  {
    forall code: byte ensures Rank(Nack(code)) == 0 {
      BuiltFields(HEADER_NACK, [code]);
    }
  }

  lemma EdgeRankDrops(n: Node, d: Bytes, allowed: bool)
    requires n.EdgeNode? && n.maxPayload >= 1 && EdgeReply(n, d, allowed).Some?
    ensures Rank(EdgeReply(n, d, allowed).value) < Rank(d)
  {
    NackRanks();
    BuiltFields(STATUS_RESPONSE, n.edgeStatus);
    BuiltFields(POWER_RESPONSE, [n.powerMode]);
    BuiltFields(ID_RESPONSE, n.announcement);
  }

  lemma EcuRankDrops(n: Node, d: Bytes, allowed: bool)
    requires n.VirtualEcu? && EcuReply(n, d, allowed).Some?
    ensures Rank(EcuReply(n, d, allowed).value) < Rank(d)
  {
    NackRanks();
    BuiltFields(STATUS_RESPONSE, n.ecuStatus);
    BuiltFields(POWER_RESPONSE, [n.powerMode]);
    BuiltFields(ID_RESPONSE, n.announcement);
  }

  /** Every reply ranks strictly below the datagram that caused it. */
  lemma RankDrops(n: Node, d: Bytes, allowed: bool)
    requires ValidNode(n) && Reply(n, d, allowed).Some?
    ensures Rank(Reply(n, d, allowed).value) < Rank(d)
  {
    if n.EdgeNode? {
      EdgeRankDrops(n, d, allowed);
    } else {
      EcuRankDrops(n, d, allowed);
    }
  }

  // ------------------------------------------------------------ who is answered

  /** A header with a valid pattern, in its bytes. */
  ghost predicate Patterned(d: Bytes)
    requires |d| >= 8
  {
    d[1] == 255 - d[0] && (d[0] == 2 || d[0] == 3 || (d[0] == 0xFF && d[2] == 0 && 1 <= d[3] <= 3))
  }

  /** The 33 announcement bytes: VIN at 0, EID at 19. */
  ghost predicate NamesNode(n: Node, ptype: int, id: Bytes) {
    || ptype == 1
    || (ptype == 2 && |id| >= 6 && id[..6] == n.announcement[19..25])
    || (ptype == 3 && |id| >= 17 && id[..17] == n.announcement[..17])
  }

  /** A built frame: version 2, its inverse, type, length and payload. */
  ghost predicate IsFrame(r: Option<Bytes>, ptype: uint16, payload: Bytes)
    requires |payload| < 256
  {
    r == Some([2, 253, ptype / 256, ptype % 256, 0, 0, 0, |payload|] + payload)
  }

  lemma BuiltBytes(ptype: uint16, payload: Bytes)
    requires |payload| < 256
    ensures Framing.BuildFrame(ptype, payload, 0x02) == [2, 253, ptype / 256, ptype % 256, 0, 0, 0, |payload|] + payload
  {
  }

  /** Every datagram an EdgeNode gets, by its bytes: which NACK, which answer, or silence.
      A request is answered exactly if its header, type, length and size are right and it
      names this node. */
  lemma EdgeAnswersExactly(n: Node, d: Bytes, allowed: bool)
    requires n.EdgeNode?
    ensures var r := EdgeReply(n, d, allowed);
            if !allowed || |d| < 8 then r.None?
            else
              var ptype, length := Framing.TypeBytes(d), Framing.LengthBytes(d);
              var known := ptype in {0, 1, 2, 3, 4, 0x4001, 0x4003};
              var sized := |d| == 8 + length
                           && (|| (ptype in {1, 0x4001, 0x4003} && length == 0) || (ptype == 0 && length == 1)
                               || (ptype == 2 && length == 6) || (ptype == 3 && length == 17)
                               || (ptype == 4 && (length == 32 || length == 33)));
              if !Patterned(d) then IsFrame(r, 0, [0])
              else if !known then IsFrame(r, 0, [1])
              else if length > n.maxPayload then IsFrame(r, 0, [2])
              else if !sized then IsFrame(r, 0, [4])
              else if ptype == 0x4001 then IsFrame(r, 0x4002, n.edgeStatus)
              else if ptype == 0x4003 then IsFrame(r, 0x4004, [n.powerMode])
              else if NamesNode(n, ptype, d[8..]) then IsFrame(r, 4, n.announcement)
              else r.None?
  {
    if |d| >= 8 {
      Framing.BigEndian(d);
      RepliesBuilt(n, n.edgeStatus);
    }
  }

  lemma RepliesBuilt(n: Node, status: Bytes)
    requires |status| < 256
    ensures forall code: byte :: IsFrame(Some(Nack(code)), 0, [code])
    ensures IsFrame(Some(Framing.BuildFrame(STATUS_RESPONSE, status, 0x02)), 0x4002, status)
    ensures IsFrame(Some(Framing.BuildFrame(POWER_RESPONSE, [n.powerMode], 0x02)), 0x4004, [n.powerMode])
    ensures IsFrame(Some(Framing.BuildFrame(ID_RESPONSE, n.announcement, 0x02)), 4, n.announcement)
  {
    forall code: byte ensures IsFrame(Some(Nack(code)), 0, [code]) {
      BuiltBytes(HEADER_NACK, [code]);
    }
    BuiltBytes(STATUS_RESPONSE, status);
    BuiltBytes(POWER_RESPONSE, [n.powerMode]);
    BuiltBytes(ID_RESPONSE, n.announcement);
  }

  /** The same for a VirtualEcu, which keeps silent on every response and NACK. */
  lemma EcuAnswersExactly(n: Node, d: Bytes, allowed: bool)
    requires n.VirtualEcu?
    ensures var r := EcuReply(n, d, allowed);
            if !allowed || |d| < 8 then r.None?
            else
              var ptype := Framing.TypeBytes(d);
              if ptype in {0, 4, 0x4002, 0x4004} then r.None?
              else if !Patterned(d) then IsFrame(r, 0, [0])
              else if ptype !in {1, 2, 3, 0x4001, 0x4003} then IsFrame(r, 0, [1])
              else if ptype == 0x4001 then IsFrame(r, 0x4002, n.ecuStatus)
              else if ptype == 0x4003 then IsFrame(r, 0x4004, [n.powerMode])
              else if NamesNode(n, ptype, d[8..]) then IsFrame(r, 4, n.announcement)
              else r.None?
  {
    if |d| >= 8 {
      Framing.BigEndian(d);
      RepliesBuilt(n, n.ecuStatus);
    }
  }

  // ---------------------------------------------------------------- the network

  /** Deliver the `index`-th datagram in flight to `node`.  The network turns the
      reply, if there is one, into `copies` datagrams (0: lost). */
  datatype Delivery = Delivery(index: nat, node: Node, allowed: bool, copies: nat)

  ghost predicate Enabled(net: Network, fanOut: nat, flight: seq<Bytes>, step: Delivery) {
    step.index < |flight| && step.node in net && step.copies <= fanOut
  }

  function Without(flight: seq<Bytes>, i: nat): seq<Bytes>
    requires i < |flight|
  {
    flight[..i] + flight[i + 1..]
  }

  function Copies(d: Bytes, n: nat): seq<Bytes> {
    if n == 0 then [] else Copies(d, n - 1) + [d]
  }

  function Delivered(flight: seq<Bytes>, step: Delivery): seq<Bytes>
    requires step.index < |flight|
  {
    var reply := Reply(step.node, flight[step.index], step.allowed);
    Without(flight, step.index) + if reply.Some? then Copies(reply.value, step.copies) else []
  }

  ghost predicate Runs(net: Network, fanOut: nat, flight: seq<Bytes>, steps: seq<Delivery>, last: seq<Bytes>)
    decreases |steps|
  {
    if steps == [] then flight == last
    else Enabled(net, fanOut, flight, steps[0]) && Runs(net, fanOut, Delivered(flight, steps[0]), steps[1..], last)
  }

  /** How many deliveries one datagram of a rank can lead to, itself included. */
  function Weight(fanOut: nat, rank: nat): nat {
    if rank == 0 then 1 else 1 + fanOut * Weight(fanOut, rank - 1)
  }

  function Total(fanOut: nat, flight: seq<Bytes>): nat {
    if flight == [] then 0 else Total(fanOut, flight[..|flight| - 1]) + Weight(fanOut, Rank(flight[|flight| - 1]))
  }

  lemma {:induction false} TotalConcat(fanOut: nat, a: seq<Bytes>, b: seq<Bytes>)
    ensures Total(fanOut, a + b) == Total(fanOut, a) + Total(fanOut, b)
    decreases |b|
  {
    if b == [] {
      assert a + b == a;
    } else {
      var n := |b| - 1;
      TotalConcat(fanOut, a, b[..n]);
      assert (a + b)[..|a| + n] == a + b[..n];
    }
  }

  lemma TotalWithout(fanOut: nat, flight: seq<Bytes>, i: nat)
    requires i < |flight|
    ensures Total(fanOut, flight) == Total(fanOut, Without(flight, i)) + Weight(fanOut, Rank(flight[i]))
  {
    var one := [flight[i]];
    assert flight == flight[..i] + one + flight[i + 1..];
    TotalConcat(fanOut, flight[..i] + one, flight[i + 1..]);
    TotalConcat(fanOut, flight[..i], one);
    TotalConcat(fanOut, flight[..i], flight[i + 1..]);
    assert one[..0] == [];
  }

  lemma {:induction false} TotalCopies(fanOut: nat, d: Bytes, n: nat)
    ensures Total(fanOut, Copies(d, n)) == n * Weight(fanOut, Rank(d))
    decreases n
  {
    if n > 0 {
      TotalCopies(fanOut, d, n - 1);
      var c := Copies(d, n);
      assert c[..|c| - 1] == Copies(d, n - 1);
      var w := Weight(fanOut, Rank(d));
      assert Total(fanOut, c) == (n - 1) * w + w;
    }
  }

  lemma {:induction false} WeightMonotone(fanOut: nat, low: nat, high: nat)
    requires low < high
    ensures 1 + fanOut * Weight(fanOut, low) <= Weight(fanOut, high)
    decreases high
  {
    if low < high - 1 {
      WeightMonotone(fanOut, low, high - 1);
      Times(fanOut, Weight(fanOut, low), Weight(fanOut, high - 1), fanOut);
    }
  }

  /** `n * small <= f * big` for `n <= f`; used with `small` a weight below `big`. */
  lemma Times(n: nat, small: nat, big: nat, f: nat)
    requires n <= f && (small <= big || f == 0)
    ensures n * small <= f * big
  {
    if f > 0 {
      assert n * small <= f * small by { assert (f - n) * small >= 0; }
      assert f * small <= f * big by { assert f * (big - small) >= 0; }
    }
  }

  lemma CopiesWeighLess(fanOut: nat, reply: Bytes, d: Bytes, copies: nat)
    requires Rank(reply) < Rank(d) && copies <= fanOut
    ensures Total(fanOut, Copies(reply, copies)) < Weight(fanOut, Rank(d))
  {
    var low := Weight(fanOut, Rank(reply));
    WeightMonotone(fanOut, Rank(reply), Rank(d));
    Times(copies, low, low, fanOut);
    TotalCopies(fanOut, reply, copies);
  }

  lemma Replaced(fanOut: nat, flight: seq<Bytes>, i: nat, more: seq<Bytes>)
    requires i < |flight| && Total(fanOut, more) < Weight(fanOut, Rank(flight[i]))
    ensures Total(fanOut, Without(flight, i) + more) < Total(fanOut, flight)
  {
    TotalWithout(fanOut, flight, i);
    TotalConcat(fanOut, Without(flight, i), more);
  }

  lemma DeliveryShrinks(net: Network, fanOut: nat, flight: seq<Bytes>, step: Delivery)
    requires ValidNetwork(net) && Enabled(net, fanOut, flight, step)
    ensures Total(fanOut, Delivered(flight, step)) < Total(fanOut, flight)
  {
    var d := flight[step.index];
    var reply := Reply(step.node, d, step.allowed);
    if reply.Some? {
      RankDrops(step.node, d, step.allowed);
      CopiesWeighLess(fanOut, reply.value, d, step.copies);
      Replaced(fanOut, flight, step.index, Copies(reply.value, step.copies));
    } else {
      Replaced(fanOut, flight, step.index, []);
    }
  }

  /** No reply storm: in any network of these responders, whatever it loses, delays,
      duplicates or broadcasts up to `fanOut` times, the number of deliveries is bounded
      by what was injected. */
  lemma {:induction false} NoReplyStorm(net: Network, fanOut: nat, flight: seq<Bytes>, steps: seq<Delivery>, last: seq<Bytes>)
    requires ValidNetwork(net) && Runs(net, fanOut, flight, steps, last)
    ensures |steps| + Total(fanOut, last) <= Total(fanOut, flight)
    ensures |steps| <= (1 + fanOut + fanOut * fanOut) * |flight|
    decreases |steps|
  {
    TotalBounded(fanOut, flight);
    if steps != [] {
      DeliveryShrinks(net, fanOut, flight, steps[0]);
      NoReplyStorm(net, fanOut, Delivered(flight, steps[0]), steps[1..], last);
    }
  }

  // ---------------------------------------------------------- the limit is needed

  /** Two EdgeNodes with a limit of 0 answer the NACK of the other with the same NACK. */
  lemma NackEchoed(n: Node)
    requires n.EdgeNode? && n.maxPayload == 0
    ensures Reply(n, Nack(0x02), true) == Some(Nack(0x02))
  {
    BuiltFields(HEADER_NACK, [0x02]);
    assert 1 in Lengths(HEADER_NACK);
  }

  /** `n` deliveries, to `first` and `second` in turn. */
  function PingPong(first: Node, second: Node, n: nat): (steps: seq<Delivery>)
    ensures |steps| == n
    decreases n
  {
    if n == 0 then [] else [Delivery(0, first, true, 1)] + PingPong(second, first, n - 1)
  }

  /** With limit 0 a single NACK between two EdgeNodes is delivered as often as one likes. */
  lemma {:induction false} EndlessNacks(net: Network, fanOut: nat, first: Node, second: Node, n: nat)
    requires fanOut >= 1 && first in net && second in net
    requires first.EdgeNode? && second.EdgeNode? && first.maxPayload == second.maxPayload == 0
    ensures Runs(net, fanOut, [Nack(0x02)], PingPong(first, second, n), [Nack(0x02)])
    decreases n
  {
    if n > 0 {
      NackEchoed(first);
      var steps := PingPong(first, second, n);
      assert Copies(Nack(0x02), 1) == [Nack(0x02)] by {
        assert Copies(Nack(0x02), 0) == [];
      }
      assert Without([Nack(0x02)], 0) == [];
      assert Delivered([Nack(0x02)], steps[0]) == [Nack(0x02)];
      assert steps[1..] == PingPong(second, first, n - 1);
      EndlessNacks(net, fanOut, second, first, n - 1);
    }
  }

  ghost predicate NoMoreThan(net: Network, fanOut: nat, flight: seq<Bytes>, bound: nat) {
    forall steps, last :: Runs(net, fanOut, flight, steps, last) ==> |steps| <= bound
  }

  ghost predicate DiesOut(net: Network, fanOut: nat, flight: seq<Bytes>) {
    exists bound: nat :: NoMoreThan(net, fanOut, flight, bound)
  }

  ghost predicate StormFree(net: Network, fanOut: nat) {
    forall flight :: DiesOut(net, fanOut, flight)
  }

  /** In a given network deliveries are bounded, whatever is injected, exactly if none of
      its EdgeNodes has a payload limit of 0. */
  lemma StormFreeExactly(net: Network, fanOut: nat)
    requires fanOut >= 1
    ensures StormFree(net, fanOut) <==> forall n :: n in net && n.EdgeNode? ==> n.maxPayload > 0
  {
    if ValidNetwork(net) {
      forall flight ensures DiesOut(net, fanOut, flight) {
        var bound := Total(fanOut, flight);
        forall steps, last | Runs(net, fanOut, flight, steps, last) ensures |steps| <= bound {
          NoReplyStorm(net, fanOut, flight, steps, last);
        }
        assert NoMoreThan(net, fanOut, flight, bound);
      }
    } else {
      var node :| node in net && node.EdgeNode? && node.maxPayload == 0;
      forall bound: nat ensures !NoMoreThan(net, fanOut, [Nack(0x02)], bound) {
        EndlessNacks(net, fanOut, node, node, bound + 1);
      }
      assert !DiesOut(net, fanOut, [Nack(0x02)]);
    }
  }

  lemma {:induction false} TotalBounded(fanOut: nat, flight: seq<Bytes>)
    ensures Total(fanOut, flight) <= (1 + fanOut + fanOut * fanOut) * |flight|
    decreases |flight|
  {
    if flight != [] {
      TotalBounded(fanOut, flight[..|flight| - 1]);
      var most := 1 + fanOut + fanOut * fanOut;
      WeightBounded(fanOut, Rank(flight[|flight| - 1]));
      assert most * |flight| == most * (|flight| - 1) + most;
    }
  }

  lemma WeightBounded(fanOut: nat, rank: nat)
    requires rank <= 2
    ensures Weight(fanOut, rank) <= 1 + fanOut + fanOut * fanOut
  {
    assert Weight(fanOut, 0) == 1;
    assert Weight(fanOut, 1) == 1 + fanOut;
    assert Weight(fanOut, 2) == 1 + fanOut * (1 + fanOut);
    assert fanOut * (1 + fanOut) == fanOut + fanOut * fanOut;
  }

  // ------------------------------------------------ the EdgeNode's delayed replies

  class UdpProtocol {
    var node: Node
    var pending: set<nat>
    var nextHandle: nat
    var transport: bool

    ghost predicate Valid()
      reads this
    {
      && |pending| <= MAX_PENDING && node.EdgeNode? && ValidNode(node)
      && forall h :: h in pending ==> h < nextHandle
    }

    constructor (node: Node)
      requires node.EdgeNode? && ValidNode(node)
      ensures Valid() && this.node == node && pending == {} && transport
    {
      this.node, pending, nextHandle, transport := node, {}, 0, true;
    }

    /** `datagram_received`: the frame sent at once, or a delayed identification reply.
        Nothing is scheduled for anything but a matching identification request. */
    method DatagramReceived(d: Bytes, allowed: bool, status: Payload3) returns (sent: Option<Bytes>)
      requires Valid() && transport
      modifies this
      ensures Valid() && transport && node == old(node).(edgeStatus := status)
      ensures var reply := EdgeReply(node, d, allowed);
              var delayed := reply == Some(Framing.BuildFrame(ID_RESPONSE, node.announcement, 0x02));
              && sent == (if delayed then None else reply)
              && pending == old(pending) + if delayed && |old(pending)| < MAX_PENDING then {old(nextHandle)} else {}
    {
      node := node.(edgeStatus := status);  // the registry's counts at this moment
      BuiltFields(ID_RESPONSE, node.announcement);
      BuiltFields(STATUS_RESPONSE, status);
      BuiltFields(POWER_RESPONSE, [node.powerMode]);
      NackIsNotId();
      if !allowed || |d| < 8 {
        return None;
      }
      if !PatternOk(d) {
        return Some(Nack(0x00));
      }
      var ptype, length := TypeOf(d), LengthOf(d);
      if Lengths(ptype) == {} {
        return Some(Nack(0x01));
      }
      if length > node.maxPayload {
        return Some(Nack(0x02));
      }
      if length !in Lengths(ptype) || |d| != 8 + length {
        return Some(Nack(0x04));
      }
      if ptype == HEADER_NACK || ptype == ID_RESPONSE {
        return None;
      }
      if ptype == ID_REQUEST_EID && d[8..] != node.announcement[19..25] {
        return None;
      }
      if ptype == ID_REQUEST_VIN && d[8..] != node.announcement[..17] {
        return None;
      }
      if ptype == STATUS_REQUEST {
        return Some(Framing.BuildFrame(STATUS_RESPONSE, status, 0x02));
      }
      if ptype == POWER_REQUEST {
        return Some(Framing.BuildFrame(POWER_RESPONSE, [node.powerMode], 0x02));
      }
      ScheduleDiscovery();
      return None;
    }

    method ScheduleDiscovery()
      requires Valid()
      modifies this
      ensures Valid() && transport == old(transport) && node == old(node)
      ensures pending == old(pending) + if transport && |old(pending)| < MAX_PENDING then {old(nextHandle)} else {}
    {
      if !transport || |pending| >= MAX_PENDING {
        return;
      }
      pending, nextHandle := pending + {nextHandle}, nextHandle + 1;
    }

    /** A timer fires; its reply goes out once, and never after a teardown. */
    method Fire(handle: nat) returns (sent: Option<Bytes>)
      requires Valid()
      modifies this
      ensures Valid() && pending == old(pending) - {handle} && transport == old(transport) && node == old(node)
      ensures sent == if handle in old(pending) && transport then Some(Framing.BuildFrame(ID_RESPONSE, node.announcement, 0x02)) else None
    {
      if handle !in pending {
        return None;
      }
      pending := pending - {handle};
      if transport {
        return Some(Framing.BuildFrame(ID_RESPONSE, node.announcement, 0x02));
      }
      return None;
    }

    method ConnectionLost()
      requires Valid()
      modifies this
      ensures Valid() && pending == {} && !transport
    {
      pending, transport := {}, false;
    }
  }

  lemma NackIsNotId()
    ensures forall code: byte, p: Payload33 :: Nack(code) != Framing.BuildFrame(ID_RESPONSE, p, 0x02)
  {
    forall code: byte, p: Payload33 ensures Nack(code) != Framing.BuildFrame(ID_RESPONSE, p, 0x02) {
      BuiltFields(HEADER_NACK, [code]);
      BuiltFields(ID_RESPONSE, p);
    }
  }
}
