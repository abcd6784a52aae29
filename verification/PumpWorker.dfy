/** The pump/worker split of a VirtualEcu connection (virtual_ecu/virtecu/session.py):
    the pump reads and acknowledges, the worker runs the handlers, and a bounded queue
    joins them.  A step is the code between two suspension points. */
module PumpWorker {
  import opened Common

  const QUEUE_MAX: nat := 8

  const GENERIC_INVALID_LENGTH: byte := 0x04
  const INVALID_SOURCE: byte := 0x02
  const UNKNOWN_TARGET: byte := 0x03
  const TOO_LARGE: byte := 0x04
  const BUSY_REPEAT_REQUEST: byte := 0x21

  datatype Config = Config(address: uint16, functional: uint16, maxData: nat)

  /** A Diagnostic Message as read: the header's version byte and the payload. */
  datatype Request = Request(version: byte, payload: Bytes)

  function Source(q: Request): uint16
    requires |q.payload| >= 5
  {
    Decode16(q.payload[..2])
  }

  function Target(q: Request): uint16
    requires |q.payload| >= 5
  {
    Decode16(q.payload[2..4])
  }

  datatype Kind = HeaderNack(code: byte) | Refused(code: byte) | Ack | Busy | Interim | Final

  /** A frame put on the wire for the `id`-th Diagnostic Message read.  `target` is
      the tester address the frame carries. */
  datatype Out = Out(id: nat, kind: Kind, version: byte, target: uint16, uds: Bytes)

  /** The pump's local view of a request; `id` is its number. */
  datatype Local = Local(id: nat, source: uint16, uds: Bytes)

  /** A queue entry: the request and the version to answer it in. */
  datatype Item = Item(request: Local, version: byte)

  /** `handing` is the request acknowledged but not yet handed over. */
  datatype Conn = Conn(
    reading: bool, workerAlive: bool,
    tester: Option<uint16>, version: byte, handing: Option<Local>,
    queue: seq<Item>, worker: Option<Item>,
    requests: seq<Request>, dequeued: seq<nat>, log: seq<Out>)

  function New(): Conn {
    Conn(true, true, None, 0x02, None, [], None, [], [], [])
  }

  // ------------------------------------------------------------------ the steps

  /** What the pump answers to a Diagnostic Message before anything is queued. */
  function Check(cfg: Config, tester: Option<uint16>, q: Request): Kind {
    if |q.payload| < 5 then HeaderNack(GENERIC_INVALID_LENGTH)
    else if tester != Some(Source(q)) then Refused(INVALID_SOURCE)
    else if Target(q) != cfg.address && Target(q) != cfg.functional then Refused(UNKNOWN_TARGET)
    else if |q.payload| - 4 > cfg.maxData then Refused(TOO_LARGE)
    else Ack
  }

  /** The pump reads a Diagnostic Message and answers at once. */
  function ReadDiagnostic(cfg: Config, c: Conn, q: Request): Conn {
    var id := |c.requests|;
    var kind := Check(cfg, c.tester, q);
    var target := if |q.payload| >= 5 then Source(q) else 0;
    c.(version := q.version,
       requests := c.requests + [q],
       log := c.log + [Out(id, kind, q.version, target, [])],
       reading := kind != Refused(INVALID_SOURCE),
       handing := if kind.Ack? then Some(Local(id, target, q.payload[4..])) else None)
  }

  /** Any other valid frame: only the version to echo changes, and the tester address
      when it is an accepted first activation. */
  function ReadOther(c: Conn, version: byte, activates: Option<uint16>): Conn {
    c.(version := version, tester := if c.tester.None? then activates else c.tester)
  }

  /** The pump hands the acknowledged request over, or answers busyRepeatRequest.
      The version is taken from the pump's current one, as the code does. */
  function HandOver(c: Conn): Conn
    requires c.handing.Some? && c.handing.value.uds != []
  {
    var q := c.handing.value;
    if |c.queue| < QUEUE_MAX then
      c.(handing := None, queue := c.queue + [Item(q, c.version)])
    else
      var busy := [0x7F, q.uds[0], BUSY_REPEAT_REQUEST];
      c.(handing := None, log := c.log + [Out(q.id, Busy, c.version, q.source, busy)])
  }

  function WorkerTake(c: Conn): Conn
    requires c.queue != []
  {
    c.(worker := Some(c.queue[0]), queue := c.queue[1..], dequeued := c.dequeued + [c.queue[0].request.id])
  }

  function WorkerSend(c: Conn, uds: Bytes, last: bool): Conn
    requires c.worker.Some?
  {
    var item := c.worker.value;
    c.(worker := if last then None else c.worker,
       log := c.log + [Out(item.request.id, if last then Final else Interim, item.version, item.request.source, uds)])
  }

  datatype Step =
    | Diagnostic(request: Request)
    | Other(version: byte, activates: Option<uint16>)
    | Enqueue
    | Take
    | Send(uds: Bytes, last: bool)
    | Suppress
    | PumpEnds
    | WorkerCancelled

  predicate Enabled(c: Conn, step: Step) {
    match step
    case Diagnostic(_) => c.reading && c.handing.None?
    case Other(_, _) => c.reading && c.handing.None?
    case Enqueue => c.handing.Some? && c.handing.value.uds != []
    case Take => c.workerAlive && c.worker.None? && c.queue != []
    case Send(_, _) => c.workerAlive && c.worker.Some?
    case Suppress => c.workerAlive && c.worker.Some?
    case PumpEnds => c.reading
    case WorkerCancelled => c.workerAlive
  }

  function Apply(cfg: Config, c: Conn, step: Step): Conn
    requires Enabled(c, step)
  {
    match step
    case Diagnostic(q) => ReadDiagnostic(cfg, c, q)
    case Other(version, activates) => ReadOther(c, version, activates)
    case Enqueue => HandOver(c)
    case Take => WorkerTake(c)
    case Send(uds, last) => WorkerSend(c, uds, last)
    case Suppress => c.(worker := None)
    case PumpEnds => c.(reading := false)
    case WorkerCancelled => c.(workerAlive := false, worker := None)
  }

  ghost predicate Runs(cfg: Config, c: Conn, steps: seq<Step>, last: Conn)
    decreases |steps|
  {
    if steps == [] then c == last
    else Enabled(c, steps[0]) && Runs(cfg, Apply(cfg, c, steps[0]), steps[1..], last)
  }

  // ----------------------------------------------------------------- the object

  class EcuSession {
    const cfg: Config
    var reading: bool
    var workerAlive: bool
    var testerAddr: Option<uint16>
    var currentReqVersion: byte
    var handing: Option<Local>
    var udsQueue: seq<Item>
    var current: Option<Item>
    var wire: seq<Out>
    ghost var requests: seq<Request>
    ghost var dequeued: seq<nat>
    var readCount: nat

    ghost function View(): Conn
      reads this
    {
      Conn(reading, workerAlive, testerAddr, currentReqVersion, handing, udsQueue, current, requests, dequeued, wire)
    }

    ghost predicate Counted()
      reads this
    {
      readCount == |requests|
    }

    constructor (cfg: Config)
      ensures View() == New() && Counted() && this.cfg == cfg
    {
      this.cfg := cfg;
      reading, workerAlive, testerAddr, currentReqVersion, handing := true, true, None, 0x02, None;
      udsQueue, current, wire, requests, dequeued, readCount := [], None, [], [], [], 0;
    }

    /** `_handle_diagnostic` up to and including the ACK or the refusal. */
    method HandleDiagnostic(q: Request)
      requires Counted() && Enabled(View(), Diagnostic(q))
      modifies this
      ensures Counted() && View() == Apply(cfg, old(View()), Diagnostic(q))
    {
      currentReqVersion := q.version;
      var id := readCount;
      readCount, requests := readCount + 1, requests + [q];
      if |q.payload| < 5 {
        wire := wire + [Out(id, HeaderNack(GENERIC_INVALID_LENGTH), currentReqVersion, 0, [])];
        return;
      }
      var source, target := Decode16(q.payload[..2]), Decode16(q.payload[2..4]);
      if testerAddr != Some(source) {
        wire := wire + [Out(id, Refused(INVALID_SOURCE), currentReqVersion, source, [])];
        reading := false;
      } else if target != cfg.address && target != cfg.functional {
        wire := wire + [Out(id, Refused(UNKNOWN_TARGET), currentReqVersion, source, [])];
      } else if |q.payload[4..]| > cfg.maxData {
        wire := wire + [Out(id, Refused(TOO_LARGE), currentReqVersion, source, [])];
      } else {
        wire := wire + [Out(id, Ack, currentReqVersion, source, [])];
        handing := Some(Local(id, source, q.payload[4..]));
      }
    }

    /** `put_nowait`, or NRC 0x21 when eight requests are waiting. */
    method PutOrBusy()
      requires Counted() && Enabled(View(), Enqueue)
      modifies this
      ensures Counted() && View() == Apply(cfg, old(View()), Enqueue)
    {
      var q := handing.value;
      handing := None;
      if |udsQueue| >= QUEUE_MAX {
        wire := wire + [Out(q.id, Busy, currentReqVersion, q.source, [0x7F, q.uds[0], BUSY_REPEAT_REQUEST])];
      } else {
        udsQueue := udsQueue + [Item(q, currentReqVersion)];
      }
    }

    method WorkerGet()
      requires Counted() && Enabled(View(), Take)
      modifies this
      ensures Counted() && View() == Apply(cfg, old(View()), Take)
    {
      dequeued := dequeued + [udsQueue[0].request.id];
      current, udsQueue := Some(udsQueue[0]), udsQueue[1..];
    }

    /** The responder closure of the worker. */
    method Respond(uds: Bytes, last: bool)
      requires Counted() && Enabled(View(), Send(uds, last))
      modifies this
      ensures Counted() && View() == Apply(cfg, old(View()), Send(uds, last))
    {
      var item := current.value;
      wire := wire + [Out(item.request.id, if last then Final else Interim, item.version, item.request.source, uds)];
      if last {
        current := None;
      }
    }
  }
}
