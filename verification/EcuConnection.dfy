/** The receive side of an ECU connection (doip_edgenode/ecu_client.py): a queue
    fed by one background reader, drained by any number of receivers and ended by a
    single persistent terminal marker. */
module EcuConnection {
  import opened Common
  import opened Exchange

  const PT_HEADER_NACK: uint16 := 0x0000
  const PT_ALIVE_CHECK_REQUEST: uint16 := 0x0007

  type Cause = nat

  datatype Item = Data(raw: Frame) | Marker

  /** `waiting` receivers are blocked on the empty queue, `woken` ones have been
      scheduled by a put but have not run yet.  `read` are all frames the reader took
      off the wire, `delivered` those handed to a receiver. */
  datatype Conn = Conn(
    connected: bool, cause: Option<Cause>, readerRunning: bool, discarded: bool,
    queue: seq<Item>, waiting: nat, woken: nat,
    read: seq<Frame>, delivered: seq<Frame>)

  function New(): Conn {
    Conn(false, None, false, false, [], 0, 0, [], [])
  }

  /** `put_nowait`: append and wake one blocked receiver. */
  function Put(c: Conn, item: Item): Conn {
    var queued := c.(queue := c.queue + [item]);
    if c.waiting > 0 then queued.(waiting := c.waiting - 1, woken := c.woken + 1) else queued
  }

  /** Whether the reader hands the frame to receivers rather than dealing with it itself. */
  predicate ForReceivers(raw: Frame) {
    PayloadType(raw) != PT_HEADER_NACK && PayloadType(raw) != PT_ALIVE_CHECK_REQUEST
  }

  function ReaderFrame(c: Conn, raw: Frame): Conn {
    var seen := c.(read := c.read + [raw]);
    if ForReceivers(raw) then Put(seen, Data(raw)) else seen
  }

  function MarkTerminal(c: Conn, cause: Cause, discard: bool): Conn {
    var marked := c.(connected := false,
                     cause := if c.cause.None? then Some(cause) else c.cause,
                     queue := if discard then [] else c.queue,
                     discarded := c.discarded || discard);
    if c.cause.None? || discard then Put(marked, Marker) else marked
  }

  /** One receiver takes the head of the queue; a marker goes straight back. */
  function Take(c: Conn): Conn
    requires c.queue != []
  {
    var popped := c.(queue := c.queue[1..]);
    match c.queue[0]
    case Data(raw) => popped.(delivered := c.delivered + [raw])
    case Marker => Put(popped, Marker)
  }

  /** `recv`: take at once, or block. */
  function Receive(c: Conn): Conn {
    if c.queue != [] then Take(c) else c.(waiting := c.waiting + 1)
  }

  /** A woken receiver runs; somebody else may have emptied the queue meanwhile. */
  function Resume(c: Conn): Conn
    requires c.woken > 0
  {
    Receive(c.(woken := c.woken - 1))
  }

  /** A woken receiver is cancelled and passes its wake-up on. */
  function CancelWoken(c: Conn): Conn
    requires c.woken > 0
  {
    if c.queue != [] && c.waiting > 0 then c.(waiting := c.waiting - 1)
    else c.(woken := c.woken - 1)
  }

  datatype Step =
    | Establish                       // transport up, routing activation may run
    | StartReader
    | Frame(raw: Frame)               // the reader read one frame
    | ReaderEnds(cause: Cause)        // EOF, reset, cancellation of the reader
    | SetupFails(cause: Cause)
    | Close(cause: Cause)
    | Recv
    | RunWoken
    | CancelBlocked
    | CancelScheduled

  predicate Enabled(c: Conn, step: Step) {
    match step
    case Establish => c.cause.None?
    case StartReader => c.cause.None? && c.connected
    case Frame(raw) => c.readerRunning
    case ReaderEnds(cause) => c.readerRunning
    case SetupFails(cause) => !c.readerRunning
    case Close(cause) => true
    case Recv => c.connected || c.cause.Some?
    case RunWoken => c.woken > 0
    case CancelBlocked => c.waiting > 0
    case CancelScheduled => c.woken > 0
  }

  function Apply(c: Conn, step: Step): Conn
    requires Enabled(c, step)
  {
    match step
    case Establish => c.(connected := true)
    case StartReader => c.(readerRunning := true)
    case Frame(raw) => ReaderFrame(c, raw)
    case ReaderEnds(cause) => MarkTerminal(c, cause, false).(readerRunning := false)
    case SetupFails(cause) => MarkTerminal(c, cause, true)
    case Close(cause) => MarkTerminal(c, cause, true).(readerRunning := false)
    case Recv => Receive(c)
    case RunWoken => Resume(c)
    case CancelBlocked => c.(waiting := c.waiting - 1)
    case CancelScheduled => CancelWoken(c)
  }

  predicate Runs(c: Conn, steps: seq<Step>, last: Conn)
    decreases |steps|
  {
    if steps == [] then c == last
    else Enabled(c, steps[0]) && Runs(Apply(c, steps[0]), steps[1..], last)
  }

  // ---------------------------------------------------------------- invariant

  ghost function Frames(queue: seq<Item>): seq<Frame> {
    if queue == [] then []
    else (match queue[0] case Data(raw) => [raw] case Marker => []) + Frames(queue[1..])
  }

  /** The frames a receiver must get: all but header NACKs and alive check requests. */
  ghost function Wanted(read: seq<Frame>): seq<Frame> {
    if read == [] then []
    else
      var raw := read[|read| - 1];
      Wanted(read[..|read| - 1]) + if PayloadType(raw) == 0x0000 || PayloadType(raw) == 0x0007 then [] else [raw]
  }

  ghost predicate NoMarker(queue: seq<Item>) {
    forall i :: 0 <= i < |queue| ==> queue[i].Data?
  }

  /** Frames, then exactly one marker, last. */
  ghost predicate Terminated(queue: seq<Item>) {
    queue != [] && queue[|queue| - 1].Marker? && NoMarker(queue[..|queue| - 1])
  }

  /** The queue matches the connection state and no frame got lost or reordered. */
  ghost predicate Consistent(c: Conn) {
    && (if c.cause.None? then NoMarker(c.queue) else Terminated(c.queue) && !c.connected && !c.readerRunning)
    && (!c.discarded ==> c.delivered + Frames(c.queue) == Wanted(c.read))
  }

  /** The connections that are consistent and in which no wake-up is lost: with a receiver
      blocked, every queued item has one scheduled.  A set, so that a proof carries
      `d in Good` along as one fact. */
  ghost const Good := iset c: Conn | Consistent(c) && (c.waiting > 0 ==> c.woken >= |c.queue|)

  lemma {:induction false} FramesOfAppend(queue: seq<Item>, item: Item)
    ensures Frames(queue + [item]) == Frames(queue) + (match item case Data(raw) => [raw] case Marker => [])
    decreases |queue|
  {
    if queue == [] {
      assert queue + [item] == [item];
    } else {
      assert (queue + [item])[1..] == queue[1..] + [item];
      FramesOfAppend(queue[1..], item);
    }
  }

  lemma MarkKeeps(c: Conn, cause: Cause, discard: bool)
    requires c in Good
    ensures MarkTerminal(c, cause, discard).(readerRunning := false) in Good
    ensures MarkTerminal(c, cause, discard).cause == if c.cause.None? then Some(cause) else c.cause
  {
    if discard {
      assert MarkTerminal(c, cause, discard).queue == [Marker];
    } else {
      KeepingMarkKeeps(c, cause);
    }
  }

  lemma KeepingMarkKeeps(c: Conn, cause: Cause)
    requires c in Good
    ensures MarkTerminal(c, cause, false).(readerRunning := false) in Good
  {
    FramesOfAppend(c.queue, Marker);
    assert (c.queue + [Marker])[..|c.queue|] == c.queue;
  }

  lemma WantedAppend(read: seq<Frame>, raw: Frame)
    ensures Wanted(read + [raw]) == Wanted(read) + if ForReceivers(raw) then [raw] else []
  {
    assert (read + [raw])[..|read|] == read;
    assert Wanted(read) + [] == Wanted(read);
  }

  lemma Regroup(a: seq<Frame>, b: seq<Frame>, c: seq<Frame>)
    ensures a + (b + c) == (a + b) + c
  {
  }

  lemma FrameKeeps(c: Conn, raw: Frame)
    requires c in Good && c.readerRunning
    ensures ReaderFrame(c, raw) in Good
  {
    WantedAppend(c.read, raw);
    FramesOfAppend(c.queue, Data(raw));
    Regroup(c.delivered, Frames(c.queue), [raw]);
  }

  lemma TakeConsistent(c: Conn)
    requires Consistent(c) && c.queue != []
    ensures Consistent(Take(c))
    ensures Take(c).cause == c.cause && Take(c).connected == c.connected
  {
    if c.queue[0].Data? {
      TakeData(c);
    } else {
      TakeMarker(c);
    }
  }

  lemma TakeData(c: Conn)
    requires Consistent(c) && c.queue != [] && c.queue[0].Data?
    ensures Consistent(Take(c))
  {
    var rest := c.queue[1..];
    if c.cause.Some? {
      assert rest[..|rest| - 1] == c.queue[..|c.queue| - 1][1..];
    }
    var raw := c.queue[0].raw;
    assert Frames(c.queue) == [raw] + Frames(rest);
    assert c.delivered + ([raw] + Frames(rest)) == (c.delivered + [raw]) + Frames(rest);
  }

  lemma TakeMarker(c: Conn)
    requires Consistent(c) && c.queue != [] && c.queue[0].Marker?
    ensures Consistent(Take(c))
  {
    var front := c.queue[..|c.queue| - 1];
    assert Terminated(c.queue);
    assert c.queue == front + [Marker];
    assert front == [];
  }

  /** `woken` receivers had one more wake-up before this one started to run. */
  lemma ReceiveKeeps(c: Conn, running: bool)
    requires Consistent(c) && (c.waiting > 0 ==> c.woken + (if running then 1 else 0) >= |c.queue|)
    ensures Receive(c) in Good
    ensures Receive(c).cause == c.cause && Receive(c).connected == c.connected
  {
    if c.queue != [] {
      TakeConsistent(c);
    }
  }

  lemma StepKeeps(c: Conn, step: Step)
    requires c in Good && Enabled(c, step)
    ensures Apply(c, step) in Good
    ensures c.cause.Some? ==> Apply(c, step).cause == c.cause && !Apply(c, step).connected
  {
    match step
    case Frame(raw) => FrameKeeps(c, raw);
    case ReaderEnds(cause) => MarkKeeps(c, cause, false);
    case SetupFails(cause) => MarkKeeps(c, cause, true);
    case Close(cause) => MarkKeeps(c, cause, true);
    case Recv => ReceiveKeeps(c, false);
    case RunWoken => ReceiveKeeps(c.(woken := c.woken - 1), true);
    case _ =>
  }

  // -------------------------------------------------------------- whole runs

  lemma {:induction false} RunKeeps(c: Conn, steps: seq<Step>, last: Conn)
    requires c in Good && Runs(c, steps, last)
    ensures last in Good
    ensures c.cause.Some? ==> last.cause == c.cause && !last.connected
    decreases |steps|
  {
    if steps != [] {
      StepKeeps(c, steps[0]);
      RunKeeps(Apply(c, steps[0]), steps[1..], last);
    }
  }

  /** An explicit close, or a setup that fails. */
  predicate Discards(step: Step) { step.Close? || step.SetupFails? }

  lemma {:induction false} RunsKeepFrames(c: Conn, steps: seq<Step>, last: Conn)
    requires Runs(c, steps, last) && !c.discarded && forall i :: 0 <= i < |steps| ==> !Discards(steps[i])
    ensures !last.discarded
    decreases |steps|
  {
    if steps != [] {
      assert !Discards(steps[0]);
      RunsKeepFrames(Apply(c, steps[0]), steps[1..], last);
    }
  }

  /** The terminal queue, in every interleaving of reader, receivers, cancellations,
      EOF and close: once terminal the queue holds exactly one marker and it is last;
      in a run without an explicit close or failed setup, what was delivered and what is
      queued are all frames read but header NACKs and alive check requests, in order. */
  lemma TerminalQueue(steps: seq<Step>, c: Conn)
    requires Runs(New(), steps, c)
    ensures c.cause.Some? <==> exists i :: 0 <= i < |c.queue| && c.queue[i].Marker?
    ensures forall i :: 0 <= i < |c.queue| && c.queue[i].Marker? ==> i == |c.queue| - 1
    ensures c.cause.Some? ==> !c.connected
    ensures (forall i :: 0 <= i < |steps| ==> !Discards(steps[i])) ==> c.delivered + Frames(c.queue) == Wanted(c.read)
  {
    RunKeeps(New(), steps, c);
    if forall i :: 0 <= i < |steps| ==> !Discards(steps[i]) {
      RunsKeepFrames(New(), steps, c);
    }
    if c.cause.Some? {
      var n := |c.queue| - 1;
      assert c.queue[n].Marker?;
      forall i | 0 <= i < n ensures c.queue[i].Data? {
        assert c.queue[..n][i] == c.queue[i];
      }
    }
  }

  /** How a connection ends: a reader that ends leaves the queued frames to be received
      before the marker, a close or a failed setup leaves the marker alone, and a second
      end adds no marker. */
  lemma EndsExactly(steps: seq<Step>, c: Conn, step: Step)
    requires Runs(New(), steps, c) && Enabled(c, step) && (Discards(step) || step.ReaderEnds?)
    ensures var d := Apply(c, step);
            && d.queue == (if Discards(step) then [Marker] else c.queue + [Marker])
            && d.cause == (if c.cause.None? then Some(step.cause) else c.cause)
            && !d.connected && d.read == c.read && d.delivered == c.delivered
  {
    RunKeeps(New(), steps, c);
  }

  /** The terminal cause never changes and the connection never comes back. */
  lemma TerminalForever(first: seq<Step>, later: seq<Step>, c: Conn, last: Conn)
    requires Runs(New(), first, c) && Runs(c, later, last) && c.cause.Some?
    ensures last.cause == c.cause && !last.connected
  {
    RunKeeps(New(), first, c);
    RunKeeps(c, later, last);
  }

  lemma OneReceiverLess(c: Conn)
    requires c in Good && c.cause.Some? && c.waiting + c.woken > 0
    ensures c.woken > 0
    ensures Resume(c).waiting + Resume(c).woken == c.waiting + c.woken - 1
  {
  }

  /** In every run: while a terminal connection has receivers, one of them is scheduled
      and running it lets exactly one go. */
  lemma NoReceiverStranded(steps: seq<Step>, c: Conn)
    requires Runs(New(), steps, c) && c.cause.Some? && c.waiting + c.woken > 0
    ensures c.woken > 0
    ensures Resume(c).waiting + Resume(c).woken == c.waiting + c.woken - 1
  {
    RunKeeps(New(), steps, c);
    OneReceiverLess(c);
  }

  /** Run scheduled receivers until none is left. */
  ghost function Drain(c: Conn): Conn
    requires c in Good && c.cause.Some?
    decreases c.waiting + c.woken
  {
    if c.woken == 0 then c
    else
      OneReceiverLess(c);
      StepKeeps(c, RunWoken);
      Drain(Resume(c))
  }

  lemma {:induction false} DrainEnds(c: Conn)
    requires c in Good && c.cause.Some?
    ensures Drain(c).waiting == 0 && Drain(c).woken == 0
    ensures Terminated(Drain(c).queue) && Drain(c).cause == c.cause
    decreases c.waiting + c.woken
  {
    if c.waiting + c.woken > 0 {
      OneReceiverLess(c);
      StepKeeps(c, RunWoken);
      DrainEnds(Resume(c));
    } else {
      assert Consistent(c);
    }
  }

  /** In every run: all receivers of a terminal connection return, and the marker
      outlives them. */
  lemma EveryReceiverReturns(steps: seq<Step>, c: Conn)
    requires Runs(New(), steps, c) && c.cause.Some?
    ensures c in Good
    ensures Drain(c).waiting == 0 && Drain(c).woken == 0
    ensures Terminated(Drain(c).queue) && Drain(c).cause == c.cause
  {
    RunKeeps(New(), steps, c);
    DrainEnds(c);
  }

  // --------------------------------------------------------------- the object

  class ECUConnection {
    var connected: bool
    var terminalError: Option<Cause>
    var readerRunning: bool
    var recvQueue: seq<Item>
    var getters: nat
    var scheduled: nat
    ghost var discarded: bool
    ghost var read: seq<Frame>
    ghost var delivered: seq<Frame>

    ghost function View(): Conn
      reads this
    {
      Conn(connected, terminalError, readerRunning, discarded, recvQueue, getters, scheduled, read, delivered)
    }

    constructor ()
      ensures View() == New() && View() in Good
    {
      connected, terminalError, readerRunning := false, None, false;
      recvQueue, getters, scheduled := [], 0, 0;
      discarded, read, delivered := false, [], [];
    }

    method PutNowait(item: Item)
      modifies this`recvQueue, this`getters, this`scheduled
      ensures View() == Put(old(View()), item)
    {
      recvQueue := recvQueue + [item];
      if getters > 0 {
        getters, scheduled := getters - 1, scheduled + 1;
      }
    }

    /** Publish EOF after the queued frames, or discard them on explicit close. */
    method SetTerminal(cause: Cause, discard: bool)
      modifies this
      ensures View() == MarkTerminal(old(View()), cause, discard)
    {
      connected := false;
      var first := terminalError.None?;
      if first {
        terminalError := Some(cause);
      }
      if discard {
        while recvQueue != []
          invariant View() == MarkTerminal(old(View()), cause, discard).(
                      queue := recvQueue, waiting := old(getters), woken := old(scheduled), discarded := old(discarded))
          decreases |recvQueue|
        {
          recvQueue := recvQueue[1..];
        }
        discarded := true;
      }
      if first || discard {
        PutNowait(Marker);
      }
    }

    /** The background reader got a frame. */
    method OnFrameRead(raw: Frame)
      modifies this
      ensures View() == ReaderFrame(old(View()), raw)
    {
      read := read + [raw];
      if PayloadType(raw) == PT_HEADER_NACK || PayloadType(raw) == PT_ALIVE_CHECK_REQUEST {
        return;
      }
      PutNowait(Data(raw));
    }

    /** A receiver runs with the queue non-empty; no suspension before it returns. */
    method GetAndReturn() returns (result: Option<Frame>)
      requires recvQueue != []
      modifies this
      ensures View() == Take(old(View()))
      ensures result == match old(recvQueue)[0] case Data(raw) => Some(raw) case Marker => None
    {
      var item := recvQueue[0];
      recvQueue := recvQueue[1..];
      if item.Marker? {
        PutNowait(Marker);
        return None;
      }
      delivered := delivered + [item.raw];
      return Some(item.raw);
    }
  }
}
