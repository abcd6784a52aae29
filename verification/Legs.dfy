/** The ECU legs of one EdgeNode session (doip_edgenode/session.py): connecting,
    exchanging, retiring and tearing down as interleaved tasks.

    The session task runs one diagnostic exchange at a time.  Connect children,
    retirement tasks, close tasks and the cleanup task interleave with it, and the
    ECU side of each leg emits frames whenever it likes.  Every emitted frame
    carries, for the proof only, the request it was emitted for. */
module Legs {
  import opened Common
  import opened Exchange

  type Target = nat
  type LegId = nat
  type TaskId = nat
  type RequestId = nat

  datatype Emitted = Emitted(raw: Frame, request: RequestId)

  datatype Setup = Connecting | Up | Broken

  /** `requests` are the exchanges written to this leg.  The ECU answers them in
      order; `nextReply` indexes the first one it may still emit a frame for. */
  datatype Leg = Leg(
    target: Target, setup: Setup, connected: bool, closes: nat,
    requests: seq<RequestId>, nextReply: nat, stream: seq<Emitted>)

  /** The queue consumer of an exchange, possibly already holding a frame. */
  datatype ReadTask = ReadTask(leg: LegId, got: Option<Emitted>)

  datatype RetireStage = Created | Detached | Joining | Retired

  datatype Retirement = Retirement(target: Target, leg: LegId, stage: RetireStage)

  datatype ConnectStage = Running | Releasing | Finished(cached: bool)

  datatype Pc =
    | Idle
    | AwaitConnect(target: Target, leg: LegId, sid: Option<byte>, cancelled: bool)
    | Ready(target: Target, leg: LegId, sid: Option<byte>)
    | Exchanging(target: Target, leg: LegId, sid: Option<byte>, request: RequestId, st: Progress)
    | AwaitRetire(task: TaskId, reconnect: Option<Option<byte>>)

  datatype Cleanup =
    | NotStarted
    | Started
    | JoiningConnects(connects: set<LegId>)
    | JoiningReads
    | ClosingLegs(todo: set<LegId>, joined: set<LegId>)
    | JoiningRetirements(tasks: set<TaskId>)
    | JoiningCloses(legs: set<LegId>)
    | Done

  datatype Relay = Relay(request: RequestId, frame: Emitted)

  datatype World = World(
    strict: bool,
    closing: bool,
    pc: Pc,
    cleanup: Cleanup,
    legs: map<LegId, Leg>,
    conns: map<Target, LegId>,
    readers: map<Target, ReadTask>,
    connects: map<LegId, ConnectStage>,
    retirements: map<TaskId, Retirement>,
    closeTasks: map<LegId, bool>,
    nextRequest: RequestId,
    log: seq<Relay>)

  function Initial(strict: bool): World {
    World(strict, false, Idle, NotStarted, map[], map[], map[], map[], map[], map[], 0, [])
  }

  // ---------------------------------------------------------------- effects

  /** `_close_ecu_once`: the first caller starts the close, everyone joins it. */
  function CloseOnce(w: World, l: LegId): World
    requires l in w.legs
  {
    if l in w.closeTasks then w
    else w.(closeTasks := w.closeTasks[l := false],
            legs := w.legs[l := w.legs[l].(closes := w.legs[l].closes + 1)])
  }

  function StartConnect(w: World, t: Target, l: LegId, sid: Option<byte>): World {
    w.(legs := w.legs[l := Leg(t, Connecting, false, 0, [], 0, [])],
       connects := w.connects[l := Running],
       pc := AwaitConnect(t, l, sid, false))
  }

  /** Hand the leg to a retirement task and wait for it, whatever happens. */
  function StartRetire(w: World, t: Target, l: LegId, r: TaskId, reconnect: Option<Option<byte>>): World {
    w.(retirements := w.retirements[r := Retirement(t, l, Created)], pc := AwaitRetire(r, reconnect))
  }

  // ------------------------------------------------------------------ steps

  datatype Step =
    | Diagnose(target: Target, sid: Option<byte>, spareLeg: LegId, spareTask: TaskId)
    | ConnectOk(leg: LegId)
    | ConnectFail(leg: LegId)
    | ConnectReleased(leg: LegId)
    | ConnectReturned
    | Send(written: bool, ok: bool, spareTask: TaskId)
    | StartRead
    | TakeFrame(target: Target)
    | HandleFrame(spareTask: TaskId)
    | RelayFails(sent: bool, spareTask: TaskId)
    | GiveUp(spareTask: TaskId)
    | LateFrame
    | Cancel(spareTask: TaskId)
    | RetireRun(task: TaskId)
    | RetireClose(task: TaskId)
    | RetireDone(task: TaskId)
    | RetireReturned(spareLeg: LegId)
    | CloseFinished(leg: LegId)
    | LegLost(leg: LegId)
    | EcuEmits(leg: LegId, index: nat, raw: Frame)
    | CloseSession
    | SnapshotConnects
    | JoinConnects
    | ClearLegs
    | CloseNext(leg: LegId)
    | JoinLegs
    | JoinRetirements
    | JoinCloses

  /** The teardown has already taken over every cached leg and every read. */
  predicate Cleared(c: Cleanup) {
    c.ClosingLegs? || c.JoiningRetirements? || c.JoiningCloses? || c.Done?
  }

  predicate Enabled(w: World, step: Step) {
    match step
    case Diagnose(t, sid, l, r) =>
      w.pc.Idle? && !w.closing && l !in w.legs && r !in w.retirements
      && (t in w.conns ==> w.conns[t] in w.legs)
    case ConnectOk(l) => l in w.connects && w.connects[l].Running? && l in w.legs
    case ConnectFail(l) => l in w.connects && w.connects[l].Running? && l in w.legs
    case ConnectReleased(l) =>
      l in w.connects && w.connects[l].Releasing? && l in w.closeTasks && w.closeTasks[l]
    case ConnectReturned =>
      w.pc.AwaitConnect? && w.pc.leg in w.connects && w.connects[w.pc.leg].Finished?
    case Send(written, ok, r) =>
      w.pc.Ready? && w.pc.leg in w.legs && r !in w.retirements && (ok ==> written)
    case StartRead => w.pc.Exchanging? && !w.closing && w.pc.target !in w.readers
    case TakeFrame(t) =>
      t in w.readers && w.readers[t].got.None? && w.readers[t].leg in w.legs
      && w.legs[w.readers[t].leg].stream != []
    case HandleFrame(r) =>
      w.pc.Exchanging? && w.pc.target in w.readers && w.readers[w.pc.target].leg == w.pc.leg
      && w.readers[w.pc.target].got.Some? && r !in w.retirements
    case RelayFails(sent, r) =>
      w.pc.Exchanging? && w.pc.target in w.readers && w.readers[w.pc.target].leg == w.pc.leg
      && w.readers[w.pc.target].got.Some? && r !in w.retirements
    case GiveUp(r) => w.pc.Exchanging? && r !in w.retirements
    case LateFrame => w.pc.Exchanging? && Cleared(w.cleanup)
    case Cancel(r) =>
      (w.pc.AwaitConnect? || w.pc.Exchanging? || w.pc.AwaitRetire?) && r !in w.retirements
    case RetireRun(r) => r in w.retirements && w.retirements[r].stage.Created?
    case RetireClose(r) =>
      r in w.retirements && w.retirements[r].stage.Detached? && w.retirements[r].leg in w.legs
    case RetireDone(r) =>
      r in w.retirements && w.retirements[r].stage.Joining?
      && w.retirements[r].leg in w.closeTasks && w.closeTasks[w.retirements[r].leg]
    case RetireReturned(l) =>
      w.pc.AwaitRetire? && w.pc.task in w.retirements && w.retirements[w.pc.task].stage.Retired?
      && l !in w.legs
    case CloseFinished(l) => l in w.closeTasks && !w.closeTasks[l]
    case LegLost(l) => l in w.legs
    case EcuEmits(l, i, raw) => l in w.legs && w.legs[l].nextReply <= i < |w.legs[l].requests|
    case CloseSession => true
    case SnapshotConnects => w.cleanup.Started?
    case JoinConnects =>
      w.cleanup.JoiningConnects?
      && forall l :: l in w.cleanup.connects && l in w.connects ==> w.connects[l].Finished?
    case ClearLegs => w.cleanup.JoiningReads?
    case CloseNext(l) => w.cleanup.ClosingLegs? && l in w.cleanup.todo && l in w.legs
    case JoinLegs =>
      w.cleanup.ClosingLegs? && w.cleanup.todo == {}
      && forall l :: l in w.cleanup.joined && l in w.closeTasks ==> w.closeTasks[l]
    case JoinRetirements =>
      w.cleanup.JoiningRetirements?
      && forall r :: r in w.cleanup.tasks && r in w.retirements ==> w.retirements[r].stage.Retired?
    case JoinCloses =>
      w.cleanup.JoiningCloses?
      && forall l :: l in w.cleanup.legs && l in w.closeTasks ==> w.closeTasks[l]
  }

  function Apply(w: World, step: Step): World
    requires Enabled(w, step)
  {
    match step
    case Diagnose(t, sid, l, r) =>
      if t !in w.conns then StartConnect(w, t, l, sid)
      else if w.legs[w.conns[t]].connected then w.(pc := Ready(t, w.conns[t], sid))
      else StartRetire(w, t, w.conns[t], r, Some(sid))
    case ConnectOk(l) => ConnectOkStep(w, l)
    case ConnectFail(l) =>
      w.(legs := w.legs[l := w.legs[l].(setup := Broken)], connects := w.connects[l := Finished(false)])
    case ConnectReleased(l) => w.(connects := w.connects[l := Finished(false)])
    case ConnectReturned =>
      w.(pc := if w.connects[w.pc.leg].cached && !w.pc.cancelled
               then Ready(w.pc.target, w.pc.leg, w.pc.sid) else Idle)
    case Send(written, ok, r) => SendStep(w, written, ok, r)
    case StartRead => w.(readers := w.readers[w.pc.target := ReadTask(w.pc.leg, None)])
    case TakeFrame(t) =>
      var l := w.readers[t].leg;
      w.(readers := w.readers[t := ReadTask(l, Some(w.legs[l].stream[0]))],
         legs := w.legs[l := w.legs[l].(stream := w.legs[l].stream[1..])])
    case HandleFrame(r) => HandleFrameStep(w, r)
    case RelayFails(sent, r) => RelayFailsStep(w, sent, r)
    case GiveUp(r) => StartRetire(w, w.pc.target, w.pc.leg, r, None)
    case LateFrame => w.(pc := Idle)  // a frame read before the teardown ends the exchange unrelayed
    case Cancel(r) => CancelStep(w, r)
    case RetireRun(r) => RetireRunStep(w, r)
    case RetireClose(r) =>
      CloseOnce(w.(retirements := w.retirements[r := w.retirements[r].(stage := Joining)]),
                w.retirements[r].leg)
    case RetireDone(r) => w.(retirements := w.retirements[r := w.retirements[r].(stage := Retired)])
    case RetireReturned(l) =>
      if w.pc.reconnect.Some? && !w.closing
      then StartConnect(w, w.retirements[w.pc.task].target, l, w.pc.reconnect.value)
      else w.(pc := Idle)
    case CloseFinished(l) => w.(closeTasks := w.closeTasks[l := true])
    case LegLost(l) => w.(legs := w.legs[l := w.legs[l].(connected := false)])
    case EcuEmits(l, i, raw) =>
      var leg := w.legs[l];
      w.(legs := w.legs[l := leg.(stream := leg.stream + [Emitted(raw, leg.requests[i])],
                                  nextReply := if IsFinal(raw) then i + 1 else i)])
    case CloseSession =>
      w.(closing := true, cleanup := if w.cleanup.NotStarted? then Started else w.cleanup)
    case SnapshotConnects =>
      w.(cleanup := JoiningConnects(set l | l in w.connects && !w.connects[l].Finished?))
    case JoinConnects => w.(cleanup := JoiningReads)
    case ClearLegs => w.(readers := map[], conns := map[], cleanup := ClosingLegs(w.conns.Values, {}))
    case CloseNext(l) =>
      CloseOnce(w.(cleanup := ClosingLegs(w.cleanup.todo - {l}, w.cleanup.joined + {l})), l)
    case JoinLegs =>
      w.(cleanup := JoiningRetirements(set r | r in w.retirements && !w.retirements[r].stage.Retired?))
    case JoinRetirements =>
      w.(cleanup := JoiningCloses(set l | l in w.closeTasks && !w.closeTasks[l]))
    case JoinCloses => w.(cleanup := Done)
  }

  /** Cancellation retires an exchange; a connect or a retirement is still waited for. */
  function CancelStep(w: World, r: TaskId): World
    requires Enabled(w, Cancel(r))
  {
    w.(retirements := if w.pc.Exchanging? then w.retirements[r := Retirement(w.pc.target, w.pc.leg, Created)]
                      else w.retirements,
       pc := if w.pc.Exchanging? then AwaitRetire(r, None)
             else if w.pc.AwaitConnect? then w.pc.(cancelled := true)
             else w.pc.(reconnect := None))
  }

  /** A connect that succeeds is cached, or closed at once if the session is closing. */
  function ConnectOkStep(w: World, l: LegId): World
    requires Enabled(w, ConnectOk(l))
  {
    var v := w.(legs := w.legs[l := w.legs[l].(setup := Up, connected := true)]);
    if w.closing then CloseOnce(v.(connects := w.connects[l := Releasing]), l)
    else v.(conns := w.conns[w.legs[l].target := l], connects := w.connects[l := Finished(true)])
  }

  /** The request may be on the wire even when the write reports an error. */
  function SendStep(w: World, written: bool, ok: bool, r: TaskId): World
    requires Enabled(w, Send(written, ok, r))
  {
    if w.closing then w.(pc := Idle)
    else
      var k := w.nextRequest;
      var leg := w.legs[w.pc.leg];
      var v := w.(nextRequest := k + 1,
                  legs := if written then w.legs[w.pc.leg := leg.(requests := leg.requests + [k])] else w.legs);
      if ok then v.(pc := Exchanging(w.pc.target, w.pc.leg, w.pc.sid, k, Progress(false, false)))
      else StartRetire(v, w.pc.target, w.pc.leg, r, None)
  }

  /** The read returned a frame: relay it or not, then go on, complete or retire. */
  function HandleFrameStep(w: World, r: TaskId): World
    requires Enabled(w, HandleFrame(r))
  {
    var pc := w.pc;
    var frame := w.readers[pc.target].got.value;
    var verdict := OnFrame(w.strict, pc.sid, pc.st, frame.raw);
    var relays := (verdict.Continue? || verdict.relay) && !w.closing;
    var retires := verdict.Stop? && !verdict.completed;
    w.(readers := w.readers - {pc.target},
       log := if relays then w.log + [Relay(pc.request, frame)] else w.log,
       retirements := if retires then w.retirements[r := Retirement(pc.target, pc.leg, Created)] else w.retirements,
       pc := if retires then AwaitRetire(r, None) else if verdict.Stop? then Idle else pc.(st := verdict.next))
  }

  /** The relay of a frame raises or is cancelled, perhaps after it was sent.  Even a final
      frame then does not complete the exchange. */
  function RelayFailsStep(w: World, sent: bool, r: TaskId): World
    requires Enabled(w, RelayFails(sent, r))
  {
    var pc := w.pc;
    var frame := w.readers[pc.target].got.value;
    var verdict := OnFrame(w.strict, pc.sid, pc.st, frame.raw);
    var relays := (verdict.Continue? || verdict.relay) && !w.closing && sent;
    StartRetire(w.(readers := w.readers - {pc.target},
                   log := if relays then w.log + [Relay(pc.request, frame)] else w.log),
                pc.target, pc.leg, r, None)
  }

  /** Detach the leg and drain its reader; never touch a replacement's entries. */
  function RetireRunStep(w: World, r: TaskId): World
    requires Enabled(w, RetireRun(r))
  {
    var task := w.retirements[r];
    var t := task.target;
    w.(conns := if t in w.conns && w.conns[t] == task.leg then w.conns - {t} else w.conns,
       readers := if t in w.readers && w.readers[t].leg == task.leg then w.readers - {t} else w.readers,
       retirements := w.retirements[r := task.(stage := Detached)])
  }

  predicate Runs(w: World, steps: seq<Step>, last: World)
    decreases |steps|
  {
    if steps == [] then w == last
    else Enabled(w, steps[0]) && Runs(Apply(w, steps[0]), steps[1..], last)
  }
}
