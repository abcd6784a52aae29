/** EdgeNode routing activation (doip_edgenode/session.py) as an interleaving
    step system.

    The code between two `await`s is one atomic step.  Many sessions contend for
    tester source addresses and for a bounded number of slots; alive probes,
    evictions, closes and cancellations interleave freely.  `log` is a history of
    what happened; it is never read by a step. */
module Activation {
  import opened Common
  import opened Registry

  type ProbeId = nat

  /** Where a session's activation handler is suspended.  `lock` is the lock
      object it obtained for `addr`. */
  datatype Pc =
    | Idle
    | Waiting(addr: Address, lock: LockId)
    | Deciding(addr: Address, lock: LockId, round: nat)
    | Probing(addr: Address, lock: LockId, round: nat, owner: SessionId, probe: ProbeId)
    | CapacityWait(addr: Address, lock: LockId)
    | Reclaiming(addr: Address, lock: LockId, tasks: map<ProbeId, Address>)
    | Evicting(addr: Address, lock: LockId, tasks: map<ProbeId, Address>, todo: set<ProbeId>)
    | Draining(addr: Address, lock: LockId, tasks: map<ProbeId, Address>, abort: bool)
    | Rechecking(addr: Address, lock: LockId)
    | Denying(addr: Address, lock: LockId, code: byte)
    | Confirming(addr: Address, lock: LockId)

  /** The alive-probe event of a session: absent, clear, set by a reply (whose
      history position is `at`) or set by the session's own shutdown. */
  datatype Signal = NoProbe | Armed | Answered(at: nat) | Shut

  datatype Session = Session(
    addr: Option<Address>,
    activated: bool,
    closing: bool,
    pc: Pc,
    probeOwner: Option<ProbeId>,
    signal: Signal)

  /** `at` is the history position of the probe's request or of its result. */
  datatype Stage = Queued | Sending(at: nat) | Awaiting(at: nat) | Finished(alive: bool, at: nat) | Cancelled

  datatype Probe = Probe(contender: SessionId, target: SessionId, stage: Stage)

  /** How a probe ended: not started because its target was not active, failed while its
      request was being written, or after waiting from the position it was opened at. */
  datatype Cause = Refused | Unsent | Waited(from: nat)

  datatype Event =
    | Registered(sid: SessionId, addr: Address)
    | Unregistered(sid: SessionId, addr: Address)
    | Opened(probe: ProbeId, target: SessionId, addr: Address)
    | Replied(target: SessionId, payload: Bytes)
    | Ended(probe: ProbeId, contender: SessionId, target: SessionId, alive: bool, cause: Cause)
    | Evicted(contender: SessionId, victim: SessionId, addr: Address, probe: ProbeId)
    | DeniedInUse(contender: SessionId, owner: SessionId, addr: Address, probe: ProbeId)

  datatype World = World(
    reg: Table,
    sess: map<SessionId, Session>,
    holder: map<LockId, SessionId>,
    capacity: Option<SessionId>,
    nextLock: LockId,
    probes: map<ProbeId, Probe>,
    log: seq<Event>)

  function Initial(maxConnections: nat): World {
    World(Empty(maxConnections), map[], map[], None, 0, map[], [])
  }

  predicate Contends(pc: Pc) { !pc.Idle? }

  predicate Holds(pc: Pc) { !pc.Idle? && !pc.Waiting? }

  /** Suspended after the conflict loop and before the commit. */
  predicate PastLoop(pc: Pc) {
    pc.CapacityWait? || pc.Reclaiming? || pc.Evicting? || pc.Draining? || pc.Rechecking?
  }

  predicate HasTasks(pc: Pc) { pc.Reclaiming? || pc.Evicting? || pc.Draining? }

  predicate Open(stage: Stage) { stage.Sending? || stage.Awaiting? }

  predicate Running(stage: Stage) { stage.Queued? || Open(stage) }

  // ---------------------------------------------------------------- effects

  function SetPc(w: World, s: SessionId, pc: Pc): World
    requires s in w.sess
  {
    w.(sess := w.sess[s := w.sess[s].(pc := pc)])
  }

  function Record(w: World, e: Event): World {
    w.(log := w.log + [e])
  }

  /** Leave the activation handler: release what is held and drop the lock reference. */
  function Leave(w: World, s: SessionId): (v: World)
    requires s in w.sess && Contends(w.sess[s].pc)
    ensures v.reg.maxConnections == w.reg.maxConnections
  {
    var pc := w.sess[s].pc;
    SetPc(w.(reg := ExitLock(w.reg, pc.addr, pc.lock),
             holder := if Holds(pc) then w.holder - {pc.lock} else w.holder,
             capacity := if w.capacity == Some(s) then None else w.capacity),
          s, Idle)
  }

  /** `_schedule_cleanup`: mark closing, wake a probe, free the socket and the address. */
  function CloseSession(w: World, s: SessionId): World {
    if s !in w.sess || w.sess[s].closing then w
    else
      var x := w.sess[s];
      var signal := if x.signal.Armed? then Shut else x.signal;
      var w1 := w.(sess := w.sess[s := x.(closing := true, signal := signal)],
                   reg := Release(w.reg, s));
      if x.addr.Some? && Lookup(w.reg, x.addr.value) == Some(s)
      then Record(w1.(reg := Unregister(w1.reg, x.addr.value, s)), Unregistered(s, x.addr.value))
      else w1
  }

  /** Claim the address for `s`; runs without suspension after the last checks. */
  function Commit(w: World, s: SessionId): (v: World)
    requires s in w.sess && Contends(w.sess[s].pc)
    ensures v.reg.maxConnections == w.reg.maxConnections
  {
    var pc := w.sess[s].pc;
    var x := w.sess[s].(addr := Some(pc.addr), activated := true, pc := Confirming(pc.addr, pc.lock));
    Record(w.(sess := w.sess[s := x], reg := Register(w.reg, pc.addr, s)), Registered(s, pc.addr))
  }

  function CauseOf(stage: Stage): Cause {
    if stage.Awaiting? then Waited(stage.at) else if stage.Sending? then Unsent else Refused
  }

  /** End probe `p`: its `finally` clears the target's event and releases its probe lock. */
  function EndProbe(w: World, p: ProbeId, alive: Option<bool>): (v: World)
    requires p in w.probes && w.probes[p].target in w.sess
    ensures v.reg.maxConnections == w.reg.maxConnections
  {
    var probe := w.probes[p];
    var x := w.sess[probe.target];
    var sess := if x.probeOwner == Some(p)
                then w.sess[probe.target := x.(probeOwner := None, signal := NoProbe)]
                else w.sess;
    match alive
    case None => w.(sess := sess, probes := w.probes[p := probe.(stage := Cancelled)])
    case Some(b) =>
      Record(w.(sess := sess, probes := w.probes[p := probe.(stage := Finished(b, |w.log|))]),
             Ended(p, probe.contender, probe.target, b, CauseOf(probe.stage)))
  }

  function NewProbes(w: World, s: SessionId, tasks: map<ProbeId, Address>): World
    requires forall p :: p in tasks ==> tasks[p] in w.reg.sessions
  {
    w.(probes := w.probes + map p | p in tasks :: Probe(s, w.reg.sessions[tasks[p]], Queued))
  }

  /** What follows the conflict loop: the capacity test, the closing test, the commit. */
  function AfterLoop(w: World, s: SessionId): World
    requires s in w.sess && Contends(w.sess[s].pc)
  {
    var pc := w.sess[s].pc;
    if !w.sess[s].activated && |w.reg.sessions| >= w.reg.maxConnections
    then SetPc(w, s, CapacityWait(pc.addr, pc.lock))
    else if w.sess[s].closing then Leave(w, s)
    else Commit(w, s)
  }

  // ---------------------------------------------------------------- steps

  datatype Step =
    | Reserve(s: SessionId)
    | Attach(s: SessionId)
    | ReleaseSocket(s: SessionId)
    | Request(s: SessionId, addr: Address)
    | AcquireLock(s: SessionId)
    | Decide(s: SessionId, probe: ProbeId)
    | ProbeReturned(s: SessionId)
    | AcquireCapacity(s: SessionId, tasks: map<ProbeId, Address>)
    | WaitReturned(s: SessionId)
    | EvictNext(s: SessionId, probe: ProbeId)
    | EvictDone(s: SessionId)
    | Drained(s: SessionId)
    | Recheck(s: SessionId)
    | ResponseSent(s: SessionId)
    | CancelActivation(s: SessionId)
    | Close(s: SessionId)
    | ProbeStart(probe: ProbeId)
    | ProbeSent(probe: ProbeId)
    | ProbeFail(probe: ProbeId)
    | ProbeWake(probe: ProbeId)
    | ProbeCancel(probe: ProbeId)
    | AliveReply(s: SessionId, payload: Bytes)

  predicate Enabled(w: World, step: Step) {
    match step
    case Reserve(s) => Admits(w.reg, s)
    case Attach(s) => s !in w.sess && Admits(w.reg, s)
    case ReleaseSocket(s) => true
    case Request(s, a) =>
      // Only the branch that reaches the lock; a rejected request just closes the session.
      s in w.sess && w.sess[s].pc.Idle? && !w.sess[s].closing
      && (w.sess[s].activated ==> w.sess[s].addr == Some(a))
    case AcquireLock(s) => s in w.sess && w.sess[s].pc.Waiting? && w.sess[s].pc.lock !in w.holder
    case Decide(s, p) => s in w.sess && w.sess[s].pc.Deciding? && p !in w.probes
    case ProbeReturned(s) =>
      s in w.sess && w.sess[s].pc.Probing? && w.sess[s].pc.probe in w.probes
      && w.probes[w.sess[s].pc.probe].stage.Finished?
    case AcquireCapacity(s, tasks) =>
      s in w.sess && w.sess[s].pc.CapacityWait? && w.capacity == None
      && tasks.Keys !! w.probes.Keys && tasks.Values == w.reg.sessions.Keys && |tasks| == |w.reg.sessions|
    case WaitReturned(s) => s in w.sess && w.sess[s].pc.Reclaiming?
    case EvictNext(s, p) =>
      s in w.sess && w.sess[s].pc.Evicting? && p in w.sess[s].pc.todo
      && p in w.sess[s].pc.tasks && p in w.probes
    case EvictDone(s) => s in w.sess && w.sess[s].pc.Evicting? && w.sess[s].pc.todo == {}
    case Drained(s) =>
      s in w.sess && w.sess[s].pc.Draining?
      && forall p :: p in w.sess[s].pc.tasks && p in w.probes ==> !Running(w.probes[p].stage)
    case Recheck(s) => s in w.sess && w.sess[s].pc.Rechecking?
    case ResponseSent(s) => s in w.sess && (w.sess[s].pc.Denying? || w.sess[s].pc.Confirming?)
    case CancelActivation(s) =>
      s in w.sess && Contends(w.sess[s].pc)
      && (w.sess[s].pc.Probing? ==>
            w.sess[s].pc.probe in w.probes && w.probes[w.sess[s].pc.probe].target in w.sess)
    case Close(s) => s in w.sess
    case ProbeStart(p) =>
      p in w.probes && w.probes[p].stage.Queued? && w.probes[p].target in w.sess
      && w.sess[w.probes[p].target].probeOwner == None
    case ProbeSent(p) => p in w.probes && w.probes[p].stage.Sending?
    case ProbeFail(p) =>
      // The write fails, or the wait runs out before an answer.
      p in w.probes && Open(w.probes[p].stage) && w.probes[p].target in w.sess
      && (w.probes[p].stage.Awaiting? ==> !w.sess[w.probes[p].target].signal.Answered?)
    case ProbeWake(p) =>
      p in w.probes && w.probes[p].stage.Awaiting? && w.probes[p].target in w.sess
      && (w.sess[w.probes[p].target].signal.Answered? || w.sess[w.probes[p].target].signal.Shut?)
    case ProbeCancel(p) =>
      // Only capacity probes are tasks of their own; a same-address probe dies with its contender.
      p in w.probes && Running(w.probes[p].stage) && w.probes[p].target in w.sess
      && forall s :: s in w.sess && w.sess[s].pc.Probing? ==> w.sess[s].pc.probe != p
    case AliveReply(s, payload) => s in w.sess && w.sess[s].pc.Idle?
  }

  function Apply(w: World, step: Step): (v: World)
    requires Enabled(w, step)
    ensures v.reg.maxConnections == w.reg.maxConnections
  {
    match step
    case Reserve(s) => w.(reg := Registry.Reserve(w.reg, s))
    case Attach(s) =>
      w.(reg := Registry.Attach(w.reg, s, s),
         sess := w.sess[s := Session(None, false, false, Idle, None, NoProbe)])
    case ReleaseSocket(s) => w.(reg := Release(w.reg, s))
    case Request(s, a) =>
      SetPc(w.(reg := EnterLock(w.reg, a, w.nextLock), nextLock := w.nextLock + 1),
            s, Waiting(a, LockFor(w.reg, a, w.nextLock)))
    case AcquireLock(s) =>
      var pc := w.sess[s].pc;
      SetPc(w.(holder := w.holder[pc.lock := s]), s, Deciding(pc.addr, pc.lock, 0))
    case Decide(s, p) => DecideStep(w, s, p)
    case ProbeReturned(s) => ProbeReturnedStep(w, s)
    case AcquireCapacity(s, tasks) => AcquireCapacityStep(w, s, tasks)
    case WaitReturned(s) => WaitReturnedStep(w, s)
    case EvictNext(s, p) => EvictNextStep(w, s, p)
    case EvictDone(s) =>
      var pc := w.sess[s].pc;
      SetPc(w, s, Draining(pc.addr, pc.lock, pc.tasks, false))
    case Drained(s) => DrainedStep(w, s)
    case Recheck(s) => RecheckStep(w, s)
    case ResponseSent(s) => Leave(w, s)
    case CancelActivation(s) => CancelStep(w, s)
    case Close(s) => CloseSession(w, s)
    case ProbeStart(p) => ProbeStartStep(w, p)
    case ProbeSent(p) =>
      w.(probes := w.probes[p := w.probes[p].(stage := Awaiting(w.probes[p].stage.at))])
    case ProbeFail(p) => EndProbe(w, p, Some(false))
    case ProbeWake(p) => EndProbe(w, p, Some(!w.sess[w.probes[p].target].closing))
    case ProbeCancel(p) => EndProbe(w, p, None)
    case AliveReply(s, payload) => AliveReplyStep(w, s, payload)
  }

  /** One pass of the conflict loop up to its `await` or its exit. */
  function DecideStep(w: World, s: SessionId, p: ProbeId): (v: World)
    requires Enabled(w, Decide(s, p))
    ensures v.reg.maxConnections == w.reg.maxConnections
  {
    var pc := w.sess[s].pc;
    var existing := Lookup(w.reg, pc.addr);
    if w.sess[s].closing then Leave(w, s)
    else if existing == None || existing == Some(s) then AfterLoop(w, s)
    else SetPc(NewProbes(w, s, map[p := pc.addr]), s,
               Probing(pc.addr, pc.lock, pc.round, existing.value, p))
  }

  /** The rest of the pass, once the same-address probe has returned. */
  function ProbeReturnedStep(w: World, s: SessionId): (v: World)
    requires Enabled(w, ProbeReturned(s))
    ensures v.reg.maxConnections == w.reg.maxConnections
  {
    var pc := w.sess[s].pc;
    var again := Deciding(pc.addr, pc.lock, pc.round + 1);
    if w.sess[s].closing then Leave(w, s)
    else if Lookup(w.reg, pc.addr) != Some(pc.owner) then SetPc(w, s, again)
    else if w.probes[pc.probe].stage.alive
    then SetPc(Record(w, DeniedInUse(s, pc.owner, pc.addr, pc.probe)), s,
               Denying(pc.addr, pc.lock, 0x03))
    else SetPc(CloseSession(Record(w, Evicted(s, pc.owner, pc.addr, pc.probe)), pc.owner), s, again)
  }

  function AcquireCapacityStep(w: World, s: SessionId, tasks: map<ProbeId, Address>): (v: World)
    requires Enabled(w, AcquireCapacity(s, tasks))
    ensures v.reg.maxConnections == w.reg.maxConnections
  {
    var pc := w.sess[s].pc;
    if w.sess[s].closing then Leave(w, s)
    else if |w.reg.sessions| < w.reg.maxConnections then SetPc(w, s, Rechecking(pc.addr, pc.lock))
    else
      assert forall p :: p in tasks ==> tasks[p] in tasks.Values;
      SetPc(NewProbes(w.(capacity := Some(s)), s, tasks), s, Reclaiming(pc.addr, pc.lock, tasks))
  }

  function WaitReturnedStep(w: World, s: SessionId): (v: World)
    requires Enabled(w, WaitReturned(s))
    ensures v.reg.maxConnections == w.reg.maxConnections
  {
    var pc := w.sess[s].pc;
    if w.sess[s].closing then SetPc(w, s, Draining(pc.addr, pc.lock, pc.tasks, true))
    else SetPc(w, s, Evicting(pc.addr, pc.lock, pc.tasks, FinishedTasks(w, pc.tasks)))
  }

  function DrainedStep(w: World, s: SessionId): (v: World)
    requires Enabled(w, Drained(s))
    ensures v.reg.maxConnections == w.reg.maxConnections
  {
    var pc := w.sess[s].pc;
    if pc.abort then Leave(w, s)
    else SetPc(w.(capacity := None), s, Rechecking(pc.addr, pc.lock))
  }

  function RecheckStep(w: World, s: SessionId): (v: World)
    requires Enabled(w, Recheck(s))
    ensures v.reg.maxConnections == w.reg.maxConnections
  {
    var pc := w.sess[s].pc;
    if |w.reg.sessions| >= w.reg.maxConnections then SetPc(w, s, Denying(pc.addr, pc.lock, 0x01))
    else if w.sess[s].closing then Leave(w, s)
    else Commit(w, s)
  }

  /** Cancellation while suspended: capacity probes are still waited for. */
  function CancelStep(w: World, s: SessionId): (v: World)
    requires Enabled(w, CancelActivation(s))
    ensures v.reg.maxConnections == w.reg.maxConnections
  {
    var pc := w.sess[s].pc;
    if pc.Probing? then Leave(EndProbe(w, pc.probe, None), s)
    else if pc.Reclaiming? || pc.Evicting?
    then SetPc(w, s, Draining(pc.addr, pc.lock, pc.tasks, true))
    else Leave(w, s)
  }

  function FinishedTasks(w: World, tasks: map<ProbeId, Address>): set<ProbeId> {
    set p | p in tasks && p in w.probes && w.probes[p].stage.Finished?
  }

  /** Evict the owner probed by `p` unless it answered or lost its address meanwhile. */
  function EvictNextStep(w: World, s: SessionId, p: ProbeId): (v: World)
    requires Enabled(w, EvictNext(s, p))
    ensures v.reg.maxConnections == w.reg.maxConnections
  {
    var pc := w.sess[s].pc;
    var probe := w.probes[p];
    var w1 := SetPc(w, s, pc.(todo := pc.todo - {p}));
    if probe.stage.Finished? && !probe.stage.alive && Lookup(w.reg, pc.tasks[p]) == Some(probe.target)
    then CloseSession(Record(w1, Evicted(s, probe.target, pc.tasks[p], p)), probe.target)
    else w1
  }

  /** `_probe_alive_once` up to the end of its write. */
  function ProbeStartStep(w: World, p: ProbeId): (v: World)
    requires Enabled(w, ProbeStart(p))
    ensures v.reg.maxConnections == w.reg.maxConnections
  {
    var probe := w.probes[p];
    var x := w.sess[probe.target];
    if x.closing || !x.activated || x.addr.None? then EndProbe(w, p, Some(false))
    else Record(
      w.(sess := w.sess[probe.target := x.(probeOwner := Some(p), signal := Armed)],
         probes := w.probes[p := probe.(stage := Sending(|w.log|))]),
      Opened(p, probe.target, x.addr.value))
  }

  /** Only the registered tester's two-byte reply to an outstanding probe counts. */
  function AliveReplyStep(w: World, s: SessionId, payload: Bytes): (v: World)
    requires Enabled(w, AliveReply(s, payload))
    ensures v.reg.maxConnections == w.reg.maxConnections
  {
    var x := w.sess[s];
    if x.closing then w
    else
      var counts := x.activated && |payload| == 2 && x.addr == Some(Decode16(payload)) && x.signal.Armed?;
      Record(if counts then w.(sess := w.sess[s := x.(signal := Answered(|w.log|))]) else w, Replied(s, payload))
  }

  /** The interleaving `steps` leads from `w` to `last`. */
  predicate Runs(w: World, steps: seq<Step>, last: World)
    decreases |steps|
  {
    if steps == [] then w == last
    else Enabled(w, steps[0]) && Runs(Apply(w, steps[0]), steps[1..], last)
  }
}
