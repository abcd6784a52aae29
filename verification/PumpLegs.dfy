/** An EdgeNode session whose ECU legs end in VirtualEcus: the leg tasks of the gateway and
    the pump and worker of every ECU in one run.  Nothing is assumed of the ECUs: that they
    answer one request at a time, in order, follows from when the gateway sends. */
module PumpLegs {
  import opened Common
  import opened PumpWorker
  import Exchange
  import Framing
  import Legs
  import LegsInvariant
  import LegsOutcomes
  import LegsTheorems

  // --------------------------------------------------------- one request at a time

  /** The tester has nothing outstanding on this connection. */
  ghost predicate Quiet(c: Conn) { c.handing.None? && c.queue == [] && c.worker.None? }

  predicate IsPendingUds(uds: Bytes) { |uds| == 3 && uds[0] == 0x7F && uds[2] == 0x78 }

  /** A handler's extra frames are pending responses, as those of the core services are. */
  predicate FitsUds(uds: Bytes, last: bool) { 0 < |uds| < 0xFFFF_FFFC && (last || IsPendingUds(uds)) }

  /** The kinds of frame after which a request is done with. */
  predicate Ends(kind: Kind) { kind.HeaderNack? || kind.Refused? || kind.Busy? || kind.Final? }

  ghost predicate InStep(first: Out, second: Out) {
    first.id <= second.id && (Ends(first.kind) ==> first.id < second.id)
  }

  /** A logged frame of a request that has been read, with bytes a frame can carry. */
  ghost predicate FrameOk(c: Conn, o: Out) {
    o.id < |c.requests| && (o.kind.Interim? || o.kind.Final? ==> FitsUds(o.uds, o.kind.Final?)) && !o.kind.Busy?
  }

  ghost predicate Current(c: Conn, id: nat) {
    || (c.handing.Some? && c.handing.value.id == id)
    || (c.queue != [] && c.queue[0].request.id == id)
    || (c.worker.Some? && c.worker.value.request.id == id)
  }

  ghost predicate One(c: Conn) {
    && |c.queue| + (if c.handing.Some? then 1 else 0) + (if c.worker.Some? then 1 else 0) <= 1
    && (!Quiet(c) ==> |c.requests| > 0 && Current(c, |c.requests| - 1))
    && (forall p :: 0 <= p < |c.log| ==> FrameOk(c, c.log[p]))
    && (forall p, q :: 0 <= p < q < |c.log| ==> InStep(c.log[p], c.log[q]))
    && (!Quiet(c) ==> forall p :: 0 <= p < |c.log| && Ends(c.log[p].kind) ==> c.log[p].id < |c.requests| - 1)
  }

  lemma ReadOne(cfg: Config, c: Conn, q: Request)
    requires One(c) && Quiet(c)
    ensures One(ReadDiagnostic(cfg, c, q))
  {
    var d := ReadDiagnostic(cfg, c, q);
    forall p | 0 <= p < |c.log| ensures FrameOk(d, d.log[p]) {
      assert FrameOk(c, c.log[p]);
    }
    forall p, r | 0 <= p < r < |d.log| ensures InStep(d.log[p], d.log[r]) {
      assert FrameOk(c, c.log[p]);
      assert r < |c.log| ==> InStep(c.log[p], c.log[r]);
    }
  }

  lemma SendOne(c: Conn, uds: Bytes, last: bool)
    requires One(c) && c.worker.Some? && FitsUds(uds, last)
    ensures One(WorkerSend(c, uds, last))
  {
    var d := WorkerSend(c, uds, last);
    forall p | 0 <= p < |c.log| ensures FrameOk(d, d.log[p]) {
      assert FrameOk(c, c.log[p]);
    }
    forall p, r | 0 <= p < r < |d.log| ensures InStep(d.log[p], d.log[r]) {
      assert FrameOk(c, c.log[p]);
      assert r < |c.log| ==> InStep(c.log[p], c.log[r]);
    }
  }

  /** The other steps add no frame. */
  lemma QuietStep(c: Conn, d: Conn)
    requires One(c) && d.log == c.log && d.requests == c.requests
    requires |d.queue| + (if d.handing.Some? then 1 else 0) + (if d.worker.Some? then 1 else 0) <= 1
    requires !Quiet(d) ==> !Quiet(c) && Current(d, |c.requests| - 1)
    ensures One(d)
  {
    forall p | 0 <= p < |d.log| ensures FrameOk(d, d.log[p]) {
      assert FrameOk(c, c.log[p]);
    }
  }

  lemma OneKept(cfg: Config, c: Conn, step: Step)
    requires One(c) && Enabled(c, step) && (step.Diagnostic? ==> Quiet(c))
    requires step.Send? ==> FitsUds(step.uds, step.last)
    ensures One(Apply(cfg, c, step))
  {
    match step
    case Diagnostic(q) => ReadOne(cfg, c, q);
    case Send(uds, last) => SendOne(c, uds, last);
    case _ => QuietStep(c, Apply(cfg, c, step));
  }

  // -------------------------------------------------------------- the frames' bytes

  /** The bytes of a logged frame. */
  function RawOf(cfg: Config, o: Out): Exchange.Frame
    requires o.kind.Interim? || o.kind.Final? || o.kind.Busy? ==> 0 < |o.uds| < 0xFFFF_FFFC
  {
    var addresses := Encode16(cfg.address) + Encode16(o.target);
    match o.kind
    case HeaderNack(code) => Typed(0x0000, [code], o.version)
    case Refused(code) => Typed(Exchange.PT_NEGATIVE_ACK, addresses + [code], o.version)
    case Ack => Typed(Exchange.PT_POSITIVE_ACK, addresses + [0], o.version)
    case _ => Typed(Exchange.PT_DIAGNOSTIC, addresses + o.uds, o.version)
  }

  function Typed(ptype: uint16, payload: Bytes, version: byte): (raw: Exchange.Frame)
    requires |payload| < 0x1_0000_0000 && (ptype in {0x8001, 0x8002, 0x8003} ==> |payload| >= 5)
    ensures Exchange.PayloadType(raw) == ptype && raw[8..] == payload
  {
    var raw := Framing.BuildFrame(ptype, payload, version);
    assert raw[2..4] == Encode16(ptype);
    raw
  }

  lemma FinalEnds(cfg: Config, o: Out)
    requires o.kind.Interim? || o.kind.Final? || o.kind.Busy? ==> 0 < |o.uds| < 0xFFFF_FFFC
    requires o.kind.Interim? ==> IsPendingUds(o.uds)
    ensures Exchange.IsFinal(RawOf(cfg, o)) ==> Ends(o.kind)
  {
    if o.kind.Interim? {
      var raw := RawOf(cfg, o);
      assert raw[8..][4] == raw[12] && raw[8..][6] == raw[14];
    }
  }

  // --------------------------------------------------------------- the joint run

  /** A session of the gateway and the far end of each of its legs. */
  datatype Joint = Joint(gateway: Legs.World, ecus: map<Legs.LegId, Conn>)

  function EcuOf(j: Joint, l: Legs.LegId): Conn {
    if l in j.ecus then j.ecus[l] else New()
  }

  datatype JointStep = Gateway(move: Legs.Step) | Ecu(leg: Legs.LegId, step: Step)

  /** An ECU reads a request only if the gateway has written one it has not read yet. */
  predicate JointEnabled(j: Joint, step: JointStep) {
    match step
    case Gateway(s) => !s.EcuEmits? && Legs.Enabled(j.gateway, s)
    case Ecu(l, s) =>
      && l in j.gateway.legs && Enabled(EcuOf(j, l), s)
      && (s.Send? ==> FitsUds(s.uds, s.last))
      && (s.Diagnostic? ==> |EcuOf(j, l).requests| < |j.gateway.legs[l].requests|)
  }

  predicate Fits(o: Out) {
    o.kind.Interim? || o.kind.Final? || o.kind.Busy? ==> 0 < |o.uds| < 0xFFFF_FFFC
  }

  /** What an ECU puts on the wire arrives on its leg, marked with the request it answers. */
  function Deliver(cfg: Config, w: Legs.World, l: Legs.LegId, o: Out): Legs.World
    requires l in w.legs
  {
    var leg := w.legs[l];
    if !Fits(o) || o.id >= |leg.requests| then w
    else
      var raw := RawOf(cfg, o);
      w.(legs := w.legs[l := leg.(stream := leg.stream + [Legs.Emitted(raw, leg.requests[o.id])],
                                  nextReply := if Exchange.IsFinal(raw) then o.id + 1 else o.id)])
  }

  function JointApply(cfg: Config, j: Joint, step: JointStep): Joint
    requires JointEnabled(j, step)
  {
    match step
    case Gateway(s) => j.(gateway := Legs.Apply(j.gateway, s))
    case Ecu(l, s) =>
      var c := EcuOf(j, l);
      var d := Apply(cfg, c, s);
      Joint(if |d.log| > |c.log| then Deliver(cfg, j.gateway, l, d.log[|c.log|]) else j.gateway, j.ecus[l := d])
  }

  predicate JointRuns(cfg: Config, j: Joint, steps: seq<JointStep>, last: Joint)
    decreases |steps|
  {
    if steps == [] then j == last
    else JointEnabled(j, steps[0]) && JointRuns(cfg, JointApply(cfg, j, steps[0]), steps[1..], last)
  }

  // ----------------------------------------------------------------- the invariant

  /** Leg `l` and its ECU agree: at most one request is on its way to the ECU, and then the
      ECU has nothing to do; the gateway takes only requests for answered that the ECU is
      done with. */
  ghost predicate InTouch(j: Joint, l: Legs.LegId) {
    l in j.gateway.legs ==>
      var leg, c := j.gateway.legs[l], EcuOf(j, l);
      && One(c)
      && |c.requests| <= |leg.requests| <= |c.requests| + 1
      && (|c.requests| < |leg.requests| ==> Quiet(c))
      && leg.nextReply <= |c.requests| && (!Quiet(c) ==> leg.nextReply < |c.requests|)
  }

  /** The joint states in which every part of the invariant holds, as a set so that a proof
      carries `k in Good` along as one fact. */
  ghost const Good := iset j: Joint |
    && j.gateway in LegsInvariant.Good
    && (forall l {:trigger InTouch(j, l)} :: InTouch(j, l))
    && (forall l :: l in j.ecus ==> l in j.gateway.legs)

  /** What the gateway does to a leg other than sending on it: nothing the ECU can see. */
  ghost predicate LegsAlike(w: Legs.World, v: Legs.World, except: Option<Legs.LegId>) {
    forall l :: l in w.legs && except != Some(l) ==>
      l in v.legs && v.legs[l].requests == w.legs[l].requests && v.legs[l].nextReply == w.legs[l].nextReply
  }

  /** New legs start without requests. */
  ghost predicate NewLegsEmpty(w: Legs.World, v: Legs.World) {
    forall l :: l in v.legs && l !in w.legs ==> v.legs[l].requests == [] && v.legs[l].nextReply == 0
  }

  /** Nothing the ECU could see. */
  ghost predicate Unseen(w: Legs.World, v: Legs.World) { LegsAlike(w, v, None) && NewLegsEmpty(w, v) }

  lemma ConnectUnseen(w: Legs.World, t: Legs.Target, l: Legs.LegId, sid: Option<byte>)
    requires l !in w.legs
    ensures Unseen(w, Legs.StartConnect(w, t, l, sid))
  {
  }

  lemma CloseUnseen(w: Legs.World, v: Legs.World, l: Legs.LegId)
    requires v.legs == w.legs && l in w.legs
    ensures Unseen(w, Legs.CloseOnce(v, l))
  {
  }

  lemma StartUnseen(w: Legs.World, step: Legs.Step)
    requires Legs.Enabled(w, step) && (step.Diagnose? || step.RetireReturned?)
    ensures Unseen(w, Legs.Apply(w, step))
  {
    match step
    case Diagnose(t, sid, l, _) => ConnectUnseen(w, t, l, sid);
    case RetireReturned(l) =>
      if w.pc.reconnect.Some? && !w.closing {
        ConnectUnseen(w, w.retirements[w.pc.task].target, l, w.pc.reconnect.value);
      }
  }

  predicate TouchesLeg(step: Legs.Step) {
    step.ConnectOk? || step.ConnectFail? || step.TakeFrame? || step.RetireClose? || step.LegLost? || step.CloseNext?
  }

  lemma TouchUnseen(w: Legs.World, step: Legs.Step)
    requires Legs.Enabled(w, step) && TouchesLeg(step)
    ensures Unseen(w, Legs.Apply(w, step))
  {
    match step
    case ConnectOk(l) => ConnectOkUnseen(w, l);
    case RetireClose(r) =>
      CloseUnseen(w, w.(retirements := w.retirements[r := w.retirements[r].(stage := Legs.Joining)]), w.retirements[r].leg);
    case CloseNext(l) =>
      CloseUnseen(w, w.(cleanup := Legs.ClosingLegs(w.cleanup.todo - {l}, w.cleanup.joined + {l})), l);
    case ConnectFail(_) =>
    case TakeFrame(_) =>
    case LegLost(_) =>
  }

  lemma ConnectOkUnseen(w: Legs.World, l: Legs.LegId)
    requires Legs.Enabled(w, Legs.ConnectOk(l))
    ensures Unseen(w, Legs.ConnectOkStep(w, l))
  {
  }

  lemma HandleSameLegs(w: Legs.World, r: Legs.TaskId)
    requires Legs.Enabled(w, Legs.HandleFrame(r))
    ensures Legs.HandleFrameStep(w, r).legs == w.legs
  {
  }

  lemma RelaySameLegs(w: Legs.World, sent: bool, r: Legs.TaskId)
    requires Legs.Enabled(w, Legs.RelayFails(sent, r))
    ensures Legs.RelayFailsStep(w, sent, r).legs == w.legs
  {
  }

  lemma RetireSameLegs(w: Legs.World, r: Legs.TaskId)
    requires Legs.Enabled(w, Legs.RetireRun(r))
    ensures Legs.RetireRunStep(w, r).legs == w.legs
  {
  }

  lemma CancelSameLegs(w: Legs.World, r: Legs.TaskId)
    requires Legs.Enabled(w, Legs.Cancel(r))
    ensures Legs.CancelStep(w, r).legs == w.legs
  {
  }

  lemma CleanupSameLegs(w: Legs.World, step: Legs.Step)
    requires Legs.Enabled(w, step)
    requires step.CloseSession? || step.SnapshotConnects? || step.JoinConnects? || step.ClearLegs? || step.JoinLegs? || step.JoinRetirements? || step.JoinCloses?
    ensures Legs.Apply(w, step).legs == w.legs
  {
  }

  lemma TaskSameLegs(w: Legs.World, step: Legs.Step)
    requires Legs.Enabled(w, step)
    requires step.ConnectReleased? || step.ConnectReturned? || step.StartRead? || step.GiveUp? || step.LateFrame? || step.RetireDone? || step.CloseFinished?
    ensures Legs.Apply(w, step).legs == w.legs
  {
  }

  lemma OtherStepUnseen(w: Legs.World, step: Legs.Step)
    requires Legs.Enabled(w, step) && !step.EcuEmits? && !step.Send?
    ensures Unseen(w, Legs.Apply(w, step))
  {
    if step.Diagnose? || step.RetireReturned? {
      StartUnseen(w, step);
    } else if TouchesLeg(step) {
      TouchUnseen(w, step);
    } else if step.HandleFrame? {
      HandleSameLegs(w, step.spareTask);
    } else if step.RelayFails? {
      RelaySameLegs(w, step.sent, step.spareTask);
    } else if step.RetireRun? {
      RetireSameLegs(w, step.task);
    } else if step.Cancel? {
      CancelSameLegs(w, step.spareTask);
    } else if step.ConnectReleased? || step.ConnectReturned? || step.StartRead? || step.GiveUp? || step.LateFrame? || step.RetireDone? || step.CloseFinished? {
      TaskSameLegs(w, step);
    } else {
      CleanupSameLegs(w, step);
    }
  }

  /** The gateway writes a request only on a leg whose ECU is done with all earlier ones. */
  lemma SendAlike(w: Legs.World, step: Legs.Step)
    requires w in LegsInvariant.Good && Legs.Enabled(w, step) && step.Send?
    ensures var v := Legs.Apply(w, step);
            && LegsAlike(w, v, Some(w.pc.leg)) && NewLegsEmpty(w, v)
            && LegsInvariant.IdleLeg(w.legs[w.pc.leg])
            && w.pc.leg in v.legs && v.legs[w.pc.leg].nextReply == w.legs[w.pc.leg].nextReply
            && |w.legs[w.pc.leg].requests| <= |v.legs[w.pc.leg].requests| <= |w.legs[w.pc.leg].requests| + 1
  {
  }

  lemma GatewayKeeps(cfg: Config, j: Joint, step: Legs.Step)
    requires j in Good && JointEnabled(j, Gateway(step))
    ensures JointApply(cfg, j, Gateway(step)) in Good
  {
    var k := JointApply(cfg, j, Gateway(step));
    LegsTheorems.StepKeeps(j.gateway, step);
    forall l ensures InTouch(k, l) {
      assert InTouch(j, l);
      GatewayInTouch(cfg, j, step, l);
    }
    if step.Send? {
      SendAlike(j.gateway, step);
    } else {
      OtherStepUnseen(j.gateway, step);
    }
  }

  lemma GatewayInTouch(cfg: Config, j: Joint, step: Legs.Step, l: Legs.LegId)
    requires j.gateway in LegsInvariant.Good && InTouch(j, l) && JointEnabled(j, Gateway(step))
    requires l !in j.gateway.legs ==> l !in j.ecus
    ensures InTouch(JointApply(cfg, j, Gateway(step)), l)
  {
    if step.Send? {
      SendAlike(j.gateway, step);
    } else {
      OtherStepUnseen(j.gateway, step);
    }
  }

  /** The frame an ECU step emits, if any, is one the leg is waiting for. */
  lemma EmitsInOrder(cfg: Config, j: Joint, l: Legs.LegId, step: Step)
    requires InTouch(j, l) && JointEnabled(j, Ecu(l, step))
    ensures var c := EcuOf(j, l);
            var d := Apply(cfg, c, step);
            && One(d) && |d.log| <= |c.log| + 1 && |c.requests| <= |d.requests| <= |j.gateway.legs[l].requests|
            && (|d.requests| < |j.gateway.legs[l].requests| ==> Quiet(d) && d.requests == c.requests)
            && (|d.log| > |c.log| ==> Fits(d.log[|c.log|]) && d.log[|c.log|].id == |d.requests| - 1 >= j.gateway.legs[l].nextReply)
            && (d.log == c.log && !Quiet(d) ==> !Quiet(c) && d.requests == c.requests)
            && (|d.log| > |c.log| && !Quiet(d) ==> !Ends(d.log[|c.log|].kind))
  {
    var c := EcuOf(j, l);
    OneKept(cfg, c, step);
    var d := Apply(cfg, c, step);
    if |d.log| > |c.log| {
      assert FrameOk(d, d.log[|c.log|]);
    }
  }

  lemma DeliverIsEmission(cfg: Config, w: Legs.World, l: Legs.LegId, o: Out)
    requires l in w.legs && Fits(o) && w.legs[l].nextReply <= o.id < |w.legs[l].requests|
    ensures Legs.Enabled(w, Legs.EcuEmits(l, o.id, RawOf(cfg, o)))
    ensures Deliver(cfg, w, l, o) == Legs.Apply(w, Legs.EcuEmits(l, o.id, RawOf(cfg, o)))
  {
  }

  /** An ECU step is nothing for the gateway, or an emission its model allows. */
  lemma EcuEmission(cfg: Config, j: Joint, l: Legs.LegId, step: Step)
    requires InTouch(j, l) && j.gateway in LegsInvariant.Good && JointEnabled(j, Ecu(l, step))
    ensures JointApply(cfg, j, Ecu(l, step)).gateway in LegsInvariant.Good
    ensures LegsOutcomes.Leads(j.gateway, JointApply(cfg, j, Ecu(l, step)).gateway)
  {
    EmitsInOrder(cfg, j, l, step);
    var c := EcuOf(j, l);
    var d := Apply(cfg, c, step);
    LegsOutcomes.LeadsFrom(j.gateway);
    if |d.log| > |c.log| {
      var o := d.log[|c.log|];
      var emit := Legs.EcuEmits(l, o.id, RawOf(cfg, o));
      DeliverIsEmission(cfg, j.gateway, l, o);
      LegsTheorems.StepKeeps(j.gateway, emit);
      LegsOutcomes.LeadsBy(j.gateway, j.gateway, emit);
    }
  }

  lemma EcuInTouch(cfg: Config, j: Joint, l: Legs.LegId, step: Step)
    requires InTouch(j, l) && JointEnabled(j, Ecu(l, step))
    ensures InTouch(JointApply(cfg, j, Ecu(l, step)), l)
  {
    EmitsInOrder(cfg, j, l, step);
    var c := EcuOf(j, l);
    var d := Apply(cfg, c, step);
    if |d.log| > |c.log| {
      FinalEnds(cfg, d.log[|c.log|]);
    }
  }

  lemma EcuKeeps(cfg: Config, j: Joint, l: Legs.LegId, step: Step)
    requires j in Good && JointEnabled(j, Ecu(l, step))
    ensures JointApply(cfg, j, Ecu(l, step)) in Good
    ensures LegsOutcomes.Leads(j.gateway, JointApply(cfg, j, Ecu(l, step)).gateway)
  {
    var k := JointApply(cfg, j, Ecu(l, step));
    assert InTouch(j, l);
    EcuEmission(cfg, j, l, step);
    EcuInTouch(cfg, j, l, step);
    OthersInTouch(cfg, j, l, step);
  }

  lemma OthersInTouch(cfg: Config, j: Joint, l: Legs.LegId, step: Step)
    requires (forall m :: InTouch(j, m)) && JointEnabled(j, Ecu(l, step))
    ensures forall m :: m != l ==> InTouch(JointApply(cfg, j, Ecu(l, step)), m)
  {
    var k := JointApply(cfg, j, Ecu(l, step));
    forall m | m != l ensures InTouch(k, m) {
      assert InTouch(j, m);
      assert EcuOf(k, m) == EcuOf(j, m);
      assert m in j.gateway.legs ==> k.gateway.legs[m] == j.gateway.legs[m];
    }
  }

  lemma {:induction false} JointRefines(cfg: Config, j: Joint, steps: seq<JointStep>, last: Joint)
    requires j in Good && JointRuns(cfg, j, steps, last)
    ensures last in Good && LegsOutcomes.Leads(j.gateway, last.gateway)
    decreases |steps|
  {
    LegsOutcomes.LeadsFrom(j.gateway);
    if steps != [] {
      var k := JointApply(cfg, j, steps[0]);
      if steps[0].Gateway? {
        GatewayKeeps(cfg, j, steps[0].move);
        LegsOutcomes.LeadsBy(j.gateway, j.gateway, steps[0].move);
      } else {
        EcuKeeps(cfg, j, steps[0].leg, steps[0].step);
      }
      JointRefines(cfg, k, steps[1..], last);
      LegsOutcomes.LeadsOn(j.gateway, k.gateway, last.gateway);
    }
  }

  // -------------------------------------------------------------------- theorems

  function Start(strict: bool): Joint { Joint(Legs.Initial(strict), map[]) }

  /** Every joint run is a run of the gateway model: the VirtualEcu keeps the promise the
      leg theorems ask of an ECU, because the gateway sends on a leg only when the ECU is
      done with the last request. */
  lemma VirtualEcuIsLawful(cfg: Config, strict: bool, steps: seq<JointStep>, j: Joint)
    requires JointRuns(cfg, Start(strict), steps, j)
    ensures exists own :: Legs.Runs(Legs.Initial(strict), own, j.gateway)
    ensures forall l :: l in j.gateway.legs ==> One(EcuOf(j, l))
  {
    LegsTheorems.Reached(strict, [], Legs.Initial(strict));
    JointRefines(cfg, Start(strict), steps, j);
    forall l | l in j.gateway.legs ensures One(EcuOf(j, l)) {
      assert InTouch(j, l);
    }
  }

  /** Response attribution end to end: in every joint run, each frame relayed in an exchange
      is one the VirtualEcu sent for the request of that very exchange. */
  lemma JointAttribution(cfg: Config, strict: bool, steps: seq<JointStep>, j: Joint, i: nat)
    requires JointRuns(cfg, Start(strict), steps, j) && i < |j.gateway.log|
    ensures j.gateway.log[i].frame.request == j.gateway.log[i].request
  {
    VirtualEcuIsLawful(cfg, strict, steps, j);
    var own :| Legs.Runs(Legs.Initial(strict), own, j.gateway);
    LegsTheorems.ResponseAttribution(strict, own, j.gateway, i);
  }
}
