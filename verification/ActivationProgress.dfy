/** No deadlock: whoever contends for an address, somebody can always go on. */
module ActivationProgress {
  import opened Common
  import opened Registry
  import opened Activation
  import opened ActivationInvariant
  import opened ActivationTheorems

  // ------------------------------------------------------------- one more invariant

  /** What a waiting handler waits for can still happen. */
  ghost predicate Hopeful(w: World, s: SessionId)
    requires s in w.sess
  {
    var pc := w.sess[s].pc;
    && (pc.Probing? ==> pc.probe in w.probes && w.probes[pc.probe].contender == s && !w.probes[pc.probe].stage.Cancelled?)
    && (pc.Evicting? ==> pc.todo <= pc.tasks.Keys)
  }

  /** The capacity lock is held by a handler that is working on its probes. */
  ghost predicate CapacityInUse(w: World) {
    w.capacity.Some? ==> w.capacity.value in w.sess && HasTasks(w.sess[w.capacity.value].pc)
  }

  /** The worlds in which every handler can hope to go on. */
  ghost const Lively := iset w: World |
    && (forall s {:trigger Hopeful(w, s)} :: s in w.sess ==> Hopeful(w, s))
    && CapacityInUse(w)

  /** A step of handler `s`: the others stay where they are and no probe of theirs is cancelled. */
  ghost predicate HandlerFrame(w: World, v: World, s: SessionId) {
    && s in v.sess
    && (forall t :: t in v.sess && t != s ==> t in w.sess && v.sess[t].pc == w.sess[t].pc)
    && (forall p :: p in w.probes ==>
          && p in v.probes && v.probes[p].contender == w.probes[p].contender
          && (v.probes[p].stage.Cancelled? ==> w.probes[p].stage.Cancelled? || w.probes[p].contender == s))
  }

  lemma LivelyHandler(w: World, v: World, s: SessionId)
    requires w in Lively && HandlerFrame(w, v, s) && Hopeful(v, s) && CapacityInUse(v)
    ensures v in Lively
  {
    forall t | t in v.sess ensures Hopeful(v, t) {
      assert t != s ==> Hopeful(w, t);
    }
  }

  /** A step of a probe: every handler stays where it is and keeps the probe it waits for. */
  ghost predicate ProbeFrame(w: World, v: World) {
    && v.sess.Keys == w.sess.Keys && v.capacity == w.capacity
    && (forall t :: t in v.sess ==> v.sess[t].pc == w.sess[t].pc)
    && (forall p :: p in w.probes ==>
          && p in v.probes && v.probes[p].contender == w.probes[p].contender
          && (v.probes[p].stage.Cancelled? && !w.probes[p].stage.Cancelled? ==>
                forall t :: t in w.sess && w.sess[t].pc.Probing? ==> w.sess[t].pc.probe != p))
  }

  lemma LivelyProbe(w: World, v: World)
    requires w in Lively && ProbeFrame(w, v)
    ensures v in Lively
  {
    forall t | t in v.sess ensures Hopeful(v, t) {
      assert Hopeful(w, t);
    }
  }

  lemma LivelyLeave(w: World, s: SessionId)
    requires w in Lively && s in w.sess && Contends(w.sess[s].pc)
    ensures Leave(w, s) in Lively
  {
    LivelyHandler(w, Leave(w, s), s);
  }

  /** Handler `s` moves on, keeping or taking the capacity lock if it has probes to work on. */
  lemma LivelyMove(w: World, s: SessionId, pc: Pc)
    requires w in Lively && s in w.sess && Hopeful(SetPc(w, s, pc), s) && CapacityInUse(SetPc(w, s, pc))
    ensures SetPc(w, s, pc) in Lively
  {
    LivelyHandler(w, SetPc(w, s, pc), s);
  }

  lemma LivelyClose(w: World, s: SessionId)
    requires w in Lively
    ensures CloseSession(w, s) in Lively
  {
    LivelyProbe(w, CloseSession(w, s));
  }

  // ----------------------------------------------------------------- preservation

  lemma LivelyAfterLoop(w: World, s: SessionId)
    requires w in Lively && w in Good && s in w.sess && w.sess[s].pc.Deciding?
    ensures AfterLoop(w, s) in Lively
  {
    if !w.sess[s].activated && |w.reg.sessions| >= w.reg.maxConnections {
      LivelyMove(w, s, CapacityWait(w.sess[s].pc.addr, w.sess[s].pc.lock));
    } else if w.sess[s].closing {
      LivelyLeave(w, s);
    } else {
      LivelyHandler(w, Commit(w, s), s);
    }
  }

  lemma LivelyDecide(w: World, s: SessionId, p: ProbeId)
    requires w in Lively && w in Good && Enabled(w, Decide(s, p))
    ensures DecideStep(w, s, p) in Lively
  {
    var existing := Lookup(w.reg, w.sess[s].pc.addr);
    if w.sess[s].closing {
      LivelyLeave(w, s);
    } else if existing == None || existing == Some(s) {
      LivelyAfterLoop(w, s);
    } else {
      NewProbeTargets(w, s, p, w.sess[s].pc.addr);
      LivelyHandler(w, DecideStep(w, s, p), s);
    }
  }

  lemma LivelyProbeReturned(w: World, s: SessionId)
    requires w in Lively && w in Good && Enabled(w, ProbeReturned(s))
    ensures ProbeReturnedStep(w, s) in Lively
  {
    var pc := w.sess[s].pc;
    var again := Deciding(pc.addr, pc.lock, pc.round + 1);
    if w.sess[s].closing {
      LivelyLeave(w, s);
    } else if Lookup(w.reg, pc.addr) != Some(pc.owner) {
      LivelyMove(w, s, again);
    } else if w.probes[pc.probe].stage.alive {
      var v := Record(w, DeniedInUse(s, pc.owner, pc.addr, pc.probe));
      LivelyProbe(w, v);
      LivelyMove(v, s, Denying(pc.addr, pc.lock, 0x03));
    } else {
      LivelyEvicts(w, s);
    }
  }

  lemma LivelyEvicts(w: World, s: SessionId)
    requires w in Lively && s in w.sess && w.sess[s].pc.Probing?
    ensures var pc := w.sess[s].pc;
            var v := CloseSession(Record(w, Evicted(s, pc.owner, pc.addr, pc.probe)), pc.owner);
            s in v.sess && SetPc(v, s, Deciding(pc.addr, pc.lock, pc.round + 1)) in Lively
  {
    var pc := w.sess[s].pc;
    var v := Record(w, Evicted(s, pc.owner, pc.addr, pc.probe));
    LivelyProbe(w, v);
    LivelyClose(v, pc.owner);
    LivelyMove(CloseSession(v, pc.owner), s, Deciding(pc.addr, pc.lock, pc.round + 1));
  }

  lemma LivelyAcquireCapacity(w: World, s: SessionId, tasks: map<ProbeId, Address>)
    requires w in Lively && Enabled(w, AcquireCapacity(s, tasks))
    ensures AcquireCapacityStep(w, s, tasks) in Lively
  {
    if w.sess[s].closing {
      LivelyLeave(w, s);
    } else {
      LivelyHandler(w, AcquireCapacityStep(w, s, tasks), s);
    }
  }

  lemma LivelyEvictNext(w: World, s: SessionId, p: ProbeId)
    requires w in Lively && Enabled(w, EvictNext(s, p))
    ensures EvictNextStep(w, s, p) in Lively
  {
    var pc := w.sess[s].pc;
    assert Hopeful(w, s);
    var v := SetPc(w, s, pc.(todo := pc.todo - {p}));
    LivelyMove(w, s, pc.(todo := pc.todo - {p}));
    var probe := w.probes[p];
    var u := Record(v, Evicted(s, probe.target, pc.tasks[p], p));
    LivelyProbe(v, u);
    LivelyClose(u, probe.target);
  }

  lemma LivelyCancel(w: World, s: SessionId)
    requires w in Lively && Enabled(w, CancelActivation(s))
    ensures Apply(w, CancelActivation(s)) in Lively
  {
    var pc := w.sess[s].pc;
    assert Hopeful(w, s);
    if pc.Probing? {
      LivelyHandler(w, Leave(EndProbe(w, pc.probe, None), s), s);
    } else if pc.Reclaiming? || pc.Evicting? {
      LivelyMove(w, s, Draining(pc.addr, pc.lock, pc.tasks, true));
    } else {
      LivelyLeave(w, s);
    }
  }

  predicate HandlerStep(step: Step) {
    step.Decide? || step.ProbeReturned? || step.AcquireCapacity? || step.EvictNext? || step.CancelActivation?
  }

  predicate MoveStep(step: Step) {
    || step.Request? || step.AcquireLock? || step.WaitReturned? || step.EvictDone? || step.Drained? || step.Recheck?
    || step.ResponseSent?
  }

  lemma LivelyHandlerStep(w: World, step: Step)
    requires w in Lively && w in Good && Enabled(w, step) && HandlerStep(step)
    ensures Apply(w, step) in Lively
  {
    match step
    case Decide(s, p) => LivelyDecide(w, s, p);
    case ProbeReturned(s) => LivelyProbeReturned(w, s);
    case AcquireCapacity(s, tasks) => LivelyAcquireCapacity(w, s, tasks);
    case EvictNext(s, p) => LivelyEvictNext(w, s, p);
    case CancelActivation(s) => LivelyCancel(w, s);
  }

  lemma LivelyMoveStep(w: World, step: Step)
    requires w in Lively && w in Good && Enabled(w, step) && MoveStep(step)
    ensures Apply(w, step) in Lively
  {
    match step
    case Drained(s) => LivelyDrained(w, s);
    case Recheck(s) => LivelyRecheck(w, s);
    case ResponseSent(s) => LivelyLeave(w, s);
    case WaitReturned(s) => LivelyTasks(w, step, s);
    case EvictDone(s) => LivelyTasks(w, step, s);
    case Request(s, _) => LivelyEntry(w, step, s);
    case AcquireLock(s) => LivelyEntry(w, step, s);
  }

  lemma LivelyTasks(w: World, step: Step, s: SessionId)
    requires w in Lively && w in Good && Enabled(w, step) && (step == WaitReturned(s) || step == EvictDone(s))
    ensures Apply(w, step) in Lively
  {
    assert Progress(w, s);
    LivelyHandler(w, Apply(w, step), s);
  }

  lemma LivelyEntry(w: World, step: Step, s: SessionId)
    requires w in Lively && Enabled(w, step) && (step.Request? || step.AcquireLock?) && step.s == s
    ensures Apply(w, step) in Lively
  {
    LivelyHandler(w, Apply(w, step), s);
  }

  lemma LivelyDrained(w: World, s: SessionId)
    requires w in Lively && w in Good && Enabled(w, Drained(s))
    ensures Apply(w, Drained(s)) in Lively
  {
    if w.sess[s].pc.abort {
      LivelyLeave(w, s);
    } else {
      LivelyHandler(w, Apply(w, Drained(s)), s);
    }
  }

  lemma LivelyRecheck(w: World, s: SessionId)
    requires w in Lively && w in Good && Enabled(w, Recheck(s))
    ensures Apply(w, Recheck(s)) in Lively
  {
    var pc := w.sess[s].pc;
    if |w.reg.sessions| >= w.reg.maxConnections {
      LivelyMove(w, s, Denying(pc.addr, pc.lock, 0x01));
    } else if w.sess[s].closing {
      LivelyLeave(w, s);
    } else {
      LivelyHandler(w, Commit(w, s), s);
    }
  }

  lemma LivelyOther(w: World, step: Step)
    requires w in Lively && Enabled(w, step) && !HandlerStep(step) && !MoveStep(step)
    ensures Apply(w, step) in Lively
  {
    match step
    case Attach(s) => LivelyHandler(w, Apply(w, step), s);
    case Close(s) => LivelyClose(w, s);
    case ProbeFail(p) => LivelyEnd(w, p, Some(false));
    case ProbeWake(p) => LivelyEnd(w, p, Some(!w.sess[w.probes[p].target].closing));
    case ProbeCancel(p) => LivelyEnd(w, p, None);
    case ProbeStart(p) => LivelyProbeStart(w, p);
    case AliveReply(s, payload) => LivelyProbe(w, AliveReplyStep(w, s, payload));
    case Reserve(_) => LivelyProbe(w, Apply(w, step));
    case ReleaseSocket(_) => LivelyProbe(w, Apply(w, step));
    case ProbeSent(_) => LivelyProbe(w, Apply(w, step));
  }

  lemma LivelyEnd(w: World, p: ProbeId, alive: Option<bool>)
    requires w in Lively && p in w.probes && w.probes[p].target in w.sess
    requires alive.None? ==> forall t :: t in w.sess && w.sess[t].pc.Probing? ==> w.sess[t].pc.probe != p
    ensures EndProbe(w, p, alive) in Lively
  {
    LivelyProbe(w, EndProbe(w, p, alive));
  }

  lemma LivelyProbeStart(w: World, p: ProbeId)
    requires w in Lively && Enabled(w, ProbeStart(p))
    ensures ProbeStartStep(w, p) in Lively
  {
    LivelyProbe(w, ProbeStartStep(w, p));
  }

  lemma LivelyStep(w: World, step: Step)
    requires w in Lively && w in Good && Enabled(w, step)
    ensures Apply(w, step) in Lively
  {
    if HandlerStep(step) {
      LivelyHandlerStep(w, step);
    } else if MoveStep(step) {
      LivelyMoveStep(w, step);
    } else {
      LivelyOther(w, step);
    }
  }

  lemma {:induction false} LivelyRun(w: World, steps: seq<Step>, last: World)
    requires w in Lively && w in Good && Runs(w, steps, last)
    ensures last in Lively && last in Good
    decreases |steps|
  {
    if steps != [] {
      LivelyStep(w, steps[0]);
      StepKeeps(w, steps[0]);
      LivelyRun(Apply(w, steps[0]), steps[1..], last);
    }
  }

  lemma ReachableIsLively(limit: nat, steps: seq<Step>, w: World)
    requires 1 <= limit <= 254 && Runs(Initial(limit), steps, w)
    ensures w in Lively && w in Good
  {
    InitialOk(limit);
    LivelyRun(Initial(limit), steps, w);
  }

  // -------------------------------------------------------------------- going on

  /** Steps that handlers and probes take by themselves: no new work from outside, no
      session closed and no handler cancelled. */
  predicate OwnStep(step: Step) {
    || step.AcquireLock? || step.Decide? || step.ProbeReturned? || step.AcquireCapacity? || step.WaitReturned?
    || step.EvictNext? || step.EvictDone? || step.Drained? || step.Recheck? || step.ResponseSent?
    || step.ProbeStart? || step.ProbeSent? || step.ProbeFail? || step.ProbeWake? || step.ProbeCancel?
  }

  /** The own steps that can be taken in `w`. */
  ghost function OwnSteps(w: World): iset<Step> { iset step | OwnStep(step) && Enabled(w, step) }

  lemma {:induction false} Above(ids: set<ProbeId>) returns (n: nat)
    ensures forall p :: p in ids ==> p < n
    decreases |ids|
  {
    if ids == {} {
      return 0;
    }
    var q :| q in ids;
    var rest := ids - {q};
    var m := Above(rest);
    n := if q < m then m else q + 1;
    assert forall p :: p in ids ==> p == q || p in rest;
  }

  /** New probes for every registered address, numbered from `n` on. */
  function TasksFrom(addresses: set<Address>, n: nat): map<ProbeId, Address> {
    var ids := set a | a in addresses :: n + a;
    map p | p in ids :: p - n
  }

  lemma {:induction false} ShiftedSize(addresses: set<Address>, n: nat)
    ensures |set a | a in addresses :: n + a| == |addresses|
    decreases |addresses|
  {
    if addresses != {} {
      var x :| x in addresses;
      var rest := addresses - {x};
      ShiftedSize(rest, n);
      var shifted, others := set a | a in addresses :: n + a, set a | a in rest :: n + a;
      forall z ensures z in shifted <==> z in others || z == n + x {
        if z in shifted && z != n + x {
          var a :| a in addresses && z == n + a;
          assert a in rest;
        }
      }
      assert shifted == others + {n + x};
    }
  }

  lemma FreshTasks(probes: set<ProbeId>, addresses: set<Address>, n: nat)
    requires forall p :: p in probes ==> p < n
    ensures TasksFrom(addresses, n).Keys !! probes && TasksFrom(addresses, n).Values == addresses
    ensures |TasksFrom(addresses, n)| == |addresses|
  {
    var tasks := TasksFrom(addresses, n);
    ShiftedSize(addresses, n);
    assert tasks.Keys == set a | a in addresses :: n + a;
    forall a ensures a in tasks.Values <==> a in addresses {
      if a in addresses {
        assert n + a in tasks && tasks[n + a] == a;
      }
    }
  }

  /** A probe that is not over can go on, or the one before it can. */
  lemma ProbeGoesOn(w: World, p: ProbeId) returns (step: Step)
    requires w in Good && p in w.probes && Running(w.probes[p].stage)
    ensures step in OwnSteps(w)
  {
    assert ProbeOk(w, p);
    var t := w.probes[p].target;
    assert SessionProbesOk(w, t);
    if Open(w.probes[p].stage) {
      return OpenProbeStep(w, p);
    }
    if w.sess[t].probeOwner.None? {
      return ProbeStart(p);
    }
    assert ProbeOk(w, w.sess[t].probeOwner.value);
    step := OpenProbeStep(w, w.sess[t].probeOwner.value);
  }

  /** What ends an open probe at the latest: its answer, a failed write or its timeout. */
  ghost function OpenProbeStep(w: World, p: ProbeId): (step: Step)
    requires p in w.probes && Open(w.probes[p].stage) && w.probes[p].target in w.sess
    ensures step in OwnSteps(w)
  {
    if w.probes[p].stage.Awaiting? && w.sess[w.probes[p].target].signal.Answered? then ProbeWake(p) else ProbeFail(p)
  }

  lemma EvictingGoesOn(w: World, s: SessionId) returns (step: Step)
    requires s in w.sess && w.sess[s].pc.Evicting? && Hopeful(w, s)
    requires forall p :: p in w.sess[s].pc.tasks ==> p in w.probes
    ensures step in OwnSteps(w)
  {
    var pc := w.sess[s].pc;
    if p :| p in pc.todo {
      step := EvictNext(s, p);
    } else {
      step := EvictDone(s);
    }
  }

  lemma DrainingGoesOn(w: World, s: SessionId) returns (step: Step)
    requires w in Good && s in w.sess && w.sess[s].pc.Draining?
    ensures step in OwnSteps(w)
  {
    var tasks := w.sess[s].pc.tasks;
    if p :| p in tasks && p in w.probes && Running(w.probes[p].stage) {
      step := ProbeGoesOn(w, p);
    } else {
      step := Drained(s);
    }
  }

  /** The holder of the capacity lock never waits for an address lock. */
  lemma CapacityGoesOn(w: World, s: SessionId) returns (step: Step)
    requires w in Good && w in Lively && s in w.sess && HasTasks(w.sess[s].pc)
    ensures step in OwnSteps(w)
  {
    assert Hopeful(w, s) && SessionProbesOk(w, s);
    match w.sess[s].pc
    case Reclaiming(_, _, _) => step := WaitReturned(s);
    case Evicting(_, _, _, _) => step := EvictingGoesOn(w, s);
    case Draining(_, _, _, _) => step := DrainingGoesOn(w, s);
  }

  lemma ProbingGoesOn(w: World, s: SessionId) returns (step: Step)
    requires w in Good && s in w.sess && w.sess[s].pc.Probing? && Hopeful(w, s)
    ensures step in OwnSteps(w)
  {
    var p := w.sess[s].pc.probe;
    if w.probes[p].stage.Finished? {
      step := ProbeReturned(s);
    } else {
      step := ProbeGoesOn(w, p);
    }
  }

  lemma WaitingGoesOn(w: World, s: SessionId) returns (step: Step)
    requires w in Good && w in Lively && s in w.sess && w.sess[s].pc.CapacityWait?
    ensures step in OwnSteps(w)
  {
    if w.capacity.Some? {
      step := CapacityGoesOn(w, w.capacity.value);
    } else {
      step := FreeCapacityGoesOn(w, s);
    }
  }

  lemma FreeCapacityGoesOn(w: World, s: SessionId) returns (step: Step)
    requires s in w.sess && w.sess[s].pc.CapacityWait? && w.capacity == None
    ensures step in OwnSteps(w)
  {
    var n := Above(w.probes.Keys);
    FreshTasks(w.probes.Keys, w.reg.sessions.Keys, n);
    assert |w.reg.sessions.Keys| == |w.reg.sessions|;
    step := AcquireCapacity(s, TasksFrom(w.reg.sessions.Keys, n));
  }

  lemma HolderGoesOn(w: World, s: SessionId) returns (step: Step)
    requires w in Good && w in Lively && s in w.sess && Holds(w.sess[s].pc)
    ensures step in OwnSteps(w)
  {
    var pc := w.sess[s].pc;
    if HasTasks(pc) {
      step := CapacityGoesOn(w, s);
    } else if pc.Probing? {
      assert Hopeful(w, s);
      step := ProbingGoesOn(w, s);
    } else if pc.CapacityWait? {
      step := WaitingGoesOn(w, s);
    } else if pc.Deciding? {
      var p := Above(w.probes.Keys);
      step := Decide(s, p);
    } else {
      step := if pc.Rechecking? then Recheck(s) else ResponseSent(s);
    }
  }

  /** No deadlock: in every reachable world in which some session is contending for an
      address, a handler or a probe can take a step of its own. */
  lemma NoDeadlock(limit: nat, steps: seq<Step>, w: World, s: SessionId) returns (step: Step)
    requires 1 <= limit <= 254 && Runs(Initial(limit), steps, w)
    requires s in w.sess && Contends(w.sess[s].pc)
    ensures step in OwnSteps(w)
  {
    ReachableIsLively(limit, steps, w);
    step := ContenderGoesOn(w, s);
  }

  lemma ContenderGoesOn(w: World, s: SessionId) returns (step: Step)
    requires w in Good && w in Lively && s in w.sess && Contends(w.sess[s].pc)
    ensures step in OwnSteps(w)
  {
    if Holds(w.sess[s].pc) {
      step := HolderGoesOn(w, s);
    } else if w.sess[s].pc.lock in w.holder {
      assert HeldOk(w.sess, w.holder, w.sess[s].pc.lock);
      step := HolderGoesOn(w, w.holder[w.sess[s].pc.lock]);
    } else {
      step := AcquireLock(s);
    }
  }
}
