/** Contention ends: left to themselves, handlers and probes always come to rest, and then
    nobody contends for an address any more. */
module ActivationTermination {
  import opened Common
  import opened Registry
  import opened Activation
  import opened ActivationInvariant
  import opened ActivationTheorems
  import opened ActivationProgress
  import opened Sums

  // ---------------------------------------------------------------- the measure

  /** An upper bound on the steps a handler can still take, probes it starts included:
      at most one for its address, one for each of at most 254 registered sessions. */
  function HandlerWork(pc: Pc): nat {
    match pc
    case Idle => 0
    case Waiting(_, _) => 1041
    case Deciding(_, _, round) => if round == 0 then 1040 else 1031
    case Probing(_, _, _, _, _) => 1035
    case CapacityWait(_, _) => 1030
    case Reclaiming(_, _, tasks) => 5 + |tasks|
    case Evicting(_, _, _, todo) => 4 + |todo|
    case Draining(_, _, _, _) => 3
    case Rechecking(_, _) => 2
    case Denying(_, _, _) => 1
    case Confirming(_, _) => 1
  }

  function ProbeWork(stage: Stage): nat {
    match stage
    case Queued => 3
    case Sending(_) => 2
    case Awaiting(_) => 1
    case Finished(_, _) => 0
    case Cancelled => 0
  }

  ghost function Handlers(w: World): map<nat, nat> {
    map s | s in w.sess :: HandlerWork(w.sess[s].pc)
  }

  ghost function ProbesLeft(w: World): map<nat, nat> {
    map p | p in w.probes :: ProbeWork(w.probes[p].stage)
  }

  ghost function Work(w: World): nat { Sum(Handlers(w)) + Sum(ProbesLeft(w)) }

  // ------------------------------------------------------------------ each step

  /** Handler `s` moves to a place with less work and nothing else changes it. */
  lemma HandlerMoves(w: World, v: World, s: SessionId)
    requires s in w.sess && s in v.sess && Handlers(v) == Handlers(w)[s := HandlerWork(v.sess[s].pc)]
    requires ProbesLeft(v) == ProbesLeft(w) && HandlerWork(v.sess[s].pc) < HandlerWork(w.sess[s].pc)
    ensures Work(v) < Work(w)
  {
    SumChanged(Handlers(w), s, HandlerWork(v.sess[s].pc));
  }

  /** Probe `p` moves on. */
  lemma ProbeMoves(w: World, v: World, p: ProbeId)
    requires p in w.probes && p in v.probes && ProbesLeft(v) == ProbesLeft(w)[p := ProbeWork(v.probes[p].stage)]
    requires Handlers(v) == Handlers(w) && ProbeWork(v.probes[p].stage) < ProbeWork(w.probes[p].stage)
    ensures Work(v) < Work(w)
  {
    SumChanged(ProbesLeft(w), p, ProbeWork(v.probes[p].stage));
  }

  lemma StartedShape(w: World, s: SessionId, tasks: map<ProbeId, Address>)
    requires tasks.Keys !! w.probes.Keys && forall p :: p in tasks ==> tasks[p] in w.reg.sessions
    ensures ProbesLeft(NewProbes(w, s, tasks)) == ProbesLeft(w) + Each(tasks.Keys, 3)
    ensures Handlers(NewProbes(w, s, tasks)) == Handlers(w)
  {
    var v := NewProbes(w, s, tasks);
    forall p | p in v.probes ensures v.probes[p].stage == if p in tasks then Queued else w.probes[p].stage {}
  }

  lemma StartedProbes(w: World, s: SessionId, tasks: map<ProbeId, Address>)
    requires tasks.Keys !! w.probes.Keys && forall p :: p in tasks ==> tasks[p] in w.reg.sessions
    ensures Sum(ProbesLeft(NewProbes(w, s, tasks))) == Sum(ProbesLeft(w)) + 3 * |tasks|
    ensures Handlers(NewProbes(w, s, tasks)) == Handlers(w)
  {
    StartedShape(w, s, tasks);
    SumAdded(ProbesLeft(w), tasks.Keys, 3);
    assert |tasks.Keys| == |tasks|;
  }

  /** Handler `s` starts probes for which it had kept enough in reserve. */
  lemma HandlerStarts(w: World, s: SessionId, tasks: map<ProbeId, Address>, pc: Pc)
    requires s in w.sess && tasks.Keys !! w.probes.Keys && forall p :: p in tasks ==> tasks[p] in w.reg.sessions
    requires HandlerWork(pc) + 3 * |tasks| < HandlerWork(w.sess[s].pc)
    ensures Work(SetPc(NewProbes(w, s, tasks), s, pc)) < Work(w)
  {
    var u := NewProbes(w, s, tasks);
    StartedProbes(w, s, tasks);
    var v := SetPc(u, s, pc);
    assert Handlers(v) == Handlers(u)[s := HandlerWork(pc)] && ProbesLeft(v) == ProbesLeft(u);
    SumChanged(Handlers(u), s, HandlerWork(pc));
  }

  lemma LeaveEnds(w: World, s: SessionId)
    requires s in w.sess && Contends(w.sess[s].pc)
    ensures Work(Leave(w, s)) < Work(w)
  {
    HandlerMoves(w, Leave(w, s), s);
  }

  lemma MoveEnds(w: World, s: SessionId, pc: Pc)
    requires s in w.sess && HandlerWork(pc) < HandlerWork(w.sess[s].pc)
    ensures Work(SetPc(w, s, pc)) < Work(w)
  {
    HandlerMoves(w, SetPc(w, s, pc), s);
  }

  /** Closing a session and recording events leave all work as it is. */
  lemma CloseSameWork(w: World, e: Event, x: SessionId)
    ensures Handlers(CloseSession(Record(w, e), x)) == Handlers(w)
    ensures ProbesLeft(CloseSession(Record(w, e), x)) == ProbesLeft(w)
    ensures forall t :: t in w.sess ==> t in CloseSession(Record(w, e), x).sess && CloseSession(Record(w, e), x).sess[t].pc == w.sess[t].pc
  {
  }

  lemma EndEnds(w: World, p: ProbeId, alive: Option<bool>)
    requires p in w.probes && w.probes[p].target in w.sess && Running(w.probes[p].stage)
    ensures Work(EndProbe(w, p, alive)) < Work(w)
  {
    ProbeMoves(w, EndProbe(w, p, alive), p);
  }

  lemma DecideEnds(w: World, s: SessionId, p: ProbeId)
    requires w in Good && Enabled(w, Decide(s, p))
    ensures Work(DecideStep(w, s, p)) < Work(w)
  {
    var pc := w.sess[s].pc;
    var existing := Lookup(w.reg, pc.addr);
    assert Progress(w, s);
    if w.sess[s].closing {
      LeaveEnds(w, s);
    } else if existing == None || existing == Some(s) {
      AfterLoopEnds(w, s);
    } else {
      OwnerProbeEnds(w, s, p, existing.value);
    }
  }

  lemma OwnerProbeEnds(w: World, s: SessionId, p: ProbeId, owner: SessionId)
    requires Enabled(w, Decide(s, p)) && w.sess[s].pc.round == 0 && Lookup(w.reg, w.sess[s].pc.addr) == Some(owner)
    ensures Work(SetPc(NewProbes(w, s, map[p := w.sess[s].pc.addr]), s,
                       Probing(w.sess[s].pc.addr, w.sess[s].pc.lock, 0, owner, p))) < Work(w)
  {
    var pc := w.sess[s].pc;
    var tasks: map<ProbeId, Address> := map[p := pc.addr];
    assert |tasks| == 1;
    HandlerStarts(w, s, tasks, Probing(pc.addr, pc.lock, 0, owner, p));
  }

  lemma AfterLoopEnds(w: World, s: SessionId)
    requires s in w.sess && w.sess[s].pc.Deciding?
    ensures Work(AfterLoop(w, s)) < Work(w)
  {
    var pc := w.sess[s].pc;
    if !w.sess[s].activated && |w.reg.sessions| >= w.reg.maxConnections {
      MoveEnds(w, s, CapacityWait(pc.addr, pc.lock));
    } else if w.sess[s].closing {
      LeaveEnds(w, s);
    } else {
      CommitEnds(w, s);
    }
  }

  lemma CommitEnds(w: World, s: SessionId)
    requires s in w.sess && HandlerWork(w.sess[s].pc) > 1
    ensures Work(Commit(w, s)) < Work(w)
  {
    HandlerMoves(w, Commit(w, s), s);
  }

  lemma ProbeReturnedEnds(w: World, s: SessionId)
    requires Enabled(w, ProbeReturned(s)) && w.sess[s].pc.round == 0
    ensures Work(ProbeReturnedStep(w, s)) < Work(w)
  {
    var pc := w.sess[s].pc;
    if w.sess[s].closing {
      LeaveEnds(w, s);
    } else if Lookup(w.reg, pc.addr) != Some(pc.owner) {
      MoveEnds(w, s, Deciding(pc.addr, pc.lock, 1));
    } else if w.probes[pc.probe].stage.alive {
      DeniedEnds(w, s, DeniedInUse(s, pc.owner, pc.addr, pc.probe));
    } else {
      EvictedEnds(w, s);
      OwnerDeadStep(w, s);
    }
  }

  lemma DeniedEnds(w: World, s: SessionId, e: Event)
    requires s in w.sess && w.sess[s].pc.Probing?
    ensures Work(SetPc(Record(w, e), s, Denying(w.sess[s].pc.addr, w.sess[s].pc.lock, 0x03))) < Work(w)
  {
    var u := Record(w, e);
    assert Handlers(u) == Handlers(w) && ProbesLeft(u) == ProbesLeft(w);
    MoveEnds(u, s, Denying(w.sess[s].pc.addr, w.sess[s].pc.lock, 0x03));
  }

  lemma EvictedEnds(w: World, s: SessionId)
    requires s in w.sess && w.sess[s].pc.Probing?
    ensures var pc := w.sess[s].pc;
            var u := CloseSession(Record(w, Evicted(s, pc.owner, pc.addr, pc.probe)), pc.owner);
            s in u.sess && Work(SetPc(u, s, Deciding(pc.addr, pc.lock, 1))) < Work(w)
  {
    var pc := w.sess[s].pc;
    var e := Evicted(s, pc.owner, pc.addr, pc.probe);
    CloseSameWork(w, e, pc.owner);
    MoveEnds(CloseSession(Record(w, e), pc.owner), s, Deciding(pc.addr, pc.lock, 1));
  }

  lemma AcquireCapacityEnds(w: World, s: SessionId, tasks: map<ProbeId, Address>)
    requires w in Good && Enabled(w, AcquireCapacity(s, tasks))
    ensures Work(AcquireCapacityStep(w, s, tasks)) < Work(w)
  {
    var pc := w.sess[s].pc;
    assert Bounded(w.reg);
    if w.sess[s].closing {
      LeaveEnds(w, s);
    } else if |w.reg.sessions| < w.reg.maxConnections {
      MoveEnds(w, s, Rechecking(pc.addr, pc.lock));
    } else {
      assert forall p :: p in tasks ==> tasks[p] in tasks.Values;
      CapacityProbesEnd(w, s, tasks);
      FullStep(w, s, tasks);
    }
  }

  lemma CapacityProbesEnd(w: World, s: SessionId, tasks: map<ProbeId, Address>)
    requires s in w.sess && w.sess[s].pc.CapacityWait? && |tasks| <= 254
    requires tasks.Keys !! w.probes.Keys && forall p :: p in tasks ==> tasks[p] in w.reg.sessions
    ensures Work(SetPc(NewProbes(w.(capacity := Some(s)), s, tasks), s,
                       Reclaiming(w.sess[s].pc.addr, w.sess[s].pc.lock, tasks))) < Work(w)
  {
    var u := w.(capacity := Some(s));
    assert Handlers(u) == Handlers(w) && ProbesLeft(u) == ProbesLeft(w);
    HandlerStarts(u, s, tasks, Reclaiming(w.sess[s].pc.addr, w.sess[s].pc.lock, tasks));
  }

  lemma WaitReturnedEnds(w: World, s: SessionId)
    requires Enabled(w, WaitReturned(s))
    ensures Work(WaitReturnedStep(w, s)) < Work(w)
  {
    var pc := w.sess[s].pc;
    NotMore(FinishedTasks(w, pc.tasks), pc.tasks.Keys);
    assert |pc.tasks.Keys| == |pc.tasks|;
    HandlerMoves(w, WaitReturnedStep(w, s), s);
  }

  lemma {:induction false} NotMore(a: set<ProbeId>, b: set<ProbeId>)
    requires a <= b
    ensures |a| <= |b|
    decreases |b|
  {
    if x :| x in b {
      NotMore(a - {x}, b - {x});
    }
  }

  lemma EvictNextEnds(w: World, s: SessionId, p: ProbeId)
    requires Enabled(w, EvictNext(s, p))
    ensures Work(EvictNextStep(w, s, p)) < Work(w)
  {
    var pc := w.sess[s].pc;
    var w1 := SetPc(w, s, pc.(todo := pc.todo - {p}));
    MoveEnds(w, s, pc.(todo := pc.todo - {p}));
    var probe := w.probes[p];
    CloseSameWork(w1, Evicted(s, probe.target, pc.tasks[p], p), probe.target);
  }

  lemma RecheckEnds(w: World, s: SessionId)
    requires Enabled(w, Recheck(s))
    ensures Work(RecheckStep(w, s)) < Work(w)
  {
    if |w.reg.sessions| >= w.reg.maxConnections {
      MoveEnds(w, s, Denying(w.sess[s].pc.addr, w.sess[s].pc.lock, 0x01));
    } else if w.sess[s].closing {
      LeaveEnds(w, s);
    } else {
      CommitEnds(w, s);
    }
  }

  lemma ProbeStartEnds(w: World, p: ProbeId)
    requires Enabled(w, ProbeStart(p))
    ensures Work(ProbeStartStep(w, p)) < Work(w)
  {
    var x := w.sess[w.probes[p].target];
    if x.closing || !x.activated || x.addr.None? {
      EndEnds(w, p, Some(false));
    } else {
      ProbeMoves(w, ProbeStartStep(w, p), p);
    }
  }

  lemma ProbeStepEnds(w: World, step: Step)
    requires Enabled(w, step) && (step.ProbeStart? || step.ProbeSent? || step.ProbeFail? || step.ProbeWake? || step.ProbeCancel?)
    ensures Work(Apply(w, step)) < Work(w)
  {
    match step
    case ProbeStart(p) => ProbeStartEnds(w, p);
    case ProbeSent(p) => ProbeMoves(w, Apply(w, step), p);
    case ProbeFail(p) => EndEnds(w, p, Some(false));
    case ProbeWake(p) => EndEnds(w, p, Some(!w.sess[w.probes[p].target].closing));
    case ProbeCancel(p) => EndEnds(w, p, None);
  }

  lemma AcquireLockEnds(w: World, s: SessionId)
    requires Enabled(w, AcquireLock(s))
    ensures Work(Apply(w, AcquireLock(s))) < Work(w)
  {
    var pc := w.sess[s].pc;
    var u := w.(holder := w.holder[pc.lock := s]);
    assert Handlers(u) == Handlers(w) && ProbesLeft(u) == ProbesLeft(w);
    MoveEnds(u, s, Deciding(pc.addr, pc.lock, 0));
  }

  lemma DrainedEnds(w: World, s: SessionId)
    requires Enabled(w, Drained(s))
    ensures Work(DrainedStep(w, s)) < Work(w)
  {
    var pc := w.sess[s].pc;
    if pc.abort {
      LeaveEnds(w, s);
    } else {
      var u := w.(capacity := None);
      assert Handlers(u) == Handlers(w) && ProbesLeft(u) == ProbesLeft(w);
      MoveEnds(u, s, Rechecking(pc.addr, pc.lock));
    }
  }

  predicate DecisionStep(step: Step) { step.Decide? || step.ProbeReturned? || step.AcquireCapacity? || step.EvictNext? }

  lemma DecisionEnds(w: World, step: Step)
    requires w in Good && Enabled(w, step) && DecisionStep(step)
    ensures Work(Apply(w, step)) < Work(w)
  {
    match step
    case Decide(s, p) => DecideEnds(w, s, p);
    case ProbeReturned(s) =>
      assert Progress(w, s);
      ProbeReturnedEnds(w, s);
    case AcquireCapacity(s, tasks) => AcquireCapacityEnds(w, s, tasks);
    case EvictNext(s, p) => EvictNextEnds(w, s, p);
  }

  lemma WorkShrinks(w: World, step: Step)
    requires w in Good && Enabled(w, step) && OwnStep(step)
    ensures Work(Apply(w, step)) < Work(w)
  {
    if DecisionStep(step) {
      DecisionEnds(w, step);
    } else if step.AcquireLock? {
      AcquireLockEnds(w, step.s);
    } else if step.EvictDone? {
      var pc := w.sess[step.s].pc;
      MoveEnds(w, step.s, Draining(pc.addr, pc.lock, pc.tasks, false));
    } else if step.Drained? {
      DrainedEnds(w, step.s);
    } else if step.WaitReturned? {
      WaitReturnedEnds(w, step.s);
    } else if step.Recheck? {
      RecheckEnds(w, step.s);
    } else if step.ResponseSent? {
      LeaveEnds(w, step.s);
    } else {
      ProbeStepEnds(w, step);
    }
  }

  // -------------------------------------------------------------------- theorem

  lemma {:induction false} OwnRunBounded(w: World, own: seq<Step>, last: World)
    requires w in Good && w in Lively && Runs(w, own, last) && forall i :: 0 <= i < |own| ==> OwnStep(own[i])
    ensures |own| + Work(last) <= Work(w)
    decreases |own|
  {
    if own != [] {
      WorkShrinks(w, own[0]);
      LivelyStep(w, own[0]);
      StepKeeps(w, own[0]);
      OwnRunBounded(Apply(w, own[0]), own[1..], last);
    }
  }

  /** Everybody leaves.  From every reachable world, handlers and probes left to themselves
      cannot go on for ever, and when none of them has a step to take no session contends
      for an address any more. */
  lemma EverybodyLeaves(limit: nat, steps: seq<Step>, w: World, own: seq<Step>, last: World, s: SessionId)
    requires 1 <= limit <= 254 && Runs(Initial(limit), steps, w)
    requires Runs(w, own, last) && forall i :: 0 <= i < |own| ==> OwnStep(own[i])
    ensures |own| <= Work(w)
    ensures OwnSteps(last) == iset{} && s in last.sess ==> last.sess[s].pc.Idle?
  {
    ReachableIsLively(limit, steps, w);
    OwnRunBounded(w, own, last);
    LivelyRun(w, own, last);
    if s in last.sess && !last.sess[s].pc.Idle? {
      var step := ContenderGoesOn(last, s);
    }
  }
}
