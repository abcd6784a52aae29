/** Safety of routing activation over every interleaving. */
module ActivationTheorems {
  import opened Common
  import opened Registry
  import opened Activation
  import opened ActivationInvariant
  import opened ActivationSteps
  import opened ActivationProbes

  // ------------------------------------------------------- one step at a time

  lemma AfterLoopKeeps(w: World, s: SessionId)
    requires w in Good && s in w.sess && w.sess[s].pc.Deciding? && !w.sess[s].closing
    requires Lookup(w.reg, w.sess[s].pc.addr) == None || Lookup(w.reg, w.sess[s].pc.addr) == Some(s)
    ensures AfterLoop(w, s) in Good
  {
    var pc := w.sess[s].pc;
    assert Progress(w, s) && SessionProbesOk(w, s) && EntryOk(w, pc.addr);
    if !w.sess[s].activated && |w.reg.sessions| >= w.reg.maxConnections {
      MoveKeeps(w, s, CapacityWait(pc.addr, pc.lock));
    } else {
      CommitKeeps(w, s);
    }
  }

  lemma ProbeOwner(w: World, s: SessionId, p: ProbeId, owner: SessionId)
    requires w in Good && Enabled(w, Decide(s, p))
    requires Lookup(w.reg, w.sess[s].pc.addr) == Some(owner)
    ensures SetPc(NewProbes(w, s, map[p := w.sess[s].pc.addr]), s,
                      Probing(w.sess[s].pc.addr, w.sess[s].pc.lock, w.sess[s].pc.round, owner, p)) in Good
  {
    var tasks := map[p := w.sess[s].pc.addr];
    NewProbesKeep(w, s, tasks);
    NewProbeTargets(w, s, p, w.sess[s].pc.addr);
    ProbingStarts(NewProbes(w, s, tasks), s, p, owner);
  }

  /** A single new probe aims at the owner of its address. */
  lemma NewProbeTargets(w: World, s: SessionId, p: ProbeId, a: Address)
    requires a in w.reg.sessions && p !in w.probes
    ensures var v := NewProbes(w, s, map[p := a]);
            v.sess == w.sess && v.reg == w.reg && p in v.probes
            && v.probes[p].contender == s && v.probes[p].target == w.reg.sessions[a]
  {
  }

  lemma ProbingStarts(w: World, s: SessionId, p: ProbeId, owner: SessionId)
    requires w in Good && s in w.sess && w.sess[s].pc.Deciding?
    requires p in w.probes && w.probes[p].contender == s && w.probes[p].target == owner
    requires Lookup(w.reg, w.sess[s].pc.addr) == Some(owner)
    ensures SetPc(w, s, Probing(w.sess[s].pc.addr, w.sess[s].pc.lock, w.sess[s].pc.round, owner, p)) in Good
  {
    assert Progress(w, s) && SessionProbesOk(w, s);
    MoveKeeps(w, s, Probing(w.sess[s].pc.addr, w.sess[s].pc.lock, w.sess[s].pc.round, owner, p));
  }

  lemma DecideKeeps(w: World, s: SessionId, p: ProbeId)
    requires w in Good && Enabled(w, Decide(s, p))
    ensures Apply(w, Decide(s, p)) in Good
  {
    var existing := Lookup(w.reg, w.sess[s].pc.addr);
    if w.sess[s].closing {
      LeaveKeeps(w, s);
    } else if existing == None || existing == Some(s) {
      AfterLoopKeeps(w, s);
    } else {
      ProbeOwner(w, s, p, existing.value);
    }
  }

  /** Why an eviction or a denial is recorded: the owner now, and its own finished probe. */
  lemma OutcomeJustified(w: World, e: Event, a: Address, v: SessionId, p: ProbeId)
    requires History(w) && Lookup(w.reg, a) == Some(v)
    requires p in w.probes && ProbeOk(w, p) && w.probes[p].stage.Finished? && w.probes[p].target == v
    requires e == (if w.probes[p].stage.alive then DeniedInUse(w.probes[p].contender, v, a, p)
                   else Evicted(w.probes[p].contender, v, a, p))
    ensures Justified(w.log + [e], |w.log|)
  {
    var log := w.log + [e];
    assert log[..|w.log|] == w.log;
    var j := w.probes[p].stage.at;
    assert log[j] == w.log[j];
  }

  lemma DenyKeeps(w: World, s: SessionId, e: Event)
    requires w in Good && e.DeniedInUse? && Justified(w.log + [e], |w.log|)
    requires s in w.sess && w.sess[s].pc.Probing?
    ensures SetPc(Record(w, e), s, Denying(w.sess[s].pc.addr, w.sess[s].pc.lock, 0x03)) in Good
  {
    var v := Record(w, e);
    RecordKeeps(w, e);
    assert Progress(v, s) && SessionProbesOk(v, s);
    MoveKeeps(v, s, Denying(w.sess[s].pc.addr, w.sess[s].pc.lock, 0x03));
  }

  /** Evicting the owner frees its address before the contender looks again. */
  lemma EvictKeeps(w: World, s: SessionId, e: Event)
    requires w in Good && e.Evicted? && Justified(w.log + [e], |w.log|)
    requires Lookup(w.reg, e.addr) == Some(e.victim) && s in w.sess
    ensures CloseSession(Record(w, e), e.victim) in Good
    ensures e.addr !in CloseSession(Record(w, e), e.victim).reg.sessions
    ensures s in CloseSession(Record(w, e), e.victim).sess
    ensures CloseSession(Record(w, e), e.victim).sess[s].pc == w.sess[s].pc
  {
    RecordKeeps(w, e);
    CloseKeeps(Record(w, e), e.victim);
    assert EntryOk(w, e.addr);
  }

  lemma AgainKeeps(w: World, s: SessionId)
    requires w in Good && s in w.sess && w.sess[s].pc.Probing? && w.sess[s].pc.addr !in w.reg.sessions
    ensures SetPc(w, s, Deciding(w.sess[s].pc.addr, w.sess[s].pc.lock, 1)) in Good
  {
    assert Progress(w, s) && SessionProbesOk(w, s);
    MoveKeeps(w, s, Deciding(w.sess[s].pc.addr, w.sess[s].pc.lock, 1));
  }

  lemma ProbeReturnedKeeps(w: World, s: SessionId)
    requires w in Good && Enabled(w, ProbeReturned(s))
    ensures ProbeReturnedStep(w, s) in Good
  {
    var pc := w.sess[s].pc;
    if w.sess[s].closing {
      LeaveKeeps(w, s);
    } else if Lookup(w.reg, pc.addr) != Some(pc.owner) {
      OwnerGoneKeeps(w, s);
    } else if w.probes[pc.probe].stage.alive {
      OwnerAliveKeeps(w, s);
    } else {
      OwnerDeadKeeps(w, s);
    }
  }

  lemma OwnerGoneKeeps(w: World, s: SessionId)
    requires w in Good && Enabled(w, ProbeReturned(s)) && !w.sess[s].closing
    requires Lookup(w.reg, w.sess[s].pc.addr) != Some(w.sess[s].pc.owner)
    ensures ProbeReturnedStep(w, s) in Good
  {
    ProbingFacts(w, s);
    AgainKeeps(w, s);
  }

  /** While a session waits for its probe, nobody else takes the address. */
  lemma ProbingFacts(w: World, s: SessionId)
    requires w in Good && Enabled(w, ProbeReturned(s))
    ensures var pc := w.sess[s].pc;
            && pc.round == 0
            && (pc.addr in w.reg.sessions ==> w.reg.sessions[pc.addr] == pc.owner)
            && pc.probe in w.probes && w.probes[pc.probe].contender == s && w.probes[pc.probe].target == pc.owner
            && ProbeOk(w, pc.probe) && History(w)
  {
    assert Progress(w, s) && SessionProbesOk(w, s) && ProbeOk(w, w.sess[s].pc.probe);
  }

  lemma OwnerAliveKeeps(w: World, s: SessionId)
    requires w in Good && Enabled(w, ProbeReturned(s)) && !w.sess[s].closing
    requires Lookup(w.reg, w.sess[s].pc.addr) == Some(w.sess[s].pc.owner) && w.probes[w.sess[s].pc.probe].stage.alive
    ensures ProbeReturnedStep(w, s) in Good
  {
    var pc := w.sess[s].pc;
    ProbingFacts(w, s);
    var e := DeniedInUse(s, pc.owner, pc.addr, pc.probe);
    OutcomeJustified(w, e, pc.addr, pc.owner, pc.probe);
    DenyKeeps(w, s, e);
  }

  lemma OwnerDeadKeeps(w: World, s: SessionId)
    requires w in Good && Enabled(w, ProbeReturned(s)) && !w.sess[s].closing
    requires Lookup(w.reg, w.sess[s].pc.addr) == Some(w.sess[s].pc.owner) && !w.probes[w.sess[s].pc.probe].stage.alive
    ensures ProbeReturnedStep(w, s) in Good
  {
    var pc := w.sess[s].pc;
    ProbingFacts(w, s);
    var e := Evicted(s, pc.owner, pc.addr, pc.probe);
    OutcomeJustified(w, e, pc.addr, pc.owner, pc.probe);
    EvictThenAgain(w, s, e);
    OwnerDeadStep(w, s);
  }

  lemma OwnerDeadStep(w: World, s: SessionId)
    requires Enabled(w, ProbeReturned(s)) && !w.sess[s].closing && w.sess[s].pc.round == 0
    requires Lookup(w.reg, w.sess[s].pc.addr) == Some(w.sess[s].pc.owner) && !w.probes[w.sess[s].pc.probe].stage.alive
    ensures var pc := w.sess[s].pc;
            var v := CloseSession(Record(w, Evicted(s, pc.owner, pc.addr, pc.probe)), pc.owner);
            s in v.sess && ProbeReturnedStep(w, s) == SetPc(v, s, Deciding(pc.addr, pc.lock, 1))
  {
  }

  lemma EvictThenAgain(w: World, s: SessionId, e: Event)
    requires w in Good && e.Evicted? && Justified(w.log + [e], |w.log|)
    requires Lookup(w.reg, e.addr) == Some(e.victim) && s in w.sess
    requires w.sess[s].pc.Probing? && w.sess[s].pc.addr == e.addr
    ensures var v := CloseSession(Record(w, e), e.victim);
            s in v.sess && SetPc(v, s, Deciding(e.addr, w.sess[s].pc.lock, 1)) in Good
  {
    EvictKeeps(w, s, e);
    AgainKeeps(CloseSession(Record(w, e), e.victim), s);
  }

  lemma AcquireCapacityKeeps(w: World, s: SessionId, tasks: map<ProbeId, Address>)
    requires w in Good && Enabled(w, AcquireCapacity(s, tasks))
    ensures AcquireCapacityStep(w, s, tasks) in Good
  {
    if w.sess[s].closing {
      LeaveKeeps(w, s);
    } else if |w.reg.sessions| < w.reg.maxConnections {
      RoomKeeps(w, s);
    } else {
      FullKeeps(w, s, tasks);
    }
  }

  lemma RoomKeeps(w: World, s: SessionId)
    requires w in Good && s in w.sess && w.sess[s].pc.CapacityWait?
    ensures SetPc(w, s, Rechecking(w.sess[s].pc.addr, w.sess[s].pc.lock)) in Good
  {
    assert Progress(w, s) && SessionProbesOk(w, s);
    MoveKeeps(w, s, Rechecking(w.sess[s].pc.addr, w.sess[s].pc.lock));
  }

  lemma FullKeeps(w: World, s: SessionId, tasks: map<ProbeId, Address>)
    requires w in Good && Enabled(w, AcquireCapacity(s, tasks)) && !w.sess[s].closing
    requires |w.reg.sessions| >= w.reg.maxConnections
    ensures AcquireCapacityStep(w, s, tasks) in Good
  {
    assert forall p :: p in tasks ==> tasks[p] in tasks.Values;
    CapacityFree(w, s);
    CapacityProbesStart(w.(capacity := Some(s)), s, tasks);
    FullStep(w, s, tasks);
  }

  lemma CapacityProbesStart(w: World, s: SessionId, tasks: map<ProbeId, Address>)
    requires w in Good && s in w.sess && w.sess[s].pc.CapacityWait? && w.capacity == Some(s)
    requires tasks.Keys !! w.probes.Keys && forall p :: p in tasks ==> tasks[p] in w.reg.sessions
    ensures SetPc(NewProbes(w, s, tasks), s, Reclaiming(w.sess[s].pc.addr, w.sess[s].pc.lock, tasks)) in Good
  {
    NewProbesKeep(w, s, tasks);
    ReclaimStarts(NewProbes(w, s, tasks), s, tasks);
  }

  lemma FullStep(w: World, s: SessionId, tasks: map<ProbeId, Address>)
    requires Enabled(w, AcquireCapacity(s, tasks)) && !w.sess[s].closing
    requires |w.reg.sessions| >= w.reg.maxConnections && forall p :: p in tasks ==> tasks[p] in w.reg.sessions
    ensures var v := NewProbes(w.(capacity := Some(s)), s, tasks);
            AcquireCapacityStep(w, s, tasks) == SetPc(v, s, Reclaiming(w.sess[s].pc.addr, w.sess[s].pc.lock, tasks))
  {
  }

  lemma CapacityFree(w: World, s: SessionId)
    requires w in Good && w.capacity == None
    ensures w.(capacity := Some(s)) in Good
  {
    var v := w.(capacity := Some(s));
    OwnershipFrame(w, v);
    LockingStill(w, v);
    forall t | t in v.sess ensures Progress(v, t) {
      assert Progress(w, t);
    }
    ProbesAnyCapacity(w, Some(s));
  }

  /** Probes do not look at the capacity lock. */
  lemma ProbesAnyCapacity(w: World, capacity: Option<SessionId>)
    requires Probes(w)
    ensures Probes(w.(capacity := capacity))
  {
    var v := w.(capacity := capacity);
    forall p | p in v.probes ensures ProbeOk(v, p) {
      assert ProbeOk(w, p);
    }
    forall t | t in v.sess ensures SessionProbesOk(v, t) {
      assert SessionProbesOk(w, t);
    }
  }

  lemma ReclaimStarts(w: World, s: SessionId, tasks: map<ProbeId, Address>)
    requires w in Good && s in w.sess && w.sess[s].pc.CapacityWait? && w.capacity == Some(s)
    requires forall p :: p in tasks ==> p in w.probes && w.probes[p].contender == s
    ensures SetPc(w, s, Reclaiming(w.sess[s].pc.addr, w.sess[s].pc.lock, tasks)) in Good
  {
    assert Progress(w, s) && SessionProbesOk(w, s);
    MoveKeeps(w, s, Reclaiming(w.sess[s].pc.addr, w.sess[s].pc.lock, tasks));
  }

  lemma EvictNextKeeps(w: World, s: SessionId, p: ProbeId)
    requires w in Good && Enabled(w, EvictNext(s, p))
    ensures Apply(w, EvictNext(s, p)) in Good
  {
    var pc := w.sess[s].pc;
    var probe := w.probes[p];
    assert Progress(w, s) && SessionProbesOk(w, s);
    var v := SetPc(w, s, pc.(todo := pc.todo - {p}));
    MoveKeeps(w, s, pc.(todo := pc.todo - {p}));
    if probe.stage.Finished? && !probe.stage.alive && Lookup(w.reg, pc.tasks[p]) == Some(probe.target) {
      var e := Evicted(s, probe.target, pc.tasks[p], p);
      assert ProbeOk(v, p);
      OutcomeJustified(v, e, pc.tasks[p], probe.target, p);
      EvictKeeps(v, s, e);
    }
  }

  /** Leaving the capacity lock when every capacity probe is over. */
  lemma DrainedKeeps(w: World, s: SessionId)
    requires w in Good && Enabled(w, Drained(s))
    ensures Apply(w, Drained(s)) in Good
  {
    var pc := w.sess[s].pc;
    assert Progress(w, s) && SessionProbesOk(w, s);
    if pc.abort {
      LeaveKeeps(w, s);
    } else {
      MoveKeeps(w, s, Rechecking(pc.addr, pc.lock));
      CapacityReleased(SetPc(w, s, Rechecking(pc.addr, pc.lock)), s);
    }
  }

  lemma CapacityReleased(w: World, s: SessionId)
    requires w in Good && w.capacity == Some(s) && s in w.sess && !HasTasks(w.sess[s].pc)
    ensures w.(capacity := None) in Good
  {
    var v := w.(capacity := None);
    OwnershipFrame(w, v);
    LockingStill(w, v);
    forall t | t in v.sess ensures Progress(v, t) {
      assert Progress(w, t);
    }
    ProbesAnyCapacity(w, None);
  }

  lemma RecheckKeeps(w: World, s: SessionId)
    requires w in Good && Enabled(w, Recheck(s))
    ensures Apply(w, Recheck(s)) in Good
  {
    var pc := w.sess[s].pc;
    assert Progress(w, s) && SessionProbesOk(w, s);
    if |w.reg.sessions| >= w.reg.maxConnections {
      MoveKeeps(w, s, Denying(pc.addr, pc.lock, 0x01));
    } else if w.sess[s].closing {
      LeaveKeeps(w, s);
    } else {
      CommitKeeps(w, s);
    }
  }

  lemma CancelKeeps(w: World, s: SessionId)
    requires w in Good && Enabled(w, CancelActivation(s))
    ensures Apply(w, CancelActivation(s)) in Good
  {
    var pc := w.sess[s].pc;
    assert Progress(w, s) && SessionProbesOk(w, s);
    if pc.Probing? {
      CancelProbing(w, s);
    } else if pc.Reclaiming? || pc.Evicting? {
      MoveKeeps(w, s, Draining(pc.addr, pc.lock, pc.tasks, true));
    } else {
      LeaveKeeps(w, s);
    }
  }

  lemma CancelProbing(w: World, s: SessionId)
    requires w in Good && Enabled(w, CancelActivation(s)) && w.sess[s].pc.Probing?
    ensures Leave(EndProbe(w, w.sess[s].pc.probe, None), s) in Good
  {
    var p := w.sess[s].pc.probe;
    var v := EndProbe(w, p, None);
    if Running(w.probes[p].stage) {
      EndKeeps(w, p, None);
    } else {
      // The probe is over and its contender is cancelled before reading the result.
      assert ProbeOk(w, p) && SessionProbesOk(w, w.probes[p].target);
      ForgetResult(w, p);
    }
    EndFrame(w, p, None);
    assert SamePc(w, v, s);
    LeaveKeeps(v, s);
  }

  lemma ForgetResult(w: World, p: ProbeId)
    requires w in Good && p in w.probes && w.probes[p].target in w.sess && !Running(w.probes[p].stage)
    ensures EndProbe(w, p, None) in Good
  {
    var v := EndProbe(w, p, None);
    assert ProbeOk(w, p) && SessionProbesOk(w, w.probes[p].target);
    EndFrame(w, p, None);
    EndOwnership(w, p, None);
    LockingStill(w, v);
    DecisionsShrink(w, v);
    forall q | q in v.probes ensures ProbeOk(v, q) {
      assert ProbeOk(w, q);
    }
    forall t | t in v.sess ensures SessionProbesOk(v, t) {
      assert SessionProbesOk(w, t);
    }
  }

  lemma WaitReturnedKeeps(w: World, s: SessionId)
    requires w in Good && Enabled(w, WaitReturned(s))
    ensures Apply(w, WaitReturned(s)) in Good
  {
    var pc := w.sess[s].pc;
    assert Progress(w, s) && SessionProbesOk(w, s);
    if w.sess[s].closing {
      MoveKeeps(w, s, Draining(pc.addr, pc.lock, pc.tasks, true));
    } else {
      MoveKeeps(w, s, Evicting(pc.addr, pc.lock, pc.tasks, FinishedTasks(w, pc.tasks)));
    }
  }

  lemma EvictDoneKeeps(w: World, s: SessionId)
    requires w in Good && Enabled(w, EvictDone(s))
    ensures Apply(w, EvictDone(s)) in Good
  {
    var pc := w.sess[s].pc;
    assert Progress(w, s) && SessionProbesOk(w, s);
    MoveKeeps(w, s, Draining(pc.addr, pc.lock, pc.tasks, false));
  }

  lemma SocketStepKeeps(w: World, step: Step)
    requires w in Good && Enabled(w, step) && (step.Reserve? || step.ReleaseSocket?)
    ensures Apply(w, step) in Good
  {
    ShrinkingKeepsSize(w.reg.openSockets, step.s);
    SocketsKeep(w, Apply(w, step).reg);
  }

  lemma WakeKeeps(w: World, p: ProbeId)
    requires w in Good && Enabled(w, ProbeWake(p))
    ensures Apply(w, ProbeWake(p)) in Good
  {
    assert ProbeOk(w, p);
    EndKeeps(w, p, Some(!w.sess[w.probes[p].target].closing));
  }

  lemma StepKeeps(w: World, step: Step)
    requires w in Good && Enabled(w, step)
    ensures Apply(w, step) in Good
  {
    match step
    case Reserve(s) => SocketStepKeeps(w, step);
    case Attach(s) => AttachKeeps(w, s);
    case ReleaseSocket(s) => SocketStepKeeps(w, step);
    case Request(s, a) => RequestKeeps(w, s, a);
    case AcquireLock(s) => AcquireLockKeeps(w, s);
    case Decide(s, p) => DecideKeeps(w, s, p);
    case ProbeReturned(s) => ProbeReturnedKeeps(w, s);
    case AcquireCapacity(s, tasks) => AcquireCapacityKeeps(w, s, tasks);
    case WaitReturned(s) => WaitReturnedKeeps(w, s);
    case EvictNext(s, p) => EvictNextKeeps(w, s, p);
    case EvictDone(s) => EvictDoneKeeps(w, s);
    case Drained(s) => DrainedKeeps(w, s);
    case Recheck(s) => RecheckKeeps(w, s);
    case ResponseSent(s) => LeaveKeeps(w, s);
    case CancelActivation(s) => CancelKeeps(w, s);
    case Close(s) => CloseKeeps(w, s);
    case ProbeStart(p) => StartKeeps(w, p);
    case ProbeSent(p) => SentKeeps(w, p);
    case ProbeFail(p) => EndKeeps(w, p, Some(false));
    case ProbeWake(p) => WakeKeeps(w, p);
    case ProbeCancel(p) => EndKeeps(w, p, None);
    case AliveReply(s, payload) => ReplyKeeps(w, s, payload);
  }

  lemma InitialOk(maxConnections: nat)
    requires 1 <= maxConnections <= 254
    ensures Initial(maxConnections) in Good
  {
    var w := Initial(maxConnections);
    assert Locking(w) && Ownership(w) && Decisions(w) && Probes(w) && History(w);
  }

  // -------------------------------------------------------------- whole runs

  lemma {:induction false} RunKeeps(w: World, steps: seq<Step>, last: World)
    requires w in Good && Runs(w, steps, last)
    ensures last in Good
    decreases |steps|
  {
    if steps != [] {
      StepKeeps(w, steps[0]);
      RunKeeps(Apply(w, steps[0]), steps[1..], last);
    }
  }

  /** Exclusive ownership: in every interleaving the active session of an address
      is exactly its registry entry, so there is at most one. */
  lemma ExclusiveOwnership(limit: nat, steps: seq<Step>, w: World)
    requires 1 <= limit <= 254 && Runs(Initial(limit), steps, w)
    ensures forall s, a :: Owns(w, s, a) <==> a in w.reg.sessions && w.reg.sessions[a] == s
    ensures forall s, t, a :: Owns(w, s, a) && Owns(w, t, a) ==> s == t
    ensures forall s :: s in w.sess && w.sess[s].activated && !w.sess[s].closing ==> w.sess[s].addr.Some?
  {
    InitialOk(limit);
    RunKeeps(Initial(limit), steps, w);
    forall s, a ensures Owns(w, s, a) <==> a in w.reg.sessions && w.reg.sessions[a] == s {
      assert RegisteredIfActive(w, s) && EntryOk(w, a);
    }
    forall s | s in w.sess && w.sess[s].activated && !w.sess[s].closing ensures w.sess[s].addr.Some? {
      assert RegisteredIfActive(w, s);
    }
  }

  lemma {:induction false} MaxConnectionsFixed(w: World, steps: seq<Step>, last: World)
    requires Runs(w, steps, last)
    ensures last.reg.maxConnections == w.reg.maxConnections
    decreases |steps|
  {
    if steps != [] {
      MaxConnectionsFixed(Apply(w, steps[0]), steps[1..], last);
    }
  }

  /** Capacity: neither the registered sessions nor the admitted sockets overflow,
      although only the full branch takes the capacity lock. */
  lemma CapacitySafety(limit: nat, steps: seq<Step>, w: World)
    requires 1 <= limit <= 254 && Runs(Initial(limit), steps, w)
    ensures |w.reg.sessions| <= limit
    ensures |w.reg.openSockets| <= limit + 1 <= 255
  {
    InitialOk(limit);
    RunKeeps(Initial(limit), steps, w);
    MaxConnectionsFixed(Initial(limit), steps, w);
  }

  /** One lock per contended address: contenders share it, its reference count is
      their number, and at most one of them is past it. */
  lemma SharedLock(limit: nat, steps: seq<Step>, w: World, s: SessionId, t: SessionId)
    requires 1 <= limit <= 254 && Runs(Initial(limit), steps, w)
    requires s in w.sess && t in w.sess && Contends(w.sess[s].pc) && Contends(w.sess[t].pc)
    requires w.sess[s].pc.addr == w.sess[t].pc.addr
    ensures w.sess[s].pc.lock == w.sess[t].pc.lock
    ensures w.sess[s].pc.addr in w.reg.locks
    ensures w.reg.locks[w.sess[s].pc.addr].users == |Users(w.sess, w.sess[s].pc.addr)|
    ensures Holds(w.sess[s].pc) && Holds(w.sess[t].pc) ==> s == t
  {
    InitialOk(limit);
    RunKeeps(Initial(limit), steps, w);
    var a := w.sess[s].pc.addr;
    assert UsesTableLock(w.sess, w.reg.locks, s) && UsesTableLock(w.sess, w.reg.locks, t);
    assert CountOk(w.sess, w.reg.locks, w.nextLock, a);
    if Holds(w.sess[s].pc) && Holds(w.sess[t].pc) {
      OneHolder(w, s, t);
    }
  }

  /** Conflict-loop termination: a second pass always leaves the loop, so an
      activation decides at most twice and probes the owner at most once. */
  lemma ConflictLoopBound(limit: nat, steps: seq<Step>, w: World, s: SessionId, p: ProbeId)
    requires 1 <= limit <= 254 && Runs(Initial(limit), steps, w) && Enabled(w, Decide(s, p))
    ensures w.sess[s].pc.round <= 1
    ensures w.sess[s].pc.round == 1 ==>
              var pc := Apply(w, Decide(s, p)).sess[s].pc;
              pc.Idle? || pc.CapacityWait? || pc.Confirming?
    ensures w.sess[s].pc.round == 1 ==> Apply(w, Decide(s, p)).probes == w.probes
  {
    InitialOk(limit);
    RunKeeps(Initial(limit), steps, w);
    assert Progress(w, s);
    SecondPassLeaves(w, s, p);
  }

  lemma SecondPassLeaves(w: World, s: SessionId, p: ProbeId)
    requires Enabled(w, Decide(s, p)) && (w.sess[s].pc.round == 1 ==> w.sess[s].pc.addr !in w.reg.sessions)
    ensures w.sess[s].pc.round == 1 ==>
              var pc := DecideStep(w, s, p).sess[s].pc;
              pc.Idle? || pc.CapacityWait? || pc.Confirming?
    ensures w.sess[s].pc.round == 1 ==> DecideStep(w, s, p).probes == w.probes
  {
  }

  /** Justified eviction and denial, read off the history of any interleaving: an
      evicted session owned the address at that instant and a probe of it by the
      same contender had already ended without an alive result; code 0x03 goes out
      only when that probe of the current owner had ended alive; and a probe ends
      alive only on a reply with the registered address inside its own window. */
  lemma EveryOutcomeJustified(limit: nat, steps: seq<Step>, w: World)
    requires 1 <= limit <= 254 && Runs(Initial(limit), steps, w)
    ensures forall i :: 0 <= i < |w.log| ==> Justified(w.log, i)
    ensures w.reg.sessions == Owners(w.log)
  {
    InitialOk(limit);
    RunKeeps(Initial(limit), steps, w);
  }
}
