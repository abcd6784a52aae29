/** What comes of each decision of the activation protocol, in every reachable world: who
    is admitted, who is asked, who is turned away and who has to go. */
module ActivationOutcomes {
  import opened Common
  import opened Registry
  import opened Activation
  import opened ActivationInvariant
  import opened ActivationTheorems

  ghost predicate Reachable(w: World) {
    exists limit: nat, steps :: 1 <= limit <= 254 && Runs(Initial(limit), steps, w)
  }

  lemma ReachableIsGood(w: World)
    requires Reachable(w)
    ensures w in Good
  {
    var limit: nat, steps :| 1 <= limit <= 254 && Runs(Initial(limit), steps, w);
    InitialOk(limit);
    RunKeeps(Initial(limit), steps, w);
  }

  /** A tester that answers counts as alive: once the open target of a waiting probe has
      sent the two bytes of its own address, the probe cannot fail any more, and when it
      wakes it is alive. */
  lemma AnsweringTesterIsAlive(w: World, p: ProbeId)
    requires Reachable(w) && p in w.probes && w.probes[p].stage.Awaiting?
    requires w.probes[p].target in w.sess && !w.sess[w.probes[p].target].closing
    requires exists k, a :: w.probes[p].stage.at < k < |w.log| && w.sess[w.probes[p].target].addr == Some(a)
               && ReplyFrom(w.log[k], w.probes[p].target, a)
    ensures Enabled(w, ProbeWake(p)) && !Enabled(w, ProbeFail(p))
    ensures Apply(w, ProbeWake(p)).probes[p].stage == Finished(true, |w.log|)
  {
    ReachableIsGood(w);
    assert ProbeOk(w, p);
  }

  /** And one that does not answer is not: a probe that runs out, or whose target is
      closing, ends dead. */
  lemma SilentTesterIsDead(w: World, p: ProbeId)
    requires p in w.probes && w.probes[p].target in w.sess
    ensures Enabled(w, ProbeFail(p)) ==> Apply(w, ProbeFail(p)).probes[p].stage == Finished(false, |w.log|)
    ensures Enabled(w, ProbeWake(p)) && w.sess[w.probes[p].target].closing ==>
              Apply(w, ProbeWake(p)).probes[p].stage == Finished(false, |w.log|)
  {
  }

  /** Only the registered tester's own two bytes are an answer. */
  lemma AnswersExactly(w: World, s: SessionId, payload: Bytes)
    requires Enabled(w, AliveReply(s, payload)) && w.sess[s].signal.Armed?
    ensures var v := Apply(w, AliveReply(s, payload));
            && (v.sess[s].signal.Answered? <==>
                !w.sess[s].closing && w.sess[s].activated && |payload| == 2
                && w.sess[s].addr == Some(256 * (payload[0] as int) + payload[1]))
            && (!v.sess[s].signal.Answered? ==> v.sess == w.sess) && v.reg == w.reg && v.probes == w.probes
  {
  }

  /** A probe of an active, open session goes out and opens its window at the session's
      address; any other probe ends at once. */
  lemma ProbesExactly(w: World, p: ProbeId)
    requires Enabled(w, ProbeStart(p))
    ensures var v := Apply(w, ProbeStart(p));
            var t := w.probes[p].target;
            var x := w.sess[t];
            if x.activated && !x.closing && x.addr.Some? then
              v.probes[p].stage == Sending(|w.log|) && v.log == w.log + [Opened(p, t, x.addr.value)]
              && v.sess[t] == x.(probeOwner := Some(p), signal := Armed)
            else v.probes[p].stage == Finished(false, |w.log|)
  {
  }

  /** `s` now owns `a`, is told so, and nobody else's address changed hands. */
  ghost predicate Admitted(w: World, v: World, s: SessionId, a: Address) {
    && Owns(v, s, a) && v.sess[s].pc.Confirming? && v.sess[s].pc.addr == a
    && v.reg.sessions == w.reg.sessions[a := s] && v.log == w.log + [Registered(s, a)]
    && forall t :: t in w.sess && t != s ==> t in v.sess && v.sess[t] == w.sess[t]
  }

  ghost predicate Foreign(w: World, s: SessionId, a: Address) { a in w.reg.sessions && w.reg.sessions[a] != s }

  /** A pass of the conflict loop by an open session: another owner is asked, ... */
  lemma OtherOwnerIsAsked(w: World, s: SessionId, p: ProbeId)
    requires Enabled(w, Decide(s, p)) && !w.sess[s].closing && Foreign(w, s, w.sess[s].pc.addr)
    ensures var v := Apply(w, Decide(s, p));
            var owner := w.reg.sessions[w.sess[s].pc.addr];
            && v.probes == w.probes[p := Probe(s, owner, Queued)] && v.reg == w.reg
            && v.sess[s].pc.Probing? && v.sess[s].pc.owner == owner && v.sess[s].pc.probe == p
  {
  }

  /** ... a free address, or the session's own, is taken if there is room, ... */
  lemma RoomAdmits(w: World, s: SessionId, p: ProbeId)
    requires Enabled(w, Decide(s, p)) && !w.sess[s].closing && !Foreign(w, s, w.sess[s].pc.addr)
    requires w.sess[s].activated || |w.reg.sessions| < w.reg.maxConnections
    ensures Admitted(w, Apply(w, Decide(s, p)), s, w.sess[s].pc.addr)
  {
    CommitAdmits(w, s);
    assert Apply(w, Decide(s, p)) == Commit(w, s);
  }

  lemma CommitAdmits(w: World, s: SessionId)
    requires s in w.sess && Contends(w.sess[s].pc) && !w.sess[s].closing
    ensures Admitted(w, Commit(w, s), s, w.sess[s].pc.addr)
  {
  }

  /** ... and without room the session waits for capacity. */
  lemma FullWaits(w: World, s: SessionId, p: ProbeId)
    requires Enabled(w, Decide(s, p)) && !w.sess[s].closing && !Foreign(w, s, w.sess[s].pc.addr)
    requires !w.sess[s].activated && |w.reg.sessions| >= w.reg.maxConnections
    ensures var v := Apply(w, Decide(s, p)); v.reg == w.reg && v.sess[s].pc.CapacityWait? && v.probes == w.probes
  {
  }

  // -------------------------------------------------------------- after a probe

  ghost predicate OwnerStill(w: World, s: SessionId)
    requires s in w.sess && w.sess[s].pc.Probing?
  {
    w.sess[s].pc.addr in w.reg.sessions && w.reg.sessions[w.sess[s].pc.addr] == w.sess[s].pc.owner
  }

  /** An open contender whose probe is over turns back if the owner changed, ... */
  lemma ChangedOwnerIsLeft(w: World, s: SessionId)
    requires Enabled(w, ProbeReturned(s)) && !w.sess[s].closing && !OwnerStill(w, s)
    ensures var v := Apply(w, ProbeReturned(s)); v.reg == w.reg && v.log == w.log && v.sess[s].pc.Deciding?
  {
  }

  /** ... is denied with 0x03 if the owner was alive, which keeps its address, ... */
  lemma AliveOwnerStays(w: World, s: SessionId)
    requires Enabled(w, ProbeReturned(s)) && !w.sess[s].closing && OwnerStill(w, s)
    requires w.probes[w.sess[s].pc.probe].stage.alive
    ensures var v := Apply(w, ProbeReturned(s));
            var pc := w.sess[s].pc;
            && v.reg == w.reg && v.sess == w.sess[s := w.sess[s].(pc := Denying(pc.addr, pc.lock, 0x03))]
  {
  }

  /** ... and otherwise the owner is closed and its address is free for the contender. */
  lemma DeadOwnerGoes(w: World, s: SessionId)
    requires Reachable(w) && Enabled(w, ProbeReturned(s)) && !w.sess[s].closing && OwnerStill(w, s)
    requires !w.probes[w.sess[s].pc.probe].stage.alive
    ensures var v := Apply(w, ProbeReturned(s));
            var pc := w.sess[s].pc;
            && pc.owner in w.sess && pc.owner in v.sess && s in v.sess
            && v.reg.sessions == w.reg.sessions - {pc.addr} && v.sess[pc.owner].closing && pc.owner !in v.reg.openSockets
            && v.sess[s].pc.Deciding? && (pc.owner != s ==> !v.sess[s].closing)
  {
    ReachableIsGood(w);
    var pc := w.sess[s].pc;
    assert EntryOk(w, pc.addr);
    var e := Evicted(s, pc.owner, pc.addr, pc.probe);
    ClosingOwner(Record(w, e), pc.owner, pc.addr);
    DeadOwnerStep(w, s, e);
  }

  lemma DeadOwnerStep(w: World, s: SessionId, e: Event)
    requires Enabled(w, ProbeReturned(s)) && !w.sess[s].closing && OwnerStill(w, s)
    requires !w.probes[w.sess[s].pc.probe].stage.alive
    requires e == Evicted(s, w.sess[s].pc.owner, w.sess[s].pc.addr, w.sess[s].pc.probe)
    ensures var pc := w.sess[s].pc;
            var u := CloseSession(Record(w, e), pc.owner);
            s in u.sess && Apply(w, ProbeReturned(s)) == SetPc(u, s, Deciding(pc.addr, pc.lock, pc.round + 1))
  {
  }

  lemma ClosingOwner(w: World, x: SessionId, a: Address)
    requires Owns(w, x, a) && a in w.reg.sessions && w.reg.sessions[a] == x
    ensures var v := CloseSession(w, x);
            && v.reg.sessions == w.reg.sessions - {a} && v.reg.openSockets == w.reg.openSockets - {x}
            && v.sess.Keys == w.sess.Keys && v.sess[x].closing && v.sess[x].pc == w.sess[x].pc
            && forall t :: t in w.sess && t != x ==> v.sess[t] == w.sess[t]
  {
  }

  // ------------------------------------------------------------------ capacity

  /** At the capacity lock with room the session goes on, ... */
  lemma RoomGoesOn(w: World, s: SessionId, tasks: map<ProbeId, Address>)
    requires Enabled(w, AcquireCapacity(s, tasks)) && !w.sess[s].closing && |w.reg.sessions| < w.reg.maxConnections
    ensures var v := Apply(w, AcquireCapacity(s, tasks));
            v.sess[s].pc.Rechecking? && v.capacity == None && v.probes == w.probes && v.reg == w.reg
  {
  }

  /** ... without, it asks every registered owner, each by one probe of its own. */
  lemma EveryOwnerIsAsked(w: World, s: SessionId, tasks: map<ProbeId, Address>)
    requires Enabled(w, AcquireCapacity(s, tasks)) && !w.sess[s].closing && |w.reg.sessions| >= w.reg.maxConnections
    ensures var v := Apply(w, AcquireCapacity(s, tasks));
            && v.sess[s].pc.Reclaiming? && v.capacity == Some(s) && v.reg == w.reg
            && (forall p :: p in tasks ==> Asks(w, v, s, tasks, p))
            && (forall a :: a in w.reg.sessions ==> exists p :: p in tasks && tasks[p] == a)
  {
    assert forall p :: p in tasks ==> tasks[p] in tasks.Values;
    FullStep(w, s, tasks);
    NewProbesAsk(w, s, tasks, Reclaiming(w.sess[s].pc.addr, w.sess[s].pc.lock, tasks));
    forall a | a in w.reg.sessions ensures exists p :: p in tasks && tasks[p] == a {
      assert a in tasks.Values;
    }
  }

  lemma NewProbesAsk(w: World, s: SessionId, tasks: map<ProbeId, Address>, pc: Pc)
    requires s in w.sess && forall p :: p in tasks ==> tasks[p] in w.reg.sessions
    ensures var v := SetPc(NewProbes(w.(capacity := Some(s)), s, tasks), s, pc);
            && v.sess[s].pc == pc && v.capacity == Some(s) && v.reg == w.reg
            && forall p :: p in tasks ==> Asks(w, v, s, tasks, p)
  {
  }

  /** Probe `p` of the round is a new one of the owner of its address. */
  ghost predicate Asks(w: World, v: World, s: SessionId, tasks: map<ProbeId, Address>, p: ProbeId) {
    p in tasks && tasks[p] in w.reg.sessions && p in v.probes && v.probes[p] == Probe(s, w.reg.sessions[tasks[p]], Queued)
  }

  /** After the wait every probe that is over is looked at. */
  lemma EveryResultIsLookedAt(w: World, s: SessionId)
    requires Enabled(w, WaitReturned(s)) && !w.sess[s].closing
    ensures var pc := Apply(w, WaitReturned(s)).sess[s].pc;
            pc.Evicting? && forall p :: p in pc.todo <==> p in w.sess[s].pc.tasks && p in w.probes && w.probes[p].stage.Finished?
  {
  }

  ghost predicate Unanswering(w: World, s: SessionId, p: ProbeId)
    requires Enabled(w, EvictNext(s, p))
  {
    w.probes[p].stage.Finished? && !w.probes[p].stage.alive
    && Lookup(w.reg, w.sess[s].pc.tasks[p]) == Some(w.probes[p].target)
  }

  /** Looking at a result: an owner that did not answer and still owns its address is closed
      and the address is free, ... */
  lemma UnansweringOwnerGoes(w: World, s: SessionId, p: ProbeId)
    requires Reachable(w) && Enabled(w, EvictNext(s, p)) && Unanswering(w, s, p)
    ensures var v := Apply(w, EvictNext(s, p));
            var t := w.probes[p].target;
            t in v.sess && v.sess[t].closing && v.reg.sessions == w.reg.sessions - {w.sess[s].pc.tasks[p]}
            && v.reg.openSockets == w.reg.openSockets - {t}
  {
    ReachableIsGood(w);
    var pc := w.sess[s].pc;
    assert EntryOk(w, pc.tasks[p]);
    var e := Evicted(s, w.probes[p].target, pc.tasks[p], p);
    ClosingOwner(Record(SetPc(w, s, pc.(todo := pc.todo - {p})), e), w.probes[p].target, pc.tasks[p]);
    assert Apply(w, EvictNext(s, p)) == CloseSession(Record(SetPc(w, s, pc.(todo := pc.todo - {p})), e), w.probes[p].target);
  }

  /** ... and nothing happens to anybody else. */
  lemma OtherOwnersStay(w: World, s: SessionId, p: ProbeId)
    requires Enabled(w, EvictNext(s, p)) && !Unanswering(w, s, p)
    ensures var v := Apply(w, EvictNext(s, p));
            v.reg == w.reg && v.log == w.log && v.sess == w.sess[s := v.sess[s]] && v.sess[s].closing == w.sess[s].closing
  {
  }

  /** The last look at the number of sessions: full is denied with 0x01, room is taken. */
  lemma RecheckDecides(w: World, s: SessionId)
    requires Reachable(w) && Enabled(w, Recheck(s)) && !w.sess[s].closing
    ensures var v := Apply(w, Recheck(s));
            var pc := w.sess[s].pc;
            if |w.reg.sessions| >= w.reg.maxConnections then
              v.sess[s].pc == Denying(pc.addr, pc.lock, 0x01) && v.reg == w.reg
            else Admitted(w, v, s, pc.addr)
  {
    ReachableIsGood(w);
    assert Progress(w, s);
  }

  /** `s` contends no more, or only waits for its probes to end before it leaves. */
  ghost predicate CalledOff(w: World, s: SessionId) {
    s in w.sess && (w.sess[s].pc.Idle? || (w.sess[s].pc.Draining? && w.sess[s].pc.abort))
  }

  ghost predicate Claims(w: World, s: SessionId, a: Address) { a in w.reg.sessions && w.reg.sessions[a] == s }

  /** A cancelled activation claims nothing: whatever else happens, until its session asks
      again the session becomes the owner of no address. */
  lemma CancelledClaimsNothing(w: World, s: SessionId, steps: seq<Step>, last: World)
    requires Enabled(w, CancelActivation(s)) && Runs(Apply(w, CancelActivation(s)), steps, last)
    requires forall i, b :: 0 <= i < |steps| ==> steps[i] != Request(s, b)
    ensures forall a :: Claims(last, s, a) ==> Claims(w, s, a)
  {
    CancelCallsOff(w, s);
    CalledOffStays(Apply(w, CancelActivation(s)), s, steps, last);
  }

  lemma CancelCallsOff(w: World, s: SessionId)
    requires Enabled(w, CancelActivation(s))
    ensures var v := Apply(w, CancelActivation(s)); CalledOff(v, s) && v.reg.sessions == w.reg.sessions
  {
  }

  lemma {:induction false} CalledOffStays(w: World, s: SessionId, steps: seq<Step>, last: World)
    requires CalledOff(w, s) && Runs(w, steps, last)
    requires forall i, b :: 0 <= i < |steps| ==> steps[i] != Request(s, b)
    ensures forall a :: Claims(last, s, a) ==> Claims(w, s, a)
    decreases |steps|
  {
    if steps != [] {
      forall a ensures CalledOff(Apply(w, steps[0]), s) && (Claims(Apply(w, steps[0]), s, a) ==> Claims(w, s, a)) {
        CalledOffStep(w, s, steps[0], a);
      }
      assert Claims(Apply(w, steps[0]), s, 0) ==> Claims(w, s, 0);
      CalledOffStays(Apply(w, steps[0]), s, steps[1..], last);
    }
  }

  lemma CalledOffStep(w: World, s: SessionId, step: Step, a: Address)
    requires CalledOff(w, s) && Enabled(w, step) && forall b :: step != Request(s, b)
    ensures CalledOff(Apply(w, step), s) && (Claims(Apply(w, step), s, a) ==> Claims(w, s, a))
  {
    match step
    case Reserve(_) => CalledOffSocket(w, s, step, a);
    case Attach(_) => CalledOffSocket(w, s, step, a);
    case ReleaseSocket(_) => CalledOffSocket(w, s, step, a);
    case Request(_, _) => CalledOffLock(w, s, step, a);
    case AcquireLock(_) => CalledOffLock(w, s, step, a);
    case ResponseSent(_) => CalledOffLock(w, s, step, a);
    case CancelActivation(_) => CalledOffLock(w, s, step, a);
    case Decide(t, p) => CalledOffDecide(w, s, t, p, a);
    case Recheck(t) => CalledOffRecheck(w, s, t, a);
    case ProbeReturned(t) => CalledOffReturned(w, s, t, a);
    case EvictNext(t, p) => CalledOffEvict(w, s, t, p, a);
    case AcquireCapacity(t, tasks) => CalledOffCapacity(w, s, t, tasks, a);
    case WaitReturned(_) =>
    case EvictDone(_) => CalledOffLock(w, s, step, a);
    case Drained(t) => CalledOffDrained(w, s, t, a);
    case Close(t) => ClosingClaimsNothing(w, s, t, a);
    case _ => CalledOffProbe(w, s, step, a);
  }

  lemma CalledOffSocket(w: World, s: SessionId, step: Step, a: Address)
    requires CalledOff(w, s) && Enabled(w, step) && (step.Reserve? || step.Attach? || step.ReleaseSocket?)
    ensures CalledOff(Apply(w, step), s) && (Claims(Apply(w, step), s, a) ==> Claims(w, s, a))
  {
  }

  lemma CalledOffLock(w: World, s: SessionId, step: Step, a: Address)
    requires CalledOff(w, s) && Enabled(w, step) && forall b :: step != Request(s, b)
    requires step.Request? || step.AcquireLock? || step.ResponseSent? || step.CancelActivation? || step.EvictDone?
    ensures CalledOff(Apply(w, step), s) && (Claims(Apply(w, step), s, a) ==> Claims(w, s, a))
  {
  }

  lemma ClosingClaimsNothing(w: World, s: SessionId, x: SessionId, a: Address)
    requires CalledOff(w, s)
    ensures CalledOff(CloseSession(w, x), s) && (Claims(CloseSession(w, x), s, a) ==> Claims(w, s, a))
  {
  }

  lemma LeavingClaimsNothing(w: World, s: SessionId, t: SessionId, a: Address)
    requires CalledOff(w, s) && t in w.sess && Contends(w.sess[t].pc)
    ensures CalledOff(Leave(w, t), s) && (Claims(Leave(w, t), s, a) ==> Claims(w, s, a))
  {
  }

  lemma OthersCommit(w: World, s: SessionId, t: SessionId, a: Address)
    requires CalledOff(w, s) && t in w.sess && t != s && Contends(w.sess[t].pc)
    ensures CalledOff(Commit(w, t), s) && (Claims(Commit(w, t), s, a) ==> Claims(w, s, a))
  {
  }

  lemma CalledOffDecide(w: World, s: SessionId, t: SessionId, p: ProbeId, a: Address)
    requires CalledOff(w, s) && Enabled(w, Decide(t, p))
    ensures CalledOff(DecideStep(w, t, p), s) && (Claims(DecideStep(w, t, p), s, a) ==> Claims(w, s, a))
  {
    LeavingClaimsNothing(w, s, t, a);
    OthersCommit(w, s, t, a);
  }

  lemma CalledOffRecheck(w: World, s: SessionId, t: SessionId, a: Address)
    requires CalledOff(w, s) && Enabled(w, Recheck(t))
    ensures CalledOff(RecheckStep(w, t), s) && (Claims(RecheckStep(w, t), s, a) ==> Claims(w, s, a))
  {
    LeavingClaimsNothing(w, s, t, a);
    OthersCommit(w, s, t, a);
  }

  lemma CalledOffReturned(w: World, s: SessionId, t: SessionId, a: Address)
    requires CalledOff(w, s) && Enabled(w, ProbeReturned(t))
    ensures CalledOff(ProbeReturnedStep(w, t), s) && (Claims(ProbeReturnedStep(w, t), s, a) ==> Claims(w, s, a))
  {
    LeavingClaimsNothing(w, s, t, a);
    var pc := w.sess[t].pc;
    var evicted := Record(w, Evicted(t, pc.owner, pc.addr, pc.probe));
    ClosingClaimsNothing(evicted, s, pc.owner, a);
  }

  lemma CalledOffEvict(w: World, s: SessionId, t: SessionId, p: ProbeId, a: Address)
    requires CalledOff(w, s) && Enabled(w, EvictNext(t, p))
    ensures CalledOff(EvictNextStep(w, t, p), s) && (Claims(EvictNextStep(w, t, p), s, a) ==> Claims(w, s, a))
  {
    var pc, probe := w.sess[t].pc, w.probes[p];
    var w1 := SetPc(w, t, pc.(todo := pc.todo - {p}));
    ClosingClaimsNothing(Record(w1, Evicted(t, probe.target, pc.tasks[p], p)), s, probe.target, a);
  }

  lemma CalledOffCapacity(w: World, s: SessionId, t: SessionId, tasks: map<ProbeId, Address>, a: Address)
    requires CalledOff(w, s) && Enabled(w, AcquireCapacity(t, tasks))
    ensures CalledOff(AcquireCapacityStep(w, t, tasks), s) && (Claims(AcquireCapacityStep(w, t, tasks), s, a) ==> Claims(w, s, a))
  {
    var v := AcquireCapacityStep(w, t, tasks);
    if w.sess[t].closing {
      LeavingClaimsNothing(w, s, t, a);
    } else {
      assert v.reg == w.reg && (s != t ==> s in v.sess && v.sess[s] == w.sess[s]);
    }
  }

  lemma CalledOffDrained(w: World, s: SessionId, t: SessionId, a: Address)
    requires CalledOff(w, s) && Enabled(w, Drained(t))
    ensures CalledOff(DrainedStep(w, t), s) && (Claims(DrainedStep(w, t), s, a) ==> Claims(w, s, a))
  {
    LeavingClaimsNothing(w, s, t, a);
  }

  lemma CalledOffProbe(w: World, s: SessionId, step: Step, a: Address)
    requires CalledOff(w, s) && Enabled(w, step)
    requires step.ProbeStart? || step.ProbeSent? || step.ProbeFail? || step.ProbeWake? || step.ProbeCancel? || step.AliveReply?
    ensures CalledOff(Apply(w, step), s) && (Claims(Apply(w, step), s, a) ==> Claims(w, s, a))
  {
  }

  /** A closing session gives up its socket and its address, wakes its probe and takes
      nothing from anybody else. */
  lemma ClosingFrees(w: World, s: SessionId, a: Address)
    requires Reachable(w) && s in w.sess && !w.sess[s].closing
    ensures var v := Apply(w, Close(s));
            && s in v.sess && v.sess[s].closing && !v.sess[s].signal.Armed?
            && v.reg.openSockets == w.reg.openSockets - {s}
            && (a in v.reg.sessions <==> a in w.reg.sessions && w.reg.sessions[a] != s)
            && (forall t :: t in w.sess && t != s ==> t in v.sess && v.sess[t] == w.sess[t])
  {
    ReachableIsGood(w);
    assert EntryOk(w, a) && RegisteredIfActive(w, s);
    ClosedSession(w, s);
    assert a in w.reg.sessions && w.reg.sessions[a] == s ==> w.sess[s].addr == Some(a);
  }

  lemma ClosedSession(w: World, s: SessionId)
    requires s in w.sess && !w.sess[s].closing
    ensures var v := Apply(w, Close(s));
            && v.sess.Keys == w.sess.Keys && v.sess[s].closing && !v.sess[s].signal.Armed?
            && v.reg.openSockets == w.reg.openSockets - {s}
            && v.reg.sessions == (if w.sess[s].addr.Some? && Lookup(w.reg, w.sess[s].addr.value) == Some(s)
                                  then w.reg.sessions - {w.sess[s].addr.value} else w.reg.sessions)
            && forall t :: t in w.sess && t != s ==> v.sess[t] == w.sess[t]
  {
  }

  /** Leaving the handler frees the lock for the next contender and drops one reference. */
  lemma LeavingUnlocks(w: World, s: SessionId)
    requires Reachable(w) && Enabled(w, ResponseSent(s))
    ensures var v := Apply(w, ResponseSent(s));
            var pc := w.sess[s].pc;
            && v.sess[s].pc.Idle? && pc.lock in w.holder && pc.lock !in v.holder
            && pc.addr in w.reg.locks
            && (w.reg.locks[pc.addr].users == 1 ==> pc.addr !in v.reg.locks)
            && (w.reg.locks[pc.addr].users > 1 ==>
                  pc.addr in v.reg.locks && v.reg.locks[pc.addr] == LockEntry(pc.lock, w.reg.locks[pc.addr].users - 1))
  {
    ReachableIsGood(w);
    assert HolderOk(w.sess, w.holder, s) && UsesTableLock(w.sess, w.reg.locks, s);
    assert CountOk(w.sess, w.reg.locks, w.nextLock, w.sess[s].pc.addr);
  }
}
