/** What the tester gets: which ECU frames are relayed, when an exchange completes, and
    that a request to a healthy ECU is answered. */
module LegsOutcomes {
  import opened Common
  import opened Exchange
  import opened ExchangeOutcomes
  import opened Legs
  import opened LegsInvariant
  import opened LegsTheorems

  ghost predicate Reachable(w: World) { exists strict, steps :: Runs(Initial(strict), steps, w) }

  /** The worlds in which, until the teardown takes the legs over, the leg in use is the
      cached one. */
  ghost const CachedInUse := iset w: World |
    !Cleared(w.cleanup) ==>
      && (w.pc.Ready? || w.pc.Exchanging? ==> w.pc.target in w.conns && w.conns[w.pc.target] == w.pc.leg)
      && (w.pc.AwaitConnect? && w.pc.leg in w.connects && w.connects[w.pc.leg] == Finished(true) ==>
            w.pc.target in w.conns && w.conns[w.pc.target] == w.pc.leg)

  predicate LegStep(step: Step) {
    step.Diagnose? || step.ConnectOk? || step.ConnectReturned? || step.RetireRun? || step.RetireReturned?
  }

  predicate ExchangeStep(step: Step) { step.Send? || step.HandleFrame? || step.RelayFails? || step.Cancel? }

  lemma LegStepKeepsLegInUse(w: World, step: Step)
    requires w in Good && w in CachedInUse && Enabled(w, step) && LegStep(step)
    ensures Apply(w, step) in CachedInUse
  {
    if step.ConnectOk? {
      ConnectKeepsLegInUse(w, step.leg);
    } else if step.RetireRun? {
      RetireKeepsLegInUse(w, step.task);
    } else if step.Diagnose? {
      DiagnoseKeepsLegInUse(w, step);
    } else {
      PositionKeepsLegInUse(w, step);
    }
  }

  lemma RetireKeepsLegInUse(w: World, r: TaskId)
    requires w in Good && w in CachedInUse && Enabled(w, RetireRun(r))
    ensures RetireRunStep(w, r) in CachedInUse
  {
    assert RetireOk(w, r);
  }

  lemma PositionKeepsLegInUse(w: World, step: Step)
    requires w in CachedInUse && Enabled(w, step) && (step.ConnectReturned? || step.RetireReturned?)
    ensures Apply(w, step) in CachedInUse
  {
  }

  lemma DiagnoseKeepsLegInUse(w: World, step: Step)
    requires w in CachedInUse && Enabled(w, step) && step.Diagnose?
    ensures Apply(w, step) in CachedInUse
  {
  }

  lemma ConnectKeepsLegInUse(w: World, l: LegId)
    requires w in Good && w in CachedInUse && Enabled(w, ConnectOk(l))
    ensures ConnectOkStep(w, l) in CachedInUse
  {
    assert LegOk(w, l);
  }

  lemma StepKeepsLegInUse(w: World, step: Step)
    requires w in Good && w in CachedInUse && Enabled(w, step)
    ensures Apply(w, step) in CachedInUse
  {
    if LegStep(step) {
      LegStepKeepsLegInUse(w, step);
    } else if ExchangeStep(step) {
      ExchangeStepKeepsLegInUse(w, step);
    }
  }

  lemma ExchangeStepKeepsLegInUse(w: World, step: Step)
    requires w in CachedInUse && Enabled(w, step) && ExchangeStep(step)
    ensures Apply(w, step) in CachedInUse
  {
  }

  lemma {:induction false} RunKeepsLegInUse(w: World, steps: seq<Step>, last: World)
    requires w in Good && w in CachedInUse && Runs(w, steps, last)
    ensures last in Good && last in CachedInUse
    decreases |steps|
  {
    if steps != [] {
      StepKeepsLegInUse(w, steps[0]);
      StepKeeps(w, steps[0]);
      RunKeepsLegInUse(Apply(w, steps[0]), steps[1..], last);
    }
  }

  lemma ReachableIsGood(w: World)
    requires Reachable(w)
    ensures w in Good && w in CachedInUse
  {
    var strict, steps :| Runs(Initial(strict), steps, w);
    Reached(strict, [], Initial(strict));
    RunKeepsLegInUse(Initial(strict), steps, w);
  }

  /** Every frame an open session handles, by what it is: interim answers are relayed and
      the exchange goes on, final answers are relayed and complete it with the leg kept,
      and on anything else the leg is retired, relayed unless withheld. */
  lemma FramesExactly(w: World, r: TaskId)
    requires Enabled(w, HandleFrame(r)) && !w.closing
    ensures var v := Apply(w, HandleFrame(r));
            var f := w.readers[w.pc.target].got.value;
            && (InterimAnswer(f.raw, w.pc.sid, w.pc.st.accepted) ==> v.pc.Exchanging? && v.pc.request == w.pc.request && v.pc.st.accepted)
            && (FinalAnswer(f.raw, w.pc.sid, w.strict) ==> v.pc.Idle?)
            && (!InterimAnswer(f.raw, w.pc.sid, w.pc.st.accepted) && !FinalAnswer(f.raw, w.pc.sid, w.strict) ==>
                  v.pc == AwaitRetire(r, None) && v.retirements[r] == Retirement(w.pc.target, w.pc.leg, Created))
            && v.log == w.log + (if Withheld(f.raw, w.pc.sid, w.pc.st.accepted, w.strict) then [] else [Relay(w.pc.request, f)])
            && v.conns == w.conns && v.legs == w.legs && v.readers == w.readers - {w.pc.target}
  {
  }

  /** A relay that raises or is cancelled retires the leg whatever the frame is, and the
      frame counts as relayed exactly if it was one to relay and got out before. */
  lemma FailedRelayRetires(w: World, sent: bool, r: TaskId)
    requires Enabled(w, RelayFails(sent, r)) && !w.closing
    ensures var v := Apply(w, RelayFails(sent, r));
            var f := w.readers[w.pc.target].got.value;
            && v.pc == AwaitRetire(r, None) && v.retirements[r] == Retirement(w.pc.target, w.pc.leg, Created)
            && v.log == w.log + (if sent && !Withheld(f.raw, w.pc.sid, w.pc.st.accepted, w.strict) then [Relay(w.pc.request, f)] else [])
            && v.readers == w.readers - {w.pc.target} && v.conns == w.conns && v.legs == w.legs
  {
  }

  /** An exchange of an open session that is over with its leg kept has just relayed a final
      frame of its own request to the tester; no other step ends it that way. */
  lemma CompletionIsAnswered(w: World, step: Step)
    requires Reachable(w) && Enabled(w, step) && !w.closing
    requires w.pc.Exchanging? && Apply(w, step).pc.Idle?
    ensures var v := Apply(w, step);
            && |v.log| == |w.log| + 1
            && v.log[..|w.log|] == w.log
            && v.log[|w.log|].request == w.pc.request == v.log[|w.log|].frame.request
            && IsFinal(v.log[|w.log|].frame.raw)
            && w.pc.target in v.conns && v.conns[w.pc.target] == w.pc.leg
  {
    ReachableIsGood(w);
    OnlyAnswersComplete(w, step);
    FinalIsOwn(w, step.spareTask);
  }

  lemma OnlyAnswersComplete(w: World, step: Step)
    requires w in Good && Enabled(w, step) && !w.closing && w.pc.Exchanging? && Apply(w, step).pc.Idle?
    ensures step.HandleFrame?
  {
  }

  lemma FinalIsOwn(w: World, r: TaskId)
    requires w in Good && w in CachedInUse && Enabled(w, HandleFrame(r)) && !w.closing && Apply(w, HandleFrame(r)).pc.Idle?
    ensures var v := Apply(w, HandleFrame(r));
            var f := w.readers[w.pc.target].got.value;
            && v.log == w.log + [Relay(w.pc.request, f)] && f.request == w.pc.request && IsFinal(f.raw)
            && w.pc.target in v.conns && v.conns[w.pc.target] == w.pc.leg
  {
    FramesExactly(w, r);
    assert ToCome(w.readers, w.pc.target, w.legs[w.pc.leg].stream)[0] == w.readers[w.pc.target].got.value;
  }

  // ------------------------------------------------------------ it can be done

  /** `v` can be reached from `w`. */
  ghost predicate Leads(w: World, v: World) { exists steps :: Runs(w, steps, v) }

  lemma LeadsBy(w: World, u: World, step: Step)
    requires Leads(w, u) && Enabled(u, step)
    ensures Leads(w, Apply(u, step))
  {
    assert Runs(u, [step], Apply(u, step)) by {
      assert [step][1..] == [];
    }
    LeadsOn(w, u, Apply(u, step));
  }

  lemma LeadsOn(w: World, u: World, v: World)
    requires Leads(w, u) && Leads(u, v)
    ensures Leads(w, v)
  {
    var first, rest :| Runs(w, first, u) && Runs(u, rest, v);
    RunsConcat(w, first, u, rest, v);
  }

  lemma {:induction false} RunsConcat(w: World, first: seq<Step>, mid: World, rest: seq<Step>, last: World)
    requires Runs(w, first, mid) && Runs(mid, rest, last)
    ensures Runs(w, first + rest, last)
    decreases |first|
  {
    if first == [] {
      assert first + rest == rest;
    } else {
      RunsConcat(Apply(w, first[0]), first[1..], mid, rest, last);
      assert (first + rest)[1..] == first[1..] + rest;
    }
  }

  lemma LeadsFrom(w: World)
    ensures Leads(w, w)
  {
    assert Runs(w, [], w);
  }

  /** A target without a leg can be connected to, ... */
  lemma ConnectsToNewTarget(w: World, t: Target, sid: Option<byte>, l: LegId, r: TaskId)
    requires Reachable(w) && w.pc.Idle? && !w.closing && t !in w.conns && l !in w.legs && r !in w.retirements
    ensures t !in w.readers
    ensures Leads(w, w.(pc := Ready(t, l, sid), conns := w.conns[t := l], connects := w.connects[l := Finished(true)],
                        legs := w.legs[l := Leg(t, Up, true, 0, [], 0, [])]))
  {
    assert t !in w.readers by {
      ReachableIsGood(w);
      assert ReaderOk(w, t);
    }
    var d := Diagnose(t, sid, l, r);
    LeadsFrom(w);
    LeadsBy(w, w, d);
    Connects(w, StartConnect(w, t, l, sid));
    assert w.legs[l := Leg(t, Connecting, false, 0, [], 0, [])][l := Leg(t, Up, true, 0, [], 0, [])]
        == w.legs[l := Leg(t, Up, true, 0, [], 0, [])];
    assert w.connects[l := Running][l := Finished(true)] == w.connects[l := Finished(true)];
  }

  lemma Connects(first: World, w: World)
    requires Leads(first, w) && w.pc.AwaitConnect? && !w.pc.cancelled && !w.closing
    requires w.pc.leg in w.legs && w.pc.leg in w.connects && w.connects[w.pc.leg].Running?
    ensures Leads(first, w.(pc := Ready(w.pc.target, w.pc.leg, w.pc.sid),
                            conns := w.conns[w.legs[w.pc.leg].target := w.pc.leg],
                            connects := w.connects[w.pc.leg := Finished(true)],
                            legs := w.legs[w.pc.leg := w.legs[w.pc.leg].(setup := Up, connected := true)]))
  {
    var ok := ConnectOk(w.pc.leg);
    LeadsBy(first, w, ok);
    LeadsBy(first, Apply(w, ok), ConnectReturned);
  }

  /** ... a cached leg that is up is used again, ... */
  lemma ReusesCachedLeg(w: World, t: Target, sid: Option<byte>, l: LegId, r: TaskId)
    requires Enabled(w, Diagnose(t, sid, l, r)) && t in w.conns
    ensures w.legs[w.conns[t]].connected ==> Apply(w, Diagnose(t, sid, l, r)) == w.(pc := Ready(t, w.conns[t], sid))
    ensures !w.legs[w.conns[t]].connected ==>
              Apply(w, Diagnose(t, sid, l, r)).pc == AwaitRetire(r, Some(sid))
  {
  }

  /** ... one that is lost is replaced after its retirement by a new one, ... */
  lemma ReplacesLostLeg(w: World, l: LegId)
    requires Enabled(w, RetireReturned(l)) && w.pc.reconnect.Some? && !w.closing
    ensures var v := Apply(w, RetireReturned(l));
            var t := w.retirements[w.pc.task].target;
            v.pc == AwaitConnect(t, l, w.pc.reconnect.value, false) && l in v.legs && v.legs[l].target == t && v.connects[l].Running?
  {
  }

  /** The handler of a cancelled request: it is over, waits for a connect it will not use,
      or for a retirement after which it does not reconnect. */
  ghost predicate CalledOff(w: World) {
    || w.pc.Idle?
    || (w.pc.AwaitConnect? && w.pc.cancelled)
    || (w.pc.AwaitRetire? && w.pc.reconnect.None?)
  }

  /** A cancelled request does no more: whatever else happens, until the next request
      nothing is written to an ECU and nothing relayed. */
  lemma CancelledStops(w: World, r: TaskId, steps: seq<Step>, last: World)
    requires Enabled(w, Cancel(r)) && Runs(Apply(w, Cancel(r)), steps, last)
    requires forall i :: 0 <= i < |steps| ==> !steps[i].Diagnose?
    ensures CalledOff(last) && last.log == w.log && last.nextRequest == w.nextRequest
  {
    CalledOffStays(Apply(w, Cancel(r)), steps, last);
  }

  lemma {:induction false} CalledOffStays(w: World, steps: seq<Step>, last: World)
    requires CalledOff(w) && Runs(w, steps, last)
    requires forall i :: 0 <= i < |steps| ==> !steps[i].Diagnose?
    ensures CalledOff(last) && last.log == w.log && last.nextRequest == w.nextRequest
    decreases |steps|
  {
    if steps != [] {
      assert !steps[0].Diagnose?;
      CalledOffStep(w, steps[0]);
      CalledOffStays(Apply(w, steps[0]), steps[1..], last);
    }
  }

  lemma CalledOffStep(w: World, step: Step)
    requires CalledOff(w) && Enabled(w, step) && !step.Diagnose?
    ensures var v := Apply(w, step); CalledOff(v) && v.log == w.log && v.nextRequest == w.nextRequest
  {
    if !LegStep(step) {
      CalledOffOther(w, step);
    }
  }

  lemma CalledOffOther(w: World, step: Step)
    requires CalledOff(w) && Enabled(w, step) && !LegStep(step)
    ensures var v := Apply(w, step); CalledOff(v) && v.log == w.log && v.nextRequest == w.nextRequest
  {
  }

  /** A closing session is silent: in every run from there, nothing more is relayed to the
      tester and no further request goes to an ECU. */
  lemma {:induction false} ClosedIsSilent(w: World, steps: seq<Step>, last: World)
    requires w.closing && Runs(w, steps, last)
    ensures last.closing && last.log == w.log && last.nextRequest == w.nextRequest
    decreases |steps|
  {
    if steps != [] {
      ClosedStep(w, steps[0]);
      ClosedIsSilent(Apply(w, steps[0]), steps[1..], last);
    }
  }

  lemma ClosedStep(w: World, step: Step)
    requires w.closing && Enabled(w, step)
    ensures var v := Apply(w, step); v.closing && v.log == w.log && v.nextRequest == w.nextRequest
  {
    if !LegStep(step) {
      ClosedOther(w, step);
    }
  }

  lemma ClosedOther(w: World, step: Step)
    requires w.closing && Enabled(w, step) && !LegStep(step)
    ensures var v := Apply(w, step); v.closing && v.log == w.log && v.nextRequest == w.nextRequest
  {
  }

  /** A connect that succeeds is cached for its target in an open session, and closed by
      its own task, never cached, in a closing one. */
  lemma ConnectedExactly(w: World, l: LegId)
    requires Enabled(w, ConnectOk(l))
    ensures var v := Apply(w, ConnectOk(l));
            if w.closing then
              v.conns == w.conns && v.connects[l] == Releasing && l in v.closeTasks
              && (l !in w.closeTasks ==> l in v.legs && v.legs[l].closes == w.legs[l].closes + 1)
            else v.conns == w.conns[w.legs[l].target := l] && v.connects[l] == Finished(true) && v.closeTasks == w.closeTasks
  {
  }

  /** A retirement takes its own leg and that leg's read away, and a replacement that is
      cached for the same target stays. */
  lemma RetiresExactly(w: World, r: TaskId, t: Target)
    requires Enabled(w, RetireRun(r))
    ensures var v := Apply(w, RetireRun(r));
            var leg := w.retirements[r].leg;
            && (t in v.conns <==> t in w.conns && (t != w.retirements[r].target || w.conns[t] != leg))
            && (t in v.conns ==> v.conns[t] == w.conns[t])
            && (t in v.readers <==> t in w.readers && (t != w.retirements[r].target || w.readers[t].leg != leg))
            && (t in v.readers ==> v.readers[t] == w.readers[t])
  {
  }

  /** An idle leg after one more request and its final answer. */
  function Served(leg: Leg, k: RequestId): Leg {
    leg.(requests := leg.requests + [k], nextReply := |leg.requests| + 1, stream := [])
  }

  /** ... and a request on a ready leg whose ECU answers reaches the tester: the answer is
      relayed, the exchange over and the leg kept. */
  lemma ReadyLegAnswers(w: World, answer: Frame, r: TaskId)
    requires w.pc.Ready? && !w.closing && w.pc.leg in w.legs && IdleLeg(w.legs[w.pc.leg])
    requires w.pc.target !in w.readers && r !in w.retirements && FinalAnswer(answer, w.pc.sid, w.strict)
    ensures Leads(w, w.(pc := Idle, nextRequest := w.nextRequest + 1,
                        log := w.log + [Relay(w.nextRequest, Emitted(answer, w.nextRequest))],
                        legs := w.legs[w.pc.leg := Served(w.legs[w.pc.leg], w.nextRequest)]))
  {
    LeadsFrom(w);
    var reading := RequestGoesOut(w, w, r);
    var taken := AnswerComesIn(w, reading, answer);
    FinalAnswerRelayed(taken, r);
    assert taken.readers - {w.pc.target} == w.readers;
    assert taken.legs == w.legs[w.pc.leg := Served(w.legs[w.pc.leg], w.nextRequest)];
    LeadsBy(w, taken, HandleFrame(r));
  }

  /** The request is written and read for, ... */
  lemma RequestGoesOut(first: World, w: World, r: TaskId) returns (v: World)
    requires Leads(first, w)
    requires w.pc.Ready? && !w.closing && w.pc.leg in w.legs && w.pc.target !in w.readers && r !in w.retirements
    ensures Leads(first, v)
    ensures v == w.(pc := Exchanging(w.pc.target, w.pc.leg, w.pc.sid, w.nextRequest, Progress(false, false)),
                    nextRequest := w.nextRequest + 1,
                    readers := w.readers[w.pc.target := ReadTask(w.pc.leg, None)],
                    legs := w.legs[w.pc.leg := w.legs[w.pc.leg].(requests := w.legs[w.pc.leg].requests + [w.nextRequest])])
  {
    LeadsBy(first, w, Send(true, true, r));
    Writes(w, r);
    var sent := Apply(w, Send(true, true, r));
    LeadsBy(first, sent, StartRead);
    v := Apply(sent, StartRead);
  }

  lemma Writes(w: World, r: TaskId)
    requires w.pc.Ready? && !w.closing && w.pc.leg in w.legs && r !in w.retirements
    ensures Apply(w, Send(true, true, r)) ==
            w.(pc := Exchanging(w.pc.target, w.pc.leg, w.pc.sid, w.nextRequest, Progress(false, false)),
               nextRequest := w.nextRequest + 1,
               legs := w.legs[w.pc.leg := w.legs[w.pc.leg].(requests := w.legs[w.pc.leg].requests + [w.nextRequest])])
  {
  }

  /** ... the ECU answers it and the answer is read, ... */
  lemma AnswerComesIn(first: World, w: World, answer: Frame) returns (v: World)
    requires Leads(first, w) && w.pc.Exchanging? && w.pc.leg in w.legs && IsFinal(answer)
    requires w.pc.target in w.readers && w.readers[w.pc.target] == ReadTask(w.pc.leg, None)
    requires var leg := w.legs[w.pc.leg];
             leg.stream == [] && leg.requests != [] && leg.nextReply == |leg.requests| - 1 && leg.requests[leg.nextReply] == w.pc.request
    ensures Leads(first, v)
    ensures v == w.(readers := w.readers[w.pc.target := ReadTask(w.pc.leg, Some(Emitted(answer, w.pc.request)))],
                    legs := w.legs[w.pc.leg := w.legs[w.pc.leg].(nextReply := |w.legs[w.pc.leg].requests|)])
  {
    var emit := EcuEmits(w.pc.leg, w.legs[w.pc.leg].nextReply, answer);
    LeadsBy(first, w, emit);
    EcuAnswers(w, answer);
    var emitted := Apply(w, emit);
    LeadsBy(first, emitted, TakeFrame(w.pc.target));
    Takes(emitted, Emitted(answer, w.pc.request));
    v := Apply(emitted, TakeFrame(w.pc.target));
  }

  lemma EcuAnswers(w: World, answer: Frame)
    requires w.pc.Exchanging? && w.pc.leg in w.legs && IsFinal(answer)
    requires var leg := w.legs[w.pc.leg];
             leg.stream == [] && leg.requests != [] && leg.nextReply == |leg.requests| - 1 && leg.requests[leg.nextReply] == w.pc.request
    ensures var leg := w.legs[w.pc.leg];
            Apply(w, EcuEmits(w.pc.leg, leg.nextReply, answer)) ==
            w.(legs := w.legs[w.pc.leg := leg.(stream := [Emitted(answer, w.pc.request)], nextReply := |leg.requests|)])
  {
    assert [] + [Emitted(answer, w.pc.request)] == [Emitted(answer, w.pc.request)];
  }

  lemma Takes(w: World, e: Emitted)
    requires w.pc.Exchanging? && w.pc.leg in w.legs && w.legs[w.pc.leg].stream == [e]
    requires w.pc.target in w.readers && w.readers[w.pc.target] == ReadTask(w.pc.leg, None)
    ensures Apply(w, TakeFrame(w.pc.target)) ==
            w.(readers := w.readers[w.pc.target := ReadTask(w.pc.leg, Some(e))],
               legs := w.legs[w.pc.leg := w.legs[w.pc.leg].(stream := [])])
  {
    assert [e][1..] == [];
  }

  /** ... and relayed. */
  lemma FinalAnswerRelayed(w: World, r: TaskId)
    requires Enabled(w, HandleFrame(r)) && !w.closing
    requires FinalAnswer(w.readers[w.pc.target].got.value.raw, w.pc.sid, w.strict)
    ensures Apply(w, HandleFrame(r)) == w.(pc := Idle, readers := w.readers - {w.pc.target},
                                           log := w.log + [Relay(w.pc.request, w.readers[w.pc.target].got.value)])
  {
  }
}
