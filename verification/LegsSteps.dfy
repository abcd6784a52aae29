/** Every step of the leg lifecycle keeps the invariant. */
module LegsSteps {
  import opened Common
  import opened Exchange
  import opened Legs
  import opened LegsInvariant

  // ---------------------------------------------------------- the frame stream

  /** While the current request is unfinished the ECU can only emit for it. */
  lemma BusyEmit(requests: seq<RequestId>, nextReply: nat, k: RequestId, toCome: seq<Emitted>, i: nat, raw: Frame)
    requires BusyLeg(requests, nextReply, k, toCome) && nextReply <= i < |requests|
    ensures BusyLeg(requests, if IsFinal(raw) then i + 1 else i, k, toCome + [Emitted(raw, requests[i])])
  {
    var longer := toCome + [Emitted(raw, requests[i])];
    forall j | 0 <= j < |longer| - 1 ensures !IsFinal(longer[j].raw) {
      assert longer[j] == toCome[j];
    }
  }

  /** Consuming a final frame empties the stream; any other keeps it current. */
  lemma BusyConsume(requests: seq<RequestId>, nextReply: nat, k: RequestId, toCome: seq<Emitted>)
    requires BusyLeg(requests, nextReply, k, toCome) && toCome != []
    ensures toCome[0].request == k
    ensures IsFinal(toCome[0].raw) ==> |toCome| == 1 && nextReply == |requests|
    ensures !IsFinal(toCome[0].raw) ==> BusyLeg(requests, nextReply, k, toCome[1..])
  {
  }

  lemma VerdictFinal(strict: bool, sid: Option<byte>, st: Progress, raw: Frame)
    ensures OnFrame(strict, sid, st, raw).Continue? ==> !IsFinal(raw)
    ensures OnFrame(strict, sid, st, raw).Stop? && OnFrame(strict, sid, st, raw).completed ==> IsFinal(raw)
  {
  }

  // ------------------------------------------------------------- shared moves

  /** Whatever the exchange did to its own leg, handing it to a retirement is safe. */
  lemma RetireStarts(w: World, v: World, t: Target, l: LegId, r: TaskId)
    requires w in Good && (w.pc.Idle? || w.pc.Ready? || w.pc.Exchanging?)
    requires IsLeg(w, t, l) && r !in w.retirements
    requires w.pc.Exchanging? ==> w.pc.target == t && w.pc.leg == l
    requires l in v.legs && v.legs == w.legs[l := v.legs[l]]
    requires v.legs[l].target == t && v.legs[l].setup.Up? && v.legs[l].closes == w.legs[l].closes
    requires v.legs[l].nextReply <= |v.legs[l].requests|
    requires v.readers == w.readers || v.readers == w.readers - {t}
    requires v == w.(legs := v.legs, readers := v.readers, nextRequest := v.nextRequest, log := v.log, pc := v.pc,
                     retirements := w.retirements[r := Retirement(t, l, Created)])
    requires v.pc.AwaitRetire? && v.pc.task == r && AllAttributed(v)
    ensures v in Good
  {
    assert LegOk(w, l);
    forall u ensures ReaderOk(v, u) && ConnOk(v, u) { assert ReaderOk(w, u) && ConnOk(w, u); }
    forall q ensures RetireOk(v, q) { assert RetireOk(w, q); }
    forall m ensures LegOk(v, m) { assert LegOk(w, m); }
  }

  lemma ConnectStarts(w: World, t: Target, l: LegId, sid: Option<byte>)
    requires w in Good && !w.closing && l !in w.legs && t !in w.conns && t !in w.readers
    requires w.pc.Idle? || (w.pc.AwaitRetire? && w.pc.task in w.retirements && w.retirements[w.pc.task].stage.Retired?)
    ensures StartConnect(w, t, l, sid) in Good
  {
    var v := StartConnect(w, t, l, sid);
    assert LegOk(w, l);
    ConnectStartsLegs(w, t, l, sid);
    forall u ensures ReaderOk(v, u) && ConnOk(v, u) { assert ReaderOk(w, u) && ConnOk(w, u); }
  }

  lemma ConnectStartsLegs(w: World, t: Target, l: LegId, sid: Option<byte>)
    requires AllLegs(w) && AllRetirements(w) && l !in w.legs
    requires w.pc.Idle? || (w.pc.AwaitRetire? && w.pc.task in w.retirements && w.retirements[w.pc.task].stage.Retired?)
    ensures AllLegs(StartConnect(w, t, l, sid)) && AllRetirements(StartConnect(w, t, l, sid))
  {
    var v := StartConnect(w, t, l, sid);
    assert LegOk(w, l);
    forall m ensures LegOk(v, m) { assert LegOk(w, m); }
    forall q ensures RetireOk(v, q) { assert RetireOk(w, q); }
  }

  /** Steps that only move the cleanup task on. */
  lemma CleanupMoves(w: World, c: Cleanup)
    requires w in Good && CleanupOk(w.(cleanup := c))
    requires w.cleanup.ClosingLegs? ==> w.cleanup.todo == {}
    requires Cleared(w.cleanup) ==> Cleared(c)
    ensures w.(cleanup := c) in Good
  {
    var v := w.(cleanup := c);
    forall u ensures ReaderOk(v, u) && ConnOk(v, u) { assert ReaderOk(w, u) && ConnOk(w, u); }
    forall q ensures RetireOk(v, q) { assert RetireOk(w, q); }
    forall m ensures LegOk(v, m) { assert LegOk(w, m); }
  }

  // -------------------------------------------------------------- session task

  lemma DiagnoseKeeps(w: World, step: Step)
    requires w in Good && Enabled(w, step) && step.Diagnose?
    ensures Apply(w, step) in Good
  {
    var t := step.target;
    assert ConnOk(w, t) && ReaderOk(w, t);
    if t !in w.conns {
      ConnectStarts(w, t, step.spareLeg, step.sid);
    } else if w.legs[w.conns[t]].connected {
      ReadyKeeps(w, t, step.sid);
    } else {
      var v := Apply(w, step);
      assert LegOk(w, w.conns[t]);
      assert v.legs == w.legs[w.conns[t] := v.legs[w.conns[t]]];
      RetireStarts(w, v, t, w.conns[t], step.spareTask);
    }
  }

  lemma ReadyKeeps(w: World, t: Target, sid: Option<byte>)
    requires w in Good && w.pc.Idle? && t in w.conns
    ensures w.(pc := Ready(t, w.conns[t], sid)) in Good
  {
    var v := w.(pc := Ready(t, w.conns[t], sid));
    assert ConnOk(w, t) && ReaderOk(w, t);
    forall u ensures ReaderOk(v, u) && ConnOk(v, u) { assert ReaderOk(w, u) && ConnOk(w, u); }
    forall m ensures LegOk(v, m) { assert LegOk(w, m); }
    forall q ensures RetireOk(v, q) { assert RetireOk(w, q); }
  }

  lemma ConnectReturnedKeeps(w: World, step: Step)
    requires w in Good && Enabled(w, step) && step.ConnectReturned?
    ensures Apply(w, step) in Good
  {
    var v := Apply(w, step);
    forall u ensures ReaderOk(v, u) && ConnOk(v, u) { assert ReaderOk(w, u) && ConnOk(w, u); }
    forall m ensures LegOk(v, m) { assert LegOk(w, m); }
    forall q ensures RetireOk(v, q) { assert RetireOk(w, q); }
  }

  lemma SendKeeps(w: World, step: Step)
    requires w in Good && Enabled(w, step) && step.Send?
    ensures Apply(w, step) in Good
  {
    var v := Apply(w, step);
    assert LegOk(w, w.pc.leg);
    if w.closing {
      forall u ensures ReaderOk(v, u) && ConnOk(v, u) { assert ReaderOk(w, u) && ConnOk(w, u); }
      forall m ensures LegOk(v, m) { assert LegOk(w, m); }
      forall q ensures RetireOk(v, q) { assert RetireOk(w, q); }
    } else if step.ok {
      SentKeeps(w, step);
    } else {
      assert v.legs == w.legs[w.pc.leg := v.legs[w.pc.leg]];
      RetireStarts(w, v, w.pc.target, w.pc.leg, step.spareTask);
    }
  }

  lemma SentKeeps(w: World, step: Step)
    requires w in Good && Enabled(w, step) && step.Send? && step.ok && !w.closing
    ensures Apply(w, step) in Good
  {
    var v := Apply(w, step);
    assert ReaderOk(w, w.pc.target);
    forall u ensures ReaderOk(v, u) && ConnOk(v, u) { assert ReaderOk(w, u) && ConnOk(w, u); }
    forall m ensures LegOk(v, m) { assert LegOk(w, m); }
    forall q ensures RetireOk(v, q) { assert RetireOk(w, q); }
  }

  lemma StartReadKeeps(w: World, step: Step)
    requires w in Good && Enabled(w, step) && step.StartRead?
    ensures Apply(w, step) in Good
  {
    var v := Apply(w, step);
    forall u ensures ReaderOk(v, u) && ConnOk(v, u) { assert ReaderOk(w, u) && ConnOk(w, u); }
    forall m ensures LegOk(v, m) { assert LegOk(w, m); }
    forall q ensures RetireOk(v, q) { assert RetireOk(w, q); }
  }

  lemma TakeFrameKeeps(w: World, step: Step)
    requires w in Good && Enabled(w, step) && step.TakeFrame?
    ensures Apply(w, step) in Good
  {
    var v := Apply(w, step);
    TakeFrameConns(w, step);
    forall m ensures LegOk(v, m) { assert LegOk(w, m); }
    forall q ensures RetireOk(v, q) { assert RetireOk(w, q); }
  }

  lemma TakeFrameConns(w: World, step: Step)
    requires Enabled(w, step) && step.TakeFrame? && PcOk(w) && Readers(w) && Conns(w)
    ensures PcOk(Apply(w, step)) && Readers(Apply(w, step)) && Conns(Apply(w, step))
  {
    var v := Apply(w, step);
    assert ReaderOk(w, step.target);
    forall u ensures ReaderOk(v, u) && ConnOk(v, u) { assert ReaderOk(w, u) && ConnOk(w, u); }
  }

  /** What the exchange knows about the frame its read returned. */
  lemma FrameFacts(w: World, r: TaskId)
    requires PcOk(w) && CleanupOk(w) && Enabled(w, HandleFrame(r))
    ensures var frame := w.readers[w.pc.target].got.value;
            var leg := w.legs[w.pc.leg];
            && frame.request == w.pc.request
            && (IsFinal(frame.raw) ==> IdleLeg(leg))
            && (!IsFinal(frame.raw) ==> BusyLeg(leg.requests, leg.nextReply, w.pc.request, leg.stream))
  {
    var leg := w.legs[w.pc.leg];
    var toCome := ToCome(w.readers, w.pc.target, leg.stream);
    assert toCome[1..] == leg.stream;
    BusyConsume(leg.requests, leg.nextReply, w.pc.request, toCome);
  }

  lemma HandleFrameKeeps(w: World, step: Step)
    requires w in Good && Enabled(w, step) && step.HandleFrame?
    ensures Apply(w, step) in Good
  {
    var v := Apply(w, step);
    var pc := w.pc;
    var frame := w.readers[pc.target].got.value;
    FrameFacts(w, step.spareTask);
    VerdictFinal(w.strict, pc.sid, pc.st, frame.raw);
    RelayAttributed(w, v, Relay(pc.request, frame));
    var verdict := OnFrame(w.strict, pc.sid, pc.st, frame.raw);
    if verdict.Stop? && !verdict.completed {
      FrameRefused(w, step);
    } else {
      FrameAccepted(w, step);
    }
  }

  lemma FrameAccepted(w: World, step: Step)
    requires w in Good && Enabled(w, step) && step.HandleFrame? && AllAttributed(Apply(w, step))
    requires var v := OnFrame(w.strict, w.pc.sid, w.pc.st, w.readers[w.pc.target].got.value.raw);
             if v.Continue? then BusyLeg(w.legs[w.pc.leg].requests, w.legs[w.pc.leg].nextReply, w.pc.request, w.legs[w.pc.leg].stream)
             else v.completed && IdleLeg(w.legs[w.pc.leg])
    ensures Apply(w, step) in Good
  {
    FrameHandled(w, Apply(w, step));
  }

  lemma FrameRefused(w: World, step: Step)
    requires w in Good && Enabled(w, step) && step.HandleFrame? && AllAttributed(Apply(w, step))
    requires Apply(w, step).pc == AwaitRetire(step.spareTask, None)
    ensures Apply(w, step) in Good
  {
    var v := Apply(w, step);
    assert LegOk(w, w.pc.leg);
    RefusedStep(w, step);
    RetireStarts(w, v, w.pc.target, w.pc.leg, step.spareTask);
  }

  /** A refused frame only starts the retirement of its leg. */
  lemma RefusedStep(w: World, step: Step)
    requires Enabled(w, step) && step.HandleFrame? && Apply(w, step).pc == AwaitRetire(step.spareTask, None)
    requires w.pc.leg in w.legs
    ensures var v := Apply(w, step);
            && v.legs == w.legs[w.pc.leg := v.legs[w.pc.leg]] && v.readers == w.readers - {w.pc.target}
            && v == w.(readers := v.readers, log := v.log, pc := v.pc,
                       retirements := w.retirements[step.spareTask := Retirement(w.pc.target, w.pc.leg, Created)])
  {
    assert w.legs == w.legs[w.pc.leg := w.legs[w.pc.leg]];
  }

  lemma RelayFailsKeeps(w: World, step: Step)
    requires w in Good && Enabled(w, step) && step.RelayFails?
    ensures Apply(w, step) in Good
  {
    var v := Apply(w, step);
    FrameFacts(w, step.spareTask);
    RelayAttributed(w, v, Relay(w.pc.request, w.readers[w.pc.target].got.value));
    assert LegOk(w, w.pc.leg);
    assert w.legs == w.legs[w.pc.leg := w.legs[w.pc.leg]];
    RetireStarts(w, v, w.pc.target, w.pc.leg, step.spareTask);
  }

  lemma RelayAttributed(w: World, v: World, relay: Relay)
    requires AllAttributed(w) && Attributed(relay) && (v.log == w.log || v.log == w.log + [relay])
    ensures AllAttributed(v)
  {
    forall i | 0 <= i < |v.log| ensures Attributed(v.log[i]) {
      assert i < |w.log| ==> Attributed(w.log[i]);
    }
  }

  /** The exchange consumed a frame and either goes on or completed. */
  lemma FrameHandled(w: World, v: World)
    requires w in Good && w.pc.Exchanging? && AllAttributed(v)
    requires v == w.(readers := w.readers - {w.pc.target}, log := v.log, pc := v.pc)
    requires v.pc.Idle? || (v.pc.Exchanging? && v.pc == w.pc.(st := v.pc.st))
    requires v.pc.Idle? ==> IdleLeg(w.legs[w.pc.leg])
    requires v.pc.Exchanging? ==> BusyLeg(w.legs[w.pc.leg].requests, w.legs[w.pc.leg].nextReply, w.pc.request, w.legs[w.pc.leg].stream)
    ensures v in Good
  {
    forall u ensures ReaderOk(v, u) && ConnOk(v, u) { assert ReaderOk(w, u) && ConnOk(w, u); }
    forall m ensures LegOk(v, m) { assert LegOk(w, m); }
    forall q ensures RetireOk(v, q) { assert RetireOk(w, q); }
  }

  lemma GiveUpKeeps(w: World, r: TaskId)
    requires w in Good && Enabled(w, GiveUp(r))
    ensures Apply(w, GiveUp(r)) in Good
  {
    var v := Apply(w, GiveUp(r));
    assert LegOk(w, w.pc.leg);
    assert v.legs == w.legs[w.pc.leg := v.legs[w.pc.leg]];
    RetireStarts(w, v, w.pc.target, w.pc.leg, r);
  }

  lemma CancelKeeps(w: World, step: Step)
    requires w in Good && Enabled(w, step) && step.Cancel?
    ensures Apply(w, step) in Good
  {
    if w.pc.Exchanging? {
      GiveUpKeeps(w, step.spareTask);
    } else if w.pc.AwaitConnect? {
      CancelConnect(w);
    } else {
      CancelRetire(w);
    }
  }

  /** A cancelled connect or retirement wait is only remembered, never abandoned. */
  lemma CancelConnect(w: World)
    requires w in Good && w.pc.AwaitConnect?
    ensures w.(pc := w.pc.(cancelled := true)) in Good
  {
    var v := w.(pc := w.pc.(cancelled := true));
    forall u ensures ReaderOk(v, u) && ConnOk(v, u) { assert ReaderOk(w, u) && ConnOk(w, u); }
    forall m ensures LegOk(v, m) { assert LegOk(w, m); }
    forall q ensures RetireOk(v, q) { assert RetireOk(w, q); }
  }

  lemma CancelRetire(w: World)
    requires w in Good && w.pc.AwaitRetire?
    ensures w.(pc := w.pc.(reconnect := None)) in Good
  {
    var v := w.(pc := w.pc.(reconnect := None));
    forall u ensures ReaderOk(v, u) && ConnOk(v, u) { assert ReaderOk(w, u) && ConnOk(w, u); }
    forall m ensures LegOk(v, m) { assert LegOk(w, m); }
    forall q ensures RetireOk(v, q) { assert RetireOk(w, q); }
  }

  // ---------------------------------------------------------- connect children

  lemma ConnectOkKeeps(w: World, step: Step)
    requires w in Good && Enabled(w, step) && step.ConnectOk?
    ensures Apply(w, step) in Good
  {
    assert LegOk(w, step.leg);
    ConnectOkConns(w, step);
    ConnectOkLegs(w, step);
    ConnectOkCleanup(w, step);
  }

  lemma ConnectOkConns(w: World, step: Step)
    requires PcOk(w) && Readers(w) && Conns(w) && Enabled(w, step) && step.ConnectOk? && LegOk(w, step.leg)
    ensures PcOk(Apply(w, step)) && Readers(Apply(w, step)) && Conns(Apply(w, step))
  {
    var v := Apply(w, step);
    forall u ensures ReaderOk(v, u) && ConnOk(v, u) { assert ReaderOk(w, u) && ConnOk(w, u); }
  }

  lemma ConnectOkLegs(w: World, step: Step)
    requires AllLegs(w) && AllRetirements(w) && PcOk(w) && Enabled(w, step) && step.ConnectOk?
    ensures AllLegs(Apply(w, step)) && AllRetirements(Apply(w, step))
  {
    var v := Apply(w, step);
    assert LegOk(w, step.leg);
    forall m ensures LegOk(v, m) { assert LegOk(w, m); }
    forall q ensures RetireOk(v, q) { assert RetireOk(w, q); }
  }

  lemma ConnectOkCleanup(w: World, step: Step)
    requires CleanupOk(w) && AllAttributed(w) && AllLegs(w) && Enabled(w, step) && step.ConnectOk?
    ensures CleanupOk(Apply(w, step)) && AllAttributed(Apply(w, step))
  {
    assert LegOk(w, step.leg);
    assert Apply(w, step).log == w.log;
  }

  lemma ConnectFailKeeps(w: World, step: Step)
    requires w in Good && Enabled(w, step) && step.ConnectFail?
    ensures Apply(w, step) in Good
  {
    var v := Apply(w, step);
    assert LegOk(w, step.leg);
    forall u ensures ReaderOk(v, u) && ConnOk(v, u) { assert ReaderOk(w, u) && ConnOk(w, u); }
    forall m ensures LegOk(v, m) { assert LegOk(w, m); }
    forall q ensures RetireOk(v, q) { assert RetireOk(w, q); }
  }

  lemma ConnectReleasedKeeps(w: World, step: Step)
    requires w in Good && Enabled(w, step) && step.ConnectReleased?
    ensures Apply(w, step) in Good
  {
    var v := Apply(w, step);
    forall u ensures ReaderOk(v, u) && ConnOk(v, u) { assert ReaderOk(w, u) && ConnOk(w, u); }
    forall m ensures LegOk(v, m) { assert LegOk(w, m); }
    forall q ensures RetireOk(v, q) { assert RetireOk(w, q); }
  }

  // --------------------------------------------------------- retirement, close

  lemma RetireRunKeeps(w: World, step: Step)
    requires w in Good && Enabled(w, step) && step.RetireRun?
    ensures Apply(w, step) in Good
  {
    var v := Apply(w, step);
    assert RetireOk(w, step.task) && ReaderOk(w, w.retirements[step.task].target);
    forall u ensures ReaderOk(v, u) && ConnOk(v, u) { assert ReaderOk(w, u) && ConnOk(w, u); }
    forall m ensures LegOk(v, m) { assert LegOk(w, m); }
    forall q ensures RetireOk(v, q) { assert RetireOk(w, q); }
  }

  lemma RetireCloseKeeps(w: World, step: Step)
    requires w in Good && Enabled(w, step) && step.RetireClose?
    ensures Apply(w, step) in Good
  {
    var v := Apply(w, step);
    assert RetireOk(w, step.task);
    RetireCloseConns(w, step);
    RetireCloseLegs(w, step);
  }

  lemma RetireCloseLegs(w: World, step: Step)
    requires AllLegs(w) && AllRetirements(w) && Enabled(w, step) && step.RetireClose?
    ensures AllLegs(Apply(w, step)) && AllRetirements(Apply(w, step))
  {
    var v := Apply(w, step);
    assert RetireOk(w, step.task);
    forall m ensures LegOk(v, m) { assert LegOk(w, m); }
    forall q ensures RetireOk(v, q) { assert RetireOk(w, q); }
  }

  lemma RetireCloseConns(w: World, step: Step)
    requires Readers(w) && Conns(w) && PcOk(w) && Enabled(w, step) && step.RetireClose? && RetireOk(w, step.task)
    ensures Readers(Apply(w, step)) && Conns(Apply(w, step)) && PcOk(Apply(w, step))
  {
    var v := Apply(w, step);
    forall u ensures ReaderOk(v, u) && ConnOk(v, u) { assert ReaderOk(w, u) && ConnOk(w, u); }
  }

  lemma RetireDoneKeeps(w: World, step: Step)
    requires w in Good && Enabled(w, step) && step.RetireDone?
    ensures Apply(w, step) in Good
  {
    var v := Apply(w, step);
    forall u ensures ReaderOk(v, u) && ConnOk(v, u) { assert ReaderOk(w, u) && ConnOk(w, u); }
    forall m ensures LegOk(v, m) { assert LegOk(w, m); }
    forall q ensures RetireOk(v, q) { assert RetireOk(w, q); }
  }

  lemma RetireReturnedKeeps(w: World, step: Step)
    requires w in Good && Enabled(w, step) && step.RetireReturned?
    ensures Apply(w, step) in Good
  {
    var t := w.retirements[w.pc.task].target;
    if w.pc.reconnect.Some? && !w.closing {
      ConnectStarts(w, t, step.spareLeg, w.pc.reconnect.value);
    } else {
      RetireWaitEnds(w, step);
    }
  }

  lemma RetireWaitEnds(w: World, step: Step)
    requires w in Good && Enabled(w, step) && step.RetireReturned?
    ensures w.(pc := Idle) in Good
  {
    var v := w.(pc := Idle);
    forall u ensures ReaderOk(v, u) && ConnOk(v, u) { assert ReaderOk(w, u) && ConnOk(w, u); }
    forall m ensures LegOk(v, m) { assert LegOk(w, m); }
    forall q ensures RetireOk(v, q) { assert RetireOk(w, q); }
  }

  lemma CloseFinishedKeeps(w: World, step: Step)
    requires w in Good && Enabled(w, step) && step.CloseFinished?
    ensures Apply(w, step) in Good
  {
    var v := Apply(w, step);
    forall u ensures ReaderOk(v, u) && ConnOk(v, u) { assert ReaderOk(w, u) && ConnOk(w, u); }
    forall m ensures LegOk(v, m) { assert LegOk(w, m); }
    forall q ensures RetireOk(v, q) { assert RetireOk(w, q); }
  }

  // -------------------------------------------------------------- the ECU side

  lemma LegLostKeeps(w: World, step: Step)
    requires w in Good && Enabled(w, step) && step.LegLost?
    ensures Apply(w, step) in Good
  {
    var leg := w.legs[step.leg].(connected := false);
    assert LegOk(w, step.leg);
    LegChangeLegs(w, step.leg, leg);
    LegChangeConns(w, step.leg, leg);
  }

  /** What a leg owes and who will close it does not depend on its frame stream. */
  lemma LegChangeLegs(w: World, l: LegId, leg: Leg)
    requires l in w.legs && AllLegs(w) && AllRetirements(w) && CleanupOk(w)
    requires leg.target == w.legs[l].target && leg.setup == w.legs[l].setup && leg.closes == w.legs[l].closes
    requires leg.requests == w.legs[l].requests && leg.nextReply <= |leg.requests|
    requires leg.requests == [] ==> leg.stream == w.legs[l].stream
    ensures AllLegs(w.(legs := w.legs[l := leg])) && AllRetirements(w.(legs := w.legs[l := leg]))
    ensures CleanupOk(w.(legs := w.legs[l := leg]))
  {
    var v := w.(legs := w.legs[l := leg]);
    forall m ensures LegOk(v, m) { assert LegOk(w, m); }
    forall q ensures RetireOk(v, q) { assert RetireOk(w, q); }
  }

  /** A change to one leg's stream matters only to its exchange, if it has one. */
  lemma LegChangeConns(w: World, l: LegId, leg: Leg)
    requires l in w.legs && PcOk(w) && Readers(w) && Conns(w)
    requires leg.target == w.legs[l].target && leg.setup == w.legs[l].setup
    requires IdleLeg(w.legs[l]) ==> IdleLeg(leg)
    requires w.pc.Exchanging? && w.pc.leg == l && !Cleared(w.cleanup) ==>
      BusyLeg(leg.requests, leg.nextReply, w.pc.request, ToCome(w.readers, w.pc.target, leg.stream))
    ensures PcOk(w.(legs := w.legs[l := leg])) && Readers(w.(legs := w.legs[l := leg]))
    ensures Conns(w.(legs := w.legs[l := leg]))
  {
    var v := w.(legs := w.legs[l := leg]);
    forall u ensures ReaderOk(v, u) && ConnOk(v, u) { assert ReaderOk(w, u) && ConnOk(w, u); }
  }

  lemma EmitBusy(w: World, l: LegId, i: nat, raw: Frame)
    requires Enabled(w, EcuEmits(l, i, raw)) && PcOk(w) && w.pc.Exchanging? && w.pc.leg == l && !Cleared(w.cleanup)
    ensures BusyLeg(w.legs[l].requests, if IsFinal(raw) then i + 1 else i, w.pc.request,
                    ToCome(w.readers, w.pc.target, w.legs[l].stream + [Emitted(raw, w.legs[l].requests[i])]))
  {
    var leg := w.legs[l];
    var toCome := ToCome(w.readers, w.pc.target, leg.stream);
    var e := Emitted(raw, leg.requests[i]);
    BusyEmit(leg.requests, leg.nextReply, w.pc.request, toCome, i, raw);
    assert ToCome(w.readers, w.pc.target, leg.stream + [e]) == toCome + [e];
  }

  lemma EcuEmitsKeeps(w: World, step: Step)
    requires w in Good && Enabled(w, step) && step.EcuEmits?
    ensures Apply(w, step) in Good
  {
    var l, i, raw := step.leg, step.index, step.raw;
    var leg := Apply(w, step).legs[l];
    if w.pc.Exchanging? && w.pc.leg == l && !Cleared(w.cleanup) {
      EmitBusy(w, l, i, raw);
    }
    LegChangeLegs(w, l, leg);
    LegChangeConns(w, l, leg);
  }

  // ------------------------------------------------------------------ cleanup

  lemma CloseSessionKeeps(w: World, step: Step)
    requires w in Good && Enabled(w, step) && step.CloseSession?
    ensures Apply(w, step) in Good
  {
    var v := Apply(w, step);
    forall u ensures ReaderOk(v, u) && ConnOk(v, u) { assert ReaderOk(w, u) && ConnOk(w, u); }
    forall m ensures LegOk(v, m) { assert LegOk(w, m); }
    forall q ensures RetireOk(v, q) { assert RetireOk(w, q); }
  }

  lemma ClearLegsKeeps(w: World, step: Step)
    requires w in Good && Enabled(w, step) && step.ClearLegs?
    ensures Apply(w, step) in Good
  {
    var v := Apply(w, step);
    forall l | l in w.conns.Values ensures l in w.legs && w.legs[l].setup.Up? {
      var t :| t in w.conns && w.conns[t] == l;
      assert ConnOk(w, t);
    }
    forall u ensures ReaderOk(v, u) && ConnOk(v, u) {}
    forall m ensures LegOk(v, m) { assert LegOk(w, m); }
    forall q ensures RetireOk(v, q) { assert RetireOk(w, q); }
  }

  lemma CloseNextKeeps(w: World, step: Step)
    requires w in Good && Enabled(w, step) && step.CloseNext?
    ensures Apply(w, step) in Good
  {
    var v := Apply(w, step);
    CloseNextConns(w, step);
    forall m ensures LegOk(v, m) { assert LegOk(w, m); }
    forall q ensures RetireOk(v, q) { assert RetireOk(w, q); }
  }

  lemma CloseNextConns(w: World, step: Step)
    requires Enabled(w, step) && step.CloseNext? && PcOk(w) && CleanupOk(w)
    ensures PcOk(Apply(w, step)) && Readers(Apply(w, step)) && Conns(Apply(w, step)) && CleanupOk(Apply(w, step))
  {
  }

  lemma LateFrameKeeps(w: World, step: Step)
    requires w in Good && Enabled(w, step) && step.LateFrame?
    ensures Apply(w, step) in Good
  {
    var v := Apply(w, step);
    forall m ensures LegOk(v, m) { assert LegOk(w, m); }
    forall q ensures RetireOk(v, q) { assert RetireOk(w, q); }
  }

  lemma CleanupStepKeeps(w: World, step: Step)
    requires w in Good && Enabled(w, step)
    requires step.SnapshotConnects? || step.JoinConnects? || step.JoinLegs? || step.JoinRetirements? || step.JoinCloses?
    ensures Apply(w, step) in Good
  {
    if step.JoinRetirements? {
      JoinRetirementsKeeps(w);
    } else {
      CleanupMoves(w, Apply(w, step).cleanup);
    }
  }

  lemma JoinRetirementsKeeps(w: World)
    requires w in Good && Enabled(w, JoinRetirements)
    ensures Apply(w, JoinRetirements) in Good
  {
    forall l | l in w.legs && w.legs[l].setup.Up? ensures l in w.closeTasks {
      assert LegOk(w, l);
    }
    CleanupMoves(w, Apply(w, JoinRetirements).cleanup);
  }
}
