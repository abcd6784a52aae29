/** Response attribution and leg conservation over every interleaving. */
module LegsTheorems {
  import opened Legs
  import opened LegsInvariant
  import opened LegsSteps

  predicate TeardownStep(step: Step) {
    step.CloseSession? || step.SnapshotConnects? || step.JoinConnects? || step.ClearLegs? || step.CloseNext?
    || step.JoinLegs? || step.JoinRetirements? || step.JoinCloses? || step.CloseFinished? || step.LateFrame?
  }

  lemma TeardownKeeps(w: World, step: Step)
    requires w in Good && Enabled(w, step) && TeardownStep(step)
    ensures Apply(w, step) in Good
  {
    if step.CloseSession? {
      CloseSessionKeeps(w, step);
    } else if step.LateFrame? {
      LateFrameKeeps(w, step);
    } else if step.ClearLegs? || step.CloseNext? || step.CloseFinished? {
      CloseLegsKeeps(w, step);
    } else {
      CleanupStepKeeps(w, step);
    }
  }

  lemma CloseLegsKeeps(w: World, step: Step)
    requires w in Good && Enabled(w, step) && (step.ClearLegs? || step.CloseNext? || step.CloseFinished?)
    ensures Apply(w, step) in Good
  {
    match step
    case ClearLegs => ClearLegsKeeps(w, step);
    case CloseNext(_) => CloseNextKeeps(w, step);
    case CloseFinished(_) => CloseFinishedKeeps(w, step);
  }

  lemma StepKeeps(w: World, step: Step)
    requires w in Good && Enabled(w, step)
    ensures Apply(w, step) in Good
  {
    if TeardownStep(step) {
      TeardownKeeps(w, step);
    } else {
      match step
      case Diagnose(_, _, _, _) => DiagnoseKeeps(w, step);
      case ConnectOk(_) => ConnectOkKeeps(w, step);
      case ConnectFail(_) => ConnectFailKeeps(w, step);
      case ConnectReleased(_) => ConnectReleasedKeeps(w, step);
      case ConnectReturned => ConnectReturnedKeeps(w, step);
      case Send(_, _, _) => SendKeeps(w, step);
      case StartRead => StartReadKeeps(w, step);
      case TakeFrame(_) => TakeFrameKeeps(w, step);
      case HandleFrame(_) => HandleFrameKeeps(w, step);
      case RelayFails(_, _) => RelayFailsKeeps(w, step);
      case GiveUp(r) => GiveUpKeeps(w, r);
      case Cancel(_) => CancelKeeps(w, step);
      case RetireRun(_) => RetireRunKeeps(w, step);
      case RetireClose(_) => RetireCloseKeeps(w, step);
      case RetireDone(_) => RetireDoneKeeps(w, step);
      case RetireReturned(_) => RetireReturnedKeeps(w, step);
      case LegLost(_) => LegLostKeeps(w, step);
      case EcuEmits(_, _, _) => EcuEmitsKeeps(w, step);
    }
  }

  lemma {:induction false} RunKeeps(w: World, steps: seq<Step>, last: World)
    requires w in Good && Runs(w, steps, last)
    ensures last in Good
    decreases |steps|
  {
    if steps != [] {
      StepKeeps(w, steps[0]);
      RunKeeps(Apply(w, steps[0]), steps[1..], last);
    }
  }

  lemma Reached(strict: bool, steps: seq<Step>, w: World)
    requires Runs(Initial(strict), steps, w)
    ensures w in Good
  {
    var start := Initial(strict);
    assert Readers(start) && Conns(start) && AllLegs(start) && AllRetirements(start) && AllAttributed(start);
    RunKeeps(start, steps, w);
  }

  /** Response attribution: if every ECU answers the requests of a leg in order and
      sends nothing for a request after its final frame, then in every interleaving
      each frame relayed in an exchange was emitted for that exchange's request. */
  lemma ResponseAttribution(strict: bool, steps: seq<Step>, w: World, i: nat)
    requires Runs(Initial(strict), steps, w) && i < |w.log|
    ensures w.log[i].frame.request == w.log[i].request
  {
    Reached(strict, steps, w);
    assert Attributed(w.log[i]);
  }

  /** A leg still cached between exchanges is clean: nothing buffered, no read
      outstanding, and its ECU has no frame left to send. */
  lemma CachedLegIsClean(strict: bool, steps: seq<Step>, w: World, t: Target)
    requires Runs(Initial(strict), steps, w) && w.pc.Idle? && t in w.conns
    ensures t !in w.readers && w.conns[t] in w.legs && w.legs[w.conns[t]].stream == []
    ensures forall i, raw :: !Enabled(w, EcuEmits(w.conns[t], i, raw))
  {
    Reached(strict, steps, w);
    assert ConnOk(w, t);
  }

  /** Leg conservation: no leg is ever closed twice, and when the teardown has
      finished every leg whose setup succeeded has been closed exactly once, its
      close is over and nothing is cached. */
  lemma LegConservation(strict: bool, steps: seq<Step>, w: World, l: LegId)
    requires Runs(Initial(strict), steps, w) && l in w.legs
    ensures w.legs[l].closes <= 1
    ensures w.cleanup.Done? ==> w.conns == map[] && w.readers == map[]
    ensures w.cleanup.Done? && w.legs[l].setup.Up? ==>
              w.legs[l].closes == 1 && l in w.closeTasks && w.closeTasks[l]
    ensures w.cleanup.Done? && !w.legs[l].setup.Up? ==> w.legs[l].setup.Broken? && w.legs[l].closes == 0
  {
    Reached(strict, steps, w);
    assert LegOk(w, l);
  }
}
