/** A teardown that has started always finishes, whatever state it interrupted. */
module LegsProgress {
  import opened Legs
  import opened LegsInvariant
  import opened LegsTheorems

  /** Steps the teardown and the tasks it joins take by themselves: a connect attempt
      gives up at its timeout, closes end within their bound. */
  predicate OwnStep(step: Step) {
    || step.SnapshotConnects? || step.JoinConnects? || step.ClearLegs? || step.CloseNext? || step.JoinLegs?
    || step.JoinRetirements? || step.JoinCloses? || step.CloseFinished? || step.ConnectFail? || step.ConnectReleased?
    || step.RetireRun? || step.RetireClose? || step.RetireDone?
  }

  /** The own steps that can be taken in `w`. */
  ghost function OwnSteps(w: World): iset<Step> { iset step | OwnStep(step) && Enabled(w, step) }

  // ---------------------------------------------------------------- going on

  lemma ConnectsGoOn(w: World) returns (step: Step)
    requires w in Good && w.cleanup.JoiningConnects?
    ensures step in OwnSteps(w)
  {
    if l :| l in w.cleanup.connects && l in w.connects && !w.connects[l].Finished? {
      assert LegOk(w, l);
      step := if w.connects[l].Running? then ConnectFail(l)
              else if w.closeTasks[l] then ConnectReleased(l) else CloseFinished(l);
    } else {
      step := JoinConnects;
    }
  }

  lemma LegsGoOn(w: World) returns (step: Step)
    requires w in Good && w.cleanup.ClosingLegs?
    ensures step in OwnSteps(w)
  {
    if l :| l in w.cleanup.todo {
      step := CloseNext(l);
    } else if l :| l in w.cleanup.joined && l in w.closeTasks && !w.closeTasks[l] {
      step := CloseFinished(l);
    } else {
      step := JoinLegs;
    }
  }

  lemma RetirementsGoOn(w: World) returns (step: Step)
    requires w in Good && w.cleanup.JoiningRetirements?
    ensures step in OwnSteps(w)
  {
    if r :| r in w.cleanup.tasks && r in w.retirements && !w.retirements[r].stage.Retired? {
      assert RetireOk(w, r);
      var task := w.retirements[r];
      match task.stage
      case Created => step := RetireRun(r);
      case Detached => step := RetireClose(r);
      case Joining => step := if w.closeTasks[task.leg] then RetireDone(r) else CloseFinished(task.leg);
    } else {
      step := JoinRetirements;
    }
  }

  lemma TeardownGoesOn(w: World) returns (step: Step)
    requires w in Good && !w.cleanup.NotStarted? && !w.cleanup.Done?
    ensures step in OwnSteps(w)
  {
    match w.cleanup
    case Started => step := SnapshotConnects;
    case JoiningConnects(_) => step := ConnectsGoOn(w);
    case JoiningReads => step := ClearLegs;
    case ClosingLegs(_, _) => step := LegsGoOn(w);
    case JoiningRetirements(_) => step := RetirementsGoOn(w);
    case JoiningCloses(s) =>
      if l :| l in s && l in w.closeTasks && !w.closeTasks[l] {
        step := CloseFinished(l);
      } else {
        step := JoinCloses;
      }
  }

  // ------------------------------------------------------------ what is left to do

  function PhasesLeft(c: Cleanup): nat {
    match c
    case NotStarted => 7
    case Started => 6
    case JoiningConnects(_) => 5
    case JoiningReads => 4
    case ClosingLegs(_, _) => 3
    case JoiningRetirements(_) => 2
    case JoiningCloses(_) => 1
    case Done => 0
  }

  ghost function OpenCloses(w: World): set<LegId> {
    set l | l in w.closeTasks && !w.closeTasks[l]
  }

  ghost function OpenConnects(w: World): set<LegId> {
    set l | l in w.connects && !w.connects[l].Finished?
  }

  /** The legs the teardown still has to start closing. */
  ghost function ToClose(w: World): set<LegId> {
    if w.cleanup.ClosingLegs? then w.cleanup.todo else w.conns.Values
  }

  /** What is left of the retirement the session waits for; no other is under way. */
  function StagesLeft(w: World): nat {
    if !w.pc.AwaitRetire? || w.pc.task !in w.retirements then 0
    else match w.retirements[w.pc.task].stage
      case Created => 3
      case Detached => 2
      case Joining => 1
      case Retired => 0
  }

  /** Starting a close counts for two: it leaves a close to be finished. */
  ghost function Work(w: World): nat {
    PhasesLeft(w.cleanup) + |OpenConnects(w)| + |OpenCloses(w)| + 2 * |ToClose(w)| + 2 * StagesLeft(w)
  }

  /** Nearer to the end: less work, and a teardown that has started stays so. */
  ghost predicate Nearer(w: World, v: World) {
    Work(v) < Work(w) && (v.cleanup.NotStarted? ==> w.cleanup.NotStarted?)
  }

  lemma FewerClose(w: World, v: World, l: LegId)
    requires v == w.(closeTasks := w.closeTasks[l := true]) && l in w.closeTasks && !w.closeTasks[l]
    ensures Nearer(w, v)
  {
    assert OpenCloses(v) == OpenCloses(w) - {l} && l in OpenCloses(w);
    assert OpenConnects(v) == OpenConnects(w);
  }

  lemma FewerConnect(w: World, step: Step)
    requires Enabled(w, step) && (step.ConnectFail? || step.ConnectReleased?)
    ensures Nearer(w, Apply(w, step))
  {
    var v := Apply(w, step);
    assert OpenConnects(v) == OpenConnects(w) - {step.leg} && step.leg in OpenConnects(w);
    assert OpenCloses(v) == OpenCloses(w);
  }

  /** Closing once opens at most one close. */
  lemma OneMoreClose(w: World, l: LegId)
    requires l in w.legs
    ensures |OpenCloses(CloseOnce(w, l))| <= |OpenCloses(w)| + 1
    ensures OpenConnects(CloseOnce(w, l)) == OpenConnects(w)
  {
    assert OpenCloses(CloseOnce(w, l)) <= OpenCloses(w) + {l};
    Subset(OpenCloses(CloseOnce(w, l)), OpenCloses(w) + {l});
  }

  lemma {:induction false} Subset(a: set<LegId>, b: set<LegId>)
    requires a <= b
    ensures |a| <= |b|
    decreases |b|
  {
    if x :| x in b {
      Subset(a - {x}, b - {x});
    }
  }

  lemma FewerToClose(w: World, l: LegId)
    requires Enabled(w, CloseNext(l))
    ensures Nearer(w, Apply(w, CloseNext(l)))
  {
    var u := w.(cleanup := ClosingLegs(w.cleanup.todo - {l}, w.cleanup.joined + {l}));
    OneMoreClose(u, l);
    OneLessToClose(w, u, l);
  }

  lemma OneLessToClose(w: World, u: World, l: LegId)
    requires w.cleanup.ClosingLegs? && l in w.cleanup.todo
    requires u == w.(cleanup := ClosingLegs(w.cleanup.todo - {l}, w.cleanup.joined + {l}))
    ensures |ToClose(u)| < |ToClose(w)| && OpenCloses(u) == OpenCloses(w) && OpenConnects(u) == OpenConnects(w)
  {
    assert ToClose(u) == ToClose(w) - {l};
  }

  /** The session's retirement detaches its leg. */
  lemma RetireRunFewer(w: World, v: World, r: TaskId)
    requires v.closeTasks == w.closeTasks && v.connects == w.connects && v.cleanup == w.cleanup && v.pc == w.pc
    requires w.pc.AwaitRetire? && w.pc.task == r && r in w.retirements && w.retirements[r].stage.Created?
    requires v.conns == w.conns || v.conns == w.conns - {w.retirements[r].target}
    requires v.retirements == w.retirements[r := w.retirements[r].(stage := Detached)]
    ensures Nearer(w, v)
  {
    FewerCached(w.conns, w.retirements[r].target);
    assert OpenConnects(v) == OpenConnects(w) && OpenCloses(v) == OpenCloses(w);
  }

  lemma FewerCached(conns: map<Target, LegId>, t: Target)
    ensures |(conns - {t}).Values| <= |conns.Values|
  {
    assert (conns - {t}).Values <= conns.Values;
    Subset((conns - {t}).Values, conns.Values);
  }

  lemma RetireCloseFewer(w: World, r: TaskId)
    requires Enabled(w, RetireClose(r)) && w.pc.AwaitRetire? && w.pc.task == r
    ensures Nearer(w, Apply(w, RetireClose(r)))
  {
    var u := w.(retirements := w.retirements[r := w.retirements[r].(stage := Joining)]);
    OneMoreClose(u, w.retirements[r].leg);
    assert OpenConnects(u) == OpenConnects(w) && OpenCloses(u) == OpenCloses(w) && ToClose(u) == ToClose(w);
  }

  lemma FewerStages(w: World, step: Step)
    requires w in Good && Enabled(w, step) && (step.RetireRun? || step.RetireClose? || step.RetireDone?)
    ensures Nearer(w, Apply(w, step))
  {
    assert RetireOk(w, step.task);
    if step.RetireRun? {
      RetireRunFewer(w, RetireRunStep(w, step.task), step.task);
    } else if step.RetireClose? {
      RetireCloseFewer(w, step.task);
    } else {
      var v := Apply(w, step);
      assert OpenConnects(v) == OpenConnects(w) && OpenCloses(v) == OpenCloses(w);
    }
  }

  /** Moving to the next phase leaves the rest of the work as it is. */
  lemma NextPhase(w: World, c: Cleanup)
    requires PhasesLeft(c) < PhasesLeft(w.cleanup)
    requires (if c.ClosingLegs? then c.todo else w.conns.Values) == ToClose(w)
    ensures Nearer(w, w.(cleanup := c))
  {
    var v := w.(cleanup := c);
    assert OpenCloses(v) == OpenCloses(w) && OpenConnects(v) == OpenConnects(w);
  }

  lemma ClearsLegs(w: World)
    requires w.cleanup.JoiningReads?
    ensures Nearer(w, Apply(w, ClearLegs))
  {
    var v := Apply(w, ClearLegs);
    assert OpenCloses(v) == OpenCloses(w) && OpenConnects(v) == OpenConnects(w) && ToClose(v) == ToClose(w);
  }

  lemma FewerPhases(w: World, step: Step)
    requires w in Good && Enabled(w, step)
    requires step.SnapshotConnects? || step.JoinConnects? || step.ClearLegs? || step.JoinLegs? || step.JoinRetirements? || step.JoinCloses?
    ensures Nearer(w, Apply(w, step))
  {
    if step.ClearLegs? {
      ClearsLegs(w);
    } else {
      NextPhase(w, Apply(w, step).cleanup);
    }
  }

  lemma WorkShrinks(w: World, step: Step)
    requires w in Good && Enabled(w, step) && OwnStep(step)
    ensures Nearer(w, Apply(w, step))
  {
    if step.CloseFinished? {
      FewerClose(w, Apply(w, step), step.leg);
    } else if step.ConnectFail? || step.ConnectReleased? {
      FewerConnect(w, step);
    } else if step.CloseNext? {
      FewerToClose(w, step.leg);
    } else if step.RetireRun? || step.RetireClose? || step.RetireDone? {
      FewerStages(w, step);
    } else {
      FewerPhases(w, step);
    }
  }

  // -------------------------------------------------------------------- theorem

  ghost predicate AllOwn(steps: seq<Step>) { forall i :: 0 <= i < |steps| ==> OwnStep(steps[i]) }

  lemma {:induction false} OwnRunBounded(w: World, own: seq<Step>, last: World)
    requires w in Good && Runs(w, own, last) && AllOwn(own)
    ensures |own| <= Work(w)
    decreases |own|
  {
    if own != [] {
      var v := Apply(w, own[0]);
      WorkShrinks(w, own[0]);
      assert Work(v) < Work(w);
      StepKeeps(w, own[0]);
      assert Runs(v, own[1..], last) && AllOwn(own[1..]);
      OwnRunBounded(v, own[1..], last);
    }
  }

  lemma {:induction false} StaysStarted(w: World, own: seq<Step>, last: World)
    requires w in Good && Runs(w, own, last) && AllOwn(own) && !w.cleanup.NotStarted?
    ensures !last.cleanup.NotStarted?
    decreases |own|
  {
    if own != [] {
      WorkShrinks(w, own[0]);
      StepKeeps(w, own[0]);
      StaysStarted(Apply(w, own[0]), own[1..], last);
    }
  }

  /** A started teardown always finishes.  From every reachable world in which the session
      is being torn down, steps of the teardown and of the tasks it joins cannot go on for
      ever, and when none of them is left to take the teardown is done. */
  lemma TeardownFinishes(strict: bool, steps: seq<Step>, w: World, own: seq<Step>, last: World)
    requires Runs(Initial(strict), steps, w) && !w.cleanup.NotStarted?
    requires Runs(w, own, last) && AllOwn(own)
    ensures |own| <= Work(w)
    ensures OwnSteps(last) == iset{} ==> last.cleanup.Done?
  {
    Reached(strict, steps, w);
    OwnRunBounded(w, own, last);
    RunKeeps(w, own, last);
    StaysStarted(w, own, last);
    if !last.cleanup.Done? {
      var step := TeardownGoesOn(last);
    }
  }
}
