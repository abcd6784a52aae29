/** What every step of the leg lifecycle keeps. */
module LegsInvariant {
  import opened Common
  import opened Exchange
  import opened Legs

  // ------------------------------------------------------------- attribution

  /** The frames for target `t` the session has not handled yet, in order. */
  ghost function ToCome(readers: map<Target, ReadTask>, t: Target, stream: seq<Emitted>): seq<Emitted> {
    if t in readers && readers[t].got.Some? then [readers[t].got.value] + stream else stream
  }

  /** Every request written to this leg has been answered to the end and consumed. */
  ghost predicate IdleLeg(leg: Leg) {
    leg.stream == [] && leg.nextReply == |leg.requests|
  }

  /** Only the current request can still produce frames; a final one is the last. */
  ghost predicate BusyLeg(requests: seq<RequestId>, nextReply: nat, k: RequestId, toCome: seq<Emitted>) {
    var n := |requests|;
    && n > 0 && requests[n - 1] == k && n - 1 <= nextReply <= n
    && (forall i :: 0 <= i < |toCome| ==> toCome[i].request == k)
    && (forall i :: 0 <= i < |toCome| - 1 ==> !IsFinal(toCome[i].raw))
    && (nextReply == n <==> toCome != [] && IsFinal(toCome[|toCome| - 1].raw))
  }

  ghost predicate Attributed(relay: Relay) {
    relay.frame.request == relay.request
  }

  // ------------------------------------------------------------ session task

  ghost predicate IsLeg(w: World, t: Target, l: LegId) {
    && l in w.legs && w.legs[l].setup.Up? && w.legs[l].target == t
    && (t in w.conns ==> w.conns[t] == l)
  }

  ghost predicate PcOk(w: World) {
    match w.pc
    case Idle => true
    case AwaitConnect(t, l, _, _) =>
      && l in w.connects && l in w.legs && w.legs[l].target == t && t !in w.readers
      && (!w.connects[l].Finished? ==> t !in w.conns)
      && (w.connects[l] == Finished(true) ==> IsLeg(w, t, l) && IdleLeg(w.legs[l]))
    case Ready(t, l, _) => IsLeg(w, t, l) && IdleLeg(w.legs[l]) && t !in w.readers
    case Exchanging(t, l, _, k, _) =>
      && IsLeg(w, t, l)
      && (Cleared(w.cleanup)
          || BusyLeg(w.legs[l].requests, w.legs[l].nextReply, k, ToCome(w.readers, t, w.legs[l].stream)))
      && (t in w.readers ==> w.readers[t].leg == l)
    case AwaitRetire(r, _) =>
      && r in w.retirements
      && var task := w.retirements[r];
         && IsLeg(w, task.target, task.leg)
         && (!task.stage.Created? ==> task.target !in w.conns && task.target !in w.readers)
  }

  ghost predicate Retires(w: World, l: LegId) {
    w.pc.AwaitRetire? && w.pc.task in w.retirements && w.retirements[w.pc.task].leg == l
  }

  /** A read is outstanding only inside an exchange, until its retirement drains it. */
  ghost predicate ReaderOk(w: World, t: Target) {
    t in w.readers ==>
      || (w.pc.Exchanging? && w.pc.target == t && w.pc.leg == w.readers[t].leg)
      || (Retires(w, w.readers[t].leg) && w.retirements[w.pc.task].target == t
          && w.retirements[w.pc.task].stage.Created?)
  }

  /** A cached leg is either the one in use or clean. */
  ghost predicate ConnOk(w: World, t: Target) {
    t in w.conns ==>
      && IsLeg(w, t, w.conns[t]) && w.conns[t] !in w.closeTasks
      && ((w.pc.Exchanging? && w.pc.leg == w.conns[t])
          || Retires(w, w.conns[t])
          || (IdleLeg(w.legs[w.conns[t]]) && t !in w.readers))
  }

  // ------------------------------------------------------------- conservation

  /** Who will close leg `l` if nobody has started to. */
  ghost predicate Kept(w: World, l: LegId)
    requires l in w.legs
  {
    || (w.legs[l].target in w.conns && w.conns[w.legs[l].target] == l)
    || (Retires(w, l) && w.retirements[w.pc.task].stage.Detached?)
    || (w.cleanup.ClosingLegs? && l in w.cleanup.todo)
  }

  ghost predicate LegOk(w: World, l: LegId) {
    && (l in w.closeTasks || l in w.connects ==> l in w.legs)
    && (l in w.legs ==>
          && l in w.connects
          && w.legs[l].closes == (if l in w.closeTasks then 1 else 0)
          && w.legs[l].nextReply <= |w.legs[l].requests|
          && (l in w.closeTasks ==> w.legs[l].setup.Up?)
          && (w.connects[l].Running? <==> w.legs[l].setup.Connecting?)
          && (w.connects[l].Running? ==> w.pc.AwaitConnect? && w.pc.leg == l && w.legs[l].requests == []
                                         && w.legs[l].stream == [])
          && (w.connects[l].Releasing? ==> l in w.closeTasks)
          && (w.legs[l].setup.Up? && l !in w.closeTasks ==> Kept(w, l)))
  }

  ghost predicate RetireOk(w: World, r: TaskId) {
    r in w.retirements ==>
      var task := w.retirements[r];
      && task.leg in w.legs && w.legs[task.leg].setup.Up?
      && (task.stage.Joining? || task.stage.Retired? ==> task.leg in w.closeTasks)
      && (task.stage.Retired? ==> w.closeTasks[task.leg])
      && (!task.stage.Retired? ==> w.pc.AwaitRetire? && w.pc.task == r)
  }

  ghost predicate NoConnects(w: World) {
    forall l :: l in w.connects ==> w.connects[l].Finished?
  }

  ghost predicate AllClosing(w: World) {
    forall l :: l in w.legs && w.legs[l].setup.Up? ==> l in w.closeTasks
  }

  /** The session waits for a retirement that has not reached its close yet. */
  ghost predicate Unclosed(w: World) {
    && w.pc.AwaitRetire? && w.pc.task in w.retirements
    && !w.retirements[w.pc.task].stage.Retired? && w.retirements[w.pc.task].leg !in w.closeTasks
  }

  ghost predicate CleanupOk(w: World) {
    && (!w.cleanup.NotStarted? ==> w.closing)
    && match w.cleanup
       case NotStarted => true
       case Started => true
       case JoiningConnects(s) => forall l :: l in w.connects && !w.connects[l].Finished? ==> l in s
       case JoiningReads => NoConnects(w)
       case ClosingLegs(todo, joined) =>
         && NoConnects(w) && w.conns == map[] && w.readers == map[]
         && forall l :: l in todo ==> l in w.legs && w.legs[l].setup.Up?
       case JoiningRetirements(tasks) =>
         && NoConnects(w) && w.conns == map[] && w.readers == map[]
         && (Unclosed(w) ==> w.pc.task in tasks)
       case JoiningCloses(legs) =>
         && NoConnects(w) && w.conns == map[] && w.readers == map[] && AllClosing(w)
         && forall l :: l in w.closeTasks && !w.closeTasks[l] ==> l in legs
       case Done =>
         && NoConnects(w) && w.conns == map[] && w.readers == map[] && AllClosing(w)
         && forall l :: l in w.closeTasks ==> w.closeTasks[l]
  }

  ghost predicate Readers(w: World) {
    forall t {:trigger ReaderOk(w, t)} :: ReaderOk(w, t)
  }

  ghost predicate Conns(w: World) {
    forall t {:trigger ConnOk(w, t)} :: ConnOk(w, t)
  }

  ghost predicate AllLegs(w: World) {
    forall l {:trigger LegOk(w, l)} :: LegOk(w, l)
  }

  ghost predicate AllRetirements(w: World) {
    forall r {:trigger RetireOk(w, r)} :: RetireOk(w, r)
  }

  ghost predicate AllAttributed(w: World) {
    forall i {:trigger Attributed(w.log[i])} :: 0 <= i < |w.log| ==> Attributed(w.log[i])
  }

  /** The invariant, as the set of worlds in which every part of it holds, so that a proof
      carries `v in Good` along as one fact and opens it only where a part is needed. */
  ghost const Good := iset w: World |
    && PcOk(w) && Readers(w) && Conns(w) && AllLegs(w) && AllRetirements(w)
    && CleanupOk(w) && AllAttributed(w)
}
