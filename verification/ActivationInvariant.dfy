/** What every step of the activation protocol keeps. */
module ActivationInvariant {
  import opened Common
  import opened Registry
  import opened Activation

  // ------------------------------------------------------------- ownership

  /** Session `s` is activated for address `a` and not closing. */
  ghost predicate Owns(w: World, s: SessionId, a: Address) {
    && s in w.sess
    && w.sess[s].activated && !w.sess[s].closing && w.sess[s].addr == Some(a)
  }

  ghost predicate EntryOk(w: World, a: Address) {
    a in w.reg.sessions ==> Owns(w, w.reg.sessions[a], a)
  }

  ghost predicate RegisteredIfActive(w: World, s: SessionId) {
    s in w.sess && w.sess[s].activated && !w.sess[s].closing ==>
      w.sess[s].addr.Some? && Lookup(w.reg, w.sess[s].addr.value) == Some(s)
  }

  /** The registry holds exactly the activated, open sessions, each under its own address. */
  ghost predicate Ownership(w: World) {
    && (forall a {:trigger EntryOk(w, a)} :: EntryOk(w, a))
    && (forall s {:trigger RegisteredIfActive(w, s)} :: RegisteredIfActive(w, s))
  }

  // ---------------------------------------------------------------- locking

  type Sessions = map<SessionId, Session>

  /** The contenders for `a`: the holder of its lock and everyone waiting for it. */
  ghost function Users(sess: Sessions, a: Address): set<SessionId> {
    set s | s in sess && Contends(sess[s].pc) && sess[s].pc.addr == a
  }

  /** Every contender for an address uses the lock object in the table. */
  ghost predicate UsesTableLock(sess: Sessions, locks: map<Address, LockEntry>, s: SessionId) {
    s in sess && Contends(sess[s].pc) ==>
      sess[s].pc.addr in locks && locks[sess[s].pc.addr].lock == sess[s].pc.lock
  }

  ghost predicate SharedLocks(sess: Sessions, locks: map<Address, LockEntry>) {
    forall s {:trigger UsesTableLock(sess, locks, s)} :: UsesTableLock(sess, locks, s)
  }

  /** The reference count of a lock is the number of its contenders. */
  ghost predicate CountOk(sess: Sessions, locks: map<Address, LockEntry>, nextLock: LockId, a: Address) {
    a in locks ==> locks[a].users == |Users(sess, a)| > 0 && locks[a].lock < nextLock
  }

  ghost predicate CountedLocks(sess: Sessions, locks: map<Address, LockEntry>, nextLock: LockId) {
    forall a {:trigger CountOk(sess, locks, nextLock, a)} :: CountOk(sess, locks, nextLock, a)
  }

  /** A lock object is held by exactly the session whose handler is past it. */
  ghost predicate HolderOk(sess: Sessions, holder: map<LockId, SessionId>, s: SessionId) {
    s in sess && Holds(sess[s].pc) ==> sess[s].pc.lock in holder && holder[sess[s].pc.lock] == s
  }

  ghost predicate HeldOk(sess: Sessions, holder: map<LockId, SessionId>, l: LockId) {
    l in holder ==> holder[l] in sess && Holds(sess[holder[l]].pc) && sess[holder[l]].pc.lock == l
  }

  ghost predicate HeldLocks(sess: Sessions, holder: map<LockId, SessionId>) {
    && (forall s {:trigger HolderOk(sess, holder, s)} :: HolderOk(sess, holder, s))
    && (forall l {:trigger HeldOk(sess, holder, l)} :: HeldOk(sess, holder, l))
  }

  /** The worlds whose locks are in order; a set for the same reason as `Good` below. */
  ghost const LocksInOrder := iset w: World |
    && SharedLocks(w.sess, w.reg.locks)
    && CountedLocks(w.sess, w.reg.locks, w.nextLock)
    && HeldLocks(w.sess, w.holder)

  ghost predicate Locking(w: World) { w in LocksInOrder }

  // ------------------------------------------------------------- the decision

  ghost predicate Progress(w: World, s: SessionId)
    requires s in w.sess
  {
    var pc := w.sess[s].pc;
    && (Contends(pc) && w.sess[s].activated ==> w.sess[s].addr == Some(pc.addr))
    && (pc.Deciding? ==> pc.round <= 1 && (pc.round == 1 ==> pc.addr !in w.reg.sessions))
    && (pc.Probing? ==>
          pc.round == 0 && (pc.addr in w.reg.sessions ==> w.reg.sessions[pc.addr] == pc.owner))
    && (PastLoop(pc) ==> !w.sess[s].activated && pc.addr !in w.reg.sessions)
    && (HasTasks(pc) ==> w.capacity == Some(s))
  }

  ghost predicate Decisions(w: World) {
    forall s {:trigger Progress(w, s)} :: s in w.sess ==> Progress(w, s)
  }

  // ------------------------------------------------------------------ probes

  /** The window of a probe of `target` opened at `at` has seen no other probe end. */
  ghost predicate Undisturbed(log: seq<Event>, at: nat, target: SessionId) {
    forall i :: at < i < |log| ==> !(log[i].Ended? && log[i].target == target)
  }

  /** The target's two-byte reply with address `a`. */
  ghost predicate ReplyFrom(e: Event, target: SessionId, a: Address) {
    e.Replied? && e.target == target && |e.payload| == 2 && Decode16(e.payload) == a
  }

  ghost predicate NoReply(log: seq<Event>, at: nat, target: SessionId, a: Address) {
    forall i :: at < i < |log| ==> !ReplyFrom(log[i], target, a)
  }

  ghost predicate OpenProbe(w: World, p: ProbeId)
    requires p in w.probes && w.probes[p].target in w.sess && Open(w.probes[p].stage)
  {
    var probe := w.probes[p];
    var x := w.sess[probe.target];
    && x.probeOwner == Some(p) && x.activated && x.addr.Some?
    && !x.signal.NoProbe?
    && probe.stage.at < |w.log|
    && w.log[probe.stage.at] == Opened(p, probe.target, x.addr.value)
    && Undisturbed(w.log, probe.stage.at, probe.target)
    && (x.signal.Answered? ==>
          probe.stage.at < x.signal.at < |w.log| && ReplyFrom(w.log[x.signal.at], probe.target, x.addr.value))
    && (x.signal.Armed? ==> NoReply(w.log, probe.stage.at, probe.target, x.addr.value))
    && (x.signal.Shut? ==> x.closing)
  }

  ghost predicate EndOf(e: Event, p: ProbeId, contender: SessionId, target: SessionId, alive: bool) {
    e.Ended? && e.probe == p && e.contender == contender && e.target == target && e.alive == alive
  }

  ghost predicate ProbeOk(w: World, p: ProbeId)
    requires p in w.probes
  {
    var probe := w.probes[p];
    && probe.target in w.sess
    && (Open(probe.stage) ==> OpenProbe(w, p))
    && (probe.stage.Finished? ==>
          probe.stage.at < |w.log| && EndOf(w.log[probe.stage.at], p, probe.contender, probe.target, probe.stage.alive))
  }

  ghost predicate SessionProbesOk(w: World, s: SessionId)
    requires s in w.sess
  {
    var x := w.sess[s];
    && (x.probeOwner.Some? ==>
          x.probeOwner.value in w.probes && w.probes[x.probeOwner.value].target == s && Open(w.probes[x.probeOwner.value].stage))
    && (x.probeOwner.None? ==> x.signal.NoProbe?)
    && (x.pc.Probing? ==>
          x.pc.probe in w.probes && w.probes[x.pc.probe].contender == s && w.probes[x.pc.probe].target == x.pc.owner)
    && (HasTasks(x.pc) ==> forall p :: p in x.pc.tasks ==> p in w.probes && w.probes[p].contender == s)
  }

  ghost predicate Probes(w: World) {
    && (forall p {:trigger ProbeOk(w, p)} :: p in w.probes ==> ProbeOk(w, p))
    && (forall s {:trigger SessionProbesOk(w, s)} :: s in w.sess ==> SessionProbesOk(w, s))
  }

  // ----------------------------------------------------------------- history

  /** The owner of each address, replayed from the history alone. */
  ghost function Owners(log: seq<Event>): map<Address, SessionId> {
    if log == [] then map[]
    else OwnersAfter(Owners(log[..|log| - 1]), log[|log| - 1])
  }

  ghost function OwnersAfter(owners: map<Address, SessionId>, e: Event): map<Address, SessionId> {
    match e
    case Registered(s, a) => owners[a := s]
    case Unregistered(s, a) => owners - {a}
    case _ => owners
  }

  ghost predicate OwnedAt(log: seq<Event>, i: nat, a: Address, s: SessionId)
    requires i <= |log|
  {
    a in Owners(log[..i]) && Owners(log[..i])[a] == s
  }

  ghost predicate EndedBefore(log: seq<Event>, i: nat, p: ProbeId, contender: SessionId, target: SessionId, alive: bool)
    requires i <= |log|
  {
    exists j :: 0 <= j < i && EndOf(log[j], p, contender, target, alive)
  }

  /** The reply of `target` with address `a` came between `j` and `i`. */
  ghost predicate RepliedWithin(log: seq<Event>, j: nat, i: nat, target: SessionId, a: Address)
    requires i <= |log|
  {
    exists k :: j < k < i && ReplyFrom(log[k], target, a)
  }

  /** The result at `i` of a probe that waited from `j` on is right: it is alive exactly if
      the target still owns its address and has replied inside this probe's own window. */
  ghost predicate WaitedRightly(log: seq<Event>, i: nat, j: nat, p: ProbeId, target: SessionId, alive: bool)
    requires i <= |log|
  {
    && j < i && log[j].Opened? && log[j].probe == p && log[j].target == target
    && Undisturbed(log[..i], j, target)
    && (alive <==> OwnedAt(log, i, log[j].addr, target) && RepliedWithin(log, j, i, target, log[j].addr))
  }

  ghost predicate Justified(log: seq<Event>, i: nat)
    requires i < |log|
  {
    match log[i]
    case Evicted(c, v, a, p) => OwnedAt(log, i, a, v) && EndedBefore(log, i, p, c, v, false)
    case DeniedInUse(c, v, a, p) => OwnedAt(log, i, a, v) && EndedBefore(log, i, p, c, v, true)
    case Ended(p, c, v, alive, cause) => EndJustified(log, i, p, v, alive, cause)
    case _ => true
  }

  ghost predicate EndJustified(log: seq<Event>, i: nat, p: ProbeId, target: SessionId, alive: bool, cause: Cause)
    requires i <= |log|
  {
    match cause
    case Refused => !alive && forall a :: !OwnedAt(log, i, a, target)
    case Unsent => !alive
    case Waited(j) => WaitedRightly(log, i, j, p, target, alive)
  }

  ghost predicate AllJustified(log: seq<Event>) {
    forall i {:trigger Justified(log, i)} :: 0 <= i < |log| ==> Justified(log, i)
  }

  ghost predicate History(w: World) {
    && Owners(w.log) == w.reg.sessions
    && AllJustified(w.log)
  }

  /** The invariant, as the set of worlds in which every part of it holds, so that a proof
      carries `v in Good` along as one fact and opens it only where a part is needed. */
  ghost const Good := iset w: World |
    Bounded(w.reg) && Ownership(w) && Locking(w) && Decisions(w) && Probes(w) && History(w)

  // ------------------------------------------------------------ history lemmas

  /** Justification looks only backwards. */
  lemma JustifiedStable(log: seq<Event>, e: Event)
    requires AllJustified(log)
    ensures forall i {:trigger Justified(log + [e], i)} :: 0 <= i < |log| ==> Justified(log + [e], i)
  {
    var longer := log + [e];
    forall i | 0 <= i < |log| ensures Justified(longer, i) {
      assert Justified(log, i);
      assert longer[..i] == log[..i];
      match log[i] {
        case Evicted(c, v, a, p) =>
          var j :| 0 <= j < i && EndOf(log[j], p, c, v, false);
          assert EndOf(longer[j], p, c, v, false);
        case DeniedInUse(c, v, a, p) =>
          var j :| 0 <= j < i && EndOf(log[j], p, c, v, true);
          assert EndOf(longer[j], p, c, v, true);
        case Ended(p, c, v, alive, cause) =>
          if cause.Waited? {
            RepliedStable(log, e, cause.from, i, v, log[cause.from].addr);
          } else if cause.Refused? {
            forall a ensures !OwnedAt(longer, i, a, v) {
              assert !OwnedAt(log, i, a, v);
            }
          }
        case _ =>
      }
    }
  }

  lemma RepliedStable(log: seq<Event>, e: Event, j: nat, i: nat, target: SessionId, a: Address)
    requires i <= |log|
    ensures RepliedWithin(log + [e], j, i, target, a) <==> RepliedWithin(log, j, i, target, a)
  {
    var longer := log + [e];
    if RepliedWithin(log, j, i, target, a) {
      var k :| j < k < i && ReplyFrom(log[k], target, a);
      assert ReplyFrom(longer[k], target, a);
    }
    if RepliedWithin(longer, j, i, target, a) {
      var k :| j < k < i && ReplyFrom(longer[k], target, a);
      assert ReplyFrom(log[k], target, a);
    }
  }

  /** Appending a justified event keeps the whole history justified. */
  lemma AppendHistory(log: seq<Event>, e: Event)
    requires AllJustified(log) && Justified(log + [e], |log|)
    ensures AllJustified(log + [e])
    ensures Owners(log + [e]) == OwnersAfter(Owners(log), e)
  {
    assert (log + [e])[..|log|] == log;
    JustifiedStable(log, e);
  }
}
