/** Every effect of the activation protocol keeps the invariant. */
module ActivationSteps {
  import opened Common
  import opened Registry
  import opened Activation
  import opened ActivationInvariant

  // ------------------------------------------------------------------ frames

  ghost predicate SameName(w: World, v: World, s: SessionId) {
    s in w.sess ==>
      && s in v.sess
      && v.sess[s].activated == w.sess[s].activated && v.sess[s].addr == w.sess[s].addr
      && v.sess[s].closing == w.sess[s].closing
      && v.sess[s].probeOwner == w.sess[s].probeOwner && v.sess[s].signal == w.sess[s].signal
  }

  /** The fields that ownership and probing read are the same in `w` and `v`. */
  ghost predicate SameNames(w: World, v: World) {
    && v.sess.Keys == w.sess.Keys
    && forall s {:trigger SameName(w, v, s)} :: SameName(w, v, s)
  }

  ghost predicate SamePc(w: World, v: World, s: SessionId) {
    s in w.sess ==> s in v.sess && v.sess[s].pc == w.sess[s].pc
  }

  /** All handlers but that of `s` are suspended where they were. */
  ghost predicate OthersWait(w: World, v: World, s: SessionId) {
    && v.sess.Keys == w.sess.Keys
    && forall t {:trigger SamePc(w, v, t)} :: t != s ==> SamePc(w, v, t)
  }

  ghost predicate SameHandlers(w: World, v: World) {
    && v.sess.Keys == w.sess.Keys
    && forall t {:trigger SamePc(w, v, t)} :: SamePc(w, v, t)
  }

  lemma OwnershipFrame(w: World, v: World)
    requires Ownership(w) && SameNames(w, v) && v.reg.sessions == w.reg.sessions
    ensures Ownership(v)
  {
    forall a ensures EntryOk(v, a) {
      assert EntryOk(w, a) && (a in w.reg.sessions ==> SameName(w, v, w.reg.sessions[a]));
    }
    forall s ensures RegisteredIfActive(v, s) {
      assert RegisteredIfActive(w, s) && SameName(w, v, s);
    }
  }

  lemma DecisionsFrame(w: World, v: World, s: SessionId)
    requires Decisions(w) && SameNames(w, v) && OthersWait(w, v, s)
    requires v.reg.sessions == w.reg.sessions
    requires v.capacity == w.capacity || w.capacity == Some(s) || w.capacity == None
    requires s in v.sess && Progress(v, s)
    ensures Decisions(v)
  {
    forall t | t in v.sess ensures Progress(v, t) {
      assert Progress(w, t) && SameName(w, v, t) && (t != s ==> SamePc(w, v, t));
    }
  }

  lemma ProbesFrame(w: World, v: World, s: SessionId)
    requires Probes(w) && SameNames(w, v) && OthersWait(w, v, s)
    requires v.probes == w.probes && v.log == w.log
    requires s in v.sess && SessionProbesOk(v, s)
    ensures Probes(v)
  {
    forall p | p in v.probes ensures ProbeOk(v, p) {
      assert ProbeOk(w, p) && SameName(w, v, w.probes[p].target);
    }
    forall t | t in v.sess ensures SessionProbesOk(v, t) {
      assert SessionProbesOk(w, t) && SameName(w, v, t) && (t != s ==> SamePc(w, v, t));
    }
  }

  // ----------------------------------------------------------------- locking

  lemma UsersFrame(sess: Sessions, after: Sessions, a: Address)
    requires after.Keys == sess.Keys
    requires forall s :: s in sess ==> Contends(after[s].pc) == Contends(sess[s].pc)
    requires forall s :: s in sess && Contends(after[s].pc) && Contends(sess[s].pc) ==>
      after[s].pc.addr == sess[s].pc.addr
    ensures Users(after, a) == Users(sess, a)
  {
  }

  lemma UsersAfterExit(sess: Sessions, s: SessionId, x: Session, a: Address)
    requires s in sess && Contends(sess[s].pc) && x.pc.Idle?
    ensures Users(sess[s := x], a) == if a == sess[s].pc.addr then Users(sess, a) - {s} else Users(sess, a)
    ensures |Users(sess[s := x], a)| == |Users(sess, a)| - (if a == sess[s].pc.addr then 1 else 0)
  {
    assert a == sess[s].pc.addr ==> s in Users(sess, a);
  }

  lemma UsersAfterEntry(sess: Sessions, s: SessionId, x: Session, a: Address)
    requires s in sess && sess[s].pc.Idle? && Contends(x.pc)
    ensures |Users(sess[s := x], a)| == |Users(sess, a)| + if a == x.pc.addr then 1 else 0
  {
    assert Users(sess[s := x], a) == if a == x.pc.addr then Users(sess, a) + {s} else Users(sess, a);
  }

  lemma CountedAfterExit(sess: Sessions, reg: Table, nextLock: LockId, s: SessionId, x: Session)
    requires s in sess && Contends(sess[s].pc) && x.pc.Idle?
    requires sess[s].pc.addr in reg.locks && reg.locks[sess[s].pc.addr].lock == sess[s].pc.lock
    requires CountedLocks(sess, reg.locks, nextLock)
    ensures CountedLocks(sess[s := x], ExitLock(reg, sess[s].pc.addr, sess[s].pc.lock).locks, nextLock)
  {
    var after := sess[s := x];
    var locks := ExitLock(reg, sess[s].pc.addr, sess[s].pc.lock).locks;
    forall a ensures CountOk(after, locks, nextLock, a) {
      assert CountOk(sess, reg.locks, nextLock, a);
      UsersAfterExit(sess, s, x, a);
    }
  }

  lemma SharedAfterExit(sess: Sessions, reg: Table, s: SessionId, x: Session)
    requires s in sess && Contends(sess[s].pc) && x.pc.Idle?
    requires SharedLocks(sess, reg.locks) && sess[s].pc.addr in reg.locks
    requires reg.locks[sess[s].pc.addr].users == |Users(sess, sess[s].pc.addr)|
    ensures SharedLocks(sess[s := x], ExitLock(reg, sess[s].pc.addr, sess[s].pc.lock).locks)
  {
    var b := sess[s].pc.addr;
    var after := sess[s := x];
    var locks := ExitLock(reg, b, sess[s].pc.lock).locks;
    assert UsesTableLock(sess, reg.locks, s);
    UsersAfterExit(sess, s, x, b);
    forall t ensures UsesTableLock(after, locks, t) {
      assert UsesTableLock(sess, reg.locks, t);
      if t in sess && t != s && Contends(sess[t].pc) && sess[t].pc.addr == b {
        assert t in Users(after, b);
      }
    }
  }

  lemma HeldAfterExit(sess: Sessions, holder: map<LockId, SessionId>, s: SessionId, x: Session)
    requires s in sess && Contends(sess[s].pc) && x.pc.Idle? && HeldLocks(sess, holder)
    ensures HeldLocks(sess[s := x], if Holds(sess[s].pc) then holder - {sess[s].pc.lock} else holder)
  {
    var after := sess[s := x];
    var held := if Holds(sess[s].pc) then holder - {sess[s].pc.lock} else holder;
    assert HolderOk(sess, holder, s);
    forall t ensures HolderOk(after, held, t) {
      assert HolderOk(sess, holder, t);
    }
    forall l ensures HeldOk(after, held, l) {
      assert HeldOk(sess, holder, l);
    }
  }

  lemma LockingLeave(w: World, s: SessionId)
    requires Locking(w) && s in w.sess && Contends(w.sess[s].pc)
    ensures Locking(Leave(w, s))
  {
    var pc := w.sess[s].pc;
    var x := w.sess[s].(pc := Idle);
    assert UsesTableLock(w.sess, w.reg.locks, s);
    assert CountOk(w.sess, w.reg.locks, w.nextLock, pc.addr);
    CountedAfterExit(w.sess, w.reg, w.nextLock, s, x);
    SharedAfterExit(w.sess, w.reg, s, x);
    HeldAfterExit(w.sess, w.holder, s, x);
  }

  /** Handlers may move, as long as each keeps its address, its lock and its hold on it. */
  lemma LockingFrame(w: World, v: World)
    requires Locking(w) && v.sess.Keys == w.sess.Keys
    requires v.reg.locks == w.reg.locks && v.holder == w.holder && v.nextLock == w.nextLock
    requires forall s :: s in w.sess ==> Contends(v.sess[s].pc) == Contends(w.sess[s].pc)
    requires forall s :: s in w.sess ==> Holds(v.sess[s].pc) == Holds(w.sess[s].pc)
    requires forall s :: s in w.sess && Contends(v.sess[s].pc) && Contends(w.sess[s].pc) ==>
      v.sess[s].pc.addr == w.sess[s].pc.addr && v.sess[s].pc.lock == w.sess[s].pc.lock
    ensures Locking(v)
  {
    forall a ensures CountOk(v.sess, v.reg.locks, v.nextLock, a) {
      assert CountOk(w.sess, w.reg.locks, w.nextLock, a);
      UsersFrame(w.sess, v.sess, a);
    }
    forall s ensures UsesTableLock(v.sess, v.reg.locks, s) && HolderOk(v.sess, v.holder, s) {
      assert UsesTableLock(w.sess, w.reg.locks, s) && HolderOk(w.sess, w.holder, s);
    }
    forall l ensures HeldOk(v.sess, v.holder, l) {
      assert HeldOk(w.sess, w.holder, l);
    }
  }

  lemma LockingMove(w: World, v: World, s: SessionId)
    requires Locking(w) && s in w.sess && OthersWait(w, v, s)
    requires v.reg.locks == w.reg.locks && v.holder == w.holder && v.nextLock == w.nextLock
    requires Holds(w.sess[s].pc) && Holds(v.sess[s].pc)
    requires v.sess[s].pc.addr == w.sess[s].pc.addr && v.sess[s].pc.lock == w.sess[s].pc.lock
    ensures Locking(v)
  {
    forall t | t in w.sess && t != s ensures v.sess[t].pc == w.sess[t].pc {
      assert SamePc(w, v, t);
    }
    LockingFrame(w, v);
  }

  lemma LockingStill(w: World, v: World)
    requires Locking(w) && SameHandlers(w, v)
    requires v.reg.locks == w.reg.locks && v.holder == w.holder && v.nextLock == w.nextLock
    ensures Locking(v)
  {
    forall t | t in w.sess ensures v.sess[t].pc == w.sess[t].pc {
      assert SamePc(w, v, t);
    }
    LockingFrame(w, v);
  }

  lemma NoLockNoUsers(w: World, a: Address)
    requires Locking(w) && a !in w.reg.locks
    ensures Users(w.sess, a) == {}
  {
    forall t ensures t !in Users(w.sess, a) {
      assert UsesTableLock(w.sess, w.reg.locks, t);
    }
  }

  lemma LockingRequest(w: World, s: SessionId, a: Address)
    requires Locking(w) && Enabled(w, Request(s, a))
    ensures Locking(Apply(w, Request(s, a)))
  {
    var x := w.sess[s].(pc := Waiting(a, LockFor(w.reg, a, w.nextLock)));
    var sess := w.sess[s := x];
    var locks := EnterLock(w.reg, a, w.nextLock).locks;
    var next := w.nextLock + 1;
    forall b ensures CountOk(sess, locks, next, b) {
      assert CountOk(w.sess, w.reg.locks, w.nextLock, b);
      UsersAfterEntry(w.sess, s, x, b);
      if a !in w.reg.locks {
        NoLockNoUsers(w, a);
      }
    }
    forall t ensures UsesTableLock(sess, locks, t) && HolderOk(sess, w.holder, t) {
      assert UsesTableLock(w.sess, w.reg.locks, t) && HolderOk(w.sess, w.holder, t);
    }
    forall l ensures HeldOk(sess, w.holder, l) {
      assert HeldOk(w.sess, w.holder, l);
    }
  }

  lemma LockingAcquire(w: World, s: SessionId)
    requires Locking(w) && Enabled(w, AcquireLock(s))
    ensures Locking(Apply(w, AcquireLock(s)))
  {
    var v := Apply(w, AcquireLock(s));
    forall a ensures CountOk(v.sess, v.reg.locks, v.nextLock, a) {
      assert CountOk(w.sess, w.reg.locks, w.nextLock, a);
      UsersFrame(w.sess, v.sess, a);
    }
    forall t ensures UsesTableLock(v.sess, v.reg.locks, t) && HolderOk(v.sess, v.holder, t) {
      assert UsesTableLock(w.sess, w.reg.locks, t) && HolderOk(w.sess, w.holder, t);
    }
    forall l ensures HeldOk(v.sess, v.holder, l) {
      assert HeldOk(w.sess, w.holder, l);
    }
  }

  /** Mutual exclusion: the lock of an address has one holder. */
  lemma OneHolder(w: World, s: SessionId, t: SessionId)
    requires Locking(w) && s in w.sess && t in w.sess
    requires Holds(w.sess[s].pc) && Holds(w.sess[t].pc) && w.sess[s].pc.addr == w.sess[t].pc.addr
    ensures s == t
  {
    assert UsesTableLock(w.sess, w.reg.locks, s) && UsesTableLock(w.sess, w.reg.locks, t);
    assert HolderOk(w.sess, w.holder, s) && HolderOk(w.sess, w.holder, t);
  }

  // ----------------------------------------------------------------- handler

  /** `s` moves on inside its handler, still holding the lock of its address. */
  lemma MoveKeeps(w: World, s: SessionId, pc: Pc)
    requires w in Good && s in w.sess
    requires Holds(w.sess[s].pc) && Holds(pc)
    requires pc.addr == w.sess[s].pc.addr && pc.lock == w.sess[s].pc.lock
    requires Progress(SetPc(w, s, pc), s) && SessionProbesOk(SetPc(w, s, pc), s)
    ensures SetPc(w, s, pc) in Good
  {
    var v := SetPc(w, s, pc);
    OwnershipFrame(w, v);
    LockingMove(w, v, s);
    DecisionsFrame(w, v, s);
    ProbesFrame(w, v, s);
  }

  lemma LeaveKeeps(w: World, s: SessionId)
    requires w in Good && s in w.sess && Contends(w.sess[s].pc)
    ensures Leave(w, s) in Good
  {
    var v := Leave(w, s);
    OwnershipFrame(w, v);
    LockingLeave(w, s);
    DecisionsFrame(w, v, s);
    assert SessionProbesOk(w, s);
    ProbesFrame(w, v, s);
  }

  lemma RequestKeeps(w: World, s: SessionId, a: Address)
    requires w in Good && Enabled(w, Request(s, a))
    ensures Apply(w, Request(s, a)) in Good
  {
    var v := Apply(w, Request(s, a));
    OwnershipFrame(w, v);
    LockingRequest(w, s, a);
    DecisionsFrame(w, v, s);
    assert SessionProbesOk(w, s);
    ProbesFrame(w, v, s);
  }

  lemma AcquireLockKeeps(w: World, s: SessionId)
    requires w in Good && Enabled(w, AcquireLock(s))
    ensures Apply(w, AcquireLock(s)) in Good
  {
    var v := Apply(w, AcquireLock(s));
    OwnershipFrame(w, v);
    LockingAcquire(w, s);
    assert Progress(w, s) && SessionProbesOk(w, s);
    DecisionsFrame(w, v, s);
    ProbesFrame(w, v, s);
  }

  // ------------------------------------------------------- sessions and events

  ghost predicate SameRole(w: World, v: World, s: SessionId) {
    s in w.sess ==> s in v.sess && v.sess[s].activated == w.sess[s].activated && v.sess[s].addr == w.sess[s].addr
  }

  ghost predicate SameRoles(w: World, v: World) {
    forall s {:trigger SameRole(w, v, s)} :: SameRole(w, v, s)
  }

  ghost predicate Shrinks(m: map<Address, SessionId>, after: map<Address, SessionId>) {
    forall a :: a in after ==> a in m && m[a] == after[a]
  }

  lemma DecisionsShrink(w: World, v: World)
    requires Decisions(w) && SameHandlers(w, v) && v.capacity == w.capacity
    requires Shrinks(w.reg.sessions, v.reg.sessions) && SameRoles(w, v)
    ensures Decisions(v)
  {
    forall t | t in v.sess ensures Progress(v, t) {
      assert Progress(w, t) && SamePc(w, v, t) && SameRole(w, v, t);
    }
  }

  /** An event that ends no probe leaves every probe's window as it was. */
  lemma ProbesAppend(w: World, e: Event)
    requires Probes(w) && !e.Ended? && !e.Replied?
    ensures Probes(Record(w, e))
  {
    var v := Record(w, e);
    forall p | p in v.probes ensures ProbeOk(v, p) {
      assert ProbeOk(w, p);
    }
    forall s | s in v.sess ensures SessionProbesOk(v, s) {
      assert SessionProbesOk(w, s);
    }
  }

  lemma RecordKeeps(w: World, e: Event)
    requires w in Good && (e.Evicted? || e.DeniedInUse?) && Justified(w.log + [e], |w.log|)
    ensures Record(w, e) in Good
  {
    var v := Record(w, e);
    OwnershipFrame(w, v);
    LockingStill(w, v);
    DecisionsShrink(w, v);
    ProbesAppend(w, e);
    AppendHistory(w.log, e);
  }

  lemma ProbesClose(w: World, s: SessionId)
    requires Probes(w) && s in w.sess && !w.sess[s].closing
    ensures Probes(CloseSession(w, s))
  {
    var x := w.sess[s];
    var v := w.(sess := w.sess[s := x.(closing := true, signal := if x.signal.Armed? then Shut else x.signal)],
                reg := CloseSession(w, s).reg);
    assert SessionProbesOk(w, s);
    forall p | p in v.probes ensures ProbeOk(v, p) {
      assert ProbeOk(w, p);
    }
    forall t | t in v.sess ensures SessionProbesOk(v, t) {
      assert SessionProbesOk(w, t);
    }
    if CloseSession(w, s).log != w.log {
      ProbesAppend(v, Unregistered(s, x.addr.value));
    }
  }

  lemma OwnershipClose(w: World, s: SessionId)
    requires Ownership(w) && s in w.sess && !w.sess[s].closing
    ensures Ownership(CloseSession(w, s))
  {
    var v := CloseSession(w, s);
    assert RegisteredIfActive(w, s);
    forall a ensures EntryOk(v, a) {
      assert EntryOk(w, a);
    }
    forall t ensures RegisteredIfActive(v, t) {
      assert RegisteredIfActive(w, t);
    }
  }

  lemma CloseBounded(w: World, s: SessionId)
    requires Bounded(w.reg)
    ensures Bounded(CloseSession(w, s).reg)
  {
    var before, after := w.reg, CloseSession(w, s).reg;
    ShrinkingKeepsSize(before.openSockets, s);
    if s in w.sess && w.sess[s].addr.Some? {
      ShrinkingKeepsSize(before.sessions, w.sess[s].addr.value);
    }
    assert |after.openSockets| <= |before.openSockets|;
    assert |after.sessions| <= |before.sessions|;
  }

  lemma CloseHistory(w: World, s: SessionId)
    requires History(w)
    ensures History(CloseSession(w, s))
  {
    if s in w.sess && w.sess[s].addr.Some? {
      AppendHistory(w.log, Unregistered(s, w.sess[s].addr.value));
    }
  }

  lemma CloseFrame(w: World, s: SessionId)
    requires s in w.sess && !w.sess[s].closing
    ensures SameHandlers(w, CloseSession(w, s)) && SameRoles(w, CloseSession(w, s))
    ensures Shrinks(w.reg.sessions, CloseSession(w, s).reg.sessions)
  {
  }

  lemma CloseKeeps(w: World, s: SessionId)
    requires w in Good
    ensures CloseSession(w, s) in Good
  {
    if s in w.sess && !w.sess[s].closing {
      var v := CloseSession(w, s);
      CloseFrame(w, s);
      OwnershipClose(w, s);
      CloseBounded(w, s);
      LockingStill(w, v);
      DecisionsShrink(w, v);
      ProbesClose(w, s);
      CloseHistory(w, s);
    }
  }

  // ------------------------------------------------------------------ commit

  /** What the code has just checked when it claims the address. */
  ghost predicate MayCommit(w: World, s: SessionId) {
    && s in w.sess && Holds(w.sess[s].pc) && !w.sess[s].closing
    && (Lookup(w.reg, w.sess[s].pc.addr) == None || Lookup(w.reg, w.sess[s].pc.addr) == Some(s))
    && (|w.reg.sessions| < w.reg.maxConnections || w.sess[s].activated)
  }

  lemma OwnershipCommit(w: World, s: SessionId)
    requires Ownership(w) && MayCommit(w, s) && Progress(w, s)
    ensures Ownership(Commit(w, s))
  {
    var v := Commit(w, s);
    forall a ensures EntryOk(v, a) {
      assert EntryOk(w, a);
    }
    forall t ensures RegisteredIfActive(v, t) {
      assert RegisteredIfActive(w, t) && RegisteredIfActive(w, s);
    }
  }

  lemma BoundedCommit(w: World, s: SessionId)
    requires Bounded(w.reg) && MayCommit(w, s) && RegisteredIfActive(w, s) && Progress(w, s)
    ensures Bounded(Commit(w, s).reg)
  {
    var a := w.sess[s].pc.addr;
    if a in w.reg.sessions {
      assert w.reg.sessions[a := s] == w.reg.sessions;
    }
  }

  lemma DecisionsCommit(w: World, s: SessionId)
    requires Decisions(w) && Locking(w) && MayCommit(w, s)
    ensures Decisions(Commit(w, s))
  {
    var v := Commit(w, s);
    forall t | t in v.sess ensures Progress(v, t) {
      assert Progress(w, t) && Progress(w, s);
      if t != s && Holds(w.sess[t].pc) && w.sess[t].pc.addr == w.sess[s].pc.addr {
        OneHolder(w, s, t);
      }
    }
  }

  lemma ProbesCommit(w: World, s: SessionId)
    requires Probes(w) && MayCommit(w, s) && Progress(w, s)
    ensures Probes(Commit(w, s))
  {
    var pc := w.sess[s].pc;
    var x := w.sess[s].(addr := Some(pc.addr), activated := true, pc := Confirming(pc.addr, pc.lock));
    var v := w.(sess := w.sess[s := x], reg := Register(w.reg, pc.addr, s));
    assert SessionProbesOk(w, s);
    forall p | p in v.probes ensures ProbeOk(v, p) {
      assert ProbeOk(w, p);
    }
    forall t | t in v.sess ensures SessionProbesOk(v, t) {
      assert SessionProbesOk(w, t);
    }
    ProbesAppend(v, Registered(s, pc.addr));
  }

  lemma CommitKeeps(w: World, s: SessionId)
    requires w in Good && MayCommit(w, s)
    ensures Commit(w, s) in Good
  {
    var v := Commit(w, s);
    assert Progress(w, s) && RegisteredIfActive(w, s);
    OwnershipCommit(w, s);
    BoundedCommit(w, s);
    CommitWaits(w, s);
    LockingMove(w, v, s);
    DecisionsCommit(w, s);
    ProbesCommit(w, s);
    AppendHistory(w.log, Registered(s, w.sess[s].pc.addr));
  }

  lemma CommitWaits(w: World, s: SessionId)
    requires s in w.sess && Contends(w.sess[s].pc)
    ensures OthersWait(w, Commit(w, s), s)
  {
  }

  // ------------------------------------------------------------------ sockets

  lemma AttachKeeps(w: World, s: SessionId)
    requires w in Good && Enabled(w, Attach(s))
    ensures Apply(w, Attach(s)) in Good
  {
    var v := Apply(w, Attach(s));
    AttachOwnership(w, s);
    AttachLocking(w, s);
    AttachProbes(w, s);
    forall t | t in v.sess ensures Progress(v, t) {
      assert t != s ==> Progress(w, t);
    }
  }

  lemma AttachOwnership(w: World, s: SessionId)
    requires Ownership(w) && Enabled(w, Attach(s))
    ensures Ownership(Apply(w, Attach(s)))
  {
    var v := Apply(w, Attach(s));
    forall a ensures EntryOk(v, a) {
      assert EntryOk(w, a);
    }
    forall t ensures RegisteredIfActive(v, t) {
      assert RegisteredIfActive(w, t);
    }
  }

  lemma AttachLocking(w: World, s: SessionId)
    requires Locking(w) && Enabled(w, Attach(s))
    ensures Locking(Apply(w, Attach(s)))
  {
    var v := Apply(w, Attach(s));
    forall a ensures CountOk(v.sess, v.reg.locks, v.nextLock, a) {
      assert CountOk(w.sess, w.reg.locks, w.nextLock, a);
      assert Users(v.sess, a) == Users(w.sess, a);
    }
    forall t ensures UsesTableLock(v.sess, v.reg.locks, t) && HolderOk(v.sess, v.holder, t) {
      assert UsesTableLock(w.sess, w.reg.locks, t) && HolderOk(w.sess, w.holder, t);
    }
    forall l ensures HeldOk(v.sess, v.holder, l) {
      assert HeldOk(w.sess, w.holder, l);
    }
  }

  lemma AttachProbes(w: World, s: SessionId)
    requires Probes(w) && Enabled(w, Attach(s))
    ensures Probes(Apply(w, Attach(s)))
  {
    var v := Apply(w, Attach(s));
    forall p | p in v.probes ensures ProbeOk(v, p) {
      assert ProbeOk(w, p);
    }
    forall t | t in v.sess ensures SessionProbesOk(v, t) {
      assert t != s ==> SessionProbesOk(w, t);
    }
  }

  /** Socket bookkeeping touches nothing the other invariants read. */
  lemma SocketsKeep(w: World, reg: Table)
    requires w in Good && Bounded(reg) && reg == w.reg.(openSockets := reg.openSockets)
    ensures w.(reg := reg) in Good
  {
    var v := w.(reg := reg);
    OwnershipFrame(w, v);
    LockingStill(w, v);
    DecisionsShrink(w, v);
    forall p | p in v.probes ensures ProbeOk(v, p) {
      assert ProbeOk(w, p);
    }
    forall t | t in v.sess ensures SessionProbesOk(v, t) {
      assert SessionProbesOk(w, t);
    }
  }
}
