/** The EdgeNode session registry (doip_edgenode/session_registry.py).

    `Table` is the abstract value of the registry's dictionaries and the
    functions on it are the effect of each synchronous registry call.
    `SessionRegistry` is the object itself: its methods change the dictionaries
    in place and are proved to have exactly those effects. */
module Registry {
  import opened Common

  type Address = nat
  type SessionId = nat
  type SocketId = nat
  type LockId = nat

  datatype LockEntry = LockEntry(lock: LockId, users: nat)

  datatype Table = Table(
    maxConnections: nat,
    openSockets: map<SocketId, Option<SessionId>>,
    sessions: map<Address, SessionId>,
    locks: map<Address, LockEntry>)

  ghost predicate Bounded(t: Table) {
    && 1 <= t.maxConnections <= 254
    && |t.openSockets| <= t.maxConnections + 1
    && |t.sessions| <= t.maxConnections
  }

  function Empty(maxConnections: nat): Table {
    Table(maxConnections, map[], map[], map[])
  }

  predicate Admits(t: Table, socket: SocketId) {
    socket in t.openSockets || |t.openSockets| < t.maxConnections + 1
  }

  function Reserve(t: Table, socket: SocketId): Table {
    if socket in t.openSockets || !Admits(t, socket) then t
    else t.(openSockets := t.openSockets[socket := None])
  }

  function Attach(t: Table, socket: SocketId, session: SessionId): Table
    requires Admits(t, socket)
  {
    t.(openSockets := t.openSockets[socket := Some(session)])
  }

  function Release(t: Table, socket: SocketId): Table {
    t.(openSockets := t.openSockets - {socket})
  }

  function Lookup(t: Table, addr: Address): Option<SessionId> {
    if addr in t.sessions then Some(t.sessions[addr]) else None
  }

  function Register(t: Table, addr: Address, session: SessionId): Table {
    t.(sessions := t.sessions[addr := session])
  }

  function Unregister(t: Table, addr: Address, session: SessionId): Table {
    if Lookup(t, addr) == Some(session) then t.(sessions := t.sessions - {addr}) else t
  }

  /** The lock object a contender for `addr` gets: the live one, or `spare`. */
  function LockFor(t: Table, addr: Address, spare: LockId): LockId {
    if addr in t.locks then t.locks[addr].lock else spare
  }

  function EnterLock(t: Table, addr: Address, spare: LockId): Table {
    var users := if addr in t.locks then t.locks[addr].users else 0;
    t.(locks := t.locks[addr := LockEntry(LockFor(t, addr, spare), users + 1)])
  }

  function ExitLock(t: Table, addr: Address, lock: LockId): Table {
    if addr !in t.locks then t
    else if t.locks[addr].users <= 1 then t.(locks := t.locks - {addr})
    else t.(locks := t.locks[addr := LockEntry(lock, t.locks[addr].users - 1)])
  }

  // ------------------------------------------------------------------------ laws

  /** Sockets: one is admitted exactly up to the limit plus one, admission makes it count
      once, and a released socket makes room for another. */
  lemma SocketLaws(t: Table, socket: SocketId, other: SocketId)
    requires Bounded(t)
    ensures socket in Reserve(t, socket).openSockets <==> socket in t.openSockets || |t.openSockets| <= t.maxConnections
    ensures other != socket ==> (other in Reserve(t, socket).openSockets <==> other in t.openSockets)
    ensures other in Release(t, socket).openSockets <==> other in t.openSockets && other != socket
    ensures socket in t.openSockets ==> Admits(Release(t, socket), other)
  {
    ShrinkingKeepsSize(t.openSockets, socket);
  }

  /** Addresses: the session registered last owns the address, only its owner gives it up,
      and no other address changes. */
  lemma AddressLaws(t: Table, addr: Address, session: SessionId, other: Address)
    ensures Lookup(Register(t, addr, session), addr) == Some(session)
    ensures Lookup(Unregister(t, addr, session), addr) == if Lookup(t, addr) == Some(session) then None else Lookup(t, addr)
    ensures other != addr ==> Lookup(Register(t, addr, session), other) == Lookup(t, other)
    ensures other != addr ==> Lookup(Unregister(t, addr, session), other) == Lookup(t, other)
  {
  }

  /** Locks: entering and leaving undo each other, and contenders share one lock. */
  lemma LockLaws(t: Table, addr: Address, spare: LockId, second: LockId)
    requires addr in t.locks ==> t.locks[addr].users > 0
    ensures ExitLock(EnterLock(t, addr, spare), addr, LockFor(t, addr, spare)) == t
    ensures LockFor(EnterLock(t, addr, spare), addr, second) == LockFor(t, addr, spare)
    ensures addr !in t.locks ==> LockFor(t, addr, spare) == spare
  {
    assert ExitLock(EnterLock(t, addr, spare), addr, LockFor(t, addr, spare)).locks == t.locks;
  }

  class SessionRegistry {
    const maxConnections: nat
    var openSockets: map<SocketId, Option<SessionId>>
    var sessions: map<Address, SessionId>
    var activationLocks: map<Address, LockEntry>

    ghost function View(): (t: Table)
      reads this
    {
      Table(maxConnections, openSockets, sessions, activationLocks)
    }

    constructor (limit: nat)
      requires 1 <= limit <= 254
      ensures View() == Empty(limit) && Bounded(View())
    {
      maxConnections := limit;
      openSockets := map[];
      sessions := map[];
      activationLocks := map[];
    }

    method ReserveSocket(socket: SocketId) returns (admitted: bool)
      requires Bounded(View())
      modifies this`openSockets
      ensures Bounded(View())
      ensures View() == Reserve(old(View()), socket)
      ensures admitted == Admits(old(View()), socket)
      ensures admitted <==> socket in openSockets
    {
      if socket in openSockets {
        return true;
      }
      if |openSockets| >= maxConnections + 1 {
        return false;
      }
      openSockets := openSockets[socket := None];
      return true;
    }

    /** Fails, changing nothing, exactly when the socket cannot be reserved. */
    method AttachSession(socket: SocketId, session: SessionId) returns (ok: bool)
      requires Bounded(View())
      modifies this`openSockets
      ensures Bounded(View())
      ensures ok == Admits(old(View()), socket)
      ensures ok ==> View() == Attach(old(View()), socket, session)
      ensures !ok ==> View() == old(View())
    {
      ok := ReserveSocket(socket);
      if ok {
        assert socket in openSockets;
        openSockets := openSockets[socket := Some(session)];
      }
    }

    method ReleaseSocket(socket: SocketId)
      requires Bounded(View())
      modifies this`openSockets
      ensures Bounded(View())
      ensures View() == Release(old(View()), socket)
    {
      ShrinkingKeepsSize(openSockets, socket);
      openSockets := openSockets - {socket};
    }

    method RegisterSession(addr: Address, session: SessionId)
      modifies this`sessions
      ensures View() == Register(old(View()), addr, session)
    {
      sessions := sessions[addr := session];
    }

    /** Identity-checked: an entry that now belongs to a replacement stays. */
    method UnregisterSession(addr: Address, session: SessionId)
      modifies this`sessions
      ensures View() == Unregister(old(View()), addr, session)
    {
      if addr in sessions && sessions[addr] == session {
        sessions := sessions - {addr};
      }
    }

    method EnterActivation(addr: Address, spare: LockId) returns (lock: LockId)
      modifies this`activationLocks
      ensures lock == LockFor(old(View()), addr, spare)
      ensures View() == EnterLock(old(View()), addr, spare)
    {
      var entry := if addr in activationLocks then activationLocks[addr] else LockEntry(spare, 0);
      lock := entry.lock;
      activationLocks := activationLocks[addr := LockEntry(lock, entry.users + 1)];
    }

    method ExitActivation(addr: Address, lock: LockId)
      requires addr in activationLocks && activationLocks[addr].users >= 1
      modifies this`activationLocks
      ensures View() == ExitLock(old(View()), addr, lock)
    {
      var users := activationLocks[addr].users;
      if users == 1 {
        activationLocks := activationLocks - {addr};
      } else {
        activationLocks := activationLocks[addr := LockEntry(lock, users - 1)];
      }
    }

    /** The three-byte Entity Status payload; every count fits its byte. */
    method StatusPayload(nodeType: byte) returns (payload: Bytes)
      requires Bounded(View())
      ensures |payload| == 3
      ensures payload[0] == nodeType && payload[1] == maxConnections && payload[2] == |openSockets|
    {
      payload := [nodeType, maxConnections, |openSockets|];
    }
  }

  lemma ShrinkingKeepsSize<K, V>(m: map<K, V>, k: K)
    ensures |m - {k}| == if k in m then |m| - 1 else |m|
  {
    if k in m {
      assert m == (m - {k})[k := m[k]];
    } else {
      assert m - {k} == m;
    }
  }
}
