/** What every run of the diagnostic core keeps: the attempt counter, the table and the
    protected identifiers. */
module EcuRunTheorems {
  import opened Common
  import opened Security
  import opened SessionTable
  import opened EcuRuns
  import DidConfig
  import DidStore
  import DidTheorems

  // ------------------------------------------------------- counting wrong keys

  /** A session change, an ECU reset or an S3 expiry, as the tester knows them. */
  ghost predicate Relocks(e: Entry) {
    Granted(e, SESSION_CONTROL) || Granted(e, ECU_RESET) || e.S3Expired?
  }

  ghost predicate Restarts(e: Entry) { Relocks(e) || IsUnlock(e) }

  ghost predicate RestartsAt(h: seq<Happening>, q: nat)
    requires q < |h|
  {
    h[q].On? && Restarts(h[q].entry)
  }

  ghost predicate WrongAt(h: seq<Happening>, p: nat) {
    p < |h| && h[p].On? && IsWrongKey(h[p].entry)
  }

  /** The wrong keys of the tester, on whatever object, since its last relock or unlock on
      whatever object. */
  ghost predicate CountedKey(h: seq<Happening>, p: nat) {
    WrongAt(h, p) && forall q :: p < q < |h| ==> !RestartsAt(h, q)
  }

  /** The wrong keys on the table entry since it was created, relocked or unlocked. */
  ghost predicate KeptKey(h: seq<Happening>, p: nat) {
    WrongAt(h, p) && h[p].current
    && forall q :: p < q < |h| ==> !h[q].Forgotten? && !(RestartsAt(h, q) && h[q].current)
  }

  /** A wrong key since the last relock or unlock that was given on an object other than
      the entry, or on an entry that has been dropped since. */
  ghost predicate MissedKey(h: seq<Happening>, p: nat) {
    CountedKey(h, p) && (!h[p].current || exists q :: p < q < |h| && h[q].Forgotten?)
  }

  /** A wrong key on the entry from before a relock or unlock that happened on another object. */
  ghost predicate StaleKey(h: seq<Happening>, p: nat) {
    KeptKey(h, p) && exists q :: p < q < |h| && RestartsAt(h, q)
  }

  ghost function CountedKeys(h: seq<Happening>): set<nat> { set p | 0 <= p < |h| && CountedKey(h, p) }

  ghost function KeptKeys(h: seq<Happening>): set<nat> { set p | 0 <= p < |h| && KeptKey(h, p) }

  ghost function MissedKeys(h: seq<Happening>): set<nat> { set p | 0 <= p < |h| && MissedKey(h, p) }

  ghost function StaleKeys(h: seq<Happening>): set<nat> { set p | 0 <= p < |h| && StaleKey(h, p) }

  /** What the entry misses of the tester's wrong keys, and what it has too many. */
  lemma KeptExactly(h: seq<Happening>)
    ensures MissedKeys(h) == CountedKeys(h) - KeptKeys(h)
    ensures StaleKeys(h) == KeptKeys(h) - CountedKeys(h)
  {
    forall p: nat ensures MissedKey(h, p) <==> CountedKey(h, p) && !KeptKey(h, p) {}
    forall p: nat ensures StaleKey(h, p) <==> KeptKey(h, p) && !CountedKey(h, p) {}
  }

  lemma SameSize(a: set<nat>, b: set<nat>)
    ensures |a| == |b| <==> |a - b| == |b - a|
  {
    assert a == (a - b) + (a * b) && b == (b - a) + (a * b);
  }

  lemma KeptAppend(h: seq<Happening>, what: Happening)
    ensures KeptKeys(h + [what]) ==
            if what.Forgotten? || (what.current && Restarts(what.entry)) then {}
            else if what.current && IsWrongKey(what.entry) then KeptKeys(h) + {|h|}
            else KeptKeys(h)
  {
    var more := h + [what];
    forall p | 0 <= p < |h| ensures KeptKey(more, p) <==>
      KeptKey(h, p) && !(what.Forgotten? || (what.current && Restarts(what.entry)))
    {
      assert RestartsAt(more, |h|) <==> what.On? && Restarts(what.entry);
      assert forall q :: 0 <= q < |h| ==> RestartsAt(more, q) == RestartsAt(h, q) && more[q] == h[q];
    }
    assert more[|h|] == what;
  }

  // ------------------------------------------------------------------ invariant

  ghost predicate ObjectOk(cfg: Setup, w: Ecu, id: StateId) {
    id in w.objects ==> Observed(cfg.uds, w.objects[id].log, w.objects[id].state)
  }

  ghost predicate Watched(w: Ecu, id: StateId) {
    exists k :: k in w.sockets && w.sockets[k] == id
  }

  /** The testers whose entry, if there is one, is their own, has the right timer, counts the
      keys it should and is worth keeping without a socket. */
  ghost function InOrder(cfg: Setup, w: Ecu): iset<uint16> {
    iset sa: uint16 | sa in w.entries ==>
      && w.entries[sa] in w.objects
      && w.objects[w.entries[sa]].tester == sa
      && Timed(cfg.uds, w.objects[w.entries[sa]].state)
      && w.objects[w.entries[sa]].state.attempts == |KeptKeys(HistoryOf(w, sa))|
      && (!Watched(w, w.entries[sa]) ==> !Tidy(cfg.uds, w.objects[w.entries[sa]].state))
  }

  ghost predicate EntryOk(cfg: Setup, w: Ecu, sa: uint16) { sa in InOrder(cfg, w) }

  /** A tester without an entry starts again from nothing. */
  ghost predicate NoEntryOk(w: Ecu, sa: uint16) {
    sa !in w.entries ==> KeptKeys(HistoryOf(w, sa)) == {}
  }

  ghost predicate SocketOk(w: Ecu, k: SocketId) {
    k in w.sockets ==> w.sockets[k] in w.objects
  }

  /** A value that is not the default has a record of the write that made it. */
  ghost predicate ValueOk(cfg: Setup, w: Ecu, did: uint16) {
    did in w.values && did in cfg.table && Some(w.values[did]) != cfg.table[did].value ==>
      && did in w.writes
      && RecordOk(cfg, w, did, w.writes[did])
      && w.writes[did].value == w.values[did]
  }

  ghost predicate RecordOk(cfg: Setup, w: Ecu, did: uint16, r: WriteRecord)
    requires did in cfg.table
  {
    && DidTheorems.Allowed(cfg.table[did], TesterOf(r.state), r.value)
    && Observed(cfg.uds, r.log, r.state)
    && r.through in w.objects && r.log <= w.objects[r.through].log
  }

  ghost predicate Core(cfg: Setup, w: Ecu) {
    && (forall id {:trigger ObjectOk(cfg, w, id)} :: ObjectOk(cfg, w, id))
    && (forall sa {:trigger NoEntryOk(w, sa)} :: NoEntryOk(w, sa))
    && (forall k {:trigger SocketOk(w, k)} :: SocketOk(w, k))
    && (forall did {:trigger ValueOk(cfg, w, did)} :: ValueOk(cfg, w, did))
    && DidTheorems.StoreInv(cfg.table, w.values)
  }

  /** Every entry but that of `except` is in order. */
  ghost predicate Entries(cfg: Setup, w: Ecu, except: Option<uint16>) {
    forall sa: uint16 {:trigger EntryOk(cfg, w, sa)} :: except != Some(sa) ==> EntryOk(cfg, w, sa)
  }

  /** The states in which every part of the invariant holds, as a set so that a proof
      carries `v in Good(cfg)` along as one fact. */
  ghost function Good(cfg: Setup): iset<Ecu> { iset w: Ecu | Core(cfg, w) && Entries(cfg, w, None) }

  // --------------------------------------------------------------- preservation

  lemma ObservedNext(cfg: Config, log: seq<Entry>, s: State, e: Entry)
    requires Observed(cfg, log, s) && Possible(cfg, s, e)
    ensures Observed(cfg, log + [e], After(cfg, s, e))
  {
    var more := log + [e];
    assert more[..|more| - 1] == log && more[|more| - 1] == e;
  }

  /** Dropping an entry repairs whatever was wrong with it. */
  lemma DropKeeps(cfg: Setup, w: Ecu, sa: uint16)
    requires Core(cfg, w) && Entries(cfg, w, Some(sa))
    ensures Drop(w, sa) in Good(cfg)
  {
    var v := Drop(w, sa);
    KeptAppend(HistoryOf(w, sa), Forgotten);
    forall id ensures ObjectOk(cfg, v, id) { assert ObjectOk(cfg, w, id); }
    forall a ensures NoEntryOk(v, a) { assert NoEntryOk(w, a); }
    forall k ensures SocketOk(v, k) { assert SocketOk(w, k); }
    forall did ensures ValueOk(cfg, v, did) { assert ValueOk(cfg, w, did); }
    forall a ensures EntryOk(cfg, v, a) {
      assert a != sa ==> EntryOk(cfg, w, a);
      assert forall id :: Watched(v, id) == Watched(w, id);
    }
  }

  /** What happens to one object leaves everything but its own entry in order. */
  lemma ChangeCore(cfg: Setup, w: Ecu, id: StateId, e: Entry)
    requires w in Good(cfg) && id in w.objects && Possible(cfg.uds, w.objects[id].state, e)
    ensures Core(cfg, Change(w, id, After(cfg.uds, w.objects[id].state, e), e))
  {
    var o := w.objects[id];
    var v := Change(w, id, After(cfg.uds, o.state, e), e);
    forall i ensures ObjectOk(cfg, v, i) {
      assert ObjectOk(cfg, w, i);
      if i == id {
        ObservedNext(cfg.uds, o.log, o.state, e);
      }
    }
    KeptAppend(HistoryOf(w, o.tester), On(e, IsEntry(w, id)));
    forall a ensures NoEntryOk(v, a) { assert NoEntryOk(w, a); }
    forall k ensures SocketOk(v, k) { assert SocketOk(w, k); }
    forall did ensures ValueOk(cfg, v, did) { assert ValueOk(cfg, w, did); }
  }

  /** What happens to an object outside the table leaves the tester's entry in order. */
  lemma ChangeOrphan(cfg: Setup, w: Ecu, id: StateId, state: State, e: Entry)
    requires w in Good(cfg) && id in w.objects && !IsEntry(w, id)
    ensures EntryOk(cfg, Change(w, id, state, e), w.objects[id].tester)
  {
    var v := Change(w, id, state, e);
    var sa := w.objects[id].tester;
    assert EntryOk(cfg, w, sa);
    KeptAppend(HistoryOf(w, sa), On(e, false));
    assert forall i :: Watched(v, i) == Watched(w, i);
  }

  lemma ChangeOthers(cfg: Setup, w: Ecu, id: StateId, state: State, e: Entry)
    requires w in Good(cfg) && id in w.objects
    ensures Entries(cfg, Change(w, id, state, e), Some(w.objects[id].tester))
  {
    var v := Change(w, id, state, e);
    forall a | a != w.objects[id].tester ensures EntryOk(cfg, v, a) {
      assert EntryOk(cfg, w, a);
      assert forall i :: Watched(v, i) == Watched(w, i);
    }
  }

  /** A served request keeps the entry it was served on in order. */
  lemma ChangeServed(cfg: Setup, w: Ecu, id: StateId, raw: Bytes)
    requires w in Good(cfg) && id in w.objects && raw != [] && Watched(w, id)
    requires !Vanishes(cfg.uds, raw, Serve(cfg.uds, w.objects[id].state, raw).reply)
    ensures var served := Serve(cfg.uds, w.objects[id].state, raw);
            Change(w, id, served.state, Request(raw, served.reply)) in Good(cfg)
  {
    var o := w.objects[id];
    var served := Serve(cfg.uds, o.state, raw);
    var e := Request(raw, served.reply);
    var v := Change(w, id, served.state, e);
    ChangeCore(cfg, w, id, e);
    ChangeOthers(cfg, w, id, served.state, e);
    if IsEntry(w, id) {
      ServedEntry(cfg, w, id, raw);
    } else {
      ChangeOrphan(cfg, w, id, served.state, e);
    }
    assert EntryOk(cfg, v, o.tester);
  }

  lemma ServedEntry(cfg: Setup, w: Ecu, id: StateId, raw: Bytes)
    requires w in Good(cfg) && id in w.objects && raw != [] && Watched(w, id) && IsEntry(w, id)
    requires !Vanishes(cfg.uds, raw, Serve(cfg.uds, w.objects[id].state, raw).reply)
    ensures var served := Serve(cfg.uds, w.objects[id].state, raw);
            EntryOk(cfg, Change(w, id, served.state, Request(raw, served.reply)), w.objects[id].tester)
  {
    var o := w.objects[id];
    var served := Serve(cfg.uds, o.state, raw);
    var e := Request(raw, served.reply);
    var v := Change(w, id, served.state, e);
    ServeTimed(cfg.uds, o.state, raw);
    StepEffect(cfg.uds, o.state, e);
    KeptAppend(HistoryOf(w, o.tester), On(e, true));
    assert EntryOk(cfg, w, o.tester);
    assert Watched(v, id);
  }

  lemma VanishKeeps(cfg: Setup, w: Ecu, sa: uint16)
    requires Core(cfg, w) && Entries(cfg, w, Some(sa))
    requires sa in w.entries ==> w.entries[sa] in w.objects && w.objects[w.entries[sa]].tester == sa
    ensures Vanish(w, sa) in Good(cfg)
  {
    if sa in w.entries {
      var x := w.entries[sa];
      var o := w.objects[x];
      var v := w.(objects := w.objects[x := Object(o.tester, o.state.(armed := false), o.log + [TimerStopped])]);
      forall i ensures ObjectOk(cfg, v, i) {
        assert ObjectOk(cfg, w, i);
        if i == x {
          ObservedNext(cfg.uds, o.log, o.state, TimerStopped);
        }
      }
      forall a ensures NoEntryOk(v, a) { assert NoEntryOk(w, a); }
      forall k ensures SocketOk(v, k) { assert SocketOk(w, k); }
      forall did ensures ValueOk(cfg, v, did) { assert ValueOk(cfg, w, did); }
      forall a | a != sa ensures EntryOk(cfg, v, a) {
        assert EntryOk(cfg, w, a);
        assert forall i :: Watched(v, i) == Watched(w, i);
      }
      DropKeeps(cfg, v, sa);
    } else {
      assert EntryOk(cfg, w, sa);
    }
  }

  /** A write by the object `id` is recorded with the state it was allowed in. */
  lemma WriteRecorded(cfg: Setup, w: Ecu, id: StateId, raw: Bytes, reply: Reply)
    requires w in Good(cfg) && DidConfig.WellFormedTable(cfg.table) && id in w.objects
    requires raw != [] && raw[0] == DidStore.WRITE_DID
    ensures forall did {:trigger ValueOk(cfg, Stored(cfg, w, id, raw, reply), did)} :: ValueOk(cfg, Stored(cfg, w, id, raw, reply), did)
    ensures DidTheorems.StoreInv(cfg.table, Stored(cfg, w, id, raw, reply).values)
  {
    var v := Stored(cfg, w, id, raw, reply);
    var t, body := TesterOf(w.objects[id].state), raw[1..];
    var written := DidStore.Write(cfg.dids, cfg.table, w.values, t, body);
    var e := DidTheorems.WriteRequest(t, body, written.reply);
    DidTheorems.WriteKeeps(cfg.dids, cfg.table, w.values, e);
    assert ObjectOk(cfg, w, id);
    if |body| >= 3 && Decode16(body[..2]) in cfg.table {
      DidTheorems.AcceptedExactly(cfg.dids, cfg.table, w.values, t, body);
    }
    forall did ensures ValueOk(cfg, v, did) {
      assert ValueOk(cfg, w, did);
      if did in v.values && did in cfg.table && !DidTheorems.Accepted(cfg.table, e, did) {
        assert v.values[did] == w.values[did];
      }
    }
  }

  lemma StoredValues(cfg: Setup, w: Ecu, id: StateId, raw: Bytes, reply: Reply)
    requires w in Good(cfg) && DidConfig.WellFormedTable(cfg.table) && id in w.objects && raw != []
    ensures var v := Stored(cfg, w, id, raw, reply);
            (forall did :: ValueOk(cfg, v, did)) && DidTheorems.StoreInv(cfg.table, v.values)
  {
    var v := Stored(cfg, w, id, raw, reply);
    DidTheorems.DefaultsHold(cfg.table);
    assert ValueOk(cfg, w, 0);
    if raw[0] == DidStore.WRITE_DID {
      WriteRecorded(cfg, w, id, raw, reply);
    } else {
      forall did ensures ValueOk(cfg, v, did) { assert ValueOk(cfg, w, did); }
    }
  }

  lemma StoredKeeps(cfg: Setup, w: Ecu, id: StateId, raw: Bytes, reply: Reply)
    requires w in Good(cfg) && DidConfig.WellFormedTable(cfg.table) && id in w.objects && raw != []
    ensures Stored(cfg, w, id, raw, reply) in Good(cfg)
  {
    var v := Stored(cfg, w, id, raw, reply);
    StoredValues(cfg, w, id, raw, reply);
    assert v.objects == w.objects && v.entries == w.entries && v.sockets == w.sockets && v.history == w.history;
    forall i ensures ObjectOk(cfg, v, i) { assert ObjectOk(cfg, w, i); }
    forall a ensures NoEntryOk(v, a) { assert NoEntryOk(w, a); }
    forall k ensures SocketOk(v, k) { assert SocketOk(w, k); }
    forall a: uint16 ensures EntryOk(cfg, v, a) {
      assert EntryOk(cfg, w, a);
      assert forall i :: Watched(v, i) == Watched(w, i);
    }
  }

  lemma ServeKeeps(cfg: Setup, w: Ecu, id: StateId, raw: Bytes)
    requires w in Good(cfg) && DidConfig.WellFormedTable(cfg.table)
    requires id in w.objects && raw != [] && Watched(w, id)
    ensures ServeStep(cfg, w, id, raw) in Good(cfg)
  {
    var o := w.objects[id];
    var served := Serve(cfg.uds, o.state, raw);
    var e := Request(raw, served.reply);
    var u := Stored(cfg, w, id, raw, served.reply);
    StoredKeeps(cfg, w, id, raw, served.reply);
    assert Watched(u, id);
    if Vanishes(cfg.uds, raw, served.reply) {
      ChangeCore(cfg, u, id, e);
      ChangeOthers(cfg, u, id, served.state, e);
      assert EntryOk(cfg, u, o.tester);
      VanishKeeps(cfg, Change(u, id, served.state, e), o.tester);
    } else {
      ChangeServed(cfg, u, id, raw);
    }
  }

  lemma ActivateKeeps(cfg: Setup, w: Ecu, k: SocketId, sa: uint16, spare: StateId)
    requires w in Good(cfg) && Enabled(w, Activate(k, sa, spare))
    ensures ActivateStep(cfg, w, k, sa, spare) in Good(cfg)
  {
    var v := ActivateStep(cfg, w, k, sa, spare);
    forall i ensures ObjectOk(cfg, v, i) { assert ObjectOk(cfg, w, i); }
    forall a ensures NoEntryOk(v, a) { assert NoEntryOk(w, a); }
    forall j ensures SocketOk(v, j) { assert SocketOk(w, j) && EntryOk(cfg, w, sa); }
    ActivateValues(cfg, w, k, sa, spare);
    forall a: uint16 ensures EntryOk(cfg, v, a) { ActivateEntry(cfg, w, k, sa, spare, a); }
  }

  lemma ActivateValues(cfg: Setup, w: Ecu, k: SocketId, sa: uint16, spare: StateId)
    requires Core(cfg, w) && Enabled(w, Activate(k, sa, spare))
    ensures var v := ActivateStep(cfg, w, k, sa, spare);
            (forall did :: ValueOk(cfg, v, did)) && v.values == w.values
  {
    var v := ActivateStep(cfg, w, k, sa, spare);
    forall did ensures ValueOk(cfg, v, did) { assert ValueOk(cfg, w, did); }
  }

  lemma ActivateEntry(cfg: Setup, w: Ecu, k: SocketId, sa: uint16, spare: StateId, a: uint16)
    requires w in Good(cfg) && Enabled(w, Activate(k, sa, spare))
    ensures EntryOk(cfg, ActivateStep(cfg, w, k, sa, spare), a)
  {
    assert EntryOk(cfg, w, a) && NoEntryOk(w, a);
    if a == sa {
      ActivateOwn(cfg, w, k, sa, spare);
    } else if a in w.entries {
      ActivateOther(cfg, w, k, sa, spare, a);
    }
  }

  lemma ActivateOwn(cfg: Setup, w: Ecu, k: SocketId, sa: uint16, spare: StateId)
    requires EntryOk(cfg, w, sa) && NoEntryOk(w, sa)
    ensures EntryOk(cfg, ActivateStep(cfg, w, k, sa, spare), sa)
  {
    var v := ActivateStep(cfg, w, k, sa, spare);
    assert k in v.sockets && v.sockets[k] == v.entries[sa];
    assert Watched(v, v.entries[sa]) && HistoryOf(v, sa) == HistoryOf(w, sa);
    if sa in w.entries {
      assert v.entries[sa] == w.entries[sa] && v.objects == w.objects;
    }
  }

  lemma ActivateOther(cfg: Setup, w: Ecu, k: SocketId, sa: uint16, spare: StateId, a: uint16)
    requires EntryOk(cfg, w, a) && a in w.entries && a != sa && Enabled(w, Activate(k, sa, spare))
    ensures EntryOk(cfg, ActivateStep(cfg, w, k, sa, spare), a)
  {
    var v := ActivateStep(cfg, w, k, sa, spare);
    WatchedMore(w, v, k);
    assert v.entries[a] == w.entries[a] && v.objects[v.entries[a]] == w.objects[w.entries[a]];
  }

  lemma WatchedMore(w: Ecu, v: Ecu, k: SocketId)
    requires k !in w.sockets && k in v.sockets && v.sockets == w.sockets[k := v.sockets[k]]
    ensures forall id :: Watched(v, id) <==> Watched(w, id) || id == v.sockets[k]
  {
    forall id ensures Watched(v, id) <==> Watched(w, id) || id == v.sockets[k] {
      if Watched(w, id) {
        var j :| j in w.sockets && w.sockets[j] == id;
        assert v.sockets[j] == id;
      }
      if Watched(v, id) && id != v.sockets[k] {
        var j :| j in v.sockets && v.sockets[j] == id;
        assert w.sockets[j] == id;
      }
    }
  }

  lemma CloseKeeps(cfg: Setup, w: Ecu, k: SocketId)
    requires w in Good(cfg) && Enabled(w, Close(k))
    ensures CloseStep(cfg, w, k) in Good(cfg)
  {
    var id := w.sockets[k];
    var sa := w.objects[id].tester;
    var v := w.(sockets := w.sockets - {k});
    forall i ensures ObjectOk(cfg, v, i) { assert ObjectOk(cfg, w, i); }
    forall a ensures NoEntryOk(v, a) { assert NoEntryOk(w, a); }
    forall j ensures SocketOk(v, j) { assert SocketOk(w, j); }
    forall did ensures ValueOk(cfg, v, did) { assert ValueOk(cfg, w, did); }
    WatchedMore(v, w, k);
    forall a: uint16 | a != sa ensures EntryOk(cfg, v, a) { assert EntryOk(cfg, w, a); }
    if IsEntry(w, id) && Tidy(cfg.uds, w.objects[id].state) {
      DropKeeps(cfg, v, sa);
    } else {
      assert EntryOk(cfg, w, sa);
      assert EntryOk(cfg, v, sa);
    }
  }

  lemma ExpireKeeps(cfg: Setup, w: Ecu, id: StateId)
    requires w in Good(cfg) && Enabled(w, Expire(id))
    ensures ExpireStep(cfg, w, id) in Good(cfg)
  {
    var v := Change(w, id, Fresh(cfg.uds), S3Expired);
    ChangeCore(cfg, w, id, S3Expired);
    ChangeOthers(cfg, w, id, Fresh(cfg.uds), S3Expired);
    var sa := w.objects[id].tester;
    if IsEntry(w, id) {
      DropKeeps(cfg, v, sa);
    } else {
      ChangeOrphan(cfg, w, id, Fresh(cfg.uds), S3Expired);
    }
  }

  lemma StepKeeps(cfg: Setup, w: Ecu, step: Step)
    requires w in Good(cfg) && DidConfig.WellFormedTable(cfg.table) && Enabled(w, step)
    ensures Apply(cfg, w, step) in Good(cfg)
  {
    match step
    case Activate(k, sa, spare) => ActivateKeeps(cfg, w, k, sa, spare);
    case Serves(k, raw) =>
      assert Watched(w, w.sockets[k]);
      ServeKeeps(cfg, w, w.sockets[k], raw);
    case Close(k) => CloseKeeps(cfg, w, k);
    case Expire(id) => ExpireKeeps(cfg, w, id);
  }

  lemma NewOk(cfg: Setup)
    requires DidConfig.WellFormedTable(cfg.table)
    ensures New(cfg) in Good(cfg)
  {
    DidTheorems.DefaultsHold(cfg.table);
  }

  lemma {:induction false} RunKeeps(cfg: Setup, w: Ecu, steps: seq<Step>, last: Ecu)
    requires w in Good(cfg) && DidConfig.WellFormedTable(cfg.table) && Runs(cfg, w, steps, last)
    ensures last in Good(cfg)
    decreases |steps|
  {
    if steps != [] {
      StepKeeps(cfg, w, steps[0]);
      RunKeeps(cfg, Apply(cfg, w, steps[0]), steps[1..], last);
    }
  }

  // -------------------------------------------------------------------- theorems

  /** The attempt counter over whole runs.  A tester's counter is its wrong keys since
      its last relock or unlock, less those given on an object other than the entry or on
      an entry dropped since, plus those on the entry from before a relock or unlock on
      another object.  It counts exactly the tester's wrong keys if and only if there are
      none of either, and has the right number if and only if there are as many. */
  lemma CounterExactly(cfg: Setup, steps: seq<Step>, w: Ecu, sa: uint16)
    requires DidConfig.WellFormedTable(cfg.table) && Runs(cfg, New(cfg), steps, w)
    requires sa in w.entries
    ensures w.entries[sa] in w.objects
    ensures var h := HistoryOf(w, sa);
            var attempts := w.objects[w.entries[sa]].state.attempts;
            && attempts == |KeptKeys(h)|
            && (KeptKeys(h) == CountedKeys(h) <==> Exact(h))
            && (attempts == |CountedKeys(h)| <==> |MissedKeys(h)| == |StaleKeys(h)|)
  {
    NewOk(cfg);
    RunKeeps(cfg, New(cfg), steps, w);
    assert EntryOk(cfg, w, sa);
    var h := HistoryOf(w, sa);
    KeptExactly(h);
    SameSize(CountedKeys(h), KeptKeys(h));
  }

  ghost predicate Exact(h: seq<Happening>) { MissedKeys(h) == {} && StaleKeys(h) == {} }

  lemma CountedAppend(h: seq<Happening>, what: Happening)
    ensures CountedKeys(h + [what]) ==
            if what.On? && Restarts(what.entry) then {}
            else if what.On? && IsWrongKey(what.entry) then CountedKeys(h) + {|h|}
            else CountedKeys(h)
  {
    var more := h + [what];
    forall p | 0 <= p < |h| ensures CountedKey(more, p) <==> CountedKey(h, p) && !(what.On? && Restarts(what.entry)) {
      assert RestartsAt(more, |h|) <==> what.On? && Restarts(what.entry);
      assert forall q :: 0 <= q < |h| ==> RestartsAt(more, q) == RestartsAt(h, q);
    }
    assert more[|h|] == what;
  }

  /** How one more event makes the counter inexact. */
  lemma ExactAppend(h: seq<Happening>, what: Happening)
    requires Exact(h)
    ensures Exact(h + [what]) <==>
            if what.Forgotten? then KeptKeys(h) == {}
            else what.current || (!IsWrongKey(what.entry) && (Restarts(what.entry) ==> KeptKeys(h) == {}))
  {
    KeptExactly(h);
    KeptExactly(h + [what]);
    KeptAppend(h, what);
    CountedAppend(h, what);
    assert KeptKeys(h) == CountedKeys(h);
    assert |h| !in CountedKeys(h);
  }

  /** Dropping the entry right after a relock leaves nothing to count and nothing counted. */
  lemma ExactAfterRelock(h: seq<Happening>, e: Entry, current: bool)
    requires Relocks(e)
    ensures Exact(h + [On(e, current)] + [Forgotten])
  {
    var more := h + [On(e, current)];
    KeptExactly(more + [Forgotten]);
    CountedAppend(h, On(e, current));
    CountedAppend(more, Forgotten);
    KeptAppend(more, Forgotten);
  }

  /** The entry of `sa` has counted wrong keys. */
  ghost predicate Counting(w: Ecu, sa: uint16) {
    sa in w.entries && w.entries[sa] in w.objects && w.objects[w.entries[sa]].state.attempts > 0
  }

  /** A request of `sa` that is a wrong key, or a relock or unlock while the entry counts,
      served by an object that is not the entry.  A reset that drops the entry is none. */
  ghost predicate ServesAside(cfg: Setup, w: Ecu, id: StateId, raw: Bytes, sa: uint16)
    requires id in w.objects && raw != []
  {
    var reply := Serve(cfg.uds, w.objects[id].state, raw).reply;
    var e := Request(raw, reply);
    && w.objects[id].tester == sa && !IsEntry(w, id)
    && (IsWrongKey(e) || (Restarts(e) && !Vanishes(cfg.uds, raw, reply) && Counting(w, sa)))
  }

  ghost predicate Harms(cfg: Setup, w: Ecu, step: Step, sa: uint16)
    requires Enabled(w, step)
  {
    match step
    case Activate(_, _, _) => false
    case Serves(k, raw) => ServesAside(cfg, w, w.sockets[k], raw, sa)
    case Close(k) =>
      var id := w.sockets[k];
      IsEntry(w, id) && w.objects[id].tester == sa && Tidy(cfg.uds, w.objects[id].state) && Counting(w, sa)
    case Expire(id) => w.objects[id].tester == sa && !IsEntry(w, id) && Counting(w, sa)
  }

  lemma KeptIsCounting(cfg: Setup, w: Ecu, sa: uint16)
    requires w in Good(cfg)
    ensures KeptKeys(HistoryOf(w, sa)) == {} <==> !Counting(w, sa)
  {
    assert EntryOk(cfg, w, sa) && NoEntryOk(w, sa);
  }

  lemma ChangeHistory(w: Ecu, id: StateId, state: State, e: Entry, sa: uint16)
    requires id in w.objects
    ensures w.objects[id].tester == sa ==>
              HistoryOf(Change(w, id, state, e), sa) == HistoryOf(w, sa) + [On(e, IsEntry(w, id))]
    ensures w.objects[id].tester != sa ==> HistoryOf(Change(w, id, state, e), sa) == HistoryOf(w, sa)
    ensures Change(w, id, state, e).entries == w.entries && Change(w, id, state, e).objects.Keys == w.objects.Keys
  {
  }

  lemma ServeHarms(cfg: Setup, w: Ecu, id: StateId, raw: Bytes, sa: uint16)
    requires w in Good(cfg) && id in w.objects && raw != [] && Exact(HistoryOf(w, sa))
    ensures Exact(HistoryOf(ServeStep(cfg, w, id, raw), sa)) <==> !ServesAside(cfg, w, id, raw, sa)
  {
    var served := Serve(cfg.uds, w.objects[id].state, raw);
    var e := Request(raw, served.reply);
    ServeHistory(cfg, w, id, raw, sa);
    if Vanishes(cfg.uds, raw, served.reply) {
      VanishHarmless(cfg, w, ServedOn(cfg, w, id, raw), id, e, sa);
    } else {
      NotedHarms(cfg, w, id, e, sa);
    }
  }

  /** What a request leaves before the entry may vanish. */
  ghost function ServedOn(cfg: Setup, w: Ecu, id: StateId, raw: Bytes): Ecu
    requires id in w.objects && raw != []
  {
    var served := Serve(cfg.uds, w.objects[id].state, raw);
    Change(Stored(cfg, w, id, raw, served.reply), id, served.state, Request(raw, served.reply))
  }

  lemma ServeHistory(cfg: Setup, w: Ecu, id: StateId, raw: Bytes, sa: uint16)
    requires id in w.objects && raw != []
    ensures var v := ServedOn(cfg, w, id, raw);
            var reply := Serve(cfg.uds, w.objects[id].state, raw).reply;
            && v.entries == w.entries && v.objects.Keys == w.objects.Keys
            && HistoryOf(v, sa) == (if w.objects[id].tester == sa
                                    then HistoryOf(w, sa) + [On(Request(raw, reply), IsEntry(w, id))] else HistoryOf(w, sa))
            && ServeStep(cfg, w, id, raw) == if Vanishes(cfg.uds, raw, reply) then Vanish(v, w.objects[id].tester) else v
  {
    var served := Serve(cfg.uds, w.objects[id].state, raw);
    var u := Stored(cfg, w, id, raw, served.reply);
    assert u.entries == w.entries && u.objects == w.objects && u.history == w.history;
    ChangeHistory(u, id, served.state, Request(raw, served.reply), sa);
  }

  lemma NotedHarms(cfg: Setup, w: Ecu, id: StateId, e: Entry, sa: uint16)
    requires w in Good(cfg) && id in w.objects && Exact(HistoryOf(w, sa))
    ensures Exact(HistoryOf(w, sa) + [On(e, IsEntry(w, id))]) <==>
            IsEntry(w, id) || (!IsWrongKey(e) && (Restarts(e) ==> !Counting(w, sa)))
  {
    KeptIsCounting(cfg, w, sa);
    ExactAppend(HistoryOf(w, sa), On(e, IsEntry(w, id)));
  }

  /** A reset that drops the entry. */
  lemma VanishHarmless(cfg: Setup, w: Ecu, v: Ecu, id: StateId, e: Entry, sa: uint16)
    requires w in Good(cfg) && id in w.objects && Relocks(e) && Exact(HistoryOf(w, sa))
    requires v.entries == w.entries && v.objects.Keys == w.objects.Keys
    requires HistoryOf(v, sa) == if w.objects[id].tester == sa then HistoryOf(w, sa) + [On(e, IsEntry(w, id))] else HistoryOf(w, sa)
    ensures Exact(HistoryOf(Vanish(v, w.objects[id].tester), sa))
  {
    var h := HistoryOf(w, sa);
    assert EntryOk(cfg, w, sa);
    ExactAfterRelock(h, e, IsEntry(w, id));
    ExactAppend(h, On(e, IsEntry(w, id)));
    KeptIsCounting(cfg, w, sa);
  }

  /** What makes a tester's counter inexact, in any run: a socket closes and its counting,
      tidy entry is dropped; a wrong key is given on an object that has left the table; or
      such an object is relocked or unlocked while the entry counts.  No other step does. */
  lemma HarmsExactly(cfg: Setup, steps: seq<Step>, w: Ecu, step: Step, sa: uint16)
    requires DidConfig.WellFormedTable(cfg.table) && Runs(cfg, New(cfg), steps, w)
    requires Enabled(w, step) && Exact(HistoryOf(w, sa))
    ensures Exact(HistoryOf(Apply(cfg, w, step), sa)) <==> !Harms(cfg, w, step, sa)
  {
    NewOk(cfg);
    RunKeeps(cfg, New(cfg), steps, w);
    match step
    case Activate(_, _, _) =>
    case Serves(k, raw) => ServeHarms(cfg, w, w.sockets[k], raw, sa);
    case Close(k) => CloseHarms(cfg, w, k, sa);
    case Expire(id) => ExpireHarms(cfg, w, id, sa);
  }

  lemma CloseHarms(cfg: Setup, w: Ecu, k: SocketId, sa: uint16)
    requires w in Good(cfg) && Enabled(w, Close(k)) && Exact(HistoryOf(w, sa))
    ensures Exact(HistoryOf(CloseStep(cfg, w, k), sa)) <==> !Harms(cfg, w, Close(k), sa)
  {
    KeptIsCounting(cfg, w, sa);
    ExactAppend(HistoryOf(w, sa), Forgotten);
  }

  lemma ExpireHarms(cfg: Setup, w: Ecu, id: StateId, sa: uint16)
    requires w in Good(cfg) && Enabled(w, Expire(id)) && Exact(HistoryOf(w, sa))
    ensures Exact(HistoryOf(ExpireStep(cfg, w, id), sa)) <==> !Harms(cfg, w, Expire(id), sa)
  {
    KeptIsCounting(cfg, w, sa);
    ChangeHistory(w, id, Fresh(cfg.uds), S3Expired, sa);
    ExactAppend(HistoryOf(w, sa), On(S3Expired, IsEntry(w, id)));
    ExactAfterRelock(HistoryOf(w, sa), S3Expired, true);
  }

  lemma {:induction false} Then(cfg: Setup, first: Ecu, steps: seq<Step>, w: Ecu, step: Step)
    requires Runs(cfg, first, steps, w) && Enabled(w, step)
    ensures Runs(cfg, first, steps + [step], Apply(cfg, w, step))
    decreases |steps|
  {
    if steps == [] {
      assert [step][1..] == [];
    } else {
      Then(cfg, Apply(cfg, first, steps[0]), steps[1..], w, step);
      assert (steps + [step])[1..] == steps[1..] + [step];
    }
  }

  /** What the state is after seed 1 and a key of the right length. */
  lemma KeyOutcome(cfg: Config, key: Bytes)
    requires cfg.enabled && |key| == |cfg.seed|
    ensures var seeded := Serve(cfg, Fresh(cfg), [SECURITY_ACCESS, 0x01]);
            var raw := [SECURITY_ACCESS, 0x02] + key;
            var served := Serve(cfg, seeded.state, raw);
            && seeded.reply.Positive?
            && (key == ExpectedKey(cfg) ==> served.state == Fresh(cfg).(level := 1))
            && (key != ExpectedKey(cfg) ==>
                  served.state == Fresh(cfg).(attempts := 1) && IsWrongKey(Request(raw, served.reply)))
  {
    var raw := [SECURITY_ACCESS, 0x02] + key;
    assert raw[2..] == key;
  }

  /** One tester activates, asks for seed 1 and sends a key. */
  function OneKey(cfg: Setup, sa: uint16, key: Bytes): (w: Ecu)
    requires cfg.uds.enabled
    ensures Runs(cfg, New(cfg), KeySteps(sa, key), w)
    ensures w.sockets == map[0 := 0] && w.entries == map[sa := 0] && w.objects.Keys == {0} && w.objects[0].tester == sa
    ensures var seeded := Serve(cfg.uds, Fresh(cfg.uds), [SECURITY_ACCESS, 0x01]);
            var served := Serve(cfg.uds, seeded.state, [SECURITY_ACCESS, 0x02] + key);
            && w.objects[0].state == served.state
            && HistoryOf(w, sa) == [On(Request([SECURITY_ACCESS, 0x01], seeded.reply), true),
                                    On(Request([SECURITY_ACCESS, 0x02] + key, served.reply), true)]
  {
    var w1 := Apply(cfg, New(cfg), Activate(0, sa, 0));
    var w2 := Apply(cfg, w1, Serves(0, [SECURITY_ACCESS, 0x01]));
    var w3 := Apply(cfg, w2, Serves(0, [SECURITY_ACCESS, 0x02] + key));
    assert Runs(cfg, New(cfg), KeySteps(sa, key), w3) by {
      Then(cfg, New(cfg), [], New(cfg), Activate(0, sa, 0));
      Then(cfg, New(cfg), [] + [Activate(0, sa, 0)], w1, Serves(0, [SECURITY_ACCESS, 0x01]));
      Then(cfg, New(cfg), [] + [Activate(0, sa, 0)] + [Serves(0, [SECURITY_ACCESS, 0x01])], w2,
           Serves(0, [SECURITY_ACCESS, 0x02] + key));
      assert KeySteps(sa, key) == [] + [Activate(0, sa, 0)] + [Serves(0, [SECURITY_ACCESS, 0x01])]
                                  + [Serves(0, [SECURITY_ACCESS, 0x02] + key)];
    }
    w3
  }

  function KeySteps(sa: uint16, key: Bytes): seq<Step> {
    [Activate(0, sa, 0), Serves(0, [SECURITY_ACCESS, 0x01]), Serves(0, [SECURITY_ACCESS, 0x02] + key)]
  }

  /** Counterexample to the counter being kept for the tester: after one wrong key and a
      reconnect the tester's counter is 0 again. */
  lemma ReconnectForgetsWrongKey(cfg: Setup, sa: uint16, key: Bytes) returns (steps: seq<Step>, w: Ecu)
    requires cfg.uds.enabled && |key| == |cfg.uds.seed| && key != ExpectedKey(cfg.uds)
    ensures Runs(cfg, New(cfg), steps, w) && sa in w.entries && w.entries[sa] in w.objects
    ensures w.objects[w.entries[sa]].state.attempts == 0 && |CountedKeys(HistoryOf(w, sa))| == 1
  {
    var w3 := OneKey(cfg, sa, key);
    KeyOutcome(cfg.uds, key);
    Then(cfg, New(cfg), KeySteps(sa, key), w3, Close(0));
    var w4 := Apply(cfg, w3, Close(0));
    Then(cfg, New(cfg), KeySteps(sa, key) + [Close(0)], w4, Activate(0, sa, 1));
    steps, w := KeySteps(sa, key) + [Close(0)] + [Activate(0, sa, 1)], Apply(cfg, w4, Activate(0, sa, 1));
    CountedOnce(HistoryOf(w3, sa));
  }

  /** The other way to lose a wrong key: the S3 timer drops the entry while the socket keeps
      its object, and what the tester does on it no longer counts. */
  lemma OrphanKeyNotCounted(cfg: Setup, sa: uint16, sub: byte, key: Bytes) returns (steps: seq<Step>, w: Ecu)
    requires cfg.uds.enabled && |key| == |cfg.uds.seed| && key != ExpectedKey(cfg.uds)
    requires cfg.uds.s3 > 0 && sub in cfg.uds.sessions && sub != cfg.uds.defaultSession && sub < 128
    ensures Runs(cfg, New(cfg), steps, w) && sa in w.entries && w.entries[sa] in w.objects
    ensures w.objects[w.entries[sa]].state.attempts == 0 && |CountedKeys(HistoryOf(w, sa))| == 1
    ensures 0 in w.objects && w.objects[0].tester == sa && w.objects[0].state.attempts == 1
  {
    var before, orphan := OrphanKey(cfg, sa, sub, key);
    Then(cfg, New(cfg), before, orphan, Close(0));
    var closed := Apply(cfg, orphan, Close(0));
    Then(cfg, New(cfg), before + [Close(0)], closed, Activate(0, sa, 1));
    steps, w := before + [Close(0)] + [Activate(0, sa, 1)], Apply(cfg, closed, Activate(0, sa, 1));
    CountedOnce(HistoryOf(w, sa));
  }

  /** A wrong key on an object that has left the table. */
  lemma OrphanKey(cfg: Setup, sa: uint16, sub: byte, key: Bytes) returns (steps: seq<Step>, w: Ecu)
    requires cfg.uds.enabled && |key| == |cfg.uds.seed| && key != ExpectedKey(cfg.uds)
    requires cfg.uds.s3 > 0 && sub in cfg.uds.sessions && sub != cfg.uds.defaultSession && sub < 128
    ensures Runs(cfg, New(cfg), steps, w)
    ensures w.sockets == map[0 := 0] && w.entries == map[] && w.objects.Keys == {0}
    ensures w.objects[0].tester == sa && w.objects[0].state == Fresh(cfg.uds).(attempts := 1)
    ensures var h := HistoryOf(w, sa);
            && |h| >= 2 && h[|h| - 2].On? && h[|h| - 1].On? && IsWrongKey(h[|h| - 1].entry)
            && CountedKeys(h[..|h| - 2]) == {} && !IsWrongKey(h[|h| - 2].entry)
  {
    var before, orphaned := OrphanedSteps(sa, sub), Orphaned(cfg, sa, sub);
    var seed, sent := Serves(0, [SECURITY_ACCESS, 0x01]), Serves(0, [SECURITY_ACCESS, 0x02] + key);
    Then(cfg, New(cfg), before, orphaned, seed);
    var seeded := Apply(cfg, orphaned, seed);
    Then(cfg, New(cfg), before + [seed], seeded, sent);
    steps, w := before + [seed] + [sent], Apply(cfg, seeded, sent);
    KeyOutcome(cfg.uds, key);
    var h := HistoryOf(w, sa);
    assert h[..|h| - 2] == HistoryOf(orphaned, sa);
  }

  function OrphanedSteps(sa: uint16, sub: byte): seq<Step> {
    [Activate(0, sa, 0), Serves(0, [SESSION_CONTROL, sub]), Expire(0)]
  }

  /** One tester activates, enters a non-default session and idles until S3 expires. */
  ghost function Orphaned(cfg: Setup, sa: uint16, sub: byte): (w: Ecu)
    requires cfg.uds.s3 > 0 && sub in cfg.uds.sessions && sub != cfg.uds.defaultSession && sub < 128
    ensures Runs(cfg, New(cfg), OrphanedSteps(sa, sub), w)
    ensures w.sockets == map[0 := 0] && w.entries == map[] && w.objects.Keys == {0}
    ensures w.objects[0].tester == sa && w.objects[0].state == Fresh(cfg.uds)
    ensures |HistoryOf(w, sa)| == 3 && CountedKeys(HistoryOf(w, sa)) == {}
  {
    var first, second := Activate(0, sa, 0), Serves(0, [SESSION_CONTROL, sub]);
    var w1 := Apply(cfg, New(cfg), first);
    var w2 := Apply(cfg, w1, second);
    var w3 := Apply(cfg, w2, Expire(0));
    Then(cfg, New(cfg), [], New(cfg), first);
    Then(cfg, New(cfg), [] + [first], w1, second);
    Then(cfg, New(cfg), [] + [first] + [second], w2, Expire(0));
    assert OrphanedSteps(sa, sub) == [] + [first] + [second] + [Expire(0)];
    assert CountedKeys(HistoryOf(w3, sa)) == {} by {
      assert forall p :: 0 <= p < 3 ==> !WrongAt(HistoryOf(w3, sa), p);
    }
    w3
  }

  lemma CountedOnce(h: seq<Happening>)
    requires |h| >= 2 && h[|h| - 2].On? && h[|h| - 1].On? && IsWrongKey(h[|h| - 1].entry)
    requires CountedKeys(h[..|h| - 2]) == {} && !IsWrongKey(h[|h| - 2].entry)
    ensures CountedKeys(h + [Forgotten]) == {|h| - 1}
    ensures CountedKeys(h) == {|h| - 1}
  {
    var init := h[..|h| - 2];
    assert h == init + [h[|h| - 2]] + [h[|h| - 1]];
    CountedAppend(init, h[|h| - 2]);
    CountedAppend(init + [h[|h| - 2]], h[|h| - 1]);
    CountedAppend(h, Forgotten);
  }

  /** Which entries outlive their sockets, in any run: those that are not tidy, and no
      timer watches exactly the ones in the default session, or all if S3 is disabled. */
  lemma KeptWithoutTimer(cfg: Setup, steps: seq<Step>, w: Ecu, sa: uint16)
    requires DidConfig.WellFormedTable(cfg.table) && Runs(cfg, New(cfg), steps, w)
    requires sa in w.entries && !Watched(w, w.entries[sa])
    ensures w.entries[sa] in w.objects
    ensures var s := w.objects[w.entries[sa]].state;
            && !Tidy(cfg.uds, s)
            && (!s.armed <==> cfg.uds.s3 == 0 || (s.session == cfg.uds.defaultSession && (s.level > 0 || s.seedPending.Some?)))
  {
    NewOk(cfg);
    RunKeeps(cfg, New(cfg), steps, w);
    assert EntryOk(cfg, w, sa);
  }

  /** Nobody holds the entry of `sa`, no timer runs on it and no socket belongs to `sa`. */
  ghost predicate Abandoned(w: Ecu, sa: uint16, id: StateId) {
    && sa in w.entries && w.entries[sa] == id && id in w.objects
    && w.objects[id].tester == sa && !w.objects[id].state.armed
    && (forall a :: a in w.entries && a != sa ==> w.entries[a] in w.objects && w.objects[w.entries[a]].tester == a)
    && (forall k :: k in w.sockets ==> w.sockets[k] in w.objects && w.objects[w.sockets[k]].tester != sa)
  }

  /** The tester `sa` does not activate again. */
  ghost predicate StaysAway(steps: seq<Step>, sa: uint16) {
    forall i :: 0 <= i < |steps| ==> !(steps[i].Activate? && steps[i].tester == sa)
  }

  lemma AbandonedChange(w: Ecu, x: StateId, state: State, e: Entry, sa: uint16, id: StateId)
    requires Abandoned(w, sa, id) && x in w.objects && x != id
    ensures Abandoned(Change(w, x, state, e), sa, id) && Change(w, x, state, e).objects[id] == w.objects[id]
  {
    var v := Change(w, x, state, e);
    assert v.entries == w.entries && v.sockets == w.sockets && v.objects.Keys == w.objects.Keys;
    assert forall i :: i in w.objects ==> v.objects[i].tester == w.objects[i].tester;
  }

  lemma AbandonedServe(cfg: Setup, w: Ecu, k: SocketId, raw: Bytes, sa: uint16, id: StateId)
    requires Abandoned(w, sa, id) && Enabled(w, Serves(k, raw))
    ensures Abandoned(ServeStep(cfg, w, w.sockets[k], raw), sa, id)
    ensures ServeStep(cfg, w, w.sockets[k], raw).objects[id] == w.objects[id]
  {
    var x := w.sockets[k];
    var served := Serve(cfg.uds, w.objects[x].state, raw);
    var e := Request(raw, served.reply);
    var u := Stored(cfg, w, x, raw, served.reply);
    assert u.entries == w.entries && u.sockets == w.sockets && u.objects == w.objects;
    AbandonedChange(u, x, served.state, e, sa, id);
    AbandonedVanish(Change(u, x, served.state, e), w.objects[x].tester, sa, id);
  }

  lemma AbandonedVanish(w: Ecu, gone: uint16, sa: uint16, id: StateId)
    requires Abandoned(w, sa, id) && gone != sa
    ensures Abandoned(Vanish(w, gone), sa, id) && Vanish(w, gone).objects[id] == w.objects[id]
  {
  }

  lemma AbandonedStep(cfg: Setup, w: Ecu, step: Step, sa: uint16, id: StateId)
    requires Abandoned(w, sa, id) && Enabled(w, step) && !(step.Activate? && step.tester == sa)
    ensures Abandoned(Apply(cfg, w, step), sa, id)
    ensures Apply(cfg, w, step).objects[id] == w.objects[id]
  {
    match step
    case Activate(k, a, spare) => AbandonedActivate(cfg, w, k, a, spare, sa, id);
    case Serves(k, raw) => AbandonedServe(cfg, w, k, raw, sa, id);
    case Close(k) =>
    case Expire(x) => AbandonedChange(w, x, Fresh(cfg.uds), S3Expired, sa, id);
  }

  lemma AbandonedActivate(cfg: Setup, w: Ecu, k: SocketId, a: uint16, spare: StateId, sa: uint16, id: StateId)
    requires Abandoned(w, sa, id) && Enabled(w, Activate(k, a, spare)) && a != sa
    ensures Abandoned(ActivateStep(cfg, w, k, a, spare), sa, id)
    ensures ActivateStep(cfg, w, k, a, spare).objects[id] == w.objects[id]
  {
  }

  lemma {:induction false} AbandonedForever(cfg: Setup, w: Ecu, steps: seq<Step>, last: Ecu, sa: uint16, id: StateId)
    requires Abandoned(w, sa, id) && Runs(cfg, w, steps, last) && StaysAway(steps, sa)
    ensures Abandoned(last, sa, id) && last.objects[id] == w.objects[id]
    decreases |steps|
  {
    if steps != [] {
      AbandonedStep(cfg, w, steps[0], sa, id);
      AbandonedForever(cfg, Apply(cfg, w, steps[0]), steps[1..], last, sa, id);
    }
  }

  /** The table is documented to keep only non-default states after their socket is gone.
      It does not: a state unlocked in the default session stays, and whatever happens,
      as long as the tester itself stays away. */
  lemma UnlockedDefaultStateStays(cfg: Setup, sa: uint16) returns (steps: seq<Step>, w: Ecu)
    requires cfg.uds.enabled && ValidConfig(cfg.uds)
    ensures Runs(cfg, New(cfg), steps, w) && w.sockets == map[]
    ensures sa in w.entries && w.entries[sa] in w.objects
    ensures w.objects[w.entries[sa]].state == Fresh(cfg.uds).(level := 1)
    ensures forall later, last :: Runs(cfg, w, later, last) && StaysAway(later, sa) ==>
              sa in last.entries && last.entries[sa] == w.entries[sa] && w.entries[sa] in last.objects
              && last.objects[w.entries[sa]] == w.objects[w.entries[sa]]
  {
    var key := ExpectedKey(cfg.uds);
    var w3 := OneKey(cfg, sa, key);
    KeyOutcome(cfg.uds, key);
    Then(cfg, New(cfg), KeySteps(sa, key), w3, Close(0));
    steps, w := KeySteps(sa, key) + [Close(0)], Apply(cfg, w3, Close(0));
    assert Abandoned(w, sa, 0);
    forall later, last | Runs(cfg, w, later, last) && StaysAway(later, sa)
      ensures Abandoned(last, sa, 0) && last.objects[0] == w.objects[0]
    {
      AbandonedForever(cfg, w, later, last, sa, 0);
    }
  }

  /** The table, step by step, for a tester without other sockets: activation finds the
      entry or makes a fresh one, ... */
  lemma ActivatesExactly(cfg: Setup, w: Ecu, k: SocketId, sa: uint16, spare: StateId)
    requires Enabled(w, Activate(k, sa, spare))
    ensures var v := Apply(cfg, w, Activate(k, sa, spare));
            && k in v.sockets && sa in v.entries && v.sockets[k] == v.entries[sa]
            && (sa in w.entries ==> v.entries == w.entries && v.objects == w.objects)
            && (sa !in w.entries ==>
                  v.entries[sa] == spare && spare in v.objects
                  && v.objects[spare].state == State(cfg.uds.defaultSession, 0, None, 0, false))
  {
  }

  /** ... a closing socket takes its entry along exactly if that is in the default session,
      locked and without a seed, ... */
  lemma ClosesExactly(cfg: Setup, w: Ecu, k: SocketId)
    requires Enabled(w, Close(k))
    ensures var v := Apply(cfg, w, Close(k));
            var id := w.sockets[k];
            var o := w.objects[id];
            var gone := o.tester in w.entries && w.entries[o.tester] == id && o.state.session == cfg.uds.defaultSession
                        && o.state.level == 0 && o.state.seedPending == None;
            && v.sockets == w.sockets - {k} && v.objects == w.objects
            && v.entries == if gone then w.entries - {o.tester} else w.entries
  {
  }

  /** ... an expired timer leaves a fresh state outside the table, and a reset that drops
      the connection takes the tester's entry away, which no other request does. */
  lemma ForgetsExactly(cfg: Setup, w: Ecu, id: StateId, k: SocketId, raw: Bytes)
    ensures Enabled(w, Expire(id)) ==>
              var v := Apply(cfg, w, Expire(id));
              var sa := w.objects[id].tester;
              && id in v.objects && v.objects[id].state == State(cfg.uds.defaultSession, 0, None, 0, false)
              && v.entries == if sa in w.entries && w.entries[sa] == id then w.entries - {sa} else w.entries
    ensures Enabled(w, Serves(k, raw)) ==>
              var v := Apply(cfg, w, Serves(k, raw));
              var sa := w.objects[w.sockets[k]].tester;
              var drops := cfg.uds.dropsConnection && |raw| == 2 && raw[0] == 0x11 && raw[1] % 128 in {1, 2, 3};
              (sa in w.entries ==> w.entries[sa] in w.objects) ==> v.entries == if drops then w.entries - {sa} else w.entries
  {
    if Enabled(w, Serves(k, raw)) && (var sa := w.objects[w.sockets[k]].tester; sa in w.entries ==> w.entries[sa] in w.objects) {
      ServeEntries(cfg, w, w.sockets[k], raw);
    }
  }

  lemma ServeEntries(cfg: Setup, w: Ecu, id: StateId, raw: Bytes)
    requires id in w.objects && raw != []
    requires var sa := w.objects[id].tester; sa in w.entries ==> w.entries[sa] in w.objects
    ensures var drops := cfg.uds.dropsConnection && |raw| == 2 && raw[0] == 0x11 && raw[1] % 128 in {1, 2, 3};
            var sa := w.objects[id].tester;
            ServeStep(cfg, w, id, raw).entries == if drops then w.entries - {sa} else w.entries
  {
    var served := Serve(cfg.uds, w.objects[id].state, raw);
    var u := Stored(cfg, w, id, raw, served.reply);
    assert u.entries == w.entries && u.objects == w.objects;
    SessionAndReset(cfg, w, id, raw);
  }

  lemma SessionAndReset(cfg: Setup, w: Ecu, id: StateId, raw: Bytes)
    requires id in w.objects && raw != []
    ensures Vanishes(cfg.uds, raw, Serve(cfg.uds, w.objects[id].state, raw).reply) <==>
            cfg.uds.dropsConnection && |raw| == 2 && raw[0] == 0x11 && raw[1] % 128 in {1, 2, 3}
  {
    if raw[0] == 0x11 {
      SessionAndResetExactly(cfg.uds, w.objects[id].state, raw);
    }
  }

  /** In any run, a write that passes its gates changes the value at once, for the session
      and level of the object it comes through, and nothing else changes one except a
      restoring reset. */
  lemma ValuesChangeExactly(cfg: Setup, w: Ecu, k: SocketId, raw: Bytes, did: uint16)
    requires Enabled(w, Serves(k, raw)) && DidTheorems.StoreInv(cfg.table, w.values)
    ensures var v := Apply(cfg, w, Serves(k, raw));
            var t := TesterOf(w.objects[w.sockets[k]].state);
            var writes := |raw| >= 4 && raw[0] == 0x2E && did == 256 * (raw[1] as int) + raw[2] && did in cfg.table
                          && DidTheorems.Allowed(cfg.table[did], t, raw[3..]);
            var restores := raw[0] == 0x11 && |raw| == 2 && raw[1] % 128 in {1, 2, 3} && cfg.dids.resetClearsWrites;
            && (writes ==> did in v.values && v.values[did] == raw[3..])
            && (!writes && !restores && did in w.values ==> did in v.values && v.values[did] == w.values[did])
            && (restores && did in cfg.table && cfg.table[did].value.Some? ==>
                  did in v.values && Some(v.values[did]) == cfg.table[did].value)
  {
    var id := w.sockets[k];
    var reply := Serve(cfg.uds, w.objects[id].state, raw).reply;
    ServeStores(cfg, w, id, raw);
    if raw[0] == DidStore.WRITE_DID && |raw| >= 4 {
      DidTheorems.WritesExactly(cfg.dids, cfg.table, w.values, TesterOf(w.objects[id].state), raw[1..]);
      assert raw[1..][2..] == raw[3..];
    }
  }

  lemma ServeStores(cfg: Setup, w: Ecu, id: StateId, raw: Bytes)
    requires id in w.objects && raw != []
    ensures ServeStep(cfg, w, id, raw).values == Stored(cfg, w, id, raw, Serve(cfg.uds, w.objects[id].state, raw).reply).values
  {
  }

  /** A protected value was earned.  In any run, an identifier with write security L > 0
      that differs from its default holds what an object wrote whose level was at least L
      and which, since its last relock, had been sent the seed and given the right key. */
  lemma ProtectedValueEarned(cfg: Setup, steps: seq<Step>, w: Ecu, did: uint16)
    requires DidConfig.WellFormedTable(cfg.table) && Runs(cfg, New(cfg), steps, w)
    requires did in cfg.table && did in w.values && Some(w.values[did]) != cfg.table[did].value
    requires cfg.table[did].writeGates.security > 0
    ensures did in w.writes
    ensures var r := w.writes[did];
            && r.value == w.values[did]
            && r.through in w.objects && r.log <= w.objects[r.through].log
            && r.state.level >= cfg.table[did].writeGates.security
            && exists i, j :: Earned(cfg.uds, r.log, r.state.level, i, j)
  {
    NewOk(cfg);
    RunKeeps(cfg, New(cfg), steps, w);
    assert ValueOk(cfg, w, did);
    LevelWasEarned(cfg.uds, w.writes[did].log, w.writes[did].state);
  }
}
