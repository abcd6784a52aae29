/** Whole runs of the VirtualEcu's diagnostic core: sockets come and go, testers share
    state objects through the table, timers expire and data identifiers are written
    (virtual_ecu/virtecu/core.py, session.py, services/).  `log`, `history` and `writes`
    record what happened; no step reads them. */
module EcuRuns {
  import opened Common
  import opened Security
  import opened SessionTable
  import DidConfig
  import DidStore

  type StateId = nat
  type SocketId = nat

  datatype Setup = Setup(uds: Config, dids: DidStore.Settings, table: DidConfig.Table)

  /** A state object with everything that happened to it. */
  datatype Object = Object(tester: uint16, state: State, log: seq<Entry>)

  /** What happened to any state object of a tester, with whether that object was its
      table entry at the time, and that the entry was dropped. */
  datatype Happening = On(entry: Entry, current: bool) | Forgotten

  /** The last accepted write of an identifier: through which object, in which state, after
      what that object had seen. */
  datatype WriteRecord = WriteRecord(through: StateId, value: Bytes, state: State, log: seq<Entry>)

  datatype Ecu = Ecu(
    objects: map<StateId, Object>,
    entries: map<uint16, StateId>,
    sockets: map<SocketId, StateId>,
    history: map<uint16, seq<Happening>>,
    values: DidStore.Values,
    writes: map<uint16, WriteRecord>)

  function New(cfg: Setup): Ecu {
    Ecu(map[], map[], map[], map[], DidStore.Defaults(cfg.table), map[])
  }

  function HistoryOf(w: Ecu, sa: uint16): seq<Happening> {
    if sa in w.history then w.history[sa] else []
  }

  predicate IsEntry(w: Ecu, id: StateId)
    requires id in w.objects
  {
    var sa := w.objects[id].tester;
    sa in w.entries && w.entries[sa] == id
  }

  // ---------------------------------------------------------------------- steps

  datatype Step =
    | Activate(socket: SocketId, tester: uint16, spare: StateId)
    | Serves(socket: SocketId, raw: Bytes)
    | Close(socket: SocketId)
    | Expire(id: StateId)

  predicate Enabled(w: Ecu, step: Step) {
    match step
    case Activate(k, _, spare) => k !in w.sockets && spare !in w.objects
    case Serves(k, raw) => k in w.sockets && w.sockets[k] in w.objects && raw != []
    case Close(k) => k in w.sockets && w.sockets[k] in w.objects
    case Expire(id) => id in w.objects && w.objects[id].state.armed
  }

  function Note(w: Ecu, sa: uint16, what: Happening): Ecu {
    w.(history := w.history[sa := HistoryOf(w, sa) + [what]])
  }

  /** Forget the entry of `sa`. */
  function Drop(w: Ecu, sa: uint16): Ecu {
    Note(w, sa, Forgotten).(entries := w.entries - {sa})
  }

  function ActivateStep(cfg: Setup, w: Ecu, k: SocketId, sa: uint16, spare: StateId): Ecu {
    if sa in w.entries then w.(sockets := w.sockets[k := w.entries[sa]])
    else w.(objects := w.objects[spare := Object(sa, Fresh(cfg.uds), [])],
            entries := w.entries[sa := spare],
            sockets := w.sockets[k := spare])
  }

  /** Something happens to object `id`; its tester's history notes it. */
  function Change(w: Ecu, id: StateId, state: State, e: Entry): Ecu
    requires id in w.objects
  {
    var o := w.objects[id];
    var v := w.(objects := w.objects[id := Object(o.tester, state, o.log + [e])]);
    Note(v, o.tester, On(e, IsEntry(w, id)))
  }

  function TesterOf(s: State): DidStore.Tester { DidStore.Tester(s.session, s.level) }

  /** The identifier a request writes, if the write is accepted. */
  function WrittenDid(cfg: Setup, w: Ecu, s: State, raw: Bytes): Option<uint16>
    requires raw != []
  {
    if raw[0] == DidStore.WRITE_DID && |raw| >= 4 && Decode16(raw[1..][..2]) in cfg.table
       && DidStore.Write(cfg.dids, cfg.table, w.values, TesterOf(s), raw[1..]).reply.Positive?
    then Some(Decode16(raw[1..][..2])) else None
  }

  /** The effect of a request on the identifiers. */
  function Stored(cfg: Setup, w: Ecu, id: StateId, raw: Bytes, reply: Reply): Ecu
    requires id in w.objects && raw != []
  {
    var o := w.objects[id];
    if raw[0] == DidStore.WRITE_DID then
      var did := WrittenDid(cfg, w, o.state, raw);
      w.(values := DidStore.Write(cfg.dids, cfg.table, w.values, TesterOf(o.state), raw[1..]).values,
         writes := if did.Some? then w.writes[did.value := WriteRecord(id, raw[1..][2..], o.state, o.log)] else w.writes)
    else if raw[0] == ECU_RESET && reply.Positive? then
      w.(values := DidStore.ResetValues(cfg.dids, cfg.table, w.values))
    else w
  }

  function ServeStep(cfg: Setup, w: Ecu, id: StateId, raw: Bytes): Ecu
    requires id in w.objects && raw != []
  {
    var served := Serve(cfg.uds, w.objects[id].state, raw);
    var e := Request(raw, served.reply);
    var v := Change(Stored(cfg, w, id, raw, served.reply), id, served.state, e);
    if Vanishes(cfg.uds, raw, served.reply) then Vanish(v, w.objects[id].tester) else v
  }

  /** The tester's entry is forgotten and its timer stopped, whichever object served the
      reset. */
  function Vanish(w: Ecu, sa: uint16): Ecu {
    if sa !in w.entries || w.entries[sa] !in w.objects then w
    else
      var x := w.entries[sa];
      var o := w.objects[x];
      Drop(w.(objects := w.objects[x := Object(o.tester, o.state.(armed := false), o.log + [TimerStopped])]), sa)
  }

  function CloseStep(cfg: Setup, w: Ecu, k: SocketId): Ecu
    requires Enabled(w, Close(k))
  {
    var id := w.sockets[k];
    var v := w.(sockets := w.sockets - {k});
    if IsEntry(w, id) && Tidy(cfg.uds, w.objects[id].state) then Drop(v, w.objects[id].tester) else v
  }

  function ExpireStep(cfg: Setup, w: Ecu, id: StateId): Ecu
    requires id in w.objects
  {
    var v := Change(w, id, Fresh(cfg.uds), S3Expired);
    if IsEntry(w, id) then Drop(v, w.objects[id].tester) else v
  }

  function Apply(cfg: Setup, w: Ecu, step: Step): Ecu
    requires Enabled(w, step)
  {
    match step
    case Activate(k, sa, spare) => ActivateStep(cfg, w, k, sa, spare)
    case Serves(k, raw) => ServeStep(cfg, w, w.sockets[k], raw)
    case Close(k) => CloseStep(cfg, w, k)
    case Expire(id) => ExpireStep(cfg, w, id)
  }

  predicate Runs(cfg: Setup, w: Ecu, steps: seq<Step>, last: Ecu)
    decreases |steps|
  {
    if steps == [] then w == last
    else Enabled(w, steps[0]) && Runs(cfg, Apply(cfg, w, steps[0]), steps[1..], last)
  }
}
