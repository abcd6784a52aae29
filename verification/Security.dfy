/** Diagnostic session and security state of one tester on the VirtualEcu
    (virtual_ecu/virtecu/core.py, services/security.py, session_control.py, reset.py). */
module Security {
  import opened Common

  const INCORRECT_LENGTH: byte := 0x13
  const SUB_FUNCTION_NOT_SUPPORTED: byte := 0x12
  const REQUEST_SEQUENCE_ERROR: byte := 0x24
  const INVALID_KEY: byte := 0x35
  const EXCEEDED_ATTEMPTS: byte := 0x36

  const SESSION_CONTROL: byte := 0x10
  const ECU_RESET: byte := 0x11
  const SECURITY_ACCESS: byte := 0x27

  datatype Algorithm = Identity | AddBytes | XorBytes

  /** `p2`, `p2Star` and `s3` are in milliseconds; `s3` 0 disables the timer. */
  datatype Config = Config(
    enabled: bool, algorithm: Algorithm, seed: Bytes, key: Bytes, maxAttempts: int,
    defaultSession: byte, sessions: set<byte>, p2: nat, p2Star: nat, s3: nat, dropsConnection: bool)

  /** What loading the configuration guarantees. */
  ghost predicate ValidConfig(cfg: Config) {
    cfg.seed != [] && (cfg.algorithm.Identity? || |cfg.key| == |cfg.seed|) && cfg.defaultSession in cfg.sessions
  }

  /** `armed`: the S3 timer is running. */
  datatype State = State(session: byte, level: nat, seedPending: Option<nat>, attempts: nat, armed: bool)

  datatype Reply = Positive(body: Bytes) | Negative(nrc: byte) | Unhandled

  datatype Served = Served(state: State, reply: Reply)

  // ------------------------------------------------------------------ pure parts

  function LevelOf(sub: nat): nat { (sub + 1) / 2 }

  function Xor(a: byte, b: byte): byte { ((a as bv8) ^ (b as bv8)) as int }

  function Combine(algorithm: Algorithm, a: byte, b: byte): byte {
    if algorithm.AddBytes? then (a + b) % 256 else Xor(a, b)
  }

  /** The key derived from the seed; with a valid configuration it is as long as the
      seed, so the length check never refuses the right key. */
  function ExpectedKey(cfg: Config): (key: Bytes)
    ensures ValidConfig(cfg) ==> |key| == |cfg.seed|
  {
    if cfg.algorithm.Identity? then cfg.seed
    else
      var n := if |cfg.seed| <= |cfg.key| then |cfg.seed| else |cfg.key|;
      seq(n, i requires 0 <= i < n => Combine(cfg.algorithm, cfg.seed[i], cfg.key[i]))
  }

  /** The key byte by byte: the seed itself, its sum with the configured key modulo 256, or
      its exclusive or with it. */
  lemma KeyBytes(cfg: Config, i: nat)
    requires ValidConfig(cfg) && i < |cfg.seed|
    ensures var key := ExpectedKey(cfg);
            match cfg.algorithm
            case Identity => key[i] == cfg.seed[i]
            case AddBytes => key[i] == ((cfg.seed[i] as int) + cfg.key[i]) % 256
            case XorBytes => (key[i] as bv8) == (cfg.seed[i] as bv8) ^ (cfg.key[i] as bv8)
  {
    if cfg.algorithm.XorBytes? {
      BitsAndBack((cfg.seed[i] as bv8) ^ (cfg.key[i] as bv8));
    }
  }

  lemma BitsAndBack(b: bv8)
    ensures (b as int) as bv8 == b
  {
  }

  function Zeros(n: nat): Bytes { seq(n, _ => 0) }

  // --------------------------------------------------------------- transitions

  function Fresh(cfg: Config): State {
    State(cfg.defaultSession, 0, None, 0, false)
  }

  function Refreshed(cfg: Config, s: State): State {
    s.(armed := s.session != cfg.defaultSession && cfg.s3 > 0)
  }

  function Entered(cfg: Config, session: byte): State {
    Refreshed(cfg, State(session, 0, None, 0, false))
  }

  // ------------------------------------------------------------------- services

  function Sub(raw: Bytes): nat
    requires |raw| >= 2
  {
    raw[1] % 128
  }

  function SessionControl(cfg: Config, s: State, raw: Bytes): Served {
    if |raw| != 2 then Served(s, Negative(INCORRECT_LENGTH))
    else if Sub(raw) !in cfg.sessions then Served(s, Negative(SUB_FUNCTION_NOT_SUPPORTED))
    else Served(Entered(cfg, Sub(raw)), Positive([Sub(raw)] + TimingBytes(cfg)))
  }

  /** P2 in milliseconds and P2* in units of ten, each cut to its two bytes. */
  function TimingBytes(cfg: Config): (b: Bytes)
    ensures |b| == 4 && Decode16(b[..2]) == cfg.p2 % 0x1_0000 && Decode16(b[2..]) == cfg.p2Star / 10 % 0x1_0000
  {
    var p2, p2Star := Encode16(cfg.p2 % 0x1_0000), Encode16(cfg.p2Star / 10 % 0x1_0000);
    assert (p2 + p2Star)[..2] == p2 && (p2 + p2Star)[2..] == p2Star;
    p2 + p2Star
  }

  /** With `reset_drops_connection` the table entry is forgotten, but the object itself
      is not relocked. */
  function EcuReset(cfg: Config, s: State, raw: Bytes): Served {
    if |raw| != 2 then Served(s, Negative(INCORRECT_LENGTH))
    else if Sub(raw) !in {1, 2, 3} then Served(s, Negative(SUB_FUNCTION_NOT_SUPPORTED))
    else Served(if cfg.dropsConnection then s else Fresh(cfg), Positive([Sub(raw)]))
  }

  function RequestSeed(cfg: Config, s: State, raw: Bytes): Served
    requires |raw| >= 2
  {
    var sub := Sub(raw);
    if |raw| != 2 then Served(s, Negative(INCORRECT_LENGTH))
    else if s.level >= LevelOf(sub) then Served(s, Positive([sub] + Zeros(|cfg.seed|)))
    else Served(s.(seedPending := Some(sub)), Positive([sub] + cfg.seed))
  }

  function SendKey(cfg: Config, s: State, raw: Bytes): Served
    requires |raw| >= 2
  {
    var sub := Sub(raw);
    if s.seedPending.None? || s.seedPending.value != sub - 1 then Served(s, Negative(REQUEST_SEQUENCE_ERROR))
    else if |raw[2..]| != |cfg.seed| then Served(s, Negative(INCORRECT_LENGTH))
    else if raw[2..] != ExpectedKey(cfg) then
      var attempts := s.attempts + 1;
      Served(s.(attempts := attempts, seedPending := None),
             Negative(if attempts >= cfg.maxAttempts then EXCEEDED_ATTEMPTS else INVALID_KEY))
    else Served(s.(level := LevelOf(sub), attempts := 0, seedPending := None), Positive([sub]))
  }

  function SecurityAccess(cfg: Config, s: State, raw: Bytes): Served {
    if !cfg.enabled then Served(s, Unhandled)
    else if |raw| < 2 then Served(s, Negative(INCORRECT_LENGTH))
    else if Sub(raw) == 0 then Served(s, Negative(SUB_FUNCTION_NOT_SUPPORTED))
    else if Sub(raw) % 2 == 1 then RequestSeed(cfg, s, raw)
    else SendKey(cfg, s, raw)
  }

  /** One request: every request restarts the S3 timer first.  Services that do not
      touch this state are `Unhandled` here. */
  function Serve(cfg: Config, s: State, raw: Bytes): Served
    requires raw != []
  {
    var s := Refreshed(cfg, s);
    if raw[0] == SESSION_CONTROL then SessionControl(cfg, s, raw)
    else if raw[0] == ECU_RESET then EcuReset(cfg, s, raw)
    else if raw[0] == SECURITY_ACCESS then SecurityAccess(cfg, s, raw)
    else Served(s, Unhandled)
  }

  predicate Locked(s: State) { s.level == 0 && s.seedPending.None? && s.attempts == 0 }

  /** A granted ECUReset leaves the state locked exactly if it keeps the connection, or
      there was nothing to lock. */
  lemma ResetLocksExactly(cfg: Config, s: State, raw: Bytes)
    requires |raw| == 2 && raw[0] == ECU_RESET && Sub(raw) in {1, 2, 3}
    ensures Serve(cfg, s, raw).reply.Positive?
    ensures Locked(Serve(cfg, s, raw).state) <==> !cfg.dropsConnection || Locked(s)
  {
  }

  /** The input at which a granted reset leaves security unlocked: the connection is
      dropped instead, but a request queued behind the reset still finds the level. */
  lemma VanishingResetKeepsLevel(cfg: Config, s: State, queued: Bytes)
    requires cfg.dropsConnection && s.level > 0 && queued != []
    requires queued[0] != SESSION_CONTROL && queued[0] != SECURITY_ACCESS
    ensures var reset := Serve(cfg, s, [ECU_RESET, 0x01]);
            && reset.reply == Positive([0x01]) && reset.state.level == s.level
            && Serve(cfg, reset.state, queued).state.level == s.level
  {
  }

  // -------------------------------------------------------------------- histories

  /** What an observer of one tester's state sees. */
  datatype Entry = Request(raw: Bytes, reply: Reply) | S3Expired | TimerStopped

  ghost predicate Possible(cfg: Config, s: State, e: Entry) {
    match e
    case Request(raw, reply) => raw != [] && Serve(cfg, s, raw).reply == reply
    case S3Expired => s.armed
    case TimerStopped => true
  }

  ghost function After(cfg: Config, s: State, e: Entry): State
    requires Possible(cfg, s, e)
  {
    match e
    case Request(raw, _) => Serve(cfg, s, raw).state
    case S3Expired => Fresh(cfg)
    case TimerStopped => s.(armed := false)
  }

  /** `log` can be observed from a fresh state and ends in `s`. */
  ghost predicate Observed(cfg: Config, log: seq<Entry>, s: State) {
    if log == [] then s == Fresh(cfg)
    else
      var e := log[|log| - 1];
      exists before :: Observed(cfg, log[..|log| - 1], before) && Possible(cfg, before, e) && s == After(cfg, before, e)
  }

  // ------------------------------------ reading the state off the observable log

  ghost predicate Granted(e: Entry, sid: byte) {
    e.Request? && |e.raw| >= 2 && e.raw[0] == sid && e.reply.Positive?
  }

  /** A session change, an ECU reset in place or an S3 expiry. */
  ghost predicate IsRelock(cfg: Config, e: Entry) {
    Granted(e, SESSION_CONTROL) || (Granted(e, ECU_RESET) && !cfg.dropsConnection) || e.S3Expired?
  }

  ghost predicate IsUnlock(e: Entry) {
    Granted(e, SECURITY_ACCESS) && Sub(e.raw) % 2 == 0
  }

  ghost predicate IsSeed(e: Entry) {
    Granted(e, SECURITY_ACCESS) && Sub(e.raw) % 2 == 1
  }

  ghost predicate IsWrongKey(e: Entry) {
    e.Request? && e.raw != [] && e.raw[0] == SECURITY_ACCESS
    && (e.reply == Negative(INVALID_KEY) || e.reply == Negative(EXCEEDED_ATTEMPTS))
  }

  /** The session last entered since the last reset or expiry, or the default one. */
  ghost function LoggedSession(cfg: Config, log: seq<Entry>): byte {
    if log == [] then cfg.defaultSession
    else
      var e, init := log[|log| - 1], log[..|log| - 1];
      if Granted(e, SESSION_CONTROL) then Sub(e.raw)
      else if IsRelock(cfg, e) then cfg.defaultSession
      else LoggedSession(cfg, init)
  }

  /** The level of the last unlock since the last relock. */
  ghost function LoggedLevel(cfg: Config, log: seq<Entry>): nat {
    if log == [] then 0
    else
      var e, init := log[|log| - 1], log[..|log| - 1];
      if IsRelock(cfg, e) then 0 else if IsUnlock(e) then LevelOf(Sub(e.raw)) else LoggedLevel(cfg, init)
  }

  /** Wrong keys since the last relock or unlock. */
  ghost function LoggedAttempts(cfg: Config, log: seq<Entry>): nat {
    if log == [] then 0
    else
      var e, init := log[|log| - 1], log[..|log| - 1];
      if IsRelock(cfg, e) || IsUnlock(e) then 0
      else LoggedAttempts(cfg, init) + if IsWrongKey(e) then 1 else 0
  }

  /** The last seed issued above the unlocked level and not used up since. */
  ghost function LoggedSeed(cfg: Config, log: seq<Entry>): Option<nat> {
    if log == [] then None
    else
      var e, init := log[|log| - 1], log[..|log| - 1];
      if IsRelock(cfg, e) || IsUnlock(e) || IsWrongKey(e) then None
      else if IsSeed(e) && LevelOf(Sub(e.raw)) > LoggedLevel(cfg, init) then Some(Sub(e.raw))
      else LoggedSeed(cfg, init)
  }

  /** An armed seed is odd, has a key sub-function unless it is 0x7F, and is above the level. */
  ghost predicate Sound(s: State) {
    && s.level <= 63
    && (s.seedPending.Some? ==> s.seedPending.value % 2 == 1 && s.seedPending.value <= 0x7F && LevelOf(s.seedPending.value) > s.level)
  }

  lemma StepSound(cfg: Config, s: State, e: Entry)
    requires Sound(s) && Possible(cfg, s, e)
    ensures Sound(After(cfg, s, e))
    ensures !IsRelock(cfg, e) ==> After(cfg, s, e).level >= s.level
    ensures IsUnlock(e) ==> After(cfg, s, e).level > s.level
  {
  }

  /** One entry's effect, told from what is observable of it. */
  lemma StepEffect(cfg: Config, s: State, e: Entry)
    requires Possible(cfg, s, e)
    ensures var t := After(cfg, s, e);
            && t.level == (if IsRelock(cfg, e) then 0 else if IsUnlock(e) then LevelOf(Sub(e.raw)) else s.level)
            && t.attempts == (if IsRelock(cfg, e) || IsUnlock(e) then 0 else s.attempts + if IsWrongKey(e) then 1 else 0)
  {
  }

  lemma StepSeed(cfg: Config, s: State, e: Entry)
    requires Possible(cfg, s, e)
    ensures After(cfg, s, e).seedPending ==
            if IsRelock(cfg, e) || IsUnlock(e) || IsWrongKey(e) then None
            else if IsSeed(e) && LevelOf(Sub(e.raw)) > s.level then Some(Sub(e.raw))
            else s.seedPending
  {
  }

  /** A seed that is newly armed was sent in the reply. */
  lemma StepIssues(cfg: Config, s: State, e: Entry)
    requires Possible(cfg, s, e) && After(cfg, s, e).seedPending.Some?
    ensures After(cfg, s, e).seedPending == s.seedPending || SeedIssued(cfg, e, After(cfg, s, e).seedPending.value)
    ensures !IsRelock(cfg, e) && !IsUnlock(e) && !IsWrongKey(e)
  {
  }

  lemma StepSession(cfg: Config, s: State, e: Entry)
    requires Possible(cfg, s, e)
    ensures After(cfg, s, e).session ==
            if Granted(e, SESSION_CONTROL) then Sub(e.raw) else if IsRelock(cfg, e) then cfg.defaultSession else s.session
  {
  }

  /** The state is what the observable log says: session, level, armed seed and attempts. */
  lemma {:induction false} StateIsLogged(cfg: Config, log: seq<Entry>, s: State)
    requires Observed(cfg, log, s)
    ensures Sound(s)
    ensures s.session == LoggedSession(cfg, log)
    ensures s.level == LoggedLevel(cfg, log)
    ensures s.attempts == LoggedAttempts(cfg, log)
    ensures s.seedPending == LoggedSeed(cfg, log)
  {
    if log != [] {
      var e, init := log[|log| - 1], log[..|log| - 1];
      var before :| Observed(cfg, init, before) && Possible(cfg, before, e) && s == After(cfg, before, e);
      StateIsLogged(cfg, init, before);
      StepSound(cfg, before, e);
      StepEffect(cfg, before, e);
      StepSeed(cfg, before, e);
      StepSession(cfg, before, e);
    }
  }

  // --------------------------------------------------------------------- theorems

  /** Nothing that clears an armed seed happens in `log[from..to]`. */
  ghost predicate Undisturbed(cfg: Config, log: seq<Entry>, from: nat, to: nat)
    requires from <= to <= |log|
  {
    forall k :: from <= k < to ==> !IsRelock(cfg, log[k]) && !IsUnlock(log[k]) && !IsWrongKey(log[k])
  }

  ghost predicate SeedIssued(cfg: Config, e: Entry, sub: nat) {
    e.Request? && |e.raw| == 2 && e.raw[0] == SECURITY_ACCESS && Sub(e.raw) == sub && sub < 128
    && e.reply == Positive([sub] + cfg.seed)
  }

  ghost predicate KeyAccepted(cfg: Config, e: Entry, sub: nat) {
    e.Request? && |e.raw| >= 2 && e.raw[0] == SECURITY_ACCESS && Sub(e.raw) == sub && sub < 128
    && e.raw[2..] == ExpectedKey(cfg) && e.reply == Positive([sub])
  }

  /** An armed seed was issued and has not been disturbed since. */
  /** Entry `i` sent the seed of `sub`, and nothing between it and `to` disturbed it. */
  ghost predicate Arms(cfg: Config, log: seq<Entry>, sub: nat, i: nat, to: nat) {
    i < to <= |log| && SeedIssued(cfg, log[i], sub) && Undisturbed(cfg, log, i + 1, to)
  }

  lemma {:induction false} ArmedSeedWasIssued(cfg: Config, log: seq<Entry>, s: State)
    requires Observed(cfg, log, s) && s.seedPending.Some?
    ensures exists i :: Arms(cfg, log, s.seedPending.value, i, |log|)
    decreases |log|
  {
    var e, init := log[|log| - 1], log[..|log| - 1];
    var before :| Observed(cfg, init, before) && Possible(cfg, before, e) && s == After(cfg, before, e);
    StepIssues(cfg, before, e);
    if SeedIssued(cfg, e, s.seedPending.value) {
      assert Arms(cfg, log, s.seedPending.value, |log| - 1, |log|);
    } else {
      ArmedSeedWasIssued(cfg, init, before);
      var i :| Arms(cfg, init, before.seedPending.value, i, |init|);
      assert Arms(cfg, log, s.seedPending.value, i, |log|);
    }
  }

  /** An accepted key was the expected one, for the seed issued just before it. */
  lemma UnlockWasEarned(cfg: Config, log: seq<Entry>, s: State)
    requires Observed(cfg, log, s) && log != [] && IsUnlock(log[|log| - 1])
    ensures var n := |log| - 1;
            var sub := Sub(log[n].raw) - 1;
            sub > 0 && KeyAccepted(cfg, log[n], sub + 1) && exists i :: Arms(cfg, log, sub, i, n)
  {
    var e, init := log[|log| - 1], log[..|log| - 1];
    var before :| Observed(cfg, init, before) && Possible(cfg, before, e) && s == After(cfg, before, e);
    ArmedSeedWasIssued(cfg, init, before);
    var i :| Arms(cfg, init, before.seedPending.value, i, |init|);
    assert Arms(cfg, log, Sub(e.raw) - 1, i, |log| - 1);
  }

  ghost predicate Earned(cfg: Config, log: seq<Entry>, level: nat, i: nat, j: nat) {
    && i < j < |log| && level > 0
    && Arms(cfg, log, 2 * level - 1, i, j)
    && KeyAccepted(cfg, log[j], 2 * level)
    && forall k :: j <= k < |log| ==> !IsRelock(cfg, log[k])
  }

  /** Security history: level L > 0 means that since the last relock a requestSeed
      2L-1 was answered with the seed and the next key attempt, on 2L, was right. */
  lemma {:induction false} LevelWasEarned(cfg: Config, log: seq<Entry>, s: State)
    requires Observed(cfg, log, s) && s.level > 0
    ensures exists i, j :: Earned(cfg, log, s.level, i, j)
    decreases |log|
  {
    var e, init := log[|log| - 1], log[..|log| - 1];
    StateIsLogged(cfg, log, s);
    if IsUnlock(e) {
      UnlockWasEarned(cfg, log, s);
      var i :| Arms(cfg, log, Sub(e.raw) - 1, i, |log| - 1);
      assert Earned(cfg, log, s.level, i, |log| - 1);
    } else {
      var before :| Observed(cfg, init, before) && Possible(cfg, before, e) && s == After(cfg, before, e);
      StepEffect(cfg, before, e);
      LevelWasEarned(cfg, init, before);
      var i, j :| Earned(cfg, init, before.level, i, j);
      assert Earned(cfg, log, s.level, i, j);
    }
  }

  /** Conversely a sendKey is granted exactly when the seed before it is armed and the
      key is the expected one. */
  lemma UnlockExactly(cfg: Config, log: seq<Entry>, s: State, raw: Bytes)
    requires Observed(cfg, log, s) && ValidConfig(cfg) && cfg.enabled
    requires |raw| >= 2 && raw[0] == SECURITY_ACCESS && Sub(raw) > 0 && Sub(raw) % 2 == 0
    ensures Serve(cfg, s, raw).reply.Positive? <==>
            LoggedSeed(cfg, log) == Some(Sub(raw) - 1) && raw[2..] == ExpectedKey(cfg)
    ensures Serve(cfg, s, raw).reply == Negative(EXCEEDED_ATTEMPTS) <==>
            && LoggedSeed(cfg, log) == Some(Sub(raw) - 1) && |raw| == 2 + |cfg.seed| && raw[2..] != ExpectedKey(cfg)
            && LoggedAttempts(cfg, log) + 1 >= cfg.maxAttempts
  {
    StateIsLogged(cfg, log, s);
  }

  /** Between relocks the level only rises, at each unlock strictly. */
  lemma {:induction false} LevelOnlyRises(cfg: Config, log: seq<Entry>, n: nat, s: State, earlier: State)
    requires Observed(cfg, log, s) && n <= |log| && Observed(cfg, log[..n], earlier)
    requires forall k :: n <= k < |log| ==> !IsRelock(cfg, log[k])
    ensures earlier.level <= s.level
    ensures (exists k :: n <= k < |log| && IsUnlock(log[k])) ==> earlier.level < s.level
    decreases |log|
  {
    StateIsLogged(cfg, log, s);
    StateIsLogged(cfg, log[..n], earlier);
    if n == |log| {
      assert log[..n] == log;
    } else {
      var e, init := log[|log| - 1], log[..|log| - 1];
      var before :| Observed(cfg, init, before) && Possible(cfg, before, e) && s == After(cfg, before, e);
      assert init[..n] == log[..n];
      StateIsLogged(cfg, init, before);
      StepSound(cfg, before, e);
      LevelOnlyRises(cfg, init, n, before, earlier);
      if !IsUnlock(e) && exists k :: n <= k < |log| && IsUnlock(log[k]) {
        var k :| n <= k < |log| && IsUnlock(log[k]);
        assert init[k] == log[k];
      }
    }
  }

  /** A seed request, by its bytes and what the log says of the state: the NRCs in the order
      of the checks, zeros at or below the unlocked level, the configured seed above it. */
  lemma SeedsExactly(cfg: Config, log: seq<Entry>, s: State, raw: Bytes)
    requires Observed(cfg, log, s) && cfg.enabled && raw != [] && raw[0] == 0x27
    requires |raw| < 2 || raw[1] % 128 == 0 || raw[1] % 2 == 1
    ensures var reply := Serve(cfg, s, raw).reply;
            if |raw| < 2 then reply == Negative(0x13)
            else
              var sub := raw[1] % 128;
              if sub == 0 then reply == Negative(0x12)
              else if |raw| != 2 then reply == Negative(0x13)
              else if 2 * LoggedLevel(cfg, log) > sub then reply == Positive([sub] + Zeros(|cfg.seed|))
              else reply == Positive([sub] + cfg.seed)
  {
    LoggedLevelIs(cfg, log, s);
    if |raw| == 2 && raw[1] % 128 != 0 {
      SeedServed(cfg, s, raw);
    }
  }

  lemma SeedServed(cfg: Config, s: State, raw: Bytes)
    requires cfg.enabled && |raw| == 2 && raw[0] == 0x27 && raw[1] % 128 % 2 == 1
    ensures var sub := raw[1] % 128;
            Serve(cfg, s, raw).reply == Positive([sub] + if 2 * s.level > sub then Zeros(|cfg.seed|) else cfg.seed)
  {
    AtOrBelow(s.level, raw[1] % 128);
  }

  lemma LoggedLevelIs(cfg: Config, log: seq<Entry>, s: State)
    requires Observed(cfg, log, s)
    ensures s.level == LoggedLevel(cfg, log)
  {
    StateIsLogged(cfg, log, s);
  }

  lemma AtOrBelow(level: nat, sub: nat)
    ensures sub % 2 == 1 ==> (level >= LevelOf(sub) <==> 2 * level > sub)
  {
  }

  /** A key, in the same terms: only the sub-function after the one whose seed is armed, only
      in the seed's length, and then granted or refused by its bytes and the attempts. */
  lemma KeysExactly(cfg: Config, log: seq<Entry>, s: State, raw: Bytes)
    requires Observed(cfg, log, s) && cfg.enabled && |raw| >= 2 && raw[0] == 0x27
    requires raw[1] % 128 != 0 && raw[1] % 2 == 0
    ensures var reply := Serve(cfg, s, raw).reply;
            var sub := raw[1] % 128;
            if LoggedSeed(cfg, log) != Some(sub - 1) then reply == Negative(0x24)
            else if |raw| != 2 + |cfg.seed| then reply == Negative(0x13)
            else if raw[2..] == ExpectedKey(cfg) then reply == Positive([sub])
            else reply == Negative(if LoggedAttempts(cfg, log) + 1 >= cfg.maxAttempts then 0x36 else 0x35)
  {
    StateIsLogged(cfg, log, s);
  }

  /** Session control and ECUReset are granted by length and sub-function alone. */
  lemma SessionAndResetExactly(cfg: Config, s: State, raw: Bytes)
    requires raw != [] && raw[0] in {0x10, 0x11}
    ensures var reply := Serve(cfg, s, raw).reply;
            if |raw| != 2 then reply == Negative(0x13)
            else
              var sub := raw[1] % 128;
              if raw[0] == 0x10 then
                if sub in cfg.sessions then reply == Positive([sub] + TimingBytes(cfg)) else reply == Negative(0x12)
              else if sub in {1, 2, 3} then reply == Positive([sub]) else reply == Negative(0x12)
  {
  }
}
