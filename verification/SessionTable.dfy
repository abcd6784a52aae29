/** The VirtualEcu's session states, kept per tester address and shared by its sockets
    (`SessionState` and `EcuCore` in virtual_ecu/virtecu/core.py). */
module SessionTable {
  import opened Common
  import opened Security

  /** What the code takes for "nothing left to remember".  It does not look at the
      attempt counter, so a tidy state need not be what a fresh one would hold. */
  predicate Tidy(cfg: Config, s: State) {
    s.session == cfg.defaultSession && s.level == 0 && s.seedPending.None?
  }

  /** The S3 timer runs exactly in non-default sessions, if it is enabled at all. */
  predicate Timed(cfg: Config, s: State) {
    s.armed <==> s.session != cfg.defaultSession && cfg.s3 > 0
  }

  /** A granted ECUReset that makes the ECU vanish. */
  predicate Vanishes(cfg: Config, raw: Bytes, reply: Reply) {
    cfg.dropsConnection && raw != [] && raw[0] == ECU_RESET && reply.Positive?
  }

  class SessionState {
    const cfg: Config
    var sessionType: byte
    var securityLevel: nat
    var seedPending: Option<nat>
    var securityAttempts: nat
    var testerAddr: Option<uint16>
    var s3Running: bool

    function View(): State
      reads this
    {
      State(sessionType, securityLevel, seedPending, securityAttempts, s3Running)
    }

    constructor (cfg: Config, tester: Option<uint16>)
      ensures this.cfg == cfg && View() == Fresh(cfg) && testerAddr == tester
    {
      this.cfg := cfg;
      sessionType, securityLevel, seedPending, securityAttempts := cfg.defaultSession, 0, None, 0;
      testerAddr, s3Running := tester, false;
    }

    method RefreshS3()
      modifies this`s3Running
      ensures View() == Refreshed(cfg, old(View()))
    {
      s3Running := false;
      if sessionType == cfg.defaultSession || cfg.s3 == 0 {
        return;
      }
      s3Running := true;
    }

    method EnterSession(session: byte)
      modifies this
      ensures View() == Entered(cfg, session) && testerAddr == old(testerAddr)
    {
      sessionType, securityLevel, seedPending, securityAttempts := session, 0, None, 0;
      RefreshS3();
    }

    method Reset()
      modifies this
      ensures View() == Fresh(cfg) && testerAddr == old(testerAddr)
    {
      sessionType, securityLevel, seedPending, securityAttempts := cfg.defaultSession, 0, None, 0;
      s3Running := false;
    }

    method AnswerRequestSeed(raw: Bytes) returns (reply: Reply)
      requires |raw| >= 2
      modifies this`seedPending
      ensures Served(View(), reply) == RequestSeed(cfg, old(View()), raw)
    {
      var sub := Sub(raw);
      if |raw| != 2 {
        return Negative(INCORRECT_LENGTH);
      }
      if securityLevel >= LevelOf(sub) {
        return Positive([sub] + Zeros(|cfg.seed|));
      }
      seedPending := Some(sub);
      return Positive([sub] + cfg.seed);
    }

    method AnswerSendKey(raw: Bytes) returns (reply: Reply)
      requires |raw| >= 2
      modifies this`seedPending, this`securityLevel, this`securityAttempts
      ensures Served(View(), reply) == SendKey(cfg, old(View()), raw)
    {
      var sub := Sub(raw);
      if seedPending.None? || seedPending.value + 1 != sub {
        return Negative(REQUEST_SEQUENCE_ERROR);
      }
      var key := raw[2..];
      if |key| != |cfg.seed| {
        return Negative(INCORRECT_LENGTH);
      }
      if key != ExpectedKey(cfg) {
        securityAttempts := securityAttempts + 1;
        seedPending := None;
        return Negative(if securityAttempts >= cfg.maxAttempts then EXCEEDED_ATTEMPTS else INVALID_KEY);
      }
      securityLevel, securityAttempts, seedPending := LevelOf(sub), 0, None;
      return Positive([sub]);
    }

    method AnswerSecurityAccess(raw: Bytes) returns (reply: Reply)
      modifies this`seedPending, this`securityLevel, this`securityAttempts
      ensures Served(View(), reply) == SecurityAccess(cfg, old(View()), raw)
    {
      if !cfg.enabled {
        return Unhandled;
      }
      if |raw| < 2 {
        return Negative(INCORRECT_LENGTH);
      }
      if Sub(raw) == 0 {
        return Negative(SUB_FUNCTION_NOT_SUPPORTED);
      }
      if Sub(raw) % 2 == 1 {
        reply := AnswerRequestSeed(raw);
      } else {
        reply := AnswerSendKey(raw);
      }
    }

    /** `resolve_uds` and the core services that touch this state. */
    method Answer(raw: Bytes) returns (reply: Reply)
      requires raw != []
      modifies this
      ensures Served(View(), reply) == Serve(cfg, old(View()), raw) && testerAddr == old(testerAddr)
    {
      RefreshS3();
      if raw[0] == SECURITY_ACCESS {
        reply := AnswerSecurityAccess(raw);
      } else if raw[0] == SESSION_CONTROL || raw[0] == ECU_RESET {
        if |raw| != 2 {
          return Negative(INCORRECT_LENGTH);
        }
        var sub := Sub(raw);
        if raw[0] == SESSION_CONTROL && sub in cfg.sessions {
          EnterSession(sub);
          return Positive([sub] + TimingBytes(cfg));
        } else if raw[0] == ECU_RESET && sub in {1, 2, 3} {
          if !cfg.dropsConnection {
            Reset();
          }
        } else {
          return Negative(SUB_FUNCTION_NOT_SUPPORTED);
        }
        reply := Positive([sub]);
      } else {
        reply := Unhandled;
      }
    }
  }

  /** Requests keep the timer right, whatever they do. */
  lemma ServeTimed(cfg: Config, s: State, raw: Bytes)
    requires raw != []
    ensures Timed(cfg, Serve(cfg, s, raw).state)
  {
  }

  class EcuCore {
    const cfg: Config
    var sessionStates: map<uint16, SessionState>

    /** Every entry belongs to its own tester and every non-default one has its timer. */
    ghost predicate Valid()
      reads this, sessionStates.Values
    {
      forall sa :: sa in sessionStates ==> Proper(sa, sessionStates[sa])
    }

    ghost predicate Proper(sa: uint16, st: SessionState)
      reads st
    {
      st.cfg == cfg && st.testerAddr == Some(sa) && Timed(cfg, st.View())
    }

    constructor (cfg: Config)
      ensures this.cfg == cfg && Valid() && sessionStates == map[]
    {
      this.cfg := cfg;
      sessionStates := map[];
    }

    /** A successful activation: the tester's own state, or a fresh one. */
    method SessionFor(sa: uint16) returns (st: SessionState)
      requires Valid()
      modifies this
      ensures Valid() && sessionStates == old(sessionStates)[sa := st]
      ensures sa in old(sessionStates) ==> st == old(sessionStates)[sa]
      ensures sa !in old(sessionStates) ==> fresh(st) && st.View() == Fresh(cfg)
    {
      if sa in sessionStates {
        st := sessionStates[sa];
        assert sessionStates == sessionStates[sa := st];
        return;
      }
      st := new SessionState(cfg, Some(sa));
      sessionStates := sessionStates[sa := st];
    }

    /** A socket closes: its entry goes exactly when it is its own and tidy.  No state
        changes. */
    method MaybeDropSessionState(sa: Option<uint16>, st: Option<SessionState>)
      requires Valid()
      modifies this
      ensures Valid()
      ensures var entry := old(sessionStates);
              var drop := sa.Some? && sa.value in entry && (st.None? || entry[sa.value] == st.value)
                          && Tidy(cfg, entry[sa.value].View());
              sessionStates == if drop then entry - {sa.value} else entry
    {
      if sa.None? || sa.value !in sessionStates {
        return;
      }
      var current := sessionStates[sa.value];
      if st.Some? && current != st.value {
        return;
      }
      if current.sessionType == cfg.defaultSession && current.securityLevel == 0 && current.seedPending.None? {
        assert Proper(sa.value, current);
        assert !current.s3Running;  // closing it changes nothing
        sessionStates := sessionStates - {sa.value};
      }
    }

    method DropSessionState(sa: uint16)
      requires Valid()
      modifies this, sessionStates.Values
      ensures Valid() && sessionStates == old(sessionStates) - {sa}
      ensures forall x :: x in sessionStates.Values ==> x.View() == old(x.View())
    {
      if sa in sessionStates {
        var st := sessionStates[sa];
        assert forall other :: other in sessionStates && other != sa ==> Proper(other, sessionStates[other]) && Proper(sa, st);
        sessionStates := sessionStates - {sa};
        st.s3Running := false;
      }
    }

    /** A request served by a socket that holds `st`, in the table or not. */
    method HandleRequest(st: SessionState, sa: uint16, raw: Bytes) returns (reply: Reply)
      requires Valid() && st.cfg == cfg && raw != []
      modifies this, st, sessionStates.Values
      ensures Valid()
      ensures reply == Serve(cfg, old(st.View()), raw).reply
      ensures sessionStates == if Vanishes(cfg, raw, reply) then old(sessionStates) - {sa} else old(sessionStates)
      ensures !Vanishes(cfg, raw, reply) ==> st.View() == Serve(cfg, old(st.View()), raw).state
      ensures forall x :: x in sessionStates.Values && x != st ==> x.View() == old(x.View())
    {
      ServeTimed(cfg, st.View(), raw);
      reply := st.Answer(raw);
      assert Valid() by {
        forall other | other in sessionStates ensures Proper(other, sessionStates[other]) {
          assert old(Proper(other, sessionStates[other]));
        }
      }
      if Vanishes(cfg, raw, reply) {
        DropSessionState(sa);
      }
    }

    /** The S3 timer of `st` fires: back to a fresh state, out of the table. */
    method S3Expiry(st: SessionState)
      requires Valid() && st.cfg == cfg && st.s3Running
      modifies this, st
      ensures Valid() && st.View() == Fresh(cfg)
      ensures st !in sessionStates.Values
      ensures forall sa :: sa in sessionStates <==> sa in old(sessionStates) && old(sessionStates)[sa] != st
    {
      st.Reset();
      assert Valid() by {
        forall other | other in sessionStates ensures Proper(other, sessionStates[other]) {
          assert old(Proper(other, sessionStates[other]));
        }
      }
      assert forall sa :: sa in sessionStates && sessionStates[sa] == st ==> Proper(sa, sessionStates[sa]);
      MaybeDropSessionState(st.testerAddr, Some(st));
    }
  }

  /** A tidy state is documented to be what a fresh one would hold.  It is exactly if no
      wrong key has been counted. */
  lemma TidyIsFreshExactly(cfg: Config, s: State)
    requires Tidy(cfg, s) && Timed(cfg, s)
    ensures s == Fresh(cfg) <==> s.attempts == 0
  {
  }
}
