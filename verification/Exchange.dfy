/** One EdgeNode-to-ECU diagnostic exchange (`_exchange_with_ecu` in
    doip_edgenode/session.py), timed in integer ticks. */
module Exchange {
  import opened Common
  import opened EcuReader

  const PT_DIAGNOSTIC: uint16 := 0x8001
  const PT_POSITIVE_ACK: uint16 := 0x8002
  const PT_NEGATIVE_ACK: uint16 := 0x8003

  const NEGATIVE_RESPONSE: byte := 0x7F
  const RESPONSE_PENDING: byte := 0x78

  /** A frame as the ECU reader hands it over. */
  type Frame = EcuFrame

  function PayloadType(raw: Frame): uint16 {
    Decode16(raw[2..4])
  }

  predicate IsAck(raw: Frame) { PayloadType(raw) == PT_POSITIVE_ACK }

  predicate IsDiagnostic(raw: Frame) { PayloadType(raw) == PT_DIAGNOSTIC }

  /** A Diagnostic Message carrying `7F <sid> 78`. */
  predicate IsResponsePending(raw: Frame) {
    |raw| >= 15 && IsDiagnostic(raw) && raw[12] == NEGATIVE_RESPONSE && raw[14] == RESPONSE_PENDING
  }

  /** The last frame an ECU sends for one request: a NACK or a non-pending response. */
  predicate IsFinal(raw: Frame) {
    PayloadType(raw) == PT_NEGATIVE_ACK || (IsDiagnostic(raw) && !IsResponsePending(raw))
  }

  /** `sid | 0x40`. */
  function PositiveSid(sid: byte): byte {
    if (sid / 64) % 2 == 1 then sid else sid + 64
  }

  lemma PositiveSidBits(sid: byte)
    ensures PositiveSid(sid) == ((sid as bv8) | 0x40) as int
  {
    var bits := sid as bv8;
    assert (bits / 64) % 2 == 1 <==> bits & 0x40 == 0x40;
    assert bits & 0x40 == 0 ==> bits | 0x40 == bits + 64;
    assert bits as int == sid;
  }

  /** `raw` answers a request with service identifier `sid`. */
  predicate Answers(raw: Frame, sid: byte) {
    |raw| >= 13
    && (raw[12] == PositiveSid(sid)
        || (raw[12] == NEGATIVE_RESPONSE && |raw| >= 14 && raw[13] == sid))
  }

  predicate ResponseMatches(strict: bool, raw: Frame, sid: Option<byte>) {
    sid.None? || |raw| < 13 || Answers(raw, sid.value) || !strict
  }

  // ------------------------------------------------------------ one ECU frame

  datatype Progress = Progress(accepted: bool, pendingSeen: bool)

  /** What the loop does with one frame: relay it or not, then go on or stop. */
  datatype Verdict =
    | Continue(next: Progress)
    | Stop(relay: bool, completed: bool)

  function OnFrame(strict: bool, sid: Option<byte>, st: Progress, raw: Frame): Verdict {
    if IsAck(raw) then
      if st.accepted then Stop(false, false) else Continue(st.(accepted := true))
    else if IsDiagnostic(raw) then
      if !ResponseMatches(strict, raw, sid) then Stop(false, false)
      else if IsResponsePending(raw) && sid == Some(raw[13]) then Continue(Progress(true, true))
      else Stop(true, !IsResponsePending(raw))
    else Stop(true, PayloadType(raw) == PT_NEGATIVE_ACK)
  }

  // --------------------------------------------------------- the whole exchange

  datatype Item = Received(raw: Frame) | Lost

  /** Something the ECU leg makes available at time `at`. */
  datatype Arrival = Arrival(at: nat, item: Item)

  /** Configuration and environment of one exchange.  `costs[i]` is the time the
      relay of arrival `i` takes (middleware, socket back-pressure). */
  datatype Env = Env(
    frameTimeout: nat, strict: bool, sid: Option<byte>, deadline: nat,
    arrivals: seq<Arrival>, costs: seq<nat>)

  ghost predicate ValidEnv(env: Env) {
    env.frameTimeout > 0 && |env.costs| == |env.arrivals|
  }

  datatype Reason = Answered | Mismatch | Silence | BudgetExhausted | TransportError

  /** `nacked`: a synthetic 0x06 NACK was sent.  `completed`: the leg is kept. */
  datatype Outcome = Outcome(relayed: seq<Frame>, nacked: bool, completed: bool, reason: Reason)

  function Min(a: nat, b: nat): nat { if a <= b then a else b }

  function Max(a: nat, b: nat): nat { if a >= b then a else b }

  function Failed(st: Progress, reason: Reason): Outcome {
    Outcome([], !st.accepted, false, reason)
  }

  /** The outcome of an exchange that relays `done` and then goes on as `rest`. */
  function After(done: seq<Frame>, rest: Outcome): Outcome {
    rest.(relayed := done + rest.relayed)
  }

  lemma AfterOne(done: seq<Frame>, raw: Frame, rest: Outcome)
    ensures After(done, After([raw], rest)) == After(done + [raw], rest)
  {
    assert done + ([raw] + rest.relayed) == (done + [raw]) + rest.relayed;
  }

  /** One pass of the loop: it ends the exchange, waits on, or relays a frame and goes on. */
  datatype Pass = Ends(outcome: Outcome) | Waits(until: nat) | Relays(raw: Frame, next: Progress)

  /** The pass at time `now` with the first `i` arrivals read.  A frame that is not there
      strictly before a wait runs out is not read in it. */
  function PassOf(env: Env, i: nat, now: nat, st: Progress): Pass
    requires ValidEnv(env) && i <= |env.arrivals| && now < env.deadline
  {
    var limit := now + Min(env.frameTimeout, env.deadline - now);
    if i == |env.arrivals| || env.arrivals[i].at >= limit then
      if st.pendingSeen then Waits(limit) else Ends(Failed(st, Silence))
    else match env.arrivals[i].item
      case Lost => Ends(Failed(st, TransportError))
      case Received(raw) =>
        match OnFrame(env.strict, env.sid, st, raw)
        case Continue(next) => Relays(raw, next)
        case Stop(relay, completed) =>
          Ends(Outcome(if relay then [raw] else [], false, completed, if relay then Answered else Mismatch))
  }

  /** The exchange loop from time `now` on, with the first `i` arrivals read. */
  function Run(env: Env, i: nat, now: nat, st: Progress): Outcome
    requires ValidEnv(env) && i <= |env.arrivals|
    decreases |env.arrivals| - i, if env.deadline > now then env.deadline - now else 0
  {
    if now >= env.deadline then Failed(st, BudgetExhausted)
    else match PassOf(env, i, now, st)
      case Ends(outcome) => outcome
      case Waits(until) => Run(env, i, until, st)
      case Relays(raw, next) => After([raw], Run(env, i + 1, Later(env, i, now), next))
  }

  /** When arrival `i`, read by an exchange waiting since `now`, has been relayed. */
  function Later(env: Env, i: nat, now: nat): nat
    requires ValidEnv(env) && i < |env.arrivals|
  {
    Max(now, env.arrivals[i].at) + env.costs[i]
  }

  /** The exchange: `sent` is when the request has been written, if it could be. */
  function Perform(env: Env, sent: Option<nat>): Outcome
    requires ValidEnv(env)
  {
    if sent.None? || sent.value > env.deadline then Failed(Progress(false, false), TransportError)
    else Run(env, 0, sent.value, Progress(false, false))
  }

  /** The branches of the loop body on one frame. */
  method JudgeFrame(strict: bool, sid: Option<byte>, accepted: bool, pendingSeen: bool, raw: Frame)
    returns (verdict: Verdict)
    ensures verdict == OnFrame(strict, sid, Progress(accepted, pendingSeen), raw)
  {
    if IsAck(raw) {
      if accepted {
        return Stop(false, false);
      }
      return Continue(Progress(true, pendingSeen));
    }
    if IsDiagnostic(raw) {
      if !ResponseMatches(strict, raw, sid) {
        return Stop(false, false);
      }
      var pending := IsResponsePending(raw);
      if pending && sid == Some(raw[13]) {
        return Continue(Progress(true, true));
      }
      return Stop(true, !pending);
    }
    return Stop(true, PayloadType(raw) == PT_NEGATIVE_ACK);
  }

  method OnePass(env: Env, i: nat, now: nat, st: Progress) returns (pass: Pass)
    requires ValidEnv(env) && i <= |env.arrivals| && now < env.deadline
    ensures pass == PassOf(env, i, now, st)
  {
    var limit := now + Min(env.frameTimeout, env.deadline - now);
    if i == |env.arrivals| || env.arrivals[i].at >= limit {
      if st.pendingSeen {
        return Waits(limit);
      }
      return Ends(Outcome([], !st.accepted, false, Silence));
    }
    if env.arrivals[i].item.Lost? {
      return Ends(Outcome([], !st.accepted, false, TransportError));
    }
    var raw := env.arrivals[i].item.raw;
    var verdict := JudgeFrame(env.strict, env.sid, st.accepted, st.pendingSeen, raw);
    if verdict.Continue? {
      return Relays(raw, verdict.next);
    }
    return Ends(Outcome(if verdict.relay then [raw] else [], false, verdict.completed,
                        if verdict.relay then Answered else Mismatch));
  }

  method ExchangeWithEcu(env: Env, sent: Option<nat>) returns (out: Outcome)
    requires ValidEnv(env)
    ensures out == Perform(env, sent)
  {
    if sent.None? || sent.value > env.deadline {
      return Outcome([], true, false, TransportError);
    }
    ghost var whole := Perform(env, sent);
    var st := Progress(false, false);
    var relayed: seq<Frame> := [];
    var i: nat, now: nat := 0, sent.value;
    while now < env.deadline
      invariant i <= |env.arrivals|
      invariant whole == After(relayed, Run(env, i, now, st))
      decreases |env.arrivals| - i, env.deadline - now
    {
      var pass := OnePass(env, i, now, st);
      match pass
      case Ends(outcome) =>
        return After(relayed, outcome);
      case Waits(until) =>
        now := until;
      case Relays(raw, next) =>
        AfterOne(relayed, raw, Run(env, i + 1, Later(env, i, now), next));
        relayed, st, now, i := relayed + [raw], next, Later(env, i, now), i + 1;
    }
    return Outcome(relayed, !st.accepted, false, BudgetExhausted);
  }
}
