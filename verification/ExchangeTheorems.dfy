/** What one EdgeNode-to-ECU exchange guarantees, for every schedule of arrivals. */
module ExchangeTheorems {
  import opened Common
  import opened Exchange

  ghost function Acks(frames: seq<Frame>): nat {
    if frames == [] then 0 else (if IsAck(frames[0]) then 1 else 0) + Acks(frames[1..])
  }

  ghost predicate Failure(reason: Reason) {
    reason.Silence? || reason.BudgetExhausted? || reason.TransportError?
  }

  /** A frame after which the exchange keeps waiting. */
  ghost predicate Interim(raw: Frame, sid: Option<byte>) {
    IsAck(raw) || (IsResponsePending(raw) && sid == Some(raw[13]))
  }

  /** The relayed frames are the first arrivals, in order, each there before the deadline. */
  ghost predicate InOrder(env: Env, i: nat, relayed: seq<Frame>) {
    && i + |relayed| <= |env.arrivals|
    && forall j :: 0 <= j < |relayed| ==>
         env.arrivals[i + j].item == Received(relayed[j]) && env.arrivals[i + j].at < env.deadline
  }

  lemma {:induction false} RelaysInOrder(env: Env, i: nat, now: nat, st: Progress)
    requires ValidEnv(env) && i <= |env.arrivals|
    ensures InOrder(env, i, Run(env, i, now, st).relayed)
    decreases |env.arrivals| - i, if env.deadline > now then env.deadline - now else 0
  {
    if now < env.deadline {
      match PassOf(env, i, now, st)
      case Ends(_) =>
      case Waits(until) => RelaysInOrder(env, i, until, st);
      case Relays(_, next) => RelaysInOrder(env, i + 1, Later(env, i, now), next);
    }
  }

  /** Interim frames come first and the exchange completes exactly on a final frame. */
  ghost predicate Shaped(env: Env, st: Progress, out: Outcome) {
    var n := |out.relayed|;
    && (forall j :: 0 <= j < n - 1 ==> Interim(out.relayed[j], env.sid))
    && (out.reason.Answered? ==> n > 0)
    && (!out.reason.Answered? && n > 0 ==> Interim(out.relayed[n - 1], env.sid))
    && (out.completed <==> out.reason.Answered? && n > 0 && IsFinal(out.relayed[n - 1]))
    && Acks(out.relayed) <= (if st.accepted then 0 else 1)
    && (out.nacked <==> Failure(out.reason) && !st.accepted && out.relayed == [])
    && (out.nacked ==> !out.completed)
  }

  lemma {:induction false} RunShaped(env: Env, i: nat, now: nat, st: Progress)
    requires ValidEnv(env) && i <= |env.arrivals|
    ensures Shaped(env, st, Run(env, i, now, st))
    decreases |env.arrivals| - i, if env.deadline > now then env.deadline - now else 0
  {
    if now < env.deadline {
      match PassOf(env, i, now, st)
      case Ends(outcome) => EndShaped(env, i, now, st);
      case Waits(until) => RunShaped(env, i, until, st);
      case Relays(raw, next) =>
        RunShaped(env, i + 1, Later(env, i, now), next);
        PrependShaped(env, st, next, raw, Run(env, i + 1, Later(env, i, now), next));
    }
  }

  lemma EndShaped(env: Env, i: nat, now: nat, st: Progress)
    requires ValidEnv(env) && i <= |env.arrivals| && now < env.deadline && PassOf(env, i, now, st).Ends?
    ensures Shaped(env, st, PassOf(env, i, now, st).outcome)
  {
    var relayed := PassOf(env, i, now, st).outcome.relayed;
    assert relayed != [] ==> relayed[1..] == [];
  }

  lemma PrependShaped(env: Env, st: Progress, next: Progress, raw: Frame, rest: Outcome)
    requires Shaped(env, next, rest) && OnFrame(env.strict, env.sid, st, raw) == Continue(next)
    ensures Shaped(env, st, After([raw], rest))
  {
    var out := After([raw], rest);
    assert out.relayed[1..] == rest.relayed;
    assert next.accepted;
    forall j | 0 <= j < |out.relayed| ensures out.relayed[j] == if j == 0 then raw else rest.relayed[j - 1] {}
  }

  /** No usable first frame: the request was not written before the deadline, or the
      first frame is missing, late or an error. */
  ghost predicate NothingCame(env: Env, sent: Option<nat>) {
    || sent.None? || sent.value >= env.deadline || env.arrivals == []
    || env.arrivals[0].at >= sent.value + Min(env.frameTimeout, env.deadline - sent.value)
    || env.arrivals[0].item.Lost?
  }

  /** Exchange outcome: at most one ACK is relayed; the synthetic NACK goes out at
      most once, exactly when the exchange fails before any ACK or diagnostic data,
      which is exactly when nothing usable came first;
      the leg is kept exactly when the last relayed frame is final; nothing that
      arrives at or after the deadline is relayed, however many pending frames came. */
  lemma ExchangeOutcome(env: Env, sent: Option<nat>)
    requires ValidEnv(env)
    ensures var out := Perform(env, sent);
            && InOrder(env, 0, out.relayed)
            && Acks(out.relayed) <= 1
            && (out.nacked <==> Failure(out.reason) && forall f :: f in out.relayed ==> !IsAck(f) && !IsDiagnostic(f))
            && (out.nacked <==> NothingCame(env, sent))
            && (out.completed <==> out.reason.Answered? && out.relayed != [] && IsFinal(out.relayed[|out.relayed| - 1]))
            && (forall j :: 0 <= j < |out.relayed| - 1 ==> Interim(out.relayed[j], env.sid))
  {
    if sent.Some? && sent.value <= env.deadline {
      RelaysInOrder(env, 0, sent.value, Progress(false, false));
      RunShaped(env, 0, sent.value, Progress(false, false));
      var out := Perform(env, sent);
      if Failure(out.reason) && out.relayed != [] {
        assert out.relayed[0] in out.relayed && Interim(out.relayed[0], env.sid);
      }
    }
  }

  /** Under strict matching every relayed diagnostic frame answers the service
      identifier that was actually sent: the reader lets none through that is too short
      to carry one. */
  lemma {:induction false} StrictRelays(env: Env, i: nat, now: nat, st: Progress, f: Frame)
    requires ValidEnv(env) && i <= |env.arrivals| && env.strict && env.sid.Some?
    requires f in Run(env, i, now, st).relayed && IsDiagnostic(f)
    ensures Answers(f, env.sid.value)
    decreases |env.arrivals| - i, if env.deadline > now then env.deadline - now else 0
  {
    match PassOf(env, i, now, st)
    case Ends(_) =>
    case Waits(until) => StrictRelays(env, i, until, st, f);
    case Relays(raw, next) =>
      if f != raw {
        StrictRelays(env, i + 1, Later(env, i, now), next, f);
      }
  }

  lemma StrictExchange(env: Env, sent: Option<nat>, f: Frame)
    requires ValidEnv(env) && env.strict && env.sid.Some?
    requires f in Perform(env, sent).relayed && IsDiagnostic(f)
    ensures Answers(f, env.sid.value)
  {
    StrictRelays(env, 0, sent.value, Progress(false, false), f);
  }
}
