/** What one exchange gives the tester, told from the frames that arrive and when, by their
    payload types and bytes alone. */
module ExchangeOutcomes {
  import opened Common
  import opened Exchange

  /** A final answer to a request with service identifier `sid`, if it has one. */
  ghost predicate FinalAnswer(raw: Frame, sid: Option<byte>, strict: bool) {
    || PayloadType(raw) == 0x8003
    || (PayloadType(raw) == 0x8001 && !IsResponsePending(raw) && (sid.None? || Answers(raw, sid.value) || !strict))
  }

  /** The first ACK, or a pending response to the request itself. */
  ghost predicate InterimAnswer(raw: Frame, sid: Option<byte>, accepted: bool) {
    || (PayloadType(raw) == 0x8002 && !accepted)
    || (PayloadType(raw) == 0x8001 && IsResponsePending(raw) && sid == Some(raw[13]))
  }

  /** Kept from the tester: a repeated ACK, or under strict matching an answer to another
      request. */
  ghost predicate Withheld(raw: Frame, sid: Option<byte>, accepted: bool, strict: bool) {
    || (PayloadType(raw) == 0x8002 && accepted)
    || (PayloadType(raw) == 0x8001 && strict && sid.Some? && !Answers(raw, sid.value))
  }

  // ------------------------------------------------------------- the interim part

  /** When the loop is ready to read arrival `j` of a request written at `sent`. */
  function ReadyAt(env: Env, sent: nat, j: nat): nat
    requires ValidEnv(env) && j <= |env.arrivals|
  {
    if j == 0 then sent else Later(env, j - 1, ReadyAt(env, sent, j - 1))
  }

  /** A pending response to the request is among the first `j` arrivals. */
  ghost predicate PendingBefore(env: Env, j: nat)
    requires j <= |env.arrivals|
  {
    exists i :: 0 <= i < j && PendingAt(env, i)
  }

  ghost predicate PendingAt(env: Env, i: nat)
    requires i < |env.arrivals|
  {
    env.arrivals[i].item.Received? && PayloadType(env.arrivals[i].item.raw) == 0x8001
    && IsResponsePending(env.arrivals[i].item.raw) && env.sid == Some(env.arrivals[i].item.raw[13])
  }

  /** Arrival `j` comes before the deadline and, unless a pending response has been seen,
      within the per-frame timeout. */
  ghost predicate InTime(env: Env, sent: nat, j: nat)
    requires ValidEnv(env) && j < |env.arrivals|
  {
    && ReadyAt(env, sent, j) < env.deadline && env.arrivals[j].at < env.deadline
    && (env.arrivals[j].at < ReadyAt(env, sent, j) + env.frameTimeout || PendingBefore(env, j))
  }

  /** The first `i` arrivals are interim answers, all in time. */
  ghost predicate InterimFirst(env: Env, sent: nat, i: nat)
    requires ValidEnv(env) && i <= |env.arrivals|
  {
    forall j :: 0 <= j < i ==>
      InTime(env, sent, j) && env.arrivals[j].item.Received? && InterimAnswer(env.arrivals[j].item.raw, env.sid, j > 0)
  }

  function FirstFrames(env: Env, i: nat): (frames: seq<Frame>)
    requires i <= |env.arrivals| && forall j :: 0 <= j < i ==> env.arrivals[j].item.Received?
    ensures |frames| == i
  {
    seq(i, j requires 0 <= j < i => env.arrivals[j].item.raw)
  }

  ghost function ProgressAt(env: Env, i: nat): Progress
    requires i <= |env.arrivals|
  {
    Progress(i > 0, PendingBefore(env, i))
  }

  /** After a pending frame silence is waited out: the next frame is read whenever it
      comes before the deadline. */
  lemma {:induction false} WaitsThrough(env: Env, i: nat, now: nat, st: Progress) returns (later: nat)
    requires ValidEnv(env) && i < |env.arrivals| && st.pendingSeen
    requires now <= env.arrivals[i].at < env.deadline
    ensures now <= later <= env.arrivals[i].at < later + Min(env.frameTimeout, env.deadline - later)
    ensures Run(env, i, now, st) == Run(env, i, later, st)
    decreases env.deadline - now
  {
    var limit := now + Min(env.frameTimeout, env.deadline - now);
    if env.arrivals[i].at < limit {
      return now;
    }
    later := WaitsThrough(env, i, limit, st);
  }

  /** A frame in time is what the loop reads next, whenever it got ready. */
  lemma ReadsInTime(env: Env, sent: nat, i: nat) returns (now: nat)
    requires ValidEnv(env) && i < |env.arrivals| && InTime(env, sent, i)
    ensures now < env.deadline && env.arrivals[i].at < now + Min(env.frameTimeout, env.deadline - now)
    ensures Later(env, i, now) == Later(env, i, ReadyAt(env, sent, i))
    ensures Run(env, i, ReadyAt(env, sent, i), ProgressAt(env, i)) == Run(env, i, now, ProgressAt(env, i))
  {
    now := ReadyAt(env, sent, i);
    if PendingBefore(env, i) && now <= env.arrivals[i].at {
      now := WaitsThrough(env, i, now, ProgressAt(env, i));
    }
  }

  lemma InterimStep(env: Env, sent: nat, i: nat)
    requires ValidEnv(env) && i < |env.arrivals| && InTime(env, sent, i) && env.arrivals[i].item.Received?
    requires InterimAnswer(env.arrivals[i].item.raw, env.sid, i > 0)
    ensures Run(env, i, ReadyAt(env, sent, i), ProgressAt(env, i)) ==
            After([env.arrivals[i].item.raw], Run(env, i + 1, ReadyAt(env, sent, i + 1), ProgressAt(env, i + 1)))
  {
    var now := ReadsInTime(env, sent, i);
    var raw := env.arrivals[i].item.raw;
    assert PendingBefore(env, i + 1) <==> PendingBefore(env, i) || PendingAt(env, i);
    assert OnFrame(env.strict, env.sid, ProgressAt(env, i), raw) == Continue(ProgressAt(env, i + 1));
  }

  /** The interim answers are relayed, and the exchange goes on from there. */
  lemma {:induction false} InterimRelayed(env: Env, sent: nat, i: nat)
    requires ValidEnv(env) && i <= |env.arrivals| && InterimFirst(env, sent, i)
    ensures Run(env, 0, sent, Progress(false, false)) ==
            After(FirstFrames(env, i), Run(env, i, ReadyAt(env, sent, i), ProgressAt(env, i)))
  {
    if i > 0 {
      InterimRelayed(env, sent, i - 1);
      InterimStep(env, sent, i - 1);
      AfterOne(FirstFrames(env, i - 1), env.arrivals[i - 1].item.raw, Run(env, i, ReadyAt(env, sent, i), ProgressAt(env, i)));
      assert FirstFrames(env, i) == FirstFrames(env, i - 1) + [env.arrivals[i - 1].item.raw];
    } else {
      assert ProgressAt(env, 0) == Progress(false, false);
    }
  }

  // ---------------------------------------------------------------- the outcome

  /** Nothing usable is read after the first `i` arrivals: nothing comes in time, or the
      connection is lost. */
  ghost predicate NothingNext(env: Env, sent: nat, i: nat)
    requires ValidEnv(env) && i <= |env.arrivals|
  {
    i == |env.arrivals| || !InTime(env, sent, i) || env.arrivals[i].item.Lost?
  }

  /** After interim answers with nothing usable behind them the exchange fails: they are
      relayed, and the synthetic NACK goes out exactly if there were none. */
  lemma FailsAfterInterim(env: Env, sent: nat, i: nat)
    requires ValidEnv(env) && sent <= env.deadline && i <= |env.arrivals| && InterimFirst(env, sent, i)
    requires NothingNext(env, sent, i)
    ensures var out := Perform(env, Some(sent));
            out.relayed == FirstFrames(env, i) && !out.completed && (out.nacked <==> i == 0)
  {
    InterimRelayed(env, sent, i);
    assert FirstFrames(env, i) + [] == FirstFrames(env, i);
    if i < |env.arrivals| && InTime(env, sent, i) {
      var now := ReadsInTime(env, sent, i);
    } else {
      RunsOut(env, i, ReadyAt(env, sent, i), ProgressAt(env, i));
    }
  }

  /** Waiting for an arrival that does not come in time ends without it. */
  lemma {:induction false} RunsOut(env: Env, i: nat, now: nat, st: Progress)
    requires ValidEnv(env) && i <= |env.arrivals|
    requires i < |env.arrivals| ==> now >= env.deadline || env.arrivals[i].at >= env.deadline
                                    || (env.arrivals[i].at >= now + env.frameTimeout && !st.pendingSeen)
    ensures var out := Run(env, i, now, st);
            out.relayed == [] && !out.completed && out.nacked == !st.accepted
    decreases if env.deadline > now then env.deadline - now else 0
  {
    if now < env.deadline && st.pendingSeen {
      RunsOut(env, i, now + Min(env.frameTimeout, env.deadline - now), st);
    }
  }

  /** After interim answers a frame that is none of them ends the exchange.  A final answer
      is relayed and completes it; a withheld frame is not relayed; anything else is
      relayed and does not complete it.  No NACK is made up. */
  lemma EndsOnFrame(env: Env, sent: nat, i: nat)
    requires ValidEnv(env) && sent <= env.deadline && i < |env.arrivals| && InterimFirst(env, sent, i)
    requires InTime(env, sent, i) && env.arrivals[i].item.Received?
    requires !InterimAnswer(env.arrivals[i].item.raw, env.sid, i > 0)
    ensures var out := Perform(env, Some(sent));
            var raw := env.arrivals[i].item.raw;
            && out.relayed == FirstFrames(env, i) + (if Withheld(raw, env.sid, i > 0, env.strict) then [] else [raw])
            && (out.completed <==> FinalAnswer(raw, env.sid, env.strict)) && !out.nacked
  {
    InterimRelayed(env, sent, i);
    var now := ReadsInTime(env, sent, i);
    assert PassOf(env, i, now, ProgressAt(env, i)).Ends?;
  }
}
