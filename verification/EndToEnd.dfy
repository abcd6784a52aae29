/** A VirtualEcu request carried through the EdgeNode with no network delay: the ECU's
    ResponsePending loop feeds the EdgeNode's exchange loop, on one clock. */
module EndToEnd {
  import opened Common
  import opened Exchange
  import opened ExchangeTheorems
  import opened ExchangeOutcomes
  import EcuReader
  import Framing
  import ResponsePending

  const PENDING_NRC: byte := 0x78
  const GENERAL_REJECT_NRC: byte := 0x10

  /** A diagnostic request as the VirtualEcu sees it, and the answer of its handler. */
  datatype Request = Request(version: byte, ecu: uint16, tester: uint16, sid: byte, reply: Bytes)

  /** The handler answers the request it was given, positively or with a final NRC. */
  ghost predicate ValidRequest(q: Request) {
    && 0 < |q.reply| < 0xFFFF_FFFC
    && (q.reply[0] == PositiveSid(q.sid) || (|q.reply| >= 2 && q.reply[0] == NEGATIVE_RESPONSE && q.reply[1] == q.sid))
    && !(|q.reply| >= 3 && q.reply[0] == NEGATIVE_RESPONSE && q.reply[2] == PENDING_NRC)
  }

  function Addresses(q: Request): (b: Bytes)
    ensures |b| == 4
  {
    Encode16(q.ecu) + Encode16(q.tester)
  }

  function AckFrame(q: Request): Frame {
    Framing.BuildFrame(PT_POSITIVE_ACK, Addresses(q) + [0], q.version)
  }

  function UdsFrame(q: Request, uds: Bytes): Frame
    requires 0 < |uds| < 0xFFFF_FFFC
  {
    Framing.BuildFrame(PT_DIAGNOSTIC, Addresses(q) + uds, q.version)
  }

  /** Every frame the VirtualEcu sends for a request passes the EdgeNode's ECU reader. */
  lemma FramesPassTheReader(q: Request, kind: ResponsePending.Kind, tail: Bytes, limit: nat)
    requires ValidRequest(q) && (q.version == 0x02 || q.version == 0x03)
    requires |AckFrame(q)| <= 8 + limit && |FrameOf(q, kind)| <= 8 + limit
    ensures var call := EcuReader.ReadEcuFrame(AckFrame(q) + tail, limit);
            call.result.Got? && call.result.raw == AckFrame(q) && call.rest == tail
    ensures var call := EcuReader.ReadEcuFrame(FrameOf(q, kind) + tail, limit);
            call.result.Got? && call.result.raw == FrameOf(q, kind) && call.rest == tail
  {
    EcuReader.BuiltIsShaped(PT_POSITIVE_ACK, Addresses(q) + [0], q.version);
    EcuReader.BuiltIsShaped(PT_DIAGNOSTIC, Addresses(q) + UdsOf(q, kind), q.version);
    EcuReader.ReadsShapedFrames(AckFrame(q) + tail, limit, AckFrame(q), tail);
    EcuReader.ReadsShapedFrames(FrameOf(q, kind) + tail, limit, FrameOf(q, kind), tail);
  }

  function UdsOf(q: Request, kind: ResponsePending.Kind): Bytes {
    match kind
    case Pending => [NEGATIVE_RESPONSE, q.sid, PENDING_NRC]
    case GeneralReject => [NEGATIVE_RESPONSE, q.sid, GENERAL_REJECT_NRC]
    case Reply => q.reply
  }

  function FrameOf(q: Request, kind: ResponsePending.Kind): Frame
    requires 0 < |q.reply| < 0xFFFF_FFFC
  {
    UdsFrame(q, UdsOf(q, kind))
  }

  lemma AckFrameIsAck(q: Request)
    ensures IsAck(AckFrame(q)) && !IsFinal(AckFrame(q))
  {
    assert AckFrame(q)[2..4] == Encode16(PT_POSITIVE_ACK);
  }

  lemma UdsFrameFields(q: Request, uds: Bytes)
    requires 0 < |uds| < 0xFFFF_FFFC
    ensures var raw := UdsFrame(q, uds);
            IsDiagnostic(raw) && |raw| == 12 + |uds| && raw[12..] == uds
  {
    assert UdsFrame(q, uds)[2..4] == Encode16(PT_DIAGNOSTIC);
  }

  /** Pending frames keep the exchange going; the other two end and complete it. */
  lemma FrameOfKind(q: Request, kind: ResponsePending.Kind)
    requires ValidRequest(q)
    ensures var raw := FrameOf(q, kind);
            && IsDiagnostic(raw) && Answers(raw, q.sid)
            && (IsResponsePending(raw) <==> kind.Pending?)
            && (kind.Pending? ==> raw[13] == q.sid)
  {
    var uds := UdsOf(q, kind);
    UdsFrameFields(q, uds);
    var raw := FrameOf(q, kind);
    forall k | 0 <= k < |uds| ensures raw[12 + k] == uds[k] {
      assert raw[12..][k] == uds[k];
    }
  }

  /** What the EdgeNode leg receives for the frames the ECU sends: the ACK at once. */
  function Traffic(q: Request, frames: seq<ResponsePending.Sent>): (t: seq<Arrival>)
    requires 0 < |q.reply| < 0xFFFF_FFFC
    ensures |t| == 1 + |frames| && t[0] == Arrival(0, Received(AckFrame(q)))
  {
    [Arrival(0, Received(AckFrame(q)))]
    + seq(|frames|, j requires 0 <= j < |frames| => Arrival(frames[j].at, Received(FrameOf(q, frames[j].kind))))
  }

  function EnvOf(q: Request, frames: seq<ResponsePending.Sent>, strict: bool, frameTimeout: nat, deadline: nat): Env
    requires 0 < |q.reply| < 0xFFFF_FFFC
  {
    var t := Traffic(q, frames);
    Env(frameTimeout, strict, Some(q.sid), deadline, t, seq(|t|, _ => 0))
  }

  function Frames(arrivals: seq<Arrival>): (frames: seq<Frame>)
    requires forall j :: 0 <= j < |arrivals| ==> arrivals[j].item.Received?
    ensures |frames| == |arrivals|
  {
    seq(|arrivals|, j requires 0 <= j < |arrivals| => arrivals[j].item.raw)
  }

  // --------------------------------------------------- the exchange on a script

  /** A leg that delivers its frames in time order, at no cost, with pending frames
      from the second on and a complete answer as the last one. */
  ghost predicate Scripted(env: Env) {
    && ValidEnv(env) && |env.arrivals| > 1 && env.sid.Some?
    && (forall j :: 0 <= j < |env.arrivals| ==> env.arrivals[j].item.Received? && env.costs[j] == 0)
    && (forall j, k :: 0 <= j < k < |env.arrivals| ==> env.arrivals[j].at <= env.arrivals[k].at)
    && env.arrivals[0].at == 0
    && (forall j :: 0 < j < |env.arrivals| ==> PendingFrom(env, env.arrivals[j].item.raw) || j == |env.arrivals| - 1)
  }

  ghost predicate PendingFrom(env: Env, raw: Frame)
    requires env.sid.Some?
  {
    IsResponsePending(raw) && Answers(raw, env.sid.value) && raw[13] == env.sid.value
  }

  ghost predicate AnswerFrom(env: Env, raw: Frame)
    requires env.sid.Some?
  {
    IsDiagnostic(raw) && Answers(raw, env.sid.value) && !IsResponsePending(raw)
  }

  /** From the first frame after the ACK on, everything is relayed and the leg kept. */
  lemma {:induction false} RelaysAll(env: Env, i: nat, now: nat, st: Progress)
    requires Scripted(env) && 0 < i < |env.arrivals| && AnswerFrom(env, env.arrivals[|env.arrivals| - 1].item.raw)
    requires now <= env.arrivals[i].at && env.arrivals[|env.arrivals| - 1].at < env.deadline
    requires st.accepted && (st.pendingSeen || env.arrivals[i].at < now + env.frameTimeout)
    ensures Run(env, i, now, st) == Outcome(Frames(env.arrivals[i..]), false, true, Answered)
    decreases |env.arrivals| - i
  {
    var last := |env.arrivals| - 1;
    assert env.arrivals[i].at <= env.arrivals[last].at;
    var later := now;
    if st.pendingSeen {
      later := WaitsThrough(env, i, now, st);
    }
    var raw := env.arrivals[i].item.raw;
    var at := env.arrivals[i].at;
    assert Frames(env.arrivals[i..]) == [raw] + Frames(env.arrivals[i + 1..]);
    if i < last {
      assert PendingFrom(env, raw);
      assert !IsAck(raw);
      assert Later(env, i, later) == at;
      RelaysAll(env, i + 1, at, Progress(true, true));
    }
  }

  /** If the leg is kept, the last frame was a final one and came before the deadline. */
  lemma CompletedMeansAnswered(env: Env)
    requires Scripted(env) && IsAck(env.arrivals[0].item.raw) && Perform(env, Some(0)).completed
    ensures var last := env.arrivals[|env.arrivals| - 1];
            IsFinal(last.item.raw) && last.at < env.deadline
  {
    ExchangeOutcome(env, Some(0));
    var out := Perform(env, Some(0));
    var n := |out.relayed| - 1;
    assert env.arrivals[0 + n].item == Received(out.relayed[n]) && env.arrivals[0 + n].at < env.deadline;
  }

  // ---------------------------------------------------------------- theorems

  /** The last frame of the schedule ends the request. */
  ghost predicate Concluded(frames: seq<ResponsePending.Sent>) {
    frames != [] && !frames[|frames| - 1].kind.Pending?
  }

  lemma ScheduleIsScripted(q: Request, cfg: ResponsePending.Config, h: ResponsePending.Handler, horizon: nat,
                           strict: bool, frameTimeout: nat, deadline: nat)
    requires ValidRequest(q) && ResponsePending.ValidConfig(cfg) && frameTimeout > 0
    requires ResponsePending.Schedule(cfg, h, horizon) != []
    ensures Scripted(EnvOf(q, ResponsePending.Schedule(cfg, h, horizon), strict, frameTimeout, deadline))
  {
    var frames := ResponsePending.Schedule(cfg, h, horizon);
    var env := EnvOf(q, frames, strict, frameTimeout, deadline);
    forall j | 0 < j < |env.arrivals|
      ensures PendingFrom(env, env.arrivals[j].item.raw) || j == |env.arrivals| - 1
    {
      FrameOfKind(q, frames[j - 1].kind);
    }
    forall j, k | 0 <= j < k < |env.arrivals| ensures env.arrivals[j].at <= env.arrivals[k].at {
      TrafficOrdered(q, cfg, h, horizon, j, k);
    }
  }

  lemma TrafficOrdered(q: Request, cfg: ResponsePending.Config, h: ResponsePending.Handler, horizon: nat, j: nat, k: nat)
    requires ValidRequest(q) && ResponsePending.ValidConfig(cfg)
    requires j < k <= |ResponsePending.Schedule(cfg, h, horizon)|
    ensures var t := Traffic(q, ResponsePending.Schedule(cfg, h, horizon)); t[j].at <= t[k].at
  {
    TrafficTimes(q, ResponsePending.Schedule(cfg, h, horizon), j);
    TrafficTimes(q, ResponsePending.Schedule(cfg, h, horizon), k);
    if j > 0 {
      ScheduleOrdered(cfg, h, horizon, j - 1, k - 1);
    }
  }

  lemma TrafficTimes(q: Request, frames: seq<ResponsePending.Sent>, j: nat)
    requires 0 < |q.reply| < 0xFFFF_FFFC && j <= |frames|
    ensures Traffic(q, frames)[j].at == if j == 0 then 0 else frames[j - 1].at
  {
  }

  lemma ScheduleOrdered(cfg: ResponsePending.Config, h: ResponsePending.Handler, horizon: nat, j: nat, k: nat)
    requires ResponsePending.ValidConfig(cfg) && j < k < |ResponsePending.Schedule(cfg, h, horizon)|
    ensures ResponsePending.Schedule(cfg, h, horizon)[j].at <= ResponsePending.Schedule(cfg, h, horizon)[k].at
  {
    ResponsePending.MulMonotone(j, k, cfg.again);
    ResponsePending.WindowsCount(cfg, ResponsePending.Bound(h, horizon), j);
  }

  lemma AckGoesFirst(q: Request, frames: seq<ResponsePending.Sent>, strict: bool, frameTimeout: nat, deadline: nat)
    requires 0 < |q.reply| < 0xFFFF_FFFC && frameTimeout > 0 && deadline > 0
    ensures var env := EnvOf(q, frames, strict, frameTimeout, deadline);
            Perform(env, Some(0)) == After([AckFrame(q)], Run(env, 1, 0, Progress(true, false)))
  {
    AckFrameIsAck(q);
    var env := EnvOf(q, frames, strict, frameTimeout, deadline);
    assert Later(env, 0, 0) == 0;
  }

  /** End-to-end composition.  For every handler, cap and pair of configurations, the
      EdgeNode keeps the leg exactly when the ECU concludes the request before
      `deadline` (`ecu_pending_max_wait_s`) and its first frame after the ACK comes
      within the per-frame timeout; the tester then gets the ACK, every pending frame
      and the last frame, in order.  In all other cases the leg is retired. */
  lemma EndToEndComposition(q: Request, cfg: ResponsePending.Config, h: ResponsePending.Handler, horizon: nat,
                            strict: bool, frameTimeout: nat, deadline: nat)
    requires ValidRequest(q) && ResponsePending.ValidConfig(cfg) && frameTimeout > 0
    ensures var frames := ResponsePending.Schedule(cfg, h, horizon);
            var env := EnvOf(q, frames, strict, frameTimeout, deadline);
            var out := Perform(env, Some(0));
            && (out.completed <==>
                Concluded(frames) && frames[|frames| - 1].at < deadline && frames[0].at < frameTimeout)
            && (out.completed ==> out.relayed == Frames(env.arrivals) && !out.nacked)
  {
    var frames := ResponsePending.Schedule(cfg, h, horizon);
    var env := EnvOf(q, frames, strict, frameTimeout, deadline);
    if deadline > 0 {
      AckGoesFirst(q, frames, strict, frameTimeout, deadline);
    }
    if frames != [] {
      ScheduleIsScripted(q, cfg, h, horizon, strict, frameTimeout, deadline);
      if InTime(frames, frameTimeout, deadline) {
        KeptIfInTime(q, frames, strict, frameTimeout, deadline);
      }
      if Perform(env, Some(0)).completed {
        InTimeIfKept(q, frames, strict, frameTimeout, deadline);
      }
    }
  }

  /** The request ends before the deadline, after an early first frame. */
  ghost predicate InTime(frames: seq<ResponsePending.Sent>, frameTimeout: nat, deadline: nat) {
    Concluded(frames) && frames[|frames| - 1].at < deadline && frames[0].at < frameTimeout
  }

  lemma KeptIfInTime(q: Request, frames: seq<ResponsePending.Sent>, strict: bool, frameTimeout: nat, deadline: nat)
    requires ValidRequest(q) && Scripted(EnvOf(q, frames, strict, frameTimeout, deadline))
    requires InTime(frames, frameTimeout, deadline)
    ensures var env := EnvOf(q, frames, strict, frameTimeout, deadline);
            Perform(env, Some(0)) == Outcome(Frames(env.arrivals), false, true, Answered)
  {
    var env := EnvOf(q, frames, strict, frameTimeout, deadline);
    LastAnswers(q, frames, strict, frameTimeout, deadline);
    AckGoesFirst(q, frames, strict, frameTimeout, deadline);
    RelaysAll(env, 1, 0, Progress(true, false));
    FramesFromAck(q, frames);
  }

  /** The traffic of a concluded request ends with its answer, at the schedule's times. */
  lemma LastAnswers(q: Request, frames: seq<ResponsePending.Sent>, strict: bool, frameTimeout: nat, deadline: nat)
    requires ValidRequest(q) && Concluded(frames)
    ensures var env := EnvOf(q, frames, strict, frameTimeout, deadline);
            && AnswerFrom(env, env.arrivals[|frames|].item.raw)
            && env.arrivals[|frames|].at == frames[|frames| - 1].at && env.arrivals[1].at == frames[0].at
  {
    FrameOfKind(q, frames[|frames| - 1].kind);
  }

  lemma FramesFromAck(q: Request, frames: seq<ResponsePending.Sent>)
    requires 0 < |q.reply| < 0xFFFF_FFFC
    ensures var t := Traffic(q, frames); Frames(t) == [AckFrame(q)] + Frames(t[1..])
  {
  }

  lemma InTimeIfKept(q: Request, frames: seq<ResponsePending.Sent>, strict: bool, frameTimeout: nat, deadline: nat)
    requires ValidRequest(q) && frameTimeout > 0 && Scripted(EnvOf(q, frames, strict, frameTimeout, deadline))
    requires Perform(EnvOf(q, frames, strict, frameTimeout, deadline), Some(0)).completed
    ensures InTime(frames, frameTimeout, deadline)
  {
    var env := EnvOf(q, frames, strict, frameTimeout, deadline);
    var n := |frames|;
    AckFrameIsAck(q);
    CompletedMeansAnswered(env);
    FrameOfKind(q, frames[n - 1].kind);
    assert env.arrivals[n].item.raw == FrameOf(q, frames[n - 1].kind);
    assert env.arrivals[1].at == frames[0].at;
    AckGoesFirst(q, frames, strict, frameTimeout, deadline);
  }

  /** The documented case: automatic ResponsePending with P2 below the per-frame
      timeout.  A request whose handler replies, or that the cap gives up on, is
      relayed completely exactly when it ends before the deadline. */
  lemma EndToEndWithP2(q: Request, cfg: ResponsePending.Config, h: ResponsePending.Handler, horizon: nat,
                       strict: bool, frameTimeout: nat, deadline: nat)
    requires ValidRequest(q) && ResponsePending.ValidConfig(cfg) && cfg.automatic && cfg.first < frameTimeout
    requires (h.finishes.Some? && h.replies) || ResponsePending.GivesUp(cfg, h)
    requires deadline <= horizon
    ensures var end := if ResponsePending.GivesUp(cfg, h) then ResponsePending.WindowEnd(cfg, cfg.cap) else h.finishes.value;
            var env := EnvOf(q, ResponsePending.Schedule(cfg, h, horizon), strict, frameTimeout, deadline);
            var out := Perform(env, Some(0));
            && (out.completed <==> end < deadline)
            && (out.completed ==> out.relayed == Frames(env.arrivals) && !out.nacked)
  {
    EndToEndComposition(q, cfg, h, horizon, strict, frameTimeout, deadline);
    var frames := ResponsePending.Schedule(cfg, h, horizon);
    var bound := ResponsePending.Bound(h, horizon);
    ResponsePending.PendingArithmetic(cfg, h, horizon);
    ResponsePending.WindowsCount(cfg, bound, cfg.cap);
    ResponsePending.WindowsCount(cfg, bound, 0);
  }
}
