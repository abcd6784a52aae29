/** The ResponsePending loop of the VirtualEcu (`_dispatch_with_p2` in
    virtual_ecu/virtecu/session.py), timed in tenths of a millisecond so that both
    P2 and 0.9 * P2* are whole numbers. */
module ResponsePending {
  import opened Common

  /** `first` is P2, `again` is 0.9 * P2*, `cap` is `max_response_pending` (0: none). */
  datatype Config = Config(automatic: bool, first: nat, again: nat, cap: nat)

  ghost predicate ValidConfig(cfg: Config) { cfg.first > 0 && cfg.again > 0 }

  function FromMilliseconds(automatic: bool, p2: nat, p2Star: nat, cap: nat): (cfg: Config)
    requires p2 > 0 && p2Star > 0
    ensures ValidConfig(cfg)
  {
    Config(automatic, p2 * 10, p2Star * 9, cap)
  }

  datatype Kind = Pending | Reply | GeneralReject

  datatype Sent = Sent(at: nat, kind: Kind)

  /** A handler: when it finishes, if ever, and whether its result is put on the wire. */
  datatype Handler = Handler(finishes: Option<nat>, replies: bool)

  // ------------------------------------------------------------- closed form

  /** When the j-th wait window ends. */
  function WindowEnd(cfg: Config, j: nat): nat {
    cfg.first + j * cfg.again
  }

  /** How many windows end strictly before `limit`. */
  function Windows(cfg: Config, limit: nat): nat
    requires ValidConfig(cfg)
  {
    if limit <= cfg.first then 0 else (limit - cfg.first - 1) / cfg.again + 1
  }

  /** No window ends at or after this time: the handler is done or the socket is gone. */
  function Bound(h: Handler, horizon: nat): nat {
    if h.finishes.Some? && h.finishes.value < horizon then h.finishes.value + 1 else horizon
  }

  function PendingFrames(cfg: Config, k: nat): (frames: seq<Sent>)
    ensures |frames| == k
  {
    seq(k, (j: nat) => Sent(WindowEnd(cfg, j), Pending))
  }

  /** Everything sent for one request before `horizon`, the time the connection is
      torn down: k pending frames, then at most one last frame. */
  function Schedule(cfg: Config, h: Handler, horizon: nat): seq<Sent>
    requires ValidConfig(cfg)
  {
    var n := if cfg.automatic then Windows(cfg, Bound(h, horizon)) else 0;
    if cfg.cap > 0 && n > cfg.cap then
      PendingFrames(cfg, cfg.cap) + [Sent(WindowEnd(cfg, cfg.cap), GeneralReject)]
    else
      PendingFrames(cfg, n) + Answer(h, horizon)
  }

  function Answer(h: Handler, horizon: nat): seq<Sent> {
    if h.finishes.Some? && h.finishes.value < horizon && h.replies then [Sent(h.finishes.value, Reply)] else []
  }

  /** Windows ending before `limit` are exactly the first `Windows(cfg, limit)`. */
  lemma WindowsCount(cfg: Config, limit: nat, j: nat)
    requires ValidConfig(cfg)
    ensures j < Windows(cfg, limit) <==> WindowEnd(cfg, j) < limit
  {
    if limit > cfg.first {
      var d := limit - cfg.first - 1;
      QuotientBound(d, cfg.again, j);
    }
  }

  lemma QuotientBound(d: nat, a: nat, j: nat)
    requires a > 0
    ensures j <= d / a <==> j * a <= d
  {
    var q := d / a;
    assert q * a <= d < (q + 1) * a;
    if j <= q {
      MulMonotone(j, q, a);
    } else {
      MulMonotone(q + 1, j, a);
    }
  }

  lemma MulMonotone(x: nat, y: nat, a: nat)
    requires x <= y
    ensures x * a <= y * a
  {
    assert y * a - x * a == (y - x) * a;
  }

  // ------------------------------------------------------------------ the loop

  /** The loop as the code runs it.  A handler that finishes exactly when a window
      ends counts as still running. */
  method DispatchWithP2(cfg: Config, h: Handler, horizon: nat) returns (frames: seq<Sent>)
    requires ValidConfig(cfg)
    ensures frames == Schedule(cfg, h, horizon)
  {
    frames := [];
    if !cfg.automatic {
      return Answer(h, horizon);
    }
    ghost var n := Windows(cfg, Bound(h, horizon));
    var now, window := 0, cfg.first;
    var sent: nat := 0;
    while true
      invariant frames == PendingFrames(cfg, sent)
      invariant now + window == WindowEnd(cfg, sent) && window > 0
      invariant sent <= n && (cfg.cap > 0 ==> sent <= cfg.cap)
      decreases n - sent
    {
      WindowsCount(cfg, Bound(h, horizon), sent);
      var timer := now + window;
      if h.finishes.Some? && h.finishes.value < timer {
        if h.finishes.value < horizon {
          frames := frames + Answer(h, horizon);
        }
        return;
      }
      if timer >= horizon {
        return;  // the worker was cancelled first
      }
      if cfg.cap > 0 && sent >= cfg.cap {
        frames := frames + [Sent(timer, GeneralReject)];
        return;
      }
      frames := frames + [Sent(timer, Pending)];
      sent := sent + 1;
      NextWindow(cfg, sent);
      now, window := timer, cfg.again;
    }
  }

  lemma NextWindow(cfg: Config, j: nat)
    requires j > 0
    ensures WindowEnd(cfg, j) == WindowEnd(cfg, j - 1) + cfg.again
  {
    assert j * cfg.again == (j - 1) * cfg.again + cfg.again;
  }

  // ---------------------------------------------------------------- theorems

  /** ResponsePending is on and the handler still running when window `cap` ends. */
  ghost predicate GivesUp(cfg: Config, h: Handler) {
    cfg.automatic && cfg.cap > 0 && (h.finishes.None? || WindowEnd(cfg, cfg.cap) <= h.finishes.value)
  }

  /** ResponsePending arithmetic, in terms of the timers alone.  Pending frame `j` is
      sent, at the end of window `j`, exactly if it is automatic, that is before the
      teardown, the handler is still running and the cap is not used up; a reply is sent exactly if
      the handler finishes with one before the teardown and was not given up; NRC 0x10
      exactly if it was, at the end of window `cap`.  Either is the last frame. */
  lemma PendingArithmetic(cfg: Config, h: Handler, horizon: nat)
    requires ValidConfig(cfg)
    ensures var frames := Schedule(cfg, h, horizon);
            && (forall j: nat :: (j < |frames| && frames[j].kind.Pending?) <==>
                  cfg.automatic && WindowEnd(cfg, j) < Bound(h, horizon) && (cfg.cap > 0 ==> j < cfg.cap))
            && (forall j :: 0 <= j < |frames| && frames[j].kind.Pending? ==> frames[j].at == WindowEnd(cfg, j))
            && (forall j :: 0 <= j < |frames| && !frames[j].kind.Pending? ==> j == |frames| - 1)
            && (forall f :: f in frames && f.kind.Reply? ==> f == Sent(h.finishes.value, Reply))
            && ((exists f :: f in frames && f.kind.Reply?) <==>
                h.finishes.Some? && h.finishes.value < horizon && h.replies && !GivesUp(cfg, h))
            && (forall f :: f in frames && f.kind.GeneralReject? ==> f == Sent(WindowEnd(cfg, cfg.cap), GeneralReject))
            && ((exists f :: f in frames && f.kind.GeneralReject?) <==>
                GivesUp(cfg, h) && WindowEnd(cfg, cfg.cap) < horizon)
  {
    var n := if cfg.automatic then Windows(cfg, Bound(h, horizon)) else 0;
    var frames := Schedule(cfg, h, horizon);
    WindowsCount(cfg, Bound(h, horizon), cfg.cap);
    forall j: nat ensures j < n <==> cfg.automatic && WindowEnd(cfg, j) < Bound(h, horizon) {
      WindowsCount(cfg, Bound(h, horizon), j);
    }
    var k := if cfg.cap > 0 && n > cfg.cap then cfg.cap else n;
    assert forall j :: 0 <= j < k ==> frames[j] == Sent(WindowEnd(cfg, j), Pending);
    if |frames| > k {
      assert frames[k] in frames;
    }
  }

  /** The same times in the configuration's milliseconds: pending frame `j` goes out at
      P2 + j * 0.9 * P2*, in tenths of a millisecond. */
  lemma PendingTimes(p2: nat, p2Star: nat, cap: nat, h: Handler, horizon: nat, j: nat)
    requires p2 > 0 && p2Star > 0
    ensures var frames := Schedule(FromMilliseconds(true, p2, p2Star, cap), h, horizon);
            && (j < |frames| && frames[j].kind.Pending? ==> frames[j].at == 10 * p2 + 9 * j * p2Star)
            && (j < |frames| && frames[j].kind.GeneralReject? ==> j == cap && frames[j].at == 10 * p2 + 9 * cap * p2Star)
  {
    var cfg := FromMilliseconds(true, p2, p2Star, cap);
    PendingArithmetic(cfg, h, horizon);
    InTenths(p2, p2Star, cap, j);
    InTenths(p2, p2Star, cap, cap);
    var frames := Schedule(cfg, h, horizon);
    if j < |frames| {
      assert frames[j] in frames;
    }
  }

  lemma InTenths(p2: nat, p2Star: nat, cap: nat, j: nat)
    requires p2 > 0 && p2Star > 0
    ensures WindowEnd(FromMilliseconds(true, p2, p2Star, cap), j) == 10 * p2 + 9 * j * p2Star
  {
    assert j * (p2Star * 9) == 9 * j * p2Star;
  }
}
