/** What every interleaving of the pump and the worker keeps. */
module PumpTheorems {
  import opened Common
  import opened PumpWorker

  // ------------------------------------------------------------- the invariant

  /** A frame the worker sends. */
  predicate FromWorker(o: Out) { o.kind.Interim? || o.kind.Final? }

  ghost function Count(log: seq<Out>, kind: Kind): nat {
    if log == [] then 0
    else Count(log[..|log| - 1], kind) + if log[|log| - 1].kind == kind then 1 else 0
  }

  lemma CountAppend(log: seq<Out>, o: Out, kind: Kind)
    ensures Count(log + [o], kind) == Count(log, kind) + if o.kind == kind then 1 else 0
  {
    assert (log + [o])[..|log|] == log;
  }

  /** The captured version and address are those of the request itself. */
  ghost predicate Faithful(requests: seq<Request>, q: Local, version: byte) {
    && q.id < |requests|
    && |requests[q.id].payload| >= 5
    && q.uds == requests[q.id].payload[4..]
    && version == requests[q.id].version
    && q.source == Source(requests[q.id])
  }

  /** A frame echoes the version and source address of the request it answers. */
  ghost predicate Echoes(requests: seq<Request>, o: Out) {
    && o.id < |requests|
    && o.version == requests[o.id].version
    && (|requests[o.id].payload| >= 5 ==> o.target == Source(requests[o.id]))
    && (o.kind.Busy? ==> |requests[o.id].payload| >= 5 && o.uds == [0x7F, requests[o.id].payload[4], BUSY_REPEAT_REQUEST])
  }

  ghost predicate Acked(log: seq<Out>, id: nat, upto: nat) {
    exists p :: 0 <= p < upto <= |log| && log[p].kind.Ack? && log[p].id == id
  }

  ghost predicate Increasing(s: seq<nat>) {
    forall i, j :: 0 <= i < j < |s| ==> s[i] < s[j]
  }

  function Ids(items: seq<Item>): (ids: seq<nat>)
    ensures |ids| == |items| && forall i :: 0 <= i < |items| ==> ids[i] == items[i].request.id
  {
    seq(|items|, i requires 0 <= i < |items| => items[i].request.id)
  }

  ghost predicate Items(c: Conn) {
    && |c.queue| <= QUEUE_MAX
    && (forall i :: 0 <= i < |c.queue| ==> Faithful(c.requests, c.queue[i].request, c.queue[i].version) && Acked(c.log, c.queue[i].request.id, |c.log|))
    && (c.worker.Some? ==> Faithful(c.requests, c.worker.value.request, c.worker.value.version) && Acked(c.log, c.worker.value.request.id, |c.log|))
    && (c.handing.Some? ==>
          && Faithful(c.requests, c.handing.value, c.version)
          && Acked(c.log, c.handing.value.id, |c.log|))
  }

  /** Everything handed to the worker, in order: taken, then waiting. */
  ghost predicate Order(c: Conn) {
    var line := c.dequeued + Ids(c.queue);
    && Increasing(line)
    && (forall i :: 0 <= i < |line| ==> line[i] < |c.requests|)
    && (c.handing.Some? ==> forall i :: 0 <= i < |line| ==> line[i] < c.handing.value.id)
    && (c.worker.Some? ==> c.dequeued != [] && c.dequeued[|c.dequeued| - 1] == c.worker.value.request.id)
  }

  ghost predicate Balance(c: Conn) {
    Count(c.log, Ack) == Count(c.log, Busy) + |c.dequeued| + |c.queue| + if c.handing.Some? then 1 else 0
  }

  /** `o` can still be followed by a frame of the running request only if it is not
      that request's last frame. */
  ghost predicate Past(c: Conn, o: Out) {
    FromWorker(o) ==>
      && o.id in c.dequeued && o.id <= c.dequeued[|c.dequeued| - 1]
      && (o.kind.Final? && c.worker.Some? ==> o.id < c.worker.value.request.id)
  }

  ghost predicate Sent(c: Conn) {
    forall p {:trigger Past(c, c.log[p])} :: 0 <= p < |c.log| ==>
      Echoes(c.requests, c.log[p]) && Past(c, c.log[p])
  }

  /** Acknowledged before answered, and answered in the order of the ACKs. */
  ghost predicate Ordered(log: seq<Out>) {
    && (forall q {:trigger Acked(log, log[q].id, q)} :: 0 <= q < |log| && (FromWorker(log[q]) || log[q].kind.Busy?) ==>
          Acked(log, log[q].id, q))
    && (forall p, q :: 0 <= p < q < |log| && FromWorker(log[p]) && FromWorker(log[q]) ==> InTurn(log[p], log[q]))
    && (forall p, q :: 0 <= p < q < |log| && log[p].kind.Ack? && log[q].kind.Ack? ==> log[p].id < log[q].id)
  }

  ghost predicate InTurn(first: Out, second: Out) {
    first.id <= second.id && (first.kind.Final? ==> first.id < second.id)
  }

  /** The connections in which every part of the invariant holds, as a set so that a
      proof carries `d in Good` along as one fact. */
  ghost const Good := iset c: Conn | Items(c) && Order(c) && Balance(c) && Sent(c) && Ordered(c.log)

  // ---------------------------------------------------------------- small lemmas

  /** Growing the requests and the log keeps what was known about old entries. */
  lemma AckedGrows(log: seq<Out>, o: Out, id: nat, upto: nat)
    requires Acked(log, id, upto)
    ensures Acked(log + [o], id, upto) && Acked(log + [o], id, |log| + 1)
  {
    var p :| 0 <= p < upto <= |log| && log[p].kind.Ack? && log[p].id == id;
    assert (log + [o])[p] == log[p];
  }

  lemma OrderedAppend(log: seq<Out>, o: Out)
    requires Ordered(log)
    requires FromWorker(o) || o.kind.Busy? ==> Acked(log, o.id, |log|)
    requires FromWorker(o) ==> forall p :: 0 <= p < |log| && FromWorker(log[p]) ==> InTurn(log[p], o)
    requires o.kind.Ack? ==> forall p :: 0 <= p < |log| && log[p].kind.Ack? ==> log[p].id < o.id
    ensures Ordered(log + [o])
  {
    var more := log + [o];
    forall q | 0 <= q < |more| && (FromWorker(more[q]) || more[q].kind.Busy?) ensures Acked(more, more[q].id, q) {
      if q < |log| {
        assert Acked(log, log[q].id, q);
        AckedGrows(log, o, log[q].id, q);
      } else {
        AckedGrows(log, o, o.id, |log|);
      }
    }
  }

  /** Items stay good when a frame is logged and nothing else about them changes. */
  lemma ItemsLogged(c: Conn, d: Conn, o: Out)
    requires Items(c) && d.log == c.log + [o] && d.queue == c.queue && d.worker == c.worker && d.handing == c.handing
    requires d.version == c.version && d.requests == c.requests
    ensures Items(d)
  {
    forall i | 0 <= i < |c.queue| ensures Acked(d.log, c.queue[i].request.id, |d.log|) {
      AckedGrows(c.log, o, c.queue[i].request.id, |c.log|);
    }
    if c.worker.Some? {
      AckedGrows(c.log, o, c.worker.value.request.id, |c.log|);
    }
    if c.handing.Some? {
      AckedGrows(c.log, o, c.handing.value.id, |c.log|);
    }
  }

  // ---------------------------------------------------------- preservation, by step

  lemma ReadItems(cfg: Config, c: Conn, q: Request)
    requires Items(c) && c.handing.None?
    ensures Items(ReadDiagnostic(cfg, c, q))
  {
    var d := ReadDiagnostic(cfg, c, q);
    var o := d.log[|c.log|];
    forall i | 0 <= i < |c.queue| ensures Faithful(d.requests, d.queue[i].request, d.queue[i].version) && Acked(d.log, d.queue[i].request.id, |d.log|) {
      assert Faithful(c.requests, c.queue[i].request, c.queue[i].version);
      AckedGrows(c.log, o, c.queue[i].request.id, |c.log|);
    }
    if c.worker.Some? {
      AckedGrows(c.log, o, c.worker.value.request.id, |c.log|);
    }
    if d.handing.Some? {
      assert d.log[|c.log|].kind.Ack?;
    }
  }

  lemma ReadKeeps(cfg: Config, c: Conn, q: Request)
    requires c in Good && c.handing.None?
    ensures ReadDiagnostic(cfg, c, q) in Good
  {
    var d := ReadDiagnostic(cfg, c, q);
    var o := Out(|c.requests|, Check(cfg, c.tester, q), q.version, if |q.payload| >= 5 then Source(q) else 0, []);
    assert d.log == c.log + [o];
    ReadItems(cfg, c, q);
    CountAppend(c.log, o, Ack);
    CountAppend(c.log, o, Busy);
    forall p | 0 <= p < |d.log| ensures Echoes(d.requests, d.log[p]) && Past(d, d.log[p]) {
      if p < |c.log| {
        assert Past(c, c.log[p]);
      }
    }
    forall p | 0 <= p < |c.log| ensures c.log[p].id < o.id {
      assert Past(c, c.log[p]);
    }
    OrderedAppend(c.log, o);
  }

  lemma EnqueueKeeps(c: Conn)
    requires c in Good && c.handing.Some? && |c.queue| < QUEUE_MAX
    ensures HandOver(c) in Good
  {
    var d := HandOver(c);
    assert d.dequeued + Ids(d.queue) == c.dequeued + Ids(c.queue) + [c.handing.value.id];
    SentKept(c, d);
  }

  lemma BusyKeeps(c: Conn)
    requires c in Good && c.handing.Some? && |c.queue| >= QUEUE_MAX
    ensures HandOver(c) in Good
  {
    var d := HandOver(c);
    var o := d.log[|c.log|];
    CountAppend(c.log, o, Ack);
    CountAppend(c.log, o, Busy);
    ItemsLogged(c.(handing := None), d, o);
    forall p | 0 <= p < |d.log| ensures Past(d, d.log[p]) && Echoes(d.requests, d.log[p]) {
      assert p < |c.log| ==> Past(c, c.log[p]);
    }
    OrderedAppend(c.log, o);
  }

  /** Frames already sent stay justified while log and requests are unchanged. */
  lemma SentKept(c: Conn, d: Conn)
    requires Sent(c) && d.log == c.log && d.requests == c.requests && d.dequeued == c.dequeued
    requires d.worker == c.worker || d.worker.None?
    ensures Sent(d)
  {
    forall p | 0 <= p < |d.log| ensures Past(d, d.log[p]) && Echoes(d.requests, d.log[p]) {
      assert Past(c, c.log[p]);
    }
  }

  lemma LineKept(c: Conn)
    requires c.queue != []
    ensures WorkerTake(c).dequeued + Ids(WorkerTake(c).queue) == c.dequeued + Ids(c.queue)
  {
    var head, tail := [c.queue[0].request.id], Ids(c.queue[1..]);
    assert Ids(c.queue) == head + tail by {
      forall i | 0 <= i < |c.queue| ensures Ids(c.queue)[i] == (head + tail)[i] {
        assert i > 0 ==> c.queue[1..][i - 1] == c.queue[i];
      }
    }
    Regroup(c.dequeued, head, tail);
  }

  lemma Regroup(a: seq<nat>, b: seq<nat>, c: seq<nat>)
    ensures (a + b) + c == a + (b + c)
  {
  }

  /** What the worker takes next comes after everything it took before. */
  lemma TakeOrder(c: Conn)
    requires Order(c) && c.queue != []
    ensures Order(WorkerTake(c))
    ensures forall id :: id in c.dequeued ==> id < c.queue[0].request.id
  {
    LineKept(c);
    var line := c.dequeued + Ids(c.queue);
    assert line[|c.dequeued|] == c.queue[0].request.id;
    forall i | 0 <= i < |c.dequeued| ensures c.dequeued[i] < c.queue[0].request.id {
      assert line[i] == c.dequeued[i];
    }
  }

  lemma TakeKeeps(c: Conn)
    requires c in Good && c.worker.None? && c.queue != []
    ensures WorkerTake(c) in Good
  {
    var d := WorkerTake(c);
    TakeOrder(c);
    forall p | 0 <= p < |d.log| ensures Past(d, d.log[p]) && Echoes(d.requests, d.log[p]) {
      assert Past(c, c.log[p]);
    }
  }

  lemma SendKeeps(c: Conn, uds: Bytes, last: bool)
    requires c in Good && c.worker.Some?
    ensures WorkerSend(c, uds, last) in Good
  {
    var d := WorkerSend(c, uds, last);
    var o := d.log[|c.log|];
    CountAppend(c.log, o, Ack);
    CountAppend(c.log, o, Busy);
    ItemsLogged(c, d.(worker := c.worker), o);
    forall p | 0 <= p < |d.log| ensures Past(d, d.log[p]) && Echoes(d.requests, d.log[p]) {
      assert p < |c.log| ==> Past(c, c.log[p]);
    }
    forall p | 0 <= p < |c.log| && FromWorker(c.log[p]) ensures InTurn(c.log[p], o) {
      assert Past(c, c.log[p]);
    }
    OrderedAppend(c.log, o);
  }

  lemma StepKeeps(cfg: Config, c: Conn, step: Step)
    requires c in Good && Enabled(c, step)
    ensures Apply(cfg, c, step) in Good
  {
    match step
    case Diagnostic(q) => ReadKeeps(cfg, c, q);
    case Enqueue =>
      if |c.queue| < QUEUE_MAX {
        EnqueueKeeps(c);
      } else {
        BusyKeeps(c);
      }
    case Take => TakeKeeps(c);
    case Send(uds, last) => SendKeeps(c, uds, last);
    case Other(version, activates) => SentKept(c, ReadOther(c, version, activates));
    case _ => SentKept(c, Apply(cfg, c, step));
  }

  lemma {:induction false} RunKeeps(cfg: Config, c: Conn, steps: seq<Step>, last: Conn)
    requires c in Good && Runs(cfg, c, steps, last)
    ensures last in Good
    decreases |steps|
  {
    if steps != [] {
      StepKeeps(cfg, c, steps[0]);
      RunKeeps(cfg, Apply(cfg, c, steps[0]), steps[1..], last);
    }
  }

  // ------------------------------------------------------------------- theorems

  /** Bounded queue and conservation: at most eight requests wait, an acknowledged
      request can always be handed over, and every hand-over ended as a busy reply, a
      request taken or a request waiting. */
  lemma PumpConservation(cfg: Config, steps: seq<Step>, c: Conn)
    requires Runs(cfg, New(), steps, c)
    ensures |c.queue| <= QUEUE_MAX
    ensures c.handing.Some? ==> Enabled(c, Enqueue)
    ensures Count(c.log, Ack) - (if c.handing.Some? then 1 else 0) == Count(c.log, Busy) + |c.dequeued| + |c.queue|
  {
    RunKeeps(cfg, New(), steps, c);
  }

  /** Every frame carries the version and tester address of its own request, although
      the pump's current version has moved on, and the worker runs the bytes of the
      request it answers. */
  lemma OwnVersionAndAddress(cfg: Config, steps: seq<Step>, c: Conn)
    requires Runs(cfg, New(), steps, c)
    ensures forall p :: 0 <= p < |c.log| ==> Echoes(c.requests, c.log[p])
    ensures c.worker.Some? ==> Faithful(c.requests, c.worker.value.request, c.worker.value.version)
  {
    RunKeeps(cfg, New(), steps, c);
    forall p | 0 <= p < |c.log| ensures Echoes(c.requests, c.log[p]) {
      assert Past(c, c.log[p]);
    }
  }

  /** Responses leave in ACK order: each after its own ACK, none after a last frame of
      the same or a later request. */
  lemma ResponsesInAckOrder(cfg: Config, steps: seq<Step>, c: Conn, p: nat, q: nat)
    requires Runs(cfg, New(), steps, c) && p < q < |c.log|
    requires FromWorker(c.log[q])
    ensures Acked(c.log, c.log[q].id, q)
    ensures FromWorker(c.log[p]) ==> c.log[p].id <= c.log[q].id && (c.log[p].kind.Final? ==> c.log[p].id < c.log[q].id)
    ensures forall a, b :: 0 <= a < b < |c.log| && c.log[a].kind.Ack? && c.log[b].kind.Ack? ==> c.log[a].id < c.log[b].id
  {
    RunKeeps(cfg, New(), steps, c);
    if FromWorker(c.log[p]) {
      assert InTurn(c.log[p], c.log[q]);
    }
  }

  /** Every Diagnostic Message, by its bytes: what is answered at once, whether the
      connection closes and what is handed on. */
  lemma AnswersExactly(cfg: Config, c: Conn, q: Request)
    requires Enabled(c, Diagnostic(q))
    ensures var d := Apply(cfg, c, Diagnostic(q));
            var p, id := q.payload, |c.requests|;
            var source := if |p| < 5 then 0 else 256 * (p[0] as int) + p[1];
            var target := if |p| < 5 then 0 else 256 * (p[2] as int) + p[3];
            var kind := if |p| < 5 then HeaderNack(0x04)
                        else if c.tester != Some(source) then Refused(0x02)
                        else if target != cfg.address && target != cfg.functional then Refused(0x03)
                        else if |p| - 4 > cfg.maxData then Refused(0x04)
                        else Ack;
            && d.log == c.log + [Out(id, kind, q.version, source, [])] && d.requests == c.requests + [q]
            && (d.reading <==> kind != Refused(0x02))
            && (d.handing.Some? <==> kind == Ack) && (kind == Ack ==> d.handing.value == Local(id, source, p[4..]))
            && d.queue == c.queue && d.worker == c.worker
  {
  }

  /** An acknowledged request waits if fewer than eight do, and is answered 0x21 if not. */
  lemma HandsOverExactly(cfg: Config, c: Conn)
    requires Enabled(c, Enqueue)
    ensures var d := Apply(cfg, c, Enqueue);
            var q := c.handing.value;
            && d.handing.None? && d.worker == c.worker && d.requests == c.requests
            && (|c.queue| < 8 ==> d.queue == c.queue + [Item(q, c.version)] && d.log == c.log)
            && (|c.queue| >= 8 ==>
                  d.queue == c.queue && d.log == c.log + [Out(q.id, Busy, c.version, q.source, [0x7F, q.uds[0], 0x21])])
  {
  }

  /** The worker takes the oldest waiting request and answers it with the handler's bytes. */
  lemma WorkerExactly(cfg: Config, c: Conn, uds: Bytes, last: bool)
    ensures Enabled(c, Take) ==>
              var d := Apply(cfg, c, Take); d.worker == Some(c.queue[0]) && d.queue == c.queue[1..] && d.log == c.log
    ensures Enabled(c, Send(uds, last)) ==>
              var d := Apply(cfg, c, Send(uds, last));
              var item := c.worker.value;
              && d.log == c.log + [Out(item.request.id, if last then Final else Interim, item.version, item.request.source, uds)]
              && (d.worker.None? <==> last) && d.queue == c.queue
  {
  }

  /** The first accepted activation binds the connection to its tester, and nothing later
      in a run changes that. */
  lemma TesterStays(cfg: Config, c: Conn, version: byte, sa: uint16, steps: seq<Step>, last: Conn)
    requires c.tester.None? && Enabled(c, Other(version, Some(sa)))
    requires Runs(cfg, Apply(cfg, c, Other(version, Some(sa))), steps, last)
    ensures last.tester == Some(sa)
  {
    BoundStays(cfg, Apply(cfg, c, Other(version, Some(sa))), steps, last);
  }

  lemma {:induction false} BoundStays(cfg: Config, c: Conn, steps: seq<Step>, last: Conn)
    requires Runs(cfg, c, steps, last) && c.tester.Some?
    ensures last.tester == c.tester
    decreases |steps|
  {
    if steps != [] {
      BoundStays(cfg, Apply(cfg, c, steps[0]), steps[1..], last);
    }
  }
}
