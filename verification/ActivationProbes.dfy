/** Alive probes: each keeps its own window and its own result. */
module ActivationProbes {
  import opened Common
  import opened Registry
  import opened Activation
  import opened ActivationInvariant
  import opened ActivationSteps

  // ------------------------------------------------------------ ending a probe

  /** `p` may end: it is the open probe of its target, or it never started. */
  ghost predicate MayEnd(w: World, p: ProbeId, alive: Option<bool>) {
    && p in w.probes && w.probes[p].target in w.sess && Running(w.probes[p].stage)
    && (alive.Some? && w.probes[p].stage.Queued? ==> w.sess[w.probes[p].target].probeOwner == None)
    && (alive.Some? && w.probes[p].stage.Queued? ==> !alive.value && Inactive(w, w.probes[p].target))
    && (alive.Some? && w.probes[p].stage.Sending? ==> !alive.value)
    && (alive.Some? && w.probes[p].stage.Awaiting? ==>
          (alive.value <==> w.sess[w.probes[p].target].signal.Answered? && !w.sess[w.probes[p].target].closing))
  }

  ghost predicate Inactive(w: World, s: SessionId) {
    s in w.sess ==> w.sess[s].closing || !w.sess[s].activated || w.sess[s].addr.None?
  }

  lemma EndFrame(w: World, p: ProbeId, alive: Option<bool>)
    requires p in w.probes && w.probes[p].target in w.sess
    ensures SameHandlers(w, EndProbe(w, p, alive)) && SameRoles(w, EndProbe(w, p, alive))
    ensures EndProbe(w, p, alive).reg == w.reg
  {
  }

  lemma EndOwnership(w: World, p: ProbeId, alive: Option<bool>)
    requires Ownership(w) && p in w.probes && w.probes[p].target in w.sess
    ensures Ownership(EndProbe(w, p, alive))
  {
    var v := EndProbe(w, p, alive);
    forall a ensures EntryOk(v, a) {
      assert EntryOk(w, a);
    }
    forall t ensures RegisteredIfActive(v, t) {
      assert RegisteredIfActive(w, t);
    }
  }

  lemma EndProbes(w: World, p: ProbeId, alive: Option<bool>)
    requires Probes(w) && MayEnd(w, p, alive)
    ensures Probes(EndProbe(w, p, alive))
  {
    var v := EndProbe(w, p, alive);
    var target := w.probes[p].target;
    assert ProbeOk(w, p) && SessionProbesOk(w, target);
    forall q | q in v.probes ensures ProbeOk(v, q) {
      assert ProbeOk(w, q);
    }
    forall t | t in v.sess ensures SessionProbesOk(v, t) {
      assert SessionProbesOk(w, t);
    }
  }

  /** A result is justified by what came in this probe's own window. */
  lemma EndIsJustified(w: World, p: ProbeId, alive: bool)
    requires History(w) && Ownership(w) && MayEnd(w, p, Some(alive)) && ProbeOk(w, p)
    ensures Justified(EndProbe(w, p, Some(alive)).log, |w.log|)
  {
    var probe := w.probes[p];
    var log := EndProbe(w, p, Some(alive)).log;
    assert log[..|w.log|] == w.log;
    if probe.stage.Awaiting? {
      WaitIsRight(w, p, alive);
    } else if probe.stage.Queued? {
      forall a ensures !OwnedAt(log, |w.log|, a, probe.target) {
        assert EntryOk(w, a);
      }
    }
  }

  lemma WaitIsRight(w: World, p: ProbeId, alive: bool)
    requires History(w) && Ownership(w) && MayEnd(w, p, Some(alive)) && ProbeOk(w, p) && w.probes[p].stage.Awaiting?
    ensures WaitedRightly(EndProbe(w, p, Some(alive)).log, |w.log|, w.probes[p].stage.at, p, w.probes[p].target, alive)
  {
    var probe := w.probes[p];
    var x := w.sess[probe.target];
    var n, j, a := |w.log|, probe.stage.at, x.addr.value;
    var log := EndProbe(w, p, Some(alive)).log;
    assert log[..n] == w.log;
    assert RegisteredIfActive(w, probe.target) && EntryOk(w, a);
    assert OwnedAt(log, n, a, probe.target) <==> !x.closing;
    if x.signal.Answered? {
      assert ReplyFrom(log[x.signal.at], probe.target, a);
    } else if !x.closing {
      forall k | j < k < n ensures !ReplyFrom(log[k], probe.target, a) {
        assert log[k] == w.log[k];
      }
    }
  }

  lemma EndKeeps(w: World, p: ProbeId, alive: Option<bool>)
    requires w in Good && MayEnd(w, p, alive)
    ensures EndProbe(w, p, alive) in Good
  {
    var v := EndProbe(w, p, alive);
    EndFrame(w, p, alive);
    EndOwnership(w, p, alive);
    LockingStill(w, v);
    DecisionsShrink(w, v);
    EndProbes(w, p, alive);
    if alive.Some? {
      assert ProbeOk(w, p);
      EndIsJustified(w, p, alive.value);
      AppendHistory(w.log, v.log[|w.log|]);
    }
  }

  // ---------------------------------------------------------- starting a probe

  lemma NewProbesKeep(w: World, s: SessionId, tasks: map<ProbeId, Address>)
    requires w in Good && tasks.Keys !! w.probes.Keys
    requires forall p :: p in tasks ==> tasks[p] in w.reg.sessions
    ensures NewProbes(w, s, tasks) in Good
  {
    var v := NewProbes(w, s, tasks);
    OwnershipFrame(w, v);
    LockingStill(w, v);
    DecisionsShrink(w, v);
    NewProbesOk(w, s, tasks);
  }

  lemma NewProbesOk(w: World, s: SessionId, tasks: map<ProbeId, Address>)
    requires Probes(w) && Ownership(w) && tasks.Keys !! w.probes.Keys
    requires forall p :: p in tasks ==> tasks[p] in w.reg.sessions
    ensures Probes(NewProbes(w, s, tasks))
  {
    var v := NewProbes(w, s, tasks);
    forall p | p in v.probes ensures ProbeOk(v, p) {
      if p in tasks {
        assert EntryOk(w, tasks[p]);
      } else {
        assert ProbeOk(w, p);
      }
    }
    forall t | t in v.sess ensures SessionProbesOk(v, t) {
      assert SessionProbesOk(w, t);
    }
  }

  lemma StartKeeps(w: World, p: ProbeId)
    requires w in Good && Enabled(w, ProbeStart(p))
    ensures Apply(w, ProbeStart(p)) in Good
  {
    var x := w.sess[w.probes[p].target];
    if x.closing || !x.activated || x.addr.None? {
      EndKeeps(w, p, Some(false));
    } else {
      var v := Apply(w, ProbeStart(p));
      StartFrame(w, p);
      LockingStill(w, v);
      DecisionsShrink(w, v);
      StartProbes(w, p);
      AppendHistory(w.log, Opened(p, w.probes[p].target, x.addr.value));
    }
  }

  lemma StartFrame(w: World, p: ProbeId)
    requires Ownership(w) && Enabled(w, ProbeStart(p))
    ensures Ownership(Apply(w, ProbeStart(p)))
    ensures SameHandlers(w, Apply(w, ProbeStart(p))) && SameRoles(w, Apply(w, ProbeStart(p)))
  {
    var v := Apply(w, ProbeStart(p));
    forall a ensures EntryOk(v, a) {
      assert EntryOk(w, a);
    }
    forall t ensures RegisteredIfActive(v, t) {
      assert RegisteredIfActive(w, t);
    }
  }

  lemma StartProbes(w: World, p: ProbeId)
    requires Probes(w) && Enabled(w, ProbeStart(p))
    requires w.sess[w.probes[p].target].activated && w.sess[w.probes[p].target].addr.Some?
    requires !w.sess[w.probes[p].target].closing
    ensures Probes(Apply(w, ProbeStart(p)))
  {
    var v := Apply(w, ProbeStart(p));
    assert SessionProbesOk(w, w.probes[p].target);
    forall q | q in v.probes ensures ProbeOk(v, q) {
      assert ProbeOk(w, q);
    }
    forall t | t in v.sess ensures SessionProbesOk(v, t) {
      assert SessionProbesOk(w, t);
    }
  }

  lemma SentKeeps(w: World, p: ProbeId)
    requires w in Good && Enabled(w, ProbeSent(p))
    ensures Apply(w, ProbeSent(p)) in Good
  {
    var v := Apply(w, ProbeSent(p));
    OwnershipFrame(w, v);
    LockingStill(w, v);
    DecisionsShrink(w, v);
    SentProbes(w, p);
  }

  lemma SentProbes(w: World, p: ProbeId)
    requires Probes(w) && Enabled(w, ProbeSent(p))
    ensures Probes(Apply(w, ProbeSent(p)))
  {
    var v := Apply(w, ProbeSent(p));
    forall q | q in v.probes ensures ProbeOk(v, q) {
      assert ProbeOk(w, q);
    }
    forall t | t in v.sess ensures SessionProbesOk(v, t) {
      assert SessionProbesOk(w, t);
    }
  }

  // ------------------------------------------------------------------ replies

  lemma ReplyKeeps(w: World, s: SessionId, payload: Bytes)
    requires w in Good && Enabled(w, AliveReply(s, payload))
    ensures Apply(w, AliveReply(s, payload)) in Good
  {
    var v := Apply(w, AliveReply(s, payload));
    if v != w {
      ReplyFrame(w, s, payload);
      LockingStill(w, v);
      DecisionsShrink(w, v);
      ReplyProbes(w, s, payload);
      AppendHistory(w.log, v.log[|w.log|]);
    }
  }

  lemma ReplyFrame(w: World, s: SessionId, payload: Bytes)
    requires Ownership(w) && Enabled(w, AliveReply(s, payload))
    ensures Ownership(Apply(w, AliveReply(s, payload)))
    ensures SameHandlers(w, Apply(w, AliveReply(s, payload))) && SameRoles(w, Apply(w, AliveReply(s, payload)))
  {
    var v := Apply(w, AliveReply(s, payload));
    forall a ensures EntryOk(v, a) {
      assert EntryOk(w, a);
    }
    forall t ensures RegisteredIfActive(v, t) {
      assert RegisteredIfActive(w, t);
    }
  }

  lemma ReplyProbes(w: World, s: SessionId, payload: Bytes)
    requires Probes(w) && Enabled(w, AliveReply(s, payload))
    ensures Probes(Apply(w, AliveReply(s, payload)))
  {
    var v := Apply(w, AliveReply(s, payload));
    assert SessionProbesOk(w, s);
    forall q | q in v.probes ensures ProbeOk(v, q) {
      assert ProbeOk(w, q);
      if Open(w.probes[q].stage) {
        ReplyOpen(w, s, payload, q);
      }
    }
    forall t | t in v.sess ensures SessionProbesOk(v, t) {
      assert SessionProbesOk(w, t);
    }
  }

  lemma ReplyOpen(w: World, s: SessionId, payload: Bytes, q: ProbeId)
    requires Enabled(w, AliveReply(s, payload)) && SessionProbesOk(w, s)
    requires q in w.probes && w.probes[q].target in w.sess && Open(w.probes[q].stage) && OpenProbe(w, q)
    ensures OpenProbe(AliveReplyStep(w, s, payload), q)
  {
    var v := AliveReplyStep(w, s, payload);
    assert forall i :: 0 <= i < |w.log| ==> v.log[i] == w.log[i];
  }
}
