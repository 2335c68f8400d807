/**
 A hart out of a domain that is stopped: where it goes, that it does not run there again
 before it is let in, and that only a stop sends it.
 */
module DomainLeave {
  import opened Options
  import opened DomainModel
  import opened DomainPlacement
  import DomainStop
  import DomainCalls
  import DomainMoves
  import DomainAway
  import DomainHsm

  /** Hart `k` moves to domain `d`, or is started there. */
  ghost predicate LetIn(s: State, r: State, k: nat, d: nat) {
    && k < |s.harts| && k < |r.harts| && r.harts[k].dom == d
    && (s.harts[k].dom != d || (s.harts[k].hsm.Stopped? && !r.harts[k].hsm.Stopped?))
  }

  /** The hart has nothing of domain `d` left: it is elsewhere, or stopped there but for a step or two. */
  predicate Gone(x: Hart, d: nat)
    requires d < |x.ctx|
  {
    && x.ctx[d].phase.Never?
    && (x.dom == d ==> x.pc.ForceStop? || x.pc.Halting? || (x.pc.Waiting? && x.hsm.Stopped?))
  }

  /** ... or is in domain_stop_self(). */
  predicate Going(x: Hart, d: nat)
    requires d < |x.ctx|
  {
    (x.dom == d && x.pc.StopSelf?) || Gone(x, d)
  }

  /** ... or at the end of a domain_stop() of its own domain. */
  predicate Ending(x: Hart, d: nat)
    requires d < |x.ctx|
  {
    (x.dom == d && x.pc == StopUnlock(d)) || Going(x, d)
  }

  // ---- where domain_stop_self() goes ------------------------------------------------------

  /**
   A hart that leaves a stopped domain keeps no context of it. If its caller waits it is back
   there, where the call has failed, with the rest as the call left it; else it is to stop.
   */
  ghost predicate SentOff(c: Config, h: nat, x: Hart, z: Hart)
    requires WfHart(c, x) && WfHart(c, z)
  {
    var caller := x.ctx[x.dom].caller;
    && z.ctx[x.dom].phase.Never? && z.ctx[x.dom].caller.None?
    && if caller.Some? && x.ctx[caller.value].phase.Calling? then
         var was := x.ctx[caller.value];
         && z.dom == caller.value && z.pc.Smode? && z.hsm == x.hsm
         && z.live.csrs == was.saved.csrs && z.live.timer == was.saved.timer && z.live.shmem == was.saved.shmem
         && (x.slots[caller.value].state.Free? ==>
               z.live.regs == if was.quiet then was.saved.regs else was.saved.regs.(a0 := -1, a1 := 0))
       else z.dom == x.dom && z.pc.ForceStop?
  }

  lemma StopSelfLeaves(c: Config, s: State, h: nat)
    requires Placement(c, s) && h < c.harts && s.harts[h].pc.StopSelf?
    ensures SentOff(c, h, s.harts[h], StopSelfStep(c, s, h).harts[h])
  {
    var x := s.harts[h];
    if CallerWaits(c, s, h, x.dom) {
      var t := x.ctx[x.dom].caller.value;
      var gone := x.(ctx := x.ctx[x.dom := x.ctx[x.dom].(phase := Never, caller := None)], pc := Smode);
      DomainCalls.SwitchRecord(c, SetHart(s, h, gone), h, t, ERR_FAILED, 0);
      HsmStays(c, SetHart(s, h, gone), h, t, ERR_FAILED, 0);
    }
  }

  lemma HsmStays(c: Config, s: State, h: nat, t: nat, error: int, value: int)
    requires Wf(c, s) && h < c.harts && t < c.doms && !s.harts[h].ctx[t].phase.Never?
    ensures Switch(c, s, h, t, error, value).harts[h].hsm == s.harts[h].hsm
  {
  }

  // ---- what every step keeps ----------------------------------------------------------------

  lemma OthersLeaveGone(c: Config, s: State, g: nat, a: Action, r: State, k: nat, d: nat)
    requires Placement(c, s) && Step(c, s, g, a) == Some(r) && k < c.harts && g != k && d < c.doms
    requires !LetIn(s, r, k, d)
    ensures Ending(s.harts[k], d) ==> Ending(r.harts[k], d)
    ensures Going(s.harts[k], d) ==> Going(r.harts[k], d)
    ensures Gone(s.harts[k], d) ==> Gone(r.harts[k], d)
  {
    DomainMoves.OthersPass(c, s, g, a, r, k);
    DomainAway.OthersKeep(c, s, Move(g, a), r, k, d);
  }

  lemma OwnGoes(c: Config, s: State, k: nat, a: Action, r: State, d: nat)
    requires DomainStop.StopInv(c, s) && Step(c, s, k, a) == Some(r) && k < c.harts && d < c.doms
    requires Ending(s.harts[k], d) && s.harts[k].dom == d
    ensures a.Go? && Going(r.harts[k], d)
    ensures Going(s.harts[k], d) ==> Gone(r.harts[k], d)
  {
    var x := s.harts[k];
    assert DomainStop.HsmOk(x);
    if x.pc.StopSelf? {
      StopSelfLeaves(c, s, k);
    }
  }

  /** With each step of its own the hart gets on, until it is gone, and nobody else's keeps it. */
  lemma StepGoes(c: Config, s: State, m: Move, r: State, k: nat, d: nat)
    requires DomainStop.StopInv(c, s) && Step(c, s, m.hart, m.action) == Some(r) && k < c.harts && d < c.doms
    requires Ending(s.harts[k], d) && !LetIn(s, r, k, d)
    ensures Ending(r.harts[k], d)
    ensures Going(s.harts[k], d) || m.hart == k ==> Going(r.harts[k], d)
    ensures Gone(s.harts[k], d) || (m.hart == k && Going(s.harts[k], d)) ==> Gone(r.harts[k], d)
    ensures m.hart == k && s.harts[k].dom == d ==> m.action.Go?
  {
    if m.hart != k {
      OthersLeaveGone(c, s, m.hart, m.action, r, k, d);
    } else if s.harts[k].dom == d {
      OwnGoes(c, s, k, m.action, r, d);
    } else {
      DomainAway.OwnKeeps(c, s, k, m.action, r, d);
    }
  }

  // ---- over runs ------------------------------------------------------------------------------

  ghost predicate NotLetIn(run: seq<State>, i: nat, j: nat, k: nat, d: nat)
    requires i <= j < |run|
  {
    forall m :: i <= m < j ==> !LetIn(run[m], run[m + 1], k, d)
  }

  lemma {:induction false} GoesOn(c: Config, run: seq<State>, moves: seq<Move>, i: nat, j: nat, k: nat, d: nat)
    requires IsRun(c, run, moves) && i <= j < |run| && k < c.harts && d < c.doms
    requires Ending(run[i].harts[k], d) && NotLetIn(run, i, j, k, d)
    ensures Ending(run[j].harts[k], d)
    ensures Going(run[i].harts[k], d) ==> Going(run[j].harts[k], d)
    ensures Gone(run[i].harts[k], d) ==> Gone(run[j].harts[k], d)
  {
    if i < j {
      var m := j - 1;
      GoesOn(c, run, moves, i, m, k, d);
      RunGoes(c, run, moves, m, k, d);
    }
  }

  lemma RunGoes(c: Config, run: seq<State>, moves: seq<Move>, m: nat, k: nat, d: nat)
    requires IsRun(c, run, moves) && m < |moves| && k < c.harts && d < c.doms
    requires Ending(run[m].harts[k], d) && !LetIn(run[m], run[m + 1], k, d)
    ensures var x, z := run[m].harts[k], run[m + 1].harts[k];
            && Ending(z, d)
            && (Going(x, d) || moves[m].hart == k ==> Going(z, d))
            && (Gone(x, d) || (moves[m].hart == k && Going(x, d)) ==> Gone(z, d))
            && (moves[m].hart == k && x.dom == d ==> moves[m].action.Go?)
  {
    DomainStop.StopInvHolds(c, run, moves, m);
    assert Step(c, run[m], moves[m].hart, moves[m].action) == Some(run[m + 1]);
    StepGoes(c, run[m], moves[m], run[m + 1], k, d);
  }

  /**
   A hart at the end of domain_stop() of its own domain `d`: until it is let into `d` again it makes
   no call from there; after two steps of its own it has no context of `d` any more, and is in
   another domain or on its way to STOPPED.
   */
  lemma OwnStopEnds(c: Config, run: seq<State>, moves: seq<Move>, i: nat, j: nat, k: nat, d: nat)
    requires IsRun(c, run, moves) && i <= j < |run| && k < c.harts && d < c.doms
    requires run[i].harts[k].pc == StopUnlock(d) && run[i].harts[k].dom == d && NotLetIn(run, i, j, k, d)
    ensures run[j].harts[k].dom == d ==> !run[j].harts[k].pc.Smode?
    ensures j < |moves| && moves[j].hart == k && run[j].harts[k].dom == d ==> moves[j].action.Go?
    ensures forall m, n :: i <= m < n < j && moves[m].hart == k && moves[n].hart == k ==> Gone(run[j].harts[k], d)
  {
    GoesOn(c, run, moves, i, j, k, d);
    forall m, n | i <= m < n < j && moves[m].hart == k && moves[n].hart == k ensures Gone(run[j].harts[k], d) {
      TwoSteps(c, run, moves, i, m, n, j, k, d);
    }
    if j < |moves| && moves[j].hart == k {
      DomainStop.StopInvHolds(c, run, moves, j);
      assert Step(c, run[j], moves[j].hart, moves[j].action) == Some(run[j + 1]);
      if run[j].harts[k].dom == d {
        OwnGoes(c, run[j], k, moves[j].action, run[j + 1], d);
      }
    }
  }

  lemma TwoSteps(c: Config, run: seq<State>, moves: seq<Move>, i: nat, m: nat, n: nat, j: nat, k: nat, d: nat)
    requires IsRun(c, run, moves) && i <= m < n < j < |run| && k < c.harts && d < c.doms
    requires Ending(run[i].harts[k], d) && NotLetIn(run, i, j, k, d) && moves[m].hart == k && moves[n].hart == k
    ensures Gone(run[j].harts[k], d)
  {
    GoesOn(c, run, moves, i, m, k, d);
    RunGoes(c, run, moves, m, k, d);
    GoesOn(c, run, moves, m + 1, n, k, d);
    RunGoes(c, run, moves, n, k, d);
    GoesOn(c, run, moves, n + 1, j, k, d);
  }

  /** Where that second step takes it, in every run. */
  lemma SelfStopLeaves(c: Config, run: seq<State>, moves: seq<Move>, i: nat, k: nat)
    requires IsRun(c, run, moves) && i < |moves| && k < c.harts && moves[i].hart == k && run[i].harts[k].pc.StopSelf?
    ensures SentOff(c, k, run[i].harts[k], run[i + 1].harts[k])
  {
    PlacementHolds(c, run, moves, i);
    assert Step(c, run[i], moves[i].hart, moves[i].action) == Some(run[i + 1]);
    StopSelfLeaves(c, run[i], k);
  }

  /** A hart on its way to STOPPED gets there, in the domain it is in. */
  lemma ForcedStops(c: Config, run: seq<State>, moves: seq<Move>, i: nat, k: nat)
    requires IsRun(c, run, moves) && i < |moves| && k < c.harts && moves[i].hart == k
    requires run[i].harts[k].pc.ForceStop? || run[i].harts[k].pc.Halting?
    ensures var x, z := run[i].harts[k], run[i + 1].harts[k];
            && z.dom == x.dom && z.ctx == x.ctx
            && if x.pc.ForceStop? then z.pc.Halting? && z.hsm.StopPending? else z.pc.Waiting? && z.hsm.Stopped?
  {
    assert Step(c, run[i], moves[i].hart, moves[i].action) == Some(run[i + 1]);
  }

  // ---- only a stop sends a hart off ------------------------------------------------------------

  /** The hart leaves a stopped domain, or has just stopped its own. */
  predicate Sending(x: Hart) {
    x.pc.StopSelf? || x.pc == StopUnlock(x.dom)
  }

  lemma NotSentAtFirst(c: Config, s: State, k: nat)
    requires Init(c, s) && k < c.harts
    ensures !Sending(s.harts[k])
  {
  }

  /** It finds the flag of its domain up, or has stopped that itself. */
  lemma SentStep(c: Config, s: State, h: nat, a: Action, r: State, k: nat)
    requires DomainStop.StopInv(c, s) && k < c.harts && Step(c, s, h, a) == Some(r) && Sending(r.harts[k])
    ensures r.harts[k].dom == s.harts[k].dom
    ensures s.doms[s.harts[k].dom].stopping || Sending(s.harts[k])
  {
    if h != k {
      DomainMoves.OthersPass(c, s, h, a, r, k);
    } else {
      DomainHsm.StepGoes(c, s, k, a, r);
      DomainHsm.StaysPut(c, s, k, a, r);
      if s.harts[k].pc == StopLower(s.harts[k].dom) {
        DomainStop.RaisedIsUp(c, s, k, s.harts[k].dom);
      }
    }
  }

  lemma SentBefore(c: Config, run: seq<State>, moves: seq<Move>, m: nat, k: nat)
    requires IsRun(c, run, moves) && m < |moves| && k < c.harts && Sending(run[m + 1].harts[k])
    ensures run[m + 1].harts[k].dom == run[m].harts[k].dom
    ensures run[m].doms[run[m].harts[k].dom].stopping || Sending(run[m].harts[k])
  {
    DomainStop.StopInvHolds(c, run, moves, m);
    assert Step(c, run[m], moves[m].hart, moves[m].action) == Some(run[m + 1]);
    SentStep(c, run[m], moves[m].hart, moves[m].action, run[m + 1], k);
  }

  /** Hart `k` is in domain `d` from state `m` to state `i`. */
  ghost predicate Stays(run: seq<State>, m: nat, i: nat, k: nat, d: nat)
    requires i < |run|
  {
    forall n :: m <= n <= i ==> k < |run[n].harts| && run[n].harts[k].dom == d
  }

  lemma StaysOn(run: seq<State>, m: nat, i: nat, k: nat, d: nat)
    requires i + 1 < |run| && Stays(run, m, i, k, d) && k < |run[i + 1].harts| && run[i + 1].harts[k].dom == d
    ensures Stays(run, m, i + 1, k, d)
  {
  }

  ghost predicate SentFrom(s: State, k: nat, d: nat) {
    k < |s.harts| && s.harts[k].dom == d && Sending(s.harts[k])
  }

  /** A hart that is sent off after step `m` was in its domain before, which was being stopped, or was sent off then. */
  ghost predicate SentLink(run: seq<State>, m: nat, k: nat, d: nat)
    requires m + 1 < |run|
  {
    SentFrom(run[m + 1], k, d) ==>
      && k < |run[m].harts| && run[m].harts[k].dom == d && d < |run[m].doms|
      && (run[m].doms[d].stopping || SentFrom(run[m], k, d))
  }

  lemma {:induction false} SentSince(run: seq<State>, i: nat, k: nat, d: nat) returns (m: nat)
    requires i < |run| && SentFrom(run[i], k, d) && !SentFrom(run[0], k, d)
    requires forall n :: 0 <= n < |run| - 1 ==> SentLink(run, n, k, d)
    ensures m < i && d < |run[m].doms| && run[m].doms[d].stopping && Stays(run, m, i, k, d)
  {
    m := i - 1;
    assert SentLink(run, m, k, d);
    if !run[m].doms[d].stopping {
      m := SentSince(run, i - 1, k, d);
    }
    StaysOn(run, m, i - 1, k, d);
  }

  /** In every run a hart that is sent off was in its domain since a moment when that was being stopped. */
  lemma OnlyStopsSend(c: Config, run: seq<State>, moves: seq<Move>, i: nat, k: nat, d: nat) returns (m: nat)
    requires IsRun(c, run, moves) && i < |run| && k < c.harts && d < c.doms
    requires run[i].harts[k].dom == d && Sending(run[i].harts[k])
    ensures m < i && run[m].doms[d].stopping && Stays(run, m, i, k, d)
  {
    NotSentAtFirst(c, run[0], k);
    forall n | 0 <= n < |run| - 1 ensures SentLink(run, n, k, d) {
      if SentFrom(run[n + 1], k, d) {
        SentBefore(c, run, moves, n, k);
      }
    }
    m := SentSince(run, i, k, d);
  }

  /** One that has stopped another domain is back in S-mode, as it was. */
  lemma OtherStopReturns(c: Config, run: seq<State>, moves: seq<Move>, i: nat, k: nat, d: nat)
    requires IsRun(c, run, moves) && i < |moves| && k < c.harts && moves[i].hart == k
    requires run[i].harts[k].pc == StopUnlock(d) && run[i].harts[k].dom != d
    ensures run[i + 1].harts[k] == run[i].harts[k].(pc := Smode) && run[i + 1].stopLock.None?
  {
    assert Step(c, run[i], moves[i].hart, moves[i].action) == Some(run[i + 1]);
  }
}
