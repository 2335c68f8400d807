/**
 A hart away from a domain: what it was there is kept for it, an interrupt sent to it there
 meanwhile is noted, and when it is back it finds the one and the other. With stops and starts
 of any domain in between.
 */
module DomainAway {
  import opened Options
  import opened DomainModel
  import opened DomainPlacement
  import opened DomainCalls
  import DomainMoves

  /** A hart of domain `d` interrupts hart `h`, which is away from there. */
  ghost predicate Interrupts(s: State, m: Move, h: nat, d: nat) {
    m.action == IpiParked(h) && m.hart < |s.harts| && s.harts[m.hart].dom == d
  }

  /** Of context `d`, while its hart is elsewhere: it is dropped, or all but the interrupt stays. */
  ghost predicate Kept(c: Config, x: Hart, z: Hart, d: nat, sent: bool)
    requires WfHart(c, x) && WfHart(c, z) && d < c.doms
  {
    && (!z.ctx[d].phase.Never? ==> z.ctx[d] == x.ctx[d].(ipi := x.ctx[d].ipi || sent))
    && (z.ctx[d].ipi ==> x.ctx[d].ipi || sent)
  }

  ghost predicate KeptAway(c: Config, x: Hart, z: Hart, d: nat)
    requires WfHart(c, x) && WfHart(c, z) && d < c.doms
  {
    x.dom != d && z.dom != d ==> Kept(c, x, z, d, false)
  }

  // ---- steps of the hart itself ------------------------------------------------------------

  lemma EnterKeeps(c: Config, s: State, h: nat, t: nat, arg: int, quiet: bool, d: nat)
    requires Wf(c, s) && h < c.harts && t < c.doms && t != s.harts[h].dom && d < c.doms
    ensures KeptAway(c, s.harts[h], Enter(c, s, h, t, arg, quiet).harts[h], d)
  {
    EnterRecord(c, s, h, t, arg, quiet);
  }

  lemma LeaveKeeps(c: Config, s: State, h: nat, t: nat, value: int, quiet: bool, d: nat)
    requires Wf(c, s) && h < c.harts && t < c.doms && t != s.harts[h].dom && d < c.doms
    ensures KeptAway(c, s.harts[h], Leave(c, s, h, t, value, quiet).harts[h], d)
  {
    LeaveRecord(c, s, h, t, value, quiet);
  }

  lemma LeaveCallKeeps(c: Config, s: State, h: nat, a: Action, r: State, d: nat)
    requires Placement(c, s) && h < c.harts && d < c.doms && s.harts[h].pc.Smode? && Call(c, s, h, a) == Some(r)
    requires a.DomainExit? || a.Yield?
    ensures KeptAway(c, s.harts[h], r.harts[h], d)
  {
    var first := if a.Yield? then a.first else None;
    var to := LeaveTo(c, s, h, a.Yield?, first);
    if to.Some? {
      LeaveToPossible(c, s, h, a.Yield?, first);
      if a.Yield? {
        LeaveKeeps(c, Told(c, s, h, Again(s.harts[h].live.regs)), h, to.value, 0, true, d);
      } else {
        LeaveKeeps(c, s, h, to.value, a.value, false, d);
      }
    } else {
      RefusedKeeps(c, s, h, a.Yield?, first, r, d);
    }
  }

  lemma RefusedKeeps(c: Config, s: State, h: nat, quiet: bool, first: Option<nat>, r: State, d: nat)
    requires Wf(c, s) && h < c.harts && d < c.doms && Refused(c, s, h, quiet, first) == Some(r)
    ensures KeptAway(c, s.harts[h], r.harts[h], d)
  {
  }

  lemma CallKeeps(c: Config, s: State, h: nat, a: Action, r: State, d: nat)
    requires Placement(c, s) && h < c.harts && d < c.doms && s.harts[h].pc.Smode? && Call(c, s, h, a) == Some(r)
    ensures KeptAway(c, s.harts[h], r.harts[h], d)
  {
    if a.DomainEnter? {
      EnterKeeps(c, s, h, a.target, a.arg, false, d);
    } else if a.DomainExit? || a.Yield? {
      LeaveCallKeeps(c, s, h, a, r, d);
    } else if a.DomainStart? {
      assert Forget(c, s, a.dom).harts[h] == Forgotten(s.harts[h], a.dom);
    }
  }

  lemma BridgeKeeps(c: Config, s: State, h: nat, r: State, d: nat)
    requires Placement(c, s) && h < c.harts && d < c.doms && BridgeStep(c, s, h) == Some(r)
    ensures KeptAway(c, s.harts[h], r.harts[h], d)
  {
    var x := s.harts[h];
    if x.pc.Sending? {
      var t := c.bridge[x.pc.chan];
      if t != x.dom {
        EnterKeeps(c, At(c, s, h, Smode), h, t, 0, true, d);
      }
    } else {
      var to := LeaveTo(c, s, h, true, None);
      if to.Some? {
        LeaveToPossible(c, s, h, true, None);
        LeaveKeeps(c, Told(c, s, h, x.live.regs.(a0 := SUCCESS, a1 := 8)), h, to.value, 0, true, d);
      }
    }
  }

  lemma StopKeeps(c: Config, s: State, g: nat, r: State, h: nat, d: nat)
    requires Wf(c, s) && g < c.harts && h < c.harts && d < c.doms && StopStep(c, s, g) == Some(r)
    ensures Kept(c, s.harts[h], r.harts[h], d, false)
  {
    if s.harts[g].pc.StopRaise? {
      assert Raise(c, s, s.harts[g].pc.dom).harts[h] == Dropped(s.harts[h], s.harts[g].pc.dom);
    }
  }

  lemma StopSelfKeeps(c: Config, s: State, h: nat, d: nat)
    requires Placement(c, s) && h < c.harts && d < c.doms
    ensures KeptAway(c, s.harts[h], StopSelfStep(c, s, h).harts[h], d)
  {
    var x := s.harts[h];
    if CallerWaits(c, s, h, x.dom) {
      var gone := x.(ctx := x.ctx[x.dom := x.ctx[x.dom].(phase := Never, caller := None)], pc := Smode);
      SwitchRecord(c, SetHart(s, h, gone), h, x.ctx[x.dom].caller.value, ERR_FAILED, 0);
    }
  }

  lemma OwnKeeps(c: Config, s: State, h: nat, a: Action, r: State, d: nat)
    requires Placement(c, s) && h < c.harts && d < c.doms && Step(c, s, h, a) == Some(r)
    ensures KeptAway(c, s.harts[h], r.harts[h], d)
  {
    var pc := s.harts[h].pc;
    if a.Go? {
      if Booting(pc) { }
      else if Stopping(pc) { StopKeeps(c, s, h, r, h, d); }
      else if Bridging(pc) { BridgeKeeps(c, s, h, r, d); }
      else if pc.StopSelf? { StopSelfKeeps(c, s, h, d); }
      else { }
    } else if !a.Wake? {
      CallKeeps(c, s, h, a, r, d);
    }
  }

  // ---- steps of the others -------------------------------------------------------------------

  lemma OthersCallKeeps(c: Config, s: State, g: nat, a: Action, r: State, h: nat, d: nat)
    requires Placement(c, s) && g < c.harts && s.harts[g].pc.Smode? && Call(c, s, g, a) == Some(r)
    requires h < c.harts && g != h && d < c.doms
    ensures Kept(c, s.harts[h], r.harts[h], d, Interrupts(s, Move(g, a), h, d))
  {
    if a.DomainEnter? {
      DomainMoves.EnterEnds(c, s, g, a.target, a.arg, false);
    } else if a.DomainExit? {
      DomainMoves.LeavePasses(c, s, g, a.value, r, h);
    } else if a.Yield? {
      DomainMoves.YieldPasses(c, s, g, a.first, r, h);
    } else if a.DomainStart? {
      assert Forget(c, s, a.dom).harts[h] == Forgotten(s.harts[h], a.dom);
    }
  }

  lemma OthersGoKeeps(c: Config, s: State, g: nat, r: State, h: nat, d: nat)
    requires Placement(c, s) && g < c.harts && Proceed(c, s, g) == Some(r) && h < c.harts && g != h && d < c.doms
    ensures Kept(c, s.harts[h], r.harts[h], d, false)
  {
    var pc := s.harts[g].pc;
    if Booting(pc) { }
    else if Stopping(pc) { StopKeeps(c, s, g, r, h, d); }
    else if Bridging(pc) { DomainMoves.BridgePasses(c, s, g, r, h); }
    else if pc.StopSelf? { DomainMoves.StopSelfPasses(c, s, g, h); }
    else { }
  }

  lemma OthersKeep(c: Config, s: State, m: Move, r: State, h: nat, d: nat)
    requires Placement(c, s) && Step(c, s, m.hart, m.action) == Some(r) && h < c.harts && m.hart != h && d < c.doms
    ensures Kept(c, s.harts[h], r.harts[h], d, Interrupts(s, m, h, d))
  {
    if m.action.Go? {
      OthersGoKeeps(c, s, m.hart, r, h, d);
    } else if !m.action.Wake? {
      OthersCallKeeps(c, s, m.hart, m.action, r, h, d);
    }
  }

  lemma StepKeeps(c: Config, s: State, m: Move, r: State, h: nat, d: nat)
    requires Placement(c, s) && Step(c, s, m.hart, m.action) == Some(r) && h < c.harts && d < c.doms
    requires s.harts[h].dom != d && r.harts[h].dom != d
    ensures Kept(c, s.harts[h], r.harts[h], d, Interrupts(s, m, h, d))
  {
    if m.hart == h {
      OwnKeeps(c, s, h, m.action, r, d);
    } else {
      OthersKeep(c, s, m, r, h, d);
    }
  }

  // ---- going and coming -----------------------------------------------------------------------

  /** The context a hart left with `left` as its state. */
  ghost predicate Parked(c: Config, h: nat, x: Hart, z: Hart, left: Live, quiet: bool)
    requires WfHart(c, x) && WfHart(c, z)
  {
    var ctx := z.ctx[x.dom];
    SavedAs(c, h, ctx.saved, left) && ctx.quiet == quiet && ctx.ipi == x.ctx[x.dom].ipi && Waits(ctx)
  }

  /** Hart `z` has taken over context `t` of `x`, and is handed (error, value) if that has called someone. */
  ghost predicate Picked(c: Config, h: nat, x: Hart, z: Hart, t: nat, error: int, value: int)
    requires WfHart(c, x) && WfHart(c, z) && t < c.doms
  {
    var ctx := x.ctx[t];
    && z.dom == t && !z.ctx[t].ipi
    && (!ctx.phase.Never? ==>
          z.live == Found(c, h, ctx.saved, ctx.quiet, ctx.ipi, !x.slots[t].state.Free?, error, value))
  }

  /** What a hart finds that had `saved` put away: a message's answer, (error, value), or its registers as they were. */
  function Found(c: Config, h: nat, saved: Live, quiet: bool, ipi: bool, answered: bool, error: int, value: int): Live {
    var regs := if answered then saved.regs.(a0 := 0, a1 := 8)
                else if quiet then saved.regs
                else saved.regs.(a0 := error, a1 := value);
    saved.(regs := regs, ssip := saved.ssip || ipi, vec := if h in c.vecFits then saved.vec else [])
  }

  lemma EnterMoves(c: Config, s: State, h: nat, t: nat, arg: int, quiet: bool)
    requires Wf(c, s) && h < c.harts && t < c.doms && t != s.harts[h].dom
    ensures var x, z := s.harts[h], Enter(c, s, h, t, arg, quiet).harts[h];
            Parked(c, h, x, z, x.live, quiet) && Picked(c, h, x, z, t, 0, arg)
  {
    EnterRecord(c, s, h, t, arg, quiet);
    SwitchClears(c, s, h, t, arg, quiet);
  }

  lemma SwitchClears(c: Config, s: State, h: nat, t: nat, arg: int, quiet: bool)
    requires Wf(c, s) && h < c.harts && t < c.doms
    ensures !Enter(c, s, h, t, arg, quiet).harts[h].ctx[t].ipi
  {
  }

  lemma LeaveMoves(c: Config, s: State, h: nat, t: nat, value: int, quiet: bool)
    requires Wf(c, s) && h < c.harts && t < c.doms && t != s.harts[h].dom
    ensures var x, z := s.harts[h], Leave(c, s, h, t, value, quiet).harts[h];
            Parked(c, h, x, z, x.live, quiet) && Picked(c, h, x, z, t, 0, value)
  {
    LeaveRecord(c, s, h, t, value, quiet);
    LeaveClears(c, s, h, t, value, quiet);
  }

  lemma LeaveClears(c: Config, s: State, h: nat, t: nat, value: int, quiet: bool)
    requires Wf(c, s) && h < c.harts && t < c.doms
    ensures !Leave(c, s, h, t, value, quiet).harts[h].ctx[t].ipi
  {
  }

  /** What a hart is left as by the step that takes it away: a yield is made again, a completion has its answer. */
  function LeftAs(x: Hart, a: Action): Live {
    var regs := x.live.regs;
    if a.Yield? then x.live.(regs := regs.(mepc := regs.mepc - 4))
    else if x.pc.Completing? then x.live.(regs := regs.(a0 := 0, a1 := 8))
    else x.live
  }

  /** What the step that brings it back hands over. */
  function Handed(a: Action): int {
    if a.DomainEnter? then a.arg else if a.DomainExit? then a.value else 0
  }

  /** A step that takes the hart from the domain of `x` to that of `z`. */
  ghost predicate Travels(c: Config, h: nat, x: Hart, z: Hart, a: Action)
    requires WfHart(c, x) && WfHart(c, z)
  {
    if x.pc.StopSelf? then z.ctx[x.dom].phase.Never? && Picked(c, h, x, z, z.dom, -1, 0)
    else Parked(c, h, x, z, LeftAs(x, a), a.Yield? || a.Go?) && Picked(c, h, x, z, z.dom, 0, Handed(a))
  }

  lemma CallTravels(c: Config, s: State, h: nat, a: Action, r: State)
    requires Placement(c, s) && h < c.harts && s.harts[h].pc.Smode? && Call(c, s, h, a) == Some(r)
    requires r.harts[h].dom != s.harts[h].dom && (a.DomainEnter? || a.DomainExit?)
    ensures Travels(c, h, s.harts[h], r.harts[h], a)
  {
    if a.DomainEnter? {
      EnterMoves(c, s, h, a.target, a.arg, false);
    } else {
      ExitTravels(c, s, h, a.value, r);
    }
  }

  lemma ExitTravels(c: Config, s: State, h: nat, value: int, r: State)
    requires Placement(c, s) && h < c.harts && s.harts[h].pc.Smode? && Call(c, s, h, DomainExit(value)) == Some(r)
    requires r.harts[h].dom != s.harts[h].dom
    ensures Travels(c, h, s.harts[h], r.harts[h], DomainExit(value))
  {
    var to := LeaveTo(c, s, h, false, None);
    if to.Some? {
      LeaveToPossible(c, s, h, false, None);
      LeaveMoves(c, s, h, to.value, value, false);
    }
  }

  lemma YieldTravels(c: Config, s: State, h: nat, first: Option<nat>, r: State)
    requires Placement(c, s) && h < c.harts && s.harts[h].pc.Smode? && Call(c, s, h, Yield(first)) == Some(r)
    requires r.harts[h].dom != s.harts[h].dom
    ensures Travels(c, h, s.harts[h], r.harts[h], Yield(first))
  {
    var to := LeaveTo(c, s, h, true, first);
    if to.Some? {
      LeaveToPossible(c, s, h, true, first);
      LeaveMoves(c, Told(c, s, h, Again(s.harts[h].live.regs)), h, to.value, 0, true);
    }
  }

  lemma SendingTravels(c: Config, s: State, h: nat, r: State)
    requires Wf(c, s) && h < c.harts && s.harts[h].pc.Sending? && BridgeStep(c, s, h) == Some(r)
    requires r.harts[h].dom != s.harts[h].dom
    ensures Travels(c, h, s.harts[h], r.harts[h], Go)
  {
    var t := c.bridge[s.harts[h].pc.chan];
    DomainMoves.SendingLeads(c, s, h, t);
    EnterMoves(c, At(c, s, h, Smode), h, t, 0, true);
  }

  lemma CompletingTravels(c: Config, s: State, h: nat, r: State)
    requires Placement(c, s) && h < c.harts && s.harts[h].pc.Completing? && BridgeStep(c, s, h) == Some(r)
    requires r.harts[h].dom != s.harts[h].dom
    ensures Travels(c, h, s.harts[h], r.harts[h], Go)
  {
    var to := LeaveTo(c, s, h, true, None);
    if to.Some? {
      LeaveToPossible(c, s, h, true, None);
      LeaveMoves(c, Told(c, s, h, s.harts[h].live.regs.(a0 := SUCCESS, a1 := 8)), h, to.value, 0, true);
    }
  }

  lemma StopSelfTravels(c: Config, s: State, h: nat)
    requires Placement(c, s) && h < c.harts && s.harts[h].pc.StopSelf?
    requires StopSelfStep(c, s, h).harts[h].dom != s.harts[h].dom
    ensures Travels(c, h, s.harts[h], StopSelfStep(c, s, h).harts[h], Go)
  {
    var x := s.harts[h];
    var t := x.ctx[x.dom].caller.value;
    var gone := x.(ctx := x.ctx[x.dom := x.ctx[x.dom].(phase := Never, caller := None)], pc := Smode);
    SwitchRecord(c, SetHart(s, h, gone), h, t, ERR_FAILED, 0);
    SwitchClearsIpi(c, SetHart(s, h, gone), h, t, ERR_FAILED, 0);
  }

  lemma SwitchClearsIpi(c: Config, s: State, h: nat, t: nat, error: int, value: int)
    requires Wf(c, s) && h < c.harts && t < c.doms
    ensures !Switch(c, s, h, t, error, value).harts[h].ctx[t].ipi
  {
  }

  lemma StepTravels(c: Config, s: State, h: nat, a: Action, r: State)
    requires Placement(c, s) && h < c.harts && Step(c, s, h, a) == Some(r) && r.harts[h].dom != s.harts[h].dom
    ensures Travels(c, h, s.harts[h], r.harts[h], a)
  {
    DomainMoves.MovesJustWhen(c, s, h, a, r.harts[h].dom);
    if a.DomainEnter? || a.DomainExit? { CallTravels(c, s, h, a, r); }
    else if a.Yield? { YieldTravels(c, s, h, a.first, r); }
    else if s.harts[h].pc.Sending? { SendingTravels(c, s, h, r); }
    else if s.harts[h].pc.Completing? { CompletingTravels(c, s, h, r); }
    else { StopSelfTravels(c, s, h); }
  }

  // ---- nothing is noted for a hart that is there --------------------------------------------------

  ghost predicate NoneNoted(x: Hart) {
    x.dom < |x.ctx| && !x.ctx[x.dom].ipi
  }

  lemma OwnCallNotes(c: Config, s: State, h: nat, a: Action, r: State)
    requires Wf(c, s) && h < c.harts && s.harts[h].pc.Smode? && Call(c, s, h, a) == Some(r)
    requires !a.DomainEnter? && !a.DomainExit? && !a.Yield? && NoneNoted(s.harts[h])
    ensures NoneNoted(r.harts[h])
  {
    if a.DomainStart? {
      assert Forget(c, s, a.dom).harts[h] == Forgotten(s.harts[h], a.dom);
    }
  }

  lemma StayNotes(c: Config, s: State, h: nat, a: Action, r: State)
    requires Placement(c, s) && h < c.harts && Step(c, s, h, a) == Some(r) && r.harts[h].dom == s.harts[h].dom
    requires NoneNoted(s.harts[h])
    ensures NoneNoted(r.harts[h])
  {
    var x := s.harts[h];
    if a.Go? {
      if Stopping(x.pc) { StopKeepsIpi(c, s, h, r); }
      else if x.pc.Sending? { DomainMoves.SendingLeads(c, s, h, c.bridge[x.pc.chan]); SendingNotes(c, s, h, r); }
      else if x.pc.Completing? { CompletingNotes(c, s, h, r); }
      else if x.pc.StopSelf? { DomainMoves.StopSelfLeads(c, s, h); StopSelfNotes(c, s, h); }
      else { }
    } else if a.DomainEnter? {
      EnterMoves(c, s, h, a.target, a.arg, false);
    } else if a.DomainExit? || a.Yield? {
      LeaveNotes(c, s, h, a, r);
    } else if !a.Wake? {
      OwnCallNotes(c, s, h, a, r);
    }
  }

  lemma StopKeepsIpi(c: Config, s: State, h: nat, r: State)
    requires Wf(c, s) && h < c.harts && StopStep(c, s, h) == Some(r) && NoneNoted(s.harts[h])
    ensures NoneNoted(r.harts[h])
  {
    if s.harts[h].pc.StopRaise? {
      assert Raise(c, s, s.harts[h].pc.dom).harts[h] == Dropped(s.harts[h], s.harts[h].pc.dom);
    }
  }

  lemma SendingNotes(c: Config, s: State, h: nat, r: State)
    requires Wf(c, s) && h < c.harts && s.harts[h].pc.Sending? && BridgeStep(c, s, h) == Some(r)
    requires NoneNoted(s.harts[h]) && r.harts[h].dom == s.harts[h].dom
    ensures NoneNoted(r.harts[h])
  {
    DomainMoves.SendingLeads(c, s, h, c.bridge[s.harts[h].pc.chan]);
  }

  lemma CompletingNotes(c: Config, s: State, h: nat, r: State)
    requires Placement(c, s) && h < c.harts && s.harts[h].pc.Completing? && BridgeStep(c, s, h) == Some(r)
    requires NoneNoted(s.harts[h]) && r.harts[h].dom == s.harts[h].dom
    ensures NoneNoted(r.harts[h])
  {
    DomainMoves.CompletingLeads(c, s, h);
    if LeaveTo(c, s, h, true, None).Some? {
      LeaveToPossible(c, s, h, true, None);
    }
  }

  lemma StopSelfNotes(c: Config, s: State, h: nat)
    requires Placement(c, s) && h < c.harts && s.harts[h].pc.StopSelf? && NoneNoted(s.harts[h])
    requires StopSelfStep(c, s, h).harts[h].dom == s.harts[h].dom
    ensures NoneNoted(StopSelfStep(c, s, h).harts[h])
  {
    DomainMoves.StopSelfLeads(c, s, h);
  }

  lemma LeaveNotes(c: Config, s: State, h: nat, a: Action, r: State)
    requires Placement(c, s) && h < c.harts && s.harts[h].pc.Smode? && Call(c, s, h, a) == Some(r)
    requires (a.DomainExit? || a.Yield?) && NoneNoted(s.harts[h]) && r.harts[h].dom == s.harts[h].dom
    ensures NoneNoted(r.harts[h])
  {
    var first := if a.Yield? then a.first else None;
    var to := LeaveTo(c, s, h, a.Yield?, first);
    if to.Some? {
      LeaveToPossible(c, s, h, a.Yield?, first);
      if a.Yield? {
        DomainMoves.ToldEnds(c, s, h, Again(s.harts[h].live.regs), to.value);
      } else {
        DomainMoves.LeaveEnds(c, s, h, to.value, a.value, false);
      }
    }
  }

  lemma StepNotes(c: Config, s: State, m: Move, r: State, h: nat)
    requires Placement(c, s) && Step(c, s, m.hart, m.action) == Some(r) && h < c.harts && NoneNoted(s.harts[h])
    ensures NoneNoted(r.harts[h])
  {
    if m.hart != h {
      DomainMoves.OthersPass(c, s, m.hart, m.action, r, h);
      OthersKeep(c, s, m, r, h, s.harts[h].dom);
    } else if r.harts[h].dom == s.harts[h].dom {
      StayNotes(c, s, h, m.action, r);
    } else {
      StepTravels(c, s, h, m.action, r);
    }
  }

  lemma RunNotes(c: Config, run: seq<State>, moves: seq<Move>, i: nat, h: nat)
    requires IsRun(c, run, moves) && i < |moves| && h < c.harts && NoneNoted(run[i].harts[h])
    ensures NoneNoted(run[i + 1].harts[h])
  {
    PlacementHolds(c, run, moves, i);
    assert Step(c, run[i], moves[i].hart, moves[i].action) == Some(run[i + 1]);
    StepNotes(c, run[i], moves[i], run[i + 1], h);
  }

  ghost predicate NoneNotedIn(s: State, h: nat) {
    h < |s.harts| && NoneNoted(s.harts[h])
  }

  lemma {:induction false} NoneNotedOn(run: seq<State>, i: nat, h: nat)
    requires i < |run| && NoneNotedIn(run[0], h)
    requires forall m :: 0 <= m < |run| - 1 && NoneNotedIn(run[m], h) ==> NoneNotedIn(run[m + 1], h)
    ensures NoneNotedIn(run[i], h)
  {
    if i > 0 {
      NoneNotedOn(run, i - 1, h);
    }
  }

  lemma NoneNotedHolds(c: Config, run: seq<State>, moves: seq<Move>, i: nat, h: nat)
    requires IsRun(c, run, moves) && i < |run| && h < c.harts
    ensures NoneNoted(run[i].harts[h])
  {
    assert InitHart(c, h, run[0].harts[h]);
    forall m | 0 <= m < |run| - 1 && NoneNotedIn(run[m], h) ensures NoneNotedIn(run[m + 1], h) {
      RunNotes(c, run, moves, m, h);
    }
    NoneNotedOn(run, i, h);
  }

  // ---- over a whole absence ---------------------------------------------------------------------------

  ghost predicate IsAway(run: seq<State>, i: nat, j: nat, h: nat, d: nat)
    requires i <= j < |run|
  {
    forall m :: i <= m <= j ==> h < |run[m].harts| && run[m].harts[h].dom != d
  }

  ghost predicate Interrupted(run: seq<State>, moves: seq<Move>, i: nat, j: nat, h: nat, d: nat)
    requires i <= j < |run| && |run| == |moves| + 1
  {
    exists m :: i <= m < j && Interrupts(run[m], moves[m], h, d)
  }

  lemma RunKeeps(c: Config, run: seq<State>, moves: seq<Move>, j: nat, h: nat, d: nat)
    requires IsRun(c, run, moves) && j < |moves| && h < c.harts && d < c.doms
    requires run[j].harts[h].dom != d && run[j + 1].harts[h].dom != d
    ensures Kept(c, run[j].harts[h], run[j + 1].harts[h], d, Interrupts(run[j], moves[j], h, d))
  {
    PlacementHolds(c, run, moves, j);
    assert Step(c, run[j], moves[j].hart, moves[j].action) == Some(run[j + 1]);
    StepKeeps(c, run[j], moves[j], run[j + 1], h, d);
  }

  lemma InterruptedMore(run: seq<State>, moves: seq<Move>, i: nat, j: nat, h: nat, d: nat)
    requires i <= j && j + 1 < |run| && |run| == |moves| + 1
    ensures Interrupted(run, moves, i, j + 1, h, d) <==>
            Interrupted(run, moves, i, j, h, d) || Interrupts(run[j], moves[j], h, d)
  {
    if m :| i <= m < j && Interrupts(run[m], moves[m], h, d) {
      assert Interrupts(run[m], moves[m], h, d);
    }
  }

  /** Context `d` of hart `h` from state `s` to state `r`: it is dropped, or stays but for the interrupt. */
  ghost predicate KeptBetween(s: State, r: State, h: nat, d: nat, sent: bool) {
    && h < |s.harts| && h < |r.harts| && d < |s.harts[h].ctx| && d < |r.harts[h].ctx|
    && var x, z := s.harts[h].ctx[d], r.harts[h].ctx[d];
       !z.phase.Never? ==> z == x.(ipi := x.ipi || sent)
  }

  ghost predicate KeepLink(run: seq<State>, moves: seq<Move>, m: nat, h: nat, d: nat)
    requires m < |moves| && |run| == |moves| + 1
  {
    KeptBetween(run[m], run[m + 1], h, d, Interrupts(run[m], moves[m], h, d))
  }

  lemma {:induction false} KeptThrough(run: seq<State>, moves: seq<Move>, i: nat, j: nat, h: nat, d: nat)
    requires |run| == |moves| + 1 && i <= j < |run| && h < |run[i].harts| && d < |run[i].harts[h].ctx|
    requires forall m :: i <= m < j ==> KeepLink(run, moves, m, h, d)
    ensures KeptBetween(run[i], run[j], h, d, Interrupted(run, moves, i, j, h, d))
  {
    if i < j {
      KeptThrough(run, moves, i, j - 1, h, d);
      assert KeepLink(run, moves, j - 1, h, d);
      InterruptedMore(run, moves, i, j - 1, h, d);
    }
  }

  /** While a hart is away its context is dropped, or stays but for the interrupt. */
  lemma AwayKeeps(c: Config, run: seq<State>, moves: seq<Move>, i: nat, j: nat, h: nat, d: nat)
    requires IsRun(c, run, moves) && i <= j < |run| && h < c.harts && d < c.doms && IsAway(run, i, j, h, d)
    ensures KeptBetween(run[i], run[j], h, d, Interrupted(run, moves, i, j, h, d))
  {
    forall m | i <= m < j ensures KeepLink(run, moves, m, h, d) {
      RunKeeps(c, run, moves, m, h, d);
    }
    KeptThrough(run, moves, i, j, h, d);
  }

  /**
   A hart leaves domain `d` in step `i` and is back there with step `j`, the first time since, and
   its context was not dropped meanwhile. It finds what it left, with the interrupt raised that was
   sent to it there while it was away, and with what is due to it in its registers: the answer of a
   message it sent, or what the step that brings it back hands over if it waits in a call.
   */
  lemma ComesBack(c: Config, run: seq<State>, moves: seq<Move>, i: nat, j: nat, h: nat, d: nat)
    requires IsRun(c, run, moves) && i < j < |moves| && h < c.harts && d < c.doms
    requires run[i].harts[h].dom == d && run[j + 1].harts[h].dom == d && IsAway(run, i + 1, j, h, d)
    requires !run[j].harts[h].ctx[d].phase.Never?
    ensures moves[i].hart == moves[j].hart == h && !run[i].harts[h].pc.StopSelf?
    ensures var x, y, a := run[i].harts[h], run[j].harts[h], moves[i].action;
            var error := if y.pc.StopSelf? then -1 else 0;
            run[j + 1].harts[h].live ==
            Found(c, h, LeftAs(x, a), a.Yield? || a.Go?, Interrupted(run, moves, i + 1, j, h, d),
                  !y.slots[d].state.Free?, error, if y.pc.StopSelf? then 0 else Handed(moves[j].action))
  {
    DepartsAs(c, run, moves, i, h);
    AwayKeeps(c, run, moves, i + 1, j, h, d);
    DepartsAs(c, run, moves, j, h);
  }

  lemma DepartsAs(c: Config, run: seq<State>, moves: seq<Move>, i: nat, h: nat)
    requires IsRun(c, run, moves) && i < |moves| && h < c.harts && run[i + 1].harts[h].dom != run[i].harts[h].dom
    ensures moves[i].hart == h && NoneNoted(run[i].harts[h])
    ensures Travels(c, h, run[i].harts[h], run[i + 1].harts[h], moves[i].action)
  {
    DomainMoves.MoveIsAllowed(c, run, moves, i, h);
    PlacementHolds(c, run, moves, i);
    NoneNotedHolds(c, run, moves, i, h);
    assert Step(c, run[i], moves[i].hart, moves[i].action) == Some(run[i + 1]);
    StepTravels(c, run[i], h, moves[i].action, run[i + 1]);
  }
}
