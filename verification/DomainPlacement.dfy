/**
 Where every hart is, as every step keeps it, stopping and starting included: a
 hart is assigned to exactly its own domain, it is parked in a domain exactly
 while its context there waits, no other domain's context of it runs, and it has
 contexts only in domains it may run.
 */
module DomainPlacement {
  import opened Options
  import opened DomainModel

  /** Hart `h` against the domains' masks; its own context may wait in mid-switch. */
  ghost predicate Placed(c: Config, s: State, h: nat)
    requires Wf(c, s) && h < c.harts
  {
    var x := s.harts[h];
    && h in c.possible[x.dom]
    && (forall d :: 0 <= d < c.doms ==> (h in s.doms[d].runs <==> x.dom == d))
    && (forall d :: 0 <= d < c.doms ==> (h in s.doms[d].parked <==> Waits(x.ctx[d])))
    && (forall d :: 0 <= d < c.doms && x.ctx[d].phase.Running? ==> x.dom == d)
    && (forall d :: 0 <= d < c.doms && !x.ctx[d].phase.Never? ==> h in c.possible[d])
  }

  ghost predicate AllPlaced(c: Config, s: State) {
    && Wf(c, s)
    && (forall h :: 0 <= h < c.harts ==> Placed(c, s, h))
    && (forall d, h :: 0 <= d < c.doms && (h in s.doms[d].runs || h in s.doms[d].parked) ==> h < c.harts)
  }

  /** The invariant: placed, and no hart's own context waits. */
  ghost predicate Placement(c: Config, s: State) {
    && AllPlaced(c, s)
    && (forall h :: 0 <= h < c.harts ==> !Waits(s.harts[h].ctx[s.harts[h].dom]))
  }

  // ---- records that differ in nothing the masks depend on ---------------------

  ghost predicate SamePlace(x: Hart, y: Hart) {
    && x.dom == y.dom && |x.ctx| == |y.ctx|
    && (forall d :: 0 <= d < |x.ctx| ==> x.ctx[d].phase == y.ctx[d].phase)
  }

  ghost predicate SamePlaces(s: State, t: State) {
    && |s.harts| == |t.harts| && |s.doms| == |t.doms|
    && (forall h :: 0 <= h < |s.harts| ==> SamePlace(s.harts[h], t.harts[h]))
    && (forall d :: 0 <= d < |s.doms| ==> s.doms[d].runs == t.doms[d].runs && s.doms[d].parked == t.doms[d].parked)
  }

  lemma SamePlacesKeep(c: Config, s: State, t: State)
    requires AllPlaced(c, s) && Wf(c, t) && SamePlaces(s, t)
    ensures AllPlaced(c, t)
    ensures Placement(c, s) ==> Placement(c, t)
  {
    forall h | 0 <= h < c.harts ensures Placed(c, t, h) {
      assert Placed(c, s, h) && SamePlace(s.harts[h], t.harts[h]);
    }
  }

  // ---- the switch -----------------------------------------------------------------

  lemma ParkKeeps(c: Config, s: State, h: nat, phase: Phase, quiet: bool)
    requires Placement(c, s) && h < c.harts && (phase.Calling? || phase.Idle?)
    ensures var r := Park(c, s, h, phase, quiet);
            && AllPlaced(c, r)
            && (forall i :: 0 <= i < c.harts && i != h ==> r.harts[i] == s.harts[i])
            && r.harts[h].dom == s.harts[h].dom && r.harts[h].ctx[s.harts[h].dom].phase == phase
            && (forall d :: 0 <= d < c.doms && d != s.harts[h].dom ==> r.harts[h].ctx[d] == s.harts[h].ctx[d])
  {
    var r := Park(c, s, h, phase, quiet);
    forall i | 0 <= i < c.harts ensures Placed(c, r, i) {
      assert Placed(c, s, i);
    }
  }

  lemma RestoreKeeps(c: Config, s: State, h: nat, t: nat)
    requires AllPlaced(c, s) && h < c.harts && t < c.doms && h in c.possible[t]
    requires !s.harts[h].ctx[s.harts[h].dom].phase.Running?
    requires forall i :: 0 <= i < c.harts && i != h ==> !Waits(s.harts[i].ctx[s.harts[i].dom])
    ensures Placement(c, Restore(c, s, h, t))
  {
    var r := Restore(c, s, h, t);
    forall i | 0 <= i < c.harts ensures Placed(c, r, i) {
      assert Placed(c, s, i);
    }
  }

  lemma SwitchKeeps(c: Config, s: State, h: nat, t: nat, error: int, value: int)
    requires AllPlaced(c, s) && h < c.harts && t < c.doms && h in c.possible[t]
    requires !s.harts[h].ctx[s.harts[h].dom].phase.Running?
    requires forall i :: 0 <= i < c.harts && i != h ==> !Waits(s.harts[i].ctx[s.harts[i].dom])
    ensures Placement(c, Switch(c, s, h, t, error, value))
  {
    var prepared := Prepare(c, s, h, t, error, value);
    PrepareSame(c, s, h, t, error, value);
    SamePlacesKeep(c, s, prepared);
    RestoreKeeps(c, prepared, h, t);
    SwitchSame(c, s, h, t, error, value);
    SamePlacesKeep(c, Restore(c, prepared, h, t), Switch(c, s, h, t, error, value));
  }

  lemma PrepareSame(c: Config, s: State, h: nat, t: nat, error: int, value: int)
    requires Wf(c, s) && h < c.harts && t < c.doms
    ensures SamePlaces(s, Prepare(c, s, h, t, error, value))
  {
  }

  lemma SwitchSame(c: Config, s: State, h: nat, t: nat, error: int, value: int)
    requires Wf(c, s) && h < c.harts && t < c.doms
    ensures SamePlaces(Restore(c, Prepare(c, s, h, t, error, value), h, t), Switch(c, s, h, t, error, value))
  {
  }

  // ---- the moves ---------------------------------------------------------------------

  lemma EnterKeeps(c: Config, s: State, h: nat, t: nat, arg: int, quiet: bool)
    requires Placement(c, s) && h < c.harts && t < c.doms && t != s.harts[h].dom && h in c.possible[t]
    ensures Placement(c, Enter(c, s, h, t, arg, quiet))
  {
    ParkKeeps(c, s, h, Calling, quiet);
    var x := s.harts[h];
    var parked := Park(c, s, h, Calling, quiet);
    var y := parked.harts[h];
    var linked := SetHart(parked, h, y.(ctx := y.ctx[t := y.ctx[t].(caller := Some(x.dom))],
                                        log := y.log + [Entered(x.dom, x.live, quiet)]));
    SamePlacesKeep(c, parked, linked);
    SwitchKeeps(c, linked, h, t, SUCCESS, arg);
  }

  lemma LeaveKeeps(c: Config, s: State, h: nat, t: nat, value: int, quiet: bool)
    requires Placement(c, s) && h < c.harts && t < c.doms && t != s.harts[h].dom && h in c.possible[t]
    ensures Placement(c, Leave(c, s, h, t, value, quiet))
  {
    var x := s.harts[h];
    var back := CallerWaits(c, s, h, x.dom);
    var y := if back then x.(log := x.log + [Returned]) else x.(ctx := x.ctx[t := x.ctx[t].(caller := None)]);
    var z := y.(ctx := y.ctx[x.dom := y.ctx[x.dom].(caller := None)]);
    SamePlacesKeep(c, s, SetHart(s, h, z));
    ParkKeeps(c, SetHart(s, h, z), h, Idle, quiet);
    SwitchKeeps(c, Park(c, SetHart(s, h, z), h, Idle, quiet), h, t, SUCCESS, value);
  }

  lemma LeaveToPossible(c: Config, s: State, h: nat, quiet: bool, first: Option<nat>)
    requires Placement(c, s) && h < c.harts && LeaveTo(c, s, h, quiet, first).Some?
    ensures var t := LeaveTo(c, s, h, quiet, first).value;
            t < c.doms && t != s.harts[h].dom && h in c.possible[t]
  {
    assert Placed(c, s, h);
  }

  lemma GoneKeeps(c: Config, s: State, h: nat)
    requires Placement(c, s) && h < c.harts
    ensures var x := s.harts[h];
            Placement(c, SetHart(s, h, x.(ctx := x.ctx[x.dom := x.ctx[x.dom].(phase := Never, caller := None)])))
  {
    var x := s.harts[h];
    var r := SetHart(s, h, x.(ctx := x.ctx[x.dom := x.ctx[x.dom].(phase := Never, caller := None)]));
    forall i | 0 <= i < c.harts ensures Placed(c, r, i) {
      assert Placed(c, s, i);
    }
  }

  lemma StopSelfKeeps(c: Config, s: State, h: nat)
    requires Placement(c, s) && h < c.harts
    ensures Placement(c, StopSelfStep(c, s, h))
  {
    var x := s.harts[h];
    assert Placed(c, s, h);
    var gone := x.(ctx := x.ctx[x.dom := x.ctx[x.dom].(phase := Never, caller := None)]);
    var r := SetHart(s, h, gone);
    GoneKeeps(c, s, h);
    SamePlacesKeep(c, r, At(c, r, h, ForceStop));
    if CallerWaits(c, s, h, x.dom) {
      var back := SetHart(s, h, gone.(pc := Smode));
      SamePlacesKeep(c, r, back);
      SwitchKeeps(c, back, h, x.ctx[x.dom].caller.value, ERR_FAILED, 0);
    }
  }

  lemma RaiseKeeps(c: Config, s: State, d: nat)
    requires Placement(c, s) && d < c.doms
    ensures Placement(c, Raise(c, s, d))
  {
    var r := Raise(c, s, d);
    forall i | 0 <= i < c.harts ensures Placed(c, r, i) {
      assert Placed(c, s, i);
    }
  }

  lemma ForgetKeeps(c: Config, s: State, d: nat)
    requires Placement(c, s) && d < c.doms && s.doms[d].parked == {}
    ensures Placement(c, Forget(c, s, d))
  {
    var r := Forget(c, s, d);
    forall i | 0 <= i < c.harts ensures Placed(c, r, i) {
      assert Placed(c, s, i);
    }
  }

  lemma StartingKeeps(c: Config, s: State, h: nat)
    requires Placement(c, s) && h < c.harts && s.harts[h].pc.Starting?
    ensures Placement(c, HsmStep(c, s, h).value)
  {
    var r := HsmStep(c, s, h).value;
    forall i | 0 <= i < c.harts ensures Placed(c, r, i) {
      assert Placed(c, s, i);
    }
  }

  // ---- every step ------------------------------------------------------------------------

  lemma OtherCallsStay(c: Config, s: State, h: nat, a: Action)
    requires Wf(c, s) && h < c.harts && s.harts[h].pc.Smode? && Call(c, s, h, a).Some?
    requires !a.DomainEnter? && !a.DomainExit? && !a.Yield? && !a.DomainStart?
    ensures SamePlaces(s, Call(c, s, h, a).value)
  {
  }

  lemma OtherHsmStepsStay(c: Config, s: State, h: nat)
    requires Wf(c, s) && h < c.harts && !s.harts[h].pc.StopSelf? && !s.harts[h].pc.Starting? && HsmStep(c, s, h).Some?
    ensures SamePlaces(s, HsmStep(c, s, h).value)
  {
  }

  lemma BootStepsStay(c: Config, s: State, h: nat)
    requires Wf(c, s) && h < c.harts && BootStep(c, s, h).Some?
    ensures SamePlaces(s, BootStep(c, s, h).value)
  {
  }

  lemma StopStepKeeps(c: Config, s: State, h: nat)
    requires Placement(c, s) && h < c.harts && StopStep(c, s, h).Some?
    ensures Placement(c, StopStep(c, s, h).value)
  {
    var r := StopStep(c, s, h).value;
    if s.harts[h].pc.StopRaise? {
      RaiseKeeps(c, s, s.harts[h].pc.dom);
      SamePlacesKeep(c, Raise(c, s, s.harts[h].pc.dom), r);
    } else {
      SamePlacesKeep(c, s, r);
    }
  }

  lemma BridgeStepKeeps(c: Config, s: State, h: nat)
    requires Placement(c, s) && h < c.harts && BridgeStep(c, s, h).Some?
    ensures Placement(c, BridgeStep(c, s, h).value)
  {
    var idle := At(c, s, h, Smode);
    SamePlacesKeep(c, s, idle);
    match s.harts[h].pc
    case Sending(ch) =>
      var t := c.bridge[ch];
      if Enterable(c, s, h, t) && EnterRc(c, s, h, t, true).Ok? {
        EnterKeeps(c, idle, h, t, 0, true);
      } else {
        SamePlacesKeep(c, s, BridgeStep(c, s, h).value);
      }
    case Completing =>
      var told := Told(c, s, h, s.harts[h].live.regs.(a0 := SUCCESS, a1 := 8));
      SamePlacesKeep(c, s, told);
      if LeaveTo(c, s, h, true, None).Some? {
        LeaveToPossible(c, s, h, true, None);
        LeaveKeeps(c, told, h, LeaveTo(c, s, h, true, None).value, 0, true);
      }
  }

  lemma LeaveCallKeeps(c: Config, s: State, h: nat, a: Action)
    requires Placement(c, s) && h < c.harts && s.harts[h].pc.Smode?
    requires Call(c, s, h, a).Some? && (a.DomainExit? || a.Yield?)
    ensures Placement(c, Call(c, s, h, a).value)
  {
    var first := if a.Yield? then a.first else None;
    var to := LeaveTo(c, s, h, a.Yield?, first);
    if to.None? {
      SamePlacesKeep(c, s, Call(c, s, h, a).value);
    } else {
      LeaveToPossible(c, s, h, a.Yield?, first);
      if a.Yield? {
        var told := Told(c, s, h, Again(s.harts[h].live.regs));
        SamePlacesKeep(c, s, told);
        LeaveKeeps(c, told, h, to.value, 0, true);
      } else {
        LeaveKeeps(c, s, h, to.value, a.value, false);
      }
    }
  }

  lemma CallKeeps(c: Config, s: State, h: nat, a: Action)
    requires Placement(c, s) && h < c.harts && s.harts[h].pc.Smode? && Call(c, s, h, a).Some?
    ensures Placement(c, Call(c, s, h, a).value)
  {
    if a.DomainEnter? {
      EnterKeeps(c, s, h, a.target, a.arg, false);
    } else if a.DomainExit? || a.Yield? {
      LeaveCallKeeps(c, s, h, a);
    } else if a.DomainStart? {
      ForgetKeeps(c, s, a.dom);
      SamePlacesKeep(c, Forget(c, s, a.dom), Call(c, s, h, a).value);
    } else {
      OtherCallsStay(c, s, h, a);
      SamePlacesKeep(c, s, Call(c, s, h, a).value);
    }
  }

  lemma ProceedKeeps(c: Config, s: State, h: nat)
    requires Placement(c, s) && h < c.harts && Proceed(c, s, h).Some?
    ensures Placement(c, Proceed(c, s, h).value)
  {
    var pc := s.harts[h].pc;
    if Booting(pc) {
      BootStepsStay(c, s, h);
      SamePlacesKeep(c, s, BootStep(c, s, h).value);
    } else if Stopping(pc) {
      StopStepKeeps(c, s, h);
    } else if Bridging(pc) {
      BridgeStepKeeps(c, s, h);
    } else if pc.StopSelf? {
      StopSelfKeeps(c, s, h);
    } else if pc.Starting? {
      StartingKeeps(c, s, h);
    } else {
      OtherHsmStepsStay(c, s, h);
      SamePlacesKeep(c, s, HsmStep(c, s, h).value);
    }
  }

  lemma InitPlaced(c: Config, s: State)
    requires Init(c, s)
    ensures Placement(c, s)
  {
    forall h | 0 <= h < c.harts ensures Placed(c, s, h) {
      assert InitHart(c, h, s.harts[h]);
    }
  }

  lemma StepKeeps(c: Config, s: State, h: nat, a: Action)
    requires Placement(c, s) && Step(c, s, h, a).Some?
    ensures Placement(c, Step(c, s, h, a).value)
  {
    if a.Go? {
      ProceedKeeps(c, s, h);
    } else if a.Wake? {
      SamePlacesKeep(c, s, Step(c, s, h, a).value);
    } else {
      CallKeeps(c, s, h, a);
    }
  }

  /** In every state of every run, whatever the harts do. */
  lemma {:induction false} PlacementHolds(c: Config, run: seq<State>, moves: seq<Move>, i: nat)
    requires IsRun(c, run, moves) && i < |run|
    ensures Placement(c, run[i])
  {
    if i == 0 {
      InitPlaced(c, run[0]);
    } else {
      var k := i - 1;
      PlacementHolds(c, run, moves, k);
      assert Step(c, run[k], moves[k].hart, moves[k].action) == Some(run[k + 1]);
      StepKeeps(c, run[k], moves[k].hart, moves[k].action);
    }
  }
}
