/**
 The states of harts (hsm.c): which step changes the state kept of a hart, what a hart has passed
 before it runs S-mode again, and who asked for a start.
 */
module DomainHsm {
  import opened Options
  import opened DomainModel
  import opened DomainPlacement
  import DomainStop
  import DomainCalls
  import DomainMoves
  import DomainUp

  // ---- where a hart's own step takes it ----------------------------------------------------

  /** A hart comes out of a switch in S-mode, or has to stop. */
  predicate SwitchedTo(pc: Pc) { pc.Smode? || pc.ForceStop? }

  /** Hart `b` is asked to start hart `i`: of its own domain, or as the boot hart of a domain to be started. */
  ghost predicate Asked(c: Config, s: State, b: nat, a: Action, i: nat) {
    && Wf(c, s) && b < c.harts && s.harts[b].pc.Smode?
    && match a
       case HartStart(j) => j == i && i in s.doms[s.harts[b].dom].runs
       case DomainStart(d, seenRunning) =>
         && d < c.doms && c.bootHart[d] == i && i in s.doms[d].runs && c.entryOk[d]
         && !seenRunning && !s.doms[d].stopping && s.doms[d].parked == {}
       case _ => false
  }

  /** From S-mode, by call `a`. */
  ghost predicate CallLeads(c: Config, s: State, h: nat, a: Action, pc: Pc)
    requires Wf(c, s) && h < c.harts
  {
    var x := s.harts[h];
    match a
    case DomainEnter(_, _) => SwitchedTo(pc)
    case DomainExit(_) => SwitchedTo(pc)
    case Yield(_) => SwitchedTo(pc)
    case MmSend(ch, _, _) => pc == Sending(ch)
    case Complete(_, _) => pc.Completing?
    case HartStop => pc.Halting? && x.hsm.Started?
    case HartSuspend(ret) => pc == Suspending(ret) && x.hsm.Started?
    case StopCheck => pc.StopSelf? && s.doms[x.dom].stopping
    case HartStart(i) => pc == BootLock(i) && Asked(c, s, h, a, i)
    case DomainStart(d, _) => pc.BootLock? && Asked(c, s, h, a, pc.hart)
    case DomainStop(d) => pc == StopRaise(d) && s.stopLock.None?
    case _ => pc.Smode?
  }

  /** On with what the hart is in the middle of. */
  ghost predicate GoLeads(c: Config, s: State, h: nat, pc: Pc)
    requires Wf(c, s) && h < c.harts
  {
    var x := s.harts[h];
    match x.pc
    case Smode => false
    case Asleep(_) => false
    case Sending(_) => SwitchedTo(pc)
    case Completing => SwitchedTo(pc)
    case StopSelf => SwitchedTo(pc)
    case ForceStop => pc.Halting?
    case Halting => pc.Waiting?
    case Waiting => pc.Starting? && x.hsm.StartPending?
    case Starting => pc.StartCheck?
    case StartCheck => if s.doms[x.dom].stopping then pc.StopSelf? else pc.StartStore?
    case StartStore => pc.Smode?
    case Suspending(ret) => pc == Asleep(ret)
    case Waking(ret) =>
      if ret then pc.Resumed? else if s.doms[x.dom].stopping then pc.StopSelf? else pc.Starting?
    case Resumed => pc.Smode?
    case BootLock(i) => pc == BootLoad(i) && s.startLock.None?
    case BootLoad(i) => pc == BootCheck(i, s.harts[i].hsm)
    case BootCheck(i, seen) =>
      pc == if seen.Stopped? && !s.doms[s.harts[i].dom].stopping then BootStore(i) else BootUnlock(i)
    case BootStore(i) => pc == BootUnlock(i)
    case BootUnlock(_) => pc.Smode?
    case StopUnlock(d) => if d == x.dom then pc.StopSelf? else pc.Smode?
    case StopRaise(d) => pc == StopBarrier(d)
    case StopLower(d) => pc == StopUnlock(d)
    case _ => Stopping(pc) && !pc.StopRaise? && !pc.StopUnlock?
  }

  ghost predicate Leads(c: Config, s: State, h: nat, a: Action, pc: Pc)
    requires Wf(c, s) && h < c.harts
  {
    var p := s.harts[h].pc;
    if a.Go? then GoLeads(c, s, h, pc)
    else if a.Wake? then p.Asleep? && pc == Waking(p.retentive)
    else p.Smode? && CallLeads(c, s, h, a, pc)
  }

  lemma CallGoes(c: Config, s: State, h: nat, a: Action, r: State)
    requires Wf(c, s) && h < c.harts && s.harts[h].pc.Smode? && Call(c, s, h, a) == Some(r)
    ensures CallLeads(c, s, h, a, r.harts[h].pc)
  {
    if a.DomainEnter? {
      DomainUp.EnterCarries(c, s, h, a.target, a.arg, false);
    } else if a.DomainExit? {
      DomainUp.ExitCarries(c, s, h, a.value);
    } else if a.Yield? {
      DomainUp.YieldCarries(c, s, h, a.first, r);
    } else if a.DomainStart? {
      assert r.harts[h].pc == BootLock(c.bootHart[a.dom]);
    }
  }

  lemma GoGoes(c: Config, s: State, h: nat, r: State)
    requires Placement(c, s) && h < c.harts && Proceed(c, s, h) == Some(r)
    ensures GoLeads(c, s, h, r.harts[h].pc)
  {
    var pc := s.harts[h].pc;
    if pc.Sending? { DomainUp.SendingCarries(c, s, h); }
    else if pc.Completing? { DomainUp.CompletingCarries(c, s, h, r); }
    else if pc.StopSelf? { DomainUp.StopSelfWhere(c, s, h); }
    else if pc.StopRaise? { RaiseGoes(c, s, h, r); }
    else { }
  }

  lemma RaiseGoes(c: Config, s: State, h: nat, r: State)
    requires Wf(c, s) && h < c.harts && s.harts[h].pc.StopRaise? && StopStep(c, s, h) == Some(r)
    ensures r.harts[h].pc == StopBarrier(s.harts[h].pc.dom)
  {
    DomainStop.RaiseSame(c, s, h, s.harts[h].pc.dom);
  }

  lemma StepGoes(c: Config, s: State, h: nat, a: Action, r: State)
    requires Placement(c, s) && h < c.harts && Step(c, s, h, a) == Some(r)
    ensures Leads(c, s, h, a, r.harts[h].pc)
  {
    if a.Go? {
      GoGoes(c, s, h, r);
    } else if !a.Wake? {
      CallGoes(c, s, h, a, r);
    }
  }

  /** Only a switch takes a hart to another domain. */
  lemma StaysPut(c: Config, s: State, h: nat, a: Action, r: State)
    requires Placement(c, s) && h < c.harts && Step(c, s, h, a) == Some(r) && !SwitchedTo(r.harts[h].pc)
    ensures r.harts[h].dom == s.harts[h].dom
  {
    StepGoes(c, s, h, a, r);
    if r.harts[h].dom != s.harts[h].dom {
      DomainMoves.MovesJustWhen(c, s, h, a, r.harts[h].dom);
    }
  }

  /** A start is made just when it may be asked for. */
  lemma StartJustWhen(c: Config, s: State, h: nat, a: Action, i: nat)
    requires Placement(c, s) && h < c.harts && s.harts[h].pc.Smode? && (a.HartStart? || a.DomainStart?)
    requires a.HartStart? ==> i == a.hart
    requires a.DomainStart? && a.dom < c.doms ==> i == c.bootHart[a.dom] || c.bootHart[a.dom] < 0
    ensures Step(c, s, h, a).Some? <==> Asked(c, s, h, a, i)
  {
  }

  /** What the other calls ask for, moves and messages aside. */
  ghost predicate MayCall(c: Config, s: State, h: nat, a: Action)
    requires Wf(c, s) && h < c.harts
  {
    var x := s.harts[h];
    match a
    case IpiParked(i) => i < c.harts && s.harts[i].dom != x.dom && !s.harts[i].ctx[x.dom].phase.Never?
    case HartStop => x.hsm.Started?
    case HartSuspend(_) => x.hsm.Started?
    case StopCheck => s.doms[x.dom].stopping
    case DomainStop(d) => d < c.doms && s.stopLock.None?
    case _ => true
  }

  lemma CallJustWhen(c: Config, s: State, h: nat, a: Action)
    requires Wf(c, s) && h < c.harts && s.harts[h].pc.Smode?
    requires a.Software? || a.IpiParked? || a.HartStop? || a.HartSuspend? || a.StopCheck? || a.DomainStop?
    ensures Step(c, s, h, a).Some? <==> MayCall(c, s, h, a)
  {
  }

  /** A hart in the middle of something goes on, unless it is stopped, asleep or waits for a start to be over. */
  lemma GoesOn(c: Config, s: State, h: nat)
    requires Wf(c, s) && h < c.harts && !s.harts[h].pc.Smode?
    ensures var pc := s.harts[h].pc;
            Step(c, s, h, Go).None? <==>
            || pc.Asleep? || (pc.Waiting? && !s.harts[h].hsm.StartPending?)
            || ((pc.BootLock? || pc.StopBarrier?) && s.startLock.Some?)
    ensures Step(c, s, h, Wake).Some? <==> s.harts[h].pc.Asleep?
  {
  }

  // ---- what is kept of a hart's state --------------------------------------------------------

  /** The step that changes the state of hart `h`, by the state it is in then. */
  ghost predicate Changed(s: State, m: Move, r: State, h: nat)
    requires h < |s.harts| && h < |r.harts| && m.hart < |s.harts|
  {
    var x, z := s.harts[h], r.harts[h];
    if m.hart != h then x.hsm.Stopped? && z.hsm.StartPending? && s.harts[m.hart].pc == BootStore(h)
    else
      match z.hsm
      case Started => (x.pc.StartStore? || x.pc.Resumed?) && z.pc.Smode?
      case StopPending =>
        || (x.pc.Smode? && m.action.HartStop? && x.hsm.Started? && z.pc.Halting?)
        || (x.pc.ForceStop? && z.pc.Halting?) || (z.dom != x.dom && z.pc.ForceStop?)
      case Stopped => x.pc.Halting? && z.pc.Waiting?
      case SuspendPending => x.pc.Smode? && m.action.HartSuspend? && x.hsm.Started? && z.pc.Suspending?
      case Suspended => x.pc.Suspending? && z.pc.Asleep?
      case ResumePending => x.pc.Waking? && (z.pc.Resumed? || z.pc.Starting?)
      case StartPending => false
  }

  /** A switch leaves the state of a hart alone, or it is to stop in another domain. */
  ghost predicate SwitchState(x: Hart, z: Hart) {
    z.hsm == x.hsm || (z.hsm.StopPending? && z.dom != x.dom && z.pc.ForceStop?)
  }

  lemma SwitchKeepsState(c: Config, s: State, h: nat, t: nat, error: int, value: int)
    requires Wf(c, s) && h < c.harts && t < c.doms && t != s.harts[h].dom
    ensures SwitchState(s.harts[h], Switch(c, s, h, t, error, value).harts[h])
  {
  }

  lemma EnterKeepsState(c: Config, s: State, h: nat, t: nat, arg: int, quiet: bool)
    requires Wf(c, s) && h < c.harts && t < c.doms && t != s.harts[h].dom
    ensures SwitchState(s.harts[h], Enter(c, s, h, t, arg, quiet).harts[h])
  {
    var x := s.harts[h];
    var parked := Park(c, s, h, Calling, quiet);
    var y := parked.harts[h];
    var linked := SetHart(parked, h, y.(ctx := y.ctx[t := y.ctx[t].(caller := Some(x.dom))],
                                        log := y.log + [Entered(x.dom, x.live, quiet)]));
    SwitchKeepsState(c, linked, h, t, SUCCESS, arg);
  }

  lemma LeaveKeepsState(c: Config, s: State, h: nat, t: nat, value: int, quiet: bool)
    requires Wf(c, s) && h < c.harts && t < c.doms && t != s.harts[h].dom
    ensures SwitchState(s.harts[h], Leave(c, s, h, t, value, quiet).harts[h])
  {
    var x := s.harts[h];
    var back := CallerWaits(c, s, h, x.dom);
    var y := if back then x.(log := x.log + [Returned]) else x.(ctx := x.ctx[t := x.ctx[t].(caller := None)]);
    var z := y.(ctx := y.ctx[x.dom := y.ctx[x.dom].(caller := None)]);
    SwitchKeepsState(c, Park(c, SetHart(s, h, z), h, Idle, quiet), h, t, SUCCESS, value);
  }

  lemma MoveKeepsState(c: Config, s: State, h: nat, a: Action, r: State)
    requires Placement(c, s) && h < c.harts && s.harts[h].pc.Smode? && Call(c, s, h, a) == Some(r)
    requires a.DomainEnter? || a.DomainExit? || a.Yield?
    ensures SwitchState(s.harts[h], r.harts[h])
  {
    if a.DomainEnter? {
      EnterKeepsState(c, s, h, a.target, a.arg, false);
    } else {
      LeavesState(c, s, h, a, r);
    }
  }

  lemma LeavesState(c: Config, s: State, h: nat, a: Action, r: State)
    requires Placement(c, s) && h < c.harts && s.harts[h].pc.Smode? && Call(c, s, h, a) == Some(r)
    requires a.DomainExit? || a.Yield?
    ensures SwitchState(s.harts[h], r.harts[h])
  {
    var first := if a.Yield? then a.first else None;
    var to := LeaveTo(c, s, h, a.Yield?, first);
    if to.Some? {
      LeaveToPossible(c, s, h, a.Yield?, first);
      if a.Yield? {
        LeaveKeepsState(c, Told(c, s, h, Again(s.harts[h].live.regs)), h, to.value, 0, true);
      } else {
        LeaveKeepsState(c, s, h, to.value, a.value, false);
      }
    }
  }

  lemma BridgeKeepsState(c: Config, s: State, h: nat, r: State)
    requires Placement(c, s) && h < c.harts && BridgeStep(c, s, h) == Some(r)
    ensures SwitchState(s.harts[h], r.harts[h])
  {
    var x := s.harts[h];
    if x.pc.Sending? {
      var t := c.bridge[x.pc.chan];
      if t != x.dom {
        EnterKeepsState(c, At(c, s, h, Smode), h, t, 0, true);
      }
    } else {
      var to := LeaveTo(c, s, h, true, None);
      if to.Some? {
        LeaveToPossible(c, s, h, true, None);
        LeaveKeepsState(c, Told(c, s, h, x.live.regs.(a0 := SUCCESS, a1 := 8)), h, to.value, 0, true);
      }
    }
  }

  lemma StopSelfKeepsState(c: Config, s: State, h: nat)
    requires Placement(c, s) && h < c.harts
    ensures StopSelfStep(c, s, h).harts[h].hsm == s.harts[h].hsm
  {
  }

  ghost predicate SameOrChanged(s: State, m: Move, r: State, h: nat)
    requires h < |s.harts| && h < |r.harts| && m.hart < |s.harts|
  {
    r.harts[h].hsm == s.harts[h].hsm || Changed(s, m, r, h)
  }

  lemma OwnGoChanges(c: Config, s: State, h: nat, r: State)
    requires DomainStop.StopInv(c, s) && h < c.harts && Proceed(c, s, h) == Some(r)
    ensures SameOrChanged(s, Move(h, Go), r, h)
  {
    var x := s.harts[h];
    if Booting(x.pc) { OwnBootKeepsState(c, s, h, r); }
    else if Stopping(x.pc) { StopKeepsState(c, s, h, r); }
    else if Bridging(x.pc) { BridgeKeepsState(c, s, h, r); }
    else if x.pc.StopSelf? { StopSelfKeepsState(c, s, h); }
    else { HsmChanges(c, s, h, r); }
  }

  lemma OwnBootKeepsState(c: Config, s: State, h: nat, r: State)
    requires DomainStop.StopInv(c, s) && h < c.harts && Booting(s.harts[h].pc) && BootStep(c, s, h) == Some(r)
    ensures r.harts[h].hsm == s.harts[h].hsm
  {
    assert DomainStop.BootOk(c, s, h) && DomainStop.HsmOk(s.harts[h]);
  }

  lemma HsmChanges(c: Config, s: State, h: nat, r: State)
    requires Wf(c, s) && h < c.harts && HsmStep(c, s, h) == Some(r) && !s.harts[h].pc.StopSelf?
    ensures SameOrChanged(s, Move(h, Go), r, h)
  {
  }

  lemma StopKeepsState(c: Config, s: State, h: nat, r: State)
    requires Wf(c, s) && h < c.harts && Stopping(s.harts[h].pc) && StopStep(c, s, h) == Some(r)
    ensures r.harts[h].hsm == s.harts[h].hsm
  {
    if s.harts[h].pc.StopRaise? {
      DomainStop.RaiseSame(c, s, h, s.harts[h].pc.dom);
    }
  }

  lemma OwnChanges(c: Config, s: State, h: nat, a: Action, r: State)
    requires DomainStop.StopInv(c, s) && h < c.harts && Step(c, s, h, a) == Some(r)
    ensures SameOrChanged(s, Move(h, a), r, h)
  {
    if a.Go? {
      OwnGoChanges(c, s, h, r);
    } else if !a.Wake? {
      OwnCallChanges(c, s, h, a, r);
    }
  }

  lemma OwnCallChanges(c: Config, s: State, h: nat, a: Action, r: State)
    requires Placement(c, s) && h < c.harts && s.harts[h].pc.Smode? && Call(c, s, h, a) == Some(r)
    ensures SameOrChanged(s, Move(h, a), r, h)
  {
    if a.DomainEnter? || a.DomainExit? || a.Yield? {
      MoveKeepsState(c, s, h, a, r);
    } else {
      CallChanges(c, s, h, a, r);
    }
  }

  lemma CallChanges(c: Config, s: State, h: nat, a: Action, r: State)
    requires Wf(c, s) && h < c.harts && s.harts[h].pc.Smode? && Call(c, s, h, a) == Some(r)
    requires !a.DomainEnter? && !a.DomainExit? && !a.Yield?
    ensures SameOrChanged(s, Move(h, a), r, h)
  {
    if a.DomainStart? {
      assert Forget(c, s, a.dom).harts[h] == Forgotten(s.harts[h], a.dom);
    }
  }

  lemma OthersChange(c: Config, s: State, g: nat, a: Action, r: State, h: nat)
    requires DomainStop.StopInv(c, s) && h < c.harts && g < c.harts && g != h && Step(c, s, g, a) == Some(r)
    ensures SameOrChanged(s, Move(g, a), r, h)
  {
    assert DomainStop.BootOk(c, s, g);
    var pc := s.harts[g].pc;
    if a.Go? {
      if Booting(pc) { }
      else if pc.StopRaise? { DomainStop.RaiseSame(c, s, g, pc.dom); }
      else if Stopping(pc) { }
      else if Bridging(pc) { DomainMoves.BridgePasses(c, s, g, r, h); }
      else if pc.StopSelf? { DomainMoves.StopSelfPasses(c, s, g, h); }
      else { }
    } else if a.DomainEnter? {
      DomainMoves.EnterEnds(c, s, g, a.target, a.arg, false);
    } else if a.DomainExit? {
      DomainMoves.LeavePasses(c, s, g, a.value, r, h);
    } else if a.Yield? {
      DomainMoves.YieldPasses(c, s, g, a.first, r, h);
    } else if a.DomainStart? {
      assert Forget(c, s, a.dom).harts[h] == Forgotten(s.harts[h], a.dom);
    }
  }

  /** In every run the state of a hart changes along these steps alone. */
  lemma StateChanges(c: Config, run: seq<State>, moves: seq<Move>, i: nat, h: nat)
    requires IsRun(c, run, moves) && i < |moves| && h < c.harts && run[i + 1].harts[h].hsm != run[i].harts[h].hsm
    ensures moves[i].hart < c.harts && Changed(run[i], moves[i], run[i + 1], h)
  {
    DomainStop.StopInvHolds(c, run, moves, i);
    assert Step(c, run[i], moves[i].hart, moves[i].action) == Some(run[i + 1]);
    if moves[i].hart == h {
      OwnChanges(c, run[i], h, moves[i].action, run[i + 1]);
    } else {
      OthersChange(c, run[i], moves[i].hart, moves[i].action, run[i + 1], h);
    }
  }

  // ---- the way up -------------------------------------------------------------------------------

  /** The hart has no S-mode to go back to: it is stopped, asleep without it, or on its way from or to either. */
  predicate Down(pc: Pc) {
    || pc.ForceStop? || pc.Halting? || pc.Waiting? || pc.Starting? || pc.StartCheck?
    || pc == Suspending(false) || pc == Asleep(false) || pc == Waking(false)
  }

  /** Hart `k` finds the flag of its domain down and is let up, or leaves a domain being stopped. */
  ghost predicate Passes(s: State, m: Move, k: nat) {
    && m.hart == k < |s.harts| && s.harts[k].dom < |s.doms|
    && ((s.harts[k].pc.StartCheck? && !s.doms[s.harts[k].dom].stopping) || s.harts[k].pc.StopSelf?)
  }

  lemma StepDown(c: Config, s: State, m: Move, r: State, k: nat)
    requires Placement(c, s) && k < c.harts && Step(c, s, m.hart, m.action) == Some(r)
    requires (Down(s.harts[k].pc) || s.harts[k].pc.StopSelf?) && !Passes(s, m, k)
    ensures Down(r.harts[k].pc) || r.harts[k].pc.StopSelf?
  {
    if m.hart == k {
      StepGoes(c, s, k, m.action, r);
    } else {
      DomainMoves.OthersPass(c, s, m.hart, m.action, r, k);
    }
  }

  /** The hart is down, or about to leave a domain being stopped. */
  ghost predicate DownAt(s: State, k: nat) {
    k < |s.harts| && (Down(s.harts[k].pc) || s.harts[k].pc.StopSelf?)
  }

  ghost predicate DownLink(run: seq<State>, moves: seq<Move>, m: nat, k: nat)
    requires m < |moves| && |run| == |moves| + 1
  {
    DownAt(run[m], k) ==> DownAt(run[m + 1], k) || Passes(run[m], moves[m], k)
  }

  lemma {:induction false} DownUntil(run: seq<State>, moves: seq<Move>, i: nat, j: nat, k: nat)
    requires |run| == |moves| + 1 && i <= j < |run| && DownAt(run[i], k)
    requires forall m :: 0 <= m < |moves| ==> DownLink(run, moves, m, k)
    ensures DownAt(run[j], k) || exists m :: i <= m < j && Passes(run[m], moves[m], k)
  {
    if i < j {
      DownUntil(run, moves, i, j - 1, k);
      assert DownLink(run, moves, j - 1, k);
    }
  }

  /**
   A hart that has no S-mode to go back to and is in S-mode later has passed the check of its
   domain's flag on the way, and found it down, or was sent back to a caller by a stop.
   */
  lemma UpThroughCheck(c: Config, run: seq<State>, moves: seq<Move>, i: nat, j: nat, k: nat)
    requires IsRun(c, run, moves) && i < j < |run| && k < c.harts
    requires Down(run[i].harts[k].pc) && run[j].harts[k].pc.Smode?
    ensures exists m :: i <= m < j && Passes(run[m], moves[m], k)
  {
    forall m | 0 <= m < |moves| ensures DownLink(run, moves, m, k) {
      if DownAt(run[m], k) && !Passes(run[m], moves[m], k) {
        RunDown(c, run, moves, m, k);
      }
    }
    DownUntil(run, moves, i, j, k);
  }

  lemma RunDown(c: Config, run: seq<State>, moves: seq<Move>, m: nat, k: nat)
    requires IsRun(c, run, moves) && m < |moves| && k < c.harts
    requires (Down(run[m].harts[k].pc) || run[m].harts[k].pc.StopSelf?) && !Passes(run[m], moves[m], k)
    ensures Down(run[m + 1].harts[k].pc) || run[m + 1].harts[k].pc.StopSelf?
  {
    PlacementHolds(c, run, moves, m);
    assert Step(c, run[m], moves[m].hart, moves[m].action) == Some(run[m + 1]);
    StepDown(c, run[m], moves[m], run[m + 1], k);
  }

  // ---- a sleep that keeps everything ----------------------------------------------------------------

  /** Hart `k` sleeps, is about to or has just woken up, with its state as it was. */
  ghost predicate SleepsAs(s: State, k: nat, live: Live, dom: nat) {
    && k < |s.harts| && s.harts[k].live == live && s.harts[k].dom == dom
    && (var pc := s.harts[k].pc; pc == Suspending(true) || pc == Asleep(true) || pc == Waking(true) || pc.Resumed?)
  }

  ghost predicate SleepLink(run: seq<State>, moves: seq<Move>, m: nat, k: nat, live: Live, dom: nat)
    requires m < |moves| && |run| == |moves| + 1
  {
    SleepsAs(run[m + 1], k, live, dom) ==>
      || SleepsAs(run[m], k, live, dom)
      || (moves[m] == Move(k, HartSuspend(true)) && k < |run[m].harts| && run[m].harts[k].pc.Smode?
          && run[m].harts[k].live == live && run[m].harts[k].dom == dom)
  }

  lemma SleepGoes(c: Config, s: State, h: nat, a: Action, r: State)
    requires Placement(c, s) && h < c.harts && Step(c, s, h, a) == Some(r)
    requires r.harts[h].pc.Suspending? || r.harts[h].pc.Asleep? || r.harts[h].pc.Waking? || r.harts[h].pc.Resumed?
    ensures r.harts[h].live == s.harts[h].live
  {
    StepGoes(c, s, h, a, r);
  }

  lemma RunSleeps(c: Config, run: seq<State>, moves: seq<Move>, m: nat, k: nat, live: Live, dom: nat)
    requires IsRun(c, run, moves) && m < |moves| && k < c.harts
    ensures SleepLink(run, moves, m, k, live, dom)
  {
    PlacementHolds(c, run, moves, m);
    assert Step(c, run[m], moves[m].hart, moves[m].action) == Some(run[m + 1]);
    if moves[m].hart != k {
      DomainMoves.OthersPass(c, run[m], moves[m].hart, moves[m].action, run[m + 1], k);
    } else if SleepsAs(run[m + 1], k, live, dom) {
      StepGoes(c, run[m], k, moves[m].action, run[m + 1]);
      SleepGoes(c, run[m], k, moves[m].action, run[m + 1]);
      StaysPut(c, run[m], k, moves[m].action, run[m + 1]);
    }
  }

  ghost predicate AsleepSince(run: seq<State>, m: nat, j: nat, k: nat, live: Live, dom: nat)
    requires j < |run|
  {
    forall n :: m <= n <= j ==> SleepsAs(run[n], k, live, dom)
  }

  lemma {:induction false} SleptSince(run: seq<State>, moves: seq<Move>, j: nat, k: nat, live: Live, dom: nat)
    returns (m: nat)
    requires |run| == |moves| + 1 && j < |run| && SleepsAs(run[j], k, live, dom) && !SleepsAs(run[0], k, live, dom)
    requires forall n :: 0 <= n < |moves| ==> SleepLink(run, moves, n, k, live, dom)
    ensures m < j && moves[m] == Move(k, HartSuspend(true)) && AsleepSince(run, m + 1, j, k, live, dom)
    ensures k < |run[m].harts| && run[m].harts[k].pc.Smode?
    ensures run[m].harts[k].live == live && run[m].harts[k].dom == dom
  {
    m := j - 1;
    assert SleepLink(run, moves, m, k, live, dom);
    if SleepsAs(run[m], k, live, dom) {
      m := SleptSince(run, moves, j - 1, k, live, dom);
    }
  }

  /** A hart that resumes without a start fell asleep in S-mode, with what it has now, and slept since. */
  lemma RetentiveKeeps(c: Config, run: seq<State>, moves: seq<Move>, j: nat, k: nat) returns (m: nat)
    requires IsRun(c, run, moves) && j < |run| && k < c.harts && run[j].harts[k].pc.Resumed?
    ensures m < j && moves[m] == Move(k, HartSuspend(true)) && run[m].harts[k].pc.Smode?
    ensures run[m].harts[k].live == run[j].harts[k].live && run[m].harts[k].dom == run[j].harts[k].dom
    ensures AsleepSince(run, m + 1, j, k, run[j].harts[k].live, run[j].harts[k].dom)
  {
    var live, dom := run[j].harts[k].live, run[j].harts[k].dom;
    assert InitHart(c, k, run[0].harts[k]);
    forall n | 0 <= n < |moves| ensures SleepLink(run, moves, n, k, live, dom) {
      RunSleeps(c, run, moves, n, k, live, dom);
    }
    m := SleptSince(run, moves, j, k, live, dom);
  }

  // ---- who asked ------------------------------------------------------------------------------------------

  /** Hart `b` is starting hart `i`. */
  ghost predicate Boots(s: State, b: nat, i: nat) {
    b < |s.harts| && Booting(s.harts[b].pc) && s.harts[b].pc.hart == i
  }

  ghost predicate BootLink(c: Config, run: seq<State>, moves: seq<Move>, m: nat, b: nat, i: nat)
    requires m < |moves| && |run| == |moves| + 1
  {
    Boots(run[m + 1], b, i) ==> Boots(run[m], b, i) || (moves[m].hart == b && Asked(c, run[m], b, moves[m].action, i))
  }

  lemma RunBoots(c: Config, run: seq<State>, moves: seq<Move>, m: nat, b: nat, i: nat)
    requires IsRun(c, run, moves) && m < |moves| && b < c.harts
    ensures BootLink(c, run, moves, m, b, i)
  {
    PlacementHolds(c, run, moves, m);
    assert Step(c, run[m], moves[m].hart, moves[m].action) == Some(run[m + 1]);
    if moves[m].hart != b {
      DomainMoves.OthersPass(c, run[m], moves[m].hart, moves[m].action, run[m + 1], b);
    } else {
      StepGoes(c, run[m], b, moves[m].action, run[m + 1]);
    }
  }

  ghost predicate BootsSince(run: seq<State>, m: nat, j: nat, b: nat, i: nat)
    requires j < |run|
  {
    forall n :: m <= n <= j ==> Boots(run[n], b, i)
  }

  lemma {:induction false} BootedSince(c: Config, run: seq<State>, moves: seq<Move>, j: nat, b: nat, i: nat)
    returns (m: nat)
    requires |run| == |moves| + 1 && j < |run| && Boots(run[j], b, i) && !Boots(run[0], b, i)
    requires forall n :: 0 <= n < |moves| ==> BootLink(c, run, moves, n, b, i)
    ensures m < j && moves[m].hart == b && Asked(c, run[m], b, moves[m].action, i) && BootsSince(run, m + 1, j, b, i)
  {
    m := j - 1;
    assert BootLink(c, run, moves, m, b, i);
    if Boots(run[m], b, i) {
      m := BootedSince(c, run, moves, j - 1, b, i);
    }
  }

  /** A hart that is let up from a stop in step `j` was stopped, and another had been asked to start it. */
  lemma StartIsAsked(c: Config, run: seq<State>, moves: seq<Move>, j: nat, h: nat) returns (m: nat)
    requires IsRun(c, run, moves) && j < |moves| && h < c.harts
    requires run[j].harts[h].hsm.Stopped? && !run[j + 1].harts[h].hsm.Stopped?
    ensures moves[j].hart < c.harts && moves[j].hart != h && run[j + 1].harts[h].hsm.StartPending?
    ensures m < j && moves[m].hart == moves[j].hart && Asked(c, run[m], moves[m].hart, moves[m].action, h)
    ensures BootsSince(run, m + 1, j, moves[j].hart, h)
  {
    StateChanges(c, run, moves, j, h);
    StoppedWaits(c, run, moves, j, h);
    var b := moves[j].hart;
    assert InitHart(c, b, run[0].harts[b]);
    forall n | 0 <= n < |moves| ensures BootLink(c, run, moves, n, b, h) {
      RunBoots(c, run, moves, n, b, h);
    }
    m := BootedSince(c, run, moves, j, b, h);
  }

  lemma StoppedWaits(c: Config, run: seq<State>, moves: seq<Move>, j: nat, h: nat)
    requires IsRun(c, run, moves) && j < |run| && h < c.harts && run[j].harts[h].hsm.Stopped?
    ensures run[j].harts[h].pc.Waiting?
  {
    DomainStop.StopInvHolds(c, run, moves, j);
    assert DomainStop.HsmOk(run[j].harts[h]);
  }
}
