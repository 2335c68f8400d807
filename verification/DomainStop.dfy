/**
 Stopping a domain while other harts run, start, sleep and move: what is true when
 domain_stop() lowers its flag, for every interleaving.
 */
module DomainStop {
  import opened Options
  import opened DomainModel
  import opened DomainPlacement

  // ---- the invariant -----------------------------------------------------------

  predicate HoldsStartLock(pc: Pc) { pc.BootLoad? || pc.BootCheck? || pc.BootStore? || pc.BootUnlock? }

  /** domain_stop() of `d` has raised the flag and not lowered it yet. */
  predicate Raised(pc: Pc, d: nat) {
    match pc
    case StopBarrier(e) => e == d
    case Scan(e, _, _) => e == d
    case ScanHsm(e, _, _) => e == d
    case StopLower(e) => e == d
    case _ => false
  }

  /** ... and has passed the barrier of hsm_start_barrier(). */
  predicate PastBarrier(pc: Pc, d: nat) { Raised(pc, d) && !pc.StopBarrier? }

  /** Nothing of hart `j` keeps the stop of `d` by hart `k` waiting. */
  ghost predicate Quiet(c: Config, s: State, k: nat, d: nat, j: nat)
    requires Wf(c, s) && j < c.harts
  {
    j == k || j !in c.valid || s.harts[j].dom != d || s.harts[j].hsm.Stopped?
  }

  /** How many harts the scan has found quiet, counted from 0. */
  function Found(c: Config, pc: Pc): nat {
    match pc
    case Scan(_, i, busy) => if busy then 0 else i
    case ScanHsm(_, i, busy) => if busy then 0 else i
    case StopLower(_) => c.harts
    case _ => 0
  }

  ghost predicate HsmOk(x: Hart) {
    && (x.pc.Waiting? ==> x.hsm.Stopped? || x.hsm.StartPending?)
    && (x.hsm.Stopped? ==> x.pc.Waiting?)
  }

  /** A start that has read the state of its target still reads right. */
  ghost predicate BootOk(c: Config, s: State, b: nat)
    requires Wf(c, s) && b < c.harts
  {
    match s.harts[b].pc
    case BootCheck(i, seen) => seen.Stopped? ==> s.harts[i].hsm.Stopped?
    case BootStore(i) => s.harts[i].hsm.Stopped?
    case _ => true
  }

  /** No start still on its way can let a hart of `d` up. */
  ghost predicate NoStartInto(c: Config, s: State, d: nat)
    requires Wf(c, s)
  {
    forall b :: 0 <= b < c.harts && s.harts[b].pc.BootStore? ==> s.harts[s.harts[b].pc.hart].dom != d
  }

  ghost predicate StopperOk(c: Config, s: State, k: nat, d: nat)
    requires Wf(c, s) && k < c.harts && d < c.doms
  {
    && s.doms[d].stopping
    && (forall h :: 0 <= h < c.harts ==> !Waits(s.harts[h].ctx[d]))
    && (PastBarrier(s.harts[k].pc, d) ==> NoStartInto(c, s, d))
    && (forall j :: 0 <= j < Found(c, s.harts[k].pc) && j < c.harts ==> Quiet(c, s, k, d, j))
  }

  ghost predicate LocksOk(c: Config, s: State)
    requires Wf(c, s)
  {
    && (forall h :: 0 <= h < c.harts ==> (HoldsStartLock(s.harts[h].pc) <==> s.startLock == Some(h)))
    && (forall h :: 0 <= h < c.harts ==> (Stopping(s.harts[h].pc) <==> s.stopLock == Some(h)))
    && (s.stopLock.Some? ==> s.stopLock.value < c.harts)
    && (forall d :: 0 <= d < c.doms && s.doms[d].stopping ==>
          s.stopLock.Some? && Raised(s.harts[s.stopLock.value].pc, d))
  }

  ghost predicate HartsOk(c: Config, s: State)
    requires Wf(c, s)
  {
    forall h :: 0 <= h < c.harts ==> HsmOk(s.harts[h]) && BootOk(c, s, h)
  }

  ghost predicate StoppersOk(c: Config, s: State)
    requires Wf(c, s)
  {
    forall k, d :: 0 <= k < c.harts && 0 <= d < c.doms && Raised(s.harts[k].pc, d) ==> StopperOk(c, s, k, d)
  }

  ghost predicate StopInv(c: Config, s: State) {
    Placement(c, s) && HartsOk(c, s) && LocksOk(c, s) && StoppersOk(c, s)
  }

  /** Nobody gets into `d` between `s` and `r`: not by a move, not by a start. */
  ghost predicate NobodyIn(c: Config, s: State, r: State, d: nat)
    requires Wf(c, s) && Wf(c, r) && d < c.doms
  {
    && r.doms[d].admitted == s.doms[d].admitted
    && forall i :: 0 <= i < c.harts && r.harts[i].dom == d ==> s.harts[i].dom == d
  }

  /** A step of `h`: nobody gets into a domain being stopped, and only domain_stop() raises a flag. */
  ghost predicate Fenced(c: Config, s: State, r: State, h: nat)
    requires Wf(c, s) && Wf(c, r) && h < c.harts
  {
    && (forall d :: 0 <= d < c.doms && s.doms[d].stopping ==> NobodyIn(c, s, r, d))
    && (forall k, d :: 0 <= k < c.harts && 0 <= d < c.doms && Raised(r.harts[k].pc, d) ==>
          Raised(s.harts[k].pc, d) || (k == h && s.harts[k].pc == StopRaise(d)))
  }

  /** Nothing between `s` and `r` undoes what a stop of `d` has found so far. */
  ghost predicate Calm(c: Config, s: State, r: State, d: nat)
    requires Wf(c, s) && Wf(c, r) && d < c.doms
  {
    && r.doms[d].stopping
    && (forall i :: 0 <= i < c.harts && r.harts[i].dom == d ==> s.harts[i].dom == d)
    && (forall i :: 0 <= i < c.harts && Waits(r.harts[i].ctx[d]) ==> Waits(s.harts[i].ctx[d]))
    && (NoStartInto(c, s, d) ==>
          && NoStartInto(c, r, d)
          && forall i :: 0 <= i < c.harts && s.harts[i].dom == d && s.harts[i].hsm.Stopped? ==> r.harts[i].hsm.Stopped?)
  }

  ghost predicate Undisturbed(c: Config, s: State, r: State, k: nat, d: nat)
    requires Wf(c, s) && Wf(c, r) && k < c.harts && d < c.doms
  {
    r.harts[k].pc == s.harts[k].pc && Calm(c, s, r, d)
  }

  lemma CalmKeeps(c: Config, s: State, r: State)
    requires Wf(c, s) && Wf(c, r) && StoppersOk(c, s)
    requires forall k, d :: 0 <= k < c.harts && 0 <= d < c.doms && Raised(r.harts[k].pc, d) ==>
               Undisturbed(c, s, r, k, d)
    ensures StoppersOk(c, r)
  {
    forall k, d | 0 <= k < c.harts && 0 <= d < c.doms && Raised(r.harts[k].pc, d) ensures StopperOk(c, r, k, d) {
      assert Undisturbed(c, s, r, k, d) && StopperOk(c, s, k, d);
      forall j | 0 <= j < Found(c, r.harts[k].pc) && j < c.harts ensures Quiet(c, r, k, d, j) {
        assert Quiet(c, s, k, d, j);
      }
    }
  }

  // ---- steps of one hart that touch nothing of a stop -----------------------------

  predicate Plain(pc: Pc) { !HoldsStartLock(pc) && !Stopping(pc) }

  /** Only hart `h` changes, in its own domain, and it does not get up from a stop. */
  ghost predicate Local(c: Config, s: State, r: State, h: nat)
    requires Wf(c, s) && Wf(c, r) && h < c.harts
  {
    var x, y := s.harts[h], r.harts[h];
    && (forall i :: 0 <= i < c.harts && i != h ==> r.harts[i] == s.harts[i])
    && r.doms == s.doms && r.startLock == s.startLock && r.stopLock == s.stopLock
    && y.dom == x.dom && Plain(x.pc) && Plain(y.pc)
    && (x.hsm.Stopped? ==> y.hsm.Stopped?) && HsmOk(y)
    && (forall d :: 0 <= d < c.doms && Waits(y.ctx[d]) ==> Waits(x.ctx[d]))
  }

  lemma LocalKeeps(c: Config, s: State, r: State, h: nat)
    requires StopInv(c, s) && h < c.harts && Placement(c, r) && Local(c, s, r, h)
    ensures StopInv(c, r)
    ensures Fenced(c, s, r, h)
  {
    LocalBoots(c, s, r, h);
    LocalCalm(c, s, r, h);
    CalmKeeps(c, s, r);
  }

  lemma LocalBoots(c: Config, s: State, r: State, h: nat)
    requires Wf(c, s) && Wf(c, r) && HartsOk(c, s) && h < c.harts && Local(c, s, r, h)
    ensures HartsOk(c, r)
  {
    forall b | 0 <= b < c.harts ensures HsmOk(r.harts[b]) && BootOk(c, r, b) {
      assert HsmOk(s.harts[b]) && BootOk(c, s, b);
    }
  }

  lemma LocalCalm(c: Config, s: State, r: State, h: nat)
    requires Wf(c, s) && Wf(c, r) && LocksOk(c, s) && StoppersOk(c, s) && h < c.harts && Local(c, s, r, h)
    ensures LocksOk(c, r)
    ensures forall k, d :: 0 <= k < c.harts && 0 <= d < c.doms && Raised(r.harts[k].pc, d) ==>
               Undisturbed(c, s, r, k, d)
  {
    forall k, d | 0 <= k < c.harts && 0 <= d < c.doms && Raised(r.harts[k].pc, d)
      ensures Undisturbed(c, s, r, k, d)
    {
      assert k != h && StopperOk(c, s, k, d);
    }
  }

  // ---- a hart that moves -------------------------------------------------------------

  /** Hart `h` moves to domain `t`; at most its old context starts to wait. */
  ghost predicate Moved(c: Config, s: State, r: State, h: nat, t: nat)
    requires Wf(c, s) && Wf(c, r) && h < c.harts && t < c.doms
  {
    var x, y := s.harts[h], r.harts[h];
    && (forall i :: 0 <= i < c.harts && i != h ==> r.harts[i] == s.harts[i])
    && r.startLock == s.startLock && r.stopLock == s.stopLock
    && y.dom == t && (y.hsm == x.hsm || y.hsm.StopPending?) && (y.pc == x.pc || y.pc.ForceStop?)
    && (forall d :: 0 <= d < c.doms ==> r.doms[d].stopping == s.doms[d].stopping)
    && (forall d :: 0 <= d < c.doms && d != t ==> r.doms[d].admitted == s.doms[d].admitted)
    && (forall d :: 0 <= d < c.doms && d != x.dom && Waits(y.ctx[d]) ==> Waits(x.ctx[d]))
  }

  lemma RestoreMoves(c: Config, s: State, h: nat, t: nat)
    requires Wf(c, s) && h < c.harts && t < c.doms
    ensures Moved(c, s, Restore(c, s, h, t), h, t)
    ensures s.harts[h].dom != t ==>
              Restore(c, s, h, t).harts[h].ctx[s.harts[h].dom] == s.harts[h].ctx[s.harts[h].dom]
  {
  }

  /** Hart `h` stays where it is; at most its own context starts to wait. */
  ghost predicate Still(c: Config, s: State, r: State, h: nat)
    requires Wf(c, s) && Wf(c, r) && h < c.harts
  {
    var x, y := s.harts[h], r.harts[h];
    && (forall i :: 0 <= i < c.harts && i != h ==> r.harts[i] == s.harts[i])
    && r.startLock == s.startLock && r.stopLock == s.stopLock
    && y.dom == x.dom && (y.hsm == x.hsm || y.hsm.StopPending?) && (y.pc == x.pc || y.pc.ForceStop?)
    && (forall d :: 0 <= d < c.doms ==>
          r.doms[d].stopping == s.doms[d].stopping && r.doms[d].admitted == s.doms[d].admitted)
    && (forall d :: 0 <= d < c.doms && d != x.dom && Waits(y.ctx[d]) ==> Waits(x.ctx[d]))
  }

  lemma StillMoved(c: Config, s: State, p: State, r: State, q: State, h: nat, t: nat)
    requires Wf(c, s) && Wf(c, p) && Wf(c, r) && Wf(c, q) && h < c.harts && t < c.doms
    requires Still(c, s, p, h) && Moved(c, p, r, h, t) && Still(c, r, q, h) && q.harts[h].ctx == r.harts[h].ctx
    ensures Moved(c, s, q, h, t)
  {
  }

  lemma SwitchMoves(c: Config, s: State, h: nat, t: nat, error: int, value: int)
    requires Wf(c, s) && h < c.harts && t < c.doms
    ensures Moved(c, s, Switch(c, s, h, t, error, value), h, t)
    ensures s.harts[h].dom != t ==>
              Switch(c, s, h, t, error, value).harts[h].ctx[s.harts[h].dom] == s.harts[h].ctx[s.harts[h].dom]
  {
    var p := Prepare(c, s, h, t, error, value);
    RestoreMoves(c, p, h, t);
    PrepareStill(c, s, h, t, error, value);
    StillMoved(c, s, p, Restore(c, p, h, t), Switch(c, s, h, t, error, value), h, t);
  }

  lemma PrepareStill(c: Config, s: State, h: nat, t: nat, error: int, value: int)
    requires Wf(c, s) && h < c.harts && t < c.doms
    ensures Still(c, s, Prepare(c, s, h, t, error, value), h)
    ensures forall d :: 0 <= d < c.doms && d != t ==>
               Prepare(c, s, h, t, error, value).harts[h].ctx[d] == s.harts[h].ctx[d]
  {
  }

  lemma EnterMoves(c: Config, s: State, h: nat, t: nat, arg: int, quiet: bool)
    requires Wf(c, s) && h < c.harts && t < c.doms && t != s.harts[h].dom
    ensures Moved(c, s, Enter(c, s, h, t, arg, quiet), h, t)
  {
    var x := s.harts[h];
    var parked := Park(c, s, h, Calling, quiet);
    var y := parked.harts[h];
    var linked := SetHart(parked, h, y.(ctx := y.ctx[t := y.ctx[t].(caller := Some(x.dom))],
                                        log := y.log + [Entered(x.dom, x.live, quiet)]));
    assert Still(c, s, linked, h);
    SwitchMoves(c, linked, h, t, SUCCESS, arg);
    var r := Switch(c, linked, h, t, SUCCESS, arg);
    StillMoved(c, s, linked, r, r, h, t);
  }

  lemma LeaveMoves(c: Config, s: State, h: nat, t: nat, value: int, quiet: bool)
    requires Wf(c, s) && h < c.harts && t < c.doms && t != s.harts[h].dom
    ensures Moved(c, s, Leave(c, s, h, t, value, quiet), h, t)
  {
    var x := s.harts[h];
    var back := CallerWaits(c, s, h, x.dom);
    var y := if back then x.(log := x.log + [Returned]) else x.(ctx := x.ctx[t := x.ctx[t].(caller := None)]);
    var z := y.(ctx := y.ctx[x.dom := y.ctx[x.dom].(caller := None)]);
    var p := Park(c, SetHart(s, h, z), h, Idle, quiet);
    assert Still(c, s, p, h);
    SwitchMoves(c, p, h, t, SUCCESS, value);
    var r := Switch(c, p, h, t, SUCCESS, value);
    StillMoved(c, s, p, r, r, h, t);
  }

  lemma ToldMoves(c: Config, s: State, h: nat, regs: Regs, t: nat)
    requires Wf(c, s) && h < c.harts && t < c.doms && t != s.harts[h].dom
    ensures Moved(c, At(c, s, h, Smode), Leave(c, Told(c, s, h, regs), h, t, 0, true), h, t)
  {
    LeaveMoves(c, Told(c, s, h, regs), h, t, 0, true);
  }

  /** A domain being stopped is left for good or not at all, and never entered. */
  lemma MovedKeeps(c: Config, s: State, r: State, h: nat, t: nat)
    requires StopInv(c, s) && h < c.harts && t < c.doms && Placement(c, r) && Moved(c, s, r, h, t)
    requires Plain(s.harts[h].pc) && !s.harts[h].pc.Waiting?
    requires !s.doms[t].stopping
    requires s.doms[s.harts[h].dom].stopping ==> !Waits(r.harts[h].ctx[s.harts[h].dom])
    ensures StopInv(c, r)
    ensures Fenced(c, s, r, h)
  {
    MovedBoots(c, s, r, h, t);
    MovedCalm(c, s, r, h, t);
    CalmKeeps(c, s, r);
  }

  /** The same for a hart that comes from the middle of something. */
  lemma MovedFrom(c: Config, s: State, r: State, h: nat, t: nat)
    requires StopInv(c, s) && h < c.harts && t < c.doms && Placement(c, r)
    requires Moved(c, At(c, s, h, Smode), r, h, t)
    requires Plain(s.harts[h].pc) && !s.harts[h].pc.Waiting?
    requires !s.doms[t].stopping
    requires s.doms[s.harts[h].dom].stopping ==> !Waits(r.harts[h].ctx[s.harts[h].dom])
    ensures StopInv(c, r)
    ensures Fenced(c, s, r, h)
  {
    var idle := At(c, s, h, Smode);
    assert HsmOk(s.harts[h]);
    SamePlacesKeep(c, s, idle);
    LocalKeeps(c, s, idle, h);
    MovedKeeps(c, idle, r, h, t);
  }

  lemma MovedBoots(c: Config, s: State, r: State, h: nat, t: nat)
    requires Wf(c, s) && Wf(c, r) && HartsOk(c, s) && LocksOk(c, s)
    requires h < c.harts && t < c.doms && Moved(c, s, r, h, t)
    requires Plain(s.harts[h].pc) && !s.harts[h].pc.Waiting?
    ensures HartsOk(c, r) && LocksOk(c, r)
  {
    assert HsmOk(s.harts[h]);
    forall b | 0 <= b < c.harts ensures HsmOk(r.harts[b]) && BootOk(c, r, b) {
      assert HsmOk(s.harts[b]) && BootOk(c, s, b);
    }
  }

  lemma MovedCalm(c: Config, s: State, r: State, h: nat, t: nat)
    requires Wf(c, s) && Wf(c, r) && StoppersOk(c, s)
    requires h < c.harts && t < c.doms && HsmOk(s.harts[h]) && Moved(c, s, r, h, t)
    requires Plain(s.harts[h].pc) && !s.harts[h].pc.Waiting?
    requires !s.doms[t].stopping
    requires s.doms[s.harts[h].dom].stopping ==> !Waits(r.harts[h].ctx[s.harts[h].dom])
    ensures forall k, d :: 0 <= k < c.harts && 0 <= d < c.doms && Raised(r.harts[k].pc, d) ==>
               Undisturbed(c, s, r, k, d)
  {
    forall k, d | 0 <= k < c.harts && 0 <= d < c.doms && Raised(r.harts[k].pc, d)
      ensures Undisturbed(c, s, r, k, d)
    {
      assert k != h && StopperOk(c, s, k, d);
    }
  }

  /** A context that waits is not one of a domain being stopped. */
  lemma WaitingIsOpen(c: Config, s: State, h: nat, d: nat)
    requires StopInv(c, s) && h < c.harts && d < c.doms && Waits(s.harts[h].ctx[d])
    ensures !s.doms[d].stopping
  {
  }

  lemma LeaveToOpen(c: Config, s: State, h: nat, quiet: bool, first: Option<nat>)
    requires StopInv(c, s) && h < c.harts && LeaveTo(c, s, h, quiet, first).Some?
    ensures !s.doms[LeaveTo(c, s, h, quiet, first).value].stopping
  {
    if CallerWaits(c, s, h, s.harts[h].dom) {
      WaitingIsOpen(c, s, h, LeaveTo(c, s, h, quiet, first).value);
    }
  }

  // ---- what every kind of step does to a stop ---------------------------------------

  lemma MovesKeep(c: Config, s: State, h: nat, a: Action)
    requires StopInv(c, s) && h < c.harts && s.harts[h].pc.Smode? && Call(c, s, h, a).Some?
    requires a.DomainEnter? || a.DomainExit? || a.Yield?
    ensures StopInv(c, Call(c, s, h, a).value)
    ensures Fenced(c, s, Call(c, s, h, a).value, h)
  {
    CallKeeps(c, s, h, a);
    if a.DomainEnter? {
      EnterMoves(c, s, h, a.target, a.arg, false);
      MovedKeeps(c, s, Call(c, s, h, a).value, h, a.target);
    } else {
      LeaveCallStops(c, s, h, a);
    }
  }

  lemma RefusedLocal(c: Config, s: State, h: nat, quiet: bool, first: Option<nat>)
    requires StopInv(c, s) && h < c.harts && s.harts[h].pc.Smode? && Refused(c, s, h, quiet, first).Some?
    ensures Local(c, s, Refused(c, s, h, quiet, first).value, h)
  {
    assert HsmOk(s.harts[h]);
  }

  lemma LeaveCallStops(c: Config, s: State, h: nat, a: Action)
    requires StopInv(c, s) && h < c.harts && s.harts[h].pc.Smode? && Call(c, s, h, a).Some?
    requires (a.DomainExit? || a.Yield?) && Placement(c, Call(c, s, h, a).value)
    ensures StopInv(c, Call(c, s, h, a).value)
    ensures Fenced(c, s, Call(c, s, h, a).value, h)
  {
    var r, quiet := Call(c, s, h, a).value, a.Yield?;
    var first := if quiet then a.first else None;
    var to := LeaveTo(c, s, h, quiet, first);
    if to.None? {
      RefusedLocal(c, s, h, quiet, first);
      LocalKeeps(c, s, r, h);
    } else {
      LeaveToPossible(c, s, h, quiet, first);
      LeaveToOpen(c, s, h, quiet, first);
      if quiet {
        ToldMoves(c, s, h, Again(s.harts[h].live.regs), to.value);
        MovedFrom(c, s, r, h, to.value);
      } else {
        LeaveMoves(c, s, h, to.value, a.value, false);
        MovedKeeps(c, s, r, h, to.value);
      }
    }
  }

  lemma StopSelfStops(c: Config, s: State, h: nat)
    requires StopInv(c, s) && h < c.harts && s.harts[h].pc.StopSelf?
    ensures StopInv(c, StopSelfStep(c, s, h))
    ensures Fenced(c, s, StopSelfStep(c, s, h), h)
  {
    StopSelfKeeps(c, s, h);
    var x := s.harts[h];
    if CallerWaits(c, s, h, x.dom) {
      StopSelfMoves(c, s, h);
      WaitingIsOpen(c, s, h, x.ctx[x.dom].caller.value);
      MovedFrom(c, s, StopSelfStep(c, s, h), h, x.ctx[x.dom].caller.value);
    } else {
      StopSelfLocal(c, s, h);
      LocalKeeps(c, s, StopSelfStep(c, s, h), h);
    }
  }

  lemma StopSelfLocal(c: Config, s: State, h: nat)
    requires Wf(c, s) && h < c.harts && HsmOk(s.harts[h]) && s.harts[h].pc.StopSelf?
    requires !CallerWaits(c, s, h, s.harts[h].dom)
    ensures Local(c, s, StopSelfStep(c, s, h), h)
  {
  }

  lemma StopSelfMoves(c: Config, s: State, h: nat)
    requires Placement(c, s) && h < c.harts && CallerWaits(c, s, h, s.harts[h].dom)
    ensures var x := s.harts[h];
            var t := x.ctx[x.dom].caller.value;
            && Moved(c, At(c, s, h, Smode), StopSelfStep(c, s, h), h, t)
            && !Waits(StopSelfStep(c, s, h).harts[h].ctx[x.dom])
  {
    var x := s.harts[h];
    var t := x.ctx[x.dom].caller.value;
    var back := SetHart(s, h, x.(ctx := x.ctx[x.dom := x.ctx[x.dom].(phase := Never, caller := None)], pc := Smode));
    SwitchMoves(c, back, h, t, ERR_FAILED, 0);
  }

  lemma SendingStops(c: Config, s: State, h: nat, ch: nat)
    requires StopInv(c, s) && h < c.harts && s.harts[h].pc == Sending(ch)
    ensures StopInv(c, BridgeStep(c, s, h).value)
    ensures Fenced(c, s, BridgeStep(c, s, h).value, h)
  {
    BridgeStepKeeps(c, s, h);
    var t := c.bridge[ch];
    if Enterable(c, s, h, t) && EnterRc(c, s, h, t, true).Ok? {
      EnterMoves(c, At(c, s, h, Smode), h, t, 0, true);
      MovedFrom(c, s, BridgeStep(c, s, h).value, h, t);
    } else {
      assert HsmOk(s.harts[h]);
      LocalKeeps(c, s, BridgeStep(c, s, h).value, h);
    }
  }

  lemma CompletingStops(c: Config, s: State, h: nat)
    requires StopInv(c, s) && h < c.harts && s.harts[h].pc.Completing?
    ensures StopInv(c, BridgeStep(c, s, h).value)
    ensures Fenced(c, s, BridgeStep(c, s, h).value, h)
  {
    BridgeStepKeeps(c, s, h);
    var to := LeaveTo(c, s, h, true, None);
    if to.Some? {
      LeaveToPossible(c, s, h, true, None);
      LeaveToOpen(c, s, h, true, None);
      ToldMoves(c, s, h, s.harts[h].live.regs.(a0 := SUCCESS, a1 := 8), to.value);
      MovedFrom(c, s, BridgeStep(c, s, h).value, h, to.value);
    } else {
      assert HsmOk(s.harts[h]);
      LocalKeeps(c, s, BridgeStep(c, s, h).value, h);
    }
  }

  lemma HsmStops(c: Config, s: State, h: nat)
    requires StopInv(c, s) && h < c.harts && Plain(s.harts[h].pc) && HsmStep(c, s, h).Some?
    requires !s.harts[h].pc.StopSelf?
    ensures StopInv(c, HsmStep(c, s, h).value)
    ensures Fenced(c, s, HsmStep(c, s, h).value, h)
  {
    assert HsmOk(s.harts[h]);
    if s.harts[h].pc.Starting? {
      StartingKeeps(c, s, h);
    } else {
      OtherHsmStepsStay(c, s, h);
      SamePlacesKeep(c, s, HsmStep(c, s, h).value);
    }
    HsmLocal(c, s, h);
    LocalKeeps(c, s, HsmStep(c, s, h).value, h);
  }

  lemma HsmLocal(c: Config, s: State, h: nat)
    requires Wf(c, s) && h < c.harts && HsmOk(s.harts[h]) && Plain(s.harts[h].pc) && HsmStep(c, s, h).Some?
    requires !s.harts[h].pc.StopSelf?
    ensures Local(c, s, HsmStep(c, s, h).value, h)
  {
  }

  /** A start is let through by the flag it reads, or is in the way of the barrier. */
  lemma BootStops(c: Config, s: State, h: nat)
    requires StopInv(c, s) && h < c.harts && Booting(s.harts[h].pc) && BootStep(c, s, h).Some?
    ensures StopInv(c, BootStep(c, s, h).value)
    ensures Fenced(c, s, BootStep(c, s, h).value, h)
  {
    var r := BootStep(c, s, h).value;
    BootStepsStay(c, s, h);
    SamePlacesKeep(c, s, r);
    BootHas(c, s, h);
    BootLocks(c, s, r, h);
    BootHarts(c, s, r, h);
    BootCalm(c, s, r, h);
    CalmKeeps(c, s, r);
  }

  ghost predicate BootEffect(c: Config, s: State, r: State, h: nat)
    requires Wf(c, s) && Wf(c, r) && h < c.harts && Booting(s.harts[h].pc)
  {
    var pc, to := s.harts[h].pc, r.harts[h].pc;
    var i := pc.hart;
    && r.stopLock == s.stopLock
    && (forall d :: 0 <= d < c.doms ==>
          && r.doms[d].stopping == s.doms[d].stopping
          && (s.doms[d].stopping ==> r.doms[d].admitted == s.doms[d].admitted))
    && (forall j :: 0 <= j < c.harts ==>
          && r.harts[j].dom == s.harts[j].dom && r.harts[j].ctx == s.harts[j].ctx
          && (j != h ==> r.harts[j].pc == s.harts[j].pc)
          && r.harts[j].hsm == (if pc.BootStore? && j == i then StartPending else s.harts[j].hsm))
    && match pc
       case BootLock(_) => s.startLock.None? && r.startLock == Some(h) && to == BootLoad(i)
       case BootLoad(_) => r.startLock == s.startLock && to == BootCheck(i, s.harts[i].hsm)
       case BootCheck(_, seen) =>
         && r.startLock == s.startLock
         && (to == BootUnlock(i) || (to == BootStore(i) && seen.Stopped? && !s.doms[s.harts[i].dom].stopping))
       case BootStore(_) => r.startLock == s.startLock && to == BootUnlock(i)
       case BootUnlock(_) => r.startLock.None? && to == Smode
  }

  lemma BootHas(c: Config, s: State, h: nat)
    requires Wf(c, s) && h < c.harts && Booting(s.harts[h].pc) && BootStep(c, s, h).Some?
    ensures BootEffect(c, s, BootStep(c, s, h).value, h)
  {
  }

  lemma BootLocks(c: Config, s: State, r: State, h: nat)
    requires Wf(c, s) && Wf(c, r) && LocksOk(c, s)
    requires h < c.harts && Booting(s.harts[h].pc) && BootEffect(c, s, r, h)
    ensures LocksOk(c, r)
  {
    assert !Stopping(s.harts[h].pc) && !Stopping(r.harts[h].pc);
    assert HoldsStartLock(r.harts[h].pc) <==> r.startLock == Some(h);
  }

  lemma BootHarts(c: Config, s: State, r: State, h: nat)
    requires Wf(c, s) && Wf(c, r) && HartsOk(c, s) && LocksOk(c, s)
    requires h < c.harts && Booting(s.harts[h].pc) && BootEffect(c, s, r, h)
    ensures HartsOk(c, r)
  {
    assert HsmOk(s.harts[h]) && BootOk(c, s, h);
    forall b | 0 <= b < c.harts ensures HsmOk(r.harts[b]) && BootOk(c, r, b) {
      assert HsmOk(s.harts[b]) && BootOk(c, s, b);
      assert b != h && HoldsStartLock(s.harts[h].pc) ==> !HoldsStartLock(s.harts[b].pc);
    }
  }

  lemma BootCalm(c: Config, s: State, r: State, h: nat)
    requires Wf(c, s) && Wf(c, r) && StoppersOk(c, s)
    requires h < c.harts && Booting(s.harts[h].pc) && BootEffect(c, s, r, h)
    ensures forall k, d :: 0 <= k < c.harts && 0 <= d < c.doms && Raised(r.harts[k].pc, d) ==>
               Undisturbed(c, s, r, k, d)
  {
    forall k, d | 0 <= k < c.harts && 0 <= d < c.doms && Raised(r.harts[k].pc, d)
      ensures Undisturbed(c, s, r, k, d)
    {
      BootCalmAt(c, s, r, h, k, d);
    }
  }

  lemma BootCalmAt(c: Config, s: State, r: State, h: nat, k: nat, d: nat)
    requires Wf(c, s) && Wf(c, r) && StoppersOk(c, s) && h < c.harts && Booting(s.harts[h].pc) && BootEffect(c, s, r, h)
    requires k < c.harts && d < c.doms && Raised(r.harts[k].pc, d)
    ensures Undisturbed(c, s, r, k, d)
  {
    assert k != h;
    assert StopperOk(c, s, k, d);
  }

  lemma RaiseStops(c: Config, s: State, h: nat, d: nat)
    requires StopInv(c, s) && h < c.harts && s.harts[h].pc == StopRaise(d)
    ensures StopInv(c, StopStep(c, s, h).value)
    ensures Fenced(c, s, StopStep(c, s, h).value, h)
  {
    var r := StopStep(c, s, h).value;
    StopStepKeeps(c, s, h);
    RaiseSame(c, s, h, d);
    forall b | 0 <= b < c.harts ensures BootOk(c, r, b) && HsmOk(r.harts[b]) {
      assert BootOk(c, s, b) && HsmOk(s.harts[b]);
    }
    assert StopperOk(c, r, h, d);
  }

  lemma RaiseSame(c: Config, s: State, h: nat, d: nat)
    requires Wf(c, s) && h < c.harts && s.harts[h].pc == StopRaise(d)
    ensures var r := StopStep(c, s, h).value;
            && r.startLock == s.startLock && r.stopLock == s.stopLock
            && (forall e :: 0 <= e < c.doms ==>
                  && r.doms[e].stopping == (e == d || s.doms[e].stopping)
                  && r.doms[e].admitted == s.doms[e].admitted)
            && (forall i :: 0 <= i < c.harts ==>
                  && r.harts[i].dom == s.harts[i].dom && r.harts[i].hsm == s.harts[i].hsm
                  && r.harts[i].pc == (if i == h then StopBarrier(d) else s.harts[i].pc)
                  && !Waits(r.harts[i].ctx[d]))
  {
  }

  /** A stop drops the contexts that wait in the domain, and who called them, and leaves all others alone. */
  lemma RaiseDrops(c: Config, s: State, h: nat, d: nat, i: nat, e: nat)
    requires Wf(c, s) && h < c.harts && s.harts[h].pc == StopRaise(d) && i < c.harts && e < c.doms
    ensures Step(c, s, h, Go).Some?
    ensures var x, z := s.harts[i].ctx[e], Step(c, s, h, Go).value.harts[i].ctx[e];
            z == if e == d && (x.phase.Calling? || x.phase.Idle?) then x.(phase := Never, caller := None) else x
  {
    assert Raise(c, s, d).harts[i] == Dropped(s.harts[i], d);
  }

  /** A start forgets that any context of the domain has run, and nothing else of any. */
  lemma StartForgets(c: Config, s: State, h: nat, a: Action, i: nat, e: nat)
    requires Wf(c, s) && h < c.harts && a.DomainStart? && Step(c, s, h, a).Some? && i < c.harts && e < c.doms
    ensures var x, z := s.harts[i].ctx[e], Step(c, s, h, a).value.harts[i].ctx[e];
            z == if e == a.dom then x.(phase := Never) else x
  {
    assert Forget(c, s, a.dom).harts[i] == Forgotten(s.harts[i], a.dom);
  }

  lemma StopStops(c: Config, s: State, h: nat)
    requires StopInv(c, s) && h < c.harts && Stopping(s.harts[h].pc) && !s.harts[h].pc.StopRaise?
    requires StopStep(c, s, h).Some?
    ensures StopInv(c, StopStep(c, s, h).value)
    ensures Fenced(c, s, StopStep(c, s, h).value, h)
  {
    var r := StopStep(c, s, h).value;
    StopStepKeeps(c, s, h);
    StopBoots(c, s, h);
    StopFenced(c, s, r, h);
    forall k, d | 0 <= k < c.harts && 0 <= d < c.doms && Raised(r.harts[k].pc, d) ensures StopperOk(c, r, k, d) {
      StopOnly(c, s, h, k, d);
      ScanFinds(c, s, h, d);
    }
  }

  lemma StopBoots(c: Config, s: State, h: nat)
    requires Wf(c, s) && HartsOk(c, s) && LocksOk(c, s)
    requires h < c.harts && Stopping(s.harts[h].pc) && !s.harts[h].pc.StopRaise? && StopStep(c, s, h).Some?
    ensures HartsOk(c, StopStep(c, s, h).value) && LocksOk(c, StopStep(c, s, h).value)
    ensures StopEffect(c, s, StopStep(c, s, h).value, h)
  {
    var r := StopStep(c, s, h).value;
    StopHas(c, s, h);
    StopLocks(c, s, r, h);
    StopHarts(c, s, r, h);
  }

  ghost predicate StopEffect(c: Config, s: State, r: State, h: nat)
    requires Wf(c, s) && Wf(c, r) && h < c.harts
  {
    var pc, to := s.harts[h].pc, r.harts[h].pc;
    && r.startLock == s.startLock
    && (forall i :: 0 <= i < c.harts && i != h ==> r.harts[i] == s.harts[i])
    && r.harts[h] == s.harts[h].(pc := to) && !Booting(to) && !to.Waiting?
    && match pc
       case StopUnlock(_) => r.stopLock.None? && r.doms == s.doms && !Stopping(to)
       case StopLower(d) =>
         && r.stopLock == s.stopLock && to.StopUnlock?
         && forall e :: 0 <= e < c.doms ==>
              && r.doms[e].stopping == (e != d && s.doms[e].stopping)
              && r.doms[e].admitted == s.doms[e].admitted
       case _ =>
         && r.stopLock == s.stopLock && r.doms == s.doms && Stopping(to)
         && forall d :: 0 <= d < c.doms ==> Raised(pc, d) == Raised(to, d)
  }

  lemma StopHas(c: Config, s: State, h: nat)
    requires Wf(c, s)
    requires h < c.harts && Stopping(s.harts[h].pc) && !s.harts[h].pc.StopRaise? && StopStep(c, s, h).Some?
    ensures StopEffect(c, s, StopStep(c, s, h).value, h)
  {
    var r := StopStep(c, s, h).value;
    match s.harts[h].pc
    case StopBarrier(d) => assert r == At(c, s, h, Scan(d, 0, false));
    case Scan(d, i, busy) => assert r == At(c, s, h, r.harts[h].pc);
    case ScanHsm(d, i, busy) => assert r == At(c, s, h, r.harts[h].pc);
    case StopLower(d) => assert r.harts == At(c, s, h, StopUnlock(d)).harts;
    case StopUnlock(d) => assert r.harts == At(c, s, h, r.harts[h].pc).harts;
  }

  lemma StopLocks(c: Config, s: State, r: State, h: nat)
    requires Wf(c, s) && Wf(c, r) && LocksOk(c, s)
    requires h < c.harts && Stopping(s.harts[h].pc) && StopEffect(c, s, r, h)
    ensures LocksOk(c, r)
  {
  }

  lemma StopFenced(c: Config, s: State, r: State, h: nat)
    requires Wf(c, s) && Wf(c, r) && h < c.harts && Stopping(s.harts[h].pc) && StopEffect(c, s, r, h)
    ensures Fenced(c, s, r, h)
  {
  }

  lemma StopHarts(c: Config, s: State, r: State, h: nat)
    requires Wf(c, s) && Wf(c, r) && HartsOk(c, s)
    requires h < c.harts && Stopping(s.harts[h].pc) && StopEffect(c, s, r, h)
    ensures HartsOk(c, r)
  {
    forall b | 0 <= b < c.harts ensures HsmOk(r.harts[b]) && BootOk(c, r, b) {
      assert HsmOk(s.harts[b]) && BootOk(c, s, b);
    }
  }

  lemma StopOnly(c: Config, s: State, h: nat, k: nat, d: nat)
    requires Wf(c, s) && LocksOk(c, s) && h < c.harts && k < c.harts && d < c.doms
    requires Stopping(s.harts[h].pc) && !s.harts[h].pc.StopRaise? && StopStep(c, s, h).Some?
    requires Raised(StopStep(c, s, h).value.harts[k].pc, d)
    ensures k == h && Raised(s.harts[h].pc, d)
  {
  }

  /** A scan changes nothing but where it is. */
  lemma ScanTouches(c: Config, s: State, h: nat, d: nat)
    requires Wf(c, s) && h < c.harts && d < c.doms && Raised(s.harts[h].pc, d) && StopStep(c, s, h).Some?
    requires Raised(StopStep(c, s, h).value.harts[h].pc, d)
    ensures var r := StopStep(c, s, h).value;
            && r.doms == s.doms && r.harts[h].ctx == s.harts[h].ctx && r.harts[h].dom == s.harts[h].dom
            && forall i :: 0 <= i < c.harts && i != h ==> r.harts[i] == s.harts[i]
  {
  }

  /** What the scan of domain_stop() reads, one hart at a time, stays so. */
  lemma ScanFinds(c: Config, s: State, h: nat, d: nat)
    requires Placement(c, s) && LocksOk(c, s) && h < c.harts && d < c.doms && StopperOk(c, s, h, d)
    requires Raised(s.harts[h].pc, d) && StopStep(c, s, h).Some?
    requires Raised(StopStep(c, s, h).value.harts[h].pc, d)
    ensures StopperOk(c, StopStep(c, s, h).value, h, d)
  {
    var r := StopStep(c, s, h).value;
    var pc := s.harts[h].pc;
    ScanTouches(c, s, h, d);
    forall j | 0 <= j < Found(c, r.harts[h].pc) && j < c.harts ensures Quiet(c, r, h, d, j) {
      assert Placed(c, s, j);
      assert j < Found(c, pc) ==> Quiet(c, s, h, d, j);
    }
  }

  ghost predicate ForgetEffect(c: Config, s: State, r: State, h: nat)
    requires Wf(c, s) && Wf(c, r) && h < c.harts
  {
    && r.doms == s.doms && r.startLock == s.startLock
    && (forall i :: 0 <= i < c.harts ==>
          && r.harts[i].dom == s.harts[i].dom && r.harts[i].hsm == s.harts[i].hsm
          && (i != h ==> r.harts[i].pc == s.harts[i].pc))
    && (forall i, d :: 0 <= i < c.harts && 0 <= d < c.doms && Waits(r.harts[i].ctx[d]) ==> Waits(s.harts[i].ctx[d]))
    && (if r.harts[h].pc.StopRaise? then s.stopLock.None? && r.stopLock == Some(h)
        else r.stopLock == s.stopLock && (r.harts[h].pc == s.harts[h].pc || r.harts[h].pc.BootLock?))
  }

  lemma ForgetStops(c: Config, s: State, h: nat, a: Action)
    requires StopInv(c, s) && h < c.harts && s.harts[h].pc.Smode? && Call(c, s, h, a).Some?
    requires a.DomainStart? || a.DomainStop? || a.IpiParked?
    ensures StopInv(c, Call(c, s, h, a).value)
    ensures Fenced(c, s, Call(c, s, h, a).value, h)
  {
    var r := Call(c, s, h, a).value;
    CallKeeps(c, s, h, a);
    ForgetHas(c, s, h, a);
    ForgetEffectKeeps(c, s, r, h);
  }

  lemma ForgetHas(c: Config, s: State, h: nat, a: Action)
    requires Wf(c, s) && h < c.harts && s.harts[h].pc.Smode? && Call(c, s, h, a).Some?
    requires a.DomainStart? || a.DomainStop? || a.IpiParked?
    ensures ForgetEffect(c, s, Call(c, s, h, a).value, h)
  {
    if a.DomainStart? {
      StartHas(c, s, h, a);
    } else {
      AskHas(c, s, h, a);
    }
  }

  lemma StartHas(c: Config, s: State, h: nat, a: Action)
    requires Wf(c, s) && h < c.harts && s.harts[h].pc.Smode? && Call(c, s, h, a).Some? && a.DomainStart?
    ensures ForgetEffect(c, s, Call(c, s, h, a).value, h)
  {
    var m := Forget(c, s, a.dom);
    assert forall i :: 0 <= i < c.harts ==> m.harts[i] == Forgotten(s.harts[i], a.dom);
  }

  lemma AskHas(c: Config, s: State, h: nat, a: Action)
    requires Wf(c, s) && h < c.harts && s.harts[h].pc.Smode? && Call(c, s, h, a).Some?
    requires a.DomainStop? || a.IpiParked?
    ensures ForgetEffect(c, s, Call(c, s, h, a).value, h)
  {
  }

  lemma ForgetEffectKeeps(c: Config, s: State, r: State, h: nat)
    requires Wf(c, s) && Wf(c, r) && HartsOk(c, s) && LocksOk(c, s) && StoppersOk(c, s)
    requires h < c.harts && s.harts[h].pc.Smode? && ForgetEffect(c, s, r, h)
    ensures HartsOk(c, r) && LocksOk(c, r) && StoppersOk(c, r)
  {
    ForgetCalm(c, s, r, h);
    CalmKeeps(c, s, r);
    forall b | 0 <= b < c.harts ensures BootOk(c, r, b) && HsmOk(r.harts[b]) {
      assert BootOk(c, s, b) && HsmOk(s.harts[b]);
    }
    ForgetLocks(c, s, r, h);
  }

  lemma ForgetCalm(c: Config, s: State, r: State, h: nat)
    requires Wf(c, s) && Wf(c, r) && StoppersOk(c, s)
    requires h < c.harts && s.harts[h].pc.Smode? && ForgetEffect(c, s, r, h)
    ensures forall k, d :: 0 <= k < c.harts && 0 <= d < c.doms && Raised(r.harts[k].pc, d) ==>
               Undisturbed(c, s, r, k, d)
  {
    forall k, d | 0 <= k < c.harts && 0 <= d < c.doms && Raised(r.harts[k].pc, d)
      ensures Undisturbed(c, s, r, k, d)
    {
      assert StopperOk(c, s, k, d);
    }
  }

  lemma ForgetLocks(c: Config, s: State, r: State, h: nat)
    requires Wf(c, s) && Wf(c, r) && LocksOk(c, s)
    requires h < c.harts && s.harts[h].pc.Smode? && ForgetEffect(c, s, r, h)
    ensures LocksOk(c, r)
  {
  }

  lemma OtherCallsStop(c: Config, s: State, h: nat, a: Action)
    requires StopInv(c, s) && h < c.harts && s.harts[h].pc.Smode? && Call(c, s, h, a).Some?
    requires !a.DomainEnter? && !a.DomainExit? && !a.Yield? && !a.DomainStart? && !a.DomainStop? && !a.IpiParked?
    ensures StopInv(c, Call(c, s, h, a).value)
    ensures Fenced(c, s, Call(c, s, h, a).value, h)
  {
    assert HsmOk(s.harts[h]);
    CallKeeps(c, s, h, a);
    OtherCallsLocal(c, s, h, a);
    LocalKeeps(c, s, Call(c, s, h, a).value, h);
  }

  lemma OtherCallsLocal(c: Config, s: State, h: nat, a: Action)
    requires Wf(c, s) && h < c.harts && s.harts[h].pc.Smode? && HsmOk(s.harts[h]) && Call(c, s, h, a).Some?
    requires !a.DomainEnter? && !a.DomainExit? && !a.Yield? && !a.DomainStart? && !a.DomainStop? && !a.IpiParked?
    ensures Local(c, s, Call(c, s, h, a).value, h)
  {
    if a.MmSend? || a.Retrieve? || a.Complete? {
      MailLocal(c, s, h, a);
    } else {
      PlainLocal(c, s, h, a);
    }
  }

  lemma MailLocal(c: Config, s: State, h: nat, a: Action)
    requires Wf(c, s) && h < c.harts && s.harts[h].pc.Smode? && HsmOk(s.harts[h]) && Call(c, s, h, a).Some?
    requires a.MmSend? || a.Retrieve? || a.Complete?
    ensures Local(c, s, Call(c, s, h, a).value, h)
  {
  }

  lemma PlainLocal(c: Config, s: State, h: nat, a: Action)
    requires Wf(c, s) && h < c.harts && s.harts[h].pc.Smode? && HsmOk(s.harts[h]) && Call(c, s, h, a).Some?
    requires a.Software? || a.HartStop? || a.HartSuspend? || a.StopCheck? || a.HartStart?
    ensures Local(c, s, Call(c, s, h, a).value, h)
  {
  }

  lemma StepStops(c: Config, s: State, h: nat, a: Action)
    requires StopInv(c, s) && Step(c, s, h, a).Some?
    ensures StopInv(c, Step(c, s, h, a).value) && h < c.harts
    ensures Fenced(c, s, Step(c, s, h, a).value, h)
  {
    var pc := s.harts[h].pc;
    if a.Wake? {
      SamePlacesKeep(c, s, Step(c, s, h, a).value);
      assert HsmOk(s.harts[h]);
      LocalKeeps(c, s, Step(c, s, h, a).value, h);
    } else if a.Go? {
      if Booting(pc) { BootStops(c, s, h); }
      else if pc.StopRaise? { RaiseStops(c, s, h, pc.dom); }
      else if Stopping(pc) { StopStops(c, s, h); }
      else if pc.Sending? { SendingStops(c, s, h, pc.chan); }
      else if pc.Completing? { CompletingStops(c, s, h); }
      else if pc.StopSelf? { StopSelfStops(c, s, h); }
      else { HsmStops(c, s, h); }
    } else if a.DomainEnter? || a.DomainExit? || a.Yield? {
      MovesKeep(c, s, h, a);
    } else if a.DomainStart? || a.DomainStop? || a.IpiParked? {
      ForgetStops(c, s, h, a);
    } else {
      OtherCallsStop(c, s, h, a);
    }
  }

  lemma {:induction false} StopInvHolds(c: Config, run: seq<State>, moves: seq<Move>, i: nat)
    requires IsRun(c, run, moves) && i < |run|
    ensures StopInv(c, run[i])
  {
    if i == 0 {
      InitPlaced(c, run[0]);
      assert forall h :: 0 <= h < c.harts ==> InitHart(c, h, run[0].harts[h]);
    } else {
      var k := i - 1;
      StopInvHolds(c, run, moves, k);
      assert Step(c, run[k], moves[k].hart, moves[k].action) == Some(run[k + 1]);
      StepStops(c, run[k], moves[k].hart, moves[k].action);
    }
  }

  // ---- what holds when the flag goes down ----------------------------------------------

  lemma RaisedIsUp(c: Config, s: State, k: nat, d: nat)
    requires StopInv(c, s) && k < c.harts && d < c.doms && Raised(s.harts[k].pc, d)
    ensures s.doms[d].stopping && !Init(c, s)
  {
    assert StopperOk(c, s, k, d);
  }

  /** One step of a run, as a stop of `d` by hart `k` sees it. */
  lemma RaisedStep(c: Config, run: seq<State>, moves: seq<Move>, b: nat, k: nat, d: nat)
    requires IsRun(c, run, moves) && b < |moves| && k < c.harts && d < c.doms && Raised(run[b + 1].harts[k].pc, d)
    ensures run[b + 1].doms[d].stopping && NobodyIn(c, run[b], run[b + 1], d)
    ensures Raised(run[b].harts[k].pc, d) || (moves[b].hart == k && run[b].harts[k].pc == StopRaise(d))
  {
    var s := run[b];
    StopInvHolds(c, run, moves, b);
    StopInvHolds(c, run, moves, b + 1);
    assert Step(c, s, moves[b].hart, moves[b].action) == Some(run[b + 1]);
    StepStops(c, s, moves[b].hart, moves[b].action);
    RaisedIsUp(c, run[b + 1], k, d);
    if Raised(s.harts[k].pc, d) {
      RaisedIsUp(c, s, k, d);
    } else {
      assert s.harts[k].pc == StopRaise(d);
      GoOnly(c, s, k, moves[b].action);
      RaiseSame(c, s, k, d);
    }
  }

  lemma GoOnly(c: Config, s: State, h: nat, a: Action)
    requires Wf(c, s) && h < c.harts && s.harts[h].pc.StopRaise? && Step(c, s, h, a).Some?
    ensures Step(c, s, h, a) == StopStep(c, s, h)
  {
  }

  lemma NotRaisedAtFirst(c: Config, s: State, k: nat, d: nat)
    requires Init(c, s) && k < c.harts
    ensures !Raised(s.harts[k].pc, d)
  {
  }

  /** A hart with the flag of `d` up has raised it, and it has been up since. */
  lemma {:induction false} RaisedBefore(c: Config, run: seq<State>, moves: seq<Move>, i: nat, k: nat, d: nat)
    returns (up: nat)
    requires IsRun(c, run, moves) && i < |run| && k < c.harts && d < c.doms && Raised(run[i].harts[k].pc, d)
    ensures up < i && moves[up].hart == k && run[up].harts[k].pc == StopRaise(d)
    ensures forall m :: up < m <= i ==> run[m].doms[d].stopping
    ensures forall m :: up <= m <= i ==> NobodyIn(c, run[up], run[m], d)
  {
    assert i > 0 by {
      NotRaisedAtFirst(c, run[0], k, d);
    }
    var b := i - 1;
    RaisedStep(c, run, moves, b, k, d);
    if Raised(run[b].harts[k].pc, d) {
      up := RaisedBefore(c, run, moves, b, k, d);
      NobodyInBoth(c, run[up], run[b], run[b + 1], d);
    } else {
      up := b;
    }
  }

  lemma NobodyInBoth(c: Config, s: State, t: State, r: State, d: nat)
    requires Wf(c, s) && Wf(c, t) && Wf(c, r) && d < c.doms && NobodyIn(c, s, t, d) && NobodyIn(c, t, r, d)
    ensures NobodyIn(c, s, r, d)
  {
  }

  /**
   A hart `k` lowers the flag of a domain `d`. From the moment it raised it (step `up`) nobody was
   let into `d`; and now every hart of `d` but `k` itself is stopped, none is parked in it, and
   no context of it waits to go on.
   */
  lemma StopIsDone(c: Config, run: seq<State>, moves: seq<Move>, i: nat, k: nat, d: nat)
    returns (up: nat)
    requires IsRun(c, run, moves) && i < |moves| && moves[i] == Move(k, Go) && k < c.harts && d < c.doms
    requires run[i].harts[k].pc == StopLower(d)
    ensures up < i && moves[up].hart == k && run[up].harts[k].pc == StopRaise(d)
    ensures forall m :: up < m <= i ==> run[m].doms[d].stopping
    ensures forall m :: up <= m <= i ==> NobodyIn(c, run[up], run[m], d)
    ensures Stopped(c, run[i + 1], d, k)
  {
    up := RaisedBefore(c, run, moves, i, k, d);
    assert Step(c, run[i], moves[i].hart, moves[i].action) == Some(run[i + 1]);
    StopInvHolds(c, run, moves, i);
    StopInvHolds(c, run, moves, i + 1);
    LowerIsDone(c, run[i], k, d);
  }

  /** No hart of `d` runs, but for `k` if that is one, and none waits in it. */
  ghost predicate Stopped(c: Config, s: State, d: nat, k: nat)
    requires Wf(c, s) && d < c.doms
  {
    && !s.doms[d].stopping && s.doms[d].parked == {}
    && (forall j :: 0 <= j < c.harts && j in c.valid && j in s.doms[d].runs ==>
          s.harts[j].hsm.Stopped? || (j == k && s.harts[k].dom == d))
    && (forall j :: 0 <= j < c.harts ==> !Waits(s.harts[j].ctx[d]))
  }

  lemma LowerIsDone(c: Config, s: State, k: nat, d: nat)
    requires StopInv(c, s) && k < c.harts && d < c.doms
    requires s.harts[k].pc == StopLower(d)
    ensures Stopped(c, StopStep(c, s, k).value, d, k)
  {
    assert StopperOk(c, s, k, d);
    StopHas(c, s, k);
    var r := StopStep(c, s, k).value;
    assert r.doms[d] == s.doms[d].(stopping := false);
    forall j | 0 <= j < c.harts ensures j !in s.doms[d].parked
    ensures j in c.valid && j in s.doms[d].runs ==> r.harts[j].hsm.Stopped? || (j == k && r.harts[k].dom == d) {
      assert Placed(c, s, j) && Quiet(c, s, k, d, j);
    }
    assert s.doms[d].parked == {} by {
      forall j | j in s.doms[d].parked ensures false { }
    }
  }
}
