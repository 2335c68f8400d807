/**
 What a reset of a domain's events can meet. domain_stop() resets them before it lowers its
 flag, and domain_start() between its section under the lock and the start of the boot hart.
 */
module DomainReset {
  import opened Options
  import opened DomainModel
  import opened DomainPlacement
  import opened DomainUp
  import DomainStop

  /** A start of hart `g` has been let through and is about to tell it. */
  ghost predicate BeingStarted(c: Config, s: State, g: nat)
    requires Wf(c, s)
  {
    exists b :: 0 <= b < c.harts && s.harts[b].pc == BootStore(g)
  }

  /** Some hart of domain `d` is up, or has been let up. */
  ghost predicate Alive(c: Config, s: State, d: nat)
    requires Wf(c, s)
  {
    exists g :: 0 <= g < c.harts && s.harts[g].dom == d && (!s.harts[g].hsm.Stopped? || BeingStarted(c, s, g))
  }

  /** Hart `h` has moved to domain `t`, and been let in there. */
  ghost predicate Arrives(c: Config, s: State, r: State, h: nat, t: nat)
    requires Wf(c, s) && Wf(c, r) && h < c.harts && t < c.doms
  {
    && (forall i :: 0 <= i < c.harts && i != h ==> r.harts[i] == s.harts[i])
    && r.harts[h].dom == t && (r.harts[h].hsm == s.harts[h].hsm || r.harts[h].hsm.StopPending?)
    && !r.harts[h].pc.BootStore?
    && (forall d :: 0 <= d < c.doms ==> r.doms[d].admitted == s.doms[d].admitted + if d == t then 1 else 0)
  }

  /** Nobody moves or is let in; what changes of a hart that is not up is nothing. */
  ghost predicate StaysPut(c: Config, s: State, r: State)
    requires Wf(c, s) && Wf(c, r)
  {
    && (forall i :: 0 <= i < c.harts ==> r.harts[i].dom == s.harts[i].dom)
    && (forall i :: 0 <= i < c.harts && s.harts[i].hsm.Stopped? && !r.harts[i].hsm.Stopped? ==> BeingStarted(c, s, i))
    && (forall i :: 0 <= i < c.harts && r.harts[i].pc.BootStore? ==> s.harts[i].pc == r.harts[i].pc)
    && (forall d :: 0 <= d < c.doms ==> r.doms[d].admitted == s.doms[d].admitted)
  }

  /** A step brings a domain back to life just when it lets somebody in. */
  ghost predicate Enlivens(c: Config, s: State, r: State)
    requires Wf(c, s) && Wf(c, r)
  {
    forall d :: 0 <= d < c.doms ==>
      && r.doms[d].admitted >= s.doms[d].admitted
      && (!Alive(c, s, d) ==> (Alive(c, r, d) <==> r.doms[d].admitted > s.doms[d].admitted))
  }

  lemma PutEnlivens(c: Config, s: State, r: State)
    requires Wf(c, s) && Wf(c, r) && StaysPut(c, s, r)
    ensures Enlivens(c, s, r)
  {
    forall d | 0 <= d < c.doms && Alive(c, r, d) ensures Alive(c, s, d) {
      var g :| 0 <= g < c.harts && r.harts[g].dom == d && (!r.harts[g].hsm.Stopped? || BeingStarted(c, r, g));
      if BeingStarted(c, r, g) {
        var b :| 0 <= b < c.harts && r.harts[b].pc == BootStore(g);
        assert s.harts[b].pc == BootStore(g);
      }
      assert !s.harts[g].hsm.Stopped? || BeingStarted(c, s, g);
    }
  }

  lemma ArrivalEnlivens(c: Config, s: State, r: State, h: nat, t: nat)
    requires Wf(c, s) && Wf(c, r) && h < c.harts && t < c.doms && Arrives(c, s, r, h, t) && !s.harts[h].hsm.Stopped?
    ensures Enlivens(c, s, r)
  {
    assert Alive(c, r, t);
    forall d | 0 <= d < c.doms && d != t && Alive(c, r, d) ensures Alive(c, s, d) {
      var g :| 0 <= g < c.harts && r.harts[g].dom == d && (!r.harts[g].hsm.Stopped? || BeingStarted(c, r, g));
      if BeingStarted(c, r, g) {
        var b :| 0 <= b < c.harts && r.harts[b].pc == BootStore(g);
        assert s.harts[b].pc == BootStore(g);
      }
      assert g != h;
    }
  }

  lemma SwitchArrives(c: Config, s: State, h: nat, t: nat, error: int, value: int)
    requires Wf(c, s) && h < c.harts && t < c.doms && s.harts[h].pc.Smode?
    ensures Arrives(c, s, Switch(c, s, h, t, error, value), h, t)
  {
  }

  /** Only hart `h` is different, and not in what an arrival is about. */
  lemma ArrivesFrom(c: Config, s: State, m: State, r: State, h: nat, t: nat)
    requires Wf(c, s) && Wf(c, m) && Wf(c, r) && h < c.harts && t < c.doms && Arrives(c, m, r, h, t)
    requires forall i :: 0 <= i < c.harts && i != h ==> m.harts[i] == s.harts[i]
    requires m.harts[h].hsm == s.harts[h].hsm
    requires forall d :: 0 <= d < c.doms ==> m.doms[d].admitted == s.doms[d].admitted
    ensures Arrives(c, s, r, h, t)
  {
  }

  lemma EnterArrives(c: Config, s: State, h: nat, t: nat, arg: int, quiet: bool)
    requires Wf(c, s) && h < c.harts && t < c.doms && s.harts[h].pc.Smode?
    ensures Arrives(c, s, Enter(c, s, h, t, arg, quiet), h, t)
  {
    var x := s.harts[h];
    var parked := Park(c, s, h, Calling, quiet);
    var y := parked.harts[h];
    var linked := SetHart(parked, h, y.(ctx := y.ctx[t := y.ctx[t].(caller := Some(x.dom))],
                                        log := y.log + [Entered(x.dom, x.live, quiet)]));
    SwitchArrives(c, linked, h, t, SUCCESS, arg);
    ArrivesFrom(c, s, linked, Enter(c, s, h, t, arg, quiet), h, t);
  }

  lemma LeaveArrives(c: Config, s: State, h: nat, t: nat, value: int, quiet: bool)
    requires Wf(c, s) && h < c.harts && t < c.doms && s.harts[h].pc.Smode?
    ensures Arrives(c, s, Leave(c, s, h, t, value, quiet), h, t)
  {
    var x := s.harts[h];
    var back := CallerWaits(c, s, h, x.dom);
    var y := if back then x.(log := x.log + [Returned]) else x.(ctx := x.ctx[t := x.ctx[t].(caller := None)]);
    var z := y.(ctx := y.ctx[x.dom := y.ctx[x.dom].(caller := None)]);
    var p := Park(c, SetHart(s, h, z), h, Idle, quiet);
    SwitchArrives(c, p, h, t, SUCCESS, value);
    ArrivesFrom(c, s, p, Leave(c, s, h, t, value, quiet), h, t);
  }

  lemma ToldArrives(c: Config, s: State, h: nat, regs: Regs, t: nat)
    requires Wf(c, s) && h < c.harts && t < c.doms
    ensures Arrives(c, s, Leave(c, Told(c, s, h, regs), h, t, 0, true), h, t)
  {
    var told := Told(c, s, h, regs);
    LeaveArrives(c, told, h, t, 0, true);
    ArrivesFrom(c, s, told, Leave(c, told, h, t, 0, true), h, t);
  }

  lemma SentArrives(c: Config, s: State, h: nat, t: nat)
    requires Wf(c, s) && h < c.harts && t < c.doms
    ensures Arrives(c, s, Enter(c, At(c, s, h, Smode), h, t, 0, true), h, t)
  {
    var idle := At(c, s, h, Smode);
    EnterArrives(c, idle, h, t, 0, true);
    ArrivesFrom(c, s, idle, Enter(c, idle, h, t, 0, true), h, t);
  }

  /** A hart that steps is not stopped. */
  lemma MoverIsUp(c: Config, s: State, h: nat)
    requires DomainStop.StopInv(c, s) && h < c.harts && !s.harts[h].pc.Waiting?
    ensures !s.harts[h].hsm.Stopped?
  {
    assert DomainStop.HsmOk(s.harts[h]);
  }

  lemma LeaveCallEnlivens(c: Config, s: State, h: nat, a: Action, r: State)
    requires DomainStop.StopInv(c, s) && h < c.harts && s.harts[h].pc.Smode? && Call(c, s, h, a) == Some(r)
    requires a.DomainExit? || a.Yield?
    ensures Enlivens(c, s, r)
  {
    MoverIsUp(c, s, h);
    var to := LeaveTo(c, s, h, a.Yield?, if a.Yield? then a.first else None);
    if to.None? {
      PutEnlivens(c, s, r);
    } else if a.Yield? {
      ToldEnlivens(c, s, h, Again(s.harts[h].live.regs), to.value, r);
    } else {
      LeaveArrives(c, s, h, to.value, a.value, false);
      ArrivalEnlivens(c, s, r, h, to.value);
    }
  }

  lemma ToldEnlivens(c: Config, s: State, h: nat, regs: Regs, t: nat, r: State)
    requires Wf(c, s) && h < c.harts && t < c.doms && !s.harts[h].hsm.Stopped?
    requires r == Leave(c, Told(c, s, h, regs), h, t, 0, true)
    ensures Enlivens(c, s, r)
  {
    ToldArrives(c, s, h, regs, t);
    ArrivalEnlivens(c, s, r, h, t);
  }

  lemma CallStaysPut(c: Config, s: State, h: nat, a: Action, r: State)
    requires Wf(c, s) && h < c.harts && s.harts[h].pc.Smode? && !s.harts[h].hsm.Stopped? && Call(c, s, h, a) == Some(r)
    requires !a.DomainEnter? && !a.DomainExit? && !a.Yield?
    ensures StaysPut(c, s, r)
  {
    if a.MmSend? || a.Retrieve? || a.Complete? {
      MailStaysPut(c, s, h, a, r);
    } else if a.IpiParked? || a.DomainStart? {
      OthersStayPut(c, s, h, a, r);
    } else {
      OwnStaysPut(c, s, h, a, r);
    }
  }

  lemma MailStaysPut(c: Config, s: State, h: nat, a: Action, r: State)
    requires Wf(c, s) && h < c.harts && s.harts[h].pc.Smode? && Call(c, s, h, a) == Some(r)
    requires a.MmSend? || a.Retrieve? || a.Complete?
    ensures StaysPut(c, s, r)
  {
  }

  lemma OthersStayPut(c: Config, s: State, h: nat, a: Action, r: State)
    requires Wf(c, s) && h < c.harts && s.harts[h].pc.Smode? && Call(c, s, h, a) == Some(r)
    requires a.IpiParked? || a.DomainStart?
    ensures StaysPut(c, s, r)
  {
  }

  lemma OwnStaysPut(c: Config, s: State, h: nat, a: Action, r: State)
    requires Wf(c, s) && h < c.harts && s.harts[h].pc.Smode? && !s.harts[h].hsm.Stopped? && Call(c, s, h, a) == Some(r)
    requires a.Software? || a.HartStop? || a.HartSuspend? || a.StopCheck? || a.HartStart? || a.DomainStop?
    ensures StaysPut(c, s, r)
  {
  }

  lemma CallEnlivens(c: Config, s: State, h: nat, a: Action, r: State)
    requires DomainStop.StopInv(c, s) && h < c.harts && s.harts[h].pc.Smode? && Call(c, s, h, a) == Some(r)
    ensures Enlivens(c, s, r)
  {
    MoverIsUp(c, s, h);
    if a.DomainEnter? {
      EnterArrives(c, s, h, a.target, a.arg, false);
      ArrivalEnlivens(c, s, r, h, a.target);
    } else if a.DomainExit? || a.Yield? {
      LeaveCallEnlivens(c, s, h, a, r);
    } else {
      CallStaysPut(c, s, h, a, r);
      PutEnlivens(c, s, r);
    }
  }

  /** hsm_hart_boot() lets a hart up. */
  lemma CheckEnlivens(c: Config, s: State, h: nat, g: nat, seen: Hsm, r: State)
    requires Wf(c, s) && h < c.harts && s.harts[h].pc == BootCheck(g, seen) && BootStep(c, s, h) == Some(r)
    requires r.harts[h].pc.BootStore?
    ensures Enlivens(c, s, r)
  {
    var e := s.harts[g].dom;
    assert r.harts[h].pc == BootStore(g) && BeingStarted(c, r, g);
    assert Alive(c, r, e);
    forall d | 0 <= d < c.doms && d != e && Alive(c, r, d) ensures Alive(c, s, d) {
      var i :| 0 <= i < c.harts && r.harts[i].dom == d && (!r.harts[i].hsm.Stopped? || BeingStarted(c, r, i));
      if BeingStarted(c, r, i) {
        var b :| 0 <= b < c.harts && r.harts[b].pc == BootStore(i);
        assert b != h && s.harts[b].pc == BootStore(i);
      }
      assert s.harts[i].dom == d && (!s.harts[i].hsm.Stopped? || BeingStarted(c, s, i));
    }
  }

  lemma BootEnlivens(c: Config, s: State, h: nat, r: State)
    requires Wf(c, s) && h < c.harts && Booting(s.harts[h].pc) && BootStep(c, s, h) == Some(r)
    ensures Enlivens(c, s, r)
  {
    var pc := s.harts[h].pc;
    if pc.BootCheck? && r.harts[h].pc.BootStore? {
      CheckEnlivens(c, s, h, pc.hart, pc.seen, r);
    } else {
      BootStaysPut(c, s, h, r);
      PutEnlivens(c, s, r);
    }
  }

  lemma BootStaysPut(c: Config, s: State, h: nat, r: State)
    requires Wf(c, s) && h < c.harts && Booting(s.harts[h].pc) && BootStep(c, s, h) == Some(r)
    requires !r.harts[h].pc.BootStore?
    ensures StaysPut(c, s, r)
  {
    if s.harts[h].pc.BootStore? {
      assert BeingStarted(c, s, s.harts[h].pc.hart);
    }
  }

  lemma StopStaysPut(c: Config, s: State, h: nat, r: State)
    requires Wf(c, s) && h < c.harts && Stopping(s.harts[h].pc) && StopStep(c, s, h) == Some(r)
    ensures StaysPut(c, s, r)
  {
    if s.harts[h].pc.StopRaise? {
      RaiseStaysPut(c, s, h, s.harts[h].pc.dom);
    } else {
      ScanStaysPut(c, s, h, r);
    }
  }

  lemma RaiseStaysPut(c: Config, s: State, h: nat, d: nat)
    requires Wf(c, s) && h < c.harts && s.harts[h].pc == StopRaise(d)
    ensures StaysPut(c, s, At(c, Raise(c, s, d), h, StopBarrier(d)))
  {
    var r := At(c, Raise(c, s, d), h, StopBarrier(d));
    forall i | 0 <= i < c.harts
      ensures r.harts[i].dom == s.harts[i].dom && r.harts[i].hsm == s.harts[i].hsm
      ensures i != h ==> r.harts[i].pc == s.harts[i].pc {
      assert Raise(c, s, d).harts[i] == Dropped(s.harts[i], d);
    }
  }

  lemma ScanStaysPut(c: Config, s: State, h: nat, r: State)
    requires Wf(c, s) && h < c.harts && Stopping(s.harts[h].pc) && !s.harts[h].pc.StopRaise?
    requires StopStep(c, s, h) == Some(r)
    ensures StaysPut(c, s, r)
  {
  }

  lemma HsmStaysPut(c: Config, s: State, h: nat, r: State)
    requires Wf(c, s) && h < c.harts && !s.harts[h].pc.StopSelf? && !Booting(s.harts[h].pc)
    requires HsmStep(c, s, h) == Some(r)
    requires !s.harts[h].hsm.Stopped?
    ensures StaysPut(c, s, r)
  {
  }

  lemma StopSelfEnlivens(c: Config, s: State, h: nat)
    requires DomainStop.StopInv(c, s) && h < c.harts && s.harts[h].pc.StopSelf?
    ensures Enlivens(c, s, StopSelfStep(c, s, h))
  {
    var x, r := s.harts[h], StopSelfStep(c, s, h);
    MoverIsUp(c, s, h);
    if CallerWaits(c, s, h, x.dom) {
      BackArrives(c, s, h);
      ArrivalEnlivens(c, s, r, h, x.ctx[x.dom].caller.value);
    } else {
      PutEnlivens(c, s, r);
    }
  }

  lemma BackArrives(c: Config, s: State, h: nat)
    requires Placement(c, s) && h < c.harts && s.harts[h].pc.StopSelf? && CallerWaits(c, s, h, s.harts[h].dom)
    ensures Arrives(c, s, StopSelfStep(c, s, h), h, s.harts[h].ctx[s.harts[h].dom].caller.value)
  {
    var x := s.harts[h];
    var t := x.ctx[x.dom].caller.value;
    var gone := x.(ctx := x.ctx[x.dom := x.ctx[x.dom].(phase := Never, caller := None)], pc := Smode);
    SwitchArrives(c, SetHart(s, h, gone), h, t, ERR_FAILED, 0);
    ArrivesFrom(c, s, SetHart(s, h, gone), StopSelfStep(c, s, h), h, t);
  }

  lemma BridgeEnlivens(c: Config, s: State, h: nat, r: State)
    requires DomainStop.StopInv(c, s) && h < c.harts && Bridging(s.harts[h].pc) && BridgeStep(c, s, h) == Some(r)
    ensures Enlivens(c, s, r)
  {
    MoverIsUp(c, s, h);
    if s.harts[h].pc.Sending? {
      SendingEnlivens(c, s, h, r);
    } else {
      CompletingEnlivens(c, s, h, r);
    }
  }

  lemma SendingEnlivens(c: Config, s: State, h: nat, r: State)
    requires Wf(c, s) && h < c.harts && s.harts[h].pc.Sending? && !s.harts[h].hsm.Stopped?
    requires BridgeStep(c, s, h) == Some(r)
    ensures Enlivens(c, s, r)
  {
    var t := c.bridge[s.harts[h].pc.chan];
    if Enterable(c, s, h, t) && EnterRc(c, s, h, t, true).Ok? {
      SentArrives(c, s, h, t);
      ArrivalEnlivens(c, s, r, h, t);
    } else {
      PutEnlivens(c, s, r);
    }
  }

  lemma CompletingEnlivens(c: Config, s: State, h: nat, r: State)
    requires Wf(c, s) && h < c.harts && s.harts[h].pc.Completing? && !s.harts[h].hsm.Stopped?
    requires BridgeStep(c, s, h) == Some(r)
    ensures Enlivens(c, s, r)
  {
    var regs := s.harts[h].live.regs.(a0 := SUCCESS, a1 := 8);
    var to := LeaveTo(c, s, h, true, None);
    if to.Some? {
      ToldEnlivens(c, s, h, regs, to.value, r);
    } else {
      PutEnlivens(c, s, r);
    }
  }

  lemma StepEnlivens(c: Config, s: State, h: nat, a: Action, r: State)
    requires DomainStop.StopInv(c, s) && Step(c, s, h, a) == Some(r)
    ensures Enlivens(c, s, r)
  {
    var pc := s.harts[h].pc;
    if a.Go? {
      if Booting(pc) {
        BootEnlivens(c, s, h, r);
      } else if Stopping(pc) {
        StopStaysPut(c, s, h, r);
        PutEnlivens(c, s, r);
      } else if Bridging(pc) {
        BridgeEnlivens(c, s, h, r);
      } else if pc.StopSelf? {
        StopSelfEnlivens(c, s, h);
      } else {
        assert DomainStop.HsmOk(s.harts[h]);
        HsmStaysPut(c, s, h, r);
        PutEnlivens(c, s, r);
      }
    } else if a.Wake? {
      PutEnlivens(c, s, r);
    } else {
      CallEnlivens(c, s, h, a, r);
    }
  }

  // ---- over runs ---------------------------------------------------------------------------------

  ghost predicate AliveAfter(c: Config, run: seq<State>, k: nat, i: nat, d: nat)
    requires i < |run| && forall m :: 0 <= m < |run| ==> Wf(c, run[m])
  {
    exists m :: k < m <= i && Alive(c, run[m], d)
  }

  lemma RunEnlivens(c: Config, run: seq<State>, moves: seq<Move>, p: nat)
    requires IsRun(c, run, moves) && p < |moves|
    ensures Enlivens(c, run[p], run[p + 1])
  {
    DomainStop.StopInvHolds(c, run, moves, p);
    assert Step(c, run[p], moves[p].hart, moves[p].action) == Some(run[p + 1]);
    StepEnlivens(c, run[p], moves[p].hart, moves[p].action, run[p + 1]);
  }

  /**
   From a state in which no hart of a domain is up or has been let up, one is at some moment
   up to `i` if and only if an enter, an exit, a return or a start has let one in by then.
   So the reset of domain_start(), which is behind its section under the lock, can meet a
   running hart of the domain, and does just when another got in between the two.
   */
  lemma {:induction false} AliveJustWhen(c: Config, run: seq<State>, moves: seq<Move>, k: nat, i: nat, d: nat)
    requires IsRun(c, run, moves) && k <= i < |run| && d < c.doms && !Alive(c, run[k], d)
    ensures AliveAfter(c, run, k, i, d) <==> run[i].doms[d].admitted > run[k].doms[d].admitted
    ensures run[i].doms[d].admitted >= run[k].doms[d].admitted
    decreases i
  {
    if k < i {
      var p := i - 1;
      AliveJustWhen(c, run, moves, k, p, d);
      RunEnlivens(c, run, moves, p);
      assert AliveAfter(c, run, k, i, d) <==> AliveAfter(c, run, k, p, d) || Alive(c, run[i], d);
      if !AliveAfter(c, run, k, p, d) {
        assert !Alive(c, run[p], d);
      }
    }
  }

  /** The reset of domain_stop() meets nobody: every other valid hart of the domain waits to be started. */
  lemma StopResetsAlone(c: Config, run: seq<State>, moves: seq<Move>, i: nat, h: nat, d: nat, g: nat)
    requires IsRun(c, run, moves) && i < |run| && h < c.harts && g < c.harts && g != h && g in c.valid && d < c.doms
    requires run[i].harts[h].pc == StopLower(d) && run[i].harts[g].dom == d
    ensures run[i].harts[g].hsm.Stopped? && run[i].harts[g].pc.Waiting? && !BeingStarted(c, run[i], g)
  {
    DomainStop.StopInvHolds(c, run, moves, i);
    var s := run[i];
    assert DomainStop.StopperOk(c, s, h, d) && DomainStop.Quiet(c, s, h, d, g) && DomainStop.HsmOk(s.harts[g]);
  }

  // ---- a run in which the reset of a start does ----------------------------------------------------

  /** Some run gets to `s`, in which hart `h` is behind the section of its start of `d`, and has gone no further. */
  ghost predicate StartsAt(c: Config, s: State, h: nat, d: nat) {
    exists run, moves, k ::
      IsRun(c, run, moves) && run[|run| - 1] == s && HasLast(moves, k, Move(h, DomainStart(d, false)))
  }

  ghost predicate HasLast(moves: seq<Move>, k: nat, m: Move) {
    k < |moves| && moves[k] == m && forall j :: k < j < |moves| ==> moves[j].hart != m.hart
  }

  lemma LastStays(moves: seq<Move>, k: nat, m: Move, n: Move)
    requires HasLast(moves, k, m) && n.hart != m.hart
    ensures HasLast(moves + [n], k, m)
  {
  }

  lemma Witnessed(c: Config, run: seq<State>, moves: seq<Move>, k: nat, h: nat, d: nat)
    requires IsRun(c, run, moves) && HasLast(moves, k, Move(h, DomainStart(d, false)))
    ensures StartsAt(c, run[|run| - 1], h, d)
  {
  }

  lemma StartsOn(c: Config, s: State, h: nat, d: nat, p: nat, a: Action, r: State)
    requires StartsAt(c, s, h, d) && Wf(c, s) && p != h && Step(c, s, p, a) == Some(r)
    ensures StartsAt(c, r, h, d) && Wf(c, r)
  {
    var m := Move(h, DomainStart(d, false));
    var run: seq<State>, moves: seq<Move>, k :| IsRun(c, run, moves) && run[|run| - 1] == s && HasLast(moves, k, m);
    RunMore(c, run, moves, Move(p, a), r);
    LastStays(moves, k, m, Move(p, a));
    Witnessed(c, run + [r], moves + [Move(p, a)], k, h, d);
  }

  lemma StartsNow(c: Config, s: State, h: nat, d: nat, r: State)
    requires Reached(c, s) && Wf(c, s) && Step(c, s, h, DomainStart(d, false)) == Some(r)
    ensures StartsAt(c, r, h, d) && Wf(c, r)
  {
    var m := Move(h, DomainStart(d, false));
    var run, moves :| IsRun(c, run, moves) && run[|run| - 1] == s;
    RunMore(c, run, moves, m, r);
    assert HasLast(moves + [m], |moves|, m);
    Witnessed(c, run + [r], moves + [m], |moves|, h, d);
  }

  /** hsm_hart_boot(), up to the load of the other hart's state. */
  lemma BootLooks(c: Config, s: State, p: nat, g: nat) returns (s1: State, r: State)
    requires Wf(c, s) && p < c.harts && g < c.harts && g != p && s.startLock.None? && s.harts[p].pc == BootLock(g)
    ensures Wf(c, s1) && Step(c, s, p, Go) == Some(s1) && Step(c, s1, p, Go) == Some(r)
    ensures Wf(c, r) && r.harts[p].pc == BootCheck(g, s.harts[g].hsm) && r.harts[g] == s.harts[g] && r.doms == s.doms
  {
    s1 := Step(c, s, p, Go).value;
    r := Step(c, s1, p, Go).value;
  }

  /** ... and on, if it was STOPPED. */
  lemma BootTells(c: Config, s: State, p: nat, g: nat) returns (s1: State, r: State)
    requires Wf(c, s) && p < c.harts && g < c.harts && g != p && s.harts[p].pc == BootCheck(g, Stopped)
    requires !s.doms[s.harts[g].dom].stopping
    ensures Wf(c, s1) && Step(c, s, p, Go) == Some(s1) && Step(c, s1, p, Go) == Some(r)
    ensures Wf(c, r) && r.harts[g] == s.harts[g].(hsm := StartPending) && !r.doms[s.harts[g].dom].stopping
  {
    s1 := Step(c, s, p, Go).value;
    r := Step(c, s1, p, Go).value;
  }

  lemma StartsOnFour(c: Config, s: State, h: nat, d: nat, p: nat, s1: State, s2: State, s3: State, r: State)
    requires StartsAt(c, s, h, d) && p != h && Wf(c, s) && Wf(c, s1) && Wf(c, s2) && Wf(c, s3)
    requires Step(c, s, p, Go) == Some(s1) && Step(c, s1, p, Go) == Some(s2)
    requires Step(c, s2, p, Go) == Some(s3) && Step(c, s3, p, Go) == Some(r)
    ensures StartsAt(c, r, h, d)
  {
    StartsOn(c, s, h, d, p, Go, s1);
    StartsOn(c, s1, h, d, p, Go, s2);
    StartsOn(c, s2, h, d, p, Go, s3);
    StartsOn(c, s3, h, d, p, Go, r);
  }

  /** Of two harts that start `d`, one gets hart `g` up while the other has not moved. */
  lemma OtherComesUp(c: Config, s: State, h: nat, p: nat, g: nat, d: nat) returns (r: State)
    requires Wf(c, s) && StartsAt(c, s, h, d) && p < c.harts && g < c.harts && h != p && g != p && g != h
    requires s.startLock.None? && s.harts[p].pc == BootLock(g)
    requires s.harts[g].hsm.Stopped? && s.harts[g].pc.Waiting? && !s.doms[s.harts[g].dom].stopping
    ensures Wf(c, r) && StartsAt(c, r, h, d)
    ensures r.harts[g].dom == s.harts[g].dom && r.harts[g].pc.Smode? && r.harts[g].hsm.Started?
  {
    var s1, s2 := BootLooks(c, s, p, g);
    var s3, m := BootTells(c, s2, p, g);
    StartsOnFour(c, s, h, d, p, s1, s2, s3, m);
    s1, s2, s3 := FourSteps(c, m, g);
    r := SetHart(m, g, Upped(m.harts[g]));
    StartsOnFour(c, m, h, d, g, s1, s2, s3, r);
  }

  /** Harts 0 and 1 have both started the second domain, whose hart waits. */
  lemma BothStart() returns (r: State)
    ensures Wf(Trio(2), r) && StartsAt(Trio(2), r, 1, 1) && r.startLock.None? && !r.doms[1].stopping
    ensures r.harts[0].pc == BootLock(2) && r.harts[2].pc.Waiting? && r.harts[2].hsm.Stopped? && r.harts[2].dom == 1
  {
    var c := Trio(2);
    var s := BothUp(2);
    var s1 := At(c, Forget(c, s, 1), 0, BootLock(2));
    assert Step(c, s, 0, DomainStart(1, false)) == Some(s1);
    ReachesOn(c, s, 0, DomainStart(1, false), s1);
    r := At(c, Forget(c, s1, 1), 1, BootLock(2));
    assert Step(c, s1, 1, DomainStart(1, false)) == Some(r);
    StartsNow(c, s1, 1, 1, r);
  }

  /**
   Two starts of one domain at once: its boot hart is in S-mode, and the second start is still to
   reset its events.
   */
  lemma ResetMeetsHart() returns (r: State)
    ensures Wf(Trio(2), r) && StartsAt(Trio(2), r, 1, 1)
    ensures r.harts[2].dom == 1 && r.harts[2].pc.Smode? && r.harts[2].hsm.Started?
  {
    var s := BothStart();
    r := OtherComesUp(Trio(2), s, 1, 0, 2, 1);
  }
}
