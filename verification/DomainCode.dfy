/**
 The sections of domain_context.c under domain_lock, as they work on the tables in place.
 Each is proved to be the step of the model it stands for, so what holds of the model's
 runs holds of runs made of these.
 */
module DomainCode {
  import opened Options
  import opened DomainModel

  class Monitor {
    const c: Config
    const harts: array<Hart>
    const doms: array<Domain>
    var startLock: Option<nat>
    var stopLock: Option<nat>

    constructor (c: Config, s: State)
      ensures this.c == c && View() == s && fresh(harts) && fresh(doms)
    {
      this.c := c;
      harts := new Hart[|s.harts|](i requires 0 <= i < |s.harts| => s.harts[i]);
      doms := new Domain[|s.doms|](i requires 0 <= i < |s.doms| => s.doms[i]);
      startLock, stopLock := s.startLock, s.stopLock;
      new;
      assert harts[..] == s.harts && doms[..] == s.doms;
    }

    /** The tables as a state of the model. */
    ghost function View(): State
      reads this, harts, doms
    {
      State(harts[..], doms[..], startLock, stopLock)
    }

    ghost predicate Valid()
      reads this, harts, doms
    {
      Wf(c, View())
    }

    /** context_park(): what the hart is goes into its context. */
    method ContextPark(h: nat, phase: Phase, quiet: bool)
      requires Valid() && h < c.harts
      modifies harts, doms
      ensures Valid() && View() == Park(c, old(View()), h, phase, quiet)
    {
      ghost var was := View();
      assert WfHart(c, was.harts[h]);
      var d := harts[h].dom;
      var ctx := harts[h].ctx[d];
      var saved := ctx.(saved := Save(c, h, harts[h].live, ctx.saved));
      harts[h] := harts[h].(live := harts[h].live.(shmem := None));
      saved := saved.(phase := phase, quiet := quiet);
      harts[h] := harts[h].(ctx := harts[h].ctx[d := saved]);
      doms[d] := doms[d].(parked := doms[d].parked + {h});
      assert View() == Park(c, was, h, phase, quiet);
    }

    /** context_restore(): all of context `t` but its registers. */
    method ContextRestore(h: nat, t: nat)
      requires Valid() && h < c.harts && t < c.doms
      modifies harts, doms
      ensures Valid() && View() == Restore(c, old(View()), h, t)
    {
      ghost var was := View();
      assert WfHart(c, was.harts[h]);
      var ctx := harts[h].ctx[t];
      var from := harts[h].dom;
      var live := Load(c, h, ctx).(regs := harts[h].live.regs);
      doms[from] := doms[from].(runs := doms[from].runs - {h});
      doms[t] := doms[t].(parked := doms[t].parked - {h});
      doms[t] := doms[t].(runs := doms[t].runs + {h}, admitted := doms[t].admitted + 1);
      harts[h] := harts[h].(dom := t, live := live, ctx := harts[h].ctx[t := ctx.(ipi := false, phase := Running)]);
      assert View() == Restore(c, was, h, t);
    }

    /** context_switch(), up to the hart's taking over. */
    method SwitchPrepare(h: nat, t: nat, error: int, value: int) returns (anew: bool)
      requires Valid() && h < c.harts && t < c.doms
      modifies harts
      ensures Valid() && View() == Prepare(c, old(View()), h, t, error, value)
      ensures anew == old(View()).harts[h].ctx[t].phase.Never?
    {
      ghost var was := View();
      assert WfHart(c, was.harts[h]);
      var ctx := harts[h].ctx[t];
      anew := ctx.phase.Never?;
      if anew {
        var boot := FreshLive(c, h, t, harts[h].live);
        if c.bootHart[t] != h {
          boot := boot.(regs := boot.regs.(mstatus := harts[h].live.regs.mstatus));
          harts[h] := harts[h].(hsm := StopPending);
        }
        ctx := Context(Never, ctx.caller, false, false, boot);
      } else {
        if !ctx.quiet {
          ctx := ctx.(saved := ctx.saved.(regs := ctx.saved.regs.(a0 := error, a1 := value)));
        }
        ctx := ctx.(quiet := false);
      }
      harts[h] := harts[h].(ctx := harts[h].ctx[t := ctx]);
      assert View() == Prepare(c, was, h, t, error, value);
    }

    /** context_switch(): a hart has to stop in a domain that another boots. */
    method ContextSwitch(h: nat, t: nat, error: int, value: int)
      requires Valid() && h < c.harts && t < c.doms
      modifies harts, doms
      ensures Valid() && View() == Switch(c, old(View()), h, t, error, value)
    {
      ghost var was := View();
      var anew := SwitchPrepare(h, t, error, value);
      ContextRestore(h, t);
      ghost var r := View();
      assert WfHart(c, r.harts[h]);
      if anew && c.bootHart[t] != h {
        harts[h] := harts[h].(pc := ForceStop);
      } else {
        harts[h] := harts[h].(live := harts[h].live.(regs := harts[h].ctx[t].saved.regs));
        if !anew {
          harts[h] := Answer(harts[h]);
        }
      }
      assert View() == Switch(c, was, h, t, error, value);
    }

    /** enter(): the checks, and if they pass the switch. */
    method ContextEnter(h: nat, t: nat, arg: int, quiet: bool) returns (rc: Rc)
      requires Valid() && h < c.harts && t < c.doms
      modifies harts, doms
      ensures Valid() && rc == EnterRc(c, old(View()), h, t, quiet)
      ensures View() == if rc.Ok? then Enter(c, old(View()), h, t, arg, quiet) else old(View())
    {
      ghost var was := View();
      assert WfHart(c, was.harts[h]);
      var cur := harts[h].dom;
      var to := harts[h].ctx[t];
      if t == cur || h !in c.possible[t] {
        return InvalidParam;
      }
      if !quiet && (cur, t) !in c.mayEnter {
        return Denied;
      }
      if doms[t].stopping || doms[cur].stopping {
        return Denied;
      }
      if to.phase.Running? || to.phase.Calling? {
        return AlreadyAvailable;
      }
      if to.phase.Never? && !c.entryOk[t] {
        return InvalidAddress;
      }
      Link(h, t, quiet);
      ContextSwitch(h, t, SUCCESS, arg);
      return Ok;
    }

    /** The hart's context waits, and the target's knows for whom. */
    method Link(h: nat, t: nat, quiet: bool)
      requires Valid() && h < c.harts && t < c.doms
      modifies harts, doms
      ensures Valid() && View() == Linked(c, old(View()), h, t, quiet)
    {
      ghost var was := View();
      assert WfHart(c, was.harts[h]);
      var cur, live := harts[h].dom, harts[h].live;
      ContextPark(h, Calling, quiet);
      assert WfHart(c, View().harts[h]);
      harts[h] := harts[h].(ctx := harts[h].ctx[t := harts[h].ctx[t].(caller := Some(cur))],
                            log := harts[h].log + [Entered(cur, live, quiet)]);
      assert View() == Linked(c, was, h, t, quiet);
    }

    /** The target of leave(): a caller that waits, else a domain still to be booted. */
    method FindLeave(h: nat, quiet: bool, first: Option<nat>) returns (to: Option<nat>)
      requires Valid() && h < c.harts
      ensures to == LeaveFind(c, View(), h, quiet, first)
    {
      ghost var s := View();
      assert WfHart(c, s.harts[h]);
      var x := harts[h];
      if x.ctx[x.dom].caller.Some? && x.ctx[x.ctx[x.dom].caller.value].phase == Calling {
        return x.ctx[x.dom].caller;
      }
      if quiet {
        if first.Some? && first.value < c.doms {
          var d := first.value;
          if d != x.dom && c.bootHart[d] == h && h in c.possible[d] && !doms[d].stopping
             && x.ctx[d].phase.Never? && c.entryOk[d] {
            return first;
          }
        }
        return None;
      }
      var d := 1;
      while d < c.doms
        invariant 1 <= d <= c.doms && FirstBoot(c, s, h, 1) == FirstBoot(c, s, h, d)
      {
        if d != x.dom && h in c.possible[d] && (x.dom, d) in c.mayEnter && !doms[d].stopping && x.ctx[d].phase.Never? {
          return Some(d);
        }
        d := d + 1;
      }
      return None;
    }

    /** leave(): the hart's context is idle, and another takes over; false: it is refused. */
    method ContextLeave(h: nat, value: int, quiet: bool, first: Option<nat>) returns (ok: bool)
      requires Valid() && h < c.harts
      modifies harts, doms
      ensures Valid()
      ensures var to := LeaveTo(c, old(View()), h, quiet, first);
              var denied := Refused(c, old(View()), h, quiet, first);
              ok == to.Some? && View() == if ok then Leave(c, old(View()), h, to.value, value, quiet)
                                          else if denied.Some? then denied.value else old(View())
    {
      ghost var was := View();
      assert WfHart(c, was.harts[h]);
      var to := FindLeave(h, quiet, first);
      if to.None? {
        return false;
      }
      if doms[harts[h].dom].stopping {
        var x := harts[h];
        if !(x.ctx[x.dom].caller.Some? && x.ctx[x.ctx[x.dom].caller.value].phase == Calling) {
          harts[h] := x.(ctx := x.ctx[to.value := x.ctx[to.value].(caller := None)]);
          assert View() == Refused(c, was, h, quiet, first).value;
        }
        return false;
      }
      Unlink(h, to.value);
      ContextPark(h, Idle, quiet);
      ContextSwitch(h, to.value, SUCCESS, value);
      return true;
    }

    /** The caller's link has done its work; a domain entered at boot has no caller. */
    method Unlink(h: nat, t: nat)
      requires Valid() && h < c.harts && t < c.doms
      modifies harts
      ensures Valid() && View() == Unlinked(c, old(View()), h, t)
    {
      ghost var was := View();
      assert WfHart(c, was.harts[h]);
      var x := harts[h];
      if x.ctx[x.dom].caller.Some? && x.ctx[x.ctx[x.dom].caller.value].phase == Calling {
        x := x.(log := x.log + [Returned]);
      } else {
        x := x.(ctx := x.ctx[t := x.ctx[t].(caller := None)]);
      }
      x := x.(ctx := x.ctx[x.dom := x.ctx[x.dom].(caller := None)]);
      harts[h] := x;
      assert View() == Unlinked(c, was, h, t);
    }

    /** domain_stop_self(): its context is gone; back to a caller that waits, or to a stop. */
    method StopSelf(h: nat)
      requires Valid() && h < c.harts
      modifies harts, doms
      ensures Valid() && View() == StopSelfStep(c, old(View()), h)
    {
      ghost var was := View();
      assert WfHart(c, was.harts[h]);
      var x := harts[h];
      var cur := x.ctx[x.dom];
      var waits := cur.caller.Some? && x.ctx[cur.caller.value].phase == Calling;
      x := x.(ctx := x.ctx[x.dom := cur.(phase := Never, caller := None)]);
      if !waits || x.ctx[cur.caller.value].phase.Never? {
        harts[h] := x.(pc := ForceStop);
        assert View() == StopSelfStep(c, was, h);
        return;
      }
      harts[h] := x.(pc := Smode);
      assert View() == SetHart(was, h, x.(pc := Smode));
      ContextSwitch(h, cur.caller.value, ERR_FAILED, 0);
    }

    /** domain_stop(), under the lock: it raises the flag and drops CALLING and IDLE contexts. */
    method StopRaise(d: nat)
      requires Valid() && d < c.doms
      modifies harts, doms
      ensures Valid() && View() == Raise(c, old(View()), d)
    {
      ghost var was := View();
      doms[d] := doms[d].(stopping := true);
      for i := 0 to harts.Length
        invariant doms.Length == c.doms
        invariant forall j :: 0 <= j < i ==> harts[j] == Dropped(was.harts[j], d)
        invariant forall j :: i <= j < harts.Length ==> harts[j] == was.harts[j]
        invariant forall e :: 0 <= e < doms.Length && e != d ==> doms[e] == was.doms[e]
        invariant doms[d] == was.doms[d].(stopping := true, parked := was.doms[d].parked - WaitingBelow(c, was, d, i))
      {
        assert WfHart(c, was.harts[i]);
        var ctx := harts[i].ctx[d];
        if ctx.phase == Calling || ctx.phase == Idle {
          harts[i] := harts[i].(ctx := harts[i].ctx[d := ctx.(phase := Never, caller := None)]);
          doms[d] := doms[d].(parked := doms[d].parked - {i});
        }
        WaitingOneMore(c, was, d, i);
      }
      assert WaitingBelow(c, was, d, harts.Length) == WaitingIn(c, was, d);
      assert harts[..] == Raise(c, was, d).harts && doms[..] == Raise(c, was, d).doms;
    }

    /** domain_start(), under the lock: no hart has a context of the domain any more. */
    method StartForget(d: nat)
      requires Valid() && d < c.doms
      modifies harts
      ensures Valid() && View() == Forget(c, old(View()), d)
    {
      ghost var was := View();
      for i := 0 to harts.Length
        invariant forall j :: 0 <= j < i ==> harts[j] == Forgotten(was.harts[j], d)
        invariant forall j :: i <= j < harts.Length ==> harts[j] == was.harts[j]
      {
        assert WfHart(c, was.harts[i]);
        harts[i] := harts[i].(ctx := harts[i].ctx[d := harts[i].ctx[d].(phase := Never)]);
      }
      assert harts[..] == Forget(c, was, d).harts;
    }
  }

  /** enter(), before the switch. */
  ghost function Linked(c: Config, s: State, h: nat, t: nat, quiet: bool): (r: State)
    requires Wf(c, s) && h < c.harts && t < c.doms
    ensures Wf(c, r)
  {
    var x := s.harts[h];
    var parked := Park(c, s, h, Calling, quiet);
    var y := parked.harts[h];
    SetHart(parked, h, y.(ctx := y.ctx[t := y.ctx[t].(caller := Some(x.dom))],
                          log := y.log + [Entered(x.dom, x.live, quiet)]))
  }

  /** leave(), before the hart is parked. */
  ghost function Unlinked(c: Config, s: State, h: nat, t: nat): (r: State)
    requires Wf(c, s) && h < c.harts && t < c.doms
    ensures Wf(c, r)
  {
    var x := s.harts[h];
    var back := CallerWaits(c, s, h, x.dom);
    var y := if back then x.(log := x.log + [Returned]) else x.(ctx := x.ctx[t := x.ctx[t].(caller := None)]);
    SetHart(s, h, y.(ctx := y.ctx[x.dom := y.ctx[x.dom].(caller := None)]))
  }

  ghost function WaitingBelow(c: Config, s: State, d: nat, n: nat): set<nat>
    requires Wf(c, s) && d < c.doms && n <= |s.harts|
  {
    set i | 0 <= i < n && Waits(s.harts[i].ctx[d])
  }

  lemma WaitingOneMore(c: Config, s: State, d: nat, n: nat)
    requires Wf(c, s) && d < c.doms && n < |s.harts|
    ensures WaitingBelow(c, s, d, n + 1) == WaitingBelow(c, s, d, n) + if Waits(s.harts[n].ctx[d]) then {n} else {}
  {
  }
}
