/**
 The state that hsm.c keeps of a hart against what the hart does: a hart that runs S-mode is
 STARTED, except one that a stop sends back to its caller before it was.
 */
module DomainUp {
  import opened Options
  import opened DomainModel
  import opened DomainPlacement
  import DomainStop

  // ---- harts in S-mode are STARTED ---------------------------------------------------------

  /** In S-mode, or in a call of it. */
  predicate InSmode(pc: Pc) {
    pc.Smode? || Bridging(pc) || Booting(pc) || Stopping(pc)
  }

  /** The state says where the hart is in hsm.c. */
  predicate Fits(x: Hart) {
    if InSmode(x.pc) then x.hsm.Started?
    else
      match x.pc
      case Suspending(_) => x.hsm.SuspendPending?
      case Asleep(_) => x.hsm.Suspended?
      case Waking(_) => x.hsm.Suspended?
      case Resumed => x.hsm.ResumePending?
      case Starting => x.hsm.StartPending? || x.hsm.ResumePending?
      case StartCheck => x.hsm.StartPending? || x.hsm.ResumePending?
      case StartStore => x.hsm.StartPending? || x.hsm.ResumePending?
      case _ => true
  }

  ghost predicate AllFit(c: Config, s: State) {
    Wf(c, s) && forall h :: 0 <= h < c.harts ==> Fits(s.harts[h])
  }

  /** A hart that was on its way up goes back to a caller instead. */
  ghost predicate Slips(c: Config, s: State, h: nat)
    requires Wf(c, s) && h < c.harts
  {
    s.harts[h].pc.StopSelf? && !s.harts[h].hsm.Started? && CallerWaits(c, s, h, s.harts[h].dom)
  }

  ghost predicate SlipsBy(c: Config, s: State, m: Move)
    requires Wf(c, s)
  {
    m.hart < c.harts && m.action.Go? && Slips(c, s, m.hart)
  }

  /** Hart `h` steps, and no other hart is touched. */
  ghost predicate Alone(c: Config, s: State, r: State, h: nat)
    requires Wf(c, s) && Wf(c, r)
  {
    forall i :: 0 <= i < c.harts && i != h ==> r.harts[i].pc == s.harts[i].pc && r.harts[i].hsm == s.harts[i].hsm
  }

  /** The hart is in S-mode in the state it was in, or is to stop. */
  ghost predicate Carried(c: Config, s: State, r: State, h: nat)
    requires Wf(c, s) && Wf(c, r) && h < c.harts
  {
    && Alone(c, s, r, h)
    && (r.harts[h].pc.ForceStop? || (r.harts[h].pc.Smode? && r.harts[h].hsm == s.harts[h].hsm))
  }

  /** A switch of a hart from S-mode; to a context that waits, it is back there. */
  lemma SwitchCarries(c: Config, s: State, h: nat, t: nat, error: int, value: int)
    requires Wf(c, s) && h < c.harts && t < c.doms && s.harts[h].pc.Smode?
    ensures var r := Switch(c, s, h, t, error, value);
            Carried(c, s, r, h) && (!s.harts[h].ctx[t].phase.Never? ==> r.harts[h].pc.Smode?)
  {
  }

  lemma ParkCarries(c: Config, s: State, h: nat, phase: Phase, quiet: bool)
    requires Wf(c, s) && h < c.harts && s.harts[h].pc.Smode?
    ensures Carried(c, s, Park(c, s, h, phase, quiet), h) && Park(c, s, h, phase, quiet).harts[h].pc.Smode?
  {
  }

  lemma CarriedOn(c: Config, s: State, m: State, r: State, h: nat)
    requires Wf(c, s) && Wf(c, m) && Wf(c, r) && h < c.harts && Alone(c, s, m, h) && m.harts[h].hsm == s.harts[h].hsm
    requires Carried(c, m, r, h)
    ensures Carried(c, s, r, h)
  {
  }

  /** After a stop of its own domain a hart is in S-mode without being STARTED just when it slips. */
  lemma SlipJustWhen(c: Config, s: State, h: nat)
    requires Placement(c, s) && h < c.harts && s.harts[h].pc.StopSelf?
    ensures var x := StopSelfStep(c, s, h).harts[h];
            InSmode(x.pc) && !x.hsm.Started? <==> Slips(c, s, h)
    ensures forall i :: 0 <= i < c.harts && i != h ==> StopSelfStep(c, s, h).harts[i] == s.harts[i]
  {
    var x := s.harts[h];
    if CallerWaits(c, s, h, x.dom) {
      var gone := x.(ctx := x.ctx[x.dom := x.ctx[x.dom].(phase := Never, caller := None)], pc := Smode);
      SwitchCarries(c, SetHart(s, h, gone), h, x.ctx[x.dom].caller.value, ERR_FAILED, 0);
    }
  }

  lemma EnterCarries(c: Config, s: State, h: nat, t: nat, arg: int, quiet: bool)
    requires Wf(c, s) && h < c.harts && t < c.doms && s.harts[h].pc.Smode?
    ensures Carried(c, s, Enter(c, s, h, t, arg, quiet), h)
  {
    var x := s.harts[h];
    var parked := Park(c, s, h, Calling, quiet);
    var y := parked.harts[h];
    var linked := SetHart(parked, h, y.(ctx := y.ctx[t := y.ctx[t].(caller := Some(x.dom))],
                                        log := y.log + [Entered(x.dom, x.live, quiet)]));
    ParkCarries(c, s, h, Calling, quiet);
    SwitchCarries(c, linked, h, t, SUCCESS, arg);
    CarriedOn(c, s, linked, Enter(c, s, h, t, arg, quiet), h);
  }

  lemma LeaveCarries(c: Config, s: State, h: nat, t: nat, value: int, quiet: bool)
    requires Wf(c, s) && h < c.harts && t < c.doms && s.harts[h].pc.Smode?
    ensures Carried(c, s, Leave(c, s, h, t, value, quiet), h)
  {
    var x := s.harts[h];
    var back := CallerWaits(c, s, h, x.dom);
    var y := if back then x.(log := x.log + [Returned]) else x.(ctx := x.ctx[t := x.ctx[t].(caller := None)]);
    var z := SetHart(s, h, y.(ctx := y.ctx[x.dom := y.ctx[x.dom].(caller := None)]));
    var p := Park(c, z, h, Idle, quiet);
    ParkCarries(c, z, h, Idle, quiet);
    SwitchCarries(c, p, h, t, SUCCESS, value);
    CarriedOn(c, z, p, Leave(c, s, h, t, value, quiet), h);
  }

  /** A quiet exit, from S-mode or from the end of a call of it. */
  lemma ToldCarries(c: Config, s: State, h: nat, regs: Regs, t: nat)
    requires Wf(c, s) && h < c.harts && t < c.doms
    ensures Carried(c, s, Leave(c, Told(c, s, h, regs), h, t, 0, true), h)
  {
    var told := Told(c, s, h, regs);
    LeaveCarries(c, told, h, t, 0, true);
    CarriedOn(c, s, told, Leave(c, told, h, t, 0, true), h);
  }

  lemma CarriedFits(c: Config, s: State, r: State, h: nat)
    requires Wf(c, s) && Wf(c, r) && h < c.harts && s.harts[h].hsm.Started? && Carried(c, s, r, h)
    ensures Alone(c, s, r, h) && Fits(r.harts[h])
  {
  }

  lemma ExitCarries(c: Config, s: State, h: nat, value: int)
    requires Wf(c, s) && h < c.harts && s.harts[h].pc.Smode? && Call(c, s, h, DomainExit(value)).Some?
    ensures Carried(c, s, Call(c, s, h, DomainExit(value)).value, h)
  {
    var to := LeaveTo(c, s, h, false, None);
    if to.Some? {
      LeaveCarries(c, s, h, to.value, value, false);
    }
  }

  lemma YieldCarries(c: Config, s: State, h: nat, first: Option<nat>, r: State)
    requires Wf(c, s) && h < c.harts && s.harts[h].pc.Smode? && Call(c, s, h, Yield(first)) == Some(r)
    ensures Carried(c, s, r, h)
  {
    var regs := Again(s.harts[h].live.regs);
    var to := LeaveTo(c, s, h, true, first);
    if to.Some? {
      ToldCarries(c, s, h, regs, to.value);
      assert r == Leave(c, Told(c, s, h, regs), h, to.value, 0, true);
    }
  }

  lemma MoveFits(c: Config, s: State, h: nat, a: Action)
    requires Wf(c, s) && h < c.harts && s.harts[h].pc.Smode? && Fits(s.harts[h]) && Call(c, s, h, a).Some?
    requires a.DomainEnter? || a.DomainExit? || a.Yield?
    ensures var r := Call(c, s, h, a).value; Alone(c, s, r, h) && Fits(r.harts[h])
  {
    if a.DomainEnter? {
      EnterCarries(c, s, h, a.target, a.arg, false);
    } else if a.DomainExit? {
      ExitCarries(c, s, h, a.value);
    } else {
      YieldCarries(c, s, h, a.first, Call(c, s, h, a).value);
    }
    CarriedFits(c, s, Call(c, s, h, a).value, h);
  }

  lemma CallFits(c: Config, s: State, h: nat, a: Action)
    requires Wf(c, s) && h < c.harts && s.harts[h].pc.Smode? && Fits(s.harts[h]) && Call(c, s, h, a).Some?
    requires !a.DomainEnter? && !a.DomainExit? && !a.Yield?
    ensures var r := Call(c, s, h, a).value; Alone(c, s, r, h) && Fits(r.harts[h])
  {
  }

  lemma SentCarries(c: Config, s: State, h: nat, t: nat)
    requires Wf(c, s) && h < c.harts && t < c.doms
    ensures Carried(c, s, Enter(c, At(c, s, h, Smode), h, t, 0, true), h)
  {
    var idle := At(c, s, h, Smode);
    EnterCarries(c, idle, h, t, 0, true);
    CarriedOn(c, s, idle, Enter(c, idle, h, t, 0, true), h);
  }

  lemma SendingCarries(c: Config, s: State, h: nat)
    requires Wf(c, s) && h < c.harts && s.harts[h].pc.Sending?
    ensures BridgeStep(c, s, h).Some? && Carried(c, s, BridgeStep(c, s, h).value, h)
  {
    SentCarries(c, s, h, c.bridge[s.harts[h].pc.chan]);
  }

  lemma CompletingCarries(c: Config, s: State, h: nat, r: State)
    requires Wf(c, s) && h < c.harts && s.harts[h].pc.Completing? && BridgeStep(c, s, h) == Some(r)
    ensures Carried(c, s, r, h)
  {
    var regs := s.harts[h].live.regs.(a0 := SUCCESS, a1 := 8);
    var to := LeaveTo(c, s, h, true, None);
    if to.Some? {
      ToldCarries(c, s, h, regs, to.value);
      assert r == Leave(c, Told(c, s, h, regs), h, to.value, 0, true);
    } else {
      assert r == Told(c, s, h, regs);
    }
  }

  /** hsm_hart_boot() sets the state of another hart, which waits to be started. */
  lemma BootFits(c: Config, s: State, h: nat)
    requires DomainStop.StopInv(c, s) && AllFit(c, s) && h < c.harts
    requires Booting(s.harts[h].pc) && BootStep(c, s, h).Some?
    ensures AllFit(c, BootStep(c, s, h).value)
  {
    var r := BootStep(c, s, h).value;
    assert Fits(s.harts[h]) && DomainStop.BootOk(c, s, h);
    forall i | 0 <= i < c.harts ensures Fits(r.harts[i]) {
      assert Fits(s.harts[i]) && DomainStop.HsmOk(s.harts[i]);
    }
  }

  lemma StopFits(c: Config, s: State, h: nat)
    requires AllFit(c, s) && h < c.harts && Stopping(s.harts[h].pc) && StopStep(c, s, h).Some?
    ensures AllFit(c, StopStep(c, s, h).value)
  {
    var r := StopStep(c, s, h).value;
    forall i | 0 <= i < c.harts ensures Fits(r.harts[i]) {
      assert Fits(s.harts[i]) && Fits(s.harts[h]);
    }
  }

  lemma HsmFits(c: Config, s: State, h: nat)
    requires Wf(c, s) && h < c.harts && Fits(s.harts[h]) && HsmStep(c, s, h).Some? && !s.harts[h].pc.StopSelf?
    ensures var r := HsmStep(c, s, h).value; Alone(c, s, r, h) && Fits(r.harts[h])
  {
  }

  lemma AloneFits(c: Config, s: State, r: State, h: nat)
    requires AllFit(c, s) && Wf(c, r) && h < c.harts && Alone(c, s, r, h) && Fits(r.harts[h])
    ensures AllFit(c, r)
  {
    forall i | 0 <= i < c.harts ensures Fits(r.harts[i]) {
      assert Fits(s.harts[i]);
    }
  }

  lemma ProceedFits(c: Config, s: State, h: nat)
    requires DomainStop.StopInv(c, s) && AllFit(c, s) && h < c.harts && Proceed(c, s, h).Some? && !Slips(c, s, h)
    ensures AllFit(c, Proceed(c, s, h).value)
  {
    var pc, r := s.harts[h].pc, Proceed(c, s, h).value;
    assert Fits(s.harts[h]);
    if Booting(pc) {
      BootFits(c, s, h);
    } else if Stopping(pc) {
      StopFits(c, s, h);
    } else {
      if pc.Sending? {
        SendingCarries(c, s, h);
        CarriedFits(c, s, r, h);
      } else if pc.Completing? {
        CompletingCarries(c, s, h, r);
        CarriedFits(c, s, r, h);
      } else if pc.StopSelf? {
        SlipJustWhen(c, s, h);
        StopSelfWhere(c, s, h);
      } else {
        HsmFits(c, s, h);
      }
      AloneFits(c, s, r, h);
    }
  }

  lemma StopSelfWhere(c: Config, s: State, h: nat)
    requires Placement(c, s) && h < c.harts && s.harts[h].pc.StopSelf?
    ensures var pc := StopSelfStep(c, s, h).harts[h].pc; pc.Smode? || pc.ForceStop?
  {
    var x := s.harts[h];
    if CallerWaits(c, s, h, x.dom) {
      var gone := x.(ctx := x.ctx[x.dom := x.ctx[x.dom].(phase := Never, caller := None)], pc := Smode);
      SwitchCarries(c, SetHart(s, h, gone), h, x.ctx[x.dom].caller.value, ERR_FAILED, 0);
    }
  }

  lemma StepFits(c: Config, s: State, m: Move)
    requires DomainStop.StopInv(c, s) && AllFit(c, s) && Step(c, s, m.hart, m.action).Some? && !SlipsBy(c, s, m)
    ensures AllFit(c, Step(c, s, m.hart, m.action).value)
  {
    var h, a, r := m.hart, m.action, Step(c, s, m.hart, m.action).value;
    assert Fits(s.harts[h]);
    if a.Go? {
      ProceedFits(c, s, h);
    } else {
      if a.DomainEnter? || a.DomainExit? || a.Yield? {
        MoveFits(c, s, h, a);
      } else if !a.Wake? {
        CallFits(c, s, h, a);
      }
      AloneFits(c, s, r, h);
    }
  }

  // ---- over runs --------------------------------------------------------------------------------

  lemma {:induction false} FitHolds(c: Config, run: seq<State>, moves: seq<Move>, i: nat)
    requires IsRun(c, run, moves) && i < |run|
    requires forall k :: 0 <= k < i ==> !SlipsBy(c, run[k], moves[k])
    ensures AllFit(c, run[i])
  {
    if i == 0 {
      forall h | 0 <= h < c.harts ensures Fits(run[0].harts[h]) {
        assert InitHart(c, h, run[0].harts[h]);
      }
    } else {
      var k := i - 1;
      FitHolds(c, run, moves, k);
      DomainStop.StopInvHolds(c, run, moves, k);
      assert Step(c, run[k], moves[k].hart, moves[k].action) == Some(run[k + 1]);
      StepFits(c, run[k], moves[k]);
    }
  }

  /** Hart `h` is STARTED if it is in S-mode. */
  ghost predicate StartedIn(s: State, h: nat) {
    h < |s.harts| && InSmode(s.harts[h].pc) ==> s.harts[h].hsm.Started?
  }

  /**
   In all states of a run every hart in S-mode is STARTED if and only if no hart on its way
   up, or awake from a sleep that is not retentive, was sent back to a caller that waits
   because its domain was being stopped.
   */
  lemma StartedJustWhen(c: Config, run: seq<State>, moves: seq<Move>)
    requires IsRun(c, run, moves)
    ensures (forall i, h: nat :: 0 <= i < |run| ==> StartedIn(run[i], h)) <==>
            forall k :: 0 <= k < |moves| ==> !SlipsBy(c, run[k], moves[k])
  {
    if forall k :: 0 <= k < |moves| ==> !SlipsBy(c, run[k], moves[k]) {
      forall i, h: nat | 0 <= i < |run| ensures StartedIn(run[i], h) {
        FitHolds(c, run, moves, i);
        assert h < c.harts ==> Fits(run[i].harts[h]);
      }
    } else {
      var k :| 0 <= k < |moves| && SlipsBy(c, run[k], moves[k]);
      SlipShows(c, run, moves, k);
    }
  }

  lemma SlipShows(c: Config, run: seq<State>, moves: seq<Move>, k: nat)
    requires IsRun(c, run, moves) && k < |moves| && SlipsBy(c, run[k], moves[k])
    ensures !StartedIn(run[k + 1], moves[k].hart)
  {
    DomainStop.StopInvHolds(c, run, moves, k);
    assert Step(c, run[k], moves[k].hart, moves[k].action) == Some(run[k + 1]);
    SlipJustWhen(c, run[k], moves[k].hart);
  }

  // ---- a run in which a hart slips ------------------------------------------------------------------

  ghost predicate Reached(c: Config, s: State) {
    exists run, moves :: IsRun(c, run, moves) && run[|run| - 1] == s
  }

  lemma RunMore(c: Config, run: seq<State>, moves: seq<Move>, m: Move, r: State)
    requires IsRun(c, run, moves) && Step(c, run[|run| - 1], m.hart, m.action) == Some(r)
    ensures IsRun(c, run + [r], moves + [m])
  {
    var run1, moves1 := run + [r], moves + [m];
    forall i | 0 <= i < |moves1|
      ensures Step(c, run1[i], moves1[i].hart, moves1[i].action) == Some(run1[i + 1]) {
      assert i < |moves| ==> Step(c, run[i], moves[i].hart, moves[i].action) == Some(run[i + 1]);
    }
  }

  lemma ReachesOn(c: Config, s: State, h: nat, a: Action, r: State)
    requires Reached(c, s) && Wf(c, s) && Step(c, s, h, a) == Some(r)
    ensures Reached(c, r) && Wf(c, r)
  {
    var run, moves :| IsRun(c, run, moves) && run[|run| - 1] == s;
    RunMore(c, run, moves, Move(h, a), r);
    assert (run + [r])[|run|] == r;
  }

  /** Three harts that may run both domains; hart `boot` boots the second. */
  function Trio(boot: int): Config {
    Config(3, 2, [{0, 1, 2}, {0, 1, 2}], [0, boot], {(0, 1)}, [true, true], [0, 0], [0, 0],
           [Supervisor, Supervisor], {0, 1, 2}, {}, [])
  }

  const BLANK := Live(Regs(0, 0, 0, Mstatus(Supervisor, {}, 0), []),
                      Csrs(0, 0, 0, 0, 0, 0, 0, 0, 0, [], [], 0, 0, 0, 0), false, 0, None, [], [])

  function Down(dom: nat, hsm: Hsm): Hart {
    var ctx, slot := Context(Never, None, false, false, BLANK), Slot(Free, 0, 0, [], []);
    Hart(hsm, dom, Waiting, BLANK, [ctx, ctx], [slot, slot], [])
  }

  /** Two harts of the first domain are about to start, the one of the second is stopped. */
  function Cold(): State {
    State([Down(0, StartPending), Down(0, StartPending), Down(1, Stopped)],
          [Domain({0, 1}, {}, false, 0), Domain({2}, {}, false, 0)], None, None)
  }

  lemma ColdReached(boot: int)
    ensures Wf(Trio(boot), Cold()) && Reached(Trio(boot), Cold())
  {
    var c, s := Trio(boot), Cold();
    assert WfConfig(c);
    assert forall h :: 0 <= h < c.harts ==> WfHart(c, s.harts[h]);
    assert Wf(c, s);
    assert forall h :: 0 <= h < c.harts ==> InitHart(c, h, s.harts[h]);
    assert Init(c, s);
    assert IsRun(c, [s], []);
  }

  function Upped(x: Hart): Hart
    requires x.dom < |x.ctx|
  {
    x.(hsm := Started, pc := Smode, ctx := x.ctx[x.dom := x.ctx[x.dom].(phase := Running)])
  }

  /** A hart that is to start gets to S-mode in four steps. */
  lemma FourSteps(c: Config, s: State, h: nat) returns (s1: State, s2: State, s3: State)
    requires Wf(c, s) && h < c.harts && s.harts[h].pc.Waiting? && s.harts[h].hsm.StartPending?
    requires !s.doms[s.harts[h].dom].stopping
    ensures Wf(c, s1) && Wf(c, s2) && Wf(c, s3)
    ensures Step(c, s, h, Go) == Some(s1) && Step(c, s1, h, Go) == Some(s2) && Step(c, s2, h, Go) == Some(s3)
    ensures Step(c, s3, h, Go) == Some(SetHart(s, h, Upped(s.harts[h])))
  {
    var x := s.harts[h];
    var awake := x.(ctx := x.ctx[x.dom := x.ctx[x.dom].(phase := Running)]);
    s1 := At(c, s, h, Starting);
    s2 := SetHart(s, h, awake.(pc := StartCheck));
    s3 := SetHart(s, h, awake.(pc := StartStore));
    Overwrites(s, h, x.(pc := Starting), awake.(pc := StartCheck));
    Overwrites(s, h, awake.(pc := StartCheck), awake.(pc := StartStore));
    Overwrites(s, h, awake.(pc := StartStore), Upped(x));
  }

  lemma Overwrites(s: State, h: nat, x: Hart, y: Hart)
    requires h < |s.harts|
    ensures SetHart(SetHart(s, h, x), h, y) == SetHart(s, h, y)
  {
    assert s.harts[h := x][h := y] == s.harts[h := y];
  }

  lemma ComesUp(c: Config, s: State, h: nat) returns (r: State)
    requires Wf(c, s) && Reached(c, s) && h < c.harts && s.harts[h].pc.Waiting? && s.harts[h].hsm.StartPending?
    requires !s.doms[s.harts[h].dom].stopping
    ensures Wf(c, r) && Reached(c, r) && r == SetHart(s, h, Upped(s.harts[h]))
  {
    var s1, s2, s3 := FourSteps(c, s, h);
    r := SetHart(s, h, Upped(s.harts[h]));
    ReachesOn(c, s, h, Go, s1);
    ReachesOn(c, s1, h, Go, s2);
    ReachesOn(c, s2, h, Go, s3);
    ReachesOn(c, s3, h, Go, r);
  }

  lemma BothUp(boot: int) returns (r: State)
    ensures var c := Trio(boot); Wf(c, r) && Reached(c, r)
    ensures var up := Upped(Down(0, StartPending)); r == State([up, up, Down(1, Stopped)], Cold().doms, None, None)
  {
    ColdReached(boot);
    var s := ComesUp(Trio(boot), Cold(), 0);
    r := ComesUp(Trio(boot), s, 1);
  }

  /** Hart 0 has called the second domain from the first, and runs there. */
  ghost predicate Called(s: State) {
    && Wf(Trio(0), s) && Reached(Trio(0), s) && s.stopLock.None?
    && s.harts[0].dom == 1 && s.harts[0].ctx[1].phase.Running? && s.harts[0].ctx[1].caller == Some(0)
    && s.harts[0].ctx[0].phase.Calling?
    && s.harts[1].pc.Smode?
  }

  lemma Calls() returns (r: State)
    ensures Called(r) && r.harts[0].pc.Smode? && r.harts[0].hsm.Started?
  {
    var c := Trio(0);
    var s := BothUp(0);
    assert EnterRc(c, s, 0, 1, false).Ok?;
    r := Step(c, s, 0, DomainEnter(1, 0)).value;
    ReachesOn(c, s, 0, DomainEnter(1, 0), r);
  }

  lemma Sleeps(s: State) returns (r: State)
    requires Called(s) && s.harts[0].pc.Smode? && s.harts[0].hsm.Started?
    ensures Called(r) && r.harts[0].pc == Waking(false) && r.harts[0].hsm.Suspended?
  {
    var c := Trio(0);
    var s1 := Step(c, s, 0, HartSuspend(false)).value;
    ReachesOn(c, s, 0, HartSuspend(false), s1);
    var s2 := Step(c, s1, 0, Go).value;
    ReachesOn(c, s1, 0, Go, s2);
    r := Step(c, s2, 0, Wake).value;
    ReachesOn(c, s2, 0, Wake, r);
  }

  lemma IsStopped(s: State) returns (r: State)
    requires Called(s) && s.harts[0].pc == Waking(false) && s.harts[0].hsm.Suspended?
    ensures Wf(Trio(0), r) && Reached(Trio(0), r) && r.harts[0].pc.StopSelf? && r.harts[0].hsm.Suspended?
    ensures r.harts[0].dom == 1 && r.harts[0].ctx[1].caller == Some(0) && r.harts[0].ctx[0].phase.Calling?
  {
    var c := Trio(0);
    var s1 := Step(c, s, 1, DomainStop(1)).value;
    ReachesOn(c, s, 1, DomainStop(1), s1);
    var s2 := Step(c, s1, 1, Go).value;
    ReachesOn(c, s1, 1, Go, s2);
    RaiseKeepsRunning(c, s1, 1, 0, 1);
    r := At(c, s2, 0, StopSelf);
    ReachesOn(c, s2, 0, Go, r);
  }

  /** domain_stop() leaves a hart that runs in the domain to itself. */
  lemma RaiseKeepsRunning(c: Config, s: State, k: nat, h: nat, d: nat)
    requires Wf(c, s) && k < c.harts && h < c.harts && h != k && d < c.doms
    requires s.harts[k].pc == StopRaise(d) && s.harts[h].ctx[d].phase.Running?
    ensures var r := StopStep(c, s, k).value; r.harts[h] == s.harts[h] && r.doms[d].stopping
  {
    assert Raise(c, s, d).harts[h] == Dropped(s.harts[h], d);
  }

  lemma SentBack(c: Config, s: State, h: nat)
    requires Wf(c, s) && h < c.harts && s.harts[h].pc.StopSelf? && CallerWaits(c, s, h, s.harts[h].dom)
    requires s.harts[h].ctx[s.harts[h].dom].caller != Some(s.harts[h].dom)
    ensures var x := StopSelfStep(c, s, h).harts[h]; x.pc.Smode? && x.hsm == s.harts[h].hsm
  {
    var x := s.harts[h];
    var gone := x.(ctx := x.ctx[x.dom := x.ctx[x.dom].(phase := Never, caller := None)], pc := Smode);
    SwitchCarries(c, SetHart(s, h, gone), h, x.ctx[x.dom].caller.value, ERR_FAILED, 0);
  }

  lemma GoesBack(c: Config, s: State, h: nat) returns (r: State)
    requires Wf(c, s) && Reached(c, s) && h < c.harts && s.harts[h].pc.StopSelf? && CallerWaits(c, s, h, s.harts[h].dom)
    requires s.harts[h].ctx[s.harts[h].dom].caller != Some(s.harts[h].dom)
    ensures Wf(c, r) && Reached(c, r) && r.harts[h].pc.Smode? && r.harts[h].hsm == s.harts[h].hsm
  {
    r := StopSelfStep(c, s, h);
    ReachesOn(c, s, h, Go, r);
    SentBack(c, s, h);
  }

  /**
   A run with two harts: one calls a domain, sleeps there in a way that keeps nothing, and
   wakes up while another stops that domain. It is back in its caller's S-mode, SUSPENDED.
   */
  lemma SuspendedInSmode() returns (r: State)
    ensures Wf(Trio(0), r) && Reached(Trio(0), r) && r.harts[0].pc.Smode? && r.harts[0].hsm.Suspended?
  {
    var s1 := Calls();
    var s2 := Sleeps(s1);
    var s3 := IsStopped(s2);
    r := GoesBack(Trio(0), s3, 0);
  }
}
