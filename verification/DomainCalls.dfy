/**
 A call is an enter and the exit that returns from it. Calls, and the messages they carry:
 runs in which no domain is stopped.

 What a hart did is in its log. `Calls` reads the enters that have not returned
 out of it, `Outstanding` the message that has not been answered; the contexts and
 slots of the hart are proved to be exactly that.
 */
module DomainCalls {
  import opened Options
  import opened DomainModel
  import opened DomainPlacement
  import DomainStop

  // ---- what the log says -------------------------------------------------------

  /** An enter that has not returned: who made it, and the hart as it left it. */
  datatype Frame = Frame(dom: nat, live: Live, quiet: bool)

  function CallsAfter(before: seq<Frame>, e: Event): seq<Frame> {
    match e
    case Entered(d, live, quiet) => before + [Frame(d, live, quiet)]
    case Returned => if before == [] then [] else before[..|before| - 1]
    case _ => before
  }

  function Calls(log: seq<Event>): seq<Frame> {
    if log == [] then [] else CallsAfter(Calls(log[..|log| - 1]), log[|log| - 1])
  }

  /** A message on its way: the target has read it or not, and the response is its, once it has completed it. */
  datatype Pending = Pending(chan: nat, msg: seq<int>, outSize: nat, read: bool, rsp: Option<seq<int>>)

  function OutstandingAfter(before: Option<Pending>, e: Event, d: nat): Option<Pending> {
    match e
    case MsgSent(f, chan, msg, outSize) => if f == d then Some(Pending(chan, msg, outSize, false, None)) else before
    case MsgRetrieved(f, _) => if f == d && before.Some? then Some(before.value.(read := true)) else before
    case MsgCompleted(f, _, rsp) => if f == d && before.Some? then Some(before.value.(rsp := Some(rsp))) else before
    case MsgAnswered(f, _, _) => if f == d then None else before
    case _ => before
  }

  function Outstanding(log: seq<Event>, d: nat): Option<Pending> {
    if log == [] then None else OutstandingAfter(Outstanding(log[..|log| - 1], d), log[|log| - 1], d)
  }

  /** The target's two words if they fit the sender's output area, else an error. */
  predicate Proper(p: Pending, status: int, written: int) {
    if p.rsp.Some? && |p.rsp.value| == 2 && p.rsp.value[1] <= p.outSize
    then status == p.rsp.value[0] && written == p.rsp.value[1]
    else if p.rsp.Some? then status == (if |p.rsp.value| > 2 then RPMI_BAD_RANGE else RPMI_IO) && written == 0
    else (status == RPMI_IO || status == RPMI_BUSY) && written == 0
  }

  /** A message was sent on channel `chan` and is not completed. */
  predicate Undone(o: Option<Pending>, chan: nat) {
    o.Some? && o.value.chan == chan && o.value.rsp.None?
  }

  /**
   `e` may come after `log`: no send on top of another, nothing read or completed but on the
   channel it was sent on, nothing completed unread, no answer to nothing.
   */
  predicate InOrder(log: seq<Event>, e: Event) {
    match e
    case MsgSent(d, _, _, _) => Outstanding(log, d).None?
    case MsgRetrieved(d, chan) => Undone(Outstanding(log, d), chan)
    case MsgCompleted(d, chan, _) => Undone(Outstanding(log, d), chan) && Outstanding(log, d).value.read
    case MsgAnswered(d, status, written) =>
      Outstanding(log, d).Some? && Proper(Outstanding(log, d).value, status, written)
    case _ => true
  }

  /** Every message is answered once, properly, before the next one is sent. */
  predicate AnsweredOnce(log: seq<Event>) {
    log == [] || (AnsweredOnce(log[..|log| - 1]) && InOrder(log[..|log| - 1], log[|log| - 1]))
  }

  // ---- the invariant: a hart's contexts and slots are what its log says ---------

  ghost predicate SavedAs(c: Config, h: nat, saved: Live, live: Live) {
    saved == live.(vec := saved.vec) && (h in c.vecFits ==> saved.vec == live.vec)
  }

  /** Call `i` of the stack: the context that made it waits, as it was, linked to the one before. */
  ghost predicate Link(c: Config, h: nat, x: Hart, st: seq<Frame>, i: nat)
    requires WfHart(c, x) && i < |st|
  {
    var f := st[i];
    && f.dom < c.doms && f.dom != x.dom
    && x.ctx[f.dom].phase.Calling? && x.ctx[f.dom].quiet == f.quiet
    && SavedAs(c, h, x.ctx[f.dom].saved, f.live)
    && x.ctx[f.dom].caller == (if i == 0 then None else Some(st[i - 1].dom))
  }

  /** A context in no call. */
  ghost predicate Loose(c: Config, x: Hart, d: nat)
    requires WfHart(c, x) && d < c.doms
  {
    !x.ctx[d].phase.Calling? && x.ctx[d].caller.None?
  }

  /** The chain of callers, from the hart's own domain outwards. */
  ghost predicate Chain(c: Config, h: nat, x: Hart, st: seq<Frame>)
    requires WfHart(c, x)
  {
    && (forall i :: 0 <= i < |st| ==> Link(c, h, x, st, i))
    && (forall i, j :: 0 <= i < j < |st| ==> st[i].dom != st[j].dom)
    && x.ctx[x.dom].caller == (if st == [] then None else Some(st[|st| - 1].dom))
    && (forall d :: 0 <= d < c.doms && d != x.dom && !InStack(st, d) ==> Loose(c, x, d))
  }

  ghost predicate InStack(st: seq<Frame>, d: nat) {
    exists i :: 0 <= i < |st| && st[i].dom == d
  }

  ghost predicate SlotIs(slot: Slot, o: Option<Pending>) {
    match o
    case None => slot.state.Free?
    case Some(p) =>
      && slot.to == p.chan && slot.outSize == p.outSize && slot.msg == p.msg
      && match p.rsp
         case None => if p.read then slot.state.Retrieved? else slot.state.Sent?
         case Some(rsp) => if |rsp| <= 2 then slot.state.Completed? && slot.rsp == rsp
                           else slot.state == Failed(RPMI_BAD_RANGE)
  }

  /** A message travels only while its sender is away because of it. */
  ghost predicate Mail(c: Config, x: Hart, st: seq<Frame>)
    requires WfHart(c, x)
  {
    && AnsweredOnce(x.log)
    && (forall d :: 0 <= d < c.doms ==> SlotIs(x.slots[d], Outstanding(x.log, d)))
    && (forall d :: 0 <= d < c.doms && !x.slots[d].state.Free? ==>
          (d == x.dom && x.pc.Sending? && x.slots[d].state.Sent?)
          || InQuiet(st, d))
    && (x.pc.Sending? ==> !x.slots[x.dom].state.Free?)
    && (x.pc.Completing? ==> st != [])
  }

  ghost predicate CallsOk(c: Config, h: nat, x: Hart) {
    && WfHart(c, x)
    && Chain(c, h, x, Calls(x.log))
    && Mail(c, x, Calls(x.log))
    && !Stopping(x.pc) && !x.pc.StopSelf?
  }

  // ---- logs that grow ---------------------------------------------------------------

  lemma LogGrows(log: seq<Event>, e: Event)
    ensures Calls(log + [e]) == CallsAfter(Calls(log), e)
    ensures forall d :: Outstanding(log + [e], d) == OutstandingAfter(Outstanding(log, d), e, d)
    ensures AnsweredOnce(log) && InOrder(log, e) ==> AnsweredOnce(log + [e])
  {
    assert (log + [e])[..|log|] == log;
  }

  // ---- what a switch does to the hart's record ------------------------------------------

  /** The hart as context `ctx` of it is resumed with (error, value), before any message's answer. */
  function Back(c: Config, h: nat, ctx: Context, error: int, value: int): Live {
    Load(c, h, ctx).(regs := if ctx.quiet then ctx.saved.regs else ctx.saved.regs.(a0 := error, a1 := value))
  }

  /** The record `z` of a hart that was `y` and has been switched to domain `t`. */
  ghost predicate Switched(c: Config, h: nat, y: Hart, z: Hart, t: nat, error: int, value: int)
    requires WfHart(c, y) && WfHart(c, z) && t < c.doms
  {
    && z.dom == t && z.ctx[t].phase.Running? && z.ctx[t].caller == y.ctx[t].caller
    && (forall d :: 0 <= d < c.doms && d != t ==> z.ctx[d] == y.ctx[d] && z.slots[d] == y.slots[d])
    && (z.pc == y.pc || z.pc.ForceStop?)
    && (y.ctx[t].phase.Never? ==> z.slots == y.slots && z.log == y.log)
    && (!y.ctx[t].phase.Never? ==>
          var slot := y.slots[t];
          var live := Back(c, h, y.ctx[t], error, value);
          && z.pc == y.pc && z.slots[t] == slot.(state := Free)
          && (slot.state.Free? ==> z.log == y.log && z.live == live)
          && (!slot.state.Free? ==>
                && z.log == y.log + [MsgAnswered(t, AnswerOf(slot).0, AnswerOf(slot).1)]
                && z.live == live.(regs := live.regs.(a0 := SUCCESS, a1 := 8))))
  }

  lemma SwitchRecord(c: Config, s: State, h: nat, t: nat, error: int, value: int)
    requires Wf(c, s) && h < c.harts && t < c.doms
    ensures var r := Switch(c, s, h, t, error, value);
            && Switched(c, h, s.harts[h], r.harts[h], t, error, value)
            && forall i :: 0 <= i < c.harts && i != h ==> r.harts[i] == s.harts[i]
  {
  }

  /** The record between park and switch: hart `x` enters `t`. */
  function Calling(c: Config, h: nat, x: Hart, t: nat, quiet: bool): Hart
    requires x.dom < |x.ctx| && t < |x.ctx|
  {
    var d := x.dom;
    var parked := x.ctx[d].(saved := Save(c, h, x.live, x.ctx[d].saved), phase := Phase.Calling, quiet := quiet);
    var ctx := x.ctx[d := parked];
    x.(ctx := ctx[t := ctx[t].(caller := Some(d))], live := x.live.(shmem := None),
       log := x.log + [Entered(d, x.live, quiet)])
  }

  lemma EnterRecord(c: Config, s: State, h: nat, t: nat, arg: int, quiet: bool)
    requires Wf(c, s) && h < c.harts && t < c.doms && t != s.harts[h].dom
    ensures var r := Enter(c, s, h, t, arg, quiet);
            var y := Calling(c, h, s.harts[h], t, quiet);
            && WfHart(c, y) && Switched(c, h, y, r.harts[h], t, SUCCESS, arg)
            && forall i :: 0 <= i < c.harts && i != h ==> r.harts[i] == s.harts[i]
  {
    var x := s.harts[h];
    var parked := Park(c, s, h, Phase.Calling, quiet);
    var y := parked.harts[h];
    var linked := SetHart(parked, h, y.(ctx := y.ctx[t := y.ctx[t].(caller := Some(x.dom))],
                                        log := y.log + [Entered(x.dom, x.live, quiet)]));
    assert linked.harts[h] == Calling(c, h, x, t, quiet);
    SwitchRecord(c, linked, h, t, SUCCESS, arg);
  }

  /** The record between park and switch: hart `x` leaves for `t`. */
  function Leaving(c: Config, h: nat, x: Hart, t: nat, back: bool, quiet: bool): Hart
    requires x.dom < |x.ctx| && t < |x.ctx|
  {
    var d := x.dom;
    var ctx := if back then x.ctx else x.ctx[t := x.ctx[t].(caller := None)];
    var parked := ctx[d].(caller := None, saved := Save(c, h, x.live, ctx[d].saved), phase := Idle, quiet := quiet);
    x.(ctx := ctx[d := parked], live := x.live.(shmem := None),
       log := if back then x.log + [Returned] else x.log)
  }

  lemma LeaveRecord(c: Config, s: State, h: nat, t: nat, value: int, quiet: bool)
    requires Wf(c, s) && h < c.harts && t < c.doms && t != s.harts[h].dom
    ensures var r := Leave(c, s, h, t, value, quiet);
            var y := Leaving(c, h, s.harts[h], t, CallerWaits(c, s, h, s.harts[h].dom), quiet);
            && WfHart(c, y) && Switched(c, h, y, r.harts[h], t, SUCCESS, value)
            && forall i :: 0 <= i < c.harts && i != h ==> r.harts[i] == s.harts[i]
  {
    var x := s.harts[h];
    var back := CallerWaits(c, s, h, x.dom);
    var y := if back then x.(log := x.log + [Returned]) else x.(ctx := x.ctx[t := x.ctx[t].(caller := None)]);
    var z := y.(ctx := y.ctx[x.dom := y.ctx[x.dom].(caller := None)]);
    var p := Park(c, SetHart(s, h, z), h, Idle, quiet);
    assert p.harts[h] == Leaving(c, h, x, t, back, quiet);
    SwitchRecord(c, p, h, t, SUCCESS, value);
  }

  // ---- enter pushes, exit pops ----------------------------------------------------------------

  /** Chain and mail of a record that is about to move: `mine` says its own message may travel. */
  ghost predicate MayMove(c: Config, h: nat, x: Hart, mine: bool) {
    && WfHart(c, x)
    && var st := Calls(x.log);
       && Chain(c, h, x, st) && AnsweredOnce(x.log)
       && (forall d :: 0 <= d < c.doms ==> SlotIs(x.slots[d], Outstanding(x.log, d)))
       && (forall d :: 0 <= d < c.doms && !x.slots[d].state.Free? ==> (mine && d == x.dom) || InQuiet(st, d))
  }

  ghost predicate InQuiet(st: seq<Frame>, d: nat) {
    exists i :: 0 <= i < |st| && st[i].dom == d && st[i].quiet
  }

  lemma EnterChain(c: Config, h: nat, x: Hart, t: nat, arg: int, quiet: bool, z: Hart)
    requires WfHart(c, x) && Chain(c, h, x, Calls(x.log)) && WfHart(c, z) && t < c.doms && t != x.dom
    requires !x.ctx[t].phase.Calling?
    requires var y := Calling(c, h, x, t, quiet);
             WfHart(c, y) && Switched(c, h, y, z, t, SUCCESS, arg) && z.log == y.log
    ensures Calls(z.log) == Calls(x.log) + [Frame(x.dom, x.live, quiet)]
    ensures Chain(c, h, z, Calls(z.log))
  {
    LogGrows(x.log, Entered(x.dom, x.live, quiet));
    var st, up := Calls(x.log), Calls(z.log);
    var y := Calling(c, h, x, t, quiet);
    forall i | 0 <= i < |up| ensures Link(c, h, z, up, i) {
      if i < |st| {
        assert Link(c, h, x, st, i) && up[i] == st[i];
        assert i > 0 ==> up[i - 1] == st[i - 1];
      }
    }
    forall i, j | 0 <= i < j < |up| ensures up[i].dom != up[j].dom {
      assert Link(c, h, x, st, i) && up[i] == st[i];
    }
    forall d | 0 <= d < c.doms && d != t && !InStack(up, d) ensures Loose(c, z, d) {
      assert up[|st|].dom == x.dom;
      forall i | 0 <= i < |st| ensures st[i].dom != d { assert up[i] == st[i]; }
      assert Loose(c, x, d);
    }
  }

  lemma NoCallNoMail(c: Config, h: nat, x: Hart, t: nat, mine: bool)
    requires MayMove(c, h, x, mine) && t < c.doms && t != x.dom && !x.ctx[t].phase.Calling?
    ensures x.slots[t].state.Free? && Outstanding(x.log, t).None?
  {
    var st := Calls(x.log);
    forall i | 0 <= i < |st| ensures st[i].dom != t { assert Link(c, h, x, st, i); }
    assert SlotIs(x.slots[t], Outstanding(x.log, t));
  }

  /** An enter leaves the caller's message on its way, and no other. */
  lemma EnterCalls(c: Config, h: nat, x: Hart, t: nat, arg: int, quiet: bool, z: Hart)
    requires MayMove(c, h, x, quiet) && WfHart(c, z) && t < c.doms && t != x.dom
    requires !x.ctx[t].phase.Calling? && x.pc.Smode?
    requires var y := Calling(c, h, x, t, quiet);
             WfHart(c, y) && Switched(c, h, y, z, t, SUCCESS, arg)
    ensures CallsOk(c, h, z)
    ensures Calls(z.log) == Calls(x.log) + [Frame(x.dom, x.live, quiet)]
  {
    NoCallNoMail(c, h, x, t, quiet);
    EnterChain(c, h, x, t, arg, quiet, z);
    MailAfterEnter(c, h, x, t, arg, quiet, z);
  }

  lemma MailAfterEnter(c: Config, h: nat, x: Hart, t: nat, arg: int, quiet: bool, z: Hart)
    requires MayMove(c, h, x, quiet) && WfHart(c, z) && t < c.doms && t != x.dom && x.slots[t].state.Free?
    requires z.slots == x.slots && z.log == x.log + [Entered(x.dom, x.live, quiet)]
    requires !z.pc.Sending? && !z.pc.Completing?
    ensures Mail(c, z, Calls(z.log))
  {
    LogGrows(x.log, Entered(x.dom, x.live, quiet));
    var st, up := Calls(x.log), Calls(z.log);
    forall d | 0 <= d < c.doms ensures SlotIs(z.slots[d], Outstanding(z.log, d)) {
      assert SlotIs(x.slots[d], Outstanding(x.log, d));
    }
    forall d | 0 <= d < c.doms && !z.slots[d].state.Free? ensures InQuiet(up, d) {
      if InQuiet(st, d) {
        var i :| 0 <= i < |st| && st[i].dom == d && st[i].quiet;
        assert up[i].dom == d && up[i].quiet;
      } else {
        assert up[|st|].dom == d && up[|st|].quiet;
      }
    }
  }

  /** The log of a return: the message of the context it resumes, if there is one, gets its answer. */
  ghost predicate ReturnLog(x: Hart, z: Hart, t: nat)
    requires t < |x.slots|
  {
    var a := AnswerOf(x.slots[t]);
    if x.slots[t].state.Free? then z.log == x.log + [Returned]
    else z.log == x.log + [Returned] + [MsgAnswered(t, a.0, a.1)]
  }

  lemma ReturnLogPops(c: Config, x: Hart, z: Hart, t: nat)
    requires t < |x.slots| && ReturnLog(x, z, t) && Calls(x.log) != []
    ensures Calls(z.log) == Calls(x.log)[..|Calls(x.log)| - 1]
    ensures forall d :: d != t ==> Outstanding(z.log, d) == Outstanding(x.log, d)
    ensures Outstanding(z.log, t) == if x.slots[t].state.Free? then Outstanding(x.log, t) else None
    ensures AnsweredOnce(x.log) && SlotIs(x.slots[t], Outstanding(x.log, t)) ==> AnsweredOnce(z.log)
  {
    var slot := x.slots[t];
    LogGrows(x.log, Returned);
    LogGrows(x.log + [Returned], MsgAnswered(t, AnswerOf(slot).0, AnswerOf(slot).1));
    if !slot.state.Free? && SlotIs(slot, Outstanding(x.log, t)) {
      AnswerIsProper(slot, Outstanding(x.log, t).value);
    }
  }

  lemma LeaveChain(c: Config, h: nat, x: Hart, t: nat, z: Hart)
    requires WfHart(c, x) && Chain(c, h, x, Calls(x.log)) && Calls(x.log) != [] && WfHart(c, z)
    requires t == Calls(x.log)[|Calls(x.log)| - 1].dom && t < c.doms && t != x.dom
    requires Calls(z.log) == Calls(x.log)[..|Calls(x.log)| - 1]
    requires z.dom == t && z.ctx[t].caller == x.ctx[t].caller
    requires z.ctx[x.dom].phase.Idle? && z.ctx[x.dom].caller.None?
    requires forall d :: 0 <= d < c.doms && d != t && d != x.dom ==> z.ctx[d] == x.ctx[d]
    ensures Chain(c, h, z, Calls(z.log))
  {
    var st, down := Calls(x.log), Calls(z.log);
    var n := |st| - 1;
    assert Link(c, h, x, st, n);
    forall i | 0 <= i < |down| ensures Link(c, h, z, down, i) {
      assert Link(c, h, x, st, i) && down[i] == st[i];
    }
    forall d | 0 <= d < c.doms && d != t && !InStack(down, d) ensures Loose(c, z, d) {
      if d != x.dom {
        forall i | 0 <= i < |st| ensures st[i].dom != d { assert i < n ==> down[i] == st[i]; }
        assert Loose(c, x, d);
      }
    }
  }

  /** The answer a slot gets is the one its message is due. */
  lemma AnswerIsProper(slot: Slot, p: Pending)
    requires SlotIs(slot, Some(p))
    ensures Proper(p, AnswerOf(slot).0, AnswerOf(slot).1)
  {
  }

  lemma MailAfterReturn(c: Config, h: nat, x: Hart, t: nat, z: Hart)
    requires MayMove(c, h, x, false) && WfHart(c, z) && t < c.doms && !z.pc.Sending? && !z.pc.Completing?
    requires Calls(x.log) != [] && t == Calls(x.log)[|Calls(x.log)| - 1].dom
    requires z.slots == x.slots[t := x.slots[t].(state := Free)] && ReturnLog(x, z, t)
    ensures Mail(c, z, Calls(z.log))
  {
    ReturnLogPops(c, x, z, t);
    assert SlotIs(x.slots[t], Outstanding(x.log, t));
    forall d | 0 <= d < c.doms ensures SlotIs(z.slots[d], Outstanding(z.log, d)) {
      assert SlotIs(x.slots[d], Outstanding(x.log, d));
    }
    var st, down := Calls(x.log), Calls(z.log);
    forall d | 0 <= d < c.doms && !z.slots[d].state.Free? ensures InQuiet(down, d) {
      assert InQuiet(st, d);
      var i :| 0 <= i < |st| && st[i].dom == d && st[i].quiet;
      assert down[i] == st[i];
    }
  }

  /** What the caller of `f` finds when the call returns `value`. */
  function ReturnTo(c: Config, h: nat, f: Frame, value: int, ipi: bool, answered: bool): Live {
    var regs := if answered then f.live.regs.(a0 := SUCCESS, a1 := 8)
                else if f.quiet then f.live.regs else f.live.regs.(a0 := SUCCESS, a1 := value);
    f.live.(regs := regs, ssip := f.live.ssip || ipi, vec := if h in c.vecFits then f.live.vec else [])
  }

  /** The record `z` of a hart that was `x` and has returned to domain `t`. */
  ghost predicate ReturnRecord(c: Config, h: nat, x: Hart, z: Hart, t: nat, value: int)
    requires WfHart(c, x) && WfHart(c, z) && t < c.doms
  {
    && z.dom == t && z.pc == x.pc && z.ctx[t].caller == x.ctx[t].caller
    && z.ctx[x.dom].phase.Idle? && z.ctx[x.dom].caller.None?
    && (forall d :: 0 <= d < c.doms && d != t && d != x.dom ==> z.ctx[d] == x.ctx[d])
    && z.slots == x.slots[t := x.slots[t].(state := Free)] && ReturnLog(x, z, t)
    && var live := Back(c, h, x.ctx[t], SUCCESS, value);
       z.live == if x.slots[t].state.Free? then live else live.(regs := live.regs.(a0 := SUCCESS, a1 := 8))
  }

  lemma LeftRecord(c: Config, h: nat, x: Hart, t: nat, value: int, quiet: bool, z: Hart)
    requires WfHart(c, x) && WfHart(c, z) && t < c.doms && t != x.dom && x.ctx[t].phase.Calling?
    requires var y := Leaving(c, h, x, t, true, quiet);
             WfHart(c, y) && Switched(c, h, y, z, t, SUCCESS, value)
    ensures ReturnRecord(c, h, x, z, t, value)
  {
  }

  /** An exit resumes the latest enter that has not returned, as it was. */
  lemma LeaveReturns(c: Config, h: nat, x: Hart, value: int, quiet: bool, z: Hart)
    requires MayMove(c, h, x, false) && Calls(x.log) != [] && WfHart(c, z) && x.pc.Smode?
    requires var st := Calls(x.log);
             var t := st[|st| - 1].dom;
             t < c.doms && t != x.dom
             && var y := Leaving(c, h, x, t, true, quiet);
                WfHart(c, y) && Switched(c, h, y, z, t, SUCCESS, value)
    ensures CallsOk(c, h, z) && Popped(c, h, x, z, value)
  {
    var st := Calls(x.log);
    assert Link(c, h, x, st, |st| - 1);
    LeftRecord(c, h, x, st[|st| - 1].dom, value, quiet, z);
    RecordReturns(c, h, x, value, z);
  }

  lemma RecordReturns(c: Config, h: nat, x: Hart, value: int, z: Hart)
    requires MayMove(c, h, x, false) && Calls(x.log) != [] && WfHart(c, z) && x.pc.Smode?
    requires var t := Calls(x.log)[|Calls(x.log)| - 1].dom;
             t < c.doms && t != x.dom && ReturnRecord(c, h, x, z, t, value)
    ensures CallsOk(c, h, z) && Popped(c, h, x, z, value)
  {
    var t := Calls(x.log)[|Calls(x.log)| - 1].dom;
    ReturnLogPops(c, x, z, t);
    RecordChain(c, h, x, t, value, z);
    MailAfterReturn(c, h, x, t, z);
    ReturnPops(c, h, x, value, z);
  }

  lemma RecordChain(c: Config, h: nat, x: Hart, t: nat, value: int, z: Hart)
    requires WfHart(c, x) && WfHart(c, z) && Chain(c, h, x, Calls(x.log)) && Calls(x.log) != []
    requires t == Calls(x.log)[|Calls(x.log)| - 1].dom && t < c.doms && t != x.dom
    requires ReturnRecord(c, h, x, z, t, value) && Calls(z.log) == Calls(x.log)[..|Calls(x.log)| - 1]
    ensures Chain(c, h, z, Calls(z.log))
  {
    LeaveChain(c, h, x, t, z);
  }

  lemma ReturnPops(c: Config, h: nat, x: Hart, value: int, z: Hart)
    requires MayMove(c, h, x, false) && Calls(x.log) != [] && WfHart(c, z)
    requires Calls(z.log) == Calls(x.log)[..|Calls(x.log)| - 1]
    requires var t := Calls(x.log)[|Calls(x.log)| - 1].dom;
             t < c.doms && ReturnRecord(c, h, x, z, t, value)
    ensures Popped(c, h, x, z, value)
  {
    var st := Calls(x.log);
    var n := |st| - 1;
    assert Link(c, h, x, st, n);
    AnsweredIsQuiet(c, h, x, st, n);
    BackIs(c, h, x.ctx[st[n].dom], st[n], value);
  }

  /** What was saved is what the hart was. */
  lemma BackIs(c: Config, h: nat, ctx: Context, f: Frame, value: int)
    requires ctx.quiet == f.quiet && SavedAs(c, h, ctx.saved, f.live)
    ensures var live := Back(c, h, ctx, SUCCESS, value);
            && ReturnTo(c, h, f, value, ctx.ipi, false) == live
            && ReturnTo(c, h, f, value, ctx.ipi, true) == live.(regs := live.regs.(a0 := SUCCESS, a1 := 8))
  {
  }

  /** Only a caller whose call was quiet has a message under way. */
  lemma AnsweredIsQuiet(c: Config, h: nat, x: Hart, st: seq<Frame>, n: nat)
    requires WfHart(c, x) && Chain(c, h, x, st) && n < |st| && st[n].dom < c.doms
    requires !x.slots[st[n].dom].state.Free? ==> InQuiet(st, st[n].dom)
    ensures !x.slots[st[n].dom].state.Free? ==> st[n].quiet
  {
    if !x.slots[st[n].dom].state.Free? {
      QuietIsThat(st, n);
    }
  }

  lemma QuietIsThat(st: seq<Frame>, n: nat)
    requires n < |st| && InQuiet(st, st[n].dom) && forall i, j :: 0 <= i < j < |st| ==> st[i].dom != st[j].dom
    ensures st[n].quiet
  {
  }

  /** The latest call of `x` has returned `value`, and its caller is as it was. */
  ghost predicate Popped(c: Config, h: nat, x: Hart, z: Hart, value: int)
    requires WfHart(c, x)
  {
    var st := Calls(x.log);
    && st != []
    && var f := st[|st| - 1];
       && f.dom < c.doms && z.dom == f.dom && Calls(z.log) == st[..|st| - 1]
       && z.live == ReturnTo(c, h, f, value, x.ctx[f.dom].ipi, !x.slots[f.dom].state.Free?)
       && (!f.quiet ==> x.slots[f.dom].state.Free?)
  }

  /** Hart `x` has made a call, and keeps what it was for it. */
  ghost predicate Pushed(x: Hart, z: Hart) {
    exists quiet :: Calls(z.log) == Calls(x.log) + [Frame(x.dom, x.live, quiet)]
  }

  /** A step on: as many calls, one more, or one less. */
  ghost predicate Goes(c: Config, h: nat, x: Hart, z: Hart, value: int) {
    && WfHart(c, x) && CallsOk(c, h, z)
    && (Calls(z.log) == Calls(x.log) || Pushed(x, z) || Popped(c, h, x, z, value))
  }

  /** With no caller left, the hart boots another domain. */
  lemma LeaveMovesOn(c: Config, h: nat, x: Hart, t: nat, value: int, quiet: bool, z: Hart)
    requires MayMove(c, h, x, false) && Calls(x.log) == [] && WfHart(c, z) && x.pc.Smode?
    requires t < c.doms && t != x.dom && x.ctx[t].phase.Never?
    requires var y := Leaving(c, h, x, t, false, quiet);
             WfHart(c, y) && Switched(c, h, y, z, t, SUCCESS, value)
    ensures CallsOk(c, h, z) && Calls(z.log) == []
  {
    forall d | 0 <= d < c.doms && d != t ensures Loose(c, z, d) {
      if d != x.dom {
        assert Loose(c, x, d);
      }
    }
    forall d | 0 <= d < c.doms ensures SlotIs(z.slots[d], Outstanding(z.log, d)) && z.slots[d].state.Free? {
      assert SlotIs(x.slots[d], Outstanding(x.log, d));
    }
  }

  // ---- every step of a run without a stop -----------------------------------------------------

  ghost predicate CallsInv(c: Config, s: State) {
    DomainStop.StopInv(c, s) && AllCallsOk(c, s)
  }

  ghost predicate AllCallsOk(c: Config, s: State) {
    Wf(c, s) && forall h :: 0 <= h < c.harts ==> CallsOk(c, h, s.harts[h])
  }

  lemma NoFlags(c: Config, s: State)
    requires CallsInv(c, s)
    ensures Placement(c, s) && forall d :: 0 <= d < c.doms ==> !s.doms[d].stopping
  {
    forall h | 0 <= h < c.harts ensures !Stopping(s.harts[h].pc) { assert CallsOk(c, h, s.harts[h]); }
  }

  /** Records that differ in nothing a call or a message depends on. */
  ghost predicate SameCalls(c: Config, x: Hart, y: Hart)
    requires WfHart(c, x) && WfHart(c, y)
  {
    && y.dom == x.dom && y.log == x.log && y.slots == x.slots
    && (forall d :: 0 <= d < c.doms ==>
          && y.ctx[d].caller == x.ctx[d].caller && y.ctx[d].quiet == x.ctx[d].quiet && y.ctx[d].saved == x.ctx[d].saved
          && (y.ctx[d].phase.Calling? <==> x.ctx[d].phase.Calling?))
    && (y.pc == x.pc || (!Bridging(x.pc) && !Bridging(y.pc) && !Stopping(y.pc) && !y.pc.StopSelf?))
  }

  lemma SameCallsKeep(c: Config, h: nat, x: Hart, y: Hart)
    requires CallsOk(c, h, x) && WfHart(c, y) && SameCalls(c, x, y)
    ensures CallsOk(c, h, y)
  {
    var st := Calls(x.log);
    forall i | 0 <= i < |st| ensures Link(c, h, y, st, i) {
      assert Link(c, h, x, st, i);
    }
    forall d | 0 <= d < c.doms && d != y.dom && !InStack(st, d) ensures Loose(c, y, d) {
      assert Loose(c, x, d);
    }
  }

  /** The chain is in the contexts. */
  lemma ChainStays(c: Config, h: nat, x: Hart, y: Hart, st: seq<Frame>)
    requires WfHart(c, x) && WfHart(c, y) && y.dom == x.dom && y.ctx == x.ctx && Chain(c, h, x, st)
    ensures Chain(c, h, y, st)
  {
    forall i | 0 <= i < |st| ensures Link(c, h, y, st, i) { assert Link(c, h, x, st, i); }
    forall d | 0 <= d < c.doms && d != y.dom && !InStack(st, d) ensures Loose(c, y, d) { assert Loose(c, x, d); }
  }

  /** A hart in S-mode has no message of its own on its way. */
  lemma SmodeMayMove(c: Config, h: nat, x: Hart)
    requires CallsOk(c, h, x)
    ensures MayMove(c, h, x.(pc := Smode), x.pc.Sending?)
    ensures !x.pc.Sending? ==> x.slots[x.dom].state.Free? && Outstanding(x.log, x.dom).None?
  {
    var st := Calls(x.log);
    ChainStays(c, h, x, x.(pc := Smode), st);
    forall i | 0 <= i < |st| ensures st[i].dom != x.dom { assert Link(c, h, x, st, i); }
    assert SlotIs(x.slots[x.dom], Outstanding(x.log, x.dom));
  }

  lemma TopWaits(c: Config, s: State, h: nat)
    requires Wf(c, s) && h < c.harts && CallsOk(c, h, s.harts[h])
    ensures var x := s.harts[h];
            var st := Calls(x.log);
            && (CallerWaits(c, s, h, x.dom) <==> st != [])
            && (st != [] ==> var f := st[|st| - 1];
                             f.dom < c.doms && f.dom != x.dom && x.ctx[x.dom].caller == Some(f.dom))
  {
    var st := Calls(s.harts[h].log);
    if st != [] {
      assert Link(c, h, s.harts[h], st, |st| - 1);
    }
  }

  lemma EnterKeepsCalls(c: Config, s: State, h: nat, t: nat, arg: int, quiet: bool)
    requires Wf(c, s) && h < c.harts && t < c.doms && s.harts[h].pc.Smode? && EnterRc(c, s, h, t, quiet).Ok?
    requires MayMove(c, h, s.harts[h], quiet)
    ensures CallsOk(c, h, Enter(c, s, h, t, arg, quiet).harts[h])
    ensures Pushed(s.harts[h], Enter(c, s, h, t, arg, quiet).harts[h])
    ensures forall i :: 0 <= i < c.harts && i != h ==> Enter(c, s, h, t, arg, quiet).harts[i] == s.harts[i]
  {
    EnterRecord(c, s, h, t, arg, quiet);
    EnterCalls(c, h, s.harts[h], t, arg, quiet, Enter(c, s, h, t, arg, quiet).harts[h]);
  }

  /** leave() goes to the latest caller, and without one to a domain still to be booted. */
  lemma LeaveToTop(c: Config, s: State, h: nat, quiet: bool, first: Option<nat>)
    requires Placement(c, s) && h < c.harts && LeaveTo(c, s, h, quiet, first).Some? && CallsOk(c, h, s.harts[h])
    ensures var x, t := s.harts[h], LeaveTo(c, s, h, quiet, first).value;
            var st := Calls(x.log);
            && t < c.doms && t != x.dom && (CallerWaits(c, s, h, x.dom) <==> st != [])
            && (st != [] ==> t == st[|st| - 1].dom)
            && (st == [] ==> x.ctx[t].phase.Never?)
  {
    LeaveToPossible(c, s, h, quiet, first);
    TopWaits(c, s, h);
  }

  /** An exit, or a quiet one. */
  ghost predicate Left(c: Config, h: nat, x: Hart, z: Hart, value: int) {
    && WfHart(c, x) && CallsOk(c, h, z)
    && if Calls(x.log) != [] then Popped(c, h, x, z, value) else Calls(z.log) == []
  }

  lemma LeaveKeepsCalls(c: Config, s: State, h: nat, value: int, quiet: bool, first: Option<nat>)
    requires Placement(c, s) && h < c.harts && s.harts[h].pc.Smode? && LeaveTo(c, s, h, quiet, first).Some?
    requires CallsOk(c, h, s.harts[h]) && MayMove(c, h, s.harts[h], false)
    ensures var r := Leave(c, s, h, LeaveTo(c, s, h, quiet, first).value, value, quiet);
            && Left(c, h, s.harts[h], r.harts[h], value)
            && forall i :: 0 <= i < c.harts && i != h ==> r.harts[i] == s.harts[i]
  {
    LeaveToTop(c, s, h, quiet, first);
    LeaveLeaves(c, s, h, LeaveTo(c, s, h, quiet, first).value, value, quiet);
  }

  lemma LeaveLeaves(c: Config, s: State, h: nat, t: nat, value: int, quiet: bool)
    requires Wf(c, s) && h < c.harts && s.harts[h].pc.Smode? && MayMove(c, h, s.harts[h], false)
    requires var x := s.harts[h];
             var st := Calls(x.log);
             && t < c.doms && t != x.dom && (CallerWaits(c, s, h, x.dom) <==> st != [])
             && (st != [] ==> t == st[|st| - 1].dom) && (st == [] ==> x.ctx[t].phase.Never?)
    ensures var r := Leave(c, s, h, t, value, quiet);
            && Left(c, h, s.harts[h], r.harts[h], value)
            && forall i :: 0 <= i < c.harts && i != h ==> r.harts[i] == s.harts[i]
  {
    LeaveRecord(c, s, h, t, value, quiet);
    RecordLeaves(c, s, h, t, value, quiet, Leave(c, s, h, t, value, quiet).harts[h]);
  }

  lemma RecordLeaves(c: Config, s: State, h: nat, t: nat, value: int, quiet: bool, z: Hart)
    requires Wf(c, s) && h < c.harts && s.harts[h].pc.Smode? && MayMove(c, h, s.harts[h], false) && WfHart(c, z)
    requires var x := s.harts[h];
             var st := Calls(x.log);
             && t < c.doms && t != x.dom && (CallerWaits(c, s, h, x.dom) <==> st != [])
             && (st != [] ==> t == st[|st| - 1].dom) && (st == [] ==> x.ctx[t].phase.Never?)
             && var y := Leaving(c, h, x, t, CallerWaits(c, s, h, x.dom), quiet);
                WfHart(c, y) && Switched(c, h, y, z, t, SUCCESS, value)
    ensures Left(c, h, s.harts[h], z, value)
  {
    LeftCalls(c, h, s.harts[h], t, value, quiet, z);
  }

  lemma LeftCalls(c: Config, h: nat, x: Hart, t: nat, value: int, quiet: bool, z: Hart)
    requires MayMove(c, h, x, false) && x.pc.Smode? && WfHart(c, z) && t < c.doms && t != x.dom
    requires var st := Calls(x.log);
             && (st != [] ==> t == st[|st| - 1].dom)
             && (st == [] ==> x.ctx[t].phase.Never?)
             && var y := Leaving(c, h, x, t, st != [], quiet);
                WfHart(c, y) && Switched(c, h, y, z, t, SUCCESS, value)
    ensures Left(c, h, x, z, value)
  {
    if Calls(x.log) != [] {
      LeaveReturns(c, h, x, value, quiet, z);
    } else {
      LeaveMovesOn(c, h, x, t, value, quiet, z);
    }
  }

  lemma SendKeepsCalls(c: Config, h: nat, x: Hart, ch: nat, msg: seq<int>, outSize: nat)
    requires CallsOk(c, h, x) && x.pc.Smode? && ch < |c.bridge|
    ensures var y := x.(slots := x.slots[x.dom := Slot(Sent, ch, outSize, msg, [])],
                        log := x.log + [MsgSent(x.dom, ch, msg, outSize)], pc := Sending(ch));
            CallsOk(c, h, y) && Calls(y.log) == Calls(x.log)
  {
    var y := x.(slots := x.slots[x.dom := Slot(Sent, ch, outSize, msg, [])],
                log := x.log + [MsgSent(x.dom, ch, msg, outSize)], pc := Sending(ch));
    LogGrows(x.log, MsgSent(x.dom, ch, msg, outSize));
    SmodeMayMove(c, h, x);
    ChainStays(c, h, x, y, Calls(x.log));
    forall d | 0 <= d < c.doms ensures SlotIs(y.slots[d], Outstanding(y.log, d)) {
      assert SlotIs(x.slots[d], Outstanding(x.log, d));
    }
  }

  /** A change to the slot of a message on its way, with what the log then says of it. */
  lemma SlotKeepsCalls(c: Config, h: nat, x: Hart, y: Hart, d: nat)
    requires CallsOk(c, h, x) && x.pc.Smode? && d < c.doms && !x.slots[d].state.Free? && WfHart(c, y)
    requires y == x.(slots := x.slots[d := y.slots[d]], log := y.log, pc := y.pc)
    requires !y.slots[d].state.Free? && SlotIs(y.slots[d], Outstanding(y.log, d)) && AnsweredOnce(y.log)
    requires Calls(y.log) == Calls(x.log) && (forall e :: e != d ==> Outstanding(y.log, e) == Outstanding(x.log, e))
    requires y.pc.Smode? || (y.pc.Completing? && Calls(x.log) != [])
    ensures CallsOk(c, h, y)
  {
    ChainStays(c, h, x, y, Calls(x.log));
    forall e | 0 <= e < c.doms ensures SlotIs(y.slots[e], Outstanding(y.log, e)) {
      assert SlotIs(x.slots[e], Outstanding(x.log, e));
    }
  }

  lemma EnterCallKeepsCalls(c: Config, s: State, h: nat, a: Action)
    requires Wf(c, s) && AllCallsOk(c, s) && h < c.harts && s.harts[h].pc.Smode? && a.DomainEnter?
    requires Call(c, s, h, a).Some? && MayMove(c, h, s.harts[h], false)
    ensures forall i :: 0 <= i < c.harts ==> Goes(c, i, s.harts[i], Call(c, s, h, a).value.harts[i], ValueOf(a))
  {
    EnterKeepsCalls(c, s, h, a.target, a.arg, false);
  }

  /** The moves, messages aside. */
  lemma MoveKeepsCalls(c: Config, s: State, h: nat, a: Action)
    requires Placement(c, s) && AllCallsOk(c, s) && h < c.harts && s.harts[h].pc.Smode? && Call(c, s, h, a).Some?
    requires !s.doms[s.harts[h].dom].stopping && (a.DomainEnter? || a.DomainExit? || a.Yield?)
    ensures forall i :: 0 <= i < c.harts ==> Goes(c, i, s.harts[i], Call(c, s, h, a).value.harts[i], ValueOf(a))
  {
    var x := s.harts[h];
    SmodeMayMove(c, h, x);
    assert x.(pc := Smode) == x;
    if a.DomainEnter? {
      EnterCallKeepsCalls(c, s, h, a);
    } else if a.DomainExit? {
      LeaveKeepsCalls(c, s, h, a.value, false, None);
    } else {
      ToldLeaves(c, s, h, Again(x.live.regs), a.first);
    }
  }

  /** What a call returns to the domain that made it. */
  function ValueOf(a: Action): int {
    if a.DomainExit? then a.value else 0
  }

  /** A quiet exit, with the registers its own S-mode will find. */
  lemma ToldLeaves(c: Config, s: State, h: nat, regs: Regs, first: Option<nat>)
    requires Placement(c, s) && h < c.harts && CallsOk(c, h, s.harts[h]) && !s.harts[h].pc.Sending?
    requires LeaveTo(c, s, h, true, first).Some?
    ensures var r := Leave(c, Told(c, s, h, regs), h, LeaveTo(c, s, h, true, first).value, 0, true);
            && Left(c, h, s.harts[h], r.harts[h], 0)
            && forall i :: 0 <= i < c.harts && i != h ==> r.harts[i] == s.harts[i]
  {
    var x, told := s.harts[h], Told(c, s, h, regs);
    ToldRecord(c, h, x, told.harts[h]);
    SamePlacesKeep(c, s, told);
    ToldLeaveTo(c, s, h, regs, first);
    LeaveKeepsCalls(c, told, h, 0, true, first);
    ToldLeft(c, h, x, told.harts[h], Leave(c, told, h, LeaveTo(c, s, h, true, first).value, 0, true).harts[h]);
  }

  lemma ToldRecord(c: Config, h: nat, x: Hart, y: Hart)
    requires CallsOk(c, h, x) && !x.pc.Sending? && y == x.(live := y.live, pc := Smode)
    ensures CallsOk(c, h, y) && MayMove(c, h, y, false)
  {
    SmodeMayMove(c, h, x);
    SmodeChain(c, h, x);
    SameCallsKeep(c, h, x.(pc := Smode), y);
    SmodeMayMove(c, h, y);
    assert y.(pc := Smode) == y;
  }

  lemma ToldLeaveTo(c: Config, s: State, h: nat, regs: Regs, first: Option<nat>)
    requires Wf(c, s) && h < c.harts
    ensures LeaveTo(c, Told(c, s, h, regs), h, true, first) == LeaveTo(c, s, h, true, first)
  {
  }

  lemma ToldLeft(c: Config, h: nat, x: Hart, y: Hart, z: Hart)
    requires WfHart(c, x) && y == x.(live := y.live, pc := Smode) && Left(c, h, y, z, 0)
    ensures Left(c, h, x, z, 0)
  {
  }

  lemma MailKeepsCalls(c: Config, s: State, h: nat, a: Action)
    requires AllCallsOk(c, s) && h < c.harts && s.harts[h].pc.Smode? && Call(c, s, h, a).Some?
    requires a.MmSend? || a.Retrieve? || a.Complete?
    ensures forall i :: 0 <= i < c.harts ==> Goes(c, i, s.harts[i], Call(c, s, h, a).value.harts[i], ValueOf(a))
  {
    assert CallsOk(c, h, s.harts[h]);
    if a.MmSend? {
      SendKeepsCalls(c, h, s.harts[h], a.chan, a.msg, a.outSize);
    } else if a.Retrieve? {
      RetrieveKeepsCalls(c, s, h, a.chan);
    } else {
      CompleteKeepsCalls(c, s, h, a.chan, a.rsp);
    }
  }

  lemma RetrieveKeepsCalls(c: Config, s: State, h: nat, ch: nat)
    requires Wf(c, s) && h < c.harts && s.harts[h].pc.Smode? && CallsOk(c, h, s.harts[h])
    requires Call(c, s, h, Retrieve(ch)).Some?
    ensures var y := Call(c, s, h, Retrieve(ch)).value.harts[h];
            CallsOk(c, h, y) && Calls(y.log) == Calls(s.harts[h].log)
  {
    var x, d := s.harts[h], SlotFor(c, s, h, ch).value;
    assert SlotIs(x.slots[d], Outstanding(x.log, d));
    LogGrows(x.log, MsgRetrieved(d, ch));
    SlotKeepsCalls(c, h, x, Call(c, s, h, Retrieve(ch)).value.harts[h], d);
  }

  lemma CompleteKeepsCalls(c: Config, s: State, h: nat, ch: nat, rsp: seq<int>)
    requires Wf(c, s) && h < c.harts && s.harts[h].pc.Smode? && CallsOk(c, h, s.harts[h])
    requires Call(c, s, h, Complete(ch, rsp)).Some?
    ensures var y := Call(c, s, h, Complete(ch, rsp)).value.harts[h];
            CallsOk(c, h, y) && Calls(y.log) == Calls(s.harts[h].log)
  {
    var x, d := s.harts[h], SlotFor(c, s, h, ch).value;
    TopWaits(c, s, h);
    assert SlotIs(x.slots[d], Outstanding(x.log, d));
    LogGrows(x.log, MsgCompleted(d, ch, rsp));
    SlotKeepsCalls(c, h, x, Call(c, s, h, Complete(ch, rsp)).value.harts[h], d);
  }

  lemma OtherCallsKeepCalls(c: Config, s: State, h: nat, a: Action, i: nat)
    requires Wf(c, s) && h < c.harts && s.harts[h].pc.Smode? && Call(c, s, h, a).Some? && i < c.harts
    requires !s.doms[s.harts[h].dom].stopping
    requires !a.DomainEnter? && !a.DomainExit? && !a.Yield? && !a.MmSend? && !a.Retrieve? && !a.Complete?
    requires !a.DomainStop? && !a.DomainStart?
    ensures SameCalls(c, s.harts[i], Call(c, s, h, a).value.harts[i])
  {
  }

  lemma DomainStartKeepsCalls(c: Config, s: State, h: nat, a: Action, i: nat)
    requires Placement(c, s) && h < c.harts && s.harts[h].pc.Smode? && Call(c, s, h, a).Some?
    requires i < c.harts && a.DomainStart?
    ensures SameCalls(c, s.harts[i], Call(c, s, h, a).value.harts[i])
  {
    assert Placed(c, s, i);
    assert i !in s.doms[a.dom].parked;
  }

  lemma CallKeepsCalls(c: Config, s: State, h: nat, a: Action)
    requires Placement(c, s) && AllCallsOk(c, s) && h < c.harts && s.harts[h].pc.Smode?
    requires Call(c, s, h, a).Some? && !a.DomainStop?
    requires !s.doms[s.harts[h].dom].stopping
    ensures forall i :: 0 <= i < c.harts ==> Goes(c, i, s.harts[i], Call(c, s, h, a).value.harts[i], ValueOf(a))
  {
    if a.DomainEnter? || a.DomainExit? || a.Yield? {
      MoveKeepsCalls(c, s, h, a);
    } else if a.MmSend? || a.Retrieve? || a.Complete? {
      MailKeepsCalls(c, s, h, a);
    } else {
      forall i | 0 <= i < c.harts ensures Goes(c, i, s.harts[i], Call(c, s, h, a).value.harts[i], ValueOf(a)) {
        if a.DomainStart? {
          DomainStartKeepsCalls(c, s, h, a, i);
        } else {
          OtherCallsKeepCalls(c, s, h, a, i);
        }
        SameCallsKeep(c, i, s.harts[i], Call(c, s, h, a).value.harts[i]);
      }
    }
  }

  /** A message that cannot be carried over after all is answered at once. */
  lemma RefusedKeepsCalls(c: Config, h: nat, x: Hart)
    requires CallsOk(c, h, x) && x.pc.Sending?
    ensures var z := Answer(x.(slots := x.slots[x.dom := x.slots[x.dom].(state := Failed(RPMI_BUSY))], pc := Smode));
            CallsOk(c, h, z) && Calls(z.log) == Calls(x.log)
  {
    var z := Answer(x.(slots := x.slots[x.dom := x.slots[x.dom].(state := Failed(RPMI_BUSY))], pc := Smode));
    assert z.slots == x.slots[x.dom := x.slots[x.dom].(state := Free)];
    assert z.log == x.log + [MsgAnswered(x.dom, RPMI_BUSY, 0)];
    RefusedMail(c, h, x, z);
    LogGrows(x.log, MsgAnswered(x.dom, RPMI_BUSY, 0));
    ChainStays(c, h, x, z, Calls(x.log));
  }

  lemma RefusedMail(c: Config, h: nat, x: Hart, z: Hart)
    requires CallsOk(c, h, x) && x.pc.Sending? && WfHart(c, z) && z.pc.Smode?
    requires z.slots == x.slots[x.dom := x.slots[x.dom].(state := Free)]
    requires z.log == x.log + [MsgAnswered(x.dom, RPMI_BUSY, 0)]
    ensures Mail(c, z, Calls(z.log))
  {
    var st := Calls(x.log);
    forall i | 0 <= i < |st| ensures st[i].dom != x.dom { assert Link(c, h, x, st, i); }
    assert SlotIs(x.slots[x.dom], Outstanding(x.log, x.dom));
    LogGrows(x.log, MsgAnswered(x.dom, RPMI_BUSY, 0));
    forall d | 0 <= d < c.doms ensures SlotIs(z.slots[d], Outstanding(z.log, d)) {
      assert SlotIs(x.slots[d], Outstanding(x.log, d));
    }
  }

  /** Completing a message takes the hart back to its sender. */
  lemma CompletingExits(c: Config, s: State, h: nat)
    requires Placement(c, s) && h < c.harts && CallsOk(c, h, s.harts[h]) && s.harts[h].pc.Completing?
    requires !s.doms[s.harts[h].dom].stopping
    ensures BridgeStep(c, s, h).Some? && Popped(c, h, s.harts[h], BridgeStep(c, s, h).value.harts[h], 0)
    ensures CallsOk(c, h, BridgeStep(c, s, h).value.harts[h])
    ensures forall i :: 0 <= i < c.harts && i != h ==> BridgeStep(c, s, h).value.harts[i] == s.harts[i]
  {
    TopWaits(c, s, h);
    ToldLeaves(c, s, h, s.harts[h].live.regs.(a0 := SUCCESS, a1 := 8), None);
  }

  lemma SendingGoes(c: Config, s: State, h: nat)
    requires Wf(c, s) && h < c.harts && CallsOk(c, h, s.harts[h]) && s.harts[h].pc.Sending?
    ensures BridgeStep(c, s, h).Some?
    ensures Goes(c, h, s.harts[h], BridgeStep(c, s, h).value.harts[h], 0)
    ensures forall i :: 0 <= i < c.harts && i != h ==> BridgeStep(c, s, h).value.harts[i] == s.harts[i]
  {
    var x := s.harts[h];
    var t := c.bridge[x.pc.chan];
    if Enterable(c, s, h, t) && EnterRc(c, s, h, t, true).Ok? {
      SmodeMayMove(c, h, x);
      EnterKeepsCalls(c, At(c, s, h, Smode), h, t, 0, true);
      assert Pushed(x, BridgeStep(c, s, h).value.harts[h]);
    } else {
      RefusedKeepsCalls(c, h, x);
    }
  }

  lemma BridgeKeepsCalls(c: Config, s: State, h: nat)
    requires Placement(c, s) && AllCallsOk(c, s) && h < c.harts
    requires !s.doms[s.harts[h].dom].stopping && Bridging(s.harts[h].pc)
    ensures BridgeStep(c, s, h).Some?
    ensures forall i :: 0 <= i < c.harts ==> Goes(c, i, s.harts[i], BridgeStep(c, s, h).value.harts[i], 0)
  {
    assert CallsOk(c, h, s.harts[h]);
    if s.harts[h].pc.Sending? {
      SendingGoes(c, s, h);
    } else {
      CompletingExits(c, s, h);
    }
  }

  lemma SmodeChain(c: Config, h: nat, x: Hart)
    requires CallsOk(c, h, x) && !x.pc.Sending? && MayMove(c, h, x.(pc := Smode), false)
    ensures CallsOk(c, h, x.(pc := Smode))
  {
  }

  lemma ProceedKeepsCalls(c: Config, s: State, h: nat)
    requires CallsInv(c, s) && h < c.harts && Proceed(c, s, h).Some?
    ensures forall i :: 0 <= i < c.harts ==> Goes(c, i, s.harts[i], Proceed(c, s, h).value.harts[i], 0)
  {
    assert CallsOk(c, h, s.harts[h]);
    NoFlags(c, s);
    if Bridging(s.harts[h].pc) {
      BridgeKeepsCalls(c, s, h);
    } else {
      forall i | 0 <= i < c.harts ensures Goes(c, i, s.harts[i], Proceed(c, s, h).value.harts[i], 0) {
        assert CallsOk(c, i, s.harts[i]);
        if Booting(s.harts[h].pc) { BootSame(c, s, h, i); } else { HsmSame(c, s, h, i); }
        SameCallsKeep(c, i, s.harts[i], Proceed(c, s, h).value.harts[i]);
      }
    }
  }

  lemma BootSame(c: Config, s: State, h: nat, i: nat)
    requires Wf(c, s) && h < c.harts && i < c.harts && Booting(s.harts[h].pc) && BootStep(c, s, h).Some?
    ensures SameCalls(c, s.harts[i], BootStep(c, s, h).value.harts[i])
  {
  }

  lemma HsmSame(c: Config, s: State, h: nat, i: nat)
    requires Placement(c, s) && h < c.harts && i < c.harts && HsmStep(c, s, h).Some? && !s.harts[h].pc.StopSelf?
    requires !s.doms[s.harts[h].dom].stopping
    ensures SameCalls(c, s.harts[i], HsmStep(c, s, h).value.harts[i])
  {
  }

  lemma StepKeepsCalls(c: Config, s: State, h: nat, a: Action)
    requires CallsInv(c, s) && Step(c, s, h, a).Some? && !a.DomainStop?
    ensures CallsInv(c, Step(c, s, h, a).value)
    ensures forall i :: 0 <= i < c.harts ==> Goes(c, i, s.harts[i], Step(c, s, h, a).value.harts[i], ValueOf(a))
  {
    DomainStop.StepStops(c, s, h, a);
    NoFlags(c, s);
    if a.Go? {
      ProceedKeepsCalls(c, s, h);
    } else if a.Wake? {
      WakeKeepsCalls(c, s, h);
    } else {
      CallKeepsCalls(c, s, h, a);
    }
  }

  lemma WakeKeepsCalls(c: Config, s: State, h: nat)
    requires Wf(c, s) && AllCallsOk(c, s) && Step(c, s, h, Wake).Some?
    ensures forall i :: 0 <= i < c.harts ==> Goes(c, i, s.harts[i], Step(c, s, h, Wake).value.harts[i], 0)
  {
    var r := Step(c, s, h, Wake).value;
    forall i | 0 <= i < c.harts ensures Goes(c, i, s.harts[i], r.harts[i], 0) {
      SameCallsKeep(c, i, s.harts[i], r.harts[i]);
    }
  }

  ghost predicate NoStops(moves: seq<Move>) {
    forall i :: 0 <= i < |moves| ==> !moves[i].action.DomainStop?
  }

  lemma {:induction false} CallsHold(c: Config, run: seq<State>, moves: seq<Move>, i: nat)
    requires IsRun(c, run, moves) && NoStops(moves) && i < |run|
    ensures CallsInv(c, run[i])
  {
    if i == 0 {
      DomainStop.StopInvHolds(c, run, moves, 0);
      forall h | 0 <= h < c.harts ensures CallsOk(c, h, run[0].harts[h]) {
        assert InitHart(c, h, run[0].harts[h]);
      }
    } else {
      var k := i - 1;
      CallsHold(c, run, moves, k);
      assert Step(c, run[k], moves[k].hart, moves[k].action) == Some(run[k + 1]);
      StepKeepsCalls(c, run[k], moves[k].hart, moves[k].action);
    }
  }

  // ---- what it comes to ---------------------------------------------------------------------------

  /** The domains met by following the caller links from context `d` on, `n` of them at most. */
  function Callers(x: Hart, d: nat, n: nat): seq<nat>
    requires forall i :: 0 <= i < |x.ctx| && x.ctx[i].caller.Some? ==> x.ctx[i].caller.value < |x.ctx|
    requires d < |x.ctx|
    decreases n
  {
    if n == 0 || x.ctx[d].caller.None? then []
    else [x.ctx[d].caller.value] + Callers(x, x.ctx[d].caller.value, n - 1)
  }

  /** The makers of the first `k` calls of a stack, the latest first. */
  function Makers(st: seq<Frame>, k: nat): seq<nat>
    requires k <= |st|
  {
    if k == 0 then [] else [st[k - 1].dom] + Makers(st, k - 1)
  }

  lemma {:induction false} LinksAreCalls(c: Config, h: nat, x: Hart, k: nat, n: nat)
    requires CallsOk(c, h, x) && k < |Calls(x.log)| && n >= k
    ensures Calls(x.log)[k].dom < c.doms
    ensures Callers(x, Calls(x.log)[k].dom, n) == Makers(Calls(x.log), k)
  {
    var st := Calls(x.log);
    assert Link(c, h, x, st, k);
    if k > 0 {
      LinksAreCalls(c, h, x, k - 1, n - 1);
    }
  }

  /**
   The contexts of a hart that wait in a call are exactly the chain of callers from
   its own domain's context, and following that chain comes to an end.
   */
  lemma CallersAreTheChain(c: Config, run: seq<State>, moves: seq<Move>, i: nat, h: nat, n: nat)
    requires IsRun(c, run, moves) && NoStops(moves) && i < |run| && h < c.harts
    requires n >= |Calls(run[i].harts[h].log)|
    ensures var x := run[i].harts[h];
            && Callers(x, x.dom, n) == Makers(Calls(x.log), |Calls(x.log)|)
            && forall d :: 0 <= d < c.doms ==> (x.ctx[d].phase.Calling? <==> d in Callers(x, x.dom, n))
  {
    CallsHold(c, run, moves, i);
    OwnIsAwake(c, run[i], h);
    ChainIsCallers(c, h, run[i].harts[h], n);
  }

  lemma OwnIsAwake(c: Config, s: State, h: nat)
    requires CallsInv(c, s) && h < c.harts
    ensures CallsOk(c, h, s.harts[h]) && !Waits(s.harts[h].ctx[s.harts[h].dom])
  {
  }

  lemma {:induction false} ChainIsCallers(c: Config, h: nat, x: Hart, n: nat)
    requires CallsOk(c, h, x) && !Waits(x.ctx[x.dom]) && n >= |Calls(x.log)|
    ensures Callers(x, x.dom, n) == Makers(Calls(x.log), |Calls(x.log)|)
    ensures forall d :: 0 <= d < c.doms ==> (x.ctx[d].phase.Calling? <==> d in Callers(x, x.dom, n))
  {
    var st := Calls(x.log);
    if st != [] {
      LinksAreCalls(c, h, x, |st| - 1, n - 1);
    }
    forall d | 0 <= d < c.doms ensures x.ctx[d].phase.Calling? <==> d in Makers(st, |st|) {
      CallingIsMaker(c, h, x, d);
    }
  }

  lemma CallingIsMaker(c: Config, h: nat, x: Hart, d: nat)
    requires CallsOk(c, h, x) && !Waits(x.ctx[x.dom]) && d < c.doms
    ensures x.ctx[d].phase.Calling? <==> d in Makers(Calls(x.log), |Calls(x.log)|)
  {
    var st := Calls(x.log);
    InMakers(st, |st|, d);
    if InStack(st, d) {
      var j :| 0 <= j < |st| && st[j].dom == d;
      assert Link(c, h, x, st, j);
    } else if d != x.dom {
      assert Loose(c, x, d);
    }
  }

  lemma {:induction false} InMakers(st: seq<Frame>, k: nat, d: nat)
    requires k <= |st|
    ensures d in Makers(st, k) <==> exists i :: 0 <= i < k && st[i].dom == d
  {
    if k > 0 {
      InMakers(st, k - 1, d);
    }
  }

  /**
   Calls nest. A step leaves a hart's calls as they are, adds one that keeps the hart as
   it is, or takes the latest off, loud or quiet, and its caller finds everything as it left it.
   */
  lemma CallsNest(c: Config, run: seq<State>, moves: seq<Move>, i: nat, h: nat)
    requires IsRun(c, run, moves) && NoStops(moves) && i < |moves| && h < c.harts
    ensures Goes(c, h, run[i].harts[h], run[i + 1].harts[h], ValueOf(moves[i].action))
  {
    CallsHold(c, run, moves, i);
    assert Step(c, run[i], moves[i].hart, moves[i].action) == Some(run[i + 1]);
    StepKeepsCalls(c, run[i], moves[i].hart, moves[i].action);
  }

  /** The hart goes back to its latest caller: it exits, has nothing to do, or has completed a message. */
  predicate Exits(x: Hart, a: Action) {
    if a.Go? then x.pc.Completing? else a.DomainExit? || a.Yield?
  }

  /** An exit resumes the latest enter that has not returned; its caller finds everything as it left it. */
  lemma ExitResumes(c: Config, run: seq<State>, moves: seq<Move>, i: nat, h: nat)
    requires IsRun(c, run, moves) && NoStops(moves) && i < |moves| && h < c.harts && moves[i].hart == h
    requires Exits(run[i].harts[h], moves[i].action) && Calls(run[i].harts[h].log) != []
    ensures Popped(c, h, run[i].harts[h], run[i + 1].harts[h], ValueOf(moves[i].action))
  {
    CallsHold(c, run, moves, i);
    assert Step(c, run[i], moves[i].hart, moves[i].action) == Some(run[i + 1]);
    ExitStep(c, run[i], h, moves[i].action, run[i + 1]);
  }

  lemma ExitStep(c: Config, s: State, h: nat, a: Action, r: State)
    requires CallsInv(c, s) && Step(c, s, h, a) == Some(r) && h < c.harts
    requires Exits(s.harts[h], a) && Calls(s.harts[h].log) != []
    ensures Popped(c, h, s.harts[h], r.harts[h], ValueOf(a))
  {
    assert CallsOk(c, h, s.harts[h]);
    NoFlags(c, s);
    if a.DomainExit? {
      LoudExit(c, s, h, a.value);
    } else if a.Yield? {
      ToldLeaves(c, s, h, Again(s.harts[h].live.regs), a.first);
    } else {
      CompletingExits(c, s, h);
    }
  }

  lemma LoudExit(c: Config, s: State, h: nat, value: int)
    requires Placement(c, s) && h < c.harts && CallsOk(c, h, s.harts[h]) && s.harts[h].pc.Smode?
    requires Call(c, s, h, DomainExit(value)).Some? && !s.doms[s.harts[h].dom].stopping
    ensures Left(c, h, s.harts[h], Call(c, s, h, DomainExit(value)).value.harts[h], value)
  {
    var x := s.harts[h];
    SmodeMayMove(c, h, x);
    assert x.(pc := Smode) == x;
    LeaveKeepsCalls(c, s, h, value, false, None);
  }

  /**
   Every message sent with the hart is answered exactly once and properly; one that
   is not answered yet has the hart away from its sender, and a sender that runs has
   all of its answers and a free slot.
   */
  lemma MessagesAreAnswered(c: Config, run: seq<State>, moves: seq<Move>, i: nat, h: nat)
    requires IsRun(c, run, moves) && NoStops(moves) && i < |run| && h < c.harts
    ensures var x := run[i].harts[h];
            && AnsweredOnce(x.log)
            && (forall d :: 0 <= d < c.doms ==> (x.slots[d].state.Free? <==> Outstanding(x.log, d).None?))
            && (forall d :: 0 <= d < c.doms && Outstanding(x.log, d).Some? ==>
                  x.slots[d].msg == Outstanding(x.log, d).value.msg
                  && ((d == x.dom && x.pc.Sending?) || (d != x.dom && InQuiet(Calls(x.log), d))))
            && (x.pc.Smode? ==> x.slots[x.dom].state.Free?)
  {
    CallsHold(c, run, moves, i);
    var x := run[i].harts[h];
    assert CallsOk(c, h, x);
    SmodeMayMove(c, h, x);
    var st := Calls(x.log);
    forall j | 0 <= j < |st| ensures st[j].dom != x.dom { assert Link(c, h, x, st, j); }
    forall d | 0 <= d < c.doms ensures SlotIs(x.slots[d], Outstanding(x.log, d)) { }
  }
}
