/**
 The harts, domains and contexts of the monitor (domain_context.c, hsm.c and the
 bridge half of mpxy_rpmi_fw.c) as one state machine.

 A step is what the code does between two points where another hart can
 interfere: a section under domain_lock, or one atomic access outside of it.
 (The scan of a stop and the start of a hart look at the masks without that lock, and
 here never in the middle of such a section.)
 `Step` is a function of the hart that moves and of what it does, so a run is any
 interleaving of the harts' steps.
 */
module DomainModel {
  import opened Options

  // ---- a hart as its S-mode sees it ------------------------------------------

  datatype Priv = User | Supervisor
  /** Fields of mstatus the monitor clears or sets; the rest of it is `other`. */
  datatype Flag = MPIE | MPRV | SIE | SPIE | SPP | FS | VS | SUM | MXR | SDT | MPV | GVA
  datatype Mstatus = Mstatus(mpp: Priv, flags: set<Flag>, other: int)
  datatype Regs = Regs(a0: int, a1: int, mepc: int, mstatus: Mstatus, rest: seq<int>)
  datatype Csrs = Csrs(sie: int, stvec: int, sscratch: int, sepc: int, scause: int, stval: int,
                       satp: int, scounteren: int, senvcfg: int, sstateen: seq<int>,
                       hyp: seq<int>, htimedelta: int, henvcfg: int, hstateen0: int, vstimecmp: int)
  datatype Live = Live(regs: Regs, csrs: Csrs, ssip: bool, timer: int, shmem: Option<int>,
                       fp: seq<int>, vec: seq<int>)

  // ---- contexts, slots, harts, domains --------------------------------------

  datatype Phase = Never | Running | Calling | Idle
  datatype Context = Context(phase: Phase, caller: Option<nat>, ipi: bool, quiet: bool, saved: Live)

  datatype SlotState = Free | Sent | Retrieved | Completed | Failed(error: int)
  /**
   A message carried over by a switch, in words. The output area is `outSize` bytes, and so
   many as its second word says the response takes of it.
   */
  datatype Slot = Slot(state: SlotState, to: nat, outSize: nat, msg: seq<int>, rsp: seq<int>)

  datatype Hsm = Started | Stopped | StartPending | StopPending
               | Suspended | SuspendPending | ResumePending

  /** Where a hart is in the monitor's code. */
  datatype Pc =
    | Smode                       // in S-mode, or in a call that has not done anything yet
    | StopSelf                    // domain_stop_self(), before the lock
    | ForceStop | Halting | Waiting
    | Starting | StartCheck | StartStore
    | Suspending(retentive: bool) | Asleep(retentive: bool) | Waking(retentive: bool) | Resumed
    | BootLock(hart: nat) | BootLoad(hart: nat) | BootCheck(hart: nat, seen: Hsm)
    | BootStore(hart: nat) | BootUnlock(hart: nat)
    | StopRaise(dom: nat) | StopBarrier(dom: nat)
    | Scan(dom: nat, next: nat, busy: bool) | ScanHsm(dom: nat, next: nat, busy: bool)
    | StopLower(dom: nat) | StopUnlock(dom: nat)
    | Sending(chan: nat) | Completing

  /** History, per hart: what moved it and what travelled with it. */
  datatype Event =
    | Entered(from: nat, live: Live, quiet: bool)
    | Returned
    | MsgSent(dom: nat, chan: nat, msg: seq<int>, outSize: nat)
    | MsgRetrieved(dom: nat, chan: nat)
    | MsgCompleted(dom: nat, chan: nat, rsp: seq<int>)
    | MsgAnswered(dom: nat, status: int, written: int)

  datatype Hart = Hart(hsm: Hsm, dom: nat, pc: Pc, live: Live,
                       ctx: seq<Context>, slots: seq<Slot>, log: seq<Event>)

  /** `admitted` counts the harts let into the domain: by enter, exit, return or start. */
  datatype Domain = Domain(runs: set<nat>, parked: set<nat>, stopping: bool, admitted: nat)

  datatype State = State(harts: seq<Hart>, doms: seq<Domain>,
                         startLock: Option<nat>, stopLock: Option<nat>)

  /** The configuration, which does not change; the root domain has index 0. */
  datatype Config = Config(harts: nat, doms: nat,
                           possible: seq<set<nat>>, bootHart: seq<int>, mayEnter: set<(nat, nat)>,
                           entryOk: seq<bool>, nextAddr: seq<int>, nextArg1: seq<int>,
                           nextMode: seq<Priv>, valid: set<nat>, vecFits: set<nat>,
                           bridge: seq<nat>)

  ghost predicate WfConfig(c: Config) {
    && |c.possible| == |c.bootHart| == |c.entryOk| == c.doms
    && |c.nextAddr| == |c.nextArg1| == |c.nextMode| == c.doms
    && (forall i :: 0 <= i < |c.bridge| ==> c.bridge[i] < c.doms)
    && (forall p :: p in c.mayEnter ==> p.1 != 0)
  }

  ghost predicate WfPc(c: Config, pc: Pc) {
    match pc
    case BootLock(i) => i < c.harts
    case BootLoad(i) => i < c.harts
    case BootCheck(i, _) => i < c.harts
    case BootStore(i) => i < c.harts
    case BootUnlock(i) => i < c.harts
    case StopRaise(d) => d < c.doms
    case StopBarrier(d) => d < c.doms
    case Scan(d, i, _) => d < c.doms && i <= c.harts
    case ScanHsm(d, i, _) => d < c.doms && i < c.harts
    case StopLower(d) => d < c.doms
    case StopUnlock(d) => d < c.doms
    case Sending(ch) => ch < |c.bridge|
    case _ => true
  }

  ghost predicate WfHart(c: Config, x: Hart) {
    && |x.ctx| == |x.slots| == c.doms
    && x.dom < c.doms
    && WfPc(c, x.pc)
    && (forall d :: 0 <= d < c.doms && x.ctx[d].caller.Some? ==> x.ctx[d].caller.value < c.doms)
  }

  ghost predicate Wf(c: Config, s: State) {
    && WfConfig(c)
    && |s.harts| == c.harts && |s.doms| == c.doms
    && (forall h :: 0 <= h < c.harts ==> WfHart(c, s.harts[h]))
  }

  // ---- the context switch ----------------------------------------------------

  const SUCCESS := 0
  const ERR_FAILED := -1
  const RPMI_IO := -13
  const RPMI_BUSY := -9
  const RPMI_BAD_RANGE := -11
  const NEVER_DUE := 0xffff_ffff_ffff_ffff
  const ALL_ONES := 0xffff_ffff_ffff_ffff
  const ZERO_REGS: seq<int> := [0, 0, 0, 0, 0, 0, 0, 0, 0, 0, 0, 0, 0, 0, 0, 0, 0, 0, 0, 0, 0, 0, 0, 0, 0, 0, 0, 0]

  function SetHart(s: State, h: nat, x: Hart): State
    requires h < |s.harts|
  {
    s.(harts := s.harts[h := x])
  }

  ghost function At(c: Config, s: State, h: nat, pc: Pc): (r: State)
    requires Wf(c, s) && h < c.harts && WfPc(c, pc)
    ensures Wf(c, r)
  {
    SetHart(s, h, s.harts[h].(pc := pc))
  }

  /** Hart `h` back in S-mode, where it finds `regs`. */
  ghost function Told(c: Config, s: State, h: nat, regs: Regs): (r: State)
    requires Wf(c, s) && h < c.harts
    ensures Wf(c, r)
  {
    SetHart(s, h, s.harts[h].(live := s.harts[h].live.(regs := regs), pc := Smode))
  }

  /** context_save(): it leaves out vector registers that are too wide for it. */
  function Save(c: Config, h: nat, live: Live, before: Live): Live {
    live.(vec := if h in c.vecFits then live.vec else before.vec)
  }

  /** context_restore(), the registers aside: those that did not fit are cleared. */
  function Load(c: Config, h: nat, ctx: Context): Live {
    ctx.saved.(ssip := ctx.saved.ssip || ctx.ipi, vec := if h in c.vecFits then ctx.saved.vec else [])
  }

  ghost function Park(c: Config, s: State, h: nat, phase: Phase, quiet: bool): (r: State)
    requires Wf(c, s) && h < c.harts
    ensures Wf(c, r)
  {
    var x := s.harts[h];
    var d := x.dom;
    var saved := x.ctx[d].(saved := Save(c, h, x.live, x.ctx[d].saved), phase := phase, quiet := quiet);
    SetHart(s, h, x.(ctx := x.ctx[d := saved], live := x.live.(shmem := None)))
    .(doms := s.doms[d := s.doms[d].(parked := s.doms[d].parked + {h})])
  }

  ghost function Restore(c: Config, s: State, h: nat, t: nat): (r: State)
    requires Wf(c, s) && h < c.harts && t < c.doms
    ensures Wf(c, r)
  {
    var x := s.harts[h];
    var ctx := x.ctx[t];
    var left := s.doms[x.dom := s.doms[x.dom].(runs := s.doms[x.dom].runs - {h})];
    var joined := left[t].(parked := left[t].parked - {h}, runs := left[t].runs + {h},
                           admitted := left[t].admitted + 1);
    SetHart(s, h, x.(dom := t, live := Load(c, h, ctx).(regs := x.live.regs),
                     ctx := x.ctx[t := ctx.(ipi := false, phase := Running)]))
    .(doms := left[t := joined])
  }

  /** What context_fresh() keeps of mstatus. */
  function FreshStatus(m: Mstatus, mode: Priv): Mstatus {
    Mstatus(mode, m.flags - {MPIE, MPRV, SIE, SPIE, SPP, FS, VS, SUM, MXR, SDT, MPV, GVA}, m.other)
  }

  function FreshLive(c: Config, h: nat, t: nat, live: Live): Live
    requires WfConfig(c) && t < c.doms
  {
    Live(Regs(h, c.nextArg1[t], c.nextAddr[t], FreshStatus(live.regs.mstatus, c.nextMode[t]), ZERO_REGS),
         Csrs(0, c.nextAddr[t], 0, 0, 0, 0, 0, 0, 0, [ALL_ONES, ALL_ONES, ALL_ONES, ALL_ONES],
              [], 0, 0, 0, NEVER_DUE),
         false, NEVER_DUE, None, [], [])
  }

  /** The answer mpxy_context_resumed() gives for a slot, (status, written). */
  function AnswerOf(slot: Slot): (int, int) {
    match slot.state
    case Failed(e) => (e, 0)
    case Completed =>
      if |slot.rsp| == 2 && slot.rsp[1] <= slot.outSize then (slot.rsp[0], slot.rsp[1]) else (RPMI_IO, 0)
    case _ => (RPMI_IO, 0)
  }

  /** mpxy_context_resumed(), on hart record `x`, which runs its own domain's context. */
  function Answer(x: Hart): Hart
    requires x.dom < |x.slots|
  {
    var slot := x.slots[x.dom];
    if slot.state.Free? then x
    else
      var a := AnswerOf(slot);
      x.(slots := x.slots[x.dom := slot.(state := Free)],
         live := x.live.(regs := x.live.regs.(a0 := SUCCESS, a1 := 8)),
         log := x.log + [MsgAnswered(x.dom, a.0, a.1)])
  }

  /** What context_switch() makes of context `t` before the hart takes it over. */
  ghost function Prepare(c: Config, s: State, h: nat, t: nat, error: int, value: int): (r: State)
    requires Wf(c, s) && h < c.harts && t < c.doms
    ensures Wf(c, r)
  {
    var x := s.harts[h];
    var ctx := x.ctx[t];
    if !ctx.phase.Never? then
      var told := if ctx.quiet then ctx.saved.regs else ctx.saved.regs.(a0 := error, a1 := value);
      SetHart(s, h, x.(ctx := x.ctx[t := ctx.(saved := ctx.saved.(regs := told), quiet := false)]))
    else
      var boot := FreshLive(c, h, t, x.live);
      if c.bootHart[t] == h then
        SetHart(s, h, x.(ctx := x.ctx[t := Context(Never, ctx.caller, false, false, boot)]))
      else
        // On its way to a stop before it gets there, so that nobody sees it started.
        var stay := boot.(regs := boot.regs.(mstatus := x.live.regs.mstatus));
        SetHart(s, h, x.(hsm := StopPending, ctx := x.ctx[t := Context(Never, ctx.caller, false, false, stay)]))
  }

  /** context_switch(): context `t`, after the hart's own has been saved. */
  ghost function Switch(c: Config, s: State, h: nat, t: nat, error: int, value: int): (r: State)
    requires Wf(c, s) && h < c.harts && t < c.doms
    ensures Wf(c, r)
  {
    var never := s.harts[h].ctx[t].phase.Never?;
    var r := Restore(c, Prepare(c, s, h, t, error, value), h, t);
    var x := r.harts[h];
    var y := x.(live := x.live.(regs := x.ctx[t].saved.regs));
    // A hart that comes to a domain someone else has to boot stops there.
    if never && c.bootHart[t] != h then At(c, r, h, ForceStop)
    else SetHart(r, h, if never then y else Answer(y))
  }

  // ---- enter and leave --------------------------------------------------------

  datatype Rc = Ok | InvalidParam | Denied | AlreadyAvailable | InvalidAddress

  predicate CallerWaits(c: Config, s: State, h: nat, d: nat)
    requires Wf(c, s) && h < c.harts && d < c.doms
  {
    var x := s.harts[h];
    x.ctx[d].caller.Some? && x.ctx[x.ctx[d].caller.value].phase == Calling
  }

  ghost function EnterRc(c: Config, s: State, h: nat, t: nat, quiet: bool): Rc
    requires Wf(c, s) && h < c.harts && t < c.doms
  {
    var cur := s.harts[h].dom;
    var phase := s.harts[h].ctx[t].phase;
    if t == cur || h !in c.possible[t] then InvalidParam
    else if !quiet && (cur, t) !in c.mayEnter then Denied
    else if s.doms[t].stopping || s.doms[cur].stopping then Denied
    else if phase.Running? || phase.Calling? then AlreadyAvailable
    else if phase.Never? && !c.entryOk[t] then InvalidAddress
    else Ok
  }

  ghost function Enter(c: Config, s: State, h: nat, t: nat, arg: int, quiet: bool): (r: State)
    requires Wf(c, s) && h < c.harts && t < c.doms
    ensures Wf(c, r)
  {
    var x := s.harts[h];
    var parked := Park(c, s, h, Calling, quiet);
    var y := parked.harts[h];
    var linked := SetHart(parked, h, y.(ctx := y.ctx[t := y.ctx[t].(caller := Some(x.dom))],
                                        log := y.log + [Entered(x.dom, x.live, quiet)]));
    Switch(c, linked, h, t, SUCCESS, arg)
  }

  ghost predicate Enterable(c: Config, s: State, h: nat, t: nat)
    requires Wf(c, s) && h < c.harts && t < c.doms
  {
    && t != s.harts[h].dom && h in c.possible[t] && !s.doms[t].stopping
    && (s.harts[h].ctx[t].phase.Idle? || (s.harts[h].ctx[t].phase.Never? && c.bootHart[t] == h))
  }

  /** The domain domain_exit() goes on to when nobody waits: the first from `d` on. */
  ghost function FirstBoot(c: Config, s: State, h: nat, d: nat): (r: Option<nat>)
    requires Wf(c, s) && h < c.harts && d <= c.doms
    ensures r.Some? ==> d <= r.value < c.doms && BootDue(c, s, h, r.value)
    ensures forall e :: d <= e < (if r.Some? then r.value else c.doms) ==> !BootDue(c, s, h, e)
    decreases c.doms - d
  {
    if d == c.doms then None
    else if BootDue(c, s, h, d) then Some(d)
    else FirstBoot(c, s, h, d + 1)
  }

  predicate BootDue(c: Config, s: State, h: nat, d: nat)
    requires Wf(c, s) && h < c.harts && d < c.doms
  {
    && d != s.harts[h].dom && h in c.possible[d] && (s.harts[h].dom, d) in c.mayEnter
    && !s.doms[d].stopping && s.harts[h].ctx[d].phase.Never?
  }

  predicate QuietBootDue(c: Config, s: State, h: nat, d: nat)
    requires Wf(c, s) && h < c.harts && d < c.doms
  {
    && d != s.harts[h].dom && c.bootHart[d] == h && h in c.possible[d]
    && !s.doms[d].stopping && s.harts[h].ctx[d].phase.Never? && c.entryOk[d]
  }

  /** Where leave() takes the hart, None where it is refused. */
  ghost function LeaveTo(c: Config, s: State, h: nat, quiet: bool, first: Option<nat>): (r: Option<nat>)
    requires Wf(c, s) && h < c.harts
    ensures r.Some? ==> r.value < c.doms && !s.doms[s.harts[h].dom].stopping
  {
    if s.doms[s.harts[h].dom].stopping then None else LeaveFind(c, s, h, quiet, first)
  }

  /** The context leave() finds, before it looks at the stop flag. */
  ghost function LeaveFind(c: Config, s: State, h: nat, quiet: bool, first: Option<nat>): (r: Option<nat>)
    requires Wf(c, s) && h < c.harts
    ensures r.Some? ==> r.value < c.doms
  {
    var x := s.harts[h];
    if CallerWaits(c, s, h, x.dom) then x.ctx[x.dom].caller
    else if quiet then
      if first.Some? && first.value < c.doms && QuietBootDue(c, s, h, first.value) then first else None
    else if c.doms == 0 then None
    else FirstBoot(c, s, h, 1)
  }

  /** What a refused leave() changes, if anything: a context it found has no caller now. */
  ghost function Refused(c: Config, s: State, h: nat, quiet: bool, first: Option<nat>): (r: Option<State>)
    requires Wf(c, s) && h < c.harts
    ensures r.Some? ==> Wf(c, r.value)
  {
    var x, t := s.harts[h], LeaveFind(c, s, h, quiet, first);
    if t.None? || CallerWaits(c, s, h, x.dom) then None
    else Some(SetHart(s, h, x.(ctx := x.ctx[t.value := x.ctx[t.value].(caller := None)])))
  }

  ghost function Leave(c: Config, s: State, h: nat, t: nat, value: int, quiet: bool): (r: State)
    requires Wf(c, s) && h < c.harts && t < c.doms
    ensures Wf(c, r)
  {
    var x := s.harts[h];
    var back := CallerWaits(c, s, h, x.dom);
    var y := if back then x.(log := x.log + [Returned]) else x.(ctx := x.ctx[t := x.ctx[t].(caller := None)]);
    var z := y.(ctx := y.ctx[x.dom := y.ctx[x.dom].(caller := None)]);
    Switch(c, Park(c, SetHart(s, h, z), h, Idle, quiet), h, t, SUCCESS, value)
  }

  // ---- stopping and starting ----------------------------------------------------

  /** domain_stop_self(): back to a caller that waits, its call failed, or to a stop. */
  ghost function StopSelfStep(c: Config, s: State, h: nat): (r: State)
    requires Wf(c, s) && h < c.harts
    ensures Wf(c, r)
  {
    var x := s.harts[h];
    var to := if CallerWaits(c, s, h, x.dom) then x.ctx[x.dom].caller else None;
    var gone := x.(ctx := x.ctx[x.dom := x.ctx[x.dom].(phase := Never, caller := None)]);
    if to.None? || gone.ctx[to.value].phase.Never? then At(c, SetHart(s, h, gone), h, ForceStop)
    else Switch(c, SetHart(s, h, gone.(pc := Smode)), h, to.value, ERR_FAILED, 0)
  }

  predicate Waits(x: Context) { x.phase.Calling? || x.phase.Idle? }

  function Dropped(x: Hart, d: nat): Hart
    requires d < |x.ctx|
  {
    if Waits(x.ctx[d]) then x.(ctx := x.ctx[d := x.ctx[d].(phase := Never, caller := None)]) else x
  }

  ghost function WaitingIn(c: Config, s: State, d: nat): set<nat>
    requires Wf(c, s) && d < c.doms
  {
    set i | 0 <= i < |s.harts| && Waits(s.harts[i].ctx[d])
  }

  /** domain_stop(), the section under the lock. */
  ghost function Raise(c: Config, s: State, d: nat): (r: State)
    requires Wf(c, s) && d < c.doms
    ensures Wf(c, r)
  {
    State(seq(|s.harts|, i requires 0 <= i < |s.harts| => Dropped(s.harts[i], d)),
          s.doms[d := s.doms[d].(stopping := true, parked := s.doms[d].parked - WaitingIn(c, s, d))],
          s.startLock, s.stopLock)
  }

  function Forgotten(x: Hart, d: nat): Hart
    requires d < |x.ctx|
  {
    x.(ctx := x.ctx[d := x.ctx[d].(phase := Never)])
  }

  /** domain_start(), the section under the lock: the contexts of a stopped domain go. */
  ghost function Forget(c: Config, s: State, d: nat): (r: State)
    requires Wf(c, s) && d < c.doms
    ensures Wf(c, r)
  {
    State(seq(|s.harts|, i requires 0 <= i < |s.harts| => Forgotten(s.harts[i], d)),
          s.doms, s.startLock, s.stopLock)
  }

  // ---- steps ----------------------------------------------------------------------

  datatype Action =
    | Software(live: Live)                                // S-mode computes
    | DomainEnter(target: nat, arg: int) | DomainExit(value: int)
    | MmSend(chan: nat, msg: seq<int>, outSize: nat) | Retrieve(chan: nat)
    | Complete(chan: nat, rsp: seq<int>) | Yield(first: Option<nat>)
    | IpiParked(hart: nat)
    | HartStop | HartSuspend(retentive: bool) | Wake
    | StopCheck                                           // trap exit: is the domain being stopped?
    | HartStart(hart: nat)
    | DomainStart(dom: nat, seenRunning: bool) | DomainStop(dom: nat)
    | Go                                                  // on with what the hart is in the middle of

  /** Who sent the message that brought the hart to channel `ch`. */
  ghost function SlotFor(c: Config, s: State, h: nat, ch: nat): (r: Option<nat>)
    requires Wf(c, s) && h < c.harts
    ensures r.Some? ==> r.value < c.doms && CallerWaits(c, s, h, s.harts[h].dom)
                        && Some(r.value) == s.harts[h].ctx[s.harts[h].dom].caller
  {
    var x := s.harts[h];
    if !CallerWaits(c, s, h, x.dom) then None
    else
      var d := x.ctx[x.dom].caller.value;
      if x.slots[d].to == ch && (x.slots[d].state.Sent? || x.slots[d].state.Retrieved?) then Some(d) else None
  }

  /** As they were before the ecall. */
  function Again(regs: Regs): Regs {
    regs.(mepc := regs.mepc - 4)
  }

  /** A step of hart `h` that runs S-mode. */
  ghost function Call(c: Config, s: State, h: nat, a: Action): (r: Option<State>)
    requires Wf(c, s) && h < c.harts && s.harts[h].pc.Smode?
    ensures r.Some? ==> Wf(c, r.value)
  {
    var x := s.harts[h];
    match a
    case Software(live) => Some(SetHart(s, h, x.(live := live)))
    case DomainEnter(t, arg) =>
      if t < c.doms && EnterRc(c, s, h, t, false).Ok? then Some(Enter(c, s, h, t, arg, false)) else None
    case DomainExit(value) =>
      var to := LeaveTo(c, s, h, false, None);
      if to.Some? then Some(Leave(c, s, h, to.value, value, false)) else Refused(c, s, h, false, None)
    case Yield(first) =>
      var to := LeaveTo(c, s, h, true, first);
      // It will make this call again.
      if to.Some? then Some(Leave(c, Told(c, s, h, Again(x.live.regs)), h, to.value, 0, true))
      else Refused(c, s, h, true, first)
    case MmSend(ch, msg, outSize) =>
      if ch < |c.bridge| && Enterable(c, s, h, c.bridge[ch]) then
        Some(SetHart(s, h, x.(slots := x.slots[x.dom := Slot(Sent, ch, outSize, msg, [])],
                              log := x.log + [MsgSent(x.dom, ch, msg, outSize)], pc := Sending(ch))))
      else None
    case Retrieve(ch) =>
      var d := SlotFor(c, s, h, ch);
      if d.Some? then
        Some(SetHart(s, h, x.(slots := x.slots[d.value := x.slots[d.value].(state := Retrieved)],
                              log := x.log + [MsgRetrieved(d.value, ch)])))
      else None
    case Complete(ch, rsp) =>
      var d := SlotFor(c, s, h, ch);
      if d.Some? && x.slots[d.value].state.Retrieved? && |rsp| >= 1 then
        var slot := x.slots[d.value];
        var done := if |rsp| <= 2 then slot.(state := Completed, rsp := rsp)
                    else slot.(state := Failed(RPMI_BAD_RANGE));
        Some(SetHart(s, h, x.(slots := x.slots[d.value := done],
                              log := x.log + [MsgCompleted(d.value, ch, rsp)], pc := Completing)))
      else None
    case IpiParked(i) =>
      if i < c.harts && s.harts[i].dom != x.dom && !s.harts[i].ctx[x.dom].phase.Never? then
        var y := s.harts[i];
        Some(SetHart(s, i, y.(ctx := y.ctx[x.dom := y.ctx[x.dom].(ipi := true)])))
      else None
    case HartStop =>
      if x.hsm.Started? then Some(SetHart(s, h, x.(hsm := StopPending, pc := Halting))) else None
    case HartSuspend(ret) =>
      if x.hsm.Started? then Some(SetHart(s, h, x.(hsm := SuspendPending, pc := Suspending(ret)))) else None
    case StopCheck => if s.doms[x.dom].stopping then Some(At(c, s, h, StopSelf)) else None
    case HartStart(i) =>
      if i < c.harts && i in s.doms[x.dom].runs then Some(At(c, s, h, BootLock(i))) else None
    case DomainStart(d, seenRunning) =>
      // The scan of domain_running() reads the other harts' states one at a
      // time, outside of any lock of theirs: it can see anything.
      if d < c.doms && !s.doms[d].stopping && !seenRunning && s.doms[d].parked == {}
         && 0 <= c.bootHart[d] < c.harts && c.bootHart[d] in s.doms[d].runs && c.entryOk[d] then
        Some(At(c, Forget(c, s, d), h, BootLock(c.bootHart[d])))
      else None
    case DomainStop(d) =>
      if d < c.doms && s.stopLock.None? then Some(At(c, s, h, StopRaise(d)).(stopLock := Some(h))) else None
    case Wake => None
    case Go => None
  }

  /** hsm.c: a hart on its way down, up, to sleep or awake. */
  ghost function HsmStep(c: Config, s: State, h: nat): (r: Option<State>)
    requires Wf(c, s) && h < c.harts
    ensures r.Some? ==> Wf(c, r.value)
  {
    var x := s.harts[h];
    match x.pc
    case StopSelf => Some(StopSelfStep(c, s, h))
    case ForceStop => Some(SetHart(s, h, x.(hsm := StopPending, pc := Halting)))
    case Halting => Some(SetHart(s, h, x.(hsm := Stopped, pc := Waiting)))
    case Waiting => if x.hsm.StartPending? then Some(At(c, s, h, Starting)) else None
    case Starting =>
      Some(SetHart(s, h, x.(ctx := x.ctx[x.dom := x.ctx[x.dom].(phase := Running)], pc := StartCheck)))
    case StartCheck => Some(At(c, s, h, if s.doms[x.dom].stopping then StopSelf else StartStore))
    case StartStore => Some(SetHart(s, h, x.(hsm := Started, pc := Smode)))
    case Suspending(ret) => Some(SetHart(s, h, x.(hsm := Suspended, pc := Asleep(ret))))
    case Waking(ret) =>
      if !ret && s.doms[x.dom].stopping then Some(At(c, s, h, StopSelf))
      else Some(SetHart(s, h, x.(hsm := ResumePending, pc := if ret then Resumed else Starting)))
    case Resumed => Some(SetHart(s, h, x.(hsm := Started, pc := Smode)))
    case _ => None
  }

  predicate Booting(pc: Pc) { pc.BootLock? || pc.BootLoad? || pc.BootCheck? || pc.BootStore? || pc.BootUnlock? }

  predicate Stopping(pc: Pc) {
    pc.StopRaise? || pc.StopBarrier? || pc.Scan? || pc.ScanHsm? || pc.StopLower? || pc.StopUnlock?
  }

  predicate Bridging(pc: Pc) { pc.Sending? || pc.Completing? }

  /** hsm_hart_boot(), between two accesses to what other harts share. */
  ghost function BootStep(c: Config, s: State, h: nat): (r: Option<State>)
    requires Wf(c, s) && h < c.harts
    ensures r.Some? ==> Wf(c, r.value)
  {
    match s.harts[h].pc
    case BootLock(i) =>
      if s.startLock.None? then Some(At(c, s, h, BootLoad(i)).(startLock := Some(h))) else None
    case BootLoad(i) => Some(At(c, s, h, BootCheck(i, s.harts[i].hsm)))
    case BootCheck(i, seen) =>
      var d := s.harts[i].dom;
      if s.doms[d].stopping || !seen.Stopped? then Some(At(c, s, h, BootUnlock(i)))
      else Some(At(c, s, h, BootStore(i)).(doms := s.doms[d := s.doms[d].(admitted := s.doms[d].admitted + 1)]))
    case BootStore(i) => Some(At(c, SetHart(s, i, s.harts[i].(hsm := StartPending)), h, BootUnlock(i)))
    case BootUnlock(i) => Some(At(c, s, h, Smode).(startLock := None))
    case _ => None
  }

  /** domain_stop(), after it got stop_lock. */
  ghost function StopStep(c: Config, s: State, h: nat): (r: Option<State>)
    requires Wf(c, s) && h < c.harts
    ensures r.Some? ==> Wf(c, r.value)
  {
    match s.harts[h].pc
    case StopRaise(d) => Some(At(c, Raise(c, s, d), h, StopBarrier(d)))
    case StopBarrier(d) => if s.startLock.None? then Some(At(c, s, h, Scan(d, 0, false))) else None
    case Scan(d, i, busy) =>
      if i == c.harts then Some(At(c, s, h, if busy then Scan(d, 0, false) else StopLower(d)))
      else if i != h && i in s.doms[d].runs && i in c.valid then Some(At(c, s, h, ScanHsm(d, i, busy)))
      else Some(At(c, s, h, Scan(d, i + 1, busy)))
    case ScanHsm(d, i, busy) => Some(At(c, s, h, Scan(d, i + 1, busy || !s.harts[i].hsm.Stopped?)))
    case StopLower(d) =>
      Some(At(c, s, h, StopUnlock(d)).(doms := s.doms[d := s.doms[d].(stopping := false)]))
    case StopUnlock(d) =>
      Some(At(c, s, h, if d == s.harts[h].dom then StopSelf else Smode).(stopLock := None))
    case _ => None
  }

  /** mpxy_switch_pending(). */
  ghost function BridgeStep(c: Config, s: State, h: nat): (r: Option<State>)
    requires Wf(c, s) && h < c.harts
    ensures r.Some? ==> Wf(c, r.value)
  {
    var x := s.harts[h];
    match x.pc
    case Sending(ch) =>
      var t := c.bridge[ch];
      if Enterable(c, s, h, t) && EnterRc(c, s, h, t, true).Ok? then
        Some(Enter(c, At(c, s, h, Smode), h, t, 0, true))
      else
        var failed := x.slots[x.dom].(state := Failed(RPMI_BUSY));
        Some(SetHart(s, h, Answer(x.(slots := x.slots[x.dom := failed], pc := Smode))))
    case Completing =>
      var to := LeaveTo(c, s, h, true, None);
      var told := Told(c, s, h, x.live.regs.(a0 := SUCCESS, a1 := 8));
      Some(if to.Some? then Leave(c, told, h, to.value, 0, true) else told)
    case _ => None
  }

  /** A step of hart `h` in the middle of something. */
  ghost function Proceed(c: Config, s: State, h: nat): (r: Option<State>)
    requires Wf(c, s) && h < c.harts
    ensures r.Some? ==> Wf(c, r.value)
  {
    var pc := s.harts[h].pc;
    if Booting(pc) then BootStep(c, s, h)
    else if Stopping(pc) then StopStep(c, s, h)
    else if Bridging(pc) then BridgeStep(c, s, h)
    else HsmStep(c, s, h)
  }

  ghost function Step(c: Config, s: State, h: nat, a: Action): (r: Option<State>)
    requires Wf(c, s)
    ensures r.Some? ==> Wf(c, r.value)
  {
    if h >= c.harts then None
    else if a.Go? then Proceed(c, s, h)
    else if a.Wake? then
      match s.harts[h].pc
      case Asleep(ret) => Some(At(c, s, h, Waking(ret)))
      case _ => None
    else if s.harts[h].pc.Smode? then Call(c, s, h, a)
    else None
  }

  // ---- runs ---------------------------------------------------------------------------

  ghost predicate InitHart(c: Config, h: nat, x: Hart)
    requires WfConfig(c) && WfHart(c, x)
  {
    && h in c.possible[x.dom] && x.pc.Waiting? && (x.hsm.Stopped? || x.hsm.StartPending?) && x.log == []
    && (forall d :: 0 <= d < c.doms ==>
          x.ctx[d].phase.Never? && x.ctx[d].caller.None? && !x.ctx[d].ipi && x.slots[d].state.Free?)
  }

  /** The boot's end: nothing has run, every hart waits in a domain it may run. */
  ghost predicate Init(c: Config, s: State) {
    && Wf(c, s)
    && s.startLock.None? && s.stopLock.None?
    && (forall h :: 0 <= h < c.harts ==> InitHart(c, h, s.harts[h]))
    && (forall d :: 0 <= d < c.doms ==>
          s.doms[d].parked == {} && !s.doms[d].stopping
          && forall h :: h in s.doms[d].runs <==> 0 <= h < c.harts && s.harts[h].dom == d)
  }

  datatype Move = Move(hart: nat, action: Action)

  /** `run` is a sequence of states, each one step after the one before. */
  ghost predicate IsRun(c: Config, run: seq<State>, moves: seq<Move>) {
    && |run| == |moves| + 1
    && Init(c, run[0])
    && (forall i :: 0 <= i < |run| ==> Wf(c, run[i]))
    && (forall i :: 0 <= i < |moves| ==> Step(c, run[i], moves[i].hart, moves[i].action) == Some(run[i + 1]))
  }
}
