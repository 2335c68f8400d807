/**
 Supervisor software events (sse.c): the trap frame that inject() and sse_complete()
 rewrite, the events of every domain, and the steps of the harts at the granularity of
 the event lock and of the accesses to the kick flags.
 */
module SseModel {
  import opened Options

  // ---- the trap frame ------------------------------------------------------------------

  datatype Priv = U | S

  /** Where a hart is, as the trap frame and the CSRs beside it say. */
  datatype Frame = Frame(mepc: int, mpp: Priv, mpv: bool,
                         sie: bool, spie: bool, spp: Priv, sdt: bool,
                         sepc: int, spv: bool, spvp: bool, a6: int, a7: int)

  /** H: the hart has the hypervisor extension; dte: double trap enabled for S-mode. */
  datatype Mode = Mode(h: bool, dte: bool)

  /** What hardware allows: no MPV without H, no SDT unless enabled, no SIE beside SDT. */
  predicate Legal(m: Mode, f: Frame) {
    && (!m.h ==> !f.mpv && !f.spv && !f.spvp)
    && (!m.dte ==> !f.sdt)
    && !(f.sie && f.sdt)
  }

  datatype Flags = Flags(spp: Priv, spie: bool, spv: bool, spvp: bool, sdt: bool)

  datatype Status = Unused | Registered | Enabled | Running

  datatype Event = Event(pending: bool, hart: nat, status: Status,
                         priority: int, oneshot: bool, preferred: int, entry: int, arg: int,
                         flags: Flags, sepc: int, a6: int, a7: int)

  const NO_FLAGS := Flags(U, false, false, false, false)

  /** event_reset() */
  function Reset(hart: nat, hartid: int): Event {
    Event(false, hart, Unused, 0, false, hartid, 0, 0, NO_FLAGS, 0, 0, 0)
  }

  /** inject(): the flags it keeps. */
  function FlagsOf(m: Mode, f: Frame): Flags {
    Flags(f.spp, f.spie, m.h && f.spv, m.h && f.spvp, m.dte && f.sdt)
  }

  /** inject(): the event. */
  function Injected(m: Mode, e: Event, f: Frame): Event {
    e.(flags := FlagsOf(m, f), sepc := f.sepc, a6 := f.a6, a7 := f.a7, pending := false, status := Running)
  }

  /** inject(): the frame, which now returns to the handler. */
  function Handler(m: Mode, e: Event, f: Frame, hartid: int): Frame {
    f.(mepc := e.entry, mpp := S, mpv := if m.h then false else f.mpv,
       sie := false, spie := f.sie, spp := f.mpp, sdt := m.dte || f.sdt,
       sepc := f.mepc,
       spv := if m.h then f.mpv else f.spv,
       spvp := if m.h && f.mpv then f.mpp == S else f.spvp,
       a6 := hartid, a7 := e.arg)
  }

  /** sse_complete(): the frame, which now returns to what the event interrupted. */
  function Resumed(m: Mode, e: Event, g: Frame): Frame {
    var sdt := if m.dte then e.flags.sdt else g.sdt;
    Frame(g.sepc, g.spp, if m.h && g.spv then true else g.mpv,
          g.spie && !sdt, e.flags.spie, e.flags.spp, sdt,
          e.sepc, if m.h then e.flags.spv else g.spv, if m.h then e.flags.spvp else g.spvp,
          e.a6, e.a7)
  }

  /** sse_complete(): the event. */
  function Completed(e: Event): Event {
    e.(status := if e.oneshot then Registered else Enabled)
  }

  /**
   `g` is a frame of the handler of an event that interrupted `f`: in HS-mode, with
   the state that leads back to `f` as inject() left it.
   */
  predicate Within(m: Mode, f: Frame, g: Frame) {
    && g.mpp == S && !g.mpv
    && g.sepc == f.mepc && g.spp == f.mpp && g.spie == f.sie
    && (m.h ==> g.spv == f.mpv && (f.mpv ==> g.spvp == (f.mpp == S)))
  }

  /** The event keeps what `f` needs back. */
  predicate Keeps(m: Mode, e: Event, f: Frame) {
    e.flags == FlagsOf(m, f) && e.sepc == f.sepc && e.a6 == f.a6 && e.a7 == f.a7
  }

  /** What inject() leaves is a legal frame of the handler, and the event keeps the rest. */
  lemma InjectLeaves(m: Mode, e: Event, f: Frame, hartid: int)
    requires Legal(m, f)
    ensures Legal(m, Handler(m, e, f, hartid)) && Within(m, f, Handler(m, e, f, hartid))
    ensures Keeps(m, Injected(m, e, f), f)
    ensures var g := Handler(m, e, f, hartid);
            g.mepc == e.entry && g.a6 == hartid && g.a7 == e.arg && !g.sie && (m.dte ==> g.sdt)
  {
  }

  /** However the handler got on, completing it gives back the whole interrupted frame. */
  lemma CompleteRestores(m: Mode, e: Event, f: Frame, g: Frame)
    requires Legal(m, f) && Legal(m, g) && Within(m, f, g) && Keeps(m, e, f)
    ensures Resumed(m, e, g) == f
  {
  }

  // ---- all events ------------------------------------------------------------------------

  datatype Home = Local(dom: nat, hart: nat) | Global(dom: nat)

  datatype Config = Config(harts: nat, doms: nat, home: seq<Home>, id: seq<int>,
                           injectable: set<nat>, hyp: seq<bool>, hartid: seq<int>, index: map<int, nat>)

  /** The events of domain `d` that hart `h` sees: its own and the global ones. */
  predicate Sees(c: Config, d: nat, h: nat, i: nat) {
    i < |c.home| && match c.home[i]
                    case Local(e, g) => e == d && g == h
                    case Global(e) => e == d
  }

  ghost predicate WfConfig(c: Config) {
    && |c.id| == |c.home| && |c.hyp| == c.harts && |c.hartid| == c.harts
    && (forall d: nat, h: nat, i: nat, j: nat :: Sees(c, d, h, i) && Sees(c, d, h, j) && i != j ==> c.id[i] != c.id[j])
    && (forall v :: v in c.index ==> c.index[v] < c.harts)
    && (forall i :: 0 <= i < |c.home| ==> c.home[i].dom < c.doms && (c.home[i].Local? ==> c.home[i].hart < c.harts))
  }

  /** An injected event that has not completed, and the frame it interrupted: a history. */
  datatype Item = Item(event: nat, frame: Frame)

  /**
   A hart in a domain. `seen`: its events there have been reset since the domain was;
   `known`: they have ever been; `frame`: where it is in that domain, also while the hart is away.
   */
  datatype Slot = Slot(unmasked: bool, seen: bool, known: bool, dte: bool, frame: Frame, stack: seq<Item>)

  datatype Pc =
    | Off
    | Smode
    | Processing                  // sse_process(), with the kick flag seen up
    | UnmaskKick                  // sse_hart_unmask(), before the kick flag
    | SwitchIn(anew: bool)       // after the change of domain
    | SwitchKick                  // ... and its events are ready
    | Leaving                     // its domain has been reset under it

  datatype State = State(ev: seq<Event>, slots: seq<seq<Slot>>, dom: seq<nat>, pc: seq<Pc>,
                         kick: seq<bool>, ready: seq<bool>)

  ghost predicate Wf(c: Config, s: State) {
    && WfConfig(c)
    && |s.ev| == |c.home|
    && |s.slots| == c.doms && |s.ready| == c.doms
    && |s.dom| == c.harts && |s.pc| == c.harts && |s.kick| == c.harts
    && (forall d :: 0 <= d < c.doms ==> |s.slots[d]| == c.harts)
    && (forall h :: 0 <= h < c.harts ==> s.dom[h] < c.doms)
    && (forall i :: 0 <= i < |s.ev| ==> s.ev[i].hart < c.harts)
  }

  function ModeOf(c: Config, s: State, d: nat, h: nat): Mode
    requires Wf(c, s) && d < c.doms && h < c.harts
  {
    Mode(c.hyp[h], s.slots[d][h].dte)
  }

  /** outranks(): by priority, which is higher the lower its value, and by event id within one. */
  predicate Outranks(c: Config, s: State, i: nat, j: nat)
    requires Wf(c, s) && i < |s.ev| && j < |s.ev|
  {
    if s.ev[i].priority != s.ev[j].priority then s.ev[i].priority < s.ev[j].priority else c.id[i] < c.id[j]
  }

  predicate Candidate(c: Config, s: State, h: nat, want: Status, i: nat)
    requires Wf(c, s) && h < c.harts
  {
    && Sees(c, s.dom[h], h, i)
    && s.ev[i].status == want && s.ev[i].hart == h && (want == Enabled ==> s.ev[i].pending)
  }

  /** top_event(), over the first `n` events. */
  function Top(c: Config, s: State, h: nat, want: Status, n: nat): (best: Option<nat>)
    requires Wf(c, s) && h < c.harts && n <= |s.ev|
    ensures best.Some? ==> best.value < n && Candidate(c, s, h, want, best.value)
  {
    if n == 0 then None
    else
      var best := Top(c, s, h, want, n - 1);
      if Candidate(c, s, h, want, n - 1) && (best.None? || Outranks(c, s, n - 1, best.value)) then Some(n - 1)
      else best
  }

  /** It finds one if there is one, and that has the lowest priority value, and the lowest id of those. */
  lemma {:induction false} TopIsTop(c: Config, s: State, h: nat, want: Status, n: nat, i: nat)
    requires Wf(c, s) && h < c.harts && n <= |s.ev| && i < n && Candidate(c, s, h, want, i)
    ensures var best := Top(c, s, h, want, n);
            best.Some? && (i == best.value || Outranks(c, s, best.value, i))
    ensures var p, q := s.ev[Top(c, s, h, want, n).value].priority, s.ev[i].priority;
            p < q || (p == q && c.id[Top(c, s, h, want, n).value] <= c.id[i])
  {
    if i < n - 1 {
      TopIsTop(c, s, h, want, n - 1, i);
    }
  }

  // ---- steps -----------------------------------------------------------------------------

  function SetSlot(c: Config, s: State, d: nat, h: nat, x: Slot): (r: State)
    requires Wf(c, s) && d < c.doms && h < c.harts
    ensures Wf(c, r)
  {
    s.(slots := s.slots[d := s.slots[d][h := x]])
  }

  function SetEvent(c: Config, s: State, i: nat, e: Event): (r: State)
    requires Wf(c, s) && i < |s.ev| && e.hart < c.harts
    ensures Wf(c, r)
  {
    s.(ev := s.ev[i := e])
  }

  function Kick(c: Config, s: State, h: nat): (r: State)
    requires Wf(c, s) && h < c.harts
    ensures Wf(c, r)
  {
    s.(kick := s.kick[h := true])
  }

  function At(c: Config, s: State, h: nat, pc: Pc): (r: State)
    requires Wf(c, s) && h < c.harts
    ensures Wf(c, r)
  {
    s.(pc := s.pc[h := pc])
  }

  /** The first hart from `h` on that listens in domain `d`. */
  function Listener(c: Config, s: State, d: nat, running: set<nat>, h: nat): (r: Option<nat>)
    requires Wf(c, s) && d < c.doms
    ensures r.Some? ==> r.value < c.harts
    decreases c.harts - h
  {
    if h >= c.harts then None
    else if s.slots[d][h].unmasked && h in running then Some(h)
    else Listener(c, s, d, running, h + 1)
  }

  /** global_target(); `running` are the harts of `d` that take interrupts. */
  function Target(c: Config, s: State, self: nat, i: nat, d: nat, running: set<nat>): (t: nat)
    requires Wf(c, s) && self < c.harts && i < |s.ev| && d < c.doms
    ensures t < c.harts
  {
    var e := s.ev[i];
    var pref := if e.preferred in c.index then Some(c.index[e.preferred]) else None;
    if pref.Some? && s.slots[d][pref.value].unmasked && pref.value in running then pref.value
    else if s.slots[d][self].unmasked && self in running then self
    else if Listener(c, s, d, running, 0).Some? then Listener(c, s, d, running, 0).value
    else if pref.Some? then pref.value
    else if d == s.dom[self] then self
    else e.hart
  }

  /** make_pending() */
  function MakePending(c: Config, s: State, self: nat, i: nat, d: nat, running: set<nat>): (r: State)
    requires Wf(c, s) && self < c.harts && i < |s.ev| && d < c.doms
    ensures Wf(c, r)
  {
    var e := s.ev[i];
    var hart := if c.home[i].Global? && e.status != Running then Target(c, s, self, i, d, running) else e.hart;
    Kick(c, SetEvent(c, s, i, e.(pending := true, hart := hart)), hart)
  }

  /** The section of sse_hart_init() under the lock. */
  function InitEvents(c: Config, s: State, h: nat): (r: State)
    requires Wf(c, s) && h < c.harts
    ensures Wf(c, r)
  {
    var d := s.dom[h];
    s.(ev := seq(|s.ev|, i requires 0 <= i < |s.ev| && |c.home| == |s.ev| && |s.ready| > d && h < |c.hartid| =>
                   if c.home[i] == Local(d, h) || (c.home[i] == Global(d) && !s.ready[d])
                   then Reset(h, c.hartid[h]) else s.ev[i]),
       ready := s.ready[d := true])
  }

  /** A hart that has not run in its domain before starts there, at `f`. */
  function Begin(c: Config, s: State, h: nat, f: Frame): (r: State)
    requires Wf(c, s) && h < c.harts
    ensures Wf(c, r)
  {
    var d := s.dom[h];
    SetSlot(c, InitEvents(c, s, h), d, h, Slot(false, true, true, s.slots[d][h].dte, f, []))
  }

  /** The section of sse_process() under the lock. */
  function Process(c: Config, s: State, h: nat): (r: State)
    requires Wf(c, s) && h < c.harts
    ensures Wf(c, r)
  {
    var d, x := s.dom[h], s.slots[s.dom[h]][h];
    var next := Top(c, s, h, Enabled, |s.ev|);
    var running := Top(c, s, h, Running, |s.ev|);
    if next.None? then s.(kick := s.kick[h := false])
    else if x.unmasked && (running.None? || Outranks(c, s, next.value, running.value)) then
      Deliver(c, s, h, next.value)
    else s
  }

  /** inject() */
  function Deliver(c: Config, s: State, h: nat, i: nat): (r: State)
    requires Wf(c, s) && h < c.harts && i < |s.ev|
    ensures Wf(c, r)
  {
    var d, x, m := s.dom[h], s.slots[s.dom[h]][h], ModeOf(c, s, s.dom[h], h);
    var f := x.frame;
    SetSlot(c, SetEvent(c, s, i, Injected(m, s.ev[i], f)), d, h,
            x.(frame := Handler(m, s.ev[i], f, c.hartid[h]), stack := x.stack + [Item(i, f)]))
  }

  /** sse_complete(); None: no event runs. */
  function Complete(c: Config, s: State, h: nat): (r: Option<State>)
    requires Wf(c, s) && h < c.harts
    ensures r.Some? ==> Wf(c, r.value)
  {
    var d, x, m := s.dom[h], s.slots[s.dom[h]][h], ModeOf(c, s, s.dom[h], h);
    var top := Top(c, s, h, Running, |s.ev|);
    if top.None? then None
    else
      var e := s.ev[top.value];
      var stack := if x.stack == [] then [] else x.stack[..|x.stack| - 1];
      Some(Kick(c, SetSlot(c, SetEvent(c, s, top.value, Completed(e)), d, h,
                           x.(frame := Resumed(m, e, x.frame), stack := stack)), h))
  }

  /** transition() */
  function Transition(c: Config, s: State, h: nat, i: nat, from: Status, to: Status,
                      running: set<nat>): (r: Option<State>)
    requires Wf(c, s) && h < c.harts && i < |s.ev|
    ensures r.Some? ==> Wf(c, r.value)
  {
    var e := s.ev[i];
    if e.status != from then None
    else
      var s1 := SetEvent(c, s, i, e.(status := to));
      if to == Enabled && e.pending then Some(MakePending(c, s1, h, i, s.dom[h], running))
      else if to == Unused then Some(SetEvent(c, s1, i, Reset(e.hart, c.hartid[e.hart])))
      else Some(s1)
  }

  datatype Attr = APriority(v: int) | AOneshot(on: bool) | APreferred(v: int)
                | AFlags(flags: Flags) | ASepc(v: int) | AA6(v: int) | AA7(v: int)

  /** attr_write_check() */
  predicate MayWrite(c: Config, s: State, h: nat, i: nat, w: Attr)
    requires Wf(c, s) && i < |s.ev|
  {
    var e := s.ev[i];
    match w
    case APriority(v) => 0 <= v <= 0xffff_ffff && (e.status == Unused || e.status == Registered)
    case AOneshot(_) => e.status == Unused || e.status == Registered
    case APreferred(v) => c.home[i].Global? && v in c.index && (e.status == Unused || e.status == Registered)
    case _ => e.status == Running && e.hart == h
  }

  function Written(e: Event, w: Attr): (r: Event)
    ensures r.hart == e.hart
  {
    match w
    case APriority(v) => e.(priority := v)
    case AOneshot(on) => e.(oneshot := on)
    case APreferred(v) => e.(preferred := v)
    case AFlags(flags) => e.(flags := flags)
    case ASepc(v) => e.(sepc := v)
    case AA6(v) => e.(a6 := v)
    case AA7(v) => e.(a7 := v)
  }

  function WrittenAll(e: Event, ws: seq<Attr>): (r: Event)
    ensures r.hart == e.hart
  {
    if ws == [] then e else Written(WrittenAll(e, ws[..|ws| - 1]), ws[|ws| - 1])
  }

  datatype Action =
    | Run(frame: Frame)                                // S-mode gets on, and traps at `frame`
    | SetDte(on: bool)
    | Look | Go                                        // sse_process(), and what follows a pc
    | DoComplete
    | RaiseLocal(event: nat)
    | RaiseGlobal(event: nat, running: set<nat>)
    | Inject(event: nat, running: set<nat>)
    | Register(event: nat, entry: int, arg: int) | Unregister(event: nat)
    | Enable(event: nat, running: set<nat>) | Disable(event: nat)
    | Write(event: nat, attrs: seq<Attr>)
    | Unmask | Mask
    | Stop | Boot(start: Frame)
    | SwitchTo(to: nat, anew: bool, start: Frame)
    | ResetDomain(key: nat)

  /** sse_domain_reset(): whoever is in the domain again starts over there. */
  function Forget(c: Config, s: State, d: nat): (r: State)
    requires Wf(c, s) && d < c.doms
    ensures Wf(c, r)
  {
    s.(ready := s.ready[d := false],
       slots := s.slots[d := seq(c.harts, h requires 0 <= h < c.harts && d < |s.slots| && |s.slots[d]| == c.harts =>
                               s.slots[d][h].(stack := [], seen := false))])
  }

  /** The calls S-mode makes about its events. */
  function EventStep(c: Config, s: State, h: nat, a: Action): (r: Option<State>)
    requires Wf(c, s) && h < c.harts
    ensures r.Some? ==> Wf(c, r.value)
  {
    var d := s.dom[h];
    match a
    case RaiseLocal(i) =>
      if i < |s.ev| && c.home[i] == Local(d, h) && s.ev[i].status != Unused then
        Some(MakePending(c, s, h, i, d, {}))
      else None
    case RaiseGlobal(i, running) =>
      if i < |s.ev| && c.home[i].Global? && s.ready[c.home[i].dom] && s.ev[i].status != Unused then
        Some(MakePending(c, s, h, i, c.home[i].dom, running))
      else None
    case Inject(i, running) =>
      if i < |s.ev| && c.home[i].dom == d && i in c.injectable
         && (c.home[i].Local? ==> s.slots[d][c.home[i].hart].known) then
        Some(MakePending(c, s, h, i, d, running))
      else None
    case Register(i, entry, arg) =>
      if Sees(c, d, h, i) && s.ev[i].status == Unused then
        Some(SetEvent(c, s, i, s.ev[i].(entry := entry, arg := arg, status := Registered)))
      else None
    case Unregister(i) => if Sees(c, d, h, i) then Transition(c, s, h, i, Registered, Unused, {}) else None
    case Enable(i, running) => if Sees(c, d, h, i) then Transition(c, s, h, i, Registered, Enabled, running) else None
    case Disable(i) => if Sees(c, d, h, i) then Transition(c, s, h, i, Enabled, Registered, {}) else None
    case Write(i, ws) =>
      if Sees(c, d, h, i) && forall k :: 0 <= k < |ws| ==> MayWrite(c, s, h, i, ws[k]) then
        Some(SetEvent(c, s, i, WrittenAll(s.ev[i], ws)))
      else None
    case _ => None
  }

  /** What a hart does in S-mode's name, and when it changes domain. */
  function HartStep(c: Config, s: State, h: nat, a: Action): (r: Option<State>)
    requires Wf(c, s) && h < c.harts
    ensures r.Some? ==> Wf(c, r.value)
  {
    var d, x := s.dom[h], s.slots[s.dom[h]][h];
    match a
    case Run(f) => if Legal(ModeOf(c, s, d, h), f) then Some(SetSlot(c, s, d, h, x.(frame := f))) else None
    case SetDte(on) => Some(SetSlot(c, s, d, h, x.(dte := on, frame := x.frame.(sdt := on && x.frame.sdt))))
    case Look => Some(if s.kick[h] then At(c, s, h, Processing) else s)
    case Unmask => if x.unmasked then None
                   else Some(At(c, SetSlot(c, s, d, h, x.(unmasked := true)), h, UnmaskKick))
    case Mask => if x.unmasked then Some(SetSlot(c, s, d, h, x.(unmasked := false))) else None
    case Stop => Some(At(c, s, h, Off))
    case ResetDomain(key) =>
      if key >= c.doms then None
      else Some(if key == d then At(c, Forget(c, s, key), h, Leaving) else Forget(c, s, key))
    case _ => None
  }

  function Change(c: Config, s: State, h: nat, a: Action): (r: Option<State>)
    requires Wf(c, s) && h < c.harts
    ensures r.Some? ==> Wf(c, r.value)
  {
    match a
    case SwitchTo(to, anew, f) =>
      if to >= c.doms || !(if anew then Legal(ModeOf(c, s, to, h), f) else s.slots[to][h].seen) then None
      else
        var s1 := s.(dom := s.dom[h := to]);
        Some(At(c, if anew
                   then SetSlot(c, s1, to, h, s1.slots[to][h].(frame := f, seen := false, stack := []))
                   else s1, h, SwitchIn(anew)))
    case _ => None
  }

  ghost function Step(c: Config, s: State, h: nat, a: Action): (r: Option<State>)
    ensures r.Some? ==> Wf(c, s) && h < c.harts && Wf(c, r.value)
  {
    if !Wf(c, s) || h >= c.harts then None
    else
      match s.pc[h]
      case Off =>
        if a.Boot? && Legal(ModeOf(c, s, s.dom[h], h), a.start) then Some(At(c, Begin(c, s, h, a.start), h, Smode))
        else None
      case Smode =>
        if a.SwitchTo? then Change(c, s, h, a)
        else if a.DoComplete? then Complete(c, s, h)
        else if HartStep(c, s, h, a).Some? then HartStep(c, s, h, a)
        else EventStep(c, s, h, a)
      case Processing => if a.Go? then Some(At(c, Process(c, s, h), h, Smode)) else None
      case UnmaskKick => if a.Go? then Some(At(c, Kick(c, s, h), h, Smode)) else None
      case SwitchIn(anew) =>
        if !a.Go? then None
        else Some(At(c, if anew then Begin(c, s, h, s.slots[s.dom[h]][h].frame) else s, h, SwitchKick))
      case SwitchKick => if a.Go? then Some(At(c, Kick(c, s, h), h, Smode)) else None
      case Leaving => if a.Stop? then Some(At(c, s, h, Off)) else if a.SwitchTo? then Change(c, s, h, a) else None
  }

  ghost predicate Init(c: Config, s: State) {
    && Wf(c, s)
    && (forall i :: 0 <= i < |s.ev| ==> s.ev[i].status == Unused && !s.ev[i].pending)
    && (forall h :: 0 <= h < c.harts ==> s.pc[h] == Off)
    && (forall d :: 0 <= d < c.doms ==> !s.ready[d])
    && (forall d, h :: 0 <= d < c.doms && 0 <= h < c.harts ==>
          !s.slots[d][h].seen && !s.slots[d][h].known && s.slots[d][h].stack == [])
  }

  datatype Move = Move(hart: nat, action: Action)

  ghost predicate IsRun(c: Config, run: seq<State>, moves: seq<Move>) {
    && |run| == |moves| + 1
    && Init(c, run[0])
    && (forall i :: 0 <= i < |moves| ==> Step(c, run[i], moves[i].hart, moves[i].action) == Some(run[i + 1]))
  }
}
