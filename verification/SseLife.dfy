/**
 The life of an event: who may change what of it, where it goes when it is raised, and what
 has happened before its handler is entered.
 */
module SseLife {
  import opened Options
  import opened SseModel

  // ---- the hart for a global event ---------------------------------------------------------

  /** Hart `h` takes events in domain `d`, and interrupts. */
  ghost predicate Listens(c: Config, s: State, d: nat, running: set<nat>, h: nat)
    requires Wf(c, s) && d < c.doms
  {
    h < c.harts && s.slots[d][h].unmasked && h in running
  }

  lemma {:induction false} ListenerIsFirst(c: Config, s: State, d: nat, running: set<nat>, h: nat)
    requires Wf(c, s) && d < c.doms
    ensures var r := Listener(c, s, d, running, h);
            && (r.Some? ==> h <= r.value && Listens(c, s, d, running, r.value))
            && forall g :: h <= g < (if r.Some? then r.value else c.harts) ==> !Listens(c, s, d, running, g)
    decreases c.harts - h
  {
    if h < c.harts && !Listens(c, s, d, running, h) {
      ListenerIsFirst(c, s, d, running, h + 1);
    }
  }

  /**
   Hart `t` is the one for event `i` of domain `d`, raised by hart `self`: of the preferred one, the
   one that raises it and all from the lowest up, the first that listens. If none does, the preferred
   one if there is such a hart, or the one that raises it in its own domain, or the one before.
   */
  ghost predicate RightHart(c: Config, s: State, self: nat, i: nat, d: nat, running: set<nat>, t: nat)
    requires Wf(c, s) && self < c.harts && i < |s.ev| && d < c.doms
  {
    var e := s.ev[i];
    var prefers := e.preferred in c.index;
    if prefers && Listens(c, s, d, running, c.index[e.preferred]) then t == c.index[e.preferred]
    else if Listens(c, s, d, running, self) then t == self
    else if exists h :: Listens(c, s, d, running, h) then
      Listens(c, s, d, running, t) && forall h :: 0 <= h < t ==> !Listens(c, s, d, running, h)
    else t == if prefers then c.index[e.preferred] else if d == s.dom[self] then self else e.hart
  }

  /** Event `i` is pending on its hart, which is kicked, and nothing else has changed. */
  ghost predicate Raised(c: Config, s: State, r: State, self: nat, i: nat, d: nat, running: set<nat>)
    requires Wf(c, s) && self < c.harts && i < |s.ev| && d < c.doms
  {
    && Wf(c, r) && r == s.(ev := s.ev[i := r.ev[i]], kick := s.kick[r.ev[i].hart := true])
    && r.ev[i] == s.ev[i].(pending := true, hart := r.ev[i].hart)
    && if c.home[i].Global? && s.ev[i].status != Running then RightHart(c, s, self, i, d, running, r.ev[i].hart)
       else r.ev[i].hart == s.ev[i].hart
  }

  lemma MakesPending(c: Config, s: State, self: nat, i: nat, d: nat, running: set<nat>)
    requires Wf(c, s) && self < c.harts && i < |s.ev| && d < c.doms
    ensures Raised(c, s, MakePending(c, s, self, i, d, running), self, i, d, running)
  {
    ListenerIsFirst(c, s, d, running, 0);
    var r := MakePending(c, s, self, i, d, running);
    if c.home[i].Global? && s.ev[i].status != Running {
      TargetIsRight(c, s, self, i, d, running);
    }
  }

  lemma TargetIsRight(c: Config, s: State, self: nat, i: nat, d: nat, running: set<nat>)
    requires Wf(c, s) && self < c.harts && i < |s.ev| && d < c.doms
    ensures RightHart(c, s, self, i, d, running, Target(c, s, self, i, d, running))
  {
    ListenerIsFirst(c, s, d, running, 0);
    if h: nat :| Listens(c, s, d, running, h) {
      assert Listener(c, s, d, running, 0).Some?;
    }
  }

  // ---- attributes ---------------------------------------------------------------------------

  predicate SameKind(v: Attr, w: Attr) {
    match v
    case APriority(_) => w.APriority?
    case AOneshot(_) => w.AOneshot?
    case APreferred(_) => w.APreferred?
    case AFlags(_) => w.AFlags?
    case ASepc(_) => w.ASepc?
    case AA6(_) => w.AA6?
    case AA7(_) => w.AA7?
  }

  /** What an event has where `w` would be written. */
  function Value(e: Event, w: Attr): (v: Attr)
    ensures SameKind(v, w)
  {
    match w
    case APriority(_) => APriority(e.priority)
    case AOneshot(_) => AOneshot(e.oneshot)
    case APreferred(_) => APreferred(e.preferred)
    case AFlags(_) => AFlags(e.flags)
    case ASepc(_) => ASepc(e.sepc)
    case AA6(_) => AA6(e.a6)
    case AA7(_) => AA7(e.a7)
  }

  /** What does not belong to the attributes that can be written. */
  predicate SameBut(e: Event, f: Event) {
    f.pending == e.pending && f.hart == e.hart && f.status == e.status && f.entry == e.entry && f.arg == e.arg
  }

  lemma WriteOne(e: Event, v: Attr, w: Attr)
    ensures SameBut(e, Written(e, v))
    ensures Value(Written(e, v), w) == if SameKind(v, w) then v else Value(e, w)
  {
  }

  /** Only the attributes written change. */
  lemma {:induction false} UnwrittenStays(e: Event, ws: seq<Attr>, w: Attr)
    ensures SameBut(e, WrittenAll(e, ws))
    ensures (forall k :: 0 <= k < |ws| ==> !SameKind(ws[k], w)) ==> Value(WrittenAll(e, ws), w) == Value(e, w)
  {
    if ws != [] {
      UnwrittenStays(e, ws[..|ws| - 1], w);
      WriteOne(WrittenAll(e, ws[..|ws| - 1]), ws[|ws| - 1], w);
    }
  }

  /** Each reads as it was written last. */
  lemma {:induction false} LastWriteStays(e: Event, ws: seq<Attr>, w: Attr, k: nat)
    requires k < |ws| && SameKind(ws[k], w) && forall l :: k < l < |ws| ==> !SameKind(ws[l], w)
    ensures Value(WrittenAll(e, ws), w) == ws[k]
  {
    var n := |ws| - 1;
    WriteOne(WrittenAll(e, ws[..n]), ws[n], w);
    if k < n {
      LastWriteStays(e, ws[..n], w, k);
    }
  }

  /** Who may write which attribute of an event in which state. */
  predicate Writable(c: Config, e: Event, global: bool, h: nat, w: Attr) {
    match w
    case APriority(v) => 0 <= v < 0x1_0000_0000 && e.status != Enabled && e.status != Running
    case AOneshot(_) => e.status != Enabled && e.status != Running
    case APreferred(v) => global && v in c.index && e.status != Enabled && e.status != Running
    case _ => e.status == Running && e.hart == h
  }

  // ---- what a step makes of an event ------------------------------------------------------------

  /** Hart `h` runs in its domain for the first time since that, or its events there, were reset. */
  predicate Starts(pc: Pc, a: Action) {
    if pc.Off? then a.Boot? else pc == SwitchIn(true) && a.Go?
  }

  /** A new event: nobody's, and to be handled by hart `h`. */
  predicate Blank(c: Config, h: nat, e: Event)
    requires h < |c.hartid|
  {
    && e.status == Unused && !e.pending && e.hart == h && e.preferred == c.hartid[h]
    && e.priority == 0 && !e.oneshot && e.entry == 0 && e.arg == 0
    && e.flags == Flags(U, false, false, false, false) && e.sepc == e.a6 == e.a7 == 0
  }

  /** What a call of hart `h` makes of event `i`. */
  ghost predicate Called(c: Config, s: State, h: nat, a: Action, r: State, i: nat)
    requires Wf(c, s) && Wf(c, r) && h < c.harts && i < |s.ev|
  {
    var e, f, d := s.ev[i], r.ev[i], s.dom[h];
    match a
    case RaiseLocal(j) =>
      if j == i then c.home[i] == Local(d, h) && e.status != Unused && Raised(c, s, r, h, i, d, {}) else f == e
    case RaiseGlobal(j, running) =>
      if j == i then
        && c.home[i].Global? && s.ready[c.home[i].dom] && e.status != Unused
        && Raised(c, s, r, h, i, c.home[i].dom, running)
      else f == e
    case Inject(j, running) =>
      if j == i then
        && c.home[i].dom == d && i in c.injectable && (c.home[i].Local? ==> s.slots[d][c.home[i].hart].known)
        && Raised(c, s, r, h, i, d, running)
      else f == e
    case Register(j, entry, arg) =>
      if j == i then Sees(c, d, h, i) && e.status == Unused && f == e.(entry := entry, arg := arg, status := Registered)
      else f == e
    case Unregister(j) =>
      if j == i then Sees(c, d, h, i) && e.status == Registered && Blank(c, e.hart, f) else f == e
    case Enable(j, running) =>
      if j == i then
        && Sees(c, d, h, i) && e.status == Registered && f == e.(status := Enabled, hart := f.hart)
        && (!e.pending || c.home[i].Local? ==> f.hart == e.hart)
        && (e.pending ==> r.kick[f.hart] && (c.home[i].Global? ==> RightHart(c, s, h, i, d, running, f.hart)))
      else f == e
    case Disable(j) =>
      if j == i then Sees(c, d, h, i) && e.status == Enabled && f == e.(status := Registered) else f == e
    case Write(j, ws) =>
      if j == i then
        && Sees(c, d, h, i) && f == WrittenAll(e, ws)
        && forall k :: 0 <= k < |ws| ==> Writable(c, e, c.home[i].Global?, h, ws[k])
      else f == e
    case _ => f == e
  }

  /** Event `i` is injected into hart `h`, which enters its handler. */
  ghost predicate Entered(c: Config, s: State, h: nat, r: State, i: nat)
    requires Wf(c, s) && Wf(c, r) && h < c.harts && i < |s.ev|
  {
    var e, f, d := s.ev[i], r.ev[i], s.dom[h];
    var x, y := s.slots[d][h], r.slots[d][h];
    && Sees(c, d, h, i) && e.status == Enabled && e.pending && e.hart == h && x.unmasked
    && f == e.(status := Running, pending := false, flags := f.flags, sepc := x.frame.sepc,
               a6 := x.frame.a6, a7 := x.frame.a7)
    && y.frame.mepc == e.entry && y.frame.a6 == c.hartid[h] && y.frame.a7 == e.arg
  }

  /** What a step of hart `h` makes of event `i`. */
  ghost predicate Becomes(c: Config, s: State, h: nat, a: Action, r: State, i: nat)
    requires Wf(c, s) && Wf(c, r) && h < c.harts && i < |s.ev|
  {
    var e, f, d := s.ev[i], r.ev[i], s.dom[h];
    if Starts(s.pc[h], a) then
      if c.home[i] == Local(d, h) || (c.home[i] == Global(d) && !s.ready[d]) then Blank(c, h, f) else f == e
    else if s.pc[h] == Processing then f == e || Entered(c, s, h, r, i)
    else if s.pc[h] == Smode && a.DoComplete? then
      || f == e
      || (Sees(c, d, h, i) && e.status == Running && e.hart == h
          && f == e.(status := if e.oneshot then Registered else Enabled))
    else if s.pc[h] == Smode then Called(c, s, h, a, r, i)
    else f == e
  }

  lemma CallBecomes(c: Config, s: State, h: nat, a: Action, r: State, i: nat)
    requires Wf(c, s) && h < c.harts && i < |s.ev| && EventStep(c, s, h, a) == Some(r)
    ensures Called(c, s, h, a, r, i)
  {
    var d := s.dom[h];
    match a
    case RaiseLocal(j) => MakesPending(c, s, h, j, d, {});
    case RaiseGlobal(j, running) => MakesPending(c, s, h, j, c.home[j].dom, running);
    case Inject(j, running) => MakesPending(c, s, h, j, d, running);
    case Enable(j, running) => EnableBecomes(c, s, h, j, running, r, i);
    case _ =>
  }

  lemma EnableBecomes(c: Config, s: State, h: nat, j: nat, running: set<nat>, r: State, i: nat)
    requires Wf(c, s) && h < c.harts && i < |s.ev| && EventStep(c, s, h, Enable(j, running)) == Some(r)
    ensures Called(c, s, h, Enable(j, running), r, i)
  {
    var d, e := s.dom[h], s.ev[j];
    var s1 := SetEvent(c, s, j, e.(status := Enabled));
    if e.pending {
      MakesPending(c, s1, h, j, d, running);
      assert forall g :: Listens(c, s1, d, running, g) == Listens(c, s, d, running, g);
    }
  }

  lemma ProcessBecomes(c: Config, s: State, h: nat, i: nat)
    requires Wf(c, s) && h < c.harts && i < |s.ev|
    ensures Process(c, s, h).ev[i] == s.ev[i] || Entered(c, s, h, Process(c, s, h), i)
  {
  }

  lemma BeginBecomes(c: Config, s: State, h: nat, f: Frame, i: nat)
    requires Wf(c, s) && h < c.harts && i < |s.ev|
    ensures var d, r := s.dom[h], Begin(c, s, h, f);
            if c.home[i] == Local(d, h) || (c.home[i] == Global(d) && !s.ready[d]) then Blank(c, h, r.ev[i])
            else r.ev[i] == s.ev[i]
  {
  }

  /** Of every step and every event. */
  lemma StepBecomes(c: Config, s: State, h: nat, a: Action, r: State, i: nat)
    requires Step(c, s, h, a) == Some(r) && i < |s.ev|
    ensures Becomes(c, s, h, a, r, i)
  {
    match s.pc[h]
    case Off => BeginBecomes(c, s, h, a.start, i);
    case Smode =>
      if !a.SwitchTo? && !a.DoComplete? && HartStep(c, s, h, a).None? {
        CallBecomes(c, s, h, a, r, i);
      }
    case Processing => ProcessBecomes(c, s, h, i);
    case SwitchIn(anew) => BeginBecomes(c, s, h, s.slots[s.dom[h]][h].frame, i);
    case _ =>
  }

  /** Who may make which call about event `i`, and when. */
  ghost predicate MayCall(c: Config, s: State, h: nat, a: Action)
    requires Wf(c, s) && h < c.harts
  {
    var d := s.dom[h];
    match a
    case Register(i, _, _) => Sees(c, d, h, i) && s.ev[i].status == Unused
    case Unregister(i) => Sees(c, d, h, i) && s.ev[i].status == Registered
    case Enable(i, _) => Sees(c, d, h, i) && s.ev[i].status == Registered
    case Disable(i) => Sees(c, d, h, i) && s.ev[i].status == Enabled
    case Write(i, ws) => Sees(c, d, h, i)
                         && forall k :: 0 <= k < |ws| ==> Writable(c, s.ev[i], c.home[i].Global?, h, ws[k])
    case RaiseLocal(i) => i < |s.ev| && c.home[i] == Local(d, h) && s.ev[i].status != Unused
    case RaiseGlobal(i, _) => i < |s.ev| && c.home[i].Global? && s.ready[c.home[i].dom] && s.ev[i].status != Unused
    case Inject(i, _) => i < |s.ev| && i in c.injectable && c.home[i].dom == d
                         && (c.home[i].Local? ==> s.slots[d][c.home[i].hart].known)
    case Unmask => !s.slots[d][h].unmasked
    case Mask => s.slots[d][h].unmasked
    case DoComplete => exists i :: Candidate(c, s, h, Running, i)
    case _ => true
  }

  /** A call about events is taken just when it may be made. */
  lemma CallJustWhen(c: Config, s: State, h: nat, a: Action)
    requires Wf(c, s) && h < c.harts && s.pc[h] == Smode
    requires a.Register? || a.Unregister? || a.Enable? || a.Disable? || a.Write? || a.RaiseLocal? || a.RaiseGlobal?
             || a.Inject? || a.Unmask? || a.Mask? || a.DoComplete?
    ensures Step(c, s, h, a).Some? <==> MayCall(c, s, h, a)
  {
    if a.DoComplete? {
      if i :| Candidate(c, s, h, Running, i) {
        TopIsTop(c, s, h, Running, |s.ev|, i);
      }
    }
  }

  /** A domain's own events are ready from the first hart's start there to the next reset. */
  lemma ReadyChanges(c: Config, s: State, h: nat, a: Action, r: State, d: nat)
    requires Step(c, s, h, a) == Some(r) && d < c.doms
    ensures r.ready[d] == if Starts(s.pc[h], a) && d == s.dom[h] then true
                          else if s.pc[h] == Smode && a == ResetDomain(d) then false
                          else s.ready[d]
  {
    if s.pc[h] == Smode && !a.SwitchTo? && !a.DoComplete? && HartStep(c, s, h, a).None? {
      EventReady(c, s, h, a, r);
    }
  }

  lemma EventReady(c: Config, s: State, h: nat, a: Action, r: State)
    requires Wf(c, s) && h < c.harts && EventStep(c, s, h, a) == Some(r)
    ensures r.ready == s.ready
  {
  }

  /** A hart starts out masked in a domain, and only its own calls there change that. */
  lemma MaskChanges(c: Config, s: State, h: nat, a: Action, r: State, d: nat, g: nat)
    requires Step(c, s, h, a) == Some(r) && d < c.doms && g < c.harts
    ensures r.slots[d][g].unmasked == if g != h || d != s.dom[h] then s.slots[d][g].unmasked
                                      else if Starts(s.pc[h], a) then false
                                      else if s.pc[h] == Smode && a.Unmask? then true
                                      else if s.pc[h] == Smode && a.Mask? then false
                                      else s.slots[d][g].unmasked
  {
    if s.pc[h] == Processing {
      ProcessMasks(c, s, h, d, g);
    } else if s.pc[h] == Smode && !a.SwitchTo? && !a.DoComplete? {
      if HartStep(c, s, h, a).Some? { HartMasks(c, s, h, a, r, d, g); } else { EventMasks(c, s, h, a, r); }
    }
  }

  lemma ProcessMasks(c: Config, s: State, h: nat, d: nat, g: nat)
    requires Wf(c, s) && h < c.harts && d < c.doms && g < c.harts
    ensures Process(c, s, h).slots[d][g].unmasked == s.slots[d][g].unmasked
  {
  }

  lemma EventMasks(c: Config, s: State, h: nat, a: Action, r: State)
    requires Wf(c, s) && h < c.harts && EventStep(c, s, h, a) == Some(r)
    ensures r.slots == s.slots
  {
  }

  lemma HartMasks(c: Config, s: State, h: nat, a: Action, r: State, d: nat, g: nat)
    requires Wf(c, s) && h < c.harts && HartStep(c, s, h, a) == Some(r) && d < c.doms && g < c.harts
    ensures r.slots[d][g].unmasked == if (a.Unmask? || a.Mask?) && g == h && d == s.dom[h] then a.Unmask?
                                      else s.slots[d][g].unmasked
  {
  }

  // ---- over runs ------------------------------------------------------------------------------------

  /** What happened in step `k` to event `i`. */
  lemma RunBecomes(c: Config, run: seq<State>, moves: seq<Move>, k: nat, i: nat)
    requires IsRun(c, run, moves) && k < |moves| && i < |c.home|
    ensures Wf(c, run[k]) && Wf(c, run[k + 1]) && moves[k].hart < c.harts
    ensures Becomes(c, run[k], moves[k].hart, moves[k].action, run[k + 1], i)
  {
    assert Step(c, run[k], moves[k].hart, moves[k].action) == Some(run[k + 1]);
    StepBecomes(c, run[k], moves[k].hart, moves[k].action, run[k + 1], i);
  }

  lemma BlankAtFirst(c: Config, s: State, i: nat)
    requires Init(c, s) && i < |s.ev|
    ensures s.ev[i].status == Unused && !s.ev[i].pending
  {
  }

  /** From state `m` to state `j` event `i` is registered, with this handler. */
  ghost predicate Handled(run: seq<State>, m: nat, j: nat, i: nat, entry: int, arg: int)
    requires j < |run|
  {
    forall n :: m <= n <= j ==> i < |run[n].ev| && run[n].ev[i].status != Unused
                                && run[n].ev[i].entry == entry && run[n].ev[i].arg == arg
  }

  lemma HandledMore(run: seq<State>, m: nat, j: nat, i: nat, entry: int, arg: int)
    requires j + 1 < |run| && i < |run[j + 1].ev| && run[j + 1].ev[i].status != Unused
    requires run[j + 1].ev[i].entry == entry && run[j + 1].ev[i].arg == arg
    requires m == j + 1 || Handled(run, m, j, i, entry, arg)
    ensures Handled(run, m, j + 1, i, entry, arg)
  {
  }

  lemma StepRegisters(c: Config, s: State, h: nat, a: Action, r: State, i: nat)
    requires Wf(c, s) && Wf(c, r) && h < c.harts && i < |s.ev| && Becomes(c, s, h, a, r, i)
    requires r.ev[i].status != Unused
    ensures || a == Register(i, r.ev[i].entry, r.ev[i].arg)
            || (s.ev[i].status != Unused && r.ev[i].entry == s.ev[i].entry && r.ev[i].arg == s.ev[i].arg)
  {
    if a.Write? && a.event == i {
      UnwrittenStays(s.ev[i], a.attrs, AOneshot(false));
    }
  }

  lemma RunRegisters(c: Config, run: seq<State>, moves: seq<Move>, k: nat, i: nat, entry: int, arg: int)
    requires IsRun(c, run, moves) && k < |moves| && i < |c.home|
    ensures HandledLink(run, moves, k, i, entry, arg)
  {
    RunBecomes(c, run, moves, k, i);
    if HandledBy(run[k + 1], i, entry, arg) {
      StepRegisters(c, run[k], moves[k].hart, moves[k].action, run[k + 1], i);
    }
  }

  /** The event is registered with this handler. */
  ghost predicate HandledBy(s: State, i: nat, entry: int, arg: int) {
    i < |s.ev| && s.ev[i].status != Unused && s.ev[i].entry == entry && s.ev[i].arg == arg
  }

  ghost predicate HandledLink(run: seq<State>, moves: seq<Move>, k: nat, i: nat, entry: int, arg: int)
    requires k < |moves| && |run| == |moves| + 1
  {
    HandledBy(run[k + 1], i, entry, arg) ==>
      moves[k].action == Register(i, entry, arg) || HandledBy(run[k], i, entry, arg)
  }

  lemma {:induction false} HandledSince(run: seq<State>, moves: seq<Move>, j: nat, i: nat, entry: int, arg: int)
    returns (k: nat)
    requires |run| == |moves| + 1 && j < |run| && HandledBy(run[j], i, entry, arg) && !HandledBy(run[0], i, entry, arg)
    requires forall m :: 0 <= m < |moves| ==> HandledLink(run, moves, m, i, entry, arg)
    ensures k < j && moves[k].action == Register(i, entry, arg) && Handled(run, k + 1, j, i, entry, arg)
  {
    k := j - 1;
    assert HandledLink(run, moves, k, i, entry, arg);
    if moves[k].action != Register(i, entry, arg) {
      k := HandledSince(run, moves, j - 1, i, entry, arg);
    }
    HandledMore(run, k + 1, j - 1, i, entry, arg);
  }

  /** An event that is registered was so by a call, with the handler it has now, and is so since. */
  lemma RegisteredBefore(c: Config, run: seq<State>, moves: seq<Move>, j: nat, i: nat, entry: int, arg: int)
    returns (k: nat)
    requires IsRun(c, run, moves) && j < |run| && i < |c.home| && HandledBy(run[j], i, entry, arg)
    ensures k < j && moves[k].action == Register(i, entry, arg) && Handled(run, k + 1, j, i, entry, arg)
  {
    BlankAtFirst(c, run[0], i);
    forall m | 0 <= m < |moves| ensures HandledLink(run, moves, m, i, entry, arg) {
      RunRegisters(c, run, moves, m, i, entry, arg);
    }
    k := HandledSince(run, moves, j, i, entry, arg);
  }

  /** A call or a source of events raises event `i`. */
  predicate Raises(a: Action, i: nat) {
    (a.RaiseLocal? || a.RaiseGlobal? || a.Inject?) && a.event == i
  }

  ghost predicate Pending(run: seq<State>, m: nat, j: nat, i: nat)
    requires j < |run|
  {
    forall n :: m <= n <= j ==> i < |run[n].ev| && run[n].ev[i].pending
  }

  lemma PendingMore(run: seq<State>, m: nat, j: nat, i: nat)
    requires j + 1 < |run| && i < |run[j + 1].ev| && run[j + 1].ev[i].pending && (m == j + 1 || Pending(run, m, j, i))
    ensures Pending(run, m, j + 1, i)
  {
  }

  lemma StepRaises(c: Config, s: State, h: nat, a: Action, r: State, i: nat)
    requires Wf(c, s) && Wf(c, r) && h < c.harts && i < |s.ev| && Becomes(c, s, h, a, r, i) && r.ev[i].pending
    ensures s.ev[i].pending || (Raises(a, i) && (s.ev[i].status != Unused || (a.Inject? && i in c.injectable)))
  {
    if a.Write? && a.event == i {
      UnwrittenStays(s.ev[i], a.attrs, AOneshot(false));
    }
  }

  lemma RunRaises(c: Config, run: seq<State>, moves: seq<Move>, k: nat, i: nat)
    requires IsRun(c, run, moves) && k < |moves| && i < |c.home| && Wf(c, run[k + 1]) && run[k + 1].ev[i].pending
    ensures Wf(c, run[k])
    ensures run[k].ev[i].pending
            || (Raises(moves[k].action, i)
                && (run[k].ev[i].status != Unused || (moves[k].action.Inject? && i in c.injectable)))
  {
    RunBecomes(c, run, moves, k, i);
    StepRaises(c, run[k], moves[k].hart, moves[k].action, run[k + 1], i);
  }

  /** An event that is pending was raised, by someone who may, and is pending since. */
  lemma {:induction false} RaisedBefore(c: Config, run: seq<State>, moves: seq<Move>, j: nat, i: nat) returns (k: nat)
    requires IsRun(c, run, moves) && j < |run| && Wf(c, run[j]) && i < |c.home| && run[j].ev[i].pending
    ensures k < j && Raises(moves[k].action, i) && Pending(run, k + 1, j, i)
    ensures Wf(c, run[k]) && (run[k].ev[i].status != Unused || (moves[k].action.Inject? && i in c.injectable))
  {
    BlankAtFirst(c, run[0], i);
    k := j - 1;
    RunRaises(c, run, moves, k, i);
    if run[k].ev[i].pending {
      k := RaisedBefore(c, run, moves, j - 1, i);
    }
    PendingMore(run, k + 1, j - 1, i);
  }

  /** Event `i` is injected in step `j`. */
  ghost predicate Injects(c: Config, run: seq<State>, moves: seq<Move>, j: nat, i: nat) {
    && IsRun(c, run, moves) && j < |moves| && i < |c.home| && Wf(c, run[j]) && Wf(c, run[j + 1])
    && run[j].ev[i].status != Running && run[j + 1].ev[i].status == Running
  }

  lemma InjectsEnters(c: Config, run: seq<State>, moves: seq<Move>, j: nat, i: nat)
    requires Injects(c, run, moves, j, i)
    ensures moves[j].hart < c.harts && Entered(c, run[j], moves[j].hart, run[j + 1], i)
  {
    RunBecomes(c, run, moves, j, i);
    if moves[j].action.Write? && moves[j].action.event == i {
      UnwrittenStays(run[j].ev[i], moves[j].action.attrs, AOneshot(false));
    }
  }

  /**
   A handler that is entered is the one given when its event was registered last (step `reg`), with
   its argument; and the event was raised (step `up`) and not injected since.
   */
  lemma HandlerIsRegistered(c: Config, run: seq<State>, moves: seq<Move>, j: nat, i: nat) returns (reg: nat, up: nat)
    requires Injects(c, run, moves, j, i)
    ensures moves[j].hart < c.harts && Entered(c, run[j], moves[j].hart, run[j + 1], i)
    ensures reg < j && up < j && Raises(moves[up].action, i) && Pending(run, up + 1, j, i)
    ensures var h := moves[j].hart;
            var f := run[j + 1].slots[run[j].dom[h]][h].frame;
            && moves[reg].action == Register(i, f.mepc, f.a7)
            && Handled(run, reg + 1, j, i, f.mepc, f.a7)
  {
    InjectsEnters(c, run, moves, j, i);
    reg := RegisteredBefore(c, run, moves, j, i, run[j].ev[i].entry, run[j].ev[i].arg);
    up := RaisedBefore(c, run, moves, j, i);
  }

  /** An event that has to be enabled before it is injected again. */
  predicate Spent(e: Event) {
    e.status == Unused || e.status == Registered || (e.status == Running && e.oneshot)
  }

  lemma StepSpent(c: Config, s: State, h: nat, a: Action, r: State, i: nat)
    requires Wf(c, s) && Wf(c, r) && h < c.harts && i < |s.ev| && Becomes(c, s, h, a, r, i)
    requires Spent(s.ev[i]) && !(a.Enable? && a.event == i)
    ensures Spent(r.ev[i])
  {
    if a.Write? && a.event == i && s.pc[h] == Smode {
      UnwrittenStays(s.ev[i], a.attrs, AOneshot(false));
      forall k | 0 <= k < |a.attrs| && s.ev[i].status == Running ensures !SameKind(a.attrs[k], AOneshot(false)) { }
    }
  }

  lemma RunSpent(c: Config, run: seq<State>, moves: seq<Move>, k: nat, i: nat)
    requires IsRun(c, run, moves) && k < |moves| && i < |c.home| && Wf(c, run[k]) && Spent(run[k].ev[i])
    requires !(moves[k].action.Enable? && moves[k].action.event == i)
    ensures Wf(c, run[k + 1]) && Spent(run[k + 1].ev[i])
  {
    RunBecomes(c, run, moves, k, i);
    StepSpent(c, run[k], moves[k].hart, moves[k].action, run[k + 1], i);
  }

  lemma {:induction false} SpentStays(c: Config, run: seq<State>, moves: seq<Move>, m: nat, j: nat, i: nat)
    requires IsRun(c, run, moves) && m <= j < |run| && i < |c.home| && Wf(c, run[m]) && Spent(run[m].ev[i])
    requires forall k :: m <= k < j ==> !(moves[k].action.Enable? && moves[k].action.event == i)
    ensures Wf(c, run[j]) && Spent(run[j].ev[i])
  {
    if m < j {
      SpentStays(c, run, moves, m, j - 1, i);
      RunSpent(c, run, moves, j - 1, i);
    }
  }

  /** A one-shot event that is injected twice was enabled in between. */
  lemma OneshotOnce(c: Config, run: seq<State>, moves: seq<Move>, j: nat, l: nat, i: nat)
    requires Injects(c, run, moves, j, i) && Injects(c, run, moves, l, i) && j < l && run[j].ev[i].oneshot
    ensures exists k :: j < k < l && moves[k].action.Enable? && moves[k].action.event == i
  {
    InjectsEnters(c, run, moves, j, i);
    InjectsEnters(c, run, moves, l, i);
    if forall k :: j < k < l ==> !(moves[k].action.Enable? && moves[k].action.event == i) {
      SpentStays(c, run, moves, j + 1, l, i);
    }
  }

  /** Any other is ready again when its handler completes. */
  lemma CompletedIsReady(c: Config, run: seq<State>, moves: seq<Move>, j: nat, i: nat)
    requires IsRun(c, run, moves) && j < |moves| && i < |c.home| && Wf(c, run[j]) && Wf(c, run[j + 1])
    requires moves[j].action.DoComplete? && run[j].ev[i].status == Running && run[j + 1].ev[i].status != Running
    ensures run[j + 1].ev[i].status == if run[j].ev[i].oneshot then Registered else Enabled
  {
    assert Step(c, run[j], moves[j].hart, moves[j].action) == Some(run[j + 1]);
    RunBecomes(c, run, moves, j, i);
  }
}
