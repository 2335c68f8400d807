/**
 Nested events. Whatever handlers do, the running events of a hart outrank each other in
 the order they were injected, and sse_complete() ends the last one. If the way back is
 intact at that moment, it gives back exactly the frame that event interrupted.

 `kept` marks the runs in which handlers also leave the attributes of interrupted state
 and the double trap enable alone: there events keep what their frames need.
 */
module SseNest {
  import opened Options
  import opened SseModel

  ghost predicate Runs(c: Config, s: State, d: nat, h: nat, i: nat)
    requires Wf(c, s)
  {
    Sees(c, d, h, i) && s.ev[i].status == Running && s.ev[i].hart == h
  }

  ghost predicate InStack(x: Slot, i: nat) {
    exists k :: 0 <= k < |x.stack| && x.stack[k].event == i
  }

  /** What an injected event holds. */
  ghost predicate ItemOk(c: Config, s: State, d: nat, h: nat, item: Item, kept: bool)
    requires Wf(c, s) && d < c.doms && h < c.harts
  {
    && Runs(c, s, d, h, item.event)
    && (kept ==> Keeps(ModeOf(c, s, d, h), s.ev[item.event], item.frame) && Legal(ModeOf(c, s, d, h), item.frame))
  }

  ghost predicate ItemsOk(c: Config, s: State, d: nat, h: nat, kept: bool)
    requires Wf(c, s) && d < c.doms && h < c.harts
  {
    forall k :: 0 <= k < |s.slots[d][h].stack| ==> ItemOk(c, s, d, h, s.slots[d][h].stack[k], kept)
  }

  /** Later ones outrank earlier ones; and whatever else runs is from before the hart started. */
  ghost predicate OrderOk(c: Config, s: State, d: nat, h: nat, kept: bool)
    requires Wf(c, s) && d < c.doms && h < c.harts && ItemsOk(c, s, d, h, kept)
  {
    var st := s.slots[d][h].stack;
    && (forall k, l :: 0 <= k < l < |st| ==> Outranks(c, s, st[l].event, st[k].event))
    && (forall i, k :: 0 <= i < |s.ev| && Runs(c, s, d, h, i) && !InStack(s.slots[d][h], i) && 0 <= k < |st| ==>
         Outranks(c, s, st[k].event, i))
  }

  ghost predicate StackOk(c: Config, s: State, d: nat, h: nat, kept: bool)
    requires Wf(c, s) && d < c.doms && h < c.harts
  {
    && ItemsOk(c, s, d, h, kept) && OrderOk(c, s, d, h, kept)
    && Legal(ModeOf(c, s, d, h), s.slots[d][h].frame)
    && (s.slots[d][h].stack != [] ==> s.slots[d][h].seen)
    && (s.slots[d][h].seen ==> s.ready[d])
  }

  predicate Away(pc: Pc) {
    pc.Off? || pc.Leaving? || pc == SwitchIn(true)
  }

  ghost predicate Nested(c: Config, s: State, kept: bool) {
    && Wf(c, s)
    && (forall d, h :: 0 <= d < c.doms && 0 <= h < c.harts ==> StackOk(c, s, d, h, kept))
    && (forall h :: 0 <= h < c.harts ==> Away(s.pc[h]) || s.slots[s.dom[h]][h].seen)
  }

  predicate Interrupted(w: Attr) {
    w.AFlags? || w.ASepc? || w.AA6? || w.AA7?
  }

  /**
   A domain is reset when its other harts are stopped; and, for `kept`, handlers do not
   write the attributes that hold interrupted state, or change the double trap enable.
   */
  ghost predicate Tame(c: Config, s: State, h: nat, a: Action, kept: bool)
    requires Wf(c, s) && h < c.harts
  {
    match a
    case SetDte(_) => kept ==> s.slots[s.dom[h]][h].stack == []
    case Write(_, ws) => kept ==> forall k :: 0 <= k < |ws| ==> !Interrupted(ws[k])
    case ResetDomain(key) => forall g :: 0 <= g < c.harts && g != h && s.dom[g] == key ==> s.pc[g] == Off
    case _ => true
  }

  // ---- outranks() is a strict order -------------------------------------------------------

  lemma OutranksOnce(c: Config, s: State, i: nat, j: nat)
    requires Wf(c, s) && i < |s.ev| && j < |s.ev| && Outranks(c, s, i, j)
    ensures !Outranks(c, s, j, i) && i != j
  {
  }

  lemma OutranksAll(c: Config, s: State, i: nat, j: nat, k: nat)
    requires Wf(c, s) && i < |s.ev| && j < |s.ev| && k < |s.ev|
    requires Outranks(c, s, i, j) && Outranks(c, s, j, k)
    ensures Outranks(c, s, i, k)
  {
  }

  // ---- steps that neither inject nor complete ----------------------------------------------

  predicate SameSaved(e: Event, f: Event, kept: bool) {
    f.status == e.status && f.hart == e.hart && f.priority == e.priority
    && (kept ==> f.flags == e.flags && f.sepc == e.sepc && f.a6 == e.a6 && f.a7 == e.a7)
  }

  ghost predicate SameRunning(c: Config, s: State, r: State, d: nat, h: nat, kept: bool)
    requires Wf(c, s) && Wf(c, r)
  {
    forall i :: 0 <= i < |s.ev| && (Runs(c, s, d, h, i) || Runs(c, r, d, h, i)) ==> SameSaved(s.ev[i], r.ev[i], kept)
  }

  lemma SameStack(c: Config, s: State, r: State, d: nat, h: nat, kept: bool)
    requires Wf(c, s) && Wf(c, r) && d < c.doms && h < c.harts && StackOk(c, s, d, h, kept)
    requires r.slots[d][h].(unmasked := s.slots[d][h].unmasked) == s.slots[d][h]
    requires s.ready[d] ==> r.ready[d]
    requires SameRunning(c, s, r, d, h, kept)
    ensures StackOk(c, r, d, h, kept)
  {
    var st := s.slots[d][h].stack;
    forall k | 0 <= k < |st| ensures ItemOk(c, r, d, h, st[k], kept) {
      assert ItemOk(c, s, d, h, st[k], kept);
    }
    forall i, k | 0 <= i < |r.ev| && Runs(c, r, d, h, i) && !InStack(r.slots[d][h], i) && 0 <= k < |st|
      ensures Outranks(c, r, st[k].event, i) {
      assert Runs(c, s, d, h, i) && !InStack(s.slots[d][h], i);
      assert ItemOk(c, s, d, h, st[k], kept);
    }
    forall k, l | 0 <= k < l < |st| ensures Outranks(c, r, st[l].event, st[k].event) {
      assert ItemOk(c, s, d, h, st[k], kept) && ItemOk(c, s, d, h, st[l], kept);
    }
  }

  /** The same for all stacks. */
  ghost predicate Calm(c: Config, s: State, r: State, kept: bool) {
    && Wf(c, s) && Wf(c, r)
    && (forall d, h :: 0 <= d < c.doms && 0 <= h < c.harts ==>
         && r.slots[d][h].(unmasked := s.slots[d][h].unmasked) == s.slots[d][h]
         && (s.ready[d] ==> r.ready[d])
         && SameRunning(c, s, r, d, h, kept))
  }

  ghost predicate UpSeen(c: Config, r: State)
    requires Wf(c, r)
  {
    forall h :: 0 <= h < c.harts ==> Away(r.pc[h]) || r.slots[r.dom[h]][h].seen
  }

  lemma CalmNested(c: Config, s: State, r: State, kept: bool)
    requires Nested(c, s, kept) && Calm(c, s, r, kept) && UpSeen(c, r)
    ensures Nested(c, r, kept)
  {
    forall d, h | 0 <= d < c.doms && 0 <= h < c.harts ensures StackOk(c, r, d, h, kept) {
      assert StackOk(c, s, d, h, kept);
      SameStack(c, s, r, d, h, kept);
    }
  }

  /** Only event `i` changes, and it runs as it did or runs neither before nor after. */
  lemma EventCalm(c: Config, s: State, r: State, i: nat, kept: bool)
    requires Wf(c, s) && Wf(c, r) && i < |s.ev|
    requires r.slots == s.slots && r.ready == s.ready
    requires forall j :: 0 <= j < |s.ev| && j != i ==> r.ev[j] == s.ev[j]
    requires SameSaved(s.ev[i], r.ev[i], kept) || (s.ev[i].status != Running && r.ev[i].status != Running)
    ensures Calm(c, s, r, kept)
  {
    forall d, h | 0 <= d < c.doms && 0 <= h < c.harts ensures SameRunning(c, s, r, d, h, kept) {
      forall j | 0 <= j < |s.ev| && (Runs(c, s, d, h, j) || Runs(c, r, d, h, j))
        ensures SameSaved(s.ev[j], r.ev[j], kept) {
        if j != i {
          assert r.ev[j] == s.ev[j];
        }
      }
    }
  }

  /** Of a running event only the interrupted state can be written. */
  lemma {:induction false} WrittenIdle(c: Config, s: State, h: nat, i: nat, ws: seq<Attr>)
    requires Wf(c, s) && i < |s.ev| && h < c.harts
    requires forall k :: 0 <= k < |ws| ==> MayWrite(c, s, h, i, ws[k])
    ensures var e, f := s.ev[i], WrittenAll(s.ev[i], ws);
            && f.status == e.status
            && (e.status == Running ==> f == e.(flags := f.flags, sepc := f.sepc, a6 := f.a6, a7 := f.a7))
            && (e.status == Running && (forall k :: 0 <= k < |ws| ==> !Interrupted(ws[k])) ==> f == e)
  {
    if ws != [] {
      WrittenIdle(c, s, h, i, ws[..|ws| - 1]);
      assert MayWrite(c, s, h, i, ws[|ws| - 1]);
    }
  }

  lemma MakePendingCalm(c: Config, s: State, h: nat, i: nat, d: nat, running: set<nat>, kept: bool)
    requires Wf(c, s) && h < c.harts && i < |s.ev| && d < c.doms
    ensures var r := MakePending(c, s, h, i, d, running);
            Calm(c, s, r, kept) && r.pc == s.pc && r.dom == s.dom && r.slots == s.slots
  {
    EventCalm(c, s, MakePending(c, s, h, i, d, running), i, kept);
  }

  lemma TransitionCalm(c: Config, s: State, h: nat, i: nat, from: Status, to: Status, running: set<nat>, kept: bool)
    requires Wf(c, s) && h < c.harts && i < |s.ev| && from != Running && to != Running
    requires Transition(c, s, h, i, from, to, running).Some?
    ensures var r := Transition(c, s, h, i, from, to, running).value;
            Calm(c, s, r, kept) && r.pc == s.pc && r.dom == s.dom && r.slots == s.slots
  {
    EventCalm(c, s, Transition(c, s, h, i, from, to, running).value, i, kept);
  }

  lemma EventStepCalm(c: Config, s: State, h: nat, a: Action, kept: bool)
    requires Wf(c, s) && h < c.harts && Tame(c, s, h, a, kept) && EventStep(c, s, h, a).Some?
    ensures var r := EventStep(c, s, h, a).value;
            Calm(c, s, r, kept) && r.pc == s.pc && r.dom == s.dom && r.slots == s.slots
  {
    var r, d := EventStep(c, s, h, a).value, s.dom[h];
    match a
    case RaiseLocal(i) => MakePendingCalm(c, s, h, i, d, {}, kept);
    case RaiseGlobal(i, running) => MakePendingCalm(c, s, h, i, c.home[i].dom, running, kept);
    case Inject(i, running) => MakePendingCalm(c, s, h, i, d, running, kept);
    case Register(i, _, _) => EventCalm(c, s, r, i, kept);
    case Unregister(i) => TransitionCalm(c, s, h, i, Registered, Unused, {}, kept);
    case Enable(i, running) => TransitionCalm(c, s, h, i, Registered, Enabled, running, kept);
    case Disable(i) => TransitionCalm(c, s, h, i, Enabled, Registered, {}, kept);
    case Write(i, ws) =>
      WrittenIdle(c, s, h, i, ws);
      EventCalm(c, s, r, i, kept);
    case _ =>
  }

  // ---- inject() -----------------------------------------------------------------------------

  /** An event about to be injected on `h`, above all that runs there. */
  ghost predicate MayDeliver(c: Config, s: State, h: nat, i: nat) {
    && Wf(c, s) && h < c.harts && i < |s.ev| && Candidate(c, s, h, Enabled, i)
    && (forall j :: 0 <= j < |s.ev| && Runs(c, s, s.dom[h], h, j) ==> Outranks(c, s, i, j))
  }

  lemma ProcessMayDeliver(c: Config, s: State, h: nat)
    requires Wf(c, s) && h < c.harts
    ensures var r := Process(c, s, h);
            r == s || r == s.(kick := s.kick[h := false])
            || exists i :: MayDeliver(c, s, h, i) && r == Deliver(c, s, h, i)
  {
    var r, next := Process(c, s, h), Top(c, s, h, Enabled, |s.ev|);
    var running := Top(c, s, h, Running, |s.ev|);
    if next.Some? && s.slots[s.dom[h]][h].unmasked && (running.None? || Outranks(c, s, next.value, running.value)) {
      forall j | 0 <= j < |s.ev| && Runs(c, s, s.dom[h], h, j) ensures Outranks(c, s, next.value, j) {
        TopIsTop(c, s, h, Running, |s.ev|, j);
        if j != running.value {
          OutranksAll(c, s, next.value, running.value, j);
        }
      }
      assert MayDeliver(c, s, h, next.value) && r == Deliver(c, s, h, next.value);
    }
  }

  /** How `s` and `r` are the same but for event `i` and the slot of `h` in its domain. */
  ghost predicate OneEvent(c: Config, s: State, r: State, h: nat, i: nat) {
    && Wf(c, s) && Wf(c, r) && h < c.harts && i < |s.ev|
    && r.dom == s.dom && r.pc == s.pc && r.ready == s.ready
    && (forall j :: 0 <= j < |s.ev| && j != i ==> r.ev[j] == s.ev[j])
    && r.ev[i].priority == s.ev[i].priority && r.ev[i].hart == s.ev[i].hart == h
    && Sees(c, s.dom[h], h, i)
    && (forall d, g :: 0 <= d < c.doms && 0 <= g < c.harts && (d != s.dom[h] || g != h) ==>
          r.slots[d][g] == s.slots[d][g])
    && r.slots[s.dom[h]][h].seen == s.slots[s.dom[h]][h].seen && r.slots[s.dom[h]][h].dte == s.slots[s.dom[h]][h].dte
  }

  lemma OneEventOthers(c: Config, s: State, r: State, h: nat, i: nat, d: nat, g: nat, kept: bool)
    requires OneEvent(c, s, r, h, i) && d < c.doms && g < c.harts && (d != s.dom[h] || g != h)
    requires StackOk(c, s, d, g, kept)
    ensures StackOk(c, r, d, g, kept)
  {
    forall j | 0 <= j < |s.ev| && (Runs(c, s, d, g, j) || Runs(c, r, d, g, j))
      ensures SameSaved(s.ev[j], r.ev[j], kept) {
      assert j != i;
    }
    SameStack(c, s, r, d, g, kept);
  }

  lemma OneEventNested(c: Config, s: State, r: State, h: nat, i: nat, kept: bool)
    requires Nested(c, s, kept) && OneEvent(c, s, r, h, i) && StackOk(c, r, s.dom[h], h, kept)
    ensures Nested(c, r, kept)
  {
    forall d, g | 0 <= d < c.doms && 0 <= g < c.harts ensures StackOk(c, r, d, g, kept) {
      assert StackOk(c, s, d, g, kept);
      if d != s.dom[h] || g != h {
        OneEventOthers(c, s, r, h, i, d, g, kept);
      }
    }
    forall g | 0 <= g < c.harts ensures Away(r.pc[g]) || r.slots[r.dom[g]][g].seen {
      assert Away(s.pc[g]) || s.slots[s.dom[g]][g].seen;
    }
  }

  lemma DeliverItems(c: Config, s: State, h: nat, i: nat, kept: bool)
    requires MayDeliver(c, s, h, i) && ItemsOk(c, s, s.dom[h], h, kept)
    requires Legal(ModeOf(c, s, s.dom[h], h), s.slots[s.dom[h]][h].frame)
    ensures var r := Deliver(c, s, h, i);
            && OneEvent(c, s, r, h, i) && ItemsOk(c, r, s.dom[h], h, kept)
            && Legal(ModeOf(c, r, s.dom[h], h), r.slots[s.dom[h]][h].frame)
  {
    var r, d, m := Deliver(c, s, h, i), s.dom[h], ModeOf(c, s, s.dom[h], h);
    var x, y := s.slots[d][h], r.slots[d][h];
    InjectLeaves(m, s.ev[i], x.frame, c.hartid[h]);
    forall k | 0 <= k < |y.stack| ensures ItemOk(c, r, d, h, y.stack[k], kept) {
      if k < |x.stack| {
        assert ItemOk(c, s, d, h, x.stack[k], kept) && y.stack[k] == x.stack[k];
      }
    }
  }

  lemma DeliverOrder(c: Config, s: State, h: nat, i: nat, kept: bool)
    requires MayDeliver(c, s, h, i) && StackOk(c, s, s.dom[h], h, kept)
    requires ItemsOk(c, Deliver(c, s, h, i), s.dom[h], h, kept)
    ensures OrderOk(c, Deliver(c, s, h, i), s.dom[h], h, kept)
  {
    var r, d := Deliver(c, s, h, i), s.dom[h];
    var x, y := s.slots[d][h], r.slots[d][h];
    var n := |x.stack|;
    assert y.stack[n].event == i;
    forall k, l | 0 <= k < l < n + 1 ensures Outranks(c, r, y.stack[l].event, y.stack[k].event) {
      assert ItemOk(c, s, d, h, x.stack[k], kept);
      if l < n {
        assert ItemOk(c, s, d, h, x.stack[l], kept);
      }
    }
    forall j, k | 0 <= j < |r.ev| && Runs(c, r, d, h, j) && !InStack(y, j) && 0 <= k < n + 1
      ensures Outranks(c, r, y.stack[k].event, j) {
      assert j != i;
      assert Runs(c, s, d, h, j);
      forall l | 0 <= l < n ensures x.stack[l].event != j {
        assert y.stack[l] == x.stack[l];
      }
      if k < n {
        assert ItemOk(c, s, d, h, x.stack[k], kept);
      }
    }
  }

  lemma DeliverNested(c: Config, s: State, h: nat, i: nat, kept: bool)
    requires Nested(c, s, kept) && MayDeliver(c, s, h, i) && s.slots[s.dom[h]][h].seen
    ensures Nested(c, Deliver(c, s, h, i), kept)
  {
    assert StackOk(c, s, s.dom[h], h, kept);
    DeliverItems(c, s, h, i, kept);
    DeliverOrder(c, s, h, i, kept);
    OneEventNested(c, s, Deliver(c, s, h, i), h, i, kept);
  }

  // ---- sse_complete() -------------------------------------------------------------------------

  lemma LastOutranks(c: Config, s: State, d: nat, h: nat, j: nat, kept: bool)
    requires Wf(c, s) && d < c.doms && h < c.harts && StackOk(c, s, d, h, kept) && s.slots[d][h].stack != []
    requires Runs(c, s, d, h, j) && j != s.slots[d][h].stack[|s.slots[d][h].stack| - 1].event
    ensures var last := s.slots[d][h].stack[|s.slots[d][h].stack| - 1].event;
            last < |s.ev| && Outranks(c, s, last, j)
  {
    var st := s.slots[d][h].stack;
    assert ItemOk(c, s, d, h, st[|st| - 1], kept);
    if InStack(s.slots[d][h], j) {
      var k :| 0 <= k < |st| && st[k].event == j;
      assert k < |st| - 1;
    }
  }

  /** The event that completes is the last one injected. */
  lemma CompletesLast(c: Config, s: State, h: nat, kept: bool)
    requires Wf(c, s) && h < c.harts && StackOk(c, s, s.dom[h], h, kept) && s.slots[s.dom[h]][h].stack != []
    ensures var st := s.slots[s.dom[h]][h].stack;
            Top(c, s, h, Running, |s.ev|) == Some(st[|st| - 1].event)
  {
    var d := s.dom[h];
    var st := s.slots[d][h].stack;
    var last := st[|st| - 1].event;
    assert ItemOk(c, s, d, h, st[|st| - 1], kept);
    TopIsTop(c, s, h, Running, |s.ev|, last);
    var top := Top(c, s, h, Running, |s.ev|).value;
    if top != last {
      LastOutranks(c, s, d, h, top, kept);
      OutranksOnce(c, s, last, top);
    }
  }

  /** The last handler has its way back intact. */
  ghost predicate Intact(c: Config, s: State, h: nat)
    requires Wf(c, s) && h < c.harts
  {
    var x := s.slots[s.dom[h]][h];
    x.stack != [] ==> Within(ModeOf(c, s, s.dom[h], h), x.stack[|x.stack| - 1].frame, x.frame)
  }

  lemma ResumedLegal(m: Mode, e: Event, g: Frame)
    requires Legal(m, g)
    ensures Legal(m, Resumed(m, e, g))
  {
  }

  /** From `s` to `r` the last item is gone, and its event runs no more. */
  ghost predicate Popped(c: Config, s: State, r: State, h: nat, i: nat) {
    && OneEvent(c, s, r, h, i) && r.ev[i].status != Running
    && var x, y := s.slots[s.dom[h]][h], r.slots[s.dom[h]][h];
       && |x.stack| == |y.stack| + 1 && x.stack[|y.stack|].event == i
       && y == x.(frame := y.frame, stack := x.stack[..|y.stack|])
       && Legal(ModeOf(c, s, s.dom[h], h), y.frame)
  }

  lemma CompletePops(c: Config, s: State, h: nat, kept: bool)
    requires Wf(c, s) && h < c.harts && StackOk(c, s, s.dom[h], h, kept) && s.slots[s.dom[h]][h].stack != []
    ensures Complete(c, s, h).Some?
    ensures Popped(c, s, Complete(c, s, h).value, h, Top(c, s, h, Running, |s.ev|).value)
  {
    var d := s.dom[h];
    var st := s.slots[d][h].stack;
    CompletesLast(c, s, h, kept);
    assert ItemOk(c, s, d, h, st[|st| - 1], kept);
    ResumedLegal(ModeOf(c, s, d, h), s.ev[st[|st| - 1].event], s.slots[d][h].frame);
  }

  /** With the way back intact the hart is where it was when that event came. */
  lemma CompleteGivesBack(c: Config, s: State, h: nat)
    requires Wf(c, s) && h < c.harts && StackOk(c, s, s.dom[h], h, true) && s.slots[s.dom[h]][h].stack != []
    requires Intact(c, s, h)
    ensures Complete(c, s, h).Some?
    ensures var r, st := Complete(c, s, h).value, s.slots[s.dom[h]][h].stack;
            && r.slots[s.dom[h]][h] == s.slots[s.dom[h]][h].(frame := st[|st| - 1].frame, stack := st[..|st| - 1])
            && r.ev[st[|st| - 1].event].status != Running
            && OneEvent(c, s, r, h, st[|st| - 1].event)
  {
    var d := s.dom[h];
    var st := s.slots[d][h].stack;
    var item := st[|st| - 1];
    CompletesLast(c, s, h, true);
    assert ItemOk(c, s, d, h, item, true);
    CompleteRestores(ModeOf(c, s, d, h), s.ev[item.event], item.frame, s.slots[d][h].frame);
  }

  lemma PopItems(c: Config, s: State, r: State, h: nat, i: nat, kept: bool)
    requires Popped(c, s, r, h, i) && StackOk(c, s, s.dom[h], h, kept)
    ensures ItemsOk(c, r, s.dom[h], h, kept) && Legal(ModeOf(c, r, s.dom[h], h), r.slots[s.dom[h]][h].frame)
  {
    var d := s.dom[h];
    var x, y := s.slots[d][h], r.slots[d][h];
    var n := |y.stack|;
    assert ItemOk(c, s, d, h, x.stack[n], kept);
    forall k | 0 <= k < n ensures ItemOk(c, r, d, h, y.stack[k], kept) {
      assert ItemOk(c, s, d, h, x.stack[k], kept);
      OutranksOnce(c, s, i, x.stack[k].event);
    }
  }

  lemma PopOrder(c: Config, s: State, r: State, h: nat, i: nat, kept: bool)
    requires Popped(c, s, r, h, i) && StackOk(c, s, s.dom[h], h, kept) && ItemsOk(c, r, s.dom[h], h, kept)
    ensures OrderOk(c, r, s.dom[h], h, kept)
  {
    var d := s.dom[h];
    var x, y := s.slots[d][h], r.slots[d][h];
    var n := |y.stack|;
    forall j, k | 0 <= j < |r.ev| && Runs(c, r, d, h, j) && !InStack(y, j) && 0 <= k < n
      ensures Outranks(c, r, y.stack[k].event, j) {
      assert Runs(c, s, d, h, j);
      forall l | 0 <= l < |x.stack| ensures x.stack[l].event != j {
        assert l < n ==> y.stack[l] == x.stack[l];
      }
      assert ItemOk(c, r, d, h, y.stack[k], kept);
    }
    forall k, l | 0 <= k < l < n ensures Outranks(c, r, y.stack[l].event, y.stack[k].event) {
      assert ItemOk(c, r, d, h, y.stack[k], kept) && ItemOk(c, r, d, h, y.stack[l], kept);
      assert Outranks(c, s, x.stack[l].event, x.stack[k].event);
    }
  }

  lemma CompleteNested(c: Config, s: State, h: nat, kept: bool)
    requires Nested(c, s, kept) && h < c.harts && Complete(c, s, h).Some?
    ensures Nested(c, Complete(c, s, h).value, kept)
  {
    var r, top := Complete(c, s, h).value, Top(c, s, h, Running, |s.ev|).value;
    assert StackOk(c, s, s.dom[h], h, kept);
    if s.slots[s.dom[h]][h].stack != [] {
      CompletePops(c, s, h, kept);
      PopItems(c, s, r, h, top, kept);
      PopOrder(c, s, r, h, top, kept);
    }
    OneEventNested(c, s, r, h, top, kept);
  }

  // ---- every step --------------------------------------------------------------------------------

  lemma MaskNested(c: Config, s: State, h: nat, on: bool, kept: bool)
    requires Nested(c, s, kept) && h < c.harts
    ensures Nested(c, SetSlot(c, s, s.dom[h], h, s.slots[s.dom[h]][h].(unmasked := on)), kept)
  {
    assert UpSeen(c, s);
    CalmNested(c, s, SetSlot(c, s, s.dom[h], h, s.slots[s.dom[h]][h].(unmasked := on)), kept);
  }

  lemma FlagsNested(c: Config, s: State, r: State, kept: bool)
    requires Nested(c, s, kept) && Wf(c, r) && r.ev == s.ev && r.slots == s.slots && r.ready == s.ready && UpSeen(c, r)
    ensures Nested(c, r, kept)
  {
    CalmNested(c, s, r, kept);
  }

  /** The frame of `h` in its domain changes, and no event. */
  ghost predicate Moved(c: Config, s: State, h: nat, x: Slot, kept: bool) {
    && Wf(c, s) && h < c.harts
    && var y := s.slots[s.dom[h]][h];
       && x.unmasked == y.unmasked && x.seen == y.seen && x.stack == y.stack
       && (kept && x.stack != [] ==> x.dte == y.dte)
       && Legal(Mode(c.hyp[h], x.dte), x.frame)
  }

  lemma FrameStack(c: Config, s: State, h: nat, x: Slot, kept: bool)
    requires Moved(c, s, h, x, kept) && StackOk(c, s, s.dom[h], h, kept)
    ensures StackOk(c, SetSlot(c, s, s.dom[h], h, x), s.dom[h], h, kept)
  {
    var r, d := SetSlot(c, s, s.dom[h], h, x), s.dom[h];
    forall k | 0 <= k < |x.stack| ensures ItemOk(c, r, d, h, x.stack[k], kept) {
      assert ItemOk(c, s, d, h, x.stack[k], kept);
    }
    forall i, k | 0 <= i < |r.ev| && Runs(c, r, d, h, i) && !InStack(x, i) && 0 <= k < |x.stack|
      ensures Outranks(c, r, x.stack[k].event, i) {
      assert Runs(c, s, d, h, i) && !InStack(s.slots[d][h], i);
      assert Outranks(c, s, x.stack[k].event, i);
    }
  }

  lemma FrameNested(c: Config, s: State, h: nat, x: Slot, kept: bool)
    requires Nested(c, s, kept) && Moved(c, s, h, x, kept)
    ensures Nested(c, SetSlot(c, s, s.dom[h], h, x), kept)
  {
    var r, e := SetSlot(c, s, s.dom[h], h, x), s.dom[h];
    forall d, g | 0 <= d < c.doms && 0 <= g < c.harts ensures StackOk(c, r, d, g, kept) {
      assert StackOk(c, s, d, g, kept);
      if d != e || g != h {
        SameStack(c, s, r, d, g, kept);
      } else {
        FrameStack(c, s, h, x, kept);
      }
    }
    assert UpSeen(c, s);
  }

  lemma ForgetNested(c: Config, s: State, h: nat, d: nat, kept: bool)
    requires Nested(c, s, kept) && h < c.harts && d < c.doms && Tame(c, s, h, ResetDomain(d), kept)
    requires s.pc[h] == Smode
    ensures var r := Forget(c, s, d);
            Nested(c, if d == s.dom[h] then At(c, r, h, Leaving) else r, kept)
  {
    var r := if d == s.dom[h] then At(c, Forget(c, s, d), h, Leaving) else Forget(c, s, d);
    forall e, g | 0 <= e < c.doms && 0 <= g < c.harts ensures StackOk(c, r, e, g, kept) {
      assert StackOk(c, s, e, g, kept);
      if e != d {
        SameStack(c, s, r, e, g, kept);
      }
    }
    forall g | 0 <= g < c.harts ensures Away(r.pc[g]) || r.slots[r.dom[g]][g].seen {
      assert Away(s.pc[g]) || s.slots[s.dom[g]][g].seen;
    }
  }

  lemma RunNested(c: Config, s: State, h: nat, f: Frame, kept: bool)
    requires Nested(c, s, kept) && h < c.harts && Tame(c, s, h, Run(f), kept) && Legal(ModeOf(c, s, s.dom[h], h), f)
    ensures Nested(c, SetSlot(c, s, s.dom[h], h, s.slots[s.dom[h]][h].(frame := f)), kept)
  {
    assert StackOk(c, s, s.dom[h], h, kept);
    FrameNested(c, s, h, s.slots[s.dom[h]][h].(frame := f), kept);
  }

  lemma SetDteNested(c: Config, s: State, h: nat, on: bool, kept: bool)
    requires Nested(c, s, kept) && h < c.harts && Tame(c, s, h, SetDte(on), kept)
    ensures Nested(c, HartStep(c, s, h, SetDte(on)).value, kept)
  {
    assert StackOk(c, s, s.dom[h], h, kept);
    var x := s.slots[s.dom[h]][h];
    FrameNested(c, s, h, x.(dte := on, frame := x.frame.(sdt := on && x.frame.sdt)), kept);
  }

  lemma HartStepNested(c: Config, s: State, h: nat, a: Action, kept: bool)
    requires Nested(c, s, kept) && h < c.harts && s.pc[h] == Smode
    requires Tame(c, s, h, a, kept) && HartStep(c, s, h, a).Some?
    ensures Nested(c, HartStep(c, s, h, a).value, kept)
  {
    var r := HartStep(c, s, h, a).value;
    assert UpSeen(c, s);
    match a
    case Run(f) => RunNested(c, s, h, f, kept);
    case SetDte(on) => SetDteNested(c, s, h, on, kept);
    case Unmask =>
      MaskNested(c, s, h, true, kept);
      FlagsNested(c, SetSlot(c, s, s.dom[h], h, s.slots[s.dom[h]][h].(unmasked := true)), r, kept);
    case Mask => MaskNested(c, s, h, false, kept);
    case Look => FlagsNested(c, s, r, kept);
    case Stop => FlagsNested(c, s, r, kept);
    case ResetDomain(key) => ForgetNested(c, s, h, key, kept);
    case _ =>
  }

  /** The slot of `h` in `d` is started over; events change only where no stack has them. */
  lemma RenewNested(c: Config, s: State, r: State, h: nat, d: nat, kept: bool)
    requires Nested(c, s, kept) && Wf(c, r) && h < c.harts && d < c.doms && UpSeen(c, r)
    requires forall e, g :: 0 <= e < c.doms && 0 <= g < c.harts && (e != d || g != h) ==> r.slots[e][g] == s.slots[e][g]
    requires r.slots[d][h].stack == [] && Legal(ModeOf(c, r, d, h), r.slots[d][h].frame)
    requires r.slots[d][h].seen ==> r.ready[d]
    requires forall e :: 0 <= e < c.doms && s.ready[e] ==> r.ready[e]
    requires forall e: nat, g: nat, i ::
               (0 <= i < |s.ev| && e < c.doms && g < c.harts && (e != d || g != h) && s.slots[e][g].stack != []
                && Sees(c, e, g, i)) ==> r.ev[i] == s.ev[i]
    ensures Nested(c, r, kept)
  {
    forall e, g | 0 <= e < c.doms && 0 <= g < c.harts ensures StackOk(c, r, e, g, kept) {
      if e != d || g != h {
        assert StackOk(c, s, e, g, kept);
        if s.slots[e][g].stack != [] {
          SameStack(c, s, r, e, g, kept);
        }
      }
    }
  }

  lemma BeginNested(c: Config, s: State, h: nat, f: Frame, pc: Pc, kept: bool)
    requires Nested(c, s, kept) && h < c.harts && Legal(ModeOf(c, s, s.dom[h], h), f)
    ensures Nested(c, At(c, Begin(c, s, h, f), h, pc), kept)
  {
    var d, r := s.dom[h], At(c, Begin(c, s, h, f), h, pc);
    assert UpSeen(c, s);
    forall e: nat, g: nat, i | 0 <= i < |s.ev| && e < c.doms && g < c.harts && (e != d || g != h)
                               && s.slots[e][g].stack != [] && Sees(c, e, g, i)
      ensures r.ev[i] == s.ev[i] {
      assert StackOk(c, s, e, g, kept);
    }
    RenewNested(c, s, r, h, d, kept);
  }

  lemma ChangeNested(c: Config, s: State, h: nat, a: Action, kept: bool)
    requires Nested(c, s, kept) && h < c.harts && Change(c, s, h, a).Some?
    ensures Nested(c, Change(c, s, h, a).value, kept)
  {
    var r := Change(c, s, h, a).value;
    assert UpSeen(c, s);
    if a.anew {
      RenewNested(c, s, r, h, a.to, kept);
    } else {
      FlagsNested(c, s, r, kept);
    }
  }

  lemma ProcessNested(c: Config, s: State, h: nat, kept: bool)
    requires Nested(c, s, kept) && h < c.harts && s.pc[h] == Processing
    ensures Nested(c, At(c, Process(c, s, h), h, Smode), kept)
  {
    var p := Process(c, s, h);
    ProcessMayDeliver(c, s, h);
    assert UpSeen(c, s);
    if i :| MayDeliver(c, s, h, i) && p == Deliver(c, s, h, i) {
      DeliverNested(c, s, h, i, kept);
    } else {
      FlagsNested(c, s, p, kept);
    }
    FlagsNested(c, p, At(c, p, h, Smode), kept);
  }

  lemma StepNested(c: Config, s: State, h: nat, a: Action, kept: bool)
    requires Nested(c, s, kept) && Step(c, s, h, a).Some? && Tame(c, s, h, a, kept)
    ensures Nested(c, Step(c, s, h, a).value, kept)
  {
    var r := Step(c, s, h, a).value;
    assert UpSeen(c, s);
    match s.pc[h]
    case Off => BeginNested(c, s, h, a.start, Smode, kept);
    case Smode =>
      if a.SwitchTo? {
        ChangeNested(c, s, h, a, kept);
      } else if a.DoComplete? {
        CompleteNested(c, s, h, kept);
      } else if HartStep(c, s, h, a).Some? {
        HartStepNested(c, s, h, a, kept);
      } else {
        EventStepCalm(c, s, h, a, kept);
        CalmNested(c, s, r, kept);
      }
    case Processing => ProcessNested(c, s, h, kept);
    case SwitchIn(anew) =>
      if anew {
        assert StackOk(c, s, s.dom[h], h, kept);
        BeginNested(c, s, h, s.slots[s.dom[h]][h].frame, SwitchKick, kept);
      } else {
        FlagsNested(c, s, r, kept);
      }
    case Leaving =>
      if a.Stop? {
        FlagsNested(c, s, r, kept);
      } else {
        ChangeNested(c, s, h, a, kept);
      }
    case UnmaskKick =>
      FlagsNested(c, s, r, kept);
    case SwitchKick =>
      FlagsNested(c, s, r, kept);
  }

  ghost predicate TameRun(c: Config, run: seq<State>, moves: seq<Move>, kept: bool) {
    && IsRun(c, run, moves)
    && (forall d, h :: 0 <= d < c.doms && 0 <= h < c.harts ==> Legal(ModeOf(c, run[0], d, h), run[0].slots[d][h].frame))
    && (forall i :: 0 <= i < |moves| ==>
         Wf(c, run[i]) && moves[i].hart < c.harts && Tame(c, run[i], moves[i].hart, moves[i].action, kept))
  }

  lemma {:induction false} NestHolds(c: Config, run: seq<State>, moves: seq<Move>, i: nat, kept: bool)
    requires TameRun(c, run, moves, kept) && i < |run|
    ensures Nested(c, run[i], kept)
  {
    if i > 0 {
      var k := i - 1;
      NestHolds(c, run, moves, k, kept);
      assert Step(c, run[k], moves[k].hart, moves[k].action) == Some(run[k + 1]);
      assert Tame(c, run[k], moves[k].hart, moves[k].action, kept);
      StepNested(c, run[k], moves[k].hart, moves[k].action, kept);
    }
  }

  // ---- whole nests ---------------------------------------------------------------------------------

  ghost predicate Pushes(c: Config, s: State, r: State, d: nat, h: nat)
    requires Wf(c, s) && Wf(c, r) && d < c.doms && h < c.harts
  {
    var x, y := s.slots[d][h], r.slots[d][h];
    && |y.stack| == |x.stack| + 1 && y.stack[..|x.stack|] == x.stack
    && y.stack[|x.stack|].frame == x.frame
  }

  lemma StackMoves(c: Config, s: State, p: nat, a: Action, r: State, d: nat, h: nat)
    requires Step(c, s, p, a) == Some(r) && d < c.doms && h < c.harts
    ensures || r.slots[d][h].stack <= s.slots[d][h].stack
            || (p == h && s.dom[h] == d && s.pc[h] == Processing && a == Go && Pushes(c, s, r, d, h))
  {
    if s.pc[p] == Processing {
      ProcessMayDeliver(c, s, p);
    } else if s.pc[p] == Smode {
      SmodeStacks(c, s, p, a, r, d, h);
    }
  }

  lemma SmodeStacks(c: Config, s: State, p: nat, a: Action, r: State, d: nat, h: nat)
    requires Step(c, s, p, a) == Some(r) && d < c.doms && h < c.harts && s.pc[p] == Smode
    ensures r.slots[d][h].stack <= s.slots[d][h].stack
  {
    if EventStep(c, s, p, a).Some? && HartStep(c, s, p, a).None? && !a.SwitchTo? && !a.DoComplete? {
      assert r.slots == s.slots;
    }
  }

  /** Item `k` of the stack at `j` was injected in step `i`, and has been in the stack since. */
  ghost predicate PushedAt(c: Config, run: seq<State>, moves: seq<Move>, i: nat, j: nat, d: nat, h: nat, k: nat) {
    && i < j < |run| && |moves| + 1 == |run| && d < c.doms && h < c.harts
    && (forall m :: 0 <= m < |run| ==> Wf(c, run[m]))
    && k < |run[j].slots[d][h].stack|
    && moves[i] == Move(h, Go) && run[i].pc[h] == Processing && run[i].dom[h] == d
    && run[i].slots[d][h].stack == run[j].slots[d][h].stack[..k]
    && run[i].slots[d][h].frame == run[j].slots[d][h].stack[k].frame
    && (forall m :: i < m <= j ==> run[j].slots[d][h].stack[..k + 1] <= run[m].slots[d][h].stack)
  }

  lemma RunWf(c: Config, run: seq<State>, moves: seq<Move>)
    requires IsRun(c, run, moves)
    ensures forall m :: 0 <= m < |run| ==> Wf(c, run[m])
  {
    forall m | 0 <= m < |run| ensures Wf(c, run[m]) {
      if m > 0 {
        var k := m - 1;
        assert Step(c, run[k], moves[k].hart, moves[k].action) == Some(run[k + 1]);
      }
    }
  }

  lemma {:induction false} Pushed(c: Config, run: seq<State>, moves: seq<Move>, j: nat, d: nat, h: nat, k: nat)
    returns (i: nat)
    requires IsRun(c, run, moves) && j < |run| && d < c.doms && h < c.harts && Wf(c, run[j])
    requires k < |run[j].slots[d][h].stack|
    ensures PushedAt(c, run, moves, i, j, d, h, k)
  {
    RunWf(c, run, moves);
    assert j > 0;
    var p := j - 1;
    var st, was := run[j].slots[d][h].stack, run[p].slots[d][h].stack;
    assert Step(c, run[p], moves[p].hart, moves[p].action) == Some(run[p + 1]);
    StackMoves(c, run[p], moves[p].hart, moves[p].action, run[j], d, h);
    if k < |was| {
      assert st[..k + 1] == was[..k + 1] && st[..k] == was[..k];
      i := Pushed(c, run, moves, p, d, h, k);
    } else {
      i := p;
    }
  }

  /**
   sse_complete() with an injected event whose way back is intact now, whatever it was in
   the meantime: the hart is back in the frame it had when that event was injected, with
   the events under it as they were then.
   */
  lemma CompleteReturns(c: Config, run: seq<State>, moves: seq<Move>, j: nat, h: nat) returns (i: nat)
    requires TameRun(c, run, moves, true) && j < |moves| && moves[j] == Move(h, DoComplete)
    requires h < c.harts && run[j].slots[run[j].dom[h]][h].stack != [] && Intact(c, run[j], h)
    ensures Wf(c, run[j]) && Wf(c, run[j + 1]) && run[j].dom[h] < c.doms
    ensures var d := run[j].dom[h];
            && PushedAt(c, run, moves, i, j, d, h, |run[j].slots[d][h].stack| - 1)
            && run[j + 1].slots[d][h].frame == run[i].slots[d][h].frame
            && run[j + 1].slots[d][h].stack == run[i].slots[d][h].stack
  {
    NestHolds(c, run, moves, j, true);
    RunWf(c, run, moves);
    var d := run[j].dom[h];
    assert StackOk(c, run[j], d, h, true);
    assert Step(c, run[j], moves[j].hart, moves[j].action) == Some(run[j + 1]);
    CompleteGivesBack(c, run[j], h);
    i := Pushed(c, run, moves, j, d, h, |run[j].slots[d][h].stack| - 1);
  }

  /** In every reachable state, of two injected events the later one outranks the earlier. */
  lemma LaterOutranks(c: Config, run: seq<State>, moves: seq<Move>, j: nat, d: nat, h: nat, k: nat, l: nat)
    requires TameRun(c, run, moves, false) && j < |run| && d < c.doms && h < c.harts && Wf(c, run[j])
    requires k < l < |run[j].slots[d][h].stack|
    ensures var e, f := run[j].slots[d][h].stack[k].event, run[j].slots[d][h].stack[l].event;
            && Runs(c, run[j], d, h, e) && Runs(c, run[j], d, h, f)
            && Outranks(c, run[j], f, e) && !Outranks(c, run[j], e, f)
  {
    NestHolds(c, run, moves, j, false);
    assert StackOk(c, run[j], d, h, false);
    var st := run[j].slots[d][h].stack;
    assert ItemOk(c, run[j], d, h, st[k], false) && ItemOk(c, run[j], d, h, st[l], false);
    OutranksOnce(c, run[j], st[l].event, st[k].event);
  }

  /** ... and sse_complete() ends the latest, whatever the handlers did. */
  lemma LatestEnds(c: Config, run: seq<State>, moves: seq<Move>, j: nat, h: nat)
    requires TameRun(c, run, moves, false) && j < |moves| && moves[j] == Move(h, DoComplete)
    requires h < c.harts && Wf(c, run[j]) && run[j].slots[run[j].dom[h]][h].stack != []
    ensures var st := run[j].slots[run[j].dom[h]][h].stack;
            Popped(c, run[j], run[j + 1], h, st[|st| - 1].event)
  {
    NestHolds(c, run, moves, j, false);
    assert StackOk(c, run[j], run[j].dom[h], h, false);
    assert Step(c, run[j], moves[j].hart, moves[j].action) == Some(run[j + 1]);
    CompletesLast(c, run[j], h, false);
    CompletePops(c, run[j], h, false);
  }
}
