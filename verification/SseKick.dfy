/**
 No event is lost to the fast path of sse_process(): a hart that has an event to deliver
 has its kick flag up, except from the moment it changes domain until the switch-in.
 */
module SseKick {
  import opened Options
  import opened SseModel

  /** Event `i` waits for hart `h`, in the domain that hart runs. */
  ghost predicate Due(c: Config, s: State, h: nat, i: nat)
    requires Wf(c, s) && h < c.harts
  {
    Candidate(c, s, h, Enabled, i)
  }

  predicate Switching(pc: Pc) {
    pc.SwitchIn? || pc.SwitchKick?
  }

  ghost predicate NotLost(c: Config, s: State, h: nat)
    requires Wf(c, s) && h < c.harts
  {
    forall i :: 0 <= i < |s.ev| && Due(c, s, h, i) ==> s.kick[h]
  }

  ghost predicate NoneLost(c: Config, s: State) {
    Wf(c, s) && forall h :: 0 <= h < c.harts && !Switching(s.pc[h]) ==> NotLost(c, s, h)
  }

  /** From `s` to `r` hart `h` gets nothing to deliver without a kick, and loses no kick. */
  ghost predicate Kicked(c: Config, s: State, r: State, h: nat)
    requires Wf(c, s) && Wf(c, r) && h < c.harts
  {
    && (s.kick[h] ==> r.kick[h])
    && (forall i :: 0 <= i < |s.ev| && Due(c, r, h, i) ==> Due(c, s, h, i) || r.kick[h])
  }

  ghost predicate AllKicked(c: Config, s: State, r: State) {
    && Wf(c, s) && Wf(c, r)
    && (forall h :: 0 <= h < c.harts ==> Kicked(c, s, r, h))
  }

  /** What of a state the flag is about. */
  ghost predicate SameEvents(s: State, r: State) {
    r.ev == s.ev && r.dom == s.dom && r.kick == s.kick
  }

  lemma SameKicked(c: Config, s: State, r: State)
    requires Wf(c, s) && Wf(c, r) && SameEvents(s, r)
    ensures AllKicked(c, s, r)
  {
  }

  /** One event changes; if it is to be delivered now, its hart has been kicked. */
  lemma EventKicked(c: Config, s: State, r: State, i: nat)
    requires Wf(c, s) && Wf(c, r) && i < |s.ev| && r.dom == s.dom
    requires forall j :: 0 <= j < |s.ev| && j != i ==> r.ev[j] == s.ev[j]
    requires r.ev[i].status == Enabled && r.ev[i].pending ==> r.kick[r.ev[i].hart]
    requires forall h :: 0 <= h < c.harts && s.kick[h] ==> r.kick[h]
    ensures AllKicked(c, s, r)
  {
    forall h | 0 <= h < c.harts ensures Kicked(c, s, r, h) {
      forall j | 0 <= j < |s.ev| && Due(c, r, h, j) ensures Due(c, s, h, j) || r.kick[h] {
        if j != i {
          assert r.ev[j] == s.ev[j];
        }
      }
    }
  }

  lemma BeginKicked(c: Config, s: State, h: nat, f: Frame)
    requires Wf(c, s) && h < c.harts
    ensures AllKicked(c, s, Begin(c, s, h, f))
  {
    var r := Begin(c, s, h, f);
    forall g | 0 <= g < c.harts ensures Kicked(c, s, r, g) {
      forall i | 0 <= i < |s.ev| && Due(c, r, g, i) ensures Due(c, s, g, i) {
        assert r.ev[i] == s.ev[i] || r.ev[i] == Reset(h, c.hartid[h]);
      }
    }
  }

  lemma TransitionKicked(c: Config, s: State, h: nat, i: nat, from: Status, to: Status, running: set<nat>)
    requires Wf(c, s) && h < c.harts && i < |s.ev| && Transition(c, s, h, i, from, to, running).Some?
    ensures AllKicked(c, s, Transition(c, s, h, i, from, to, running).value)
  {
    EventKicked(c, s, Transition(c, s, h, i, from, to, running).value, i);
  }

  lemma {:induction false} WrittenStatus(e: Event, ws: seq<Attr>)
    ensures var r := WrittenAll(e, ws); r.status == e.status && r.pending == e.pending
  {
    if ws != [] {
      WrittenStatus(e, ws[..|ws| - 1]);
    }
  }

  lemma EventStepKicked(c: Config, s: State, h: nat, a: Action)
    requires Wf(c, s) && h < c.harts && EventStep(c, s, h, a).Some?
    ensures AllKicked(c, s, EventStep(c, s, h, a).value)
    ensures EventStep(c, s, h, a).value.pc == s.pc && EventStep(c, s, h, a).value.dom == s.dom
  {
    var d, r := s.dom[h], EventStep(c, s, h, a).value;
    match a
    case RaiseLocal(i) => EventKicked(c, s, r, i);
    case RaiseGlobal(i, _) => EventKicked(c, s, r, i);
    case Inject(i, _) => EventKicked(c, s, r, i);
    case Register(i, _, _) => EventKicked(c, s, r, i);
    case Unregister(i) => TransitionKicked(c, s, h, i, Registered, Unused, {});
    case Enable(i, running) => TransitionKicked(c, s, h, i, Registered, Enabled, running);
    case Disable(i) => TransitionKicked(c, s, h, i, Enabled, Registered, {});
    case Write(i, ws) =>
      WrittenStatus(s.ev[i], ws);
      WriteKicked(c, s, r, i);
    case _ =>
  }

  lemma WriteKicked(c: Config, s: State, r: State, i: nat)
    requires Wf(c, s) && Wf(c, r) && i < |s.ev| && r.dom == s.dom && r.kick == s.kick
    requires r.ev == s.ev[i := r.ev[i]] && r.ev[i].hart == s.ev[i].hart
    requires r.ev[i].status == s.ev[i].status && r.ev[i].pending == s.ev[i].pending
    ensures AllKicked(c, s, r)
  {
  }

  /** sse_process() lowers the flag only when there is nothing to deliver. */
  lemma ProcessKicked(c: Config, s: State, h: nat)
    requires Wf(c, s) && h < c.harts
    ensures var r := Process(c, s, h);
            && r.pc == s.pc && r.dom == s.dom
            && (forall g :: 0 <= g < c.harts && g != h ==> Kicked(c, s, r, g))
            && (NotLost(c, s, h) ==> NotLost(c, r, h))
  {
    var r, next := Process(c, s, h), Top(c, s, h, Enabled, |s.ev|);
    if next.None? {
      forall i | 0 <= i < |s.ev| ensures !Due(c, s, h, i) {
        if Due(c, s, h, i) {
          TopIsTop(c, s, h, Enabled, |s.ev|, i);
        }
      }
      assert forall i :: 0 <= i < |s.ev| ==> Due(c, r, h, i) == Due(c, s, h, i);
    } else if r != s {
      EventKicked(c, s, r, next.value);
      assert Kicked(c, s, r, h);
    }
  }

  lemma KeepsNoneLost(c: Config, s: State, r: State, h: nat)
    requires NoneLost(c, s) && Wf(c, r) && h < c.harts
    requires forall g :: 0 <= g < c.harts && g != h ==> Kicked(c, s, r, g) && r.pc[g] == s.pc[g]
    requires Switching(r.pc[h]) || NotLost(c, r, h)
    ensures NoneLost(c, r)
  {
    forall g | 0 <= g < c.harts && !Switching(r.pc[g]) ensures NotLost(c, r, g) {
      if g != h {
        assert NotLost(c, s, g) && Kicked(c, s, r, g);
      }
    }
  }

  lemma AllKickedKeeps(c: Config, s: State, r: State, h: nat)
    requires NoneLost(c, s) && AllKicked(c, s, r) && h < c.harts
    requires forall g :: 0 <= g < c.harts && g != h ==> r.pc[g] == s.pc[g]
    requires Switching(s.pc[h]) ==> Switching(r.pc[h]) || r.kick[h]
    ensures NoneLost(c, r)
  {
    if !Switching(s.pc[h]) {
      assert NotLost(c, s, h) && Kicked(c, s, r, h);
    }
    KeepsNoneLost(c, s, r, h);
  }

  lemma ChangeKeeps(c: Config, s: State, h: nat, a: Action)
    requires NoneLost(c, s) && h < c.harts && Change(c, s, h, a).Some?
    ensures NoneLost(c, Change(c, s, h, a).value)
  {
    KeepsNoneLost(c, s, Change(c, s, h, a).value, h);
  }

  lemma SmodeKeeps(c: Config, s: State, h: nat, a: Action)
    requires NoneLost(c, s) && h < c.harts && s.pc[h] == Smode && Step(c, s, h, a).Some?
    ensures NoneLost(c, Step(c, s, h, a).value)
  {
    var r := Step(c, s, h, a).value;
    if a.SwitchTo? {
      ChangeKeeps(c, s, h, a);
    } else if a.DoComplete? {
      EventKicked(c, s, r, Top(c, s, h, Running, |s.ev|).value);
      AllKickedKeeps(c, s, r, h);
    } else if HartStep(c, s, h, a).Some? {
      SameKicked(c, s, r);
      AllKickedKeeps(c, s, r, h);
    } else {
      EventStepKicked(c, s, h, a);
      AllKickedKeeps(c, s, r, h);
    }
  }

  lemma OtherKeeps(c: Config, s: State, h: nat, a: Action)
    requires NoneLost(c, s) && h < c.harts && s.pc[h] != Smode && Step(c, s, h, a).Some?
    ensures NoneLost(c, Step(c, s, h, a).value)
  {
    var r := Step(c, s, h, a).value;
    match s.pc[h]
    case Off =>
      BeginKicked(c, s, h, a.start);
      AllKickedKeeps(c, s, Begin(c, s, h, a.start), h);
      SameKicked(c, Begin(c, s, h, a.start), r);
      AllKickedKeeps(c, Begin(c, s, h, a.start), r, h);
    case Processing =>
      ProcessKicked(c, s, h);
      KeepsNoneLost(c, s, Process(c, s, h), h);
      SameKicked(c, Process(c, s, h), r);
      AllKickedKeeps(c, Process(c, s, h), r, h);
    case UnmaskKick => AllKickedKeeps(c, s, r, h);
    case SwitchIn(anew) =>
      var f := s.slots[s.dom[h]][h].frame;
      BeginKicked(c, s, h, f);
      var m := if anew then Begin(c, s, h, f) else s;
      AllKickedKeeps(c, s, m, h);
      SameKicked(c, m, r);
      AllKickedKeeps(c, m, r, h);
    case SwitchKick => AllKickedKeeps(c, s, r, h);
    case Leaving =>
      if a.Stop? {
        SameKicked(c, s, r);
        AllKickedKeeps(c, s, r, h);
      } else {
        ChangeKeeps(c, s, h, a);
      }
  }

  /** In every reachable state, an event to deliver has its hart's flag up. */
  lemma {:induction false} NoEventIsLost(c: Config, run: seq<State>, moves: seq<Move>, i: nat)
    requires IsRun(c, run, moves) && i < |run|
    ensures NoneLost(c, run[i])
  {
    if i > 0 {
      var k := i - 1;
      NoEventIsLost(c, run, moves, k);
      var h, a := moves[k].hart, moves[k].action;
      assert Step(c, run[k], h, a) == Some(run[k + 1]);
      if run[k].pc[h] == Smode {
        SmodeKeeps(c, run[k], h, a);
      } else {
        OtherKeeps(c, run[k], h, a);
      }
    }
  }

  /** What the flag is for: with an event to deliver, sse_process() goes on to the lock. */
  lemma LookGoesOn(c: Config, s: State, h: nat, i: nat)
    requires NoneLost(c, s) && h < c.harts && i < |s.ev| && s.pc[h] == Smode && Due(c, s, h, i)
    ensures Step(c, s, h, Look).Some? && Step(c, s, h, Look).value.pc[h] == Processing
  {
    assert NotLost(c, s, h);
  }

  /** ... and with the flag down it does not: nothing changes. */
  lemma LookTurnsBack(c: Config, s: State, h: nat)
    requires Wf(c, s) && h < c.harts && s.pc[h] == Smode && !s.kick[h]
    ensures Step(c, s, h, Look) == Some(s)
  {
  }

  /** At the lock it delivers the top one, unless the hart is masked or runs one that ranks above. */
  lemma ProcessDelivers(c: Config, s: State, h: nat, i: nat) returns (top: nat)
    requires Wf(c, s) && h < c.harts && i < |s.ev| && Due(c, s, h, i)
    requires s.slots[s.dom[h]][h].unmasked
    requires forall j :: 0 <= j < |s.ev| && Candidate(c, s, h, Running, j) ==> Outranks(c, s, i, j)
    ensures top < |s.ev| && Due(c, s, h, top) && (top == i || Outranks(c, s, top, i))
    ensures Process(c, s, h) == Deliver(c, s, h, top)
  {
    TopIsTop(c, s, h, Enabled, |s.ev|, i);
    top := Top(c, s, h, Enabled, |s.ev|).value;
  }

  // ---- where the flag can be down ----------------------------------------------------------

  /** Event `i` waits for hart `h` in domain `d`, whether the hart runs there or not. */
  predicate Awaits(c: Config, s: State, d: nat, h: nat, i: nat)
    requires Wf(c, s)
  {
    Sees(c, d, h, i) && s.ev[i].status == Enabled && s.ev[i].hart == h && s.ev[i].pending
  }

  /** After a change of domain no event is lost just when the flag was up, or nothing waited there. */
  lemma SwitchJustWhen(c: Config, s: State, h: nat, to: nat, anew: bool, f: Frame)
    requires Step(c, s, h, SwitchTo(to, anew, f)).Some?
    ensures NotLost(c, Step(c, s, h, SwitchTo(to, anew, f)).value, h) <==>
            s.kick[h] || forall i :: 0 <= i < |s.ev| ==> !Awaits(c, s, to, h, i)
  {
    var r := Step(c, s, h, SwitchTo(to, anew, f)).value;
    assert forall i :: 0 <= i < |s.ev| ==> Due(c, r, h, i) == Awaits(c, s, to, h, i);
  }

  /** The window ends with the flag up. */
  lemma WindowCloses(c: Config, s: State, p: nat, a: Action, h: nat)
    requires Step(c, s, p, a).Some? && h < c.harts
    requires Switching(s.pc[h]) && !Switching(Step(c, s, p, a).value.pc[h])
    ensures Step(c, s, p, a).value.kick[h]
  {
    if p != h {
      OthersStay(c, s, p, a, h);
    }
  }

  lemma SmodeStays(c: Config, s: State, p: nat, a: Action, h: nat)
    requires Step(c, s, p, a).Some? && h < c.harts && p != h && s.pc[p] == Smode
    ensures var r := Step(c, s, p, a).value;
            r.pc[h] == s.pc[h] && r.dom[h] == s.dom[h] && Kicked(c, s, r, h)
  {
    if a.DoComplete? {
      EventKicked(c, s, Step(c, s, p, a).value, Top(c, s, p, Running, |s.ev|).value);
    } else if !a.SwitchTo? && HartStep(c, s, p, a).None? {
      EventStepKicked(c, s, p, a);
    }
  }

  lemma OthersStay(c: Config, s: State, p: nat, a: Action, h: nat)
    requires Step(c, s, p, a).Some? && h < c.harts && p != h
    ensures var r := Step(c, s, p, a).value;
            r.pc[h] == s.pc[h] && r.dom[h] == s.dom[h] && Kicked(c, s, r, h)
  {
    var r := Step(c, s, p, a).value;
    match s.pc[p]
    case Smode => SmodeStays(c, s, p, a, h);
    case Off => BeginKicked(c, s, p, a.start);
    case Processing => ProcessKicked(c, s, p);
    case SwitchIn(anew) => BeginKicked(c, s, p, s.slots[s.dom[p]][p].frame);
    case _ =>
  }

  /** In the window, what waits for the hart without the flag did so before. */
  lemma WindowStep(c: Config, s: State, p: nat, a: Action, h: nat, e: nat)
    requires Step(c, s, p, a).Some? && h < c.harts && e < |s.ev|
    requires var r := Step(c, s, p, a).value;
             Switching(r.pc[h]) && Due(c, r, h, e) && !r.kick[h]
    ensures if p == h && a.SwitchTo? then !s.kick[h] && Awaits(c, s, a.to, h, e)
            else Switching(s.pc[h]) && Due(c, s, h, e) && !s.kick[h]
  {
    var r := Step(c, s, p, a).value;
    if p != h {
      OthersStay(c, s, p, a, h);
    } else if s.pc[h].SwitchIn? {
      BeginKicked(c, s, h, s.slots[s.dom[h]][h].frame);
      assert Kicked(c, s, if s.pc[h].anew then Begin(c, s, h, s.slots[s.dom[h]][h].frame) else s, h);
    } else {
      OnlyChanges(c, s, h, a);
    }
  }

  lemma OnlyChanges(c: Config, s: State, h: nat, a: Action)
    requires Step(c, s, h, a).Some? && !s.pc[h].SwitchIn? && Switching(Step(c, s, h, a).value.pc[h])
    ensures a.SwitchTo? && Step(c, s, h, a) == Change(c, s, h, a)
  {
    if s.pc[h] == Smode && !a.SwitchTo? && !a.DoComplete? && HartStep(c, s, h, a).None? {
      EventStepKicked(c, s, h, a);
    }
  }

  /** Step `k` took the hart to a domain where `e` waited, with the flag down, and nothing has raised it by `i`. */
  ghost predicate LostSince(c: Config, run: seq<State>, moves: seq<Move>, k: nat, i: nat, h: nat, e: nat)
    requires IsRun(c, run, moves) && h < c.harts
  {
    && k < i < |run| && moves[k].hart == h && moves[k].action.SwitchTo?
    && Wf(c, run[k]) && !run[k].kick[h] && Awaits(c, run[k], moves[k].action.to, h, e)
    && (forall m :: k < m <= i ==>
         Wf(c, run[m]) && Switching(run[m].pc[h]) && Due(c, run[m], h, e) && !run[m].kick[h])
  }

  lemma {:induction false} LostFrom(c: Config, run: seq<State>, moves: seq<Move>, i: nat, h: nat, e: nat)
    returns (k: nat)
    requires IsRun(c, run, moves) && i < |run| && h < c.harts && Wf(c, run[i]) && e < |run[i].ev|
    requires Switching(run[i].pc[h]) && Due(c, run[i], h, e) && !run[i].kick[h]
    ensures LostSince(c, run, moves, k, i, h, e)
  {
    var p := i - 1;
    assert Step(c, run[p], moves[p].hart, moves[p].action) == Some(run[p + 1]);
    WindowStep(c, run[p], moves[p].hart, moves[p].action, h, e);
    if moves[p].hart == h && moves[p].action.SwitchTo? {
      k := p;
    } else {
      k := LostFrom(c, run, moves, p, h, e);
    }
  }

  /**
   In every reachable state: an event to deliver is without its flag if and only if the hart
   is still in the window of a change to a domain where that event waited, made with the flag
   down. That it is then without its flag is part of `LostSince`; that there is no other way is
   the result.
   */
  lemma LostJustWhen(c: Config, run: seq<State>, moves: seq<Move>, i: nat, h: nat, e: nat)
    requires IsRun(c, run, moves) && i < |run| && h < c.harts
    ensures Wf(c, run[i])
    ensures e < |run[i].ev| && Due(c, run[i], h, e) && !run[i].kick[h] <==>
            exists k :: LostSince(c, run, moves, k, i, h, e)
  {
    NoEventIsLost(c, run, moves, i);
    if e < |run[i].ev| && Due(c, run[i], h, e) && !run[i].kick[h] {
      assert Switching(run[i].pc[h]) by {
        assert Switching(run[i].pc[h]) || NotLost(c, run[i], h);
      }
      var k := LostFrom(c, run, moves, i, h, e);
    }
  }

  // The exception is real.

  const START := Frame(0, S, false, false, false, U, false, 0, false, false, 0, 0)

  const LONE := Config(1, 2, [Global(1)], [0], {0}, [false], [0], map[0 := 0])

  /** A state of that configuration, where the hart's slots are all as after reset. */
  datatype Lone = Lone(e: Event, seen0: bool, seen1: bool, dom: nat, pc: Pc, kick: bool, ready0: bool, ready1: bool)

  function SlotAt(seen: bool): Slot {
    Slot(false, seen, seen, false, START, [])
  }

  function StateOf(l: Lone): State {
    State([l.e], [[SlotAt(l.seen0)], [SlotAt(l.seen1)]], [l.dom], [l.pc], [l.kick], [l.ready0, l.ready1])
  }

  ghost predicate Goes(l: Lone, a: Action, m: Lone) {
    Step(LONE, StateOf(l), 0, a) == Some(StateOf(m))
  }

  lemma LoneWf(l: Lone)
    requires l.dom < 2 && l.e.hart == 0
    ensures Wf(LONE, StateOf(l))
  {
    assert WfConfig(LONE);
  }

  lemma LoneBegins(l: Lone)
    requires l.dom < 2 && l.e.hart == 0
    ensures var r := Begin(LONE, StateOf(l), 0, START);
            r == StateOf(if l.dom == 0 then l.(seen0 := true, ready0 := true)
                         else l.(seen1 := true, ready1 := true, e := if l.ready1 then l.e else Reset(0, 0)))
  {
    LoneWf(l);
    var r := Begin(LONE, StateOf(l), 0, START);
    if l.dom == 0 {
      assert r.slots[0] == [SlotAt(true)] && r.slots[1] == [SlotAt(l.seen1)];
      assert r.slots == [[SlotAt(true)], [SlotAt(l.seen1)]] && r.ready == [true, l.ready1];
      assert r.ev == [l.e];
    } else {
      assert r.slots[0] == [SlotAt(l.seen0)] && r.slots[1] == [SlotAt(true)];
      assert r.slots == [[SlotAt(l.seen0)], [SlotAt(true)]] && r.ready == [l.ready0, true];
      assert r.ev == [if l.ready1 then l.e else Reset(0, 0)];
    }
  }

  lemma LonePc(l: Lone, pc: Pc, kick: bool)
    requires l.dom < 2 && l.e.hart == 0
    ensures var s := StateOf(l);
            s.(pc := s.pc[0 := pc], kick := s.kick[0 := kick]) == StateOf(l.(pc := pc, kick := kick))
  {
    assert [l.pc][0 := pc] == [pc] && [l.kick][0 := kick] == [kick];
  }

  /** A state that some run gets to. */
  ghost predicate Reached(l: Lone) {
    exists run, moves :: IsRun(LONE, run, moves) && run[|run| - 1] == StateOf(l)
  }

  lemma LoneGoes(l: Lone, a: Action, m: Lone)
    requires Reached(l) && Goes(l, a, m)
    ensures Reached(m)
  {
    var run, moves :| IsRun(LONE, run, moves) && run[|run| - 1] == StateOf(l);
    var run1, moves1 := run + [StateOf(m)], moves + [Move(0, a)];
    forall i | 0 <= i < |moves1|
      ensures Step(LONE, run1[i], moves1[i].hart, moves1[i].action) == Some(run1[i + 1]) {
      assert i < |moves| ==> Step(LONE, run[i], moves[i].hart, moves[i].action) == Some(run[i + 1]);
    }
    assert IsRun(LONE, run1, moves1);
  }

  lemma LoneInit(l: Lone)
    requires l == Lone(Reset(0, 0), false, false, 0, Off, false, false, false)
    ensures Reached(l)
  {
    LoneWf(l);
    assert IsRun(LONE, [StateOf(l)], []);
  }

  lemma LoneBoots(l: Lone)
    requires Reached(l) && l.pc == Off && l.dom == 0 && l.e.hart == 0
    ensures Reached(l.(seen0 := true, ready0 := true, pc := Smode))
  {
    LoneWf(l);
    LoneBegins(l);
    LonePc(l.(seen0 := true, ready0 := true), Smode, l.kick);
    LoneGoes(l, Boot(START), l.(seen0 := true, ready0 := true, pc := Smode));
  }

  lemma LoneEnters(l: Lone)
    requires Reached(l) && l.pc == SwitchIn(true) && l.dom == 1 && !l.ready1 && l.e == Reset(0, 0)
    ensures Reached(l.(seen1 := true, ready1 := true, kick := true, pc := Smode))
  {
    var m := l.(seen1 := true, ready1 := true, pc := SwitchKick);
    LoneWf(l);
    LoneBegins(l);
    LonePc(m.(pc := l.pc), SwitchKick, l.kick);
    LoneGoes(l, Go, m);
    LoneKicks(m);
  }

  lemma LoneReturns(l: Lone)
    requires Reached(l) && l.pc == SwitchIn(false) && l.dom < 2 && l.e.hart == 0
    ensures Reached(l.(kick := true, pc := Smode))
  {
    LoneWf(l);
    LonePc(l, SwitchKick, l.kick);
    LoneGoes(l, Go, l.(pc := SwitchKick));
    LoneKicks(l.(pc := SwitchKick));
  }

  lemma LoneKicks(l: Lone)
    requires Reached(l) && l.pc == SwitchKick && l.dom < 2 && l.e.hart == 0
    ensures Reached(l.(kick := true, pc := Smode))
  {
    LoneWf(l);
    LonePc(l, Smode, true);
    LoneGoes(l, Go, l.(kick := true, pc := Smode));
  }

  lemma LoneSwitches(l: Lone, to: nat, anew: bool)
    requires Reached(l) && l.dom < 2 && l.e.hart == 0 && to < 2 && l.pc == Smode
    requires anew == !(if to == 0 then l.seen0 else l.seen1)
    ensures Reached(l.(dom := to, pc := SwitchIn(anew)))
  {
    LoneWf(l);
    var s := StateOf(l);
    var r := Change(LONE, s, 0, SwitchTo(to, anew, START)).value;
    assert [l.dom][0 := to] == [to] && [l.pc][0 := SwitchIn(anew)] == [SwitchIn(anew)];
    assert r.slots == s.slots by {
      assert r.slots[0] == s.slots[0] && r.slots[1] == s.slots[1];
    }
    LoneGoes(l, SwitchTo(to, anew, START), l.(dom := to, pc := SwitchIn(anew)));
  }

  /** It registers the event, enables it, and makes it pending. */
  lemma LoneEvent(l: Lone)
    requires Reached(l) && l.dom == 1 && l.pc == Smode && l.e == Reset(0, 0) && l.seen1
    ensures Reached(l.(e := l.e.(status := Enabled, pending := true), kick := true))
  {
    var m := l.(e := l.e.(status := Registered));
    var n := l.(e := l.e.(status := Enabled));
    assert Goes(l, Register(0, 0, 0), m) by {
      LoneWf(l);
      assert [l.e][0 := m.e] == [m.e];
    }
    LoneGoes(l, Register(0, 0, 0), m);
    assert Goes(m, Enable(0, {}), n) by {
      LoneWf(m);
      assert [m.e][0 := n.e] == [n.e];
    }
    LoneGoes(m, Enable(0, {}), n);
    LonePends(n);
  }

  lemma LonePends(l: Lone)
    requires Reached(l) && l.dom == 1 && l.pc == Smode && l.e == Reset(0, 0).(status := Enabled)
    ensures Reached(l.(e := l.e.(pending := true), kick := true))
  {
    LoneWf(l);
    var e := l.e.(pending := true);
    assert [l.kick][0 := true] == [true] && [l.e][0 := e] == [e];
    assert Listener(LONE, StateOf(l), 1, {}, 0).None?;
    LoneGoes(l, Inject(0, {}), l.(e := e, kick := true));
  }

  /** In domain 0 there is nothing to deliver. */
  lemma LoneProcesses(l: Lone)
    requires Reached(l) && l.dom == 0 && l.e.hart == 0 && l.pc == Smode && l.kick
    ensures Reached(l.(kick := false))
  {
    var m := l.(pc := Processing);
    LoneWf(l);
    LonePc(l, Processing, l.kick);
    LoneGoes(l, Look, m);
    LoneWf(m);
    assert Top(LONE, StateOf(m), 0, Enabled, 1).None?;
    LonePc(m, Smode, false);
    LoneGoes(m, Go, l.(kick := false));
  }

  function LeftPending(): Lone {
    Lone(Reset(0, 0).(status := Enabled, pending := true), true, true, 1, Smode, true, true, true)
  }

  lemma LoneLeaves()
    ensures Reached(LeftPending())
  {
    var cold := Lone(Reset(0, 0), false, false, 0, Off, false, false, false);
    LoneInit(cold);
    LoneBoots(cold);
    var l := cold.(seen0 := true, ready0 := true, pc := Smode);
    LoneSwitches(l, 1, true);
    LoneEnters(l.(dom := 1, pc := SwitchIn(true)));
    LoneEvent(l.(dom := 1, seen1 := true, ready1 := true, kick := true));
  }

  lemma LoneComesBack()
    ensures Reached(LeftPending().(kick := false, pc := SwitchIn(false)))
  {
    LoneLeaves();
    var n := LeftPending();
    LoneSwitches(n, 0, false);
    LoneReturns(n.(dom := 0, pc := SwitchIn(false)));
    LoneProcesses(n.(dom := 0));
    LoneSwitches(n.(dom := 0, kick := false), 1, false);
  }

  /**
   A hart that left an event pending in a domain changes back to it: until the switch-in
   the event is there and the flag is down.
   */
  lemma SwitchWindow() returns (run: seq<State>, moves: seq<Move>)
    ensures IsRun(LONE, run, moves)
    ensures var s := run[|run| - 1];
            Wf(LONE, s) && s.pc[0] == SwitchIn(false) && Due(LONE, s, 0, 0) && !s.kick[0]
  {
    LoneComesBack();
    var l := LeftPending().(kick := false, pc := SwitchIn(false));
    LoneWf(l);
    run, moves :| IsRun(LONE, run, moves) && run[|run| - 1] == StateOf(l);
  }
}
