/**
 The sections of sse.c under the event lock, as they work on the tables in place. Each is
 proved to be the function of the model it stands for.
 */
module SseCode {
  import opened Options
  import opened SseModel

  class Monitor {
    const c: Config
    const ev: array<Event>
    const kick: array<bool>
    const ready: array<bool>
    var slots: seq<seq<Slot>>
    var dom: seq<nat>
    var pc: seq<Pc>

    ghost function View(): State
      reads this, ev, kick, ready
    {
      State(ev[..], slots, dom, pc, kick[..], ready[..])
    }

    ghost predicate Valid()
      reads this, ev, kick, ready
    {
      kick != ready && Wf(c, View())
    }

    constructor (c: Config, s: State)
      requires Wf(c, s)
      ensures this.c == c && Valid() && View() == s && fresh(ev) && fresh(kick) && fresh(ready)
    {
      this.c := c;
      ev := new Event[|s.ev|](i requires 0 <= i < |s.ev| => s.ev[i]);
      kick := new bool[|s.kick|](i requires 0 <= i < |s.kick| => s.kick[i]);
      ready := new bool[|s.ready|](i requires 0 <= i < |s.ready| => s.ready[i]);
      slots, dom, pc := s.slots, s.dom, s.pc;
      new;
      assert ev[..] == s.ev && kick[..] == s.kick && ready[..] == s.ready;
    }

    /** top_event(): the event of the hart in state `want` that none other outranks. */
    method TopEvent(h: nat, want: Status) returns (best: Option<nat>)
      requires Valid() && h < c.harts
      ensures best == Top(c, View(), h, want, |View().ev|)
    {
      ghost var s := View();
      best := None;
      for i := 0 to ev.Length
        invariant best == Top(c, s, h, want, i)
      {
        var e := ev[i];
        if Sees(c, dom[h], h, i) && e.status == want && e.hart == h && (want == Enabled ==> e.pending) {
          if best.None? {
            best := Some(i);
          } else {
            var b := ev[best.value];
            if (if e.priority != b.priority then e.priority < b.priority else c.id[i] < c.id[best.value]) {
              best := Some(i);
            }
          }
        }
      }
    }

    /** inject() */
    method InjectEvent(h: nat, i: nat)
      requires Valid() && h < c.harts && i < ev.Length
      modifies this`slots, ev
      ensures Valid() && View() == Deliver(c, old(View()), h, i)
    {
      ghost var was := View();
      var d := dom[h];
      var x := slots[d][h];
      var m := Mode(c.hyp[h], x.dte);
      ev[i] := ev[i].(flags := FlagsOf(m, x.frame), sepc := x.frame.sepc, a6 := x.frame.a6, a7 := x.frame.a7);
      var frame := Handler(m, ev[i], x.frame, c.hartid[h]);
      slots := slots[d := slots[d][h := x.(frame := frame, stack := x.stack + [Item(i, x.frame)])]];
      ev[i] := ev[i].(pending := false, status := Running);
      assert ev[..] == Deliver(c, was, h, i).ev;
    }

    /** sse_process(), under the lock. */
    method ProcessLocked(h: nat)
      requires Valid() && h < c.harts
      modifies this`slots, ev, kick
      ensures Valid() && View() == Process(c, old(View()), h)
    {
      ghost var was := View();
      var next := TopEvent(h, Enabled);
      if next.None? {
        kick[h] := false;
        assert kick[..] == was.kick[h := false];
        return;
      }
      var running := TopEvent(h, Running);
      if slots[dom[h]][h].unmasked && (running.None? || Outrank(next.value, running.value)) {
        InjectEvent(h, next.value);
      }
    }

    /** outranks() */
    predicate Outrank(i: nat, j: nat)
      requires i < ev.Length && j < ev.Length && |c.id| == ev.Length
      reads ev
    {
      if ev[i].priority != ev[j].priority then ev[i].priority < ev[j].priority else c.id[i] < c.id[j]
    }

    /** sse_complete(); false: no event runs, and nothing changes. */
    method CompleteTop(h: nat) returns (ok: bool)
      requires Valid() && h < c.harts
      modifies this`slots, ev, kick
      ensures Valid()
      ensures ok == Complete(c, old(View()), h).Some?
      ensures View() == if ok then Complete(c, old(View()), h).value else old(View())
    {
      ghost var was := View();
      var top := TopEvent(h, Running);
      if top.None? {
        return false;
      }
      var i, d := top.value, dom[h];
      var x := slots[d][h];
      var m := Mode(c.hyp[h], x.dte);
      x := x.(frame := Resumed(m, ev[i], x.frame), stack := if x.stack == [] then [] else x.stack[..|x.stack| - 1]);
      ev[i] := ev[i].(status := if ev[i].oneshot then Registered else Enabled);
      slots := slots[d := slots[d][h := x]];
      kick[h] := true;
      assert ev[..] == Complete(c, was, h).value.ev && kick[..] == Complete(c, was, h).value.kick;
      return true;
    }

    /** global_target(), its search: whoever listens in the domain, from hart 0 on. */
    method FindListener(d: nat, running: set<nat>) returns (r: Option<nat>)
      requires Valid() && d < c.doms
      ensures r == Listener(c, View(), d, running, 0)
    {
      ghost var s := View();
      var h := 0;
      while h < c.harts
        invariant h <= c.harts && Listener(c, s, d, running, 0) == Listener(c, s, d, running, h)
      {
        if slots[d][h].unmasked && h in running {
          return Some(h);
        }
        h := h + 1;
      }
      return None;
    }

    /** global_target() */
    method GlobalTarget(self: nat, i: nat, d: nat, running: set<nat>) returns (t: nat)
      requires Valid() && self < c.harts && i < ev.Length && d < c.doms
      ensures t == Target(c, View(), self, i, d, running)
    {
      var known := ev[i].preferred in c.index;
      if known {
        t := c.index[ev[i].preferred];
        if slots[d][t].unmasked && t in running {
          return;
        }
      }
      if slots[d][self].unmasked && self in running {
        return self;
      }
      var other := FindListener(d, running);
      if other.Some? {
        return other.value;
      }
      if known {
        return c.index[ev[i].preferred];
      }
      return if d == dom[self] then self else ev[i].hart;
    }

    /** make_pending() */
    method SetPending(self: nat, i: nat, d: nat, running: set<nat>)
      requires Valid() && self < c.harts && i < ev.Length && d < c.doms
      modifies ev, kick
      ensures Valid() && View() == MakePending(c, old(View()), self, i, d, running)
    {
      ghost var was := View();
      var target := ev[i].hart;
      if c.home[i].Global? && ev[i].status != Running {
        target := GlobalTarget(self, i, d, running);
      }
      ev[i] := ev[i].(pending := true);
      ev[i] := ev[i].(hart := target);
      kick[target] := true;
      ghost var r := MakePending(c, was, self, i, d, running);
      assert ev[..] == r.ev && kick[..] == r.kick;
    }

    /** sse_hart_init(), under the lock: the loops over the hart's and the domain's events. */
    method ResetEvents(h: nat)
      requires Valid() && h < c.harts
      modifies ev, ready
      ensures Valid() && View() == InitEvents(c, old(View()), h)
    {
      ghost var was := View();
      var d := dom[h];
      for i := 0 to ev.Length
        invariant ready[..] == was.ready
        invariant forall j :: 0 <= j < i ==> ev[j] == InitEvents(c, was, h).ev[j]
        invariant forall j :: i <= j < ev.Length ==> ev[j] == was.ev[j]
      {
        if c.home[i] == Local(d, h) || (c.home[i] == Global(d) && !ready[d]) {
          ev[i] := Reset(h, c.hartid[h]);
        }
      }
      ready[d] := true;
      assert ev[..] == InitEvents(c, was, h).ev && ready[..] == InitEvents(c, was, h).ready;
    }
  }
}
