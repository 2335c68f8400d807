/**
 Remote fences do not deadlock. As long as every hart keeps running, every entry that
 is ever queued is served and acknowledged, however full the queues are.
 */
module RfenceProgress {
  import opened Options
  import opened RfenceModel
  import opened RfenceCount

  // Signals: a queue with entries is never forgotten.

  ghost predicate SendsOr(s: State, p: nat, t: nat) {
    p < |s| && s[p].task.SendOr? && !s[p].task.retry && s[p].task.todo != [] && s[p].task.todo[0] == t
  }

  ghost predicate SendsRaise(s: State, p: nat, t: nat) {
    p < |s| && s[p].task.SendRaise? && s[p].task.todo != [] && s[p].task.todo[0] == t
  }

  predicate Draining(proc: Proc) {
    proc.Take? || proc.Fence? || proc.Ack?
  }

  ghost predicate QueueSeen(s: State, t: nat)
    requires t < |s|
  {
    s[t].queue != [] ==> s[t].pending || Draining(s[t].proc) || exists p :: SendsOr(s, p, t)
  }

  ghost predicate BitSeen(s: State, t: nat)
    requires t < |s|
  {
    s[t].pending ==> s[t].line || s[t].proc.Swap? || exists p :: SendsRaise(s, p, t)
  }

  predicate Calm(x: Hart) {
    x.task.SendOr? || x.task.SendRaise? ==> x.proc.Quiet?
  }

  ghost predicate Signalled(s: State) {
    forall t :: 0 <= t < |s| ==> QueueSeen(s, t) && BitSeen(s, t) && Calm(s[t])
  }

  /** What a step of another hart does to `x`. */
  ghost predicate Touched(x: Hart, y: Hart) {
    && y.task == x.task && y.proc == x.proc
    && x.queue <= y.queue && (x.pending ==> y.pending) && (x.line ==> y.line)
  }

  lemma OthersTouch(s: State, q: nat, a: Action, r: State, t: nat)
    requires Step(s, q, a) == Some(r) && t < |s| && t != q
    ensures Touched(s[t], r[t])
    ensures r[t].pending && !s[t].pending ==> SendsOrAny(s[q], t) && SendsRaise(r, q, t)
    ensures r[t].queue != s[t].queue ==> SendsOr(r, q, t)
  {
    assert WfHart(|s|, q, s[q]);
  }

  predicate SendsOrAny(x: Hart, t: nat) {
    x.task.SendOr? && x.proc.Quiet? && x.task.todo != [] && x.task.todo[0] == t
  }

  lemma SenderOr(s: State, q: nat, a: Action, r: State, t: nat)
    requires Step(s, q, a) == Some(r) && SendsOr(s, q, t) && s[q].proc.Quiet?
    ensures t < |s| && t != q && r[t].pending && a == Go
  {
    assert WfHart(|s|, q, s[q]);
  }

  lemma SenderRaise(s: State, q: nat, a: Action, r: State, t: nat)
    requires Step(s, q, a) == Some(r) && SendsRaise(s, q, t) && s[q].proc.Quiet?
    ensures t < |s| && t != q && r[t].line && r[t].pending == s[t].pending && a == Go
  {
    assert WfHart(|s|, q, s[q]);
  }

  /** A sender other than the hart that steps is still about to send. */
  lemma SenderStays(s: State, q: nat, a: Action, r: State, p: nat, t: nat)
    requires Step(s, q, a) == Some(r) && p != q
    ensures SendsOr(s, p, t) ==> SendsOr(r, p, t)
    ensures SendsRaise(s, p, t) ==> SendsRaise(r, p, t)
  {
    if p < |s| {
      OthersTouch(s, q, a, r, p);
    }
  }

  /** A hart's own steps, as its own signals see them. */
  lemma OwnStep(s: State, t: nat, a: Action, r: State)
    requires Step(s, t, a) == Some(r) && Calm(s[t])
    ensures Calm(r[t])
    ensures r[t].queue != [] ==> s[t].queue != []
    ensures r[t].pending ==> s[t].pending
    ensures s[t].pending && !r[t].pending ==> Draining(r[t].proc)
    ensures r[t].queue != [] && Draining(s[t].proc) ==> Draining(r[t].proc)
    ensures s[t].line && !r[t].line ==> r[t].proc.Swap?
    ensures r[t].pending && s[t].proc.Swap? ==> false
  {
    assert WfHart(|s|, t, s[t]);
  }

  lemma OwnSeen(s: State, t: nat, a: Action, r: State)
    requires Step(s, t, a) == Some(r) && Calm(s[t]) && QueueSeen(s, t) && BitSeen(s, t)
    requires WfHart(|s|, t, s[t])
    ensures QueueSeen(r, t) && BitSeen(r, t)
  {
    OwnStep(s, t, a, r);
    if p :| SendsOr(s, p, t) {
      assert p != t;
      SenderStays(s, t, a, r, p, t);
    }
    if p :| SendsRaise(s, p, t) {
      assert p != t;
      SenderStays(s, t, a, r, p, t);
    }
  }

  lemma OtherSeen(s: State, q: nat, a: Action, r: State, t: nat)
    requires Step(s, q, a) == Some(r) && t < |s| && t != q
    requires Calm(s[q]) && QueueSeen(s, t) && BitSeen(s, t)
    ensures QueueSeen(r, t) && BitSeen(r, t)
  {
    OthersTouch(s, q, a, r, t);
    if p :| SendsOr(s, p, t) {
      if p == q {
        SenderOr(s, q, a, r, t);
      } else {
        SenderStays(s, q, a, r, p, t);
      }
    }
    if p :| SendsRaise(s, p, t) {
      if p == q {
        SenderRaise(s, q, a, r, t);
      } else {
        SenderStays(s, q, a, r, p, t);
      }
    }
  }

  lemma StepSignalled(s: State, q: nat, a: Action, r: State)
    requires Signalled(s) && Step(s, q, a) == Some(r)
    ensures Signalled(r)
  {
    forall t | 0 <= t < |r| ensures QueueSeen(r, t) && BitSeen(r, t) && Calm(r[t]) {
      assert QueueSeen(s, t) && BitSeen(s, t) && Calm(s[t]) && Calm(s[q]);
      if t == q {
        OwnStep(s, t, a, r);
        OwnSeen(s, t, a, r);
      } else {
        OtherSeen(s, q, a, r, t);
        OthersTouch(s, q, a, r, t);
      }
    }
  }

  // Distance: how far a hart is from serving its queue.

  /** 0: it gets there by itself; 1: once its line is raised; 2: once its bit is set. */
  function Stage(x: Hart): nat {
    if Draining(x.proc) || (x.pending && (x.line || x.proc.Swap?)) then 0
    else if x.pending then 1
    else 2
  }

  /** Its own steps to the next entry, at stage 0. */
  function Dist(x: Hart): nat {
    match x.proc
    case Take(_) => 0
    case Ack(_, _) => 1
    case Fence(_, _) => 2
    case Swap => 3
    case Clear => 4
    case Quiet =>
      match x.task
      case NoTask => 5
      case Wait => 6
      case Enq(todo) => 7 + 3 * |todo|
      case SendOr(todo, retry) => if retry then 6 else 6 + 3 * |todo|
      case SendRaise(todo, retry) => if retry then 5 else 5 + 3 * |todo|
  }

  predicate Serves(x: Hart) {
    x.proc.Take? && x.queue != []
  }

  predicate Nearer(y: Hart, x: Hart) {
    Stage(y) < Stage(x) || (Stage(y) == Stage(x) == 0 && Dist(y) < Dist(x))
  }

  predicate AsNear(y: Hart, x: Hart) {
    Stage(y) == Stage(x) && (Stage(x) == 0 ==> Dist(y) == Dist(x))
  }

  lemma OtherNear(s: State, q: nat, a: Action, r: State, t: nat)
    requires Step(s, q, a) == Some(r) && t < |s| && t != q && s[t].queue != []
    ensures r[t].queue != [] && (Nearer(r[t], s[t]) || AsNear(r[t], s[t]))
  {
    OthersTouch(s, q, a, r, t);
  }

  lemma OwnNear(s: State, t: nat, a: Action, r: State)
    requires Step(s, t, a) == Some(r) && s[t].queue != [] && !Serves(s[t])
    ensures r[t].queue != [] && (Nearer(r[t], s[t]) || AsNear(r[t], s[t]))
    ensures Stage(s[t]) == 0 ==> Nearer(r[t], s[t])
  {
    assert WfHart(|s|, t, s[t]);
  }

  /** The hart whose next step brings `t` nearer. */
  ghost predicate Helps(s: State, p: nat, t: nat)
    requires t < |s|
  {
    if Stage(s[t]) == 0 then p == t
    else if Stage(s[t]) == 1 then SendsRaise(s, p, t)
    else SendsOr(s, p, t)
  }

  lemma HelperExists(s: State, t: nat) returns (p: nat)
    requires t < |s| && QueueSeen(s, t) && BitSeen(s, t) && s[t].queue != []
    ensures p < |s| && Helps(s, p, t)
  {
    if Stage(s[t]) == 0 {
      p := t;
    } else if Stage(s[t]) == 1 {
      p :| SendsRaise(s, p, t);
    } else {
      p :| SendsOr(s, p, t);
    }
  }

  lemma HelperSteps(s: State, p: nat, a: Action, r: State, t: nat)
    requires Step(s, p, a) == Some(r) && t < |s| && Helps(s, p, t) && Calm(s[p])
    requires s[t].queue != [] && !(p == t && Serves(s[t]))
    ensures Nearer(r[t], s[t])
  {
    if Stage(s[t]) == 0 {
      OwnNear(s, t, a, r);
    } else if Stage(s[t]) == 1 {
      SenderRaise(s, p, a, r, t);
      OthersTouch(s, p, a, r, t);
    } else {
      SenderOr(s, p, a, r, t);
      OthersTouch(s, p, a, r, t);
    }
  }

  lemma HelperStays(s: State, q: nat, a: Action, r: State, p: nat, t: nat)
    requires Step(s, q, a) == Some(r) && t < |s| && p != q && Helps(s, p, t)
    requires AsNear(r[t], s[t])
    ensures Helps(r, p, t)
  {
    SenderStays(s, q, a, r, p, t);
  }

  // Runs without end, in which every hart keeps running.

  ghost predicate StepsAfter(mv: nat -> Move, i: nat, h: nat) {
    exists j: nat :: i <= j && mv(j).hart == h
  }

  ghost predicate FairRun(st: nat -> State, mv: nat -> Move) {
    && Init(st(0))
    && (forall i: nat :: Step(st(i), mv(i).hart, mv(i).action) == Some(st(i + 1)))
    && (forall i: nat, h: nat :: h < |st(i)| ==> StepsAfter(mv, i, h))
  }

  lemma {:induction false} RunHolds(st: nat -> State, mv: nat -> Move, i: nat)
    requires FairRun(st, mv)
    ensures Counted(st(i)) && Signalled(st(i)) && |st(i)| == |st(0)|
  {
    if i == 0 {
      InitCounted(st(0));
    } else {
      var k := i - 1;
      RunHolds(st, mv, k);
      assert Step(st(k), mv(k).hart, mv(k).action) == Some(st(k + 1));
      StepCounted(st(k), mv(k).hart, mv(k).action, st(k + 1));
      StepSignalled(st(k), mv(k).hart, mv(k).action, st(k + 1));
    }
  }

  ghost predicate ServesAt(st: nat -> State, mv: nat -> Move, j: nat, t: nat) {
    t < |st(j)| && mv(j).hart == t && mv(j).action == Go && Serves(st(j)[t])
  }

  /** From `i`, where `p` can help, to the first step that helps: at `k` at the latest. */
  lemma {:induction false} Follow(st: nat -> State, mv: nat -> Move, i: nat, k: nat, p: nat, t: nat)
    returns (m: nat)
    requires FairRun(st, mv) && i <= k && mv(k).hart == p
    requires t < |st(i)| && st(i)[t].queue != [] && Helps(st(i), p, t)
    ensures i <= m && |st(m)| == |st(i)|
    ensures ServesAt(st, mv, m, t) || (st(m)[t].queue != [] && Nearer(st(m)[t], st(i)[t]))
    decreases k - i
  {
    RunHolds(st, mv, i);
    RunHolds(st, mv, i + 1);
    var s, q, a, r := st(i), mv(i).hart, mv(i).action, st(i + 1);
    assert Step(s, q, a) == Some(r);
    if q == t && Serves(s[t]) {
      m := i;
    } else {
      if q == t {
        OwnNear(s, t, a, r);
      } else {
        OtherNear(s, q, a, r, t);
      }
      if Nearer(r[t], s[t]) {
        m := i + 1;
      } else {
        if q == p {
          HelperSteps(s, p, a, r, t);
        }
        HelperStays(s, q, a, r, p, t);
        m := Follow(st, mv, i + 1, k, p, t);
      }
    }
  }

  /** A queue with entries is served. */
  lemma {:induction false} QueueIsServed(st: nat -> State, mv: nat -> Move, i: nat, t: nat) returns (j: nat)
    requires FairRun(st, mv) && t < |st(i)| && st(i)[t].queue != []
    ensures i <= j && ServesAt(st, mv, j, t)
    decreases Stage(st(i)[t]), if Stage(st(i)[t]) == 0 then Dist(st(i)[t]) else 0
  {
    RunHolds(st, mv, i);
    var p := HelperExists(st(i), t);
    assert StepsAfter(mv, i, p);
    var k: nat :| i <= k && mv(k).hart == p;
    var m := Follow(st, mv, i, k, p, t);
    if ServesAt(st, mv, m, t) {
      j := m;
    } else {
      j := QueueIsServed(st, mv, m, t);
    }
  }

  // Every entry is acknowledged in its turn, so every count comes down.

  ghost predicate AckAt(st: nat -> State, mv: nat -> Move, j: nat, t: nat) {
    t < |st(j)| && mv(j).hart == t && mv(j).action == Go && st(j)[t].proc.Ack?
  }

  /** A hart serves what it holds in order: it drops the first entry or keeps them all. */
  lemma HeldMoves(s: State, q: nat, a: Action, r: State, t: nat)
    requires Step(s, q, a) == Some(r) && t < |s|
    ensures q == t && s[t].proc.Ack? ==> Held(r[t]) == Held(s[t])[1..]
    ensures !(q == t && s[t].proc.Ack?) ==> Held(s[t]) <= Held(r[t])
  {
    if q != t {
      OthersTouch(s, q, a, r, t);
    } else if s[t].proc.Quiet? {
      TaskHolds(s, t, a, r);
    } else {
      ProcHolds(s, t, a, r);
    }
  }

  lemma TaskHolds(s: State, t: nat, a: Action, r: State)
    requires Step(s, t, a) == Some(r) && s[t].proc.Quiet?
    ensures Held(r[t]) == Held(s[t])
  {
    assert WfHart(|s|, t, s[t]);
  }

  lemma ProcHolds(s: State, t: nat, a: Action, r: State)
    requires Step(s, t, a) == Some(r) && !s[t].proc.Quiet?
    ensures Held(r[t]) == if s[t].proc.Ack? then Held(s[t])[1..] else Held(s[t])
  {
    assert WfHart(|s|, t, s[t]);
  }

  lemma {:induction false} NextOwn(st: nat -> State, mv: nat -> Move, i: nat, k: nat, t: nat) returns (j: nat)
    requires FairRun(st, mv) && i <= k && mv(k).hart == t && t < |st(i)| && !st(i)[t].proc.Quiet?
    ensures i <= j && |st(j)| == |st(i)| && mv(j).hart == t && mv(j).action == Go
    ensures st(j)[t].proc == st(i)[t].proc
    decreases k - i
  {
    assert Step(st(i), mv(i).hart, mv(i).action) == Some(st(i + 1));
    if mv(i).hart == t {
      j := i;
    } else {
      OthersTouch(st(i), mv(i).hart, mv(i).action, st(i + 1), t);
      j := NextOwn(st, mv, i + 1, k, t);
    }
  }

  lemma TakenIsAcked(st: nat -> State, mv: nat -> Move, i: nat, t: nat) returns (j: nat)
    requires FairRun(st, mv) && t < |st(i)| && Taken(st(i)[t].proc).Some?
    ensures i <= j && AckAt(st, mv, j, t)
  {
    assert StepsAfter(mv, i, t);
    var k: nat :| i <= k && mv(k).hart == t;
    j := NextOwn(st, mv, i, k, t);
    if st(i)[t].proc.Fence? {
      assert Step(st(j), t, Go) == Some(st(j + 1));
      assert st(j + 1)[t].proc.Ack?;
      assert StepsAfter(mv, j + 1, t);
      k :| j + 1 <= k && mv(k).hart == t;
      j := NextOwn(st, mv, j + 1, k, t);
    }
  }

  lemma HolderAcks(st: nat -> State, mv: nat -> Move, i: nat, t: nat) returns (j: nat)
    requires FairRun(st, mv) && t < |st(i)| && Held(st(i)[t]) != []
    ensures i <= j && AckAt(st, mv, j, t)
  {
    if Taken(st(i)[t].proc).Some? {
      j := TakenIsAcked(st, mv, i, t);
    } else {
      j := QueueIsServed(st, mv, i, t);
      assert Step(st(j), t, Go) == Some(st(j + 1));
      j := TakenIsAcked(st, mv, j + 1, t);
    }
  }

  lemma {:induction false} FirstAck(st: nat -> State, mv: nat -> Move, i: nat, k: nat, t: nat) returns (j: nat)
    requires FairRun(st, mv) && t < |st(i)| && i <= k && AckAt(st, mv, k, t)
    ensures i <= j && AckAt(st, mv, j, t) && Held(st(i)[t]) <= Held(st(j)[t])
    decreases k - i
  {
    assert Step(st(i), mv(i).hart, mv(i).action) == Some(st(i + 1));
    if mv(i).hart == t && st(i)[t].proc.Ack? {
      j := i;
    } else {
      HeldMoves(st(i), mv(i).hart, mv(i).action, st(i + 1), t);
      j := FirstAck(st, mv, i + 1, k, t);
    }
  }

  /** The n-th entry a hart holds is fenced and acknowledged. */
  lemma {:induction false} EntryIsAcked(st: nat -> State, mv: nat -> Move, i: nat, t: nat, n: nat) returns (j: nat)
    requires FairRun(st, mv) && t < |st(i)| && n < |Held(st(i)[t])|
    ensures i <= j && AckAt(st, mv, j, t) && st(j)[t].proc.entry == Held(st(i)[t])[n]
    decreases n
  {
    var k := HolderAcks(st, mv, i, t);
    j := FirstAck(st, mv, i, k, t);
    if n > 0 {
      assert Step(st(j), t, Go) == Some(st(j + 1));
      HeldMoves(st(j), t, Go, st(j + 1), t);
      j := EntryIsAcked(st, mv, j + 1, t, n - 1);
    }
  }

  lemma WaitStep(s: State, q: nat, a: Action, r: State, h: nat)
    requires Step(s, q, a) == Some(r) && h < |s| && s[h].task.Wait? && s[h].out > 0
    ensures r[h].task.Wait? && r[h].serial == s[h].serial
    ensures r[h].out == if s[q].proc.Ack? && s[q].proc.entry.from == h then s[h].out - 1 else s[h].out
  {
    assert WfHart(|s|, q, s[q]);
  }

  /** The request that `h` waits for at `i` is all acknowledged at `m`. */
  ghost predicate DownAt(st: nat -> State, i: nat, m: nat, h: nat) {
    && i <= m && h < |st(i)| && h < |st(m)|
    && st(m)[h].task.Wait? && st(m)[h].out == 0 && st(m)[h].serial == st(i)[h].serial
  }

  lemma {:induction false} WaitStays(st: nat -> State, mv: nat -> Move, i: nat, k: nat, h: nat) returns (m: nat)
    requires FairRun(st, mv) && i <= k && h < |st(i)| && st(i)[h].task.Wait?
    ensures |st(k)| == |st(i)|
    ensures DownAt(st, i, m, h) ||
               (st(k)[h].task.Wait? && st(k)[h].out <= st(i)[h].out && st(k)[h].serial == st(i)[h].serial)
    decreases k - i
  {
    m := i;
    RunHolds(st, mv, i);
    RunHolds(st, mv, k);
    assert CountOk(st(i), h);
    if st(i)[h].out != 0 && i < k {
      assert Step(st(i), mv(i).hart, mv(i).action) == Some(st(i + 1));
      WaitStep(st(i), mv(i).hart, mv(i).action, st(i + 1), h);
      m := WaitStays(st, mv, i + 1, k, h);
    }
  }

  /** A request that waits gets its count down to zero: every target does its fence. */
  lemma {:induction false} WaitEnds(st: nat -> State, mv: nat -> Move, i: nat, h: nat) returns (m: nat)
    requires FairRun(st, mv) && h < |st(i)| && st(i)[h].task.Wait?
    ensures DownAt(st, i, m, h) && st(m)[h].targets <= st(m)[h].fenced
    decreases st(i)[h].out
  {
    RunHolds(st, mv, i);
    assert CountOk(st(i), h);
    if st(i)[h].out == 0 {
      m := i;
      DoneWhenZero(st(i), h);
    } else {
      var t :| t in Owing(st(i), h);
      var n :| 0 <= n < |Held(st(i)[t])| && Held(st(i)[t])[n].from == h;
      var k := EntryIsAcked(st, mv, i, t, n);
      m := WaitStays(st, mv, i, k, h);
      if DownAt(st, i, m, h) {
        RunHolds(st, mv, m);
        DoneWhenZero(st(m), h);
      } else {
        RunHolds(st, mv, k);
        assert CountOk(st(k), h);
        assert Step(st(k), t, Go) == Some(st(k + 1));
        if st(k)[h].out == 0 {
          assert DownAt(st, i, k, h);
          m := k;
          DoneWhenZero(st(k), h);
        } else {
          WaitStep(st(k), t, Go, st(k + 1), h);
          m := WaitEnds(st, mv, k + 1, h);
        }
      }
    }
  }
}
