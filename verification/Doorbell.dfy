/**
 The doorbell of an RPMI context (rpmi.c): a flag that interrupts raise, and a lock whose
 holder answers for it. An agent is one call: of a client, or of the interrupt handler,
 also nested in another call. A step is one atomic access; `work` is how long a client or
 a drain takes.
 */
module Doorbell {
  import opened Options

  datatype Pc =
    | Idle
    | Acquire                      // context_lock()
    | Holding(work: nat)           // what a client does with the lock
    | TakeFlag                     // context_unlock(): about to swap the flag
    | Draining(work: nat)          // p2a_drain()
    | Release                      // about to let the lock go
    | Recheck                      // about to look at the flag again
    | Retry                        // about to try the lock again
    | RingUp                       // doorbell_irq(): about to raise the flag
    | RingTry                      // about to try the lock

  /** `rings`, `answered`: how many rings there were, and were when the last drain began. */
  datatype State = State(lock: bool, rang: bool, pc: seq<Pc>, rings: nat, answered: nat)

  datatype Action = Call | Ring | Go(work: nat)
  datatype Move = Move(agent: nat, action: Action)

  function At(s: State, p: nat, pc: Pc): State
    requires p < |s.pc|
  {
    s.(pc := s.pc[p := pc])
  }

  function Step(s: State, p: nat, a: Action): Option<State> {
    if p >= |s.pc| then None
    else match a
      case Call => if s.pc[p] == Idle then Some(At(s, p, Acquire)) else None
      case Ring => if s.pc[p] == Idle then Some(At(s, p, RingUp)) else None
      case Go(work) => Some(
        match s.pc[p]
        case Idle => s
        case Acquire => if s.lock then s else At(s, p, Holding(work)).(lock := true)
        case Holding(w) => At(s, p, if w > 0 then Holding(w - 1) else TakeFlag)
        case TakeFlag =>
          if s.rang then At(s, p, Draining(work)).(rang := false, answered := s.rings) else At(s, p, Release)
        case Draining(w) => At(s, p, if w > 0 then Draining(w - 1) else Release)
        case Release => At(s, p, Recheck).(lock := false)
        case Recheck => At(s, p, if s.rang then Retry else Idle)
        case Retry => if s.lock then At(s, p, Idle) else At(s, p, TakeFlag).(lock := true)
        case RingUp => At(s, p, RingTry).(rang := true, rings := s.rings + 1)
        case RingTry => if s.lock then At(s, p, Idle) else At(s, p, TakeFlag).(lock := true))
  }

  predicate Init(s: State) {
    !s.lock && !s.rang && s.rings == s.answered && forall p :: 0 <= p < |s.pc| ==> s.pc[p] == Idle
  }

  // ---- safety -----------------------------------------------------------------------------

  predicate Owns(pc: Pc) {
    pc.Holding? || pc.TakeFlag? || pc.Draining? || pc.Release?
  }

  predicate Trying(pc: Pc) {
    pc.Recheck? || pc.Retry? || pc.RingTry?
  }

  ghost predicate OwnerAt(s: State, p: nat) {
    p < |s.pc| && Owns(s.pc[p])
  }

  ghost predicate TryingAt(s: State, p: nat) {
    p < |s.pc| && Trying(s.pc[p])
  }

  /** The lock has one owner; a ring that nobody can answer for yet has someone about to. */
  ghost predicate Answerable(s: State) {
    && (s.lock <==> exists p :: OwnerAt(s, p))
    && (forall p, q :: OwnerAt(s, p) && OwnerAt(s, q) ==> p == q)
    && (s.rang && !s.lock ==> exists p :: TryingAt(s, p))
    && s.answered <= s.rings
    && (s.answered < s.rings <==> s.rang)
  }

  lemma StepAnswerable(s: State, p: nat, a: Action, r: State)
    requires Answerable(s) && Step(s, p, a) == Some(r)
    ensures Answerable(r)
  {
    OwnersMove(s, p, a, r);
    if OwnerAt(r, p) {
      assert r.lock;
    } else if q :| OwnerAt(s, q) {
      assert q != p ==> OwnerAt(r, q);
    }
    if TryingAt(r, p) {
    } else if q :| TryingAt(s, q) {
      assert q != p ==> TryingAt(r, q);
    }
  }

  /** The step of `p` makes it the owner of a free lock, or leaves it what it was. */
  lemma OwnersMove(s: State, p: nat, a: Action, r: State)
    requires Answerable(s) && Step(s, p, a) == Some(r)
    ensures forall q :: q != p ==> OwnerAt(r, q) == OwnerAt(s, q) && TryingAt(r, q) == TryingAt(s, q)
    ensures OwnerAt(r, p) && !OwnerAt(s, p) ==> !s.lock && r.lock
    ensures OwnerAt(r, p) == OwnerAt(s, p) ==> r.lock == s.lock
    ensures !OwnerAt(r, p) && OwnerAt(s, p) ==> !r.lock && TryingAt(r, p)
    ensures TryingAt(s, p) && !TryingAt(r, p) ==> r.lock || !r.rang
    ensures r.rang && !s.rang ==> TryingAt(r, p)
  {
    if OwnerAt(s, p) {
      assert s.lock;
    }
  }

  ghost predicate IsRun(run: seq<State>, moves: seq<Move>) {
    && |run| == |moves| + 1 && Init(run[0])
    && (forall i :: 0 <= i < |moves| ==> Step(run[i], moves[i].agent, moves[i].action) == Some(run[i + 1]))
  }

  lemma {:induction false} AlwaysAnswerable(run: seq<State>, moves: seq<Move>, i: nat)
    requires IsRun(run, moves) && i < |run|
    ensures Answerable(run[i])
  {
    if i > 0 {
      var k := i - 1;
      AlwaysAnswerable(run, moves, k);
      assert Step(run[k], moves[k].agent, moves[k].action) == Some(run[k + 1]);
      StepAnswerable(run[k], moves[k].agent, moves[k].action, run[k + 1]);
    }
  }

  /** Two agents never drain, or hold the lock in any other way, at the same time. */
  lemma DrainsDoNotOverlap(run: seq<State>, moves: seq<Move>, i: nat, p: nat, q: nat)
    requires IsRun(run, moves) && i < |run| && p < |run[i].pc| && q < |run[i].pc|
    requires Owns(run[i].pc[p]) && Owns(run[i].pc[q])
    ensures p == q
  {
    AlwaysAnswerable(run, moves, i);
    assert OwnerAt(run[i], p) && OwnerAt(run[i], q);
  }

  /** When all calls have returned, no ring is left without a drain that began after it. */
  lemma QuietIsAnswered(run: seq<State>, moves: seq<Move>, i: nat)
    requires IsRun(run, moves) && i < |run|
    requires forall p :: 0 <= p < |run[i].pc| ==> run[i].pc[p] == Idle
    ensures !run[i].rang && !run[i].lock && run[i].answered == run[i].rings
  {
    AlwaysAnswerable(run, moves, i);
  }

  /** A drain begins just for a ring that none has begun after, and answers all there are. */
  lemma DrainsForARing(run: seq<State>, moves: seq<Move>, i: nat, p: nat)
    requires IsRun(run, moves) && i < |moves| && moves[i].agent == p && moves[i].action.Go?
    requires p < |run[i].pc| && run[i].pc[p] == TakeFlag
    ensures |run[i + 1].pc| == |run[i].pc|
    ensures run[i + 1].pc[p].Draining? <==> run[i].answered < run[i].rings
    ensures run[i + 1].answered == run[i + 1].rings == run[i].rings && !run[i + 1].rang
  {
    AlwaysAnswerable(run, moves, i);
    AlwaysAnswerable(run, moves, i + 1);
    assert Step(run[i], moves[i].agent, moves[i].action) == Some(run[i + 1]);
  }

  /** Only a client that wants the lock waits for it; an interrupt that finds it taken is over. */
  lemma OnlyClientsWait(s: State, p: nat, work: nat, r: State)
    requires p < |s.pc| && s.pc[p] != Idle && Step(s, p, Go(work)) == Some(r)
    ensures r.pc[p] == s.pc[p] <==> s.pc[p] == Acquire && s.lock
    ensures (s.pc[p] == RingTry || s.pc[p] == Retry) && s.lock ==> r.pc[p] == Idle
  {
  }

  // ---- every ring is answered ---------------------------------------------------------------

  ghost predicate GoesAfter(mv: nat -> Move, i: nat, p: nat) {
    exists j: nat :: i <= j && mv(j).agent == p && mv(j).action.Go?
  }

  /** A run without end in which every call goes on. */
  ghost predicate FairRun(st: nat -> State, mv: nat -> Move) {
    && Init(st(0))
    && (forall i: nat :: Step(st(i), mv(i).agent, mv(i).action) == Some(st(i + 1)))
    && (forall i: nat, p: nat :: p < |st(i).pc| ==> GoesAfter(mv, i, p))
  }

  lemma {:induction false} FairAnswerable(st: nat -> State, mv: nat -> Move, i: nat)
    requires FairRun(st, mv)
    ensures Answerable(st(i)) && |st(i).pc| == |st(0).pc|
  {
    if i > 0 {
      var k := i - 1;
      FairAnswerable(st, mv, k);
      assert Step(st(k), mv(k).agent, mv(k).action) == Some(st(k + 1));
      StepAnswerable(st(k), mv(k).agent, mv(k).action, st(k + 1));
    }
  }

  /** Step `i` begins a drain, in answer to the flag. */
  ghost predicate DrainsAt(st: nat -> State, mv: nat -> Move, i: nat) {
    var s, p := st(i), mv(i).agent;
    p < |s.pc| && mv(i).action.Go? && s.pc[p] == TakeFlag && s.rang
  }

  lemma FlagStays(s: State, p: nat, a: Action, r: State)
    requires Step(s, p, a) == Some(r) && s.rang && !(s.pc[p] == TakeFlag && a.Go?)
    ensures r.rang
  {
  }

  /** The owner is past its last look at the flag. */
  predicate Late(pc: Pc) {
    pc.Draining? || pc.Release?
  }

  ghost predicate EarlyOwner(s: State, p: nat) {
    OwnerAt(s, p) && !Late(s.pc[p])
  }

  /** Until agent `p`, which is not idle, goes on: it stays where it is, unless a drain begins. */
  lemma {:induction false} Until(st: nat -> State, mv: nat -> Move, i: nat, k: nat, p: nat) returns (m: nat)
    requires FairRun(st, mv) && i <= k && mv(k).agent == p && mv(k).action.Go?
    requires st(i).rang && (OwnerAt(st(i), p) || (!st(i).lock && TryingAt(st(i), p)))
    ensures i <= m && |st(m).pc| == |st(i).pc| && st(m).rang
    ensures DrainsAt(st, mv, m) || (mv(m).agent == p && mv(m).action.Go? && st(m).pc[p] == st(i).pc[p])
            || (!st(i).lock && exists q :: EarlyOwner(st(m), q))
    ensures !st(i).lock ==> DrainsAt(st, mv, m) || !st(m).lock || exists q :: EarlyOwner(st(m), q)
    decreases k - i
  {
    FairAnswerable(st, mv, i);
    FairAnswerable(st, mv, i + 1);
    var s, q, a, r := st(i), mv(i).agent, mv(i).action, st(i + 1);
    assert Step(s, q, a) == Some(r);
    if DrainsAt(st, mv, i) || (q == p && a.Go?) {
      m := i;
    } else {
      FlagStays(s, q, a, r);
      if !s.lock && r.lock {
        OwnersMove(s, q, a, r);
        assert EarlyOwner(r, q);
        m := i + 1;
      } else {
        m := Until(st, mv, i + 1, k, p);
      }
    }
  }

  /** The lock is held by an agent that will look at the flag before it lets go. */
  lemma {:induction false} EarlyOwnerDrains(st: nat -> State, mv: nat -> Move, i: nat, p: nat) returns (j: nat)
    requires FairRun(st, mv) && st(i).rang && EarlyOwner(st(i), p)
    ensures i <= j && DrainsAt(st, mv, j)
    decreases if st(i).pc[p].Holding? then st(i).pc[p].work + 1 else 0
  {
    FairAnswerable(st, mv, i);
    assert GoesAfter(mv, i, p);
    var k: nat :| i <= k && mv(k).agent == p && mv(k).action.Go?;
    var m := Until(st, mv, i, k, p);
    if DrainsAt(st, mv, m) {
      j := m;
    } else {
      assert Step(st(m), p, mv(m).action) == Some(st(m + 1));
      j := EarlyOwnerDrains(st, mv, m + 1, p);
    }
  }

  /** The lock is free, and `p` is about to try it. */
  lemma {:induction false} TryingDrains(st: nat -> State, mv: nat -> Move, i: nat, p: nat) returns (j: nat)
    requires FairRun(st, mv) && st(i).rang && !st(i).lock && TryingAt(st(i), p)
    ensures i <= j && DrainsAt(st, mv, j)
    decreases if st(i).pc[p].Recheck? then 1 else 0
  {
    FairAnswerable(st, mv, i);
    assert GoesAfter(mv, i, p);
    var k: nat :| i <= k && mv(k).agent == p && mv(k).action.Go?;
    var m := Until(st, mv, i, k, p);
    if DrainsAt(st, mv, m) {
      j := m;
    } else if q: nat :| EarlyOwner(st(m), q) {
      j := EarlyOwnerDrains(st, mv, m, q);
    } else {
      assert Step(st(m), p, mv(m).action) == Some(st(m + 1));
      if st(m).pc[p].Recheck? {
        j := TryingDrains(st, mv, m + 1, p);
      } else {
        j := EarlyOwnerDrains(st, mv, m + 1, p);
      }
    }
  }

  lemma {:induction false} LateOwnerDrains(st: nat -> State, mv: nat -> Move, i: nat, p: nat) returns (j: nat)
    requires FairRun(st, mv) && st(i).rang && OwnerAt(st(i), p) && Late(st(i).pc[p])
    ensures i <= j && DrainsAt(st, mv, j)
    decreases if st(i).pc[p].Draining? then st(i).pc[p].work + 1 else 0
  {
    FairAnswerable(st, mv, i);
    assert GoesAfter(mv, i, p);
    var k: nat :| i <= k && mv(k).agent == p && mv(k).action.Go?;
    var m := Until(st, mv, i, k, p);
    if DrainsAt(st, mv, m) {
      j := m;
    } else {
      assert Step(st(m), p, mv(m).action) == Some(st(m + 1));
      if st(m).pc[p].Release? {
        j := TryingDrains(st, mv, m + 1, p);
      } else {
        j := LateOwnerDrains(st, mv, m + 1, p);
      }
    }
  }

  /** Whoever rings in step `i`, a drain begins after it. */
  lemma RingIsAnswered(st: nat -> State, mv: nat -> Move, i: nat) returns (j: nat)
    requires FairRun(st, mv) && st(i + 1).rings > st(i).rings
    ensures i < j && DrainsAt(st, mv, j)
    ensures st(i + 1).rings <= st(j).rings == st(j + 1).answered
  {
    assert Step(st(i), mv(i).agent, mv(i).action) == Some(st(i + 1));
    FairAnswerable(st, mv, i + 1);
    var s := st(i + 1);
    if s.lock {
      var p: nat :| OwnerAt(s, p);
      if Late(s.pc[p]) {
        j := LateOwnerDrains(st, mv, i + 1, p);
      } else {
        j := EarlyOwnerDrains(st, mv, i + 1, p);
      }
    } else {
      var p: nat :| TryingAt(s, p);
      j := TryingDrains(st, mv, i + 1, p);
    }
    RingsGrow(st, mv, i + 1, j);
    assert Step(st(j), mv(j).agent, mv(j).action) == Some(st(j + 1));
  }

  lemma {:induction false} RingsGrow(st: nat -> State, mv: nat -> Move, i: nat, j: nat)
    requires FairRun(st, mv) && i <= j
    ensures st(i).rings <= st(j).rings
    decreases j - i
  {
    if i < j {
      assert Step(st(i), mv(i).agent, mv(i).action) == Some(st(i + 1));
      RingsGrow(st, mv, i + 1, j);
    }
  }
}
