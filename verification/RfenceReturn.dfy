/**
 Remote fences end. If harts stop starting new requests, every request under way returns,
 also one that full queues keep out.
 */
module RfenceReturn {
  import opened Options
  import opened RfenceModel
  import opened RfenceCount
  import opened RfenceProgress

  // ---- work: what is still to be queued and to be acknowledged --------------------------------

  ghost function Work(x: Hart): nat {
    2 * |Remaining(x.task)| + |Held(x)|
  }

  ghost function Total(s: State): nat {
    if s == [] then 0 else Total(s[..|s| - 1]) + Work(s[|s| - 1])
  }

  lemma {:induction false} TotalUpdate(s: State, i: nat, x: Hart)
    requires i < |s|
    ensures Total(s[i := x]) == Total(s) - Work(s[i]) + Work(x)
  {
    var n := |s| - 1;
    if i < n {
      TotalUpdate(s[..n], i, x);
      assert s[i := x][..n] == s[..n][i := x];
    } else {
      assert s[i := x][..n] == s[..n];
    }
  }

  /** A step adds no work; and unless it does some, harts hold as many entries as they did. */
  ghost predicate Works(s: State, r: State) {
    && |r| == |s|
    && (Total(r) < Total(s) || (Total(r) == Total(s) && forall t :: 0 <= t < |s| ==> |Held(r[t])| == |Held(s[t])|))
  }

  lemma {:induction false} SameTotal(s: State, r: State)
    requires |r| == |s| && forall t :: 0 <= t < |s| ==> Work(r[t]) == Work(s[t])
    ensures Total(r) == Total(s)
  {
    var n := |s| - 1;
    if s != [] {
      assert forall t :: 0 <= t < n ==> r[..n][t] == r[t] && s[..n][t] == s[t];
      SameTotal(s[..n], r[..n]);
    }
  }

  lemma {:induction false} KeptWorks(s: State, r: State)
    requires AllKept(s, r)
    ensures Works(s, r)
  {
    forall t | 0 <= t < |s| ensures Work(r[t]) == Work(s[t]) && |Held(r[t])| == |Held(s[t])| {
      assert Kept(s[t], r[t]);
    }
    SameTotal(s, r);
  }

  /** An entry is queued: two for it are off its request, and one is on its target. */
  lemma {:induction false} EnqueuedWorks(s: State, r: State, p: nat, t: nat)
    requires Enqueued(s, r, p, t)
    ensures Works(s, r) && Total(r) < Total(s)
  {
    EnqueuedHeld(s, r, p, t);
    var m := s[t := r[t]];
    TotalUpdate(s, t, r[t]);
    TotalUpdate(m, p, r[p]);
    assert m[p := r[p]] == r;
  }

  lemma {:induction false} AckedWorks(s: State, r: State, t: nat, h: nat)
    requires Acked(s, r, t, h) && HeldOk(s, t)
    ensures Works(s, r) && Total(r) < Total(s)
  {
    AckedHeld(s, r, t, h);
    var m := s[h := r[h]];
    TotalUpdate(s, h, r[h]);
    TotalUpdate(m, t, r[t]);
    assert m[t := r[t]] == r;
  }

  /** A request returns: nothing was left of it. */
  lemma {:induction false} ReturnWorks(s: State, r: State, p: nat)
    requires p < |s| && s[p].task.Wait? && r == s[p := s[p].(task := NoTask)]
    ensures Works(s, r)
  {
    TotalUpdate(s, p, r[p]);
  }

  predicate Enqueues(s: State, h: nat)
    requires Wf(s) && h < |s|
  {
    assert WfHart(|s|, h, s[h]);
    s[h].proc.Quiet? && s[h].task.Enq? && s[h].task.todo != [] && |s[s[h].task.todo[0]].queue| < QUEUE_LEN
  }

  lemma {:induction false} StepWorks(s: State, h: nat, r: State)
    requires Counted(s) && Step(s, h, Go) == Some(r)
    ensures Works(s, r)
    ensures s[h].proc.Ack? || Enqueues(s, h) ==> Total(r) < Total(s)
  {
    var x := s[h];
    assert WfHart(|s|, h, x);
    if x.proc.Ack? {
      assert HeldOk(s, h);
      assert EntryOk(s, h, Held(x)[0]);
      AckedWorks(s, r, h, x.proc.entry.from);
    } else if Enqueues(s, h) {
      EnqueuedWorks(s, r, h, x.task.todo[0]);
    } else if x.proc.Quiet? && x.task.Wait? && x.out == 0 {
      ReturnWorks(s, r, h);
    } else {
      forall t | 0 <= t < |r| ensures Kept(s[t], r[t]) {
        assert AckOk(s, t);
        if x.proc.Quiet? {
          TaskKept(s, h, r, t);
        } else {
          ProcKept(s, h, r, t);
        }
      }
      KeptWorks(s, r);
    }
  }

  // ---- a hart on its way out, when nobody holds anything ----------------------------------------

  ghost predicate NoneHeld(s: State) {
    forall t :: 0 <= t < |s| ==> Held(s[t]) == []
  }

  /** Its own steps to the end of its request, if it can queue what it has to. */
  function ToGo(x: Hart): nat {
    (match x.proc
     case Take(more) => if more then 4 else 1
     case Swap => 2
     case Clear => 3
     case _ => 0)
    + (match x.task
       case NoTask => 0
       case Wait => 1
       case Enq(_) => 2
       case SendRaise(_, retry) => if retry then 6 else 3
       case SendOr(_, retry) => if retry then 7 else 4)
  }

  lemma {:induction false} OwnCloser(s: State, h: nat, r: State)
    requires Counted(s) && Step(s, h, Go) == Some(r) && Calm(s[h]) && NoneHeld(s) && !s[h].task.NoTask?
    ensures Total(r) < Total(s) || ToGo(r[h]) < ToGo(s[h])
  {
    assert Held(s[h]) == [];
    StepWorks(s, h, r);
    if s[h].task.Wait? {
      assert CountOk(s, h);
      assert Owing(s, h) == {};
    }
    if !Enqueues(s, h) {
      FreeToGo(s, h, r);
    }
  }

  lemma {:induction false} FreeToGo(s: State, h: nat, r: State)
    requires Step(s, h, Go) == Some(r) && Calm(s[h]) && NoneHeld(s) && !s[h].task.NoTask? && !Enqueues(s, h)
    requires s[h].task.Wait? ==> s[h].out == 0
    ensures ToGo(r[h]) < ToGo(s[h])
  {
    assert WfHart(|s|, h, s[h]) && Held(s[h]) == [];
    if s[h].task.Enq? && s[h].task.todo != [] {
      assert Held(s[s[h].task.todo[0]]) == [];
    }
  }

  // ---- runs without end in which requests are no longer started -------------------------------------

  ghost predicate GoFrom(mv: nat -> Move, n: nat) {
    forall j: nat :: n <= j ==> mv(j).action == Go
  }

  lemma {:induction false} TotalFalls(st: nat -> State, mv: nat -> Move, i: nat, k: nat)
    requires FairRun(st, mv) && GoFrom(mv, i) && i <= k
    ensures Total(st(k)) <= Total(st(i))
    decreases k - i
  {
    if i < k {
      RunHolds(st, mv, i);
      assert Step(st(i), mv(i).hart, Go) == Some(st(i + 1));
      StepWorks(st(i), mv(i).hart, st(i + 1));
      TotalFalls(st, mv, i + 1, k);
    }
  }

  /** The next step of `h`, which is at `k` at the latest, unless work is done before. */
  lemma {:induction false} NextStep(st: nat -> State, mv: nat -> Move, i: nat, k: nat, h: nat) returns (j: nat)
    requires FairRun(st, mv) && GoFrom(mv, i) && i <= k && mv(k).hart == h && h < |st(i)| && NoneHeld(st(i))
    ensures i <= j && |st(j)| == |st(i)|
    ensures || Total(st(j)) < Total(st(i))
            || (mv(j).hart == h && Total(st(j)) == Total(st(i)) && NoneHeld(st(j))
                && st(j)[h].task == st(i)[h].task && st(j)[h].proc == st(i)[h].proc)
    decreases k - i
  {
    RunHolds(st, mv, i);
    RunHolds(st, mv, i + 1);
    if mv(i).hart == h {
      j := i;
    } else {
      var s, q, r := st(i), mv(i).hart, st(i + 1);
      assert Step(s, q, Go) == Some(r);
      StepWorks(s, q, r);
      OthersTouch(s, q, Go, r, h);
      if Total(r) < Total(s) {
        j := i + 1;
      } else {
        forall t | 0 <= t < |r| ensures Held(r[t]) == [] {
          assert |Held(r[t])| == |Held(s[t])|;
        }
        j := NextStep(st, mv, i + 1, k, h);
      }
    }
  }

  /** The request of `h`, if it is in one, is over. */
  lemma {:induction false} TaskEnds(st: nat -> State, mv: nat -> Move, i: nat, h: nat) returns (j: nat)
    requires FairRun(st, mv) && GoFrom(mv, i) && h < |st(i)|
    ensures i <= j && h < |st(j)| && st(j)[h].task.NoTask?
    decreases Total(st(i)), ToGo(st(i)[h])
  {
    RunHolds(st, mv, i);
    if st(i)[h].task.NoTask? {
      j := i;
    } else if !NoneHeld(st(i)) {
      var t :| 0 <= t < |st(i)| && Held(st(i)[t]) != [];
      var k := HolderAcks(st, mv, i, t);
      RunHolds(st, mv, k);
      RunHolds(st, mv, k + 1);
      TotalFalls(st, mv, i, k);
      assert Step(st(k), t, Go) == Some(st(k + 1));
      StepWorks(st(k), t, st(k + 1));
      j := TaskEnds(st, mv, k + 1, h);
    } else {
      assert StepsAfter(mv, i, h);
      var k: nat :| i <= k && mv(k).hart == h;
      var m := NextStep(st, mv, i, k, h);
      if Total(st(m)) < Total(st(i)) {
        j := TaskEnds(st, mv, m, h);
      } else {
        OwnEnds(st, mv, m, h);
        j := TaskEnds(st, mv, m + 1, h);
      }
    }
  }

  lemma {:induction false} OwnEnds(st: nat -> State, mv: nat -> Move, m: nat, h: nat)
    requires FairRun(st, mv) && GoFrom(mv, m) && h < |st(m)| && mv(m).hart == h
    requires NoneHeld(st(m)) && !st(m)[h].task.NoTask?
    ensures |st(m + 1)| == |st(m)|
    ensures Total(st(m + 1)) < Total(st(m)) || (Total(st(m + 1)) == Total(st(m)) && ToGo(st(m + 1)[h]) < ToGo(st(m)[h]))
  {
    RunHolds(st, mv, m);
    RunHolds(st, mv, m + 1);
    assert Step(st(m), h, Go) == Some(st(m + 1));
    assert Calm(st(m)[h]);
    StepWorks(st(m), h, st(m + 1));
    OwnCloser(st(m), h, st(m + 1));
  }

  /** The request that `h` is in at `i` returns in step `j`. */
  ghost predicate ReturnsAt(st: nat -> State, mv: nat -> Move, i: nat, j: nat, h: nat) {
    && i <= j && h < |st(i)| && h < |st(j)| && h < |st(j + 1)| && mv(j).hart == h
    && !st(j)[h].task.NoTask? && st(j + 1)[h].task.NoTask? && st(j)[h].serial == st(i)[h].serial
  }

  lemma {:induction false} FirstReturn(st: nat -> State, mv: nat -> Move, i: nat, k: nat, h: nat) returns (j: nat)
    requires FairRun(st, mv) && i <= k && h < |st(i)| && h < |st(k)| && !st(i)[h].task.NoTask? && st(k)[h].task.NoTask?
    ensures ReturnsAt(st, mv, i, j, h)
    decreases k - i
  {
    RunHolds(st, mv, i);
    RunHolds(st, mv, i + 1);
    var s, q, a, r := st(i), mv(i).hart, mv(i).action, st(i + 1);
    assert Step(s, q, a) == Some(r);
    TaskStays(s, q, a, r, h);
    if r[h].task.NoTask? {
      j := i;
    } else {
      j := FirstReturn(st, mv, i + 1, k, h);
    }
  }

  lemma TaskStays(s: State, q: nat, a: Action, r: State, h: nat)
    requires Step(s, q, a) == Some(r) && h < |s| && !s[h].task.NoTask?
    ensures r[h].serial == s[h].serial && (r[h].task.NoTask? ==> q == h)
  {
    assert WfHart(|s|, q, s[q]);
  }

  /**
   If requests are started up to step `n` only, every request returns: each target has done
   its fence by then, and no entry of it is left.
   */
  lemma RequestReturns(st: nat -> State, mv: nat -> Move, n: nat, i: nat, h: nat) returns (j: nat)
    requires FairRun(st, mv) && GoFrom(mv, n) && h < |st(i)| && !st(i)[h].task.NoTask?
    ensures ReturnsAt(st, mv, i, j, h)
    ensures st(j)[h].targets <= st(j)[h].fenced && forall t :: 0 <= t < |st(j)| ==> !Owes(st(j)[t], h)
  {
    var from := if i < n then n else i;
    RunHolds(st, mv, i);
    RunHolds(st, mv, from);
    var k := TaskEnds(st, mv, from, h);
    j := FirstReturn(st, mv, i, k, h);
    RunHolds(st, mv, j);
    assert Step(st(j), mv(j).hart, mv(j).action) == Some(st(j + 1));
    ReturnIsAtZero(st(j), h, mv(j).action, st(j + 1), h);
    DoneWhenZero(st(j), h);
  }
}
