/**
 A requester's count is what harts still owe it, in every interleaving. So when
 rfence_request() returns, every target has fenced and no queue points at its count.
 */
module RfenceCount {
  import opened Options
  import opened RfenceModel

  datatype Move = Move(hart: nat, action: Action)

  ghost predicate IsRun(run: seq<State>, moves: seq<Move>) {
    && |run| == |moves| + 1
    && Init(run[0])
    && (forall i :: 0 <= i < |moves| ==> Step(run[i], moves[i].hart, moves[i].action) == Some(run[i + 1]))
  }

  /** What a hart holds: the entry it took and has not acknowledged, then its queue. */
  ghost function Held(x: Hart): seq<Entry> {
    if Taken(x.proc).Some? then [Taken(x.proc).value] + x.queue else x.queue
  }

  ghost predicate Owes(x: Hart, h: nat) {
    exists i :: 0 <= i < |Held(x)| && Held(x)[i].from == h
  }

  /** The harts that hold an entry of `h`. */
  ghost function Owing(s: State, h: nat): set<nat> {
    set t | 0 <= t < |s| && Owes(s[t], h)
  }

  /** The targets a request has not enqueued on yet. */
  function Remaining(task: Task): seq<nat> {
    match task
    case Enq(todo) => todo
    case SendOr(todo, retry) => if retry || todo == [] then todo else todo[1..]
    case SendRaise(todo, retry) => if retry || todo == [] then todo else todo[1..]
    case _ => []
  }

  ghost predicate EntryOk(s: State, t: nat, e: Entry) {
    && e.from < |s| && e.from != t
    && !s[e.from].task.NoTask?
    && e.serial == s[e.from].serial && e.req == s[e.from].req
  }

  /** What `t` holds is of requests under way, at most one entry each. */
  ghost predicate HeldOk(s: State, t: nat)
    requires t < |s|
  {
    var held := Held(s[t]);
    && (forall i :: 0 <= i < |held| ==> EntryOk(s, t, held[i]))
    && (forall i, j :: 0 <= i < j < |held| ==> held[i].from != held[j].from)
  }

  ghost predicate AckOk(s: State, t: nat)
    requires t < |s|
  {
    s[t].proc.Ack? && s[t].proc.entry.from < |s| ==> t in s[s[t].proc.entry.from].fenced
  }

  ghost predicate ReqOk(s: State, h: nat)
    requires h < |s|
  {
    var x := s[h];
    !x.task.NoTask? ==>
      && (forall t :: t in x.targets && t != h ==> t < |s|)
      && (forall t :: t in x.targets && t != h && t !in x.fenced && !Owes(s[t], h) ==> t in Remaining(x.task))
      && (forall i :: 0 <= i < |Remaining(x.task)| ==>
           Remaining(x.task)[i] < |s| && !Owes(s[Remaining(x.task)[i]], h))
      && SelfOk(s, h)
  }

  ghost predicate SelfOk(s: State, h: nat)
    requires h < |s|
  {
    s[h].task.Wait? && h in s[h].targets ==> h in s[h].fenced
  }

  ghost predicate CountOk(s: State, h: nat)
    requires h < |s|
  {
    !s[h].task.NoTask? ==> s[h].out == |Owing(s, h)|
  }

  ghost predicate Counted(s: State) {
    && Wf(s)
    && (forall t :: 0 <= t < |s| ==> HeldOk(s, t))
    && (forall t :: 0 <= t < |s| ==> AckOk(s, t))
    && (forall h :: 0 <= h < |s| ==> ReqOk(s, h))
    && (forall h :: 0 <= h < |s| ==> CountOk(s, h))
  }

  // Steps that enqueue, acknowledge, start and return nothing.

  ghost predicate Kept(x: Hart, y: Hart) {
    && Held(y) == Held(x) && y.out == x.out && y.serial == x.serial && y.req == x.req
    && y.targets == x.targets && x.fenced <= y.fenced
    && Remaining(y.task) == Remaining(x.task) && y.task.NoTask? == x.task.NoTask?
  }

  ghost predicate AllKept(s: State, r: State) {
    |r| == |s| && forall t :: 0 <= t < |s| ==> Kept(s[t], r[t])
  }

  lemma KeptOwing(s: State, r: State, h: nat)
    requires |r| == |s| && forall t :: 0 <= t < |s| ==> Held(r[t]) == Held(s[t])
    ensures Owing(r, h) == Owing(s, h)
  {
    forall t | 0 <= t < |s| ensures Owes(r[t], h) == Owes(s[t], h) {
      assert Held(r[t]) == Held(s[t]);
    }
  }

  lemma KeptCounted(s: State, r: State)
    requires Counted(s) && AllKept(s, r) && Wf(r)
    requires forall t :: 0 <= t < |r| ==> AckOk(r, t)
    requires forall h :: 0 <= h < |r| ==> SelfOk(r, h)
    ensures Counted(r)
  {
    forall t | 0 <= t < |r| ensures HeldOk(r, t) {
      assert HeldOk(s, t) && Kept(s[t], r[t]);
      forall i | 0 <= i < |Held(r[t])| ensures EntryOk(r, t, Held(r[t])[i]) {
        assert EntryOk(s, t, Held(s[t])[i]);
        assert Kept(s[Held(s[t])[i].from], r[Held(s[t])[i].from]);
      }
    }
    forall h | 0 <= h < |r| ensures ReqOk(r, h) && CountOk(r, h) {
      assert ReqOk(s, h) && CountOk(s, h) && Kept(s[h], r[h]);
      KeptOwing(s, r, h);
      forall t | 0 <= t < |s| ensures Owes(r[t], h) == Owes(s[t], h) {
        assert Kept(s[t], r[t]);
      }
    }
  }

  lemma OwingMore(s: State, r: State, h: nat, t: nat)
    requires |r| == |s| && t < |s| && !Owes(s[t], h) && Owes(r[t], h)
    requires forall u :: 0 <= u < |s| && u != t ==> Owes(r[u], h) == Owes(s[u], h)
    ensures |Owing(r, h)| == |Owing(s, h)| + 1
  {
    assert Owing(r, h) == Owing(s, h) + {t};
  }

  // An entry is queued.

  ghost predicate Enqueued(s: State, r: State, p: nat, t: nat) {
    && |r| == |s| && p < |s| && t < |s| && t != p
    && s[p].task.Enq? && s[p].task.todo != [] && s[p].task.todo[0] == t
    && r == s[t := s[t].(queue := s[t].queue + [Entry(p, s[p].serial, s[p].req)])]
             [p := s[p].(out := s[p].out + 1, task := SendOr(s[p].task.todo, false))]
  }

  lemma EnqueuedHeld(s: State, r: State, p: nat, t: nat)
    requires Enqueued(s, r, p, t)
    ensures Held(r[t]) == Held(s[t]) + [Entry(p, s[p].serial, s[p].req)]
    ensures forall u :: 0 <= u < |s| && u != t ==> Held(r[u]) == Held(s[u])
    ensures Owes(r[t], p)
    ensures forall h :: h != p ==> Owes(r[t], h) == Owes(s[t], h)
  {
    var e := Entry(p, s[p].serial, s[p].req);
    var was, now := Held(s[t]), Held(r[t]);
    assert now == was + [e];
    assert now[|now| - 1].from == p;
    forall h | h != p ensures Owes(r[t], h) == Owes(s[t], h) {
      if Owes(s[t], h) {
        var i :| 0 <= i < |was| && was[i].from == h;
        assert now[i].from == h;
      }
    }
  }

  lemma EnqueuedHeldOk(s: State, r: State, p: nat, t: nat, u: nat)
    requires Enqueued(s, r, p, t) && !Owes(s[t], p) && u < |s| && HeldOk(s, u)
    ensures HeldOk(r, u)
  {
    EnqueuedHeld(s, r, p, t);
    forall i | 0 <= i < |Held(s[u])| ensures EntryOk(r, u, Held(s[u])[i]) {
      assert EntryOk(s, u, Held(s[u])[i]);
    }
  }

  lemma EnqueuedOther(s: State, r: State, p: nat, t: nat, h: nat)
    requires Enqueued(s, r, p, t) && h < |s| && h != p && ReqOk(s, h) && CountOk(s, h)
    ensures ReqOk(r, h) && CountOk(r, h)
  {
    EnqueuedHeld(s, r, p, t);
    assert forall u :: 0 <= u < |s| ==> Owes(r[u], h) == Owes(s[u], h);
    assert Owing(r, h) == Owing(s, h);
  }

  lemma EnqueuedCounted(s: State, r: State, p: nat, t: nat)
    requires Counted(s) && Enqueued(s, r, p, t) && Wf(r)
    ensures Counted(r)
  {
    assert ReqOk(s, p);
    assert Remaining(s[p].task)[0] == t;
    forall u | 0 <= u < |r| ensures HeldOk(r, u) && AckOk(r, u) && ReqOk(r, u) && CountOk(r, u) {
      assert HeldOk(s, u) && AckOk(s, u) && ReqOk(s, u) && CountOk(s, u);
      EnqueuedHeldOk(s, r, p, t, u);
      if u != p {
        EnqueuedOther(s, r, p, t, u);
      } else {
        EnqueuedHeld(s, r, p, t);
        EnqueuedCount(s, r, p, t);
        EnqueuedReq(s, r, p, t);
      }
    }
  }

  lemma EnqueuedCount(s: State, r: State, p: nat, t: nat)
    requires Enqueued(s, r, p, t) && !Owes(s[t], p) && CountOk(s, p)
    ensures CountOk(r, p)
    ensures forall u :: 0 <= u < |s| && u != t ==> Owes(r[u], p) == Owes(s[u], p)
  {
    EnqueuedHeld(s, r, p, t);
    OwingMore(s, r, p, t);
  }

  lemma EnqueuedReq(s: State, r: State, p: nat, t: nat)
    requires Enqueued(s, r, p, t) && WfHart(|s|, p, s[p]) && ReqOk(s, p)
    requires Owes(r[t], p) && forall u :: 0 <= u < |s| && u != t ==> Owes(r[u], p) == Owes(s[u], p)
    ensures ReqOk(r, p)
  {
    var todo, now := s[p].task.todo, Remaining(r[p].task);
    assert now == todo[1..];
    forall i | 0 <= i < |now| ensures now[i] < |r| && !Owes(r[now[i]], p) {
      assert now[i] == todo[i + 1] == Remaining(s[p].task)[i + 1];
    }
    forall u | u in r[p].targets && u != p && u !in r[p].fenced && !Owes(r[u], p)
      ensures u in now {
      assert u in todo && u != todo[0];
    }
  }

  // An entry is acknowledged.

  ghost predicate Acked(s: State, r: State, t: nat, h: nat) {
    && |r| == |s| && h < |s| && t < |s| && t != h
    && s[t].proc.Ack? && s[t].proc.entry.from == h
    && r == s[h := s[h].(out := s[h].out - 1)][t := s[t].(proc := Take(s[t].proc.more))]
  }

  lemma AckedHeld(s: State, r: State, t: nat, h: nat)
    requires Acked(s, r, t, h) && HeldOk(s, t)
    ensures Held(r[t]) == Held(s[t])[1..]
    ensures forall u :: 0 <= u < |s| && u != t ==> Held(r[u]) == Held(s[u])
    ensures Owes(s[t], h) && !Owes(r[t], h)
    ensures forall g :: g != h ==> Owes(r[t], g) == Owes(s[t], g)
  {
    var was, now := Held(s[t]), Held(r[t]);
    assert now == was[1..] && was[0].from == h;
    forall g | g != h ensures Owes(r[t], g) == Owes(s[t], g) {
      if Owes(s[t], g) {
        var i :| 0 <= i < |was| && was[i].from == g;
        assert now[i - 1].from == g;
      }
    }
  }

  lemma AckedHeldOk(s: State, r: State, t: nat, h: nat, u: nat)
    requires Acked(s, r, t, h) && HeldOk(s, t) && u < |s| && HeldOk(s, u)
    ensures HeldOk(r, u)
  {
    AckedHeld(s, r, t, h);
    forall i | 0 <= i < |Held(s[u])| ensures EntryOk(r, u, Held(s[u])[i]) {
      assert EntryOk(s, u, Held(s[u])[i]);
    }
  }

  lemma AckedReq(s: State, r: State, t: nat, h: nat, g: nat)
    requires Acked(s, r, t, h) && HeldOk(s, t) && AckOk(s, t)
    requires g < |s| && ReqOk(s, g) && CountOk(s, g)
    ensures ReqOk(r, g) && CountOk(r, g)
  {
    AckedHeld(s, r, t, h);
    if g == h {
      assert EntryOk(s, t, Held(s[t])[0]);
      assert forall u :: 0 <= u < |s| && u != t ==> Owes(r[u], h) == Owes(s[u], h);
      OwingMore(r, s, h, t);
    } else {
      assert forall u :: 0 <= u < |s| ==> Owes(r[u], g) == Owes(s[u], g);
      assert Owing(r, g) == Owing(s, g);
    }
  }

  lemma AckedCounted(s: State, r: State, t: nat, h: nat)
    requires Counted(s) && Acked(s, r, t, h) && Wf(r)
    ensures Counted(r)
  {
    assert HeldOk(s, t) && AckOk(s, t);
    forall u | 0 <= u < |r| ensures HeldOk(r, u) && AckOk(r, u) && ReqOk(r, u) && CountOk(r, u) {
      assert HeldOk(s, u) && AckOk(s, u) && ReqOk(s, u) && CountOk(s, u);
      AckedHeldOk(s, r, t, h, u);
      AckedReq(s, r, t, h, u);
    }
  }

  // A request starts, and returns.

  /** Nobody holds an entry of a hart that has no request. */
  lemma IdleOwedNothing(s: State, h: nat)
    requires h < |s| && s[h].task.NoTask?
    requires forall t :: 0 <= t < |s| ==> HeldOk(s, t)
    ensures Owing(s, h) == {}
    ensures forall t :: 0 <= t < |s| ==> !Owes(s[t], h)
  {
    forall t | 0 <= t < |s| ensures !Owes(s[t], h) {
      assert HeldOk(s, t);
      forall i | 0 <= i < |Held(s[t])| ensures Held(s[t])[i].from != h {
        assert EntryOk(s, t, Held(s[t])[i]);
      }
    }
  }

  ghost predicate Renewed(s: State, r: State, p: nat) {
    && |r| == |s| && p < |s|
    && (forall h :: 0 <= h < |s| && h != p ==> r[h] == s[h])
    && Held(r[p]) == Held(s[p]) && r[p].proc == s[p].proc
    && (forall t :: 0 <= t < |s| ==> !Owes(s[t], p))
  }

  lemma RenewedCounted(s: State, r: State, p: nat)
    requires Counted(s) && Renewed(s, r, p) && Wf(r)
    requires ReqOk(r, p) && CountOk(r, p)
    ensures Counted(r)
  {
    forall t | 0 <= t < |r| ensures HeldOk(r, t) && AckOk(r, t) {
      assert HeldOk(s, t) && AckOk(s, t);
      assert Held(r[t]) == Held(s[t]);
      forall i | 0 <= i < |Held(s[t])| ensures EntryOk(r, t, Held(s[t])[i]) {
        assert EntryOk(s, t, Held(s[t])[i]);
        assert Held(s[t])[i].from != p;
      }
      if s[t].proc.Ack? {
        assert Held(s[t])[0].from != p;
      }
    }
    forall h | 0 <= h < |r| && h != p ensures ReqOk(r, h) && CountOk(r, h) {
      assert ReqOk(s, h) && CountOk(s, h);
      KeptOwing(s, r, h);
      assert forall t :: 0 <= t < |s| ==> Owes(r[t], h) == Owes(s[t], h);
    }
  }

  lemma StartCounted(s: State, p: nat, targets: set<nat>, todo: seq<nat>, req: Request, r: State)
    requires Counted(s) && Step(s, p, Start(targets, todo, req)) == Some(r) && Wf(r)
    ensures Counted(r)
  {
    IdleOwedNothing(s, p);
    assert forall t :: 0 <= t < |s| ==> Held(r[t]) == Held(s[t]);
    KeptOwing(s, r, p);
    assert forall t :: 0 <= t < |s| ==> Owes(r[t], p) == Owes(s[t], p);
    RenewedCounted(s, r, p);
  }

  /** With its count down, every other target has fenced and nobody points at the count. */
  lemma DoneWhenZero(s: State, p: nat)
    requires Counted(s) && p < |s| && s[p].task.Wait? && s[p].out == 0
    ensures s[p].targets <= s[p].fenced
    ensures forall t :: 0 <= t < |s| ==> !Owes(s[t], p)
  {
    assert ReqOk(s, p) && CountOk(s, p);
    assert Owing(s, p) == {};
    forall t | 0 <= t < |s| ensures !Owes(s[t], p) {
      assert t !in Owing(s, p);
    }
  }

  lemma ReturnCounted(s: State, p: nat, r: State)
    requires Counted(s) && p < |s| && s[p].task.Wait? && s[p].out == 0 && Wf(r)
    requires r == s[p := s[p].(task := NoTask)]
    ensures Counted(r)
  {
    DoneWhenZero(s, p);
    RenewedCounted(s, r, p);
  }

  // Every step.

  lemma ProcKept(s: State, p: nat, r: State, t: nat)
    requires p < |s| && !s[p].proc.Quiet? && !s[p].proc.Ack? && Wf(s) && ProcStep(s, p) == r
    requires t < |s| && AckOk(s, t)
    ensures Kept(s[t], r[t]) && AckOk(r, t) && r[t].task == s[t].task
  {
    if s[p].proc.Fence? {
      FenceKept(s, p, r, t);
    } else if s[p].proc.Take? {
      TakeKept(s, p, r, t);
    }
  }

  lemma TakeKept(s: State, p: nat, r: State, t: nat)
    requires p < |s| && s[p].proc.Take? && Wf(s) && ProcStep(s, p) == r
    requires t < |s| && AckOk(s, t)
    ensures Kept(s[t], r[t]) && AckOk(r, t) && r[t].task == s[t].task
  {
    assert Held(r[p]) == Held(s[p]);
  }

  lemma FenceKept(s: State, p: nat, r: State, t: nat)
    requires p < |s| && s[p].proc.Fence? && Wf(s) && ProcStep(s, p) == r
    requires t < |s| && AckOk(s, t)
    ensures Kept(s[t], r[t]) && AckOk(r, t) && r[t].task == s[t].task
  {
    var from := s[p].proc.entry.from;
    assert WfHart(|s|, p, s[p]);
    assert r[from].fenced == s[from].fenced + {p};
  }

  lemma TaskKept(s: State, p: nat, r: State, t: nat)
    requires p < |s| && s[p].proc.Quiet? && Wf(s) && TaskStep(s, p) == r
    requires !(s[p].task.Wait? && s[p].out == 0)
    requires s[p].task.Enq? && s[p].task.todo != [] ==> |s[s[p].task.todo[0]].queue| >= QUEUE_LEN
    requires t < |s| && AckOk(s, t)
    ensures Kept(s[t], r[t]) && AckOk(r, t)
    ensures r[t].task.Wait? ==> s[t].task.Wait? || (t in r[t].targets ==> t in r[t].fenced)
  {
    if s[p].task.SendOr? || s[p].task.SendRaise? {
      SendKept(s, p, r, t);
    }
  }

  lemma SendKept(s: State, p: nat, r: State, t: nat)
    requires p < |s| && s[p].proc.Quiet? && Wf(s) && TaskStep(s, p) == r && t < |s| && AckOk(s, t)
    requires s[p].task.SendOr? || s[p].task.SendRaise?
    ensures Kept(s[t], r[t]) && AckOk(r, t) && !(r[t].task.Wait? && !s[t].task.Wait?)
  {
    assert WfHart(|s|, p, s[p]);
  }

  lemma GoCounted(s: State, p: nat, r: State)
    requires Counted(s) && Step(s, p, Go) == Some(r) && Wf(r)
    ensures Counted(r)
  {
    assert WfHart(|s|, p, s[p]);
    var x := s[p];
    if x.proc.Ack? {
      assert HeldOk(s, p);
      assert EntryOk(s, p, Held(x)[0]);
      AckedCounted(s, r, p, x.proc.entry.from);
    } else if !x.proc.Quiet? {
      forall t | 0 <= t < |r| ensures Kept(s[t], r[t]) && AckOk(r, t) && SelfOk(r, t) {
        assert AckOk(s, t) && ReqOk(s, t);
        ProcKept(s, p, r, t);
      }
      KeptCounted(s, r);
    } else if x.task.Wait? && x.out == 0 {
      ReturnCounted(s, p, r);
    } else if x.task.Enq? && x.task.todo != [] && |s[x.task.todo[0]].queue| < QUEUE_LEN {
      EnqueuedCounted(s, r, p, x.task.todo[0]);
    } else {
      forall t | 0 <= t < |r| ensures Kept(s[t], r[t]) && AckOk(r, t) && SelfOk(r, t) {
        assert AckOk(s, t) && ReqOk(s, t);
        TaskKept(s, p, r, t);
      }
      KeptCounted(s, r);
    }
  }

  lemma StepCounted(s: State, p: nat, a: Action, r: State)
    requires Counted(s) && Step(s, p, a) == Some(r)
    ensures Counted(r)
  {
    match a
    case Go => GoCounted(s, p, r);
    case Start(targets, todo, req) => StartCounted(s, p, targets, todo, req, r);
  }

  lemma InitCounted(s: State)
    requires Init(s)
    ensures Counted(s)
  {
    assert Wf(s);
    forall h | 0 <= h < |s| ensures HeldOk(s, h) && AckOk(s, h) && ReqOk(s, h) && CountOk(s, h) {
      assert s[h].task.NoTask?;
    }
  }

  lemma {:induction false} CountHolds(run: seq<State>, moves: seq<Move>, i: nat)
    requires IsRun(run, moves) && i < |run|
    ensures Counted(run[i])
  {
    if i == 0 {
      InitCounted(run[0]);
    } else {
      var k := i - 1;
      CountHolds(run, moves, k);
      assert Step(run[k], moves[k].hart, moves[k].action) == Some(run[k + 1]);
      StepCounted(run[k], moves[k].hart, moves[k].action, run[k + 1]);
    }
  }

  // What a return means.

  /** Hart `t`'s next step executes the fence `h` has asked for. */
  ghost predicate Fences(s: State, t: nat, h: nat) {
    && t < |s| && h < |s| && !s[h].task.NoTask? && t in s[h].targets
    && if t == h then s[h].proc.Quiet? && s[h].task == Enq([])
       else s[t].proc.Fence? && s[t].proc.entry == Entry(h, s[h].serial, s[h].req)
  }

  /** `t` fences in step `k`, for the request that `h` is in at `i`. */
  ghost predicate FencedAt(run: seq<State>, moves: seq<Move>, k: nat, i: nat, t: nat, h: nat) {
    && k < i < |run| && i <= |moves| && h < |run[i]|
    && moves[k] == Move(t, Go) && Fences(run[k], t, h)
    && run[k][h].serial == run[i][h].serial && run[k][h].req == run[i][h].req
  }

  /** A request's own steps add to `fenced` by the local fence only. */
  lemma FencedByTask(s: State, p: nat, r: State, h: nat)
    requires Wf(s) && p < |s| && h < |s| && r == TaskStep(s, p)
    ensures r[h].serial == s[h].serial && r[h].req == s[h].req && r[h].targets == s[h].targets
    ensures s[h].task.NoTask? ==> r[h].task.NoTask?
    ensures r[h].fenced != s[h].fenced ==>
              && r[h].fenced == s[h].fenced + {p}
              && p == h && s[p].task == Enq([]) && p in s[p].targets
  {
    assert WfHart(|s|, p, s[p]);
  }

  lemma FencedByProc(s: State, p: nat, r: State, h: nat)
    requires Wf(s) && p < |s| && h < |s| && !s[p].proc.Quiet? && r == ProcStep(s, p)
    ensures r[h].serial == s[h].serial && r[h].req == s[h].req && r[h].targets == s[h].targets
    ensures s[h].task.NoTask? ==> r[h].task.NoTask?
    ensures r[h].fenced != s[h].fenced ==>
              && r[h].fenced == s[h].fenced + {p}
              && s[p].proc.Fence? && s[p].proc.entry.from == h
  {
    assert WfHart(|s|, p, s[p]);
  }

  lemma FenceIsFor(s: State, p: nat, a: Action, r: State, h: nat, t: nat)
    requires Step(s, p, a) == Some(r) && h < |s| && HeldOk(s, p)
    requires !r[h].task.NoTask? && t in r[h].fenced && t in r[h].targets
    ensures !s[h].task.NoTask? && r[h].serial == s[h].serial && r[h].req == s[h].req
    ensures r[h].targets == s[h].targets
    ensures t !in s[h].fenced ==> p == t && a == Go && Fences(s, t, h)
  {
    if a == Go {
      if s[p].proc.Quiet? {
        FencedByTask(s, p, r, h);
      } else {
        FencedByProc(s, p, r, h);
      }
      if s[p].proc.Fence? {
        assert EntryOk(s, p, Held(s[p])[0]);
      }
    }
  }

  lemma {:induction false} FencedWhen(run: seq<State>, moves: seq<Move>, i: nat, h: nat, t: nat) returns (k: nat)
    requires IsRun(run, moves) && i < |run| && h < |run[i]|
    requires !run[i][h].task.NoTask? && t in run[i][h].fenced && t in run[i][h].targets
    ensures FencedAt(run, moves, k, i, t, h)
  {
    if i == 0 {
      assert false;
    } else {
      var j := i - 1;
      assert Step(run[j], moves[j].hart, moves[j].action) == Some(run[j + 1]);
      CountHolds(run, moves, j);
      FenceIsFor(run[j], moves[j].hart, moves[j].action, run[i], h, t);
      if t in run[j][h].fenced {
        k := FencedWhen(run, moves, j, h, t);
      } else {
        k := j;
      }
    }
  }

  /** Hart `h` is in a request for this fence on these targets. */
  ghost predicate Requests(s: State, h: nat, targets: set<nat>, req: Request) {
    h < |s| && !s[h].task.NoTask? && s[h].targets == targets && s[h].req == req
  }

  ghost predicate RequestLink(run: seq<State>, moves: seq<Move>, m: nat, h: nat, targets: set<nat>, req: Request)
    requires m < |moves| && |run| == |moves| + 1
  {
    Requests(run[m + 1], h, targets, req) ==>
      || Requests(run[m], h, targets, req)
      || (moves[m].hart == h && moves[m].action.Start?
          && moves[m].action.targets == targets && moves[m].action.req == req)
  }

  lemma RunRequests(run: seq<State>, moves: seq<Move>, m: nat, h: nat, targets: set<nat>, req: Request)
    requires IsRun(run, moves) && m < |moves|
    ensures RequestLink(run, moves, m, h, targets, req)
  {
    var s, p := run[m], moves[m].hart;
    assert Step(s, p, moves[m].action) == Some(run[m + 1]);
    if moves[m].action == Go && h < |s| {
      if s[p].proc.Quiet? {
        FencedByTask(s, p, run[m + 1], h);
      } else {
        FencedByProc(s, p, run[m + 1], h);
      }
    }
  }

  /** From state `m` to state `i` hart `h` is in that request. */
  ghost predicate RequestsSince(run: seq<State>, m: nat, i: nat, h: nat, targets: set<nat>, req: Request)
    requires i < |run|
  {
    forall n :: m <= n <= i ==> Requests(run[n], h, targets, req)
  }

  lemma {:induction false} RequestedSince(run: seq<State>, moves: seq<Move>, i: nat, h: nat, targets: set<nat>,
                                          req: Request)
    returns (m: nat)
    requires |run| == |moves| + 1 && i < |run| && Requests(run[i], h, targets, req)
    requires !Requests(run[0], h, targets, req)
    requires forall n :: 0 <= n < |moves| ==> RequestLink(run, moves, n, h, targets, req)
    ensures m < i && moves[m].hart == h && moves[m].action.Start? && moves[m].action.targets == targets
    ensures moves[m].action.req == req && RequestsSince(run, m + 1, i, h, targets, req)
  {
    m := i - 1;
    assert RequestLink(run, moves, m, h, targets, req);
    if Requests(run[m], h, targets, req) {
      m := RequestedSince(run, moves, i - 1, h, targets, req);
    }
  }

  /**
   rfence_request() returns when, and only when, every target has done the fence that was asked for
   in step `m`, which began it.
   */
  lemma RequestIsDone(run: seq<State>, moves: seq<Move>, i: nat, h: nat) returns (m: nat)
    requires IsRun(run, moves) && i < |moves| && h < |run[i]|
    requires !run[i][h].task.NoTask? && run[i + 1][h].task.NoTask?
    ensures m < i && moves[m].hart == h && moves[m].action.Start?
    ensures RequestsSince(run, m + 1, i, h, moves[m].action.targets, moves[m].action.req)
    ensures forall t :: t in moves[m].action.targets ==> exists k :: FencedAt(run, moves, k, i, t, h)
    ensures Owing(run[i + 1], h) == {}
  {
    CountHolds(run, moves, i);
    CountHolds(run, moves, i + 1);
    assert Step(run[i], moves[i].hart, moves[i].action) == Some(run[i + 1]);
    ReturnIsAtZero(run[i], moves[i].hart, moves[i].action, run[i + 1], h);
    DoneWhenZero(run[i], h);
    forall t | t in run[i][h].targets ensures exists k :: FencedAt(run, moves, k, i, t, h) {
      var k := FencedWhen(run, moves, i, h, t);
    }
    IdleOwedNothing(run[i + 1], h);
    m := AskedFor(run, moves, i, h);
  }

  lemma AskedFor(run: seq<State>, moves: seq<Move>, i: nat, h: nat) returns (m: nat)
    requires IsRun(run, moves) && i < |run| && h < |run[i]| && !run[i][h].task.NoTask?
    ensures m < i && moves[m].hart == h && moves[m].action.Start?
    ensures moves[m].action.targets == run[i][h].targets && moves[m].action.req == run[i][h].req
    ensures RequestsSince(run, m + 1, i, h, run[i][h].targets, run[i][h].req)
  {
    var targets, req := run[i][h].targets, run[i][h].req;
    forall n | 0 <= n < |moves| ensures RequestLink(run, moves, n, h, targets, req) {
      RunRequests(run, moves, n, h, targets, req);
    }
    m := RequestedSince(run, moves, i, h, targets, req);
  }

  lemma ReturnIsAtZero(s: State, p: nat, a: Action, r: State, h: nat)
    requires Step(s, p, a) == Some(r) && h < |s| && !s[h].task.NoTask? && r[h].task.NoTask?
    ensures s[h].task.Wait? && s[h].out == 0
  {
    assert WfHart(|s|, p, s[p]);
  }
}
