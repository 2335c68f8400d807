/**
 Remote fences (rfence.c) over inter-processor interrupts (ipi.c), step by step.

 A hart is in at most one rfence_request() (`task`), and may be in ipi_process() or
 rfence_process() on top of it (`proc`). One step is one access to what harts share:
 a queue under its lock, the pending word, the interrupt line, a requester's count.
 */
module RfenceModel {
  import opened Options

  const QUEUE_LEN := 8

  datatype Request = Request(kind: int, start: int, size: int, asid: int)
  /** A queue entry: the request, and whose count it points at. */
  datatype Entry = Entry(from: nat, serial: nat, req: Request)

  datatype Task =
    | NoTask                                     // S-mode runs
    | Enq(todo: seq<nat>)                        // the loop over the targets
    | SendOr(todo: seq<nat>, retry: bool)        // ipi_send(): before the pending word
    | SendRaise(todo: seq<nat>, retry: bool)     // ... before the interrupt line
    | Wait                                       // until the count is down

  datatype Proc =
    | Quiet
    | Clear | Swap                               // ipi_process()
    | Take(more: bool)                           // rfence_process(); more: ipi_process() comes after it
    | Fence(entry: Entry, more: bool) | Ack(entry: Entry, more: bool)

  datatype Hart = Hart(task: Task, proc: Proc, queue: seq<Entry>, pending: bool, line: bool,
                       out: int, serial: nat, req: Request, targets: set<nat>, fenced: set<nat>)

  type State = seq<Hart>

  predicate WfTodo(n: nat, h: nat, todo: seq<nat>) {
    && (forall i :: 0 <= i < |todo| ==> todo[i] < n && todo[i] != h)
    && (forall i, j :: 0 <= i < j < |todo| ==> todo[i] != todo[j])
  }

  predicate WfTask(n: nat, h: nat, task: Task) {
    match task
    case Enq(todo) => WfTodo(n, h, todo)
    case SendOr(todo, _) => todo != [] && WfTodo(n, h, todo)
    case SendRaise(todo, _) => todo != [] && WfTodo(n, h, todo)
    case _ => true
  }

  function Taken(proc: Proc): Option<Entry> {
    match proc
    case Fence(e, _) => Some(e)
    case Ack(e, _) => Some(e)
    case _ => None
  }

  predicate WfHart(n: nat, h: nat, x: Hart) {
    && WfTask(n, h, x.task)
    && (Taken(x.proc).Some? ==> Taken(x.proc).value.from < n)
    && (forall i :: 0 <= i < |x.queue| ==> x.queue[i].from < n)
  }

  predicate Wf(s: State) {
    forall h :: 0 <= h < |s| ==> WfHart(|s|, h, s[h])
  }

  datatype Action = Start(targets: set<nat>, todo: seq<nat>, req: Request) | Go

  /** rfence_request() with the targets other than the caller in `todo`. */
  ghost predicate StartOk(s: State, h: nat, targets: set<nat>, todo: seq<nat>) {
    && WfTodo(|s|, h, todo)
    && (forall t :: t in targets && t != h ==> t in todo)
    && (forall i :: 0 <= i < |todo| ==> todo[i] in targets)
  }

  /** A step of ipi_process() or rfence_process(). */
  function ProcStep(s: State, h: nat): (r: State)
    requires h < |s| && !s[h].proc.Quiet? && Wf(s)
    ensures |r| == |s| && Wf(r)
  {
    var x := s[h];
    match x.proc
    case Clear => s[h := x.(line := false, proc := Swap)]
    case Swap => s[h := x.(pending := false, proc := if x.pending then Take(false) else Quiet)]
    case Take(more) =>
      if x.queue == [] then s[h := x.(proc := if more then Clear else Quiet)]
      else s[h := x.(queue := x.queue[1..], proc := Fence(x.queue[0], more))]
    case Fence(e, more) =>
      var r := s[e.from := s[e.from].(fenced := s[e.from].fenced + {h})];
      r[h := r[h].(proc := Ack(e, more))]
    case Ack(e, more) =>
      var r := s[e.from := s[e.from].(out := s[e.from].out - 1)];
      r[h := r[h].(proc := Take(more))]
  }

  /** A step of rfence_request(). */
  function TaskStep(s: State, h: nat): (r: State)
    requires h < |s| && Wf(s)
    ensures |r| == |s| && Wf(r)
  {
    var x := s[h];
    match x.task
    case NoTask => if x.line then s[h := x.(proc := Clear)] else s
    case Enq(todo) =>
      if todo == [] then
        s[h := x.(task := Wait, fenced := if h in x.targets then x.fenced + {h} else x.fenced)]
      else
        var t := todo[0];
        if |s[t].queue| < QUEUE_LEN then
          var r := s[t := s[t].(queue := s[t].queue + [Entry(h, x.serial, x.req)])];
          r[h := r[h].(out := r[h].out + 1, task := SendOr(todo, false))]
        else s[h := x.(task := SendOr(todo, true))]
    case SendOr(todo, retry) =>
      var t := todo[0];
      var r := s[t := s[t].(pending := true)];
      r[h := r[h].(task := SendRaise(todo, retry))]
    case SendRaise(todo, retry) =>
      var t := todo[0];
      var r := s[t := s[t].(line := true)];
      if retry then r[h := r[h].(task := Enq(todo), proc := Clear)] else r[h := r[h].(task := Enq(todo[1..]))]
    case Wait => s[h := if x.out == 0 then x.(task := NoTask) else x.(proc := Take(true))]
  }

  /** One step of hart `h`; the interrupt, if there is one, comes before S-mode's next call. */
  ghost function Step(s: State, h: nat, a: Action): (r: Option<State>)
    ensures r.Some? ==> |r.value| == |s| && Wf(s) && Wf(r.value)
  {
    if h >= |s| || !Wf(s) then None
    else
      var x := s[h];
      match a
      case Go => Some(if x.proc.Quiet? then TaskStep(s, h) else ProcStep(s, h))
      case Start(targets, todo, req) =>
        if x.proc.Quiet? && x.task.NoTask? && !x.line && StartOk(s, h, targets, todo) then
          Some(s[h := x.(task := Enq(todo), out := 0, serial := x.serial + 1, req := req,
                         targets := targets, fenced := {})])
        else None
  }

  ghost predicate Init(s: State) {
    forall h :: 0 <= h < |s| ==>
      s[h].task.NoTask? && s[h].proc.Quiet? && s[h].queue == [] && !s[h].pending
  }
}

/** The queue itself (struct rfence_queue): a ring of eight entries. */
module RfenceRing {
  import opened Options
  import opened RfenceModel

  /** The `count` entries of the ring `a` from `head` on. */
  ghost function Served(a: seq<Entry>, head: nat, count: nat): (s: seq<Entry>)
    requires |a| == QUEUE_LEN
    ensures |s| == count
  {
    seq(count, i requires 0 <= i => a[(head + i) % QUEUE_LEN])
  }

  lemma ServedLonger(a: seq<Entry>, head: nat, count: nat, e: Entry)
    requires |a| == QUEUE_LEN && head < QUEUE_LEN && count < QUEUE_LEN
    ensures Served(a[(head + count) % QUEUE_LEN := e], head, count + 1) == Served(a, head, count) + [e]
  {
    var b := a[(head + count) % QUEUE_LEN := e];
    forall i | 0 <= i < count ensures Served(b, head, count + 1)[i] == Served(a, head, count)[i] {
      assert (head + i) % QUEUE_LEN != (head + count) % QUEUE_LEN;
    }
  }

  lemma ServedShorter(a: seq<Entry>, head: nat, count: nat)
    requires |a| == QUEUE_LEN && head < QUEUE_LEN && 0 < count
    ensures Served(a, head, count) == [a[head]] + Served(a, (head + 1) % QUEUE_LEN, count - 1)
  {
    var rest := Served(a, (head + 1) % QUEUE_LEN, count - 1);
    forall i | 0 <= i < count - 1 ensures Served(a, head, count)[i + 1] == rest[i] {
      assert ((head + 1) % QUEUE_LEN + i) % QUEUE_LEN == (head + (i + 1)) % QUEUE_LEN;
    }
  }

  class Ring {
    var head: nat
    var count: nat
    const entries: array<Entry>

    ghost predicate Valid()
      reads this
    {
      entries.Length == QUEUE_LEN && head < QUEUE_LEN && count <= QUEUE_LEN
    }

    /** The entries in the order they are served. */
    ghost function Contents(): (s: seq<Entry>)
      requires Valid()
      reads this, entries
    {
      Served(entries[..], head, count)
    }

    constructor (none: Entry)
      ensures Valid() && Contents() == [] && fresh(entries)
    {
      head, count := 0, 0;
      entries := new Entry[QUEUE_LEN](i => none);
    }

    /** enqueue(), under the lock. */
    method Enqueue(e: Entry) returns (room: bool)
      requires Valid()
      modifies this`count, entries
      ensures Valid()
      ensures room == (|old(Contents())| < 8)
      ensures Contents() == if room then old(Contents()) + [e] else old(Contents())
    {
      room := count < QUEUE_LEN;
      if room {
        ServedLonger(entries[..], head, count, e);
        var tail := (head + count) % QUEUE_LEN;
        ghost var was := entries[..];
        count := count + 1;
        entries[tail] := e;
        assert entries[..] == was[tail := e];
      }
    }

    /** rfence_process(), the section under the lock. */
    method Take() returns (e: Option<Entry>)
      requires Valid()
      modifies this`head, this`count
      ensures Valid()
      ensures e.None? <==> old(Contents()) == []
      ensures e.None? ==> Contents() == []
      ensures e.Some? ==> old(Contents()) == [e.value] + Contents()
    {
      if count == 0 {
        return None;
      }
      ServedShorter(entries[..], head, count);
      e := Some(entries[head]);
      head := (head + 1) % QUEUE_LEN;
      count := count - 1;
    }
  }
}
