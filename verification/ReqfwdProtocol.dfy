/**
 Producers, timeouts and the servers of a message queue (reqfwd.c), in any interleaving.
 A step is a section under the queue's lock, or one access to a message's state outside
 it. Servers have no state but the lock, so one stands for all. `log` is what happened,
 send by send.
 */
module ReqfwdProtocol {
  import opened Options
  import opened ReqfwdQueue

  /** What reqfwd_send() returns: RPMI_SUCCESS, RPMI_ERR_BAD_RANGE, RPMI_ERR_TIMEOUT. */
  datatype Outcome = Success(rsp: seq<int>) | TooLong | TimedOut

  /** `send`: the n-th of producer `who`. */
  datatype Event = Event(who: nat, send: nat, what: What)
  datatype What = Sent | Read(start: nat) | Answered(fits: bool, rsp: seq<int>) | Returned(outcome: Outcome)

  datatype Pc = Idle | Polling | Late                 // Late: past its deadline, about to lock

  /** `first`: the message has been read from its first byte, which is history. */
  datatype Producer = Producer(pc: Pc, sends: nat, state: Progress, len: nat, max: nat, rsp: seq<int>, stamp: nat,
                               first: bool)

  datatype Server = Free | Storing(to: nat, fits: bool) | Unlocking

  datatype State = State(prods: seq<Producer>, queue: seq<nat>, count: int, server: Server,
                         clock: nat, log: seq<Event>)

  datatype Action =
    | Send(len: nat, max: nat)
    | Poll(late: bool)
    | Expire
    | Retrieve(start: nat)
    | Complete(rsp: seq<int>)
    | Store
    | Unlock

  /** The queue without producer `p`: unlink(), which leaves a queue without it alone. */
  function Without(queue: seq<nat>, p: nat): seq<nat> {
    if queue == [] then []
    else if queue[0] == p then queue[1..]
    else [queue[0]] + Without(queue[1..], p)
  }

  function SetProd(s: State, p: nat, x: Producer): State
    requires p < |s.prods|
  {
    s.(prods := s.prods[p := x])
  }

  function Log(s: State, p: nat, what: What): State
    requires p < |s.prods|
  {
    s.(log := s.log + [Event(p, s.prods[p].sends, what)])
  }

  /** How reqfwd_send() ends with a message that has an answer. */
  function Answer(x: Producer): Outcome {
    if x.state == Completed then Success(x.rsp) else TooLong
  }

  function Return(s: State, p: nat, outcome: Outcome): State
    requires p < |s.prods|
  {
    SetProd(Log(s, p, Returned(outcome)), p, s.prods[p].(pc := Idle))
  }

  predicate Answerless(state: Progress) {
    state == Queued || state == Retrieved
  }

  function ProducerStep(s: State, p: nat, a: Action): Option<State>
    requires p < |s.prods|
  {
    var x := s.prods[p];
    match a
    case Send(len, max) =>
      if x.pc != Idle || s.server != Free then None
      else
        var s1 := SetProd(s, p, Producer(Polling, x.sends + 1, Queued, len, max, [], s.clock, false));
        Some(Log(s1.(queue := s.queue + [p], count := s.count + 1, clock := s.clock + 1), p, Sent))
    case Poll(late) =>
      if x.pc != Polling then None
      else if !Answerless(x.state) then Some(Return(s, p, Answer(x)))
      else Some(if late then SetProd(s, p, x.(pc := Late)) else s)
    case Expire =>
      if x.pc != Late || s.server != Free then None
      else if !Answerless(x.state) then Some(Return(s, p, Answer(x)))
      else
        var queue := Without(s.queue, p);
        var gone := |s.queue| - |queue|;
        Some(Return(s.(queue := queue, count := s.count - gone), p, TimedOut))
    case _ => None
  }

  function ServerStep(s: State, a: Action): Option<State>
    requires forall i :: 0 <= i < |s.queue| ==> s.queue[i] < |s.prods|
    requires s.server.Storing? ==> s.server.to < |s.prods|
  {
    match a
    case Retrieve(start) =>
      if s.server != Free || s.queue == [] || start >= s.prods[s.queue[0]].len then None
      else
        var p := s.queue[0];
        var x := s.prods[p];
        Some(Log(SetProd(s, p, x.(state := Retrieved, first := x.first || start == 0)), p, Read(start)))
    case Complete(rsp) =>
      if s.server != Free || s.queue == [] || s.prods[s.queue[0]].state != Retrieved then None
      else
        var p := s.queue[0];
        var fits := |rsp| <= s.prods[p].max;
        var got := if fits then rsp else [];
        Some(Log(SetProd(s, p, s.prods[p].(rsp := got)), p, Answered(fits, got))
             .(queue := Without(s.queue, p), count := s.count - 1, server := Storing(p, fits)))
    case Store =>
      if !s.server.Storing? then None
      else
        var p := s.server.to;
        Some(SetProd(s, p, s.prods[p].(state := if s.server.fits then Completed else Failed)).(server := Unlocking))
    case Unlock => if s.server == Unlocking then Some(s.(server := Free)) else None
    case _ => None
  }

  ghost predicate Wf(s: State) {
    && (forall i :: 0 <= i < |s.queue| ==> s.queue[i] < |s.prods|)
    && (s.server.Storing? ==> s.server.to < |s.prods|)
  }

  datatype Actor = Of(producer: nat) | TheServer
  datatype Move = Move(actor: Actor, action: Action)

  ghost function Step(s: State, m: Move): Option<State> {
    if !Wf(s) then None
    else match m.actor
      case Of(p) => if p < |s.prods| then ProducerStep(s, p, m.action) else None
      case TheServer => ServerStep(s, m.action)
  }

  ghost predicate Init(s: State) {
    && s.queue == [] && s.count == 0 && s.server == Free && s.log == []
    && (forall p :: 0 <= p < |s.prods| ==> s.prods[p].pc == Idle && s.prods[p].sends == 0)
  }

  ghost predicate IsRun(run: seq<State>, moves: seq<Move>) {
    && |run| == |moves| + 1 && Init(run[0])
    && (forall i :: 0 <= i < |moves| ==> Step(run[i], moves[i]) == Some(run[i + 1]))
  }

  // ---- the story of a send --------------------------------------------------------------------

  /** `first`: read from the first byte. */
  datatype Story = Unsent | Out(read: bool, first: bool) | Done(fits: bool, rsp: seq<int>, first: bool)
                 | Over(outcome: Outcome) | Wrong

  /** What may come next. */
  function Next(t: Story, w: What): Story {
    match w
    case Sent => if t == Unsent then Out(false, false) else Wrong
    case Read(start) => if t.Out? then Out(true, t.first || start == 0) else Wrong
    case Answered(fits, rsp) => if t.Out? && t.read then Done(fits, rsp, t.first) else Wrong
    case Returned(o) =>
      if t.Out? && o == TimedOut then Over(o)
      else if t.Done? && t.fits && o == Success(t.rsp) then Over(o)
      else if t.Done? && !t.fits && o == TooLong then Over(o)
      else Wrong
  }

  function Tell(log: seq<Event>, p: nat, n: nat): Story {
    if log == [] then Unsent
    else
      var e, t := log[|log| - 1], Tell(log[..|log| - 1], p, n);
      if e.who == p && e.send == n then Next(t, e.what) else t
  }

  lemma TellMore(log: seq<Event>, e: Event, p: nat, n: nat)
    ensures Tell(log + [e], p, n) ==
            if e.who == p && e.send == n then Next(Tell(log, p, n), e.what) else Tell(log, p, n)
  {
    assert (log + [e])[..|log|] == log;
  }

  // ---- what every step keeps --------------------------------------------------------------------

  predicate Stores(s: State, p: nat) {
    s.server.Storing? && s.server.to == p
  }

  /** The story so far of the send that producer `p` is in. */
  function Current(s: State, p: nat): Story
    requires p < |s.prods|
  {
    var x := s.prods[p];
    if Stores(s, p) then Done(s.server.fits, x.rsp, x.first)
    else match x.state
      case Queued => Out(false, x.first)
      case Retrieved => Out(true, x.first)
      case Completed => Done(true, x.rsp, x.first)
      case Failed => Done(false, x.rsp, x.first)
  }

  ghost predicate StoryOk(s: State, p: nat, n: nat)
    requires p < |s.prods|
  {
    var x, t := s.prods[p], Tell(s.log, p, n);
    if n == 0 || n > x.sends then t == Unsent
    else if n < x.sends || x.pc == Idle then t.Over?
    else t == Current(s, p)
  }

  /** The i-th message is out, only the first may have been read, and they are in order. */
  ghost predicate InQueue(s: State, i: nat)
    requires i < |s.queue| && s.queue[i] < |s.prods|
  {
    var x := s.prods[s.queue[i]];
    && x.pc != Idle && !Stores(s, s.queue[i])
    && (if i == 0 then Answerless(x.state) else x.state == Queued)
    && x.stamp < s.clock
  }

  ghost predicate Ordered(s: State)
    requires Wf(s)
  {
    forall i, j :: 0 <= i < j < |s.queue| ==> s.prods[s.queue[i]].stamp < s.prods[s.queue[j]].stamp
  }

  ghost predicate QueueOk(s: State) {
    && Wf(s)
    && s.count == |s.queue|
    && (forall i :: 0 <= i < |s.queue| ==> InQueue(s, i))
    && Ordered(s)
    && (s.server.Storing? ==> s.prods[s.server.to].pc != Idle && s.prods[s.server.to].state == Retrieved)
  }

  ghost predicate Listed(s: State, p: nat)
    requires p < |s.prods|
  {
    && (s.prods[p].pc != Idle ==> s.prods[p].sends > 0)
    && (s.prods[p].pc != Idle && Answerless(s.prods[p].state) && !Stores(s, p) ==> p in s.queue)
  }

  ghost predicate Inv(s: State) {
    && QueueOk(s)
    && (forall p :: 0 <= p < |s.prods| ==> Listed(s, p))
    && (forall p, n: nat :: 0 <= p < |s.prods| ==> StoryOk(s, p, n))
  }

  // ---- proofs --------------------------------------------------------------------------------------

  /** One message of `p` leaves the queue at `k`. */
  lemma {:induction false} WithoutAt(queue: seq<nat>, p: nat, k: nat)
    requires k < |queue| && queue[k] == p && forall i :: 0 <= i < k ==> queue[i] != p
    ensures Without(queue, p) == queue[..k] + queue[k + 1..]
  {
    if k > 0 {
      WithoutAt(queue[1..], p, k - 1);
      assert queue[1..][..k - 1] == queue[1..k] && queue[1..][k..] == queue[k + 1..];
    }
  }

  /** Nothing changes but producer `p`, the server and one line of the log about that send. */
  ghost predicate Wrote(s: State, r: State, p: nat, what: What) {
    && p < |s.prods| && |r.prods| == |s.prods|
    && (forall q :: 0 <= q < |s.prods| && q != p ==> r.prods[q] == s.prods[q])
    && r.log == s.log + [Event(p, r.prods[p].sends, what)]
    && (forall q :: q != p ==> Stores(r, q) == Stores(s, q))
    && (s.server.Storing? && r.server.Storing? ==> r.server == s.server)
  }

  lemma StoriesOfOthers(s: State, r: State, p: nat, what: What, q: nat, n: nat)
    requires Wrote(s, r, p, what) && q < |s.prods| && StoryOk(s, q, n)
    requires q != p || n != r.prods[p].sends
    requires q == p ==>
               || r.prods[p].sends == s.prods[p].sends
               || (s.prods[p].pc == Idle && r.prods[p].sends == s.prods[p].sends + 1)
    ensures StoryOk(r, q, n)
  {
    TellMore(s.log, Event(p, r.prods[p].sends, what), q, n);
    assert q != p ==> Stores(r, q) == Stores(s, q);
  }

  lemma WroteStories(s: State, r: State, p: nat, what: What)
    requires Inv(s) && Wrote(s, r, p, what)
    requires r.prods[p].sends == s.prods[p].sends || (s.prods[p].pc == Idle && r.prods[p].sends == s.prods[p].sends + 1)
    requires r.prods[p].sends > 0
    requires var t := Next(if r.prods[p].sends == s.prods[p].sends then Current(s, p) else Unsent, what);
             (r.prods[p].sends == s.prods[p].sends ==> s.prods[p].pc != Idle)
             && if r.prods[p].pc == Idle then t.Over? else t == Current(r, p)
    ensures forall q, n: nat :: 0 <= q < |r.prods| ==> StoryOk(r, q, n)
  {
    forall q, n: nat | 0 <= q < |r.prods| ensures StoryOk(r, q, n) {
      assert StoryOk(s, q, n);
      if q == p && n == r.prods[p].sends {
        TellMore(s.log, Event(p, r.prods[p].sends, what), p, n);
      } else {
        StoriesOfOthers(s, r, p, what, q, n);
      }
    }
  }

  lemma SendKeeps(s: State, p: nat, len: nat, max: nat, r: State)
    requires Inv(s) && p < |s.prods| && ProducerStep(s, p, Send(len, max)) == Some(r)
    ensures Inv(r)
  {
    WroteStories(s, r, p, Sent);
    NotQueued(s, p);
    forall i | 0 <= i < |r.queue| ensures InQueue(r, i) {
      if i < |s.queue| {
        assert InQueue(s, i);
      }
    }
    forall i, j | 0 <= i < j < |r.queue| ensures r.prods[r.queue[i]].stamp < r.prods[r.queue[j]].stamp {
      assert InQueue(s, i);
    }
    forall q | 0 <= q < |r.prods| ensures Listed(r, q) {
      assert Listed(s, q);
    }
  }

  /** The queue is as it was, and its messages are. */
  lemma SameQueue(s: State, r: State, p: nat)
    requires Inv(s) && p < |s.prods| && |r.prods| == |s.prods|
    requires r.queue == s.queue && r.count == s.count && r.clock == s.clock && r.server == s.server
    requires forall q :: 0 <= q < |s.prods| && q != p ==> r.prods[q] == s.prods[q]
    requires p in s.queue ==> r.prods[p].pc != Idle && r.prods[p].state == s.prods[p].state
    requires r.prods[p].stamp == s.prods[p].stamp && r.prods[p].state == s.prods[p].state
    requires r.prods[p].sends == s.prods[p].sends
    requires r.prods[p].pc != Idle ==> s.prods[p].pc != Idle
    requires Stores(s, p) ==> r.prods[p].pc != Idle
    ensures QueueOk(r) && forall q :: 0 <= q < |r.prods| ==> Listed(r, q)
  {
    forall i | 0 <= i < |r.queue| ensures InQueue(r, i) {
      assert InQueue(s, i);
    }
    forall q | 0 <= q < |r.prods| ensures Listed(r, q) {
      assert Listed(s, q);
    }
  }

  lemma NotQueued(s: State, p: nat)
    requires QueueOk(s) && p < |s.prods| && (!Answerless(s.prods[p].state) || s.prods[p].pc == Idle || Stores(s, p))
    ensures p !in s.queue
  {
    forall i | 0 <= i < |s.queue| ensures s.queue[i] != p {
      assert InQueue(s, i);
    }
  }

  lemma AnswerKeeps(s: State, p: nat)
    requires Inv(s) && p < |s.prods| && s.prods[p].pc != Idle && !Answerless(s.prods[p].state)
    ensures Inv(Return(s, p, Answer(s.prods[p])))
  {
    var r := Return(s, p, Answer(s.prods[p]));
    NotQueued(s, p);
    assert !Stores(s, p) && Listed(s, p);
    WroteStories(s, r, p, Returned(Answer(s.prods[p])));
    SameQueue(s, r, p);
  }

  lemma SameStories(s: State, r: State)
    requires Inv(s) && |r.prods| == |s.prods| && r.log == s.log
    requires forall q :: 0 <= q < |s.prods| ==>
               && r.prods[q].sends == s.prods[q].sends && (r.prods[q].pc == Idle <==> s.prods[q].pc == Idle)
               && (s.prods[q].pc != Idle ==> Current(r, q) == Current(s, q))
    ensures forall q, n: nat :: 0 <= q < |r.prods| ==> StoryOk(r, q, n)
  {
    forall q, n: nat | 0 <= q < |r.prods| ensures StoryOk(r, q, n) {
      assert StoryOk(s, q, n);
    }
  }

  lemma PollKeeps(s: State, p: nat, late: bool, r: State)
    requires Inv(s) && p < |s.prods| && ProducerStep(s, p, Poll(late)) == Some(r)
    ensures Inv(r)
  {
    if !Answerless(s.prods[p].state) {
      AnswerKeeps(s, p);
    } else if late {
      SameQueue(s, r, p);
      SameStories(s, r);
    }
  }

  /** The message at `k` leaves the queue; the others stay in it as they are. */
  ghost predicate Left(s: State, r: State, k: nat) {
    && Wf(s) && k < |s.queue| && |r.prods| == |s.prods|
    && r.queue == s.queue[..k] + s.queue[k + 1..] && r.count == s.count - 1 && r.clock == s.clock
    && s.server == Free && (r.server.Storing? ==> r.server.to == s.queue[k])
    && (forall q :: 0 <= q < |s.prods| && q != s.queue[k] ==> r.prods[q] == s.prods[q])
  }

  lemma LeftQueue(s: State, r: State, k: nat)
    requires Inv(s) && Left(s, r, k)
    requires r.server.Storing? ==> r.prods[s.queue[k]].pc != Idle && r.prods[s.queue[k]].state == Retrieved
    requires r.prods[s.queue[k]].sends == s.prods[s.queue[k]].sends
    requires r.server.Storing? || r.prods[s.queue[k]].pc == Idle
    ensures QueueOk(r) && forall q :: 0 <= q < |r.prods| ==> Listed(r, q)
  {
    forall i | 0 <= i < |r.queue| ensures r.queue[i] < |r.prods| && InQueue(r, i) {
      var j := if i < k then i else i + 1;
      assert r.queue[i] == s.queue[j] && InQueue(s, j);
      assert s.prods[s.queue[j]].stamp != s.prods[s.queue[k]].stamp;
    }
    LeftOrdered(s, r, k);
    forall q | 0 <= q < |r.prods| ensures Listed(r, q) {
      assert Listed(s, q) && InQueue(s, k);
      if q != s.queue[k] && q in s.queue {
        var j :| 0 <= j < |s.queue| && s.queue[j] == q;
        assert r.queue[if j < k then j else j - 1] == q;
      }
    }
  }

  lemma LeftOrdered(s: State, r: State, k: nat)
    requires Inv(s) && Left(s, r, k)
    ensures Wf(r) && Ordered(r)
  {
    forall i | 0 <= i < |r.queue|
      ensures r.queue[i] == s.queue[if i < k then i else i + 1] && r.queue[i] != s.queue[k] {
      var j := if i < k then i else i + 1;
      assert s.prods[s.queue[j]].stamp != s.prods[s.queue[k]].stamp;
    }
  }

  lemma WhereIs(s: State, p: nat) returns (k: nat)
    requires QueueOk(s) && p in s.queue
    ensures k < |s.queue| && s.queue[k] == p
    ensures Without(s.queue, p) == s.queue[..k] + s.queue[k + 1..]
  {
    k :| 0 <= k < |s.queue| && s.queue[k] == p;
    forall i | 0 <= i < k ensures s.queue[i] != p {
      assert s.prods[s.queue[i]].stamp < s.prods[s.queue[k]].stamp;
    }
    WithoutAt(s.queue, p, k);
  }

  lemma ExpireKeeps(s: State, p: nat, r: State)
    requires Inv(s) && p < |s.prods| && ProducerStep(s, p, Expire) == Some(r)
    ensures Inv(r) && r.prods[p].pc == Idle && p !in r.queue
    ensures Tell(r.log, p, s.prods[p].sends) ==
            Over(if Answerless(s.prods[p].state) then TimedOut else Answer(s.prods[p]))
    ensures r.queue == if Answerless(s.prods[p].state) then Without(s.queue, p) else s.queue
    ensures r.count == |r.queue|
  {
    assert Listed(s, p);
    if !Answerless(s.prods[p].state) {
      AnswerKeeps(s, p);
    } else {
      var k := WhereIs(s, p);
      LeftQueue(s, r, k);
      WroteStories(s, r, p, Returned(TimedOut));
    }
    NotQueued(r, p);
    ToldNext(s, r, p, Returned(if Answerless(s.prods[p].state) then TimedOut else Answer(s.prods[p])));
  }

  /** The story of the send under way goes on. */
  lemma ToldNext(s: State, r: State, p: nat, what: What)
    requires Inv(s) && Wrote(s, r, p, what) && s.prods[p].pc != Idle && r.prods[p].sends == s.prods[p].sends
    ensures Tell(s.log, p, s.prods[p].sends) == Current(s, p)
    ensures Tell(r.log, p, s.prods[p].sends) == Next(Current(s, p), what)
  {
    assert Listed(s, p) && StoryOk(s, p, s.prods[p].sends);
    TellMore(s.log, Event(p, r.prods[p].sends, what), p, s.prods[p].sends);
  }

  lemma RetrieveKeeps(s: State, start: nat, r: State)
    requires Inv(s) && ServerStep(s, Retrieve(start)) == Some(r)
    ensures Inv(r)
  {
    var p := s.queue[0];
    assert InQueue(s, 0) && Listed(s, p);
    WroteStories(s, r, p, Read(start));
    forall i | 0 <= i < |r.queue| ensures InQueue(r, i) {
      assert InQueue(s, i);
      assert i > 0 ==> s.prods[s.queue[i]].stamp != s.prods[p].stamp;
    }
    forall q | 0 <= q < |r.prods| ensures Listed(r, q) {
      assert Listed(s, q);
    }
  }

  lemma CompleteKeeps(s: State, rsp: seq<int>, r: State)
    requires Inv(s) && ServerStep(s, Complete(rsp)) == Some(r)
    ensures Inv(r) && r.queue == s.queue[1..] && s.queue[0] !in r.queue
    ensures var p, n := s.queue[0], s.prods[s.queue[0]].sends;
            var fits := |rsp| <= s.prods[p].max;
            && Tell(s.log, p, n) == Out(true, s.prods[p].first)
            && Tell(r.log, p, n) == Done(fits, if fits then rsp else [], s.prods[p].first)
  {
    var p := s.queue[0];
    var fits := |rsp| <= s.prods[p].max;
    assert InQueue(s, 0) && Listed(s, p);
    WithoutAt(s.queue, p, 0);
    LeftQueue(s, r, 0);
    NotQueued(r, p);
    WroteStories(s, r, p, Answered(fits, if fits then rsp else []));
    ToldNext(s, r, p, Answered(fits, if fits then rsp else []));
  }

  lemma StoreKeeps(s: State, r: State)
    requires Inv(s) && ServerStep(s, Store) == Some(r)
    ensures Inv(r)
  {
    var p := s.server.to;
    NotQueued(s, p);
    SameStories(s, r);
    forall i | 0 <= i < |r.queue| ensures InQueue(r, i) {
      assert InQueue(s, i) && s.queue[i] != p;
    }
    forall q | 0 <= q < |r.prods| ensures Listed(r, q) {
      assert Listed(s, q);
    }
  }

  lemma UnlockKeeps(s: State, r: State)
    requires Inv(s) && ServerStep(s, Unlock) == Some(r)
    ensures Inv(r)
  {
    SameStories(s, r);
    forall i | 0 <= i < |r.queue| ensures InQueue(r, i) {
      assert InQueue(s, i);
    }
    forall q | 0 <= q < |r.prods| ensures Listed(r, q) {
      assert Listed(s, q);
    }
  }

  lemma StepKeeps(s: State, m: Move, r: State)
    requires Inv(s) && Step(s, m) == Some(r)
    ensures Inv(r)
  {
    match m.actor
    case Of(p) =>
      match m.action {
        case Send(len, max) => SendKeeps(s, p, len, max, r);
        case Poll(late) => PollKeeps(s, p, late, r);
        case Expire => ExpireKeeps(s, p, r);
        case _ =>
      }
    case TheServer =>
      match m.action {
        case Retrieve(start) => RetrieveKeeps(s, start, r);
        case Complete(rsp) => CompleteKeeps(s, rsp, r);
        case Store => StoreKeeps(s, r);
        case Unlock => UnlockKeeps(s, r);
        case _ =>
      }
  }

  lemma {:induction false} InvHolds(run: seq<State>, moves: seq<Move>, i: nat)
    requires IsRun(run, moves) && i < |run|
    ensures Inv(run[i])
  {
    if i > 0 {
      var k := i - 1;
      InvHolds(run, moves, k);
      assert Step(run[k], moves[k]) == Some(run[k + 1]);
      StepKeeps(run[k], moves[k], run[k + 1]);
    }
  }

  // ---- what it comes to ------------------------------------------------------------------------------

  /**
   The story of every send is one of: sent, maybe read, timed out; sent, read, answered,
   and returned with that answer, or with an error if it was too long. A returned
   message is not in the queue, and the server is not writing to it.
   */
  lemma EverySendEndsOnce(run: seq<State>, moves: seq<Move>, i: nat, p: nat, n: nat)
    requires IsRun(run, moves) && i < |run| && p < |run[i].prods|
    ensures Tell(run[i].log, p, n) != Wrong
    ensures Tell(run[i].log, p, n).Over? <==>
               0 < n && (n < run[i].prods[p].sends || (n == run[i].prods[p].sends && run[i].prods[p].pc == Idle))
    ensures run[i].prods[p].pc == Idle ==> p !in run[i].queue && !Stores(run[i], p)
  {
    InvHolds(run, moves, i);
    assert StoryOk(run[i], p, n);
    if run[i].prods[p].pc == Idle {
      NotQueued(run[i], p);
    }
  }

  /** The queue counts its messages, they are in the order of their sends, and only the first can have been read. */
  lemma QueueIsInOrder(run: seq<State>, moves: seq<Move>, i: nat)
    requires IsRun(run, moves) && i < |run|
    ensures Wf(run[i]) && run[i].count == |run[i].queue| && Ordered(run[i])
    ensures forall k :: 0 < k < |run[i].queue| ==> run[i].prods[run[i].queue[k]].state == Queued
  {
    InvHolds(run, moves, i);
    forall k | 0 < k < |run[i].queue| ensures run[i].prods[run[i].queue[k]].state == Queued {
      assert InQueue(run[i], k);
    }
  }

  // ---- read from the first byte -----------------------------------------------------------------------

  /** The send that was last read from its first byte, if nothing has been answered since. */
  function Begun(log: seq<Event>): Option<(nat, nat)> {
    if log == [] then None
    else
      var e := log[|log| - 1];
      match e.what
      case Read(start) => if start == 0 then Some((e.who, e.send)) else Begun(log[..|log| - 1])
      case Answered(_, _) => None
      case _ => Begun(log[..|log| - 1])
  }

  lemma BegunMore(log: seq<Event>, e: Event)
    ensures Begun(log + [e]) == if e.what.Answered? then None
                                else if e.what.Read? && e.what.start == 0 then Some((e.who, e.send)) else Begun(log)
  {
    assert (log + [e])[..|log|] == log;
  }

  /** Message `p` is the first of the queue, and has been read from its first byte. */
  ghost predicate Reading(s: State, p: nat, n: nat) {
    s.queue != [] && s.queue[0] == p && p < |s.prods| && s.prods[p].sends == n && s.prods[p].first
  }

  /** The send begun is still being read, or has timed out; and no other has been read from its first byte. */
  ghost predicate BegunOk(s: State) {
    && Wf(s)
    && (forall i :: 0 <= i < |s.queue| && s.prods[s.queue[i]].first ==>
         i == 0 && Begun(s.log) == Some((s.queue[0], s.prods[s.queue[0]].sends)))
    && (Begun(s.log).Some? ==>
         var (p, n) := Begun(s.log).value;
         Reading(s, p, n) || (p < |s.prods| && 0 < n <= s.prods[p].sends && Tell(s.log, p, n) == Over(TimedOut)))
  }

  lemma StepLogs(s: State, m: Move, r: State)
    requires Step(s, m) == Some(r)
    ensures |r.prods| == |s.prods| && (r.log == s.log || (|r.log| == |s.log| + 1 && r.log == s.log + [r.log[|s.log|]]))
    ensures forall p :: 0 <= p < |s.prods| ==> r.prods[p].sends >= s.prods[p].sends
  {
  }

  /** An ended send stays ended. */
  lemma OverStays(s: State, m: Move, r: State, p: nat, n: nat)
    requires Inv(s) && Step(s, m) == Some(r) && p < |s.prods| && 0 < n <= s.prods[p].sends && Tell(s.log, p, n).Over?
    ensures |r.prods| == |s.prods| && n <= r.prods[p].sends && Tell(r.log, p, n) == Tell(s.log, p, n)
  {
    StepKeeps(s, m, r);
    StepLogs(s, m, r);
    assert StoryOk(r, p, n);
    if r.log != s.log {
      TellMore(s.log, r.log[|s.log|], p, n);
    }
  }

  /**
   A step that begins no reading: what had been read from its first byte was, and is first in the
   queue still or over.
   */
  lemma BegunStays(s: State, m: Move, r: State)
    requires Inv(s) && BegunOk(s) && Step(s, m) == Some(r) && Begun(r.log) == Begun(s.log) && Wf(r)
    requires forall i :: 0 <= i < |r.queue| && r.prods[r.queue[i]].first ==>
               i == 0 && s.queue != [] && r.queue[0] == s.queue[0]
               && s.prods[s.queue[0]].first && r.prods[s.queue[0]].sends == s.prods[s.queue[0]].sends
    requires Begun(s.log).Some? ==>
               var (p, n) := Begun(s.log).value;
               Reading(s, p, n) ==>
                 || Reading(r, p, n)
                 || (|r.prods| == |s.prods| && 0 < n <= r.prods[p].sends && Tell(r.log, p, n) == Over(TimedOut))
    ensures BegunOk(r)
  {
    if Begun(s.log).Some? {
      var (p, n) := Begun(s.log).value;
      if !Reading(s, p, n) {
        OverStays(s, m, r, p, n);
      }
    }
  }

  lemma SendBegun(s: State, p: nat, len: nat, max: nat, r: State)
    requires Inv(s) && BegunOk(s) && p < |s.prods| && ProducerStep(s, p, Send(len, max)) == Some(r)
    ensures BegunOk(r)
  {
    NotQueued(s, p);
    BegunMore(s.log, Event(p, r.prods[p].sends, Sent));
    BegunStays(s, Move(Of(p), Send(len, max)), r);
  }

  lemma PollBegun(s: State, p: nat, late: bool, r: State)
    requires Inv(s) && BegunOk(s) && p < |s.prods| && ProducerStep(s, p, Poll(late)) == Some(r)
    ensures BegunOk(r)
  {
    if !Answerless(s.prods[p].state) {
      NotQueued(s, p);
      BegunMore(s.log, Event(p, s.prods[p].sends, Returned(Answer(s.prods[p]))));
    }
    BegunStays(s, Move(Of(p), Poll(late)), r);
  }

  /** What is left of the queue without `p`, and where it was. */
  lemma Remain(s: State, p: nat, i: nat) returns (j: nat)
    requires QueueOk(s) && p in s.queue && i < |Without(s.queue, p)|
    ensures i <= j < |s.queue| && (i < j ==> 0 < j) && s.queue[j] == Without(s.queue, p)[i] != p
    ensures s.queue[0] != p && i == 0 ==> j == 0
  {
    var k := WhereIs(s, p);
    j := if i < k then i else i + 1;
    assert s.prods[s.queue[j]].stamp != s.prods[s.queue[k]].stamp;
  }

  lemma TimeoutBegun(s: State, p: nat, r: State)
    requires Inv(s) && BegunOk(s) && p < |s.prods| && ProducerStep(s, p, Expire) == Some(r)
    requires Answerless(s.prods[p].state)
    requires Wf(r) && 0 < s.prods[p].sends && Tell(r.log, p, s.prods[p].sends) == Over(TimedOut)
    ensures BegunOk(r)
  {
    BegunMore(s.log, Event(p, s.prods[p].sends, Returned(TimedOut)));
    assert Listed(s, p);
    forall i | 0 <= i < |r.queue| && r.prods[r.queue[i]].first
      ensures i == 0 && r.queue[0] == s.queue[0] && s.prods[s.queue[0]].first
              && r.prods[s.queue[0]].sends == s.prods[s.queue[0]].sends {
      var j := Remain(s, p, i);
    }
    if s.queue[0] != p {
      WithoutHead(s, p);
    }
    BegunStays(s, Move(Of(p), Expire), r);
  }

  lemma WithoutHead(s: State, p: nat)
    requires s.queue != [] && s.queue[0] != p
    ensures Without(s.queue, p) != [] && Without(s.queue, p)[0] == s.queue[0]
  {
  }

  lemma ExpireBegun(s: State, p: nat, r: State)
    requires Inv(s) && BegunOk(s) && p < |s.prods| && ProducerStep(s, p, Expire) == Some(r)
    ensures BegunOk(r)
  {
    ExpireKeeps(s, p, r);
    assert Listed(s, p);
    if !Answerless(s.prods[p].state) {
      NotQueued(s, p);
      BegunMore(s.log, Event(p, s.prods[p].sends, Returned(Answer(s.prods[p]))));
      BegunStays(s, Move(Of(p), Expire), r);
    } else {
      TimeoutBegun(s, p, r);
    }
  }

  lemma RetrieveBegun(s: State, start: nat, r: State)
    requires Inv(s) && BegunOk(s) && ServerStep(s, Retrieve(start)) == Some(r)
    ensures BegunOk(r)
  {
    var p := s.queue[0];
    BegunMore(s.log, Event(p, s.prods[p].sends, Read(start)));
    forall i | 0 < i < |r.queue| ensures s.queue[i] != p {
      assert s.prods[s.queue[0]].stamp < s.prods[s.queue[i]].stamp;
    }
    if start > 0 {
      BegunStays(s, Move(TheServer, Retrieve(start)), r);
    }
  }

  lemma CompleteBegun(s: State, rsp: seq<int>, r: State)
    requires Inv(s) && BegunOk(s) && ServerStep(s, Complete(rsp)) == Some(r)
    ensures BegunOk(r)
  {
    var p := s.queue[0];
    var fits := |rsp| <= s.prods[p].max;
    CompleteKeeps(s, rsp, r);
    BegunMore(s.log, Event(p, s.prods[p].sends, Answered(fits, if fits then rsp else [])));
    forall i | 0 <= i < |r.queue| ensures !r.prods[r.queue[i]].first {
      assert r.queue[i] == s.queue[i + 1] && r.queue[i] != p;
    }
  }

  lemma StoreBegun(s: State, a: Action, r: State)
    requires Inv(s) && BegunOk(s) && ServerStep(s, a) == Some(r) && (a == Store || a == Unlock)
    ensures BegunOk(r)
  {
    if a == Store {
      NotQueued(s, s.server.to);
    }
    BegunStays(s, Move(TheServer, a), r);
  }

  lemma {:induction false} BegunHolds(run: seq<State>, moves: seq<Move>, i: nat)
    requires IsRun(run, moves) && i < |run|
    ensures BegunOk(run[i])
  {
    if i > 0 {
      var k := i - 1;
      BegunHolds(run, moves, k);
      InvHolds(run, moves, k);
      var s, m, r := run[k], moves[k], run[k + 1];
      assert Step(s, m) == Some(r);
      if m.actor.Of? {
        match m.action {
          case Send(len, max) => SendBegun(s, m.actor.producer, len, max, r);
          case Poll(late) => PollBegun(s, m.actor.producer, late, r);
          case Expire => ExpireBegun(s, m.actor.producer, r);
          case _ =>
        }
      } else {
        match m.action {
          case Retrieve(start) => RetrieveBegun(s, start, r);
          case Complete(rsp) => CompleteBegun(s, rsp, r);
          case _ => StoreBegun(s, m.action, r);
        }
      }
    }
  }

  /**
   The message a completion answers has been read from its first byte if and only if a message
   has been, since the last completion, and the one that was last has not timed out since.
   */
  lemma AnsweredFromTheStart(run: seq<State>, moves: seq<Move>, i: nat, rsp: seq<int>)
    requires IsRun(run, moves) && i < |moves| && moves[i] == Move(TheServer, Complete(rsp))
    ensures Wf(run[i]) && run[i].queue != []
    ensures var p, n, b := run[i].queue[0], run[i].prods[run[i].queue[0]].sends, Begun(run[i].log);
            var t := Tell(run[i + 1].log, p, n);
            && t.Done?
            && (t.first <==> b.Some? && Tell(run[i].log, b.value.0, b.value.1) != Over(TimedOut))
            && (t.first ==> b == Some((p, n)))
  {
    var s, r := run[i], run[i + 1];
    assert Step(s, moves[i]) == Some(r);
    InvHolds(run, moves, i);
    BegunHolds(run, moves, i);
    CompleteKeeps(s, rsp, r);
  }

  // ---- a send and its call ---------------------------------------------------------------------------

  /** Producer `p` is in a send of `len` bytes, with room for `max` bytes of response. */
  ghost predicate Sends(s: State, p: nat, len: nat, max: nat) {
    p < |s.prods| && s.prods[p].pc != Idle && s.prods[p].len == len && s.prods[p].max == max
  }

  ghost predicate SendLink(run: seq<State>, moves: seq<Move>, m: nat, p: nat, len: nat, max: nat)
    requires m < |moves| && |run| == |moves| + 1
  {
    Sends(run[m + 1], p, len, max) ==> Sends(run[m], p, len, max) || moves[m] == Move(Of(p), Send(len, max))
  }

  ghost predicate SendsSince(run: seq<State>, m: nat, i: nat, p: nat, len: nat, max: nat)
    requires i < |run|
  {
    forall n :: m <= n <= i ==> Sends(run[n], p, len, max)
  }

  lemma {:induction false} SentSince(run: seq<State>, moves: seq<Move>, i: nat, p: nat, len: nat, max: nat)
    returns (m: nat)
    requires |run| == |moves| + 1 && i < |run| && Sends(run[i], p, len, max) && !Sends(run[0], p, len, max)
    requires forall n :: 0 <= n < |moves| ==> SendLink(run, moves, n, p, len, max)
    ensures m < i && moves[m] == Move(Of(p), Send(len, max)) && SendsSince(run, m + 1, i, p, len, max)
  {
    m := i - 1;
    assert SendLink(run, moves, m, p, len, max);
    if Sends(run[m], p, len, max) {
      m := SentSince(run, moves, i - 1, p, len, max);
    }
  }

  /** A send under way is one that was asked for, with its message and its room for a response. */
  lemma SentAsAsked(run: seq<State>, moves: seq<Move>, i: nat, p: nat) returns (m: nat)
    requires IsRun(run, moves) && i < |run| && p < |run[i].prods| && run[i].prods[p].pc != Idle
    ensures m < i && moves[m] == Move(Of(p), Send(run[i].prods[p].len, run[i].prods[p].max))
    ensures SendsSince(run, m + 1, i, p, run[i].prods[p].len, run[i].prods[p].max)
  {
    var len, max := run[i].prods[p].len, run[i].prods[p].max;
    forall n | 0 <= n < |moves| ensures SendLink(run, moves, n, p, len, max) {
      assert Step(run[n], moves[n]) == Some(run[n + 1]);
    }
    m := SentSince(run, moves, i, p, len, max);
  }

  /** The first message can be read from where it has a byte, and answered once it has been read. */
  lemma ServedJustWhen(s: State, a: Action)
    requires Wf(s) && s.server == Free && (a.Retrieve? || a.Complete?)
    ensures Step(s, Move(TheServer, a)).Some? <==>
            s.queue != [] && if a.Retrieve? then a.start < s.prods[s.queue[0]].len
                             else s.prods[s.queue[0]].state == Retrieved
  {
  }

  /** A producer that has sent eight bytes, and how far it has got. */
  function Sender(pc: Pc, state: Progress, stamp: nat, first: bool): Producer {
    Producer(pc, 1, state, 8, 0, [], stamp, first)
  }

  const NOBODY := Producer(Idle, 0, Queued, 0, 0, [], 0, false)

  lemma Pair(a: Producer, b: Producer, x: Producer)
    ensures [a, b][0 := x] == [x, b] && [a, b][1 := x] == [a, x]
  {
  }

  ghost predicate Reached(s: State) {
    exists run, moves :: IsRun(run, moves) && run[|run| - 1] == s
  }

  lemma ReachesOn(s: State, m: Move, r: State)
    requires Reached(s) && Step(s, m) == Some(r)
    ensures Reached(r)
  {
    var run, moves :| IsRun(run, moves) && run[|run| - 1] == s;
    var run1, moves1 := run + [r], moves + [m];
    forall i | 0 <= i < |moves1| ensures Step(run1[i], moves1[i]) == Some(run1[i + 1]) {
      assert i < |moves| ==> Step(run[i], moves[i]) == Some(run[i + 1]);
    }
    assert IsRun(run1, moves1);
  }

  const SENT0 := Event(0, 1, Sent)
  const SENT1 := Event(1, 1, Sent)
  const READ0 := Event(0, 1, Read(0))
  const LATE0 := Event(0, 1, Returned(TimedOut))
  const READ1 := Event(1, 1, Read(4))
  const DONE1 := Event(1, 1, Answered(true, []))

  function BothSent(): State {
    State([Sender(Polling, Queued, 0, false), Sender(Polling, Queued, 1, false)], [0, 1], 2, Free, 2, [SENT0, SENT1])
  }

  function FirstRead(pc: Pc): State {
    State([Sender(pc, Retrieved, 0, true), Sender(Polling, Queued, 1, false)], [0, 1], 2, Free, 2,
          [SENT0, SENT1, READ0])
  }

  function FirstGone(): State {
    State([Sender(Idle, Retrieved, 0, true), Sender(Polling, Queued, 1, false)], [1], 1, Free, 2,
          [SENT0, SENT1, READ0, LATE0])
  }

  function ReadOn(): State {
    State([Sender(Idle, Retrieved, 0, true), Sender(Polling, Retrieved, 1, false)], [1], 1, Free, 2,
          [SENT0, SENT1, READ0, LATE0, READ1])
  }

  function SecondAnswered(): State {
    ReadOn().(queue := [], count := 0, server := Storing(1, true), log := [SENT0, SENT1, READ0, LATE0, READ1, DONE1])
  }

  lemma SendsBoth()
    ensures Reached(BothSent())
  {
    var s0 := State([NOBODY, NOBODY], [], 0, Free, 0, []);
    assert IsRun([s0], []);
    var s1 := State([Sender(Polling, Queued, 0, false), NOBODY], [0], 1, Free, 1, [SENT0]);
    assert Step(s0, Move(Of(0), Send(8, 0))) == Some(s1) by {
      Pair(NOBODY, NOBODY, s1.prods[0]);
      assert [] + [0] == [0] && [] + [SENT0] == [SENT0];
    }
    ReachesOn(s0, Move(Of(0), Send(8, 0)), s1);
    assert Step(s1, Move(Of(1), Send(8, 0))) == Some(BothSent()) by {
      Pair(s1.prods[0], NOBODY, BothSent().prods[1]);
      assert [0] + [1] == [0, 1] && [SENT0] + [SENT1] == [SENT0, SENT1];
    }
    ReachesOn(s1, Move(Of(1), Send(8, 0)), BothSent());
  }

  lemma ReadsFirst()
    requires Reached(BothSent())
    ensures Reached(FirstRead(Late))
  {
    var s, r, l := BothSent(), FirstRead(Polling), FirstRead(Late);
    assert Step(s, Move(TheServer, Retrieve(0))) == Some(r) by {
      Pair(s.prods[0], s.prods[1], r.prods[0]);
      assert [SENT0, SENT1] + [READ0] == [SENT0, SENT1, READ0];
    }
    ReachesOn(s, Move(TheServer, Retrieve(0)), r);
    assert Step(r, Move(Of(0), Poll(true))) == Some(l) by {
      Pair(r.prods[0], r.prods[1], l.prods[0]);
    }
    ReachesOn(r, Move(Of(0), Poll(true)), l);
  }

  lemma FirstExpires()
    requires Reached(FirstRead(Late))
    ensures Reached(FirstGone())
  {
    var s, r := FirstRead(Late), FirstGone();
    assert Step(s, Move(Of(0), Expire)) == Some(r) by {
      Pair(s.prods[0], s.prods[1], r.prods[0]);
      assert Without([0, 1], 0) == [0, 1][1..] == [1];
      assert [SENT0, SENT1, READ0] + [LATE0] == [SENT0, SENT1, READ0, LATE0];
    }
    ReachesOn(s, Move(Of(0), Expire), r);
  }

  lemma ReadsOn()
    requires Reached(FirstGone())
    ensures Reached(ReadOn())
  {
    var s, r := FirstGone(), ReadOn();
    assert Step(s, Move(TheServer, Retrieve(4))) == Some(r) by {
      Pair(s.prods[0], s.prods[1], r.prods[1]);
      assert [SENT0, SENT1, READ0, LATE0] + [READ1] == [SENT0, SENT1, READ0, LATE0, READ1];
    }
    ReachesOn(s, Move(TheServer, Retrieve(4)), r);
  }

  lemma AnswersSecond()
    requires Reached(ReadOn())
    ensures Reached(SecondAnswered())
  {
    var s, r := ReadOn(), SecondAnswered();
    assert Step(s, Move(TheServer, Complete([]))) == Some(r) by {
      Pair(s.prods[0], s.prods[1], s.prods[1]);
      assert Without([1], 1) == [1][1..] == [];
      assert [SENT0, SENT1, READ0, LATE0, READ1] + [DONE1] == [SENT0, SENT1, READ0, LATE0, READ1, DONE1];
    }
    ReachesOn(s, Move(TheServer, Complete([])), r);
  }

  lemma SecondUnread()
    ensures Tell(SecondAnswered().log, 1, 1) == Done(true, [], false)
  {
    var e0, e1, e2, e3, e4 := SENT0, SENT1, READ0, LATE0, READ1;
    TellMore([], e0, 1, 1);
    TellMore([e0], e1, 1, 1);
    TellMore([e0, e1], e2, 1, 1);
    TellMore([e0, e1, e2], e3, 1, 1);
    TellMore([e0, e1, e2, e3], e4, 1, 1);
    TellMore([e0, e1, e2, e3, e4], DONE1, 1, 1);
    assert [] + [e0] == [e0] && [e0] + [e1] == [e0, e1] && [e0, e1] + [e2] == [e0, e1, e2];
    assert [e0, e1, e2] + [e3] == [e0, e1, e2, e3] && [e0, e1, e2, e3] + [e4] == [e0, e1, e2, e3, e4];
    assert [e0, e1, e2, e3, e4] + [DONE1] == [e0, e1, e2, e3, e4, DONE1];
  }

  /**
   It need not have been: a server reads from the first message, which times out, reads on
   from an offset, and answers the second.
   */
  lemma AnsweredUnread() returns (run: seq<State>, moves: seq<Move>)
    ensures IsRun(run, moves)
    ensures Tell(run[|run| - 1].log, 1, 1) == Done(true, [], false)
  {
    SendsBoth();
    ReadsFirst();
    FirstExpires();
    ReadsOn();
    AnswersSecond();
    SecondUnread();
    run, moves :| IsRun(run, moves) && run[|run| - 1] == SecondAnswered();
  }
}
