/**
 Messages carried over by a switch, seen from where they arrive: when one can be read and
 completed, and that its sender gets the words it was completed with. Runs without a stop.
 */
module DomainMail {
  import opened Options
  import opened DomainModel
  import opened DomainPlacement
  import opened DomainCalls
  import DomainMoves

  /** The hart was brought to where it is by a message on channel `ch`, which is not completed. */
  ghost predicate BroughtBy(x: Hart, ch: nat) {
    var st := Calls(x.log);
    st != [] && st[|st| - 1].quiet && Undone(Outstanding(x.log, st[|st| - 1].dom), ch)
  }

  /** ... and which it has read. */
  ghost predicate HasRead(x: Hart, ch: nat) {
    BroughtBy(x, ch) && Message(x).read
  }

  /** The message of the domain that called the hart to where it is. */
  ghost function Message(x: Hart): Pending
    requires var st := Calls(x.log); st != [] && Outstanding(x.log, st[|st| - 1].dom).Some?
  {
    var st := Calls(x.log);
    Outstanding(x.log, st[|st| - 1].dom).value
  }

  lemma SlotIsFound(c: Config, s: State, h: nat, ch: nat)
    requires Wf(c, s) && h < c.harts && CallsOk(c, h, s.harts[h])
    ensures var x := s.harts[h];
            var st := Calls(x.log);
            && (SlotFor(c, s, h, ch).Some? <==> BroughtBy(x, ch))
            && (BroughtBy(x, ch) ==> var d := st[|st| - 1].dom;
                                     && SlotFor(c, s, h, ch) == Some(d) && SlotIs(x.slots[d], Outstanding(x.log, d))
                                     && x.slots[d].outSize == Message(x).outSize)
  {
    var x := s.harts[h];
    var st := Calls(x.log);
    TopWaits(c, s, h);
    if st != [] {
      assert SlotIs(x.slots[st[|st| - 1].dom], Outstanding(x.log, st[|st| - 1].dom));
      AnsweredIsQuiet(c, h, x, st, |st| - 1);
    }
  }

  /** A message can be sent with the hart just when that gets it there: to a context that waits, or to boot one. */
  lemma SendJustWhen(c: Config, s: State, h: nat, ch: nat, msg: seq<int>, outSize: nat)
    requires Wf(c, s) && h < c.harts && s.harts[h].pc.Smode?
    ensures Step(c, s, h, MmSend(ch, msg, outSize)).Some? <==>
            && ch < |c.bridge|
            && var x, t := s.harts[h], c.bridge[ch];
               && t != x.dom && h in c.possible[t] && !s.doms[t].stopping
               && (x.ctx[t].phase.Idle? || (x.ctx[t].phase.Never? && c.bootHart[t] == h))
  {
  }

  /** A message can be read on a channel just when it is what brought the hart, and came on that channel. */
  lemma RetrieveJustWhen(c: Config, run: seq<State>, moves: seq<Move>, i: nat, h: nat, ch: nat)
    requires IsRun(c, run, moves) && NoStops(moves) && i < |run| && h < c.harts && run[i].harts[h].pc.Smode?
    ensures Step(c, run[i], h, Retrieve(ch)).Some? <==> BroughtBy(run[i].harts[h], ch)
  {
    CallsHold(c, run, moves, i);
    RetrieveStep(c, run[i], h, ch);
  }

  lemma RetrieveStep(c: Config, s: State, h: nat, ch: nat)
    requires Wf(c, s) && h < c.harts && CallsOk(c, h, s.harts[h]) && s.harts[h].pc.Smode?
    ensures Step(c, s, h, Retrieve(ch)).Some? <==> BroughtBy(s.harts[h], ch)
  {
    SlotIsFound(c, s, h, ch);
  }

  /** It can be completed just when it has been read. */
  lemma CompleteJustWhen(c: Config, run: seq<State>, moves: seq<Move>, i: nat, h: nat, ch: nat, rsp: seq<int>)
    requires IsRun(c, run, moves) && NoStops(moves) && i < |run| && h < c.harts && run[i].harts[h].pc.Smode?
    ensures Step(c, run[i], h, Complete(ch, rsp)).Some? <==> HasRead(run[i].harts[h], ch) && rsp != []
  {
    CallsHold(c, run, moves, i);
    CompleteStep(c, run[i], h, ch, rsp);
  }

  lemma CompleteStep(c: Config, s: State, h: nat, ch: nat, rsp: seq<int>)
    requires Wf(c, s) && h < c.harts && CallsOk(c, h, s.harts[h]) && s.harts[h].pc.Smode?
    ensures Step(c, s, h, Complete(ch, rsp)).Some? <==> HasRead(s.harts[h], ch) && rsp != []
  {
    SlotIsFound(c, s, h, ch);
  }

  /** What a completion leaves for the step that takes the hart back. */
  ghost predicate Done(x: Hart, d: nat, outSize: nat, rsp: seq<int>) {
    && x.pc.Completing? && d < |x.slots|
    && (var st := Calls(x.log); st != [] && st[|st| - 1].dom == d)
    && x.slots[d].outSize == outSize
    && if |rsp| <= 2 then x.slots[d].state.Completed? && x.slots[d].rsp == rsp
       else x.slots[d].state == Failed(RPMI_BAD_RANGE)
  }

  lemma CompleteIsDone(c: Config, s: State, h: nat, ch: nat, rsp: seq<int>, r: State)
    requires Wf(c, s) && h < c.harts && CallsOk(c, h, s.harts[h]) && Step(c, s, h, Complete(ch, rsp)) == Some(r)
    ensures var x := s.harts[h];
            var st := Calls(x.log);
            && HasRead(x, ch) && rsp != [] && Done(r.harts[h], st[|st| - 1].dom, Message(x).outSize, rsp)
            && r.harts[h].log == x.log + [MsgCompleted(st[|st| - 1].dom, ch, rsp)]
  {
    SlotIsFound(c, s, h, ch);
    var x := s.harts[h];
    LogGrows(x.log, MsgCompleted(SlotFor(c, s, h, ch).value, ch, rsp));
  }

  lemma {:induction false} DoneStays(c: Config, run: seq<State>, moves: seq<Move>, i: nat, j: nat, h: nat)
    requires IsRun(c, run, moves) && i <= j < |run| && h < c.harts
    requires forall m :: i <= m < j ==> moves[m].hart != h
    ensures var x, y := run[i].harts[h], run[j].harts[h];
            y.log == x.log && y.slots == x.slots && y.pc == x.pc && y.dom == x.dom
  {
    if i < j {
      var k := j - 1;
      DoneStays(c, run, moves, i, k, h);
      PlacementHolds(c, run, moves, k);
      assert Step(c, run[k], moves[k].hart, moves[k].action) == Some(run[k + 1]);
      DomainMoves.OthersPass(c, run[k], moves[k].hart, moves[k].action, run[k + 1], h);
    }
  }

  /** The step that takes a completed message back to the domain it came from. */
  lemma BackStep(c: Config, s: State, h: nat, d: nat, r: State)
    requires Wf(c, s) && h < c.harts && s.harts[h].pc.Completing? && LeaveTo(c, s, h, true, None) == Some(d)
    requires BridgeStep(c, s, h) == Some(r)
    ensures r == Leave(c, Told(c, s, h, s.harts[h].live.regs.(a0 := SUCCESS, a1 := 8)), h, d, 0, true)
  {
  }

  lemma BackRecord(c: Config, s: State, h: nat, d: nat)
    requires Wf(c, s) && h < c.harts && d < c.doms && d != s.harts[h].dom && s.harts[h].ctx[d].phase.Calling?
    requires CallerWaits(c, s, h, s.harts[h].dom)
    ensures ReturnRecord(c, h, s.harts[h], Leave(c, s, h, d, 0, true).harts[h], d, 0)
  {
    LeaveRecord(c, s, h, d, 0, true);
    LeftRecord(c, h, s.harts[h], d, 0, true, Leave(c, s, h, d, 0, true).harts[h]);
  }

  lemma DoneGoesBack(c: Config, s: State, h: nat, d: nat, outSize: nat, rsp: seq<int>)
    requires CallsInv(c, s) && h < c.harts && Done(s.harts[h], d, outSize, rsp)
    ensures d < c.doms && d != s.harts[h].dom && s.harts[h].ctx[d].phase.Calling?
    ensures CallerWaits(c, s, h, s.harts[h].dom) && LeaveTo(c, s, h, true, None) == Some(d)
  {
    var x := s.harts[h];
    assert CallsOk(c, h, x);
    NoFlags(c, s);
    TopWaits(c, s, h);
    assert Link(c, h, x, Calls(x.log), |Calls(x.log)| - 1);
  }

  /** It gives the sender the answer. */
  lemma DoneIsAnswered(c: Config, s: State, h: nat, d: nat, outSize: nat, rsp: seq<int>, r: State)
    requires CallsInv(c, s) && h < c.harts && Done(s.harts[h], d, outSize, rsp) && BridgeStep(c, s, h) == Some(r)
    ensures r.harts[h].dom == d && ReturnLog(s.harts[h], r.harts[h], d)
  {
    DoneGoesBack(c, s, h, d, outSize, rsp);
    BackStep(c, s, h, d, r);
    BackRecord(c, Told(c, s, h, s.harts[h].live.regs.(a0 := SUCCESS, a1 := 8)), h, d);
  }

  /** The sender's part of a log that ends with an answer. */
  ghost predicate AnsweredWith(x: Hart, z: Hart, d: nat, ch: nat, outSize: nat, status: int, written: int) {
    && z.dom == d && |z.log| == |x.log| + 3
    && z.log[|x.log|..] == [MsgCompleted(d, ch, [status, written]), Returned,
                            if written <= outSize then MsgAnswered(d, status, written) else MsgAnswered(d, RPMI_IO, 0)]
  }

  lemma LogsAnswer(x: Hart, y: Hart, z: Hart, d: nat, ch: nat, outSize: nat, status: int, written: int)
    requires y.log == x.log + [MsgCompleted(d, ch, [status, written])]
    requires Done(y, d, outSize, [status, written]) && z.dom == d && ReturnLog(y, z, d)
    ensures AnsweredWith(x, z, d, ch, outSize, status, written)
  {
  }

  /**
   A message that is completed with two words takes the hart back to its sender with its next
   step, and if the second is within the sender's output area the sender gets just these.
   */
  lemma CompletionIsAnswered(c: Config, run: seq<State>, moves: seq<Move>, i: nat, j: nat, h: nat, ch: nat,
                             status: int, written: int)
    requires IsRun(c, run, moves) && NoStops(moves) && i < j < |moves| && h < c.harts
    requires moves[i] == Move(h, Complete(ch, [status, written])) && moves[j].hart == h
    requires forall m :: i < m < j ==> moves[m].hart != h
    ensures var x := run[i].harts[h];
            && HasRead(x, ch)
            && var d := Calls(x.log)[|Calls(x.log)| - 1].dom;
               AnsweredWith(x, run[j + 1].harts[h], d, ch, Message(x).outSize, status, written)
  {
    var x := run[i].harts[h];
    DoneUntil(c, run, moves, i, j, h, ch, [status, written]);
    CallsHold(c, run, moves, j);
    assert Step(c, run[j], moves[j].hart, moves[j].action) == Some(run[j + 1]);
    GoOnly(c, run[j], h, moves[j].action);
    var d, outSize := Calls(x.log)[|Calls(x.log)| - 1].dom, Message(x).outSize;
    DoneIsAnswered(c, run[j], h, d, outSize, [status, written], run[j + 1]);
    LogsAnswer(x, run[j].harts[h], run[j + 1].harts[h], d, ch, outSize, status, written);
  }

  lemma DoneUntil(c: Config, run: seq<State>, moves: seq<Move>, i: nat, j: nat, h: nat, ch: nat, rsp: seq<int>)
    requires IsRun(c, run, moves) && NoStops(moves) && i < j < |moves| && h < c.harts
    requires moves[i] == Move(h, Complete(ch, rsp)) && forall m :: i < m < j ==> moves[m].hart != h
    ensures var x, y := run[i].harts[h], run[j].harts[h];
            && HasRead(x, ch)
            && var d := Calls(x.log)[|Calls(x.log)| - 1].dom;
               Done(y, d, Message(x).outSize, rsp) && y.log == x.log + [MsgCompleted(d, ch, rsp)]
  {
    CallsHold(c, run, moves, i);
    assert Step(c, run[i], moves[i].hart, moves[i].action) == Some(run[i + 1]);
    CompleteIsDone(c, run[i], h, ch, rsp, run[i + 1]);
    DoneStays(c, run, moves, i + 1, j, h);
  }

  lemma GoOnly(c: Config, s: State, h: nat, a: Action)
    requires Wf(c, s) && h < c.harts && s.harts[h].pc.Completing? && Step(c, s, h, a).Some?
    ensures Step(c, s, h, a) == BridgeStep(c, s, h)
  {
  }
}
