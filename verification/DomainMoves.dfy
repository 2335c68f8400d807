/**
 Who may go where: a hart changes its domain just when the domains, the tree and the flags
 allow it, whatever step it makes; and what it finds in a domain it is new to.
 */
module DomainMoves {
  import opened Options
  import opened DomainModel
  import opened DomainPlacement
  import DomainStop
  import DomainCalls

  // ---- what allows a move ---------------------------------------------------------------

  /** The hart was called from domain `b`, which waits for it. */
  ghost predicate CalledFrom(c: Config, s: State, h: nat, b: nat)
    requires Wf(c, s) && h < c.harts && b < c.doms
  {
    var x := s.harts[h];
    x.ctx[x.dom].caller == Some(b) && x.ctx[b].phase.Calling?
  }

  ghost predicate Uncalled(c: Config, s: State, h: nat)
    requires Wf(c, s) && h < c.harts
  {
    forall b :: 0 <= b < c.doms ==> !CalledFrom(c, s, h, b)
  }

  /** The hart may run the other domain, and neither is being stopped. */
  ghost predicate Open(c: Config, s: State, h: nat, b: nat)
    requires Wf(c, s) && h < c.harts && b < c.doms
  {
    && b != s.harts[h].dom && h in c.possible[b]
    && !s.doms[s.harts[h].dom].stopping && !s.doms[b].stopping
  }

  /** An exit without a caller may go on to boot domain `b`. */
  ghost predicate ExitBoots(c: Config, s: State, h: nat, b: nat)
    requires Wf(c, s) && h < c.harts && b < c.doms
  {
    b != 0 && Open(c, s, h, b) && (s.harts[h].dom, b) in c.mayEnter && s.harts[h].ctx[b].phase.Never?
  }

  /** What lets hart `h` get to domain `b` by action `a`. */
  ghost predicate Allowed(c: Config, s: State, h: nat, a: Action, b: nat)
    requires Wf(c, s) && h < c.harts && b < c.doms
  {
    var x := s.harts[h];
    var stays, anew := x.ctx[b].phase.Idle?, x.ctx[b].phase.Never?;
    match a
    case DomainEnter(t, _) =>
      && x.pc.Smode? && b == t && Open(c, s, h, b) && (x.dom, b) in c.mayEnter
      && (stays || (anew && c.entryOk[b]))
    case DomainExit(_) =>
      && x.pc.Smode? && !s.doms[x.dom].stopping
      && (CalledFrom(c, s, h, b)
          || (Uncalled(c, s, h) && ExitBoots(c, s, h, b) && forall e :: 0 <= e < b ==> !ExitBoots(c, s, h, e)))
    case Yield(first) =>
      && x.pc.Smode? && !s.doms[x.dom].stopping
      && (CalledFrom(c, s, h, b)
          || (Uncalled(c, s, h) && first == Some(b) && Open(c, s, h, b)
              && anew && c.bootHart[b] == h && c.entryOk[b]))
    case Go =>
      || (x.pc.Sending? && b == c.bridge[x.pc.chan] && Open(c, s, h, b)
          && (stays || (anew && c.bootHart[b] == h && c.entryOk[b])))
      || (x.pc.Completing? && !s.doms[x.dom].stopping && CalledFrom(c, s, h, b))
      || (x.pc.StopSelf? && CalledFrom(c, s, h, b))
    case _ => false
  }

  /** Hart `h` does `a` and is in domain `b` then. */
  ghost predicate Arrives(c: Config, s: State, h: nat, a: Action, b: nat)
    requires Wf(c, s) && h < c.harts
  {
    Step(c, s, h, a).Some? && Step(c, s, h, a).value.harts[h].dom == b
  }

  // ---- where each operation ends ----------------------------------------------------------

  lemma EnterEnds(c: Config, s: State, h: nat, t: nat, arg: int, quiet: bool)
    requires Wf(c, s) && h < c.harts && t < c.doms && t != s.harts[h].dom
    ensures Enter(c, s, h, t, arg, quiet).harts[h].dom == t
    ensures forall i :: 0 <= i < c.harts && i != h ==> Enter(c, s, h, t, arg, quiet).harts[i] == s.harts[i]
  {
    DomainCalls.EnterRecord(c, s, h, t, arg, quiet);
  }

  lemma LeaveEnds(c: Config, s: State, h: nat, t: nat, value: int, quiet: bool)
    requires Wf(c, s) && h < c.harts && t < c.doms && t != s.harts[h].dom
    ensures Leave(c, s, h, t, value, quiet).harts[h].dom == t
    ensures forall i :: 0 <= i < c.harts && i != h ==> Leave(c, s, h, t, value, quiet).harts[i] == s.harts[i]
  {
    DomainCalls.LeaveRecord(c, s, h, t, value, quiet);
  }

  lemma WaitsForIt(c: Config, s: State, h: nat)
    requires Wf(c, s) && h < c.harts
    ensures CallerWaits(c, s, h, s.harts[h].dom) <==> !Uncalled(c, s, h)
    ensures forall b :: 0 <= b < c.doms ==>
              (CalledFrom(c, s, h, b) <==>
               CallerWaits(c, s, h, s.harts[h].dom) && s.harts[h].ctx[s.harts[h].dom].caller == Some(b))
  {
    var x := s.harts[h];
    if CallerWaits(c, s, h, x.dom) {
      assert CalledFrom(c, s, h, x.ctx[x.dom].caller.value);
    }
  }

  lemma EnterJustWhen(c: Config, s: State, h: nat, t: nat, arg: int, b: nat)
    requires Placement(c, s) && h < c.harts && b < c.doms && b != s.harts[h].dom
    ensures Arrives(c, s, h, DomainEnter(t, arg), b) <==> Allowed(c, s, h, DomainEnter(t, arg), b)
  {
    EnterAnswers(c, s, h, b, false);
    if t < c.doms && t != s.harts[h].dom {
      EnterEnds(c, s, h, t, arg, false);
    }
  }

  lemma ExitTarget(c: Config, s: State, h: nat, b: nat)
    requires Placement(c, s) && h < c.harts && b < c.doms && b != s.harts[h].dom && s.harts[h].pc.Smode?
    ensures LeaveTo(c, s, h, false, None) == Some(b) <==> Allowed(c, s, h, DomainExit(0), b)
  {
    WaitsForIt(c, s, h);
    if !s.doms[s.harts[h].dom].stopping {
      forall e | 0 <= e < c.doms ensures e != 0 && BootDue(c, s, h, e) <==> ExitBoots(c, s, h, e) { }
    }
  }

  lemma ExitJustWhen(c: Config, s: State, h: nat, value: int, b: nat)
    requires Placement(c, s) && h < c.harts && b < c.doms && b != s.harts[h].dom
    ensures Arrives(c, s, h, DomainExit(value), b) <==> Allowed(c, s, h, DomainExit(value), b)
  {
    if s.harts[h].pc.Smode? {
      ExitTarget(c, s, h, b);
      var to := LeaveTo(c, s, h, false, None);
      if to.Some? {
        LeaveToPossible(c, s, h, false, None);
        LeaveEnds(c, s, h, to.value, value, false);
      }
    }
  }

  lemma YieldTarget(c: Config, s: State, h: nat, first: Option<nat>, b: nat)
    requires Placement(c, s) && h < c.harts && b < c.doms && b != s.harts[h].dom && s.harts[h].pc.Smode?
    ensures LeaveTo(c, s, h, true, first) == Some(b) <==> Allowed(c, s, h, Yield(first), b)
  {
    WaitsForIt(c, s, h);
  }

  lemma ToldEnds(c: Config, s: State, h: nat, regs: Regs, t: nat)
    requires Wf(c, s) && h < c.harts && t < c.doms && t != s.harts[h].dom
    ensures Leave(c, Told(c, s, h, regs), h, t, 0, true).harts[h].dom == t
    ensures forall i :: 0 <= i < c.harts && i != h ==>
              Leave(c, Told(c, s, h, regs), h, t, 0, true).harts[i] == s.harts[i]
  {
    LeaveEnds(c, Told(c, s, h, regs), h, t, 0, true);
  }

  lemma YieldJustWhen(c: Config, s: State, h: nat, first: Option<nat>, b: nat)
    requires Placement(c, s) && h < c.harts && b < c.doms && b != s.harts[h].dom
    ensures Arrives(c, s, h, Yield(first), b) <==> Allowed(c, s, h, Yield(first), b)
  {
    if s.harts[h].pc.Smode? {
      YieldTarget(c, s, h, first, b);
      var to := LeaveTo(c, s, h, true, first);
      if to.Some? {
        LeaveToPossible(c, s, h, true, first);
        ToldEnds(c, s, h, Again(s.harts[h].live.regs), to.value);
      }
    }
  }

  /** The step of a message that is to be carried over, and where it ends. */
  lemma SendingLeads(c: Config, s: State, h: nat, t: nat)
    requires Wf(c, s) && h < c.harts && s.harts[h].pc.Sending? && t == c.bridge[s.harts[h].pc.chan]
    ensures Step(c, s, h, Go) == BridgeStep(c, s, h) && BridgeStep(c, s, h).Some?
    ensures var goes := Enterable(c, s, h, t) && EnterRc(c, s, h, t, true).Ok?;
            var r := BridgeStep(c, s, h).value;
            && (goes ==> r == Enter(c, At(c, s, h, Smode), h, t, 0, true) && t != s.harts[h].dom)
            && r.harts[h].dom == if goes then t else s.harts[h].dom
  {
    if t != s.harts[h].dom {
      EnterEnds(c, At(c, s, h, Smode), h, t, 0, true);
    }
  }

  ghost predicate CarriesTo(c: Config, s: State, h: nat, b: nat)
    requires Wf(c, s) && h < c.harts && b < c.doms && s.harts[h].pc.Sending?
  {
    b == c.bridge[s.harts[h].pc.chan] && Enterable(c, s, h, b) && EnterRc(c, s, h, b, true).Ok?
  }

  lemma SendingArrives(c: Config, s: State, h: nat, b: nat)
    requires Wf(c, s) && h < c.harts && b < c.doms && b != s.harts[h].dom && s.harts[h].pc.Sending?
    ensures Arrives(c, s, h, Go, b) <==> CarriesTo(c, s, h, b)
  {
    SendingLeads(c, s, h, c.bridge[s.harts[h].pc.chan]);
  }

  lemma SendingAllowed(c: Config, s: State, h: nat, b: nat)
    requires Wf(c, s) && h < c.harts && b < c.doms && b != s.harts[h].dom && s.harts[h].pc.Sending?
    ensures Allowed(c, s, h, Go, b) <==> CarriesTo(c, s, h, b)
  {
    EnterAnswers(c, s, h, b, true);
  }

  lemma SendingJustWhen(c: Config, s: State, h: nat, b: nat)
    requires Placement(c, s) && h < c.harts && b < c.doms && b != s.harts[h].dom && s.harts[h].pc.Sending?
    ensures Arrives(c, s, h, Go, b) <==> Allowed(c, s, h, Go, b)
  {
    SendingArrives(c, s, h, b);
    SendingAllowed(c, s, h, b);
  }

  lemma CompletingLeads(c: Config, s: State, h: nat)
    requires Placement(c, s) && h < c.harts && s.harts[h].pc.Completing?
    ensures Step(c, s, h, Go) == BridgeStep(c, s, h) && BridgeStep(c, s, h).Some?
    ensures var to := LeaveTo(c, s, h, true, None);
            BridgeStep(c, s, h).value.harts[h].dom == if to.Some? then to.value else s.harts[h].dom
  {
    var to := LeaveTo(c, s, h, true, None);
    if to.Some? {
      LeaveToPossible(c, s, h, true, None);
      ToldEnds(c, s, h, s.harts[h].live.regs.(a0 := SUCCESS, a1 := 8), to.value);
    }
  }

  lemma CompletingArrives(c: Config, s: State, h: nat, b: nat)
    requires Placement(c, s) && h < c.harts && b < c.doms && b != s.harts[h].dom && s.harts[h].pc.Completing?
    ensures Arrives(c, s, h, Go, b) <==> LeaveTo(c, s, h, true, None) == Some(b)
  {
    CompletingLeads(c, s, h);
  }

  lemma CompletingAllowed(c: Config, s: State, h: nat, b: nat)
    requires Wf(c, s) && h < c.harts && b < c.doms && s.harts[h].pc.Completing?
    ensures Allowed(c, s, h, Go, b) <==> LeaveTo(c, s, h, true, None) == Some(b)
  {
    WaitsForIt(c, s, h);
  }

  lemma CompletingJustWhen(c: Config, s: State, h: nat, b: nat)
    requires Placement(c, s) && h < c.harts && b < c.doms && b != s.harts[h].dom && s.harts[h].pc.Completing?
    ensures Arrives(c, s, h, Go, b) <==> Allowed(c, s, h, Go, b)
  {
    CompletingArrives(c, s, h, b);
    CompletingAllowed(c, s, h, b);
  }

  lemma StopSelfLeads(c: Config, s: State, h: nat)
    requires Placement(c, s) && h < c.harts && s.harts[h].pc.StopSelf?
    ensures Step(c, s, h, Go) == Some(StopSelfStep(c, s, h))
    ensures var x := s.harts[h];
            StopSelfStep(c, s, h).harts[h].dom
            == if CallerWaits(c, s, h, x.dom) then x.ctx[x.dom].caller.value else x.dom
  {
    if CallerWaits(c, s, h, s.harts[h].dom) {
      DomainStop.StopSelfMoves(c, s, h);
    }
  }

  lemma StopSelfJustWhen(c: Config, s: State, h: nat, b: nat)
    requires Placement(c, s) && h < c.harts && b < c.doms && b != s.harts[h].dom && s.harts[h].pc.StopSelf?
    ensures Arrives(c, s, h, Go, b) <==> Allowed(c, s, h, Go, b)
  {
    WaitsForIt(c, s, h);
    StopSelfLeads(c, s, h);
  }

  lemma GoJustWhen(c: Config, s: State, h: nat, b: nat)
    requires Placement(c, s) && h < c.harts && b < c.doms && b != s.harts[h].dom
    ensures Arrives(c, s, h, Go, b) <==> Allowed(c, s, h, Go, b)
  {
    var pc := s.harts[h].pc;
    if pc.Sending? { SendingJustWhen(c, s, h, b); }
    else if pc.Completing? { CompletingJustWhen(c, s, h, b); }
    else if pc.StopSelf? { StopSelfJustWhen(c, s, h, b); }
    else if Booting(pc) { BootStays(c, s, h); }
    else if Stopping(pc) { StopStays(c, s, h); }
    else { HsmStays(c, s, h); }
  }

  lemma BootStays(c: Config, s: State, h: nat)
    requires Wf(c, s) && h < c.harts && Booting(s.harts[h].pc)
    ensures BootStep(c, s, h).Some? ==> BootStep(c, s, h).value.harts[h].dom == s.harts[h].dom
  {
  }

  lemma StopStays(c: Config, s: State, h: nat)
    requires Wf(c, s) && h < c.harts && Stopping(s.harts[h].pc)
    ensures StopStep(c, s, h).Some? ==> StopStep(c, s, h).value.harts[h].dom == s.harts[h].dom
  {
  }

  lemma HsmStays(c: Config, s: State, h: nat)
    requires Wf(c, s) && h < c.harts && !s.harts[h].pc.StopSelf?
    ensures HsmStep(c, s, h).Some? ==> HsmStep(c, s, h).value.harts[h].dom == s.harts[h].dom
  {
  }

  /** A hart gets to another domain by a step just when that is allowed. */
  lemma MovesJustWhen(c: Config, s: State, h: nat, a: Action, b: nat)
    requires Placement(c, s) && h < c.harts && b < c.doms && b != s.harts[h].dom
    ensures Arrives(c, s, h, a, b) <==> Allowed(c, s, h, a, b)
  {
    match a
    case DomainEnter(t, arg) => EnterJustWhen(c, s, h, t, arg, b);
    case DomainExit(value) => ExitJustWhen(c, s, h, value, b);
    case Yield(first) => YieldJustWhen(c, s, h, first, b);
    case Go => GoJustWhen(c, s, h, b);
    case _ => OthersStay(c, s, h, a);
  }

  lemma OthersStay(c: Config, s: State, h: nat, a: Action)
    requires Wf(c, s) && h < c.harts && !a.DomainEnter? && !a.DomainExit? && !a.Yield? && !a.Go?
    ensures Step(c, s, h, a).Some? ==> Step(c, s, h, a).value.harts[h].dom == s.harts[h].dom
  {
  }

  // ---- the errors of an enter ---------------------------------------------------------------

  /** Each answer of enter() has its cause, and no cause of an earlier one. */
  lemma EnterAnswers(c: Config, s: State, h: nat, t: nat, quiet: bool)
    requires Wf(c, s) && h < c.harts && t < c.doms
    ensures var x, rc := s.harts[h], EnterRc(c, s, h, t, quiet);
            var may := quiet || (x.dom, t) in c.mayEnter;
            var open := may && Open(c, s, h, t);
            && (rc.InvalidParam? <==> t == x.dom || h !in c.possible[t])
            && (rc.Denied? <==> t != x.dom && h in c.possible[t]
                                && (!may || s.doms[t].stopping || s.doms[x.dom].stopping))
            && (rc.AlreadyAvailable? <==> open && (x.ctx[t].phase.Running? || x.ctx[t].phase.Calling?))
            && (rc.InvalidAddress? <==> open && x.ctx[t].phase.Never? && !c.entryOk[t])
            && (rc.Ok? <==> open && (x.ctx[t].phase.Idle? || (x.ctx[t].phase.Never? && c.entryOk[t])))
  {
  }

  /**
   In runs without a stop, what the other tests let through is refused as available already just
   when its domain is one of those that wait for this one, some calls down.
   */
  lemma EnterTwice(c: Config, run: seq<State>, moves: seq<Move>, i: nat, h: nat, t: nat, quiet: bool, n: nat)
    requires IsRun(c, run, moves) && DomainCalls.NoStops(moves) && i < |run| && h < c.harts && t < c.doms
    requires n >= |DomainCalls.Calls(run[i].harts[h].log)|
    requires var x := run[i].harts[h]; Open(c, run[i], h, t) && (quiet || (x.dom, t) in c.mayEnter)
    ensures var x := run[i].harts[h];
            EnterRc(c, run[i], h, t, quiet).AlreadyAvailable? <==> t in DomainCalls.Callers(x, x.dom, n)
  {
    DomainCalls.CallersAreTheChain(c, run, moves, i, h, n);
    EnterAnswers(c, run[i], h, t, quiet);
    PlacementHolds(c, run, moves, i);
    assert Placed(c, run[i], h);
  }

  /**
   An exit out of a domain being stopped, with no caller that waits, is refused; the context it would
   have gone on to, if there is one, has no caller then, and nothing else has changed.
   */
  lemma ExitRefused(c: Config, s: State, h: nat, value: int, t: nat)
    requires Wf(c, s) && h < c.harts && s.harts[h].pc.Smode? && s.doms[s.harts[h].dom].stopping && Uncalled(c, s, h)
    requires 0 < t < c.doms && BootDue(c, s, h, t) && forall e :: 0 < e < t ==> !BootDue(c, s, h, e)
    ensures Step(c, s, h, DomainExit(value)).Some?
    ensures var x, r := s.harts[h], Step(c, s, h, DomainExit(value)).value;
            && r == s.(harts := s.harts[h := r.harts[h]])
            && r.harts[h] == x.(ctx := x.ctx[t := x.ctx[t].(caller := None)])
  {
    WaitsForIt(c, s, h);
  }

  // ---- other harts ------------------------------------------------------------------------------

  /** Nobody else changes more of a hart than the state hsm.c keeps of it and its contexts. */
  ghost predicate Bystander(x: Hart, y: Hart) {
    y == x.(hsm := y.hsm, ctx := y.ctx)
  }

  lemma CallPasses(c: Config, s: State, g: nat, a: Action, r: State, h: nat)
    requires Placement(c, s) && g < c.harts && h < c.harts && g != h
    requires s.harts[g].pc.Smode? && Call(c, s, g, a) == Some(r)
    ensures Bystander(s.harts[h], r.harts[h])
  {
    var x := s.harts[g];
    match a
    case DomainEnter(t, arg) => EnterEnds(c, s, g, t, arg, false);
    case DomainExit(value) => LeavePasses(c, s, g, value, r, h);
    case Yield(first) => YieldPasses(c, s, g, first, r, h);
    case DomainStart(d, _) => assert Forget(c, s, d).harts[h] == Forgotten(s.harts[h], d);
    case _ =>
  }

  lemma LeavePasses(c: Config, s: State, g: nat, value: int, r: State, h: nat)
    requires Placement(c, s) && g < c.harts && h < c.harts && g != h
    requires s.harts[g].pc.Smode? && Call(c, s, g, DomainExit(value)) == Some(r)
    ensures r.harts[h] == s.harts[h]
  {
    var to := LeaveTo(c, s, g, false, None);
    if to.Some? {
      LeaveToPossible(c, s, g, false, None);
      LeaveEnds(c, s, g, to.value, value, false);
    }
  }

  lemma YieldPasses(c: Config, s: State, g: nat, first: Option<nat>, r: State, h: nat)
    requires Placement(c, s) && g < c.harts && h < c.harts && g != h
    requires s.harts[g].pc.Smode? && Call(c, s, g, Yield(first)) == Some(r)
    ensures r.harts[h] == s.harts[h]
  {
    var to := LeaveTo(c, s, g, true, first);
    if to.Some? {
      LeaveToPossible(c, s, g, true, first);
      ToldEnds(c, s, g, Again(s.harts[g].live.regs), to.value);
    }
  }

  lemma BridgePasses(c: Config, s: State, g: nat, r: State, h: nat)
    requires Placement(c, s) && g < c.harts && h < c.harts && g != h && BridgeStep(c, s, g) == Some(r)
    ensures r.harts[h] == s.harts[h]
  {
    if s.harts[g].pc.Sending? {
      var t := c.bridge[s.harts[g].pc.chan];
      if t != s.harts[g].dom {
        EnterEnds(c, At(c, s, g, Smode), g, t, 0, true);
      }
    } else {
      var to := LeaveTo(c, s, g, true, None);
      if to.Some? {
        LeaveToPossible(c, s, g, true, None);
        ToldEnds(c, s, g, s.harts[g].live.regs.(a0 := SUCCESS, a1 := 8), to.value);
      }
    }
  }

  lemma StopPasses(c: Config, s: State, g: nat, r: State, h: nat)
    requires Wf(c, s) && g < c.harts && h < c.harts && g != h && StopStep(c, s, g) == Some(r)
    ensures Bystander(s.harts[h], r.harts[h])
  {
    if s.harts[g].pc.StopRaise? {
      assert Raise(c, s, s.harts[g].pc.dom).harts[h] == Dropped(s.harts[h], s.harts[g].pc.dom);
    }
  }

  lemma StopSelfPasses(c: Config, s: State, g: nat, h: nat)
    requires Wf(c, s) && g < c.harts && h < c.harts && g != h
    ensures StopSelfStep(c, s, g).harts[h] == s.harts[h]
  {
    var x := s.harts[g];
    if CallerWaits(c, s, g, x.dom) {
      var gone := x.(ctx := x.ctx[x.dom := x.ctx[x.dom].(phase := Never, caller := None)], pc := Smode);
      DomainCalls.SwitchRecord(c, SetHart(s, g, gone), g, x.ctx[x.dom].caller.value, ERR_FAILED, 0);
    }
  }

  lemma OthersPass(c: Config, s: State, g: nat, a: Action, r: State, h: nat)
    requires Placement(c, s) && h < c.harts && g != h && Step(c, s, g, a) == Some(r)
    ensures Bystander(s.harts[h], r.harts[h])
  {
    var pc := s.harts[g].pc;
    if a.Go? {
      if Booting(pc) { }
      else if Stopping(pc) { StopPasses(c, s, g, r, h); }
      else if Bridging(pc) { BridgePasses(c, s, g, r, h); }
      else if pc.StopSelf? { StopSelfPasses(c, s, g, h); }
      else { }
    } else if !a.Wake? {
      CallPasses(c, s, g, a, r, h);
    }
  }

  // ---- over runs ------------------------------------------------------------------------------------

  /** In every run a hart that changes domain does so by its own step, and one that is allowed. */
  lemma MoveIsAllowed(c: Config, run: seq<State>, moves: seq<Move>, i: nat, h: nat)
    requires IsRun(c, run, moves) && i < |moves| && h < c.harts && run[i + 1].harts[h].dom != run[i].harts[h].dom
    ensures moves[i].hart == h && Allowed(c, run[i], h, moves[i].action, run[i + 1].harts[h].dom)
  {
    PlacementHolds(c, run, moves, i);
    assert Step(c, run[i], moves[i].hart, moves[i].action) == Some(run[i + 1]);
    if moves[i].hart != h {
      OthersPass(c, run[i], moves[i].hart, moves[i].action, run[i + 1], h);
    } else {
      MovesJustWhen(c, run[i], h, moves[i].action, run[i + 1].harts[h].dom);
    }
  }

  /** An enter, or an exit that returns to nobody. */
  ghost predicate Asks(c: Config, s: State, h: nat, a: Action)
    requires Wf(c, s) && h < c.harts
  {
    a.DomainEnter? || (a.DomainExit? && Uncalled(c, s, h))
  }

  /** Such a one takes the hart to a domain that its own may enter, and so never to the root domain. */
  lemma EntersWithLeave(c: Config, run: seq<State>, moves: seq<Move>, i: nat, h: nat)
    requires IsRun(c, run, moves) && i < |moves| && h < c.harts && Asks(c, run[i], h, moves[i].action)
    requires run[i + 1].harts[h].dom != run[i].harts[h].dom
    ensures (run[i].harts[h].dom, run[i + 1].harts[h].dom) in c.mayEnter && run[i + 1].harts[h].dom != 0
  {
    MoveIsAllowed(c, run, moves, i, h);
  }

  // ---- the first run in a domain ----------------------------------------------------------------------

  /** As a hart comes out of reset, at the entry of domain `t`, with its hart id and the domain's argument. */
  ghost predicate OutOfReset(c: Config, h: nat, t: nat, live: Live)
    requires WfConfig(c) && t < c.doms
  {
    && live.regs.a0 == h && live.regs.a1 == c.nextArg1[t] && live.regs.mepc == c.nextAddr[t]
    && live.regs.mstatus.mpp == c.nextMode[t] && live.regs.mstatus.flags == {}
    && |live.regs.rest| == 28 && (forall i :: 0 <= i < 28 ==> live.regs.rest[i] == 0)
    && live.csrs.stvec == c.nextAddr[t] && live.csrs.satp == 0 && live.csrs.sie == 0 && live.csrs.sscratch == 0
    && live.csrs.sepc == 0 && live.csrs.scause == 0 && live.csrs.stval == 0
    && live.csrs.scounteren == 0 && live.csrs.senvcfg == 0
    && live.csrs.hyp == [] && live.csrs.htimedelta == live.csrs.henvcfg == live.csrs.hstateen0 == 0
    && |live.csrs.sstateen| == 4 && (forall i :: 0 <= i < 4 ==> live.csrs.sstateen[i] == 0xffff_ffff_ffff_ffff)
    && live.timer == live.csrs.vstimecmp == 0xffff_ffff_ffff_ffff
    && !live.ssip && live.shmem.None? && live.fp == [] && live.vec == []
  }

  /** Hart `x` comes to domain `t` for the first time: it boots it, or stops to be started. */
  ghost predicate Begins(c: Config, h: nat, t: nat, x: Hart, z: Hart)
    requires WfConfig(c) && t < c.doms
  {
    if c.bootHart[t] == h then
      && OutOfReset(c, h, t, z.live) && z.live.regs.mstatus.other == x.live.regs.mstatus.other
      && z.pc.Smode? && z.hsm == x.hsm
    else z.pc.ForceStop? && z.hsm.StopPending?
  }

  lemma AllFlags(f: Flag)
    ensures f in {MPIE, MPRV, SIE, SPIE, SPP, FS, VS, SUM, MXR, SDT, MPV, GVA}
  {
    match f
    case _ =>
  }

  lemma FreshBegins(c: Config, h: nat, t: nat, live: Live)
    requires WfConfig(c) && t < c.doms
    ensures OutOfReset(c, h, t, FreshLive(c, h, t, live))
  {
    forall f | f in FreshLive(c, h, t, live).regs.mstatus.flags ensures false {
      AllFlags(f);
    }
  }

  lemma SwitchBegins(c: Config, s: State, h: nat, t: nat, error: int, value: int)
    requires Wf(c, s) && h < c.harts && t < c.doms && s.harts[h].ctx[t].phase.Never? && s.harts[h].pc.Smode?
    ensures Begins(c, h, t, s.harts[h], Switch(c, s, h, t, error, value).harts[h])
  {
    FreshBegins(c, h, t, s.harts[h].live);
  }

  lemma EnterBegins(c: Config, s: State, h: nat, t: nat, arg: int, quiet: bool)
    requires Wf(c, s) && h < c.harts && t < c.doms && t != s.harts[h].dom
    requires s.harts[h].ctx[t].phase.Never? && s.harts[h].pc.Smode?
    ensures Begins(c, h, t, s.harts[h], Enter(c, s, h, t, arg, quiet).harts[h])
  {
    var x := s.harts[h];
    var parked := Park(c, s, h, Calling, quiet);
    var y := parked.harts[h];
    var linked := SetHart(parked, h, y.(ctx := y.ctx[t := y.ctx[t].(caller := Some(x.dom))],
                                        log := y.log + [Entered(x.dom, x.live, quiet)]));
    SwitchBegins(c, linked, h, t, SUCCESS, arg);
  }

  lemma LeaveBegins(c: Config, s: State, h: nat, t: nat, value: int, quiet: bool)
    requires Wf(c, s) && h < c.harts && t < c.doms && t != s.harts[h].dom
    requires s.harts[h].ctx[t].phase.Never? && s.harts[h].pc.Smode?
    ensures Begins(c, h, t, s.harts[h], Leave(c, s, h, t, value, quiet).harts[h])
  {
    var x := s.harts[h];
    var back := CallerWaits(c, s, h, x.dom);
    var y := if back then x.(log := x.log + [Returned]) else x.(ctx := x.ctx[t := x.ctx[t].(caller := None)]);
    var z := y.(ctx := y.ctx[x.dom := y.ctx[x.dom].(caller := None)]);
    SwitchBegins(c, Park(c, SetHart(s, h, z), h, Idle, quiet), h, t, SUCCESS, value);
  }

  lemma EnteredBegins(c: Config, s: State, h: nat, a: Action, r: State)
    requires Wf(c, s) && h < c.harts && a.DomainEnter? && Step(c, s, h, a) == Some(r)
    requires a.target < c.doms && Allowed(c, s, h, a, a.target) && s.harts[h].ctx[a.target].phase.Never?
    ensures Begins(c, h, a.target, s.harts[h], r.harts[h])
  {
    EnterBegins(c, s, h, a.target, a.arg, false);
  }

  lemma ExitBegins(c: Config, s: State, h: nat, value: int, r: State)
    requires Placement(c, s) && h < c.harts && Step(c, s, h, DomainExit(value)) == Some(r)
    requires r.harts[h].dom != s.harts[h].dom
    requires s.harts[h].ctx[r.harts[h].dom].phase.Never? && Allowed(c, s, h, DomainExit(value), r.harts[h].dom)
    ensures Begins(c, h, r.harts[h].dom, s.harts[h], r.harts[h])
  {
    var t := r.harts[h].dom;
    ExitTarget(c, s, h, t);
    LeaveBegins(c, s, h, t, value, false);
  }

  lemma YieldBegins(c: Config, s: State, h: nat, first: Option<nat>, r: State)
    requires Placement(c, s) && h < c.harts && Step(c, s, h, Yield(first)) == Some(r)
    requires r.harts[h].dom != s.harts[h].dom
    requires s.harts[h].ctx[r.harts[h].dom].phase.Never? && Allowed(c, s, h, Yield(first), r.harts[h].dom)
    ensures Begins(c, h, r.harts[h].dom, s.harts[h], r.harts[h])
  {
    var t := r.harts[h].dom;
    YieldTarget(c, s, h, first, t);
    LeaveBegins(c, Told(c, s, h, Again(s.harts[h].live.regs)), h, t, 0, true);
  }

  lemma MoveBegins(c: Config, s: State, h: nat, a: Action, r: State)
    requires Placement(c, s) && h < c.harts && Step(c, s, h, a) == Some(r) && r.harts[h].dom != s.harts[h].dom
    requires s.harts[h].ctx[r.harts[h].dom].phase.Never? && Allowed(c, s, h, a, r.harts[h].dom)
    ensures Begins(c, h, r.harts[h].dom, s.harts[h], r.harts[h])
  {
    var t := r.harts[h].dom;
    if a.DomainEnter? {
      EnteredBegins(c, s, h, a, r);
    } else if a.DomainExit? {
      ExitBegins(c, s, h, a.value, r);
    } else if a.Yield? {
      YieldBegins(c, s, h, a.first, r);
    } else {
      SendingLeads(c, s, h, t);
      EnterBegins(c, At(c, s, h, Smode), h, t, 0, true);
    }
  }

  /**
   In every run a hart that comes to a domain it has no context in boots it, out of reset and at
   its entry, if it is its boot hart; any other is on its way to a stop.
   */
  lemma FirstRun(c: Config, run: seq<State>, moves: seq<Move>, i: nat, h: nat)
    requires IsRun(c, run, moves) && i < |moves| && h < c.harts
    requires var t := run[i + 1].harts[h].dom; t != run[i].harts[h].dom && run[i].harts[h].ctx[t].phase.Never?
    ensures Begins(c, h, run[i + 1].harts[h].dom, run[i].harts[h], run[i + 1].harts[h])
  {
    MoveIsAllowed(c, run, moves, i, h);
    PlacementHolds(c, run, moves, i);
    assert Step(c, run[i], moves[i].hart, moves[i].action) == Some(run[i + 1]);
    MoveBegins(c, run[i], h, moves[i].action, run[i + 1]);
  }
}
