/**
 Debug triggers (dbtr.c): placing configurations on hardware triggers, all or none, and
 switching installed ones on and off.
 */
module Dbtr {
  import opened Bits

  /** tdata1, as far as the monitor knows it; `other` is the rest of its bits. */
  datatype Tdata1 = Tdata1(kind: nat, dmode: bool, m: bool, u: bool, s: bool, vu: bool, vs: bool,
                           chain: bool, other: int)
  datatype Config = Config(tdata1: Tdata1, tdata2: int, tdata3: int)

  const MCONTROL := 2
  const MCONTROL6 := 6

  /** The match triggers, and the three types between them. */
  predicate Supported(kind: nat) {
    MCONTROL <= kind <= MCONTROL6
  }

  /** Only the match triggers chain; all but the older of them have the guest modes. */
  predicate Chained(t: Tdata1) {
    (t.kind == MCONTROL || t.kind == MCONTROL6) && t.chain
  }

  predicate HasGuestModes(kind: nat) {
    Supported(kind) && kind != MCONTROL
  }

  datatype TriggerState = Unmapped | Mapped(idx: nat, u: bool, s: bool, vu: bool, vs: bool)

  /** state_of() */
  function StateOf(idx: nat, t: Tdata1): TriggerState {
    Mapped(idx, Supported(t.kind) && t.u, Supported(t.kind) && t.s,
           HasGuestModes(t.kind) && t.vu, HasGuestModes(t.kind) && t.vs)
  }

  datatype Error = BadRange | NotSupported | InvalidParam | Failed
  datatype Result<+T> = Ok(value: T) | Err(error: Error, failed: nat)

  /** config_check(), for the i-th of `count`. */
  function Check(cfg: Config, last: bool): Result<()> {
    if !Supported(cfg.tdata1.kind) then Err(NotSupported, 0)
    else if cfg.tdata1.dmode || cfg.tdata1.m || (last && Chained(cfg.tdata1)) then Err(InvalidParam, 0)
    else Ok(())
  }

  /** What S-mode may not ask of a trigger: that it matches in M-mode, or is a debugger's. */
  predicate Privileged(t: Tdata1) {
    t.m || t.dmode
  }

  /** What is wrong with configuration `i`, if `error` is the answer to it. */
  predicate WrongAt(cfgs: seq<Config>, i: nat, error: Error)
    requires i < |cfgs|
  {
    var t := cfgs[i].tdata1;
    var known, open := t.kind in {2, 3, 4, 5, 6}, i == |cfgs| - 1 && t.kind in {2, 6} && t.chain;
    match error
    case NotSupported => !known
    case InvalidParam => known && (Privileged(t) || open)
    case _ => false
  }

  /** Nothing is wrong with the first `n`. */
  ghost predicate AllChecked(cfgs: seq<Config>, n: nat)
    requires n <= |cfgs|
  {
    forall i, error :: 0 <= i < n ==> !WrongAt(cfgs, i, error)
  }

  /** Each answer of config_check() has its cause. */
  lemma CheckMeans(cfgs: seq<Config>, i: nat)
    requires i < |cfgs|
    ensures var rc := Check(cfgs[i], i == |cfgs| - 1);
            && (rc.Ok? <==> forall error :: !WrongAt(cfgs, i, error))
            && (rc.Err? ==> WrongAt(cfgs, i, rc.error))
            && forall error :: WrongAt(cfgs, i, error) ==> rc == Err(error, 0)
  {
    var rc := Check(cfgs[i], i == |cfgs| - 1);
    assert rc.Err? ==> WrongAt(cfgs, i, rc.error);
  }

  /** No configuration that passes is privileged, all are of a type there is, and the last does not chain. */
  lemma CheckedAreFit(cfgs: seq<Config>)
    requires AllChecked(cfgs, |cfgs|)
    ensures forall i :: 0 <= i < |cfgs| ==> !Privileged(cfgs[i].tdata1) && cfgs[i].tdata1.kind in {2, 3, 4, 5, 6}
    ensures cfgs != [] ==> !Chained(cfgs[|cfgs| - 1].tdata1)
  {
    forall i | 0 <= i < |cfgs|
      ensures !Privileged(cfgs[i].tdata1) && cfgs[i].tdata1.kind in {2, 3, 4, 5, 6}
      ensures i == |cfgs| - 1 ==> !Chained(cfgs[i].tdata1)
    {
      assert !WrongAt(cfgs, i, NotSupported) && !WrongAt(cfgs, i, InvalidParam);
    }
  }

  /** Configuration `i` is on a free trigger of a type it can be. */
  predicate PlacedAt(free: seq<bool>, types: seq<set<nat>>, cfgs: seq<Config>, where: seq<nat>, i: nat)
    requires |free| == |types| && i < |where| <= |cfgs| && where[i] < |free|
  {
    free[where[i]] && cfgs[i].tdata1.kind in types[where[i]]
  }

  ghost predicate Distinct(where: seq<nat>) {
    forall i, j :: 0 <= i < j < |where| ==> where[i] != where[j]
  }

  ghost predicate Linked(cfgs: seq<Config>, where: seq<nat>)
    requires |where| <= |cfgs|
  {
    forall i :: 0 <= i < |where| - 1 && Chained(cfgs[i].tdata1) ==> where[i + 1] == where[i] + 1
  }

  /** What dbtr_install() promises of `where`: free triggers that fit, no two the same, chains side by side. */
  ghost predicate Placed(free: seq<bool>, types: seq<set<nat>>, cfgs: seq<Config>, where: seq<nat>) {
    && |where| <= |cfgs| && |free| == |types| && (forall i :: 0 <= i < |where| ==> where[i] < |free|)
    && (forall i :: 0 <= i < |where| ==> PlacedAt(free, types, cfgs, where, i))
    && Distinct(where) && Linked(cfgs, where)
  }

  /** The i-th configuration can go to the i-th trigger from `start` on. */
  predicate FitsAt(free: seq<bool>, types: seq<set<nat>>, cfgs: seq<Config>, start: nat, i: nat)
    requires |free| == |types| && start + |cfgs| <= |free| && i < |cfgs|
  {
    free[start + i] && cfgs[i].tdata1.kind in types[start + i]
  }

  /** Configurations `cfgs` can go to the triggers from `start` on. */
  predicate RunAt(free: seq<bool>, types: seq<set<nat>>, cfgs: seq<Config>, start: nat)
    requires |free| == |types|
  {
    start + |cfgs| <= |free|
    && forall i :: 0 <= i < |cfgs| ==> FitsAt(free, types, cfgs, start, i)
  }

  ghost predicate NoRoom(free: seq<bool>, types: seq<set<nat>>, cfgs: seq<Config>)
    requires |free| == |types|
  {
    forall s: nat :: !RunAt(free, types, cfgs, s)
  }

  /** find_run(): the lowest place for a chain. */
  method FindRun(free: seq<bool>, types: seq<set<nat>>, cfgs: seq<Config>) returns (found: bool, start: nat)
    requires |free| == |types|
    ensures found ==> RunAt(free, types, cfgs, start) && forall s :: 0 <= s < start ==> !RunAt(free, types, cfgs, s)
    ensures !found ==> NoRoom(free, types, cfgs)
  {
    start := 0;
    while start + |cfgs| <= |free|
      invariant forall s :: 0 <= s < start ==> !RunAt(free, types, cfgs, s)
      decreases |free| - start
    {
      var i := 0;
      while i < |cfgs| && FitsAt(free, types, cfgs, start, i)
        invariant i <= |cfgs|
        invariant forall j :: 0 <= j < i ==> FitsAt(free, types, cfgs, start, j)
      {
        i := i + 1;
      }
      if i == |cfgs| {
        return true, start;
      }
      start := start + 1;
    }
    return false, 0;
  }

  /** Where the chain that `i` is in ends. */
  function ChainEnd(cfgs: seq<Config>, i: nat): (end: nat)
    requires i < |cfgs|
    ensures i < end <= |cfgs|
    ensures forall k :: i <= k < end - 1 ==> Chained(cfgs[k].tdata1)
    ensures end < |cfgs| ==> !Chained(cfgs[end - 1].tdata1)
    decreases |cfgs| - i
  {
    if i + 1 < |cfgs| && Chained(cfgs[i].tdata1) then ChainEnd(cfgs, i + 1) else i + 1
  }

  /** The length of the chain that begins at `i`. */
  method ChainLength(cfgs: seq<Config>, i: nat) returns (len: nat)
    requires i < |cfgs| && !Chained(cfgs[|cfgs| - 1].tdata1)
    ensures i + len == ChainEnd(cfgs, i)
  {
    len := 1;
    while Chained(cfgs[i + len - 1].tdata1)
      invariant 1 <= len <= |cfgs| - i && ChainEnd(cfgs, i) == ChainEnd(cfgs, i + len - 1)
      decreases |cfgs| - len
    {
      len := len + 1;
    }
  }

  /** Triggers that are free, and not taken by the call so far. */
  function Left(free: seq<bool>, taken: seq<nat>): (r: seq<bool>)
    ensures |r| == |free|
    ensures forall i :: 0 <= i < |free| ==> r[i] == (free[i] && i !in taken)
  {
    seq(|free|, i requires 0 <= i < |free| => free[i] && i !in taken)
  }

  /** `more` goes on from `where` with the triggers from `start` on. */
  ghost predicate GoesOn(where: seq<nat>, more: seq<nat>, start: nat) {
    where <= more && forall k :: |where| <= k < |more| ==> more[k] == start + (k - |where|)
  }

  /** A run of triggers, next to those already taken. */
  lemma RunIsFree(free: seq<bool>, types: seq<set<nat>>, cfgs: seq<Config>, where: seq<nat>, more: seq<nat>,
                  start: nat, i: nat)
    requires |free| == |types| && GoesOn(where, more, start) && |where| <= i < |more| <= |cfgs|
    requires RunAt(Left(free, where), types, cfgs[|where|..|more|], start)
    ensures more[i] < |free| && PlacedAt(free, types, cfgs, more, i) && more[i] !in where
  {
    assert FitsAt(Left(free, where), types, cfgs[|where|..|more|], start, i - |where|);
  }

  lemma DistinctMore(where: seq<nat>, more: seq<nat>, start: nat)
    requires Distinct(where) && GoesOn(where, more, start) && forall i :: |where| <= i < |more| ==> more[i] !in where
    ensures Distinct(more)
  {
    forall i, j | 0 <= i < j < |more| ensures more[i] != more[j] {
      if i < |where| <= j {
        assert more[i] in where;
      }
    }
  }

  lemma PlacedMore(free: seq<bool>, types: seq<set<nat>>, cfgs: seq<Config>, where: seq<nat>, more: seq<nat>,
                   start: nat)
    requires Placed(free, types, cfgs, where) && GoesOn(where, more, start) && |where| < |more| <= |cfgs|
    requires RunAt(Left(free, where), types, cfgs[|where|..|more|], start) && Begins(cfgs, |where|)
    ensures Placed(free, types, cfgs, more)
  {
    forall i | |where| <= i < |more|
      ensures more[i] < |free| && PlacedAt(free, types, cfgs, more, i) && more[i] !in where {
      RunIsFree(free, types, cfgs, where, more, start, i);
    }
    forall i | 0 <= i < |where| ensures PlacedAt(free, types, cfgs, more, i) {
      assert PlacedAt(free, types, cfgs, where, i);
    }
    DistinctMore(where, more, start);
  }

  /** `i` begins a chain, or is alone. */
  predicate Begins(cfgs: seq<Config>, i: nat)
    requires i <= |cfgs|
  {
    i == 0 || !Chained(cfgs[i - 1].tdata1)
  }

  /** The chain at `i` could not go further down, given where the ones before it went. */
  ghost predicate Lowest(free: seq<bool>, types: seq<set<nat>>, cfgs: seq<Config>, where: seq<nat>, i: nat)
    requires |free| == |types| && i < |where| <= |cfgs|
  {
    forall s: nat :: s < where[i] ==> !RunAt(Left(free, where[..i]), types, cfgs[i..ChainEnd(cfgs, i)], s)
  }

  /** Chain after chain, each on the first run it fits on. */
  ghost predicate FirstFit(free: seq<bool>, types: seq<set<nat>>, cfgs: seq<Config>, where: seq<nat>) {
    && Placed(free, types, cfgs, where) && Begins(cfgs, |where|)
    && (forall i :: 0 <= i < |where| && Begins(cfgs, i) ==> Lowest(free, types, cfgs, where, i))
  }

  /** The chain behind `where` has nowhere to go. */
  ghost predicate Stuck(free: seq<bool>, types: seq<set<nat>>, cfgs: seq<Config>, where: seq<nat>) {
    && FirstFit(free, types, cfgs, where) && |where| < |cfgs|
    && NoRoom(Left(free, where), types, cfgs[|where|..ChainEnd(cfgs, |where|)])
  }

  /** Where a chain was placed it fits. */
  lemma PlacedFits(free: seq<bool>, types: seq<set<nat>>, cfgs: seq<Config>, where: seq<nat>, i: nat)
    requires FirstFit(free, types, cfgs, where) && i < |where| && Begins(cfgs, i)
    ensures ChainEnd(cfgs, i) <= |where|
    ensures RunAt(Left(free, where[..i]), types, cfgs[i..ChainEnd(cfgs, i)], where[i])
  {
    var end := ChainEnd(cfgs, i);
    Consecutive(cfgs, where, i, end);
    assert where[end - 1] == where[i] + (end - 1 - i);
    forall k | 0 <= k < end - i ensures FitsAt(Left(free, where[..i]), types, cfgs[i..end], where[i], k) {
      assert where[i + k] == where[i] + k && cfgs[i..end][k] == cfgs[i + k];
      assert PlacedAt(free, types, cfgs, where, i + k) && where[i + k] !in where[..i];
    }
  }

  lemma {:induction false} Consecutive(cfgs: seq<Config>, where: seq<nat>, i: nat, end: nat)
    requires i < end <= |where| <= |cfgs|
    requires forall k :: i <= k < end - 1 ==> Chained(cfgs[k].tdata1)
    requires forall k :: 0 <= k < |where| - 1 && Chained(cfgs[k].tdata1) ==> where[k + 1] == where[k] + 1
    ensures forall k :: i <= k < end ==> where[k] == where[i] + (k - i)
    decreases end
  {
    if end > i + 1 {
      Consecutive(cfgs, where, i, end - 1);
      assert Chained(cfgs[end - 2].tdata1);
    }
  }

  lemma LowestOnce(free: seq<bool>, types: seq<set<nat>>, cfgs: seq<Config>, v: seq<nat>, w: seq<nat>, k: nat)
    requires FirstFit(free, types, cfgs, v) && FirstFit(free, types, cfgs, w)
    requires k < |v| && k < |w| && v[..k] == w[..k] && Begins(cfgs, k)
    ensures v[k] <= w[k]
  {
    PlacedFits(free, types, cfgs, w, k);
    assert Lowest(free, types, cfgs, v, k);
  }

  /** There is one such placement. */
  lemma {:induction false} FirstFitOnce(free: seq<bool>, types: seq<set<nat>>, cfgs: seq<Config>, v: seq<nat>,
                                        w: seq<nat>, n: nat)
    requires FirstFit(free, types, cfgs, v) && FirstFit(free, types, cfgs, w) && n <= |v| && n <= |w|
    ensures v[..n] == w[..n]
  {
    if n > 0 {
      var k := n - 1;
      FirstFitOnce(free, types, cfgs, v, w, k);
      if Begins(cfgs, k) {
        LowestOnce(free, types, cfgs, v, w, k);
        LowestOnce(free, types, cfgs, w, v, k);
      } else {
        assert v[k - 1] == v[..k][k - 1] && w[k - 1] == w[..k][k - 1];
      }
      assert v[..n] == v[..k] + [v[k]] && w[..n] == w[..k] + [w[k]];
    }
  }

  /** So a chain that has nowhere to go is not placed by any. */
  lemma StuckIsStuck(free: seq<bool>, types: seq<set<nat>>, cfgs: seq<Config>, v: seq<nat>, w: seq<nat>)
    requires Stuck(free, types, cfgs, v) && FirstFit(free, types, cfgs, w)
    ensures |w| <= |v|
  {
    if |w| > |v| {
      FirstFitOnce(free, types, cfgs, v, w, |v|);
      assert v[..|v|] == v;
      PlacedFits(free, types, cfgs, w, |v|);
    }
  }

  lemma LowestMore(free: seq<bool>, types: seq<set<nat>>, cfgs: seq<Config>, where: seq<nat>, more: seq<nat>, i: nat)
    requires |free| == |types| && i < |where| && where <= more && |more| <= |cfgs|
    requires Lowest(free, types, cfgs, where, i)
    ensures Lowest(free, types, cfgs, more, i)
  {
    assert more[..i] == where[..i];
  }

  lemma LowestNew(free: seq<bool>, types: seq<set<nat>>, cfgs: seq<Config>, where: seq<nat>, more: seq<nat>)
    requires |free| == |types| && |where| < |more| <= |cfgs| && where <= more
    requires forall s: nat :: s < more[|where|] ==>
               !RunAt(Left(free, where), types, cfgs[|where|..ChainEnd(cfgs, |where|)], s)
    ensures Lowest(free, types, cfgs, more, |where|)
  {
    assert more[..|where|] == where;
  }

  lemma FirstFitMore(free: seq<bool>, types: seq<set<nat>>, cfgs: seq<Config>, where: seq<nat>, more: seq<nat>,
                     start: nat)
    requires FirstFit(free, types, cfgs, where) && |where| < |cfgs| && |more| == ChainEnd(cfgs, |where|)
    requires GoesOn(where, more, start) && !Chained(cfgs[|cfgs| - 1].tdata1)
    requires RunAt(Left(free, where), types, cfgs[|where|..|more|], start)
    requires forall s :: 0 <= s < start ==> !RunAt(Left(free, where), types, cfgs[|where|..|more|], s)
    ensures FirstFit(free, types, cfgs, more)
  {
    PlacedMore(free, types, cfgs, where, more, start);
    LowestNew(free, types, cfgs, where, more);
    AllLowest(free, types, cfgs, where, more);
  }

  lemma AllLowest(free: seq<bool>, types: seq<set<nat>>, cfgs: seq<Config>, where: seq<nat>, more: seq<nat>)
    requires |free| == |types| && where <= more && |where| < |more| <= |cfgs| && |more| == ChainEnd(cfgs, |where|)
    requires forall i :: 0 <= i < |where| && Begins(cfgs, i) ==> Lowest(free, types, cfgs, where, i)
    requires Lowest(free, types, cfgs, more, |where|)
    ensures forall i :: 0 <= i < |more| && Begins(cfgs, i) ==> Lowest(free, types, cfgs, more, i)
  {
    forall i | 0 <= i < |more| && Begins(cfgs, i) ensures Lowest(free, types, cfgs, more, i) {
      if i < |where| {
        LowestMore(free, types, cfgs, where, more, i);
      }
    }
  }

  /** The chain behind `where` goes to the first run it fits on. */
  method PlaceChain(free: seq<bool>, types: seq<set<nat>>, cfgs: seq<Config>, where: seq<nat>)
    returns (found: bool, more: seq<nat>)
    requires FirstFit(free, types, cfgs, where) && |where| < |cfgs| && !Chained(cfgs[|cfgs| - 1].tdata1)
    ensures found ==> |more| > |where| && FirstFit(free, types, cfgs, more)
    ensures !found ==> Stuck(free, types, cfgs, where)
  {
    var i := |where|;
    var n := ChainLength(cfgs, i);
    var start := 0;
    found, start := FindRun(Left(free, where), types, cfgs[i..i + n]);
    more := where;
    if found {
      more := where + seq(n, k requires 0 <= k => start + k);
      FirstFitMore(free, types, cfgs, where, more, start);
    }
  }

  /** dbtr_install(), the placing. */
  method Place(free: seq<bool>, types: seq<set<nat>>, cfgs: seq<Config>) returns (r: Result<seq<nat>>)
    requires |free| == |types| && AllChecked(cfgs, |cfgs|)
    ensures r.Ok? ==> |r.value| == |cfgs| && FirstFit(free, types, cfgs, r.value)
    ensures r.Err? ==> r.error == Failed && exists where :: Stuck(free, types, cfgs, where) && |where| == r.failed
  {
    var where: seq<nat> := [];
    while |where| < |cfgs|
      invariant FirstFit(free, types, cfgs, where)
      decreases |cfgs| - |where|
    {
      CheckedAreFit(cfgs);
      var found, more;
      found, more := PlaceChain(free, types, cfgs, where);
      if !found {
        return Err(Failed, |where|);
      }
      where := more;
    }
    return Ok(where);
  }

  /** dbtr_install(), the validation: the first configuration that may not be installed, and why. */
  method CheckAll(cfgs: seq<Config>) returns (r: Result<()>)
    ensures r.Ok? <==> AllChecked(cfgs, |cfgs|)
    ensures r.Err? ==> r.failed < |cfgs| && AllChecked(cfgs, r.failed)
    ensures r.Err? ==> WrongAt(cfgs, r.failed, r.error)
  {
    for i := 0 to |cfgs|
      invariant AllChecked(cfgs, i)
    {
      var rc := Check(cfgs[i], i == |cfgs| - 1);
      CheckMeans(cfgs, i);
      if rc.Err? {
        return Err(rc.error, i);
      }
    }
    return Ok(());
  }

  // ---- the hardware, and what dbtr_uninstall(), dbtr_enable() and dbtr_disable() make of it --------

  /** A trigger that is off still has what was written to its other registers. */
  datatype Hardware = Off(tdata2: int, tdata3: int) | On(cfg: Config)

  function Cleared(h: Hardware): (r: Hardware)
    ensures r.Off?
  {
    Off(0, if h.Off? then h.tdata3 else h.cfg.tdata3)
  }

  /** tdata1 with the modes of `st`, as far as its type has them, or with none. */
  function WithModes(t: Tdata1, st: TriggerState): Tdata1
    requires st.Mapped?
  {
    if !Supported(t.kind) then t
    else
      var g := t.(u := st.u, s := st.s);
      if HasGuestModes(t.kind) then g.(vu := st.vu, vs := st.vs) else g
  }

  function WithoutModes(t: Tdata1): Tdata1 {
    WithModes(t, Mapped(0, false, false, false, false))
  }

  predicate NoModes(t: Tdata1) {
    (t.kind in {2, 3, 4, 5, 6} ==> !t.u && !t.s) && (t.kind in {3, 4, 5, 6} ==> !t.vu && !t.vs)
  }

  /** Nothing but the modes a trigger has is taken away. */
  lemma DisableTakesModes(t: Tdata1)
    ensures NoModes(WithoutModes(t))
    ensures WithoutModes(t).(u := t.u, s := t.s, vu := t.vu, vs := t.vs) == t
    ensures t.kind == 2 ==> WithoutModes(t).vu == t.vu && WithoutModes(t).vs == t.vs
  {
  }

  /** Disabled, a trigger has no mode left to match in; enabled again, it has those it was installed with. */
  lemma EnableUndoesDisable(idx: nat, t: Tdata1)
    ensures NoModes(WithoutModes(t))
    ensures WithModes(WithoutModes(t), StateOf(idx, t)) == t
    ensures WithModes(t, StateOf(idx, t)) == t
  {
  }

  datatype Op = Uninstall | Enable | Disable

  /** What an operation writes to an installed trigger's tdata1. */
  function Written(op: Op, cfg: Config, st: TriggerState): Config
    requires st.Mapped? && !op.Uninstall?
  {
    cfg.(tdata1 := if op == Enable then WithModes(cfg.tdata1, st) else WithoutModes(cfg.tdata1))
  }

  /** What the trigger is then: the code does not read it back. */
  function Applied(op: Op, idx: nat, h: Hardware, st: TriggerState, holds: (nat, Config) -> Config): Hardware
    requires h.On? && st.Mapped?
  {
    if op == Uninstall then Cleared(h) else On(holds(idx, Written(op, h.cfg, st)))
  }

  /** Nothing an operation writes makes a trigger privileged. */
  lemma WritesNoPrivilege(op: Op, cfg: Config, st: TriggerState)
    requires st.Mapped? && !op.Uninstall?
    ensures Privileged(Written(op, cfg, st).tdata1) ==> Privileged(cfg.tdata1)
  {
  }

  /** Disabled and enabled again, a trigger is as installed if the hardware holds both configurations as they are. */
  lemma DisabledComesBack(idx: nat, cfg: Config, holds: (nat, Config) -> Config)
    requires var off := cfg.(tdata1 := WithoutModes(cfg.tdata1)); holds(idx, off) == off && holds(idx, cfg) == cfg
    ensures var st := StateOf(idx, cfg.tdata1);
            var off := Applied(Disable, idx, On(cfg), st, holds);
            off.On? && NoModes(off.cfg.tdata1) && Applied(Enable, idx, off, st, holds) == On(cfg)
  {
    EnableUndoesDisable(idx, cfg.tdata1);
  }

  /** hw_program() takes a configuration: tdata3 is there if it has one, and tdata1 reads back. */
  predicate Accepted(hasTdata3: bool, holds: (nat, Config) -> Config, idx: nat, cfg: Config) {
    (hasTdata3 || cfg.tdata3 == 0) && holds(idx, cfg).tdata1 == cfg.tdata1
  }

  /** The hardware does not take what it holds another tdata1 for, or a tdata3 it does not have. */
  lemma RefusedJustWhen(hasTdata3: bool, holds: (nat, Config) -> Config, idx: nat, cfg: Config)
    ensures !Accepted(hasTdata3, holds, idx, cfg) <==>
            holds(idx, cfg).tdata1 != cfg.tdata1 || (!hasTdata3 && cfg.tdata3 != 0)
  {
  }

  /** What is accepted is held as asked for if and only if the two registers not read back are. */
  lemma HeldAsAsked(hasTdata3: bool, holds: (nat, Config) -> Config, idx: nat, cfg: Config)
    requires Accepted(hasTdata3, holds, idx, cfg)
    ensures holds(idx, cfg) == cfg <==> holds(idx, cfg).tdata2 == cfg.tdata2 && holds(idx, cfg).tdata3 == cfg.tdata3
  {
  }

  /** It need not be: hardware that matches address 0 only. */
  lemma HeldOtherwise(idx: nat)
    ensures var holds := (i: nat, c: Config) => c.(tdata2 := 0);
            var cfg := Config(Tdata1(MCONTROL6, false, false, true, true, false, false, false, 0), 4096, 0);
            AllChecked([cfg], 1) && Accepted(true, holds, idx, cfg) && holds(idx, cfg) != cfg
  {
  }

  class Triggers {
    const state: array<TriggerState>
    /** What the hardware triggers hold. */
    const hw: array<Hardware>
    const types: seq<set<nat>>
    const hasTdata3: bool
    /** What a trigger holds once a configuration is written to it. */
    const holds: (nat, Config) -> Config

    ghost predicate Valid()
      reads this, state, hw
    {
      && state.Length == hw.Length == |types|
      && (forall i :: 0 <= i < state.Length ==> (state[i] == Unmapped <==> hw[i].Off?))
    }

    /** No trigger that is on matches in M-mode or is a debugger's. */
    ghost predicate Unprivileged()
      reads this, hw
    {
      forall i :: 0 <= i < hw.Length && hw[i].On? ==> !Privileged(hw[i].cfg.tdata1)
    }

    /** A trigger takes on no privilege that is not written to it. */
    ghost predicate AddsNoPrivilege() {
      forall idx, cfg :: Privileged(holds(idx, cfg).tdata1) ==> Privileged(cfg.tdata1)
    }

    function Free(): (f: seq<bool>)
      reads this, state
      ensures |f| == state.Length
    {
      seq(state.Length, i requires 0 <= i < state.Length reads this, state => state[i] == Unmapped)
    }

    constructor (types: seq<set<nat>>, hasTdata3: bool, holds: (nat, Config) -> Config)
      ensures Valid() && this.types == types && this.hasTdata3 == hasTdata3 && this.holds == holds && Unprivileged()
      ensures forall i :: 0 <= i < state.Length ==> state[i] == Unmapped
      ensures fresh(state) && fresh(hw)
    {
      state := new TriggerState[|types|](i => Unmapped);
      hw := new Hardware[|types|](i => Off(0, 0));
      this.types, this.hasTdata3, this.holds := types, hasTdata3, holds;
    }

    /** The hardware takes the configuration, as far as the code looks: it reads tdata1 back, and no more. */
    predicate Accepts(idx: nat, cfg: Config) {
      Accepted(hasTdata3, holds, idx, cfg)
    }

    /** hw_clear() */
    method Clear(idx: nat)
      requires idx < hw.Length
      modifies hw
      ensures hw[..] == old(hw[..])[idx := Cleared(old(hw[idx]))]
    {
      hw[idx] := Cleared(hw[idx]);
    }

    /** hw_program(): the configuration as the trigger holds it, or the trigger is off. */
    method Program(idx: nat, cfg: Config) returns (ok: bool)
      requires idx < hw.Length
      modifies hw
      ensures ok == Accepts(idx, cfg)
      ensures hw[..] == old(hw[..])[idx := if ok then On(holds(idx, cfg)) else hw[idx]] && (!ok ==> hw[idx].Off?)
    {
      var got := holds(idx, cfg);
      Clear(idx);
      hw[idx] := hw[idx].(tdata2 := got.tdata2);
      if !hasTdata3 && cfg.tdata3 != 0 {
        return false;
      }
      hw[idx] := On(got);
      if got.tdata1 != cfg.tdata1 {
        Clear(idx);
        return false;
      }
      return true;
    }

    /** The first `n` of `where` are given back. */
    method GiveBack(where: seq<nat>, n: nat)
      requires n <= |where| && state.Length == hw.Length && forall k :: 0 <= k < |where| ==> where[k] < state.Length
      modifies state, hw
      ensures forall k :: 0 <= k < n ==> state[where[k]] == Unmapped && hw[where[k]].Off?
      ensures forall x :: 0 <= x < state.Length && x !in where[..n] ==> state[x] == old(state[x]) && hw[x] == old(hw[x])
    {
      var i := n;
      while i > 0
        invariant 0 <= i <= n
        invariant forall k :: i <= k < n ==> state[where[k]] == Unmapped && hw[where[k]].Off?
        invariant forall x :: 0 <= x < state.Length && x !in where[..n] ==>
                                state[x] == old(state[x]) && hw[x] == old(hw[x])
      {
        i := i - 1;
        assert where[i] in where[..n];
        Clear(where[i]);
        state[where[i]] := Unmapped;
      }
    }

    /** The configurations are where they should be, and the other triggers as they were. */
    twostate predicate Installed(cfgs: seq<Config>, where: seq<nat>, n: nat)
      requires n <= |where| == |cfgs| && state.Length == hw.Length
      requires forall k :: 0 <= k < |where| ==> where[k] < state.Length
      reads this, state, hw
    {
      && (forall k :: 0 <= k < n ==>
           && state[where[k]] == StateOf(where[k], cfgs[k].tdata1)
           && hw[where[k]] == On(holds(where[k], cfgs[k])) && hw[where[k]].cfg.tdata1 == cfgs[k].tdata1)
      && (forall x :: 0 <= x < state.Length && x !in where[..n] ==> state[x] == old(state[x]) && hw[x] == old(hw[x]))
    }

    /** The states are what they were, and so is every trigger that is on; the free ones are off. */
    twostate predicate AsBefore()
      requires state.Length == hw.Length
      reads this, state, hw
    {
      && state[..] == old(state[..])
      && (forall x :: 0 <= x < hw.Length ==> hw[x] == old(hw[x]) || (hw[x].Off? && old(hw[x]).Off?))
    }

    ghost predicate AllAccepted(cfgs: seq<Config>, where: seq<nat>, n: nat)
      requires n <= |where| == |cfgs|
    {
      forall k :: 0 <= k < n ==> Accepts(where[k], cfgs[k])
    }

    /** The hardware takes all configurations before this one, which it does not. */
    ghost predicate RefusedAt(cfgs: seq<Config>, where: seq<nat>, failed: nat) {
      failed < |where| == |cfgs| && AllAccepted(cfgs, where, failed) && !Accepts(where[failed], cfgs[failed])
    }

    /** Why an installation on triggers of which `free` are free fails: a configuration, its place, or the hardware. */
    ghost predicate Refused(free: seq<bool>, cfgs: seq<Config>, error: Error, failed: nat)
      requires |free| == |types|
    {
      if |cfgs| > |types| then error == BadRange
      else
        && failed < |cfgs|
        && if !AllChecked(cfgs, |cfgs|) then
             AllChecked(cfgs, failed) && WrongAt(cfgs, failed, error)
           else
             || (error == Failed && exists where :: Stuck(free, types, cfgs, where) && |where| == failed)
             || (error == NotSupported
                 && exists where :: FirstFit(free, types, cfgs, where) && RefusedAt(cfgs, where, failed))
    }

    /** dbtr_install(), the programming: all of them, or the triggers are as they were. */
    method ProgramAll(cfgs: seq<Config>, where: seq<nat>) returns (r: Result<()>)
      requires Valid() && |where| == |cfgs| && Placed(Free(), types, cfgs, where)
      modifies state, hw
      ensures Valid()
      ensures r.Ok? ==> Installed(cfgs, where, |cfgs|)
      ensures r.Err? ==> AsBefore() && r.error == NotSupported
      ensures r.Ok? ==> AllAccepted(cfgs, where, |cfgs|)
      ensures r.Err? ==> r.failed < |cfgs| && AllAccepted(cfgs, where, r.failed)
      ensures r.Err? ==> !Accepts(where[r.failed], cfgs[r.failed])
    {
      forall k | 0 <= k < |where| ensures old(state[where[k]]) == Unmapped && old(hw[where[k]]).Off? {
        assert PlacedAt(Free(), types, cfgs, where, k);
      }
      for i := 0 to |cfgs|
        invariant Installed(cfgs, where, i)
        invariant AllAccepted(cfgs, where, i)
      {
        assert where[i] !in where[..i];
        var ok := Program(where[i], cfgs[i]);
        if !ok {
          GiveBack(where, i);
          return Err(NotSupported, i);
        }
        state[where[i]] := StateOf(where[i], cfgs[i].tdata1);
      }
      return Ok(());
    }

    /**
     dbtr_install(): the configurations are on distinct triggers that were free and support
     them, each chain on consecutive ones in order, and as far down as it could go; or all
     triggers are as they were, and the error says why.
     */
    method Install(cfgs: seq<Config>) returns (r: Result<seq<nat>>)
      requires Valid()
      modifies state, hw
      ensures Valid()
      ensures r.Ok? ==> |r.value| == |cfgs| <= |types| && AllChecked(cfgs, |cfgs|)
      ensures r.Ok? ==> FirstFit(old(Free()), types, cfgs, r.value) && AllAccepted(cfgs, r.value, |cfgs|)
      ensures r.Ok? ==> Installed(cfgs, r.value, |cfgs|)
      ensures r.Err? ==> AsBefore()
      ensures r.Err? ==> Refused(old(Free()), cfgs, r.error, r.failed)
      ensures r.Ok? ==> forall i :: 0 <= i < |cfgs| ==> !Privileged(cfgs[i].tdata1)
      ensures old(Unprivileged()) ==> Unprivileged()
    {
      if |cfgs| > state.Length {
        return Err(BadRange, 0);
      }
      var checked := CheckAll(cfgs);
      if checked.Err? {
        return Err(checked.error, checked.failed);
      }
      CheckedAreFit(cfgs);
      ghost var free := Free();
      r := Place(Free(), types, cfgs);
      if r.Ok? {
        var where := r.value;
        var done := ProgramAll(cfgs, where);
        if done.Err? {
          assert FirstFit(free, types, cfgs, where);
          return Err(done.error, done.failed);
        }
      }
    }

    /** The triggers that bit `i` of a set stands for: none if the sum wraps. */
    ghost predicate Names(base: nat, mask: seq<bool>, idx: nat)
      requires |mask| == 64
    {
      base <= idx < base + 64 && mask[idx - base]
    }

    lemma AppliedUnprivileged(st: TriggerState, was: Hardware, op: Op, idx: nat)
      requires AddsNoPrivilege() && st.Mapped? && was.On? && !Privileged(was.cfg.tdata1)
      ensures var h := Applied(op, idx, was, st, holds); h.On? ==> !Privileged(h.cfg.tdata1)
    {
      if !op.Uninstall? {
        WritesNoPrivilege(op, was.cfg, st);
      }
    }

    /** set_op_apply(): to all triggers of a set of installed ones, or to none. */
    method Apply(base: nat, mask: seq<bool>, op: Op) returns (r: Result<()>)
      requires Valid() && |mask| == 64 && base < WORD && state.Length < WORD
      modifies state, hw
      ensures Valid()
      ensures r.Ok? <==> forall i :: 0 <= i < 64 && mask[i] ==> base + i < state.Length && old(state[base + i]).Mapped?
      ensures r.Err? ==> state[..] == old(state[..]) && hw[..] == old(hw[..]) && r.error == InvalidParam
      ensures r.Ok? ==> forall x :: 0 <= x < state.Length && !Names(base, mask, x) ==>
                                      state[x] == old(state[x]) && hw[x] == old(hw[x])
      ensures r.Ok? ==> forall x :: 0 <= x < state.Length && Names(base, mask, x) ==>
                                      old(state[x]).Mapped? && old(hw[x]).On?
                                      && state[x] == (if op == Uninstall then Unmapped else old(state[x]))
                                      && hw[x] == Applied(op, x, old(hw[x]), old(state[x]), holds)
      ensures old(Unprivileged()) && AddsNoPrivilege() ==> Unprivileged()
    {
      for i := 0 to 64
        invariant forall j :: 0 <= j < i && mask[j] ==> base + j < state.Length && state[base + j].Mapped?
      {
        if mask[i] && ((base + i) % WORD < base || base + i >= state.Length || state[base + i] == Unmapped) {
          return Err(InvalidParam, 0);
        }
      }
      for i := 0 to 64
        invariant forall x :: 0 <= x < state.Length && !(x < base + i && Names(base, mask, x)) ==>
                                state[x] == old(state[x]) && hw[x] == old(hw[x])
        invariant forall x :: 0 <= x < state.Length && x < base + i && Names(base, mask, x) ==>
                                old(state[x]).Mapped? && old(hw[x]).On?
                                && state[x] == (if op == Uninstall then Unmapped else old(state[x]))
                                && hw[x] == Applied(op, x, old(hw[x]), old(state[x]), holds)
      {
        if mask[i] {
          var idx := base + i;
          hw[idx] := Applied(op, idx, hw[idx], state[idx], holds);
          if op == Uninstall {
            state[idx] := Unmapped;
          }
        }
      }
      if old(Unprivileged()) && AddsNoPrivilege() {
        forall x | 0 <= x < hw.Length && hw[x].On? ensures !Privileged(hw[x].cfg.tdata1) {
          if Names(base, mask, x) {
            AppliedUnprivileged(old(state[x]), old(hw[x]), op, x);
          }
        }
      }
      return Ok(());
    }
  }
}
