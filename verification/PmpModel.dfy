/**
 Physical memory protection: what the entries mean, after section 3.7 of the RISC-V
 Privileged Architecture, and what the monitor writes into them (pmp.c, hart.c) without
 Smepmp, at a grain of 4 bytes, on a 64-bit hart.
 */
module PmpModel {
  import opened Bits

  // ---- hardware ----------------------------------------------------------------------------

  datatype Match = Off | Tor | Napot
  datatype Entry = Entry(addr: nat, mode: Match, r: bool, w: bool, x: bool)

  const NO_ENTRY := Entry(0, Off, false, false, false)

  /** The ones at the low end of a pmpaddr register of `w` bits. */
  function TrailingOnes(y: nat, w: nat): (t: nat)
    ensures t <= w
  {
    if w > 0 && y % 2 == 1 then 1 + TrailingOnes(y / 2, w - 1) else 0
  }

  datatype Range = Range(lo: nat, hi: nat)

  /** The bytes that entry `i` matches. */
  function Matches(es: seq<Entry>, i: nat, w: nat): Range
    requires i < |es|
  {
    match es[i].mode
    case Off => Range(0, 0)
    case Tor => Range(if i == 0 then 0 else 4 * es[i - 1].addr, 4 * es[i].addr)
    case Napot =>
      var t := TrailingOnes(es[i].addr, w);
      var lo := 4 * Shl(Shr(es[i].addr, t + 1), t + 1);
      Range(lo, lo + Pow2(t + 3))
  }

  datatype Access = Load | LoadStore | Fetch

  predicate Permits(e: Rule, a: Access) {
    match a
    case Load => e.r
    case LoadStore => e.r && e.w
    case Fetch => e.x
  }

  predicate Overlaps(m: Range, lo: nat, hi: nat) {
    m.lo < m.hi && m.lo < hi && lo < m.hi
  }

  /** An entry as accesses see it. */
  datatype Rule = Rule(bytes: Range, r: bool, w: bool, x: bool)

  function RuleOf(es: seq<Entry>, i: nat, w: nat): Rule
    requires i < |es|
  {
    Rule(Matches(es, i, w), es[i].r, es[i].w, es[i].x)
  }

  function Rules(es: seq<Entry>, w: nat): (rs: seq<Rule>)
    ensures |rs| == |es|
  {
    seq(|es|, i requires 0 <= i < |es| => RuleOf(es, i, w))
  }

  /** The first rule that matches any byte of the access decides, and has to match them all. */
  predicate Decide(rs: seq<Rule>, lo: nat, hi: nat, a: Access) {
    if rs == [] then false
    else if Overlaps(rs[0].bytes, lo, hi) then rs[0].bytes.lo <= lo && hi <= rs[0].bytes.hi && Permits(rs[0], a)
    else Decide(rs[1..], lo, hi, a)
  }

  /** May S-mode do one access to the bytes from `lo` to `hi`? Not without a rule for it. */
  predicate Allows(es: seq<Entry>, w: nat, lo: nat, hi: nat, a: Access) {
    Decide(Rules(es, w), lo, hi, a)
  }

  // ---- what the monitor writes -----------------------------------------------------------------

  datatype Kind = MmodeRx | MmodeRw | SharedRw

  /** A memory region of the monitor's, its own or one S-mode may use. */
  datatype Region = Region(base: nat, size: nat, kind: Kind)

  datatype DomainRegion = DomainRegion(base: nat, order: nat, r: bool, w: bool, x: bool)

  /** What pmp_range_set() and region_is_napot() ask: a power of two, and aligned to it. */
  ghost predicate IsNapot(base: nat, size: nat) {
    exists k: nat :: NapotOf(base, size, k)
  }

  ghost predicate NapotOf(base: nat, size: nat, k: nat) {
    k >= 3 && size == Pow2(k) && Low(base, k) == 0
  }

  /** pmp_range_set(): one entry, or a pair. A register keeps its `w` low bits. */
  ghost function RangeEntries(base: nat, size: nat, w: nat, r: bool, wr: bool, x: bool): (es: seq<Entry>) {
    if IsNapot(base, size) && size >= 8 then [Entry(Low(Or(base / 4, size / 8 - 1), w), Napot, r, wr, x)]
    else [Entry(Low(base / 4, w), Off, false, false, false),
          Entry(Low(WordsUp((base + size) % WORD), w), Tor, r, wr, x)]
  }

  /** An address in words of four bytes, the grain, where it is rounded up to one. */
  function WordsUp(x: nat): nat {
    (x + 3) % WORD / 4
  }

  /** The monitor's regions: no permissions for S-mode. */
  ghost function MonitorEntries(ms: seq<Region>, w: nat): seq<Entry> {
    if ms == [] then []
    else
      var rest := MonitorEntries(ms[1..], w);
      if ms[0].kind.SharedRw? then rest else RangeEntries(ms[0].base, ms[0].size, w, false, false, false) + rest
  }

  /** pmp_domain_set(): a region that may be written and not read gets no W. */
  ghost function DomainEntries(d: DomainRegion, w: nat): seq<Entry> {
    if d.order >= XLEN then [Entry(Low(WORD - 1, w), Napot, d.r, d.w && d.r, d.x)]
    else RangeEntries(d.base, Pow2(d.order), w, d.r, d.w && d.r, d.x)
  }

  ghost function AllDomainEntries(ds: seq<DomainRegion>, w: nat): seq<Entry> {
    if ds == [] then [] else DomainEntries(ds[0], w) + AllDomainEntries(ds[1..], w)
  }

  function Offs(n: nat): seq<Entry> {
    seq(n, i => NO_ENTRY)
  }

  // ---- the software check ------------------------------------------------------------------------

  /** monitor_range_clear(), for one region; sums are taken modulo the word. */
  predicate Touches(m: Region, addr: nat, end: nat) {
    !m.kind.SharedRw? && end > m.base && addr < (m.base + m.size) % WORD
  }

  predicate RangeClear(ms: seq<Region>, addr: nat, size: nat) {
    var end := (addr + size) % WORD;
    end >= addr && forall i :: 0 <= i < |ms| ==> !Touches(ms[i], addr, end)
  }

  /** region_last() */
  function Last(d: DomainRegion): int {
    if d.order >= XLEN then WORD - 1 else (d.base + Pow2(d.order) - 1) % WORD
  }

  predicate Grants(d: DomainRegion, a: Access) {
    match a
    case Load => d.r
    case LoadStore => d.r && d.w
    case Fetch => d.x
  }

  /** The loop of domain_range_ok(). */
  predicate RegionsAllow(ds: seq<DomainRegion>, addr: nat, last: int, a: Access) {
    if ds == [] then false
    else if addr > Last(ds[0]) || last < ds[0].base then RegionsAllow(ds[1..], addr, last, a)
    else addr >= ds[0].base && last <= Last(ds[0]) && Grants(ds[0], a)
  }

  /** domain_range_ok() */
  predicate RangeOk(ms: seq<Region>, ds: seq<DomainRegion>, addr: nat, size: nat, a: Access) {
    var last := (addr + size - 1) % WORD;
    size == 0 || (last >= addr && RangeClear(ms, addr, size) && RegionsAllow(ds, addr, last, a))
  }
}

/** The software check says what the entries do. */
module PmpAgree {
  import opened Bits
  import opened PmpModel

  /** `w`: the bits of a pmpaddr register, which reach 4 * 2^w bytes of memory. */
  ghost predicate Width(w: nat) {
    3 <= w <= XLEN - 2
  }

  /** A word-aligned region that lies in memory. */
  ghost predicate RegionOk(m: Region, w: nat) {
    m.size > 0 && m.base % 4 == 0 && m.size % 4 == 0 && m.base + m.size <= 4 * Pow2(w)
  }

  /** What the device tree parser lets through, in memory. */
  ghost predicate DomainRegionOk(d: DomainRegion, w: nat) {
    3 <= d.order && (d.order < XLEN ==> Low(d.base, d.order) == 0 && d.base + Pow2(d.order) <= 4 * Pow2(w))
    && (d.order >= XLEN ==> d.base == 0)
  }

  // ---- powers of two -----------------------------------------------------------------------------

  /** The address space ends at or below the word. */
  lemma SpaceFits(w: nat)
    requires Width(w)
    ensures 4 * Pow2(w) <= WORD && (w < XLEN - 2 ==> 4 * Pow2(w) < WORD) && (w == XLEN - 2 ==> 4 * Pow2(w) == WORD)
  {
    WordIsPow2();
    assert Pow2(w + 2) == 4 * Pow2(w);
    Pow2Mono(w + 2, XLEN);
  }

  // ---- what a NAPOT register means -----------------------------------------------------------------

  lemma OneMore(z: nat, w: nat)
    requires w > 0
    ensures TrailingOnes(2 * z + 1, w) == 1 + TrailingOnes(z, w - 1)
  {
    assert (2 * z + 1) / 2 == z;
  }

  lemma {:induction false} OnesBelowZero(m: nat, k: nat, w: nat)
    requires k < w
    ensures TrailingOnes(Shl(m, k + 1) + Pow2(k) - 1, w) == k
    decreases k
  {
    if k > 0 {
      var z := Shl(m, k) + Pow2(k - 1) - 1;
      OnesBelowZero(m, k - 1, w - 1);
      assert Shl(m, k + 1) + Pow2(k) - 1 == 2 * z + 1;
      OneMore(z, w);
    } else {
      assert Shl(m, 1) == 2 * m;
    }
  }

  lemma {:induction false} AllOnes(w: nat)
    ensures TrailingOnes(Pow2(w) - 1, w) == w
  {
    if w > 0 {
      AllOnes(w - 1);
      assert Pow2(w) - 1 == 2 * (Pow2(w - 1) - 1) + 1;
      OneMore(Pow2(w - 1) - 1, w);
    }
  }

  lemma {:induction false} LowOnes(n: nat, w: nat)
    requires w <= n
    ensures Low(Pow2(n) - 1, w) == Pow2(w) - 1
    decreases w
  {
    if w > 0 {
      LowOnes(n - 1, w - 1);
      assert Pow2(n) - 1 == 2 * (Pow2(n - 1) - 1) + 1;
    }
  }

  /** What a region of 2^k bytes writes into its register. */
  lemma NapotIs(base: nat, k: nat)
    requires 3 <= k && Low(base, k) == 0
    ensures Pow2(k) == 8 * Pow2(k - 3) && base == 4 * Shl(Shr(base, k), k - 2)
    ensures Or(base / 4, Pow2(k) / 8 - 1) == Shl(Shr(base, k), k - 2) + Pow2(k - 3) - 1
  {
    var m := Shr(base, k);
    Split(base, k);
    assert Shl(m, k) == 2 * Shl(m, k - 1) == 4 * Shl(m, k - 2);
    assert Pow2(k) == 2 * Pow2(k - 1) == 4 * Pow2(k - 2) == 8 * Pow2(k - 3);
    OrIsSum(m, k - 2, Pow2(k - 3) - 1);
  }

  lemma NapotFits(k: nat, w: nat)
    requires Pow2(k) <= 4 * Pow2(w)
    ensures k < w + 3
  {
    assert Pow2(w + 3) == 2 * Pow2(w + 2) == 4 * Pow2(w + 1) == 8 * Pow2(w);
    if k >= w + 3 {
      Pow2Mono(w + 3, k);
    }
  }

  /** The ones at the low end of that register, and what is above them. */
  lemma NapotRegister(m: nat, k: nat, w: nat)
    requires 3 <= k < w + 3 && Shl(m, k - 2) + Pow2(k - 3) - 1 < Pow2(w)
    ensures var y := Shl(m, k - 2) + Pow2(k - 3) - 1;
            Low(y, w) == y && TrailingOnes(y, w) == k - 3 && Shr(y, k - 2) == m
  {
    LowIs(Shl(m, k - 2) + Pow2(k - 3) - 1, w);
    OnesBelowZero(m, k - 3, w);
    assert Pow2(k - 2) == 2 * Pow2(k - 3);
    ShrOf(m, k - 2, Pow2(k - 3) - 1);
  }

  /** The register of 2^k bytes at `base` matches just these. */
  lemma NapotMeans(base: nat, k: nat, w: nat, es: seq<Entry>, i: nat)
    requires Width(w) && 3 <= k && Low(base, k) == 0 && base + Pow2(k) <= 4 * Pow2(w)
    requires i < |es| && es[i].mode == Napot
    requires Pow2(k) / 8 >= 1 ==> es[i].addr == Low(Or(base / 4, Pow2(k) / 8 - 1), w)
    ensures Matches(es, i, w) == Range(base, base + Pow2(k))
  {
    NapotIs(base, k);
    NapotFits(k, w);
    NapotRegister(Shr(base, k), k, w);
  }

  /** The register of all ones matches all of memory. */
  lemma AllMeans(w: nat, es: seq<Entry>, i: nat)
    requires Width(w) && i < |es| && es[i].mode == Napot && es[i].addr == Low(WORD - 1, w)
    ensures Matches(es, i, w) == Range(0, 8 * Pow2(w))
  {
    WordIsPow2();
    LowOnes(XLEN, w);
    AllOnes(w);
    ZeroShl(w + 1);
    ShrOf(0, w + 1, Pow2(w) - 1);
    assert Pow2(w + 3) == 2 * Pow2(w + 2) == 4 * Pow2(w + 1) == 8 * Pow2(w);
  }

  // ---- one region ------------------------------------------------------------------------------------

  /**
   The one place where check and entries part: a region that ends with memory. Where a
   word reaches further than memory the check sees its end and an address pair does
   not; where it does not, the check takes that end for zero and a NAPOT entry does not.
   */
  ghost predicate EndSeen(m: Region, w: nat) {
    m.base + m.size < 4 * Pow2(w) || (IsNapot(m.base, m.size) <==> w < XLEN - 2)
  }

  /** What the entries of pmp_range_set() match. */
  ghost function Covers(base: nat, size: nat, w: nat): Range {
    if IsNapot(base, size) || base + size < 4 * Pow2(w) then Range(base, base + size) else Range(base, 0)
  }

  ghost predicate InMemory(base: nat, size: nat, w: nat) {
    Width(w) && size > 0 && base % 4 == 0 && size % 4 == 0 && base + size <= 4 * Pow2(w)
  }

  lemma WordKept(x: nat, w: nat)
    requires x < 4 * Pow2(w) && x % 4 == 0
    ensures 4 * Low(x / 4, w) == x
  {
    LowIs(x / 4, w);
  }

  lemma TorMeans(base: nat, size: nat, w: nat)
    requires InMemory(base, size, w)
    ensures 4 * Low(base / 4, w) == base
    ensures 4 * Low(WordsUp((base + size) % WORD), w) == if base + size < 4 * Pow2(w) then base + size else 0
  {
    SpaceFits(w);
    WordKept(base, w);
    WholeWords((base + size) % WORD);
    if base + size < 4 * Pow2(w) {
      WordKept(base + size, w);
    } else {
      EndKept(w);
    }
  }

  lemma WholeWords(x: nat)
    requires x < WORD && x % 4 == 0
    ensures WordsUp(x) == x / 4
  {
    assert x + 3 < WORD;
  }

  lemma EndKept(w: nat)
    requires Width(w)
    ensures Low(4 * Pow2(w) % WORD / 4, w) == 0
  {
    SpaceFits(w);
    if w < XLEN - 2 {
      assert 4 * Pow2(w) % WORD == 4 * Pow2(w);
      LowOfPow2(w);
    } else {
      assert 4 * Pow2(w) % WORD == 0;
      LowIs(0, w);
    }
  }

  lemma {:induction false} LowOfPow2(w: nat)
    ensures Low(Pow2(w), w) == 0
  {
    if w > 0 {
      LowOfPow2(w - 1);
    }
  }

  lemma NapotSize(base: nat, size: nat)
    requires IsNapot(base, size)
    ensures size >= 8
  {
    var k: nat :| NapotOf(base, size, k);
    Pow2Mono(3, k);
    assert Pow2(3) == 8;
  }

  const NOTHING := Rule(Range(0, 0), false, false, false)

  /** The rules pmp_range_set() makes: a pair begins with an entry that matches nothing. */
  ghost function RangeRules(base: nat, size: nat, w: nat, r: bool, wr: bool, x: bool): seq<Rule> {
    if IsNapot(base, size) then [Rule(Covers(base, size, w), r, wr, x)]
    else [NOTHING, Rule(Covers(base, size, w), r, wr, x)]
  }

  lemma RangeMeans(base: nat, size: nat, w: nat, r: bool, wr: bool, x: bool)
    requires InMemory(base, size, w)
    ensures Rules(RangeEntries(base, size, w, r, wr, x), w) == RangeRules(base, size, w, r, wr, x)
  {
    var es := RangeEntries(base, size, w, r, wr, x);
    if IsNapot(base, size) {
      NapotSize(base, size);
      var k: nat :| NapotOf(base, size, k);
      NapotMeans(base, k, w, es, 0);
    } else {
      TorMeans(base, size, w);
    }
  }

  /** Entries behind others mean what they mean alone, unless they begin with an address pair's end. */
  lemma RulesConcat(p: seq<Entry>, q: seq<Entry>, w: nat)
    requires q == [] || q[0].mode != Tor
    ensures Rules(p + q, w) == Rules(p, w) + Rules(q, w)
  {
    var es := p + q;
    forall i | 0 <= i < |es| ensures Rules(es, w)[i] == (Rules(p, w) + Rules(q, w))[i] {
      if i < |p| {
        assert es[i] == p[i] && (i > 0 ==> es[i - 1] == p[i - 1]);
      } else {
        assert es[i] == q[i - |p|] && (i > |p| ==> es[i - 1] == q[i - 1 - |p|]);
      }
    }
  }

  // ---- all regions ---------------------------------------------------------------------------------------

  ghost predicate RegionsOk(ms: seq<Region>, w: nat) {
    forall i :: 0 <= i < |ms| && !ms[i].kind.SharedRw? ==> RegionOk(ms[i], w)
  }

  /** The entries of a region of the monitor's match some of the bytes. */
  ghost predicate Hits(m: Region, w: nat, lo: nat, hi: nat) {
    !m.kind.SharedRw? && Overlaps(Covers(m.base, m.size, w), lo, hi)
  }

  ghost predicate NoneHit(ms: seq<Region>, w: nat, lo: nat, hi: nat) {
    forall i :: 0 <= i < |ms| ==> !Hits(ms[i], w, lo, hi)
  }

  ghost predicate NoneTouched(ms: seq<Region>, lo: nat, hi: nat) {
    forall i :: 0 <= i < |ms| ==> !Touches(ms[i], lo, hi)
  }

  ghost function MonitorRules(ms: seq<Region>, w: nat): seq<Rule> {
    if ms == [] then []
    else if ms[0].kind.SharedRw? then MonitorRules(ms[1..], w)
    else RangeRules(ms[0].base, ms[0].size, w, false, false, false) + MonitorRules(ms[1..], w)
  }

  lemma {:induction false} MonitorMeans(ms: seq<Region>, w: nat)
    requires Width(w) && RegionsOk(ms, w)
    ensures var es := MonitorEntries(ms, w);
            Rules(es, w) == MonitorRules(ms, w) && (es == [] || es[0].mode != Tor)
  {
    if ms != [] {
      MonitorMeans(ms[1..], w);
      if !ms[0].kind.SharedRw? {
        RangeMeans(ms[0].base, ms[0].size, w, false, false, false);
        RulesConcat(RangeEntries(ms[0].base, ms[0].size, w, false, false, false), MonitorEntries(ms[1..], w), w);
      }
    }
  }

  /** An access meets a region without permissions. */
  lemma RangeDenies(m: Region, w: nat, q: seq<Rule>, lo: nat, hi: nat, a: Access)
    requires !m.kind.SharedRw?
    ensures Decide(RangeRules(m.base, m.size, w, false, false, false) + q, lo, hi, a) ==
            (!Hits(m, w, lo, hi) && Decide(q, lo, hi, a))
  {
    PairDecides(RangeRules(m.base, m.size, w, false, false, false), q, lo, hi, a);
  }

  lemma PairDecides(p: seq<Rule>, q: seq<Rule>, lo: nat, hi: nat, a: Access)
    requires |p| == 1 || (|p| == 2 && p[0] == NOTHING)
    ensures var rule := p[|p| - 1];
            Decide(p + q, lo, hi, a) ==
            if Overlaps(rule.bytes, lo, hi) then rule.bytes.lo <= lo && hi <= rule.bytes.hi && Permits(rule, a)
            else Decide(q, lo, hi, a)
  {
    if |p| == 1 {
      assert (p + q)[1..] == q;
    } else {
      assert (p + q)[1..] == [p[1]] + q;
      assert ([p[1]] + q)[1..] == q;
    }
  }

  lemma {:induction false} MonitorDenies(ms: seq<Region>, w: nat, q: seq<Rule>, lo: nat, hi: nat, a: Access)
    ensures Decide(MonitorRules(ms, w) + q, lo, hi, a) == (NoneHit(ms, w, lo, hi) && Decide(q, lo, hi, a))
    decreases |ms|
  {
    if ms == [] {
      assert MonitorRules(ms, w) + q == q;
    } else {
      var rest := MonitorRules(ms[1..], w);
      NoneHitRest(ms, w, lo, hi);
      MonitorDenies(ms[1..], w, q, lo, hi, a);
      if !ms[0].kind.SharedRw? {
        var part := RangeRules(ms[0].base, ms[0].size, w, false, false, false);
        assert (part + rest) + q == part + (rest + q);
        RangeDenies(ms[0], w, rest + q, lo, hi, a);
      }
    }
  }

  lemma NoneHitRest(ms: seq<Region>, w: nat, lo: nat, hi: nat)
    requires ms != []
    ensures NoneHit(ms, w, lo, hi) == (!Hits(ms[0], w, lo, hi) && NoneHit(ms[1..], w, lo, hi))
  {
    assert forall j :: 0 < j < |ms| ==> ms[j] == ms[1..][j - 1];
  }

  ghost predicate DomainRegionsOk(ds: seq<DomainRegion>, w: nat) {
    forall i :: 0 <= i < |ds| ==> DomainRegionOk(ds[i], w)
  }

  /** How far the register of all ones reaches: twice the memory that `w` bits can name. */
  function Reach(w: nat): nat {
    8 * Pow2(w)
  }

  /** The rule for a domain's region, with W only beside R. */
  function DomainRule(d: DomainRegion, w: nat): Rule {
    Rule(if d.order >= XLEN then Range(0, Reach(w)) else Range(d.base, d.base + Pow2(d.order)),
         d.r, d.w && d.r, d.x)
  }

  function DomainRules(ds: seq<DomainRegion>, w: nat): seq<Rule> {
    if ds == [] then [] else [DomainRule(ds[0], w)] + DomainRules(ds[1..], w)
  }

  lemma DomainRegionMeans(d: DomainRegion, w: nat)
    requires Width(w) && DomainRegionOk(d, w)
    ensures var es := DomainEntries(d, w);
            Rules(es, w) == [DomainRule(d, w)] && es[0].mode == Napot
  {
    if d.order >= XLEN {
      AllMeans(w, DomainEntries(d, w), 0);
    } else {
      assert NapotOf(d.base, Pow2(d.order), d.order);
      NapotSize(d.base, Pow2(d.order));
      NapotMeans(d.base, d.order, w, DomainEntries(d, w), 0);
    }
  }

  lemma {:induction false} DomainMeans(ds: seq<DomainRegion>, w: nat)
    requires Width(w) && DomainRegionsOk(ds, w)
    ensures var es := AllDomainEntries(ds, w);
            Rules(es, w) == DomainRules(ds, w) && (es == [] || es[0].mode != Tor)
  {
    if ds != [] {
      DomainRegionMeans(ds[0], w);
      DomainMeans(ds[1..], w);
      RulesConcat(DomainEntries(ds[0], w), AllDomainEntries(ds[1..], w), w);
    }
  }

  lemma DomainRuleIs(d: DomainRegion, w: nat, lo: nat, hi: nat, a: Access)
    requires Width(w) && DomainRegionOk(d, w) && lo < hi <= Reach(w) && hi < WORD
    ensures var rule := DomainRule(d, w);
            && Overlaps(rule.bytes, lo, hi) == !(lo > Last(d) || hi - 1 < d.base)
            && (rule.bytes.lo <= lo && hi <= rule.bytes.hi <==> lo >= d.base && hi - 1 <= Last(d))
            && Permits(rule, a) == Grants(d, a)
  {
    SpaceFits(w);
  }

  lemma {:induction false} DomainDecides(ds: seq<DomainRegion>, w: nat, q: seq<Rule>, lo: nat, hi: nat, a: Access)
    requires Width(w) && DomainRegionsOk(ds, w) && lo < hi <= Reach(w) && hi < WORD && !Decide(q, lo, hi, a)
    ensures Decide(DomainRules(ds, w) + q, lo, hi, a) == RegionsAllow(ds, lo, hi - 1, a)
    decreases |ds|
  {
    if ds == [] {
      assert DomainRules(ds, w) + q == q;
    } else {
      var rest := DomainRules(ds[1..], w);
      assert ([DomainRule(ds[0], w)] + rest) + q == [DomainRule(ds[0], w)] + (rest + q);
      PairDecides([DomainRule(ds[0], w)], rest + q, lo, hi, a);
      DomainRuleIs(ds[0], w, lo, hi, a);
      DomainDecides(ds[1..], w, q, lo, hi, a);
    }
  }

  lemma {:induction false} OffsDeny(n: nat, w: nat, lo: nat, hi: nat, a: Access)
    ensures !Decide(Rules(Offs(n), w), lo, hi, a)
  {
    var rs := Rules(Offs(n), w);
    if n > 0 {
      OffsDeny(n - 1, w, lo, hi, a);
      assert rs[1..] == Rules(Offs(n - 1), w);
    }
  }

  /** What the hart's entries are, with `n` of them unused. */
  ghost function Programmed(ms: seq<Region>, ds: seq<DomainRegion>, w: nat, n: nat): seq<Entry> {
    MonitorEntries(ms, w) + (AllDomainEntries(ds, w) + Offs(n))
  }

  lemma ProgrammedMeans(ms: seq<Region>, ds: seq<DomainRegion>, w: nat, n: nat)
    requires Width(w) && DomainRegionsOk(ds, w)
    ensures Rules(Programmed(ms, ds, w, n), w) ==
            Rules(MonitorEntries(ms, w), w) + (DomainRules(ds, w) + Rules(Offs(n), w))
  {
    DomainMeans(ds, w);
    RulesConcat(AllDomainEntries(ds, w), Offs(n), w);
    RulesConcat(MonitorEntries(ms, w), AllDomainEntries(ds, w) + Offs(n), w);
  }

  /** The check without its sums modulo the word. */
  lemma RangeOkIs(ms: seq<Region>, ds: seq<DomainRegion>, addr: nat, size: nat, a: Access)
    requires size > 0 && addr + size < WORD
    ensures RangeOk(ms, ds, addr, size, a) ==
            (NoneTouched(ms, addr, addr + size) && RegionsAllow(ds, addr, addr + size - 1, a))
  {
    assert (addr + size) % WORD == addr + size && (addr + size - 1) % WORD == addr + size - 1;
  }

  /** The entries let S-mode do the access unless a monitor region's match it, or the domain's do not allow it. */
  lemma EntriesAllow(ms: seq<Region>, ds: seq<DomainRegion>, w: nat, n: nat, lo: nat, hi: nat, a: Access)
    requires Width(w) && RegionsOk(ms, w) && DomainRegionsOk(ds, w)
    requires lo < hi <= Reach(w) && hi < WORD
    ensures Allows(Programmed(ms, ds, w, n), w, lo, hi, a) ==
            (NoneHit(ms, w, lo, hi) && RegionsAllow(ds, lo, hi - 1, a))
  {
    var off := Rules(Offs(n), w);
    ProgrammedMeans(ms, ds, w, n);
    MonitorMeans(ms, w);
    OffsDeny(n, w, lo, hi, a);
    DomainDecides(ds, w, off, lo, hi, a);
    MonitorDenies(ms, w, DomainRules(ds, w) + off, lo, hi, a);
  }

  // ---- where they part -----------------------------------------------------------------------------------------

  ghost predicate Holds(m: Region, x: nat) {
    !m.kind.SharedRw? && m.base <= x < m.base + m.size
  }

  /** Both the check and the entries see all of the region. */
  ghost predicate SeenByBoth(m: Region, w: nat) {
    m.base + m.size < 4 * Pow2(w) || (w < XLEN - 2 && IsNapot(m.base, m.size))
  }

  ghost predicate Backed(ms: seq<Region>, w: nat, x: nat) {
    exists j :: 0 <= j < |ms| && Holds(ms[j], x) && SeenByBoth(ms[j], w)
  }

  /** What only one of them sees of a region is in another that both see. */
  ghost predicate EndsSeen(ms: seq<Region>, w: nat) {
    forall i, x: nat :: 0 <= i < |ms| && Holds(ms[i], x) && !EndSeen(ms[i], w) && x + 1 < WORD ==> Backed(ms, w, x)
  }

  /** Both see a region that both see, and one of them another whose end is not seen. */
  lemma SeenAlike(m: Region, w: nat, lo: nat, hi: nat)
    requires Width(w) && (m.kind.SharedRw? || RegionOk(m, w)) && lo < hi < WORD
    ensures EndSeen(m, w) ==> Touches(m, lo, hi) == Hits(m, w, lo, hi)
    ensures SeenByBoth(m, w) && !m.kind.SharedRw? ==>
              Touches(m, lo, hi) == Hits(m, w, lo, hi) == (lo < m.base + m.size && m.base < hi)
    ensures !SeenByBoth(m, w) ==> !(if w < XLEN - 2 then Hits(m, w, lo, hi) else Touches(m, lo, hi))
    ensures !EndSeen(m, w) && !m.kind.SharedRw? && lo < m.base + m.size && m.base < hi ==>
              if w < XLEN - 2 then Touches(m, lo, hi) else Hits(m, w, lo, hi)
    ensures Touches(m, lo, hi) || Hits(m, w, lo, hi) ==> lo < m.base + m.size && m.base < hi
  {
    SpaceFits(w);
  }

  lemma SeenFrom(ms: seq<Region>, w: nat, i: nat, lo: nat, hi: nat)
    requires Width(w) && RegionsOk(ms, w) && EndsSeen(ms, w) && lo < hi < WORD && i < |ms|
    requires Touches(ms[i], lo, hi) || Hits(ms[i], w, lo, hi)
    ensures !NoneTouched(ms, lo, hi) && !NoneHit(ms, w, lo, hi)
  {
    SeenAlike(ms[i], w, lo, hi);
    if !EndSeen(ms[i], w) {
      var x := if lo < ms[i].base then ms[i].base else lo;
      assert Holds(ms[i], x) && x + 1 < WORD;
      assert Backed(ms, w, x);
      var j :| 0 <= j < |ms| && Holds(ms[j], x) && SeenByBoth(ms[j], w);
      SeenAlike(ms[j], w, lo, hi);
    }
  }

  lemma TouchedIsHit(ms: seq<Region>, w: nat, lo: nat, hi: nat)
    requires Width(w) && RegionsOk(ms, w) && EndsSeen(ms, w) && lo < hi < WORD
    ensures NoneTouched(ms, lo, hi) == NoneHit(ms, w, lo, hi)
  {
    if i :| 0 <= i < |ms| && (Touches(ms[i], lo, hi) || Hits(ms[i], w, lo, hi)) {
      SeenFrom(ms, w, i, lo, hi);
    }
  }

  /** domain_range_ok() says yes just when the entries let S-mode do the access. */
  lemma CheckAgrees(ms: seq<Region>, ds: seq<DomainRegion>, w: nat, n: nat, addr: nat, size: nat, a: Access)
    requires Width(w) && RegionsOk(ms, w) && EndsSeen(ms, w) && DomainRegionsOk(ds, w)
    requires size > 0 && addr + size <= Reach(w) && addr + size < WORD
    ensures RangeOk(ms, ds, addr, size, a) <==> Allows(Programmed(ms, ds, w, n), w, addr, addr + size, a)
  {
    EntriesAllow(ms, ds, w, n, addr, addr + size, a);
    TouchedIsHit(ms, w, addr, addr + size);
    RangeOkIs(ms, ds, addr, size, a);
  }

  /** Whatever the domain's regions: an access to a byte of the monitor's is refused by the check and by the entries. */
  lemma MonitorIsClosed(ms: seq<Region>, ds: seq<DomainRegion>, w: nat, n: nat, i: nat, addr: nat, size: nat, a: Access)
    requires Width(w) && RegionsOk(ms, w) && DomainRegionsOk(ds, w)
    requires size > 0 && addr + size <= Reach(w) && addr + size < WORD
    requires i < |ms| && !ms[i].kind.SharedRw? && SeenByBoth(ms[i], w)
    requires addr < ms[i].base + ms[i].size && ms[i].base < addr + size
    ensures !RangeOk(ms, ds, addr, size, a) && !Allows(Programmed(ms, ds, w, n), w, addr, addr + size, a)
  {
    SeenAlike(ms[i], w, addr, addr + size);
    EntriesAllow(ms, ds, w, n, addr, addr + size, a);
    RangeOkIs(ms, ds, addr, size, a);
  }

  const ROOT := DomainRegion(0, XLEN, true, true, true)

  ghost predicate AgreeAt(ms: seq<Region>, w: nat, n: nat, addr: nat, size: nat, a: Access) {
    RangeOk(ms, [ROOT], addr, size, a) <==> Allows(Programmed(ms, [ROOT], w, n), w, addr, addr + size, a)
  }

  /**
   With monitor regions that end with memory and are not of the right shape, they part
   at the first byte that no other region holds; with any others, they do not part at all.
   */
  lemma CheckAgreesJustWhen(ms: seq<Region>, w: nat, n: nat)
    requires Width(w) && RegionsOk(ms, w)
    ensures EndsSeen(ms, w) <==>
            forall addr: nat, size: nat, a ::
              size > 0 && addr + size <= Reach(w) && addr + size < WORD ==> AgreeAt(ms, w, n, addr, size, a)
  {
    if EndsSeen(ms, w) {
      forall addr: nat, size: nat, a | size > 0 && addr + size <= Reach(w) && addr + size < WORD
        ensures AgreeAt(ms, w, n, addr, size, a) {
        CheckAgrees(ms, [ROOT], w, n, addr, size, a);
      }
    } else {
      var i, x: nat :| 0 <= i < |ms| && Holds(ms[i], x) && !EndSeen(ms[i], w) && x + 1 < WORD && !Backed(ms, w, x);
      ByteParts(ms, w, n, i, x);
    }
  }

  lemma RootAllows(addr: nat, last: int)
    requires 0 <= last < WORD && addr <= last
    ensures RegionsAllow([ROOT], addr, last, Load)
  {
  }

  /** No other region makes up for what one of them does not see of this one. */
  lemma OneSees(ms: seq<Region>, w: nat, i: nat, x: nat)
    requires Width(w) && RegionsOk(ms, w) && i < |ms| && Holds(ms[i], x) && !EndSeen(ms[i], w)
    requires x + 1 < WORD && !Backed(ms, w, x)
    ensures NoneTouched(ms, x, x + 1) != NoneHit(ms, w, x, x + 1)
  {
    SeenAlike(ms[i], w, x, x + 1);
    forall j | 0 <= j < |ms|
      ensures if w < XLEN - 2 then !Hits(ms[j], w, x, x + 1) else !Touches(ms[j], x, x + 1) {
      SeenAlike(ms[j], w, x, x + 1);
      assert !(Holds(ms[j], x) && SeenByBoth(ms[j], w));
    }
  }

  lemma AgreeIs(ms: seq<Region>, w: nat, n: nat, addr: nat, size: nat)
    requires Width(w) && RegionsOk(ms, w) && size > 0 && addr + size <= Reach(w) && addr + size < WORD
    ensures AgreeAt(ms, w, n, addr, size, Load) <==>
            NoneTouched(ms, addr, addr + size) == NoneHit(ms, w, addr, addr + size)
  {
    EntriesAllow(ms, [ROOT], w, n, addr, addr + size, Load);
    RangeOkIs(ms, [ROOT], addr, size, Load);
    RootAllows(addr, addr + size - 1);
  }

  lemma ByteParts(ms: seq<Region>, w: nat, n: nat, i: nat, x: nat)
    requires Width(w) && RegionsOk(ms, w) && i < |ms| && Holds(ms[i], x) && !EndSeen(ms[i], w)
    requires x + 1 < WORD && !Backed(ms, w, x)
    ensures x + 1 <= 4 * Pow2(w) && !AgreeAt(ms, w, n, x, 1, Load)
  {
    OneSees(ms, w, i, x);
    AgreeIs(ms, w, n, x, 1);
  }

  /** There are such regions: four bytes that end with 56 bits of memory. */
  lemma EndUnseen(n: nat)
    ensures var m := Region(0xff_ffff_ffff_fffc, 4, MmodeRw);
            Width(54) && RegionsOk([m], 54) && !EndsSeen([m], 54) && !AgreeAt([m], 54, n, m.base, 1, Load)
  {
    var m := Region(0xff_ffff_ffff_fffc, 4, MmodeRw);
    SpaceIs54();
    if IsNapot(m.base, m.size) {
      NapotSize(m.base, m.size);
    }
    assert Holds([m][0], m.base) && !EndSeen([m][0], 54) && !Backed([m], 54, m.base);
    ByteParts([m], 54, n, 0, m.base);
  }

  lemma SpaceIs54()
    ensures 4 * Pow2(54) == 0x100_0000_0000_0000
  {
    WordIsPow2();
    FourMore(60);
    FourMore(56);
    assert Pow2(64) == 16 * Pow2(60) == 256 * Pow2(56);
    assert Pow2(56) == 2 * Pow2(55) == 4 * Pow2(54);
  }

  // ---- ranges past the reach of the entries ---------------------------------------------------------------

  lemma {:induction false} PastDomainRules(ds: seq<DomainRegion>, w: nat, q: seq<Rule>, lo: nat, hi: nat, a: Access)
    requires Width(w) && DomainRegionsOk(ds, w) && lo < hi && Reach(w) < hi && !Decide(q, lo, hi, a)
    ensures !Decide(DomainRules(ds, w) + q, lo, hi, a)
    decreases |ds|
  {
    if ds == [] {
      assert DomainRules(ds, w) + q == q;
    } else {
      var rest := DomainRules(ds[1..], w);
      assert ([DomainRule(ds[0], w)] + rest) + q == [DomainRule(ds[0], w)] + (rest + q);
      PairDecides([DomainRule(ds[0], w)], rest + q, lo, hi, a);
      PastDomainRules(ds[1..], w, q, lo, hi, a);
    }
  }

  /** The entries let S-mode reach nothing there. */
  lemma PastIsDenied(ms: seq<Region>, ds: seq<DomainRegion>, w: nat, n: nat, lo: nat, hi: nat, a: Access)
    requires Width(w) && RegionsOk(ms, w) && DomainRegionsOk(ds, w) && lo < hi && Reach(w) < hi
    ensures !Allows(Programmed(ms, ds, w, n), w, lo, hi, a)
  {
    var off := Rules(Offs(n), w);
    ProgrammedMeans(ms, ds, w, n);
    MonitorMeans(ms, w);
    OffsDeny(n, w, lo, hi, a);
    PastDomainRules(ds, w, off, lo, hi, a);
    MonitorDenies(ms, w, DomainRules(ds, w) + off, lo, hi, a);
  }

  /** The range has a byte of the region. */
  predicate Meets(d: DomainRegion, addr: nat, last: int) {
    !(addr > Last(d) || last < d.base)
  }

  /** The first region the range meets is the one of all addresses, and grants the access. */
  ghost predicate WholeGrants(ds: seq<DomainRegion>, addr: nat, last: int, a: Access) {
    exists j :: 0 <= j < |ds| && FirstWhole(ds, j, addr, last, a)
  }

  ghost predicate FirstWhole(ds: seq<DomainRegion>, j: nat, addr: nat, last: int, a: Access)
    requires j < |ds|
  {
    && ds[j].order >= XLEN && Grants(ds[j], a)
    && forall k :: 0 <= k < j ==> !Meets(ds[k], addr, last)
  }

  lemma WholeGrantsRest(ds: seq<DomainRegion>, addr: nat, last: int, a: Access)
    requires ds != [] && !Meets(ds[0], addr, last) && ds[0].order < XLEN
    ensures WholeGrants(ds, addr, last, a) == WholeGrants(ds[1..], addr, last, a)
  {
    if j :| 0 <= j < |ds[1..]| && FirstWhole(ds[1..], j, addr, last, a) {
      forall k | 0 <= k < j + 1 ensures !Meets(ds[k], addr, last) {
        assert k > 0 ==> ds[k] == ds[1..][k - 1];
      }
      assert FirstWhole(ds, j + 1, addr, last, a);
    }
    if j :| 0 <= j < |ds| && FirstWhole(ds, j, addr, last, a) {
      forall k | 0 <= k < j - 1 ensures !Meets(ds[1..][k], addr, last) {
        assert ds[1..][k] == ds[k + 1];
      }
      assert FirstWhole(ds[1..], j - 1, addr, last, a);
    }
  }

  lemma {:induction false} PastRegions(ds: seq<DomainRegion>, w: nat, addr: nat, last: int, a: Access)
    requires Width(w) && DomainRegionsOk(ds, w) && addr <= last < WORD && Reach(w) <= last
    ensures RegionsAllow(ds, addr, last, a) <==> WholeGrants(ds, addr, last, a)
    decreases |ds|
  {
    if ds != [] {
      SpaceFits(w);
      if Meets(ds[0], addr, last) {
        assert WholeGrants(ds, addr, last, a) <==> FirstWhole(ds, 0, addr, last, a);
      } else {
        PastRegions(ds[1..], w, addr, last, a);
        WholeGrantsRest(ds, addr, last, a);
      }
    }
  }

  /**
   The check says yes there just when it comes to the region of all addresses first, and no monitor
   region is in the way.
   */
  lemma PastIsChecked(ms: seq<Region>, ds: seq<DomainRegion>, w: nat, addr: nat, size: nat, a: Access)
    requires Width(w) && DomainRegionsOk(ds, w) && size > 0 && Reach(w) < addr + size < WORD
    ensures RangeOk(ms, ds, addr, size, a) <==>
            NoneTouched(ms, addr, addr + size) && WholeGrants(ds, addr, addr + size - 1, a)
  {
    RangeOkIs(ms, ds, addr, size, a);
    PastRegions(ds, w, addr, addr + size - 1, a);
  }

  /** Over all ranges below the top of the word they agree just when the entries also reach that far. */
  lemma AllAgreeJustWhen(ms: seq<Region>, w: nat, n: nat)
    requires Width(w) && RegionsOk(ms, w)
    ensures EndsSeen(ms, w) && w >= XLEN - 3 <==>
            forall addr: nat, size: nat, a :: size > 0 && addr + size < WORD ==> AgreeAt(ms, w, n, addr, size, a)
  {
    ReachIs(w);
    CheckAgreesJustWhen(ms, w, n);
    if w < XLEN - 3 {
      PastParts(ms, w, n);
    }
  }

  lemma ReachIs(w: nat)
    requires Width(w)
    ensures w >= XLEN - 3 <==> Reach(w) >= WORD
    ensures w < XLEN - 3 ==> Reach(w) + 1 < WORD
  {
    WordIsPow2();
    assert Pow2(w + 3) == 2 * Pow2(w + 2) == 4 * Pow2(w + 1) == 8 * Pow2(w);
    if w < XLEN - 3 {
      Pow2Mono(w + 3, XLEN);
    } else {
      Pow2Mono(XLEN, w + 3);
    }
  }

  /** The first byte that the entries do not reach. */
  lemma PastParts(ms: seq<Region>, w: nat, n: nat)
    requires Width(w) && RegionsOk(ms, w) && w < XLEN - 3
    ensures Reach(w) + 1 < WORD && !AgreeAt(ms, w, n, Reach(w), 1, Load)
  {
    var x := Reach(w);
    ReachIs(w);
    PastIsDenied(ms, [ROOT], w, n, x, x + 1, Load);
    PastIsChecked(ms, [ROOT], w, x, 1, Load);
    assert FirstWhole([ROOT], 0, x, x, Load);
    forall i | 0 <= i < |ms| ensures !Touches(ms[i], x, x + 1) {
      SpaceFits(w);
      assert ms[i].kind.SharedRw? || RegionOk(ms[i], w);
    }
  }

  /** A range that ends with the word, or wraps, is refused, whatever the entries say. */
  lemma TopIsRefused(ms: seq<Region>, ds: seq<DomainRegion>, addr: nat, size: nat, a: Access)
    requires addr < WORD && size < WORD && addr + size >= WORD
    ensures !RangeOk(ms, ds, addr, size, a)
  {
  }

  /** An empty range is always fine. */
  lemma EmptyIsOk(ms: seq<Region>, ds: seq<DomainRegion>, addr: nat, a: Access)
    ensures RangeOk(ms, ds, addr, 0, a)
  {
  }

  /** No entry may be written and not read, which section 3.7.1 of the RISC-V Privileged Architecture reserves. */
  lemma {:induction false} NeverWriteOnly(ms: seq<Region>, ds: seq<DomainRegion>, w: nat, n: nat)
    ensures forall i :: 0 <= i < |Programmed(ms, ds, w, n)| && Programmed(ms, ds, w, n)[i].w ==>
              Programmed(ms, ds, w, n)[i].r
  {
    MonitorReadsAll(ms, w);
    DomainReadsAll(ds, w);
  }

  ghost predicate ReadsAll(es: seq<Entry>) {
    forall i :: 0 <= i < |es| && es[i].w ==> es[i].r
  }

  lemma {:induction false} MonitorReadsAll(ms: seq<Region>, w: nat)
    ensures ReadsAll(MonitorEntries(ms, w))
  {
    if ms != [] {
      MonitorReadsAll(ms[1..], w);
    }
  }

  lemma {:induction false} DomainReadsAll(ds: seq<DomainRegion>, w: nat)
    ensures ReadsAll(AllDomainEntries(ds, w))
  {
    if ds != [] {
      DomainReadsAll(ds[1..], w);
    }
  }
}
