/** The code that keeps the region tables and writes the PMP entries, as it works in place. */
module PmpCode {
  import opened Bits
  import opened PmpModel
  import opened PmpAgree

  // ---- pmp.c and hart.c: the entries ---------------------------------------------------------

  /** The k of a power of two, 0 for anything else. */
  function Exponent(n: nat): (k: nat)
    ensures k > 0 ==> n == Pow2(k)
  {
    if n == 2 then 1
    else if n % 2 == 0 && n > 0 && Exponent(n / 2) > 0 then Exponent(n / 2) + 1
    else 0
  }

  lemma {:induction false} ExponentFinds(k: nat)
    requires k > 0
    ensures Exponent(Pow2(k)) == k
  {
    if k > 1 {
      ExponentFinds(k - 1);
      assert Pow2(k) / 2 == Pow2(k - 1);
      Pow2Mono(1, k - 1);
    }
  }

  /** region_is_napot() */
  predicate NapotShape(base: nat, size: nat) {
    Exponent(size) >= 3 && Low(base, Exponent(size)) == 0
  }

  lemma NapotShapeIs(base: nat, size: nat)
    ensures NapotShape(base, size) <==> IsNapot(base, size)
    ensures IsNapot(base, size) ==> size >= 8
  {
    if NapotShape(base, size) {
      assert NapotOf(base, size, Exponent(size));
    }
    if IsNapot(base, size) {
      NapotSize(base, size);
      var k: nat :| NapotOf(base, size, k);
      ExponentFinds(k);
    }
  }

  lemma MonitorEntriesMore(ms: seq<Region>, i: nat, w: nat)
    requires i < |ms|
    ensures MonitorEntries(ms[..i + 1], w) ==
            MonitorEntries(ms[..i], w) +
            (if ms[i].kind.SharedRw? then [] else RangeEntries(ms[i].base, ms[i].size, w, false, false, false))
    decreases |ms|
  {
    var part := if ms[i].kind.SharedRw? then [] else RangeEntries(ms[i].base, ms[i].size, w, false, false, false);
    if i == 0 {
      assert ms[..1][1..] == [] && ms[..0] == [];
      assert MonitorEntries(ms[..1], w) == part;
    } else {
      MonitorEntriesMore(ms[1..], i - 1, w);
      assert ms[..i + 1][1..] == ms[1..][..i] && ms[..i][1..] == ms[1..][..i - 1];
    }
  }

  lemma DomainEntriesMore(ds: seq<DomainRegion>, i: nat, w: nat)
    requires i < |ds|
    ensures AllDomainEntries(ds[..i + 1], w) == AllDomainEntries(ds[..i], w) + DomainEntries(ds[i], w)
    decreases |ds|
  {
    if i == 0 {
      assert ds[..1][1..] == [] && ds[..0] == [];
    } else {
      DomainEntriesMore(ds[1..], i - 1, w);
      assert ds[..i + 1][1..] == ds[1..][..i] && ds[..i][1..] == ds[1..][..i - 1];
    }
  }

  /** The monitor's regions leave too little of `n` entries: three must be free for each. */
  ghost predicate Crowded(ms: seq<Region>, w: nat, n: nat) {
    exists i :: 0 <= i < |ms| && !ms[i].kind.SharedRw? && |MonitorEntries(ms[..i], w)| + 3 > n
  }

  lemma CrowdedMore(ms: seq<Region>, i: nat, w: nat, n: nat)
    requires i < |ms| && !Crowded(ms[..i], w, n) && (ms[i].kind.SharedRw? || |MonitorEntries(ms[..i], w)| + 3 <= n)
    ensures !Crowded(ms[..i + 1], w, n)
  {
    forall j | 0 <= j < i && !ms[j].kind.SharedRw? ensures |MonitorEntries(ms[..i + 1][..j], w)| + 3 <= n {
      assert ms[..i + 1][..j] == ms[..i][..j] && ms[..i][j] == ms[j];
    }
    assert ms[..i + 1][..i] == ms[..i];
  }

  /** `es` with `part` written from `idx` on, as far as there is room. */
  function Written(es: seq<Entry>, idx: nat, part: seq<Entry>): (r: seq<Entry>)
    ensures |r| == |es|
    ensures idx + |part| <= |es| ==> r == es[..idx] + part + es[idx + |part|..]
  {
    seq(|es|, i requires 0 <= i < |es| => if idx <= i < idx + |part| then part[i - idx] else es[i])
  }

  lemma Regrouped(p: seq<Entry>, q: seq<Entry>, r: seq<Entry>)
    ensures p + q + r == p + (q + r)
  {
  }

  class Pmp {
    const entries: array<Entry>
    /** The bits a pmpaddr register keeps. */
    const w: nat

    constructor (count: nat, w: nat)
      requires count <= 16
      ensures entries.Length == count && this.w == w && fresh(entries)
    {
      entries := new Entry[count](i => NO_ENTRY);
      this.w := w;
    }

    /** pmp_entry_set(): the mode goes to Off before the new address is written. */
    method EntrySet(idx: nat, addr: nat, mode: Match, r: bool, wr: bool, x: bool)
      modifies entries
      ensures entries[..] == if idx < entries.Length then old(entries[..])[idx := Entry(Low(addr, w), mode, r, wr, x)]
                             else old(entries[..])
    {
      if idx >= entries.Length {
        return;
      }
      entries[idx] := Entry(entries[idx].addr, Off, false, false, false);
      entries[idx] := entries[idx].(addr := Low(addr, w));
      entries[idx] := Entry(entries[idx].addr, mode, r, wr, x);
    }

    /** pmp_range_set(): what it writes begins at `idx`, and the rest stays. */
    method RangeSet(idx: nat, base: nat, size: nat, r: bool, wr: bool, x: bool) returns (n: nat)
      modifies entries
      ensures n == |RangeEntries(base, size, w, r, wr, x)|
      ensures entries[..] == Written(old(entries[..]), idx, RangeEntries(base, size, w, r, wr, x))
    {
      NapotShapeIs(base, size);
      ghost var was, es := entries[..], RangeEntries(base, size, w, r, wr, x);
      if NapotShape(base, size) {
        EntrySet(idx, Or(base / 4, size / 8 - 1), Napot, r, wr, x);
        n := 1;
        assert entries[..] == Written(was, idx, es);
      } else {
        EntrySet(idx, base / 4, Off, false, false, false);
        EntrySet(idx + 1, WordsUp((base + size) % WORD), Tor, r, wr, x);
        n := 2;
        assert entries[..] == Written(was, idx, es);
      }
    }

    /** pmp_monitor_entries() */
    method MonitorCount(ms: seq<Region>) returns (n: nat)
      ensures n == |MonitorEntries(ms, w)|
    {
      n := 0;
      for i := 0 to |ms|
        invariant n == |MonitorEntries(ms[..i], w)|
      {
        MonitorEntriesMore(ms, i, w);
        NapotShapeIs(ms[i].base, ms[i].size);
        if !ms[i].kind.SharedRw? {
          n := n + if NapotShape(ms[i].base, ms[i].size) then 1 else 2;
        }
      }
      assert ms[..|ms|] == ms;
    }

    /** pmp_hart_init(), one region after the other; false: too few entries are left for one, and it panics. */
    method HartInit(ms: seq<Region>) returns (ok: bool)
      modifies entries
      ensures ok ==> MonitorEntries(ms, w) <= entries[..]
      ensures ok <==> !Crowded(ms, w, entries.Length)
    {
      var at := 0;
      for i := 0 to |ms|
        invariant at == |MonitorEntries(ms[..i], w)| <= entries.Length
        invariant !Crowded(ms[..i], w, entries.Length)
        invariant entries[..at] == MonitorEntries(ms[..i], w)
      {
        MonitorEntriesMore(ms, i, w);
        if ms[i].kind.SharedRw? {
          CrowdedMore(ms, i, w, entries.Length);
        } else {
          if at + 3 > entries.Length {
            assert Crowded(ms, w, entries.Length);
            return false;
          }
          CrowdedMore(ms, i, w, entries.Length);
          NapotShapeIs(ms[i].base, ms[i].size);
          var n := RangeSet(at, ms[i].base, ms[i].size, false, false, false);
          at := at + n;
        }
      }
      assert ms[..|ms|] == ms;
      return true;
    }

    /** pmp_domain_set(), one region. */
    method DomainRegionSet(at: nat, d: DomainRegion)
      requires at < entries.Length && DomainRegionOk(d, w) && Width(w)
      modifies entries
      ensures |DomainEntries(d, w)| == 1 && entries[..] == old(entries[..])[at := DomainEntries(d, w)[0]]
    {
      DomainRegionMeans(d, w);
      if d.order >= XLEN {
        EntrySet(at, WORD - 1, Napot, d.r, d.w && d.r, d.x);
      } else {
        assert NapotOf(d.base, Pow2(d.order), d.order);
        ghost var was := entries[..];
        var n := RangeSet(at, d.base, Pow2(d.order), d.r, d.w && d.r, d.x);
        assert entries[..] == was[at := DomainEntries(d, w)[0]];
      }
    }

    /** ... and the entries it has no regions for are off. */
    method OffFrom(from: nat)
      requires from <= entries.Length
      modifies entries
      ensures entries[..] == old(entries[..from]) + Offs(entries.Length - from)
    {
      var at := from;
      while at < entries.Length
        invariant from <= at <= entries.Length
        invariant entries[..at] == old(entries[..from]) + Offs(at - from)
      {
        ghost var was := entries[..at];
        EntrySet(at, 0, Off, false, false, false);
        LowIs(0, w);
        assert entries[..at + 1] == was + [NO_ENTRY];
        at := at + 1;
      }
      assert entries[..] == entries[..at];
    }

    /** ... all of them, as far as there are entries. */
    method DomainRegionsSet(from: nat, ds: seq<DomainRegion>) returns (n: nat)
      requires from <= entries.Length && DomainRegionsOk(ds, w) && Width(w)
      modifies entries
      ensures n == if |ds| < entries.Length - from then |ds| else entries.Length - from
      ensures |AllDomainEntries(ds[..n], w)| == n
      ensures entries[..from + n] == old(entries[..from]) + AllDomainEntries(ds[..n], w)
    {
      n := 0;
      assert ds[..0] == [];
      while n < |ds| && from + n < entries.Length
        invariant n <= |ds| && from + n <= entries.Length
        invariant |AllDomainEntries(ds[..n], w)| == n
        invariant entries[..from + n] == old(entries[..from]) + AllDomainEntries(ds[..n], w)
      {
        DomainEntriesMore(ds, n, w);
        ghost var was := entries[..from + n];
        DomainRegionSet(from + n, ds[n]);
        assert entries[..from + n + 1] == was + DomainEntries(ds[n], w);
        n := n + 1;
      }
    }

    /** pmp_domain_set(): the regions of a domain behind the monitor's, as many as fit; the rest off. */
    method DomainSet(ms: seq<Region>, ds: seq<DomainRegion>)
      requires MonitorEntries(ms, w) <= entries[..] && DomainRegionsOk(ds, w) && Width(w)
      modifies entries
      ensures var room := entries.Length - |MonitorEntries(ms, w)|;
              var fit := if |ds| < room then |ds| else room;
              entries[..] == Programmed(ms, ds[..fit], w, room - fit)
    {
      ghost var mon := MonitorEntries(ms, w);
      var at := MonitorCount(ms);
      assert entries[..at] == mon;
      var n := DomainRegionsSet(at, ds);
      OffFrom(at + n);
      Regrouped(mon, AllDomainEntries(ds[..n], w), Offs(entries.Length - at - n));
    }
  }
}
