/** The tables of regions (hart.c, domain.c), and the software check's loops over them. */
module RegionTables {
  import opened Bits
  import opened PmpModel

  // ---- memregion_add() ---------------------------------------------------------------------------

  /** `x` is one of `size` addresses from `base` on, which go on at 0 after the last. */
  predicate Spans(base: nat, size: nat, x: int) {
    0 <= x < WORD && (base <= x < base + size || x + WORD < base + size)
  }

  ghost predicate InRegion(r: Region, kind: Kind, x: int) {
    r.kind == kind && Spans(r.base, r.size, x)
  }

  ghost predicate Covered(rs: seq<Region>, kind: Kind, x: int) {
    exists i :: 0 <= i < |rs| && InRegion(rs[i], kind, x)
  }

  /** They touch or overlap, and are of a kind; ends are taken modulo the word. */
  predicate Neighbours(r: Region, base: nat, size: nat, kind: Kind) {
    r.kind == kind && base <= (r.base + r.size) % WORD && r.base <= (base + size) % WORD
  }

  predicate Wraps(base: nat, size: nat) {
    base + size >= WORD
  }

  /** What becomes of a neighbour. */
  function Merged(r: Region, base: nat, size: nat): (m: Region)
    requires Neighbours(r, base, size, r.kind) && !Wraps(r.base, r.size) && base < WORD && size < WORD
    ensures m.kind == r.kind && !Wraps(m.base, m.size)
    ensures !Wraps(base, size) ==> forall x {:trigger InRegion(m, r.kind, x)} ::
              InRegion(m, r.kind, x) <==> InRegion(r, r.kind, x) || Spans(base, size, x)
    ensures Wraps(base, size) ==> m == r
  {
    var end := (base + size) % WORD;
    var r1 := if end > r.base + r.size then r.(size := end - r.base) else r;
    if base < r1.base then r1.(size := r1.size + (r1.base - base), base := base) else r1
  }

  /** From `was` to `now` the addresses of a region are there under its kind, and nothing else changes. */
  ghost predicate Gains(was: seq<Region>, now: seq<Region>, base: nat, size: nat, kind: Kind) {
    forall k, x :: Covered(now, k, x) <==> Covered(was, k, x) || (k == kind && Spans(base, size, x))
  }

  ghost predicate HasNeighbour(rs: seq<Region>, base: nat, size: nat, kind: Kind) {
    exists i :: 0 <= i < |rs| && Neighbours(rs[i], base, size, kind)
  }

  ghost predicate AllCovered(rs: seq<Region>, base: nat, size: nat, kind: Kind) {
    forall x :: Spans(base, size, x) ==> Covered(rs, kind, x)
  }

  class MemRegions {
    const table: array<Region>
    var count: nat
    /** Where the monitor's image is. */
    const image: nat
    const imageSize: nat

    ghost predicate Valid()
      reads this, table
    {
      count <= table.Length && forall i :: 0 <= i < count ==> table[i].base + table[i].size < WORD
    }

    ghost function Contents(): (s: seq<Region>)
      requires Valid()
      reads this, table
    {
      table[..count]
    }

    constructor (max: nat, image: nat, imageSize: nat)
      ensures Valid() && Contents() == [] && fresh(table) && table.Length == max
      ensures this.image == image && this.imageSize == imageSize
    {
      table := new Region[max](i => Region(0, 0, MmodeRw));
      count, this.image, this.imageSize := 0, image, imageSize;
    }

    /** A shared region that wraps, or reaches into the monitor: the tree is wrong. */
    predicate Misplaced(base: nat, size: nat, kind: Kind) {
      kind.SharedRw?
      && ((base + size) % WORD < base || (base < image + imageSize && base + size > image))
    }

    /** Byte `x` is one of the region and one of the monitor's. */
    predicate Shares(base: nat, size: nat, x: nat) {
      base <= x < base + size && image <= x < image + imageSize
    }

    /** ... that is, one that has a byte of the monitor's image; an empty one may not be inside of it either. */
    lemma MisplacedMeans(base: nat, size: nat, kind: Kind)
      requires base < WORD && size < WORD
      ensures size > 0 && imageSize > 0 ==>
                (Misplaced(base, size, kind) <==>
                 kind.SharedRw? && (Wraps(base, size) || exists x: nat :: Shares(base, size, x)))
      ensures size == 0 ==> (Misplaced(base, size, kind) <==> kind.SharedRw? && image < base < image + imageSize)
    {
      if base < image + imageSize && base + size > image && size > 0 && imageSize > 0 {
        assert Shares(base, size, if base < image then image else base);
      }
    }

    /**
     Every address of the new region is now in the table under its kind, and nothing else
     has changed what it is in, unless the region wraps and has a neighbour: then the table
     stays as it was. false: the source panics.
     */
    method Add(base: nat, size: nat, kind: Kind) returns (ok: bool)
      requires Valid() && base < WORD && size < WORD
      modifies `count, table
      ensures count <= table.Length && (!Wraps(base, size) ==> Valid())
      ensures ok <==> !Misplaced(base, size, kind)
                      && (old(count) < table.Length || HasNeighbour(old(Contents()), base, size, kind))
      ensures !ok ==> table[..count] == old(Contents())
      ensures ok ==> (Gains(old(Contents()), table[..count], base, size, kind) <==>
                      !Wraps(base, size) || !HasNeighbour(old(Contents()), base, size, kind)
                      || AllCovered(old(Contents()), base, size, kind))
    {
      if Misplaced(base, size, kind) {
        return false;
      }
      ghost var was := Contents();
      var i := 0;
      while i < count
        invariant i <= count && Valid() && Contents() == was
        invariant forall j :: 0 <= j < i ==> !Neighbours(was[j], base, size, kind)
      {
        assert was[i] == table[i];
        if Neighbours(table[i], base, size, kind) {
          var m := Merged(table[i], base, size);
          table[i] := m;
          assert Contents() == was[i := m];
          MergedGains(was, i, base, size);
          return true;
        }
        i := i + 1;
      }
      if count == table.Length {
        return false;
      }
      var r := Region(base, size, kind);
      table[count] := r;
      count := count + 1;
      assert table[..count] == was + [r];
      AppendedCovers(was, r);
      return true;
    }
  }

  lemma MergedGains(was: seq<Region>, i: nat, base: nat, size: nat)
    requires i < |was| && Neighbours(was[i], base, size, was[i].kind) && !Wraps(was[i].base, was[i].size)
    requires base < WORD && size < WORD
    ensures Gains(was, was[i := Merged(was[i], base, size)], base, size, was[i].kind) <==>
            !Wraps(base, size) || AllCovered(was, base, size, was[i].kind)
  {
    var kind := was[i].kind;
    if !Wraps(base, size) {
      ReplacedCovers(was, i, Merged(was[i], base, size), base, size);
    } else {
      assert was[i := was[i]] == was;
      if Gains(was, was, base, size, kind) {
        forall x | Spans(base, size, x) ensures Covered(was, kind, x) {
        }
      }
    }
  }

  lemma ReplacedCovers(was: seq<Region>, i: nat, m: Region, base: nat, size: nat)
    requires i < |was| && m.kind == was[i].kind
    requires forall x {:trigger InRegion(m, m.kind, x)} ::
               InRegion(m, m.kind, x) <==> InRegion(was[i], m.kind, x) || Spans(base, size, x)
    ensures Gains(was, was[i := m], base, size, m.kind)
  {
    var now := was[i := m];
    forall k, x ensures Covered(now, k, x) <==> Covered(was, k, x) || (k == m.kind && Spans(base, size, x)) {
      assert k == m.kind ==> (InRegion(m, k, x) <==> InRegion(was[i], k, x) || Spans(base, size, x));
      if Covered(was, k, x) {
        var j :| 0 <= j < |was| && InRegion(was[j], k, x);
        assert InRegion(now[j], k, x);
      }
      if Covered(now, k, x) {
        var j :| 0 <= j < |now| && InRegion(now[j], k, x);
        assert j != i ==> InRegion(was[j], k, x);
      }
      if k == m.kind && Spans(base, size, x) {
        assert InRegion(now[i], k, x);
      }
    }
  }

  /** A region that wraps and whose neighbour is there already is not added. */
  lemma WrappedIsLost()
    ensures var was, base, size := [Region(0x1000, WORD - 0x3000, MmodeRw)], WORD - 0x2000, 0x4000;
            && Wraps(base, size) && HasNeighbour(was, base, size, MmodeRw) && !AllCovered(was, base, size, MmodeRw)
  {
    var was, base, size := [Region(0x1000, WORD - 0x3000, MmodeRw)], WORD - 0x2000, 0x4000;
    assert Neighbours(was[0], base, size, MmodeRw);
    assert Spans(base, size, 0) && !Covered(was, MmodeRw, 0);
  }

  lemma AppendedCovers(was: seq<Region>, r: Region)
    ensures Gains(was, was + [r], r.base, r.size, r.kind)
  {
    var now := was + [r];
    forall k, x ensures Covered(now, k, x) <==> Covered(was, k, x) || InRegion(r, k, x) {
      if Covered(was, k, x) {
        var j :| 0 <= j < |was| && InRegion(was[j], k, x);
        assert InRegion(now[j], k, x);
      }
      assert now[|was|] == r;
    }
  }

  // ---- add_region() -----------------------------------------------------------------------------

  ghost predicate Sorted(ds: seq<DomainRegion>) {
    forall i, j :: 0 <= i < j < |ds| ==> ds[i].order <= ds[j].order
  }

  /** `d` may come at `i`: what is before is no larger, what comes after is larger. */
  ghost predicate Fits(ds: seq<DomainRegion>, i: nat, d: DomainRegion) {
    && i <= |ds|
    && (forall j :: 0 <= j < i ==> ds[j].order <= d.order)
    && (forall j :: i <= j < |ds| ==> ds[j].order > d.order)
  }

  lemma FitsHere(ds: seq<DomainRegion>, i: nat, d: DomainRegion)
    requires Sorted(ds) && i <= |ds| && (i > 0 ==> ds[i - 1].order <= d.order)
    requires forall j :: i <= j < |ds| ==> ds[j].order > d.order
    ensures Fits(ds, i, d)
  {
  }

  lemma InsertedSorted(ds: seq<DomainRegion>, i: nat, d: DomainRegion)
    requires Sorted(ds) && Fits(ds, i, d)
    ensures Sorted(ds[..i] + [d] + ds[i..])
  {
  }

  lemma Inserted(was: seq<DomainRegion>, i: nat, d: DomainRegion, now: seq<DomainRegion>)
    requires i <= |was| && |now| == |was| + 1 && now[i] == d
    requires forall j :: 0 <= j < i ==> now[j] == was[j]
    requires forall j :: i < j < |now| ==> now[j] == was[j - 1]
    ensures now == was[..i] + [d] + was[i..]
  {
  }

  class DomainRegions {
    const regions: array<DomainRegion>
    var count: nat

    ghost predicate Valid()
      reads this, regions
    {
      count <= regions.Length && Sorted(regions[..count])
    }

    ghost function Contents(): (s: seq<DomainRegion>)
      requires Valid()
      reads this, regions
    {
      regions[..count]
    }

    constructor (max: nat)
      ensures Valid() && Contents() == [] && fresh(regions) && regions.Length == max
    {
      regions := new DomainRegion[max](i => DomainRegion(0, 0, false, false, false));
      count := 0;
    }

    /** Those larger than `order` move up by one. */
    method Shift(order: nat) returns (i: nat)
      requires count < regions.Length
      modifies regions
      ensures i <= count && (i > 0 ==> old(regions[i - 1]).order <= order)
      ensures forall j :: 0 <= j < i ==> regions[j] == old(regions[j])
      ensures forall j :: i < j <= count ==> regions[j] == old(regions[j - 1])
      ensures forall j :: i <= j < count ==> old(regions[j]).order > order
    {
      i := count;
      while i > 0 && regions[i - 1].order > order
        invariant 0 <= i <= count
        invariant forall j :: 0 <= j < i ==> regions[j] == old(regions[j])
        invariant forall j :: i < j <= count ==> regions[j] == old(regions[j - 1])
        invariant forall j :: i <= j < count ==> old(regions[j]).order > order
      {
        regions[i] := regions[i - 1];
        i := i - 1;
      }
    }

    method Insert(d: DomainRegion) returns (ghost at: nat)
      requires count < regions.Length
      modifies `count, regions
      ensures at <= old(count) && count == old(count) + 1
      ensures regions[..count] == old(regions[..count])[..at] + [d] + old(regions[..count])[at..]
      ensures at > 0 ==> old(regions[at - 1]).order <= d.order
      ensures forall j :: at <= j < old(count) ==> old(regions[j]).order > d.order
    {
      ghost var was := regions[..count];
      var i := Shift(d.order);
      at := i;
      regions[i] := d;
      count := count + 1;
      ghost var now := regions[..count];
      assert forall j :: 0 <= j < i ==> now[j] == was[j];
      assert forall j :: i < j < |now| ==> now[j] == was[j - 1];
      Inserted(was, i, d, now);
    }

    /** By size: behind those that are no larger, in front of those that are. */
    method Add(d: DomainRegion) returns (ok: bool, ghost at: nat)
      requires Valid()
      modifies `count, regions
      ensures Valid() && ok == (old(count) < regions.Length)
      ensures !ok ==> Contents() == old(Contents())
      ensures ok ==> at <= old(count) && Contents() == old(Contents())[..at] + [d] + old(Contents())[at..]
      ensures ok ==> Fits(old(Contents()), at, d)
    {
      if count == regions.Length {
        return false, 0;
      }
      ghost var was := Contents();
      ok := true;
      at := Insert(d);
      FitsHere(was, at, d);
      InsertedSorted(was, at, d);
    }
  }

  // ---- the software check -----------------------------------------------------------------------

  /** monitor_range_clear() */
  method CheckClear(ms: seq<Region>, addr: nat, size: nat) returns (clear: bool)
    ensures clear == RangeClear(ms, addr, size)
  {
    var end := (addr + size) % WORD;
    if end < addr {
      return false;
    }
    for i := 0 to |ms|
      invariant forall j :: 0 <= j < i ==> !Touches(ms[j], addr, end)
    {
      if !ms[i].kind.SharedRw? && end > ms[i].base && addr < (ms[i].base + ms[i].size) % WORD {
        return false;
      }
    }
    return true;
  }

  /** domain_range_ok() */
  method CheckRange(ms: seq<Region>, ds: seq<DomainRegion>, addr: nat, size: nat, a: Access) returns (ok: bool)
    ensures ok == RangeOk(ms, ds, addr, size, a)
  {
    var last := (addr + size - 1) % WORD;
    if size == 0 {
      return true;
    }
    var clear := CheckClear(ms, addr, size);
    if last < addr || !clear {
      return false;
    }
    for i := 0 to |ds|
      invariant RegionsAllow(ds, addr, last, a) == RegionsAllow(ds[i..], addr, last, a)
    {
      assert ds[i..][1..] == ds[i + 1..];
      if addr > Last(ds[i]) || last < ds[i].base {
        continue;
      }
      return addr >= ds[i].base && last <= Last(ds[i]) && Grants(ds[i], a);
    }
    return false;
  }
}
