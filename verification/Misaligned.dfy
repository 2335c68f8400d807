/**
 Misaligned loads and stores (misaligned.c): the instruction is decoded and done byte by
 byte. The base, compressed and Zcb integer accesses and the floating-point accesses of a
 64-bit hart, whose encodings are those of the RISC-V Unprivileged Architecture.
 */
module Misaligned {
  import opened Options
  import opened Bits
  import opened Division

  /** An access: `reg` is the register that is loaded or stored. */
  datatype Access = Access(store: bool, fp: bool, signed: bool, len: nat, reg: nat, insnLen: nat)

  // ---- the decoder -------------------------------------------------------------------------

  /** `n` bits of an instruction from bit `from` on; `one` is 2^from, `size` 2^n. */
  function Field(insn: nat, one: nat, size: nat): (f: nat)
    requires one > 0 && size > 0
  {
    insn / one % size
  }

  function LenOf(f: nat): nat {
    if f == 0 then 1 else if f == 1 then 2 else if f == 2 then 4 else 8
  }

  /** decode32() */
  function Decode32(insn: nat): Option<Access> {
    var f3, op := Field(insn, 0x1000, 8), insn % 128;
    var rd, rs2 := Field(insn, 0x80, 32), Field(insn, 0x10_0000, 32);
    if op == 0x03 then Some(Access(false, false, f3 < 4, LenOf(f3 % 4), rd, 4))
    else if op == 0x23 then
      if f3 < 4 then Some(Access(true, false, false, LenOf(f3), rs2, 4)) else None
    else if op == 0x07 || op == 0x27 then
      if f3 == 2 || f3 == 3 then Some(Access(op == 0x27, true, false, LenOf(f3), if op == 0x27 then rs2 else rd, 4))
      else None
    else None
  }

  /** decode16() */
  function Decode16(insn: nat): Option<Access> {
    var f3, quadrant := Field(insn, 0x2000, 8), insn % 4;
    var low, rd, rs2 := 8 + Field(insn, 4, 8), Field(insn, 0x80, 32), Field(insn, 4, 32);
    var sp := quadrant == 2;
    if quadrant != 0 && quadrant != 2 then None
    else if f3 == 4 then
      var kind := Field(insn, 0x400, 8);
      if sp || (kind != 1 && kind != 3) then None
      else Some(Access(kind == 3, false, Field(insn, 0x40, 2) == 1, 2, low, 2))
    else if f3 == 0 then None
    else
      var len := if f3 == 2 || f3 == 6 then 4 else 8;
      var fp, store := f3 == 1 || f3 == 5, f3 >= 5;
      var reg := if !sp then low else if store then rs2 else rd;
      if fp || store || !sp || reg != 0 then Some(Access(store, fp, true, len, reg, 2)) else None
  }

  function Decode(insn: nat): Option<Access> {
    if insn % 4 == 3 then Decode32(insn) else Decode16(insn)
  }

  // ---- what the encodings are --------------------------------------------------------------------

  /** Accesses of two bytes and more, with all their operands. */
  datatype Insn =
    | Lx(kind: Width, rd: nat, rs1: nat, imm: nat)                    // lh lw ld lhu lwu
    | Sx(kind: Width, rs2: nat, rs1: nat, immHigh: nat, immLow: nat)  // sh sw sd
    | CLx(double: bool, rdc: nat, rs1c: nat, hi: nat, lo: nat)        // c.lw c.ld
    | CSx(double: bool, rs2c: nat, rs1c: nat, hi: nat, lo: nat)       // c.sw c.sd
    | CLxsp(double: bool, rd: nat, top: nat, rest: nat)               // c.lwsp c.ldsp
    | CSxsp(double: bool, rs2: nat, offset: nat)                      // c.swsp c.sdsp
    | CLh(sign: bool, rdc: nat, rs1c: nat, bit: nat)                  // c.lh c.lhu
    | CSh(rs2c: nat, rs1c: nat, bit: nat)                             // c.sh
    | Fl(double: bool, rd: nat, rs1: nat, imm: nat)                   // flw fld
    | Fs(double: bool, rs2: nat, rs1: nat, immHigh: nat, immLow: nat) // fsw fsd
    | CFl(rdc: nat, rs1c: nat, hi: nat, lo: nat)                      // c.fld
    | CFs(rs2c: nat, rs1c: nat, hi: nat, lo: nat)                     // c.fsd
    | CFlsp(rd: nat, top: nat, rest: nat)                             // c.fldsp
    | CFssp(rs2: nat, offset: nat)                                    // c.fsdsp

  datatype Width = H | W | D | HU | WU

  function Funct3(k: Width): nat {
    match k
    case H => 1
    case W => 2
    case D => 3
    case HU => 5
    case WU => 6
  }

  predicate Valid(i: Insn) {
    match i
    case Lx(_, rd, rs1, imm) => rd < 32 && rs1 < 32 && imm < 4096
    case Sx(k, rs2, rs1, hi, lo) => (k == H || k == W || k == D) && rs2 < 32 && rs1 < 32 && hi < 128 && lo < 32
    case CLx(_, rd, rs1, hi, lo) => rd < 8 && rs1 < 8 && hi < 8 && lo < 4
    case CSx(_, rs2, rs1, hi, lo) => rs2 < 8 && rs1 < 8 && hi < 8 && lo < 4
    case CLxsp(_, rd, top, rest) => 0 < rd < 32 && top < 2 && rest < 32
    case CSxsp(_, rs2, offset) => rs2 < 32 && offset < 64
    case CLh(_, rd, rs1, bit) => rd < 8 && rs1 < 8 && bit < 2
    case CSh(rs2, rs1, bit) => rs2 < 8 && rs1 < 8 && bit < 2
    case Fl(_, rd, rs1, imm) => rd < 32 && rs1 < 32 && imm < 4096
    case Fs(_, rs2, rs1, hi, lo) => rs2 < 32 && rs1 < 32 && hi < 128 && lo < 32
    case CFl(rd, rs1, hi, lo) => rd < 8 && rs1 < 8 && hi < 8 && lo < 4
    case CFs(rs2, rs1, hi, lo) => rs2 < 8 && rs1 < 8 && hi < 8 && lo < 4
    case CFlsp(rd, top, rest) => rd < 32 && top < 2 && rest < 32
    case CFssp(rs2, offset) => rs2 < 32 && offset < 64
  }

  function Encode(i: Insn): nat {
    match i
    case Lx(k, rd, rs1, imm) => imm * 0x10_0000 + rs1 * 0x8000 + Funct3(k) * 0x1000 + rd * 0x80 + 0x03
    case Sx(k, rs2, rs1, hi, lo) =>
      hi * 0x200_0000 + rs2 * 0x10_0000 + rs1 * 0x8000 + Funct3(k) * 0x1000 + lo * 0x80 + 0x23
    case CLx(d, rd, rs1, hi, lo) => (if d then 3 else 2) * 0x2000 + hi * 0x400 + rs1 * 0x80 + lo * 0x20 + rd * 4
    case CSx(d, rs2, rs1, hi, lo) => (if d then 7 else 6) * 0x2000 + hi * 0x400 + rs1 * 0x80 + lo * 0x20 + rs2 * 4
    case CLxsp(d, rd, top, rest) => (if d then 3 else 2) * 0x2000 + top * 0x1000 + rd * 0x80 + rest * 4 + 2
    case CSxsp(d, rs2, offset) => (if d then 7 else 6) * 0x2000 + offset * 0x80 + rs2 * 4 + 2
    case CLh(sign, rd, rs1, bit) =>
      4 * 0x2000 + 0x400 + rs1 * 0x80 + (if sign then 0x40 else 0) + bit * 0x20 + rd * 4
    case CSh(rs2, rs1, bit) => 4 * 0x2000 + 3 * 0x400 + rs1 * 0x80 + bit * 0x20 + rs2 * 4
    case Fl(d, rd, rs1, imm) =>
      imm * 0x10_0000 + rs1 * 0x8000 + (if d then 3 else 2) * 0x1000 + rd * 0x80 + 0x07
    case Fs(d, rs2, rs1, hi, lo) =>
      hi * 0x200_0000 + rs2 * 0x10_0000 + rs1 * 0x8000 + (if d then 3 else 2) * 0x1000 + lo * 0x80 + 0x27
    case CFl(rd, rs1, hi, lo) => 0x2000 + hi * 0x400 + rs1 * 0x80 + lo * 0x20 + rd * 4
    case CFs(rs2, rs1, hi, lo) => 5 * 0x2000 + hi * 0x400 + rs1 * 0x80 + lo * 0x20 + rs2 * 4
    case CFlsp(rd, top, rest) => 0x2000 + top * 0x1000 + rd * 0x80 + rest * 4 + 2
    case CFssp(rs2, offset) => 5 * 0x2000 + offset * 0x80 + rs2 * 4 + 2
  }

  /** What the instruction does. */
  function Meaning(i: Insn): (a: Access) {
    match i
    case Lx(k, rd, _, _) =>
      Access(false, false, k == H || k == W || k == D, if k == H || k == HU then 2 else if k == D then 8 else 4, rd, 4)
    case Sx(k, rs2, _, _, _) => Access(true, false, false, if k == H then 2 else if k == W then 4 else 8, rs2, 4)
    case CLx(d, rd, _, _, _) => Access(false, false, true, if d then 8 else 4, 8 + rd, 2)
    case CSx(d, rs2, _, _, _) => Access(true, false, true, if d then 8 else 4, 8 + rs2, 2)
    case CLxsp(d, rd, _, _) => Access(false, false, true, if d then 8 else 4, rd, 2)
    case CSxsp(d, rs2, _) => Access(true, false, true, if d then 8 else 4, rs2, 2)
    case CLh(sign, rd, _, _) => Access(false, false, sign, 2, 8 + rd, 2)
    case CSh(rs2, _, _) => Access(true, false, false, 2, 8 + rs2, 2)
    case Fl(d, rd, _, _) => Access(false, true, false, if d then 8 else 4, rd, 4)
    case Fs(d, rs2, _, _, _) => Access(true, true, false, if d then 8 else 4, rs2, 4)
    case CFl(rd, _, _, _) => Access(false, true, true, 8, 8 + rd, 2)
    case CFs(rs2, _, _, _) => Access(true, true, true, 8, 8 + rs2, 2)
    case CFlsp(rd, _, _) => Access(false, true, true, 8, rd, 2)
    case CFssp(rs2, _) => Access(true, true, true, 8, rs2, 2)
  }

  lemma FieldIs(insn: nat, one: nat, size: nat, hi: nat, f: nat, lo: nat)
    requires insn == (hi * size + f) * one + lo && f < size && lo < one
    ensures Field(insn, one, size) == f
  {
    assert Divides(insn, one, insn / one, insn % one);
    DividesOnce(insn, one, insn / one, insn % one, hi * size + f, lo);
    assert Divides(insn / one, size, insn / one / size, insn / one % size);
    DividesOnce(insn / one, size, insn / one / size, insn / one % size, hi, f);
  }

  lemma Decodes32(k: nat, op: nat, rd: nat, rs1: nat, rs2: nat, hi: nat)
    requires op < 128 && rd < 32 && k < 8 && rs1 < 32 && rs2 < 32
    ensures var insn := hi * 0x200_0000 + rs2 * 0x10_0000 + rs1 * 0x8000 + k * 0x1000 + rd * 0x80 + op;
            && insn % 128 == op && Field(insn, 0x1000, 8) == k
            && Field(insn, 0x80, 32) == rd && Field(insn, 0x10_0000, 32) == rs2
  {
    var insn := hi * 0x200_0000 + rs2 * 0x10_0000 + rs1 * 0x8000 + k * 0x1000 + rd * 0x80 + op;
    FieldIs(insn, 0x1000, 8, hi * 1024 + rs2 * 32 + rs1, k, rd * 0x80 + op);
    FieldIs(insn, 0x80, 32, hi * 8192 + rs2 * 256 + rs1 * 8 + k, rd, op);
    FieldIs(insn, 0x10_0000, 32, hi, rs2, rs1 * 0x8000 + k * 0x1000 + rd * 0x80 + op);
    assert insn == (hi * 0x4_0000 + rs2 * 0x2000 + rs1 * 256 + k * 32 + rd) * 128 + op;
  }

  /** A compressed instruction of quadrant 0. */
  lemma Decodes16(f3: nat, kind: nat, rs1: nat, six: nat, five: nat, r: nat)
    requires f3 < 8 && kind < 8 && rs1 < 8 && six < 2 && five < 2 && r < 8
    ensures var insn := f3 * 0x2000 + kind * 0x400 + rs1 * 0x80 + six * 0x40 + five * 0x20 + r * 4;
            && insn % 4 == 0 && Field(insn, 0x2000, 8) == f3 && Field(insn, 0x400, 8) == kind
            && Field(insn, 0x40, 2) == six && Field(insn, 4, 8) == r
  {
    var insn := f3 * 0x2000 + kind * 0x400 + rs1 * 0x80 + six * 0x40 + five * 0x20 + r * 4;
    FieldIs(insn, 0x2000, 8, 0, f3, kind * 0x400 + rs1 * 0x80 + six * 0x40 + five * 0x20 + r * 4);
    FieldIs(insn, 0x400, 8, f3, kind, rs1 * 0x80 + six * 0x40 + five * 0x20 + r * 4);
    FieldIs(insn, 0x40, 2, f3 * 64 + kind * 8 + rs1, six, five * 0x20 + r * 4);
    FieldIs(insn, 4, 8, f3 * 256 + kind * 32 + rs1 * 4 + six * 2 + five, r, 0);
    assert insn == (f3 * 0x800 + kind * 0x100 + rs1 * 0x20 + six * 0x10 + five * 8 + r) * 4;
  }

  /** A compressed instruction of quadrant 2. */
  lemma Decodes16sp(f3: nat, top: nat, rd: nat, rs2: nat)
    requires f3 < 8 && top < 2 && rd < 32 && rs2 < 32
    ensures var insn := f3 * 0x2000 + top * 0x1000 + rd * 0x80 + rs2 * 4 + 2;
            && insn % 4 == 2 && Field(insn, 0x2000, 8) == f3
            && Field(insn, 0x80, 32) == rd && Field(insn, 4, 32) == rs2
  {
    var insn := f3 * 0x2000 + top * 0x1000 + rd * 0x80 + rs2 * 4 + 2;
    FieldIs(insn, 0x2000, 8, 0, f3, top * 0x1000 + rd * 0x80 + rs2 * 4 + 2);
    FieldIs(insn, 0x80, 32, f3 * 2 + top, rd, rs2 * 4 + 2);
    FieldIs(insn, 4, 32, f3 * 64 + top * 32 + rd, rs2, 2);
    assert insn == (f3 * 0x800 + top * 0x400 + rd * 0x20 + rs2) * 4 + 2;
  }

  /** The encodings it takes beyond these: a load width and a store form that are reserved. */
  predicate Reserved(insn: nat) {
    (insn % 128 == 0x03 && Field(insn, 0x1000, 8) == 7)
    || (insn % 4 == 0 && Field(insn, 0x2000, 8) == 4 && Field(insn, 0x400, 8) == 3 && Field(insn, 0x40, 2) == 1)
  }

  /** Decoded as what it is, and not a reserved form. */
  ghost predicate Understood(i: Insn) {
    Decode(Encode(i)) == Some(Meaning(i)) && !Reserved(Encode(i))
  }

  lemma DecodesLoad(i: Insn)
    requires Valid(i) && i.Lx?
    ensures Understood(i)
  {
    assert i.imm * 0x10_0000 == i.imm / 32 * 0x200_0000 + i.imm % 32 * 0x10_0000;
    Decodes32(Funct3(i.kind), 0x03, i.rd, i.rs1, i.imm % 32, i.imm / 32);
  }

  lemma DecodesStore(i: Insn)
    requires Valid(i) && i.Sx?
    ensures Understood(i)
  {
    Decodes32(Funct3(i.kind), 0x23, i.immLow, i.rs1, i.rs2, i.immHigh);
  }

  lemma DecodesFp(i: Insn)
    requires Valid(i) && (i.Fl? || i.Fs?)
    ensures Understood(i)
  {
    if i.Fl? {
      assert i.imm * 0x10_0000 == i.imm / 32 * 0x200_0000 + i.imm % 32 * 0x10_0000;
      Decodes32(if i.double then 3 else 2, 0x07, i.rd, i.rs1, i.imm % 32, i.imm / 32);
    } else {
      Decodes32(if i.double then 3 else 2, 0x27, i.immLow, i.rs1, i.rs2, i.immHigh);
    }
  }

  lemma DecodesPlain(i: Insn)
    requires Valid(i) && (i.CLx? || i.CSx?)
    ensures Understood(i)
  {
    assert i.lo * 0x20 == i.lo / 2 * 0x40 + i.lo % 2 * 0x20;
    if i.CLx? {
      Decodes16(if i.double then 3 else 2, i.hi, i.rs1c, i.lo / 2, i.lo % 2, i.rdc);
    } else {
      Decodes16(if i.double then 7 else 6, i.hi, i.rs1c, i.lo / 2, i.lo % 2, i.rs2c);
    }
  }

  lemma DecodesPlainFp(i: Insn)
    requires Valid(i) && (i.CFl? || i.CFs?)
    ensures Understood(i)
  {
    assert i.lo * 0x20 == i.lo / 2 * 0x40 + i.lo % 2 * 0x20;
    if i.CFl? {
      Decodes16(1, i.hi, i.rs1c, i.lo / 2, i.lo % 2, i.rdc);
    } else {
      Decodes16(5, i.hi, i.rs1c, i.lo / 2, i.lo % 2, i.rs2c);
    }
  }

  lemma DecodesSpLoad(i: Insn)
    requires Valid(i) && (i.CLxsp? || i.CFlsp?)
    ensures Understood(i)
  {
    if i.CLxsp? {
      Decodes16sp(if i.double then 3 else 2, i.top, i.rd, i.rest);
    } else {
      Decodes16sp(1, i.top, i.rd, i.rest);
    }
  }

  lemma DecodesSpStore(i: Insn)
    requires Valid(i) && (i.CSxsp? || i.CFssp?)
    ensures Understood(i)
  {
    assert i.offset * 0x80 == i.offset / 32 * 0x1000 + i.offset % 32 * 0x80;
    if i.CSxsp? {
      Decodes16sp(if i.double then 7 else 6, i.offset / 32, i.offset % 32, i.rs2);
    } else {
      Decodes16sp(5, i.offset / 32, i.offset % 32, i.rs2);
    }
  }

  lemma DecodesZcb(i: Insn)
    requires Valid(i) && (i.CLh? || i.CSh?)
    ensures Understood(i)
  {
    if i.CLh? {
      Decodes16(4, 1, i.rs1c, if i.sign then 1 else 0, i.bit, i.rdc);
    } else {
      Decodes16(4, 3, i.rs1c, 0, i.bit, i.rs2c);
    }
  }

  /** Every valid load and store is decoded as what it is. */
  lemma DecodesAll(i: Insn)
    requires Valid(i)
    ensures Decode(Encode(i)) == Some(Meaning(i)) && !Reserved(Encode(i))
  {
    if i.Lx? {
      DecodesLoad(i);
    } else if i.Sx? {
      DecodesStore(i);
    } else if i.Fl? || i.Fs? {
      DecodesFp(i);
    } else if i.CLx? || i.CSx? {
      DecodesPlain(i);
    } else if i.CFl? || i.CFs? {
      DecodesPlainFp(i);
    } else if i.CLxsp? || i.CFlsp? {
      DecodesSpLoad(i);
    } else if i.CSxsp? || i.CFssp? {
      DecodesSpStore(i);
    } else {
      DecodesZcb(i);
    }
  }

  /** What the fetch gives: 32 bits, or 16. */
  predicate Fetched(insn: nat) {
    insn < 0x1_0000_0000 && (insn % 4 != 3 ==> insn < 0x1_0000)
  }

  lemma Compose32(insn: nat)
    requires insn < 0x1_0000_0000
    ensures insn == Field(insn, 0x200_0000, 128) * 0x200_0000 + Field(insn, 0x10_0000, 32) * 0x10_0000
                    + Field(insn, 0x8000, 32) * 0x8000 + Field(insn, 0x1000, 8) * 0x1000 + Field(insn, 0x80, 32) * 0x80
                    + insn % 128
  {
    var a := insn / 128;
    var b := a / 32;
    var c := b / 8;
    var d := c / 32;
    var e := d / 32;
    assert insn / 0x1000 == b && insn / 0x8000 == c && insn / 0x10_0000 == d && insn / 0x200_0000 == e;
  }

  lemma Compose16(insn: nat)
    requires insn < 0x1_0000
    ensures insn == Field(insn, 0x2000, 8) * 0x2000 + Field(insn, 0x400, 8) * 0x400 + Field(insn, 0x80, 8) * 0x80
                    + Field(insn, 0x40, 2) * 0x40 + Field(insn, 0x20, 2) * 0x20 + Field(insn, 4, 8) * 4 + insn % 4
  {
    var a := insn / 4;
    var b := a / 8;
    var c := b / 2;
    var d := c / 2;
    var e := d / 8;
    assert insn / 0x20 == b && insn / 0x40 == c && insn / 0x80 == d;
    assert insn / 0x400 == e;
    assert insn / 0x2000 == e / 8;
  }

  lemma Compose16sp(insn: nat)
    requires insn < 0x1_0000
    ensures insn == Field(insn, 0x2000, 8) * 0x2000 + Field(insn, 0x1000, 2) * 0x1000 + Field(insn, 0x80, 32) * 0x80
                    + Field(insn, 4, 32) * 4 + insn % 4
  {
    var a := insn / 4;
    var b := a / 32;
    var c := b / 32;
    assert insn / 0x80 == b && insn / 0x1000 == c && insn / 0x2000 == c / 2;
  }

  /** An access the emulation does. */
  predicate Taken(insn: nat) {
    Decode(insn).Some? && Decode(insn).value.len >= 2
  }

  ghost predicate IsAccess(insn: nat) {
    exists i :: Valid(i) && Encode(i) == insn
  }

  /** What it takes is the encoding of a load or store, or reserved, and not both. */
  lemma TakesJust(insn: nat)
    requires Fetched(insn)
    ensures Taken(insn) <==> IsAccess(insn) || Reserved(insn)
    ensures !(IsAccess(insn) && Reserved(insn))
  {
    if Taken(insn) && !Reserved(insn) {
      var i := DecodesNoOther(insn);
    }
    if IsAccess(insn) {
      var i :| Valid(i) && Encode(i) == insn;
      DecodesAll(i);
    }
  }

  /** Both reserved forms are taken. */
  lemma ReservedTaken()
    ensures Fetched(0x7003) && Reserved(0x7003) && Taken(0x7003) && !IsAccess(0x7003)
    ensures Fetched(0x8c40) && Reserved(0x8c40) && Taken(0x8c40) && !IsAccess(0x8c40)
  {
    TakesJust(0x7003);
    TakesJust(0x8c40);
  }

  lemma DecodesNoOther(insn: nat) returns (i: Insn)
    requires Fetched(insn) && !Reserved(insn) && Taken(insn)
    ensures Valid(i) && Encode(i) == insn
  {
    if insn % 4 == 3 {
      i := Which32(insn);
    } else if insn % 4 == 2 {
      i := Which16sp(insn);
    } else {
      i := Which16(insn);
    }
  }

  lemma Which32(insn: nat) returns (i: Insn)
    requires Fetched(insn) && !Reserved(insn) && insn % 4 == 3 && Taken(insn)
    ensures Valid(i) && Encode(i) == insn
  {
    Compose32(insn);
    var f3 := Field(insn, 0x1000, 8);
    var k := if f3 == 1 then H else if f3 == 2 then W else if f3 == 3 then D else if f3 == 5 then HU else WU;
    var rd, rs1 := Field(insn, 0x80, 32), Field(insn, 0x8000, 32);
    var rs2, hi := Field(insn, 0x10_0000, 32), Field(insn, 0x200_0000, 128);
    if insn % 128 == 0x03 {
      i := Lx(k, rd, rs1, hi * 32 + rs2);
    } else if insn % 128 == 0x23 {
      i := Sx(k, rs2, rs1, hi, rd);
    } else if insn % 128 == 0x07 {
      i := Fl(f3 == 3, rd, rs1, hi * 32 + rs2);
    } else {
      i := Fs(f3 == 3, rs2, rs1, hi, rd);
    }
  }

  lemma Which16sp(insn: nat) returns (i: Insn)
    requires Fetched(insn) && insn % 4 == 2 && Taken(insn)
    ensures Valid(i) && Encode(i) == insn
  {
    Compose16sp(insn);
    var f3, top := Field(insn, 0x2000, 8), Field(insn, 0x1000, 2);
    var rd, rs2 := Field(insn, 0x80, 32), Field(insn, 4, 32);
    if f3 == 1 {
      i := CFlsp(rd, top, rs2);
    } else if f3 < 5 {
      i := CLxsp(f3 == 3, rd, top, rs2);
    } else if f3 == 5 {
      i := CFssp(rs2, top * 32 + rd);
    } else {
      i := CSxsp(f3 == 7, rs2, top * 32 + rd);
    }
  }

  lemma Which16(insn: nat) returns (i: Insn)
    requires Fetched(insn) && !Reserved(insn) && insn % 4 < 2 && Taken(insn)
    ensures Valid(i) && Encode(i) == insn
  {
    Compose16(insn);
    var f3, kind := Field(insn, 0x2000, 8), Field(insn, 0x400, 8);
    var rs1, r := Field(insn, 0x80, 8), Field(insn, 4, 8);
    var six, five := Field(insn, 0x40, 2), Field(insn, 0x20, 2);
    if f3 == 4 {
      i := if kind == 1 then CLh(six == 1, r, rs1, five) else CSh(r, rs1, five);
    } else if f3 == 1 {
      i := CFl(r, rs1, kind, six * 2 + five);
    } else if f3 == 5 {
      i := CFs(r, rs1, kind, six * 2 + five);
    } else if f3 < 5 {
      i := CLx(f3 == 3, r, rs1, kind, six * 2 + five);
    } else {
      i := CSx(f3 == 7, r, rs1, kind, six * 2 + five);
    }
  }

  // ---- bytes and words --------------------------------------------------------------------------------

  type Byte = x: nat | x < 256

  /** Little-endian. */
  function WordOf(bs: seq<Byte>): nat {
    if bs == [] then 0 else WordOf(bs[..|bs| - 1]) + Shl(bs[|bs| - 1], 8 * (|bs| - 1))
  }

  function ByteOf(val: nat, i: nat): Byte {
    Shr(val, 8 * i) % 256
  }

  function BytesOf(val: nat, len: nat): (bs: seq<Byte>)
    ensures |bs| == len
  {
    seq(len, i requires 0 <= i => ByteOf(val, i))
  }

  lemma {:induction false} ShlBound(b: nat, n: nat)
    requires b < 256
    ensures Shl(b, n) <= 255 * Pow2(n)
  {
    if n > 0 {
      ShlBound(b, n - 1);
    }
  }

  lemma EightMore(n: nat)
    ensures Pow2(n + 8) == 256 * Pow2(n)
  {
    FourMore(n);
    FourMore(n + 4);
  }

  lemma {:induction false} WordBound(bs: seq<Byte>)
    ensures WordOf(bs) < Pow2(8 * |bs|)
    decreases |bs|
  {
    if bs != [] {
      var n := |bs| - 1;
      WordBound(bs[..n]);
      ShlBound(bs[n], 8 * n);
      EightMore(8 * n);
      assert 8 * |bs| == 8 * n + 8;
    }
  }

  /** Storing a value and loading it again gives its low bytes. */
  lemma {:induction false} LoadsStored(val: nat, len: nat)
    ensures WordOf(BytesOf(val, len)) == Low(val, 8 * len)
  {
    var bs := BytesOf(val, len);
    if len > 0 {
      LoadsStored(val, len - 1);
      assert bs[..len - 1] == BytesOf(val, len - 1);
      LowEightMore(val, 8 * (len - 1));
      assert 8 * len == 8 * (len - 1) + 8;
    }
  }

  lemma {:induction false} LowEightMore(x: nat, n: nat)
    ensures Low(x, n + 8) == Low(x, n) + Shl(Shr(x, n) % 256, n)
  {
    if n == 0 {
      LowEight(x);
    } else {
      LowEightMore(x / 2, n - 1);
      assert n + 8 - 1 == n - 1 + 8;
    }
  }

  lemma LowEight(x: nat)
    ensures Low(x, 8) == x % 256
  {
    Split(x, 8);
    ShlEight(Shr(x, 8));
    EightMore(0);
  }

  lemma ShlEight(m: nat)
    ensures Shl(m, 8) == 256 * m
  {
    assert Shl(m, 4) == 2 * Shl(m, 3) == 4 * Shl(m, 2) == 8 * Shl(m, 1) == 16 * m;
    assert Shl(m, 8) == 2 * Shl(m, 7) == 4 * Shl(m, 6) == 8 * Shl(m, 5) == 16 * Shl(m, 4);
  }

  // ---- the emulation -------------------------------------------------------------------------------------

  /** A value of `len` bytes as a register holds it. */
  function Extended(val: nat, len: nat, signed: bool): nat {
    if signed && len == 2 && val >= 0x8000 then val + (WORD - 0x1_0000)
    else if signed && len == 4 && val >= 0x8000_0000 then val + (WORD - 0x1_0000_0000)
    else val
  }

  /** The same by shifts: up to the top of the word, and down again with the sign. */
  function Shifted(val: nat, len: nat): int
    requires len == 2 || len == 4
  {
    var one := if len == 2 then 0x1_0000_0000_0000 else 0x1_0000_0000;
    var up := val * one % WORD;
    var top: int := if up >= WORD / 2 then up - WORD else up;
    top / one % WORD
  }

  lemma ShiftedExtends(val: nat, len: nat)
    requires len == 2 || len == 4
    requires val < if len == 2 then 0x1_0000 else 0x1_0000_0000
    ensures Shifted(val, len) == Extended(val, len, true)
  {
  }

  /** `Vectored`: trap_misaligned_vector() has taken it. */
  datatype Outcome = Emulated | Redirected | Fault(at: nat) | Vectored

  /** The address of byte `i` of an access. */
  function Addr(tval: nat, i: nat): nat {
    (tval + i) % WORD
  }

  lemma AddrsDiffer(tval: nat, i: nat, j: nat)
    requires i < j < WORD
    ensures Addr(tval, i) != Addr(tval, j)
  {
  }

  /** The bytes of memory from `tval` on. */
  ghost predicate Readable(mem: map<nat, Byte>, tval: nat, n: nat) {
    forall i :: 0 <= i < n ==> Addr(tval, i) in mem
  }

  ghost function BytesAt(mem: map<nat, Byte>, tval: nat, n: nat): (bs: seq<Byte>)
    requires Readable(mem, tval, n)
    ensures |bs| == n
  {
    if n == 0 then [] else BytesAt(mem, tval, n - 1) + [mem[Addr(tval, n - 1)]]
  }

  /** From `was` to `now`, the first `n` bytes of `val` are stored, and nothing else changes. */
  ghost predicate Stored(was: map<nat, Byte>, now: map<nat, Byte>, tval: nat, val: nat, n: nat) {
    && (forall i :: 0 <= i < n ==> Addr(tval, i) in now && now[Addr(tval, i)] == ByteOf(val, i))
    && (forall x :: Outside(x, tval, n) ==> (x in now <==> x in was) && (x in now ==> now[x] == was[x]))
  }

  ghost predicate Outside(x: nat, tval: nat, n: nat) {
    forall i :: 0 <= i < n ==> Addr(tval, i) != x
  }

  lemma StoredMore(was: map<nat, Byte>, now: map<nat, Byte>, tval: nat, val: nat, n: nat)
    requires n < 8 && Stored(was, now, tval, val, n)
    ensures Stored(was, now[Addr(tval, n) := ByteOf(val, n)], tval, val, n + 1)
  {
    forall i | 0 <= i < n ensures Addr(tval, i) != Addr(tval, n) {
      AddrsDiffer(tval, i, n);
    }
    forall x | Outside(x, tval, n + 1) ensures Outside(x, tval, n) && x != Addr(tval, n) {
    }
  }

  ghost predicate Writable(writable: set<nat>, tval: nat, n: nat) {
    forall i :: 0 <= i < n ==> Addr(tval, i) in writable
  }

  // ---- what an access does ---------------------------------------------------------------------------

  /** A hart as the access sees it; `fs` is the state of the floating-point unit. */
  datatype Machine = Machine(regs: seq<nat>, fregs: seq<nat>, fs: nat, mem: map<nat, Byte>, pc: nat)

  const FS_OFF := 0
  const FS_DIRTY := 3

  /** Which extensions there are, and where S-mode can write; it can read what is in memory. */
  datatype Platform = Platform(f: bool, d: bool, writable: set<nat>)

  predicate WfMachine(m: Machine) {
    |m.regs| == 32 && |m.fregs| == 32
  }

  /** A single in a register that can hold a double has ones above it. */
  function Boxed(val: nat, len: nat, d: bool): nat {
    if len == 4 && d then val + (WORD - 0x1_0000_0000) else val
  }

  /** The low half is the value, and the high half all ones just where a double would fit. */
  lemma BoxedMeans(val: nat, d: bool)
    requires val < 0x1_0000_0000
    ensures Boxed(val, 4, d) % 0x1_0000_0000 == val
    ensures Boxed(val, 4, d) / 0x1_0000_0000 == if d then 0xffff_ffff else 0
    ensures forall v: nat :: Boxed(v, 8, d) == v
  {
  }

  /** What a store of `a` stores. */
  function Source(a: Access, m: Machine): nat
    requires WfMachine(m) && a.reg < 32
  {
    if !a.fp then m.regs[a.reg] else if a.len == 8 then m.fregs[a.reg] else m.fregs[a.reg] % 0x1_0000_0000
  }

  /** A load of `a` that read `val`. */
  function Loaded(p: Platform, a: Access, m: Machine, val: nat): Machine
    requires WfMachine(m) && a.reg < 32
  {
    var n := m.(pc := (m.pc + a.insnLen) % WORD);
    if a.fp then n.(fregs := m.fregs[a.reg := Boxed(val, a.len, p.d)], fs := FS_DIRTY)
    else if a.reg == 0 then n
    else n.(regs := m.regs[a.reg := Extended(val, a.len, a.signed)])
  }

  /** Of a load: what it puts into which register, and that all else but the pc stays. */
  lemma LoadedMeans(p: Platform, a: Access, m: Machine, val: nat)
    requires WfMachine(m) && a.reg < 32
    ensures var n := Loaded(p, a, m, val);
            && n.pc == (m.pc + a.insnLen) % WORD && n.mem == m.mem && |n.regs| == |n.fregs| == 32
            && (forall i :: 0 <= i < 32 && (a.fp || i != a.reg || i == 0) ==> n.regs[i] == m.regs[i])
            && (forall i :: 0 <= i < 32 && (!a.fp || i != a.reg) ==> n.fregs[i] == m.fregs[i])
            && (!a.fp && a.reg != 0 ==> n.regs[a.reg] == Extended(val, a.len, a.signed))
            && (a.fp ==> n.fregs[a.reg] == Boxed(val, a.len, p.d))
            && n.fs == if a.fp then 3 else m.fs
  {
  }

  /** A floating-point register that has been loaded is stored again as it was in memory. */
  lemma FloatComesBack(p: Platform, load: Access, store: Access, m: Machine, val: nat)
    requires WfMachine(m) && load.fp && store.fp && load.reg == store.reg < 32
    requires load.len == store.len && (load.len == 4 || load.len == 8) && (load.len == 4 ==> val < 0x1_0000_0000)
    ensures Source(store, Loaded(p, load, m, val)) == val
    ensures load.len == 4 && p.d ==> Loaded(p, load, m, val).fregs[load.reg] / 0x1_0000_0000 == 0xffff_ffff
  {
    if load.len == 4 {
      BoxedMeans(val, p.d);
    }
  }

  /** From `m` to `n` access `a` at `tval` is done, or faults at a byte with only the stores before it done. */
  ghost predicate Performs(p: Platform, a: Access, tval: nat, m: Machine, out: Outcome, n: Machine) {
    && WfMachine(m) && a.reg < 32
    && match out
       case Redirected => false
       case Vectored => false
       case Emulated =>
         if a.store then
           && Writable(p.writable, tval, a.len) && Stored(m.mem, n.mem, tval, Source(a, m), a.len)
           && n == m.(mem := n.mem, pc := (m.pc + a.insnLen) % WORD)
         else Readable(m.mem, tval, a.len) && n == Loaded(p, a, m, WordOf(BytesAt(m.mem, tval, a.len)))
       case Fault(at) =>
         && at < a.len
         && if a.store then
              && Writable(p.writable, tval, at) && Addr(tval, at) !in p.writable
              && Stored(m.mem, n.mem, tval, Source(a, m), at) && n == m.(mem := n.mem)
            else Readable(m.mem, tval, at) && Addr(tval, at) !in m.mem && n == m
  }

  /** The floating-point unit is there and on. */
  predicate FpReady(p: Platform, a: Access, fs: nat) {
    p.f && fs != FS_OFF && (a.len == 8 ==> p.d)
  }

  /** A load for a load trap or a store for a store trap, which the hart could have made. */
  predicate Due(p: Platform, a: Access, isStore: bool, fs: nat) {
    a.len >= 2 && a.store == isStore && (a.fp ==> FpReady(p, a, fs))
  }

  /** The vector accesses share two opcodes with the floating-point ones. */
  predicate VectorForm(insn: nat) {
    (insn % 128 == 0x07 || insn % 128 == 0x27) && (Field(insn, 0x1000, 8) == 0 || Field(insn, 0x1000, 8) >= 5)
  }

  /**
   What trap_misaligned() does: the access, or it leaves all as it was to S-mode. `vector`
   says whether the vector code takes an instruction in one of its forms.
   */
  ghost predicate Emulation(p: Platform, insn: nat, tval: nat, isStore: bool, vector: bool,
                            m: Machine, out: Outcome, n: Machine) {
    if VectorForm(insn) && vector then out == Vectored && n == m
    else if Decode(insn).Some? && Due(p, Decode(insn).value, isStore, m.fs) then
      Performs(p, Decode(insn).value, tval, m, out, n)
    else out == Redirected && n == m
  }

  /** What is left to the vector code, and nothing changed, is just a load or store of its own if it takes that. */
  lemma VectorsGoOn(p: Platform, insn: nat, tval: nat, isStore: bool, vector: bool,
                    m: Machine, out: Outcome, n: Machine)
    requires Emulation(p, insn, tval, isStore, vector, m, out, n)
    ensures out == Vectored <==>
            vector && insn % 128 in {0x07, 0x27} && Field(insn, 0x1000, 8) in {0, 5, 6, 7}
    ensures out == Vectored ==> n == m
  {
  }

  /** None of these is an access of its own. */
  lemma VectorIsNone(insn: nat)
    requires VectorForm(insn)
    ensures Decode(insn) == None
  {
  }

  /** Every load and store that traps is done as it is defined, whatever its encoding. */
  lemma EmulatesAll(p: Platform, i: Insn, tval: nat, vector: bool, m: Machine, out: Outcome, n: Machine)
    requires Valid(i) && Emulation(p, Encode(i), tval, Meaning(i).store, vector, m, out, n)
    ensures if Meaning(i).fp && (!p.f || m.fs == 0 || (Meaning(i).len == 8 && !p.d)) then out == Redirected && n == m
            else Performs(p, Meaning(i), tval, m, out, n)
  {
    DecodesAll(i);
    if VectorForm(Encode(i)) {
      VectorIsNone(Encode(i));
    }
  }

  /** ... and nothing else changes anything, but for the reserved forms. */
  lemma EmulatesNoOther(p: Platform, insn: nat, tval: nat, isStore: bool, vector: bool,
                        m: Machine, out: Outcome, n: Machine)
    requires Fetched(insn) && !Reserved(insn) && Emulation(p, insn, tval, isStore, vector, m, out, n)
    requires out != Redirected && out != Vectored
    ensures exists i :: Valid(i) && Encode(i) == insn && Meaning(i).store == isStore
                        && Performs(p, Meaning(i), tval, m, out, n)
  {
    var i := DecodesNoOther(insn);
    DecodesAll(i);
  }

  /** The access can touch its first `n` bytes, and not the next if there is one. */
  ghost predicate Reaches(p: Platform, a: Access, tval: nat, mem: map<nat, Byte>, n: nat) {
    && n <= a.len
    && (if a.store then Writable(p.writable, tval, n) else Readable(mem, tval, n))
    && (n < a.len ==> if a.store then Addr(tval, n) !in p.writable else Addr(tval, n) !in mem)
  }

  lemma ReachesOnce(p: Platform, a: Access, tval: nat, mem: map<nat, Byte>, j: nat, k: nat)
    requires Reaches(p, a, tval, mem, j) && Reaches(p, a, tval, mem, k)
    ensures j == k
  {
  }

  lemma StoredOnce(was: map<nat, Byte>, now: map<nat, Byte>, now': map<nat, Byte>, tval: nat, val: nat, n: nat)
    requires Stored(was, now, tval, val, n) && Stored(was, now', tval, val, n)
    ensures now == now'
  {
    forall x ensures (x in now <==> x in now') && (x in now ==> now[x] == now'[x]) {
      if !Outside(x, tval, n) {
        var i :| 0 <= i < n && Addr(tval, i) == x;
      }
    }
  }

  function Reached(a: Access, out: Outcome): nat {
    if out.Fault? then out.at else a.len
  }

  /** What an access does is one thing: the outcome and the hart after it. */
  lemma PerformsOnce(p: Platform, a: Access, tval: nat, m: Machine,
                     out: Outcome, n: Machine, out': Outcome, n': Machine)
    requires Performs(p, a, tval, m, out, n) && Performs(p, a, tval, m, out', n')
    ensures out == out' && n == n'
  {
    ReachesOnce(p, a, tval, m.mem, Reached(a, out), Reached(a, out'));
    if a.store {
      StoredOnce(m.mem, n.mem, n'.mem, tval, Source(a, m), Reached(a, out));
    }
  }

  lemma DecodedIs(insn: nat)
    requires Decode(insn).Some?
    ensures var a := Decode(insn).value;
            && a.reg < 32 && (a.len == 1 || a.len == 2 || a.len == 4 || a.len == 8)
            && (a.fp ==> a.len == 4 || a.len == 8)
  {
  }

  lemma WordMore(bs: seq<Byte>, b: Byte)
    ensures WordOf(bs + [b]) == Or(WordOf(bs), Shl(b, 8 * |bs|)) < Pow2(8 * (|bs| + 1))
  {
    assert (bs + [b])[..|bs|] == bs;
    WordBound(bs);
    WordBound(bs + [b]);
    OrIsSum(b, 8 * |bs|, WordOf(bs));
    OrSwaps(Shl(b, 8 * |bs|), WordOf(bs));
  }

  lemma {:induction false} OrSwaps(a: nat, b: nat)
    ensures Or(a, b) == Or(b, a)
    decreases a + b
  {
    if a != 0 || b != 0 {
      OrSwaps(a / 2, b / 2);
    }
  }

  class Hart {
    const regs: array<nat>
    const fregs: array<nat>
    var fs: nat
    var mem: map<nat, Byte>
    var pc: nat
    const platform: Platform

    constructor (platform: Platform, mem: map<nat, Byte>, pc: nat)
      ensures Valid() && fresh(regs) && fresh(fregs) && this.platform == platform
      ensures fs == FS_OFF && this.mem == mem && this.pc == pc
    {
      regs := new nat[32](i => 0);
      fregs := new nat[32](i => 0);
      fs, this.platform, this.mem, this.pc := FS_OFF, platform, mem, pc;
    }

    ghost predicate Valid() {
      regs.Length == 32 && fregs.Length == 32 && regs != fregs
    }

    ghost function View(): (m: Machine)
      requires Valid()
      reads this, regs, fregs
      ensures WfMachine(m)
    {
      Machine(regs[..], fregs[..], fs, mem, pc)
    }

    /** The store loop: all bytes, or those before the one that faults. */
    method StoreBytes(tval: nat, val: nat, len: nat) returns (done: nat)
      requires len <= 8
      modifies `mem
      ensures done <= len && Writable(platform.writable, tval, done) && Stored(old(mem), mem, tval, val, done)
      ensures done < len ==> Addr(tval, done) !in platform.writable
    {
      done := 0;
      while done < len
        invariant 0 <= done <= len && Writable(platform.writable, tval, done) && Stored(old(mem), mem, tval, val, done)
      {
        if Addr(tval, done) !in platform.writable {
          return;
        }
        StoredMore(old(mem), mem, tval, val, done);
        mem := mem[Addr(tval, done) := ByteOf(val, done)];
        done := done + 1;
      }
    }

    /** The load loop: the value, or where it faults. */
    method LoadBytes(tval: nat, len: nat) returns (done: nat, val: nat)
      requires len <= 8
      ensures done <= len && Readable(mem, tval, done) && (done < len ==> Addr(tval, done) !in mem)
      ensures val == WordOf(BytesAt(mem, tval, done)) < Pow2(8 * done)
    {
      done, val := 0, 0;
      while done < len
        invariant 0 <= done <= len && Readable(mem, tval, done)
        invariant val == WordOf(BytesAt(mem, tval, done)) < Pow2(8 * done)
      {
        if Addr(tval, done) !in mem {
          return;
        }
        var byte := mem[Addr(tval, done)];
        WordMore(BytesAt(mem, tval, done), byte);
        val := Or(val, Shl(byte, 8 * done));
        done := done + 1;
      }
    }

    /** fp_reg_access(), from a register. */
    method FpRead(reg: nat, double: bool) returns (val: nat)
      requires Valid() && reg < 32
      ensures val == Source(Access(true, true, false, if double then 8 else 4, reg, 4), View())
    {
      val := fregs[reg];
      if !double {
        val := val % 0x1_0000_0000;
      }
    }

    /** The load is done: the register has the value, unless it is x0. */
    method LoadTo(a: Access, val: nat)
      requires Valid() && a.reg < 32 && (a.len == 2 || a.len == 4 || a.len == 8) && val < Pow2(8 * a.len)
      modifies regs, fregs, `fs
      ensures View() == Loaded(platform, a, old(View()), val).(pc := pc)
    {
      if a.fp {
        fregs[a.reg] := Boxed(val, a.len, platform.d);
        fs := FS_DIRTY;
      } else if a.reg != 0 {
        EightMore(0);
        EightMore(8);
        EightMore(16);
        EightMore(24);
        if a.signed && a.len < 8 {
          ShiftedExtends(val, a.len);
          regs[a.reg] := Shifted(val, a.len);
        } else {
          regs[a.reg] := val;
        }
      }
    }

    /** A load: the register and the pc, or the byte that faults and no change at all. */
    method Load(a: Access, tval: nat) returns (out: Outcome)
      requires Valid() && !a.store && a.reg < 32 && (a.len == 2 || a.len == 4 || a.len == 8)
      modifies this, regs, fregs
      ensures Performs(platform, a, tval, old(View()), out, View())
    {
      var done, val := LoadBytes(tval, a.len);
      if done < a.len {
        return Fault(done);
      }
      LoadTo(a, val);
      pc := (pc + a.insnLen) % WORD;
      return Emulated;
    }

    /** A store: the bytes of the register and the pc, or the byte that faults and those before it. */
    method Store(a: Access, tval: nat) returns (out: Outcome)
      requires Valid() && a.store && a.reg < 32 && a.len <= 8 && (a.fp ==> a.len == 4 || a.len == 8)
      modifies this
      ensures Performs(platform, a, tval, old(View()), out, View())
    {
      var val := regs[a.reg];
      if a.fp {
        val := FpRead(a.reg, a.len == 8);
      }
      var done := StoreBytes(tval, val, a.len);
      if done < a.len {
        return Fault(done);
      }
      pc := (pc + a.insnLen) % WORD;
      return Emulated;
    }

    /**
     trap_misaligned(), up to what the vector code does: an access of the kind that trapped
     is done, or faults at a byte, where a load has changed nothing and a store only the
     bytes before it; anything else is S-mode's, with nothing changed.
     */
    method Emulate(insn: nat, tval: nat, isStore: bool, vector: bool) returns (out: Outcome)
      requires Valid()
      modifies this, regs, fregs
      ensures Emulation(platform, insn, tval, isStore, vector, old(View()), out, View())
    {
      if VectorForm(insn) && vector {
        return Vectored;
      }
      var d := Decode(insn);
      if d.None? || !Due(platform, d.value, isStore, fs) {
        return Redirected;
      }
      DecodedIs(insn);
      if d.value.store {
        out := Store(d.value, tval);
      } else {
        out := Load(d.value, tval);
      }
    }
  }
}
