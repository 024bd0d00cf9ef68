/**
  Decoding of Modbus replies (src/iface-modbus.c): the in-place byte reordering of
  32-bit and 64-bit reads, the packing of eight input bits into a byte, and the
  dispatch on the bit offset. The host is little-endian, so the union that the source
  reads registers into holds register 0 in its least significant sixteen bits.
*/
module Modbus {
  import opened KnotTypes

  const BIG_ENDIAN := 1
  const MID_BIG_ENDIAN := 2
  const LITTLE_ENDIAN := 3
  const MID_LITTLE_ENDIAN := 4

  /** A 16-bit register: the more significant byte and the less significant one. */
  datatype Register = Register(high: bv8, low: bv8)

  // ---------- Specification: the number that a sequence of registers denotes ----------

  /** The bytes of the registers in the order they travel (section 4.2 of the MODBUS
      Application Protocol Specification V1.1b3: most significant byte first). */
  function WireBytes(regs: seq<Register>): seq<bv8> {
    if regs == [] then [] else [regs[0].high, regs[0].low] + WireBytes(regs[1..])
  }

  /** The same bytes with the two bytes of each register exchanged. */
  function SwappedBytes(regs: seq<Register>): seq<bv8> {
    if regs == [] then [] else [regs[0].low, regs[0].high] + SwappedBytes(regs[1..])
  }

  function Reverse<T>(s: seq<T>): seq<T> {
    if s == [] then [] else Reverse(s[1..]) + [s[0]]
  }

  /** The wire bytes listed from most to least significant, as each type declares it.
      An undeclared type is read like MID_LITTLE_ENDIAN. */
  function DeclaredOrder(endianness: int, regs: seq<Register>): seq<bv8> {
    if endianness == BIG_ENDIAN then WireBytes(regs)
    else if endianness == MID_BIG_ENDIAN then SwappedBytes(regs)
    else if endianness == LITTLE_ENDIAN then Reverse(WireBytes(regs))
    else WireBytes(Reverse(regs))
  }

  function Val(b: bv8): nat {
    b as nat
  }

  // What a word of each width is worth.

  function Worth8(x: bv8): Word64 {
    x as nat
  }

  function Worth16(x: bv16): Word64 {
    x as nat
  }

  function Worth32(x: bv32): Word64 {
    x as nat
  }

  function Worth64(x: bv64): Word64 {
    x as nat
  }

  function Number(bytes: seq<bv8>): nat {
    if bytes == [] then 0
    else Number(bytes[..|bytes| - 1]) * 256 + Val(bytes[|bytes| - 1])
  }

  function WireNumber(endianness: int, regs: seq<Register>): nat {
    Number(DeclaredOrder(endianness, regs))
  }

  // ---------- Words in the union ----------

  function Word16(a: bv8, b: bv8): bv16 {
    (a as bv16 << 8) | b as bv16
  }

  function Word32(a: bv8, b: bv8, c: bv8, d: bv8): bv32 {
    (a as bv32 << 24) | (b as bv32 << 16) | (c as bv32 << 8) | d as bv32
  }

  function Word64Of(a: bv8, b: bv8, c: bv8, d: bv8, e: bv8, f: bv8, g: bv8, h: bv8): bv64 {
    (a as bv64 << 56) | (b as bv64 << 48) | (c as bv64 << 40) | (d as bv64 << 32) |
    (e as bv64 << 24) | (f as bv64 << 16) | (g as bv64 << 8) | h as bv64
  }

  /** What the union holds after libmodbus stored two registers; likewise for four. */
  function Union32(regs: seq<Register>): bv32
    requires |regs| == 2
  {
    Word32(regs[1].high, regs[1].low, regs[0].high, regs[0].low)
  }

  function Union64(regs: seq<Register>): bv64
    requires |regs| == 4
  {
    Word64Of(regs[3].high, regs[3].low, regs[2].high, regs[2].low,
             regs[1].high, regs[1].low, regs[0].high, regs[0].low)
  }

  // ---------- The reorderings ----------

  function SwapHalves32(x: bv32): bv32 {
    ((x & 0xffff0000) >> 16) | ((x & 0x0000ffff) << 16)
  }

  function ReverseBytes32(x: bv32): bv32 {
    ((x & 0xff000000) >> 24) | ((x & 0x00ff0000) >> 8) |
    ((x & 0x0000ff00) << 8) | ((x & 0x000000ff) << 24)
  }

  function SwapBytes32(x: bv32): bv32 {
    ((x & 0xff000000) >> 8) | ((x & 0x00ff0000) << 8) |
    ((x & 0x0000ff00) >> 8) | ((x & 0x000000ff) << 8)
  }

  function Reordered32(x: bv32, endianness: int): bv32 {
    if endianness == BIG_ENDIAN then SwapHalves32(x)
    else if endianness == MID_BIG_ENDIAN then ReverseBytes32(x)
    else if endianness == LITTLE_ENDIAN then SwapBytes32(x)
    else x
  }

  function SwapBytes64(x: bv64): bv64 {
    ((x & 0xff00000000000000) >> 8) | ((x & 0x00ff000000000000) << 8) |
    ((x & 0x0000ff0000000000) >> 8) | ((x & 0x000000ff00000000) << 8) |
    ((x & 0x00000000ff000000) >> 8) | ((x & 0x0000000000ff0000) << 8) |
    ((x & 0x000000000000ff00) >> 8) | ((x & 0x00000000000000ff) << 8)
  }

  function ReverseWords64(x: bv64): bv64 {
    ((x & 0xffff000000000000) >> 48) | ((x & 0x0000ffff00000000) >> 16) |
    ((x & 0x00000000ffff0000) << 16) | ((x & 0x000000000000ffff) << 48)
  }

  function Reordered64(x: bv64, endianness: int): bv64 {
    var y := if endianness == MID_BIG_ENDIAN || endianness == LITTLE_ENDIAN then SwapBytes64(x) else x;
    if endianness == MID_BIG_ENDIAN || endianness == BIG_ENDIAN then ReverseWords64(y) else y
  }

  /** A variable that a callee rewrites through a pointer. */
  class Cell<T> {
    var value: T

    constructor (v: T)
      ensures value == v
    {
      value := v;
    }
  }

  method Reorder32(src: Cell<bv32>, endianness: int)
    modifies src
    ensures src.value == Reordered32(old(src.value), endianness)
  {
    if endianness == BIG_ENDIAN {
      src.value := SwapHalves32(src.value);
    } else if endianness == MID_BIG_ENDIAN {
      src.value := ReverseBytes32(src.value);
    } else if endianness == LITTLE_ENDIAN {
      src.value := SwapBytes32(src.value);
    }
  }

  method Reorder64(src: Cell<bv64>, endianness: int)
    modifies src
    ensures src.value == Reordered64(old(src.value), endianness)
  {
    if endianness == MID_BIG_ENDIAN || endianness == LITTLE_ENDIAN {
      src.value := SwapBytes64(src.value);
    }
    if endianness == MID_BIG_ENDIAN || endianness == BIG_ENDIAN {
      src.value := ReverseWords64(src.value);
    }
  }

  // ---------- What a reordering does to the registers, for any number of them ----------

  function Swapped(r: Register): Register {
    Register(r.low, r.high)
  }

  function SwapEach(regs: seq<Register>): seq<Register> {
    if regs == [] then [] else [Swapped(regs[0])] + SwapEach(regs[1..])
  }

  function Rearranged(endianness: int, regs: seq<Register>): seq<Register> {
    if endianness == BIG_ENDIAN then Reverse(regs)
    else if endianness == MID_BIG_ENDIAN then Reverse(SwapEach(regs))
    else if endianness == LITTLE_ENDIAN then SwapEach(regs)
    else regs
  }

  lemma {:induction false} ReverseConcat<T>(a: seq<T>, b: seq<T>)
    ensures Reverse(a + b) == Reverse(b) + Reverse(a)
  {
    if a == [] {
      assert a + b == b;
    } else {
      assert (a + b)[1..] == a[1..] + b;
      ReverseConcat(a[1..], b);
    }
  }

  lemma {:induction false} ReverseTwice<T>(s: seq<T>)
    ensures Reverse(Reverse(s)) == s
  {
    if s != [] {
      ReverseConcat(Reverse(s[1..]), [s[0]]);
      ReverseTwice(s[1..]);
    }
  }

  lemma {:induction false} SwapEachConcat(a: seq<Register>, b: seq<Register>)
    ensures SwapEach(a + b) == SwapEach(a) + SwapEach(b)
  {
    if a == [] {
      assert a + b == b;
    } else {
      assert (a + b)[1..] == a[1..] + b;
      SwapEachConcat(a[1..], b);
    }
  }

  lemma {:induction false} WireBytesConcat(a: seq<Register>, b: seq<Register>)
    ensures WireBytes(a + b) == WireBytes(a) + WireBytes(b)
  {
    if a == [] {
      assert a + b == b;
    } else {
      assert (a + b)[1..] == a[1..] + b;
      WireBytesConcat(a[1..], b);
    }
  }

  lemma {:induction false} SwapEachTwice(regs: seq<Register>)
    ensures SwapEach(SwapEach(regs)) == regs
    ensures WireBytes(SwapEach(regs)) == SwappedBytes(regs)
  {
    if regs != [] {
      SwapEachTwice(regs[1..]);
    }
  }

  lemma {:induction false} SwapEachReverse(regs: seq<Register>)
    ensures SwapEach(Reverse(regs)) == Reverse(SwapEach(regs))
  {
    if regs != [] {
      SwapEachReverse(regs[1..]);
      SwapEachConcat(Reverse(regs[1..]), [regs[0]]);
    }
  }

  lemma {:induction false} ReverseWireBytes(regs: seq<Register>)
    ensures Reverse(WireBytes(regs)) == WireBytes(Reverse(SwapEach(regs)))
  {
    if regs != [] {
      var h, l := regs[0].high, regs[0].low;
      ReverseConcat([h, l], WireBytes(regs[1..]));
      ReverseTwo(h, l);
      ReverseWireBytes(regs[1..]);
      WireBytesConcat(Reverse(SwapEach(regs[1..])), [Swapped(regs[0])]);
    }
  }

  /** For any number of registers: reading them in the declared order is reading the
      rearranged registers last register first. */
  lemma DeclaredOrderIsRearrangement(endianness: int, regs: seq<Register>)
    ensures DeclaredOrder(endianness, regs) == WireBytes(Reverse(Rearranged(endianness, regs)))
  {
    ReverseTwice(regs);
    SwapEachTwice(regs);
    ReverseTwice(SwapEach(regs));
    ReverseWireBytes(regs);
  }

  /** The group law of the four types, for any number of registers. */
  lemma RearrangementLaws(regs: seq<Register>)
    ensures forall e :: Rearranged(e, Rearranged(e, regs)) == regs
    ensures Rearranged(BIG_ENDIAN, Rearranged(LITTLE_ENDIAN, regs)) == Rearranged(MID_BIG_ENDIAN, regs)
    ensures Rearranged(LITTLE_ENDIAN, Rearranged(BIG_ENDIAN, regs)) == Rearranged(MID_BIG_ENDIAN, regs)
    ensures Rearranged(MID_LITTLE_ENDIAN, regs) == regs
  {
    ReverseTwice(regs);
    SwapEachTwice(regs);
    SwapEachReverse(regs);
    SwapEachReverse(SwapEach(regs));
  }

  lemma ReverseTwo<T>(a: T, b: T)
    ensures Reverse([a, b]) == [b, a]
  {
    assert [a, b][1..] == [b] && [b][1..] == [];
    assert Reverse([b]) == [b];
  }

  lemma ReverseFour<T>(a: T, b: T, c: T, d: T)
    ensures Reverse([a, b, c, d]) == [d, c, b, a]
  {
    ReverseTwo(a, b);
    ReverseTwo(c, d);
    ReverseConcat([a, b], [c, d]);
    assert [a, b] + [c, d] == [a, b, c, d];
  }

  lemma SwapEachTwo(q: Register, r: Register)
    ensures SwapEach([q, r]) == [Swapped(q), Swapped(r)]
  {
    assert [q, r][1..] == [r] && [r][1..] == [];
    assert SwapEach([r]) == [Swapped(r)];
  }

  lemma SwapEachFour(q: Register, r: Register, s: Register, t: Register)
    ensures SwapEach([q, r, s, t]) == [Swapped(q), Swapped(r), Swapped(s), Swapped(t)]
  {
    SwapEachTwo(q, r);
    SwapEachTwo(s, t);
    SwapEachConcat([q, r], [s, t]);
    assert [q, r] + [s, t] == [q, r, s, t];
  }

  // ---------- The word operations act on the registers as declared ----------

  lemma SwapHalves32Acts(a: bv8, b: bv8, c: bv8, d: bv8)
    ensures SwapHalves32(Word32(a, b, c, d)) == Word32(c, d, a, b)
  {
  }

  lemma ReverseBytes32Acts(a: bv8, b: bv8, c: bv8, d: bv8)
    ensures ReverseBytes32(Word32(a, b, c, d)) == Word32(d, c, b, a)
  {
  }

  lemma SwapBytes32Acts(a: bv8, b: bv8, c: bv8, d: bv8)
    ensures SwapBytes32(Word32(a, b, c, d)) == Word32(b, a, d, c)
  {
  }

  lemma SwapBytes64Acts(a: bv8, b: bv8, c: bv8, d: bv8, e: bv8, f: bv8, g: bv8, h: bv8)
    ensures SwapBytes64(Word64Of(a, b, c, d, e, f, g, h)) == Word64Of(b, a, d, c, f, e, h, g)
  {
  }

  lemma ReverseWords64Acts(a: bv8, b: bv8, c: bv8, d: bv8, e: bv8, f: bv8, g: bv8, h: bv8)
    ensures ReverseWords64(Word64Of(a, b, c, d, e, f, g, h)) == Word64Of(g, h, e, f, c, d, a, b)
  {
  }

  /** Reordering the word is rearranging the registers it was read from (n = 2). */
  lemma Reordered32Acts(q: Register, r: Register, endianness: int)
    ensures var regs := Rearranged(endianness, [q, r]);
            |regs| == 2 && Reordered32(Union32([q, r]), endianness) == Union32(regs)
  {
    hide Word32, SwapHalves32, ReverseBytes32, SwapBytes32;
    ReverseTwo(q, r);
    SwapEachTwo(q, r);
    ReverseTwo(Swapped(q), Swapped(r));
    SwapHalves32Acts(r.high, r.low, q.high, q.low);
    ReverseBytes32Acts(r.high, r.low, q.high, q.low);
    SwapBytes32Acts(r.high, r.low, q.high, q.low);
  }

  /** Reordering the word is rearranging the registers it was read from (n = 4). */
  lemma Reordered64Acts(q: Register, r: Register, s: Register, t: Register, endianness: int)
    ensures var regs := Rearranged(endianness, [q, r, s, t]);
            |regs| == 4 && Reordered64(Union64([q, r, s, t]), endianness) == Union64(regs)
  {
    hide Word64Of, SwapBytes64, ReverseWords64;
    SwapEachFour(q, r, s, t);
    if endianness == BIG_ENDIAN {
      ReverseFour(q, r, s, t);
      ReverseWords64Acts(t.high, t.low, s.high, s.low, r.high, r.low, q.high, q.low);
    } else if endianness == MID_BIG_ENDIAN {
      ReverseFour(Swapped(q), Swapped(r), Swapped(s), Swapped(t));
      SwapBytes64Acts(t.high, t.low, s.high, s.low, r.high, r.low, q.high, q.low);
      ReverseWords64Acts(t.low, t.high, s.low, s.high, r.low, r.high, q.low, q.high);
    } else {
      SwapBytes64Acts(t.high, t.low, s.high, s.low, r.high, r.low, q.high, q.low);
    }
  }

  // ---------- A stored word is the number read last register first ----------
  // The bit-vector facts below avoid defined functions, so that the solver decides them
  // by rewriting alone.

  lemma FourBytes(a: bv8, b: bv8, c: bv8, d: bv8)
    ensures ((a as bv32 << 24) | (b as bv32 << 16) | (c as bv32 << 8) | d as bv32) as nat ==
            a as nat * 0x1000000 + b as nat * 0x10000 + c as nat * 0x100 + d as nat
  {
  }

  lemma TwoBytes(x: bv16, a: bv8, b: bv8)
    requires x == (a as bv16 << 8) | b as bv16
    ensures x as nat == a as nat * 256 + b as nat
  {
  }

  lemma TwoHalves(high: bv32, low: bv32)
    ensures ((high as bv64 << 32) | low as bv64) as nat == high as nat * 0x1_0000_0000 + low as nat
  {
  }

  lemma EightBytes(a: bv8, b: bv8, c: bv8, d: bv8, e: bv8, f: bv8, g: bv8, h: bv8)
    ensures Word64Of(a, b, c, d, e, f, g, h) ==
            (((a as bv32 << 24) | (b as bv32 << 16) | (c as bv32 << 8) | d as bv32) as bv64 << 32) |
            ((e as bv32 << 24) | (f as bv32 << 16) | (g as bv32 << 8) | h as bv32) as bv64
  {
  }

  lemma Word16Value(a: bv8, b: bv8)
    ensures Worth16(Word16(a, b)) == Val(a) * 256 + Val(b)
  {
    TwoBytes(Word16(a, b), a, b);
  }

  lemma Word32Value(a: bv8, b: bv8, c: bv8, d: bv8)
    ensures Worth32(Word32(a, b, c, d)) == ((Val(a) * 256 + Val(b)) * 256 + Val(c)) * 256 + Val(d)
  {
    FourBytes(a, b, c, d);
  }

  lemma Word64Value(a: bv8, b: bv8, c: bv8, d: bv8, e: bv8, f: bv8, g: bv8, h: bv8)
    ensures Worth64(Word64Of(a, b, c, d, e, f, g, h)) ==
            Worth32(Word32(a, b, c, d)) * 0x1_0000_0000 + Worth32(Word32(e, f, g, h))
  {
    EightBytes(a, b, c, d, e, f, g, h);
    var high := (a as bv32 << 24) | (b as bv32 << 16) | (c as bv32 << 8) | d as bv32;
    var low := (e as bv32 << 24) | (f as bv32 << 16) | (g as bv32 << 8) | h as bv32;
    TwoHalves(high, low);
  }

  lemma NumberStep(front: seq<bv8>, b: bv8)
    ensures Number(front + [b]) == Number(front) * 256 + Val(b)
  {
    hide Val;
    assert (front + [b])[..|front|] == front;
  }

  lemma EmptyNumber()
    ensures Number([]) == 0
  {
  }

  lemma NumberOfFour(front: seq<bv8>, a: bv8, b: bv8, c: bv8, d: bv8)
    ensures Number(front + [a, b, c, d]) ==
            (((Number(front) * 256 + Val(a)) * 256 + Val(b)) * 256 + Val(c)) * 256 + Val(d)
  {
    hide Number, Val;
    NumberStep(front, a);
    NumberStep(front + [a], b);
    NumberStep(front + [a] + [b], c);
    NumberStep(front + [a] + [b] + [c], d);
    assert front + [a] + [b] + [c] + [d] == front + [a, b, c, d];
  }

  lemma WireBytesOfTwo(q: Register, r: Register)
    ensures WireBytes([q, r]) == [q.high, q.low, r.high, r.low]
  {
    assert [q, r][1..] == [r] && [r][1..] == [];
    assert WireBytes([r]) == [r.high, r.low];
  }

  lemma Union32IsNumber(q: Register, r: Register)
    ensures Worth32(Union32([q, r])) == Number(WireBytes(Reverse([q, r])))
  {
    hide Word32, Val, Worth32;
    ReverseTwo(q, r);
    WireBytesOfTwo(r, q);
    NumberOfFour([], r.high, r.low, q.high, q.low);
    assert [] + [r.high, r.low, q.high, q.low] == [r.high, r.low, q.high, q.low];
    Word32Value(r.high, r.low, q.high, q.low);
  }

  lemma Union64IsNumber(q: Register, r: Register, s: Register, t: Register)
    ensures Worth64(Union64([q, r, s, t])) == Number(WireBytes(Reverse([q, r, s, t])))
  {
    hide Word32, Word64Of, Worth32, Worth64, Val, Number, WireBytes, Reverse;
    EmptyNumber();
    ReverseFour(q, r, s, t);
    WireBytesConcat([t, s], [r, q]);
    assert [t, s] + [r, q] == [t, s, r, q];
    WireBytesOfTwo(t, s);
    WireBytesOfTwo(r, q);
    NumberOfFour([], t.high, t.low, s.high, s.low);
    assert [] + [t.high, t.low, s.high, s.low] == [t.high, t.low, s.high, s.low];
    NumberOfFour([t.high, t.low, s.high, s.low], r.high, r.low, q.high, q.low);
    Word32Value(t.high, t.low, s.high, s.low);
    Word32Value(r.high, r.low, q.high, q.low);
    Word64Value(t.high, t.low, s.high, s.low, r.high, r.low, q.high, q.low);
  }

  // ---------- Main results on the reorderings ----------

  /** For every pair of registers and every type, the 32-bit code returns the number read
      in the declared order: the specification at n = 2. */
  lemma Reordered32IsWireNumber(regs: seq<Register>, endianness: int)
    requires |regs| == 2
    ensures Worth32(Reordered32(Union32(regs), endianness)) == WireNumber(endianness, regs)
  {
    hide Reordered32, Union32, Worth32;
    var q, r := regs[0], regs[1];
    assert regs == [q, r];
    Reordered32Acts(q, r, endianness);
    var moved := Rearranged(endianness, [q, r]);
    Union32IsNumber(moved[0], moved[1]);
    assert moved == [moved[0], moved[1]];
    DeclaredOrderIsRearrangement(endianness, [q, r]);
  }

  /** For every four registers and every type, the two-pass 64-bit code returns the number
      read in the declared order: the same specification at n = 4. */
  lemma Reordered64IsWireNumber(regs: seq<Register>, endianness: int)
    requires |regs| == 4
    ensures Worth64(Reordered64(Union64(regs), endianness)) == WireNumber(endianness, regs)
  {
    hide Reordered64, Union64, Worth64;
    var q, r, s, t := regs[0], regs[1], regs[2], regs[3];
    assert regs == [q, r, s, t];
    Reordered64Acts(q, r, s, t, endianness);
    var moved := Rearranged(endianness, [q, r, s, t]);
    Union64IsNumber(moved[0], moved[1], moved[2], moved[3]);
    assert moved == [moved[0], moved[1], moved[2], moved[3]];
    DeclaredOrderIsRearrangement(endianness, [q, r, s, t]);
  }

  lemma Split32(x: bv32) returns (q: Register, r: Register)
    ensures x == Union32([q, r])
  {
    q := Register(((x >> 8) & 0xff) as bv8, (x & 0xff) as bv8);
    r := Register(((x >> 24) & 0xff) as bv8, ((x >> 16) & 0xff) as bv8);
  }

  lemma Split64(x: bv64) returns (q: Register, r: Register, s: Register, t: Register)
    ensures x == Union64([q, r, s, t])
  {
    q := Register(((x >> 8) & 0xff) as bv8, (x & 0xff) as bv8);
    r := Register(((x >> 24) & 0xff) as bv8, ((x >> 16) & 0xff) as bv8);
    s := Register(((x >> 40) & 0xff) as bv8, ((x >> 32) & 0xff) as bv8);
    t := Register(((x >> 56) & 0xff) as bv8, ((x >> 48) & 0xff) as bv8);
  }

  lemma Reordered32Twice(q: Register, r: Register, first: int, second: int)
    ensures var regs := Rearranged(second, Rearranged(first, [q, r]));
            |regs| == 2 && Reordered32(Reordered32(Union32([q, r]), first), second) == Union32(regs)
  {
    hide Reordered32, Union32, Worth32;
    Reordered32Acts(q, r, first);
    var mid := Rearranged(first, [q, r]);
    assert mid == [mid[0], mid[1]];
    Reordered32Acts(mid[0], mid[1], second);
  }

  lemma Reordered64Twice(q: Register, r: Register, s: Register, t: Register, first: int, second: int)
    ensures var regs := Rearranged(second, Rearranged(first, [q, r, s, t]));
            |regs| == 4 &&
            Reordered64(Reordered64(Union64([q, r, s, t]), first), second) == Union64(regs)
  {
    hide Reordered64, Union64, Worth64;
    Reordered64Acts(q, r, s, t, first);
    var mid := Rearranged(first, [q, r, s, t]);
    assert mid == [mid[0], mid[1], mid[2], mid[3]];
    Reordered64Acts(mid[0], mid[1], mid[2], mid[3], second);
  }

  /** On every 32-bit word, each reordering undoes itself, and the direct permutations
      obey the composition law that the 64-bit code uses as its definition. */
  lemma Reorder32Laws(x: bv32, endianness: int)
    ensures Reordered32(Reordered32(x, endianness), endianness) == x
    ensures Reordered32(Reordered32(x, LITTLE_ENDIAN), BIG_ENDIAN) == Reordered32(x, MID_BIG_ENDIAN)
    ensures Reordered32(Reordered32(x, BIG_ENDIAN), LITTLE_ENDIAN) == Reordered32(x, MID_BIG_ENDIAN)
    ensures Reordered32(x, MID_LITTLE_ENDIAN) == x
  {
    var q, r := Split32(x);
    RearrangementLaws([q, r]);
    Reordered32Twice(q, r, endianness, endianness);
    Reordered32Twice(q, r, LITTLE_ENDIAN, BIG_ENDIAN);
    Reordered32Twice(q, r, BIG_ENDIAN, LITTLE_ENDIAN);
    Reordered32Acts(q, r, MID_BIG_ENDIAN);
  }

  /** The same laws on every 64-bit word. */
  lemma Reorder64Laws(x: bv64, endianness: int)
    ensures Reordered64(Reordered64(x, endianness), endianness) == x
    ensures Reordered64(Reordered64(x, LITTLE_ENDIAN), BIG_ENDIAN) == Reordered64(x, MID_BIG_ENDIAN)
    ensures Reordered64(Reordered64(x, BIG_ENDIAN), LITTLE_ENDIAN) == Reordered64(x, MID_BIG_ENDIAN)
    ensures Reordered64(x, MID_LITTLE_ENDIAN) == x
  {
    var q, r, s, t := Split64(x);
    RearrangementLaws([q, r, s, t]);
    Reordered64Twice(q, r, s, t, endianness, endianness);
    Reordered64Twice(q, r, s, t, LITTLE_ENDIAN, BIG_ENDIAN);
    Reordered64Twice(q, r, s, t, BIG_ENDIAN, LITTLE_ENDIAN);
    Reordered64Acts(q, r, s, t, MID_BIG_ENDIAN);
  }

  // ---------- Reading a data item ----------

  type BitImage = s: seq<bool> | |s| == 8 witness [false, false, false, false, false, false, false, false]

  type RegisterImage = s: seq<Register> | |s| == 4
    witness [Register(0, 0), Register(0, 0), Register(0, 0), Register(0, 0)]

  /** The answer of the slave: a failed request, or the input bits and the registers found
      from the requested address on, of which a request takes as many as it needs. */
  datatype Reply = Failed(errno: nat) | Slave(bits: BitImage, regs: RegisterImage)

  function Bit(b: bool): bv8 {
    if b then 1 else 0
  }

  /** The byte built by or-ing bit i, shifted left by i, for the first n bits. */
  function Packed(bits: BitImage, n: nat): bv8
    requires n <= 8
  {
    if n == 0 then 0 else Packed(bits, n - 1) | (Bit(bits[n - 1]) << (n - 1))
  }

  predicate Supported(bitOffset: int) {
    bitOffset in {1, 8, 16, 32, 64}
  }

  /** The value a read stores, or None when the read fails and stores nothing. */
  function Decoded(bitOffset: int, reply: Reply, endianness: int): Option<Word64> {
    if reply.Failed? then None
    else if bitOffset == 1 then Some(if reply.bits[0] then 1 else 0)
    else if bitOffset == 8 then Some(Worth8(Packed(reply.bits, 8)))
    else if bitOffset == 16 then Some(Worth16(Word16(reply.regs[0].high, reply.regs[0].low)))
    else if bitOffset == 32 then Some(Worth32(Reordered32(Union32(reply.regs[..2]), endianness)))
    else if bitOffset == 64 then Some(Worth64(Reordered64(Union64(reply.regs), endianness)))
    else None
  }

  method PackByte(bits: BitImage) returns (valByte: bv8)
    ensures valByte == Packed(bits, 8)
  {
    valByte := 0;
    for i := 0 to 8
      invariant valByte == Packed(bits, i)
    {
      valByte := valByte | (Bit(bits[i]) << i);
    }
  }

  /** lastErrno is the error number of the process before the call; a failed request sets it. It is
      what the call returns, negated, whenever it stores nothing, also for a bit offset that is not
      supported. */
  method ReadData(bitOffset: int, reply: Reply, out: Cell<Word64>, endianness: int, lastErrno: nat) returns (rc: int)
    modifies out
    ensures match Decoded(bitOffset, reply, endianness)
            case Some(v) => rc > 0 && out.value == v
            case None => rc == -(if reply.Failed? && Supported(bitOffset) then reply.errno else lastErrno) &&
                         out.value == old(out.value)
  {
    hide Word16, Union32, Union64, Reordered32, Reordered64, Worth8, Worth16, Worth32, Worth64, Packed;
    var tmp: Word64 := 0;
    var errno: int := lastErrno;
    rc := -EINVAL;
    match reply {
      case Failed(e) =>
        if Supported(bitOffset) {
          errno := e;
        }
        rc := -1;
      case Slave(bits, regs) =>
        if bitOffset == 1 {
          tmp, rc := if bits[0] then 1 else 0, 1;
        } else if bitOffset == 8 {
          var valByte := PackByte(bits);
          tmp, rc := Worth8(valByte), 8;
        } else if bitOffset == 16 {
          tmp, rc := Worth16(Word16(regs[0].high, regs[0].low)), 1;
        } else if bitOffset == 32 {
          var word := new Cell(Union32(regs[..2]));
          Reorder32(word, endianness);
          tmp, rc := Worth32(word.value), 2;
        } else if bitOffset == 64 {
          var word := new Cell(Union64(regs));
          Reorder64(word, endianness);
          tmp, rc := Worth64(word.value), 4;
        }
    }
    if rc < 0 {
      rc := -errno;
    } else {
      out.value := tmp;
    }
  }

  /** Bit j of the packed byte is the j-th input bit, for every j. */
  lemma PackedBits(bits: BitImage, j: nat)
    requires j < 8
    ensures (Packed(bits, 8) >> j) & 1 == Bit(bits[j])
  {
    var b0, b1, b2, b3, b4, b5, b6, b7 :=
      Bit(bits[0]), Bit(bits[1]), Bit(bits[2]), Bit(bits[3]), Bit(bits[4]), Bit(bits[5]), Bit(bits[6]), Bit(bits[7]);
    assert Packed(bits, 1) == 0 | (b0 << 0);
    assert Packed(bits, 2) == Packed(bits, 1) | (b1 << 1);
    assert Packed(bits, 4) == Packed(bits, 2) | (b2 << 2) | (b3 << 3);
    assert Packed(bits, 6) == Packed(bits, 4) | (b4 << 4) | (b5 << 5);
    assert Packed(bits, 8) == Packed(bits, 6) | (b6 << 6) | (b7 << 7);
  }

  // What a successful read of bits stores.

  function Digit(b: bool): nat {
    if b then 1 else 0
  }

  /** A one-bit read stores 1 for a set input bit and 0 for a clear one, so a BOOL item reads as
      the bit. */
  lemma DecodedBit(bits: BitImage, regs: RegisterImage, endianness: int)
    ensures Decoded(1, Slave(bits, regs), endianness) == Some(Digit(bits[0]))
    ensures Reading(BOOL, Digit(bits[0])) == Some(BoolValue(bits[0]))
  {
  }

  /** Digit j of a number in base 2. */
  function BinaryDigit(v: nat, j: nat): nat {
    if j == 0 then v % 2 else BinaryDigit(v / 2, j - 1)
  }

  /** The number whose binary digits are the given bits, least significant first. */
  function FromBits(bits: seq<bool>): nat {
    if bits == [] then 0 else Digit(bits[0]) + 2 * FromBits(bits[1..])
  }

  lemma {:induction false} DigitOfBits(bits: seq<bool>, j: nat)
    requires j < |bits|
    ensures BinaryDigit(FromBits(bits), j) == Digit(bits[j])
  {
    assert FromBits(bits) / 2 == FromBits(bits[1..]) && FromBits(bits) % 2 == Digit(bits[0]);
    if j > 0 {
      DigitOfBits(bits[1..], j - 1);
    }
  }

  lemma EightBits(bits: BitImage)
    ensures FromBits(bits) ==
            Digit(bits[0]) + 2 * Digit(bits[1]) + 4 * Digit(bits[2]) + 8 * Digit(bits[3]) +
            16 * Digit(bits[4]) + 32 * Digit(bits[5]) + 64 * Digit(bits[6]) + 128 * Digit(bits[7])
  {
    hide Digit;
    assert FromBits(bits[8..]) == 0;
    assert FromBits(bits[7..]) == Digit(bits[7]) + 2 * FromBits(bits[8..]) by { assert bits[7..][1..] == bits[8..]; }
    assert FromBits(bits[6..]) == Digit(bits[6]) + 2 * FromBits(bits[7..]) by { assert bits[6..][1..] == bits[7..]; }
    assert FromBits(bits[5..]) == Digit(bits[5]) + 2 * FromBits(bits[6..]) by { assert bits[5..][1..] == bits[6..]; }
    assert FromBits(bits[4..]) == Digit(bits[4]) + 2 * FromBits(bits[5..]) by { assert bits[4..][1..] == bits[5..]; }
    assert FromBits(bits[3..]) == Digit(bits[3]) + 2 * FromBits(bits[4..]) by { assert bits[3..][1..] == bits[4..]; }
    assert FromBits(bits[2..]) == Digit(bits[2]) + 2 * FromBits(bits[3..]) by { assert bits[2..][1..] == bits[3..]; }
    assert FromBits(bits[1..]) == Digit(bits[1]) + 2 * FromBits(bits[2..]) by { assert bits[1..][1..] == bits[2..]; }
  }

  /** The byte is worth the sum of its bits. */
  lemma PackedWorth(bits: BitImage)
    ensures Worth8(Packed(bits, 8)) ==
            Digit(bits[0]) + 2 * Digit(bits[1]) + 4 * Digit(bits[2]) + 8 * Digit(bits[3]) +
            16 * Digit(bits[4]) + 32 * Digit(bits[5]) + 64 * Digit(bits[6]) + 128 * Digit(bits[7])
  {
    var b0, b1, b2, b3, b4, b5, b6, b7 :=
      Bit(bits[0]), Bit(bits[1]), Bit(bits[2]), Bit(bits[3]), Bit(bits[4]), Bit(bits[5]), Bit(bits[6]), Bit(bits[7]);
    assert Packed(bits, 1) == 0 | (b0 << 0);
    assert Packed(bits, 2) == Packed(bits, 1) | (b1 << 1);
    assert Packed(bits, 4) == Packed(bits, 2) | (b2 << 2) | (b3 << 3);
    assert Packed(bits, 6) == Packed(bits, 4) | (b4 << 4) | (b5 << 5);
    assert Packed(bits, 8) == Packed(bits, 6) | (b6 << 6) | (b7 << 7);
  }

  /** An eight-bit read stores a byte whose binary digit j is input bit j. */
  lemma DecodedByte(bits: BitImage, regs: RegisterImage, endianness: int, j: nat)
    requires j < 8
    ensures Decoded(8, Slave(bits, regs), endianness).Some?
    ensures var v := Decoded(8, Slave(bits, regs), endianness).value;
            v < 256 && BinaryDigit(v, j) == Digit(bits[j])
  {
    hide Packed, Worth8, BinaryDigit, FromBits;
    PackedWorth(bits);
    EightBits(bits);
    DigitOfBits(bits, j);
  }

  lemma Word16IsNumber(r: Register)
    ensures Worth16(Word16(r.high, r.low)) == Number(WireBytes([r]))
  {
    hide Word16, Worth16, Val, Number;
    assert WireBytes([r]) == [r.high, r.low];
    EmptyNumber();
    NumberStep([], r.high);
    NumberStep([r.high], r.low);
    assert [] + [r.high] == [r.high] && [r.high] + [r.low] == [r.high, r.low];
    Word16Value(r.high, r.low);
  }

  lemma DecodedSlave(bits: BitImage, regs: RegisterImage, endianness: int)
    ensures Decoded(16, Slave(bits, regs), endianness) == Some(Worth16(Word16(regs[0].high, regs[0].low)))
    ensures Decoded(32, Slave(bits, regs), endianness) == Some(Worth32(Reordered32(Union32(regs[..2]), endianness)))
    ensures Decoded(64, Slave(bits, regs), endianness) == Some(Worth64(Reordered64(Union64(regs), endianness)))
  {
    hide Worth16, Worth32, Worth64, Word16, Reordered32, Reordered64, Union32, Union64;
  }

  /** What a successful register read means, for 16, 32 and 64 bits: the number on the wire
      in the declared order, except that a 16-bit read is big-endian whatever the type. */
  lemma DecodedIsWireNumber(bits: BitImage, regs: RegisterImage, endianness: int)
    ensures Decoded(16, Slave(bits, regs), endianness) == Some(WireNumber(BIG_ENDIAN, regs[..1]))
    ensures Decoded(32, Slave(bits, regs), endianness) == Some(WireNumber(endianness, regs[..2]))
    ensures Decoded(64, Slave(bits, regs), endianness) == Some(WireNumber(endianness, regs))
  {
    hide Decoded, Worth16, Worth32, Worth64, Word16, Reordered32, Reordered64, Union32, Union64, Number;
    DecodedSlave(bits, regs, endianness);
    assert regs[..1] == [regs[0]];
    Word16IsNumber(regs[0]);
    Reordered32IsWireNumber(regs[..2], endianness);
    Reordered64IsWireNumber(regs, endianness);
  }

  /** So a 16-bit read honours a byte-swapping type exactly when the two bytes are equal. */
  lemma SixteenBitsIgnoreEndianness(bits: BitImage, regs: RegisterImage, endianness: int)
    requires endianness == LITTLE_ENDIAN || endianness == MID_BIG_ENDIAN
    ensures Decoded(16, Slave(bits, regs), endianness) == Some(WireNumber(endianness, regs[..1])) <==>
            regs[0].high == regs[0].low
  {
    hide Decoded, Number, Val, WireBytes, SwappedBytes, Reverse;
    var r := regs[0];
    DecodedIsWireNumber(bits, regs, endianness);
    assert regs[..1] == [r];
    OneRegister(r);
    NumberOfTwo(r.high, r.low);
    NumberOfTwo(r.low, r.high);
    if Val(r.high) == Val(r.low) {
      SameByte(r.high, r.low);
    }
  }

  lemma OneRegister(r: Register)
    ensures WireBytes([r]) == [r.high, r.low]
    ensures SwappedBytes([r]) == [r.low, r.high]
    ensures Reverse([r.high, r.low]) == [r.low, r.high]
  {
    assert [r][1..] == [];
    ReverseTwo(r.high, r.low);
  }

  lemma NumberOfTwo(a: bv8, b: bv8)
    ensures Number([a, b]) == Val(a) * 256 + Val(b)
  {
    hide Number, Val;
    EmptyNumber();
    NumberStep([], a);
    NumberStep([a], b);
    assert [] + [a] == [a] && [a] + [b] == [a, b];
  }

  lemma SameByte(a: bv8, b: bv8)
    requires Val(a) == Val(b)
    ensures a == b
  {
  }
}
