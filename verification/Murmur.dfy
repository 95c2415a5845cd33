/** MurmurHash3_x64_128, the hash of the file table, on a little-endian machine with 32-bit lengths.

    The operations on 64-bit words have names of their own, so that the proofs about whole steps treat
    words as opaque values and use only that each operation can be undone. */
module Murmur {
  // ----- word operations -----

  function Xor(x: bv64, y: bv64): bv64 { x ^ y }

  function Plus(x: bv64, y: bv64): bv64 { x + y }

  function Minus(x: bv64, y: bv64): bv64 { x - y }

  function Rotl27(x: bv64): bv64 { (x << 27) | (x >> 37) }

  function Rotl31(x: bv64): bv64 { (x << 31) | (x >> 33) }

  function Rotl33(x: bv64): bv64 { (x << 33) | (x >> 31) }

  function Rotl37(x: bv64): bv64 { (x << 37) | (x >> 27) }

  function TimesC1(x: bv64): bv64 { x * 0x87c3_7b91_1142_53d5 }

  function TimesC2(x: bv64): bv64 { x * 0x4cf5_ad43_2745_937f }

  function OverC1(x: bv64): bv64 { x * 0xa984_09e8_82ce_4d7d }

  function OverC2(x: bv64): bv64 { x * 0xa81e_14ed_d9de_2c7f }

  function XorShift(x: bv64): bv64 { x ^ (x >> 33) }

  function TimesF1(x: bv64): bv64 { x * 0xff51_afd7_ed55_8ccd }

  function TimesF2(x: bv64): bv64 { x * 0xc4ce_b9fe_1a85_ec53 }

  function OverF1(x: bv64): bv64 { x * 0x4f74_430c_22a5_4005 }

  function OverF2(x: bv64): bv64 { x * 0x9cb4_b2f8_1293_37db }

  function Affine1(x: bv64): bv64 { x * 5 + 0x52dc_e729 }

  function Affine2(x: bv64): bv64 { x * 5 + 0x3849_5ab5 }

  function Unaffine1(x: bv64): bv64 { (x - 0x52dc_e729) * 0xcccc_cccc_cccc_cccd }

  function Unaffine2(x: bv64): bv64 { (x - 0x3849_5ab5) * 0xcccc_cccc_cccc_cccd }

  // Each operation is undone by its partner.  The first lemma of a pair states it of the bare operation.

  lemma Rotate31UndoneRaw(x: bv64)
    ensures Rotl33((x << 31) | (x >> 33)) == x
    ensures Rotl31((x << 33) | (x >> 31)) == x
  {
  }

  lemma Rotate31Undone(x: bv64)
    ensures Rotl33(Rotl31(x)) == x
    ensures Rotl31(Rotl33(x)) == x
  {
    Rotate31UndoneRaw(x);
  }

  lemma Rotate27UndoneRaw(x: bv64)
    ensures Rotl37((x << 27) | (x >> 37)) == x
    ensures Rotl27((x << 37) | (x >> 27)) == x
  {
  }

  lemma Rotate27Undone(x: bv64)
    ensures Rotl37(Rotl27(x)) == x
    ensures Rotl27(Rotl37(x)) == x
  {
    Rotate27UndoneRaw(x);
  }

  lemma C1UndoneRaw(x: bv64)
    ensures OverC1(x * 0x87c3_7b91_1142_53d5) == x
    ensures TimesC1(x * 0xa984_09e8_82ce_4d7d) == x
  {
  }

  lemma C1Undone(x: bv64)
    ensures OverC1(TimesC1(x)) == x
    ensures TimesC1(OverC1(x)) == x
  {
    C1UndoneRaw(x);
  }

  lemma C2UndoneRaw(x: bv64)
    ensures OverC2(x * 0x4cf5_ad43_2745_937f) == x
    ensures TimesC2(x * 0xa81e_14ed_d9de_2c7f) == x
  {
  }

  lemma C2Undone(x: bv64)
    ensures OverC2(TimesC2(x)) == x
    ensures TimesC2(OverC2(x)) == x
  {
    C2UndoneRaw(x);
  }

  lemma F1UndoneRaw(x: bv64)
    ensures OverF1(x * 0xff51_afd7_ed55_8ccd) == x
    ensures TimesF1(x * 0x4f74_430c_22a5_4005) == x
  {
  }

  lemma F1Undone(x: bv64)
    ensures OverF1(TimesF1(x)) == x
    ensures TimesF1(OverF1(x)) == x
  {
    F1UndoneRaw(x);
  }

  lemma F2UndoneRaw(x: bv64)
    ensures OverF2(x * 0xc4ce_b9fe_1a85_ec53) == x
    ensures TimesF2(x * 0x9cb4_b2f8_1293_37db) == x
  {
  }

  lemma F2Undone(x: bv64)
    ensures OverF2(TimesF2(x)) == x
    ensures TimesF2(OverF2(x)) == x
  {
    F2UndoneRaw(x);
  }

  lemma Affine1UndoneRaw(x: bv64)
    ensures Unaffine1(x * 5 + 0x52dc_e729) == x
    ensures Affine1((x - 0x52dc_e729) * 0xcccc_cccc_cccc_cccd) == x
  {
  }

  lemma Affine1Undone(x: bv64)
    ensures Unaffine1(Affine1(x)) == x
    ensures Affine1(Unaffine1(x)) == x
  {
    Affine1UndoneRaw(x);
  }

  lemma Affine2UndoneRaw(x: bv64)
    ensures Unaffine2(x * 5 + 0x3849_5ab5) == x
    ensures Affine2((x - 0x3849_5ab5) * 0xcccc_cccc_cccc_cccd) == x
  {
  }

  lemma Affine2Undone(x: bv64)
    ensures Unaffine2(Affine2(x)) == x
    ensures Affine2(Unaffine2(x)) == x
  {
    Affine2UndoneRaw(x);
  }

  lemma ShiftUndoneRaw(x: bv64)
    ensures XorShift(x ^ (x >> 33)) == x
  {
  }

  lemma ShiftUndone(x: bv64)
    ensures XorShift(XorShift(x)) == x
  {
    ShiftUndoneRaw(x);
  }

  lemma XorUndoneRaw(x: bv64, y: bv64)
    ensures Xor(x ^ y, y) == x
    ensures Xor(y, x ^ y) == x
  {
  }

  lemma XorUndone(x: bv64, y: bv64)
    ensures Xor(Xor(x, y), y) == x && Xor(y, Xor(x, y)) == x
  {
    XorUndoneRaw(x, y);
  }

  lemma PlusUndoneRaw(x: bv64, y: bv64)
    ensures Minus(x + y, y) == x
    ensures Plus(x - y, y) == x
  {
  }

  lemma PlusUndone(x: bv64, y: bv64)
    ensures Minus(Plus(x, y), y) == x && Plus(Minus(x, y), y) == x
  {
    PlusUndoneRaw(x, y);
  }

  // ----- the hash -----

  /** Two 64-bit words: the state (h1, h2), or one 16-byte block (k1, k2). */
  datatype Words = Words(lo: bv64, hi: bv64)

  function Mix1(k: bv64): bv64 { TimesC2(Rotl31(TimesC1(k))) }

  function Mix2(k: bv64): bv64 { TimesC1(Rotl33(TimesC2(k))) }

  function Fmix(k: bv64): bv64 { XorShift(TimesF2(XorShift(TimesF1(XorShift(k))))) }

  /** One round of the body. */
  function BlockStep(h: Words, k: Words): Words {
    var h1 := Affine1(Plus(Rotl27(Xor(h.lo, Mix1(k.lo))), h.hi));
    var h2 := Affine2(Plus(Rotl31(Xor(h.hi, Mix2(k.hi))), h1));
    Words(h1, h2)
  }

  function TailStep(h: Words, k: Words): Words {
    Words(Xor(h.lo, Mix1(k.lo)), Xor(h.hi, Mix2(k.hi)))
  }

  /** h1 += h2, then h2 += h1. */
  function AddAcross(h: Words): Words {
    var h1 := Plus(h.lo, h.hi);
    Words(h1, Plus(h.hi, h1))
  }

  function Finish(h: Words, len: bv64): Words {
    var h := AddAcross(Words(Xor(h.lo, len), Xor(h.hi, len)));
    AddAcross(Words(Fmix(h.lo), Fmix(h.hi)))
  }

  /** A byte of the key, as a word; a byte past the end is zero. */
  function ByteAt(key: seq<bv8>, i: nat): bv64 {
    if i < |key| then key[i] as bv64 else 0
  }

  function Word8(a: bv64, b: bv64, c: bv64, d: bv64, e: bv64, f: bv64, g: bv64, h: bv64): bv64 {
    a ^ (b << 8) ^ (c << 16) ^ (d << 24) ^ (e << 32) ^ (f << 40) ^ (g << 48) ^ (h << 56)
  }

  /** The little-endian word at an offset. */
  function WordAt(key: seq<bv8>, off: nat): bv64 {
    Word8(ByteAt(key, off), ByteAt(key, off + 1), ByteAt(key, off + 2), ByteAt(key, off + 3),
          ByteAt(key, off + 4), ByteAt(key, off + 5), ByteAt(key, off + 6), ByteAt(key, off + 7))
  }

  /** The 16 bytes of unit `i`.  Unit |key| / 16 is the tail of a key, padded with zeros. */
  function Unit(key: seq<bv8>, i: nat): Words {
    Words(WordAt(key, 16 * i), WordAt(key, 16 * i + 8))
  }

  /** The state after the first `n` blocks. */
  function Body(key: seq<bv8>, seed: bv32, n: nat): Words {
    if n == 0 then Words(seed as bv64, seed as bv64) else BlockStep(Body(key, seed, n - 1), Unit(key, n - 1))
  }

  /** The length of a key, as a word. */
  function LengthWord(n: nat): bv64
    requires n < 0x8000_0000
  {
    n as bv64
  }

  function Hash(key: seq<bv8>, seed: bv32): Words
    requires |key| < 0x8000_0000
  {
    var n := |key| / 16;
    Finish(TailStep(Body(key, seed, n), Unit(key, n)), LengthWord(|key|))
  }

  // ----- the computation -----

  /** The words that the switch over `len & 15` collects from the tail. */
  method TailWords(tail: seq<bv8>) returns (k1: bv64, k2: bv64)
    requires |tail| < 16
    ensures k1 == WordAt(tail, 0) && k2 == WordAt(tail, 8)
  {
    k1, k2 := 0, 0;
    if |tail| >= 15 { k2 := k2 ^ ((tail[14] as bv64) << 48); }
    if |tail| >= 14 { k2 := k2 ^ ((tail[13] as bv64) << 40); }
    if |tail| >= 13 { k2 := k2 ^ ((tail[12] as bv64) << 32); }
    if |tail| >= 12 { k2 := k2 ^ ((tail[11] as bv64) << 24); }
    if |tail| >= 11 { k2 := k2 ^ ((tail[10] as bv64) << 16); }
    if |tail| >= 10 { k2 := k2 ^ ((tail[9] as bv64) << 8); }
    if |tail| >= 9 { k2 := k2 ^ (tail[8] as bv64); }
    if |tail| >= 8 { k1 := k1 ^ ((tail[7] as bv64) << 56); }
    if |tail| >= 7 { k1 := k1 ^ ((tail[6] as bv64) << 48); }
    if |tail| >= 6 { k1 := k1 ^ ((tail[5] as bv64) << 40); }
    if |tail| >= 5 { k1 := k1 ^ ((tail[4] as bv64) << 32); }
    if |tail| >= 4 { k1 := k1 ^ ((tail[3] as bv64) << 24); }
    if |tail| >= 3 { k1 := k1 ^ ((tail[2] as bv64) << 16); }
    if |tail| >= 2 { k1 := k1 ^ ((tail[1] as bv64) << 8); }
    if |tail| >= 1 { k1 := k1 ^ (tail[0] as bv64); }
  }

  /** A word of zeros mixes to zero, so a short tail leaves h2, or both halves, alone. */
  lemma MixOfNothing(key: seq<bv8>, off: nat)
    ensures Mix1(0) == 0 && Mix2(0) == 0
    ensures off >= |key| ==> WordAt(key, off) == 0
  {
  }

  lemma XorZero(x: bv64)
    ensures Xor(x, 0) == x
  {
  }

  lemma ByteAfter(pre: seq<bv8>, key: seq<bv8>, i: nat)
    ensures ByteAt(pre + key, |pre| + i) == ByteAt(key, i)
  {
  }

  lemma WordAfter(pre: seq<bv8>, key: seq<bv8>, off: nat)
    ensures WordAt(pre + key, |pre| + off) == WordAt(key, off)
  {
    hide ByteAt, Word8;
    ByteAfter(pre, key, off);
    ByteAfter(pre, key, off + 1);
    ByteAfter(pre, key, off + 2);
    ByteAfter(pre, key, off + 3);
    ByteAfter(pre, key, off + 4);
    ByteAfter(pre, key, off + 5);
    ByteAfter(pre, key, off + 6);
    ByteAfter(pre, key, off + 7);
  }

  lemma UnitAfter(pre: seq<bv8>, rest: seq<bv8>, key: seq<bv8>, n: nat, i: nat)
    requires key == pre + rest && |pre| == 16 * n
    ensures Unit(key, n + i) == Unit(rest, i)
  {
    hide WordAt;
    WordAfter(pre, rest, 16 * i);
    WordAfter(pre, rest, 16 * i + 8);
  }

  lemma TailIsLastUnit(key: seq<bv8>, n: nat)
    requires n == |key| / 16
    ensures Unit(key[16 * n..], 0) == Unit(key, n)
  {
    hide Unit;
    UnitAfter(key[..16 * n], key[16 * n..], key, n, 0);
  }

  method MurmurHash3X64128(key: seq<bv8>, seed: bv32) returns (h1: bv64, h2: bv64)
    requires |key| < 0x8000_0000
    ensures Words(h1, h2) == Hash(key, seed)
  {
    hide Xor, Plus, Rotl27, Rotl31, Rotl33, TimesC1, TimesC2, Affine1, Affine2, Fmix, WordAt;
    var nblocks := |key| / 16;
    h1, h2 := seed as bv64, seed as bv64;
    for i := 0 to nblocks
      invariant Words(h1, h2) == Body(key, seed, i)
    {
      var k1, k2 := WordAt(key, 16 * i), WordAt(key, 16 * i + 8);
      k1 := TimesC1(k1);
      k1 := Rotl31(k1);
      k1 := TimesC2(k1);
      h1 := Xor(h1, k1);
      h1 := Rotl27(h1);
      h1 := Plus(h1, h2);
      h1 := Affine1(h1);
      k2 := TimesC2(k2);
      k2 := Rotl33(k2);
      k2 := TimesC1(k2);
      h2 := Xor(h2, k2);
      h2 := Rotl31(h2);
      h2 := Plus(h2, h1);
      h2 := Affine2(h2);
    }
    var tail := key[16 * nblocks..];
    TailIsLastUnit(key, nblocks);
    var k1, k2 := TailWords(tail);
    MixOfNothing(tail, 0);
    MixOfNothing(tail, 8);
    XorZero(h1);
    XorZero(h2);
    if |tail| >= 9 {
      k2 := TimesC2(k2);
      k2 := Rotl33(k2);
      k2 := TimesC1(k2);
      h2 := Xor(h2, k2);
    }
    if |tail| >= 1 {
      k1 := TimesC1(k1);
      k1 := Rotl31(k1);
      k1 := TimesC2(k1);
      h1 := Xor(h1, k1);
    }
    var len := LengthWord(|key|);
    h1, h2 := Xor(h1, len), Xor(h2, len);
    h1 := Plus(h1, h2);
    h2 := Plus(h2, h1);
    h1 := Fmix(h1);
    h2 := Fmix(h2);
    h1 := Plus(h1, h2);
    h2 := Plus(h2, h1);
  }

  // ----- every step can be undone -----

  function Unmix1(m: bv64): bv64 { OverC1(Rotl33(OverC2(m))) }

  function Unmix2(m: bv64): bv64 { OverC2(Rotl31(OverC1(m))) }

  lemma MixUndone(x: bv64)
    ensures Unmix1(Mix1(x)) == x && Mix1(Unmix1(x)) == x
    ensures Unmix2(Mix2(x)) == x && Mix2(Unmix2(x)) == x
  {
    hide TimesC1, TimesC2, OverC1, OverC2, Rotl31, Rotl33;
    C1Undone(x);
    C2Undone(x);
    Rotate31Undone(TimesC1(x));
    Rotate31Undone(TimesC2(x));
    Rotate31Undone(OverC1(x));
    Rotate31Undone(OverC2(x));
    C2Undone(Rotl31(TimesC1(x)));
    C1Undone(Rotl33(TimesC2(x)));
    C1Undone(Rotl33(OverC2(x)));
    C2Undone(Rotl31(OverC1(x)));
  }

  function Unfmix(k: bv64): bv64 { XorShift(OverF1(XorShift(OverF2(XorShift(k))))) }

  lemma FmixUndone(x: bv64)
    ensures Unfmix(Fmix(x)) == x && Fmix(Unfmix(x)) == x
  {
    hide XorShift, TimesF1, TimesF2, OverF1, OverF2;
    var a, b := XorShift(x), OverF2(XorShift(x));
    ShiftUndone(x);
    F1Undone(a);
    F2Undone(a);
    ShiftUndone(TimesF1(a));
    F2Undone(XorShift(TimesF1(a)));
    ShiftUndone(TimesF2(XorShift(TimesF1(a))));
    ShiftUndone(b);
    F1Undone(XorShift(b));
    ShiftUndone(OverF1(XorShift(b)));
  }

  /** The state before a block, from the state after it. */
  function StateBefore(h: Words, k: Words): Words {
    var hi := Xor(Rotl33(Minus(Unaffine2(h.hi), h.lo)), Mix2(k.hi));
    Words(Xor(Rotl37(Minus(Unaffine1(h.lo), hi)), Mix1(k.lo)), hi)
  }

  /** The block that leads from one state to another. */
  function BlockBetween(h: Words, h': Words): Words {
    Words(Unmix1(Xor(Rotl37(Minus(Unaffine1(h'.lo), h.hi)), h.lo)),
          Unmix2(Xor(Rotl33(Minus(Unaffine2(h'.hi), h'.lo)), h.hi)))
  }

  lemma XorSwaps(x: bv64, y: bv64)
    ensures Xor(x, y) == Xor(y, x)
  {
  }

  /** For a fixed block, a round is a bijection of the state; for a fixed state, it is a bijection of the block. */
  lemma BlockStepUndone(h: Words, k: Words)
    ensures StateBefore(BlockStep(h, k), k) == h && BlockBetween(h, BlockStep(h, k)) == k
  {
    hide Xor, Plus, Minus, Rotl27, Rotl31, Rotl33, Rotl37, Mix1, Mix2, Unmix1, Unmix2, Affine1, Affine2, Unaffine1,
      Unaffine2;
    var m1, m2 := Mix1(k.lo), Mix2(k.hi);
    MixUndone(k.lo);
    MixUndone(k.hi);
    var x1, x2 := Xor(h.lo, m1), Xor(h.hi, m2);
    var s1 := Plus(Rotl27(x1), h.hi);
    var s2 := Plus(Rotl31(x2), Affine1(s1));
    XorUndone(h.lo, m1);
    XorUndone(h.hi, m2);
    XorUndone(m1, h.lo);
    XorUndone(m2, h.hi);
    XorSwaps(h.lo, m1);
    XorSwaps(h.hi, m2);
    Rotate27Undone(x1);
    Rotate31Undone(x2);
    PlusUndone(Rotl27(x1), h.hi);
    PlusUndone(Rotl31(x2), Affine1(s1));
    Affine1Undone(s1);
    Affine2Undone(s2);
  }

  lemma BlockBetweenLeadsThere(h: Words, h': Words)
    ensures BlockStep(h, BlockBetween(h, h')) == h'
  {
    hide Xor, Plus, Minus, Rotl27, Rotl31, Rotl33, Rotl37, Mix1, Mix2, Unmix1, Unmix2, Affine1, Affine2, Unaffine1,
      Unaffine2;
    var s1, s2 := Unaffine1(h'.lo), Unaffine2(h'.hi);
    var r1, r2 := Minus(s1, h.hi), Minus(s2, h'.lo);
    MixUndone(Xor(Rotl37(r1), h.lo));
    MixUndone(Xor(Rotl33(r2), h.hi));
    XorUndone(Rotl37(r1), h.lo);
    XorUndone(Rotl33(r2), h.hi);
    Rotate27Undone(r1);
    Rotate31Undone(r2);
    PlusUndone(s1, h.hi);
    PlusUndone(s2, h'.lo);
    Affine1Undone(h'.lo);
    Affine2Undone(h'.hi);
  }

  lemma AddAcrossUndone(h: Words)
    ensures var a := AddAcross(h); var hi := Minus(a.hi, a.lo); Words(Minus(a.lo, hi), hi) == h
  {
    hide Plus, Minus;
    PlusUndone(h.hi, Plus(h.lo, h.hi));
    PlusUndone(h.lo, h.hi);
  }

  lemma AddAcrossInjective(h: Words, g: Words)
    requires AddAcross(h) == AddAcross(g)
    ensures h == g
  {
    AddAcrossUndone(h);
    AddAcrossUndone(g);
    hide AddAcross, Minus;
  }

  lemma FmixInjective(x: bv64, y: bv64)
    requires Fmix(x) == Fmix(y)
    ensures x == y
  {
    FmixUndone(x);
    FmixUndone(y);
    hide Fmix, Unfmix;
  }

  lemma XorInjective(x: bv64, y: bv64, m: bv64)
    ensures Xor(x, m) == Xor(y, m) ==> x == y
    ensures Xor(m, x) == Xor(m, y) ==> x == y
  {
    XorUndone(x, m);
    XorUndone(y, m);
    XorSwaps(x, m);
    XorSwaps(y, m);
    hide Xor;
  }

  lemma FinishInjective(h: Words, g: Words, len: bv64)
    requires Finish(h, len) == Finish(g, len)
    ensures h == g
  {
    hide Fmix, AddAcross, Xor;
    var a, b := AddAcross(Words(Xor(h.lo, len), Xor(h.hi, len))), AddAcross(Words(Xor(g.lo, len), Xor(g.hi, len)));
    AddAcrossInjective(Words(Fmix(a.lo), Fmix(a.hi)), Words(Fmix(b.lo), Fmix(b.hi)));
    FmixInjective(a.lo, b.lo);
    FmixInjective(a.hi, b.hi);
    AddAcrossInjective(Words(Xor(h.lo, len), Xor(h.hi, len)), Words(Xor(g.lo, len), Xor(g.hi, len)));
    XorInjective(h.lo, g.lo, len);
    XorInjective(h.hi, g.hi, len);
  }

  lemma TailStepInjective(h: Words, g: Words, k: Words, j: Words)
    requires TailStep(h, k) == TailStep(g, j)
    ensures k == j ==> h == g
    ensures h == g ==> k == j
  {
    hide Mix1, Mix2, Unmix1, Unmix2, Xor;
    XorInjective(h.lo, g.lo, Mix1(k.lo));
    XorInjective(h.hi, g.hi, Mix2(k.hi));
    XorInjective(Mix1(k.lo), Mix1(j.lo), h.lo);
    XorInjective(Mix2(k.hi), Mix2(j.hi), h.hi);
    MixUndone(k.lo);
    MixUndone(k.hi);
    MixUndone(j.lo);
    MixUndone(j.hi);
  }

  lemma BlockStepInjective(h: Words, g: Words, k: Words, j: Words)
    requires BlockStep(h, k) == BlockStep(g, j)
    ensures k == j ==> h == g
    ensures h == g ==> k == j
  {
    BlockStepUndone(h, k);
    BlockStepUndone(g, j);
    hide BlockStep, StateBefore, BlockBetween;
  }

  // ----- keys -----

  lemma WordTellsBytes(a: bv64, b: bv64, c: bv64, d: bv64, e: bv64, f: bv64, g: bv64, h: bv64)
    requires a < 256 && b < 256 && c < 256 && d < 256 && e < 256 && f < 256 && g < 256 && h < 256
    ensures var w := Word8(a, b, c, d, e, f, g, h);
      a == w & 0xff && b == (w >> 8) & 0xff && c == (w >> 16) & 0xff && d == (w >> 24) & 0xff
      && e == (w >> 32) & 0xff && f == (w >> 40) & 0xff && g == (w >> 48) & 0xff && h == (w >> 56) & 0xff
  {
  }

  lemma ByteFits(key: seq<bv8>, i: nat)
    ensures ByteAt(key, i) < 256
  {
  }

  lemma BytesFit(key: seq<bv8>, off: nat)
    ensures ByteAt(key, off) < 256 && ByteAt(key, off + 1) < 256 && ByteAt(key, off + 2) < 256
    ensures ByteAt(key, off + 3) < 256
    ensures ByteAt(key, off + 4) < 256 && ByteAt(key, off + 5) < 256 && ByteAt(key, off + 6) < 256
    ensures ByteAt(key, off + 7) < 256
  {
    hide ByteAt;
    ByteFits(key, off);
    ByteFits(key, off + 1);
    ByteFits(key, off + 2);
    ByteFits(key, off + 3);
    ByteFits(key, off + 4);
    ByteFits(key, off + 5);
    ByteFits(key, off + 6);
    ByteFits(key, off + 7);
  }

  lemma SameBytesSameWord(a: seq<bv8>, b: seq<bv8>, off: nat)
    requires forall i: nat :: off <= i < off + 8 ==> ByteAt(a, i) == ByteAt(b, i)
    ensures WordAt(a, off) == WordAt(b, off)
  {
    hide ByteAt, Word8;
  }

  lemma SameByte(x: bv8, y: bv8)
    requires x as bv64 == y as bv64
    ensures x == y
  {
  }

  lemma SameByteAt(a: seq<bv8>, b: seq<bv8>, i: nat)
    requires i < |a| == |b| && ByteAt(a, i) == ByteAt(b, i)
    ensures a[i] == b[i]
  {
    SameByte(a[i], b[i]);
  }

  /** A word determines the bytes it was read from. */
  lemma WordAtTellsBytes(a: seq<bv8>, b: seq<bv8>, off: nat, i: nat)
    requires WordAt(a, off) == WordAt(b, off) && i < 8
    ensures ByteAt(a, off + i) == ByteAt(b, off + i)
  {
    BytesFit(a, off);
    BytesFit(b, off);
    hide ByteAt, Word8;
    WordTellsBytes(ByteAt(a, off), ByteAt(a, off + 1), ByteAt(a, off + 2), ByteAt(a, off + 3),
                   ByteAt(a, off + 4), ByteAt(a, off + 5), ByteAt(a, off + 6), ByteAt(a, off + 7));
    WordTellsBytes(ByteAt(b, off), ByteAt(b, off + 1), ByteAt(b, off + 2), ByteAt(b, off + 3),
                   ByteAt(b, off + 4), ByteAt(b, off + 5), ByteAt(b, off + 6), ByteAt(b, off + 7));
  }

  /** Keys of one length whose bytes agree except perhaps in the 16 bytes of unit `i`. */
  ghost predicate AgreeOutside(a: seq<bv8>, b: seq<bv8>, i: nat) {
    |a| == |b| && forall j :: 0 <= j < |a| && !(16 * i <= j < 16 * i + 16) ==> a[j] == b[j]
  }

  lemma OtherUnitsAgree(a: seq<bv8>, b: seq<bv8>, i: nat, k: nat)
    requires AgreeOutside(a, b, i) && k != i
    ensures Unit(a, k) == Unit(b, k)
  {
    assert forall j: nat :: 16 * k <= j < 16 * k + 16 ==> ByteAt(a, j) == ByteAt(b, j);
    hide ByteAt, WordAt;
    SameBytesSameWord(a, b, 16 * k);
    SameBytesSameWord(a, b, 16 * k + 8);
  }

  lemma ChangedUnitDiffers(a: seq<bv8>, b: seq<bv8>, i: nat)
    requires AgreeOutside(a, b, i) && Unit(a, i) == Unit(b, i)
    ensures a == b
  {
    forall j | 0 <= j < |a|
      ensures a[j] == b[j]
    {
      if 16 * i <= j < 16 * i + 16 {
        var k := j - 16 * i;
        WordAtTellsBytes(a, b, if k < 8 then 16 * i else 16 * i + 8, k % 8);
        SameByteAt(a, b, j);
      }
    }
  }

  /** Blocks that agree carry a difference between two states along, and keep equal states equal. */
  lemma {:induction false} BodyCarries(a: seq<bv8>, b: seq<bv8>, s: bv32, t: bv32, m: nat, n: nat)
    requires m <= n && forall k :: m <= k < n ==> Unit(a, k) == Unit(b, k)
    ensures Body(a, s, n) == Body(b, t, n) <==> Body(a, s, m) == Body(b, t, m)
    decreases n - m
  {
    hide BlockStep, Unit;
    if m < n {
      BodyCarries(a, b, s, t, m, n - 1);
      if Body(a, s, n) == Body(b, t, n) {
        BlockStepInjective(Body(a, s, n - 1), Body(b, t, n - 1), Unit(a, n - 1), Unit(b, n - 1));
      }
    }
  }

  lemma HashTellsLastState(a: seq<bv8>, b: seq<bv8>, s: bv32, t: bv32)
    requires |a| == |b| < 0x8000_0000 && Hash(a, s) == Hash(b, t)
    ensures var n := |a| / 16; TailStep(Body(a, s, n), Unit(a, n)) == TailStep(Body(b, t, n), Unit(b, n))
  {
    hide Finish, TailStep, Body, Unit;
    var n := |a| / 16;
    FinishInjective(TailStep(Body(a, s, n), Unit(a, n)), TailStep(Body(b, t, n), Unit(b, n)), LengthWord(|a|));
  }

  /** Only one unit differs: the last states agree only if that unit is the same after all. */
  lemma LastStateTellsUnit(a: seq<bv8>, b: seq<bv8>, i: nat, n: nat, seed: bv32)
    requires i <= n && forall k: nat :: k != i ==> Unit(a, k) == Unit(b, k)
    requires TailStep(Body(a, seed, n), Unit(a, n)) == TailStep(Body(b, seed, n), Unit(b, n))
    ensures Unit(a, i) == Unit(b, i)
  {
    hide Unit, BlockStep, TailStep;
    TailStepInjective(Body(a, seed, n), Body(b, seed, n), Unit(a, n), Unit(b, n));
    BodyCarries(a, b, seed, seed, 0, i);
    if i < n {
      BodyCarries(a, b, seed, seed, i + 1, n);
      BlockStepInjective(Body(a, seed, i), Body(b, seed, i), Unit(a, i), Unit(b, i));
    }
  }

  /** Changing bytes inside one 16-byte block, or inside the tail, always changes the hash. */
  lemma OneUnitChangesTheHash(a: seq<bv8>, b: seq<bv8>, i: nat, seed: bv32)
    requires |a| < 0x8000_0000 && AgreeOutside(a, b, i) && a != b
    ensures Hash(a, seed) != Hash(b, seed)
  {
    forall k: nat | k != i
      ensures Unit(a, k) == Unit(b, k)
    {
      OtherUnitsAgree(a, b, i, k);
    }
    var n := |a| / 16;
    assert i <= n;
    hide Unit, Body, TailStep;
    if Hash(a, seed) == Hash(b, seed) {
      HashTellsLastState(a, b, seed, seed);
      hide Hash;
      LastStateTellsUnit(a, b, i, n, seed);
      ChangedUnitDiffers(a, b, i);
    }
  }

  lemma SeedFits(s: bv32, t: bv32)
    requires s as bv64 == t as bv64
    ensures s == t
  {
  }

  /** Two seeds never give one key the same hash. */
  lemma SeedChangesTheHash(key: seq<bv8>, s: bv32, t: bv32)
    requires |key| < 0x8000_0000 && s != t
    ensures Hash(key, s) != Hash(key, t)
  {
    if Hash(key, s) == Hash(key, t) {
      var n := |key| / 16;
      HashTellsLastState(key, key, s, t);
      TailStepInjective(Body(key, s, n), Body(key, t, n), Unit(key, n), Unit(key, n));
      hide Unit, BlockStep;
      BodyCarries(key, key, s, t, 0, n);
      SeedFits(s, t);
    }
  }

  // ----- the length -----

  lemma FinishTellsLength(h: Words, len: bv64, len': bv64)
    requires Finish(h, len) == Finish(h, len')
    ensures len == len'
  {
    hide Fmix, AddAcross, Xor;
    var w, w' := Words(Xor(h.lo, len), Xor(h.hi, len)), Words(Xor(h.lo, len'), Xor(h.hi, len'));
    var a, b := AddAcross(w), AddAcross(w');
    AddAcrossInjective(Words(Fmix(a.lo), Fmix(a.hi)), Words(Fmix(b.lo), Fmix(b.hi)));
    FmixInjective(a.lo, b.lo);
    FmixInjective(a.hi, b.hi);
    AddAcrossInjective(w, w');
    XorInjective(len, len', h.lo);
  }

  function Value(w: bv64): nat { w as nat }

  lemma LengthUndone(n: nat)
    requires n < 0x8000_0000
    ensures Value(LengthWord(n)) == n % 0x1_0000_0000_0000_0000
  {
  }

  lemma LengthFits(m: nat, n: nat)
    requires m < 0x8000_0000 && n < 0x8000_0000 && LengthWord(m) == LengthWord(n)
    ensures m == n
  {
    hide Value, LengthWord;
    LengthUndone(m);
    LengthUndone(n);
  }

  /** A key, and the same key with zero bytes appended. */
  ghost predicate Padded(a: seq<bv8>, b: seq<bv8>) {
    |a| <= |b| && forall j :: 0 <= j < |b| ==> b[j] == if j < |a| then a[j] else 0
  }

  lemma PaddedUnits(a: seq<bv8>, b: seq<bv8>, k: nat)
    requires Padded(a, b)
    ensures Unit(a, k) == Unit(b, k)
  {
    assert forall j: nat :: ByteAt(a, j) == ByteAt(b, j);
    hide ByteAt, WordAt;
    SameBytesSameWord(a, b, 16 * k);
    SameBytesSameWord(a, b, 16 * k + 8);
  }

  /** Zero bytes that are appended inside the tail change no unit, but the length enters the hash. */
  lemma LengthChangesTheHash(a: seq<bv8>, b: seq<bv8>, seed: bv32)
    requires |a| < |b| < 0x8000_0000 && |a| / 16 == |b| / 16 && Padded(a, b)
    ensures Hash(a, seed) != Hash(b, seed)
  {
    hide Unit, BlockStep, TailStep, Finish, LengthWord;
    var n := |a| / 16;
    forall k: nat
      ensures Unit(a, k) == Unit(b, k)
    {
      PaddedUnits(a, b, k);
    }
    BodyCarries(a, b, seed, seed, 0, n);
    hide Body;
    if Hash(a, seed) == Hash(b, seed) {
      FinishTellsLength(TailStep(Body(a, seed, n), Unit(a, n)), LengthWord(|a|), LengthWord(|b|));
      LengthFits(|a|, |b|);
    }
  }

  // ----- one value -----

  function Sample(): (r: seq<bv8>)
    ensures |r| == 31
  {
    [1, 2, 3, 4, 5, 6, 7, 8] + [9, 10, 11, 12, 13, 14, 15, 16]
    + ([17, 18, 19, 20, 21, 22, 23, 24] + [25, 26, 27, 28, 29, 30, 31])
  }

  lemma SampleBytes0()
    ensures ByteAt(Sample(), 0) == 1 && ByteAt(Sample(), 1) == 2
    ensures ByteAt(Sample(), 2) == 3 && ByteAt(Sample(), 3) == 4
    ensures ByteAt(Sample(), 4) == 5 && ByteAt(Sample(), 5) == 6
    ensures ByteAt(Sample(), 6) == 7 && ByteAt(Sample(), 7) == 8
  {
  }

  lemma SampleBytes8()
    ensures ByteAt(Sample(), 8) == 9 && ByteAt(Sample(), 9) == 10
    ensures ByteAt(Sample(), 10) == 11 && ByteAt(Sample(), 11) == 12
    ensures ByteAt(Sample(), 12) == 13 && ByteAt(Sample(), 13) == 14
    ensures ByteAt(Sample(), 14) == 15 && ByteAt(Sample(), 15) == 16
  {
  }

  lemma SampleBytes16()
    ensures ByteAt(Sample(), 16) == 17 && ByteAt(Sample(), 17) == 18
    ensures ByteAt(Sample(), 18) == 19 && ByteAt(Sample(), 19) == 20
    ensures ByteAt(Sample(), 20) == 21 && ByteAt(Sample(), 21) == 22
    ensures ByteAt(Sample(), 22) == 23 && ByteAt(Sample(), 23) == 24
  {
  }

  lemma SampleBytes24()
    ensures ByteAt(Sample(), 24) == 25 && ByteAt(Sample(), 25) == 26
    ensures ByteAt(Sample(), 26) == 27 && ByteAt(Sample(), 27) == 28
    ensures ByteAt(Sample(), 28) == 29 && ByteAt(Sample(), 29) == 30
    ensures ByteAt(Sample(), 30) == 31 && ByteAt(Sample(), 31) == 0
  {
  }

  lemma SampleWords()
    ensures WordAt(Sample(), 0) == 0x807_0605_0403_0201 && WordAt(Sample(), 8) == 0x100f_0e0d_0c0b_0a09
    ensures WordAt(Sample(), 16) == 0x1817_1615_1413_1211 && WordAt(Sample(), 24) == 0x1f_1e1d_1c1b_1a19
  {
    hide ByteAt;
    SampleBytes0();
    SampleBytes8();
    SampleBytes16();
    SampleBytes24();
  }

  lemma SampleBlock()
    ensures BlockStep(Words(0x9747_b28c, 0x9747_b28c), Words(0x807_0605_0403_0201, 0x100f_0e0d_0c0b_0a09))
         == Words(0x2e_91bd_13fa_132e, 0xdb9d_6c92_e345_e433)
  {
  }

  lemma SampleTail()
    ensures TailStep(Words(0x2e_91bd_13fa_132e, 0xdb9d_6c92_e345_e433),
                     Words(0x1817_1615_1413_1211, 0x1f_1e1d_1c1b_1a19))
         == Words(0x5ea6_d5a0_2725_b835, 0x5bda_641b_6a5b_8355)
  {
  }

  lemma SampleFinish()
    ensures Finish(Words(0x5ea6_d5a0_2725_b835, 0x5bda_641b_6a5b_8355), 31)
         == Words(0xdc92_4d56_65bc_aa72, 0x62a6_ee7a_45da_db35)
  {
  }

  /** A key with one block and a full tail: every constant, rotation and shift takes part. */
  lemma SampleHash()
    ensures Hash(Sample(), 0x9747_b28c) == Words(0xdc92_4d56_65bc_aa72, 0x62a6_ee7a_45da_db35)
  {
    hide WordAt, BlockStep, TailStep, Finish;
    SampleWords();
    SampleBlock();
    SampleTail();
    SampleFinish();
    assert Body(Sample(), 0x9747_b28c, 0) == Words(0x9747_b28c, 0x9747_b28c);
  }

  // ----- one unit is the limit -----

  function Bytes(w: bv64): (r: seq<bv8>)
    ensures |r| == 8
  {
    [(w & 0xff) as bv8, ((w >> 8) & 0xff) as bv8, ((w >> 16) & 0xff) as bv8, ((w >> 24) & 0xff) as bv8,
     ((w >> 32) & 0xff) as bv8, ((w >> 40) & 0xff) as bv8, ((w >> 48) & 0xff) as bv8, ((w >> 56) & 0xff) as bv8]
  }

  lemma BytesMakeWord(w: bv64)
    ensures Word8(w & 0xff, (w >> 8) & 0xff, (w >> 16) & 0xff, (w >> 24) & 0xff,
                  (w >> 32) & 0xff, (w >> 40) & 0xff, (w >> 48) & 0xff, (w >> 56) & 0xff) == w
  {
  }

  lemma LowByte(x: bv64)
    ensures ((x & 0xff) as bv8) as bv64 == x & 0xff
  {
  }

  lemma WordOfBytes(w: bv64)
    ensures WordAt(Bytes(w), 0) == w
  {
    hide Word8;
    BytesMakeWord(w);
    LowByte(w);
    LowByte(w >> 8);
    LowByte(w >> 16);
    LowByte(w >> 24);
    LowByte(w >> 32);
    LowByte(w >> 40);
    LowByte(w >> 48);
    LowByte(w >> 56);
  }

  lemma WordOfBytesFirst(w: bv64, rest: seq<bv8>)
    ensures WordAt(Bytes(w) + rest, 0) == w
  {
    assert forall i: nat :: 0 <= i < 8 ==> ByteAt(Bytes(w) + rest, i) == ByteAt(Bytes(w), i);
    hide ByteAt, WordAt;
    SameBytesSameWord(Bytes(w) + rest, Bytes(w), 0);
    WordOfBytes(w);
  }

  function UnitBytes(k: Words): (r: seq<bv8>)
    ensures |r| == 16
  {
    Bytes(k.lo) + Bytes(k.hi)
  }

  lemma UnitOfBytes(k: Words, rest: seq<bv8>)
    ensures Unit(UnitBytes(k) + rest, 0) == k
  {
    assert UnitBytes(k) + rest == Bytes(k.lo) + (Bytes(k.hi) + rest);
    hide WordAt;
    WordOfBytesFirst(k.lo, Bytes(k.hi) + rest);
    WordAfter(Bytes(k.lo), Bytes(k.hi) + rest, 0);
    WordOfBytesFirst(k.hi, rest);
  }

  lemma LaterUnitsAgree(key: seq<bv8>, a: seq<bv8>, b: seq<bv8>, k: nat)
    requires k >= 2 && |a| == |b| == 32
    ensures Unit(a + key, k) == Unit(b + key, k)
  {
    hide Unit;
    UnitAfter(a, key, a + key, 2, k - 2);
    UnitAfter(b, key, b + key, 2, k - 2);
  }

  /** Two blocks are enough for a collision: whatever the first block of a key is changed to, some second
      block gives the changed key the same hash. */
  lemma TwoUnitsCanCollide(key: seq<bv8>, first: Words, seed: bv32) returns (other: seq<bv8>)
    requires 32 <= |key| < 0x8000_0000
    ensures |other| == |key| && other[32..] == key[32..] && Unit(other, 0) == first
    ensures Hash(other, seed) == Hash(key, seed)
  {
    hide Unit, BlockStep, BlockBetween, UnitBytes, Finish, TailStep;
    var start := Words(seed as bv64, seed as bv64);
    var target := BlockStep(BlockStep(start, Unit(key, 0)), Unit(key, 1));
    var second := BlockBetween(BlockStep(start, first), target);
    BlockBetweenLeadsThere(BlockStep(start, first), target);
    var changed := UnitBytes(first) + UnitBytes(second);
    other := changed + key[32..];
    assert other == UnitBytes(first) + (UnitBytes(second) + key[32..]);
    UnitOfBytes(first, UnitBytes(second) + key[32..]);
    UnitAfter(UnitBytes(first), UnitBytes(second) + key[32..], other, 1, 0);
    UnitOfBytes(second, key[32..]);
    assert key == key[..32] + key[32..];
    SameTail(key[32..], changed, key[..32], other, key, seed);
  }

  lemma SameTail(rest: seq<bv8>, a: seq<bv8>, b: seq<bv8>, x: seq<bv8>, y: seq<bv8>, seed: bv32)
    requires |a| == |b| == 32 && x == a + rest && y == b + rest && |x| < 0x8000_0000
    requires var start := Words(seed as bv64, seed as bv64);
      BlockStep(BlockStep(start, Unit(x, 0)), Unit(x, 1)) == BlockStep(BlockStep(start, Unit(y, 0)), Unit(y, 1))
    ensures Hash(x, seed) == Hash(y, seed)
  {
    hide Unit, BlockStep, Finish, TailStep;
    forall k: nat | k >= 2
      ensures Unit(x, k) == Unit(y, k)
    {
      LaterUnitsAgree(rest, a, b, k);
    }
    assert Body(x, seed, 2) == Body(y, seed, 2) by {
      assert Body(x, seed, 1) == BlockStep(Body(x, seed, 0), Unit(x, 0));
      assert Body(y, seed, 1) == BlockStep(Body(y, seed, 0), Unit(y, 0));
    }
    BodyCarries(x, y, seed, seed, 2, |x| / 16);
  }
}
