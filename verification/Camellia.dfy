/**
 Camellia: the plain cipher of RFC 3713, the table-driven cipher of
 crypto/camellia.c, and the algebra that relates them.

 The four SP tables are parameters.  Only CoreIsRfc, at the end, relates their
 contents to the S-boxes.
 */
module Camellia {

  /** A 64-bit half block or subkey, most significant word first. */
  datatype Half = Half(l: bv32, r: bv32)

  /** A 128-bit block. */
  datatype Block = Block(a: Half, b: Half)

  datatype Tables = Tables(sp1110: bv8 -> bv32, sp0222: bv8 -> bv32, sp3033: bv8 -> bv32, sp4404: bv8 -> bv32)

  // Word operations, named so that proofs can work with their laws.
  function Add(x: bv32, y: bv32): bv32 { x ^ y }
  function Mask(x: bv32, k: bv32): bv32 { x & k }
  function Join(x: bv32, k: bv32): bv32 { x | k }
  function Clear(x: bv32, k: bv32): bv32 { x & !k }
  function Rol1(x: bv32): bv32 { (x << 1) | (x >> 31) }
  function Rol8(x: bv32): bv32 { (x << 8) | (x >> 24) }
  function Ror8(x: bv32): bv32 { (x >> 8) | (x << 24) }

  function Byte3(x: bv32): bv8 { (x >> 24) as bv8 }
  function Byte2(x: bv32): bv8 { ((x >> 16) & 0xff) as bv8 }
  function Byte1(x: bv32): bv8 { ((x >> 8) & 0xff) as bv8 }
  function Byte0(x: bv32): bv8 { (x & 0xff) as bv8 }

  function Be32(a: bv8, b: bv8, c: bv8, d: bv8): bv32 {
    (((a as bv32) << 24) | ((b as bv32) << 16)) | (((c as bv32) << 8) | (d as bv32))
  }

  function Xor(x: Half, y: Half): Half { Half(Add(x.l, y.l), Add(x.r, y.r)) }

  // ---------------------------------------------------------------- the round function

  /** The look-ups on the most significant word. */
  function LookL(t: Tables, l: bv32): bv32 {
    Add(Add(Add(t.sp1110(Byte3(l)), t.sp0222(Byte2(l))), t.sp3033(Byte1(l))), t.sp4404(Byte0(l)))
  }

  /** The look-ups on the least significant word. */
  function LookR(t: Tables, r: bv32): bv32 {
    Add(Add(Add(t.sp1110(Byte0(r)), t.sp0222(Byte3(r))), t.sp3033(Byte2(r))), t.sp4404(Byte1(r)))
  }

  /** S-boxes and the P-function. */
  function Core(t: Tables, i: Half): Half {
    var yr := LookL(t, i.l);
    var yl := Add(LookR(t, i.r), yr);
    Half(yl, Add(Ror8(yr), yl))
  }

  /** CAMELLIA_F: key addition, S-boxes and the P-function. */
  function F(t: Tables, x: Half, k: Half): Half { Core(t, Xor(x, k)) }

  /** CAMELLIA_ROUNDSM: no key before the look-ups, a key inside the P-function. */
  function RoundSm(t: Tables, x: Half, k: Half, y: Half): Half {
    var il := Add(LookL(t, x.l), k.l);
    var ir := Add(LookR(t, x.r), Add(il, k.r));
    Half(Add(y.l, ir), Add(y.r, Add(Ror8(il), ir)))
  }

  /** The linear map the last half of the P-function applies to a key. */
  function LastHalfP(k: Half): Half {
    var s := Add(k.l, k.r);
    Half(s, Add(Ror8(k.l), s))
  }

  /** The in-place transformation at the end of camellia_setup_tail. */
  function InverseP(k: Half): Half {
    var dw := Rol8(Add(k.l, k.r));
    Half(dw, Add(k.l, dw))
  }

  /** FL of section 2.4.2 of RFC 3713, as CAMELLIA_FLS applies it to the left half. */
  function FL(x: Half, k: Half): Half {
    var r := Add(x.r, Rol1(Mask(x.l, k.l)));
    Half(Add(x.l, Join(r, k.r)), r)
  }

  /** FLINV of section 2.4.3. */
  function FLInv(y: Half, k: Half): Half {
    var l := Add(y.l, Join(y.r, k.r));
    Half(l, Add(y.r, Rol1(Mask(l, k.l))))
  }

  /** How FL moves a difference. */
  function FLDiff(o: Half, k: Half): Half {
    var r := Add(o.r, Rol1(Mask(o.l, k.l)));
    Half(Add(o.l, Clear(r, k.r)), r)
  }

  /** How FLINV moves a difference: the line pairs marked FLinv(kl) and FL(kl) in
      camellia_setup_tail. */
  function FLInvDiff(o: Half, k: Half): Half {
    var l := Add(o.l, Clear(o.r, k.r));
    Half(l, Add(o.r, Rol1(Mask(l, k.l))))
  }

  // ---------------------------------------------------------------- word laws

  lemma AddLaws(a: bv32, b: bv32, c: bv32)
    ensures Add(Add(a, b), c) == Add(a, Add(b, c)) && Add(Add(a, b), b) == a && Add(a, b) == Add(b, a)
  {
  }

  lemma RolAdd(a: bv32, b: bv32)
    ensures Rol1(Add(a, b)) == Add(Rol1(a), Rol1(b))
  {
  }

  lemma RorAdd(a: bv32, b: bv32)
    ensures Ror8(Add(a, b)) == Add(Ror8(a), Ror8(b))
  {
  }

  lemma RorRol(a: bv32)
    ensures Ror8(Rol8(a)) == a
  {
  }

  lemma MaskAdd(a: bv32, b: bv32, k: bv32)
    ensures Mask(Add(a, b), k) == Add(Mask(a, k), Mask(b, k))
  {
  }

  lemma ClearAdd(a: bv32, b: bv32, k: bv32)
    ensures Clear(Add(a, b), k) == Add(Clear(a, k), Clear(b, k))
  {
    calc {
      Clear(Add(a, b), k);
      (a ^ b) & !k;
      (a & !k) ^ (b & !k);
      Add(Clear(a, k), Clear(b, k));
    }
  }

  lemma JoinAdd(a: bv32, b: bv32, k: bv32)
    ensures Join(Add(a, b), k) == Add(Join(a, k), Clear(b, k))
  {
    calc {
      Join(Add(a, b), k);
      (a ^ b) | k;
      (a | k) ^ (b & !k);
      Add(Join(a, k), Clear(b, k));
    }
  }

  /** A sum of four words regrouped. */
  lemma AddShuffle(a: bv32, b: bv32, c: bv32, d: bv32)
    ensures Add(Add(a, b), Add(c, d)) == Add(Add(a, c), Add(b, d))
  {
    AddLaws(a, b, Add(c, d));
    AddLaws(b, c, d);
    AddLaws(c, b, d);
    AddLaws(a, c, Add(b, d));
  }

  // ---------------------------------------------------------------- laws of half blocks

  lemma XorAssoc(x: Half, y: Half, z: Half)
    ensures Xor(Xor(x, y), z) == Xor(x, Xor(y, z))
  {
    AddLaws(x.l, y.l, z.l);
    AddLaws(x.r, y.r, z.r);
  }

  lemma XorComm(x: Half, y: Half)
    ensures Xor(x, y) == Xor(y, x)
  {
  }

  lemma XorCancel(x: Half, y: Half)
    ensures Xor(Xor(x, y), y) == x
  {
  }

  lemma InversePUndoes(k: Half)
    ensures LastHalfP(InverseP(k)) == k
  {
    var s := Add(k.l, k.r);
    var dw := Rol8(s);
    AddLaws(k.l, dw, 0);
    AddLaws(dw, Add(k.l, dw), 0);
    RorRol(s);
    AddLaws(k.r, k.l, 0);
  }

  lemma RoundSmIsF(t: Tables, x: Half, k: Half, y: Half)
    ensures RoundSm(t, x, k, y) == Xor(y, Xor(Core(t, x), LastHalfP(k)))
  {
    var u, v := LookL(t, x.l), LookR(t, x.r);
    var s := Add(k.l, k.r);
    AddLaws(u, k.l, k.r);
    AddLaws(v, u, s);
    RorAdd(u, k.l);
    AddShuffle(Ror8(u), Ror8(k.l), Add(v, u), s);
  }

  lemma FLShifts(x: Half, o: Half, k: Half)
    ensures FL(Xor(x, o), k) == Xor(FL(x, k), FLDiff(o, k))
  {
    MaskAdd(x.l, o.l, k.l);
    RolAdd(Mask(x.l, k.l), Mask(o.l, k.l));
    AddShuffle(x.r, o.r, Rol1(Mask(x.l, k.l)), Rol1(Mask(o.l, k.l)));
    var r, s := FL(x, k).r, FLDiff(o, k).r;
    JoinAdd(r, s, k.r);
    AddShuffle(x.l, o.l, Join(r, k.r), Clear(s, k.r));
  }

  lemma FLInvShifts(x: Half, o: Half, k: Half)
    ensures FLInv(Xor(x, o), k) == Xor(FLInv(x, k), FLInvDiff(o, k))
  {
    JoinAdd(x.r, o.r, k.r);
    AddShuffle(x.l, o.l, Join(x.r, k.r), Clear(o.r, k.r));
    var l, m := FLInv(x, k).l, FLInvDiff(o, k).l;
    MaskAdd(l, m, k.l);
    RolAdd(Mask(l, k.l), Mask(m, k.l));
    AddShuffle(x.r, o.r, Rol1(Mask(l, k.l)), Rol1(Mask(m, k.l)));
  }

  lemma FLInvDiffLinear(o: Half, p: Half, k: Half)
    ensures FLInvDiff(Xor(o, p), k) == Xor(FLInvDiff(o, k), FLInvDiff(p, k))
  {
    ClearAdd(o.r, p.r, k.r);
    AddShuffle(o.l, p.l, Clear(o.r, k.r), Clear(p.r, k.r));
    var l, m := FLInvDiff(o, k).l, FLInvDiff(p, k).l;
    MaskAdd(l, m, k.l);
    RolAdd(Mask(l, k.l), Mask(m, k.l));
    AddShuffle(o.r, p.r, Rol1(Mask(l, k.l)), Rol1(Mask(m, k.l)));
  }

  lemma FLDiffUndoes(o: Half, k: Half)
    ensures FLDiff(FLInvDiff(o, k), k) == o
  {
    var i := FLInvDiff(o, k);
    AddLaws(o.r, Rol1(Mask(i.l, k.l)), 0);
    AddLaws(o.l, Clear(o.r, k.r), 0);
  }

  lemma FLUndoes(x: Half, k: Half)
    ensures FLInv(FL(x, k), k) == x && FL(FLInv(x, k), k) == x
  {
    var y := FL(x, k);
    AddLaws(x.l, Join(y.r, k.r), 0);
    AddLaws(x.r, Rol1(Mask(x.l, k.l)), 0);
    var z := FLInv(x, k);
    AddLaws(x.r, Rol1(Mask(z.l, k.l)), 0);
    AddLaws(x.l, Join(x.r, k.r), 0);
  }

  // ---------------------------------------------------------------- the S-boxes and the P-function of RFC 3713

  datatype SBoxes = SBoxes(s1: bv8 -> bv8, s2: bv8 -> bv8, s3: bv8 -> bv8, s4: bv8 -> bv8)

  /** The layout the names of the tables announce: the digit says which S-box
      fills the byte, zero that none does. */
  function TablesOf(s: SBoxes): Tables {
    Tables((x: bv8) => Be32(s.s1(x), s.s1(x), s.s1(x), 0),
           (x: bv8) => Be32(0, s.s2(x), s.s2(x), s.s2(x)),
           (x: bv8) => Be32(s.s3(x), 0, s.s3(x), s.s3(x)),
           (x: bv8) => Be32(s.s4(x), s.s4(x), 0, s.s4(x)))
  }

  function Mix8(x: bv8, y: bv8): bv8 { x ^ y }

  function Mix5(a: bv8, b: bv8, c: bv8, d: bv8, e: bv8): bv8 { (((a ^ b) ^ c) ^ d) ^ e }

  function Mix6(a: bv8, b: bv8, c: bv8, d: bv8, e: bv8, f: bv8): bv8 { ((((a ^ b) ^ c) ^ d) ^ e) ^ f }

  /** The P-function of section 2.4.1, byte by byte. */
  function PFunction(t1: bv8, t2: bv8, t3: bv8, t4: bv8, t5: bv8, t6: bv8, t7: bv8, t8: bv8): Half {
    Half(Be32(Mix6(t1, t3, t4, t6, t7, t8), Mix6(t1, t2, t4, t5, t7, t8), Mix6(t1, t2, t3, t5, t6, t8),
              Mix6(t2, t3, t4, t5, t6, t7)),
         Be32(Mix5(t1, t2, t6, t7, t8), Mix5(t2, t3, t5, t7, t8), Mix5(t3, t4, t5, t6, t8), Mix5(t1, t4, t5, t6, t7)))
  }

  /** S-boxes, then P, on the bytes of a half block. */
  function RfcCore(s: SBoxes, x: Half): Half {
    PFunction(s.s1(Byte3(x.l)), s.s2(Byte2(x.l)), s.s3(Byte1(x.l)), s.s4(Byte0(x.l)),
              s.s2(Byte3(x.r)), s.s3(Byte2(x.r)), s.s4(Byte1(x.r)), s.s1(Byte0(x.r)))
  }

  lemma BeAdd(a: bv8, b: bv8, c: bv8, d: bv8, e: bv8, f: bv8, g: bv8, h: bv8)
    ensures Add(Be32(a, b, c, d), Be32(e, f, g, h)) == Be32(Mix8(a, e), Mix8(b, f), Mix8(c, g), Mix8(d, h))
  {
  }

  lemma BeRor8(a: bv8, b: bv8, c: bv8, d: bv8)
    ensures Ror8(Be32(a, b, c, d)) == Be32(d, a, b, c)
  {
  }

  lemma Mix8Zero(x: bv8)
    ensures Mix8(x, 0) == x
    ensures Mix8(0, x) == x
  {
  }

  /** One word of look-ups. */
  lemma SpWords(t1: bv8, t2: bv8, t3: bv8, t4: bv8)
    ensures Add(Add(Add(Be32(t1, t1, t1, 0), Be32(0, t2, t2, t2)), Be32(t3, 0, t3, t3)), Be32(t4, t4, 0, t4))
            == Be32(Mix8(Mix8(t1, t3), t4), Mix8(Mix8(t1, t2), t4), Mix8(Mix8(t1, t2), t3), Mix8(Mix8(t2, t3), t4))
  {
    hide Be32, Add, Mix8;
    BeAdd(t1, t1, t1, 0, 0, t2, t2, t2);
    Mix8Zero(t1);
    Mix8Zero(t2);
    var m := Mix8(t1, t2);
    BeAdd(t1, m, m, t2, t3, 0, t3, t3);
    Mix8Zero(m);
    BeAdd(Mix8(t1, t3), m, Mix8(m, t3), Mix8(t2, t3), t4, t4, 0, t4);
    Mix8Zero(Mix8(m, t3));
  }

  // Sums of bytes: six terms from two triples, five from a triple and six.

  lemma SixTerms(a: bv8, b: bv8, c: bv8, d: bv8, e: bv8, f: bv8)
    ensures Mix8(Mix8(Mix8(f, d), e), Mix8(Mix8(a, b), c)) == Mix6(a, b, c, d, e, f)
  {
  }

  lemma SixTurned(a: bv8, b: bv8, c: bv8, d: bv8, e: bv8, f: bv8)
    ensures Mix8(Mix8(Mix8(d, e), f), Mix8(Mix8(a, b), c)) == Mix6(a, b, c, d, e, f)
  {
  }

  lemma Drop34(a: bv8, b: bv8, c: bv8, d: bv8, e: bv8, f: bv8, g: bv8)
    ensures Mix8(Mix8(Mix8(b, c), d), Mix6(a, c, d, e, f, g)) == Mix5(a, b, e, f, g)
  {
  }

  lemma Drop14(a: bv8, b: bv8, c: bv8, d: bv8, e: bv8, f: bv8, g: bv8)
    ensures Mix8(Mix8(Mix8(a, c), d), Mix6(a, b, d, e, f, g)) == Mix5(b, c, e, f, g)
  {
  }

  lemma Drop12(a: bv8, b: bv8, c: bv8, d: bv8, e: bv8, f: bv8, g: bv8)
    ensures Mix8(Mix8(Mix8(a, b), d), Mix6(a, b, c, e, f, g)) == Mix5(c, d, e, f, g)
  {
  }

  lemma Drop23(a: bv8, b: bv8, c: bv8, d: bv8, e: bv8, f: bv8, g: bv8)
    ensures Mix8(Mix8(Mix8(a, b), c), Mix6(b, c, d, e, f, g)) == Mix5(a, d, e, f, g)
  {
  }

  /** The table look-ups of the code compute the S-boxes and P of the standard. */
  lemma CoreIsRfc(s: SBoxes, x: Half)
    ensures Core(TablesOf(s), x) == RfcCore(s, x)
  {
    hide Be32, Add, Ror8, Mix8, Mix5, Mix6, Byte0, Byte1, Byte2, Byte3;
    var t1, t2, t3, t4 := s.s1(Byte3(x.l)), s.s2(Byte2(x.l)), s.s3(Byte1(x.l)), s.s4(Byte0(x.l));
    var t5, t6, t7, t8 := s.s2(Byte3(x.r)), s.s3(Byte2(x.r)), s.s4(Byte1(x.r)), s.s1(Byte0(x.r));
    SpWords(t1, t2, t3, t4);
    SpWords(t8, t5, t6, t7);
    PSums(t1, t2, t3, t4, t5, t6, t7, t8);
  }

  lemma PSums(t1: bv8, t2: bv8, t3: bv8, t4: bv8, t5: bv8, t6: bv8, t7: bv8, t8: bv8)
    ensures var l := Be32(Mix8(Mix8(t1, t3), t4), Mix8(Mix8(t1, t2), t4), Mix8(Mix8(t1, t2), t3),
                          Mix8(Mix8(t2, t3), t4));
            var r := Be32(Mix8(Mix8(t8, t6), t7), Mix8(Mix8(t8, t5), t7), Mix8(Mix8(t8, t5), t6),
                          Mix8(Mix8(t5, t6), t7));
            Half(Add(r, l), Add(Ror8(l), Add(r, l))) == PFunction(t1, t2, t3, t4, t5, t6, t7, t8)
  {
    hide Be32, Add, Ror8, Mix8, Mix5, Mix6;
    var l1, l2 := Mix8(Mix8(t1, t3), t4), Mix8(Mix8(t1, t2), t4);
    var l3, l4 := Mix8(Mix8(t1, t2), t3), Mix8(Mix8(t2, t3), t4);
    BeAdd(Mix8(Mix8(t8, t6), t7), Mix8(Mix8(t8, t5), t7), Mix8(Mix8(t8, t5), t6), Mix8(Mix8(t5, t6), t7), l1, l2, l3,
          l4);
    SixTerms(t1, t3, t4, t6, t7, t8);
    SixTerms(t1, t2, t4, t5, t7, t8);
    SixTerms(t1, t2, t3, t5, t6, t8);
    SixTurned(t2, t3, t4, t5, t6, t7);
    BeRor8(l1, l2, l3, l4);
    BeAdd(l4, l1, l2, l3, Mix6(t1, t3, t4, t6, t7, t8), Mix6(t1, t2, t4, t5, t7, t8), Mix6(t1, t2, t3, t5, t6, t8),
          Mix6(t2, t3, t4, t5, t6, t7));
    Drop34(t1, t2, t3, t4, t6, t7, t8);
    Drop14(t1, t2, t3, t4, t5, t7, t8);
    Drop12(t1, t2, t3, t4, t5, t6, t8);
    Drop23(t1, t2, t3, t4, t5, t6, t7);
  }
}
