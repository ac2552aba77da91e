/**
 The key schedule: camellia_setup128, camellia_setup192 and camellia_setup256
 rotate four words step by step and save work in the KA computation; section
 2.2 of RFC 3713 defines each subkey from a rotation of the whole 128-bit value.
 */
module CamelliaKeys {
  import opened Camellia
  import opened CamelliaCipher
  import opened CamelliaSetup
  import opened CamelliaCode

  // ---------------------------------------------------------------- rotations of 128 bits

  function Wide(x: Block): bv128 {
    ((x.a.l as bv128) << 96) | ((x.a.r as bv128) << 64) | ((x.b.l as bv128) << 32) | (x.b.r as bv128)
  }

  function Narrow(w: bv128): Block {
    Block(Half((w >> 96) as bv32, ((w >> 64) & 0xffff_ffff) as bv32),
          Half(((w >> 32) & 0xffff_ffff) as bv32, (w & 0xffff_ffff) as bv32))
  }

  function Rotl(w: bv128, n: nat): bv128
    requires n <= 128
  {
    w.RotateLeft(n)
  }

  /** K <<< n */
  function Rot(x: Block, n: nat): Block
    requires n <= 128
  {
    Narrow(Rotl(Wide(x), n))
  }

  /** The ROLDQ macro. */
  function Roldq(x: Block, n: nat): Block
    requires 0 < n < 32
  {
    Block(Half((x.a.l << n) + (x.a.r >> (32 - n)), (x.a.r << n) + (x.b.l >> (32 - n))),
          Half((x.b.l << n) + (x.b.r >> (32 - n)), (x.b.r << n) + (x.a.l >> (32 - n))))
  }

  /** The ROLDQo32 macro. */
  function RoldqO32(x: Block, n: nat): Block
    requires 32 < n < 64
  {
    Block(Half((x.a.r << (n - 32)) + (x.b.l >> (64 - n)), (x.b.l << (n - 32)) + (x.b.r >> (64 - n))),
          Half((x.b.r << (n - 32)) + (x.a.l >> (64 - n)), (x.a.l << (n - 32)) + (x.a.r >> (64 - n))))
  }

  lemma NarrowWide(x: Block)
    ensures Narrow(Wide(x)) == x
  {
  }

  lemma WideNarrow(w: bv128)
    ensures Wide(Narrow(w)) == w
  {
  }

  // Rotations add up; the pairs are those of the two schedules.
  lemma Rot15And15(w: bv128) ensures Rotl(Rotl(w, 15), 15) == Rotl(w, 30) { }
  lemma Rot15And30(w: bv128) ensures Rotl(Rotl(w, 15), 30) == Rotl(w, 45) { }
  lemma Rot30And15(w: bv128) ensures Rotl(Rotl(w, 30), 15) == Rotl(w, 45) { }
  lemma Rot30And30(w: bv128) ensures Rotl(Rotl(w, 30), 30) == Rotl(w, 60) { }
  lemma Rot45And15(w: bv128) ensures Rotl(Rotl(w, 45), 15) == Rotl(w, 60) { }
  lemma Rot45And32(w: bv128) ensures Rotl(Rotl(w, 45), 32) == Rotl(w, 77) { }
  lemma Rot45And49(w: bv128) ensures Rotl(Rotl(w, 45), 49) == Rotl(w, 94) { }
  lemma Rot60And17(w: bv128) ensures Rotl(Rotl(w, 60), 17) == Rotl(w, 77) { }
  lemma Rot60And34(w: bv128) ensures Rotl(Rotl(w, 60), 34) == Rotl(w, 94) { }
  lemma Rot60And51(w: bv128) ensures Rotl(Rotl(w, 60), 51) == Rotl(w, 111) { }
  lemma Rot77And17(w: bv128) ensures Rotl(Rotl(w, 77), 17) == Rotl(w, 94) { }
  lemma Rot77And34(w: bv128) ensures Rotl(Rotl(w, 77), 34) == Rotl(w, 111) { }
  lemma Rot94And17(w: bv128) ensures Rotl(Rotl(w, 94), 17) == Rotl(w, 111) { }
  lemma Rot94And34(w: bv128) ensures Rotl(Rotl(w, 94), 34) == w { }

  lemma RotRot(x: Block, n: nat, m: nat)
    requires n + m <= 128 && Rotl(Rotl(Wide(x), n), m) == Rotl(Wide(x), n + m)
    ensures Rot(Rot(x, n), m) == Rot(x, n + m)
  {
  }

  lemma RotAll(x: Block)
    ensures Rot(Rot(x, 94), 34) == x
  {
    hide Wide, Narrow, Rotl;
    WideNarrow(Rotl(Wide(x), 94));
    Rot94And34(Wide(x));
    NarrowWide(x);
  }

  lemma Roldq15(x: Block)
    ensures Roldq(x, 15) == Rot(x, 15)
  {
  }

  lemma Roldq17(x: Block)
    ensures Roldq(x, 17) == Rot(x, 17)
  {
  }

  lemma Roldq30(x: Block)
    ensures Roldq(x, 30) == Rot(x, 30)
  {
  }

  lemma Roldq34(x: Block)
    ensures RoldqO32(x, 34) == Rot(x, 34)
  {
  }

  lemma Roldq45(x: Block)
    ensures RoldqO32(x, 45) == Rot(x, 45)
  {
  }

  lemma Roldq49(x: Block)
    ensures RoldqO32(x, 49) == Rot(x, 49)
  {
  }

  lemma Roldq51(x: Block)
    ensures RoldqO32(x, 51) == Rot(x, 51)
  {
  }

  /** Shifting by a whole word, as the 256-bit schedule does for kl5 and kl6. */
  lemma RotWord(x: Block)
    ensures Rot(x, 32) == Block(Half(x.a.r, x.b.l), Half(x.b.r, x.a.l))
  {
  }

  lemma RotBy(x: Block, n: nat)
    requires n in {15, 17, 30}
    ensures Roldq(x, n) == Rot(x, n)
  {
    hide Roldq, Rot;
    Roldq15(x);
    Roldq17(x);
    Roldq30(x);
  }

  lemma RotByO32(x: Block, n: nat)
    requires n in {34, 45, 49, 51}
    ensures RoldqO32(x, n) == Rot(x, n)
  {
    hide RoldqO32, Rot;
    Roldq34(x);
    Roldq45(x);
    Roldq49(x);
    Roldq51(x);
  }

  // ---------------------------------------------------------------- KA and KB, RFC 3713 section 2.2

  const SIGMA1 := Half(0xA09E667F, 0x3BCC908B)
  const SIGMA2 := Half(0xB67AE858, 0x4CAA73B2)
  const SIGMA3 := Half(0xC6EF372F, 0xE94F82BE)
  const SIGMA4 := Half(0x54FF53A5, 0xF1D36F1C)
  const SIGMA5 := Half(0x10E527FA, 0xDE682D1D)
  const SIGMA6 := Half(0xB05688C2, 0xB3E6C1FD)

  function XorBlock(x: Block, y: Block): Block { Block(Xor(x.a, y.a), Xor(x.b, y.b)) }

  function KeyA(c: Mix, kl: Block, kr: Block): Block {
    var d := Two(c, SIGMA1, SIGMA2, XorBlock(kl, kr));
    Two(c, SIGMA3, SIGMA4, XorBlock(d, kl))
  }

  function KeyB(c: Mix, ka: Block, kr: Block): Block {
    Two(c, SIGMA5, SIGMA6, XorBlock(ka, kr))
  }

  /** camellia_setup128's KA: with KR zero, adding KL back cancels it. */
  function FastKeyA128(c: Mix, kl: Block): Block {
    var w := c(Xor(kl.a, SIGMA1));
    var l := c(Xor(Xor(kl.b, w), SIGMA2));
    var r := Xor(c(Xor(l, SIGMA3)), w);
    Block(Xor(l, c(Xor(r, SIGMA4))), r)
  }

  /** camellia_setup256's KA. */
  function FastKeyA256(c: Mix, kl: Block, kr: Block): Block {
    var k := XorBlock(kl, kr);
    var w := c(Xor(k.a, SIGMA1));
    var l := Xor(c(Xor(Xor(k.b, w), SIGMA2)), kr.a);
    var r := Xor(c(Xor(l, SIGMA3)), Xor(w, kr.b));
    Block(Xor(l, c(Xor(r, SIGMA4))), r)
  }

  const NO_KR := Block(Half(0, 0), Half(0, 0))

  lemma XorZero(x: Half)
    ensures Xor(x, Half(0, 0)) == x
  {
  }

  /** Adding back what was added: (x + k + f) + k == f + x. */
  lemma XorBack(x: Half, k: Half, f: Half)
    ensures Xor(Xor(Xor(k, x), f), k) == Xor(f, x)
  {
    XorAssoc(k, x, f);
    XorComm(k, Xor(x, f));
    XorCancel(Xor(x, f), k);
    XorComm(x, f);
  }

  lemma FastKeyA256IsRfc(c: Mix, kl: Block, kr: Block)
    ensures FastKeyA256(c, kl, kr) == KeyA(c, kl, kr)
  {
    hide Xor;
    var k := XorBlock(kl, kr);
    var w := c(Xor(k.a, SIGMA1));
    var d2 := Xor(k.b, w);
    var f := c(Xor(d2, SIGMA2));
    XorBack(kr.a, kl.a, f);
    XorBack(kr.b, kl.b, w);
    var l, v := Xor(f, kr.a), Xor(w, kr.b);
    XorComm(c(Xor(l, SIGMA3)), v);
  }

  lemma FastKeyA128IsRfc(c: Mix, kl: Block)
    ensures FastKeyA128(c, kl) == KeyA(c, kl, NO_KR)
  {
    hide Xor;
    FastKeyA256IsRfc(c, kl, NO_KR);
    XorZero(kl.a);
    XorZero(kl.b);
    var w := c(Xor(kl.a, SIGMA1));
    XorZero(w);
    XorZero(c(Xor(Xor(kl.b, w), SIGMA2)));
  }

  // ---------------------------------------------------------------- the subkeys, RFC 3713 section 2.2

  /** 18 rounds, 128-bit keys. */
  function RawKeys128(c: Mix, kl: Block): (s: Table)
    ensures IsTable(s, 3)
  {
    var ka := KeyA(c, kl, NO_KR);
    [kl.a, kl.b] + [ka.a, ka.b, Rot(kl, 15).a, Rot(kl, 15).b, Rot(ka, 15).a, Rot(ka, 15).b]
    + [Rot(ka, 30).a, Rot(ka, 30).b] + [Rot(kl, 45).a, Rot(kl, 45).b, Rot(ka, 45).a, Rot(kl, 60).b, Rot(ka, 60).a,
                                        Rot(ka, 60).b]
    + [Rot(kl, 77).a, Rot(kl, 77).b] + [Rot(kl, 94).a, Rot(kl, 94).b, Rot(ka, 94).a, Rot(ka, 94).b, Rot(kl, 111).a,
                                        Rot(kl, 111).b]
    + [Rot(ka, 111).a, Rot(ka, 111).b]
  }

  /** 24 rounds, 192- and 256-bit keys. */
  function RawKeys256(c: Mix, kl: Block, kr: Block): (s: Table)
    ensures IsTable(s, 4)
  {
    var ka := KeyA(c, kl, kr);
    var kb := KeyB(c, ka, kr);
    [kl.a, kl.b] + [kb.a, kb.b, Rot(kr, 15).a, Rot(kr, 15).b, Rot(ka, 15).a, Rot(ka, 15).b]
    + [Rot(kr, 30).a, Rot(kr, 30).b] + [Rot(kb, 30).a, Rot(kb, 30).b, Rot(kl, 45).a, Rot(kl, 45).b, Rot(ka, 45).a,
                                        Rot(ka, 45).b]
    + [Rot(kl, 60).a, Rot(kl, 60).b] + [Rot(kr, 60).a, Rot(kr, 60).b, Rot(kb, 60).a, Rot(kb, 60).b, Rot(kl, 77).a,
                                        Rot(kl, 77).b]
    + [Rot(ka, 77).a, Rot(ka, 77).b] + [Rot(kr, 94).a, Rot(kr, 94).b, Rot(ka, 94).a, Rot(ka, 94).b, Rot(kl, 111).a,
                                        Rot(kl, 111).b]
    + [Rot(kb, 111).a, Rot(kb, 111).b]
  }

  // ---------------------------------------------------------------- the register work of the set-up functions

  /** ROLDQ or ROLDQo32 in place. */
  method Step(k: Block, m: nat) returns (r: Block)
    requires m in {15, 17, 30, 34, 45, 49, 51}
    ensures r == Rot(k, m)
  {
    hide Roldq, RoldqO32, Rot;
    if m < 32 {
      r := Roldq(k, m);
      RotBy(k, m);
    } else {
      r := RoldqO32(k, m);
      RotByO32(k, m);
    }
  }

  /** One more rotation of a key that has been rotated by n. */
  method Next(ghost k0: Block, k: Block, ghost n: nat, m: nat) returns (r: Block)
    requires m in {15, 17, 30, 34, 45, 49, 51} && n + m <= 128 && k == Rot(k0, n)
    requires Rotl(Rotl(Wide(k0), n), m) == Rotl(Wide(k0), n + m)
    ensures r == Rot(k0, n + m)
  {
    hide Roldq, RoldqO32, Rot, Wide, Rotl;
    r := Step(k, m);
    RotRot(k0, n, m);
  }

  /** The KL-dependent rotations of camellia_setup128. */
  method RotateKl128(kl: Block)
    returns (k15: Block, k45: Block, k60: Block, k77: Block, k94: Block, k111: Block)
    ensures k15 == Rot(kl, 15) && k45 == Rot(kl, 45) && k60 == Rot(kl, 60)
    ensures k77 == Rot(kl, 77) && k94 == Rot(kl, 94) && k111 == Rot(kl, 111)
  {
    hide Roldq, Rot, Wide, Rotl;
    k15 := Step(kl, 15);
    Rot15And30(Wide(kl));
    k45 := Next(kl, k15, 15, 30);
    Rot45And15(Wide(kl));
    k60 := Next(kl, k45, 45, 15);
    Rot60And17(Wide(kl));
    k77 := Next(kl, k60, 60, 17);
    Rot77And17(Wide(kl));
    k94 := Next(kl, k77, 77, 17);
    Rot94And17(Wide(kl));
    k111 := Next(kl, k94, 94, 17);
  }

  /** The KA-dependent rotations of camellia_setup128. */
  method RotateKa128(ka: Block)
    returns (k15: Block, k30: Block, k45: Block, k60: Block, k94: Block, k111: Block)
    ensures k15 == Rot(ka, 15) && k30 == Rot(ka, 30) && k45 == Rot(ka, 45)
    ensures k60 == Rot(ka, 60) && k94 == Rot(ka, 94) && k111 == Rot(ka, 111)
  {
    hide Roldq, Rot, Wide, Rotl;
    k15 := Step(ka, 15);
    Rot15And15(Wide(ka));
    k30 := Next(ka, k15, 15, 15);
    Rot30And15(Wide(ka));
    k45 := Next(ka, k30, 30, 15);
    Rot45And15(Wide(ka));
    k60 := Next(ka, k45, 45, 15);
    Rot60And34(Wide(ka));
    k94 := Next(ka, k60, 60, 34);
    Rot94And17(Wide(ka));
    k111 := Next(ka, k94, 94, 17);
  }

  /** The KL-dependent rotations of camellia_setup256. */
  method RotateKl256(kl: Block)
    returns (k45: Block, k60: Block, k77: Block, k111: Block)
    ensures k45 == Rot(kl, 45) && k60 == Rot(kl, 60) && k77 == Rot(kl, 77) && k111 == Rot(kl, 111)
  {
    hide Roldq, Rot, Wide, Rotl;
    k45 := Step(kl, 45);
    Rot45And15(Wide(kl));
    k60 := Next(kl, k45, 45, 15);
    Rot60And17(Wide(kl));
    k77 := Next(kl, k60, 60, 17);
    Rot77And34(Wide(kl));
    k111 := Next(kl, k77, 77, 34);
  }

  /** The KR-dependent rotations of camellia_setup256; the last one brings KR back. */
  method RotateKr256(kr: Block)
    returns (k15: Block, k30: Block, k60: Block, k94: Block, back: Block)
    ensures k15 == Rot(kr, 15) && k30 == Rot(kr, 30)
    ensures k60 == Rot(kr, 60) && k94 == Rot(kr, 94) && back == kr
  {
    hide Roldq, Rot, Wide, Rotl;
    k15 := Step(kr, 15);
    Rot15And15(Wide(kr));
    k30 := Next(kr, k15, 15, 15);
    Rot30And30(Wide(kr));
    k60 := Next(kr, k30, 30, 30);
    Rot60And34(Wide(kr));
    k94 := Next(kr, k60, 60, 34);
    back := Step(k94, 34);
    RotAll(kr);
  }

  /** The KB-dependent rotations of camellia_setup256. */
  method RotateKb256(kb: Block)
    returns (k30: Block, k60: Block, k111: Block)
    ensures k30 == Rot(kb, 30) && k60 == Rot(kb, 60) && k111 == Rot(kb, 111)
  {
    hide Roldq, Rot, Wide, Rotl;
    k30 := Step(kb, 30);
    Rot30And30(Wide(kb));
    k60 := Next(kb, k30, 30, 30);
    Rot60And51(Wide(kb));
    k111 := Next(kb, k60, 60, 51);
  }

  /** The KA-dependent rotations of camellia_setup256; kl5 and kl6 are the words of
      the second one, moved by one word. */
  method RotateKa256(ka: Block) returns (k15: Block, k45: Block, k77: Block, k94: Block)
    ensures k15 == Rot(ka, 15) && k45 == Rot(ka, 45) && k77 == Rot(ka, 77) && k94 == Rot(ka, 94)
  {
    hide Roldq, Rot, Wide, Rotl;
    k15 := Step(ka, 15);
    Rot15And30(Wide(ka));
    k45 := Next(ka, k15, 15, 30);
    k77 := Block(Half(k45.a.r, k45.b.l), Half(k45.b.r, k45.a.l));
    RotWord(k45);
    Rot45And32(Wide(ka));
    RotRot(ka, 45, 32);
    Rot45And49(Wide(ka));
    k94 := Next(ka, k45, 45, 49);
  }

  /** KA as camellia_setup128 computes it, three registers and a scratch pair. */
  method MakeKa128(t: Tables, kl: Block) returns (ka: Block)
    ensures ka == KeyA(MixOf(t), kl, NO_KR)
  {
    hide Xor, Core, KeyA;
    var l, r := kl.a, kl.b;
    var w := F(t, l, SIGMA1);
    r := Xor(r, w);
    l := F(t, r, SIGMA2);
    r := F(t, l, SIGMA3);
    r := Xor(r, w);
    w := F(t, r, SIGMA4);
    l := Xor(l, w);
    ka := Block(l, r);
    FastKeyA128IsRfc(MixOf(t), kl);
  }

  /** KA and KB as camellia_setup256 computes them. */
  method MakeKaKb(t: Tables, kl: Block, kr: Block) returns (ka: Block, kb: Block)
    ensures ka == KeyA(MixOf(t), kl, kr) && kb == KeyB(MixOf(t), ka, kr)
  {
    hide Xor, Core, KeyA;
    var l, r := Xor(kl.a, kr.a), Xor(kl.b, kr.b);
    var w := F(t, l, SIGMA1);
    r := Xor(r, w);
    l := F(t, r, SIGMA2);
    l := Xor(l, kr.a);
    r := F(t, l, SIGMA3);
    r := Xor(r, Xor(w, kr.b));
    w := F(t, r, SIGMA4);
    l := Xor(l, w);
    ka := Block(l, r);
    FastKeyA256IsRfc(MixOf(t), kl, kr);
    l, r := Xor(kr.a, ka.a), Xor(kr.b, ka.b);
    XorComm(kr.a, ka.a);
    XorComm(kr.b, ka.b);
    w := F(t, l, SIGMA5);
    r := Xor(r, w);
    w := F(t, r, SIGMA6);
    l := Xor(l, w);
    kb := Block(l, r);
  }

  // ---------------------------------------------------------------- set_key

  method Stored(keys: seq<Half>) returns (sub: array<Half>)
    ensures fresh(sub) && sub[..] == keys
  {
    sub := new Half[|keys|](i requires 0 <= i < |keys| => keys[i]);
  }

  /** camellia_setup128. */
  method Setup128(t: Tables, kl: Block, subkey: array<Half>)
    requires subkey.Length >= 26
    modifies subkey
    ensures Tuned(RawKeys128(MixOf(t), kl), subkey[..26], 3)
  {
    hide Tuned, Tail, Rot, KeyA;
    var l15, l45, l60, l77, l94, l111 := RotateKl128(kl);
    var ka := MakeKa128(t, kl);
    var a15, a30, a45, a60, a94, a111 := RotateKa128(ka);
    var keys := [kl.a, kl.b, ka.a, ka.b, l15.a, l15.b, a15.a, a15.b, a30.a, a30.b, l45.a, l45.b, a45.a, l60.b,
                 a60.a, a60.b, l77.a, l77.b, l94.a, l94.b, a94.a, a94.b, l111.a, l111.b, a111.a, a111.b];
    var sub := Stored(keys);
    assert keys == RawKeys128(MixOf(t), kl);
    SetupTail(sub, subkey, 3);
  }

  /** The first half of camellia_setup256: the subkeys before the tail. */
  method Fill256(t: Tables, kl: Block, kr: Block) returns (sub: array<Half>)
    ensures fresh(sub) && sub[..] == RawKeys256(MixOf(t), kl, kr)
  {
    hide Rot, KeyA, KeyB;
    var l45, l60, l77, l111 := RotateKl256(kl);
    var r15, r30, r60, r94, back := RotateKr256(kr);
    var ka, kb := MakeKaKb(t, kl, back);
    var a15, a45, a77, a94 := RotateKa256(ka);
    var b30, b60, b111 := RotateKb256(kb);
    var keys := [kl.a, kl.b, kb.a, kb.b, r15.a, r15.b, a15.a, a15.b, r30.a, r30.b, b30.a, b30.b, l45.a, l45.b,
                 a45.a, a45.b, l60.a, l60.b, r60.a, r60.b, b60.a, b60.b, l77.a, l77.b, a77.a, a77.b,
                 r94.a, r94.b, a94.a, a94.b, l111.a, l111.b, b111.a, b111.b];
    sub := Stored(keys);
  }

  /** camellia_setup256. */
  method Setup256(t: Tables, kl: Block, kr: Block, subkey: array<Half>)
    requires subkey.Length >= 34
    modifies subkey
    ensures Tuned(RawKeys256(MixOf(t), kl, kr), subkey[..34], 4)
  {
    hide Tuned, Tail, RawKeys256;
    var sub := Fill256(t, kl, kr);
    assert |sub[..]| == 34;
    SetupTail(sub, subkey, 4);
  }
}
