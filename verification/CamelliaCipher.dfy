/**
 The plain cipher with explicit whitening and keyed rounds, the fast cipher on
 an absorbed subkey table, and the proof that the second computes the first.

 A raw subkey table holds, for n groups of six rounds, kw1 kw2 at 0 and 1, the
 round keys of group g at 8g+2 .. 8g+7, the FL and FLINV keys after it at 8g+8
 and 8g+9, and kw3 kw4 at 8n and 8n+1.  The code's `max` is 8n: n is 3 for
 128-bit keys and 4 for longer ones.
 */
module CamelliaCipher {
  import opened Camellia

  type Table = seq<Half>

  /** The unkeyed round function, S-boxes then P.  Nothing here depends on what it is. */
  type Mix = Half -> Half

  predicate IsTable(s: Table, n: nat) { n > 0 && |s| == 8 * n + 2 }

  // ---------------------------------------------------------------- the plain cipher, RFC 3713 section 2.3

  function Two(c: Mix, k1: Half, k2: Half, x: Block): Block {
    var b := Xor(x.b, c(Xor(x.a, k1)));
    Block(Xor(x.a, c(Xor(b, k2))), b)
  }

  function Six(c: Mix, s: Table, i: nat, x: Block): Block
    requires i + 6 <= |s|
  {
    Two(c, s[i + 4], s[i + 5], Two(c, s[i + 2], s[i + 3], Two(c, s[i], s[i + 1], x)))
  }

  function Layer(x: Block, k1: Half, k2: Half): Block { Block(FL(x.a, k1), FLInv(x.b, k2)) }

  /** Groups g .. n-1. */
  function Rounds(c: Mix, s: Table, n: nat, g: nat, x: Block): Block
    requires IsTable(s, n) && g < n
    decreases n - g
  {
    var y := Six(c, s, 8 * g + 2, x);
    var h := g + 1;
    if h == n then y else Rounds(c, s, n, h, Layer(y, s[8 * h], s[8 * h + 1]))
  }

  function Encrypt(c: Mix, s: Table, n: nat, x: Block): Block
    requires IsTable(s, n)
  {
    var y := Rounds(c, s, n, 0, Block(Xor(x.a, s[0]), Xor(x.b, s[1])));
    Block(Xor(y.b, s[8 * n]), Xor(y.a, s[8 * n + 1]))
  }

  // ---------------------------------------------------------------- the fast cipher

  /** A round that adds its key behind the P-function. */
  function Round(c: Mix, x: Half, k: Half, y: Half): Half { Xor(y, Xor(c(x), LastHalfP(k))) }

  function FastTwo(c: Mix, k1: Half, k2: Half, x: Block): Block {
    var b := Round(c, x.a, k1, x.b);
    Block(Round(c, b, k2, x.a), b)
  }

  /** ROUNDS(i) of camellia_do_encrypt, with i + 2 the first index. */
  function FastSix(c: Mix, k: Table, i: nat, x: Block): Block
    requires i + 6 <= |k|
  {
    FastTwo(c, k[i + 4], k[i + 5], FastTwo(c, k[i + 2], k[i + 3], FastTwo(c, k[i], k[i + 1], x)))
  }

  function FastRounds(c: Mix, k: Table, n: nat, g: nat, x: Block): Block
    requires IsTable(k, n) && g < n
    decreases n - g
  {
    var y := FastSix(c, k, 8 * g + 2, x);
    var h := g + 1;
    if h == n then y else FastRounds(c, k, n, h, Layer(y, k[8 * h], k[8 * h + 1]))
  }

  /** camellia_do_encrypt */
  function DoEncrypt(c: Mix, k: Table, n: nat, x: Block): Block
    requires IsTable(k, n)
  {
    var y := FastRounds(c, k, n, 0, x.(a := Xor(x.a, k[0])));
    y.(b := Xor(y.b, k[8 * n]))
  }

  function Swap(x: Block): Block { Block(x.b, x.a) }

  /** camellia_encrypt: the caller swaps the halves. */
  function FastEncrypt(c: Mix, k: Table, n: nat, x: Block): Block
    requires IsTable(k, n)
  {
    Swap(DoEncrypt(c, k, n, x))
  }

  // ---------------------------------------------------------------- what an absorbed table must hold

  /** The difference the right half carries into group g. */
  function InDiff(s: Table, n: nat, g: nat): Half
    requires IsTable(s, n) && g < n
  {
    if g == 0 then s[1] else FLInvDiff(s[8 * g - 1], s[8 * g + 1])
  }

  /** The difference the left half carries out of group g. */
  function OutDiff(s: Table, n: nat, g: nat): Half
    requires IsTable(s, n) && g < n
  {
    if g + 1 == n then s[8 * n + 1] else FLInvDiff(s[8 * g + 10], s[8 * g + 8])
  }

  predicate TunedGroup(s: Table, k: Table, n: nat, g: nat)
    requires IsTable(s, n) && IsTable(k, n) && g < n
  {
    var i := 8 * g + 2;
    && LastHalfP(k[i]) == Xor(InDiff(s, n, g), s[i + 1])
    && LastHalfP(k[i + 1]) == Xor(s[i], s[i + 2])
    && LastHalfP(k[i + 2]) == Xor(s[i + 1], s[i + 3])
    && LastHalfP(k[i + 3]) == Xor(s[i + 2], s[i + 4])
    && LastHalfP(k[i + 4]) == Xor(s[i + 3], s[i + 5])
    && LastHalfP(k[i + 5]) == Xor(s[i + 4], OutDiff(s, n, g))
    && (g + 1 < n ==> k[i + 6] == s[i + 6] && k[i + 7] == s[i + 7])
  }

  predicate Tuned(s: Table, k: Table, n: nat) {
    && IsTable(s, n) && IsTable(k, n)
    && k[0] == Xor(s[0], s[2])
    && k[8 * n] == Xor(s[8 * n], s[8 * n - 1])
    && forall g :: 0 <= g < n ==> TunedGroup(s, k, n, g)
  }

  // ---------------------------------------------------------------- the simulation

  /** The fast block is the plain block with known differences. */
  predicate Shifted(x: Block, y: Block, oa: Half, ob: Half) {
    y.a == Xor(x.a, oa) && y.b == Xor(x.b, ob)
  }

  lemma XorMove(b: Half, o: Half, f: Half, k: Half)
    ensures Xor(Xor(b, o), Xor(f, Xor(o, k))) == Xor(Xor(b, f), k)
  {
    XorComm(o, k);
    XorAssoc(f, k, o);
    XorComm(Xor(f, k), o);
    XorAssoc(Xor(b, o), o, Xor(f, k));
    XorCancel(b, o);
    XorAssoc(b, f, k);
  }

  lemma XorDrop(x: Half, y: Half, o: Half)
    ensures Xor(Xor(x, o), Xor(y, o)) == Xor(x, y)
  {
    XorComm(y, o);
    XorAssoc(Xor(x, o), o, y);
    XorCancel(x, o);
  }

  /** Two rounds carry the differences from (k1, ob) to (oa, k2). */
  lemma TwoSim(c: Mix, x: Block, y: Block, k1: Half, k2: Half, ob: Half, oa: Half, f1: Half, f2: Half)
    requires Shifted(x, y, k1, ob)
    requires LastHalfP(f1) == Xor(ob, k2) && LastHalfP(f2) == Xor(k1, oa)
    ensures Shifted(Two(c, k1, k2, x), FastTwo(c, f1, f2, y), oa, k2)
  {
    XorMove(x.b, ob, c(Xor(x.a, k1)), k2);
    var b := Round(c, y.a, f1, y.b);
    assert b == Xor(Two(c, k1, k2, x).b, k2);
    XorMove(x.a, k1, c(Xor(Two(c, k1, k2, x).b, k2)), oa);
  }

  lemma SixSim(c: Mix, s: Table, k: Table, n: nat, g: nat, x: Block, y: Block)
    requires Tuned(s, k, n) && g < n
    requires Shifted(x, y, s[8 * g + 2], InDiff(s, n, g))
    ensures Shifted(Six(c, s, 8 * g + 2, x), FastSix(c, k, 8 * g + 2, y), OutDiff(s, n, g), s[8 * g + 7])
  {
    var i := 8 * g + 2;
    assert TunedGroup(s, k, n, g);
    TwoSim(c, x, y, s[i], s[i + 1], InDiff(s, n, g), s[i + 2], k[i], k[i + 1]);
    var x1, y1 := Two(c, s[i], s[i + 1], x), FastTwo(c, k[i], k[i + 1], y);
    TwoSim(c, x1, y1, s[i + 2], s[i + 3], s[i + 1], s[i + 4], k[i + 2], k[i + 3]);
    var x2, y2 := Two(c, s[i + 2], s[i + 3], x1), FastTwo(c, k[i + 2], k[i + 3], y1);
    TwoSim(c, x2, y2, s[i + 4], s[i + 5], s[i + 3], OutDiff(s, n, g), k[i + 4], k[i + 5]);
  }

  lemma LayerSim(x: Block, y: Block, oa: Half, ob: Half, k1: Half, k2: Half)
    requires Shifted(x, y, oa, ob)
    ensures Shifted(Layer(x, k1, k2), Layer(y, k1, k2), FLDiff(oa, k1), FLInvDiff(ob, k2))
  {
    FLShifts(x.a, oa, k1);
    FLInvShifts(x.b, ob, k2);
  }

  lemma {:induction false} RoundsSim(c: Mix, s: Table, k: Table, n: nat, g: nat, x: Block, y: Block)
    requires Tuned(s, k, n) && g < n
    requires Shifted(x, y, s[8 * g + 2], InDiff(s, n, g))
    ensures Shifted(Rounds(c, s, n, g, x), FastRounds(c, k, n, g, y), s[8 * n + 1], s[8 * n - 1])
    decreases n - g
  {
    hide Six, FastSix, FLDiff, FLInvDiff, Xor, LastHalfP, FL, FLInv;
    SixSim(c, s, k, n, g, x, y);
    var h := g + 1;
    if h < n {
      assert TunedGroup(s, k, n, g);
      var x1, y1 := Six(c, s, 8 * g + 2, x), FastSix(c, k, 8 * g + 2, y);
      LayerSim(x1, y1, OutDiff(s, n, g), s[8 * h - 1], s[8 * h], s[8 * h + 1]);
      FLDiffUndoes(s[8 * h + 2], s[8 * h]);
      RoundsSim(c, s, k, n, h, Layer(x1, s[8 * h], s[8 * h + 1]), Layer(y1, s[8 * h], s[8 * h + 1]));
    }
  }

  /** On a tuned table the fast cipher is the plain cipher, on every block. */
  lemma TunedIsPlain(c: Mix, s: Table, k: Table, n: nat, x: Block)
    requires Tuned(s, k, n)
    ensures FastEncrypt(c, k, n, x) == Encrypt(c, s, n, x)
  {
    var x0, y0 := Block(Xor(x.a, s[0]), Xor(x.b, s[1])), x.(a := Xor(x.a, k[0]));
    XorAssoc(x.a, s[0], s[2]);
    XorCancel(x.b, s[1]);
    RoundsSim(c, s, k, n, 0, x0, y0);
    var x1 := Rounds(c, s, n, 0, x0);
    XorComm(s[8 * n], s[8 * n - 1]);
    XorAssoc(Xor(x1.b, s[8 * n - 1]), s[8 * n - 1], s[8 * n]);
    XorCancel(x1.b, s[8 * n - 1]);
  }

  // ---------------------------------------------------------------- decryption

  /** camellia_do_decrypt's ROUNDS: the same keys in the opposite order. */
  function BackSix(c: Mix, k: Table, i: nat, x: Block): Block
    requires i + 6 <= |k|
  {
    FastTwo(c, k[i + 1], k[i], FastTwo(c, k[i + 3], k[i + 2], FastTwo(c, k[i + 5], k[i + 4], x)))
  }

  /** Groups g .. 0. */
  function BackRounds(c: Mix, k: Table, n: nat, g: nat, x: Block): Block
    requires IsTable(k, n) && g < n
    decreases g
  {
    var y := BackSix(c, k, 8 * g + 2, x);
    if g == 0 then y else BackRounds(c, k, n, g - 1, Layer(y, k[8 * g + 1], k[8 * g]))
  }

  /** camellia_do_decrypt */
  function DoDecrypt(c: Mix, k: Table, n: nat, x: Block): Block
    requires IsTable(k, n)
  {
    var y := BackRounds(c, k, n, n - 1, x.(a := Xor(x.a, k[8 * n])));
    y.(b := Xor(y.b, k[0]))
  }

  /** camellia_decrypt */
  function FastDecrypt(c: Mix, k: Table, n: nat, x: Block): Block
    requires IsTable(k, n)
  {
    Swap(DoDecrypt(c, k, n, x))
  }

  lemma RoundUndoes(c: Mix, x: Half, k: Half, y: Half)
    ensures Round(c, x, k, Round(c, x, k, y)) == y
  {
    XorCancel(y, Xor(c(x), LastHalfP(k)));
  }

  lemma TwoUndoes(c: Mix, k1: Half, k2: Half, x: Block)
    ensures FastTwo(c, k2, k1, Swap(FastTwo(c, k1, k2, x))) == Swap(x)
  {
    var b := Round(c, x.a, k1, x.b);
    RoundUndoes(c, b, k2, x.a);
    RoundUndoes(c, x.a, k1, x.b);
  }

  lemma SixUndoes(c: Mix, k: Table, i: nat, x: Block)
    requires i + 6 <= |k|
    ensures BackSix(c, k, i, Swap(FastSix(c, k, i, x))) == Swap(x)
  {
    var x1 := FastTwo(c, k[i], k[i + 1], x);
    var x2 := FastTwo(c, k[i + 2], k[i + 3], x1);
    TwoUndoes(c, k[i + 4], k[i + 5], x2);
    TwoUndoes(c, k[i + 2], k[i + 3], x1);
    TwoUndoes(c, k[i], k[i + 1], x);
  }

  lemma LayerUndoes(x: Block, k1: Half, k2: Half)
    ensures Layer(Swap(Layer(x, k1, k2)), k2, k1) == Swap(x)
  {
    FLUndoes(x.a, k1);
    FLUndoes(x.b, k2);
  }

  /** Going back from what went into group g. */
  function BackFrom(c: Mix, k: Table, n: nat, g: nat, x: Block): Block
    requires IsTable(k, n) && g < n
  {
    if g == 0 then x else BackRounds(c, k, n, g - 1, Layer(x, k[8 * g + 1], k[8 * g]))
  }

  lemma GroupUndoes(c: Mix, k: Table, n: nat, g: nat, x: Block)
    requires IsTable(k, n) && g < n
    ensures BackRounds(c, k, n, g, Swap(FastSix(c, k, 8 * g + 2, x))) == BackFrom(c, k, n, g, Swap(x))
  {
    SixUndoes(c, k, 8 * g + 2, x);
  }

  lemma BackOverLayer(c: Mix, k: Table, n: nat, h: nat, y: Block)
    requires IsTable(k, n) && 0 < h < n
    ensures BackFrom(c, k, n, h, Swap(Layer(y, k[8 * h], k[8 * h + 1]))) == BackRounds(c, k, n, h - 1, Swap(y))
  {
    LayerUndoes(y, k[8 * h], k[8 * h + 1]);
  }

  lemma FastRoundsStep(c: Mix, k: Table, n: nat, h: nat, x: Block)
    requires IsTable(k, n) && 0 < h <= n
    ensures var y := FastSix(c, k, 8 * (h - 1) + 2, x);
            FastRounds(c, k, n, h - 1, x) == if h == n then y
                                             else FastRounds(c, k, n, h, Layer(y, k[8 * h], k[8 * h + 1]))
  {
  }

  lemma LastGroupUndoes(c: Mix, k: Table, n: nat, x: Block)
    requires IsTable(k, n)
    ensures BackRounds(c, k, n, n - 1, Swap(FastRounds(c, k, n, n - 1, x))) == BackFrom(c, k, n, n - 1, Swap(x))
  {
    hide FastSix, BackSix;
    FastRoundsStep(c, k, n, n, x);
    GroupUndoes(c, k, n, n - 1, x);
  }

  /** Running back over groups n-1 .. h-1 undoes running over groups h-1 .. n-1. */
  lemma {:induction false} RoundsUndo(c: Mix, k: Table, n: nat, h: nat, x: Block)
    requires IsTable(k, n) && 0 < h <= n
    ensures BackRounds(c, k, n, n - 1, Swap(FastRounds(c, k, n, h - 1, x))) == BackFrom(c, k, n, h - 1, Swap(x))
    decreases n - h
  {
    hide FastSix, BackSix;
    if h == n {
      LastGroupUndoes(c, k, n, x);
    } else {
      FastRoundsStep(c, k, n, h, x);
      var y := FastSix(c, k, 8 * (h - 1) + 2, x);
      var z := Layer(y, k[8 * h], k[8 * h + 1]);
      calc {
        BackRounds(c, k, n, n - 1, Swap(FastRounds(c, k, n, h - 1, x)));
        BackRounds(c, k, n, n - 1, Swap(FastRounds(c, k, n, h, z)));
        { RoundsUndo(c, k, n, h + 1, z); }
        BackFrom(c, k, n, h, Swap(z));
        { BackOverLayer(c, k, n, h, y); }
        BackRounds(c, k, n, h - 1, Swap(y));
        { GroupUndoes(c, k, n, h - 1, x); }
        BackFrom(c, k, n, h - 1, Swap(x));
      }
    }
  }

  /** Decryption undoes encryption on every table, absorbed or not, and every block. */
  lemma DecryptUndoes(c: Mix, k: Table, n: nat, x: Block)
    requires IsTable(k, n)
    ensures FastDecrypt(c, k, n, FastEncrypt(c, k, n, x)) == x
  {
    var x0 := x.(a := Xor(x.a, k[0]));
    var y := FastRounds(c, k, n, 0, x0);
    XorCancel(y.b, k[8 * n]);
    RoundsUndo(c, k, n, 1, x0);
    XorCancel(x.a, k[0]);
  }

  // ---------------------------------------------------------------- and encryption undoes decryption

  lemma SixRedoes(c: Mix, k: Table, i: nat, x: Block)
    requires i + 6 <= |k|
    ensures FastSix(c, k, i, Swap(BackSix(c, k, i, x))) == Swap(x)
  {
    var x1 := FastTwo(c, k[i + 5], k[i + 4], x);
    var x2 := FastTwo(c, k[i + 3], k[i + 2], x1);
    TwoUndoes(c, k[i + 1], k[i], x2);
    TwoUndoes(c, k[i + 3], k[i + 2], x1);
    TwoUndoes(c, k[i + 5], k[i + 4], x);
  }

  /** Going on from what came out of group h - 1. */
  function FastFrom(c: Mix, k: Table, n: nat, h: nat, x: Block): Block
    requires IsTable(k, n) && 0 < h <= n
  {
    if h == n then x else FastRounds(c, k, n, h, Layer(x, k[8 * h], k[8 * h + 1]))
  }

  lemma GroupRedoes(c: Mix, k: Table, n: nat, g: nat, x: Block)
    requires IsTable(k, n) && g < n
    ensures FastRounds(c, k, n, g, Swap(BackSix(c, k, 8 * g + 2, x))) == FastFrom(c, k, n, g + 1, Swap(x))
  {
    hide FastSix, BackSix;
    var y := Swap(BackSix(c, k, 8 * g + 2, x));
    FastRoundsStep(c, k, n, g + 1, y);
    SixRedoes(c, k, 8 * g + 2, x);
  }

  /** Running over all groups after running back over groups g .. 0 leaves groups g+1 .. n-1 to run. */
  lemma {:induction false} RoundsRedo(c: Mix, k: Table, n: nat, g: nat, x: Block)
    requires IsTable(k, n) && g < n
    ensures FastRounds(c, k, n, 0, Swap(BackRounds(c, k, n, g, x))) == FastFrom(c, k, n, g + 1, Swap(x))
    decreases g
  {
    hide FastSix, BackSix, FastRounds;
    var y := BackSix(c, k, 8 * g + 2, x);
    GroupRedoes(c, k, n, g, x);
    if g > 0 {
      RoundsRedo(c, k, n, g - 1, Layer(y, k[8 * g + 1], k[8 * g]));
      LayerUndoes(y, k[8 * g + 1], k[8 * g]);
    }
  }

  /** So the two are inverse to each other: every block is the encryption of exactly one. */
  lemma EncryptUndoes(c: Mix, k: Table, n: nat, x: Block)
    requires IsTable(k, n)
    ensures FastEncrypt(c, k, n, FastDecrypt(c, k, n, x)) == x
  {
    var x0 := x.(a := Xor(x.a, k[8 * n]));
    var y := BackRounds(c, k, n, n - 1, x0);
    XorCancel(y.b, k[0]);
    RoundsRedo(c, k, n, n - 1, x0);
    XorCancel(x.a, k[8 * n]);
  }
}
