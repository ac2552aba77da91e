/**
 camellia_setup_tail, camellia_do_encrypt and camellia_do_decrypt in the form
 the source has them: arrays rewritten in place, straight-line code for three
 or four groups.
 */
module CamelliaCode {
  import opened Camellia
  import opened CamelliaCipher
  import opened CamelliaSetup

  /** The table after kw2 has been absorbed in the groups before g, or kw4 in those from h on. */
  predicate Partly(s: Table, cur: seq<Half>, n: nat, g: nat, h: nat) {
    && IsTable(s, n) && |cur| == |s|
    && forall i :: 2 <= i < 8 * n ==> cur[i] == PartlyAbsorbed(s, n, g, h, i)
  }

  function PartlyAbsorbed(s: Table, n: nat, g: nat, h: nat, i: nat): Half
    requires IsTable(s, n) && 2 <= i < 8 * n
  {
    if !IsRound(n, i) then s[i]
    else if i % 2 == 1 then (if Group(i) < g then Xor(s[i], Kw2(s, n, Group(i))) else s[i])
    else (if Group(i) >= h then Xor(s[i], Kw4(s, n, Group(i))) else s[i])
  }

  /** Three round keys of one side of a group. */
  method AbsorbInto(sub: array<Half>, i: nat, key: Half)
    requires i + 4 < sub.Length
    modifies sub
    ensures forall j :: 0 <= j < sub.Length ==>
              sub[j] == if j == i || j == i + 2 || j == i + 4 then Xor(old(sub[j]), key) else old(sub[j])
  {
    hide Xor;
    sub[i] := Xor(sub[i], key);
    sub[i + 2] := Xor(sub[i + 2], key);
    sub[i + 4] := Xor(sub[i + 4], key);
  }

  /** Which round keys of group g an absorption touches. */
  lemma SideIndex(n: nat, g: nat, i: nat)
    requires g < n && 2 <= i < 8 * n
    ensures (IsRound(n, i) && i % 2 == 1 && Group(i) == g) <==> (i == 8 * g + 3 || i == 8 * g + 5 || i == 8 * g + 7)
    ensures (IsRound(n, i) && i % 2 == 0 && Group(i) == g) <==> (i == 8 * g + 2 || i == 8 * g + 4 || i == 8 * g + 6)
  {
  }

  /** kw2 has been absorbed in the groups before g and moved up to group h. */
  predicate Kw2Stage(s: Table, cur: seq<Half>, n: nat, g: nat, h: nat) {
    && Partly(s, cur, n, g, n) && h < n
    && cur[1] == Kw2(s, n, h) && cur[0] == s[0] && cur[8 * n] == s[8 * n] && cur[8 * n + 1] == s[8 * n + 1]
  }

  /** The even rounds of group g take kw2. */
  method AbsorbKw2(sub: array<Half>, ghost s: Table, n: nat, g: nat)
    requires g < n && Kw2Stage(s, sub[..], n, g, g)
    modifies sub
    ensures Kw2Stage(s, sub[..], n, g + 1, g)
  {
    hide Xor, Kw2, Kw4;
    AbsorbInto(sub, 8 * g + 3, sub[1]);
    forall i | 2 <= i < 8 * n ensures sub[..][i] == PartlyAbsorbed(s, n, g + 1, n, i) {
      SideIndex(n, g, i);
    }
  }

  /** kw2 through the FLINV layer before group g. */
  method MoveKw2(sub: array<Half>, ghost s: Table, n: nat, g: nat)
    requires 0 < g < n && Kw2Stage(s, sub[..], n, g, g - 1)
    modifies sub
    ensures Kw2Stage(s, sub[..], n, g, g)
  {
    hide Xor, Kw4, FLInvDiff;
    LayerIndex(n, g, 1);
    assert sub[..][8 * g + 1] == s[8 * g + 1];
    sub[1] := FLInvDiff(sub[1], sub[8 * g + 1]);
  }

  /** The odd rounds of group g take kw4. */
  method AbsorbKw4(sub: array<Half>, ghost s: Table, n: nat, g: nat, kw4: Half)
    requires g < n && Partly(s, sub[..], n, n, g + 1) && kw4 == Kw4(s, n, g)
    modifies sub
    ensures Partly(s, sub[..], n, n, g)
    ensures sub[0] == old(sub[0]) && sub[8 * n] == old(sub[8 * n])
  {
    hide Xor, Kw2, Kw4;
    AbsorbInto(sub, 8 * g + 2, kw4);
    forall i | 2 <= i < 8 * n ensures sub[..][i] == PartlyAbsorbed(s, n, n, g, i) {
      SideIndex(n, g, i);
    }
  }

  /** kw4 back through the FL layer after group g. */
  method MoveKw4(sub: array<Half>, ghost s: Table, n: nat, g: nat, kw4: Half) returns (r: Half)
    requires g + 1 < n && Partly(s, sub[..], n, n, g + 1) && kw4 == Kw4(s, n, g + 1)
    ensures r == Kw4(s, n, g)
  {
    hide Xor, Kw2, FLInvDiff;
    LayerIndex(n, g + 1, 0);
    assert sub[..][8 * g + 8] == s[8 * g + 8];
    r := FLInvDiff(kw4, sub[8 * g + 8]);
  }

  /** Absorb kw2. */
  method TakeKw2(sub: array<Half>, n: nat)
    requires (n == 3 || n == 4) && sub.Length == 8 * n + 2
    modifies sub
    ensures Kw2Stage(old(sub[..]), sub[..], n, n, n - 1)
  {
    hide Xor, Kw4, PartlyAbsorbed;
    ghost var s := sub[..];
    NothingYet(s, n);
    AbsorbKw2(sub, s, n, 0);
    MoveKw2(sub, s, n, 1);
    AbsorbKw2(sub, s, n, 1);
    MoveKw2(sub, s, n, 2);
    AbsorbKw2(sub, s, n, 2);
    if n == 4 {
      MoveKw2(sub, s, n, 3);
      AbsorbKw2(sub, s, n, 3);
    }
  }

  lemma NothingYet(s: Table, n: nat)
    requires IsTable(s, n)
    ensures Partly(s, s, n, 0, n)
  {
  }

  /** Absorb kw4, from the last group to the first. */
  method TakeKw4(sub: array<Half>, ghost s: Table, n: nat) returns (kw4: Half)
    requires (n == 3 || n == 4) && sub.Length == 8 * n + 2
    requires Partly(s, sub[..], n, n, n) && sub[8 * n + 1] == s[8 * n + 1]
    modifies sub
    ensures Partly(s, sub[..], n, n, 0) && kw4 == Kw4(s, n, 0)
    ensures sub[0] == old(sub[0]) && sub[8 * n] == old(sub[8 * n])
  {
    hide Xor, Kw2, FLInvDiff, PartlyAbsorbed;
    kw4 := sub[8 * n + 1];
    if n == 4 {
      AbsorbKw4(sub, s, n, 3, kw4);
      kw4 := MoveKw4(sub, s, n, 2, kw4);
    }
    AbsorbKw4(sub, s, n, 2, kw4);
    kw4 := MoveKw4(sub, s, n, 1, kw4);
    AbsorbKw4(sub, s, n, 1, kw4);
    kw4 := MoveKw4(sub, s, n, 0, kw4);
    AbsorbKw4(sub, s, n, 0, kw4);
  }

  /** The first half of camellia_setup_tail. */
  method Absorb(sub: array<Half>, n: nat)
    requires (n == 3 || n == 4) && sub.Length == 8 * n + 2
    modifies sub
    ensures forall i :: 0 <= i <= 8 * n && i != 1 ==> sub[i] == Absorbed(old(sub[..]), n, i)
  {
    hide Xor, Kw2, Kw4;
    ghost var s := sub[..];
    TakeKw2(sub, n);
    sub[8 * n] := Xor(sub[8 * n], sub[1]);
    assert Partly(s, sub[..], n, n, n);
    var kw4 := TakeKw4(sub, s, n);
    sub[0] := Xor(sub[0], kw4);
    forall i | 2 <= i < 8 * n ensures sub[i] == Absorbed(s, n, i) {
      assert sub[..][i] == PartlyAbsorbed(s, n, n, 0, i);
      assert IsRound(n, i) ==> Group(i) < n;
    }
  }

  // ---------------------------------------------------------------- the round keys move behind the P-function

  /** Rounds 2 to 5 of group g. */
  method FoldMiddle(sub: seq<Half>, subkey: array<Half>, n: nat, g: nat)
    requires g < n && |sub| == 8 * n + 2 && subkey.Length >= 8 * n + 2
    modifies subkey
    ensures forall i :: 8 * g + 3 <= i < 8 * g + 7 ==> subkey[i] == Folded(sub, n, i)
    ensures forall i :: 0 <= i < subkey.Length && !(8 * g + 3 <= i < 8 * g + 7) ==> subkey[i] == old(subkey[i])
  {
    hide Xor, FLInvDiff, Folded;
    FoldedGroup(sub, n, g);
    var b := 8 * g;
    subkey[b + 3] := Xor(sub[b + 2], sub[b + 4]);
    subkey[b + 4] := Xor(sub[b + 3], sub[b + 5]);
    subkey[b + 5] := Xor(sub[b + 4], sub[b + 6]);
    subkey[b + 6] := Xor(sub[b + 5], sub[b + 7]);
  }

  /** Round 6 of group g and the FL keys behind it. */
  method FoldLast(sub: seq<Half>, subkey: array<Half>, n: nat, g: nat)
    requires g < n && |sub| == 8 * n + 2 && subkey.Length >= 8 * n + 2
    modifies subkey
    ensures forall i :: 8 * g + 7 <= i < 8 * g + 10 && i < 8 * n ==> subkey[i] == Folded(sub, n, i)
    ensures forall i ::
              0 <= i < subkey.Length && !(8 * g + 7 <= i < 8 * g + 10 && i < 8 * n) ==> subkey[i] == old(subkey[i])
  {
    hide Xor, FLInvDiff, Folded;
    FoldedGroup(sub, n, g);
    var b := 8 * g;
    if g + 1 == n {
      subkey[b + 7] := sub[b + 6];
    } else {
      subkey[b + 7] := Xor(sub[b + 6], FLInvDiff(sub[b + 10], sub[b + 8]));
      subkey[b + 8] := sub[b + 8];
      subkey[b + 9] := sub[b + 9];
    }
  }

  /** The subkeys of group g. */
  method FoldGroup(sub: seq<Half>, subkey: array<Half>, n: nat, g: nat)
    requires g < n && |sub| == 8 * n + 2 && subkey.Length >= 8 * n + 2
    modifies subkey
    ensures forall i :: 8 * g + 2 <= i < 8 * g + 10 && i < 8 * n ==> subkey[i] == Folded(sub, n, i)
    ensures forall i ::
              0 <= i < subkey.Length && !(8 * g + 2 <= i < 8 * g + 10 && i < 8 * n) ==> subkey[i] == old(subkey[i])
  {
    hide Xor, FLInvDiff, Folded;
    FoldedGroup(sub, n, g);
    var b := 8 * g;
    if g == 0 {
      subkey[b + 2] := sub[b + 3];
    } else {
      subkey[b + 2] := Xor(FLInvDiff(sub[b - 1], sub[b + 1]), sub[b + 3]);
    }
    FoldMiddle(sub, subkey, n, g);
    FoldLast(sub, subkey, n, g);
  }

  lemma FoldedGroup(a: Table, n: nat, g: nat)
    requires IsTable(a, n) && g < n
    ensures var b := 8 * g;
            && Folded(a, n, b + 2) == (if g == 0 then a[b + 3] else Xor(FLInvDiff(a[b - 1], a[b + 1]), a[b + 3]))
            && Folded(a, n, b + 3) == Xor(a[b + 2], a[b + 4])
            && Folded(a, n, b + 4) == Xor(a[b + 3], a[b + 5])
            && Folded(a, n, b + 5) == Xor(a[b + 4], a[b + 6])
            && Folded(a, n, b + 6) == Xor(a[b + 5], a[b + 7])
            && Folded(a, n, b + 7) == (if g + 1 == n then a[b + 6] else Xor(a[b + 6], FLInvDiff(a[b + 10], a[b + 8])))
            && (g + 1 < n ==> Folded(a, n, b + 8) == a[b + 8] && Folded(a, n, b + 9) == a[b + 9])
  {
    hide Xor, FLInvDiff;
    FoldIndex(n, g);
  }

  lemma FoldIndex(n: nat, g: nat)
    requires g < n
    ensures var b := 8 * g;
            && IsRound(n, b + 2) && IsRound(n, b + 3) && IsRound(n, b + 4) && IsRound(n, b + 5) && IsRound(n, b + 6)
            && IsRound(n, b + 7)
            && (b + 2) % 8 == 2 && (b + 3) % 8 == 3 && (b + 4) % 8 == 4 && (b + 5) % 8 == 5 && (b + 6) % 8 == 6
            && (b + 7) % 8 == 7
            && !IsRound(n, b + 8) && !IsRound(n, b + 9)
  {
  }

  /** The key XOR moves to the end of the F-function. */
  method Fold(sub: seq<Half>, subkey: array<Half>, n: nat)
    requires (n == 3 || n == 4) && |sub| == 8 * n + 2 && subkey.Length >= 8 * n + 2
    modifies subkey
    ensures forall i :: 0 <= i <= 8 * n && i != 1 ==> subkey[i] == Folded(sub, n, i)
  {
    hide Xor, Folded;
    FoldGroup(sub, subkey, n, 0);
    FoldGroup(sub, subkey, n, 1);
    FoldGroup(sub, subkey, n, 2);
    if n == 4 { FoldGroup(sub, subkey, n, 3); }
    subkey[0] := Xor(sub[0], sub[2]);
    subkey[8 * n] := Xor(sub[8 * n], sub[8 * n - 1]);
    FoldedEnds(sub, n);
  }

  lemma FoldedEnds(a: Table, n: nat)
    requires IsTable(a, n)
    ensures Folded(a, n, 0) == Xor(a[0], a[2]) && Folded(a, n, 8 * n) == Xor(a[8 * n], a[8 * n - 1])
  {
  }

  lemma WhiteningIndex(n: nat)
    ensures !IsRound(n, 0) && !IsRound(n, 1)
  {
  }

  method InvertThree(subkey: array<Half>, i: nat)
    requires i + 3 <= subkey.Length
    modifies subkey
    ensures forall j :: 0 <= j < subkey.Length ==>
              subkey[j] == if i <= j < i + 3 then InverseP(old(subkey[j])) else old(subkey[j])
  {
    hide InverseP;
    subkey[i] := InverseP(subkey[i]);
    subkey[i + 1] := InverseP(subkey[i + 1]);
    subkey[i + 2] := InverseP(subkey[i + 2]);
  }

  /** The loop that applies the inverse of the last half of the P-function. */
  method InvertP(subkey: array<Half>, n: nat)
    requires n > 0 && subkey.Length >= 8 * n + 2
    modifies subkey
    ensures forall i :: 0 <= i <= 8 * n ==> subkey[i] == if IsRound(n, i) then InverseP(old(subkey[i]))
                                                         else old(subkey[i])
  {
    hide InverseP, IsRound;
    WhiteningIndex(n);
    var i, max := 2, 8 * n;
    ghost var g := 0;
    while i < max
      invariant i == 8 * g + 2 && g <= n
      invariant forall j :: 0 <= j <= max ==> subkey[j] == if IsRound(n, j) && j < i then InverseP(old(subkey[j]))
                                                           else old(subkey[j])
    {
      FoldIndex(n, g);
      InvertThree(subkey, i);
      InvertThree(subkey, i + 3);
      i, g := i + 8, g + 1;
    }
  }

  /** Entries 1 and 8n + 1 of an absorbed table are never read again. */
  lemma FoldedReads(a: Table, b: Table, n: nat, i: nat)
    requires IsTable(a, n) && IsTable(b, n) && i <= 8 * n && i != 1
    requires forall j :: 0 <= j <= 8 * n && j != 1 ==> a[j] == b[j]
    ensures Folded(a, n, i) == Folded(b, n, i)
  {
  }

  lemma TunedReads(s: Table, k: Table, k': Table, n: nat)
    requires Tuned(s, k, n) && IsTable(k', n)
    requires forall i :: 0 <= i <= 8 * n && i != 1 ==> k'[i] == k[i]
    ensures Tuned(s, k', n)
  {
    hide Xor, LastHalfP, InDiff, OutDiff;
    forall g | 0 <= g < n ensures TunedGroup(s, k', n, g) {
      assert TunedGroup(s, k, n, g);
    }
  }

  /** camellia_setup_tail */
  method SetupTail(sub: array<Half>, subkey: array<Half>, n: nat)
    requires (n == 3 || n == 4) && sub.Length == 8 * n + 2 && subkey.Length >= 8 * n + 2 && sub != subkey
    modifies sub, subkey
    ensures forall i :: 0 <= i <= 8 * n && i != 1 ==> subkey[i] == Tail(old(sub[..]), n)[i]
    ensures Tuned(old(sub[..]), subkey[..8 * n + 2], n)
  {
    hide Xor, Absorbed, Folded, InverseP, Tuned;
    ghost var s := sub[..];
    Absorb(sub, n);
    var a := sub[..];
    Fold(a, subkey, n);
    InvertP(subkey, n);
    forall i | 0 <= i <= 8 * n && i != 1 ensures subkey[i] == Tail(s, n)[i] {
      FoldedReads(a, AbsorbedTable(s, n), n, i);
    }
    TailIsTuned(s, n);
    TunedReads(s, Tail(s, n), subkey[..8 * n + 2], n);
  }

  // ---------------------------------------------------------------- encryption and decryption

  /** The round function the SP tables implement. */
  function MixOf(t: Tables): Mix { (x: Half) => Core(t, x) }

  function BlockOf(io: seq<bv32>): Block
    requires |io| == 4
  {
    Block(Half(io[0], io[1]), Half(io[2], io[3]))
  }

  /** CAMELLIA_ROUNDSM on io[x..x+2] and io[y..y+2]. */
  method RoundStep(t: Tables, k: Half, io: array<bv32>, x: nat, y: nat)
    requires io.Length == 4 && ((x == 0 && y == 2) || (x == 2 && y == 0))
    modifies io
    ensures io[x] == old(io[x]) && io[x + 1] == old(io[x + 1])
    ensures Half(io[y], io[y + 1]) ==
              Round(MixOf(t), Half(old(io[x]), old(io[x + 1])), k, Half(old(io[y]), old(io[y + 1])))
  {
    hide LookL, LookR, Ror8, Add;
    var xl, xr := io[x], io[x + 1];
    RoundSmIsF(t, Half(xl, xr), k, Half(io[y], io[y + 1]));
    var il := Add(LookL(t, xl), k.l);
    var ir := Add(LookR(t, xr), Add(il, k.r));
    io[y] := Add(io[y], ir);
    io[y + 1] := Add(io[y + 1], Add(Ror8(il), ir));
  }

  /** CAMELLIA_FLS */
  method LayerStep(k1: Half, k2: Half, io: array<bv32>)
    requires io.Length == 4
    modifies io
    ensures BlockOf(io[..]) == Layer(BlockOf(old(io[..])), k1, k2)
  {
    hide Add, Mask, Join, Rol1;
    io[2] := Add(io[2], Join(io[3], k2.r));
    io[1] := Add(io[1], Rol1(Mask(io[0], k1.l)));
    io[0] := Add(io[0], Join(io[1], k1.r));
    io[3] := Add(io[3], Rol1(Mask(io[2], k2.l)));
  }

  /** Two rounds, the second back into the left half. */
  method TwoSteps(t: Tables, k1: Half, k2: Half, io: array<bv32>)
    requires io.Length == 4
    modifies io
    ensures BlockOf(io[..]) == FastTwo(MixOf(t), k1, k2, BlockOf(old(io[..])))
  {
    hide Round, MixOf;
    RoundStep(t, k1, io, 0, 2);
    RoundStep(t, k2, io, 2, 0);
  }

  /** ROUNDS(i) of camellia_do_encrypt */
  method SixSteps(t: Tables, k: seq<Half>, i: nat, io: array<bv32>)
    requires io.Length == 4 && i + 8 <= |k|
    modifies io
    ensures BlockOf(io[..]) == FastSix(MixOf(t), k, i + 2, BlockOf(old(io[..])))
  {
    hide FastTwo, MixOf;
    TwoSteps(t, k[i + 2], k[i + 3], io);
    TwoSteps(t, k[i + 4], k[i + 5], io);
    TwoSteps(t, k[i + 6], k[i + 7], io);
  }

  /** ROUNDS(i) of camellia_do_decrypt */
  method SixStepsBack(t: Tables, k: seq<Half>, i: nat, io: array<bv32>)
    requires io.Length == 4 && i + 8 <= |k|
    modifies io
    ensures BlockOf(io[..]) == BackSix(MixOf(t), k, i + 2, BlockOf(old(io[..])))
  {
    hide FastTwo, MixOf;
    TwoSteps(t, k[i + 7], k[i + 6], io);
    TwoSteps(t, k[i + 5], k[i + 4], io);
    TwoSteps(t, k[i + 3], k[i + 2], io);
  }

  /** camellia_do_encrypt */
  method EncryptBlock(t: Tables, k: seq<Half>, io: array<bv32>, n: nat)
    requires (n == 3 || n == 4) && IsTable(k, n) && io.Length == 4
    modifies io
    ensures BlockOf(io[..]) == DoEncrypt(MixOf(t), k, n, BlockOf(old(io[..])))
  {
    hide Add, FastSix, Layer, MixOf;
    io[0] := Add(io[0], k[0].l);
    io[1] := Add(io[1], k[0].r);
    ghost var x0 := BlockOf(io[..]);
    SixSteps(t, k, 0, io);
    LayerStep(k[8], k[9], io);
    SixSteps(t, k, 8, io);
    LayerStep(k[16], k[17], io);
    SixSteps(t, k, 16, io);
    if n == 4 {
      LayerStep(k[24], k[25], io);
      SixSteps(t, k, 24, io);
    }
    assert BlockOf(io[..]) == FastRounds(MixOf(t), k, n, 0, x0);
    io[2] := Add(io[2], k[8 * n].l);
    io[3] := Add(io[3], k[8 * n].r);
  }

  /** camellia_do_decrypt */
  method DecryptBlock(t: Tables, k: seq<Half>, io: array<bv32>, n: nat)
    requires (n == 3 || n == 4) && IsTable(k, n) && io.Length == 4
    modifies io
    ensures BlockOf(io[..]) == DoDecrypt(MixOf(t), k, n, BlockOf(old(io[..])))
  {
    hide Add, BackSix, Layer, MixOf;
    io[0] := Add(io[0], k[8 * n].l);
    io[1] := Add(io[1], k[8 * n].r);
    ghost var x0 := BlockOf(io[..]);
    if n == 4 {
      SixStepsBack(t, k, 24, io);
      LayerStep(k[25], k[24], io);
    }
    SixStepsBack(t, k, 16, io);
    LayerStep(k[17], k[16], io);
    SixStepsBack(t, k, 8, io);
    LayerStep(k[9], k[8], io);
    SixStepsBack(t, k, 0, io);
    assert BlockOf(io[..]) == BackRounds(MixOf(t), k, n, n - 1, x0);
    io[2] := Add(io[2], k[0].l);
    io[3] := Add(io[3], k[0].r);
  }
}
