/**
 camellia_setup_tail: the subkey table is rewritten in place so that kw2 and
 kw4 disappear into other subkeys and every round key moves behind the
 P-function of the round before.  The main theorem is that the fast cipher on
 the rewritten table is the plain cipher on the raw one.
 */
module CamelliaSetup {
  import opened Camellia
  import opened CamelliaCipher

  // ---------------------------------------------------------------- the table as a function of the raw keys

  /** kw2 as it stands when group g is reached, moved through the FLINV layers. */
  function Kw2(s: Table, n: nat, g: nat): Half
    requires IsTable(s, n) && g < n
  {
    if g == 0 then s[1] else FLInvDiff(Kw2(s, n, g - 1), s[8 * g + 1])
  }

  /** kw4 as it stands when group g is reached from the end, moved back through the FL layers. */
  function Kw4(s: Table, n: nat, g: nat): Half
    requires IsTable(s, n) && g < n
    decreases n - g
  {
    if g + 1 == n then s[8 * n + 1] else FLInvDiff(Kw4(s, n, g + 1), s[8 * g + 8])
  }

  /** Index i holds a round key. */
  predicate IsRound(n: nat, i: nat) { 2 <= i < 8 * n && (i - 2) % 8 < 6 }

  function Group(i: nat): nat
    requires i >= 2
  {
    (i - 2) / 8
  }

  /** Entry i after kw2 and kw4 have been absorbed.  Entry 1 and the last are not used again. */
  function Absorbed(s: Table, n: nat, i: nat): Half
    requires IsTable(s, n) && i < |s|
  {
    if i == 0 then Xor(s[0], Kw4(s, n, 0))
    else if IsRound(n, i) then Xor(s[i], if i % 2 == 0 then Kw4(s, n, Group(i)) else Kw2(s, n, Group(i)))
    else if i == 8 * n then Xor(s[i], Kw2(s, n, n - 1))
    else s[i]
  }

  function AbsorbedTable(s: Table, n: nat): (a: Table)
    requires IsTable(s, n)
    ensures IsTable(a, n) && forall i :: 0 <= i < |s| ==> a[i] == Absorbed(s, n, i)
  {
    seq(|s|, i requires 0 <= i < |s| => Absorbed(s, n, i))
  }

  /** Entry i of the table before the inverse of the P-function's last half. */
  function Folded(a: Table, n: nat, i: nat): Half
    requires IsTable(a, n) && i < |a|
  {
    if i == 0 then Xor(a[0], a[2])
    else if i == 8 * n then Xor(a[8 * n], a[8 * n - 1])
    else if !IsRound(n, i) then a[i]
    else if i == 2 then a[3]
    else if i % 8 == 2 then Xor(FLInvDiff(a[i - 3], a[i - 1]), a[i + 1])
    else if i == 8 * n - 1 then a[i - 1]
    else if i % 8 == 7 then Xor(a[i - 1], FLInvDiff(a[i + 3], a[i + 1]))
    else Xor(a[i - 1], a[i + 1])
  }

  /** The whole of camellia_setup_tail. */
  function Tail(s: Table, n: nat): (k: Table)
    requires IsTable(s, n)
    ensures IsTable(k, n)
    ensures forall i :: 0 <= i < |s| ==> k[i] == TailEntry(AbsorbedTable(s, n), n, i)
  {
    seq(|s|, i requires 0 <= i < |s| => TailEntry(AbsorbedTable(s, n), n, i))
  }

  function TailEntry(a: Table, n: nat, i: nat): Half
    requires IsTable(a, n) && i < |a|
  {
    if IsRound(n, i) then InverseP(Folded(a, n, i)) else Folded(a, n, i)
  }

  // ---------------------------------------------------------------- absorption is sound

  lemma RoundIndex(n: nat, g: nat, j: nat)
    requires g < n && 2 <= j < 8
    ensures var i := 8 * g + j; i < 8 * n && IsRound(n, i) && Group(i) == g && i % 2 == j % 2 && i % 8 == j
  {
    var k := j - 2;
    assert (8 * g + k) % 8 == k && (8 * g + k) / 8 == g;
  }

  lemma LayerIndex(n: nat, g: nat, j: nat)
    requires g < n && j < 2
    ensures !IsRound(n, 8 * g + j)
  {
  }

  /** A round key after absorption. */
  lemma AbsorbedRound(s: Table, n: nat, g: nat, j: nat)
    requires IsTable(s, n) && g < n && 2 <= j < 8
    ensures AbsorbedTable(s, n)[8 * g + j] == Xor(s[8 * g + j], if j % 2 == 0 then Kw4(s, n, g) else Kw2(s, n, g))
  {
    hide Xor;
    RoundIndex(n, g, j);
  }

  lemma AbsorbedLayer(s: Table, n: nat, g: nat, j: nat)
    requires IsTable(s, n) && 0 < g < n && j < 2
    ensures AbsorbedTable(s, n)[8 * g + j] == s[8 * g + j]
  {
  }

  lemma FirstOfGroup(s: Table, n: nat, g: nat)
    requires IsTable(s, n) && g < n
    ensures Folded(AbsorbedTable(s, n), n, 8 * g + 2) == Xor(InDiff(s, n, g), s[8 * g + 3])
  {
    hide Xor, FLInvDiff;
    var a := AbsorbedTable(s, n);
    RoundIndex(n, g, 2);
    AbsorbedRound(s, n, g, 3);
    if g == 0 {
      XorComm(s[3], s[1]);
    } else {
      AbsorbedRound(s, n, g - 1, 7);
      AbsorbedLayer(s, n, g, 1);
      FLInvDiffLinear(s[8 * g - 1], Kw2(s, n, g - 1), s[8 * g + 1]);
      XorDrop(InDiff(s, n, g), s[8 * g + 3], Kw2(s, n, g));
    }
  }

  lemma LastOfGroup(s: Table, n: nat, g: nat)
    requires IsTable(s, n) && g < n
    ensures Folded(AbsorbedTable(s, n), n, 8 * g + 7) == Xor(s[8 * g + 6], OutDiff(s, n, g))
  {
    hide Xor, FLInvDiff, Absorbed, IsRound, Group;
    RoundIndex(n, g, 7);
    AbsorbedRound(s, n, g, 6);
    if g + 1 < n {
      AbsorbedRound(s, n, g + 1, 2);
      AbsorbedLayer(s, n, g + 1, 0);
      FLInvDiffLinear(s[8 * g + 10], Kw4(s, n, g + 1), s[8 * g + 8]);
      XorDrop(s[8 * g + 6], OutDiff(s, n, g), Kw4(s, n, g));
    }
  }

  lemma MiddleOfGroup(s: Table, n: nat, g: nat, j: nat)
    requires IsTable(s, n) && g < n && 3 <= j < 7
    ensures Folded(AbsorbedTable(s, n), n, 8 * g + j) == Xor(s[8 * g + j - 1], s[8 * g + j + 1])
  {
    hide Xor, FLInvDiff;
    RoundIndex(n, g, j);
    AbsorbedRound(s, n, g, j - 1);
    AbsorbedRound(s, n, g, j + 1);
    XorDrop(s[8 * g + j - 1], s[8 * g + j + 1], if j % 2 == 0 then Kw2(s, n, g) else Kw4(s, n, g));
  }

  lemma TailRound(s: Table, n: nat, g: nat, j: nat)
    requires IsTable(s, n) && g < n && 2 <= j < 8
    ensures LastHalfP(Tail(s, n)[8 * g + j]) == Folded(AbsorbedTable(s, n), n, 8 * g + j)
  {
    hide LastHalfP, InverseP, Folded;
    RoundIndex(n, g, j);
    InversePUndoes(Folded(AbsorbedTable(s, n), n, 8 * g + j));
  }

  lemma TailLayer(s: Table, n: nat, g: nat, j: nat)
    requires IsTable(s, n) && 0 < g < n && j < 2
    ensures Tail(s, n)[8 * g + j] == s[8 * g + j]
  {
    hide Xor, FLInvDiff, InverseP;
    LayerIndex(n, g, j);
    AbsorbedLayer(s, n, g, j);
  }

  lemma GroupIsTuned(s: Table, n: nat, g: nat)
    requires IsTable(s, n) && g < n
    ensures TunedGroup(s, Tail(s, n), n, g)
  {
    hide Xor, FLInvDiff, LastHalfP, InverseP, Folded, Tail;
    FirstOfGroup(s, n, g);
    MiddleOfGroup(s, n, g, 3);
    MiddleOfGroup(s, n, g, 4);
    MiddleOfGroup(s, n, g, 5);
    MiddleOfGroup(s, n, g, 6);
    LastOfGroup(s, n, g);
    TailRound(s, n, g, 2);
    TailRound(s, n, g, 3);
    TailRound(s, n, g, 4);
    TailRound(s, n, g, 5);
    TailRound(s, n, g, 6);
    TailRound(s, n, g, 7);
    if g + 1 < n {
      TailLayer(s, n, g + 1, 0);
      TailLayer(s, n, g + 1, 1);
    }
  }

  lemma TailIsTuned(s: Table, n: nat)
    requires IsTable(s, n)
    ensures Tuned(s, Tail(s, n), n)
  {
    hide Xor, FLInvDiff;
    AbsorbedRound(s, n, 0, 2);
    AbsorbedRound(s, n, n - 1, 7);
    forall g | 0 <= g < n ensures TunedGroup(s, Tail(s, n), n, g) { GroupIsTuned(s, n, g); }
    XorDrop(s[0], s[2], Kw4(s, n, 0));
    XorDrop(s[8 * n], s[8 * n - 1], Kw2(s, n, n - 1));
  }

  /** Key absorption preserves meaning: for every raw table, every number of
      groups and every block. */
  lemma AbsorptionIsSound(c: Mix, s: Table, n: nat, x: Block)
    requires IsTable(s, n)
    ensures FastEncrypt(c, Tail(s, n), n, x) == Encrypt(c, s, n, x)
  {
    TailIsTuned(s, n);
    TunedIsPlain(c, s, Tail(s, n), n, x);
  }

  /** So decryption on the absorbed table inverts the plain cipher. */
  lemma AbsorbedDecrypts(c: Mix, s: Table, n: nat, x: Block)
    requires IsTable(s, n)
    ensures FastDecrypt(c, Tail(s, n), n, Encrypt(c, s, n, x)) == x
  {
    AbsorptionIsSound(c, s, n, x);
    DecryptUndoes(c, Tail(s, n), n, x);
  }

  /** And the plain cipher inverts it. */
  lemma AbsorbedEncrypts(c: Mix, s: Table, n: nat, x: Block)
    requires IsTable(s, n)
    ensures Encrypt(c, s, n, FastDecrypt(c, Tail(s, n), n, x)) == x
  {
    AbsorptionIsSound(c, s, n, FastDecrypt(c, Tail(s, n), n, x));
    EncryptUndoes(c, Tail(s, n), n, x);
  }
}
