/** The cipher as the crypto API sees it: byte keys, byte blocks, a context
    that set_key fills and encrypt and decrypt use. */
module CamelliaContext {
  import opened Camellia
  import opened CamelliaCipher
  import opened CamelliaSetup
  import opened CamelliaCode
  import opened CamelliaKeys

  type Bytes = seq<bv8>

  // ---------------------------------------------------------------- big-endian words

  function WordAt(s: Bytes, i: nat): bv32
    requires i + 4 <= |s|
  {
    Be32(s[i], s[i + 1], s[i + 2], s[i + 3])
  }

  function HalfAt(s: Bytes, i: nat): Half
    requires i + 8 <= |s|
  {
    Half(WordAt(s, i), WordAt(s, i + 4))
  }

  function BlockAt(s: Bytes, i: nat): Block
    requires i + 16 <= |s|
  {
    Block(HalfAt(s, i), HalfAt(s, i + 8))
  }

  function WordBytes(w: bv32): Bytes { [Byte3(w), Byte2(w), Byte1(w), Byte0(w)] }

  function BlockBytes(x: Block): (s: Bytes)
    ensures |s| == 16
  {
    WordBytes(x.a.l) + WordBytes(x.a.r) + WordBytes(x.b.l) + WordBytes(x.b.r)
  }

  lemma ComplementWord(a: bv8, b: bv8, c: bv8, d: bv8)
    ensures Be32(!a, !b, !c, !d) == !Be32(a, b, c, d)
  {
  }

  lemma BlockRoundTrip(x: Block)
    ensures BlockAt(BlockBytes(x), 0) == x
  {
  }

  lemma BytesRoundTrip(s: Bytes)
    requires |s| == 16
    ensures BlockBytes(BlockAt(s, 0)) == s
  {
  }

  // ---------------------------------------------------------------- the cipher of RFC 3713 on bytes

  predicate GoodKey(key: Bytes) { |key| == 16 || |key| == 24 || |key| == 32 }

  /** Groups of six rounds. */
  function Groups(len: int): nat { if len == 16 then 3 else 4 }

  /** The right half of the key: absent, completed by its complement, or given. */
  function KeyRight(key: Bytes): Block
    requires |key| == 24 || |key| == 32
  {
    if |key| == 32 then BlockAt(key, 16)
    else Block(HalfAt(key, 16), Half(!WordAt(key, 16), !WordAt(key, 20)))
  }

  function RawKeys(t: Tables, key: Bytes): (s: Table)
    requires GoodKey(key)
    ensures IsTable(s, Groups(|key|))
  {
    if |key| == 16 then RawKeys128(MixOf(t), BlockAt(key, 0))
    else RawKeys256(MixOf(t), BlockAt(key, 0), KeyRight(key))
  }

  function EncryptBytes(t: Tables, key: Bytes, x: Bytes): (y: Bytes)
    requires GoodKey(key) && |x| == 16
    ensures |y| == 16
  {
    BlockBytes(Encrypt(MixOf(t), RawKeys(t, key), Groups(|key|), BlockAt(x, 0)))
  }

  // ---------------------------------------------------------------- the context

  method LoadBlock(src: array<bv8>) returns (io: array<bv32>)
    requires src.Length == 16
    ensures fresh(io) && io.Length == 4 && BlockOf(io[..]) == BlockAt(src[..], 0)
  {
    hide Be32;
    io := new bv32[] [WordAt(src[..], 0), WordAt(src[..], 4), WordAt(src[..], 8), WordAt(src[..], 12)];
  }

  /** The caller's half of the work: the two halves change places. */
  method StoreSwapped(io: array<bv32>, dst: array<bv8>)
    requires io.Length == 4 && dst.Length == 16
    modifies dst
    ensures dst[..] == BlockBytes(Swap(BlockOf(io[..])))
  {
    hide Byte0, Byte1, Byte2, Byte3;
    var s := BlockBytes(Swap(BlockOf(io[..])));
    forall i | 0 <= i < 16 { dst[i] := s[i]; }
  }

  class Context {
    var keyLength: int
    const keyTable: array<Half>

    constructor ()
      ensures keyTable.Length == 34 && fresh(keyTable)
    {
      keyLength := 0;
      keyTable := new Half[34];
    }

    ghost predicate KeyedWith(t: Tables, key: Bytes)
      reads this, keyTable
    {
      && GoodKey(key) && keyLength == |key| && keyTable.Length == 34
      && Tuned(RawKeys(t, key), keyTable[..8 * Groups(|key|) + 2], Groups(|key|))
    }

    /** camellia_set_key: refused lengths leave the context alone. */
    method SetKey(t: Tables, key: Bytes) returns (ok: bool)
      requires keyTable.Length == 34
      modifies this, keyTable
      ensures ok == GoodKey(key)
      ensures ok ==> KeyedWith(t, key)
      ensures !ok ==> keyLength == old(keyLength) && keyTable[..] == old(keyTable[..])
    {
      hide Tuned, RawKeys128, RawKeys256, Be32;
      if |key| != 16 && |key| != 24 && |key| != 32 {
        return false;
      }
      keyLength := |key|;
      match |key| {
        case 16 =>
          Setup128(t, BlockAt(key, 0), keyTable);
        case 24 =>
          Setup192(t, key);
        case _ =>
          Setup256(t, BlockAt(key, 0), BlockAt(key, 16), keyTable);
      }
      ok := true;
    }

    /** camellia_setup192: a 32-byte key whose last eight bytes are the
        complement of the eight before them. */
    method Setup192(t: Tables, key: Bytes)
      requires |key| == 24 && keyTable.Length == 34
      modifies keyTable
      ensures Tuned(RawKeys256(MixOf(t), BlockAt(key, 0), KeyRight(key)), keyTable[..34], 4)
    {
      hide Tuned, RawKeys256, Be32;
      var kk := key + [!key[16], !key[17], !key[18], !key[19], !key[20], !key[21], !key[22], !key[23]];
      ComplementWord(key[16], key[17], key[18], key[19]);
      ComplementWord(key[20], key[21], key[22], key[23]);
      Setup256(t, BlockAt(kk, 0), BlockAt(kk, 16), keyTable);
    }

    /** camellia_encrypt: the cipher of RFC 3713, also when dst is src. */
    method EncryptInto(t: Tables, ghost key: Bytes, dst: array<bv8>, src: array<bv8>)
      requires KeyedWith(t, key) && src.Length == 16 && dst.Length == 16
      modifies dst
      ensures dst[..] == EncryptBytes(t, key, old(src[..]))
    {
      hide Tuned, Be32, Encrypt, DoEncrypt, RawKeys, BlockBytes;
      var n := if keyLength == 16 then 3 else 4;
      var k := keyTable[..8 * n + 2];
      assert Tuned(RawKeys(t, key), k, n);
      var io := LoadBlock(src);
      TunedIsPlain(MixOf(t), RawKeys(t, key), k, n, BlockOf(io[..]));
      EncryptBlock(t, k, io, n);
      StoreSwapped(io, dst);
    }

    /** camellia_decrypt: the one block that camellia_encrypt takes to src. */
    method DecryptInto(t: Tables, ghost key: Bytes, dst: array<bv8>, src: array<bv8>)
      requires KeyedWith(t, key) && src.Length == 16 && dst.Length == 16
      modifies dst
      ensures EncryptBytes(t, key, dst[..]) == old(src[..])
      ensures forall x :: |x| == 16 && EncryptBytes(t, key, x) == old(src[..]) ==> dst[..] == x
    {
      hide Tuned, Be32, Encrypt, DoEncrypt, DoDecrypt, RawKeys, BlockBytes;
      var n := if keyLength == 16 then 3 else 4;
      var k := keyTable[..8 * n + 2];
      assert Tuned(RawKeys(t, key), k, n);
      var io := LoadBlock(src);
      ghost var y := BlockOf(io[..]);
      DecryptBlock(t, k, io, n);
      StoreSwapped(io, dst);
      BlockRoundTrip(Swap(BlockOf(io[..])));
      TunedIsPlain(MixOf(t), RawKeys(t, key), k, n, FastDecrypt(MixOf(t), k, n, y));
      EncryptUndoes(MixOf(t), k, n, y);
      BytesRoundTrip(old(src[..]));
      forall x | |x| == 16 && EncryptBytes(t, key, x) == old(src[..]) ensures dst[..] == x {
        BlockRoundTrip(Encrypt(MixOf(t), RawKeys(t, key), n, BlockAt(x, 0)));
        TunedIsPlain(MixOf(t), RawKeys(t, key), k, n, BlockAt(x, 0));
        DecryptUndoes(MixOf(t), k, n, BlockAt(x, 0));
        BytesRoundTrip(x);
      }
    }
  }
}
