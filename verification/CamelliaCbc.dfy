/** Camellia under CBC: the two halves of the crypto directory together. */
module CamelliaCbc {
  import opened Camellia
  import opened CamelliaCipher
  import opened CamelliaSetup
  import opened CamelliaCode
  import opened CamelliaContext
  import Cbc

  /** The cipher and its inverse on blocks of 16 bytes; other lengths do not occur. */
  function Forward(t: Tables, key: Bytes): Bytes -> Bytes
    requires GoodKey(key)
  {
    (x: Bytes) => if |x| == 16 then EncryptBytes(t, key, x) else x
  }

  function Backward(t: Tables, key: Bytes): Bytes -> Bytes
    requires GoodKey(key)
  {
    (y: Bytes) =>
      if |y| == 16
      then var n := Groups(|key|); BlockBytes(FastDecrypt(MixOf(t), Tail(RawKeys(t, key), n), n, BlockAt(y, 0)))
      else y
  }

  lemma {:induction false} BackwardUndoesForward(t: Tables, key: Bytes, x: Bytes)
    requires GoodKey(key) && |x| == 16
    ensures Backward(t, key)(Forward(t, key)(x)) == x
  {
    hide Tail, FastDecrypt, Encrypt, RawKeys, BlockBytes, BlockAt;
    var n, s := Groups(|key|), RawKeys(t, key);
    BlockRoundTrip(Encrypt(MixOf(t), s, n, BlockAt(x, 0)));
    AbsorbedDecrypts(MixOf(t), s, n, BlockAt(x, 0));
    BytesRoundTrip(x);
  }

  lemma {:induction false} ForwardUndoesBackward(t: Tables, key: Bytes, y: Bytes)
    requires GoodKey(key) && |y| == 16
    ensures Forward(t, key)(Backward(t, key)(y)) == y
  {
    hide Tail, FastDecrypt, Encrypt, RawKeys, BlockBytes, BlockAt;
    var n, s := Groups(|key|), RawKeys(t, key);
    BlockRoundTrip(FastDecrypt(MixOf(t), Tail(s, n), n, BlockAt(y, 0)));
    AbsorbedEncrypts(MixOf(t), s, n, BlockAt(y, 0));
    BytesRoundTrip(y);
  }

  /** Any message of whole blocks survives: Camellia with absorbed keys, in CBC mode. */
  lemma {:induction false} CbcRoundTrip(t: Tables, key: Bytes, iv: Bytes, p: Bytes)
    requires GoodKey(key) && |iv| == 16 && |p| % 16 == 0
    ensures Cbc.OnBlocks(Forward(t, key), 16) && Cbc.OnBlocks(Backward(t, key), 16)
    ensures Cbc.Decrypted(Backward(t, key), 16, iv, Cbc.Encrypted(Forward(t, key), 16, iv, p)) == p
  {
    hide EncryptBytes, Tail, FastDecrypt, RawKeys;
    var enc, dec := Forward(t, key), Backward(t, key);
    forall x: Bytes | |x| == 16 ensures dec(enc(x)) == x {
      BackwardUndoesForward(t, key, x);
    }
    Cbc.DecryptUndoes(enc, dec, 16, iv, p);
  }
}
