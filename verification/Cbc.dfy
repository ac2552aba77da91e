/**
 CBC mode (crypto/cbc.c), section 6.2 of NIST SP 800-38A: the two-buffer and
 the in-place loops, against one recursive definition.

 The block cipher is a pair of functions on blocks of bs bytes.
 */
module Cbc {
  import opened Camellia

  type Bytes = seq<bv8>

  function Xor8(a: bv8, b: bv8): bv8 { a ^ b }

  function XorBytes(a: Bytes, b: Bytes): (r: Bytes)
    requires |a| == |b|
    ensures |r| == |a| && forall i :: 0 <= i < |r| ==> r[i] == Xor8(a[i], b[i])
  {
    seq(|a|, i requires 0 <= i < |a| => Xor8(a[i], b[i]))
  }

  lemma {:induction false} XorBytesUndoes(a: Bytes, b: Bytes)
    requires |a| == |b|
    ensures XorBytes(XorBytes(a, b), a) == b && XorBytes(XorBytes(b, a), a) == b && XorBytes(a, b) == XorBytes(b, a)
  {
  }

  // ---------------------------------------------------------------- the mode

  /** A function on blocks of bs bytes. */
  ghost predicate OnBlocks(f: Bytes -> Bytes, bs: nat) { bs > 0 && forall x :: |x| == bs ==> |f(x)| == bs }

  function Encrypted(enc: Bytes -> Bytes, bs: nat, iv: Bytes, p: Bytes): (c: Bytes)
    requires OnBlocks(enc, bs) && |iv| == bs && |p| % bs == 0
    ensures |c| == |p|
    decreases |p|
  {
    if |p| < bs then []
    else
      Whole(|p|, bs);
      var c := enc(XorBytes(iv, p[..bs]));
      c + Encrypted(enc, bs, c, p[bs..])
  }

  function Decrypted(dec: Bytes -> Bytes, bs: nat, iv: Bytes, c: Bytes): (p: Bytes)
    requires OnBlocks(dec, bs) && |iv| == bs && |c| % bs == 0
    ensures |p| == |c|
    decreases |c|
  {
    if |c| < bs then []
    else
      Whole(|c|, bs);
      XorBytes(dec(c[..bs]), iv) + Decrypted(dec, bs, c[..bs], c[bs..])
  }

  /** The vector for what follows: the last ciphertext block. */
  function NextIv(iv: Bytes, c: Bytes): (r: Bytes)
    ensures |r| == |iv|
  {
    if |c| < |iv| then iv else c[|c| - |iv|..]
  }

  lemma {:induction false} Whole(n: nat, bs: nat)
    requires bs > 0 && n % bs == 0 && n >= bs
    ensures (n - bs) % bs == 0
  {
    ModAdd(n - bs, bs);
  }

  lemma {:induction false} ModAdd(n: nat, bs: nat)
    requires bs > 0
    ensures (n + bs) % bs == n % bs
  {
    var q, r := n / bs, n % bs;
    assert n + bs == (q + 1) * bs + r;
    ModIs(n + bs, bs, q + 1, r);
  }

  lemma {:induction false} ModIs(n: nat, bs: nat, q: nat, r: nat)
    requires bs > 0 && n == q * bs + r && r < bs
    ensures n % bs == r
  {
    var d := n / bs - q;
    assert n == (n / bs) * bs + n % bs;
    assert d * bs == (n / bs) * bs - q * bs;
    assert d * bs == r - n % bs;
    MulGap(d, bs);
  }

  lemma {:induction false} MulGap(d: int, bs: nat)
    requires 0 < d * bs + bs && d * bs < bs
    ensures d == 0
  {
  }

  lemma {:induction false} ModSum(m: nat, n: nat, bs: nat)
    requires bs > 0 && m % bs == 0 && n % bs == 0
    ensures (m + n) % bs == 0
    decreases m
  {
    if m >= bs {
      Whole(m, bs);
      ModSum(m - bs, n, bs);
      ModAdd(m - bs + n, bs);
    } else {
      ModIs(m, bs, 0, m);
    }
  }

  /** Less than a block, but a multiple of one, is nothing. */
  lemma {:induction false} ShortIsNone(n: nat, bs: nat)
    requires bs > 0 && n % bs == 0 && n < bs
    ensures n == 0
  {
  }

  // ---------------------------------------------------------------- laws

  /** The vector after one block and more. */
  lemma {:induction false} NextIvStep(iv: Bytes, c: Bytes, rest: Bytes)
    requires |iv| == |c| > 0 && |rest| % |c| == 0
    ensures NextIv(iv, c + rest) == NextIv(c, rest)
  {
    if |rest| < |c| {
      ShortIsNone(|rest|, |c|);
    }
  }

  /** Encryption in two chunks with the vector carried over is encryption in one. */
  lemma {:induction false} EncryptSplit(enc: Bytes -> Bytes, bs: nat, iv: Bytes, p: Bytes, q: Bytes)
    requires OnBlocks(enc, bs) && |iv| == bs && |p| % bs == 0 && |q| % bs == 0
    ensures |p + q| % bs == 0
    ensures var a := Encrypted(enc, bs, iv, p);
            Encrypted(enc, bs, iv, p + q) == a + Encrypted(enc, bs, NextIv(iv, a), q)
    decreases |p|
  {
    hide XorBytes;
    ModSum(|p|, |q|, bs);
    if |p| < bs {
      ShortIsNone(|p|, bs);
      assert p + q == q;
    } else {
      Whole(|p|, bs);
      var c := enc(XorBytes(iv, p[..bs]));
      EncryptSplit(enc, bs, c, p[bs..], q);
      assert (p + q)[..bs] == p[..bs] && (p + q)[bs..] == p[bs..] + q;
      var r := Encrypted(enc, bs, c, p[bs..]);
      NextIvStep(iv, c, r);
      assert c + (r + Encrypted(enc, bs, NextIv(c, r), q)) == c + r + Encrypted(enc, bs, NextIv(c, r), q);
    }
  }

  lemma {:induction false} DecryptSplit(dec: Bytes -> Bytes, bs: nat, iv: Bytes, c: Bytes, d: Bytes)
    requires OnBlocks(dec, bs) && |iv| == bs && |c| % bs == 0 && |d| % bs == 0
    ensures |c + d| % bs == 0
    ensures Decrypted(dec, bs, iv, c + d) == Decrypted(dec, bs, iv, c) + Decrypted(dec, bs, NextIv(iv, c), d)
    decreases |c|
  {
    ModSum(|c|, |d|, bs);
    if |c| < bs {
      ShortIsNone(|c|, bs);
      assert c + d == d;
    } else {
      Whole(|c|, bs);
      DecryptSplit(dec, bs, c[..bs], c[bs..], d);
      assert (c + d)[..bs] == c[..bs] && (c + d)[bs..] == c[bs..] + d;
      NextIvStep(iv, c[..bs], c[bs..]);
      assert c[..bs] + c[bs..] == c;
      var x, r := XorBytes(dec(c[..bs]), iv), Decrypted(dec, bs, c[..bs], c[bs..]);
      assert x + (r + Decrypted(dec, bs, NextIv(iv, c), d)) == x + r + Decrypted(dec, bs, NextIv(iv, c), d);
    }
  }

  /** dec undoes enc on blocks. */
  ghost predicate Inverse(enc: Bytes -> Bytes, dec: Bytes -> Bytes, bs: nat) {
    OnBlocks(enc, bs) && OnBlocks(dec, bs) && forall x :: |x| == bs ==> dec(enc(x)) == x
  }

  lemma {:induction false} UnfoldDecrypted(dec: Bytes -> Bytes, bs: nat, iv: Bytes, x: Bytes, rest: Bytes)
    requires OnBlocks(dec, bs) && |iv| == |x| == bs && |rest| % bs == 0
    ensures |x + rest| % bs == 0
            && Decrypted(dec, bs, iv, x + rest) == XorBytes(dec(x), iv) + Decrypted(dec, bs, x, rest)
  {
    ModIs(bs, bs, 1, 0);
    ModSum(bs, |rest|, bs);
    assert (x + rest)[..bs] == x && (x + rest)[bs..] == rest;
  }

  /** Decryption undoes encryption, for any invertible block cipher. */
  lemma {:induction false} DecryptUndoes(enc: Bytes -> Bytes, dec: Bytes -> Bytes, bs: nat, iv: Bytes, p: Bytes)
    requires Inverse(enc, dec, bs) && |iv| == bs && |p| % bs == 0
    ensures Decrypted(dec, bs, iv, Encrypted(enc, bs, iv, p)) == p
    decreases |p|
  {
    if |p| < bs {
      ShortIsNone(|p|, bs);
    } else {
      Whole(|p|, bs);
      var c := enc(XorBytes(iv, p[..bs]));
      var e := Encrypted(enc, bs, c, p[bs..]);
      DecryptUndoes(enc, dec, bs, c, p[bs..]);
      UnfoldDecrypted(dec, bs, iv, c, e);
      XorBytesUndoes(iv, p[..bs]);
      assert p[..bs] + p[bs..] == p;
    }
  }

  function Concat(chunks: seq<Bytes>): Bytes { if chunks == [] then [] else chunks[0] + Concat(chunks[1..]) }

  /** The walk: chunk after chunk, the vector carried over. */
  function EncryptedChunks(enc: Bytes -> Bytes, bs: nat, iv: Bytes, chunks: seq<Bytes>): Bytes
    requires OnBlocks(enc, bs) && |iv| == bs && forall c :: c in chunks ==> |c| % bs == 0
    decreases |chunks|
  {
    if chunks == [] then []
    else
      assert chunks[0] in chunks && forall c :: c in chunks[1..] ==> c in chunks;
      var a := Encrypted(enc, bs, iv, chunks[0]);
      a + EncryptedChunks(enc, bs, NextIv(iv, a), chunks[1..])
  }

  /** However the data is cut into whole blocks, the result is that of one pass. */
  lemma {:induction false} ChunksDoNotMatter(enc: Bytes -> Bytes, bs: nat, iv: Bytes, chunks: seq<Bytes>)
    requires OnBlocks(enc, bs) && |iv| == bs && forall c :: c in chunks ==> |c| % bs == 0
    ensures |Concat(chunks)| % bs == 0 && EncryptedChunks(enc, bs, iv, chunks) == Encrypted(enc, bs, iv, Concat(chunks))
    decreases |chunks|
  {
    if chunks == [] {
      ModIs(0, bs, 0, 0);
    } else {
      assert chunks[0] in chunks && forall c :: c in chunks[1..] ==> c in chunks;
      ChunksDoNotMatter(enc, bs, NextIv(iv, Encrypted(enc, bs, iv, chunks[0])), chunks[1..]);
      EncryptSplit(enc, bs, iv, chunks[0], Concat(chunks[1..]));
    }
  }

  function DecryptedChunks(dec: Bytes -> Bytes, bs: nat, iv: Bytes, chunks: seq<Bytes>): Bytes
    requires OnBlocks(dec, bs) && |iv| == bs && forall c :: c in chunks ==> |c| % bs == 0
    decreases |chunks|
  {
    if chunks == [] then []
    else
      assert chunks[0] in chunks && forall c :: c in chunks[1..] ==> c in chunks;
      Decrypted(dec, bs, iv, chunks[0]) + DecryptedChunks(dec, bs, NextIv(iv, chunks[0]), chunks[1..])
  }

  lemma {:induction false} DecryptedChunksAgree(dec: Bytes -> Bytes, bs: nat, iv: Bytes, chunks: seq<Bytes>)
    requires OnBlocks(dec, bs) && |iv| == bs && forall c :: c in chunks ==> |c| % bs == 0
    ensures |Concat(chunks)| % bs == 0 && DecryptedChunks(dec, bs, iv, chunks) == Decrypted(dec, bs, iv, Concat(chunks))
    decreases |chunks|
  {
    if chunks == [] {
      ModIs(0, bs, 0, 0);
    } else {
      assert chunks[0] in chunks && forall c :: c in chunks[1..] ==> c in chunks;
      DecryptedChunksAgree(dec, bs, NextIv(iv, chunks[0]), chunks[1..]);
      DecryptSplit(dec, bs, iv, chunks[0], Concat(chunks[1..]));
    }
  }

  /** What was encrypted in one set of chunks may be decrypted in another. */
  lemma {:induction false} ChunkedRoundTrip(enc: Bytes -> Bytes, dec: Bytes -> Bytes, bs: nat, iv: Bytes,
                                            ps: seq<Bytes>, cs: seq<Bytes>)
    requires Inverse(enc, dec, bs) && |iv| == bs && (forall p :: p in ps ==> |p| % bs == 0)
             && forall c :: c in cs ==> |c| % bs == 0
    requires Concat(cs) == EncryptedChunks(enc, bs, iv, ps)
    ensures DecryptedChunks(dec, bs, iv, cs) == Concat(ps)
  {
    ChunksDoNotMatter(enc, bs, iv, ps);
    DecryptedChunksAgree(dec, bs, iv, cs);
    DecryptUndoes(enc, dec, bs, iv, Concat(ps));
  }
}
