/** The loops of crypto/cbc.c and the word-wise crypto_xor of crypto/algapi.c on buffers. */
module CbcCode {
  import opened Camellia
  import opened Cbc

  // ---------------------------------------------------------------- crypto_xor

  lemma {:induction false} WordXor(a: bv8, b: bv8, c: bv8, d: bv8, e: bv8, f: bv8, g: bv8, h: bv8)
    ensures var w := Add(Be32(a, b, c, d), Be32(e, f, g, h));
            Byte3(w) == Xor8(a, e) && Byte2(w) == Xor8(b, f) && Byte1(w) == Xor8(c, g) && Byte0(w) == Xor8(d, h)
  {
  }

  /** The buffer with its bytes from i on replaced by x. */
  function Patched(a: Bytes, i: nat, x: Bytes): (r: Bytes)
    requires i + |x| <= |a|
    ensures |r| == |a|
  {
    a[..i] + x + a[i + |x|..]
  }

  lemma {:induction false} PatchedAt(a: Bytes, i: nat, x: Bytes, r: Bytes)
    requires i + |x| <= |a| == |r|
    requires forall k :: 0 <= k < |a| ==> r[k] == if i <= k < i + |x| then x[k - i] else a[k]
    ensures r == Patched(a, i, x)
  {
  }

  /** Regions that do not meet. */
  predicate Apart(a: array<bv8>, ai: nat, b: array<bv8>, bi: nat, n: nat) { a != b || ai + n <= bi || bi + n <= ai }

  /** Four bytes at once. */
  method XorWord(a: array<bv8>, i: nat, b: array<bv8>, j: nat)
    requires i + 4 <= a.Length && j + 4 <= b.Length && Apart(a, i, b, j, 4)
    modifies a
    ensures forall k :: 0 <= k < a.Length ==> a[k] == if i <= k < i + 4 then Xor8(old(a[k]), old(b[j + (k - i)]))
                                                      else old(a[k])
  {
    hide Be32, Byte0, Byte1, Byte2, Byte3, Xor8, Add;
    WordXor(a[i], a[i + 1], a[i + 2], a[i + 3], b[j], b[j + 1], b[j + 2], b[j + 3]);
    var w := Add(Be32(a[i], a[i + 1], a[i + 2], a[i + 3]), Be32(b[j], b[j + 1], b[j + 2], b[j + 3]));
    a[i], a[i + 1], a[i + 2], a[i + 3] := Byte3(w), Byte2(w), Byte1(w), Byte0(w);
  }

  /** crypto_xor: words first, the rest byte by byte. */
  method CryptoXor(a: array<bv8>, ai: nat, b: array<bv8>, bi: nat, size: nat)
    requires ai + size <= a.Length && bi + size <= b.Length && Apart(a, ai, b, bi, size)
    modifies a
    ensures a[..] == Patched(old(a[..]), ai, XorBytes(old(a[ai..ai + size]), old(b[bi..bi + size])))
  {
    hide Xor8, Be32, Add, Byte0, Byte1, Byte2, Byte3;
    var i := 0;
    while size - i >= 4
      invariant i <= size
      invariant forall k :: 0 <= k < a.Length ==>
                  a[k] == if ai <= k < ai + i then Xor8(old(a[k]), old(b[bi + (k - ai)])) else old(a[k])
    {
      XorWord(a, ai + i, b, bi + i);
      i := i + 4;
    }
    while i < size
      invariant i <= size
      invariant forall k :: 0 <= k < a.Length ==>
                  a[k] == if ai <= k < ai + i then Xor8(old(a[k]), old(b[bi + (k - ai)])) else old(a[k])
    {
      a[ai + i] := Xor8(a[ai + i], b[bi + i]);
      i := i + 1;
    }
    PatchedAt(old(a[..]), ai, XorBytes(old(a[ai..ai + size]), old(b[bi..bi + size])), a[..]);
  }

  /** A block function called on buffers, in place or not. */
  method CallBlock(f: Bytes -> Bytes, bs: nat, dst: array<bv8>, di: nat, src: array<bv8>, si: nat)
    requires OnBlocks(f, bs) && di + bs <= dst.Length && si + bs <= src.Length
    modifies dst
    ensures dst[..] == Patched(old(dst[..]), di, f(old(src[si..si + bs])))
  {
    var x := f(src[si..si + bs]);
    forall k | 0 <= k < bs { dst[di + k] := x[k]; }
    PatchedAt(old(dst[..]), di, x, dst[..]);
  }

  /** memcpy of one block. */
  method CopyBlock(bs: nat, dst: array<bv8>, di: nat, src: array<bv8>, si: nat)
    requires di + bs <= dst.Length && si + bs <= src.Length
    modifies dst
    ensures dst[..] == Patched(old(dst[..]), di, old(src[si..si + bs]))
  {
    var x := src[si..si + bs];
    forall k | 0 <= k < bs { dst[di + k] := x[k]; }
    PatchedAt(old(dst[..]), di, x, dst[..]);
  }

  // ---------------------------------------------------------------- one more block

  lemma {:induction false} BlockIsWhole(bs: nat)
    requires bs > 0
    ensures bs % bs == 0 && 0 % bs == 0
  {
  }

  lemma {:induction false} EncryptOne(enc: Bytes -> Bytes, bs: nat, iv: Bytes, x: Bytes)
    requires OnBlocks(enc, bs) && |iv| == |x| == bs
    ensures |x| % bs == 0 && Encrypted(enc, bs, iv, x) == enc(XorBytes(iv, x))
  {
    BlockIsWhole(bs);
    assert x[..bs] == x && x[bs..] == [];
  }

  /** The ciphertext of one more block, and the vector after it. */
  lemma {:induction false} EncryptMore(enc: Bytes -> Bytes, bs: nat, iv: Bytes, p: Bytes, x: Bytes)
    requires OnBlocks(enc, bs) && |iv| == |x| == bs && |p| % bs == 0
    ensures |p + x| % bs == 0
    ensures var c := Encrypted(enc, bs, iv, p);
            var y := enc(XorBytes(NextIv(iv, c), x));
            Encrypted(enc, bs, iv, p + x) == c + y && NextIv(iv, c + y) == y
  {
    var c := Encrypted(enc, bs, iv, p);
    EncryptOne(enc, bs, NextIv(iv, c), x);
    EncryptSplit(enc, bs, iv, p, x);
  }

  lemma {:induction false} DecryptOne(dec: Bytes -> Bytes, bs: nat, iv: Bytes, x: Bytes)
    requires OnBlocks(dec, bs) && |iv| == |x| == bs
    ensures |x| % bs == 0 && Decrypted(dec, bs, iv, x) == XorBytes(dec(x), iv)
  {
    BlockIsWhole(bs);
    assert x[..bs] == x && x[bs..] == [];
  }

  lemma {:induction false} DecryptMore(dec: Bytes -> Bytes, bs: nat, iv: Bytes, c: Bytes, x: Bytes)
    requires OnBlocks(dec, bs) && |iv| == |x| == bs && |c| % bs == 0
    ensures |c + x| % bs == 0
    ensures Decrypted(dec, bs, iv, c + x) == Decrypted(dec, bs, iv, c) + XorBytes(dec(x), NextIv(iv, c))
            && NextIv(iv, c + x) == x
  {
    DecryptOne(dec, bs, NextIv(iv, c), x);
    DecryptSplit(dec, bs, iv, c, x);
  }

  lemma {:induction false} PatchedSlices(a: Bytes, i: nat, x: Bytes)
    requires i + |x| <= |a|
    ensures var r := Patched(a, i, x);
            r[..i] == a[..i] && r[i..i + |x|] == x && r[..i + |x|] == a[..i] + x && r[i + |x|..] == a[i + |x|..]
            && r[i..] == x + a[i + |x|..]
  {
  }

  lemma {:induction false} PatchedAll(a: Bytes, x: Bytes)
    requires |x| == |a|
    ensures Patched(a, 0, x) == x
  {
  }

  lemma {:induction false} Slices(a: Bytes, i: nat, n: nat)
    requires i + n <= |a|
    ensures a[..i] + a[i..i + n] == a[..i + n] && a[i..][n..] == a[i + n..] && |a[i..i + n]| == n
  {
  }

  // ---------------------------------------------------------------- the loops

  /** How far a loop over whole blocks has come. */
  predicate AtBlock(i: nat, n: nat, bs: nat) { bs > 0 && i <= n && i % bs == 0 }

  lemma {:induction false} NextBlock(i: nat, n: nat, bs: nat)
    requires AtBlock(i, n, bs) && n - i >= bs
    ensures AtBlock(i + bs, n, bs)
  {
    ModAdd(i, bs);
  }

  /** What an encrypting loop has produced: i bytes of ciphertext, its vector,
      and the rest as it was. */
  ghost predicate EncryptedTo(enc: Bytes -> Bytes, bs: nat, iv0: Bytes, p: Bytes, out: Bytes, rest: Bytes, iv: Bytes,
                              i: nat) {
    && OnBlocks(enc, bs) && |iv0| == bs && i <= |p| && i <= |out| && i % bs == 0
    && out[..i] == Encrypted(enc, bs, iv0, p[..i]) && iv == NextIv(iv0, out[..i]) && out[i..] == rest
  }

  lemma {:induction false} EncryptStart(enc: Bytes -> Bytes, bs: nat, iv0: Bytes, p: Bytes, out: Bytes)
    requires OnBlocks(enc, bs) && |iv0| == bs
    ensures EncryptedTo(enc, bs, iv0, p, out, out, iv0, 0)
  {
  }

  lemma {:induction false} EncryptStep(enc: Bytes -> Bytes, bs: nat, iv0: Bytes, p: Bytes, out: Bytes, rest: Bytes,
                                       iv: Bytes, i: nat)
    requires EncryptedTo(enc, bs, iv0, p, out, rest, iv, i) && i + bs <= |p| && i + bs <= |out|
    ensures |iv| == bs && |rest| >= bs
    ensures var y := enc(XorBytes(iv, p[i..i + bs]));
            EncryptedTo(enc, bs, iv0, p, Patched(out, i, y), rest[bs..], y, i + bs)
  {
    hide Encrypted, OnBlocks, NextIv, Patched;
    var x := p[i..i + bs];
    EncryptMore(enc, bs, iv0, p[..i], x);
    var y := Grow(enc, iv, x);
    Slices(p, i, bs);
    BlockLength(enc, bs, XorBytes(iv, x));
    PatchedSlices(out, i, y);
    Slices(out, i, bs);
  }

  function Grow(enc: Bytes -> Bytes, iv: Bytes, x: Bytes): Bytes
    requires |iv| == |x|
  {
    enc(XorBytes(iv, x))
  }

  lemma {:induction false} BlockLength(f: Bytes -> Bytes, bs: nat, x: Bytes)
    requires OnBlocks(f, bs) && |x| == bs
    ensures |f(x)| == bs
  {
  }

  /** The body of the two-buffer loop. */
  method EncryptOut(enc: Bytes -> Bytes, bs: nat, src: array<bv8>, dst: array<bv8>, iv: array<bv8>, i: nat)
    requires OnBlocks(enc, bs) && i + bs <= src.Length && i + bs <= dst.Length && iv.Length == bs && src != dst
             && iv != src && iv != dst
    modifies dst, iv
    ensures var y := enc(XorBytes(old(iv[..]), src[i..i + bs]));
            |y| == bs && dst[..] == Patched(old(dst[..]), i, y) && iv[..] == y
  {
    hide OnBlocks, Patched;
    ghost var x := XorBytes(iv[..], src[i..i + bs]);
    assert iv[0..bs] == iv[..];
    CryptoXor(iv, 0, src, i, bs);
    PatchedAll(old(iv[..]), x);
    assert iv[0..bs] == iv[..];
    BlockLength(enc, bs, x);
    CallBlock(enc, bs, dst, i, iv, 0);
    PatchedSlices(old(dst[..]), i, enc(x));
    assert dst[i..i + bs] == dst[..][i..i + bs];
    CopyBlock(bs, iv, 0, dst, i);
    PatchedAll(x, enc(x));
  }

  /** crypto_cbc_encrypt_segment. */
  method EncryptSegment(enc: Bytes -> Bytes, bs: nat, src: array<bv8>, dst: array<bv8>, iv: array<bv8>,
                        n: nat) returns (left: nat)
    requires OnBlocks(enc, bs) && bs <= n <= src.Length && n <= dst.Length && iv.Length == bs && src != dst
             && iv != src && iv != dst
    modifies dst, iv
    ensures left < bs && left <= n && (n - left) % bs == 0
    ensures EncryptedTo(enc, bs, old(iv[..]), src[..], dst[..], old(dst[n - left..]), iv[..], n - left)
  {
    hide EncryptedTo, Patched;
    ghost var iv0, d := iv[..], dst[..];
    BlockIsWhole(bs);
    EncryptStart(enc, bs, iv0, src[..], d);
    assert d[0..] == d;
    var i := 0;
    while n - i >= bs
      invariant AtBlock(i, n, bs) && EncryptedTo(enc, bs, iv0, src[..], dst[..], d[i..], iv[..], i)
    {
      NextBlock(i, n, bs);
      EncryptStep(enc, bs, iv0, src[..], dst[..], d[i..], iv[..], i);
      Slices(d, i, bs);
      assert src[..][i..i + bs] == src[i..i + bs];
      EncryptOut(enc, bs, src, dst, iv, i);
      i := i + bs;
    }
    left := n - i;
  }

  /** The body of the in-place loop, with the vector at v[vi..]: the caller's
      buffer for the first block, the block before it afterwards. */
  method EncryptHere(enc: Bytes -> Bytes, bs: nat, src: array<bv8>, i: nat, v: array<bv8>, vi: nat)
    requires OnBlocks(enc, bs) && i + bs <= src.Length && vi + bs <= v.Length && Apart(src, i, v, vi, bs)
    modifies src
    ensures var y := enc(XorBytes(old(src[i..i + bs]), old(v[vi..vi + bs])));
            |y| == bs && src[..] == Patched(old(src[..]), i, y)
  {
    hide OnBlocks;
    ghost var x := XorBytes(src[i..i + bs], v[vi..vi + bs]);
    CryptoXor(src, i, v, vi, bs);
    ghost var m := src[..];
    PatchedSlices(old(src[..]), i, x);
    assert src[i..i + bs] == m[i..i + bs];
    BlockLength(enc, bs, x);
    CallBlock(enc, bs, src, i, src, i);
    assert Patched(m, i, enc(x)) == Patched(old(src[..]), i, enc(x));
  }

  /** What is left of the plaintext is still in place, and the vector is the
      last ciphertext block. */
  lemma {:induction false} InPlaceFacts(enc: Bytes -> Bytes, bs: nat, iv0: Bytes, p: Bytes, out: Bytes, iv: Bytes,
                                        i: nat)
    requires i + bs <= |p| == |out| && EncryptedTo(enc, bs, iv0, p, out, p[i..], iv, i)
    ensures out[i..i + bs] == p[i..i + bs] && |iv| == bs && XorBytes(out[i..i + bs], iv) == XorBytes(iv, p[i..i + bs])
  {
  }

  /** crypto_cbc_encrypt_inplace: the same bytes and the same vector as with two buffers. */
  method EncryptInPlace(enc: Bytes -> Bytes, bs: nat, src: array<bv8>, iv: array<bv8>, n: nat) returns (left: nat)
    requires OnBlocks(enc, bs) && bs <= n <= src.Length && iv.Length == bs && iv != src
    modifies src, iv
    ensures left < bs && left <= n && (n - left) % bs == 0
    ensures EncryptedTo(enc, bs, old(iv[..]), old(src[..]), src[..], old(src[n - left..]), iv[..], n - left)
  {
    hide EncryptedTo, Patched, XorBytes;
    ghost var iv0, p, c := iv[..], src[..], iv[..];
    BlockIsWhole(bs);
    EncryptStart(enc, bs, iv0, p, p);
    assert p[0..] == p;
    var i, v, vi := 0, iv, 0;
    assert iv[0..bs] == iv[..];
    while n - i >= bs
      invariant AtBlock(i, n, bs) && EncryptedTo(enc, bs, iv0, p, src[..], p[i..], c, i) && iv[..] == iv0
      invariant vi + bs <= v.Length && v[vi..vi + bs] == c
                && (if i == 0 then v == iv && vi == 0 else v == src && vi + bs == i)
    {
      NextBlock(i, n, bs);
      InPlaceFacts(enc, bs, iv0, p, src[..], c, i);
      EncryptStep(enc, bs, iv0, p, src[..], p[i..], c, i);
      Slices(p, i, bs);
      assert src[i..i + bs] == src[..][i..i + bs];
      ghost var s := src[..];
      EncryptHere(enc, bs, src, i, v, vi);
      c := enc(XorBytes(c, p[i..i + bs]));
      PatchedSlices(s, i, c);
      v, vi := src, i;
      assert src[i..i + bs] == src[..][i..i + bs];
      i := i + bs;
    }
    CopyBlock(bs, iv, 0, v, vi);
    PatchedAll(iv0, c);
    left := n - i;
  }

  // ---------------------------------------------------------------- decryption

  /** What the decrypting loop has produced. */
  ghost predicate DecryptedTo(dec: Bytes -> Bytes, bs: nat, iv0: Bytes, c: Bytes, out: Bytes, rest: Bytes, i: nat) {
    && OnBlocks(dec, bs) && |iv0| == bs && i <= |c| && i <= |out| && i % bs == 0
    && out[..i] == Decrypted(dec, bs, iv0, c[..i]) && out[i..] == rest
  }

  lemma {:induction false} DecryptStart(dec: Bytes -> Bytes, bs: nat, iv0: Bytes, c: Bytes, out: Bytes)
    requires OnBlocks(dec, bs) && |iv0| == bs
    ensures DecryptedTo(dec, bs, iv0, c, out, out, 0)
  {
  }

  lemma {:induction false} DecryptStep(dec: Bytes -> Bytes, bs: nat, iv0: Bytes, c: Bytes, out: Bytes, rest: Bytes,
                                       i: nat)
    requires DecryptedTo(dec, bs, iv0, c, out, rest, i) && i + bs <= |c| && i + bs <= |out|
    ensures |rest| >= bs && |dec(c[i..i + bs])| == bs && NextIv(iv0, c[..i + bs]) == c[i..i + bs]
    ensures DecryptedTo(dec, bs, iv0, c, Patched(out, i, XorBytes(dec(c[i..i + bs]), NextIv(iv0, c[..i]))),
                        rest[bs..], i + bs)
  {
    hide Decrypted, OnBlocks, NextIv, Patched;
    var x := c[i..i + bs];
    DecryptMore(dec, bs, iv0, c[..i], x);
    Slices(c, i, bs);
    BlockLength(dec, bs, x);
    PatchedSlices(out, i, XorBytes(dec(x), NextIv(iv0, c[..i])));
    Slices(out, i, bs);
  }

  /** The body of the decrypting loops: decrypt a block, add the vector. */
  method DecryptAt(dec: Bytes -> Bytes, bs: nat, dst: array<bv8>, i: nat, src: array<bv8>, j: nat, v: array<bv8>,
                   vi: nat)
    requires OnBlocks(dec, bs) && i + bs <= dst.Length && j + bs <= src.Length && vi + bs <= v.Length
             && Apart(dst, i, v, vi, bs)
    modifies dst
    ensures |dec(old(src[j..j + bs]))| == bs
    ensures dst[..] == Patched(old(dst[..]), i, XorBytes(dec(old(src[j..j + bs])), old(v[vi..vi + bs])))
  {
    hide OnBlocks;
    ghost var x, w := dec(src[j..j + bs]), v[vi..vi + bs];
    BlockLength(dec, bs, src[j..j + bs]);
    CallBlock(dec, bs, dst, i, src, j);
    ghost var m := dst[..];
    PatchedSlices(old(dst[..]), i, x);
    assert dst[i..i + bs] == m[i..i + bs];
    assert v[vi..vi + bs] == w;
    CryptoXor(dst, i, v, vi, bs);
    assert Patched(m, i, XorBytes(x, w)) == Patched(old(dst[..]), i, XorBytes(x, w));
  }

  lemma {:induction false} NextIvNone(iv: Bytes, c: Bytes)
    requires |iv| > 0
    ensures NextIv(iv, c[..0]) == iv
  {
  }

  /** crypto_cbc_decrypt_segment. */
  method DecryptSegment(dec: Bytes -> Bytes, bs: nat, src: array<bv8>, dst: array<bv8>, iv: array<bv8>,
                        n: nat) returns (left: nat)
    requires OnBlocks(dec, bs) && bs <= n <= src.Length && n <= dst.Length && iv.Length == bs && src != dst
             && iv != src && iv != dst
    modifies dst, iv
    ensures left < bs && left <= n && (n - left) % bs == 0
    ensures DecryptedTo(dec, bs, old(iv[..]), src[..], dst[..], old(dst[n - left..]), n - left)
    ensures iv[..] == NextIv(old(iv[..]), src[..n - left])
  {
    hide DecryptedTo, Patched, XorBytes, NextIv;
    ghost var iv0, d, c := iv[..], dst[..], src[..];
    BlockIsWhole(bs);
    DecryptStart(dec, bs, iv0, c, d);
    NextIvNone(iv0, c);
    assert d[0..] == d;
    var i, v, vi := 0, iv, 0;
    assert iv[0..bs] == iv[..];
    while n - i >= bs
      invariant AtBlock(i, n, bs) && DecryptedTo(dec, bs, iv0, c, dst[..], d[i..], i) && iv[..] == iv0
      invariant vi + bs <= v.Length && v[vi..vi + bs] == NextIv(iv0, c[..i]) && (v == iv || v == src)
    {
      NextBlock(i, n, bs);
      DecryptStep(dec, bs, iv0, c, dst[..], d[i..], i);
      Slices(d, i, bs);
      assert src[i..i + bs] == c[i..i + bs];
      DecryptAt(dec, bs, dst, i, src, i, v, vi);
      v, vi := src, i;
      i := i + bs;
    }
    CopyBlock(bs, iv, 0, v, vi);
    PatchedAll(iv0, NextIv(iv0, c[..i]));
    assert src[..i] == c[..i];
    left := n - i;
  }

  /** The backward loop: everything from j on is plaintext, everything before
      is still ciphertext. */
  ghost predicate BackTo(dec: Bytes -> Bytes, bs: nat, c: Bytes, out: Bytes, m: nat, j: nat) {
    && OnBlocks(dec, bs) && bs <= j <= m <= |c| == |out| && j % bs == 0 && (m - j) % bs == 0
    && out[..j] == c[..j] && out[j..m] == Decrypted(dec, bs, c[j - bs..j], c[j..m]) && out[m..] == c[m..]
  }

  lemma {:induction false} BackStart(dec: Bytes -> Bytes, bs: nat, c: Bytes, m: nat)
    requires OnBlocks(dec, bs) && bs <= m <= |c| && m % bs == 0
    ensures BackTo(dec, bs, c, c, m, m)
  {
  }

  lemma {:induction false} BackSlices(c: Bytes, out: Bytes, m: nat, j: nat, b: nat, y: Bytes)
    requires b + |y| == j <= m <= |c| == |out| && out[..j] == c[..j] && out[m..] == c[m..]
    ensures var r := Patched(out, b, y);
            |r| == |c| && r[..b] == c[..b] && r[b..m] == y + out[j..m] && r[m..] == c[m..]
            && c[b..j] + c[j..m] == c[b..m] && out[b..j] == c[b..j]
  {
    SamePrefix(c, out, j, 0, b);
    SamePrefix(c, out, j, b, j);
    PatchedSlices(out, b, y);
  }

  /** One block further back, with the block before it as its vector. */
  lemma {:induction false} BackStep(dec: Bytes -> Bytes, bs: nat, c: Bytes, out: Bytes, m: nat, j: nat)
    requires BackTo(dec, bs, c, out, m, j) && j >= 2 * bs
    ensures var b := j - bs;
            && out[b..j] == c[b..j] && out[b - bs..b] == c[b - bs..b] && |dec(c[b..j])| == bs
            && BackTo(dec, bs, c, Patched(out, b, XorBytes(dec(c[b..j]), c[b - bs..b])), m, b)
  {
    hide Decrypted, Patched, XorBytes;
    var b := j - bs;
    BlockLength(dec, bs, c[b..j]);
    var y := XorBytes(dec(c[b..j]), c[b - bs..b]);
    BackSlices(c, out, m, j, b, y);
    UnfoldDecrypted(dec, bs, c[b - bs..b], c[b..j], c[j..m]);
    Whole(j, bs);
    ModAdd(m - j, bs);
    SamePrefix(c, out, j, b - bs, b);
  }

  lemma {:induction false} SamePrefix(c: Bytes, out: Bytes, j: nat, a: nat, b: nat)
    requires a <= b <= j <= |c| && j <= |out| && out[..j] == c[..j]
    ensures out[a..b] == c[a..b]
  {
  }

  /** The first block takes the caller's vector. */
  lemma {:induction false} BackEnd(dec: Bytes -> Bytes, bs: nat, iv: Bytes, c: Bytes, out: Bytes, m: nat)
    requires BackTo(dec, bs, c, out, m, bs) && |iv| == bs
    ensures out[0..bs] == c[0..bs] && |dec(c[0..bs])| == bs && m % bs == 0
    ensures DecryptedTo(dec, bs, iv, c, Patched(out, 0, XorBytes(dec(c[0..bs]), iv)), c[m..], m)
  {
    hide Decrypted, Patched, XorBytes;
    BlockLength(dec, bs, c[0..bs]);
    var y := XorBytes(dec(c[0..bs]), iv);
    BackSlices(c, out, m, bs, 0, y);
    UnfoldDecrypted(dec, bs, iv, c[0..bs], c[bs..m]);
    assert c[0..m] == c[..m];
    assert Patched(out, 0, y)[0..m] == Patched(out, 0, y)[..m];
  }

  lemma {:induction false} WholePart(n: nat, bs: nat)
    requires bs > 0 && n >= bs
    ensures bs <= n - n % bs && (n - n % bs) % bs == 0
  {
    var q := n / bs;
    assert n - n % bs == q * bs;
    assert q >= 1;
    assert q * bs == (q - 1) * bs + bs;
    ModIs(q * bs, bs, q, 0);
  }

  /** From the last block down to the second. */
  method BackLoop(dec: Bytes -> Bytes, bs: nat, src: array<bv8>, m: nat)
    requires OnBlocks(dec, bs) && bs <= m <= src.Length && m % bs == 0
    modifies src
    ensures BackTo(dec, bs, old(src[..]), src[..], m, bs)
  {
    hide BackTo, Patched, XorBytes, Decrypted;
    ghost var c := src[..];
    BackStart(dec, bs, c, m);
    Whole(m, bs);
    var j := m - bs;
    while j >= bs
      invariant 0 <= j < m && j % bs == 0 && BackTo(dec, bs, c, src[..], m, j + bs)
      decreases j
    {
      BackStep(dec, bs, c, src[..], m, j + bs);
      assert src[j..j + bs] == src[..][j..j + bs] && src[j - bs..j] == src[..][j - bs..j];
      DecryptAt(dec, bs, src, j, src, j, src, j - bs);
      Whole(j, bs);
      j := j - bs;
    }
    ShortIsNone(j, bs);
  }

  /** The last ciphertext block of a whole prefix is the next vector. */
  lemma {:induction false} LastBlock(iv: Bytes, c: Bytes, m: nat)
    requires |iv| <= m <= |c|
    ensures NextIv(iv, c[..m]) == c[m - |iv|..m]
  {
  }

  /** crypto_cbc_decrypt_inplace: backwards, so that each block finds its vector
      still undecrypted.  The same bytes and the same vector as with two buffers. */
  method DecryptInPlace(dec: Bytes -> Bytes, bs: nat, src: array<bv8>, iv: array<bv8>, n: nat) returns (left: nat)
    requires OnBlocks(dec, bs) && bs <= n <= src.Length && iv.Length == bs && iv != src
    modifies src, iv
    ensures left < bs && left <= n && (n - left) % bs == 0
    ensures DecryptedTo(dec, bs, old(iv[..]), old(src[..]), src[..], old(src[n - left..]), n - left)
    ensures iv[..] == NextIv(old(iv[..]), old(src[..n - left]))
  {
    hide BackTo, DecryptedTo, Patched, XorBytes, NextIv;
    WholePart(n, bs);
    left := n % bs;
    var m := n - left;
    ghost var iv0, c := iv[..], src[..];
    var lastIv := new bv8[bs];
    PatchedAll(lastIv[..], c[m - bs..m]);
    CopyBlock(bs, lastIv, 0, src, m - bs);
    BackLoop(dec, bs, src, m);
    BackEnd(dec, bs, iv0, c, src[..], m);
    assert src[0..bs] == src[..][0..bs] && iv[0..bs] == iv[..];
    DecryptAt(dec, bs, src, 0, src, 0, iv, 0);
    assert lastIv[0..bs] == lastIv[..];
    CopyBlock(bs, iv, 0, lastIv, 0);
    PatchedAll(iv0, c[m - bs..m]);
    LastBlock(iv0, c, m);
  }
}
