/** The MD5 message digest of RFC 1321 as `calculateMD5` computes it: a
    functional specification (padding, the 64-step compression of each block,
    little-endian output) and the word-array procedure proved equal to it. */
module Md5 {
  import opened CTypes

  // ---------------------------------------------------------------------
  // Constants (RFC 1321, section 3.4)
  // ---------------------------------------------------------------------

  /** A rotation amount used by some step. */
  type Shift = s: Word | 4 <= s <= 23 witness 4

  /** The additive constants T[1..64] of the standard, indexed from 0. */
  function K(j: nat): Word
    requires j < 64
  {
    match j
    case 0 => 0xd76aa478
    case 1 => 0xe8c7b756
    case 2 => 0x242070db
    case 3 => 0xc1bdceee
    case 4 => 0xf57c0faf
    case 5 => 0x4787c62a
    case 6 => 0xa8304613
    case 7 => 0xfd469501
    case 8 => 0x698098d8
    case 9 => 0x8b44f7af
    case 10 => 0xffff5bb1
    case 11 => 0x895cd7be
    case 12 => 0x6b901122
    case 13 => 0xfd987193
    case 14 => 0xa679438e
    case 15 => 0x49b40821
    case 16 => 0xf61e2562
    case 17 => 0xc040b340
    case 18 => 0x265e5a51
    case 19 => 0xe9b6c7aa
    case 20 => 0xd62f105d
    case 21 => 0x02441453
    case 22 => 0xd8a1e681
    case 23 => 0xe7d3fbc8
    case 24 => 0x21e1cde6
    case 25 => 0xc33707d6
    case 26 => 0xf4d50d87
    case 27 => 0x455a14ed
    case 28 => 0xa9e3e905
    case 29 => 0xfcefa3f8
    case 30 => 0x676f02d9
    case 31 => 0x8d2a4c8a
    case 32 => 0xfffa3942
    case 33 => 0x8771f681
    case 34 => 0x6d9d6122
    case 35 => 0xfde5380c
    case 36 => 0xa4beea44
    case 37 => 0x4bdecfa9
    case 38 => 0xf6bb4b60
    case 39 => 0xbebfbc70
    case 40 => 0x289b7ec6
    case 41 => 0xeaa127fa
    case 42 => 0xd4ef3085
    case 43 => 0x04881d05
    case 44 => 0xd9d4d039
    case 45 => 0xe6db99e5
    case 46 => 0x1fa27cf8
    case 47 => 0xc4ac5665
    case 48 => 0xf4292244
    case 49 => 0x432aff97
    case 50 => 0xab9423a7
    case 51 => 0xfc93a039
    case 52 => 0x655b59c3
    case 53 => 0x8f0ccc92
    case 54 => 0xffeff47d
    case 55 => 0x85845dd1
    case 56 => 0x6fa87e4f
    case 57 => 0xfe2ce6e0
    case 58 => 0xa3014314
    case 59 => 0x4e0811a1
    case 60 => 0xf7537e82
    case 61 => 0xbd3af235
    case 62 => 0x2ad7d2bb
    case _ => 0xeb86d391
  }

  /** The rotation amount of each step. */
  function S(j: nat): Shift
    requires j < 64
  {
    match j
    case 0 => 7
    case 1 => 12
    case 2 => 17
    case 3 => 22
    case 4 => 7
    case 5 => 12
    case 6 => 17
    case 7 => 22
    case 8 => 7
    case 9 => 12
    case 10 => 17
    case 11 => 22
    case 12 => 7
    case 13 => 12
    case 14 => 17
    case 15 => 22
    case 16 => 5
    case 17 => 9
    case 18 => 14
    case 19 => 20
    case 20 => 5
    case 21 => 9
    case 22 => 14
    case 23 => 20
    case 24 => 5
    case 25 => 9
    case 26 => 14
    case 27 => 20
    case 28 => 5
    case 29 => 9
    case 30 => 14
    case 31 => 20
    case 32 => 4
    case 33 => 11
    case 34 => 16
    case 35 => 23
    case 36 => 4
    case 37 => 11
    case 38 => 16
    case 39 => 23
    case 40 => 4
    case 41 => 11
    case 42 => 16
    case 43 => 23
    case 44 => 4
    case 45 => 11
    case 46 => 16
    case 47 => 23
    case 48 => 6
    case 49 => 10
    case 50 => 15
    case 51 => 21
    case 52 => 6
    case 53 => 10
    case 54 => 15
    case 55 => 21
    case 56 => 6
    case 57 => 10
    case 58 => 15
    case 59 => 21
    case 60 => 6
    case 61 => 10
    case 62 => 15
    case _ => 21
  }

  /** The four-word buffer (A, B, C, D) of RFC 1321, section 3.3. */
  datatype State = State(a: Word, b: Word, c: Word, d: Word)

  /** Its initial value, RFC 1321, section 3.3. */
  const Initial: State := State(0x67452301, 0xEFCDAB89, 0x98BADCFE, 0x10325476)

  // ---------------------------------------------------------------------
  // One step, one block, many blocks (RFC 1321, sections 3.4 and 3.5)
  // ---------------------------------------------------------------------

  function F(x: Word, y: Word, z: Word): Word { (x & y) | (!x & z) }
  function G(x: Word, y: Word, z: Word): Word { (x & z) | (y & !z) }
  function H(x: Word, y: Word, z: Word): Word { x ^ y ^ z }
  function I(x: Word, y: Word, z: Word): Word { y ^ (x | !z) }

  /** `(x << s) | (x >> (32 - s))` */
  function RotateLeft(x: Word, s: Shift): Word
  {
    (x << s) | (x >> (32 - s))
  }

  /** The auxiliary function of the round that step `j` belongs to. */
  function Mix(j: nat, b: Word, c: Word, d: Word): Word
    requires j < 64
  {
    if j < 16 then F(b, c, d)
    else if j < 32 then G(b, c, d)
    else if j < 48 then H(b, c, d)
    else I(b, c, d)
  }

  /** The message word step `j` reads. */
  function MessageIndex(j: nat): (g: nat)
    requires j < 64
    ensures g < 16
  {
    if j < 16 then j
    else if j < 32 then (5 * j + 1) % 16
    else if j < 48 then (3 * j + 5) % 16
    else (7 * j) % 16
  }

  /** The new B of a step: B + ((A + mix + T[j] + X[g]) <<< s), all sums
      modulo 2^32. */
  function StepB(a: Word, b: Word, mix: Word, t: Word, x: Word, s: Shift): Word
  {
    b + RotateLeft(a + mix + t + x, s)
  }

  /** Step `j` of the compression of `block`: B gets StepB with the round's
      auxiliary function, T[j] and X[g], and the other words move along one
      place (A := D, C := B, D := C). */
  function Step(st: State, block: seq<Word>, j: nat): State
    requires |block| == 16 && j < 64
  {
    State(st.d, StepB(st.a, st.b, Mix(j, st.b, st.c, st.d), K(j), block[MessageIndex(j)], S(j)), st.b, st.c)
  }

  /** Steps `j`..63 applied to `st`. */
  function Run(st: State, block: seq<Word>, j: nat): State
    requires |block| == 16 && j <= 64
    decreases 64 - j
  {
    if j == 64 then st else Run(Step(st, block, j), block, j + 1)
  }

  /** Two buffers added word by word modulo 2^32. */
  function AddState(x: State, y: State): State
  {
    State(x.a + y.a, x.b + y.b, x.c + y.c, x.d + y.d)
  }

  /** One 16-word block: the 64 steps, then the result added word by word
      into the buffer. */
  function Compress(st: State, block: seq<Word>): State
    requires |block| == 16
  {
    AddState(st, Run(st, block, 0))
  }

  /** Block `k` of a message: its words 16k .. 16k+15. */
  function Block(words: seq<Word>, k: nat): (block: seq<Word>)
    requires 16 * k + 16 <= |words|
    ensures |block| == 16
  {
    words[16 * k..16 * k + 16]
  }

  /** The buffer after compressing the first `n` blocks of `words`, in
      order, into `st`. */
  function ProcessBlocks(st: State, words: seq<Word>, n: nat): State
    requires 16 * n <= |words|
    decreases n
  {
    if n == 0 then st else Compress(ProcessBlocks(st, words, n - 1), Block(words, n - 1))
  }

  // ---------------------------------------------------------------------
  // Bytes and words (little-endian, RFC 1321, sections 2 and 3.5)
  // ---------------------------------------------------------------------

  /** Byte `b` in byte position `k` of a word: `(uint32_t)b << (8 * k)`. */
  function Lane(b: Byte, k: nat): Word
    requires k < 4
  {
    var x := b as Word;
    if k == 0 then x else if k == 1 then x << 8 else if k == 2 then x << 16 else x << 24
  }

  /** Byte `k` of a word: `(w >> (8 * k)) & 0xFF`. */
  function ByteOfWord(w: Word, k: nat): Byte
    requires k < 4
  {
    var x := if k == 0 then w else if k == 1 then w >> 8 else if k == 2 then w >> 16 else w >> 24;
    (x & 0xFF) as Byte
  }

  lemma {:induction false} LaneIsShift(b: Byte, k: nat)
    requires k < 4
    ensures Lane(b, k) == (b as Word) << (8 * k)
  {
    if k == 0 {
    } else if k == 1 {
    } else if k == 2 {
    } else {
    }
  }

  /** The word whose little-endian bytes are b0, b1, b2, b3. */
  function WordOf(b0: Byte, b1: Byte, b2: Byte, b3: Byte): Word
  {
    Lane(b0, 0) | Lane(b1, 1) | Lane(b2, 2) | Lane(b3, 3)
  }

  /** The little-endian bytes of `w`. */
  function WordBytes(w: Word): (r: seq<Byte>)
    ensures |r| == 4
  {
    [ByteOfWord(w, 0), ByteOfWord(w, 1), ByteOfWord(w, 2), ByteOfWord(w, 3)]
  }

  /** Reading back the bytes of a word gives the word. */
  lemma {:induction false} WordOfWordBytes(w: Word)
    ensures var r := WordBytes(w); WordOf(r[0], r[1], r[2], r[3]) == w
  {
  }

  /** The bytes of the word read from four bytes are those bytes. */
  lemma {:induction false} WordBytesOfWordOf(b0: Byte, b1: Byte, b2: Byte, b3: Byte)
    ensures WordBytes(WordOf(b0, b1, b2, b3)) == [b0, b1, b2, b3]
  {
  }

  /** Word `w` of a byte string read little-endian. */
  function WordAt(buf: seq<Byte>, w: nat): Word
    requires 4 * w + 4 <= |buf|
  {
    WordOf(buf[4 * w], buf[4 * w + 1], buf[4 * w + 2], buf[4 * w + 3])
  }

  /** A byte string read as little-endian words. */
  function Words(buf: seq<Byte>, n: nat): (ws: seq<Word>)
    requires |buf| == 4 * n
    ensures |ws| == n
  {
    seq(n, w requires 0 <= w < n => WordAt(buf, w))
  }

  /** The digest: the four buffer words, each little-endian. */
  function Serialize(st: State): (r: seq<Byte>)
    ensures |r| == 16
  {
    WordBytes(st.a) + WordBytes(st.b) + WordBytes(st.c) + WordBytes(st.d)
  }

  /** Reading the digest back as words gives the buffer. */
  lemma {:induction false} SerializeWords(st: State)
    ensures Words(Serialize(st), 4) == [st.a, st.b, st.c, st.d]
  {
    var r := Serialize(st);
    assert r[0..4] == WordBytes(st.a);
    WordAtBytes(r, 0, st.a);
    assert r[4..8] == WordBytes(st.b);
    WordAtBytes(r, 1, st.b);
    assert r[8..12] == WordBytes(st.c);
    WordAtBytes(r, 2, st.c);
    assert r[12..16] == WordBytes(st.d);
    WordAtBytes(r, 3, st.d);
    FourWords(r, st.a, st.b, st.c, st.d);
  }

  /** The words of a 16-byte buffer, listed. */
  lemma {:induction false} FourWords(buf: seq<Byte>, w0: Word, w1: Word, w2: Word, w3: Word)
    requires |buf| == 16
    requires WordAt(buf, 0) == w0 && WordAt(buf, 1) == w1 && WordAt(buf, 2) == w2 && WordAt(buf, 3) == w3
    ensures Words(buf, 4) == [w0, w1, w2, w3]
  {
    var ws := Words(buf, 4);
    assert ws[0] == w0 && ws[1] == w1 && ws[2] == w2 && ws[3] == w3;
  }

  /** A word stored little-endian in a buffer reads back as itself. */
  lemma {:induction false} WordAtBytes(buf: seq<Byte>, q: nat, w: Word)
    requires 4 * q + 4 <= |buf| && buf[4 * q..4 * q + 4] == WordBytes(w)
    ensures WordAt(buf, q) == w
  {
    WordOfWordBytes(w);
  }

  // ---------------------------------------------------------------------
  // Padding (RFC 1321, sections 3.1 and 3.2, with a 32-bit bit count)
  // ---------------------------------------------------------------------

  /** `((len + 8) >> 6) + 1`: the number of 64-byte blocks. */
  function NumBlocks(len: nat): nat
  {
    (len + 8) / 64 + 1
  }

  /** Zero bytes after the 0x80 byte: the length becomes 56 modulo 64. */
  function ZeroPadLength(len: nat): nat
  {
    (55 - len) % 64
  }

  /** The length field: the message length in bits modulo 2^32 in the low
      word; the high word is always 0. */
  function LengthField(len: nat): Word
  {
    ((len * 8) % 0x1_0000_0000) as Word
  }

  /** The padded message: the message, a 0x80 byte, zero bytes up to 56
      modulo 64, then the 64-bit length field little-endian. */
  function Padded(msg: seq<Byte>): (p: seq<Byte>)
    ensures |p| == 64 * NumBlocks(|msg|)
  {
    PaddedLength(|msg|);
    msg + [0x80] + Zeros(ZeroPadLength(|msg|)) + WordBytes(LengthField(|msg|)) + Zeros(4)
  }

  /** The block count of the source is the least number of 64-byte blocks
      that hold the message, the 0x80 byte and the 8-byte length. */
  lemma {:induction false} PaddedLength(len: nat)
    ensures len + 1 + ZeroPadLength(len) + 8 == 64 * NumBlocks(len)
    ensures 64 * (NumBlocks(len) - 1) < len + 9 <= 64 * NumBlocks(len)
  {
    var q := (len + 8) / 64;
    var r := (len + 8) % 64;
    assert len + 8 == 64 * q + r;
    assert 55 - len == 64 * (-q) + (63 - r);
    assert ZeroPadLength(len) == 63 - r;
  }

  /** The padded message as 32-bit words, `message[]` of the source. */
  function PaddedWords(msg: seq<Byte>): (ws: seq<Word>)
    ensures |ws| == 16 * NumBlocks(|msg|)
  {
    var p := Padded(msg);
    var nb := NumBlocks(|msg|);
    assert |p| == 4 * (16 * nb);
    Words(p, 16 * nb)
  }

  /** The words of the padding: the message bytes and the 0x80 byte packed
      little-endian, zeros, then the bit count and a zero high word. */
  lemma {:induction false} PaddedWordsLayout(msg: seq<Byte>, w: nat)
    requires w < 16 * NumBlocks(|msg|)
    ensures var n := 16 * NumBlocks(|msg|);
            PaddedWords(msg)[w] ==
              if w == n - 2 then LengthField(|msg|)
              else if w == n - 1 then 0
              else WordAt(msg + [0x80] + Zeros(4 * n - |msg| - 1), w)
  {
    var n := 16 * NumBlocks(|msg|);
    var p := Padded(msg);
    PaddedLength(|msg|);
    var front := msg + [0x80] + Zeros(ZeroPadLength(|msg|));
    assert |front| == 4 * n - 8;
    assert p == front + WordBytes(LengthField(|msg|)) + Zeros(4);
    if w == n - 2 {
      WordOfWordBytes(LengthField(|msg|));
      assert p[4 * w..4 * w + 4] == WordBytes(LengthField(|msg|));
    } else if w == n - 1 {
      assert p[4 * w..4 * w + 4] == [0, 0, 0, 0];
    } else {
      var q := msg + [0x80] + Zeros(4 * n - |msg| - 1);
      assert q[..4 * n - 8] == front;
      assert p[4 * w..4 * w + 4] == q[4 * w..4 * w + 4];
    }
  }

  /** MD5 of a byte string. */
  function Md5(msg: seq<Byte>): (digest: seq<Byte>)
    ensures |digest| == 16
  {
    Serialize(ProcessBlocks(Initial, PaddedWords(msg), NumBlocks(|msg|)))
  }

  // ---------------------------------------------------------------------
  // The C procedure
  // ---------------------------------------------------------------------

  /** The words of zero bytes are zero. */
  lemma {:induction false} WordsOfZeros(n: nat)
    ensures Words(Zeros(4 * n), n) == seq(n, _ => 0)
  {
    var z := Zeros(4 * n);
    forall w | 0 <= w < n
      ensures Words(z, n)[w] == 0
    {
      assert z[4 * w] == 0 && z[4 * w + 1] == 0 && z[4 * w + 2] == 0 && z[4 * w + 3] == 0;
    }
  }

  /** Filling zero byte `k` of word `q` of a buffer ORs its lane into
      that word. */
  lemma {:induction false} WordAtFill(buf: seq<Byte>, q: nat, k: nat, i: nat, b: Byte)
    requires 4 * q + 4 <= |buf| && k < 4 && i == 4 * q + k && buf[i] == 0
    ensures WordAt(buf[i := b], q) == WordAt(buf, q) | Lane(b, k)
  {
    if k == 0 {
      WordAtFill0(buf, q, k, i, b);
    } else if k == 1 {
      WordAtFill1(buf, q, k, i, b);
    } else if k == 2 {
      WordAtFill2(buf, q, k, i, b);
    } else {
      WordAtFill3(buf, q, k, i, b);
    }
  }

  // WordAtFill, one lemma per byte position.

  lemma {:induction false} WordAtFill0(buf: seq<Byte>, q: nat, k: nat, i: nat, b: Byte)
    requires 4 * q + 4 <= |buf| && k == 0 && i == 4 * q && buf[i] == 0
    ensures WordAt(buf[i := b], q) == WordAt(buf, q) | Lane(b, k)
  {
    assert buf[i := b][4 * q..4 * q + 4] == [b, buf[4 * q + 1], buf[4 * q + 2], buf[4 * q + 3]];
  }

  lemma {:induction false} WordAtFill1(buf: seq<Byte>, q: nat, k: nat, i: nat, b: Byte)
    requires 4 * q + 4 <= |buf| && k == 1 && i == 4 * q + 1 && buf[i] == 0
    ensures WordAt(buf[i := b], q) == WordAt(buf, q) | Lane(b, k)
  {
    assert buf[i := b][4 * q..4 * q + 4] == [buf[4 * q], b, buf[4 * q + 2], buf[4 * q + 3]];
  }

  lemma {:induction false} WordAtFill2(buf: seq<Byte>, q: nat, k: nat, i: nat, b: Byte)
    requires 4 * q + 4 <= |buf| && k == 2 && i == 4 * q + 2 && buf[i] == 0
    ensures WordAt(buf[i := b], q) == WordAt(buf, q) | Lane(b, k)
  {
    assert buf[i := b][4 * q..4 * q + 4] == [buf[4 * q], buf[4 * q + 1], b, buf[4 * q + 3]];
  }

  lemma {:induction false} WordAtFill3(buf: seq<Byte>, q: nat, k: nat, i: nat, b: Byte)
    requires 4 * q + 4 <= |buf| && k == 3 && i == 4 * q + 3 && buf[i] == 0
    ensures WordAt(buf[i := b], q) == WordAt(buf, q) | Lane(b, k)
  {
    assert buf[i := b][4 * q..4 * q + 4] == [buf[4 * q], buf[4 * q + 1], buf[4 * q + 2], b];
  }

  /** Filling zero byte `k` of word `q` of a buffer ORs its lane into that
      word and leaves every other word as it was. */
  lemma {:induction false} WordsFill(buf: seq<Byte>, n: nat, q: nat, k: nat, i: nat, b: Byte)
    requires |buf| == 4 * n && q < n && k < 4 && i == 4 * q + k && buf[i] == 0
    ensures Words(buf[i := b], n) == Words(buf, n)[q := Words(buf, n)[q] | Lane(b, k)]
  {
    var buf' := buf[i := b];
    forall w | 0 <= w < n
      ensures Words(buf', n)[w] == if w == q then Words(buf, n)[w] | Lane(b, k) else Words(buf, n)[w]
    {
      if w == q {
        WordAtFill(buf, q, k, i, b);
      } else {
        assert buf'[4 * w] == buf[4 * w] && buf'[4 * w + 1] == buf[4 * w + 1];
        assert buf'[4 * w + 2] == buf[4 * w + 2] && buf'[4 * w + 3] == buf[4 * w + 3];
      }
    }
  }

  /** Storing the bytes of `x` in word `q` of a buffer sets that word to `x`. */
  lemma {:induction false} WordAtPut(buf: seq<Byte>, q: nat, x: Word)
    requires 4 * q + 4 <= |buf|
    ensures WordAt(buf[..4 * q] + WordBytes(x) + buf[4 * q + 4..], q) == x
  {
    var buf' := buf[..4 * q] + WordBytes(x) + buf[4 * q + 4..];
    assert buf'[4 * q..4 * q + 4] == WordBytes(x);
    WordOfWordBytes(x);
  }

  /** Storing the bytes of `x` in word `q` of a buffer sets that word to `x`
      and leaves every other word as it was. */
  lemma {:induction false} WordsPut(buf: seq<Byte>, n: nat, q: nat, x: Word)
    requires |buf| == 4 * n && q < n
    ensures Words(buf[..4 * q] + WordBytes(x) + buf[4 * q + 4..], n) == Words(buf, n)[q := x]
  {
    var buf' := buf[..4 * q] + WordBytes(x) + buf[4 * q + 4..];
    forall w | 0 <= w < n
      ensures Words(buf', n)[w] == if w == q then x else Words(buf, n)[w]
    {
      if w == q {
        WordAtPut(buf, q, x);
      } else {
        assert buf'[4 * w] == buf[4 * w] && buf'[4 * w + 1] == buf[4 * w + 1];
        assert buf'[4 * w + 2] == buf[4 * w + 2] && buf'[4 * w + 3] == buf[4 * w + 3];
      }
    }
  }

  /** Writing the length field into the last two words of a zero-ended
      buffer gives the words of the buffer that ends with its bytes. */
  lemma {:induction false} WordsOfLengthField(front: seq<Byte>, n: nat, x: Word)
    requires 2 <= n && |front| == 4 * n - 8
    ensures Words(front + WordBytes(x) + Zeros(4), n) == Words(front + Zeros(8), n)[n - 2 := x][n - 1 := 0]
  {
    var m := n - 2;
    var buf := front + Zeros(8);
    assert buf[..4 * m] + WordBytes(x) + buf[4 * m + 4..] == front + WordBytes(x) + Zeros(4);
    WordsPut(buf, n, m, x);
    assert buf[4 * (m + 1)..4 * (m + 1) + 4] == [0, 0, 0, 0];
    assert Words(buf, n)[m + 1] == 0;
  }

  /** The `((len + 8) >> 6) + 1` blocks of the source hold the message, the
      0x80 byte and the two length words. */
  lemma {:induction false} BlockCountFits(len: nat)
    ensures len + 9 <= 64 * NumBlocks(len)
  {
    PaddedLength(len);
  }

  /** `strlen` */
  method Strlen(s: array<Byte>) returns (n: nat)
    requires 0 in s[..]
    ensures n < s.Length && s[n] == 0 && 0 !in s[..n]
    ensures n == CStringLength(s[..])
  {
    ghost var len := CStringLength(s[..]);
    n := 0;
    while s[n] != 0
      invariant n <= len && 0 !in s[..n]
      decreases len - n
    {
      assert s[..n + 1] == s[..n] + [s[n]];
      n := n + 1;
    }
  }

  /** `message[w] |= x` */
  method OrInto(message: array<Word>, w: nat, x: Word)
    requires w < message.Length
    modifies message
    ensures message[..] == old(message[..])[w := old(message[..])[w] | x]
  {
    message[w] := message[w] | x;
  }

  /** `message[n - 2] = msgLen; message[n - 1] = 0;` for the `n` words of
      `message`. */
  method StoreLengthField(message: array<Word>, msgLen: Word)
    requires 2 <= message.Length
    modifies message
    ensures message[..] == old(message[..])[message.Length - 2 := msgLen][message.Length - 1 := 0]
  {
    message[message.Length - 2] := msgLen;
    message[message.Length - 1] := 0;
  }

  /** Copying byte `i - 1` of the message into the zero-filled buffer that
      holds its first `i - 1` bytes ORs that byte into word `(i - 1) / 4`. */
  lemma {:induction false} CopyByte(msg: seq<Byte>, i: nat, n: nat)
    requires 0 < i <= |msg| < 4 * n
    ensures var buf := msg[..i - 1] + Zeros(4 * n - (i - 1));
            Words(msg[..i] + Zeros(4 * n - i), n)
              == Words(buf, n)[(i - 1) / 4 := Words(buf, n)[(i - 1) / 4] | Lane(msg[i - 1], (i - 1) % 4)]
  {
    var buf := msg[..i - 1] + Zeros(4 * n - (i - 1));
    assert buf[i - 1 := msg[i - 1]] == msg[..i] + Zeros(4 * n - i);
    WordsFill(buf, n, (i - 1) / 4, (i - 1) % 4, i - 1, msg[i - 1]);
  }

  /** The first `i` bytes of `msg` ORed little-endian into `n` zero words,
      one byte at a time as the copy loop does it. */
  function Packed(msg: seq<Byte>, i: nat, n: nat): (ws: seq<Word>)
    requires i <= |msg| < 4 * n
    ensures |ws| == n
  {
    if i == 0 then seq(n, _ => 0)
    else
      var ws := Packed(msg, i - 1, n);
      ws[(i - 1) / 4 := ws[(i - 1) / 4] | Lane(msg[i - 1], (i - 1) % 4)]
  }

  /** Packing byte by byte gives the words of the zero-padded bytes. */
  lemma {:induction false} PackedWords(msg: seq<Byte>, i: nat, n: nat)
    requires i <= |msg| < 4 * n
    ensures Packed(msg, i, n) == Words(msg[..i] + Zeros(4 * n - i), n)
  {
    if i == 0 {
      PackedNothing(msg, i, n);
    } else {
      PackedWords(msg, i - 1, n);
      PackedByte(msg, i, n);
    }
  }

  /** Before the first byte the packed words are the zero bytes' words. */
  lemma {:induction false} PackedNothing(msg: seq<Byte>, i: nat, n: nat)
    requires i == 0 && |msg| < 4 * n
    ensures Packed(msg, i, n) == Words(msg[..i] + Zeros(4 * n - i), n)
  {
    WordsOfZeros(n);
    assert msg[..i] + Zeros(4 * n - i) == Zeros(4 * n);
  }

  /** One step of the copy loop keeps the packed words equal to the words
      of the zero-padded prefix. */
  lemma {:induction false} PackedByte(msg: seq<Byte>, i: nat, n: nat)
    requires 0 < i <= |msg| < 4 * n
    requires Packed(msg, i - 1, n) == Words(msg[..i - 1] + Zeros(4 * n - (i - 1)), n)
    ensures Packed(msg, i, n) == Words(msg[..i] + Zeros(4 * n - i), n)
  {
    CopyByte(msg, i, n);
  }

  /** `rx_uid_common.c` lines 169-172: the bytes of the message ORed little-endian into the
      zeroed words of `message`. */
  method CopyMessage(input: array<Byte>, len: nat, message: array<Word>)
    requires len <= input.Length && len < 4 * message.Length
    requires forall w :: 0 <= w < message.Length ==> message[w] == 0
    modifies message
    ensures message[..] == Packed(input[..len], len, message.Length)
  {
    ghost var msg := input[..len];
    assert message[..] == Packed(msg, 0, message.Length);
    var i := 0;
    while i < len
      invariant 0 <= i <= len
      invariant message[..] == Packed(msg, i, message.Length)
    {
      message[i / 4] := message[i / 4] | Lane(input[i], i % 4);
      i := i + 1;
    }
  }

  /** The words of the padded message are the packed message bytes with
      the 0x80 byte ORed in after them, the bit count in the last word but
      one and 0 in the last word. */
  lemma {:induction false} PackedPadding(msg: seq<Byte>, len: nat, n: nat)
    requires len == |msg| && n == 16 * NumBlocks(len)
    ensures var ws := Packed(msg, len, n);
            ws[len / 4 := ws[len / 4] | Lane(0x80, len % 4)][n - 2 := LengthField(len)][n - 1 := 0] == PaddedWords(msg)
  {
    PaddedLength(len);
    var front := msg + [0x80] + Zeros(ZeroPadLength(len));
    PackedFill(msg, len, n);
    WordsOfLengthField(front, n, LengthField(len));
    assert Padded(msg) == front + WordBytes(LengthField(len)) + Zeros(4);
  }

  /** ORing the 0x80 byte into the packed message gives the words of the
      padded message before its length field is written. */
  lemma {:induction false} PackedFill(msg: seq<Byte>, len: nat, n: nat)
    requires len == |msg| && n == 16 * NumBlocks(len)
    ensures var ws := Packed(msg, len, n);
            ws[len / 4 := ws[len / 4] | Lane(0x80, len % 4)] == Words(msg + [0x80] + Zeros(ZeroPadLength(len)) + Zeros(8), n)
  {
    PaddedLength(len);
    PackedWords(msg, len, n);
    PaddingBytes(msg, n);
    WordsFill(msg[..len] + Zeros(4 * n - len), n, len / 4, len % 4, len, 0x80);
  }

  /** The zero-extended message with 0x80 stored after it is the front of
      the padded message followed by eight zero bytes. */
  lemma {:induction false} PaddingBytes(msg: seq<Byte>, n: nat)
    requires n == 16 * NumBlocks(|msg|)
    ensures var len := |msg|;
            len == 4 * (len / 4) + len % 4 && len / 4 < n &&
            (msg[..len] + Zeros(4 * n - len))[len] == 0 &&
            (msg[..len] + Zeros(4 * n - len))[len := 0x80]
              == msg + [0x80] + Zeros(ZeroPadLength(len)) + Zeros(8)
  {
    var len := |msg|;
    PaddedLength(len);
    assert msg[..len] == msg;
    var buf := msg + Zeros(4 * n - len);
    assert buf[len := 0x80] == msg + [0x80] + Zeros(ZeroPadLength(len)) + Zeros(8);
  }

  /** `rx_uid_common.c` lines 156-179: the message packed little-endian into `numBlocks * 16`
      zero-initialised words, the 0x80 byte after it, the bit length in
      the last word but one and 0 in the last word. */
  method PadMessage(input: array<Byte>, len: nat) returns (message: array<Word>)
    requires len <= input.Length
    ensures fresh(message)
    ensures message[..] == PaddedWords(input[..len])
  {
    ghost var msg := input[..len];
    var msgLen: Word := LengthField(len);  // len * 8 in 32 bits
    var numBlocks := (len + 8) / 64 + 1;
    var totalLen := numBlocks * 16;
    BlockCountFits(len);
    message := new Word[totalLen](_ => 0);
    CopyMessage(input, len, message);
    // the byte 0x80 just after the message
    OrInto(message, len / 4, Lane(0x80, len % 4));
    // the bit count modulo 2^32 in the last word but one, 0 in the last
    StoreLengthField(message, msgLen);
    PackedPadding(msg, len, totalLen);
  }

  /** `rx_uid_common.c` lines 188-200: the auxiliary function value and the message word
      index of step `j`, chosen by its round. */
  method RoundSelect(j: nat, bb: Word, cc: Word, dd: Word) returns (f: Word, g: nat)
    requires j < 64
    ensures f == Mix(j, bb, cc, dd) && g == MessageIndex(j)
  {
    f := if j < 16 then (bb & cc) | (!bb & dd)
      else if j < 32 then (dd & bb) | (!dd & cc)
      else if j < 48 then bb ^ cc ^ dd
      else cc ^ (bb | !dd);
    g := if j < 16 then j
      else if j < 32 then (5 * j + 1) % 16
      else if j < 48 then (3 * j + 5) % 16
      else (7 * j) % 16;
  }

  /** `rx_uid_common.c` lines 186-206: step `j` on block `blk` of `message`. */
  method DoStep(message: array<Word>, blk: nat, j: nat, aa: Word, bb: Word, cc: Word, dd: Word)
    returns (aa': Word, bb': Word, cc': Word, dd': Word)
    requires 16 * blk + 16 <= message.Length && j < 64
    ensures State(aa', bb', cc', dd') == Step(State(aa, bb, cc, dd), Block(message[..], blk), j)
  {
    var f, g := RoundSelect(j, bb, cc, dd);
    assert message[blk * 16 + g] == Block(message[..], blk)[g];
    dd' := cc;
    cc' := bb;
    // B + ((A + f + K(j) + X[g]) <<< S(j)), X being block `blk` of `message`
    bb' := StepB(aa, bb, f, K(j), message[blk * 16 + g], S(j));
    aa' := dd;
  }

  /** `rx_uid_common.c` lines 183-207: the 64 steps on block `blk` of `message`, starting
      from the buffer (a, b, c, d). */
  method RunSteps(message: array<Word>, blk: nat, a: Word, b: Word, c: Word, d: Word)
    returns (aa: Word, bb: Word, cc: Word, dd: Word)
    requires 16 * blk + 16 <= message.Length
    ensures State(aa, bb, cc, dd) == Run(State(a, b, c, d), Block(message[..], blk), 0)
  {
    ghost var block := Block(message[..], blk);
    aa, bb, cc, dd := a, b, c, d;
    var j := 0;
    while j < 64
      invariant 0 <= j <= 64
      invariant Run(State(aa, bb, cc, dd), block, j) == Run(State(a, b, c, d), block, 0)
    {
      aa, bb, cc, dd := DoStep(message, blk, j, aa, bb, cc, dd);
      j := j + 1;
    }
  }

  /** `rx_uid_common.c` lines 183-212: block `blk` of `message` compressed into the buffer
      (a, b, c, d). */
  method CompressBlock(message: array<Word>, blk: nat, a: Word, b: Word, c: Word, d: Word)
    returns (a': Word, b': Word, c': Word, d': Word)
    requires 16 * blk + 16 <= message.Length
    ensures State(a', b', c', d') == Compress(State(a, b, c, d), Block(message[..], blk))
  {
    var aa, bb, cc, dd := RunSteps(message, blk, a, b, c, d);
    // the step results added word by word, modulo 2^32, to the input buffer
    var sum := AddState(State(a, b, c, d), State(aa, bb, cc, dd));
    a', b', c', d' := sum.a, sum.b, sum.c, sum.d;
  }

  /** Processing one more block compresses it into the buffer. */
  lemma {:induction false} ProcessNextBlock(st: State, words: seq<Word>, i: nat)
    requires 16 * i + 16 <= |words|
    ensures ProcessBlocks(st, words, i + 1) == Compress(ProcessBlocks(st, words, i), Block(words, i))
  {
  }

  /** `rx_uid_common.c` lines 182-213, one pass of the block loop: block `i` compressed
      into the buffer that holds the first `i` blocks. */
  method NextBlock(message: array<Word>, i: nat, a: Word, b: Word, c: Word, d: Word)
    returns (a': Word, b': Word, c': Word, d': Word)
    requires 16 * i + 16 <= message.Length
    requires State(a, b, c, d) == ProcessBlocks(Initial, message[..], i)
    ensures State(a', b', c', d') == ProcessBlocks(Initial, message[..], i + 1)
  {
    ProcessNextBlock(Initial, message[..], i);
    a', b', c', d' := CompressBlock(message, i, a, b, c, d);
  }

  /** `rx_uid_common.c` lines 151-213: every block compressed in turn into (a, b, c, d),
      starting from the initial buffer. */
  method ProcessMessage(message: array<Word>, numBlocks: nat) returns (a: Word, b: Word, c: Word, d: Word)
    requires message.Length == 16 * numBlocks
    ensures State(a, b, c, d) == ProcessBlocks(Initial, message[..], numBlocks)
  {
    ghost var words := message[..];
    a, b, c, d := 0x67452301, 0xEFCDAB89, 0x98BADCFE, 0x10325476;
    var i := 0;
    while i < numBlocks
      invariant 0 <= i <= numBlocks
      invariant State(a, b, c, d) == ProcessBlocks(Initial, words, i)
    {
      a, b, c, d := NextBlock(message, i, a, b, c, d);
      i := i + 1;
    }
  }

  /** The little-endian bytes of `w` stored at `output[off..off + 4]`. */
  method StoreWord(output: array<Byte>, off: nat, w: Word)
    requires off + 4 <= output.Length
    modifies output
    ensures output[..] == old(output[..])[..off] + WordBytes(w) + old(output[..])[off + 4..]
  {
    output[off] := ByteOfWord(w, 0);
    output[off + 1] := ByteOfWord(w, 1);
    output[off + 2] := ByteOfWord(w, 2);
    output[off + 3] := ByteOfWord(w, 3);
  }

  /** `rx_uid_common.c` lines 215-231: the four buffer words stored little-endian into the
      16 bytes of `output`, byte `k` of a word being `(word >> (8 * k)) & 0xFF`. */
  method WriteDigest(output: array<Byte>, a: Word, b: Word, c: Word, d: Word)
    requires output.Length == 16
    modifies output
    ensures output[..] == Serialize(State(a, b, c, d))
  {
    StoreWord(output, 0, a);
    StoreWord(output, 4, b);
    StoreWord(output, 8, c);
    StoreWord(output, 12, d);
    assert output[..] == WordBytes(a) + WordBytes(b) + WordBytes(c) + WordBytes(d);
  }

  /** calculateMD5: writes the digest of the NUL-terminated `input` into
      `output`. `allocFails` stands for `calloc` returning NULL, in which
      case nothing is written. */
  method CalculateMd5(input: array<Byte>, output: array<Byte>, allocFails: bool)
    requires 0 in input[..]
    requires CStringLength(input[..]) + 8 < 0x1_0000_0000
    requires output.Length == 16
    modifies output
    ensures allocFails ==> output[..] == old(output[..])
    ensures !allocFails ==> output[..] == Md5(old(input[..CStringLength(input[..])]))
  {
    var len := Strlen(input);
    var numBlocks := (len + 8) / 64 + 1;
    if allocFails {
      return;
    }
    ghost var msg := input[..len];
    assert numBlocks == NumBlocks(|msg|);
    var message := PadMessage(input, len);
    var a, b, c, d := ProcessMessage(message, numBlocks);
    // the digest is the final buffer, each word least significant byte first
    WriteDigest(output, a, b, c, d);
  }
}
