/** C-level value types shared by the bind-phrase model: bytes, 32-bit words
    and the contents of NUL-terminated strings. */
module CTypes {

  /** `uint8_t` */
  type Byte = bv8

  /** `uint32_t`: arithmetic on it wraps modulo 2^32. */
  type Word = bv32

  /** A C `char` that can stand inside a NUL-terminated string: one byte,
      never the terminator itself. */
  type CChar = c: char | 0 < c as int < 256 witness 'A'

  /** The characters of a C string, without its terminating NUL. */
  type CString = seq<CChar>

  datatype Option<+T> = None | Some(value: T)

  /** The byte a `char` is stored as (the `(uint8_t)` cast). */
  function ByteOf(c: CChar): (b: Byte)
    ensures b != 0
  {
    c as Byte
  }

  /** The bytes of a C string, as `strlen`/`memcpy` see them. */
  function Bytes(s: CString): (r: seq<Byte>)
    ensures |r| == |s|
    ensures forall i :: 0 <= i < |s| ==> r[i] == ByteOf(s[i])
    ensures 0 !in r
  {
    seq(|s|, i requires 0 <= i < |s| => ByteOf(s[i]))
  }

  /** `n` zero bytes, as `memset(…, 0, n)` or `calloc` leave them. */
  function Zeros(n: nat): (r: seq<Byte>)
    ensures |r| == n
    ensures forall i :: 0 <= i < n ==> r[i] == 0
  {
    seq(n, _ => 0)
  }

  /** The length `strlen` reports for a NUL-terminated byte buffer: the index
      of its first zero byte. */
  function CStringLength(buf: seq<Byte>): (n: nat)
    requires 0 in buf
    ensures n < |buf| && buf[n] == 0 && 0 !in buf[..n]
  {
    if buf[0] == 0 then 0
    else
      assert 0 in buf[1..];
      var n := 1 + CStringLength(buf[1..]);
      assert buf[..n] == [buf[0]] + buf[1..][..n - 1];
      n
  }

  /** A NUL with no NUL before it ends the string: `strlen` stops there. */
  lemma {:induction false} CStringLengthAt(buf: seq<Byte>, m: nat)
    requires m < |buf| && buf[m] == 0 && 0 !in buf[..m]
    ensures 0 in buf && CStringLength(buf) == m
  {
  }
}
