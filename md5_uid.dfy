/** `generateMD5UID`: the UID of the hashed bind-phrase mode, the first six
    bytes of the MD5 digest of the phrase wrapped the way the ExpressLRS
    build flag spells it. */
module Md5Uid {
  import opened CTypes
  import opened Md5

  /** The text written in front of the phrase. */
  const BindingPrefix: CString := "-DMY_BINDING_PHRASE=\""

  /** The size of the `fullPhrase` buffer. */
  const FullPhraseSize: nat := 256

  /** `-DMY_BINDING_PHRASE="` + phrase + `"`: the byte string that is hashed. */
  function WrappedPhrase(phrase: CString): (w: seq<Byte>)
    ensures |w| == |BindingPrefix| + |phrase| + 1
  {
    Bytes(BindingPrefix) + Bytes(phrase) + [ByteOf('"')]
  }

  /** The hashed-mode UID: digest bytes 0..5. */
  function Md5Uid(phrase: CString): (uid: seq<Byte>)
    ensures |uid| == 6
  {
    Md5.Md5(WrappedPhrase(phrase))[..6]
  }

  /** The phrase's bytes, read back from a wrapped phrase: everything
      between the prefix and the closing quote. */
  function Unwrapped(w: seq<Byte>): (bytes: seq<Byte>)
    requires |BindingPrefix| + 1 <= |w|
  {
    w[|BindingPrefix|..|w| - 1]
  }

  /** The phrase's bytes can be read back from what is hashed, so two
      phrases are hashed as the same string only when their bytes agree. */
  lemma {:induction false} UnwrapWrapped(phrase: CString)
    ensures Unwrapped(WrappedPhrase(phrase)) == Bytes(phrase)
  {
    var w := WrappedPhrase(phrase);
    assert w == Bytes(BindingPrefix) + Bytes(phrase) + [ByteOf('"')];
    assert w[|BindingPrefix|..|w| - 1] == Bytes(phrase);
  }

  /** The wrapped phrase and its NUL fit the 256-byte buffer exactly when
      the phrase has at most 233 characters. */
  lemma {:induction false} WrappedPhraseFits(phrase: CString)
    ensures |WrappedPhrase(phrase)| + 1 <= FullPhraseSize <==> |phrase| <= 233
  {
  }

  /** The wrapped phrase holds no NUL, so `strlen` sees all of it. */
  lemma {:induction false} WrappedPhraseIsCString(phrase: CString)
    ensures 0 !in WrappedPhrase(phrase)
  {
    var w := WrappedPhrase(phrase);
    forall i | 0 <= i < |w|
      ensures w[i] != 0
    {
      if i < |BindingPrefix| {
        assert w[i] == Bytes(BindingPrefix)[i];
      } else if i < |BindingPrefix| + |phrase| {
        assert w[i] == Bytes(phrase)[i - |BindingPrefix|];
      }
    }
  }

  /** The `n` characters of a C string stored as bytes from `pos` on. */
  method CopyChars(buf: array<Byte>, pos: nat, s: CString, n: nat)
    requires n == |s| && pos + n <= buf.Length
    modifies buf
    ensures buf[..pos + n] == old(buf[..pos]) + Bytes(s)
    ensures buf[pos + n..] == old(buf[pos + n..])
  {
    var i := 0;
    while i < n
      invariant 0 <= i <= n
      invariant buf[..pos + i] == old(buf[..pos]) + Bytes(s[..i])
      invariant buf[pos + n..] == old(buf[pos + n..])
    {
      buf[pos + i] := ByteOf(s[i]);
      assert Bytes(s[..i + 1]) == Bytes(s[..i]) + [ByteOf(s[i])];
      i := i + 1;
    }
    assert s[..i] == s;
  }

  /** `buf[pos] = b`, seen as appending `b` to the bytes before `pos`. */
  method PutByte(buf: array<Byte>, pos: nat, b: Byte)
    requires pos < buf.Length
    modifies buf
    ensures buf[..pos] == old(buf[..pos]) && buf[pos] == b
    ensures buf[..pos + 1] == old(buf[..pos]) + [b]
    ensures buf[pos + 1..] == old(buf[pos + 1..])
  {
    buf[pos] := b;
  }

  /** `rx_uid_common.c` lines 92-113: `fullPhrase` filled through the cursor `pos`: the prefix,
      the phrase, the closing quote and the terminating NUL at `pos`. */
  method BuildFullPhrase(phrase: CString) returns (fullPhrase: array<Byte>, pos: nat)
    requires |phrase| <= 233
    ensures fresh(fullPhrase) && fullPhrase.Length == FullPhraseSize
    ensures pos < FullPhraseSize && fullPhrase[..pos] == WrappedPhrase(phrase) && fullPhrase[pos] == 0
  {
    fullPhrase := new Byte[FullPhraseSize];
    var len := |phrase|;
    pos := 0;
    var prefix := BindingPrefix;
    var prefixLen := |prefix|;
    CopyChars(fullPhrase, pos, prefix, prefixLen);
    pos := pos + prefixLen;
    ghost var front := fullPhrase[..pos];
    assert front == Bytes(prefix);
    CopyChars(fullPhrase, pos, phrase, len);
    pos := pos + len;
    front := fullPhrase[..pos];
    assert front == Bytes(prefix) + Bytes(phrase);
    PutByte(fullPhrase, pos, ByteOf('"'));
    pos := pos + 1;
    front := fullPhrase[..pos];
    assert front == WrappedPhrase(phrase);
    PutByte(fullPhrase, pos, 0);
    assert fullPhrase[..pos] == front;
  }

  /** `rx_uid_common.c` lines 85-121: the wrapped phrase hashed from its NUL-terminated
      buffer and digest bytes 0..5 copied into `uid`. `allocFails` stands
      for the word buffer of the hash failing to allocate, in which case the
      digest is not written and nothing is said about `uid`. */
  method GenerateMd5Uid(phrase: CString, uid: array<Byte>, allocFails: bool)
    requires uid.Length == 6 && |phrase| <= 233
    modifies uid
    ensures !allocFails ==> uid[..] == Md5Uid(phrase)
  {
    var fullPhrase, pos := BuildFullPhrase(phrase);
    WrappedPhraseIsCString(phrase);
    CStringLengthAt(fullPhrase[..], pos);
    var md5Hash := new Byte[16];
    CalculateMd5(fullPhrase, md5Hash, allocFails);
    // the UID is the first six digest bytes
    forall k | 0 <= k < 6 {
      uid[k] := md5Hash[k];
    }
  }
}
