# Bind-phrase UIDs and the bind dispatcher, in Dafny

This project models the receiver bind-phrase feature of Betaflight:

- **Numeric UIDs.** `generateUIDFromPhrase` turns a phrase such as `"1,2,3,4"` into a six-byte receiver UID. It reads the comma-separated tokens the way `strtok` hands them out. It accepts a token only when it is decimal digits after leading spaces, with a value in 0..255. It needs 4 to 6 accepted values and right-aligns them behind zero bytes.
- **Hashed UIDs.** `generateMD5UID` wraps the phrase as `-DMY_BINDING_PHRASE="…"`, the way the ExpressLRS build flag spells it. It hashes the wrapped phrase with MD5 and keeps digest bytes 0..5.
- **MD5.** `calculateMD5` pads the NUL-terminated input into a word array, compresses it block by block and writes the digest little-endian.
- **The dispatcher.** `doRxBindPhrase` and its two entry points hand a phrase to the CRSF receiver protocol when that protocol is the active serial provider and is compiled in. Otherwise they report false.

The files:

- `ctypes.dfy` (module `CTypes`) holds the C value types:
  - `Byte` is `bv8` and `Word` is `bv32`;
  - a C string is a sequence of non-NUL characters;
  - `Bytes` gives the bytes a C string is stored as;
  - `CStringLength` is `strlen`.
- `phrase_uid.dfy` (module `PhraseUid`) holds the numeric parser:
  - `Fields` is the specification of `strtok`. It is checked against a plain comma split (`Split`/`NonEmpty`).
  - `FieldValue` is the per-token check and `ParseUid` is the whole function.
  - `Render` is an inverse of `ParseUid`.
  - The imperative `GenerateUidFromPhrase` is proved equal to `ParseUid`. It works through its helper methods `Strtok`, `CheckToken`, `Atoi`, `CollectTokens` and `PadLeft`.
- `md5.dfy` (module `Md5`) holds the MD5 of the source: RFC 1321 with the bit count in the length field taken modulo 2^32, which is RFC 1321 MD5 for messages below 2^29 bytes:
  - the pure specification: `Padded`, `PaddedWords`, `Step`/`Run`/`Compress`/`ProcessBlocks` and `Serialize`;
  - the word-array procedure `CalculateMd5`. Its loops (`CopyMessage`, `RunSteps`, `ProcessMessage`) are proved against that specification.
- `md5_vectors.dfy` (module `Md5Vectors`) proves that the model gives the known answer MD5("") = d41d8cd98f00b204e9800998ecf8427e (appendix A.5 of RFC 1321). It works step by step on concrete buffer values.
- `md5_uid.dfy` (module `Md5Uid`) holds the hashed-mode UID:
  - `WrappedPhrase` is the wrapped phrase and `Md5Uid` the UID;
  - `Unwrapped` reads the phrase back out of a wrapped phrase;
  - `GenerateMd5Uid` builds the 256-byte `fullPhrase` buffer through a cursor and hashes it.
- `rx_bind_phrase.dfy` (module `RxBindPhrase`) holds the dispatcher, as pure functions. The receiver runtime state and the `USE_SERIALRX_CRSF` switch are parameters. The call to `crsfRxBindPhrase` is recorded in the returned `Outcome` as a log of forwarded phrases.

`getRxBindPhraseSupported` never reports support: it calls the dispatcher with the bind flag clear, so the result is false for every configuration (`RxBindPhrase.GetRxBindPhraseSupported`).

Long phrases are not rejected: the `totalLen` clamp in `generateMD5UID` is never used and does not stop the overflow of `fullPhrase`. The model states the buffer bound as a precondition (see "Left out").

## Model

| member | source | states |
|---|---|---|
| PhraseUid.FieldsAreNonEmptySplit | src/main/rx/rx_uid_common.c:33 | the tokens `strtok(…, ",")` hands out are exactly the non-empty comma-separated fields, in order; empty fields from leading, trailing or doubled commas vanish |
| PhraseUid.Strtok | src/main/rx/rx_uid_common.c:65 | one `strtok` call from a resume point finds a token exactly when one is left; it returns that token and the resume point of the remaining tokens |
| PhraseUid.SkipCommas | src/main/rx/rx_uid_common.c:65 | `strtok` first skips delimiters: it stops at the first non-comma or the end, and the remaining tokens are unchanged by the skip |
| PhraseUid.ScanToken | src/main/rx/rx_uid_common.c:65 | a token runs from its first character up to the next comma or the end of the string, and holds no comma |
| PhraseUid.LeadingSpaces | src/main/rx/rx_uid_common.c:39 | the skipped prefix is all `' '` and is followed by a non-space or the end |
| PhraseUid.SpacesFieldIsZero | src/main/rx/rx_uid_common.c:39-53 | a token of spaces only passes the digit check vacuously and stands for the value 0 |
| PhraseUid.StrayCharRejects | src/main/rx/rx_uid_common.c:42-48 | any character other than a space or a digit (tab, sign, letter) rejects the token |
| PhraseUid.SpaceAfterDigitRejects | src/main/rx/rx_uid_common.c:39-48 | a space after a digit, whether inner or trailing, rejects the token; only leading spaces are skipped |
| PhraseUid.SpacedDigitsField | src/main/rx/rx_uid_common.c:39-57 | spaces then digits are accepted exactly when the decimal value is below 256, and the token then stands for that value |
| PhraseUid.Atoi | src/main/rx/rx_uid_common.c:51 | `atoi` on a digit string yields its decimal value |
| PhraseUid.DecimalValueOfDecimal | src/main/rx/rx_uid_common.c:51 | the decimal value of the decimal spelling of `v` is `v` |
| PhraseUid.CheckToken | src/main/rx/rx_uid_common.c:38-58 | the token loop's checks accept a token exactly when `FieldValue` does; the value is then in 0..255 and equals the token's byte |
| PhraseUid.Examined | src/main/rx/rx_uid_common.c:37 | at most six tokens are looked at |
| PhraseUid.CollectTokens | src/main/rx/rx_uid_common.c:33-66 | the loop either stops at the first rejected token, among the first six, with every token before it accepted, or has accepted all tokens up to six; `tempUid[k]` holds the value of token `k`; `count` never exceeds 6, so the `count > 6` test at line 71 is never true |
| PhraseUid.PadLeft | src/main/rx/rx_uid_common.c:75-77 | `uid` becomes `6 - count` zero bytes followed by the first `count` collected bytes |
| PhraseUid.GenerateUidFromPhrase | src/main/rx/rx_uid_common.c:27-80 | true exactly when the copy succeeds and `ParseUid` succeeds; `uid` is then the parsed UID, and every false return leaves `uid` unchanged |
| PhraseUid.ParseUidCharacterised | src/main/rx/rx_uid_common.c:37-77 | success exactly when at least 4 tokens exist and each of the first `min(6, n)` is accepted; the UID then holds zero padding and the token values in input order |
| PhraseUid.RejectedFieldRejectsPhrase | src/main/rx/rx_uid_common.c:60-63 | one rejected token among the first six rejects the phrase |
| PhraseUid.AcceptedPrefix | src/main/rx/rx_uid_common.c:70-77 | the accepted token values decide the result: fewer than 4 gives failure, otherwise the zero-padded values |
| PhraseUid.IgnoresTextAfterSixthToken | src/main/rx/rx_uid_common.c:37 | after six tokens, anything after the next comma, even invalid text, does not change the result |
| PhraseUid.FieldsOfRender | src/main/rx/rx_uid_common.c:33 | rendering bytes as `"v0,v1,…"` gives one token per byte, each its decimal spelling |
| PhraseUid.DecimalFieldValue | src/main/rx/rx_uid_common.c:39-57 | the decimal spelling of a byte is accepted and stands for that byte |
| PhraseUid.ParseRender | src/main/rx/rx_uid_common.c:27-80 | parsing the rendering of 4 to 6 bytes gives them back, right-aligned behind zeros |
| PhraseUid.EveryUidHasAPhrase | src/main/rx/rx_uid_common.c:75-77 | every six-byte UID is named by some phrase |
| PhraseUid.FourValues | src/main/rx/rx_uid_common.c:75-77 | `"1,2,3,4"` gives the UID 0, 0, 1, 2, 3, 4 |
| PhraseUid.SixValues | src/main/rx/rx_uid_common.c:75-77 | `"1,2,3,4,5,6"` gives the UID 1, 2, 3, 4, 5, 6 |
| PhraseUid.SeventhValueIgnored | src/main/rx/rx_uid_common.c:37 | `"1,2,3,4,5,6,7"` is accepted with the UID 1, 2, 3, 4, 5, 6: the seventh value is never read |
| Md5.PaddedLength | src/main/rx/rx_uid_common.c:160 | `((len + 8) >> 6) + 1` blocks are the least number of 64-byte blocks that hold the message, the 0x80 byte and the 8-byte length |
| Md5.BlockCountFits | src/main/rx/rx_uid_common.c:160-164 | the allocated `numBlocks * 16` words hold `len + 9` bytes |
| Md5.PaddedWordsLayout | src/main/rx/rx_uid_common.c:169-179 | each padded word is the message bytes and the 0x80 byte packed little-endian over zeros, except that the last word but one is `len * 8` modulo 2^32 and the last word is 0 |
| Md5.Strlen | src/main/rx/rx_uid_common.c:156 | `strlen` returns the index of the first NUL |
| Md5.LaneIsShift | src/main/rx/rx_uid_common.c:171 | the lane of byte `b` at position `k` is `(uint32_t)b << (8 * k)` |
| Md5.PackedWords | src/main/rx/rx_uid_common.c:169-172 | ORing the bytes one at a time into zero words gives the little-endian words of the zero-extended message |
| Md5.CopyMessage | src/main/rx/rx_uid_common.c:169-172 | the copy loop leaves the packed message bytes in the zeroed word array |
| Md5.PackedPadding | src/main/rx/rx_uid_common.c:169-179 | packing, ORing in 0x80 at byte `len` and writing the two length words gives exactly `PaddedWords`: the padding of RFC 1321 sections 3.1-3.2 with the bit count taken modulo 2^32 and a zero high word, the same as RFC 1321 below 2^29 bytes |
| Md5.OrInto | src/main/rx/rx_uid_common.c:175 | ORing `x` into word `w` changes that word only |
| Md5.StoreLengthField | src/main/rx/rx_uid_common.c:178-179 | the last two words become the bit count and 0, and nothing else changes |
| Md5.PadMessage | src/main/rx/rx_uid_common.c:156-179 | the freshly allocated word array equals `PaddedWords` of the input bytes |
| Md5.RoundSelect | src/main/rx/rx_uid_common.c:188-200 | `f` is the round function F, G, H or I of the step's round; `g` is the message index `j`, `(5j+1)%16`, `(3j+5)%16` or `7j%16` |
| Md5.DoStep | src/main/rx/rx_uid_common.c:186-206 | one pass of the inner loop is step `j` of RFC 1321 section 3.4 on the block |
| Md5.RunSteps | src/main/rx/rx_uid_common.c:183-207 | the inner loop computes the 64 steps on the block |
| Md5.CompressBlock | src/main/rx/rx_uid_common.c:183-212 | one block's steps, added word by word modulo 2^32 into the buffer, are `Compress` |
| Md5.NextBlock | src/main/rx/rx_uid_common.c:182-213 | one pass of the block loop turns the buffer after `i` blocks into the buffer after `i + 1` |
| Md5.ProcessMessage | src/main/rx/rx_uid_common.c:151-213 | from the initial buffer of RFC 1321, section 3.3, the block loop gives the buffer after every block |
| Md5.WordOfWordBytes | src/main/rx/rx_uid_common.c:215-231 | reading back the four little-endian bytes of a word gives the word |
| Md5.WordBytesOfWordOf | src/main/rx/rx_uid_common.c:171 | the bytes of the word packed from four bytes are those bytes |
| Md5.SerializeWords | src/main/rx/rx_uid_common.c:215-231 | the digest bytes read as four little-endian words are the buffer words a, b, c, d |
| Md5.StoreWord | src/main/rx/rx_uid_common.c:216-219 | four byte stores put the little-endian bytes of a word at `off` and change nothing else |
| Md5.WriteDigest | src/main/rx/rx_uid_common.c:215-231 | the output bytes are the buffer serialised little-endian |
| Md5.CalculateMd5 | src/main/rx/rx_uid_common.c:123-234 | the output is `Md5` (RFC 1321 MD5 below 2^29 bytes) of the bytes before the input's NUL; on allocation failure it is untouched |
| Md5Vectors.Md5OfEmpty | src/main/rx/rx_uid_common.c:123-234 | the digest of the empty string is d41d8cd98f00b204e9800998ecf8427e |
| Md5Uid.UnwrapWrapped | src/main/rx/rx_uid_common.c:103-113 | the phrase's bytes are recovered from the wrapped phrase, so the wrapping loses nothing |
| Md5Uid.WrappedPhraseFits | src/main/rx/rx_uid_common.c:92-113 | the wrapped phrase and its NUL fit the 256-byte buffer exactly when the phrase has at most 233 characters |
| Md5Uid.WrappedPhraseIsCString | src/main/rx/rx_uid_common.c:113-117 | the wrapped phrase has no NUL, so the hash sees all of it |
| Md5Uid.CopyChars | src/main/rx/rx_uid_common.c:106-110 | `memcpy` of a C string appends its bytes after `pos` and leaves the rest of the buffer alone |
| Md5Uid.PutByte | src/main/rx/rx_uid_common.c:112-113 | storing at the cursor appends one byte after the bytes before it |
| Md5Uid.BuildFullPhrase | src/main/rx/rx_uid_common.c:92-113 | `fullPhrase` holds the wrapped phrase followed by NUL |
| Md5Uid.GenerateMd5Uid | src/main/rx/rx_uid_common.c:85-121 | `uid` is digest bytes 0..5 of MD5 of the wrapped phrase |
| RxBindPhrase.DoRxBindPhrase | src/main/rx/rx_bind_phrase.c:33-55 | true exactly when the flag is set, the phrase is present and non-empty, and the provider is serial CRSF with CRSF compiled in; the phrase is then forwarded unchanged exactly once, and a false result has forwarded nothing |
| RxBindPhrase.RefusedBeforeProvider | src/main/rx/rx_bind_phrase.c:35-37 | with the flag clear or a NULL or empty phrase, the result is false and nothing is forwarded, whatever the provider configuration |
| RxBindPhrase.StartRxBindPhrase | src/main/rx/rx_bind_phrase.c:57-60 | the dispatcher with the flag set: true exactly for a non-empty phrase with CRSF wired, forwarding that phrase once |
| RxBindPhrase.GetRxBindPhraseSupported | src/main/rx/rx_bind_phrase.c:62-65 | false for every configuration, with nothing forwarded |
| RxBindPhrase.EmptyPhraseNeverBinds | src/main/rx/rx_bind_phrase.c:35-37 | an empty phrase never starts a bind |

## Left out

- Heap management is modelled as flags:
  - the `strdup` copy and `free` in `generateUIDFromPhrase` become the `copyFails` flag of `GenerateUidFromPhrase`;
  - the `calloc` and `free` of the word array in `calculateMD5` become the `allocFails` flag of `CalculateMd5` and `GenerateMd5Uid`.
- Md5Uid.GenerateMd5Uid: says nothing about `uid` when the hash's allocation fails. The source then copies six uninitialised bytes of `md5Hash`.
- Md5Uid.GenerateMd5Uid: requires a phrase of at most 233 characters. For a longer phrase the source writes past the end of `fullPhrase`, which is undefined behaviour. The clamp on `totalLen` does not prevent this, because `totalLen` is never read afterwards.
- Md5.CalculateMd5: requires `strlen(input) + 8` to fit in 32 bits, so that `numBlocks` does not wrap. The wrap of `len * 8` is modelled (`LengthField` reduces it modulo 2^32 and leaves the high word 0), so from 2^29 bytes on the digest differs from RFC 1321 MD5.
- Md5.CalculateMd5: the signed shift `0x80 << 24` at line 175 overflows `int` in C. The model takes the intended 32-bit value `0x80000000`.
- PhraseUid.Atoi: uses unbounded integers. `atoi` on a digit string too long for `int` is undefined behaviour in C; in the model such a token simply has a value above 255 and is rejected.
- `strtok` writes NUL bytes into the `strdup` copy and keeps a hidden cursor. The model reads token ranges of the unchanged phrase instead, with an explicit resume point. The copy is never seen by the caller.
- The receiver runtime state `rxRuntimeState` and the compile-time switch `USE_SERIALRX_CRSF` are parameters of the dispatcher functions. Only the serial provider and the CRSF serial provider are told apart; the other enumerators of `rx/rx.h` are carried as opaque codes. `rx/rx.h` is not part of this model.
- `crsfRxBindPhrase` is foreign code. The model records its calls as a log in `Outcome` and does not model what it does.
- `USE_RX_BIND`: the model describes the code compiled with it. Without it the dispatcher does not exist.
- Characters are C `char` values 1..255. The model does not distinguish signed from unsigned `char`; the comparisons with `'0'..'9'` and `' '` give the same answer either way.
