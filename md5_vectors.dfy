/** A known answer for the MD5 model: the digest of the empty string,
    d41d8cd98f00b204e9800998ecf8427e (appendix A.5 of RFC 1321), worked
    out step by step. Each of the 64 steps of the one block is a lemma on
    the concrete buffer values before and after it; an induction over the
    step index chains them. */
module Md5Vectors {
  import opened CTypes
  import opened Md5

  /** The one padded block of the empty string: the 0x80 byte, then zeros
      (the bit count is 0). */
  predicate EmptyBlockIs(block: seq<Word>)
  {
    |block| == 16 && block[0] == 0x80 && forall i :: 1 <= i < 16 ==> block[i] == 0
  }

  /** The buffer before step `k` of the block (after the last step for
      k = 64). */
  function EmptyChain(k: nat): State
    requires k <= 64
  {
    match k
    case 0 => State(0x67452301, 0xefcdab89, 0x98badcfe, 0x10325476)
    case 1 => State(0x10325476, 0xa5202774, 0xefcdab89, 0x98badcfe)
    case 2 => State(0x98badcfe, 0xf59592dd, 0xa5202774, 0xefcdab89)
    case 3 => State(0xefcdab89, 0xe7f06b23, 0xf59592dd, 0xa5202774)
    case 4 => State(0xa5202774, 0x1b163203, 0xe7f06b23, 0xf59592dd)
    case 5 => State(0xf59592dd, 0x32033344, 0x1b163203, 0xe7f06b23)
    case 6 => State(0xe7f06b23, 0x2f35d494, 0x32033344, 0x1b163203)
    case 7 => State(0x1b163203, 0xf5b158db, 0x2f35d494, 0x32033344)
    case 8 => State(0x32033344, 0x9bc13ce9, 0xf5b158db, 0x2f35d494)
    case 9 => State(0x2f35d494, 0x3893b991, 0x9bc13ce9, 0xf5b158db)
    case 10 => State(0xf5b158db, 0xfce4a312, 0x3893b991, 0x9bc13ce9)
    case 11 => State(0x9bc13ce9, 0xe1ef0576, 0xfce4a312, 0x3893b991)
    case 12 => State(0x3893b991, 0x70768a29, 0xe1ef0576, 0xfce4a312)
    case 13 => State(0xfce4a312, 0xf56c7cf1, 0x70768a29, 0xe1ef0576)
    case 14 => State(0xe1ef0576, 0x374943a7, 0xf56c7cf1, 0x70768a29)
    case 15 => State(0x70768a29, 0x5aa53f75, 0x374943a7, 0xf56c7cf1)
    case 16 => State(0xf56c7cf1, 0xd6819c6a, 0x5aa53f75, 0x374943a7)
    case 17 => State(0x374943a7, 0x1c7d7513, 0xd6819c6a, 0x5aa53f75)
    case 18 => State(0x5aa53f75, 0x7bd57a3a, 0x1c7d7513, 0xd6819c6a)
    case 19 => State(0xd6819c6a, 0xc095f13a, 0x7bd57a3a, 0x1c7d7513)
    case 20 => State(0x1c7d7513, 0xbd782e17, 0xc095f13a, 0x7bd57a3a)
    case 21 => State(0x7bd57a3a, 0x3d1e3e6c, 0xbd782e17, 0xc095f13a)
    case 22 => State(0xc095f13a, 0x68b7b3e3, 0x3d1e3e6c, 0xbd782e17)
    case 23 => State(0xbd782e17, 0xeb41643e, 0x68b7b3e3, 0x3d1e3e6c)
    case 24 => State(0x3d1e3e6c, 0xe422531a, 0xeb41643e, 0x68b7b3e3)
    case 25 => State(0x68b7b3e3, 0x306ec122, 0xe422531a, 0xeb41643e)
    case 26 => State(0xeb41643e, 0xd28c77c2, 0x306ec122, 0xe422531a)
    case 27 => State(0xe422531a, 0xa3c663da, 0xd28c77c2, 0x306ec122)
    case 28 => State(0x306ec122, 0xa0572807, 0xa3c663da, 0xd28c77c2)
    case 29 => State(0xd28c77c2, 0x13707036, 0xa0572807, 0xa3c663da)
    case 30 => State(0xa3c663da, 0xae7813db, 0x13707036, 0xa0572807)
    case 31 => State(0xa0572807, 0x1c31c384, 0xae7813db, 0x13707036)
    case 32 => State(0x13707036, 0xa2205f1f, 0x1c31c384, 0xae7813db)
    case 33 => State(0xae7813db, 0xdf63eaa1, 0xa2205f1f, 0x1c31c384)
    case 34 => State(0x1c31c384, 0xc3689f5b, 0xdf63eaa1, 0xa2205f1f)
    case 35 => State(0xa2205f1f, 0x12f3e755, 0xc3689f5b, 0xdf63eaa1)
    case 36 => State(0xdf63eaa1, 0x004b6669, 0x12f3e755, 0xc3689f5b)
    case 37 => State(0xc3689f5b, 0x5f7a9b2e, 0x004b6669, 0x12f3e755)
    case 38 => State(0x12f3e755, 0xabc34e16, 0x5f7a9b2e, 0x004b6669)
    case 39 => State(0x004b6669, 0x91ca4cb7, 0xabc34e16, 0x5f7a9b2e)
    case 40 => State(0x5f7a9b2e, 0xc5dc8c15, 0x91ca4cb7, 0xabc34e16)
    case 41 => State(0xabc34e16, 0x4497169d, 0xc5dc8c15, 0x91ca4cb7)
    case 42 => State(0x91ca4cb7, 0x76fd93d4, 0x4497169d, 0xc5dc8c15)
    case 43 => State(0xc5dc8c15, 0xfd95f243, 0x76fd93d4, 0x4497169d)
    case 44 => State(0x4497169d, 0x0fe32453, 0xfd95f243, 0x76fd93d4)
    case 45 => State(0x76fd93d4, 0x3f55edfd, 0x0fe32453, 0xfd95f243)
    case 46 => State(0xfd95f243, 0x22a31f54, 0x3f55edfd, 0x0fe32453)
    case 47 => State(0x0fe32453, 0x68d84ea2, 0x22a31f54, 0x3f55edfd)
    case 48 => State(0x3f55edfd, 0xca7d2dbd, 0x68d84ea2, 0x22a31f54)
    case 49 => State(0x22a31f54, 0x93aa2577, 0xca7d2dbd, 0x68d84ea2)
    case 50 => State(0x68d84ea2, 0x1688dc85, 0x93aa2577, 0xca7d2dbd)
    case 51 => State(0xca7d2dbd, 0xcd85b8cb, 0x1688dc85, 0x93aa2577)
    case 52 => State(0x93aa2577, 0x561e0689, 0xcd85b8cb, 0x1688dc85)
    case 53 => State(0x1688dc85, 0x5625a114, 0x561e0689, 0xcd85b8cb)
    case 54 => State(0xcd85b8cb, 0x3450f42b, 0x5625a114, 0x561e0689)
    case 55 => State(0x561e0689, 0x392ad0d0, 0x3450f42b, 0x5625a114)
    case 56 => State(0x5625a114, 0x1e77fa61, 0x392ad0d0, 0x3450f42b)
    case 57 => State(0x3450f42b, 0x474a9c8c, 0x1e77fa61, 0x392ad0d0)
    case 58 => State(0x392ad0d0, 0xdfce00bc, 0x474a9c8c, 0x1e77fa61)
    case 59 => State(0x1e77fa61, 0x36594b14, 0xdfce00bc, 0x474a9c8c)
    case 60 => State(0x474a9c8c, 0x30130182, 0x36594b14, 0xdfce00bc)
    case 61 => State(0xdfce00bc, 0x7246fad3, 0x30130182, 0x36594b14)
    case 62 => State(0x36594b14, 0x6e10a476, 0x7246fad3, 0x30130182)
    case 63 => State(0x30130182, 0xff4ea3eb, 0x6e10a476, 0x7246fad3)
    case _ => State(0x7246fad3, 0x14e45506, 0xff4ea3eb, 0x6e10a476)
  }

  // The 64 steps of the block, one lemma each. A step reads one message
  // word, so each lemma needs only that word of the block.

  lemma {:induction false} EmptyStep0(block: seq<Word>)
    requires |block| == 16 && block[0] == 0x00000080
    ensures Step(State(0x67452301, 0xefcdab89, 0x98badcfe, 0x10325476), block, 0) == State(0x10325476, 0xa5202774, 0xefcdab89, 0x98badcfe)
  {
    assert MessageIndex(0) == 0 && K(0) == 0xd76aa478 && S(0) == 7;
    assert Mix(0, 0xefcdab89, 0x98badcfe, 0x10325476) == F(0xefcdab89, 0x98badcfe, 0x10325476);
  }

  lemma {:induction false} EmptyStep1(block: seq<Word>)
    requires |block| == 16 && block[1] == 0x00000000
    ensures Step(State(0x10325476, 0xa5202774, 0xefcdab89, 0x98badcfe), block, 1) == State(0x98badcfe, 0xf59592dd, 0xa5202774, 0xefcdab89)
  {
    assert MessageIndex(1) == 1 && K(1) == 0xe8c7b756 && S(1) == 12;
    assert Mix(1, 0xa5202774, 0xefcdab89, 0x98badcfe) == F(0xa5202774, 0xefcdab89, 0x98badcfe);
  }

  lemma {:induction false} EmptyStep2(block: seq<Word>)
    requires |block| == 16 && block[2] == 0x00000000
    ensures Step(State(0x98badcfe, 0xf59592dd, 0xa5202774, 0xefcdab89), block, 2) == State(0xefcdab89, 0xe7f06b23, 0xf59592dd, 0xa5202774)
  {
    assert MessageIndex(2) == 2 && K(2) == 0x242070db && S(2) == 17;
    assert Mix(2, 0xf59592dd, 0xa5202774, 0xefcdab89) == F(0xf59592dd, 0xa5202774, 0xefcdab89);
  }

  lemma {:induction false} EmptyStep3(block: seq<Word>)
    requires |block| == 16 && block[3] == 0x00000000
    ensures Step(State(0xefcdab89, 0xe7f06b23, 0xf59592dd, 0xa5202774), block, 3) == State(0xa5202774, 0x1b163203, 0xe7f06b23, 0xf59592dd)
  {
    assert MessageIndex(3) == 3 && K(3) == 0xc1bdceee && S(3) == 22;
    assert Mix(3, 0xe7f06b23, 0xf59592dd, 0xa5202774) == F(0xe7f06b23, 0xf59592dd, 0xa5202774);
  }

  lemma {:induction false} EmptyStep4(block: seq<Word>)
    requires |block| == 16 && block[4] == 0x00000000
    ensures Step(State(0xa5202774, 0x1b163203, 0xe7f06b23, 0xf59592dd), block, 4) == State(0xf59592dd, 0x32033344, 0x1b163203, 0xe7f06b23)
  {
    assert MessageIndex(4) == 4 && K(4) == 0xf57c0faf && S(4) == 7;
    assert Mix(4, 0x1b163203, 0xe7f06b23, 0xf59592dd) == F(0x1b163203, 0xe7f06b23, 0xf59592dd);
  }

  lemma {:induction false} EmptyStep5(block: seq<Word>)
    requires |block| == 16 && block[5] == 0x00000000
    ensures Step(State(0xf59592dd, 0x32033344, 0x1b163203, 0xe7f06b23), block, 5) == State(0xe7f06b23, 0x2f35d494, 0x32033344, 0x1b163203)
  {
    assert MessageIndex(5) == 5 && K(5) == 0x4787c62a && S(5) == 12;
    assert Mix(5, 0x32033344, 0x1b163203, 0xe7f06b23) == F(0x32033344, 0x1b163203, 0xe7f06b23);
  }

  lemma {:induction false} EmptyStep6(block: seq<Word>)
    requires |block| == 16 && block[6] == 0x00000000
    ensures Step(State(0xe7f06b23, 0x2f35d494, 0x32033344, 0x1b163203), block, 6) == State(0x1b163203, 0xf5b158db, 0x2f35d494, 0x32033344)
  {
    assert MessageIndex(6) == 6 && K(6) == 0xa8304613 && S(6) == 17;
    assert Mix(6, 0x2f35d494, 0x32033344, 0x1b163203) == F(0x2f35d494, 0x32033344, 0x1b163203);
  }

  lemma {:induction false} EmptyStep7(block: seq<Word>)
    requires |block| == 16 && block[7] == 0x00000000
    ensures Step(State(0x1b163203, 0xf5b158db, 0x2f35d494, 0x32033344), block, 7) == State(0x32033344, 0x9bc13ce9, 0xf5b158db, 0x2f35d494)
  {
    assert MessageIndex(7) == 7 && K(7) == 0xfd469501 && S(7) == 22;
    assert Mix(7, 0xf5b158db, 0x2f35d494, 0x32033344) == F(0xf5b158db, 0x2f35d494, 0x32033344);
  }

  lemma {:induction false} EmptyStep8(block: seq<Word>)
    requires |block| == 16 && block[8] == 0x00000000
    ensures Step(State(0x32033344, 0x9bc13ce9, 0xf5b158db, 0x2f35d494), block, 8) == State(0x2f35d494, 0x3893b991, 0x9bc13ce9, 0xf5b158db)
  {
    assert MessageIndex(8) == 8 && K(8) == 0x698098d8 && S(8) == 7;
    assert Mix(8, 0x9bc13ce9, 0xf5b158db, 0x2f35d494) == F(0x9bc13ce9, 0xf5b158db, 0x2f35d494);
  }

  lemma {:induction false} EmptyStep9(block: seq<Word>)
    requires |block| == 16 && block[9] == 0x00000000
    ensures Step(State(0x2f35d494, 0x3893b991, 0x9bc13ce9, 0xf5b158db), block, 9) == State(0xf5b158db, 0xfce4a312, 0x3893b991, 0x9bc13ce9)
  {
    assert MessageIndex(9) == 9 && K(9) == 0x8b44f7af && S(9) == 12;
    assert Mix(9, 0x3893b991, 0x9bc13ce9, 0xf5b158db) == F(0x3893b991, 0x9bc13ce9, 0xf5b158db);
  }

  lemma {:induction false} EmptyStep10(block: seq<Word>)
    requires |block| == 16 && block[10] == 0x00000000
    ensures Step(State(0xf5b158db, 0xfce4a312, 0x3893b991, 0x9bc13ce9), block, 10) == State(0x9bc13ce9, 0xe1ef0576, 0xfce4a312, 0x3893b991)
  {
    assert MessageIndex(10) == 10 && K(10) == 0xffff5bb1 && S(10) == 17;
    assert Mix(10, 0xfce4a312, 0x3893b991, 0x9bc13ce9) == F(0xfce4a312, 0x3893b991, 0x9bc13ce9);
  }

  lemma {:induction false} EmptyStep11(block: seq<Word>)
    requires |block| == 16 && block[11] == 0x00000000
    ensures Step(State(0x9bc13ce9, 0xe1ef0576, 0xfce4a312, 0x3893b991), block, 11) == State(0x3893b991, 0x70768a29, 0xe1ef0576, 0xfce4a312)
  {
    assert MessageIndex(11) == 11 && K(11) == 0x895cd7be && S(11) == 22;
    assert Mix(11, 0xe1ef0576, 0xfce4a312, 0x3893b991) == F(0xe1ef0576, 0xfce4a312, 0x3893b991);
  }

  lemma {:induction false} EmptyStep12(block: seq<Word>)
    requires |block| == 16 && block[12] == 0x00000000
    ensures Step(State(0x3893b991, 0x70768a29, 0xe1ef0576, 0xfce4a312), block, 12) == State(0xfce4a312, 0xf56c7cf1, 0x70768a29, 0xe1ef0576)
  {
    assert MessageIndex(12) == 12 && K(12) == 0x6b901122 && S(12) == 7;
    assert Mix(12, 0x70768a29, 0xe1ef0576, 0xfce4a312) == F(0x70768a29, 0xe1ef0576, 0xfce4a312);
  }

  lemma {:induction false} EmptyStep13(block: seq<Word>)
    requires |block| == 16 && block[13] == 0x00000000
    ensures Step(State(0xfce4a312, 0xf56c7cf1, 0x70768a29, 0xe1ef0576), block, 13) == State(0xe1ef0576, 0x374943a7, 0xf56c7cf1, 0x70768a29)
  {
    assert MessageIndex(13) == 13 && K(13) == 0xfd987193 && S(13) == 12;
    assert Mix(13, 0xf56c7cf1, 0x70768a29, 0xe1ef0576) == F(0xf56c7cf1, 0x70768a29, 0xe1ef0576);
  }

  lemma {:induction false} EmptyStep14(block: seq<Word>)
    requires |block| == 16 && block[14] == 0x00000000
    ensures Step(State(0xe1ef0576, 0x374943a7, 0xf56c7cf1, 0x70768a29), block, 14) == State(0x70768a29, 0x5aa53f75, 0x374943a7, 0xf56c7cf1)
  {
    assert MessageIndex(14) == 14 && K(14) == 0xa679438e && S(14) == 17;
    assert Mix(14, 0x374943a7, 0xf56c7cf1, 0x70768a29) == F(0x374943a7, 0xf56c7cf1, 0x70768a29);
  }

  lemma {:induction false} EmptyStep15(block: seq<Word>)
    requires |block| == 16 && block[15] == 0x00000000
    ensures Step(State(0x70768a29, 0x5aa53f75, 0x374943a7, 0xf56c7cf1), block, 15) == State(0xf56c7cf1, 0xd6819c6a, 0x5aa53f75, 0x374943a7)
  {
    assert MessageIndex(15) == 15 && K(15) == 0x49b40821 && S(15) == 22;
    assert Mix(15, 0x5aa53f75, 0x374943a7, 0xf56c7cf1) == F(0x5aa53f75, 0x374943a7, 0xf56c7cf1);
  }

  lemma {:induction false} EmptyStep16(block: seq<Word>)
    requires |block| == 16 && block[1] == 0x00000000
    ensures Step(State(0xf56c7cf1, 0xd6819c6a, 0x5aa53f75, 0x374943a7), block, 16) == State(0x374943a7, 0x1c7d7513, 0xd6819c6a, 0x5aa53f75)
  {
    assert MessageIndex(16) == 1 && K(16) == 0xf61e2562 && S(16) == 5;
    assert Mix(16, 0xd6819c6a, 0x5aa53f75, 0x374943a7) == G(0xd6819c6a, 0x5aa53f75, 0x374943a7);
  }

  lemma {:induction false} EmptyStep17(block: seq<Word>)
    requires |block| == 16 && block[6] == 0x00000000
    ensures Step(State(0x374943a7, 0x1c7d7513, 0xd6819c6a, 0x5aa53f75), block, 17) == State(0x5aa53f75, 0x7bd57a3a, 0x1c7d7513, 0xd6819c6a)
  {
    assert MessageIndex(17) == 6 && K(17) == 0xc040b340 && S(17) == 9;
    assert Mix(17, 0x1c7d7513, 0xd6819c6a, 0x5aa53f75) == G(0x1c7d7513, 0xd6819c6a, 0x5aa53f75);
  }

  lemma {:induction false} EmptyStep18(block: seq<Word>)
    requires |block| == 16 && block[11] == 0x00000000
    ensures Step(State(0x5aa53f75, 0x7bd57a3a, 0x1c7d7513, 0xd6819c6a), block, 18) == State(0xd6819c6a, 0xc095f13a, 0x7bd57a3a, 0x1c7d7513)
  {
    assert MessageIndex(18) == 11 && K(18) == 0x265e5a51 && S(18) == 14;
    assert Mix(18, 0x7bd57a3a, 0x1c7d7513, 0xd6819c6a) == G(0x7bd57a3a, 0x1c7d7513, 0xd6819c6a);
  }

  lemma {:induction false} EmptyStep19(block: seq<Word>)
    requires |block| == 16 && block[0] == 0x00000080
    ensures Step(State(0xd6819c6a, 0xc095f13a, 0x7bd57a3a, 0x1c7d7513), block, 19) == State(0x1c7d7513, 0xbd782e17, 0xc095f13a, 0x7bd57a3a)
  {
    assert MessageIndex(19) == 0 && K(19) == 0xe9b6c7aa && S(19) == 20;
    assert Mix(19, 0xc095f13a, 0x7bd57a3a, 0x1c7d7513) == G(0xc095f13a, 0x7bd57a3a, 0x1c7d7513);
  }

  lemma {:induction false} EmptyStep20(block: seq<Word>)
    requires |block| == 16 && block[5] == 0x00000000
    ensures Step(State(0x1c7d7513, 0xbd782e17, 0xc095f13a, 0x7bd57a3a), block, 20) == State(0x7bd57a3a, 0x3d1e3e6c, 0xbd782e17, 0xc095f13a)
  {
    assert MessageIndex(20) == 5 && K(20) == 0xd62f105d && S(20) == 5;
    assert Mix(20, 0xbd782e17, 0xc095f13a, 0x7bd57a3a) == G(0xbd782e17, 0xc095f13a, 0x7bd57a3a);
  }

  lemma {:induction false} EmptyStep21(block: seq<Word>)
    requires |block| == 16 && block[10] == 0x00000000
    ensures Step(State(0x7bd57a3a, 0x3d1e3e6c, 0xbd782e17, 0xc095f13a), block, 21) == State(0xc095f13a, 0x68b7b3e3, 0x3d1e3e6c, 0xbd782e17)
  {
    assert MessageIndex(21) == 10 && K(21) == 0x02441453 && S(21) == 9;
    assert Mix(21, 0x3d1e3e6c, 0xbd782e17, 0xc095f13a) == G(0x3d1e3e6c, 0xbd782e17, 0xc095f13a);
  }

  lemma {:induction false} EmptyStep22(block: seq<Word>)
    requires |block| == 16 && block[15] == 0x00000000
    ensures Step(State(0xc095f13a, 0x68b7b3e3, 0x3d1e3e6c, 0xbd782e17), block, 22) == State(0xbd782e17, 0xeb41643e, 0x68b7b3e3, 0x3d1e3e6c)
  {
    assert MessageIndex(22) == 15 && K(22) == 0xd8a1e681 && S(22) == 14;
    assert Mix(22, 0x68b7b3e3, 0x3d1e3e6c, 0xbd782e17) == G(0x68b7b3e3, 0x3d1e3e6c, 0xbd782e17);
  }

  lemma {:induction false} EmptyStep23(block: seq<Word>)
    requires |block| == 16 && block[4] == 0x00000000
    ensures Step(State(0xbd782e17, 0xeb41643e, 0x68b7b3e3, 0x3d1e3e6c), block, 23) == State(0x3d1e3e6c, 0xe422531a, 0xeb41643e, 0x68b7b3e3)
  {
    assert MessageIndex(23) == 4 && K(23) == 0xe7d3fbc8 && S(23) == 20;
    assert Mix(23, 0xeb41643e, 0x68b7b3e3, 0x3d1e3e6c) == G(0xeb41643e, 0x68b7b3e3, 0x3d1e3e6c);
  }

  lemma {:induction false} EmptyStep24(block: seq<Word>)
    requires |block| == 16 && block[9] == 0x00000000
    ensures Step(State(0x3d1e3e6c, 0xe422531a, 0xeb41643e, 0x68b7b3e3), block, 24) == State(0x68b7b3e3, 0x306ec122, 0xe422531a, 0xeb41643e)
  {
    assert MessageIndex(24) == 9 && K(24) == 0x21e1cde6 && S(24) == 5;
    assert Mix(24, 0xe422531a, 0xeb41643e, 0x68b7b3e3) == G(0xe422531a, 0xeb41643e, 0x68b7b3e3);
  }

  lemma {:induction false} EmptyStep25(block: seq<Word>)
    requires |block| == 16 && block[14] == 0x00000000
    ensures Step(State(0x68b7b3e3, 0x306ec122, 0xe422531a, 0xeb41643e), block, 25) == State(0xeb41643e, 0xd28c77c2, 0x306ec122, 0xe422531a)
  {
    assert MessageIndex(25) == 14 && K(25) == 0xc33707d6 && S(25) == 9;
    assert Mix(25, 0x306ec122, 0xe422531a, 0xeb41643e) == G(0x306ec122, 0xe422531a, 0xeb41643e);
  }

  lemma {:induction false} EmptyStep26(block: seq<Word>)
    requires |block| == 16 && block[3] == 0x00000000
    ensures Step(State(0xeb41643e, 0xd28c77c2, 0x306ec122, 0xe422531a), block, 26) == State(0xe422531a, 0xa3c663da, 0xd28c77c2, 0x306ec122)
  {
    assert MessageIndex(26) == 3 && K(26) == 0xf4d50d87 && S(26) == 14;
    assert Mix(26, 0xd28c77c2, 0x306ec122, 0xe422531a) == G(0xd28c77c2, 0x306ec122, 0xe422531a);
  }

  lemma {:induction false} EmptyStep27(block: seq<Word>)
    requires |block| == 16 && block[8] == 0x00000000
    ensures Step(State(0xe422531a, 0xa3c663da, 0xd28c77c2, 0x306ec122), block, 27) == State(0x306ec122, 0xa0572807, 0xa3c663da, 0xd28c77c2)
  {
    assert MessageIndex(27) == 8 && K(27) == 0x455a14ed && S(27) == 20;
    assert Mix(27, 0xa3c663da, 0xd28c77c2, 0x306ec122) == G(0xa3c663da, 0xd28c77c2, 0x306ec122);
  }

  lemma {:induction false} EmptyStep28(block: seq<Word>)
    requires |block| == 16 && block[13] == 0x00000000
    ensures Step(State(0x306ec122, 0xa0572807, 0xa3c663da, 0xd28c77c2), block, 28) == State(0xd28c77c2, 0x13707036, 0xa0572807, 0xa3c663da)
  {
    assert MessageIndex(28) == 13 && K(28) == 0xa9e3e905 && S(28) == 5;
    assert Mix(28, 0xa0572807, 0xa3c663da, 0xd28c77c2) == G(0xa0572807, 0xa3c663da, 0xd28c77c2);
  }

  lemma {:induction false} EmptyStep29(block: seq<Word>)
    requires |block| == 16 && block[2] == 0x00000000
    ensures Step(State(0xd28c77c2, 0x13707036, 0xa0572807, 0xa3c663da), block, 29) == State(0xa3c663da, 0xae7813db, 0x13707036, 0xa0572807)
  {
    assert MessageIndex(29) == 2 && K(29) == 0xfcefa3f8 && S(29) == 9;
    assert Mix(29, 0x13707036, 0xa0572807, 0xa3c663da) == G(0x13707036, 0xa0572807, 0xa3c663da);
  }

  lemma {:induction false} EmptyStep30(block: seq<Word>)
    requires |block| == 16 && block[7] == 0x00000000
    ensures Step(State(0xa3c663da, 0xae7813db, 0x13707036, 0xa0572807), block, 30) == State(0xa0572807, 0x1c31c384, 0xae7813db, 0x13707036)
  {
    assert MessageIndex(30) == 7 && K(30) == 0x676f02d9 && S(30) == 14;
    assert Mix(30, 0xae7813db, 0x13707036, 0xa0572807) == G(0xae7813db, 0x13707036, 0xa0572807);
  }

  lemma {:induction false} EmptyStep31(block: seq<Word>)
    requires |block| == 16 && block[12] == 0x00000000
    ensures Step(State(0xa0572807, 0x1c31c384, 0xae7813db, 0x13707036), block, 31) == State(0x13707036, 0xa2205f1f, 0x1c31c384, 0xae7813db)
  {
    assert MessageIndex(31) == 12 && K(31) == 0x8d2a4c8a && S(31) == 20;
    assert Mix(31, 0x1c31c384, 0xae7813db, 0x13707036) == G(0x1c31c384, 0xae7813db, 0x13707036);
  }

  lemma {:induction false} EmptyStep32(block: seq<Word>)
    requires |block| == 16 && block[5] == 0x00000000
    ensures Step(State(0x13707036, 0xa2205f1f, 0x1c31c384, 0xae7813db), block, 32) == State(0xae7813db, 0xdf63eaa1, 0xa2205f1f, 0x1c31c384)
  {
    assert MessageIndex(32) == 5 && K(32) == 0xfffa3942 && S(32) == 4;
    assert Mix(32, 0xa2205f1f, 0x1c31c384, 0xae7813db) == H(0xa2205f1f, 0x1c31c384, 0xae7813db);
  }

  lemma {:induction false} EmptyStep33(block: seq<Word>)
    requires |block| == 16 && block[8] == 0x00000000
    ensures Step(State(0xae7813db, 0xdf63eaa1, 0xa2205f1f, 0x1c31c384), block, 33) == State(0x1c31c384, 0xc3689f5b, 0xdf63eaa1, 0xa2205f1f)
  {
    assert MessageIndex(33) == 8 && K(33) == 0x8771f681 && S(33) == 11;
    assert Mix(33, 0xdf63eaa1, 0xa2205f1f, 0x1c31c384) == H(0xdf63eaa1, 0xa2205f1f, 0x1c31c384);
  }

  lemma {:induction false} EmptyStep34(block: seq<Word>)
    requires |block| == 16 && block[11] == 0x00000000
    ensures Step(State(0x1c31c384, 0xc3689f5b, 0xdf63eaa1, 0xa2205f1f), block, 34) == State(0xa2205f1f, 0x12f3e755, 0xc3689f5b, 0xdf63eaa1)
  {
    assert MessageIndex(34) == 11 && K(34) == 0x6d9d6122 && S(34) == 16;
    assert Mix(34, 0xc3689f5b, 0xdf63eaa1, 0xa2205f1f) == H(0xc3689f5b, 0xdf63eaa1, 0xa2205f1f);
  }

  lemma {:induction false} EmptyStep35(block: seq<Word>)
    requires |block| == 16 && block[14] == 0x00000000
    ensures Step(State(0xa2205f1f, 0x12f3e755, 0xc3689f5b, 0xdf63eaa1), block, 35) == State(0xdf63eaa1, 0x004b6669, 0x12f3e755, 0xc3689f5b)
  {
    assert MessageIndex(35) == 14 && K(35) == 0xfde5380c && S(35) == 23;
    assert Mix(35, 0x12f3e755, 0xc3689f5b, 0xdf63eaa1) == H(0x12f3e755, 0xc3689f5b, 0xdf63eaa1);
  }

  lemma {:induction false} EmptyStep36(block: seq<Word>)
    requires |block| == 16 && block[1] == 0x00000000
    ensures Step(State(0xdf63eaa1, 0x004b6669, 0x12f3e755, 0xc3689f5b), block, 36) == State(0xc3689f5b, 0x5f7a9b2e, 0x004b6669, 0x12f3e755)
  {
    assert MessageIndex(36) == 1 && K(36) == 0xa4beea44 && S(36) == 4;
    assert Mix(36, 0x004b6669, 0x12f3e755, 0xc3689f5b) == H(0x004b6669, 0x12f3e755, 0xc3689f5b);
  }

  lemma {:induction false} EmptyStep37(block: seq<Word>)
    requires |block| == 16 && block[4] == 0x00000000
    ensures Step(State(0xc3689f5b, 0x5f7a9b2e, 0x004b6669, 0x12f3e755), block, 37) == State(0x12f3e755, 0xabc34e16, 0x5f7a9b2e, 0x004b6669)
  {
    assert MessageIndex(37) == 4 && K(37) == 0x4bdecfa9 && S(37) == 11;
    assert Mix(37, 0x5f7a9b2e, 0x004b6669, 0x12f3e755) == H(0x5f7a9b2e, 0x004b6669, 0x12f3e755);
  }

  lemma {:induction false} EmptyStep38(block: seq<Word>)
    requires |block| == 16 && block[7] == 0x00000000
    ensures Step(State(0x12f3e755, 0xabc34e16, 0x5f7a9b2e, 0x004b6669), block, 38) == State(0x004b6669, 0x91ca4cb7, 0xabc34e16, 0x5f7a9b2e)
  {
    assert MessageIndex(38) == 7 && K(38) == 0xf6bb4b60 && S(38) == 16;
    assert Mix(38, 0xabc34e16, 0x5f7a9b2e, 0x004b6669) == H(0xabc34e16, 0x5f7a9b2e, 0x004b6669);
  }

  lemma {:induction false} EmptyStep39(block: seq<Word>)
    requires |block| == 16 && block[10] == 0x00000000
    ensures Step(State(0x004b6669, 0x91ca4cb7, 0xabc34e16, 0x5f7a9b2e), block, 39) == State(0x5f7a9b2e, 0xc5dc8c15, 0x91ca4cb7, 0xabc34e16)
  {
    assert MessageIndex(39) == 10 && K(39) == 0xbebfbc70 && S(39) == 23;
    assert Mix(39, 0x91ca4cb7, 0xabc34e16, 0x5f7a9b2e) == H(0x91ca4cb7, 0xabc34e16, 0x5f7a9b2e);
  }

  lemma {:induction false} EmptyStep40(block: seq<Word>)
    requires |block| == 16 && block[13] == 0x00000000
    ensures Step(State(0x5f7a9b2e, 0xc5dc8c15, 0x91ca4cb7, 0xabc34e16), block, 40) == State(0xabc34e16, 0x4497169d, 0xc5dc8c15, 0x91ca4cb7)
  {
    assert MessageIndex(40) == 13 && K(40) == 0x289b7ec6 && S(40) == 4;
    assert Mix(40, 0xc5dc8c15, 0x91ca4cb7, 0xabc34e16) == H(0xc5dc8c15, 0x91ca4cb7, 0xabc34e16);
  }

  lemma {:induction false} EmptyStep41(block: seq<Word>)
    requires |block| == 16 && block[0] == 0x00000080
    ensures Step(State(0xabc34e16, 0x4497169d, 0xc5dc8c15, 0x91ca4cb7), block, 41) == State(0x91ca4cb7, 0x76fd93d4, 0x4497169d, 0xc5dc8c15)
  {
    assert MessageIndex(41) == 0 && K(41) == 0xeaa127fa && S(41) == 11;
    assert Mix(41, 0x4497169d, 0xc5dc8c15, 0x91ca4cb7) == H(0x4497169d, 0xc5dc8c15, 0x91ca4cb7);
  }

  lemma {:induction false} EmptyStep42(block: seq<Word>)
    requires |block| == 16 && block[3] == 0x00000000
    ensures Step(State(0x91ca4cb7, 0x76fd93d4, 0x4497169d, 0xc5dc8c15), block, 42) == State(0xc5dc8c15, 0xfd95f243, 0x76fd93d4, 0x4497169d)
  {
    assert MessageIndex(42) == 3 && K(42) == 0xd4ef3085 && S(42) == 16;
    assert Mix(42, 0x76fd93d4, 0x4497169d, 0xc5dc8c15) == H(0x76fd93d4, 0x4497169d, 0xc5dc8c15);
  }

  lemma {:induction false} EmptyStep43(block: seq<Word>)
    requires |block| == 16 && block[6] == 0x00000000
    ensures Step(State(0xc5dc8c15, 0xfd95f243, 0x76fd93d4, 0x4497169d), block, 43) == State(0x4497169d, 0x0fe32453, 0xfd95f243, 0x76fd93d4)
  {
    assert MessageIndex(43) == 6 && K(43) == 0x04881d05 && S(43) == 23;
    assert Mix(43, 0xfd95f243, 0x76fd93d4, 0x4497169d) == H(0xfd95f243, 0x76fd93d4, 0x4497169d);
  }

  lemma {:induction false} EmptyStep44(block: seq<Word>)
    requires |block| == 16 && block[9] == 0x00000000
    ensures Step(State(0x4497169d, 0x0fe32453, 0xfd95f243, 0x76fd93d4), block, 44) == State(0x76fd93d4, 0x3f55edfd, 0x0fe32453, 0xfd95f243)
  {
    assert MessageIndex(44) == 9 && K(44) == 0xd9d4d039 && S(44) == 4;
    assert Mix(44, 0x0fe32453, 0xfd95f243, 0x76fd93d4) == H(0x0fe32453, 0xfd95f243, 0x76fd93d4);
  }

  lemma {:induction false} EmptyStep45(block: seq<Word>)
    requires |block| == 16 && block[12] == 0x00000000
    ensures Step(State(0x76fd93d4, 0x3f55edfd, 0x0fe32453, 0xfd95f243), block, 45) == State(0xfd95f243, 0x22a31f54, 0x3f55edfd, 0x0fe32453)
  {
    assert MessageIndex(45) == 12 && K(45) == 0xe6db99e5 && S(45) == 11;
    assert Mix(45, 0x3f55edfd, 0x0fe32453, 0xfd95f243) == H(0x3f55edfd, 0x0fe32453, 0xfd95f243);
  }

  lemma {:induction false} EmptyStep46(block: seq<Word>)
    requires |block| == 16 && block[15] == 0x00000000
    ensures Step(State(0xfd95f243, 0x22a31f54, 0x3f55edfd, 0x0fe32453), block, 46) == State(0x0fe32453, 0x68d84ea2, 0x22a31f54, 0x3f55edfd)
  {
    assert MessageIndex(46) == 15 && K(46) == 0x1fa27cf8 && S(46) == 16;
    assert Mix(46, 0x22a31f54, 0x3f55edfd, 0x0fe32453) == H(0x22a31f54, 0x3f55edfd, 0x0fe32453);
  }

  lemma {:induction false} EmptyStep47(block: seq<Word>)
    requires |block| == 16 && block[2] == 0x00000000
    ensures Step(State(0x0fe32453, 0x68d84ea2, 0x22a31f54, 0x3f55edfd), block, 47) == State(0x3f55edfd, 0xca7d2dbd, 0x68d84ea2, 0x22a31f54)
  {
    assert MessageIndex(47) == 2 && K(47) == 0xc4ac5665 && S(47) == 23;
    assert Mix(47, 0x68d84ea2, 0x22a31f54, 0x3f55edfd) == H(0x68d84ea2, 0x22a31f54, 0x3f55edfd);
  }

  lemma {:induction false} EmptyStep48(block: seq<Word>)
    requires |block| == 16 && block[0] == 0x00000080
    ensures Step(State(0x3f55edfd, 0xca7d2dbd, 0x68d84ea2, 0x22a31f54), block, 48) == State(0x22a31f54, 0x93aa2577, 0xca7d2dbd, 0x68d84ea2)
  {
    assert MessageIndex(48) == 0 && K(48) == 0xf4292244 && S(48) == 6;
    assert Mix(48, 0xca7d2dbd, 0x68d84ea2, 0x22a31f54) == I(0xca7d2dbd, 0x68d84ea2, 0x22a31f54);
  }

  lemma {:induction false} EmptyStep49(block: seq<Word>)
    requires |block| == 16 && block[7] == 0x00000000
    ensures Step(State(0x22a31f54, 0x93aa2577, 0xca7d2dbd, 0x68d84ea2), block, 49) == State(0x68d84ea2, 0x1688dc85, 0x93aa2577, 0xca7d2dbd)
  {
    assert MessageIndex(49) == 7 && K(49) == 0x432aff97 && S(49) == 10;
    assert Mix(49, 0x93aa2577, 0xca7d2dbd, 0x68d84ea2) == I(0x93aa2577, 0xca7d2dbd, 0x68d84ea2);
  }

  lemma {:induction false} EmptyStep50(block: seq<Word>)
    requires |block| == 16 && block[14] == 0x00000000
    ensures Step(State(0x68d84ea2, 0x1688dc85, 0x93aa2577, 0xca7d2dbd), block, 50) == State(0xca7d2dbd, 0xcd85b8cb, 0x1688dc85, 0x93aa2577)
  {
    assert MessageIndex(50) == 14 && K(50) == 0xab9423a7 && S(50) == 15;
    assert Mix(50, 0x1688dc85, 0x93aa2577, 0xca7d2dbd) == I(0x1688dc85, 0x93aa2577, 0xca7d2dbd);
  }

  lemma {:induction false} EmptyStep51(block: seq<Word>)
    requires |block| == 16 && block[5] == 0x00000000
    ensures Step(State(0xca7d2dbd, 0xcd85b8cb, 0x1688dc85, 0x93aa2577), block, 51) == State(0x93aa2577, 0x561e0689, 0xcd85b8cb, 0x1688dc85)
  {
    assert MessageIndex(51) == 5 && K(51) == 0xfc93a039 && S(51) == 21;
    assert Mix(51, 0xcd85b8cb, 0x1688dc85, 0x93aa2577) == I(0xcd85b8cb, 0x1688dc85, 0x93aa2577);
  }

  lemma {:induction false} EmptyStep52(block: seq<Word>)
    requires |block| == 16 && block[12] == 0x00000000
    ensures Step(State(0x93aa2577, 0x561e0689, 0xcd85b8cb, 0x1688dc85), block, 52) == State(0x1688dc85, 0x5625a114, 0x561e0689, 0xcd85b8cb)
  {
    assert MessageIndex(52) == 12 && K(52) == 0x655b59c3 && S(52) == 6;
    assert Mix(52, 0x561e0689, 0xcd85b8cb, 0x1688dc85) == I(0x561e0689, 0xcd85b8cb, 0x1688dc85);
  }

  lemma {:induction false} EmptyStep53(block: seq<Word>)
    requires |block| == 16 && block[3] == 0x00000000
    ensures Step(State(0x1688dc85, 0x5625a114, 0x561e0689, 0xcd85b8cb), block, 53) == State(0xcd85b8cb, 0x3450f42b, 0x5625a114, 0x561e0689)
  {
    assert MessageIndex(53) == 3 && K(53) == 0x8f0ccc92 && S(53) == 10;
    assert Mix(53, 0x5625a114, 0x561e0689, 0xcd85b8cb) == I(0x5625a114, 0x561e0689, 0xcd85b8cb);
  }

  lemma {:induction false} EmptyStep54(block: seq<Word>)
    requires |block| == 16 && block[10] == 0x00000000
    ensures Step(State(0xcd85b8cb, 0x3450f42b, 0x5625a114, 0x561e0689), block, 54) == State(0x561e0689, 0x392ad0d0, 0x3450f42b, 0x5625a114)
  {
    assert MessageIndex(54) == 10 && K(54) == 0xffeff47d && S(54) == 15;
    assert Mix(54, 0x3450f42b, 0x5625a114, 0x561e0689) == I(0x3450f42b, 0x5625a114, 0x561e0689);
  }

  lemma {:induction false} EmptyStep55(block: seq<Word>)
    requires |block| == 16 && block[1] == 0x00000000
    ensures Step(State(0x561e0689, 0x392ad0d0, 0x3450f42b, 0x5625a114), block, 55) == State(0x5625a114, 0x1e77fa61, 0x392ad0d0, 0x3450f42b)
  {
    assert MessageIndex(55) == 1 && K(55) == 0x85845dd1 && S(55) == 21;
    assert Mix(55, 0x392ad0d0, 0x3450f42b, 0x5625a114) == I(0x392ad0d0, 0x3450f42b, 0x5625a114);
  }

  lemma {:induction false} EmptyStep56(block: seq<Word>)
    requires |block| == 16 && block[8] == 0x00000000
    ensures Step(State(0x5625a114, 0x1e77fa61, 0x392ad0d0, 0x3450f42b), block, 56) == State(0x3450f42b, 0x474a9c8c, 0x1e77fa61, 0x392ad0d0)
  {
    assert MessageIndex(56) == 8 && K(56) == 0x6fa87e4f && S(56) == 6;
    assert Mix(56, 0x1e77fa61, 0x392ad0d0, 0x3450f42b) == I(0x1e77fa61, 0x392ad0d0, 0x3450f42b);
  }

  lemma {:induction false} EmptyStep57(block: seq<Word>)
    requires |block| == 16 && block[15] == 0x00000000
    ensures Step(State(0x3450f42b, 0x474a9c8c, 0x1e77fa61, 0x392ad0d0), block, 57) == State(0x392ad0d0, 0xdfce00bc, 0x474a9c8c, 0x1e77fa61)
  {
    assert MessageIndex(57) == 15 && K(57) == 0xfe2ce6e0 && S(57) == 10;
    assert Mix(57, 0x474a9c8c, 0x1e77fa61, 0x392ad0d0) == I(0x474a9c8c, 0x1e77fa61, 0x392ad0d0);
  }

  lemma {:induction false} EmptyStep58(block: seq<Word>)
    requires |block| == 16 && block[6] == 0x00000000
    ensures Step(State(0x392ad0d0, 0xdfce00bc, 0x474a9c8c, 0x1e77fa61), block, 58) == State(0x1e77fa61, 0x36594b14, 0xdfce00bc, 0x474a9c8c)
  {
    assert MessageIndex(58) == 6 && K(58) == 0xa3014314 && S(58) == 15;
    assert Mix(58, 0xdfce00bc, 0x474a9c8c, 0x1e77fa61) == I(0xdfce00bc, 0x474a9c8c, 0x1e77fa61);
  }

  lemma {:induction false} EmptyStep59(block: seq<Word>)
    requires |block| == 16 && block[13] == 0x00000000
    ensures Step(State(0x1e77fa61, 0x36594b14, 0xdfce00bc, 0x474a9c8c), block, 59) == State(0x474a9c8c, 0x30130182, 0x36594b14, 0xdfce00bc)
  {
    assert MessageIndex(59) == 13 && K(59) == 0x4e0811a1 && S(59) == 21;
    assert Mix(59, 0x36594b14, 0xdfce00bc, 0x474a9c8c) == I(0x36594b14, 0xdfce00bc, 0x474a9c8c);
  }

  lemma {:induction false} EmptyStep60(block: seq<Word>)
    requires |block| == 16 && block[4] == 0x00000000
    ensures Step(State(0x474a9c8c, 0x30130182, 0x36594b14, 0xdfce00bc), block, 60) == State(0xdfce00bc, 0x7246fad3, 0x30130182, 0x36594b14)
  {
    assert MessageIndex(60) == 4 && K(60) == 0xf7537e82 && S(60) == 6;
    assert Mix(60, 0x30130182, 0x36594b14, 0xdfce00bc) == I(0x30130182, 0x36594b14, 0xdfce00bc);
  }

  lemma {:induction false} EmptyStep61(block: seq<Word>)
    requires |block| == 16 && block[11] == 0x00000000
    ensures Step(State(0xdfce00bc, 0x7246fad3, 0x30130182, 0x36594b14), block, 61) == State(0x36594b14, 0x6e10a476, 0x7246fad3, 0x30130182)
  {
    assert MessageIndex(61) == 11 && K(61) == 0xbd3af235 && S(61) == 10;
    assert Mix(61, 0x7246fad3, 0x30130182, 0x36594b14) == I(0x7246fad3, 0x30130182, 0x36594b14);
  }

  lemma {:induction false} EmptyStep62(block: seq<Word>)
    requires |block| == 16 && block[2] == 0x00000000
    ensures Step(State(0x36594b14, 0x6e10a476, 0x7246fad3, 0x30130182), block, 62) == State(0x30130182, 0xff4ea3eb, 0x6e10a476, 0x7246fad3)
  {
    assert MessageIndex(62) == 2 && K(62) == 0x2ad7d2bb && S(62) == 15;
    assert Mix(62, 0x6e10a476, 0x7246fad3, 0x30130182) == I(0x6e10a476, 0x7246fad3, 0x30130182);
  }

  lemma {:induction false} EmptyStep63(block: seq<Word>)
    requires |block| == 16 && block[9] == 0x00000000
    ensures Step(State(0x30130182, 0xff4ea3eb, 0x6e10a476, 0x7246fad3), block, 63) == State(0x7246fad3, 0x14e45506, 0xff4ea3eb, 0x6e10a476)
  {
    assert MessageIndex(63) == 9 && K(63) == 0xeb86d391 && S(63) == 21;
    assert Mix(63, 0xff4ea3eb, 0x6e10a476, 0x7246fad3) == I(0xff4ea3eb, 0x6e10a476, 0x7246fad3);
  }

  /** Steps 0..15, as a table lookup. */
  lemma {:induction false} EmptyRound0(block: seq<Word>, k: nat)
    requires EmptyBlockIs(block) && 0 <= k < 16
    ensures Step(EmptyChain(k), block, k) == EmptyChain(k + 1)
  {
    match k
    case 0 => EmptyStep0(block);
    case 1 => EmptyStep1(block);
    case 2 => EmptyStep2(block);
    case 3 => EmptyStep3(block);
    case 4 => EmptyStep4(block);
    case 5 => EmptyStep5(block);
    case 6 => EmptyStep6(block);
    case 7 => EmptyStep7(block);
    case 8 => EmptyStep8(block);
    case 9 => EmptyStep9(block);
    case 10 => EmptyStep10(block);
    case 11 => EmptyStep11(block);
    case 12 => EmptyStep12(block);
    case 13 => EmptyStep13(block);
    case 14 => EmptyStep14(block);
    case 15 => EmptyStep15(block);
  }

  /** Steps 16..31, as a table lookup. */
  lemma {:induction false} EmptyRound1(block: seq<Word>, k: nat)
    requires EmptyBlockIs(block) && 16 <= k < 32
    ensures Step(EmptyChain(k), block, k) == EmptyChain(k + 1)
  {
    match k
    case 16 => EmptyStep16(block);
    case 17 => EmptyStep17(block);
    case 18 => EmptyStep18(block);
    case 19 => EmptyStep19(block);
    case 20 => EmptyStep20(block);
    case 21 => EmptyStep21(block);
    case 22 => EmptyStep22(block);
    case 23 => EmptyStep23(block);
    case 24 => EmptyStep24(block);
    case 25 => EmptyStep25(block);
    case 26 => EmptyStep26(block);
    case 27 => EmptyStep27(block);
    case 28 => EmptyStep28(block);
    case 29 => EmptyStep29(block);
    case 30 => EmptyStep30(block);
    case 31 => EmptyStep31(block);
  }

  /** Steps 32..47, as a table lookup. */
  lemma {:induction false} EmptyRound2(block: seq<Word>, k: nat)
    requires EmptyBlockIs(block) && 32 <= k < 48
    ensures Step(EmptyChain(k), block, k) == EmptyChain(k + 1)
  {
    match k
    case 32 => EmptyStep32(block);
    case 33 => EmptyStep33(block);
    case 34 => EmptyStep34(block);
    case 35 => EmptyStep35(block);
    case 36 => EmptyStep36(block);
    case 37 => EmptyStep37(block);
    case 38 => EmptyStep38(block);
    case 39 => EmptyStep39(block);
    case 40 => EmptyStep40(block);
    case 41 => EmptyStep41(block);
    case 42 => EmptyStep42(block);
    case 43 => EmptyStep43(block);
    case 44 => EmptyStep44(block);
    case 45 => EmptyStep45(block);
    case 46 => EmptyStep46(block);
    case 47 => EmptyStep47(block);
  }

  /** Steps 48..63, as a table lookup. */
  lemma {:induction false} EmptyRound3(block: seq<Word>, k: nat)
    requires EmptyBlockIs(block) && 48 <= k < 64
    ensures Step(EmptyChain(k), block, k) == EmptyChain(k + 1)
  {
    match k
    case 48 => EmptyStep48(block);
    case 49 => EmptyStep49(block);
    case 50 => EmptyStep50(block);
    case 51 => EmptyStep51(block);
    case 52 => EmptyStep52(block);
    case 53 => EmptyStep53(block);
    case 54 => EmptyStep54(block);
    case 55 => EmptyStep55(block);
    case 56 => EmptyStep56(block);
    case 57 => EmptyStep57(block);
    case 58 => EmptyStep58(block);
    case 59 => EmptyStep59(block);
    case 60 => EmptyStep60(block);
    case 61 => EmptyStep61(block);
    case 62 => EmptyStep62(block);
    case 63 => EmptyStep63(block);
  }

  /** Step `k` of the empty string's block takes the buffer from one table
      entry to the next. */
  lemma {:induction false} EmptyStepAt(block: seq<Word>, k: nat)
    requires EmptyBlockIs(block) && k < 64
    ensures Step(EmptyChain(k), block, k) == EmptyChain(k + 1)
  {
    if k < 16 {
      EmptyRound0(block, k);
    } else if k < 32 {
      EmptyRound1(block, k);
    } else if k < 48 {
      EmptyRound2(block, k);
    } else {
      EmptyRound3(block, k);
    }
  }

  /** Steps `j`..63 from table entry `j` end at the last entry. */
  lemma {:induction false} EmptyRunFrom(block: seq<Word>, j: nat)
    requires EmptyBlockIs(block) && j <= 64
    ensures Run(EmptyChain(j), block, j) == EmptyChain(64)
    decreases 64 - j
  {
    if j < 64 {
      EmptyStepAt(block, j);
      EmptyRunFrom(block, j + 1);
    }
  }

  /** Word `w` of the padded empty string. */
  lemma {:induction false} EmptyPaddedWord(msg: seq<Byte>, w: nat)
    requires |msg| == 0 && w < 16
    ensures NumBlocks(|msg|) == 1
    ensures PaddedWords(msg)[w] == if w == 0 then 0x80 else 0
  {
    assert NumBlocks(|msg|) == 1;
    PaddedWordsLayout(msg, w);
    var q := msg + [0x80] + Zeros(4 * 16 - |msg| - 1);
    if w == 0 {
      assert q[0] == 0x80 && q[1] == 0 && q[2] == 0 && q[3] == 0;
      assert WordOf(0x80, 0, 0, 0) == 0x80;
    } else if w < 14 {
      assert q[4 * w] == 0 && q[4 * w + 1] == 0 && q[4 * w + 2] == 0 && q[4 * w + 3] == 0;
      assert WordOf(0, 0, 0, 0) == 0;
    }
  }

  /** Padding the empty string gives the block above. */
  lemma {:induction false} EmptyPaddedWords(msg: seq<Byte>)
    requires |msg| == 0
    ensures EmptyBlockIs(PaddedWords(msg))
  {
    forall w | 0 <= w < 16
      ensures PaddedWords(msg)[w] == if w == 0 then 0x80 else 0
    {
      EmptyPaddedWord(msg, w);
    }
    EmptyPaddedWord(msg, 0);
  }

  /** The 64 steps from the initial buffer. */
  lemma {:induction false} EmptyRun(block: seq<Word>)
    requires EmptyBlockIs(block)
    ensures Run(Initial, block, 0) == State(0x7246fad3, 0x14e45506, 0xff4ea3eb, 0x6e10a476)
  {
    EmptyRunFrom(block, 0);
  }

  /** The buffer after the block: the initial buffer plus the result of
      the steps, word by word modulo 2^32. */
  lemma {:induction false} EmptySum()
    ensures AddState(Initial, State(0x7246fad3, 0x14e45506, 0xff4ea3eb, 0x6e10a476)) == State(0xd98c1dd4, 0x04b2008f, 0x980980e9, 0x7e42f8ec)
  {
  }

  /** The block compressed into the initial buffer. */
  lemma {:induction false} EmptyCompress(block: seq<Word>)
    requires EmptyBlockIs(block)
    ensures Compress(Initial, block) == State(0xd98c1dd4, 0x04b2008f, 0x980980e9, 0x7e42f8ec)
  {
    EmptyRun(block);
    EmptySum();
  }

  /** The bytes of that buffer. */
  lemma {:induction false} EmptyDigest()
    ensures Serialize(State(0xd98c1dd4, 0x04b2008f, 0x980980e9, 0x7e42f8ec)) == [0xd4, 0x1d, 0x8c, 0xd9, 0x8f, 0x00, 0xb2, 0x04, 0xe9, 0x80, 0x09, 0x98, 0xec, 0xf8, 0x42, 0x7e]
  {
  }

  /** MD5("") = d41d8cd98f00b204e9800998ecf8427e. The empty message is a
      parameter pinned by `requires` rather than the literal `[]`, so that
      `Md5` is not unfolded all at once on a literal argument. */
  lemma {:induction false} Md5OfEmpty(msg: seq<Byte>)
    requires |msg| == 0
    ensures Md5.Md5(msg) == [0xd4, 0x1d, 0x8c, 0xd9, 0x8f, 0x00, 0xb2, 0x04, 0xe9, 0x80, 0x09, 0x98, 0xec, 0xf8, 0x42, 0x7e]
  {
    var ws := PaddedWords(msg);
    EmptyPaddedWords(msg);
    assert NumBlocks(|msg|) == 1;
    assert Block(ws, 0) == ws;
    EmptyCompress(ws);
    EmptyDigest();
  }
}
