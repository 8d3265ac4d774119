/**
 * The staking store keys whose layout the staking key tests pin with hex
 * vectors: the validator power-rank key and the two redelegation index
 * keys.  The encoders themselves are not part of this model; these
 * definitions are the layouts the vectors fix.
 */
module StakingKeys {
  import opened Bytes
  import opened Engine

  /** Prefix bytes of the validators-by-power index and the two redelegation indexes. */
  const ValidatorsByPowerIndexKey: byte := 0x23
  const RedelegationByValSrcIndexKey: byte := 0x35
  const RedelegationByValDstIndexKey: byte := 0x36

  type int64 = x: int | -0x8000_0000_0000_0000 <= x < 0x8000_0000_0000_0000

  lemma Pow256Eight()
    ensures Pow256(8) == Two64
  {
    assert Pow256(8) == 256 * 256 * 256 * 256 * 256 * 256 * 256 * 256;
  }

  /**
   * The power-rank key of a validator with the given consensus power: the
   * prefix, the power as a big-endian uint64, then the operator address with
   * every bit inverted.  Each part reads back.
   */
  function PowerRankKey(power: int64, operator: seq<byte>): (k: seq<byte>)
    ensures |k| == 9 + |operator| && k[0] == ValidatorsByPowerIndexKey
    ensures BigEndianValue(k[1..9]) == Uint64(power)
    ensures Invert(k[9..]) == operator
  {
    Pow256Eight();
    BigEndianRoundTrip(Uint64(power), 8);
    InvertInvolutive(operator);
    var k := [ValidatorsByPowerIndexKey] + BigEndian(Uint64(power), 8) + Invert(operator);
    assert k[1..9] == BigEndian(Uint64(power), 8) && k[9..] == Invert(operator);
    k
  }

  /** For one operator, a larger non-negative power gives a larger key (bytes.Compare order). */
  lemma PowerRankOrdered(p: int64, q: int64, operator: seq<byte>)
    requires 0 <= p < q
    ensures LexLess(PowerRankKey(p, operator), PowerRankKey(q, operator))
  {
    Pow256Eight();
    var bp, bq, inv := BigEndian(p, 8), BigEndian(q, 8), Invert(operator);
    BigEndianMonotone(p, q, 8);
    LexLessExtend(bp, bq, inv, inv);
    LexLessPrefix([ValidatorsByPowerIndexKey], bp + inv, bq + inv);
    assert PowerRankKey(p, operator) == [ValidatorsByPowerIndexKey] + (bp + inv);
    assert PowerRankKey(q, operator) == [ValidatorsByPowerIndexKey] + (bq + inv);
  }

  /** The key identifies the power and the operator. */
  lemma PowerRankInjective(p: int64, q: int64, a: seq<byte>, b: seq<byte>)
    requires PowerRankKey(p, a) == PowerRankKey(q, b)
    ensures p == q && a == b
  {
    var k := PowerRankKey(p, a);
    assert Uint64(p) == Uint64(q);
    assert p % Two64 == q % Two64;
    assert a == Invert(k[9..]) == b;
  }

  /** The delegator-side index of a redelegation, keyed by destination validator first. */
  function REDByValDstIndexKey(del: seq<byte>, valSrc: seq<byte>, valDst: seq<byte>): (k: seq<byte>)
    ensures |k| == 1 + |valDst| + |del| + |valSrc| && k[0] == RedelegationByValDstIndexKey
    ensures k[1..1 + |valDst|] == valDst
    ensures k[1 + |valDst|..1 + |valDst| + |del|] == del
    ensures k[1 + |valDst| + |del|..] == valSrc
  {
    [RedelegationByValDstIndexKey] + valDst + del + valSrc
  }

  /** The delegator-side index of a redelegation, keyed by source validator first. */
  function REDByValSrcIndexKey(del: seq<byte>, valSrc: seq<byte>, valDst: seq<byte>): (k: seq<byte>)
    ensures |k| == 1 + |valSrc| + |del| + |valDst| && k[0] == RedelegationByValSrcIndexKey
    ensures k[1..1 + |valSrc|] == valSrc
    ensures k[1 + |valSrc|..1 + |valSrc| + |del|] == del
    ensures k[1 + |valSrc| + |del|..] == valDst
  {
    [RedelegationByValSrcIndexKey] + valSrc + del + valDst
  }

  /**
   * With addresses of one length n, both index keys are 1 + 3n bytes, they
   * determine the redelegation, and the two indexes never share a key.
   */
  lemma REDKeysInjective(del: seq<byte>, src: seq<byte>, dst: seq<byte>, del': seq<byte>, src': seq<byte>, dst': seq<byte>)
    requires |del| == |src| == |dst| == |del'| == |src'| == |dst'|
    ensures |REDByValDstIndexKey(del, src, dst)| == 1 + 3 * |del| == |REDByValSrcIndexKey(del, src, dst)|
    ensures REDByValDstIndexKey(del, src, dst) == REDByValDstIndexKey(del', src', dst') ==> del == del' && src == src' && dst == dst'
    ensures REDByValSrcIndexKey(del, src, dst) == REDByValSrcIndexKey(del', src', dst') ==> del == del' && src == src' && dst == dst'
    ensures REDByValDstIndexKey(del, src, dst) != REDByValSrcIndexKey(del', src', dst')
  {
    var d, d' := REDByValDstIndexKey(del, src, dst), REDByValDstIndexKey(del', src', dst');
    var s, s' := REDByValSrcIndexKey(del, src, dst), REDByValSrcIndexKey(del', src', dst');
    assert d[0] != s'[0];
  }

  /** With one address in all three roles a key is its prefix and that address three times. */
  lemma REDKeysSameAddress(a: seq<byte>)
    ensures REDByValDstIndexKey(a, a, a) == [RedelegationByValDstIndexKey] + a + a + a
    ensures REDByValSrcIndexKey(a, a, a) == [RedelegationByValSrcIndexKey] + a + a + a
    ensures |REDByValDstIndexKey(a, a, a)| == 1 + 3 * |a|
  {
  }

  // ------------------------------------------------------ test vectors

  const Addr1: seq<byte> := [
    0x63, 0xd7, 0x71, 0x21, 0x82, 0x09, 0xd8, 0xbd, 0x03, 0xc4, 0x82, 0xf6, 0x9d, 0xfb, 0xa5, 0x73,
    0x10, 0xf0, 0x86, 0x09, 0xb9, 0xbd, 0xa8, 0xb1, 0x0f, 0xde, 0x15, 0x14, 0x5f, 0x81, 0xac, 0x67]
  const Addr2: seq<byte> := [
    0x5e, 0xf3, 0xb5, 0xf2, 0x5c, 0x54, 0x94, 0x6d, 0x4a, 0x89, 0xfc, 0x0d, 0x09, 0xd2, 0xf1, 0x26,
    0x61, 0x45, 0x40, 0xf2, 0x47, 0xe0, 0x1a, 0x01, 0xd9, 0xc1, 0x9b, 0xfd, 0x85, 0x34, 0x55, 0xf1]
  const Addr3: seq<byte> := [
    0x3a, 0xb6, 0x2f, 0x0d, 0x93, 0x84, 0x9b, 0xe4, 0x95, 0xe2, 0x1e, 0x3e, 0x90, 0x13, 0xa5, 0x17,
    0x03, 0x8f, 0x45, 0xbd, 0x20, 0xa7, 0x7c, 0x87, 0xc1, 0x8f, 0x39, 0x00, 0x6e, 0xac, 0x91, 0x5e]

  /** The 32-byte tail of the four power-rank vectors. */
  const Addr1Inverted: seq<byte> := [
    0x9c, 0x28, 0x8e, 0xde, 0x7d, 0xf6, 0x27, 0x42, 0xfc, 0x3b, 0x7d, 0x09, 0x62, 0x04, 0x5a, 0x8c,
    0xef, 0x0f, 0x79, 0xf6, 0x46, 0x42, 0x57, 0x4e, 0xf0, 0x21, 0xea, 0xeb, 0xa0, 0x7e, 0x53, 0x98]

  /** The tail of the power-rank vectors is the first address with every bit inverted. */
  lemma Addr1InvertedTail()
    ensures Invert(Addr1) == Addr1Inverted
  {
  }

  /** The power-rank key, with its inverted operator given. */
  lemma PowerRankSplit(power: int64, operator: seq<byte>, inverted: seq<byte>)
    requires Invert(operator) == inverted
    ensures PowerRankKey(power, operator) == [ValidatorsByPowerIndexKey] + BigEndian(Uint64(power), 8) + inverted
  {
  }

  /**
   * The four power-rank vectors: powers 0, 1, 10 and 2^40 for the first test
   * address.  Hex encoding is injective, so equal bytes are equal hex texts.
   */
  lemma PowerRankVectors()
    ensures PowerRankKey(0, Addr1) == [0x23] + [0x00, 0x00, 0x00, 0x00, 0x00, 0x00, 0x00, 0x00] + Addr1Inverted
    ensures PowerRankKey(1, Addr1) == [0x23] + [0x00, 0x00, 0x00, 0x00, 0x00, 0x00, 0x00, 0x01] + Addr1Inverted
    ensures PowerRankKey(10, Addr1) == [0x23] + [0x00, 0x00, 0x00, 0x00, 0x00, 0x00, 0x00, 0x0a] + Addr1Inverted
    ensures PowerRankKey(0x100_0000_0000, Addr1) == [0x23] + [0x00, 0x00, 0x01, 0x00, 0x00, 0x00, 0x00, 0x00] + Addr1Inverted
  {
    Addr1InvertedTail();
    PowerRankSplit(0, Addr1, Addr1Inverted);
    PowerRankSplit(1, Addr1, Addr1Inverted);
    PowerRankSplit(10, Addr1, Addr1Inverted);
    PowerRankSplit(0x100_0000_0000, Addr1, Addr1Inverted);
    assert BigEndian(0, 8) == [0x00, 0x00, 0x00, 0x00, 0x00, 0x00, 0x00, 0x00];
    assert BigEndian(1, 8) == [0x00, 0x00, 0x00, 0x00, 0x00, 0x00, 0x00, 0x01];
    assert BigEndian(10, 8) == [0x00, 0x00, 0x00, 0x00, 0x00, 0x00, 0x00, 0x0a];
    assert BigEndian(0x100_0000_0000, 8) == [0x00, 0x00, 0x01, 0x00, 0x00, 0x00, 0x00, 0x00];
  }

  /** The destination-index vectors: destination, delegator, source. */
  lemma REDByValDstVectors()
    ensures REDByValDstIndexKey(Addr1, Addr1, Addr1) == [0x36] + Addr1 + Addr1 + Addr1
    ensures REDByValDstIndexKey(Addr1, Addr2, Addr3) == [0x36] + Addr3 + Addr1 + Addr2
    ensures REDByValDstIndexKey(Addr2, Addr1, Addr3) == [0x36] + Addr3 + Addr2 + Addr1
  {
  }

  /** The source-index vectors: source, delegator, destination. */
  lemma REDByValSrcVectors()
    ensures REDByValSrcIndexKey(Addr1, Addr1, Addr1) == [0x35] + Addr1 + Addr1 + Addr1
    ensures REDByValSrcIndexKey(Addr1, Addr2, Addr3) == [0x35] + Addr2 + Addr1 + Addr3
    ensures REDByValSrcIndexKey(Addr2, Addr1, Addr3) == [0x35] + Addr1 + Addr2 + Addr3
  {
  }
}
