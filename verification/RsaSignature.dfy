/** RSASSA-PKCS1-v1_5 with SHA-256: signing as the GitHub App client does it,
    and verification as section 8.2.2 of RFC 8017 defines it. */
module RsaSignature {
  import opened Results
  import opened Bytes
  import opened RsaKey

  const HASH_BYTES := 32
  const MIN_PADDING := 8

  /** The DER prefix of a SHA-256 DigestInfo (section 9.2, note 1, of RFC 8017). */
  const DIGEST_INFO: seq<Byte> :=
    [0x30, 0x31, 0x30, 0x0d, 0x06, 0x09, 0x60, 0x86, 0x48, 0x01,
     0x65, 0x03, 0x04, 0x02, 0x01, 0x05, 0x00, 0x04, 0x20]

  type Hash = h: seq<Byte> | |h| == HASH_BYTES witness seq(32, i => 0)

  function ModulusBytes(modulus: nat): nat {
    (BitLength(modulus) + 7) / 8
  }

  function Padding(length: nat): seq<Byte> {
    seq(length, i => 0xff)
  }

  /** EMSA-PKCS1-v1_5 (section 9.2 of RFC 8017). */
  function Encoded(hash: Hash, padding: nat): (em: seq<Byte>)
    ensures |em| == padding + 54
  {
    [0x00, 0x01] + Padding(padding) + [0x00] + (DIGEST_INFO + hash)
  }

  function ModPow(base: nat, exponent: nat, modulus: nat): (r: nat)
    requires modulus > 0
    ensures r < modulus
  {
    Pow(base, exponent) % modulus
  }

  /** Room for the padding that the encoding method requires. */
  predicate CanEncode(modulus: nat) {
    ModulusBytes(modulus) >= 54 + MIN_PADDING
  }

  function Sign(key: Key, hash: Hash): Result<seq<Byte>> {
    var size := ModulusBytes(key.modulus);
    if size < 54 + MIN_PADDING then Refused("GITHUB_KEY") else
    var encoded := FromBytes(Encoded(hash, size - 54));
    assert key.modulus > 0;
    var signature := ModPow(encoded, key.privateExponent, key.modulus);
    if ModPow(signature, key.publicExponent, key.modulus) != encoded then Refused("GITHUB_KEY") else
    Ok(ToBytes(signature, size))
  }

  /** RSASSA-PKCS1-v1_5-VERIFY (section 8.2.2 of RFC 8017). */
  predicate Verifies(modulus: nat, publicExponent: nat, hash: Hash, signature: seq<Byte>)
    requires CanEncode(modulus)
  {
    var size := ModulusBytes(modulus);
    assert modulus > 0;
    && |signature| == size
    && FromBytes(signature) < modulus
    && ToBytes(ModPow(FromBytes(signature), publicExponent, modulus), size) == Encoded(hash, size - 54)
  }

  /** A number is below 256 to the number of bytes its bit length needs, and not
      below 256 to one byte less. */
  lemma ModulusBounds(modulus: nat)
    requires modulus > 0
    ensures ModulusBytes(modulus) > 0
    ensures Pow(256, ModulusBytes(modulus) - 1) <= modulus < Pow(256, ModulusBytes(modulus))
  {
    hide Pow;
    var bits, size := BitLength(modulus), ModulusBytes(modulus);
    BitLengthBounds(modulus);
    Pow256(size);
    Pow256(size - 1);
    PowMonotone(2, bits, 8 * size);
    PowMonotone(2, 8 * (size - 1), bits - 1);
  }

  /** The encoded message is exactly as long as the modulus, and below it. */
  lemma EncodedFits(modulus: nat, hash: Hash)
    requires CanEncode(modulus)
    ensures var em := Encoded(hash, ModulusBytes(modulus) - 54);
            |em| == ModulusBytes(modulus) && FromBytes(em) < modulus
  {
    hide Pow, FromBytes, BitLength;
    var size := ModulusBytes(modulus);
    var em := Encoded(hash, size - 54);
    assert modulus > 0 by { BitLengthZero(modulus); }
    ModulusBounds(modulus);
    assert em == [0x00] + em[1..];
    LeadingZero(em[1..]);
    FromBytesBound(em[1..]);
  }

  lemma BitLengthZero(n: nat)
    ensures BitLength(n) > 0 ==> n > 0
  {
  }

  /** Distinct hashes have distinct encodings. */
  lemma EncodedInjective(a: Hash, b: Hash, padding: nat)
    ensures Encoded(a, padding) == Encoded(b, padding) <==> a == b
  {
    assert Encoded(a, padding)[padding + 22..] == a;
    assert Encoded(b, padding)[padding + 22..] == b;
  }

  /** A returned signature has the modulus length, is below the modulus, and
      verifies for the signed hash and for no other. */
  lemma SignatureVerifies(key: Key, hash: Hash, other: Hash)
    requires Sign(key, hash).Ok?
    ensures CanEncode(key.modulus) && ModulusBytes(key.modulus) - 54 >= 8
    ensures var s := Sign(key, hash).value;
            && |s| == ModulusBytes(key.modulus)
            && FromBytes(s) < key.modulus
            && (Verifies(key.modulus, key.publicExponent, other, s) <==> other == hash)
  {
    hide Pow, FromBytes, ToBytes, BitLength, Encoded;
    var size := ModulusBytes(key.modulus);
    var em := Encoded(hash, size - 54);
    BitLengthZero(key.modulus);
    ModulusBounds(key.modulus);
    EncodedFits(key.modulus, hash);
    var signature := ModPow(FromBytes(em), key.privateExponent, key.modulus);
    ToThenFrom(signature, size);
    FromThenTo(em);
    EncodedInjective(hash, other, size - 54);
  }

  /** Signing succeeds exactly when the modulus has room for the encoding and the
      two exponents undo each other on the encoded message. */
  lemma SignsExactly(key: Key, hash: Hash)
    ensures Sign(key, hash).Ok? <==>
            && CanEncode(key.modulus)
            && key.modulus > 0
            && var m := FromBytes(Encoded(hash, ModulusBytes(key.modulus) - 54));
               ModPow(m, key.privateExponent * key.publicExponent, key.modulus) == m
  {
    hide Pow, FromBytes, ToBytes, BitLength, Encoded;
    if CanEncode(key.modulus) {
      BitLengthZero(key.modulus);
      var m := FromBytes(Encoded(hash, ModulusBytes(key.modulus) - 54));
      PowModBase(Pow(m, key.privateExponent), key.publicExponent, key.modulus);
      PowTimes(m, key.privateExponent, key.publicExponent);
    }
  }

  // ---- The encoding, byte by byte ----

  /** A number in base 128, every byte but the last with its top bit set. */
  function Base128(n: nat): seq<Byte> {
    Leading(n / 0x80) + [n % 0x80]
  }

  function Leading(n: nat): seq<Byte> {
    if n == 0 then [] else Leading(n / 0x80) + [0x80 + n % 0x80]
  }

  /** The content of SHA-256's object identifier, 2.16.840.1.101.3.4.2.1; the first two
      arcs share a number. */
  function Sha256Identifier(): seq<Byte> {
    Base128(40 * 2 + 16) + Base128(840) + Base128(1) + Base128(101) + Base128(3) + Base128(4) + Base128(2) + Base128(1)
  }

  lemma IdentifierBytes()
    ensures Sha256Identifier() == [0x60, 0x86, 0x48, 0x01, 0x65, 0x03, 0x04, 0x02, 0x01]
  {
    assert Base128(840) == [0x86, 0x48];
  }

  /** The DigestInfo of a hash: a SEQUENCE of the algorithm, itself a SEQUENCE of an
      OBJECT IDENTIFIER and NULL, and the hash as an OCTET STRING. */
  ghost predicate IsDigestInfo(data: seq<Byte>, hash: Hash) {
    exists identifier, nothing, algorithm, digest ::
      && IsTlv(identifier, 0x06, Sha256Identifier()) && IsTlv(nothing, 0x05, []) && IsTlv(digest, 0x04, hash)
      && IsTlv(algorithm, 0x30, identifier + nothing) && IsTlv(data, 0x30, algorithm + digest)
  }

  function Short(tag: Byte, content: seq<Byte>): seq<Byte>
    requires |content| < 0x80
  {
    [tag, |content|] + content
  }

  lemma PrefixIsDigestInfo(hash: Hash)
    ensures IsDigestInfo(DIGEST_INFO + hash, hash)
  {
    hide IsTlv, Sha256Identifier, Short;
    IdentifierBytes();
    ShortTlv(0x06, Sha256Identifier());
    ShortTlv(0x05, []);
    ShortTlv(0x04, hash);
    var identifier, nothing, digest := Short(0x06, Sha256Identifier()), Short(0x05, []), Short(0x04, hash);
    ShortTlv(0x30, identifier + nothing);
    var algorithm := Short(0x30, identifier + nothing);
    ShortTlv(0x30, algorithm + digest);
    PrefixJoined(hash);
  }

  lemma PrefixJoined(hash: Hash)
    ensures |Sha256Identifier()| == 9
    ensures DIGEST_INFO + hash
         == Short(0x30, Short(0x30, Short(0x06, Sha256Identifier()) + Short(0x05, [])) + Short(0x04, hash))
  {
    hide Sha256Identifier;
    IdentifierBytes();
    assert Short(0x30, Short(0x06, Sha256Identifier()) + Short(0x05, [])) == DIGEST_INFO[2..17];
  }

  lemma ShortTlv(tag: Byte, content: seq<Byte>)
    requires |content| < 0x80
    ensures IsTlv(Short(tag, content), tag, content) && |Short(tag, content)| == |content| + 2
  {
    var header: seq<Byte> := [|content|];
    assert IsLength(header, |content|);
    assert Short(tag, content) == [tag] + header + content;
  }

  /** What is signed, byte by byte: 0x00 0x01, as many bytes 0xff as fill the modulus,
      0x00, and the DigestInfo of the hash with SHA-256's identifier. */
  lemma EncodedBytes(hash: Hash, padding: nat)
    ensures var em := Encoded(hash, padding);
            && em[0] == 0x00 && em[1] == 0x01 && em[padding + 2] == 0x00
            && (forall i :: 2 <= i < padding + 2 ==> em[i] == 0xff)
            && IsDigestInfo(em[padding + 3..], hash)
  {
    hide IsDigestInfo;
    assert Encoded(hash, padding)[padding + 3..] == DIGEST_INFO + hash;
    PrefixIsDigestInfo(hash);
  }

  /** Every key the parser accepts has room for the encoding. */
  lemma ParsedKeyCanEncode(key: Key)
    requires RsaKey.Acceptable(key)
    ensures CanEncode(key.modulus)
  {
  }
}
