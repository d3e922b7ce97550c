/** Private-key parsing (DER, both the RSAPrivateKey of section A.1.2 of
    RFC 8017 and its PKCS#8 wrapping of section 5 of RFC 5208) and the
    RSASSA-PKCS1-v1_5 signature of section 8.2 of RFC 8017. */
module RsaKey {
  import opened Results
  import opened Bytes

  const INTEGER: Byte := 0x02
  const OCTETS: Byte := 0x04
  const SEQUENCE: Byte := 0x30
  const MIN_MODULUS_BITS := 2048

  /** The value of an element and the offset just after it. */
  datatype Read<+T> = Read(value: T, end: nat)

  // ---- The reader ----

  function ReadTlv(data: seq<Byte>, offset: nat, expected: Byte): (r: Option<Read<seq<Byte>>>)
    ensures r.Some? ==> offset < r.value.end <= |data|
  {
    if offset + 1 >= |data| || data[offset] != expected then None else
    var first := data[offset + 1];
    if first < 0x80 then Slice(data, offset + 2, first) else
    var count := first - 0x80;
    if count == 0 || count > 4 || offset + 2 + count > |data| then None else
    Slice(data, offset + 2 + count, FromBytes(data[offset + 2..offset + 2 + count]))
  }

  function Slice(data: seq<Byte>, start: nat, length: nat): (r: Option<Read<seq<Byte>>>)
    ensures r.Some? ==> start <= r.value.end <= |data|
  {
    if start + length > |data| then None else Some(Read(data[start..start + length], start + length))
  }

  predicate MinimalPositive(content: seq<Byte>) {
    && content != [] && content[0] < 0x80
    && (|content| > 1 && content[0] == 0 ==> content[1] >= 0x80)
  }

  function ReadInteger(data: seq<Byte>, offset: nat): (r: Option<Read<nat>>)
    ensures r.Some? ==> offset < r.value.end <= |data|
  {
    var tlv := ReadTlv(data, offset, INTEGER);
    if tlv.None? || !MinimalPositive(tlv.value.value) then None else
    Some(Read(FromBytes(tlv.value.value), tlv.value.end))
  }

  datatype Key = Key(modulus: nat, publicExponent: nat, privateExponent: nat)

  predicate Acceptable(key: Key) {
    && BitLength(key.modulus) >= MIN_MODULUS_BITS
    && key.publicExponent >= 3 && key.publicExponent % 2 == 1
    && key.privateExponent >= 2
  }

  function ReadVersion(outer: seq<Byte>): (r: Option<nat>)
    ensures r.Some? ==> r.value <= |outer|
  {
    var version := ReadInteger(outer, 0);
    if version.None? || version.value.value > 1 then None else Some(version.value.end)
  }

  function ReadNumbers(outer: seq<Byte>, position: nat): (r: Option<Key>)
    ensures r.Some? ==> Acceptable(r.value)
  {
    var modulus := ReadInteger(outer, position);
    if modulus.None? then None else
    var publicExponent := ReadInteger(outer, modulus.value.end);
    if publicExponent.None? then None else
    var privateExponent := ReadInteger(outer, publicExponent.value.end);
    if privateExponent.None? then None else
    var key := Key(modulus.value.value, publicExponent.value.value, privateExponent.value.value);
    if Acceptable(key) then Some(key) else None
  }

  function Whole(data: seq<Byte>): Option<seq<Byte>> {
    var outer := ReadTlv(data, 0, SEQUENCE);
    if outer.None? || outer.value.end != |data| then None else Some(outer.value.value)
  }

  function RsaComponents(der: seq<Byte>): Option<Key> {
    var outer := Whole(der);
    if outer.None? then None else
    var position := ReadVersion(outer.value);
    if position.None? then None else
    if position.value < |outer.value| && outer.value[position.value] == SEQUENCE then
      Unwrap(outer.value, position.value)
    else
      ReadNumbers(outer.value, position.value)
  }

  /** PKCS#8: the PKCS#1 key follows an algorithm identifier. */
  function Unwrap(outer: seq<Byte>, position: nat): (r: Option<Key>)
    ensures r.Some? ==> Acceptable(r.value)
  {
    var algorithm := ReadTlv(outer, position, SEQUENCE);
    if algorithm.None? then None else
    var inner := ReadTlv(outer, algorithm.value.end, OCTETS);
    if inner.None? || inner.value.end != |outer| then None else
    var key := Whole(inner.value.value);
    if key.None? then None else
    var version := ReadVersion(key.value);
    if version.None? then None else ReadNumbers(key.value, version.value)
  }

  // ---- What the bytes of a key are ----

  /** A length of up to four bytes, or below 128 in one; the reader does not ask
      for the shortest form. */
  predicate IsLength(header: seq<Byte>, n: nat) {
    || (|header| == 1 && header[0] < 0x80 && header[0] == n)
    || (2 <= |header| <= 5 && header[0] == 0x80 + |header| - 1 && FromBytes(header[1..]) == n)
  }

  /** One element in DER: its tag, the length of its content, and the content. */
  ghost predicate IsTlv(data: seq<Byte>, tag: Byte, content: seq<Byte>) {
    exists header :: IsLength(header, |content|) && data == [tag] + header + content
  }

  /** The content of the DER encoding of a non-negative integer. */
  function IntegerContent(n: nat): seq<Byte> {
    var m := MinimalBytes(n);
    if m[0] >= 0x80 then [0] + m else m
  }

  ghost predicate IsInteger(data: seq<Byte>, n: nat) {
    IsTlv(data, 0x02, IntegerContent(n))
  }

  /** An RSAPrivateKey is a SEQUENCE, tag 0x30, of INTEGERs, tag 0x02, and PKCS#8 puts
      it into an OCTET STRING, tag 0x04. Its fields, each still encoded; `rest` stands
      for the prime factors and coefficients the reader does not look at. */
  datatype Fields = Fields(version: seq<Byte>, modulus: seq<Byte>, publicExponent: seq<Byte>,
                           privateExponent: seq<Byte>, rest: seq<Byte>)
  {
    function Joined(): seq<Byte> {
      version + (modulus + (publicExponent + (privateExponent + rest)))
    }

    ghost predicate Encode(key: Key) {
      && (IsInteger(version, 0) || IsInteger(version, 1))
      && IsInteger(modulus, key.modulus)
      && IsInteger(publicExponent, key.publicExponent)
      && IsInteger(privateExponent, key.privateExponent)
    }
  }

  ghost predicate IsPkcs1(der: seq<Byte>, key: Key) {
    exists f: Fields :: f.Encode(key) && IsTlv(der, 0x30, f.Joined())
  }

  datatype Wrapping = Wrapping(version: seq<Byte>, algorithm: seq<Byte>, octets: seq<Byte>,
                               identifier: seq<Byte>, inner: seq<Byte>)
  {
    ghost predicate Wraps(key: Key) {
      && (IsInteger(version, 0) || IsInteger(version, 1))
      && IsTlv(algorithm, 0x30, identifier)
      && IsTlv(octets, 0x04, inner)
      && IsPkcs1(inner, key)
    }
  }

  ghost predicate IsPkcs8(der: seq<Byte>, key: Key) {
    exists w: Wrapping :: w.Wraps(key) && IsTlv(der, 0x30, w.version + (w.algorithm + w.octets))
  }

  /** The bounds in numbers: a modulus of 2048 bits or more, an odd public exponent of
      at least three, a private one of at least two. */
  lemma BoundsMean(key: Key)
    ensures Acceptable(key) <==>
              && key.modulus >= Pow(2, 2047) && key.privateExponent >= 2
              && key.publicExponent >= 3 && key.publicExponent % 2 == 1
  {
    hide BitLength, Pow;
    var bits := BitLength(key.modulus);
    SomePower(2047);
    if key.modulus > 0 {
      BitLengthBounds(key.modulus);
      if bits >= 2048 {
        PowMonotone(2, 2047, bits - 1);
      } else {
        PowMonotone(2, bits, 2047);
      }
    } else {
      NoBits();
    }
  }

  lemma NoBits()
    ensures BitLength(0) == 0
  {
  }

  lemma {:induction false} SomePower(e: nat)
    ensures Pow(2, e) > 0
  {
    if e > 0 {
      SomePower(e - 1);
    }
  }

  // ---- The reader accepts exactly those bytes ----

  lemma ReadTlvComplete(data: seq<Byte>, offset: nat, tag: Byte, element: seq<Byte>, content: seq<Byte>)
    requires offset + |element| <= |data| && data[offset..offset + |element|] == element
    requires IsTlv(element, tag, content)
    ensures ReadTlv(data, offset, tag) == Some(Read(content, offset + |element|))
  {
    var header :| IsLength(header, |content|) && element == [tag] + header + content;
    assert forall i :: 0 <= i < |element| ==> data[offset + i] == element[i];
    assert data[offset] == element[0] == tag;
    assert data[offset + 1] == element[1] == header[0];
    if |header| > 1 {
      var count := |header| - 1;
      var read := data[offset + 2..offset + 2 + count];
      assert forall i :: 0 <= i < count ==> read[i] == element[2 + i] == header[1 + i];
      assert read == header[1..];
    }
    assert data[offset + 1 + |header|..offset + |element|] == content;
  }

  lemma ReadTlvSound(data: seq<Byte>, offset: nat, tag: Byte)
    requires ReadTlv(data, offset, tag).Some?
    ensures var r := ReadTlv(data, offset, tag).value; IsTlv(data[offset..r.end], tag, r.value)
  {
    var r := ReadTlv(data, offset, tag).value;
    var first := data[offset + 1];
    var size := if first < 0x80 then 1 else 1 + (first - 0x80);
    var header := data[offset + 1..offset + 1 + size];
    assert size > 1 ==> header[1..] == data[offset + 2..offset + 1 + size];
    assert IsLength(header, |r.value|);
    assert data[offset..r.end] == [tag] + header + r.value;
  }

  lemma LeadingZero(bs: seq<Byte>)
    ensures FromBytes([0] + bs) == FromBytes(bs)
  {
    FromBytesConcat([0], bs);
    assert [0][..0] == [];
    assert FromBytes([0]) == 0;
  }

  lemma IntegerContentUnique(content: seq<Byte>)
    requires MinimalPositive(content)
    ensures IntegerContent(FromBytes(content)) == content
  {
    if |content| > 1 && content[0] == 0 {
      var rest := content[1..];
      MinimalUnique(rest);
      LeadingZero(rest);
      assert content == [0] + rest;
    } else {
      MinimalUnique(content);
    }
  }

  lemma IntegerContentValid(n: nat)
    ensures MinimalPositive(IntegerContent(n)) && FromBytes(IntegerContent(n)) == n
  {
    var m := MinimalBytes(n);
    MinimalThenFrom(n);
    LeadingZero(m);
    if n == 0 {
      assert m == [0];
    }
  }

  lemma ReadIntegerComplete(data: seq<Byte>, offset: nat, element: seq<Byte>, n: nat)
    requires offset + |element| <= |data| && data[offset..offset + |element|] == element
    requires IsInteger(element, n)
    ensures ReadInteger(data, offset) == Some(Read(n, offset + |element|))
  {
    ReadTlvComplete(data, offset, INTEGER, element, IntegerContent(n));
    IntegerContentValid(n);
  }

  lemma ReadIntegerSound(data: seq<Byte>, offset: nat)
    requires ReadInteger(data, offset).Some?
    ensures var r := ReadInteger(data, offset).value; IsInteger(data[offset..r.end], r.value)
  {
    ReadTlvSound(data, offset, INTEGER);
    IntegerContentUnique(ReadTlv(data, offset, INTEGER).value.value);
  }

  /** What the successive reads of a key's numbers add up to. */
  lemma ReadChain(data: seq<Byte>, a: nat, b: nat, c: nat, d: nat, key: Key)
    requires ReadInteger(data, a) == Some(Read(key.modulus, b))
    requires ReadInteger(data, b) == Some(Read(key.publicExponent, c))
    requires ReadInteger(data, c) == Some(Read(key.privateExponent, d))
    ensures ReadNumbers(data, a) == if Acceptable(key) then Some(key) else None
  {
  }

  lemma ReadIntegerBetween(before: seq<Byte>, element: seq<Byte>, after: seq<Byte>, n: nat)
    requires IsInteger(element, n)
    ensures ReadInteger(before + (element + after), |before|) == Some(Read(n, |before| + |element|))
  {
    var data := before + (element + after);
    assert data[|before|..|before| + |element|] == element;
    ReadIntegerComplete(data, |before|, element, n);
  }

  lemma ReadFieldsComplete(f: Fields, key: Key)
    requires f.Encode(key)
    ensures ReadVersion(f.Joined()) == Some(|f.version|)
    ensures ReadNumbers(f.Joined(), |f.version|) == if Acceptable(key) then Some(key) else None
  {
    hide ReadInteger, IsInteger, Fields.Joined;
    ReadVersionField(f, key);
    var a := |f.version|;
    var b := ReadModulusField(f, key);
    var c := ReadPublicField(f, key);
    var d := ReadPrivateField(f, key);
    ReadChain(f.Joined(), a, b, c, d, key);
  }

  lemma VersionFirst(version: seq<Byte>, after: seq<Byte>)
    requires IsInteger(version, 0) || IsInteger(version, 1)
    ensures ReadVersion(version + after) == Some(|version|)
  {
    hide ReadInteger, IsInteger;
    var n := if IsInteger(version, 0) then 0 else 1;
    assert [] + (version + after) == version + after;
    ReadIntegerBetween([], version, after, n);
  }

  lemma ReadVersionField(f: Fields, key: Key)
    requires f.Encode(key)
    ensures ReadVersion(f.Joined()) == Some(|f.version|)
  {
    hide ReadInteger, IsInteger, ReadVersion;
    VersionFirst(f.version, f.modulus + (f.publicExponent + (f.privateExponent + f.rest)));
  }

  lemma ReadModulusField(f: Fields, key: Key) returns (end: nat)
    requires f.Encode(key)
    ensures end == |f.version| + |f.modulus|
    ensures ReadInteger(f.Joined(), |f.version|) == Some(Read(key.modulus, end))
  {
    hide ReadInteger, IsInteger;
    end := |f.version| + |f.modulus|;
    ReadIntegerBetween(f.version, f.modulus, f.publicExponent + (f.privateExponent + f.rest), key.modulus);
  }

  lemma ReadPublicField(f: Fields, key: Key) returns (end: nat)
    requires f.Encode(key)
    ensures end == |f.version| + |f.modulus| + |f.publicExponent|
    ensures ReadInteger(f.Joined(), |f.version| + |f.modulus|) == Some(Read(key.publicExponent, end))
  {
    hide ReadInteger, IsInteger;
    end := |f.version| + |f.modulus| + |f.publicExponent|;
    var before, after := f.version + f.modulus, f.privateExponent + f.rest;
    ReadIntegerBetween(before, f.publicExponent, after, key.publicExponent);
    assert before + (f.publicExponent + after) == f.Joined();
  }

  lemma ReadPrivateField(f: Fields, key: Key) returns (end: nat)
    requires f.Encode(key)
    ensures end == |f.version| + |f.modulus| + |f.publicExponent| + |f.privateExponent|
    ensures ReadInteger(f.Joined(), |f.version| + |f.modulus| + |f.publicExponent|)
            == Some(Read(key.privateExponent, end))
  {
    hide ReadInteger, IsInteger;
    end := |f.version| + |f.modulus| + |f.publicExponent| + |f.privateExponent|;
    var before := f.version + f.modulus + f.publicExponent;
    ReadIntegerBetween(before, f.privateExponent, f.rest, key.privateExponent);
    assert before + (f.privateExponent + f.rest) == f.Joined();
  }

  lemma ReadFieldsSound(data: seq<Byte>) returns (f: Fields)
    requires ReadVersion(data).Some? && ReadNumbers(data, ReadVersion(data).value).Some?
    ensures f.Encode(ReadNumbers(data, ReadVersion(data).value).value) && f.Joined() == data
  {
    hide ReadInteger, IsInteger, Fields.Joined;
    var a := ReadVersion(data).value;
    var m := ReadInteger(data, a).value;
    var e := ReadInteger(data, m.end).value;
    var d := ReadInteger(data, e.end).value;
    f := Cut(data, a, m.end, e.end, d.end);
    ReadIntegerSound(data, 0);
    ReadIntegerSound(data, a);
    ReadIntegerSound(data, m.end);
    ReadIntegerSound(data, e.end);
  }

  lemma Cut(data: seq<Byte>, a: nat, b: nat, c: nat, d: nat) returns (f: Fields)
    requires a <= b <= c <= d <= |data|
    ensures f.version == data[0..a] && f.modulus == data[a..b] && f.publicExponent == data[b..c]
    ensures f.privateExponent == data[c..d] && f.Joined() == data
  {
    f := Fields(data[0..a], data[a..b], data[b..c], data[c..d], data[d..]);
    assert f.privateExponent + f.rest == data[c..];
    assert f.publicExponent + data[c..] == data[b..];
    assert f.modulus + data[b..] == data[a..];
  }

  lemma WholeComplete(der: seq<Byte>, content: seq<Byte>)
    requires IsTlv(der, SEQUENCE, content)
    ensures Whole(der) == Some(content)
  {
    assert der[0..|der|] == der;
    ReadTlvComplete(der, 0, SEQUENCE, der, content);
  }

  lemma WholeSound(der: seq<Byte>)
    requires Whole(der).Some?
    ensures IsTlv(der, SEQUENCE, Whole(der).value)
  {
    ReadTlvSound(der, 0, SEQUENCE);
    assert der[0..|der|] == der;
  }

  lemma IntegerTag(element: seq<Byte>, n: nat)
    requires IsInteger(element, n)
    ensures |element| > 1 && element[0] == INTEGER
  {
    TagOf(element, INTEGER, IntegerContent(n));
  }

  lemma TagOf(element: seq<Byte>, tag: Byte, content: seq<Byte>)
    requires IsTlv(element, tag, content)
    ensures |element| > 1 && element[0] == tag
  {
  }

  lemma WrappedPieces(w: Wrapping)
    ensures var outer := w.version + (w.algorithm + w.octets);
            var a, b := |w.version|, |w.version| + |w.algorithm|;
            outer[a..b] == w.algorithm && outer[b..b + |w.octets|] == w.octets && |outer| == b + |w.octets|
  {
  }

  lemma UnwrapComplete(w: Wrapping, key: Key)
    requires w.Wraps(key) && Acceptable(key)
    ensures var outer := w.version + (w.algorithm + w.octets);
            && ReadVersion(outer) == Some(|w.version|)
            && |w.version| < |outer| && outer[|w.version|] == SEQUENCE
            && Unwrap(outer, |w.version|) == Some(key)
  {
    hide ReadInteger, IsInteger, IsTlv, ReadTlv, ReadVersion, ReadNumbers, Whole, Acceptable, IsPkcs1;
    var outer := w.version + (w.algorithm + w.octets);
    var a := |w.version|;
    var b := a + |w.algorithm|;
    WrappedPieces(w);
    VersionFirst(w.version, w.algorithm + w.octets);
    TagOf(w.algorithm, SEQUENCE, w.identifier);
    ReadTlvComplete(outer, a, SEQUENCE, w.algorithm, w.identifier);
    ReadTlvComplete(outer, b, OCTETS, w.octets, w.inner);
    Pkcs1Fields(w.inner, key);
    assert outer[a] == w.algorithm[0];
  }

  lemma Pkcs1Fields(der: seq<Byte>, key: Key)
    requires IsPkcs1(der, key) && Acceptable(key)
    ensures Whole(der).Some? && ReadVersion(Whole(der).value).Some?
    ensures var outer := Whole(der).value;
            var position := ReadVersion(outer).value;
            && ReadNumbers(outer, position) == Some(key)
            && position < |outer| && outer[position] == INTEGER
  {
    hide ReadNumbers, ReadVersion, Whole, IsTlv, IsInteger;
    var f: Fields :| f.Encode(key) && IsTlv(der, SEQUENCE, f.Joined());
    WholeComplete(der, f.Joined());
    ReadFieldsComplete(f, key);
    IntegerTag(f.modulus, key.modulus);
    assert f.Joined()[|f.version|] == f.modulus[0];
  }

  /** A PKCS#1 key is read back as exactly its three numbers. */
  lemma Pkcs1Complete(der: seq<Byte>, key: Key)
    requires IsPkcs1(der, key) && Acceptable(key)
    ensures RsaComponents(der) == Some(key)
  {
    hide ReadNumbers, ReadVersion, Whole, Unwrap, IsPkcs1;
    Pkcs1Fields(der, key);
  }

  /** So is a key in the PKCS#8 wrapping, whatever its algorithm identifier. */
  lemma Pkcs8Complete(der: seq<Byte>, key: Key)
    requires IsPkcs8(der, key) && Acceptable(key)
    ensures RsaComponents(der) == Some(key)
  {
    hide ReadNumbers, ReadVersion, Whole, Unwrap, Wrapping.Wraps, IsTlv;
    var w: Wrapping :| w.Wraps(key) && IsTlv(der, SEQUENCE, w.version + (w.algorithm + w.octets));
    WholeComplete(der, w.version + (w.algorithm + w.octets));
    UnwrapComplete(w, key);
  }

  lemma UnwrapSound(der: seq<Byte>, outer: seq<Byte>, position: nat)
    requires IsTlv(der, SEQUENCE, outer)
    requires ReadVersion(outer) == Some(position) && Unwrap(outer, position).Some?
    ensures IsPkcs8(der, Unwrap(outer, position).value)
  {
    hide ReadInteger, IsInteger, IsTlv, ReadTlv, ReadNumbers, Fields.Encode, Fields.Joined;
    var key := Unwrap(outer, position).value;
    var algorithm := ReadTlv(outer, position, SEQUENCE).value;
    var octets := ReadTlv(outer, algorithm.end, OCTETS).value;
    ReadIntegerSound(outer, 0);
    ReadTlvSound(outer, position, SEQUENCE);
    ReadTlvSound(outer, algorithm.end, OCTETS);
    WholeSound(octets.value);
    var f := ReadFieldsSound(Whole(octets.value).value);
    assert IsPkcs1(octets.value, key);
    var w := Wrapping(outer[..position], outer[position..algorithm.end], outer[algorithm.end..],
                      algorithm.value, octets.value);
    assert outer[0..position] == outer[..position];
    assert outer[algorithm.end..|outer|] == outer[algorithm.end..];
    assert w.algorithm + w.octets == outer[position..];
    assert w.version + outer[position..] == outer;
    assert w.Wraps(key);
  }

  /** The reader returns a key exactly for the encodings of that key within the
      code's bounds: nothing else is accepted and nothing is misread. */
  lemma RsaComponentsExact(der: seq<Byte>, key: Key)
    ensures RsaComponents(der) == Some(key) <==>
            Acceptable(key) && (IsPkcs1(der, key) || IsPkcs8(der, key))
  {
    hide ReadNumbers, ReadVersion, Whole, Unwrap, IsPkcs8, IsTlv;
    if Acceptable(key) && IsPkcs1(der, key) {
      Pkcs1Complete(der, key);
    } else if Acceptable(key) && IsPkcs8(der, key) {
      Pkcs8Complete(der, key);
    }
    if RsaComponents(der) == Some(key) {
      WholeSound(der);
      var outer := Whole(der).value;
      var position := ReadVersion(outer).value;
      if position < |outer| && outer[position] == SEQUENCE {
        UnwrapSound(der, outer, position);
      } else {
        var f := ReadFieldsSound(outer);
      }
    }
  }

  // ---- DER encodings ----

  /** The distinguished encoding of a length, the shortest one. */
  function DerLength(n: nat): seq<Byte>
    requires n < Pow(256, 4)
  {
    MinimalLength(n, 4);
    if n < 0x80 then [n] else [0x80 + |MinimalBytes(n)|] + MinimalBytes(n)
  }

  predicate Fits(content: seq<Byte>) {
    |content| < Pow(256, 4)
  }

  function Der(tag: Byte, content: seq<Byte>): seq<Byte>
    requires Fits(content)
  {
    [tag] + DerLength(|content|) + content
  }

  lemma DerIsTlv(tag: Byte, content: seq<Byte>)
    requires Fits(content)
    ensures IsTlv(Der(tag, content), tag, content)
  {
    var n := |content|;
    MinimalLength(n, 4);
    MinimalThenFrom(n);
    assert n >= 0x80 ==> DerLength(n)[1..] == MinimalBytes(n);
    assert IsLength(DerLength(n), n);
  }

  predicate IntegerFits(n: nat) {
    Fits(IntegerContent(n))
  }

  function DerInteger(n: nat): seq<Byte>
    requires IntegerFits(n)
  {
    Der(INTEGER, IntegerContent(n))
  }

  predicate KeyFits(key: Key) {
    IntegerFits(0) && IntegerFits(key.modulus) && IntegerFits(key.publicExponent) && IntegerFits(key.privateExponent)
  }

  /** The RSAPrivateKey sequence, `rest` being the encoded primes, exponents and
      coefficient that follow the three numbers read here. */
  function DerKey(key: Key, rest: seq<Byte>): Fields
    requires KeyFits(key)
  {
    Fields(DerInteger(0), DerInteger(key.modulus), DerInteger(key.publicExponent), DerInteger(key.privateExponent), rest)
  }

  lemma DerKeyEncodes(key: Key, rest: seq<Byte>)
    requires KeyFits(key)
    ensures DerKey(key, rest).Encode(key)
  {
    DerIsTlv(INTEGER, IntegerContent(0));
    DerIsTlv(INTEGER, IntegerContent(key.modulus));
    DerIsTlv(INTEGER, IntegerContent(key.publicExponent));
    DerIsTlv(INTEGER, IntegerContent(key.privateExponent));
  }

  /** Writing a key and reading it gives the key, in both formats. */
  lemma DerRoundTrip(key: Key, rest: seq<Byte>, identifier: seq<Byte>)
    requires KeyFits(key) && Acceptable(key)
    requires Fits(DerKey(key, rest).Joined()) && Fits(identifier)
    ensures var pkcs1 := Der(SEQUENCE, DerKey(key, rest).Joined());
            && RsaComponents(pkcs1) == Some(key)
            && (Fits(pkcs1) ==>
                  var wrapped := DerInteger(0) + (Der(SEQUENCE, identifier) + Der(OCTETS, pkcs1));
                  Fits(wrapped) ==> RsaComponents(Der(SEQUENCE, wrapped)) == Some(key))
  {
    hide RsaComponents, Der, Acceptable, DerKey, Fields.Joined, Fields.Encode, IntegerContent, IsTlv;
    var f := DerKey(key, rest);
    var pkcs1 := Der(SEQUENCE, f.Joined());
    DerKeyEncodes(key, rest);
    DerIsTlv(SEQUENCE, f.Joined());
    assert IsPkcs1(pkcs1, key);
    RsaComponentsExact(pkcs1, key);
    if Fits(pkcs1) {
      var wrapped := DerInteger(0) + (Der(SEQUENCE, identifier) + Der(OCTETS, pkcs1));
      if Fits(wrapped) {
        var w := Wrapping(DerInteger(0), Der(SEQUENCE, identifier), Der(OCTETS, pkcs1), identifier, pkcs1);
        DerIsTlv(INTEGER, IntegerContent(0));
        DerIsTlv(SEQUENCE, identifier);
        DerIsTlv(OCTETS, pkcs1);
        DerIsTlv(SEQUENCE, wrapped);
        assert w.Wraps(key);
        assert IsPkcs8(Der(SEQUENCE, wrapped), key);
        RsaComponentsExact(Der(SEQUENCE, wrapped), key);
      }
    }
  }
}
