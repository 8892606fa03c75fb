/**
 Document hashes and signatures. The hash, the text encoding and the signature scheme are parameters;
 what a lemma needs of them it says. Everything else, hexadecimal detours included, is spelled out.
 */
module DocumentCrypto {
  import opened Wrappers
  import opened Utf16
  import opened Json
  import opened Canonical
  import opened Hex

  datatype Primitives = Primitives(
    sha256: Bytes -> Bytes,
    utf8: Text -> Bytes,
    sign: (Text, Bytes) -> Text,           // private key, message
    verify: (Text, Bytes, Text) -> bool)   // public key, message, signature

  /** Digests have 32 bytes. */
  ghost predicate DigestLength(p: Primitives) {
    forall b :: |p.sha256(b)| == 32
  }

  /** The two keys belong together: what one signs, the other accepts. */
  ghost predicate KeyPair(p: Primitives, privateKey: Text, publicKey: Text) {
    forall message :: p.verify(publicKey, message, p.sign(privateKey, message))
  }

  const DOMAIN: Text := Ascii("ublp-doc-v1:")

  function Sha256Hash(p: Primitives, text: Text): Text {
    Encode(p.sha256(p.utf8(text)))
  }

  /** The text a document hash is taken over. */
  function DocumentText(doc: Value): Text
    requires Legal(doc) && doc.Obj?
  {
    DOMAIN + CanonicalJson(doc).value
  }

  function Sha256HashDocument(p: Primitives, doc: Value): Text
    requires Legal(doc) && doc.Obj?
  {
    Encode(p.sha256(p.utf8(DocumentText(doc))))
  }

  /** The 64 bytes that bind a document hash to an identifier hash. */
  function Combined(documentHash: Text, documentIdHash: Text): Bytes {
    Decode(documentHash) + Decode(documentIdHash)
  }

  function CombinedSignatureHash(p: Primitives, documentHash: Text, documentIdHash: Text): Text {
    Encode(p.sha256(Combined(documentHash, documentIdHash)))
  }

  function SignDocument(p: Primitives, doc: Value, privateKey: Text, documentIdHash: Text): Text
    requires Legal(doc) && doc.Obj?
  {
    p.sign(privateKey, p.sha256(Combined(Sha256HashDocument(p, doc), documentIdHash)))
  }

  predicate VerifySignature(p: Primitives, doc: Value, signature: Text, publicKey: Text, documentIdHash: Text)
    requires Legal(doc) && doc.Obj?
  {
    p.verify(publicKey, p.sha256(Combined(Sha256HashDocument(p, doc), documentIdHash)), signature)
  }

  predicate VerifySignatureOverHash(p: Primitives, hashHex: Text, signature: Text, publicKey: Text) {
    p.verify(publicKey, Decode(hashHex), signature)
  }

  /**
   A signature survives every journey that keeps the document equal up to key order and undefined members,
   and the check over the combined hash, which never sees the document, gives the same answer.
   */
  lemma SignatureSurvivesTransport(
    p: Primitives, doc: Value, received: Value, privateKey: Text, publicKey: Text, documentIdHash: Text)
    requires Legal(doc) && doc.Obj? && Legal(received) && Same(doc, received)
    requires KeyPair(p, privateKey, publicKey)
    ensures received.Obj?
    ensures
      var signature := SignDocument(p, doc, privateKey, documentIdHash);
      && VerifySignature(p, received, signature, publicKey, documentIdHash)
      && VerifySignatureOverHash(
           p, CombinedSignatureHash(p, Sha256HashDocument(p, received), documentIdHash), signature, publicKey)
  {
    CanonicalJsonIsComplete(doc, received);
    DecodeEncode(p.sha256(Combined(Sha256HashDocument(p, doc), documentIdHash)));
  }

  /** Document hashes agree exactly for equal documents, unless the two hashed texts are a collision. */
  lemma DocumentHashIdentifies(p: Primitives, a: Value, b: Value)
    requires Legal(a) && a.Obj? && Legal(b) && b.Obj?
    requires p.sha256(p.utf8(DocumentText(a))) == p.sha256(p.utf8(DocumentText(b))) ==>
               DocumentText(a) == DocumentText(b)
    ensures Sha256HashDocument(p, a) == Sha256HashDocument(p, b) <==> Same(a, b)
  {
    CanonicalJsonIsComplete(a, b);
    if Sha256HashDocument(p, a) == Sha256HashDocument(p, b) {
      EncodeInjective(p.sha256(p.utf8(DocumentText(a))), p.sha256(p.utf8(DocumentText(b))));
      assert CanonicalJson(a).value == DocumentText(a)[|DOMAIN|..];
      assert CanonicalJson(b).value == DocumentText(b)[|DOMAIN|..];
    }
  }

  /** The spelling this code prints digests in. */
  predicate IsDigestText(t: Text) {
    |t| == 64 && IsLowerHex(t)
  }

  lemma DigestText(digest: Bytes)
    requires |digest| == 32
    ensures IsDigestText(Encode(digest))
  {
    EncodeIsLowerHex(digest);
  }

  /**
   A verifier that reads two hashes from text sees the signed bytes under many spellings. The texts are
   the signer's own exactly when each is 64 lower-case digits.
   */
  lemma SignedTextsIffDigestTexts(d1: Bytes, d2: Bytes, documentHash: Text, documentIdHash: Text)
    requires |d1| == 32 && |d2| == 32
    requires Combined(documentHash, documentIdHash) == d1 + d2
    ensures documentHash == Encode(d1) && documentIdHash == Encode(d2)
        <==> IsDigestText(documentHash) && IsDigestText(documentIdHash)
  {
    DigestText(d1);
    DigestText(d2);
    if IsDigestText(documentHash) && IsDigestText(documentIdHash) {
      EncodeDecode(documentHash);
      EncodeDecode(documentIdHash);
      assert Decode(documentHash) == (d1 + d2)[..32] == d1;
      assert Decode(documentIdHash) == (d1 + d2)[32..] == d2;
    }
  }

  /** The second text alone is the signer's own exactly when it is 64 lower-case digits, whatever the first one is. */
  lemma SecondTextIffDigestText(d1: Bytes, d2: Bytes, documentHash: Text, documentIdHash: Text)
    requires |d2| == 32 && Combined(documentHash, documentIdHash) == d1 + d2
    ensures documentIdHash == Encode(d2) <==> IsDigestText(documentIdHash)
  {
    DigestText(d2);
    if IsDigestText(documentIdHash) {
      EncodeDecode(documentIdHash);
      assert Decode(documentIdHash) == (d1 + d2)[|d1 + d2| - 32..] == d2;
    }
  }

  /**
   Two digests have many more texts: part of the second may move to the end of the first text, and anything that
   does not begin with two digits may follow.
   */
  lemma MovedBoundary(d1: Bytes, d2: Bytes, n: nat, rest: Text)
    requires n <= |d2| && Stops(rest)
    ensures Combined(Encode(d1 + d2[..n]), Encode(d2[n..]) + rest) == d1 + d2
    ensures n > 0 || rest != [] ==> Encode(d2[n..]) + rest != Encode(d2)
  {
    DecodeEncode(d1 + d2[..n]);
    DecodeConcat(d2[n..], rest);
    assert Decode(rest) == [];
    assert d1 + d2[..n] + d2[n..] == d1 + d2;
    if Encode(d2[n..]) + rest == Encode(d2) {
      DecodeEncode(d2);
      assert d2[n..] == d2;
      assert |Encode(d2[n..]) + rest| == |Encode(d2)|;
    }
  }

  /** Two texts stand for the signed bytes exactly when they spell them, cut in two anywhere. */
  lemma TextsOfBytes(bytes: Bytes, documentHash: Text, documentIdHash: Text)
    ensures
      Combined(documentHash, documentIdHash) == bytes <==>
      exists n :: 0 <= n <= |bytes| && Spells(documentHash, bytes[..n]) && Spells(documentIdHash, bytes[n..])
  {
    var front, back := Decode(documentHash), Decode(documentIdHash);
    if front + back == bytes {
      DecodesToIffSpells(documentHash, bytes[..|front|]);
      DecodesToIffSpells(documentIdHash, bytes[|front|..]);
    }
    forall n | 0 <= n <= |bytes| && Spells(documentHash, bytes[..n]) && Spells(documentIdHash, bytes[n..])
      ensures front + back == bytes
    {
      DecodesToIffSpells(documentHash, bytes[..n]);
      DecodesToIffSpells(documentIdHash, bytes[n..]);
    }
  }
}
