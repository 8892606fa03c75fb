/**
 The dual-recipient memo: [scheme][nonce][ciphertext][tag] in hexadecimal, under a key both ends derive,
 and the fixed 97-byte address layout that travels in one. Key agreement and AEAD are parameters.
 */
module Memo {
  import opened Wrappers
  import opened Utf16
  import opened Hex

  const SCHEME: Byte := 1
  const SCHEME_LENGTH := 1
  const NONCE_LENGTH := 12
  const TAG_LENGTH := 16

  datatype Cipher = Cipher(
    publicOf: Bytes -> Bytes,
    sharedSecret: (Bytes, Bytes) -> Bytes,                 // own private key, other public key
    memoKey: Bytes -> Bytes,
    seal: (Bytes, Bytes, Bytes) -> (Bytes, Bytes),         // key, nonce, plaintext
    open: (Bytes, Bytes, Bytes, Bytes) -> Option<Bytes>)   // key, nonce, ciphertext, tag

  /** Key agreement is commutative, and an AEAD opens what it sealed. */
  ghost predicate Lawful(c: Cipher) {
    && (forall a, b :: c.sharedSecret(a, c.publicOf(b)) == c.sharedSecret(b, c.publicOf(a)))
    && (forall key, nonce, plain :: |nonce| == NONCE_LENGTH ==>
          var (ciphertext, tag) := c.seal(key, nonce, plain);
          |ciphertext| == |plain| && |tag| == TAG_LENGTH && c.open(key, nonce, ciphertext, tag) == Some(plain))
  }

  /** `subarray(start, end)`: both ends are clamped, and a negative one counts from the back. */
  function Subarray(b: Bytes, start: int, end: int): Bytes {
    var from := Clamp(start, |b|);
    var to := Clamp(end, |b|);
    if from <= to then b[from..to] else []
  }

  function Clamp(index: int, length: nat): (i: nat)
    ensures i <= length
  {
    var i := if index < 0 then length + index else index;
    if i < 0 then 0 else if i > length then length else i
  }

  function Key(c: Cipher, privateKeyHex: Text, publicKeyHex: Text): Bytes {
    c.memoKey(c.sharedSecret(Decode(privateKeyHex), Decode(publicKeyHex)))
  }

  function Encrypt(c: Cipher, plain: Bytes, ownPrivateKeyHex: Text, otherPublicKeyHex: Text, nonce: Bytes): Text {
    var (ciphertext, tag) := c.seal(Key(c, ownPrivateKeyHex, otherPublicKeyHex), nonce, plain);
    Encode([SCHEME] + nonce + ciphertext + tag)
  }

  /** None where decryption throws. */
  function Decrypt(c: Cipher, memoHex: Text, ownPrivateKeyHex: Text, otherPublicKeyHex: Text): Option<Bytes> {
    var memo := Decode(memoHex);
    if memo == [] || memo[0] != SCHEME then None
    else
      var nonce := Subarray(memo, SCHEME_LENGTH, SCHEME_LENGTH + NONCE_LENGTH);
      var tag := Subarray(memo, |memo| - TAG_LENGTH, |memo|);
      var ciphertext := Subarray(memo, SCHEME_LENGTH + NONCE_LENGTH, |memo| - TAG_LENGTH);
      if |nonce| != NONCE_LENGTH || |tag| != TAG_LENGTH then None
      else c.open(Key(c, ownPrivateKeyHex, otherPublicKeyHex), nonce, ciphertext, tag)
  }

  /**
   A memo opens exactly if it begins with the scheme's byte, is long enough for nonce and tag, and the cipher opens what
   is between them. In one of fewer than 29 bytes the two overlap and nothing is between.
   */
  lemma DecryptsIff(c: Cipher, memoHex: Text, ownPrivateKeyHex: Text, otherPublicKeyHex: Text, plain: Bytes)
    ensures
      var memo := Decode(memoHex);
      var n := |memo|;
      Decrypt(c, memoHex, ownPrivateKeyHex, otherPublicKeyHex) == Some(plain) <==>
        && n >= 16 && memo[0] == 1
        && var secret := c.sharedSecret(Decode(ownPrivateKeyHex), Decode(otherPublicKeyHex));
           var ciphertext := if n >= 29 then memo[13..n - 16] else [];
           c.open(c.memoKey(secret), memo[1..13], ciphertext, memo[n - 16..]) == Some(plain)
  {
    var memo := Decode(memoHex);
    if |memo| >= 16 {
      assert Subarray(memo, |memo| - TAG_LENGTH, |memo|) == memo[|memo| - 16..];
      assert Subarray(memo, 1, 13) == memo[1..13];
    }
  }

  lemma FrameParts(nonce: Bytes, ciphertext: Bytes, tag: Bytes)
    requires |nonce| == NONCE_LENGTH && |tag| == TAG_LENGTH
    ensures
      var memo := [SCHEME] + nonce + ciphertext + tag;
      && Subarray(memo, SCHEME_LENGTH, SCHEME_LENGTH + NONCE_LENGTH) == nonce
      && Subarray(memo, |memo| - TAG_LENGTH, |memo|) == tag
      && Subarray(memo, SCHEME_LENGTH + NONCE_LENGTH, |memo| - TAG_LENGTH) == ciphertext
  {
  }

  /** Whoever holds the secret of either side reads the memo, with the other side's public key. */
  lemma OpensForBothSides(
    c: Cipher, plain: Bytes, ownPrivateHex: Text, ownPublicHex: Text, otherPrivateHex: Text, otherPublicHex: Text,
    nonce: Bytes)
    requires Lawful(c) && |nonce| == NONCE_LENGTH
    requires Decode(ownPublicHex) == c.publicOf(Decode(ownPrivateHex))
    requires Decode(otherPublicHex) == c.publicOf(Decode(otherPrivateHex))
    ensures
      var memo := Encrypt(c, plain, ownPrivateHex, otherPublicHex, nonce);
      && Decrypt(c, memo, otherPrivateHex, ownPublicHex) == Some(plain)
      && Decrypt(c, memo, ownPrivateHex, otherPublicHex) == Some(plain)
  {
    var key := Key(c, ownPrivateHex, otherPublicHex);
    assert key == Key(c, otherPrivateHex, ownPublicHex);
    var (ciphertext, tag) := c.seal(key, nonce, plain);
    FrameParts(nonce, ciphertext, tag);
    DecodeEncode([SCHEME] + nonce + ciphertext + tag);
  }

  // ---- address memos ----

  const ADDRESS_MEMO_PLAINTEXT_LENGTH := 97

  datatype EitherAddress = EitherAddress(isLeft: bool, left: Bytes, right: Bytes)

  /** All fields have the 32 bytes the chain gives them. */
  predicate FullSize(address: EitherAddress, salt: Bytes) {
    |address.left| == 32 && |address.right| == 32 && |salt| == 32
  }

  function EncodeAddress(address: EitherAddress, salt: Bytes): Bytes {
    [if address.isLeft then 1 else 0] + address.left + address.right + salt
  }

  function DecodeAddress(plain: Bytes): Option<(EitherAddress, Bytes)> {
    if |plain| != ADDRESS_MEMO_PLAINTEXT_LENGTH then None
    else
      Some((EitherAddress(plain[0] == 1, Subarray(plain, 1, 33), Subarray(plain, 33, 65)), Subarray(plain, 65, 97)))
  }

  lemma DecodeEncodeAddress(address: EitherAddress, salt: Bytes)
    requires FullSize(address, salt)
    ensures DecodeAddress(EncodeAddress(address, salt)) == Some((address, salt))
  {
    var plain := EncodeAddress(address, salt);
    assert plain[1..33] == address.left && plain[33..65] == address.right && plain[65..97] == salt;
  }

  /** Decoding accepts any first byte, and loses it exactly when it is neither of the two written ones. */
  lemma EncodeDecodeAddressIff(plain: Bytes)
    requires |plain| == ADDRESS_MEMO_PLAINTEXT_LENGTH
    ensures
      var (address, salt) := DecodeAddress(plain).value;
      FullSize(address, salt) && (EncodeAddress(address, salt) == plain <==> plain[0] <= 1)
  {
    var (address, salt) := DecodeAddress(plain).value;
    assert plain == [plain[0]] + plain[1..33] + plain[33..65] + plain[65..97];
    assert EncodeAddress(address, salt)[0] == if plain[0] == 1 then 1 else 0;
  }

  function EncryptAddress(
    c: Cipher, address: EitherAddress, salt: Bytes, ownPrivateKey: Bytes, otherPublicKey: Bytes, nonce: Bytes): Bytes
  {
    Decode(Encrypt(c, EncodeAddress(address, salt), Encode(ownPrivateKey), Encode(otherPublicKey), nonce))
  }

  function RecoverAddress(c: Cipher, memo: Bytes, ownPrivateKey: Bytes, otherPublicKey: Bytes)
    : Option<(EitherAddress, Bytes)>
  {
    match Decrypt(c, Encode(memo), Encode(ownPrivateKey), Encode(otherPublicKey))
    case None => None
    case Some(plain) => DecodeAddress(plain)
  }

  /** An address memo has 126 bytes, and both sides recover the address and its salt from it. */
  lemma AddressMemo(
    c: Cipher, address: EitherAddress, salt: Bytes, ownPrivateKey: Bytes, otherPrivateKey: Bytes, nonce: Bytes)
    requires Lawful(c) && FullSize(address, salt) && |nonce| == NONCE_LENGTH
    ensures
      var memo := EncryptAddress(c, address, salt, ownPrivateKey, c.publicOf(otherPrivateKey), nonce);
      && |memo| == 126
      && RecoverAddress(c, memo, otherPrivateKey, c.publicOf(ownPrivateKey)) == Some((address, salt))
      && RecoverAddress(c, memo, ownPrivateKey, c.publicOf(otherPrivateKey)) == Some((address, salt))
  {
    var ownHex, otherHex := Encode(ownPrivateKey), Encode(otherPrivateKey);
    var ownPublicHex, otherPublicHex := Encode(c.publicOf(ownPrivateKey)), Encode(c.publicOf(otherPrivateKey));
    DecodeEncode(ownPrivateKey);
    DecodeEncode(otherPrivateKey);
    DecodeEncode(c.publicOf(ownPrivateKey));
    DecodeEncode(c.publicOf(otherPrivateKey));
    var plain := EncodeAddress(address, salt);
    OpensForBothSides(c, plain, ownHex, ownPublicHex, otherHex, otherPublicHex, nonce);
    DecodeEncodeAddress(address, salt);
    var (ciphertext, tag) := c.seal(Key(c, ownHex, otherPublicHex), nonce, plain);
    var frame := [SCHEME] + nonce + ciphertext + tag;
    assert Encrypt(c, plain, ownHex, otherPublicHex, nonce) == Encode(frame);
    DecodeEncode(frame);
  }
}
