// backend/crypto/aes.py, and the whole stack: encode, encrypt, frame, rechunk, deframe, decrypt, decode.

module SecureChannel {
  import opened Bytes
  import opened Framing
  import opened KeyExchange

  const KEY_SIZE: nat := 32
  const NONCE_SIZE: nat := 12
  const TAG_SIZE: nat := 16

  // AES-256-GCM as the library gives it: ciphertext with its tag, and None for a failed tag check.
  datatype Cipher = Cipher(seal: (bytes, bytes, bytes) -> bytes, unseal: (bytes, bytes, bytes) -> Option<bytes>)

  // Sections 7.1 and 7.2 of NIST SP 800-38D.
  ghost predicate LawfulCipher(a: Cipher)
  {
    && (forall key, nonce, plain :: a.unseal(key, nonce, a.seal(key, nonce, plain)) == Some(plain))
    && (forall key, nonce, plain :: |a.seal(key, nonce, plain)| == |plain| + TAG_SIZE)
  }

  // JSON encoding of payloads.
  datatype Codec<!T> = Codec(encode: T -> bytes, decode: bytes -> Option<T>)

  ghost predicate LawfulCodec<T(!new)>(j: Codec<T>)
  {
    forall x :: j.decode(j.encode(x)) == Some(x)
  }

  // None stands for the ValueError on a key of the wrong length.
  function Encrypt(a: Cipher, key: bytes, nonce: bytes, plain: bytes): Option<bytes>
    requires |nonce| == NONCE_SIZE
  {
    if |key| != KEY_SIZE then None else Some(nonce + a.seal(key, nonce, plain))
  }

  // None stands for a wrong key length, a blob that is too short, or a failed tag check.
  function Decrypt(a: Cipher, key: bytes, blob: bytes): Option<bytes>
  {
    if |key| != KEY_SIZE || |blob| < NONCE_SIZE + TAG_SIZE then None
    else a.unseal(key, blob[..NONCE_SIZE], blob[NONCE_SIZE..])
  }

  // A blob exists exactly for a 32-byte key. It is the 12-byte nonce and the sealed text with its
  // 16-byte tag, 28 bytes more than the plaintext, and decrypts to it.
  lemma BlobRoundTrip(a: Cipher, key: bytes, nonce: bytes, plain: bytes)
    requires LawfulCipher(a) && |nonce| == 12
    ensures var blob := Encrypt(a, key, nonce, plain);
            && (blob.Some? <==> |key| == 32)
            && (blob.Some? ==>
                  && |blob.value| == |plain| + 28
                  && blob.value[..12] == nonce && blob.value[12..] == a.seal(key, nonce, plain)
                  && Decrypt(a, key, blob.value) == Some(plain))
  {
    if |key| == KEY_SIZE {
      var blob := nonce + a.seal(key, nonce, plain);
      assert blob[..NONCE_SIZE] == nonce && blob[NONCE_SIZE..] == a.seal(key, nonce, plain);
    }
  }

  // Whatever blob arrives: the first 12 bytes are the nonce of the tag check over the others, and a
  // blob of less than 28 bytes or a key of another length is refused without one.
  lemma DecryptReads(a: Cipher, key: bytes, blob: bytes)
    ensures |key| == 32 && |blob| >= 28 ==> Decrypt(a, key, blob) == a.unseal(key, blob[..12], blob[12..])
    ensures |key| != 32 || |blob| < 28 ==> Decrypt(a, key, blob) == None
  {
  }

  predicate Nonces(nonces: seq<bytes>)
  {
    forall k :: 0 <= k < |nonces| ==> |nonces[k]| == NONCE_SIZE
  }

  // What a sender hands to send_msg, message by message: each blob is 28 bytes longer than its text.
  ghost function Sealed<T>(a: Cipher, j: Codec<T>, key: bytes, nonces: seq<bytes>, payloads: seq<T>): (blobs: seq<bytes>)
    requires LawfulCipher(a) && |key| == KEY_SIZE && Nonces(nonces) && |nonces| == |payloads|
    ensures |blobs| == |payloads|
    ensures forall k :: 0 <= k < |payloads| ==> |blobs[k]| == |j.encode(payloads[k])| + 28
  {
    seq(|payloads|, k requires 0 <= k < |payloads| => Encrypt(a, key, nonces[k], j.encode(payloads[k])).value)
  }

  // What a receiver makes of one recv_msg.
  function Opened<T>(a: Cipher, j: Codec<T>, key: bytes, r: Incoming): Option<T>
  {
    if !r.Message? then None
    else match Decrypt(a, key, r.payload)
      case None => None
      case Some(plain) => j.decode(plain)
  }

  // Payloads whose encoding fits in a frame once it is encrypted.
  predicate Sendable<T>(j: Codec<T>, payloads: seq<T>)
  {
    forall k :: 0 <= k < |payloads| ==> |j.encode(payloads[k])| + 28 <= MAX_MSG_SIZE
  }

  // The AES key a side holds once its program has returned; empty before.
  function HeldKey(c: Config, s: System, server: bool): bytes
  {
    var secret :=
      if server then
        if |s.serverGot| == 1 + ServerNeeds(c.serverMode)
        then ServerSecret(c.u, c.serverMode, c.srv, s.serverGot[1..]) else None
      else if |s.clientGot| == ClientNeeds(c.clientMode)
      then ClientSecret(c.u, c.clientMode, c.cli, s.clientGot) else None;
    if secret.Some? then AesKey(c.u, secret.value) else []
  }

  lemma HeldKeysAgree(c: Config, schedule: seq<bool>)
    requires Lawful(c.u) && c.srv.p > 1 && c.clientMode == c.serverMode
    requires Remaining(c, RunKex(c, START, schedule)) == 0
    ensures var s := RunKex(c, START, schedule);
            && HeldKey(c, s, true) == HeldKey(c, s, false) && |HeldKey(c, s, true)| == 32
            && HeldKey(c, s, true) == c.u.hkdf(AgreedSecret(c), SECURE_CHAT_AES_KEY)
  {
    KexAgrees(c, schedule);
    KexValue(c, schedule);
  }

  // Any list of payloads goes through the whole stack unchanged: encoded, encrypted under the key one
  // side holds after the exchange, framed, split into arbitrary non-empty chunks, read back, and
  // decrypted and decoded under the key the other side holds. Nothing queued behind is touched.
  lemma StackRoundTrip<T(!new)>(c: Config, schedule: seq<bool>, a: Cipher, j: Codec<T>,
                                nonces: seq<bytes>, payloads: seq<T>, chunks: seq<bytes>, tail: seq<bytes>,
                                toServer: bool)
    requires Lawful(c.u) && c.srv.p > 1 && c.clientMode == c.serverMode
    requires Remaining(c, RunKex(c, START, schedule)) == 0
    requires LawfulCipher(a) && LawfulCodec(j) && Sendable(j, payloads)
    requires Nonces(nonces) && |nonces| == |payloads|
    requires var sender := HeldKey(c, RunKex(c, START, schedule), !toServer);
             |sender| == KEY_SIZE
             && Clean(chunks) && Concat(chunks) == Frames(Sealed(a, j, sender, nonces, payloads))
    ensures var receiver := HeldKey(c, RunKex(c, START, schedule), toServer);
            var (messages, rest) := MsgsSpec(Side([], chunks + tail), |payloads|);
            |messages| == |payloads| && rest == Side([], tail)
            && forall k :: 0 <= k < |payloads| ==> Opened(a, j, receiver, messages[k]) == Some(payloads[k])
  {
    HeldKeysAgree(c, schedule);
    var key := HeldKey(c, RunKex(c, START, schedule), toServer);
    var blobs := Sealed(a, j, key, nonces, payloads);
    assert [] + Concat(chunks) == Frames(blobs);
    FramingRoundTrip([], chunks, tail, blobs);
    forall k | 0 <= k < |payloads|
      ensures Opened(a, j, key, Messages(blobs)[k]) == Some(payloads[k])
    {
      BlobRoundTrip(a, key, nonces[k], j.encode(payloads[k]));
    }
  }
}
