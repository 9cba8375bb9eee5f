/** Secrets at rest: nonce, tag and ciphertext in one base64 text (shared/util/Secret.cpp). */
module Secret {
  import opened Bytes
  import opened Base64

  const KEY_LEN: nat := 32
  const NONCE_LEN: nat := 12
  const TAG_LEN: nat := 16

  datatype Box = Box(cipher: seq<byte>, tag: seq<byte>)

  /** AES-256-GCM as a pair of functions: seal(key, nonce, plain) and open(key, nonce, box). */
  datatype Aead = Aead(
    seal: (seq<byte>, seq<byte>, seq<byte>) -> Box,
    open: (seq<byte>, seq<byte>, Box) -> Option<seq<byte>>)

  /** The ciphertext is as long as the text, and a box opens exactly to the text that seals to it. */
  ghost predicate Lawful(a: Aead) {
    && (forall key, nonce, plain ::
          |a.seal(key, nonce, plain).cipher| == |plain| && |a.seal(key, nonce, plain).tag| == TAG_LEN)
    && (forall key, nonce, plain :: a.open(key, nonce, a.seal(key, nonce, plain)) == Some(plain))
    && (forall key, nonce, box :: a.open(key, nonce, box).Some? ==>
          a.seal(key, nonce, a.open(key, nonce, box).value) == box)
  }

  /** The laws can be met. */
  lemma LawsAreConsistent()
    ensures exists a: Aead :: Lawful(a)
  {
    var zeros: seq<byte> := seq(TAG_LEN, _ => 0);
    var a := Aead((key, nonce, plain) => Box(plain, zeros),
                  (key, nonce, box: Box) => if box.tag == zeros then Some(box.cipher) else None);
    assert Lawful(a);
  }

  function Blob(nonce: seq<byte>, box: Box): seq<byte> {
    nonce + box.tag + box.cipher
  }

  function Sealed(a: Aead, key: seq<byte>, nonce: seq<byte>, plain: seq<byte>): string {
    Encoded(Standard, true, Blob(nonce, a.seal(key, nonce, plain)))
  }

  /** The bytes a text stands for: its base64 digits up to the first '=', everything else ignored. */
  ghost function BytesOf(text: string): seq<byte> {
    match Cleaned(SkipAll, Standard, text)
    case Some(ds) => Undigits(ds)
    case None => []
  }

  /** A text is genuine for `plain` if it stands for what sealing `plain` under this key and some nonce yields. */
  ghost predicate Genuine(a: Aead, key: seq<byte>, text: string, plain: seq<byte>) {
    exists nonce: seq<byte> :: |nonce| == NONCE_LEN && BytesOf(text) == Blob(nonce, a.seal(key, nonce, plain))
  }

  predicate Available(key: seq<byte>) { |key| == KEY_LEN }

  /** `encrypt`; `nonce` is what the random source gave, and `sound` says that every library call succeeded. */
  method Encrypt(a: Aead, key: seq<byte>, nonce: Option<seq<byte>>, sound: bool, plain: seq<byte>)
    returns (text: Option<string>)
    requires nonce.Some? ==> |nonce.value| == NONCE_LEN
    ensures text.Some? <==> Available(key) && nonce.Some? && sound
    ensures text.Some? ==> text.value == Sealed(a, key, nonce.value, plain)
  {
    if !Available(key) || nonce.None? || !sound {
      return None;
    }
    var box := a.seal(key, nonce.value, plain);
    var blob: seq<byte> := [];
    blob := blob + nonce.value;
    blob := blob + box.tag;
    blob := blob + box.cipher;
    assert blob == Blob(nonce.value, box);
    var out := BlockEncode(Standard, true, blob);
    return Some(out);
  }

  /** `decrypt`: it gives back a text exactly when the encoded one is genuine for it. */
  method Decrypt(a: Aead, key: seq<byte>, sound: bool, encoded: string) returns (plain: Option<seq<byte>>)
    requires Lawful(a)
    ensures forall p :: plain == Some(p) <==> Available(key) && sound && Genuine(a, key, encoded, p)
  {
    if !Available(key) || !sound {
      return None;
    }
    NothingIsRejected(Standard, encoded);
    var _, blob := Decode(SkipAll, Standard, encoded);
    if |blob| < NONCE_LEN + TAG_LEN {
      return None;
    }
    var nonce, tag := blob[..NONCE_LEN], blob[NONCE_LEN..NONCE_LEN + TAG_LEN];
    plain := a.open(key, nonce, Box(blob[NONCE_LEN + TAG_LEN..], tag));
    forall p ensures plain == Some(p) <==> Genuine(a, key, encoded, p) {
      OpensExactly(a, key, encoded, blob, p);
    }
  }

  /** The decoder that skips what it does not know never fails. */
  lemma {:induction false} NothingIsRejected(alphabet: Alphabet, text: string)
    ensures Cleaned(SkipAll, alphabet, text).Some?
    decreases |text|
  {
    if text != "" {
      NothingIsRejected(alphabet, text[1..]);
    }
  }

  lemma CutBlob(blob: seq<byte>, nonce: seq<byte>, box: Box)
    requires |nonce| == NONCE_LEN && |box.tag| == TAG_LEN && |blob| >= NONCE_LEN + TAG_LEN
    ensures blob == Blob(nonce, box) <==>
      && blob[..NONCE_LEN] == nonce
      && Box(blob[NONCE_LEN + TAG_LEN..], blob[NONCE_LEN..NONCE_LEN + TAG_LEN]) == box
  {
    var front := blob[..NONCE_LEN];
    assert blob == front + blob[NONCE_LEN..NONCE_LEN + TAG_LEN] + blob[NONCE_LEN + TAG_LEN..];
    if blob == Blob(nonce, box) {
      assert blob[..NONCE_LEN] == nonce;
      assert blob[NONCE_LEN..NONCE_LEN + TAG_LEN] == box.tag;
      assert blob[NONCE_LEN + TAG_LEN..] == box.cipher;
    }
  }

  lemma OpensExactly(a: Aead, key: seq<byte>, text: string, blob: seq<byte>, p: seq<byte>)
    requires Lawful(a) && blob == BytesOf(text) && |blob| >= NONCE_LEN + TAG_LEN
    ensures var box := Box(blob[NONCE_LEN + TAG_LEN..], blob[NONCE_LEN..NONCE_LEN + TAG_LEN]);
      a.open(key, blob[..NONCE_LEN], box) == Some(p) <==> Genuine(a, key, text, p)
  {
    var nonce := blob[..NONCE_LEN];
    var box := Box(blob[NONCE_LEN + TAG_LEN..], blob[NONCE_LEN..NONCE_LEN + TAG_LEN]);
    if a.open(key, nonce, box) == Some(p) {
      CutBlob(blob, nonce, a.seal(key, nonce, p));
    }
    if Genuine(a, key, text, p) {
      var n :| |n| == NONCE_LEN && blob == Blob(n, a.seal(key, n, p));
      CutBlob(blob, n, a.seal(key, n, p));
    }
  }

  /**
   * What `encrypt` wrote, even re-wrapped with foreign characters, is genuine for the text it was given and for no
   * other, so `decrypt` under the same key gives exactly that text back.
   */
  lemma DecryptInvertsEncrypt(a: Aead, key: seq<byte>, nonce: seq<byte>, plain: seq<byte>, text: string)
    requires Lawful(a) && |nonce| == NONCE_LEN
    requires Stripped(SkipAll, Standard, text) == Sealed(a, key, nonce, plain)
    ensures forall p :: Genuine(a, key, text, p) <==> p == plain
  {
    var blob := Blob(nonce, a.seal(key, nonce, plain));
    RoundTripThroughNoise(SkipAll, Standard, true, blob, text);
    assert BytesOf(text) == blob;
    forall p ensures Genuine(a, key, text, p) <==> p == plain {
      OpensExactly(a, key, text, blob, p);
      OpensExactly(a, key, text, blob, plain);
    }
  }

  /** Without foreign characters there is nothing to strip. */
  lemma SealedIsClean(a: Aead, key: seq<byte>, nonce: seq<byte>, plain: seq<byte>)
    ensures Stripped(SkipAll, Standard, Sealed(a, key, nonce, plain)) == Sealed(a, key, nonce, plain)
  {
    var blob := Blob(nonce, a.seal(key, nonce, plain));
    forall c | c in Encoded(Standard, true, blob) ensures c == '=' || ValueOf(Standard, c) >= 0 {
      EncodedCharacters(blob, c);
    }
    NothingToStrip(Encoded(Standard, true, blob));
  }

  lemma EncodedCharacters(blob: seq<byte>, c: char)
    requires c in Encoded(Standard, true, blob)
    ensures c == '=' || ValueOf(Standard, c) >= 0
  {
    var ds := Digits(blob);
    if c in Text(Standard, ds) {
      var i :| 0 <= i < |ds| && Text(Standard, ds)[i] == c;
      TableIsInverted(Standard, ds[i]);
    }
  }

  lemma {:induction false} NothingToStrip(text: string)
    requires forall c | c in text :: c == '=' || ValueOf(Standard, c) >= 0
    ensures Stripped(SkipAll, Standard, text) == text
    decreases |text|
  {
    if text != "" {
      NothingToStrip(text[1..]);
    }
  }
}
