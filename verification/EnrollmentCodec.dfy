/** The sealed enrollment intent: a length-prefixed frame inside two layers of sealing. */
module EnrollmentCodec {
  import opened Wrappers

  type Byte = b: int | 0 <= b < 256

  const MAGIC: seq<Byte> := [0x4B, 0x45, 0x49, 0x31]
  const REQUEST_LENGTH: nat := 16
  const PRINCIPAL_LENGTH: nat := 32
  const MAX_ENROLLMENT_INTENT_BYTES: nat := 8 * 1024
  const FIXED: nat := 58   // magic, endpoint length, request, principal, credential length

  function U16(n: nat): (b: seq<Byte>)
    requires n < 0x1_0000
    ensures |b| == 2 && ReadU16(b) == n
  {
    [n / 0x100, n % 0x100]
  }

  function ReadU16(b: seq<Byte>): (n: nat)
    requires |b| == 2
    ensures n < 0x1_0000
  {
    (b[0] as nat) * 0x100 + (b[1] as nat)
  }

  function U32(n: nat): (b: seq<Byte>)
    requires n < 0x1_0000_0000
    ensures |b| == 4
  {
    U16(n / 0x1_0000) + U16(n % 0x1_0000)
  }

  function ReadU32(b: seq<Byte>): (n: nat)
    requires |b| == 4
    ensures n < 0x1_0000_0000
  {
    ReadU16(b[..2]) * 0x1_0000 + ReadU16(b[2..])
  }

  lemma U16Canonical(b: seq<Byte>)
    requires |b| == 2
    ensures U16(ReadU16(b)) == b
  {
  }

  lemma U32Inverse(n: nat)
    requires n < 0x1_0000_0000
    ensures ReadU32(U32(n)) == n
  {
    var b := U32(n);
    assert b[..2] == U16(n / 0x1_0000) && b[2..] == U16(n % 0x1_0000);
  }

  lemma SplitU32(high: nat, low: nat)
    requires high < 0x1_0000 && low < 0x1_0000
    ensures (high * 0x1_0000 + low) / 0x1_0000 == high && (high * 0x1_0000 + low) % 0x1_0000 == low
  {
  }

  /** A length field has one encoding per value. */
  lemma U32Canonical(b: seq<Byte>)
    requires |b| == 4
    ensures U32(ReadU32(b)) == b
  {
    U16Canonical(b[..2]);
    U16Canonical(b[2..]);
    SplitU32(ReadU16(b[..2]), ReadU16(b[2..]));
    assert b[..2] + b[2..] == b;
  }

  /** Who the intent is for. */
  datatype Subject = Subject(endpoint: seq<Byte>, request: seq<Byte>, principal: seq<Byte>)

  predicate ValidSubject(s: Subject) {
    |s.request| == REQUEST_LENGTH && |s.principal| == PRINCIPAL_LENGTH
  }

  predicate Fits(s: Subject, blob: seq<Byte>) {
    |s.endpoint| < 0x1_0000 && |blob| < 0x1_0000_0000 && FIXED + |s.endpoint| + |blob| <= MAX_ENROLLMENT_INTENT_BYTES
  }

  /** The frame of one sealed credential. */
  function Frame(s: Subject, blob: seq<Byte>): (f: seq<Byte>)
    requires ValidSubject(s) && Fits(s, blob)
    ensures |f| == FIXED + |s.endpoint| + |blob|
  {
    MAGIC + U16(|s.endpoint|) + s.endpoint + s.request + s.principal + U32(|blob|) + blob
  }

  /** encode_enrollment_intent up to the outer seal: the buffer grows field by field. */
  method EncodeFrame(s: Subject, blob: seq<Byte>) returns (r: Option<seq<Byte>>)
    requires ValidSubject(s)
    ensures r.Some? <==> Fits(s, blob)
    ensures r.Some? ==> r.value == Frame(s, blob)
  {
    if |s.endpoint| >= 0x1_0000 || |blob| >= 0x1_0000_0000 {
      return None;
    }
    var capacity := |MAGIC| + 2 + |s.endpoint| + REQUEST_LENGTH + PRINCIPAL_LENGTH + 4 + |blob|;
    if capacity > MAX_ENROLLMENT_INTENT_BYTES {
      return None;
    }
    var plaintext: seq<Byte> := MAGIC;
    plaintext := plaintext + U16(|s.endpoint|);
    plaintext := plaintext + s.endpoint;
    plaintext := plaintext + s.request;
    plaintext := plaintext + s.principal;
    plaintext := plaintext + U32(|blob|);
    plaintext := plaintext + blob;
    r := Some(plaintext);
  }

  /** decode_enrollment_intent up to the credential blob, by offsets into the plaintext. */
  function DecodeFrame(s: Subject, x: seq<Byte>): Option<seq<Byte>>
    requires ValidSubject(s)
  {
    if |x| < FIXED || |x| > MAX_ENROLLMENT_INTENT_BYTES then None
    else
      var requestOffset := 6 + ReadU16(x[4..6]);
      var principalOffset := requestOffset + REQUEST_LENGTH;
      var lengthOffset := principalOffset + PRINCIPAL_LENGTH;
      var credentialOffset := lengthOffset + 4;
      if || credentialOffset > |x|
         || x[..4] != MAGIC
         || x[6..requestOffset] != s.endpoint
         || x[requestOffset..principalOffset] != s.request
         || x[principalOffset..lengthOffset] != s.principal
      then None
      else if credentialOffset + ReadU32(x[lengthOffset..credentialOffset]) != |x| then None
      else Some(x[credentialOffset..])
  }

  /** Where the fields of a frame lie. */
  lemma FrameFields(s: Subject, blob: seq<Byte>)
    requires ValidSubject(s) && Fits(s, blob)
    ensures var x, e := Frame(s, blob), |s.endpoint|;
            && x[..4] == MAGIC && x[4..6] == U16(e)
            && x[6..6 + e] == s.endpoint && x[6 + e..22 + e] == s.request && x[22 + e..54 + e] == s.principal
            && x[54 + e..58 + e] == U32(|blob|) && x[58 + e..] == blob
  {
  }

  lemma DecodeOfFrame(s: Subject, blob: seq<Byte>)
    requires ValidSubject(s) && Fits(s, blob)
    ensures DecodeFrame(s, Frame(s, blob)) == Some(blob)
  {
    FrameFields(s, blob);
    U32Inverse(|blob|);
  }

  lemma FrameOfDecode(s: Subject, x: seq<Byte>)
    requires ValidSubject(s) && DecodeFrame(s, x).Some?
    ensures Fits(s, DecodeFrame(s, x).value) && x == Frame(s, DecodeFrame(s, x).value)
  {
    var blob, e := DecodeFrame(s, x).value, ReadU16(x[4..6]);
    assert |s.endpoint| == e && |blob| == |x| - 58 - e;
    U16Canonical(x[4..6]);
    U32Canonical(x[54 + e..58 + e]);
    assert x == x[..4] + x[4..6] + x[6..6 + e] + x[6 + e..22 + e] + x[22 + e..54 + e] + x[54 + e..58 + e] + x[58 + e..];
  }

  /** The codec is canonical: decoding accepts exactly the one encoding of each content, and
      refuses every other byte string. */
  lemma Canonical(s: Subject, x: seq<Byte>, blob: seq<Byte>)
    requires ValidSubject(s)
    ensures DecodeFrame(s, x) == Some(blob) <==> Fits(s, blob) && x == Frame(s, blob)
  {
    if DecodeFrame(s, x) == Some(blob) {
      FrameOfDecode(s, x);
    }
    if Fits(s, blob) {
      DecodeOfFrame(s, blob);
    }
  }

  /** One byte string never decodes for two subjects, nor to two credentials. */
  lemma Unambiguous(s: Subject, t: Subject, x: seq<Byte>)
    requires ValidSubject(s) && ValidSubject(t)
    requires DecodeFrame(s, x).Some? && DecodeFrame(t, x).Some?
    ensures s == t
  {
  }

  // ------------------------------------------------------------------ with sealing

  datatype Credential = Credential(secret: seq<Byte>, principal: seq<Byte>)
  datatype Context = IntentOf(subject: Subject) | CredentialAt(endpoint: seq<Byte>)

  /** Sealing as the profile's sealer provides it, for credentials and for intent plaintexts. */
  datatype Sealer = Sealer(
    sealCredential: (Context, Credential) -> seq<Byte>,
    openCredential: (Context, seq<Byte>) -> Option<Credential>,
    sealIntent: (Context, seq<Byte>) -> seq<Byte>,
    openIntent: (Context, seq<Byte>) -> Option<seq<Byte>>)

  /** Opening under the same context undoes sealing. */
  ghost predicate Invertible(k: Sealer) {
    && (forall c, v :: k.openCredential(c, k.sealCredential(c, v)) == Some(v))
    && (forall c, v :: k.openIntent(c, k.sealIntent(c, v)) == Some(v))
  }

  /** pending_relay_enrollment after its row is read: open, decode, open, compare. */
  function OpenIntent(k: Sealer, s: Subject, sealedIntent: seq<Byte>): Option<Credential>
    requires ValidSubject(s)
  {
    var plaintext := k.openIntent(IntentOf(s), sealedIntent);
    if plaintext.None? then None
    else
      var blob := DecodeFrame(s, plaintext.value);
      if blob.None? then None
      else
        var credential := k.openCredential(CredentialAt(s.endpoint), blob.value);
        if credential.None? || credential.value.principal != s.principal then None else credential
  }

  /** A stored intent reopens to the credential it was reserved with, exactly when the row's
      principal is the credential's own. */
  lemma IntentRoundTrip(k: Sealer, s: Subject, credential: Credential)
    requires Invertible(k) && ValidSubject(s) && Fits(s, k.sealCredential(CredentialAt(s.endpoint), credential))
    ensures var sealedIntent := k.sealIntent(IntentOf(s),
        Frame(s, k.sealCredential(CredentialAt(s.endpoint), credential)));
            OpenIntent(k, s, sealedIntent) == if credential.principal == s.principal then Some(credential) else None
  {
    var blob := k.sealCredential(CredentialAt(s.endpoint), credential);
    DecodeOfFrame(s, blob);
    assert k.openIntent(IntentOf(s), k.sealIntent(IntentOf(s), Frame(s, blob))) == Some(Frame(s, blob));
  }

  /** encode_enrollment_intent. What is stored reopens to the very credential that was reserved,
      for its own subject; it fails exactly when the sealed credential does not fit. */
  method EncodeIntent(k: Sealer, s: Subject, credential: Credential) returns (r: Option<seq<Byte>>)
    requires ValidSubject(s)
    ensures r.Some? <==> Fits(s, k.sealCredential(CredentialAt(s.endpoint), credential))
    ensures r.Some? && Invertible(k) ==>
              OpenIntent(k, s, r.value) == if credential.principal == s.principal then Some(credential) else None
  {
    var blob := k.sealCredential(CredentialAt(s.endpoint), credential);
    var plaintext := EncodeFrame(s, blob);
    if plaintext.None? {
      return None;
    }
    r := Some(k.sealIntent(IntentOf(s), plaintext.value));
    if Invertible(k) {
      IntentRoundTrip(k, s, credential);
    }
  }
}
