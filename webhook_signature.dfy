/**
 * Authentication of a GitHub webhook delivery: the `x-hub-signature-256`
 * header carries `sha256=<hex>`, the hex digest of HMAC-SHA256 (section 2
 * of RFC 2104) keyed with the shared secret over the raw request body.
 * The MAC itself is not computed here: it is the `tag` function of a
 * `MacScheme`, and whether the MAC library accepts a key is `acceptsKey`.
 */
module WebhookSignature {

  import opened Wrappers
  import opened Hex

  const SignatureHeaderName: string := "x-hub-signature-256"
  const SignaturePrefix: string := "sha256="

  /** One header line. Names arrive lower-cased from the HTTP layer. */
  datatype Header = Header(name: string, value: seq<Byte>)

  type HeaderMap = seq<Header>

  datatype MacScheme = MacScheme(acceptsKey: seq<Byte> -> bool, tag: (seq<Byte>, seq<Byte>) -> seq<Byte>)

  datatype SignatureError = MissingHeader | InvalidFormat | MissingSecret | VerificationFailed

  /** The reason text each failure carries. */
  function Reason(e: SignatureError): string {
    match e
    case MissingHeader => "Missing X-Hub-Signature-256 header"
    case InvalidFormat => "Invalid signature format"
    case MissingSecret => "Missing secret"
    case VerificationFailed => "Signature verification failed"
  }

  /** The value of the first header called `name`, as `HeaderMap::get` returns it. */
  function GetHeader(headers: HeaderMap, name: string): (r: Option<seq<Byte>>)
    ensures r.None? <==> forall i :: 0 <= i < |headers| ==> headers[i].name != name
    ensures r.Some? ==> exists i :: 0 <= i < |headers| && headers[i] == Header(name, r.value)
                                    && forall j :: 0 <= j < i ==> headers[j].name != name
    decreases |headers|
  {
    if headers == [] then None
    else if headers[0].name == name then Some(headers[0].value)
    else
      var r := GetHeader(headers[1..], name);
      assert forall i :: 1 <= i < |headers| ==> headers[1..][i - 1] == headers[i];
      if r.Some? then
        var i :| 0 <= i < |headers[1..]| && headers[1..][i] == Header(name, r.value)
                 && forall j :: 0 <= j < i ==> headers[1..][j].name != name;
        assert headers[i + 1] == Header(name, r.value);
        assert forall j :: 0 <= j < i + 1 ==> headers[j].name != name;
        r
      else r
  }

  /** Bytes that `HeaderValue::to_str` accepts: tab and visible ASCII. */
  predicate IsVisibleAscii(b: Byte) {
    b == 9 || 32 <= b < 127
  }

  /** `HeaderValue::to_str`: the text of the value, or None when a byte is not visible ASCII. */
  function HeaderText(value: seq<Byte>): (r: Option<string>)
    ensures r.Some? <==> forall i :: 0 <= i < |value| ==> IsVisibleAscii(value[i])
    ensures r.Some? ==> |r.value| == |value| && forall i :: 0 <= i < |value| ==> r.value[i] as int == value[i]
  {
    if forall i :: 0 <= i < |value| ==> IsVisibleAscii(value[i])
    then Some(seq(|value|, i requires 0 <= i < |value| => value[i] as char))
    else None
  }

  /** `str::strip_prefix`. */
  function StripPrefix(s: string, prefix: string): (r: Option<string>)
    ensures r.Some? <==> |prefix| <= |s| && s[..|prefix|] == prefix
    ensures r.Some? ==> prefix + r.value == s
  {
    if |prefix| <= |s| && s[..|prefix|] == prefix then Some(s[|prefix|..]) else None
  }

  /**
   * The digest a request claims, read from its signature header as the
   * first half of `validate_github_signature` does: a present header is
   * well-formed exactly when it is text, starts with `sha256=` and the rest
   * is hex, and the claimed digest is then the hex decoding of the rest.
   */
  function ClaimedDigest(headers: HeaderMap): (r: Result<seq<Byte>, SignatureError>)
    ensures r.Failure? ==> r.error == MissingHeader || r.error == InvalidFormat
    ensures r == Failure(MissingHeader) <==> GetHeader(headers, SignatureHeaderName).None?
    ensures GetHeader(headers, SignatureHeaderName).Some? ==>
      var text := HeaderText(GetHeader(headers, SignatureHeaderName).value);
      && (r.Success? <==> text.Some? && StripPrefix(text.value, SignaturePrefix).Some?
                          && HexDecode(StripPrefix(text.value, SignaturePrefix).value).Some?)
      && (r.Success? ==> r.value == HexDecode(StripPrefix(text.value, SignaturePrefix).value).value)
  {
    match GetHeader(headers, SignatureHeaderName)
    case None => Failure(MissingHeader)
    case Some(value) =>
      match HeaderText(value)
      case None => Failure(InvalidFormat)
      case Some(text) =>
        match StripPrefix(text, SignaturePrefix)
        case None => Failure(InvalidFormat)
        case Some(hex) =>
          match HexDecode(hex)
          case None => Failure(InvalidFormat)
          case Some(digest) => Success(digest)
  }

  /**
   * `validate_github_signature`: succeeds exactly when the claimed digest
   * equals the MAC of the body under the secret; every failure is
   * classified by the first check that rejects the request.
   */
  function ValidateSignature(headers: HeaderMap, payload: seq<Byte>, secret: seq<Byte>, mac: MacScheme)
    : (r: Result<(), SignatureError>)
    ensures r.Success? <==> mac.acceptsKey(secret) && ClaimedDigest(headers) == Success(mac.tag(secret, payload))
    ensures r == Failure(MissingHeader) <==> GetHeader(headers, SignatureHeaderName).None?
    ensures r == Failure(InvalidFormat) <==> ClaimedDigest(headers) == Failure(InvalidFormat)
    ensures r == Failure(MissingSecret) <==> ClaimedDigest(headers).Success? && !mac.acceptsKey(secret)
    ensures r == Failure(VerificationFailed) <==>
      mac.acceptsKey(secret) && ClaimedDigest(headers).Success? && ClaimedDigest(headers).value != mac.tag(secret, payload)
  {
    match ClaimedDigest(headers)
    case Failure(e) => Failure(e)
    case Success(expected) =>
      if !mac.acceptsKey(secret) then Failure(MissingSecret)
      else if expected == mac.tag(secret, payload) then Success(())
      else Failure(VerificationFailed)
  }

  /** Without a signature header the check fails with MissingHeader, whatever the secret and body. */
  lemma UnsignedRequestIsMissingHeader(headers: HeaderMap, payload: seq<Byte>, secret: seq<Byte>, mac: MacScheme)
    requires forall i :: 0 <= i < |headers| ==> headers[i].name != SignatureHeaderName
    ensures ValidateSignature(headers, payload, secret, mac) == Failure(MissingHeader)
  {
    assert GetHeader(headers, SignatureHeaderName).None?;
  }

  /** ASCII bytes of a string whose characters are all below 128. */
  function AsciiBytes(s: string): (b: seq<Byte>)
    requires forall i :: 0 <= i < |s| ==> s[i] as int < 128
    ensures |b| == |s| && forall i :: 0 <= i < |s| ==> b[i] == s[i] as int
  {
    seq(|s|, i requires 0 <= i < |s| => s[i] as int)
  }

  /** The header a sender holding the secret attaches: `sha256=` and the lower-case hex digest. */
  function SignatureHeader(digest: seq<Byte>): (h: Header)
    ensures h.name == SignatureHeaderName
  {
    var text := SignaturePrefix + HexEncode(digest);
    assert forall i :: 0 <= i < |text| ==> text[i] as int < 128 by {
      forall i | 0 <= i < |text| ensures text[i] as int < 128 {
        if i >= |SignaturePrefix| { assert IsHexDigit(HexEncode(digest)[i - |SignaturePrefix|]); }
      }
    }
    Header(SignatureHeaderName, AsciiBytes(text))
  }

  /** Text made of visible ASCII survives the trip to header bytes and back. */
  lemma HeaderTextOfAscii(text: string)
    requires forall i :: 0 <= i < |text| ==> text[i] == '\t' || 32 <= text[i] as int < 127
    ensures HeaderText(AsciiBytes(text)) == Some(text)
  {
    var value := AsciiBytes(text);
    assert forall i :: 0 <= i < |value| ==> IsVisibleAscii(value[i]);
    var r := HeaderText(value).value;
    forall i | 0 <= i < |text| ensures r[i] == text[i] {
      assert r[i] as int == text[i] as int;
    }
    assert r == text;
  }

  lemma ClaimedDigestOfSignatureHeader(digest: seq<Byte>, others: HeaderMap)
    ensures ClaimedDigest([SignatureHeader(digest)] + others) == Success(digest)
  {
    var headers := [SignatureHeader(digest)] + others;
    var text := SignaturePrefix + HexEncode(digest);
    var value := headers[0].value;
    assert GetHeader(headers, SignatureHeaderName) == Some(value);
    forall i | 0 <= i < |text| ensures 32 <= text[i] as int < 127 {
      if i >= |SignaturePrefix| { assert IsHexDigit(HexEncode(digest)[i - |SignaturePrefix|]); }
    }
    HeaderTextOfAscii(text);
    assert text[..|SignaturePrefix|] == SignaturePrefix;
    assert StripPrefix(text, SignaturePrefix) == Some(HexEncode(digest));
    DecodeEncode(digest);
  }

  /** A request signed with the secret over exactly this body is accepted. */
  lemma SignedRequestAccepted(secret: seq<Byte>, payload: seq<Byte>, mac: MacScheme, others: HeaderMap)
    requires mac.acceptsKey(secret)
    ensures ValidateSignature([SignatureHeader(mac.tag(secret, payload))] + others, payload, secret, mac).Success?
  {
    ClaimedDigestOfSignatureHeader(mac.tag(secret, payload), others);
  }

  /** A body whose MAC differs from the signed one is rejected, as is any other claimed digest. */
  lemma ForgedDigestRejected(secret: seq<Byte>, payload: seq<Byte>, digest: seq<Byte>, mac: MacScheme, others: HeaderMap)
    requires mac.acceptsKey(secret)
    requires digest != mac.tag(secret, payload)
    ensures ValidateSignature([SignatureHeader(digest)] + others, payload, secret, mac) == Failure(VerificationFailed)
  {
    ClaimedDigestOfSignatureHeader(digest, others);
  }

  /** `sha256=` followed by nothing decodes to an empty digest: a mismatch, not a format error. */
  lemma EmptyDigestIsMismatch(secret: seq<Byte>, payload: seq<Byte>, mac: MacScheme)
    requires mac.acceptsKey(secret) && mac.tag(secret, payload) != []
    ensures ValidateSignature([Header(SignatureHeaderName, AsciiBytes(SignaturePrefix))], payload, secret, mac)
            == Failure(VerificationFailed)
  {
    var headers := [Header(SignatureHeaderName, AsciiBytes(SignaturePrefix))];
    assert GetHeader(headers, SignatureHeaderName) == Some(AsciiBytes(SignaturePrefix));
    HeaderTextOfAscii(SignaturePrefix);
    assert StripPrefix(SignaturePrefix, SignaturePrefix) == Some("");
  }

  /** A signature header without the `sha256=` prefix (here a `sha1=` one) is a format error. */
  lemma WrongPrefixIsFormatError(text: string, secret: seq<Byte>, payload: seq<Byte>, mac: MacScheme)
    requires forall i :: 0 <= i < |text| ==> 32 <= text[i] as int < 127
    requires |text| >= 5 && text[..5] == "sha1="
    ensures ValidateSignature([Header(SignatureHeaderName, AsciiBytes(text))], payload, secret, mac)
            == Failure(InvalidFormat)
  {
    var headers := [Header(SignatureHeaderName, AsciiBytes(text))];
    assert GetHeader(headers, SignatureHeaderName) == Some(AsciiBytes(text));
    HeaderTextOfAscii(text);
    assert text[4] != SignaturePrefix[4];
  }
}
