/**
 HS256 tokens: made by the development minter, verified for every session
 (sections 4.1.1 to 4.1.5 of RFC 7519). The MAC and the JSON text are functions
 passed in.
 */
module Jwt {
  import opened Base64Url

  datatype Option<+T> = None | Some(value: T)

  datatype Result<+T> = Ok(value: T) | Err(error: Error)

  datatype Error =
    | NoSecret
    | NotThreeSegments
    | MalformedHeader
    | UnsupportedAlg
    | UnsupportedTyp
    | BadSignature
    | MalformedPayload
    | NoExpiry
    | Expired
    | NotYetValid
    | WrongIssuer
    | WrongAudience

  /** A member of a claims object, as far as the verifier looks at it: of an array, the strings in it. */
  datatype Member = Absent | Number(n: real) | String(s: string) | Strings(items: seq<string>) | Other

  type Members = map<string, Member>

  function Get(o: Members, k: string): Member { if k in o then o[k] else Absent }

  /** What bytes parse to: nothing, something that is no object, or an object. */
  datatype Json = NotJson | NotAnObject | Object(members: Members)

  /** `JSON.stringify` and `JSON.parse`, with UTF-8 around them, and HMAC-SHA-256. */
  datatype World = World(text: Members -> seq<Byte>, parse: seq<Byte> -> Json, mac: (string, Text) -> seq<Byte>)

  /** `now` is in milliseconds; an issuer or audience that is absent or empty is not asked for. */
  datatype Options = Options(secret: string, issuer: string, audience: string, now: int, skew: real)

  const HEADER: Members := map["alg" := String("HS256"), "typ" := String("JWT")]

  function Split(t: Text): (parts: seq<Text>)
    ensures parts != []
  {
    if t == [] then [[]]
    else
      var rest := Split(t[1..]);
      if t[0] == DOT then [[]] + rest else [[t[0]] + rest[0]] + rest[1..]
  }

  function DecodeJson(w: World, part: Text): Option<Members> {
    var json := w.parse(B64UrlToBuffer(part));
    if json.Object? then Some(json.members) else None
  }

  predicate AudienceMatches(aud: Member, expected: string) {
    match aud
    case String(s) => s == expected
    case Strings(items) => expected in items
    case _ => false
  }

  /** The checks on the claims, in their order. */
  function CheckClaims(payload: Members, opts: Options): Result<Members> {
    var nowSec := (opts.now / 1000) as real;
    var exp, nbf := Get(payload, "exp"), Get(payload, "nbf");
    if !exp.Number? then Err(NoExpiry)
    else if nowSec >= exp.n + opts.skew then Err(Expired)
    else if nbf.Number? && nowSec < nbf.n - opts.skew then Err(NotYetValid)
    else if opts.issuer != "" && Get(payload, "iss") != String(opts.issuer) then Err(WrongIssuer)
    else if opts.audience != "" && !AudienceMatches(Get(payload, "aud"), opts.audience) then Err(WrongAudience)
    else Ok(payload)
  }

  function Verify(w: World, token: Text, opts: Options): Result<Members> {
    var parts := Split(token);
    if opts.secret == "" then Err(NoSecret)
    else if |parts| != 3 then Err(NotThreeSegments)
    else
      var header := DecodeJson(w, parts[0]);
      if header.None? then Err(MalformedHeader)
      else if Get(header.value, "alg") != String("HS256") then Err(UnsupportedAlg)
      else if Get(header.value, "typ") != Absent && Get(header.value, "typ") != String("JWT") then Err(UnsupportedTyp)
      else if B64UrlToBuffer(parts[2]) != w.mac(opts.secret, parts[0] + [DOT] + parts[1]) then Err(BadSignature)
      else
        var payload := DecodeJson(w, parts[1]);
        if payload.None? then Err(MalformedPayload) else CheckClaims(payload.value, opts)
  }

  function Sign(w: World, claims: Members, secret: string): Text {
    var header, payload := B64Url(w.text(HEADER)), B64Url(w.text(claims));
    var signature := B64Url(w.mac(secret, header + [DOT] + payload));
    header + [DOT] + payload + [DOT] + signature
  }

  // ------------------------------------------------------------ segments

  lemma {:induction false} SplitDotFree(t: Text)
    requires DOT !in t
    ensures Split(t) == [t]
  {
    if t != [] {
      SplitDotFree(t[1..]);
      assert [t[0]] + t[1..] == t;
      assert Split(t) == [[t[0]] + Split(t[1..])[0]];
    }
  }

  lemma {:induction false} SplitAtDot(t: Text, rest: Text)
    requires DOT !in t
    ensures Split(t + [DOT] + rest) == [t] + Split(rest)
  {
    var all := t + [DOT] + rest;
    if t == [] {
      assert all[0] == DOT && all[1..] == rest;
    } else {
      SplitAtDot(t[1..], rest);
      assert all[0] == t[0] && all[1..] == t[1..] + [DOT] + rest;
      assert [t[0]] + t[1..] == t;
      assert Split(all) == [[t[0]] + Split(all[1..])[0]] + Split(all[1..])[1..];
    }
  }

  lemma SplitInThree(a: Text, b: Text, c: Text)
    requires DOT !in a && DOT !in b && DOT !in c
    ensures Split(a + [DOT] + b + [DOT] + c) == [a, b, c]
  {
    SplitAtDot(a, b + [DOT] + c);
    SplitAtDot(b, c);
    SplitDotFree(c);
    assert a + [DOT] + b + [DOT] + c == a + [DOT] + (b + [DOT] + c);
  }

  /** Text is read back as the object it was written from. */
  predicate ReadsBack(w: World, o: Members) { w.parse(w.text(o)) == Object(o) }

  /** The claims are good at this time for this issuer and audience. */
  predicate Allows(claims: Members, opts: Options) {
    var nowSec := (opts.now / 1000) as real;
    && Get(claims, "exp").Number? && nowSec < Get(claims, "exp").n + opts.skew
    && (Get(claims, "nbf").Number? ==> Get(claims, "nbf").n <= nowSec + opts.skew)
    && (opts.issuer == "" || Get(claims, "iss") == String(opts.issuer))
    && (opts.audience == "" || Get(claims, "aud") == String(opts.audience)
        || (Get(claims, "aud").Strings? && opts.audience in Get(claims, "aud").items))
  }

  lemma ChecksAllow(payload: Members, opts: Options)
    ensures CheckClaims(payload, opts).Ok? <==> Allows(payload, opts)
    ensures CheckClaims(payload, opts).Ok? ==> CheckClaims(payload, opts).value == payload
    ensures CheckClaims(payload, opts).Err? ==>
      CheckClaims(payload, opts).error in {NoExpiry, Expired, NotYetValid, WrongIssuer, WrongAudience}
  {
  }

  /**
   A token signed with the verifier's secret gives back the claims it was signed
   for exactly when they allow it; every other verdict on it is about the claims.
   */
  lemma SignedTokenVerifies(w: World, claims: Members, opts: Options)
    requires ReadsBack(w, HEADER) && ReadsBack(w, claims)
    ensures var r := Verify(w, Sign(w, claims, opts.secret), opts);
      && (r.Ok? <==> opts.secret != "" && Allows(claims, opts))
      && (r.Ok? ==> r.value == claims)
      && (opts.secret != "" ==> r == CheckClaims(claims, opts))
  {
    hide Split, B64Url, B64UrlToBuffer, CheckClaims, Allows;
    var header, payload := B64Url(w.text(HEADER)), B64Url(w.text(claims));
    var mac := w.mac(opts.secret, header + [DOT] + payload);
    UrlAlphabet(w.text(HEADER));
    UrlAlphabet(w.text(claims));
    UrlAlphabet(mac);
    SplitInThree(header, payload, B64Url(mac));
    RoundTrip(w.text(HEADER));
    RoundTrip(w.text(claims));
    RoundTrip(mac);
    ChecksAllow(claims, opts);
  }

  /**
   Exactly which texts are accepted: three segments, a header that says HS256 and
   either no type or JWT, a third segment that is the MAC of the first two, and
   claims that allow it now; and they give back the claims in them.
   */
  lemma AcceptedExactly(w: World, token: Text, opts: Options)
    ensures Verify(w, token, opts).Ok? <==>
      && opts.secret != "" && |Split(token)| == 3
      && var header, claims := w.parse(B64UrlToBuffer(Split(token)[0])), w.parse(B64UrlToBuffer(Split(token)[1]));
      && header.Object? && "alg" in header.members && header.members["alg"] == String("HS256")
      && ("typ" in header.members ==> header.members["typ"] in {Absent, String("JWT")})
      && B64UrlToBuffer(Split(token)[2]) == w.mac(opts.secret, Split(token)[0] + [46] + Split(token)[1])
      && claims.Object? && Allows(claims.members, opts)
    ensures Verify(w, token, opts).Ok? ==>
      w.parse(B64UrlToBuffer(Split(token)[1])) == Object(Verify(w, token, opts).value)
  {
    if |Split(token)| == 3 && w.parse(B64UrlToBuffer(Split(token)[1])).Object? {
      ChecksAllow(w.parse(B64UrlToBuffer(Split(token)[1])).members, opts);
    }
  }

  /** Whatever is accepted is HS256, carries the MAC of its own first two segments, and allows it now. */
  lemma AcceptedIsSigned(w: World, token: Text, opts: Options)
    requires Verify(w, token, opts).Ok?
    ensures opts.secret != "" && |Split(token)| == 3
    ensures var parts := Split(token);
      && DecodeJson(w, parts[0]).Some? && Get(DecodeJson(w, parts[0]).value, "alg") == String("HS256")
      && B64UrlToBuffer(parts[2]) == w.mac(opts.secret, parts[0] + [DOT] + parts[1])
      && DecodeJson(w, parts[1]) == Some(Verify(w, token, opts).value)
    ensures Allows(Verify(w, token, opts).value, opts)
  {
    ChecksAllow(DecodeJson(w, Split(token)[1]).value, opts);
  }

  /**
   Another payload under the signature of a signed token is accepted only if
   the MAC of the two is the same.
   */
  lemma AlteredPayloadNeedsTheMac(w: World, claims: Members, other: seq<Byte>, opts: Options)
    ensures var header := B64Url(w.text(HEADER));
      var signed, altered := header + [DOT] + B64Url(w.text(claims)), header + [DOT] + B64Url(other);
      Verify(w, altered + [DOT] + B64Url(w.mac(opts.secret, signed)), opts).Ok? ==>
        w.mac(opts.secret, altered) == w.mac(opts.secret, signed)
  {
    hide Split, B64Url, B64UrlToBuffer, CheckClaims, Allows;
    var header := B64Url(w.text(HEADER));
    var signed, altered := header + [DOT] + B64Url(w.text(claims)), header + [DOT] + B64Url(other);
    var mac := w.mac(opts.secret, signed);
    UrlAlphabet(w.text(HEADER));
    UrlAlphabet(other);
    UrlAlphabet(mac);
    SplitInThree(header, B64Url(other), B64Url(mac));
    RoundTrip(mac);
    if Verify(w, altered + [DOT] + B64Url(mac), opts).Ok? {
      AcceptedIsSigned(w, altered + [DOT] + B64Url(mac), opts);
    }
  }
}
