/**
 * JWS Compact Serialization (section 7.1 of RFC 7515) as the `jws` package produces
 * and reads it: BASE64URL(header) "." BASE64URL(payload) "." BASE64URL(signature),
 * with the signing algorithm named by the `alg` header parameter (section 4.1.1 of
 * RFC 7515).  Segment encoding and the signature itself are the host's; the
 * dot-separated layout, the verification rule and the token check that both variants of
 * the library run before trusting a body are modelled here.
 */
module Jws {
  import opened Wrappers
  import opened JsValue
  import opened Platform

  /** The algorithm names the library's configuration type admits. */
  const Algorithms: set<string> := {
    "none", "HS256", "HS384", "HS512", "RS256", "RS384", "RS512",
    "ES256", "ES384", "ES512", "PS256", "PS384", "PS512" }

  type Alg = a: string | a in Algorithms witness "HS256"

  /** The parts joined with '.' in between. */
  function Join(parts: seq<string>): string
    requires |parts| >= 1
    decreases |parts|
  {
    if |parts| == 1 then parts[0] else parts[0] + "." + Join(parts[1..])
  }

  lemma JoinThree(parts: seq<string>)
    requires |parts| == 3
    ensures Join(parts) == parts[0] + "." + parts[1] + "." + parts[2]
  {
    assert parts[1..][1..] == [parts[2]];
    assert Join(parts[1..]) == parts[1] + "." + parts[2];
  }

  /** `s.split('.')`: the maximal dot-free pieces of `s`, which join back to `s`. */
  function Split(s: string): (parts: seq<string>)
    ensures |parts| >= 1 && Join(parts) == s
    ensures forall i :: 0 <= i < |parts| ==> Dotless(parts[i])
    decreases |s|
  {
    if s == [] then [[]]
    else
      var rest := Split(s[1..]);
      if s[0] == '.' then
        assert Join([[]] + rest) == "." + Join(rest) by {
          assert ([[]] + rest)[1..] == rest;
        }
        assert "." + s[1..] == s;
        [[]] + rest
      else
        var parts := [[s[0]] + rest[0]] + rest[1..];
        assert Join(parts) == [s[0]] + Join(rest) by {
          if |rest| > 1 {
            assert parts[1..] == rest[1..];
          }
        }
        assert [s[0]] + s[1..] == s;
        parts
  }

  lemma {:induction false} SplitDotless(a: string)
    requires Dotless(a)
    ensures Split(a) == [a]
    decreases |a|
  {
    if a != [] {
      SplitDotless(a[1..]);
      assert [a[0]] + a[1..] == a;
    }
  }

  lemma {:induction false} SplitCons(a: string, rest: string)
    requires Dotless(a)
    ensures Split(a + "." + rest) == [a] + Split(rest)
    decreases |a|
  {
    var s := a + "." + rest;
    if a == [] {
      assert s[0] == '.' && s[1..] == rest;
    } else {
      assert s[0] == a[0] && s[1..] == a[1..] + "." + rest;
      SplitCons(a[1..], rest);
      assert [a[0]] + a[1..] == a;
    }
  }

  /** Splitting undoes joining dot-free parts. */
  lemma {:induction false} SplitJoin(parts: seq<string>)
    requires |parts| >= 1
    requires forall i :: 0 <= i < |parts| ==> Dotless(parts[i])
    ensures Split(Join(parts)) == parts
    decreases |parts|
  {
    if |parts| == 1 {
      SplitDotless(parts[0]);
    } else {
      SplitJoin(parts[1..]);
      SplitCons(parts[0], Join(parts[1..]));
      assert [parts[0]] + parts[1..] == parts;
    }
  }

  /** The JOSE header `{alg}` that the library always signs with. */
  function AlgHeader(alg: string): Value {
    Obj(map["alg" := Str(alg)])
  }

  function SigningInput(h: Host, header: Value, payload: string): string {
    h.base64url(h.stringify(header)) + "." + h.base64url(payload)
  }

  /** A compact token carrying `header` and `payload`, signed under `alg` and `secret`. */
  function Compact(h: Host, header: Value, alg: string, payload: string, secret: string): string {
    var input := SigningInput(h, header, payload);
    input + "." + h.signature(alg, secret, input)
  }

  /** `jws.sign({header: {alg}, payload, secret})`. */
  function Sign(h: Host, alg: Alg, payload: string, secret: string): (token: string)
    ensures var input := SigningInput(h, AlgHeader(alg), payload);
      token == input + "." + h.signature(alg, secret, input)
  {
    Compact(h, AlgHeader(alg), alg, payload, secret)
  }

  /**
   * `jws.verify(token, alg, secret)`: the token has three segments and its third is the
   * signature of the first two under the algorithm and secret supplied by the caller
   * (not the algorithm the header names).
   */
  function Verify(h: Host, token: string, alg: string, secret: string): (ok: bool)
    ensures ok ==> var parts := Split(token);
      |parts| == 3 && token == parts[0] + "." + parts[1] + "." + h.signature(alg, secret, parts[0] + "." + parts[1])
  {
    var parts := Split(token);
    if |parts| != 3 then false
    else
      JoinThree(parts);
      h.signature(alg, secret, parts[0] + "." + parts[1]) == parts[2]
  }

  datatype Decoded = Decoded(header: Value, payload: string)

  /** `jws.decode(token)`: null unless three segments with a truthy JSON header. */
  function Decode(h: Host, token: string): (r: Option<Decoded>)
    ensures r.Some? ==> |Split(token)| == 3 && Truthy(r.value.header)
  {
    var parts := Split(token);
    if |parts| != 3 then None
    else
      match h.parseJson(h.unbase64url(parts[0]))
      case None => None
      case Some(header) =>
        if Truthy(header) then Some(Decoded(header, h.unbase64url(parts[1]))) else None
  }

  /**
   * The check both variants run on a presented token before looking at its body
   * (verify, decode, header `alg` equal to the configured one, `JSON.parse` of the
   * body); any failure, thrown or returned, is `None`.
   */
  function VerifiedBody(h: Host, token: string, alg: Alg, secret: string): (r: Option<Value>)
    ensures r.Some? ==> Verify(h, token, alg, secret)
    ensures r.Some? ==> Decode(h, token).Some? && Prop(Decode(h, token).value.header, "alg") == Str(alg)
    ensures r.Some? ==> h.parseJson(Decode(h, token).value.payload) == r
  {
    if !Verify(h, token, alg, secret) then None
    else
      match Decode(h, token)
      case None => None
      case Some(d) => if Prop(d.header, "alg") != Str(alg) then None else h.parseJson(d.payload)
  }

  lemma SplitCompact(h: Host, header: Value, alg: string, payload: string, secret: string)
    requires Sound(h)
    ensures var input := SigningInput(h, header, payload);
      Split(Compact(h, header, alg, payload, secret))
        == [h.base64url(h.stringify(header)), h.base64url(payload), h.signature(alg, secret, input)]
  {
    var a, b := h.base64url(h.stringify(header)), h.base64url(payload);
    var sig := h.signature(alg, secret, SigningInput(h, header, payload));
    var parts := [a, b, sig];
    Base64UrlDotless(a);
    Base64UrlDotless(b);
    Base64UrlDotless(sig);
    assert Join(parts) == a + "." + (b + "." + sig) by {
      assert [b, sig][1..] == [sig];
      assert Join([b, sig]) == b + "." + sig;
      assert parts[1..] == [b, sig];
    }
    assert a + "." + (b + "." + sig) == Compact(h, header, alg, payload, secret);
    SplitJoin(parts);
  }

  /** A signed token is written in the base64url alphabet and dots only (so it holds no space). */
  lemma CompactAlphabet(h: Host, header: Value, alg: string, payload: string, secret: string)
    requires Sound(h)
    ensures var token := Compact(h, header, alg, payload, secret);
      forall i :: 0 <= i < |token| ==> Base64UrlChar(token[i]) || token[i] == '.'
  {
    var a, b := h.base64url(h.stringify(header)), h.base64url(payload);
    var sig := h.signature(alg, secret, a + "." + b);
    assert Base64UrlText(a) && Base64UrlText(b) && Base64UrlText(sig);
    var token := Compact(h, header, alg, payload, secret);
    assert token == a + "." + b + "." + sig;
  }

  /** A token made by signing verifies under the same algorithm and secret and decodes to what was signed. */
  lemma {:induction false} CompactVerifiesAndDecodes(h: Host, header: Value, alg: string, payload: string, secret: string)
    requires Sound(h)
    requires JsonSafe(header) && Truthy(header)
    ensures Verify(h, Compact(h, header, alg, payload, secret), alg, secret)
    ensures Decode(h, Compact(h, header, alg, payload, secret)) == Some(Decoded(header, payload))
  {
    SplitCompact(h, header, alg, payload, secret);
    assert h.parseJson(h.stringify(header)) == Some(header);
  }

  /**
   * Algorithm and secret pinning: a signed token verifies under exactly its own
   * algorithm and, unless that algorithm is "none", exactly its own secret.
   */
  lemma {:induction false} VerifyPinsAlgAndSecret(h: Host, header: Value, alg: string, payload: string, secret: string,
                                                  alg': string, secret': string)
    requires Sound(h) && Unforgeable(h)
    ensures Verify(h, Compact(h, header, alg, payload, secret), alg', secret')
        <==> alg' == alg && (alg == "none" || secret' == secret)
  {
    SplitCompact(h, header, alg, payload, secret);
    var input := SigningInput(h, header, payload);
    if alg == "none" {
      assert h.signature("none", secret, input) == "";
      if alg' != "none" {
        assert h.signature(alg', secret', input) != h.signature("none", secret, input);
      }
      if alg' == "none" {
        assert h.signature("none", secret', input) == "";
      }
    }
  }

  /** Signing a JSON-safe body and checking the token under the same configuration recovers the body. */
  lemma {:induction false} SignedBodyRecovered(h: Host, alg: Alg, body: Value, secret: string)
    requires Sound(h) && JsonSafe(body)
    ensures VerifiedBody(h, Sign(h, alg, h.stringify(body), secret), alg, secret) == Some(body)
  {
    var header := AlgHeader(alg);
    assert JsonSafe(header) by {
      assert forall k :: k in header.fields ==> header.fields[k] == Str(alg);
    }
    CompactVerifiesAndDecodes(h, header, alg, h.stringify(body), secret);
    assert Prop(header, "alg") == Str(alg);
  }

  /**
   * Verification alone does not pin the header: a token whose header names another
   * algorithm still verifies when signed under the configured one, and only the header
   * comparison rejects it.
   */
  lemma {:induction false} HeaderCheckNeeded(h: Host, alg: Alg, claimed: string, payload: string, secret: string)
    requires Sound(h) && claimed != alg
    ensures Verify(h, Compact(h, AlgHeader(claimed), alg, payload, secret), alg, secret)
    ensures VerifiedBody(h, Compact(h, AlgHeader(claimed), alg, payload, secret), alg, secret) == None
  {
    var header := AlgHeader(claimed);
    assert JsonSafe(header) by {
      assert forall k :: k in header.fields ==> header.fields[k] == Str(claimed);
    }
    CompactVerifiesAndDecodes(h, header, alg, payload, secret);
    assert Prop(header, "alg") == Str(claimed);
  }

  /** A presented string that is not three dot-separated segments never passes the check. */
  lemma MalformedTokenRejected(h: Host, token: string, alg: Alg, secret: string)
    requires |Split(token)| != 3
    ensures VerifiedBody(h, token, alg, secret) == None
  {
  }
}
