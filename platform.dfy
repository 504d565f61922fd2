/**
 * The foreign calls the library makes and cannot be seen from its source: base64url,
 * the signing algorithms behind `jws`, `JSON.stringify`/`JSON.parse` and the `Date`
 * conversions.  They are parameters of the model, bundled in `Host`; `Sound` states the
 * laws the library relies on.  Time itself is a parameter `now` of each operation.
 */
module Platform {
  import opened Wrappers
  import opened JsValue

  /** ECMAScript's time value range: a `Date` is valid iff its time lies within 8.64e15 ms of the epoch. */
  const MaxTime: int := 8_640_000_000_000_000

  predicate ValidTime(t: int) {
    -MaxTime <= t <= MaxTime
  }

  /** TimeClip: an out-of-range time value becomes NaN (`None`). */
  function TimeClip(t: int): (r: Option<int>)
    ensures r.Some? <==> ValidTime(t)
    ensures r.Some? ==> r.value == t
  {
    if ValidTime(t) then Some(t) else None
  }

  predicate Dotless(s: string) {
    '.' !in s
  }

  /** The base64url alphabet (section 5 of RFC 4648). */
  predicate Base64UrlChar(c: char) {
    'A' <= c <= 'Z' || 'a' <= c <= 'z' || '0' <= c <= '9' || c == '-' || c == '_'
  }

  predicate Base64UrlText(s: string) {
    forall i :: 0 <= i < |s| ==> Base64UrlChar(s[i])
  }

  lemma Base64UrlDotless(s: string)
    requires Base64UrlText(s)
    ensures Dotless(s)
  {
  }

  datatype Host = Host(
    base64url: string -> string,                    // segment encoding
    unbase64url: string -> string,                  // segment decoding (never throws)
    signature: (string, string, string) -> string,  // (alg, secret, signing input) to signature segment
    stringify: Value -> string,                     // JSON.stringify
    parseJson: string -> Option<Value>,             // JSON.parse; None when it throws
    isoString: int -> string,                       // Date.prototype.toISOString
    parseDate: string -> Option<int>)               // Date.parse; None for NaN

  /** The functional laws of the foreign calls: encodings invert, and dates round-trip through ISO strings. */
  ghost predicate Sound(h: Host) {
    && (forall s :: h.unbase64url(h.base64url(s)) == s)
    && (forall s :: Base64UrlText(h.base64url(s)))
    && (forall a, k, m :: Base64UrlText(h.signature(a, k, m)))
    && (forall v :: JsonSafe(v) ==> h.parseJson(h.stringify(v)) == Some(v))
    && h.parseDate("") == None
    && (forall t :: ValidTime(t) ==> h.parseDate(h.isoString(t)) == Some(t))
  }

  /**
   * The cryptographic assumption, idealised as collision resistance: the unsecured
   * algorithm "none" signs with the empty string, and otherwise equal signatures come
   * from equal (algorithm, secret, input).
   */
  ghost predicate Unforgeable(h: Host) {
    && (forall k, m :: h.signature("none", k, m) == "")
    && (forall a1, k1, m1, a2, k2, m2 ::
          a1 != "none" && h.signature(a1, k1, m1) == h.signature(a2, k2, m2) ==>
            a1 == a2 && k1 == k2 && m1 == m2)
  }

  /**
   * `new Date(v).getTime()`, with NaN as `None`: null is the epoch, booleans and numbers
   * convert to a time value, strings are parsed, undefined and plain objects are NaN.
   */
  function ToInstant(h: Host, v: Value): (r: Option<int>)
    ensures r.Some? ==> ValidTime(r.value)
    ensures v.Undefined? || v.Obj? ==> r.None?
    ensures v.Num? ==> r == TimeClip(v.n)
  {
    match v
    case Undefined => None
    case Null => Some(0)
    case Bool(b) => Some(if b then 1 else 0)
    case Num(n) => TimeClip(n)
    case Str(s) => (match h.parseDate(s) case None => None case Some(t) => TimeClip(t))
    case Obj(_) => None
  }

  /** An ISO string produced by `toISOString` is truthy and converts back to the instant it was made from. */
  lemma IsoRoundTrip(h: Host, t: int)
    requires Sound(h) && ValidTime(t)
    ensures ToInstant(h, Str(h.isoString(t))) == Some(t)
    ensures Truthy(Str(h.isoString(t)))
  {
    assert h.parseDate(h.isoString(t)) == Some(t);
  }
}
