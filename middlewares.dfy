/** HTTP middlewares: composition of handlers, the claims extractor and the
    redactor that hides the bodies of internal-error responses. A handler is
    modelled as a function from a request to the response it writes. */
module Middlewares {
  import opened Models

  type Handler = Request -> Response
  type Middleware = Handler -> Handler

  /** The handler `ms` builds around `h`: the first middleware listed is the
      outermost, `ms[0](ms[1](...ms[|ms| - 1](h)))`. */
  function Composed(ms: seq<Middleware>, h: Handler): Handler
    decreases |ms|
  {
    if ms == [] then h else ms[0](Composed(ms[1..], h))
  }

  /** Chaining `a` and then `b` is chaining `a` around the chain of `b`. */
  lemma {:induction false} ComposedAppend(a: seq<Middleware>, b: seq<Middleware>, h: Handler)
    ensures Composed(a + b, h) == Composed(a, Composed(b, h))
    decreases |a|
  {
    if a == [] {
      assert a + b == b;
    } else {
      assert (a + b)[1..] == a[1..] + b;
      ComposedAppend(a[1..], b, h);
    }
  }

  /** Wraps `h` in the middlewares `ms`, applying them from the last to the
      first. */
  method Chain(h: Handler, ms: seq<Middleware>) returns (r: Handler)
    ensures r == Composed(ms, h)
    ensures ms == [] ==> r == h
  {
    r := h;
    var i := |ms|;
    while i > 0
      invariant 0 <= i <= |ms|
      invariant r == Composed(ms[i..], h)
    {
      i := i - 1;
      assert ms[i..][1..] == ms[i + 1..];
      r := ms[i](r);
    }
    assert ms[0..] == ms;
  }

  /** Chains middlewares around a handler function; a handler function is a
      handler in this model. */
  method ChainFunc(f: Handler, ms: seq<Middleware>) returns (r: Handler)
    ensures r == Composed(ms, f)
  {
    r := Chain(f, ms);
  }

  /** Wrapping in one middleware is a chain of one. */
  function WithMiddleware(h: Handler, m: Middleware): (r: Handler)
    ensures r == Composed([m], h)
  {
    m(h)
  }

  /** Chaining one middleware at a time, last first, builds the same handler
      as chaining them all at once. */
  lemma {:induction false} ChainIsRepeatedWrapping(ms: seq<Middleware>, m: Middleware, h: Handler)
    ensures Composed(ms + [m], h) == Composed(ms, WithMiddleware(h, m))
  {
    ComposedAppend(ms, [m], h);
  }

  /** `dst` overwritten by every entry of `src`. */
  function Overwritten(dst: Header, src: Header): (r: Header)
    ensures r.Keys == dst.Keys + src.Keys
    ensures forall k :: k in src ==> r[k] == src[k]
    ensures forall k :: k in dst && k !in src ==> r[k] == dst[k]
  {
    dst + src
  }

  /** Copies every entry of `src` into `dst`, in place. */
  method CopyHeaders(dst: HeaderMap, src: Header)
    modifies dst
    ensures dst.entries == Overwritten(old(dst.entries), src)
  {
    var todo := src.Keys;
    while todo != {}
      invariant todo <= src.Keys
      invariant dst.entries == Overwritten(old(dst.entries), map k | k in src.Keys - todo :: src[k])
      decreases todo
    {
      var k :| k in todo;
      dst.entries := dst.entries[k := src[k]];
      todo := todo - {k};
    }
    assert (map k | k in src.Keys - todo :: src[k]) == src;
  }

  /** Decimal representation of a natural number. */
  function Decimal(n: nat): (s: string)
    ensures |s| > 0 && AllDigits(s)
    ensures s[0] == '0' ==> n == 0
    decreases n
  {
    if n < 10 then [DigitChar(n)] else Decimal(n / 10) + [DigitChar(n % 10)]
  }

  function DigitChar(d: nat): (c: char)
    requires d < 10
    ensures '0' <= c <= '9' && c as int - '0' as int == d
  {
    ('0' as int + d) as char
  }

  predicate AllDigits(s: string) {
    forall i :: 0 <= i < |s| ==> '0' <= s[i] <= '9'
  }

  /** The number a string of decimal digits denotes. */
  function DecimalValue(s: string): nat
    requires AllDigits(s)
    decreases |s|
  {
    if s == [] then 0 else DecimalValue(s[..|s| - 1]) * 10 + (s[|s| - 1] as int - '0' as int)
  }

  lemma {:induction false} DecimalRoundTrip(n: nat)
    ensures DecimalValue(Decimal(n)) == n
    decreases n
  {
    if n >= 10 {
      var s := Decimal(n);
      assert s[..|s| - 1] == Decimal(n / 10);
      DecimalRoundTrip(n / 10);
    }
  }

  type ResponseId = n: nat | n < 1000000

  const RedactedPrefix := "internal error, id: "

  /** The body that replaces an internal error's body. */
  function RedactedBody(id: ResponseId): string {
    RedactedPrefix + Decimal(id)
  }

  /** The id in a redacted body can be read back from it, so two different
      ids never produce the same body. */
  lemma RedactedBodyNamesId(a: ResponseId, b: ResponseId)
    ensures RedactedBody(a)[|RedactedPrefix|..] == Decimal(a)
    ensures RedactedBody(a) == RedactedBody(b) ==> a == b
  {
    var pa, pb := RedactedBody(a), RedactedBody(b);
    assert pa[|RedactedPrefix|..] == Decimal(a);
    assert pb[|RedactedPrefix|..] == Decimal(b);
    DecimalRoundTrip(a);
    DecimalRoundTrip(b);
  }

  /** What the redactor writes, given the headers already on the outer writer
      (`outer`) and the response the inner handler produced (`inner`). */
  function Redact(outer: Header, inner: Response, id: ResponseId): (r: Response)
    ensures r.header == Overwritten(outer, inner.header)
    ensures inner.status == StatusInternalServerError ==>
      r.status == StatusInternalServerError && r.body == RedactedPrefix + Decimal(id)
    ensures inner.status != StatusInternalServerError ==>
      r.status == inner.status && r.body == inner.body
  {
    if inner.status == StatusInternalServerError then
      Response(StatusInternalServerError, Overwritten(outer, inner.header), RedactedBody(id))
    else
      Response(inner.status, Overwritten(outer, inner.header), inner.body)
  }

  /** Two internal errors that differ in their bodies are indistinguishable
      after redaction: the inner body is never forwarded. */
  lemma RedactHidesInternalBody(outer: Header, inner: Response, other: string, id: ResponseId)
    requires inner.status == StatusInternalServerError
    ensures Redact(outer, inner, id) == Redact(outer, inner.(body := other), id)
  {
  }

  /** The redacting middleware; `ids` stands for the random response id. The
      handler model starts every response from an empty header map. */
  function InternalErrorRedacter(ids: Request -> ResponseId): (m: Middleware)
    ensures forall h: Handler, req: Request {:trigger m(h)(req)} :: m(h)(req) == Redact(map[], h(req), ids(req))
  {
    (h: Handler) => (req: Request) => Redact(map[], h(req), ids(req))
  }

  /** The request the claims extractor passes on: claims attached when the
      extraction succeeded, the request untouched otherwise. */
  function WithExtractedClaims(req: Request, extracted: Result<Claims>): (r: Request)
    ensures r.form == req.form
    ensures extracted.Success? ==> r.claims == Some(extracted.value)
    ensures extracted.Failure? ==> r == req
  {
    if extracted.Success? then req.(claims := Some(extracted.value)) else req
  }

  /** The claims-extracting middleware; `extract` stands for reading and
      verifying the token on the request with the public key. The inner
      handler is called exactly once, on the request with or without claims. */
  function ClaimsExtractor(extract: Request -> Result<Claims>): (m: Middleware)
    ensures forall h: Handler, req: Request {:trigger m(h)(req)} ::
      m(h)(req) == h(WithExtractedClaims(req, extract(req)))
  {
    (h: Handler) => (req: Request) => h(WithExtractedClaims(req, extract(req)))
  }
}
