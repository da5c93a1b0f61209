/** The bearer header across the wire: what the request interceptor attaches,
    read back by the server's middleware as `c.GetHeader("Authorization")`. */
module Wire {
  import opened Common
  import Api
  import Middleware

  /** The `Authorization` header as the server reads it: `""` when absent. */
  function ReceivedAuthorization(config: Api.RequestConfig): (r: string) {
    var h := Api.HeadersOf(config);
    if Api.AuthorizationHeader in h then h[Api.AuthorizationHeader] else ""
  }

  /** HTTP whitespace as the browser's header normalisation sees it. */
  predicate HttpWhitespace(c: char) {
    c == ' ' || c == '\t' || c == '\r' || c == '\n'
  }

  /** The value with its trailing HTTP whitespace removed. `setRequestHeader`
      strips it, and Go's header reader behind `c.GetHeader` trims trailing
      spaces and tabs again. */
  function TrimEnd(s: string): (r: string)
    ensures r <= s
    ensures r == [] || !HttpWhitespace(r[|r| - 1])
    ensures forall i :: |r| <= i < |s| ==> HttpWhitespace(s[i])
    decreases |s|
  {
    if s != [] && HttpWhitespace(s[|s| - 1]) then TrimEnd(s[..|s| - 1]) else s
  }

  /** Every character of `v` satisfies `ok`. */
  predicate Every(v: string, ok: char -> bool) {
    forall i :: 0 <= i < |v| ==> ok(v[i])
  }

  /** A character the browser agrees to send in a header value: not NUL, CR
      or LF, and a single byte. */
  predicate SendableChar(c: char) {
    c != '\0' && c != '\r' && c != '\n' && (c as int) < 256
  }

  predicate Sendable(v: string) {
    Every(v, SendableChar)
  }

  /** A character Go's request reader accepts in a header value
      (`httpguts.ValidHeaderFieldValue`): tab, or anything that is not a
      control character and not DEL. */
  predicate AcceptedChar(c: char) {
    c == '\t' || (' ' <= c && c != '\U{7F}')
  }

  predicate FieldValueValid(v: string) {
    Every(v, AcceptedChar)
  }

  /** What reaches the server for a request config: `None` when the browser
      refuses to send the `Authorization` value, otherwise the header value
      after the trailing whitespace is trimmed. A value starts with `Bearer`,
      so no leading whitespace is ever trimmed. */
  function Transmit(config: Api.RequestConfig): (r: Option<string>)
    ensures r.Some? ==> r.value == TrimEnd(ReceivedAuthorization(config))
  {
    var v := TrimEnd(ReceivedAuthorization(config));
    if Sendable(v) then Some(v) else None
  }

  /** The fate of a request on the way to the middleware: never sent, refused
      with 400 by Go's request reader before any handler runs, or delivered
      with the header `c.GetHeader("Authorization")` then returns. */
  datatype Delivery = NotSent | BadRequest | Delivered(header: string)

  function Deliver(config: Api.RequestConfig): (r: Delivery)
    ensures r.NotSent? <==> Transmit(config).None?
    ensures r.Delivered? ==> Transmit(config) == Some(r.header) && FieldValueValid(r.header)
    ensures r.BadRequest? ==> Transmit(config).Some? && !FieldValueValid(Transmit(config).value)
  {
    match Transmit(config)
    case None => NotSent
    case Some(v) => if FieldValueValid(v) then Delivered(v) else BadRequest
  }

  /** Trailing whitespace of `b` is all that goes, unless `b` is all whitespace. */
  lemma {:induction false} TrimEndAppend(a: string, b: string)
    ensures TrimEnd(b) != [] ==> TrimEnd(a + b) == a + TrimEnd(b)
    ensures TrimEnd(b) == [] ==> TrimEnd(a + b) == TrimEnd(a)
    decreases |b|
  {
    if b == [] {
      assert a + b == a;
    } else if HttpWhitespace(b[|b| - 1]) {
      assert (a + b)[..|a + b| - 1] == a + b[..|b| - 1];
      TrimEndAppend(a, b[..|b| - 1]);
    }
  }

  lemma EveryAppend(a: string, b: string, ok: char -> bool)
    ensures Every(a + b, ok) <==> Every(a, ok) && Every(b, ok)
  {
    if Every(a, ok) && Every(b, ok) {
      forall i | 0 <= i < |a + b|
        ensures ok((a + b)[i])
      {
        if i >= |a| {
          assert (a + b)[i] == b[i - |a|];
        }
      }
    }
    if Every(a + b, ok) {
      forall i | 0 <= i < |a|
        ensures ok(a[i])
      {
        assert (a + b)[i] == a[i];
      }
      forall i | 0 <= i < |b|
        ensures ok(b[i])
      {
        assert (a + b)[|a| + i] == b[i];
      }
    }
  }

  /** The header a truthy slot `t` becomes on the server: `"Bearer " + u` for
      `u` the token without its trailing whitespace, or bare `"Bearer"` when
      nothing is left; it is sent exactly when `u` is sendable, and accepted
      by Go's reader exactly when `u` is. */
  lemma SentBearer(t: string)
    ensures var u := TrimEnd(t);
      && TrimEnd("Bearer " + t) == (if u == [] then "Bearer" else "Bearer " + u)
      && (Sendable(TrimEnd("Bearer " + t)) <==> Sendable(u))
      && (FieldValueValid(TrimEnd("Bearer " + t)) <==> FieldValueValid(u))
  {
    var u := TrimEnd(t);
    TrimEndAppend("Bearer ", t);
    assert "Bearer "[..6] == "Bearer";
    assert TrimEnd("Bearer ") == "Bearer";
    EveryAppend("Bearer ", u, SendableChar);
    EveryAppend("Bearer ", u, AcceptedChar);
    assert "Bearer" + [] == "Bearer";
    EveryAppend("Bearer", [], SendableChar);
    EveryAppend("Bearer", [], AcceptedChar);
  }

  /** For a request that carries no `Authorization` header of its own, the
      slot decides what happens at the server. With `u` the slot's token
      without its trailing whitespace: a guest request (empty or missing
      slot) is refused with `AUTH_HEADER_MISSING`; a `u` with a NUL, CR, LF or
      wide character is never sent; a sendable `u` with another control
      character or DEL is refused with 400 before the middleware runs; a
      delivered `u` that is empty or has a space is refused with
      `AUTH_HEADER_INVALID_FORMAT`; any other delivered `u` reaches
      `jwt.Parse` as it is and the claims decide. */
  lemma SlotDecidesServerCheck(slot: Option<string>, config: Api.RequestConfig, secret: string,
                               parse: Middleware.JwtParser, parseUuid: Middleware.UuidParser)
    requires Api.AuthorizationHeader !in Api.HeadersOf(config)
    ensures var d := Deliver(Api.AttachToken(slot, config));
      && (!TruthyString(slot) ==>
            d == Delivered("") && Middleware.Authenticate(d.header, secret, parse, parseUuid) == Middleware.Deny(Middleware.HeaderMissing))
      && (TruthyString(slot) ==> (d.NotSent? <==> !Sendable(TrimEnd(slot.value))))
      && (TruthyString(slot) && Sendable(TrimEnd(slot.value)) ==>
            (d.BadRequest? <==> !FieldValueValid(TrimEnd(slot.value))))
      && (TruthyString(slot) && d.Delivered? && (TrimEnd(slot.value) == [] || ' ' in TrimEnd(slot.value)) ==>
            Middleware.Authenticate(d.header, secret, parse, parseUuid) == Middleware.Deny(Middleware.HeaderInvalidFormat))
      && (TruthyString(slot) && d.Delivered? && TrimEnd(slot.value) != [] && ' ' !in TrimEnd(slot.value) ==>
            var u := TrimEnd(slot.value);
            Middleware.Authenticate(d.header, secret, parse, parseUuid) ==
              if !Middleware.TokenAccepted(parse(u, secret)) then Middleware.Deny(Middleware.TokenInvalid)
              else Middleware.ClaimDecision(parse(u, secret).value.claims.entries, parseUuid))
  {
    if TruthyString(slot) {
      var t := slot.value;
      var u := TrimEnd(t);
      assert ReceivedAuthorization(Api.AttachToken(slot, config)) == "Bearer " + t;
      SentBearer(t);
      if u == [] {
        Middleware.SplitNoSpace("Bearer");
      } else {
        Middleware.BearerFormatIff(u);
        if ' ' !in u {
          Middleware.ClientTokenReachesParser(u, secret, parse, parseUuid);
        }
      }
    } else {
      assert TrimEnd("") == "";
    }
  }

  /** A trailing space in the slot does not reach the server: slot `abc `
      is delivered as `Bearer abc`, and `jwt.Parse` receives `abc`. */
  lemma TrailingSpaceIsTrimmed(config: Api.RequestConfig)
    requires Api.AuthorizationHeader !in Api.HeadersOf(config)
    ensures Deliver(Api.AttachToken(Some("abc "), config)) == Delivered("Bearer abc")
  {
    assert ReceivedAuthorization(Api.AttachToken(Some("abc "), config)) == "Bearer " + "abc ";
    SentBearer("abc ");
    assert "abc "[..3] == "abc";
    assert TrimEnd("abc ") == "abc";
    assert Sendable("abc") && FieldValueValid("abc");
    assert "Bearer " + "abc" == "Bearer abc";
  }

  /** A control character the browser does send still stops the request:
      slot `a\u0001b` is refused by Go's reader, so the middleware never runs. */
  lemma ControlCharacterRefused(config: Api.RequestConfig)
    requires Api.AuthorizationHeader !in Api.HeadersOf(config)
    ensures Deliver(Api.AttachToken(Some("a\U{1}b"), config)) == BadRequest
  {
    var t := "a\U{1}b";
    assert ReceivedAuthorization(Api.AttachToken(Some(t), config)) == "Bearer " + t;
    SentBearer(t);
    assert TrimEnd(t) == t;
    assert Sendable(t);
    assert !AcceptedChar(t[1]);
  }
}
