/** The backend's bearer-token middleware (`AuthMiddleware`): an ordered chain
    of early-return checks on the `Authorization` header, each failure mapped to
    one error code; the JWT library and the UUID parser are oracles. */
module Middleware {
  import opened Common

  const ContextUserIDKey := "userID"
  const ContextUserRoleKey := "userRole"
  const StatusUnauthorized := 401

  /** A rejection: the message and code given to `NewErrorResponse`. */
  datatype Failure = Failure(message: string, code: string)

  const HeaderMissing := Failure("Authorization header missing", "AUTH_HEADER_MISSING")
  const HeaderInvalidFormat := Failure("Invalid authorization header format", "AUTH_HEADER_INVALID_FORMAT")
  const TokenInvalid := Failure("Invalid token", "TOKEN_INVALID")
  const ClaimInvalidSub := Failure("Invalid subject claim", "TOKEN_CLAIM_INVALID_SUB")
  const ClaimInvalidSubFormat := Failure("Invalid subject claim format", "TOKEN_CLAIM_INVALID_SUB_FORMAT")
  const ClaimInvalidRole := Failure("Invalid role claim", "TOKEN_CLAIM_INVALID_ROLE")

  /** `strings.Split(s, " ")`: the pieces between single spaces, in order;
      consecutive, leading or trailing spaces yield empty pieces. */
  function Split(s: string): (parts: seq<string>)
    ensures |parts| >= 1
  {
    if s == [] then [[]]
    else if s[0] == ' ' then [[]] + Split(s[1..])
    else
      var rest := Split(s[1..]);
      [[s[0]] + rest[0]] + rest[1..]
  }

  /** The header-format rule: exactly two pieces, the first exactly "Bearer". */
  predicate WellFormedBearer(header: string) {
    var parts := Split(header);
    |parts| == 2 && parts[0] == "Bearer"
  }

  function SpaceCount(s: string): (r: nat) {
    if s == [] then 0 else (if s[0] == ' ' then 1 else 0) + SpaceCount(s[1..])
  }

  /** Split yields one piece more than there are spaces. */
  lemma {:induction false} SplitLength(s: string)
    ensures |Split(s)| == SpaceCount(s) + 1
  {
    if s != [] {
      SplitLength(s[1..]);
    }
  }

  lemma {:induction false} SpaceCountZero(s: string)
    ensures SpaceCount(s) == 0 <==> ' ' !in s
  {
    if s != [] {
      SpaceCountZero(s[1..]);
      assert s == [s[0]] + s[1..];
    }
  }

  /** A word without spaces followed by a space splits off as the first piece. */
  lemma {:induction false} SplitAfterWord(w: string, t: string)
    requires ' ' !in w
    ensures Split(w + " " + t) == [w] + Split(t)
  {
    if w == [] {
      assert w + " " + t == [' '] + t;
      assert ([' '] + t)[1..] == t;
    } else {
      assert (w + " " + t)[1..] == w[1..] + " " + t;
      SplitAfterWord(w[1..], t);
      assert [w[0]] + w[1..] == w;
    }
  }

  /** The header the client builds, `"Bearer " + t`, passes the format rule
      exactly when `t` has no space; the second piece is then `t` itself. */
  lemma BearerFormatIff(t: string)
    ensures WellFormedBearer("Bearer " + t) <==> ' ' !in t
    ensures ' ' !in t ==> Split("Bearer " + t) == ["Bearer", t]
  {
    assert "Bearer " + t == "Bearer" + " " + t;
    SplitAfterWord("Bearer", t);
    SplitLength(t);
    SpaceCountZero(t);
    if ' ' !in t {
      SplitNoSpace(t);
    }
  }

  lemma {:induction false} SplitNoSpace(s: string)
    requires ' ' !in s
    ensures Split(s) == [s]
  {
    if s != [] {
      SplitNoSpace(s[1..]);
      assert [s[0]] + s[1..] == s;
    }
  }

  /** For a scheme and a token without spaces, the format rule holds exactly
      when the scheme is `Bearer`, character for character. */
  lemma SchemeExact(s: string, t: string)
    requires ' ' !in s && ' ' !in t
    ensures WellFormedBearer(s + " " + t) <==> s == "Bearer"
  {
    SplitAfterWord(s, t);
    SplitNoSpace(t);
  }

  /** An instance: a lower-case scheme is refused. */
  lemma SchemeIsCaseSensitive()
    ensures !WellFormedBearer("bearer abc")
  {
    SchemeExact("bearer", "abc");
  }

  datatype SigningMethod = Hmac | OtherSigningMethod

  datatype ClaimValue = StringClaim(text: string) | OtherClaim

  datatype Claims = MapClaims(entries: map<string, ClaimValue>) | OtherClaims

  /** What `jwt.Parse` hands back when it does not fail by itself. */
  datatype ParsedToken = ParsedToken(signing: SigningMethod, valid: bool, claims: Claims)

  /** `jwt.Parse` with the given secret: `None` is a parse or verification error. */
  type JwtParser = (string, string) -> Option<ParsedToken>

  /** A parsed UUID; only its identity matters here. */
  datatype Uuid = Uuid(canonical: string)

  /** `uuid.Parse`: `None` is a parse error. */
  type UuidParser = string -> Option<Uuid>

  datatype Decision = Allow(userId: Uuid, role: string) | Deny(failure: Failure)

  /** `claims[key].(string)`: a missing key is not a string. */
  predicate StringClaimAt(entries: map<string, ClaimValue>, key: string) {
    key in entries && entries[key].StringClaim?
  }

  /** The key function refuses every non-HMAC method, which makes `jwt.Parse` fail. */
  predicate TokenAccepted(parsed: Option<ParsedToken>) {
    parsed.Some? && parsed.value.signing == Hmac && parsed.value.claims.MapClaims? && parsed.value.valid
  }

  /** The claim checks, in order, on a token the library accepted. */
  function ClaimDecision(entries: map<string, ClaimValue>, parseUuid: UuidParser): (r: Decision) {
    if !StringClaimAt(entries, "sub") then Deny(ClaimInvalidSub)
    else if parseUuid(entries["sub"].text).None? then Deny(ClaimInvalidSubFormat)
    else if !StringClaimAt(entries, "role") then Deny(ClaimInvalidRole)
    else Allow(parseUuid(entries["sub"].text).value, entries["role"].text)
  }

  /** The check chain, first failure first. */
  function Authenticate(header: string, secret: string, parse: JwtParser, parseUuid: UuidParser): (r: Decision) {
    if header == "" then Deny(HeaderMissing)
    else if !WellFormedBearer(header) then Deny(HeaderInvalidFormat)
    else
      var parsed := parse(Split(header)[1], secret);
      if !TokenAccepted(parsed) then Deny(TokenInvalid)
      else ClaimDecision(parsed.value.claims.entries, parseUuid)
  }

  /** Each code is produced exactly by its own failed check, given that every
      earlier check passed. */
  lemma CheckOrder(header: string, secret: string, parse: JwtParser, parseUuid: UuidParser)
    ensures Authenticate(header, secret, parse, parseUuid) == Deny(HeaderMissing) <==> header == ""
    ensures Authenticate(header, secret, parse, parseUuid) == Deny(HeaderInvalidFormat) <==>
      header != "" && !WellFormedBearer(header)
    ensures Authenticate(header, secret, parse, parseUuid) == Deny(TokenInvalid) <==>
      header != "" && WellFormedBearer(header) && !TokenAccepted(parse(Split(header)[1], secret))
    ensures Authenticate(header, secret, parse, parseUuid) == Deny(ClaimInvalidSub) <==>
      header != "" && WellFormedBearer(header) && TokenAccepted(parse(Split(header)[1], secret)) &&
      !StringClaimAt(parse(Split(header)[1], secret).value.claims.entries, "sub")
    ensures Authenticate(header, secret, parse, parseUuid) == Deny(ClaimInvalidSubFormat) <==>
      header != "" && WellFormedBearer(header) && TokenAccepted(parse(Split(header)[1], secret)) &&
      StringClaimAt(parse(Split(header)[1], secret).value.claims.entries, "sub") &&
      parseUuid(parse(Split(header)[1], secret).value.claims.entries["sub"].text).None?
    ensures Authenticate(header, secret, parse, parseUuid) == Deny(ClaimInvalidRole) <==>
      header != "" && WellFormedBearer(header) && TokenAccepted(parse(Split(header)[1], secret)) &&
      StringClaimAt(parse(Split(header)[1], secret).value.claims.entries, "sub") &&
      parseUuid(parse(Split(header)[1], secret).value.claims.entries["sub"].text).Some? &&
      !StringClaimAt(parse(Split(header)[1], secret).value.claims.entries, "role")
  {
  }

  /** Authorization succeeds exactly when every check passes, and then carries
      the parsed subject and the role claim. */
  lemma AuthorizedIff(header: string, secret: string, parse: JwtParser, parseUuid: UuidParser)
    ensures Authenticate(header, secret, parse, parseUuid).Allow? <==>
      && header != ""
      && WellFormedBearer(header)
      && TokenAccepted(parse(Split(header)[1], secret))
      && StringClaimAt(parse(Split(header)[1], secret).value.claims.entries, "sub")
      && parseUuid(parse(Split(header)[1], secret).value.claims.entries["sub"].text).Some?
      && StringClaimAt(parse(Split(header)[1], secret).value.claims.entries, "role")
    ensures Authenticate(header, secret, parse, parseUuid).Allow? ==>
      var entries := parse(Split(header)[1], secret).value.claims.entries;
      Authenticate(header, secret, parse, parseUuid) ==
        Allow(parseUuid(entries["sub"].text).value, entries["role"].text)
  {
  }

  /** For a header the client built from a token without spaces, the server
      hands exactly that token to `jwt.Parse` and decides on it alone. */
  lemma ClientTokenReachesParser(t: string, secret: string, parse: JwtParser, parseUuid: UuidParser)
    requires t != "" && ' ' !in t
    ensures Authenticate("Bearer " + t, secret, parse, parseUuid) ==
      if !TokenAccepted(parse(t, secret)) then Deny(TokenInvalid)
      else ClaimDecision(parse(t, secret).value.claims.entries, parseUuid)
  {
    BearerFormatIff(t);
  }

  /** The error body: `RequestID` is filled in only when the request has one. */
  datatype ErrorResponse = ErrorResponse(message: string, code: string, requestId: Option<string>)

  function ErrorBody(f: Failure, requestId: string): (r: ErrorResponse) {
    ErrorResponse(f.message, f.code, if requestId != "" then Some(requestId) else None)
  }

  datatype ContextValue = UserIdValue(id: Uuid) | RoleValue(role: string)

  /** The part of a Gin context the middleware touches. */
  class GinContext {
    const authorization: string  // `c.GetHeader("Authorization")`, "" when absent
    const requestId: string      // `GetRequestID(c)`, "" when absent
    var aborted: Option<(int, ErrorResponse)>
    var keys: map<string, ContextValue>
    var nextCalls: nat

    constructor (authorization: string, requestId: string)
      ensures this.authorization == authorization && this.requestId == requestId
      ensures aborted == None && keys == map[] && nextCalls == 0
    {
      this.authorization := authorization;
      this.requestId := requestId;
      aborted := None;
      keys := map[];
      nextCalls := 0;
    }
  }

  /** The handler `AuthMiddleware(secret)` returns, run on one request. */
  method AuthMiddleware(c: GinContext, secret: string, parse: JwtParser, parseUuid: UuidParser)
    modifies c
    ensures var d := Authenticate(c.authorization, secret, parse, parseUuid);
      match d
      case Allow(id, role) =>
        && c.keys == old(c.keys)[ContextUserIDKey := UserIdValue(id)][ContextUserRoleKey := RoleValue(role)]
        && c.nextCalls == old(c.nextCalls) + 1
        && c.aborted == old(c.aborted)
      case Deny(f) =>
        && c.aborted == Some((StatusUnauthorized, ErrorBody(f, c.requestId)))
        && c.keys == old(c.keys)
        && c.nextCalls == old(c.nextCalls)
  {
    var authHeader := c.authorization;
    if authHeader == "" {
      c.aborted := Some((StatusUnauthorized, ErrorBody(HeaderMissing, c.requestId)));
      return;
    }
    var parts := Split(authHeader);
    if |parts| != 2 || parts[0] != "Bearer" {
      c.aborted := Some((StatusUnauthorized, ErrorBody(HeaderInvalidFormat, c.requestId)));
      return;
    }
    var parsed := parse(parts[1], secret);
    if parsed.None? || parsed.value.signing != Hmac {
      c.aborted := Some((StatusUnauthorized, ErrorBody(TokenInvalid, c.requestId)));
      return;
    }
    if parsed.value.claims.MapClaims? && parsed.value.valid {
      var claims := parsed.value.claims.entries;
      if !StringClaimAt(claims, "sub") {
        c.aborted := Some((StatusUnauthorized, ErrorBody(ClaimInvalidSub, c.requestId)));
        return;
      }
      var userId := parseUuid(claims["sub"].text);
      if userId.None? {
        c.aborted := Some((StatusUnauthorized, ErrorBody(ClaimInvalidSubFormat, c.requestId)));
        return;
      }
      if !StringClaimAt(claims, "role") {
        c.aborted := Some((StatusUnauthorized, ErrorBody(ClaimInvalidRole, c.requestId)));
        return;
      }
      c.keys := c.keys[ContextUserIDKey := UserIdValue(userId.value)];
      c.keys := c.keys[ContextUserRoleKey := RoleValue(claims["role"].text)];
      c.nextCalls := c.nextCalls + 1;
    } else {
      c.aborted := Some((StatusUnauthorized, ErrorBody(TokenInvalid, c.requestId)));
    }
  }
}
