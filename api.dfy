/** The request dispatcher (`@/lib/api`): the module-level access-token slot,
    the request interceptor that attaches it, and the response interceptor that
    reacts to a 401. */
module Api {
  import opened Common
  import opened Types
  import opened Effects
  import opened Storage

  const AuthorizationHeader := "Authorization"

  function BearerHeader(token: string): (r: string) {
    "Bearer " + token
  }

  /** An axios request config; `headers` may not exist yet. */
  datatype RequestConfig = RequestConfig(url: string, headers: Option<map<string, string>>)

  /** `config.headers ?? {}` */
  function HeadersOf(config: RequestConfig): (r: map<string, string>) {
    if config.headers.Some? then config.headers.value else map[]
  }

  /** The request interceptor, for a given content of the token slot: a truthy
      token becomes an `Authorization: Bearer <token>` header and every other
      header is kept; otherwise the request goes out untouched. */
  function AttachToken(slot: Option<string>, config: RequestConfig): (r: RequestConfig)
    ensures r.url == config.url
    ensures !TruthyString(slot) ==> r == config
    ensures TruthyString(slot) ==>
      && r.headers.Some?
      && r.headers.value.Keys == HeadersOf(config).Keys + {AuthorizationHeader}
      && r.headers.value[AuthorizationHeader] == BearerHeader(slot.value)
      && (forall k :: k in HeadersOf(config) && k != AuthorizationHeader ==>
            r.headers.value[k] == HeadersOf(config)[k])
  {
    if TruthyString(slot) then
      config.(headers := Some(HeadersOf(config)[AuthorizationHeader := BearerHeader(slot.value)]))
    else
      config
  }

  /** The auth-page guard; `location` may not exist (outside a browser). */
  predicate OnAuthPage(pathname: Option<string>) {
    pathname.Some? && (StartsWith(pathname.value, "/login") || StartsWith(pathname.value, "/register"))
  }

  predicate Is401(reply: Outcome<Json>) {
    reply.Rejected? && reply.error.status == Some(401)
  }

  /** What the response interceptor does with a settled call. */
  datatype Handling =
    | Delivered        // success: returned unchanged
    | PassThrough      // a failure other than 401
    | AuthPageGuard    // 401 on /login or /register: surfaced as-is
    | GuestRejection   // 401 without a token: rejected, nothing written
    | SessionTeardown  // 401 with a token: storage and slot nulled, store clear scheduled

  /** The response interceptor's decision; `hasToken` is the slot's truthiness
      when the handler starts. */
  function Classify(reply: Outcome<Json>, pathname: Option<string>, hasToken: bool): (h: Handling)
    ensures h == Delivered <==> reply.Resolved?
    ensures h == PassThrough <==> reply.Rejected? && !Is401(reply)
    ensures h == AuthPageGuard <==> Is401(reply) && OnAuthPage(pathname)
    ensures h == GuestRejection <==> Is401(reply) && !OnAuthPage(pathname) && !hasToken
    ensures h == SessionTeardown <==> Is401(reply) && !OnAuthPage(pathname) && hasToken
  {
    if reply.Resolved? then Delivered
    else if !Is401(reply) then PassThrough
    else if OnAuthPage(pathname) then AuthPageGuard
    else if hasToken then SessionTeardown
    else GuestRejection
  }

  /** The process-wide state the dispatcher can write: the persisted entries,
      the token slot, and how many store clears are scheduled but not yet run. */
  datatype Cells = Cells(stored: Stored, slot: Option<string>, scheduledClears: nat)

  /** The state after the response interceptor has handled `reply`. */
  function AfterResponse(c: Cells, reply: Outcome<Json>, pathname: Option<string>): (r: Cells) {
    if Classify(reply, pathname, TruthyString(c.slot)) == SessionTeardown then
      Cells(EmptyStored, None, c.scheduledClears + 1)
    else
      c
  }

  /** The writes the response interceptor performs, in order. */
  function ResponseEffects(h: Handling): (r: seq<Effect>) {
    if h == SessionTeardown then
      [StoredAccessToken(None), StoredRefreshToken(None), StoredUser(None), SlotSet(None), ClearScheduled]
    else
      []
  }

  /** Only a 401 that revokes a present token, off the auth pages, changes anything. */
  lemma OnlyTeardownWrites(c: Cells, reply: Outcome<Json>, pathname: Option<string>)
    ensures AfterResponse(c, reply, pathname) != c ==>
      Is401(reply) && !OnAuthPage(pathname) && TruthyString(c.slot)
    ensures reply.Resolved? || !Is401(reply) || OnAuthPage(pathname) || !TruthyString(c.slot) ==>
      AfterResponse(c, reply, pathname) == c
  {
  }

  /** A teardown nulls the three entries and the slot and schedules exactly one clear. */
  lemma TeardownClearsEverything(c: Cells, reply: Outcome<Json>, pathname: Option<string>)
    requires Is401(reply) && !OnAuthPage(pathname) && TruthyString(c.slot)
    ensures AfterResponse(c, reply, pathname).stored == EmptyStored
    ensures AfterResponse(c, reply, pathname).slot == None
    ensures AfterResponse(c, reply, pathname).scheduledClears == c.scheduledClears + 1
  {
  }

  /** Once a teardown has emptied the slot, further 401s are guest rejections:
      one revoked session schedules one clear, however many calls fail. */
  lemma OneClearPerRevokedSession(c: Cells, r1: Outcome<Json>, p1: Option<string>, r2: Outcome<Json>, p2: Option<string>)
    requires AfterResponse(c, r1, p1) != c
    ensures Classify(r2, p2, TruthyString(AfterResponse(c, r1, p1).slot)) != SessionTeardown
    ensures AfterResponse(AfterResponse(c, r1, p1), r2, p2) == AfterResponse(c, r1, p1)
  {
  }

  class Dispatcher {
    var accessToken: Option<string>
    var scheduledClears: nat
    const storage: PersistentStore
    const journal: Journal

    ghost predicate Valid()
      reads this
    {
      storage.journal == journal
    }

    /** Module load: `let accessToken = null`. */
    constructor (storage: PersistentStore, journal: Journal)
      requires storage.journal == journal
      ensures Valid() && this.storage == storage && this.journal == journal
      ensures accessToken == None && scheduledClears == 0
    {
      this.storage := storage;
      this.journal := journal;
      accessToken := None;
      scheduledClears := 0;
    }

    function State(): (r: Cells)
      reads this, storage
    {
      Cells(storage.Contents(), accessToken, scheduledClears)
    }

    /** `setAccessToken`: overwrites the slot and nothing else. */
    method SetAccessToken(token: Option<string>)
      modifies this, journal
      ensures accessToken == token && scheduledClears == old(scheduledClears)
      ensures journal.events == old(journal.events) + [SlotSet(token)]
    {
      accessToken := token;
      journal.events := journal.events + [SlotSet(token)];
    }

    /** The request interceptor applied to an outgoing call. */
    function Intercept(config: RequestConfig): (r: RequestConfig)
      reads this
      ensures TruthyString(accessToken) ==>
        r.headers.Some? && AuthorizationHeader in r.headers.value && r.headers.value[AuthorizationHeader] == BearerHeader(accessToken.value)
      ensures !TruthyString(accessToken) ==> r == config
    {
      AttachToken(accessToken, config)
    }

    /** The response interceptor. Every call settles as it came in (a failure
        is rejected with its original error); a teardown writes storage and the
        slot synchronously and only schedules the store's `clearSession`. */
    method OnResponse(reply: Outcome<Json>, pathname: Option<string>) returns (r: Outcome<Json>, handling: Handling)
      requires Valid()
      modifies this, storage, journal
      ensures r == reply
      ensures handling == Classify(reply, pathname, TruthyString(old(accessToken)))
      ensures State() == AfterResponse(old(State()), reply, pathname)
      ensures journal.events == old(journal.events) + ResponseEffects(handling)
    {
      r := reply;
      if reply.Resolved? {
        return r, Delivered;
      }
      if !Is401(reply) {
        return r, PassThrough;
      }
      var hasToken := TruthyString(accessToken);
      if OnAuthPage(pathname) {
        return r, AuthPageGuard;
      }
      if hasToken {
        storage.SetAccessToken(None);
        storage.SetRefreshToken(None);
        storage.SetUser(None);
        SetAccessToken(None);
        scheduledClears := scheduledClears + 1;
        journal.events := journal.events + [ClearScheduled];
        return r, SessionTeardown;
      }
      return r, GuestRejection;
    }
  }
}
