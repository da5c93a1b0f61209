/** The session store (`@/store/auth`): the in-memory session, seeded from
    the persistent entries when the module loads, written by `setSession` and
    `clearSession`, and reached by `login`, `register` and `logout`. */
module AuthStore {
  import opened Common
  import opened Types
  import opened Effects
  import opened Storage
  import opened Api

  /** Everything the session subsystem holds: the dispatcher's cells (persisted
      entries, token slot, scheduled clears) and the store's own fields. */
  datatype Client = Client(cells: Cells, session: Session)

  /** The persisted entries after `setSession(a)`. */
  function Persisted(a: AuthResponse): (r: Stored) {
    Stored(Some(a.access_token), Some(a.refresh_token), Some(a.user))
  }

  /** The store fields after `setSession(a)` at time `now`. */
  function SessionOf(a: AuthResponse, now: int): (r: Session) {
    Session(Some(a.user), Some(a.access_token), Some(a.refresh_token), true, Some(now))
  }

  /** The store fields after `clearSession()` at time `now`. */
  function ClearedSession(now: int): (r: Session) {
    Session(None, None, None, false, Some(now))
  }

  /** The store's initial state, read from the persisted entries: every field
      from its entry, `isAuthenticated` from the access token alone. */
  function Hydrate(found: Stored): (r: Session) {
    Session(found.user, found.accessToken, found.refreshToken, TruthyString(found.accessToken), None)
  }

  /** Module load as a whole: the dispatcher's slot starts null, the store is
      seeded, then the slot is primed from the same stored access token. */
  function Bootstrap(found: Stored): (r: Client) {
    Client(Cells(found, found.accessToken, 0), Hydrate(found))
  }

  function SetSessionSpec(c: Client, a: AuthResponse, now: int): (r: Client) {
    Client(Cells(Persisted(a), Some(a.access_token), c.cells.scheduledClears), SessionOf(a, now))
  }

  function ClearSessionSpec(c: Client, now: int): (r: Client) {
    Client(Cells(EmptyStored, None, c.cells.scheduledClears), ClearedSession(now))
  }

  /** `login` / `register`: `setSession` with the server's result once the call
      resolves; nothing when it rejects. */
  function SignInSpec(c: Client, reply: Outcome<AuthResponse>, now: int): (r: Client) {
    if reply.Resolved? then SetSessionSpec(c, reply.value, now) else c
  }

  /** The whole client after the dispatcher handled a settled call. */
  function ResponseSpec(c: Client, reply: Outcome<Json>, pathname: Option<string>): (r: Client) {
    c.(cells := AfterResponse(c.cells, reply, pathname))
  }

  /** One scheduled `clearSession` runs (the dynamic import has resolved). */
  function RunScheduledClearSpec(c: Client, now: int): (r: Client) {
    if c.cells.scheduledClears > 0 then
      var d := ClearSessionSpec(c, now);
      d.(cells := d.cells.(scheduledClears := c.cells.scheduledClears - 1))
    else
      c
  }

  function SetSessionEffects(a: AuthResponse, now: int): (r: seq<Effect>) {
    [ StoredAccessToken(Some(a.access_token)), StoredRefreshToken(Some(a.refresh_token)),
      StoredUser(Some(a.user)), SlotSet(Some(a.access_token)), StoreFieldsSet(SessionOf(a, now)) ]
  }

  function ClearSessionEffects(now: int): (r: seq<Effect>) {
    [ StoredAccessToken(None), StoredRefreshToken(None), StoredUser(None),
      SlotSet(None), StoreFieldsSet(ClearedSession(now)) ]
  }

  /** Persisted entries, slot and store fields all say the same thing. */
  predicate Synced(c: Client) {
    && c.cells.stored == Stored(c.session.accessToken, c.session.refreshToken, c.session.user)
    && c.cells.slot == c.session.accessToken
  }

  /** The three places agree, except while a scheduled clear has not run yet. */
  predicate Coherent(c: Client) {
    Synced(c) || c.cells.scheduledClears > 0
  }

  /** `setSession(a)` installs `a` everywhere and marks the store authenticated. */
  lemma SetSessionInstalls(c: Client, a: AuthResponse, now: int)
    ensures var d := SetSessionSpec(c, a, now);
      && d.session.accessToken == Some(a.access_token)
      && d.session.refreshToken == Some(a.refresh_token)
      && d.session.user == Some(a.user)
      && d.session.isAuthenticated
      && d.session.lastAuthChangeAt == Some(now)
      && d.cells.slot == Some(a.access_token)
      && d.cells.scheduledClears == c.cells.scheduledClears
      && Synced(d)
  {
  }

  /** `clearSession()` nulls the three entries, the slot and the store fields. */
  lemma ClearSessionEmpties(c: Client, now: int)
    ensures var d := ClearSessionSpec(c, now);
      && d.cells.stored == EmptyStored
      && d.cells.slot == None
      && d.session.user == None && d.session.accessToken == None && d.session.refreshToken == None
      && !d.session.isAuthenticated
      && d.session.lastAuthChangeAt == Some(now)
      && Synced(d)
  {
  }

  /** A second `clearSession()` changes nothing but the timestamp. */
  lemma ClearSessionIdempotent(c: Client, t1: int, t2: int)
    ensures var once := ClearSessionSpec(c, t1);
      ClearSessionSpec(once, t2) == once.(session := once.session.(lastAuthChangeAt := Some(t2)))
  {
  }

  /** Whatever session was installed, clearing it leaves storage and slot empty. */
  lemma SetThenClear(c: Client, a: AuthResponse, t1: int, t2: int)
    ensures var d := ClearSessionSpec(SetSessionSpec(c, a, t1), t2);
      d.cells.stored == EmptyStored && d.cells.slot == None && !d.session.isAuthenticated
  {
  }

  /** A reload right after `setSession(a)` recovers `a`'s user and tokens; it
      comes back authenticated exactly when `a`'s access token is not empty. */
  lemma ReloadAfterSetSession(c: Client, a: AuthResponse, now: int)
    ensures var reloaded := Bootstrap(SetSessionSpec(c, a, now).cells.stored);
      && reloaded.session.user == Some(a.user)
      && reloaded.session.accessToken == Some(a.access_token)
      && reloaded.session.refreshToken == Some(a.refresh_token)
      && reloaded.cells.slot == Some(a.access_token)
      && (reloaded.session.isAuthenticated <==> a.access_token != "")
      && reloaded.session.lastAuthChangeAt == None
  {
  }

  /** At load time `isAuthenticated` follows the stored access token alone: a
      stored token without a stored user gives an authenticated store with no user. */
  lemma BootstrapTrustsToken(found: Stored)
    ensures Bootstrap(found).session.isAuthenticated <==> TruthyString(found.accessToken)
    ensures found.accessToken == Some("t") && found.user == None ==>
      Bootstrap(found).session.isAuthenticated && Bootstrap(found).session.user == None
    ensures Synced(Bootstrap(found)) && Bootstrap(found).cells.scheduledClears == 0
  {
  }

  /** A failed login or registration changes nothing. */
  lemma SignInOnlyOnSuccess(c: Client, reply: Outcome<AuthResponse>, now: int)
    ensures reply.Rejected? ==> SignInSpec(c, reply, now) == c
    ensures reply.Resolved? ==> SignInSpec(c, reply, now).session.isAuthenticated
    ensures reply.Resolved? ==> SignInSpec(c, reply, now).cells.stored == Persisted(reply.value)
  {
  }

  /** Every step of the subsystem keeps `Coherent`. */
  lemma CoherenceKept(c: Client, a: AuthResponse, reply: Outcome<Json>, pathname: Option<string>, now: int)
    requires Coherent(c)
    ensures Coherent(SetSessionSpec(c, a, now))
    ensures Coherent(ClearSessionSpec(c, now))
    ensures Coherent(ResponseSpec(c, reply, pathname))
    ensures Coherent(RunScheduledClearSpec(c, now))
  {
  }

  /** A scheduled clear is not tied to the session that caused it: if a new
      login completes between a teardown and the scheduled clear, the clear
      wipes the new session too. The model allows this order; in a browser
      it is unlikely, since the import of an already loaded module settles
      within microtasks, before any network reply can arrive. */
  lemma ScheduledClearWipesLaterLogin(c: Client, reply: Outcome<Json>, pathname: Option<string>,
                                      a: AuthResponse, t1: int, t2: int)
    requires Is401(reply) && !OnAuthPage(pathname) && TruthyString(c.cells.slot)
    ensures var d := RunScheduledClearSpec(SetSessionSpec(ResponseSpec(c, reply, pathname), a, t1), t2);
      && !d.session.isAuthenticated
      && d.session.accessToken == None
      && d.cells.stored == EmptyStored
      && d.cells.slot == None
  {
  }

  /** Between a teardown and its scheduled clear, storage and slot are empty
      while the store still shows the old session. */
  lemma TeardownWindow(c: Client, reply: Outcome<Json>, pathname: Option<string>, now: int)
    requires Is401(reply) && !OnAuthPage(pathname) && TruthyString(c.cells.slot)
    ensures var d := ResponseSpec(c, reply, pathname);
      && d.session == c.session
      && d.cells.stored == EmptyStored && d.cells.slot == None
      && d.cells.scheduledClears > 0
    ensures var d := RunScheduledClearSpec(ResponseSpec(c, reply, pathname), now);
      && !d.session.isAuthenticated && d.session.lastAuthChangeAt == Some(now)
      && d.cells.scheduledClears == c.cells.scheduledClears
  {
  }

  class Store {
    var user: Option<UserProfile>
    var accessToken: Option<string>
    var refreshToken: Option<string>
    var isAuthenticated: bool
    var lastAuthChangeAt: Option<int>
    const storage: PersistentStore
    const api: Dispatcher
    const journal: Journal

    ghost predicate Valid()
      reads this
    {
      api.storage == storage && api.journal == journal && storage.journal == journal
    }

    function Snapshot(): (r: Session)
      reads this
    {
      Session(user, accessToken, refreshToken, isAuthenticated, lastAuthChangeAt)
    }

    function State(): (r: Client)
      reads this, api, storage
    {
      Client(Cells(storage.Contents(), api.accessToken, api.scheduledClears), Snapshot())
    }

    /** `create(...)`'s initial state: each field read from its persisted entry. */
    constructor (storage: PersistentStore, api: Dispatcher)
      requires api.storage == storage && api.journal == storage.journal
      ensures Valid() && this.storage == storage && this.api == api && journal == storage.journal
      ensures Snapshot() == Hydrate(storage.Contents())
    {
      this.storage := storage;
      this.api := api;
      journal := storage.journal;
      user := storage.GetUser();
      accessToken := storage.GetAccessToken();
      refreshToken := storage.GetRefreshToken();
      lastAuthChangeAt := None;
      isAuthenticated := TruthyString(storage.GetAccessToken());
    }

    /** Persisted entries (access, refresh, user), then the slot, then the fields. */
    method SetSession(a: AuthResponse, now: int)
      requires Valid()
      modifies this, storage, api, journal
      ensures Valid()
      ensures State() == SetSessionSpec(old(State()), a, now)
      ensures journal.events == old(journal.events) + SetSessionEffects(a, now)
    {
      storage.SetAccessToken(Some(a.access_token));
      storage.SetRefreshToken(Some(a.refresh_token));
      storage.SetUser(Some(a.user));
      api.SetAccessToken(Some(a.access_token));
      accessToken, refreshToken, user := Some(a.access_token), Some(a.refresh_token), Some(a.user);
      isAuthenticated, lastAuthChangeAt := true, Some(now);
      journal.events := journal.events + [StoreFieldsSet(Snapshot())];
    }

    method ClearSession(now: int)
      requires Valid()
      modifies this, storage, api, journal
      ensures Valid()
      ensures State() == ClearSessionSpec(old(State()), now)
      ensures journal.events == old(journal.events) + ClearSessionEffects(now)
    {
      storage.SetAccessToken(None);
      storage.SetRefreshToken(None);
      storage.SetUser(None);
      api.SetAccessToken(None);
      accessToken, refreshToken, user := None, None, None;
      isAuthenticated, lastAuthChangeAt := false, Some(now);
      journal.events := journal.events + [StoreFieldsSet(Snapshot())];
    }

    /** `login`: the authentication service is a parameter; its settled result
        decides whether `setSession` runs, and the caller sees the same outcome. */
    method Login(username: string, password: string, apiLogin: Credentials -> Outcome<AuthResponse>, now: int)
      returns (r: Outcome<()>)
      requires Valid()
      modifies this, storage, api, journal
      ensures Valid()
      ensures var reply := apiLogin(Credentials(username, password));
        && (r.Resolved? <==> reply.Resolved?)
        && (r.Rejected? ==> r.error == reply.error)
        && State() == SignInSpec(old(State()), reply, now)
        && journal.events == old(journal.events) + (if reply.Resolved? then SetSessionEffects(reply.value, now) else [])
    {
      var reply := apiLogin(Credentials(username, password));
      if reply.Rejected? {
        return Rejected(reply.error);
      }
      SetSession(reply.value, now);
      r := Resolved(());
    }

    /** `register`: the same shape as `login`, against the registration call. */
    method Register(username: string, password: string, apiRegister: Credentials -> Outcome<AuthResponse>, now: int)
      returns (r: Outcome<()>)
      requires Valid()
      modifies this, storage, api, journal
      ensures Valid()
      ensures var reply := apiRegister(Credentials(username, password));
        && (r.Resolved? <==> reply.Resolved?)
        && (r.Rejected? ==> r.error == reply.error)
        && State() == SignInSpec(old(State()), reply, now)
        && journal.events == old(journal.events) + (if reply.Resolved? then SetSessionEffects(reply.value, now) else [])
    {
      var reply := apiRegister(Credentials(username, password));
      if reply.Rejected? {
        return Rejected(reply.error);
      }
      SetSession(reply.value, now);
      r := Resolved(());
    }

    /** `logout` is `clearSession` and nothing else. */
    method Logout(now: int)
      requires Valid()
      modifies this, storage, api, journal
      ensures Valid()
      ensures State() == ClearSessionSpec(old(State()), now)
      ensures journal.events == old(journal.events) + ClearSessionEffects(now)
    {
      ClearSession(now);
    }

    /** The callback of the dynamic `import("@/store/auth")` scheduled by a
        teardown: it runs `clearSession` on the store. */
    method RunScheduledClear(now: int)
      requires Valid()
      modifies this, storage, api, journal
      ensures Valid()
      ensures State() == RunScheduledClearSpec(old(State()), now)
      ensures journal.events == old(journal.events) +
        (if old(api.scheduledClears) > 0 then ClearSessionEffects(now) else [])
    {
      if api.scheduledClears > 0 {
        var pending := api.scheduledClears;
        ClearSession(now);
        api.scheduledClears := pending - 1;
      }
    }
  }

  /** Loading `@/lib/api` and then `@/store/auth`: the slot starts null, the
      store is seeded from storage, and the last line primes the slot from the
      stored access token. */
  method LoadModules(storage: PersistentStore) returns (api: Dispatcher, store: Store)
    modifies storage.journal
    ensures fresh(api) && fresh(store)
    ensures store.Valid() && store.api == api && store.storage == storage && api.Valid()
    ensures store.State() == Bootstrap(old(storage.Contents()))
    ensures storage.journal.events == old(storage.journal.events) + [SlotSet(old(storage.accessToken))]
  {
    api := new Dispatcher(storage, storage.journal);
    store := new Store(storage, api);
    api.SetAccessToken(storage.GetAccessToken());
  }
}
