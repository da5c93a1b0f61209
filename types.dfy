/** The shapes the session subsystem exchanges with the authentication service
    and keeps in memory. */
module Types {
  import opened Common

  /** A user profile; `role` is whatever text the server sent ("admin",
      "moderator", "user", or anything else). */
  datatype UserProfile = UserProfile(id: string, username: string, role: string)

  /** The authentication service's answer to a login or a registration.
      `token_type` and `expires_in` are carried but never read. */
  datatype AuthResponse = AuthResponse(
    access_token: string,
    refresh_token: string,
    user: UserProfile,
    token_type: string,
    expires_in: int)

  datatype Credentials = Credentials(username: string, password: string)

  /** The data part of the store's `AuthState`; times are whatever `Date.now()` gave. */
  datatype Session = Session(
    user: Option<UserProfile>,
    accessToken: Option<string>,
    refreshToken: Option<string>,
    isAuthenticated: bool,
    lastAuthChangeAt: Option<int>)

  /** The three persisted entries, read together. */
  datatype Stored = Stored(
    accessToken: Option<string>,
    refreshToken: Option<string>,
    user: Option<UserProfile>)

  const EmptyStored := Stored(None, None, None)
}

/** A process-wide, ghost record of every write to the persistent entries, the
    dispatcher's token slot and the store's fields, in the order they happen. */
module Effects {
  import opened Common
  import opened Types

  datatype Effect =
    | StoredAccessToken(access: Option<string>)
    | StoredRefreshToken(refresh: Option<string>)
    | StoredUser(user: Option<UserProfile>)
    | SlotSet(token: Option<string>)
    | StoreFieldsSet(session: Session)
    | ClearScheduled

  class Journal {
    ghost var events: seq<Effect>

    constructor ()
      ensures events == []
    {
      events := [];
    }
  }
}
