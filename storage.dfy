/** The persistent key-value store behind `@/lib/storage`: three nullable
    entries that survive a page reload. Only the get/set contract is modelled. */
module Storage {
  import opened Common
  import opened Types
  import opened Effects

  class PersistentStore {
    var accessToken: Option<string>
    var refreshToken: Option<string>
    var user: Option<UserProfile>
    const journal: Journal

    /** The store as found when the page loads (`EmptyStored` on a cold start). */
    constructor (found: Stored, journal: Journal)
      ensures Contents() == found && this.journal == journal
    {
      accessToken, refreshToken, user := found.accessToken, found.refreshToken, found.user;
      this.journal := journal;
    }

    function Contents(): (r: Stored)
      reads this
    {
      Stored(accessToken, refreshToken, user)
    }

    function GetAccessToken(): (t: Option<string>)
      reads this
    {
      accessToken
    }

    function GetRefreshToken(): (t: Option<string>)
      reads this
    {
      refreshToken
    }

    function GetUser(): (u: Option<UserProfile>)
      reads this
    {
      user
    }

    method SetAccessToken(t: Option<string>)
      modifies this, journal
      ensures Contents() == old(Contents()).(accessToken := t)
      ensures GetAccessToken() == t
      ensures journal.events == old(journal.events) + [StoredAccessToken(t)]
    {
      accessToken := t;
      journal.events := journal.events + [StoredAccessToken(t)];
    }

    method SetRefreshToken(t: Option<string>)
      modifies this, journal
      ensures Contents() == old(Contents()).(refreshToken := t)
      ensures GetRefreshToken() == t
      ensures journal.events == old(journal.events) + [StoredRefreshToken(t)]
    {
      refreshToken := t;
      journal.events := journal.events + [StoredRefreshToken(t)];
    }

    method SetUser(u: Option<UserProfile>)
      modifies this, journal
      ensures Contents() == old(Contents()).(user := u)
      ensures GetUser() == u
      ensures journal.events == old(journal.events) + [StoredUser(u)]
    {
      user := u;
      journal.events := journal.events + [StoredUser(u)];
    }
  }
}
