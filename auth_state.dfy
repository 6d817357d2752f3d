/**
 * The authentication-state provider: one persisted session slot, the
 * identity it projects, and the change notifications observers receive.
 */
module AuthState {
  import opened Wrappers
  import opened Text
  import opened Models

  /** The key of the one local-storage slot; the storage itself is not modelled. */
  const StorageKey: string := "pp_session"

  /** What observers see: nobody, or a user with an id and an email ("" when absent). */
  datatype Identity = Anonymous | Authenticated(userId: string, email: string)

  /**
   * The identity projected from the slot: anonymous when it is empty or its
   * access token is blank, otherwise the stored user's id and email.
   */
  function IdentityOf(stored: Option<Session>): (id: Identity)
    ensures id == Anonymous <==> stored == None || IsNullOrWhiteSpace(stored.value.accessToken)
    ensures id.Authenticated? ==>
              stored.Some? && id.userId == stored.value.user.id &&
              id.email == stored.value.user.email.GetOr("")
  {
    match stored
    case None => Anonymous
    case Some(s) =>
      if IsNullOrWhiteSpace(s.accessToken) then Anonymous
      else Authenticated(s.user.id, s.user.email.GetOr(""))
  }

  /** A session with an absent email authenticates with the empty email. */
  lemma AbsentEmailIsEmpty(s: Session)
    requires !IsNullOrWhiteSpace(s.accessToken) && s.user.email == None
    ensures IdentityOf(Some(s)) == Authenticated(s.user.id, "")
  {
  }

  class AuthStateProvider {
    /** The persisted slot. */
    var stored: Option<Session>
    /** Every identity handed to observers, oldest first. */
    var notifications: seq<Identity>

    /** The latest notification, if any, shows the identity of the current slot. */
    ghost predicate NotifiedCurrent()
      reads this
    {
      notifications == [] || notifications[|notifications| - 1] == IdentityOf(stored)
    }

    /** A provider over a slot that may already hold a persisted session. */
    constructor (persisted: Option<Session>)
      ensures stored == persisted && notifications == []
      ensures NotifiedCurrent()
    {
      stored := persisted;
      notifications := [];
    }

    /** `GetAuthenticationStateAsync`: the identity of the current slot. */
    method GetAuthenticationState() returns (id: Identity)
      ensures id == IdentityOf(stored)
      ensures id.Authenticated? ==> stored.Some? && !IsNullOrWhiteSpace(stored.value.accessToken)
    {
      id := IdentityOf(stored);
    }

    /** `SetSessionAsync`: overwrite the slot, unvalidated, and notify once. */
    method SetSession(s: Session)
      modifies this
      ensures stored == Some(s)
      ensures notifications == old(notifications) + [IdentityOf(Some(s))]
      ensures NotifiedCurrent()
    {
      stored := Some(s);
      var id := GetAuthenticationState();
      notifications := notifications + [id];
    }

    /** `ClearSessionAsync`: empty the slot, whatever it held, and notify anonymous once. */
    method ClearSession()
      modifies this
      ensures stored == None
      ensures notifications == old(notifications) + [Anonymous]
      ensures NotifiedCurrent()
    {
      stored := None;
      var id := GetAuthenticationState();
      notifications := notifications + [id];
    }

    /** `GetSessionAsync`: the raw slot. */
    method GetSession() returns (s: Option<Session>)
      ensures s == stored
    {
      s := stored;
    }
  }
}
