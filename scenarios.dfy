/** Call sequences on the service whose outcomes the contracts fix. */
module Scenarios {
  import opened Wrappers
  import opened Text
  import opened Models
  import opened AuthState
  import opened Auth

  /** The backend's answer to a password sign-in for user `u1`. */
  function SignedInUser(): Session {
    NewSession(0).(accessToken := "tok1", refreshToken := "r1", expiresIn := 3600,
                   user := User("u1", Some("a@b.com")))
  }

  /**
   * Signing in on an empty slot with a usable answer makes the identity
   * authenticated as that user and fires exactly that notification.
   */
  method SignInScenario(now: int) returns (id: Identity, notified: seq<Identity>)
    ensures id == Authenticated("u1", "a@b.com")
    ensures notified == [id]
  {
    var store := new AuthStateProvider(None);
    var service := new AuthService(Config("https://example.supabase.co", "anon"), store);
    var res := Response(true, "", Some(SignedInUser()));
    assert !IsWhiteSpace("tok1"[0]);
    var ok, error := service.SignIn("a@b.com", "pw", res, now);
    id := store.GetAuthenticationState();
    notified := store.notifications;
  }

  /**
   * A session issued at 0 with a one-hour lifetime is left alone at 3570,
   * with no request sent, and refreshed at 3571 with one request; the answer
   * arrives at 3572 and is stamped with that time.
   */
  method RefreshScenario() returns (notifiedAtFresh: bool, issuedAfter: int, notified: nat,
                                    ghost sentAtFresh: nat, ghost sentAfter: nat)
    ensures !notifiedAtFresh && sentAtFresh == 0
    ensures issuedAfter == 3572 && notified == 1 && sentAfter == 1
  {
    var issued := SignedInUser();
    var store := new AuthStateProvider(Some(issued));
    var service := new AuthService(Config("https://example.supabase.co", "anon"), store);
    var res := Response(true, "", Some(SignedInUser()));
    assert !IsWhiteSpace("tok1"[0]);
    var before := |store.notifications|;
    service.EnsureFreshToken(res, 3570, 3570);
    notifiedAtFresh := |store.notifications| != before;
    sentAtFresh := |service.requests|;
    service.EnsureFreshToken(res, 3571, 3572);
    sentAfter := |service.requests|;
    var s := store.GetSession();
    issuedAfter := if s.Some? then s.value.issuedAt else 0;
    notified := |store.notifications|;
  }

  /** Clearing an empty slot and clearing again both leave it anonymous. */
  method ClearTwiceScenario() returns (first: Identity, second: Identity, notified: seq<Identity>)
    ensures first == Anonymous && second == Anonymous
    ensures notified == [Anonymous, Anonymous]
  {
    var store := new AuthStateProvider(None);
    store.ClearSession();
    first := store.GetAuthenticationState();
    store.ClearSession();
    second := store.GetAuthenticationState();
    notified := store.notifications;
  }

  /**
   * An authorization header already present under another letter case is
   * replaced, not kept beside the bearer header.
   */
  lemma StaleAuthorizationReplaced()
    ensures var r := Decorated([Header("authorization", "Basic old")], "k", "tok");
            Header("authorization", "Basic old") !in r && Header("Authorization", "Bearer tok") in r
  {
    assert AsciiLower('A') == 'a';
    assert EqualsIgnoreCase("authorization", "Authorization");
    assert BearerValue("tok") == "Bearer tok";
  }
}
