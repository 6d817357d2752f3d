/**
 * The session record handed out by the authentication backend, and the rule
 * that decides when its access token must no longer be used.
 * Time is a whole number of seconds; the caller passes the current time.
 */
module Models {
  import opened Wrappers

  /** The values of a C# `int`. */
  type Int32 = x: int | -0x8000_0000 <= x < 0x8000_0000

  /** Seconds of a token's declared lifetime that are never used. */
  const SafetyMarginSeconds: int := 30

  /** The signed-in user: a stable id and, possibly, an email address. */
  datatype User = User(id: string, email: Option<string>)

  /**
   * One session. `issuedAt` is stamped by the client when it accepts the
   * session; `expiresIn` is the lifetime the backend declared, in seconds.
   */
  datatype Session = Session(
    accessToken: string,
    refreshToken: string,
    expiresIn: Int32,
    tokenType: string,
    user: User,
    issuedAt: int)

  /** A user as the deserializer creates it before reading any field. */
  function NewUser(): (u: User)
    ensures u.id == "" && u.email == None
  {
    User("", None)
  }

  /** A session as the deserializer creates it at time `now`, before reading any field. */
  function NewSession(now: int): (s: Session)
    ensures s.accessToken == "" && s.refreshToken == ""
    ensures s.expiresIn == 0 && s.tokenType == "bearer"
    ensures s.user == NewUser() && s.issuedAt == now
  {
    Session("", "", 0, "bearer", NewUser(), now)
  }

  /** The part of the declared lifetime during which the token is used. */
  function UsableLifetime(s: Session): (r: nat)
    ensures s.expiresIn >= SafetyMarginSeconds ==> r == s.expiresIn - SafetyMarginSeconds
    ensures s.expiresIn <= SafetyMarginSeconds ==> r == 0
  {
    if s.expiresIn - SafetyMarginSeconds > 0 then s.expiresIn - SafetyMarginSeconds else 0
  }

  /**
   * The session's token must be renewed: `now` is past the end of its usable
   * lifetime. Equivalently, `now` is after the issue time and more than
   * `expiresIn - 30` seconds after it.
   */
  predicate IsExpired(s: Session, now: int)
    ensures IsExpired(s, now) <==> now > s.issuedAt && now - s.issuedAt > s.expiresIn - SafetyMarginSeconds
  {
    now > s.issuedAt + UsableLifetime(s)
  }

  /** With a lifetime of at least the margin, the comparison is strict. */
  lemma ExpiryBoundary(s: Session)
    requires s.expiresIn >= SafetyMarginSeconds
    ensures !IsExpired(s, s.issuedAt + s.expiresIn - 30)
    ensures IsExpired(s, s.issuedAt + s.expiresIn - 29)
  {
  }

  /** A lifetime not above the margin (negative ones included) expires right after issue. */
  lemma ExpiryClamped(s: Session, now: int)
    requires s.expiresIn <= SafetyMarginSeconds
    ensures IsExpired(s, now) <==> now > s.issuedAt
  {
  }

  /** Once expired, a session stays expired. */
  lemma ExpiryMonotone(s: Session, t: int, t': int)
    requires IsExpired(s, t) && t <= t'
    ensures IsExpired(s, t')
  {
  }

  /** Stamping a later issue time never makes a fresh session expired. */
  lemma RestampKeepsFresh(s: Session, now: int, later: int)
    requires later >= s.issuedAt && !IsExpired(s, now)
    ensures !IsExpired(s.(issuedAt := later), now)
  {
  }

  /** An expired session was issued strictly before the time it is judged at. */
  lemma ExpiredAfterIssue(s: Session, now: int)
    requires IsExpired(s, now)
    ensures now > s.issuedAt
  {
  }

  /** A session is never expired at the moment it is stamped. */
  lemma FreshWhenStamped(s: Session, now: int)
    ensures !IsExpired(s.(issuedAt := now), now)
  {
  }

  // ---- The expiry rule as written, with C#'s unchecked 32-bit subtraction ----

  /** Unchecked `int` arithmetic: the value congruent to `x` modulo 2^32 in the `int` range. */
  function Wrap32(x: int): (r: Int32)
    ensures (r - x) % 0x1_0000_0000 == 0
    ensures -0x8000_0000 <= x < 0x8000_0000 ==> r == x
  {
    (x + 0x8000_0000) % 0x1_0000_0000 - 0x8000_0000
  }

  /** `IsExpired` as the source computes it: `ExpiresIn - 30` is an `int` subtraction that can wrap. */
  predicate IsExpiredAsWritten(s: Session, now: int)
    ensures IsExpiredAsWritten(s, now) ==> now > s.issuedAt
  {
    var margin := Wrap32(s.expiresIn - SafetyMarginSeconds);
    now > s.issuedAt + (if margin > 0 then margin else 0)
  }

  /** Away from the bottom of the `int` range the two rules agree. */
  lemma AsWrittenAgrees(s: Session, now: int)
    requires s.expiresIn >= -0x8000_0000 + SafetyMarginSeconds
    ensures IsExpiredAsWritten(s, now) <==> IsExpired(s, now)
  {
  }

  /**
   * With `expiresIn` equal to the smallest `int`, the wrapped margin is
   * 2147483618 seconds: the session reads as valid for about 68 years,
   * where the clamp was meant to make it expire at once.
   */
  lemma AsWrittenMinLifetimeNeverExpires()
    ensures var s := NewSession(0).(accessToken := "t", expiresIn := -0x8000_0000);
            IsExpired(s, 1) && !IsExpiredAsWritten(s, 1) && !IsExpiredAsWritten(s, 2_000_000_000)
  {
  }
}
