/**
 * Model of internals/models/user.py: the user record built from a database row, whose
 * integer access level is turned into the three role flags `banned`, `moderator` and `admin`.
 */
module Users {

  /** `createdAt` is only stored, never inspected, so its representation is left abstract. */
  type DateTime = int

  /** The fields a `User` object holds once its constructor has run; the access level is not one of them. */
  datatype User = User(
    id: int,
    email: string,
    password: string,
    username: string,
    banned: bool,
    moderator: bool,
    admin: bool,
    otp: string,
    lastOtp: int,
    createdAt: DateTime)

  /** `User(id, email, password, username, accessLevel, otp, lastOtp, createdAt)`. */
  function NewUser(
    id: int, email: string, password: string, username: string, accessLevel: int,
    otp: string, lastOtp: int, createdAt: DateTime): (u: User)
    ensures u.banned <==> accessLevel == -1
    ensures u.moderator <==> accessLevel == 1
    ensures u.admin <==> accessLevel == 2
    ensures u.id == id && u.email == email && u.password == password && u.username == username
    ensures u.otp == otp && u.lastOtp == lastOtp && u.createdAt == createdAt
  {
    User(id, email, password, username, accessLevel == -1, accessLevel == 1, accessLevel == 2, otp, lastOtp, createdAt)
  }

  /** At most one of the three role flags is set. */
  predicate RolesExclusive(u: User)
  {
    && !(u.banned && u.moderator)
    && !(u.banned && u.admin)
    && !(u.moderator && u.admin)
  }

  /** Whatever the access level, a constructed user is never two roles at once. */
  lemma NewUserRolesExclusive(
    id: int, email: string, password: string, username: string, accessLevel: int,
    otp: string, lastOtp: int, createdAt: DateTime)
    ensures RolesExclusive(NewUser(id, email, password, username, accessLevel, otp, lastOtp, createdAt))
  {
  }

  /** An access level other than -1, 1 and 2 (0, for an ordinary user, among them) sets no role flag. */
  lemma NewUserOrdinary(
    id: int, email: string, password: string, username: string, accessLevel: int,
    otp: string, lastOtp: int, createdAt: DateTime)
    requires accessLevel != -1 && accessLevel != 1 && accessLevel != 2
    ensures var u := NewUser(id, email, password, username, accessLevel, otp, lastOtp, createdAt);
            !u.banned && !u.moderator && !u.admin
  {
  }

  /**
   * The access level itself is not kept: two levels with no role (say 0 and 7) build the same
   * user, and so do two equal levels only.
   */
  lemma NewUserForgetsOrdinaryLevel(
    id: int, email: string, password: string, username: string, a: int, b: int,
    otp: string, lastOtp: int, createdAt: DateTime)
    ensures NewUser(id, email, password, username, a, otp, lastOtp, createdAt)
            == NewUser(id, email, password, username, b, otp, lastOtp, createdAt)
            <==> a == b || (a !in {-1, 1, 2} && b !in {-1, 1, 2})
  {
  }

  /** The access level a user's flags stand for: -1, 1, 2, or 0 when no flag is set. */
  function AccessLevelOf(u: User): (level: int)
    requires RolesExclusive(u)
    ensures level in {-1, 0, 1, 2}
    ensures u.banned <==> level == -1
    ensures u.moderator <==> level == 1
    ensures u.admin <==> level == 2
  {
    if u.banned then -1 else if u.moderator then 1 else if u.admin then 2 else 0
  }

  /** Reading the level back from the flags and building the user again gives the same user. */
  lemma AccessLevelRoundTrip(u: User)
    requires RolesExclusive(u)
    ensures NewUser(u.id, u.email, u.password, u.username, AccessLevelOf(u), u.otp, u.lastOtp, u.createdAt) == u
  {
  }

  /** For the four documented levels, the flags give the level back. */
  lemma NewUserLevelRecovered(
    id: int, email: string, password: string, username: string, accessLevel: int,
    otp: string, lastOtp: int, createdAt: DateTime)
    requires accessLevel in {-1, 0, 1, 2}
    ensures AccessLevelOf(NewUser(id, email, password, username, accessLevel, otp, lastOtp, createdAt)) == accessLevel
  {
  }
}
