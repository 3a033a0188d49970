/** The account rules of the auth service: registration with a unique email, password login,
    finding, creating or linking a Google account, issuing tokens (which stores the refresh token
    on the user) and refreshing an access token against that stored token.

    bcrypt and JWT signing are uninterpreted functions collected in `Crypto`; a signature depends
    on the payload and on the issuing time, which the caller's clock supplies. */
module AuthService {
  import opened Wrappers
  import opened Store

  datatype AuthError = EmailInUse | InvalidCredentials | InvalidRefreshToken

  /** The claims signed into both tokens. */
  datatype Payload = Payload(sub: Id, email: string, role: Role)

  datatype Tokens = Tokens(accessToken: string, refreshToken: string)

  /** bcrypt's hash and compare, and the signers of the access and the refresh token. */
  datatype Crypto = Crypto(
    hash: string -> string,
    compare: (string, string) -> bool,
    signAccess: (Payload, Timestamp) -> string,
    signRefresh: (Payload, Timestamp) -> string)

  /** The unique index on `email`: no two users, deleted or not, share an email. */
  predicate EmailsUnique(users: map<Id, User>)
  {
    forall a, b :: a in users && b in users && users[a].email == users[b].email ==> a == b
  }

  predicate EmailTaken(users: map<Id, User>, email: string)
  {
    exists id :: id in users && users[id].email == email
  }

  /** The user `login` looks up: not soft-deleted, with that email. */
  predicate LiveWithEmail(users: map<Id, User>, id: Id, email: string)
  {
    id in users && users[id].email == email && users[id].deletedAt.None?
  }

  function PayloadOf(id: Id, u: User): (p: Payload)
    ensures p.sub == id && p.email == u.email && p.role == u.role
  {
    Payload(id, u.email, u.role)
  }

  /** The tokens issued for user `id` at time `now`. */
  function TokensFor(crypto: Crypto, id: Id, u: User, now: Timestamp): Tokens
  {
    Tokens(crypto.signAccess(PayloadOf(id, u), now), crypto.signRefresh(PayloadOf(id, u), now))
  }

  /** generateTokens: both tokens are signed over the user's id, email and role, and the refresh
      token replaces whatever refresh token the user had; nothing else changes. */
  method GenerateTokens(db: Database, crypto: Crypto, id: Id, now: Timestamp) returns (t: Tokens)
    requires id in db.users
    modifies db`users
    ensures t == TokensFor(crypto, id, old(db.users)[id], now)
    ensures db.users == old(db.users)[id := old(db.users)[id].(refreshToken := Some(t.refreshToken))]
  {
    t := TokensFor(crypto, id, db.users[id], now);
    db.users := db.users[id := db.users[id].(refreshToken := Some(t.refreshToken))];
  }

  /** The row register creates: the hashed password and the default CUSTOMER role. */
  function NewLocalUser(crypto: Crypto, name: string, email: string, password: string): (u: User)
    ensures u.name == name && u.email == email && u.password == Some(crypto.hash(password))
    ensures u.avatar.None?
    ensures u.googleId.None? && u.refreshToken.None? && u.deletedAt.None? && u.role == CUSTOMER
  {
    User(name, email, Some(crypto.hash(password)), None, None, CUSTOMER, None, None)
  }

  /** register: an email held by any user, soft-deleted ones included, is a conflict and nothing is
      written; otherwise exactly one user is added and receives its tokens. */
  method Register(db: Database, crypto: Crypto, name: string, email: string, password: string,
                  newUserId: Id, now: Timestamp) returns (r: Result<Tokens, AuthError>)
    requires newUserId !in db.users
    modifies db`users
    ensures EmailTaken(old(db.users), email) ==> r == Failure(EmailInUse) && db.users == old(db.users)
    ensures !EmailTaken(old(db.users), email) ==>
              var u := NewLocalUser(crypto, name, email, password);
              var t := TokensFor(crypto, newUserId, u, now);
              && r == Success(t)
              && db.users == old(db.users)[newUserId := u.(refreshToken := Some(t.refreshToken))]
    ensures EmailsUnique(old(db.users)) ==> EmailsUnique(db.users)
  {
    if exists id :: id in db.users && db.users[id].email == email {
      return Failure(EmailInUse);
    }
    db.users := db.users[newUserId := NewLocalUser(crypto, name, email, password)];
    var t := GenerateTokens(db, crypto, newUserId, now);
    r := Success(t);
  }

  /** login: rejected, with nothing written, when there is no live user with that email, when the
      user has no password (a Google-only account), or when the password does not match;
      otherwise that user receives new tokens. */
  method Login(db: Database, crypto: Crypto, email: string, password: string, now: Timestamp)
    returns (r: Result<Tokens, AuthError>)
    requires EmailsUnique(db.users)
    modifies db`users
    ensures (forall id :: !LiveWithEmail(old(db.users), id, email)) ==>
              r == Failure(InvalidCredentials) && db.users == old(db.users)
    ensures forall id :: LiveWithEmail(old(db.users), id, email) ==>
              var u := old(db.users)[id];
              if u.password.None? || !crypto.compare(password, u.password.value) then
                r == Failure(InvalidCredentials) && db.users == old(db.users)
              else
                && r == Success(TokensFor(crypto, id, u, now))
                && db.users == old(db.users)[id := u.(refreshToken := Some(r.value.refreshToken))]
  {
    if !exists id :: id in db.users && LiveWithEmail(db.users, id, email) {
      return Failure(InvalidCredentials);
    }
    var id :| id in db.users && LiveWithEmail(db.users, id, email);
    var u := db.users[id];
    if u.password.None? {
      return Failure(InvalidCredentials);
    }
    if !crypto.compare(password, u.password.value) {
      return Failure(InvalidCredentials);
    }
    var t := GenerateTokens(db, crypto, id, now);
    r := Success(t);
  }

  /** The Google profile fields the service reads. */
  datatype GoogleProfile = GoogleProfile(googleId: string, email: string, name: string, avatar: Option<string>)

  /** A user the `OR` lookup may return: same Google id, or same email, deleted or not. */
  predicate MatchesProfile(users: map<Id, User>, id: Id, profile: GoogleProfile)
  {
    id in users && (users[id].googleId == Some(profile.googleId) || users[id].email == profile.email)
  }

  /** The row created for a new Google account: no password, the profile's avatar. */
  function NewGoogleUser(profile: GoogleProfile): (u: User)
    ensures u.name == profile.name && u.email == profile.email
    ensures u.googleId == Some(profile.googleId) && u.avatar == profile.avatar
    ensures u.password.None? && u.refreshToken.None? && u.deletedAt.None? && u.role == CUSTOMER
  {
    User(profile.name, profile.email, None, Some(profile.googleId), profile.avatar, CUSTOMER, None, None)
  }

  /** A matched user without a Google id gets the profile's Google id and, when the profile has
      one, its avatar; a matched user that already has a Google id is left as it is. */
  function Linked(u: User, profile: GoogleProfile): (r: User)
    ensures u.googleId.Some? ==> r == u
    ensures u.googleId.None? ==>
              && r.googleId == Some(profile.googleId)
              && r.avatar == (if profile.avatar.Some? then profile.avatar else u.avatar)
              && r.(googleId := u.googleId, avatar := u.avatar) == u
  {
    if u.googleId.Some? then u
    else u.(googleId := Some(profile.googleId), avatar := if profile.avatar.Some? then profile.avatar else u.avatar)
  }

  /** findOrCreateGoogleUser. The lookup has no ordering, so when several users match, any one of
      them may be the one found; without a match a new user is created. */
  method FindOrCreateGoogleUser(db: Database, profile: GoogleProfile, newUserId: Id) returns (id: Id, user: User)
    requires newUserId !in db.users
    modifies db`users
    ensures (forall x :: !MatchesProfile(old(db.users), x, profile)) ==>
              && id == newUserId && user == NewGoogleUser(profile)
              && db.users == old(db.users)[newUserId := user]
    ensures (exists x :: MatchesProfile(old(db.users), x, profile)) ==>
              && MatchesProfile(old(db.users), id, profile)
              && user == Linked(old(db.users)[id], profile)
              && db.users == old(db.users)[id := user]
    ensures id in db.users && db.users[id] == user
    ensures EmailsUnique(old(db.users)) ==> EmailsUnique(db.users)
  {
    if !exists x :: x in db.users && MatchesProfile(db.users, x, profile) {
      id, user := newUserId, NewGoogleUser(profile);
      db.users := db.users[id := user];
      return;
    }
    id :| id in db.users && MatchesProfile(db.users, id, profile);
    user := Linked(db.users[id], profile);
    db.users := db.users[id := user];
  }

  /** googleLogin: tokens for the user the Google strategy found or created. */
  method GoogleLogin(db: Database, crypto: Crypto, id: Id, now: Timestamp) returns (t: Tokens)
    requires id in db.users
    modifies db`users
    ensures t == TokensFor(crypto, id, old(db.users)[id], now)
    ensures db.users == old(db.users)[id := old(db.users)[id].(refreshToken := Some(t.refreshToken))]
  {
    t := GenerateTokens(db, crypto, id, now);
  }

  /** Whether the lookup of refresh finds the live user `id` holding `token`. The request body is
      not validated, so the token may be absent; the query then carries no refresh-token filter
      and any live user with that id is found. */
  predicate RefreshAccepted(users: map<Id, User>, id: Id, token: Option<string>)
  {
    id in users && users[id].deletedAt.None? && (token.None? || users[id].refreshToken == token)
  }

  /** refresh: succeeds exactly for a live user whose stored refresh token is the given one (or
      for any live user when no token is sent), and then returns an access token signed over that
      user's claims; it writes nothing. */
  method Refresh(db: Database, crypto: Crypto, id: Id, token: Option<string>, now: Timestamp)
    returns (r: Result<string, AuthError>)
    ensures token.Some? ==>
              (r.Success? <==> id in db.users && db.users[id].deletedAt.None? && db.users[id].refreshToken == token)
    ensures token.None? ==> (r.Success? <==> id in db.users && db.users[id].deletedAt.None?)
    ensures r.Failure? ==> r.error == InvalidRefreshToken
    ensures r.Success? ==> r.value == crypto.signAccess(PayloadOf(id, db.users[id]), now)
  {
    if !RefreshAccepted(db.users, id, token) {
      return Failure(InvalidRefreshToken);
    }
    r := Success(crypto.signAccess(PayloadOf(id, db.users[id]), now));
  }

  /** Issuing tokens again revokes the earlier refresh token (when the two differ), while the new
      one is accepted as long as the user is live. */
  method ReissueRevokesEarlierToken(db: Database, crypto: Crypto, id: Id, t1: Timestamp, t2: Timestamp, now: Timestamp)
    returns (first: Tokens, second: Tokens, withFirst: Result<string, AuthError>, withSecond: Result<string, AuthError>)
    requires id in db.users
    modifies db`users
    ensures first.refreshToken != second.refreshToken ==> withFirst == Failure(InvalidRefreshToken)
    ensures old(db.users)[id].deletedAt.None? <==> withSecond.Success?
  {
    first := GenerateTokens(db, crypto, id, t1);
    second := GenerateTokens(db, crypto, id, t2);
    withFirst := Refresh(db, crypto, id, Some(first.refreshToken), now);
    withSecond := Refresh(db, crypto, id, Some(second.refreshToken), now);
  }

  /** A refresh request without a token is accepted for any live user, whether or not a refresh
      token was ever issued to them or they have been issued a newer one. */
  method MissingTokenAccepted(db: Database, crypto: Crypto, id: Id, now: Timestamp) returns (r: Result<string, AuthError>)
    requires id in db.users && db.users[id].deletedAt.None?
    ensures r == Success(crypto.signAccess(PayloadOf(id, db.users[id]), now))
  {
    r := Refresh(db, crypto, id, None, now);
  }
}
