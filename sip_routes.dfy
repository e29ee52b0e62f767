/**
 * The account handlers of the SIP authentication service
 * (services/sip-auth/src/routes/auth.ts): register, login, current user and
 * password change over the user table, and SIP credential generation.
 * Password hashing (bcrypt) and token signing (JWT) are the parameters
 * `hash`, `compare` and `sign`.
 */
module SipRoutes {
  import opened Wrappers
  import opened Strings
  import opened SipUsers

  const EmailAndPasswordRequired: string := "Email and password are required"
  const UserAlreadyExists: string := "User already exists"
  const InvalidCredentials: string := "Invalid credentials"
  const UserNotFound: string := "User not found"
  const PasswordsRequired: string := "Current and new passwords are required"
  const CurrentPasswordIncorrect: string := "Current password is incorrect"
  const DefaultRole: string := "USER"

  /** The `n` consecutive characters starting at `first`. */
  function CharRange(first: char, n: nat): (r: string)
    requires first as int + n <= 0xD800
    ensures |r| == n
    ensures forall c :: c in r <==> first as int <= c as int < first as int + n
  {
    var r := seq(n, i requires 0 <= i < n => (first as int + i) as char);
    forall c | first as int <= c as int < first as int + n
      ensures c in r
    {
      assert r[c as int - first as int] == c;
    }
    r
  }

  /** `'ABCDEFGHIJKLMNOPQRSTUVWXYZabcdefghijklmnopqrstuvwxyz0123456789'`. */
  const SipAlphabet: string := CharRange('A', 26) + CharRange('a', 26) + CharRange('0', 10)
  const SipPasswordLength: nat := 16

  predicate IsAsciiAlphanumeric(c: char) {
    'A' <= c <= 'Z' || 'a' <= c <= 'z' || '0' <= c <= '9'
  }

  /** The password alphabet has 62 characters: exactly the ASCII letters and digits. */
  lemma SipAlphabetIsAlphanumeric()
    ensures |SipAlphabet| == 62
    ensures forall c :: c in SipAlphabet <==> IsAsciiAlphanumeric(c)
  {
  }

  predicate IsSipPassword(p: string) {
    |p| == SipPasswordLength && forall i :: 0 <= i < |p| ==> p[i] in SipAlphabet
  }

  /**
   * `generateSipPassword`: sixteen picks from the alphabet. The random index
   * `Math.floor(Math.random() * 62)` is a nondeterministic choice in [0, 62).
   */
  method GenerateSipPassword() returns (password: string)
    ensures IsSipPassword(password)
    ensures forall i :: 0 <= i < |password| ==> IsAsciiAlphanumeric(password[i])
  {
    SipAlphabetIsAlphanumeric();
    password := "";
    for i := 0 to SipPasswordLength
      invariant |password| == i
      invariant forall k :: 0 <= k < i ==> password[k] in SipAlphabet
    {
      var pick: int :| 0 <= pick < |SipAlphabet|;
      password := password + [SipAlphabet[pick]];
    }
  }

  /** `sip_${user.id.substring(0, 8)}`. */
  function SipUsername(userId: string): (name: string)
    ensures StartsWith(name, "sip_")
    ensures |name| == 4 + Min(8, |userId|)
    ensures StartsWith(userId, name[4..])
  {
    "sip_" + Take(userId, 8)
  }

  /** The columns the register handler selects from the created record. */
  datatype UserView = UserView(id: string, email: string, name: Option<string>, role: string,
                               isActive: bool, createdAt: int)

  /** The register response: the created user and the plaintext SIP credentials. */
  datatype Registration = Registration(user: UserView, sipUsername: string, sipPassword: string)

  datatype LoginReply = LoginReply(token: string, id: string, email: string, name: Option<string>, role: string)

  /** The columns `GET /me` selects. */
  datatype Profile = Profile(id: string, email: string, name: Option<string>, role: string,
                             sipUsername: Option<string>, isActive: bool, createdAt: int, updatedAt: int)

  /** `role = 'USER'` applies when no role is sent; the stored role is upper-cased. */
  function StoredRole(role: Option<string>): (r: string)
    ensures role.None? ==> r == DefaultRole
    ensures role.Some? ==> r == ToUpperAscii(role.value)
    ensures forall i :: 0 <= i < |r| ==> !IsLowerAscii(r[i])
  {
    assert ToUpperAscii(DefaultRole) == DefaultRole;
    ToUpperAscii(role.GetOr(DefaultRole))
  }

  /** The user table (shared with the middleware). */
  class UserDirectory {
    var users: map<string, SipUser>

    ghost predicate Valid()
      reads this
    {
      WellFormed(users)
    }

    constructor ()
      ensures Valid() && users == map[]
    {
      users := map[];
    }

    /**
     * `POST /register`. `newId` is the id the database assigns to the
     * created record and `now` its creation time.
     */
    method Register(email: Option<string>, password: Option<string>, name: Option<string>,
                    role: Option<string>, newId: string, now: int, hash: string -> string)
      returns (r: Result<Registration, HttpError>)
      requires Valid()
      requires newId !in users
      modifies this
      ensures Valid()
      ensures !Truthy(email) || !Truthy(password) ==>
        r == Failure(HttpError(400, EmailAndPasswordRequired)) && users == old(users)
      ensures Truthy(email) && Truthy(password) && EmailTaken(old(users), email.value) ==>
        r == Failure(HttpError(409, UserAlreadyExists)) && users == old(users)
      ensures r.Success? <==> Truthy(email) && Truthy(password) && !EmailTaken(old(users), email.value)
      ensures r.Success? ==>
        && IsSipPassword(r.value.sipPassword)
        && r.value.sipUsername == SipUsername(newId)
        && r.value.user == UserView(newId, email.value, name, StoredRole(role), true, now)
        && users == old(users)[newId := SipUser(newId, email.value, hash(password.value), name,
                                                StoredRole(role), true, Some(SipUsername(newId)),
                                                Some(hash(r.value.sipPassword)), now, now)]
    {
      if !Truthy(email) || !Truthy(password) {
        return Failure(HttpError(400, EmailAndPasswordRequired));
      }
      if exists id :: id in users && users[id].email == email.value {
        return Failure(HttpError(409, UserAlreadyExists));
      }
      var created := SipUser(newId, email.value, hash(password.value), name, StoredRole(role), true, None, None, now, now);
      var sipUsername := SipUsername(newId);
      var sipPassword := GenerateSipPassword();
      var completed := created.(sipUsername := Some(sipUsername), sipPassword := Some(hash(sipPassword)));
      InsertKeepsWellFormed(users, completed);
      users := users[newId := completed];
      r := Success(Registration(UserView(newId, created.email, name, created.role, true, now), sipUsername, sipPassword));
    }

    /**
     * `POST /login`. An unknown email, an inactive user and a wrong password
     * are answered alike.
     */
    method Login(email: Option<string>, password: Option<string>, compare: (string, string) -> bool,
                 sign: TokenPayload -> string)
      returns (r: Result<LoginReply, HttpError>)
      requires Valid()
      ensures !Truthy(email) || !Truthy(password) ==> r == Failure(HttpError(400, EmailAndPasswordRequired))
      ensures Truthy(email) && Truthy(password) && r.Failure? ==> r.error == HttpError(401, InvalidCredentials)
      ensures r.Success? <==>
        Truthy(email) && Truthy(password)
        && exists id :: id in users && users[id].email == email.value && users[id].isActive
                        && compare(password.value, users[id].password)
      ensures r.Success? ==>
        exists id :: id in users && users[id].email == email.value
          && r.value == LoginReply(sign(TokenPayload(id, users[id].email, users[id].role)),
                                   id, users[id].email, users[id].name, users[id].role)
    {
      if !Truthy(email) || !Truthy(password) {
        return Failure(HttpError(400, EmailAndPasswordRequired));
      }
      if !exists id :: id in users && users[id].email == email.value {
        return Failure(HttpError(401, InvalidCredentials));
      }
      var id :| id in users && users[id].email == email.value;
      var user := users[id];
      if !user.isActive {
        return Failure(HttpError(401, InvalidCredentials));
      }
      if !compare(password.value, user.password) {
        return Failure(HttpError(401, InvalidCredentials));
      }
      var token := sign(TokenPayload(user.id, user.email, user.role));
      r := Success(LoginReply(token, user.id, user.email, user.name, user.role));
    }

    /** `GET /me` for the authenticated user `userId`. */
    method Me(userId: string) returns (r: Result<Profile, HttpError>)
      ensures r.Failure? <==> userId !in users
      ensures r.Failure? ==> r.error == HttpError(404, UserNotFound)
      ensures r.Success? ==>
        var u := users[userId];
        r.value == Profile(u.id, u.email, u.name, u.role, u.sipUsername, u.isActive, u.createdAt, u.updatedAt)
    {
      if userId !in users {
        return Failure(HttpError(404, UserNotFound));
      }
      var u := users[userId];
      r := Success(Profile(u.id, u.email, u.name, u.role, u.sipUsername, u.isActive, u.createdAt, u.updatedAt));
    }

    /** `PUT /password` for the authenticated user `userId`, at time `now`. */
    method ChangePassword(userId: string, currentPassword: Option<string>, newPassword: Option<string>,
                          compare: (string, string) -> bool, hash: string -> string, now: int)
      returns (r: Result<(), HttpError>)
      requires Valid()
      modifies this
      ensures Valid()
      ensures r.Failure? ==> users == old(users)
      ensures !Truthy(currentPassword) || !Truthy(newPassword) ==>
        r == Failure(HttpError(400, PasswordsRequired))
      ensures Truthy(currentPassword) && Truthy(newPassword) && userId !in old(users) ==>
        r == Failure(HttpError(404, UserNotFound))
      ensures Truthy(currentPassword) && Truthy(newPassword) && userId in old(users)
              && !compare(currentPassword.value, old(users)[userId].password) ==>
        r == Failure(HttpError(401, CurrentPasswordIncorrect))
      ensures r.Success? <==>
        Truthy(currentPassword) && Truthy(newPassword) && userId in old(users)
        && compare(currentPassword.value, old(users)[userId].password)
      ensures r.Success? ==>
        users == old(users)[userId := old(users)[userId].(password := hash(newPassword.value), updatedAt := now)]
    {
      if !Truthy(currentPassword) || !Truthy(newPassword) {
        return Failure(HttpError(400, PasswordsRequired));
      }
      if userId !in users {
        return Failure(HttpError(404, UserNotFound));
      }
      var user := users[userId];
      if !compare(currentPassword.value, user.password) {
        return Failure(HttpError(401, CurrentPasswordIncorrect));
      }
      users := users[userId := user.(password := hash(newPassword.value), updatedAt := now)];
      r := Success(());
    }
  }
}
