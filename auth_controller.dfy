/** The identity service (backend/src/controllers/authController.js): registration with its
    validation chain, login with one answer for every kind of bad credentials, and the
    caller's profile. Request fields are text: `None` when absent or null. */
module AuthController {
  import opened Common
  import opened Http
  import opened Db
  import Crypto

  // ---- the email pattern /\S+@\S+\.\S+/ ------------------------------------------------

  /** `\s` of JavaScript regular expressions: the ASCII blanks, no-break space, the Unicode
      space separators, the line and paragraph separators and the byte order mark. */
  predicate IsSpace(c: char)
  {
    var n := c as int;
    || (9 <= n <= 13) || n == 32 || n == 0xA0 || n == 0x1680 || (0x2000 <= n <= 0x200A)
    || n == 0x2028 || n == 0x2029 || n == 0x202F || n == 0x205F || n == 0x3000 || n == 0xFEFF
  }

  ghost predicate NoSpace(s: string)
  {
    forall k :: 0 <= k < |s| ==> !IsSpace(s[k])
  }

  /** `s[i..e]` has the shape `\S+@\S+\.\S+`, with the `@` at `at` and the `.` at `dot`. */
  ghost predicate PatternAt(s: string, i: int, at: int, dot: int, e: int)
  {
    && 0 <= i < at && at + 1 < dot && dot + 1 < e <= |s|
    && NoSpace(s[i..at]) && s[at] == '@' && NoSpace(s[at + 1..dot]) && s[dot] == '.' && NoSpace(s[dot + 1..e])
  }

  /** `/\S+@\S+\.\S+/.test(s)`: the pattern is not anchored, so it may match anywhere. */
  ghost predicate MatchesEmailPattern(s: string)
  {
    exists i, at, dot, e :: PatternAt(s, i, at, dot, e)
  }

  /** The check as the program runs it: an `@` with a non-blank before it, then a `.` with
      only non-blanks between them and a non-blank after it. */
  predicate LooksLikeEmail(s: string)
  {
    exists at, dot | 1 <= at && at + 1 < dot && dot + 1 < |s| :: AddressAt(s, at, dot)
  }

  predicate AddressAt(s: string, at: int, dot: int)
    requires 1 <= at && at + 1 < dot && dot + 1 < |s|
  {
    && s[at] == '@' && !IsSpace(s[at - 1]) && s[dot] == '.' && !IsSpace(s[dot + 1])
    && forall k | at < k < dot :: !IsSpace(s[k])
  }

  /** The running check accepts exactly the strings the regular expression matches. */
  lemma LooksLikeEmailIsPattern(s: string)
    ensures LooksLikeEmail(s) <==> MatchesEmailPattern(s)
  {
    if LooksLikeEmail(s) {
      var at, dot :| 1 <= at && at + 1 < dot && dot + 1 < |s| && AddressAt(s, at, dot);
      assert PatternAt(s, at - 1, at, dot, dot + 2);
    }
    if MatchesEmailPattern(s) {
      var i, at, dot, e :| PatternAt(s, i, at, dot, e);
      assert !IsSpace(s[at - 1]) by { assert s[i..at][at - 1 - i] == s[at - 1]; }
      assert !IsSpace(s[dot + 1]) by { assert s[dot + 1..e][0] == s[dot + 1]; }
      forall k | at < k < dot ensures !IsSpace(s[k]) {
        assert s[at + 1..dot][k - at - 1] == s[k];
      }
      assert AddressAt(s, at - 1 + 1, dot);
    }
  }

  /** The pattern is loose: text around an address is accepted, a missing dot or a missing
      local part is not. */
  lemma EmailPatternExamples()
    ensures LooksLikeEmail("see me@host.tld now")
    ensures !LooksLikeEmail("me@host")
    ensures !LooksLikeEmail("@h.t")
  {
    assert AddressAt("see me@host.tld now", 6, 11);
  }

  // ---- registerUser --------------------------------------------------------------------

  /** `!field`: absent, null or the empty string. */
  predicate Blank(field: Option<string>)
  {
    field.None? || field.value == ""
  }

  /** The validation chain of registerUser, in its order: missing fields, then the email
      pattern, then the password length. `None` when the request passes. */
  function ValidateRegistration(name: Option<string>, email: Option<string>, password: Option<string>): (r: Option<Msg>)
    ensures r == Some(FieldsRequired) <==> Blank(name) || Blank(email) || Blank(password)
    ensures r == Some(EmailInvalid) <==>
              !Blank(name) && !Blank(email) && !Blank(password) && !MatchesEmailPattern(email.value)
    ensures r == Some(PasswordTooShort) <==>
              !Blank(name) && !Blank(email) && !Blank(password) && MatchesEmailPattern(email.value)
              && |password.value| < 6
    ensures r.None? <==>
              !Blank(name) && !Blank(email) && !Blank(password) && MatchesEmailPattern(email.value)
              && |password.value| >= 6
  {
    LooksLikeEmailIsPattern(if email.Some? then email.value else "");
    if Blank(name) || Blank(email) || Blank(password) then Some(FieldsRequired)
    else if !LooksLikeEmail(email.value) then Some(EmailInvalid)
    else if |password.value| < 6 then Some(PasswordTooShort)
    else None
  }

  /** `SELECT * FROM users WHERE email = ?`: the first row with that email. */
  function FindUserByEmail(users: seq<User>, email: string): (r: Option<User>)
    ensures r.Some? ==> r.value in users && r.value.email == email
    ensures r.None? <==> forall k :: 0 <= k < |users| ==> users[k].email != email
  {
    if users == [] then None
    else if users[0].email == email then Some(users[0])
    else FindUserByEmail(users[1..], email)
  }

  /** The user fields a response carries: never the password hash. */
  datatype PublicUser = PublicUser(id: int, name: string, email: string, role: string)

  datatype Session = Session(token: Crypto.Token, user: PublicUser)

  function PublicOf(u: User): PublicUser
  {
    PublicUser(u.id, u.name, u.email, u.role)
  }

  /** The row registerUser inserts: the next id, the bcrypt hash of the password, the
      schema's default role 'customer'. */
  function NewUser(t: Tables, name: string, email: string, password: string, salt: int, now: int): (u: User)
    ensures u.id == t.nextUserId && u.role == "customer" && u.createdAt == now
    ensures u.name == name && u.email == email
    ensures forall attempt :: Crypto.Compare(attempt, u.passwordHash) <==> attempt == password
  {
    User(t.nextUserId, name, email, Crypto.Hash(password, salt), "customer", now)
  }

  /** The users table after a successful registration. */
  function AddUser(t: Tables, name: string, email: string, password: string, salt: int, now: int): (after: Tables)
    ensures |after.users| == |t.users| + 1 && after.users[..|t.users|] == t.users
    ensures after.users[|t.users|] == NewUser(t, name, email, password, salt, now)
    ensures after.nextUserId == t.nextUserId + 1
    ensures after.(users := t.users, nextUserId := t.nextUserId) == t
  {
    t.(users := t.users + [NewUser(t, name, email, password, salt, now)], nextUserId := t.nextUserId + 1)
  }

  /** POST /auth/register. `salt` is the random salt bcrypt would draw; `now` the insertion
      time. */
  method RegisterUser(s: Store, name: Option<string>, email: Option<string>, password: Option<string>,
                      salt: int, now: int) returns (r: Reply<Session>)
    requires s.Valid()
    modifies s
    ensures s.Valid()
    ensures var t := old(s.Snapshot());
            match ValidateRegistration(name, email, password)
            case Some(msg) => r == Err(400, msg) && s.Snapshot() == t
            case None =>
              if FindUserByEmail(t.users, email.value).Some? then r == Err(409, EmailTaken) && s.Snapshot() == t
              else
                && s.Snapshot() == AddUser(t, name.value, email.value, password.value, salt, now)
                && r == Ok(201, Session(Crypto.GenerateToken(t.nextUserId, "customer"),
                                        PublicUser(t.nextUserId, name.value, email.value, "customer")))
  {
    var invalid := ValidateRegistration(name, email, password);
    if invalid.Some? {
      return Err(400, invalid.value);
    }
    var existingUser := FindUserByEmail(s.users, email.value);
    if existingUser.Some? {
      return Err(409, EmailTaken);
    }
    ghost var t := s.Snapshot();
    var hashedPassword := Crypto.Hash(password.value, salt);
    var id := s.nextUserId;
    s.users := s.users + [User(id, name.value, email.value, hashedPassword, "customer", now)];
    s.nextUserId := id + 1;
    AddUserKeepsUsersOk(t.users, t.nextUserId, NewUser(t, name.value, email.value, password.value, salt, now));
    var token := Crypto.GenerateToken(id, "customer");
    r := Ok(201, Session(token, PublicUser(id, name.value, email.value, "customer")));
  }

  /** Inserting a user with a fresh id and an unused email keeps ids and emails unique. */
  lemma AddUserKeepsUsersOk(users: seq<User>, nextId: int, u: User)
    requires UsersOk(users, nextId) && u.id == nextId
    requires forall k :: 0 <= k < |users| ==> users[k].email != u.email
    ensures UsersOk(users + [u], nextId + 1)
  {
    var us := users + [u];
    forall a, b | 0 <= a < b < |us| ensures DistinctUsers(us[a], us[b]) {
      if b < |users| { assert DistinctUsers(users[a], users[b]); }
    }
  }

  // ---- loginUser -----------------------------------------------------------------------

  /** POST /auth/login: 400 for a missing field; the same 401 whether the email is unknown or
      the password wrong; otherwise a token for the stored id and role. */
  function LoginUser(users: seq<User>, email: Option<string>, password: Option<string>): (r: Reply<Session>)
    ensures r == Err(400, CredentialsRequired) <==> Blank(email) || Blank(password)
    ensures r.Err? ==> r == Err(400, CredentialsRequired) || r == Err(401, CredentialsInvalid)
    ensures r.Ok? <==>
              && !Blank(email) && !Blank(password)
              && FindUserByEmail(users, email.value).Some?
              && Crypto.Compare(password.value, FindUserByEmail(users, email.value).value.passwordHash)
    ensures r.Ok? ==>
              var u := FindUserByEmail(users, email.value).value;
              r == Ok(200, Session(Crypto.GenerateToken(u.id, u.role), PublicOf(u)))
  {
    if Blank(email) || Blank(password) then Err(400, CredentialsRequired)
    else match FindUserByEmail(users, email.value)
      case None => Err(401, CredentialsInvalid)
      case Some(u) =>
        if !Crypto.Compare(password.value, u.passwordHash) then Err(401, CredentialsInvalid)
        else Ok(200, Session(Crypto.GenerateToken(u.id, u.role), PublicOf(u)))
  }

  /** An unknown email and a wrong password for a known one get the very same answer, so a
      caller cannot tell which emails are registered. */
  lemma LoginFailuresLookAlike(users: seq<User>, unknown: string, known: string, wrong: string, password: string)
    requires unknown != "" && known != "" && wrong != "" && password != ""
    requires forall k :: 0 <= k < |users| ==> users[k].email != unknown
    requires FindUserByEmail(users, known).Some?
    requires !Crypto.Compare(wrong, FindUserByEmail(users, known).value.passwordHash)
    ensures LoginUser(users, Some(unknown), Some(password)) == LoginUser(users, Some(known), Some(wrong))
    ensures LoginUser(users, Some(known), Some(wrong)) == Err(401, CredentialsInvalid)
  {
  }

  /** After a registration, logging in with the same email succeeds for the registered
      password, and only for it, as the new customer. */
  lemma RegisterThenLogin(t: Tables, name: string, email: string, password: string, salt: int, now: int,
                          attempt: string)
    requires UsersOk(t.users, t.nextUserId)
    requires ValidateRegistration(Some(name), Some(email), Some(password)).None?
    requires FindUserByEmail(t.users, email).None?
    requires attempt != ""
    ensures var r := LoginUser(AddUser(t, name, email, password, salt, now).users, Some(email), Some(attempt));
            && (r.Ok? <==> attempt == password)
            && (r.Ok? ==> r.body.user == PublicUser(t.nextUserId, name, email, "customer"))
  {
    var u := NewUser(t, name, email, password, salt, now);
    var found := FindUserByEmail(t.users + [u], email);
    assert (t.users + [u])[|t.users|] == u;
    assert found == Some(u) by {
      assert found.Some?;
      var k :| 0 <= k < |t.users + [u]| && (t.users + [u])[k] == found.value;
      assert k == |t.users|;
    }
    Crypto.HashThenCompare(password, attempt, salt);
  }

  // ---- getMyProfile --------------------------------------------------------------------

  datatype Profile = Profile(id: int, name: string, email: string, role: string, createdAt: int)

  /** GET /api/auth/profile: the caller's stored row without its password hash, or 404. */
  function GetMyProfile(users: seq<User>, userId: int): (r: Reply<Profile>)
    ensures r.Err? <==> forall k :: 0 <= k < |users| ==> users[k].id != userId
    ensures r.Err? ==> r == Err(404, UserNotFound)
    ensures r.Ok? ==>
              && r.status == 200 && r.body.id == userId
              && exists k :: 0 <= k < |users| && users[k].id == userId && users[k].name == r.body.name &&
                             users[k].email == r.body.email && users[k].role == r.body.role &&
                             users[k].createdAt == r.body.createdAt
  {
    match FindUser(users, userId)
    case None => Err(404, UserNotFound)
    case Some(u) => Ok(200, Profile(u.id, u.name, u.email, u.role, u.createdAt))
  }
}
