/** The authentication routes: administrator login, token refresh, token
    status and password change, and customer registration, login, profile
    and password change. Passwords are stored as bcrypt digests, modelled
    symbolically: a digest stands for the password it was made from. */
module Auth {
  import opened Wrappers
  import opened Seqs
  import opened Tokens

  datatype Digest = Bcrypt(of: string)

  /** `bcrypt.hash(password, salt)`; salting is not modelled. */
  function Hash(password: string): Digest {
    Bcrypt(password)
  }

  /** `bcrypt.compare(password, digest)`. */
  predicate Compare(password: string, d: Digest) {
    d == Hash(password)
  }

  datatype Admin = Admin(oid: string, username: string, password: Digest)

  datatype Profile = Profile(
    firstName: Option<string>, lastName: Option<string>, address: Option<string>,
    apartment: Option<string>, city: Option<string>, zipCode: Option<string>, phone: Option<string>)

  datatype User = User(oid: string, email: string, password: Digest, profile: Profile)

  /** Response bodies. `ServerError` is `{ error: err.message }`, whose text is not modelled. */
  datatype Body =
    | Message(text: string)
    | ServerError
    | AdminSession(token: Claims, id: string, username: string)
    | UserSession(token: Claims, id: string, email: string, firstName: Option<string>, lastName: Option<string>)
    | TokenStatus(valid: bool, expiresIn: int, expiresAtMs: int)
    | Account(id: string, email: string, profile: Profile)

  datatype Response = Response(status: nat, body: Body)

  const InvalidCredentials := "Invalid credentials"
  const IncorrectOldPassword := "Incorrect old password"
  const PasswordUpdated := "Password updated successfully"
  const UserNotFound := "User not found"
  const EmailInUse := "そのメールアドレスは既に使用されています"
  const Registered := "会員登録が完了しました"
  const WrongEmailOrPassword := "メールアドレスまたはパスワードが間違っています"
  const NoToken := "認証トークンがありません"
  const NoSuchUser := "ユーザーが見つかりません"
  const AuthenticationFailed := "認証に失敗しました"
  const WrongCurrentPassword := "現在のパスワードが正しくありません"
  const PasswordChanged := "パスワードを変更しました"
  const ServerFailure := "サーバーエラーが発生しました"

  // ---------------------------------------------------------------------
  // Lookups (`findOne`, `findById`)

  function AdminNamed(admins: seq<Admin>, username: string): Option<nat> {
    FindFirst(admins, (a: Admin) => a.username == username)
  }

  function AdminWithId(admins: seq<Admin>, id: string): Option<nat> {
    FindFirst(admins, (a: Admin) => a.oid == id)
  }

  function UserWithEmail(users: seq<User>, email: string): Option<nat> {
    FindFirst(users, (u: User) => u.email == email)
  }

  function UserWithId(users: seq<User>, id: string): Option<nat> {
    FindFirst(users, (u: User) => u.oid == id)
  }

  ghost predicate UniqueUsernames(admins: seq<Admin>) {
    forall i, j :: 0 <= i < j < |admins| ==> admins[i].username != admins[j].username
  }

  ghost predicate UniqueAdminIds(admins: seq<Admin>) {
    forall i, j :: 0 <= i < j < |admins| ==> admins[i].oid != admins[j].oid
  }

  ghost predicate UniqueEmails(users: seq<User>) {
    forall i, j :: 0 <= i < j < |users| ==> users[i].email != users[j].email
  }

  ghost predicate UniqueUserIds(users: seq<User>) {
    forall i, j :: 0 <= i < j < |users| ==> users[i].oid != users[j].oid
  }

  // ---------------------------------------------------------------------
  // Administrator routes. The `auth` middleware in front of change-password,
  // refresh and verify is not part of this model: those handlers receive
  // the claims it accepted.

  /** POST /login. Both failures give the same response, so it does not
      reveal whether the username exists. */
  function AdminLogin(admins: seq<Admin>, username: string, password: string, nowMs: nat): (r: Response)
    ensures r.status == 200 || r == Response(400, Message(InvalidCredentials))
    ensures r.status == 200 ==>
      && r.body.AdminSession? && r.body.username == username
      && r.body.token == Sign(r.body.id, None, nowMs)
      && exists i :: 0 <= i < |admins| && admins[i].oid == r.body.id
           && admins[i].username == username && Compare(password, admins[i].password)
  {
    match AdminNamed(admins, username)
    case None => Response(400, Message(InvalidCredentials))
    case Some(i) =>
      if !Compare(password, admins[i].password) then Response(400, Message(InvalidCredentials))
      else Response(200, AdminSession(Sign(admins[i].oid, None, nowMs), admins[i].oid, admins[i].username))
  }

  /** With unique usernames, login succeeds exactly for a stored username
      given its own password. */
  lemma AdminLoginSucceedsIff(admins: seq<Admin>, username: string, password: string, nowMs: nat)
    requires UniqueUsernames(admins)
    ensures AdminLogin(admins, username, password, nowMs).status == 200 <==>
      exists i :: 0 <= i < |admins| && admins[i].username == username && Compare(password, admins[i].password)
  {
  }

  /** POST /refresh: a new 24-hour token for the same administrator. */
  function AdminRefresh(admins: seq<Admin>, caller: Claims, nowMs: nat): (r: Response)
    ensures r.status == 200 || r == Response(401, Message(UserNotFound))
    ensures r.status == 401 <==> forall i :: 0 <= i < |admins| ==> admins[i].oid != caller.id
    ensures r.status == 200 ==> r.body.AdminSession? && r.body.id == caller.id && r.body.token == Sign(caller.id, None, nowMs)
  {
    match AdminWithId(admins, caller.id)
    case None => Response(401, Message(UserNotFound))
    case Some(i) => Response(200, AdminSession(Sign(admins[i].oid, None, nowMs), admins[i].oid, admins[i].username))
  }

  /** GET /verify: `decoded` is `jwt.decode` of the bearer token (None when
      it does not decode, which makes `decoded.exp` throw). */
  function VerifyStatus(decoded: Option<Claims>, nowMs: nat): (r: Response)
    ensures decoded.None? <==> r == Response(500, ServerError)
    ensures decoded.Some? ==> r.status == 200 && r.body.TokenStatus? && r.body.valid
    ensures decoded.Some? ==> r.body.expiresAtMs == decoded.value.exp * 1000
    ensures decoded.Some? ==> r.body.expiresIn * 1000 + nowMs < decoded.value.exp * 1000 + 1000
    ensures decoded.Some? ==> r.body.expiresIn * 1000 + nowMs >= decoded.value.exp * 1000
  {
    match decoded
    case None => Response(500, ServerError)
    case Some(c) => Response(200, TokenStatus(true, c.exp - Seconds(nowMs), c.exp * 1000))
  }

  /** At the moment a token is issued it has the full 24 hours left. */
  lemma ExpiresInAtIssue(id: string, role: Option<string>, nowMs: nat)
    ensures VerifyStatus(Some(Sign(id, role, nowMs)), nowMs).body.expiresIn == Lifetime
  {
  }

  /** The time left never grows as the clock advances. */
  lemma ExpiresInDecreases(c: Claims, t1: nat, t2: nat)
    requires t1 <= t2
    ensures VerifyStatus(Some(c), t2).body.expiresIn <= VerifyStatus(Some(c), t1).body.expiresIn
    ensures t2 - t1 >= 1000 ==> VerifyStatus(Some(c), t2).body.expiresIn < VerifyStatus(Some(c), t1).body.expiresIn
  {
    assert Seconds(t1) <= Seconds(t2) by { DivMonotone(t1, t2); }
    if t2 - t1 >= 1000 {
      DivMonotone(t1 + 1000, t2);
      assert Seconds(t1 + 1000) == Seconds(t1) + 1;
    }
  }

  lemma DivMonotone(a: nat, b: nat)
    requires a <= b
    ensures a / 1000 <= b / 1000
  {
  }

  /** A positive time left is exactly what `jwt.verify` accepts. */
  lemma ExpiresInPositiveIffAccepted(c: Claims, nowMs: nat)
    ensures VerifyStatus(Some(c), nowMs).body.expiresIn > 0 <==> Verify(Some(c), nowMs).Some?
  {
  }

  // ---------------------------------------------------------------------
  // Customer routes

  /** POST /user-login: both failures give the same 401 response; the token
      carries the customer's id and the role 'user'. */
  function UserLogin(users: seq<User>, email: string, password: string, nowMs: nat): (r: Response)
    ensures r.status == 200 || r == Response(401, Message(WrongEmailOrPassword))
    ensures r.status == 200 ==>
      && r.body.UserSession? && r.body.email == email
      && r.body.token == Sign(r.body.id, Some("user"), nowMs)
      && exists i :: 0 <= i < |users| && users[i].oid == r.body.id
           && users[i].email == email && Compare(password, users[i].password)
  {
    match UserWithEmail(users, email)
    case None => Response(401, Message(WrongEmailOrPassword))
    case Some(i) =>
      if !Compare(password, users[i].password) then Response(401, Message(WrongEmailOrPassword))
      else
        var u := users[i];
        Response(200, UserSession(Sign(u.oid, Some("user"), nowMs), u.oid, u.email, u.profile.firstName, u.profile.lastName))
  }

  lemma UserLoginSucceedsIff(users: seq<User>, email: string, password: string, nowMs: nat)
    requires UniqueEmails(users)
    ensures UserLogin(users, email, password, nowMs).status == 200 <==>
      exists i :: 0 <= i < |users| && users[i].email == email && Compare(password, users[i].password)
  {
  }

  /** GET /me: `signed` is the bearer token's claims when its signature
      checks; the stored password is not returned. */
  function Me(users: seq<User>, header: Option<string>, signed: Option<Claims>, nowMs: nat): (r: Response)
    ensures !HasToken(header) ==> r == Response(401, Message(NoToken))
    ensures HasToken(header) && Verify(signed, nowMs).None? ==> r == Response(401, Message(AuthenticationFailed))
    ensures r.status == 404 <==> HasToken(header) && Verify(signed, nowMs).Some?
                                 && forall i :: 0 <= i < |users| ==> users[i].oid != signed.value.id
    ensures r.status == 200 ==>
      && r.body.Account? && r.body.id == signed.value.id
      && exists i :: 0 <= i < |users| && users[i] == User(r.body.id, r.body.email, users[i].password, r.body.profile)
  {
    if !HasToken(header) then Response(401, Message(NoToken))
    else match Verify(signed, nowMs)
      case None => Response(401, Message(AuthenticationFailed))
      case Some(c) =>
        match UserWithId(users, c.id)
        case None => Response(404, Message(NoSuchUser))
        case Some(i) => Response(200, Account(users[i].oid, users[i].email, users[i].profile))
  }

  /** The administrator and customer tables. */
  class Accounts {
    var admins: seq<Admin>
    var users: seq<User>

    ghost predicate Valid()
      reads this
    {
      UniqueUsernames(admins) && UniqueAdminIds(admins) && UniqueEmails(users) && UniqueUserIds(users)
    }

    constructor(admins: seq<Admin>, users: seq<User>)
      requires UniqueUsernames(admins) && UniqueAdminIds(admins) && UniqueEmails(users) && UniqueUserIds(users)
      ensures Valid() && this.admins == admins && this.users == users
    {
      this.admins := admins;
      this.users := users;
    }

    /** POST /change-password for the administrator the token names. A
        missing record makes `admin.password` throw (500). */
    method ChangePassword(caller: Claims, oldPassword: string, newPassword: string) returns (r: Response)
      requires Valid()
      modifies this
      ensures Valid() && users == old(users)
      ensures var k := AdminWithId(old(admins), caller.id);
        if k.None? then r == Response(500, ServerError) && admins == old(admins)
        else if !Compare(oldPassword, old(admins)[k.value].password) then
          r == Response(400, Message(IncorrectOldPassword)) && admins == old(admins)
        else
          r == Response(200, Message(PasswordUpdated))
          && admins == old(admins)[k.value := old(admins)[k.value].(password := Hash(newPassword))]
    {
      var k := AdminWithId(admins, caller.id);
      if k.None? {
        return Response(500, ServerError);
      }
      var i := k.value;
      if !Compare(oldPassword, admins[i].password) {
        return Response(400, Message(IncorrectOldPassword));
      }
      admins := admins[i := admins[i].(password := Hash(newPassword))];
      r := Response(200, Message(PasswordUpdated));
    }

    /** POST /register. `oid` is the id the database assigns to the new record. */
    method Register(email: string, password: string, profile: Profile, oid: string) returns (r: Response)
      requires Valid()
      requires forall i :: 0 <= i < |users| ==> users[i].oid != oid
      modifies this
      ensures Valid() && admins == old(admins)
      ensures (exists i :: 0 <= i < |old(users)| && old(users)[i].email == email) ==>
        r == Response(400, Message(EmailInUse)) && users == old(users)
      ensures (forall i :: 0 <= i < |old(users)| ==> old(users)[i].email != email) ==>
        r == Response(201, Message(Registered)) && users == old(users) + [User(oid, email, Hash(password), profile)]
    {
      var k := UserWithEmail(users, email);
      if k.Some? {
        return Response(400, Message(EmailInUse));
      }
      users := users + [User(oid, email, Hash(password), profile)];
      r := Response(201, Message(Registered));
    }

    /** POST /user-change-password. Here a token that fails verification
        lands in the generic handler (500), unlike /me. */
    method UserChangePassword(header: Option<string>, signed: Option<Claims>, nowMs: nat,
                              oldPassword: string, newPassword: string) returns (r: Response)
      requires Valid()
      modifies this
      ensures Valid() && admins == old(admins)
      ensures r.status != 200 ==> users == old(users)
      ensures !HasToken(header) ==> r == Response(401, Message(NoToken))
      ensures HasToken(header) && Verify(signed, nowMs).None? ==> r == Response(500, Message(ServerFailure))
      ensures HasToken(header) && Verify(signed, nowMs).Some? ==>
        var k := UserWithId(old(users), signed.value.id);
        if k.None? then r == Response(404, Message(NoSuchUser))
        else if !Compare(oldPassword, old(users)[k.value].password) then r == Response(400, Message(WrongCurrentPassword))
        else r == Response(200, Message(PasswordChanged))
             && users == old(users)[k.value := old(users)[k.value].(password := Hash(newPassword))]
    {
      if !HasToken(header) {
        return Response(401, Message(NoToken));
      }
      var c := Verify(signed, nowMs);
      if c.None? {
        return Response(500, Message(ServerFailure));
      }
      var k := UserWithId(users, c.value.id);
      if k.None? {
        return Response(404, Message(NoSuchUser));
      }
      var i := k.value;
      if !Compare(oldPassword, users[i].password) {
        return Response(400, Message(WrongCurrentPassword));
      }
      users := users[i := users[i].(password := Hash(newPassword))];
      r := Response(200, Message(PasswordChanged));
    }
  }

  /** After a successful POST /change-password (the administrator at `k`
      is replaced by one with the new digest, as `Accounts.ChangePassword`
      ensures), logging in under that administrator's username succeeds
      with exactly the new password. */
  lemma PasswordChangeTakesEffect(admins: seq<Admin>, k: nat, newPassword: string, password: string, nowMs: nat)
    requires UniqueUsernames(admins) && k < |admins|
    ensures var after := admins[k := admins[k].(password := Hash(newPassword))];
      AdminLogin(after, admins[k].username, password, nowMs).status == 200 <==> password == newPassword
  {
    var after := admins[k := admins[k].(password := Hash(newPassword))];
    assert UniqueUsernames(after) by {
      forall i, j | 0 <= i < j < |after|
        ensures after[i].username != after[j].username
      {
        assert after[i].username == admins[i].username && after[j].username == admins[j].username;
      }
    }
    AdminLoginSucceedsIff(after, admins[k].username, password, nowMs);
    if password == newPassword {
      assert after[k].username == admins[k].username && Compare(password, after[k].password);
    } else {
      forall i | 0 <= i < |after| && after[i].username == admins[k].username
        ensures !Compare(password, after[i].password)
      {
        assert i == k;
      }
    }
  }
}
