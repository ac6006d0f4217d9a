/**
 * `/api/auth/register` and `/api/auth/login`. Token signing is abstract: a
 * token is represented by the payload it would carry. The user model's
 * save hooks are not part of this model: `User.create` is taken to store
 * the password as given, and login compares it as given.
 */
module AuthRoutes {
  import opened Js
  import opened ComplaintSchema
  import opened Db
  import opened AuthMiddleware

  /** ADMIN_EMAIL, ADMIN_PASSWORD and ADMIN_NAME; each may be unset. */
  datatype AdminEnv = AdminEnv(email: Option<string>, password: Option<string>, name: Option<string>)

  /** `ADMIN_CREDENTIALS`, which the admin login returns as its `user` field. */
  datatype AdminCredentials = AdminCredentials(email: Option<string>, password: Option<string>, name: Option<string>, role: string)

  function Credentials(env: AdminEnv): AdminCredentials
  {
    AdminCredentials(env.email, env.password, env.name, "admin")
  }

  datatype RegisterBody = RegisterBody(name: Option<string>, email: Option<string>, password: Option<string>, role: Option<string>)

  /** The `user` object of a register or login response. */
  datatype UserView = UserView(name: Option<string>, email: Option<string>, role: string)

  datatype RegisterResult = AlreadyExists | Registered(token: Payload, user: UserView)

  datatype LoginResult =
    | AdminLogin(token: Payload, admin: AdminCredentials)
    | UserLogin(token: Payload, user: UserView)
    | InvalidCredentials

  /** The document register creates; the role is not checked against any list. */
  function NewUser(body: RegisterBody): (u: User)
    ensures u.name == body.name && u.email == body.email && u.password == body.password
    ensures u.role != ""
    ensures u.role == (if Truthy(body.role) then body.role.value else "user")
  {
    User(body.name, body.email, body.password, OrDefault(body.role, "user"))
  }

  function ViewOf(u: User): UserView
  {
    UserView(u.name, u.email, u.role)
  }

  /** Adding a user whose email is not taken keeps emails unique. */
  lemma InsertKeepsUnique(users: map<Id, User>, id: Id, u: User)
    requires UniqueEmails(users) && !EmailTaken(users, u.email) && id !in users
    ensures UniqueEmails(users[id := u])
  {
  }

  /** `POST /register`. */
  method Register(store: Store, body: RegisterBody) returns (r: RegisterResult)
    modifies store
    ensures EmailTaken(old(store.users), body.email) ==>
      r == AlreadyExists && store.users == old(store.users) && store.complaints == old(store.complaints)
    ensures !EmailTaken(old(store.users), body.email) ==>
      && r.Registered?
      && r.token.id !in old(store.users)
      && Castable(r.token.id)
      && store.users == old(store.users)[r.token.id := NewUser(body)]
      && store.complaints == old(store.complaints)
      && r.token.role == r.user.role
      && r.user == UserView(body.name, body.email, if Truthy(body.role) then body.role.value else "user")
    ensures UniqueEmails(old(store.users)) ==> UniqueEmails(store.users)
  {
    if EmailTaken(store.users, body.email) {
      return AlreadyExists;
    }
    var u := NewUser(body);
    ghost var before := store.users;
    var id := store.InsertUser(u);
    if UniqueEmails(before) {
      InsertKeepsUnique(before, id, u);
    }
    r := Registered(Payload(id, u.role), ViewOf(u));
  }

  /** The admin branch: strict equality with the configured values, so an unset pair matches an absent pair. */
  predicate AdminMatch(env: AdminEnv, email: Option<string>, password: Option<string>)
    ensures env.email.None? && env.password.None? ==> (AdminMatch(env, email, password) <==> email.None? && password.None?)
    ensures AdminMatch(env, email, password) ==> (Truthy(email) <==> Truthy(env.email)) && (Truthy(password) <==> Truthy(env.password))
  {
    email == env.email && password == env.password
  }

  /** The user branch of login: the user with that email, if its stored password is exactly the one given. */
  function CheckUser(users: map<Id, User>, email: Option<string>, password: Option<string>): (r: LoginResult)
    requires UniqueEmails(users)
    ensures !r.AdminLogin?
    ensures r.UserLogin? ==>
      && r.token.id in users
      && users[r.token.id].email == email
      && users[r.token.id].password == password
      && r.token.role == users[r.token.id].role
      && r.user == ViewOf(users[r.token.id])
    ensures r.InvalidCredentials? <==> !(exists id :: id in users && users[id].email == email && users[id].password == password)
  {
    if !EmailTaken(users, email) then
      InvalidCredentials
    else
      var id :| id in users && users[id].email == email;
      if users[id].password != password then InvalidCredentials
      else UserLogin(Payload(id, users[id].role), ViewOf(users[id]))
  }

  /** `POST /login`: the admin comparison first, then the user look-up. */
  function Login(users: map<Id, User>, env: AdminEnv, email: Option<string>, password: Option<string>): (r: LoginResult)
    requires UniqueEmails(users)
    ensures r.AdminLogin? <==> AdminMatch(env, email, password)
    ensures r.AdminLogin? ==> r.token == Payload(AdminId, "admin") && r.admin == Credentials(env)
    ensures !r.AdminLogin? ==> r == CheckUser(users, email, password)
  {
    if AdminMatch(env, email, password) then
      AdminLogin(Payload(AdminId, "admin"), Credentials(env))
    else
      CheckUser(users, email, password)
  }

  /** As written, when ADMIN_EMAIL and ADMIN_PASSWORD are unset, a login body with neither field gets an admin token. */
  lemma UnsetAdminEnvOpensAdmin(users: map<Id, User>, name: Option<string>)
    requires UniqueEmails(users)
    ensures Login(users, AdminEnv(None, None, name), None, None) == AdminLogin(Payload(AdminId, "admin"), AdminCredentials(None, None, name, "admin"))
  {
  }

  /** Both admin credentials are configured. */
  predicate AdminConfigured(env: AdminEnv)
  {
    Truthy(env.email) && Truthy(env.password)
  }

  /** Login with the admin branch open only for configured credentials. */
  function LoginConfiguredAdmin(users: map<Id, User>, env: AdminEnv, email: Option<string>, password: Option<string>): (r: LoginResult)
    requires UniqueEmails(users)
    ensures r.AdminLogin? <==> AdminConfigured(env) && AdminMatch(env, email, password)
    ensures r.AdminLogin? ==> Truthy(email) && Truthy(password) && r.token == Payload(AdminId, "admin")
    ensures !AdminConfigured(env) ==> r == CheckUser(users, email, password)
    ensures AdminConfigured(env) ==> r == Login(users, env, email, password)
  {
    if AdminConfigured(env) && AdminMatch(env, email, password) then
      AdminLogin(Payload(AdminId, "admin"), Credentials(env))
    else
      CheckUser(users, email, password)
  }

  /** A user who has just registered can log in with the same email and password and gets a token for the new id. */
  lemma RegisterThenLogin(users: map<Id, User>, env: AdminEnv, body: RegisterBody, id: Id)
    requires UniqueEmails(users) && !EmailTaken(users, body.email) && id !in users
    requires !AdminMatch(env, body.email, body.password)
    ensures UniqueEmails(users[id := NewUser(body)])
    ensures Login(users[id := NewUser(body)], env, body.email, body.password)
         == UserLogin(Payload(id, NewUser(body).role), ViewOf(NewUser(body)))
  {
    InsertKeepsUnique(users, id, NewUser(body));
    var users' := users[id := NewUser(body)];
    assert id in users' && users'[id].email == body.email;
  }

  /** A token issued by a successful login, presented as a Bearer header and accepted by the verifier, resolves to that user (or to the built-in administrator). */
  lemma LoginThenProtect(users: map<Id, User>, env: AdminEnv, email: Option<string>, password: Option<string>,
                         token: string, verify: string -> Option<Payload>)
    requires UniqueEmails(users)
    requires ' ' !in token
    requires !Login(users, env, email, password).InvalidCredentials?
    requires verify(token) == Some(Login(users, env, email, password).token)
    ensures var p := Login(users, env, email, password).token;
      Protect(Some("Bearer " + token), verify, users)
      == Authorized(if p.id == AdminId then AdminPrincipal else PrincipalOf(p.id, users[p.id]))
    ensures var p := Login(users, env, email, password).token;
      p.id != AdminId ==> Protect(Some("Bearer " + token), verify, users).principal.role == p.role
  {
    BearerToken(token);
  }
}
