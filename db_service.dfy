/**
 * The user service: a table of users keyed by username, with a unique email
 * per user, behind a shared internal token. Every route first checks the
 * `x-internal-token` header against the configured token (401), then runs
 * its own rules (400 for a taken username or email, 404 for an unknown user).
 *
 * Password hashing is symbolic: a hash records its salt and the password it
 * was made from, so that a password verifies against a hash exactly when the
 * hash was made from it. Salts and RSA key pairs are random in the service;
 * here they are parameters.
 */
module DbService {
  import opened Wrappers

  type Username = string

  /** The token used when `DB_INTERNAL_TOKEN` is not set. */
  const DefaultInternalToken: string := "dev-internal-token"

  datatype HttpError = HttpError(status: nat, detail: string)

  const Unauthorized := HttpError(401, "Unauthorized: invalid internal token")
  const UsernameTaken := HttpError(400, "Username já existe")
  const EmailTaken := HttpError(400, "Email já cadastrado")
  const EmailInUse := HttpError(400, "Email já está em uso por outro usuário")
  const UserNotFound := HttpError(404, "Usuário não encontrado")

  /** A bcrypt hash, reduced to what verification needs. */
  datatype PasswordHash = Bcrypt(salt: nat, secret: string)

  /** An RSA key pair in PEM form, as generated at account creation. */
  datatype KeyPair = KeyPair(privatePem: string, publicPem: string)

  /** One row of the `users` table; `password` holds the hash. */
  datatype User = User(
    username: Username, name: string, email: string, password: PasswordHash,
    privateKey: string, publicKey: string, contacts: map<string, string>)

  datatype UserCreate = UserCreate(name: string, username: Username, email: string, password: string)

  /** The optional fields of `PUT /users/{username}`. */
  datatype UserUpdate = UserUpdate(name: Option<string>, email: Option<string>, password: Option<string>)

  datatype UserOut = UserOut(name: string, username: Username, publicKey: string)

  /** `ValidateResponse`: `ok` with the user's stored fields, or `ok=false` and nothing else. */
  datatype ValidateResponse = ValidateResponse(
    ok: bool, username: Option<Username>, name: Option<string>, email: Option<string>,
    publicKey: Option<string>, privateKey: Option<string>, contacts: Option<map<string, string>>)

  /**
   * `hash_password`: hashing `plain` with `salt`. Only the direction bcrypt
   * guarantees is promised: the password the hash was made from verifies.
   */
  function HashPassword(plain: string, salt: nat): (h: PasswordHash)
    ensures VerifyPassword(plain, h)
    ensures h.salt == salt
  {
    Bcrypt(salt, plain)
  }

  /** `verify_password`: does `plain` match the hash? */
  predicate VerifyPassword(plain: string, hashed: PasswordHash) {
    hashed.secret == plain
  }

  /** Python truthiness of an optional string field: present and not empty. */
  predicate Supplied(field: Option<string>) {
    field.Some? && field.value != ""
  }

  /** `require_internal_token`: a missing header never matches. */
  function RequireInternalToken(header: Option<string>, configured: string): (r: Outcome<HttpError>)
    ensures r == Pass <==> header == Some(configured)
    ensures r.Fail? ==> r.error.status == 401
  {
    if header != Some(configured) then Fail(Unauthorized) else Pass
  }

  /** Every row is stored under its own username. */
  ghost predicate KeyedByUsername(users: map<Username, User>) {
    forall u :: u in users ==> users[u].username == u
  }

  /** No two users share an email. */
  ghost predicate UniqueEmails(users: map<Username, User>) {
    forall a, b :: a in users && b in users && a != b ==> users[a].email != users[b].email
  }

  /** Some user has this email. */
  predicate HasEmail(users: map<Username, User>, email: string) {
    exists u :: u in users && users[u].email == email
  }

  /** Some user other than `username` has this email. */
  predicate EmailOfOther(users: map<Username, User>, email: string, username: Username) {
    exists u :: u in users && u != username && users[u].email == email
  }

  /** Replacing a record by one with the same username and an email no other user has keeps both invariants. */
  lemma ReplacePreservesInvariants(users: map<Username, User>, username: Username, user: User)
    requires KeyedByUsername(users) && UniqueEmails(users)
    requires username in users && user.username == username
    requires !EmailOfOther(users, user.email, username)
    ensures KeyedByUsername(users[username := user]) && UniqueEmails(users[username := user])
  {
  }

  class UserTable {
    /** The value of `DB_INTERNAL_TOKEN`. */
    const internalToken: string
    /** The `users` table. */
    var users: map<Username, User>

    ghost predicate Valid()
      reads this
    {
      KeyedByUsername(users) && UniqueEmails(users)
    }

    /** `env` is the value of `DB_INTERNAL_TOKEN` in the environment, if set. */
    constructor (env: Option<string>)
      ensures Valid()
      ensures internalToken == (if env.Some? then env.value else DefaultInternalToken)
      ensures users == map[]
    {
      internalToken := if env.Some? then env.value else DefaultInternalToken;
      users := map[];
    }

    /** `GET /users/{username}`: the public view of one user. */
    function GetUser(token: Option<string>, username: Username): (r: Result<UserOut, HttpError>)
      reads this
      ensures token != Some(internalToken) ==> r == Err(Unauthorized)
      ensures token == Some(internalToken) && username !in users ==> r == Err(UserNotFound)
      ensures r.Ok? <==> token == Some(internalToken) && username in users
      ensures r.Ok? ==>
        r.value == UserOut(users[username].name, username, users[username].publicKey)
    {
      if RequireInternalToken(token, internalToken).Fail? then Err(Unauthorized)
      else if username !in users then Err(UserNotFound)
      else
        var user := users[username];
        Ok(UserOut(user.name, username, user.publicKey))
    }

    /** `POST /users/validate`: credentials check; an unknown user and a wrong password look alike. */
    function ValidateUser(token: Option<string>, username: Username, password: string): (r: Result<ValidateResponse, HttpError>)
      reads this
      ensures r.Err? <==> token != Some(internalToken)
      ensures r.Err? ==> r.error == Unauthorized
      ensures r.Ok? ==>
        (r.value.ok <==> username in users && VerifyPassword(password, users[username].password))
      ensures r.Ok? && !r.value.ok ==>
        r.value == ValidateResponse(false, None, None, None, None, None, None)
      ensures r.Ok? && r.value.ok ==>
        var user := users[username];
        r.value == ValidateResponse(true, Some(username), Some(user.name), Some(user.email),
                                    Some(user.publicKey), Some(user.privateKey), Some(user.contacts))
    {
      if RequireInternalToken(token, internalToken).Fail? then Err(Unauthorized)
      else if username !in users then Ok(ValidateResponse(false, None, None, None, None, None, None))
      else
        var user := users[username];
        if !VerifyPassword(password, user.password) then
          Ok(ValidateResponse(false, None, None, None, None, None, None))
        else
          Ok(ValidateResponse(true, Some(username), Some(user.name), Some(user.email),
                              Some(user.publicKey), Some(user.privateKey), Some(user.contacts)))
    }

    /**
     * `POST /users/create`. The username is checked before the email; a new
     * row gets the hashed password, the generated keys and no contacts.
     */
    method CreateUser(token: Option<string>, data: UserCreate, salt: nat, keys: KeyPair)
      returns (r: Result<UserOut, HttpError>)
      requires Valid()
      modifies this
      ensures Valid()
      ensures token != Some(internalToken) ==> r == Err(Unauthorized)
      ensures token == Some(internalToken) && data.username in old(users) ==> r == Err(UsernameTaken)
      ensures token == Some(internalToken) && data.username !in old(users) && HasEmail(old(users), data.email) ==>
        r == Err(EmailTaken)
      ensures r.Err? ==> users == old(users)
      ensures r.Ok? ==>
        && r.value == UserOut(data.name, data.username, keys.publicPem)
        && users == old(users)[data.username := User(data.username, data.name, data.email,
             HashPassword(data.password, salt), keys.privatePem, keys.publicPem, map[])]
      ensures r.Ok? <==>
        token == Some(internalToken) && data.username !in old(users) && !HasEmail(old(users), data.email)
      ensures r.Ok? ==> GetUser(token, data.username) == Ok(r.value)
      ensures r.Ok? ==> ValidateUser(token, data.username, data.password).value.ok
    {
      if RequireInternalToken(token, internalToken).Fail? {
        return Err(Unauthorized);
      }
      if data.username in users {
        return Err(UsernameTaken);
      }
      if HasEmail(users, data.email) {
        return Err(EmailTaken);
      }
      var hashed := HashPassword(data.password, salt);
      var user := User(data.username, data.name, data.email, hashed, keys.privatePem, keys.publicPem, map[]);
      users := users[data.username := user];
      r := Ok(UserOut(user.name, user.username, user.publicKey));
    }

    /**
     * `PUT /users/{username}`. Only the supplied fields change; a new email
     * must not belong to another user; the username never changes.
     */
    method UpdateUser(token: Option<string>, username: Username, data: UserUpdate, salt: nat)
      returns (r: Outcome<HttpError>)
      requires Valid()
      modifies this
      ensures Valid()
      ensures token != Some(internalToken) ==> r == Fail(Unauthorized)
      ensures token == Some(internalToken) && username !in old(users) ==> r == Fail(UserNotFound)
      ensures (&& token == Some(internalToken) && username in old(users)
               && Supplied(data.email) && data.email.value != old(users)[username].email
               && EmailOfOther(old(users), data.email.value, username)) ==> r == Fail(EmailInUse)
      ensures r.Fail? ==> users == old(users)
      ensures r.Pass? <==>
        && token == Some(internalToken) && username in old(users)
        && !(&& Supplied(data.email) && data.email.value != old(users)[username].email
             && EmailOfOther(old(users), data.email.value, username))
      ensures r.Pass? ==>
        && username in old(users)
        && users.Keys == old(users).Keys
        && (forall u :: u in users && u != username ==> users[u] == old(users)[u])
        && var before, after := old(users)[username], users[username];
           && after.username == username
           && after.email == (if Supplied(data.email) then data.email.value else before.email)
           && after.name == (if Supplied(data.name) then data.name.value else before.name)
           && after.password == (if Supplied(data.password) then HashPassword(data.password.value, salt) else before.password)
           && after.privateKey == before.privateKey
           && after.publicKey == before.publicKey
           && after.contacts == before.contacts
      ensures r.Pass? && Supplied(data.password) ==> ValidateUser(token, username, data.password.value).value.ok
    {
      if RequireInternalToken(token, internalToken).Fail? {
        return Fail(Unauthorized);
      }
      if username !in users {
        return Fail(UserNotFound);
      }
      var user := users[username];
      if Supplied(data.email) && data.email.value != user.email {
        if EmailOfOther(users, data.email.value, username) {
          return Fail(EmailInUse);
        }
        user := user.(email := data.email.value);
      }
      if Supplied(data.name) {
        user := user.(name := data.name.value);
      }
      if Supplied(data.password) {
        user := user.(password := HashPassword(data.password.value, salt));
      }
      ReplacePreservesInvariants(users, username, user);
      users := users[username := user];
      r := Pass;
    }

    /** `DELETE /users/{username}`: removes exactly that row. */
    method DeleteUser(token: Option<string>, username: Username) returns (r: Outcome<HttpError>)
      requires Valid()
      modifies this
      ensures Valid()
      ensures token != Some(internalToken) ==> r == Fail(Unauthorized)
      ensures token == Some(internalToken) && username !in old(users) ==> r == Fail(UserNotFound)
      ensures r.Pass? <==> token == Some(internalToken) && username in old(users)
      ensures r.Fail? ==> users == old(users)
      ensures r.Pass? ==> users == old(users) - {username}
      ensures r.Pass? ==> GetUser(token, username) == Err(UserNotFound)
    {
      if RequireInternalToken(token, internalToken).Fail? {
        return Fail(Unauthorized);
      }
      if username !in users {
        return Fail(UserNotFound);
      }
      users := users - {username};
      r := Pass;
    }
  }
}
