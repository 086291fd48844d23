/** The gateway's auth router: `POST /register` inserts a user into the
    `users` table, `POST /login` checks a password and signs a token. The
    password hash, the hash comparison and token signing are parameters;
    a database failure is the `fault` flag. */
module AuthRoutes {
  import opened Common

  const RequiredMessage := "Email e senha são obrigatórios."
  const DuplicateMessage := "Este email já está em uso."
  const InternalMessage := "Erro interno do servidor."
  const BadCredentialsMessage := "Credenciais inválidas."
  const LoginMessage := "Login bem-sucedido!"
  const TokenLifetime := "8h"

  /** A row of `users`: the email is unique, only the hash is stored. */
  datatype UserRow = UserRow(id: nat, email: string, passwordHash: string)

  /** The payload given to `jwt.sign`. */
  datatype TokenClaims = TokenClaims(id: nat, email: string)

  /** `{ id, email }` as the handlers send it. */
  function UserJson(id: nat, email: string): (j: Json)
    ensures j.JObj? && j.fields.Keys == {"id", "email"}
    ensures j.fields["id"] == JNum(id) && j.fields["email"] == JStr(email)
  {
    JObj(map["id" := JNum(id), "email" := JStr(email)])
  }

  /** The `users` table, keyed by the unique email column. */
  class UsersTable {
    var rows: map<string, UserRow>
    var nextId: nat

    /** Each row sits under its own email and has an id below `nextId`;
        ids are distinct. */
    ghost predicate Valid()
      reads this
    {
      && (forall e :: e in rows ==> rows[e].email == e && rows[e].id < nextId)
      && (forall e1, e2 :: e1 in rows && e2 in rows && e1 != e2 ==> rows[e1].id != rows[e2].id)
    }

    constructor ()
      ensures rows == map[] && nextId == 1 && Valid()
    {
      rows := map[];
      nextId := 1;
    }

    /** `POST /register`. */
    method Register(email: Option<string>, password: Option<string>, hash: string -> string, fault: bool)
      returns (r: Reply<Json>)
      requires Valid()
      modifies this
      ensures Valid()
      ensures !Truthy(email) || !Truthy(password) ==>
                r == Reply(400, Error(RequiredMessage)) && rows == old(rows) && nextId == old(nextId)
      ensures Truthy(email) && Truthy(password) && fault ==>
                r == Reply(500, Error(InternalMessage)) && rows == old(rows) && nextId == old(nextId)
      ensures Truthy(email) && Truthy(password) && !fault && email.value in old(rows) ==>
                r == Reply(409, Error(DuplicateMessage)) && rows == old(rows) && nextId == old(nextId)
      ensures Truthy(email) && Truthy(password) && !fault && email.value !in old(rows) ==>
                && rows == old(rows)[email.value := UserRow(old(nextId), email.value, hash(password.value))]
                && nextId == old(nextId) + 1
                && r == Reply(201, Payload(UserJson(old(nextId), email.value)))
    {
      if !Truthy(email) || !Truthy(password) {
        return Reply(400, Error(RequiredMessage));
      }
      var passwordHash := hash(password.value);
      if fault {
        return Reply(500, Error(InternalMessage));
      }
      if email.value in rows {
        return Reply(409, Error(DuplicateMessage));
      }
      var id := nextId;
      rows := rows[email.value := UserRow(id, email.value, passwordHash)];
      nextId := nextId + 1;
      r := Reply(201, Payload(UserJson(id, email.value)));
    }
  }

  /** `POST /login` over the table's rows. `compare(p, h)` is bcrypt's
      comparison; `sign(claims, secret, expiresIn)` returns the token, or
      nothing when it throws (for instance with no secret configured). */
  function LoginReply(users: map<string, UserRow>, email: Option<string>, password: Option<string>,
                      compare: (string, string) -> bool,
                      sign: (TokenClaims, Option<string>, string) -> Option<string>,
                      secret: Option<string>, fault: bool): (r: Reply<Json>)
    ensures !Truthy(email) || !Truthy(password) <==> r == Reply(400, Error(RequiredMessage))
    ensures r.status == 401 <==>
              Truthy(email) && Truthy(password) && !fault
              && (email.value !in users || !compare(password.value, users[email.value].passwordHash))
    ensures r.status == 401 ==> r == Reply(401, Error(BadCredentialsMessage))
    ensures r.status == 200 ==>
              && Truthy(email) && Truthy(password) && !fault && email.value in users
              && compare(password.value, users[email.value].passwordHash)
              && var u := users[email.value];
                 var token := sign(TokenClaims(u.id, u.email), secret, TokenLifetime);
                 && token.Some?
                 && r.body == Payload(JObj(map["message" := JStr(LoginMessage), "token" := JStr(token.value),
                                               "user" := UserJson(u.id, u.email)]))
    ensures r.status in {200, 400, 401, 500}
  {
    if !Truthy(email) || !Truthy(password) then Reply(400, Error(RequiredMessage))
    else if fault then Reply(500, Error(InternalMessage))
    else if email.value !in users then Reply(401, Error(BadCredentialsMessage))
    else
      var u := users[email.value];
      if !compare(password.value, u.passwordHash) then Reply(401, Error(BadCredentialsMessage))
      else match sign(TokenClaims(u.id, u.email), secret, TokenLifetime)
        case None => Reply(500, Error(InternalMessage))
        case Some(token) =>
          Reply(200, Payload(JObj(map["message" := JStr(LoginMessage), "token" := JStr(token),
                                      "user" := UserJson(u.id, u.email)])))
  }

  /** An unknown email and a wrong password for a known one get the same
      answer, so the reply does not reveal which emails are registered. */
  lemma UnknownEmailLooksLikeWrongPassword(users: map<string, UserRow>, email: string, password: string,
                                          other: string,
                                          compare: (string, string) -> bool,
                                          sign: (TokenClaims, Option<string>, string) -> Option<string>,
                                          secret: Option<string>)
    requires email != "" && password != "" && other != ""
    requires email !in users
    requires other in users && !compare(password, users[other].passwordHash)
    ensures LoginReply(users, Some(email), Some(password), compare, sign, secret, false)
         == LoginReply(users, Some(other), Some(password), compare, sign, secret, false)
  {
  }

  /** A missing field is answered before the table is read: the reply does
      not depend on the table, the database or the oracles. */
  lemma MissingFieldNeedsNoTable(users1: map<string, UserRow>, users2: map<string, UserRow>,
                                 email: Option<string>, password: Option<string>,
                                 compare1: (string, string) -> bool, compare2: (string, string) -> bool,
                                 sign1: (TokenClaims, Option<string>, string) -> Option<string>,
                                 sign2: (TokenClaims, Option<string>, string) -> Option<string>,
                                 secret: Option<string>, fault1: bool, fault2: bool)
    requires !Truthy(email) || !Truthy(password)
    ensures LoginReply(users1, email, password, compare1, sign1, secret, fault1)
         == LoginReply(users2, email, password, compare2, sign2, secret, fault2)
  {
  }

  /** A user registered with password `p` can log in with `p`, provided the
      hash comparison accepts `p` against `hash(p)` and signing succeeds. */
  lemma RegisteredUserCanLogIn(users: map<string, UserRow>, id: nat, email: string, p: string,
                               hash: string -> string, compare: (string, string) -> bool,
                               sign: (TokenClaims, Option<string>, string) -> Option<string>,
                               secret: Option<string>)
    requires email != "" && p != ""
    requires compare(p, hash(p))
    requires sign(TokenClaims(id, email), secret, TokenLifetime).Some?
    ensures var r := LoginReply(users[email := UserRow(id, email, hash(p))], Some(email), Some(p),
                                compare, sign, secret, false);
            && r.status == 200
            && r.body.Payload? && r.body.value.JObj? && r.body.value.fields["user"] == UserJson(id, email)
  {
  }

  /** Registration followed by login with the same password, on one table. */
  method RegisterThenLogin(t: UsersTable, email: string, p: string,
                           hash: string -> string, compare: (string, string) -> bool,
                           sign: (TokenClaims, Option<string>, string) -> Option<string>,
                           secret: Option<string>)
    returns (registered: Reply<Json>, login: Reply<Json>)
    requires t.Valid() && email != "" && p != "" && email !in t.rows
    requires compare(p, hash(p))
    requires sign(TokenClaims(t.nextId, email), secret, TokenLifetime).Some?
    modifies t
    ensures registered.status == 201 && login.status == 200
  {
    ghost var id := t.nextId;
    registered := t.Register(Some(email), Some(p), hash, false);
    RegisteredUserCanLogIn(old(t.rows), id, email, p, hash, compare, sign, secret);
    login := LoginReply(t.rows, Some(email), Some(p), compare, sign, secret, false);
  }
}
