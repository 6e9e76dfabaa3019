/** The signup and login handlers over the stored user collection. Password hashing,
    hash comparison, token signing and the email syntax check are library calls, given
    here as functions. */
module AuthController {
  import opened Util
  import opened Models

  /** The claims a token is signed over: the user's id, and its lifetime in seconds. */
  datatype Claims = Claims(id: ObjectId, expiresIn: nat)

  /** Twenty-four hours. */
  const TOKEN_LIFETIME: nat := 86400

  /** The user as the handlers send it back: there is no password field. */
  datatype PublicUser = PublicUser(id: ObjectId, email: string, name: string, currency: string)

  datatype AuthBody = AuthBody(user: PublicUser, token: string)

  /** Why a signup or login threw; the reply carries the thrown error's own message. */
  datatype Failure = MissingPassword | RejectedFields | DuplicateEmail

  ghost predicate UniqueEmails(users: seq<UserDoc>)
  {
    forall i, j :: 0 <= i < j < |users| ==> users[i].email != users[j].email
  }

  /** Selects the user stored under an email. */
  function WithEmail(email: string): UserDoc -> bool
  {
    (u: UserDoc) => u.email == email
  }

  /** The document the schema builds for a signup: the hashed password, and currency "USD"
      when none (or an empty one) is sent. */
  function Candidate(nextId: nat, email: string, password: string, name: Option<string>, currency: Option<string>,
                     hash: string -> string, isEmail: string -> bool): (c: Option<UserDoc>)
    ensures c.Some? ==> (c.value.id == ObjectId(nextId) && c.value.email == NormalEmail(email)
      && c.value.password == Trim(hash(password)) && c.value.currency != "")
  {
    NewUser(ObjectId(nextId), email, hash(password), name, Some(OrDefault(currency, "USD")), isEmail)
  }

  /** Without a currency, or with an empty one, the document's currency is "USD". */
  lemma CandidateDefaultsCurrency(nextId: nat, email: string, password: string, name: Option<string>, currency: Option<string>,
                                  hash: string -> string, isEmail: string -> bool)
    requires !Truthy(currency) && Candidate(nextId, email, password, name, currency, hash, isEmail).Some?
    ensures Candidate(nextId, email, password, name, currency, hash, isEmail).value.currency == "USD"
  {
    assert Some(OrDefault(currency, "USD")) == Some("USD");
  }

  /** Storing a schema-built document: 400 when it was rejected or its email is taken (the
      unique index), otherwise it is appended and answered with 201, the public user and a token. */
  function Register(users: seq<UserDoc>, candidate: Option<UserDoc>, sign: Claims -> string, describe: Failure -> string)
    : (r: (Response<AuthBody>, seq<UserDoc>))
    ensures candidate.None? ==> r == (BadRequest(describe(RejectedFields)), users)
    ensures candidate.Some? && (exists i :: 0 <= i < |users| && users[i].email == candidate.value.email) ==>
      r == (BadRequest(describe(DuplicateEmail)), users)
    ensures r.0.Created? <==> candidate.Some? && forall i :: 0 <= i < |users| ==> users[i].email != candidate.value.email
    ensures r.0.Created? ==> (r.1 == users + [candidate.value]
      && r.0.body == AuthBody(PublicUser(candidate.value.id, candidate.value.email, candidate.value.name, candidate.value.currency),
                              sign(Claims(candidate.value.id, TOKEN_LIFETIME))))
  {
    if candidate.None? then (BadRequest(describe(RejectedFields)), users)
    else if FirstIndex(WithEmail(candidate.value.email), users).Some? then (BadRequest(describe(DuplicateEmail)), users)
    else
      var u := candidate.value;
      (Created(AuthBody(PublicUser(u.id, u.email, u.name, u.currency), sign(Claims(u.id, TOKEN_LIFETIME)))), users + [u])
  }

  /** signup: with no password the hashing throws and the answer is 400; otherwise the
      schema-built document is registered. */
  function Signup(users: seq<UserDoc>, nextId: nat, email: string, password: Option<string>, name: Option<string>,
                  currency: Option<string>, hash: string -> string, isEmail: string -> bool,
                  sign: Claims -> string, describe: Failure -> string): (r: (Response<AuthBody>, seq<UserDoc>))
    ensures password.None? ==> r == (BadRequest(describe(MissingPassword)), users)
    ensures password.Some? ==> r == Register(users, Candidate(nextId, email, password.value, name, currency, hash, isEmail), sign, describe)
    ensures r.0.Created? || (r.0.BadRequest? && r.1 == users)
  {
    if password.None? then (BadRequest(describe(MissingPassword)), users)
    else Register(users, Candidate(nextId, email, password.value, name, currency, hash, isEmail), sign, describe)
  }

  /** A signup without a currency, or with an empty one, stores and answers "USD". */
  lemma SignupDefaultsCurrency(users: seq<UserDoc>, nextId: nat, email: string, password: Option<string>, name: Option<string>,
                               currency: Option<string>, hash: string -> string, isEmail: string -> bool,
                               sign: Claims -> string, describe: Failure -> string)
    requires !Truthy(currency)
    requires Signup(users, nextId, email, password, name, currency, hash, isEmail, sign, describe).0.Created?
    ensures Signup(users, nextId, email, password, name, currency, hash, isEmail, sign, describe).0.body.user.currency == "USD"
  {
    CandidateDefaultsCurrency(nextId, email, password.value, name, currency, hash, isEmail);
  }

  /** login: 401 with one and the same message for an unknown email and for a wrong password;
      otherwise 200 with the public user (name defaulting to "", currency to "USD") and a
      token. A missing password makes the comparison throw: 500. */
  function Login(users: seq<UserDoc>, email: string, password: Option<string>, compare: (string, string) -> bool,
                 sign: Claims -> string, describe: Failure -> string): (r: Response<AuthBody>)
    ensures (forall i :: 0 <= i < |users| ==> users[i].email != NormalEmail(email)) ==> r == Unauthorized("Invalid email or password")
    ensures r.Ok? || r == Unauthorized("Invalid email or password") || r == ServerError(describe(MissingPassword))
    ensures (password.Some? && exists i :: (0 <= i < |users| && users[i].email == NormalEmail(email)
      && (forall j :: 0 <= j < i ==> users[j].email != NormalEmail(email))
      && !compare(password.value, users[i].password))) ==> r == Unauthorized("Invalid email or password")
    ensures password.None? && (exists i :: 0 <= i < |users| && users[i].email == NormalEmail(email)) ==>
      r == ServerError(describe(MissingPassword))
    ensures r.Ok? ==> password.Some? && exists i :: (0 <= i < |users| && users[i].email == NormalEmail(email)
      && compare(password.value, users[i].password)
      && r.body == AuthBody(PublicUser(users[i].id, users[i].email, users[i].name, OrDefault(Some(users[i].currency), "USD")),
                            sign(Claims(users[i].id, TOKEN_LIFETIME))))
    ensures r.Ok? <==> exists i :: (0 <= i < |users| && users[i].email == NormalEmail(email)
      && (forall j :: 0 <= j < i ==> users[j].email != NormalEmail(email))
      && password.Some? && compare(password.value, users[i].password))
  {
    var found := FirstIndex(WithEmail(NormalEmail(email)), users);
    if found.None? then Unauthorized("Invalid email or password")
    else
      var u := users[found.value];
      if password.None? then ServerError(describe(MissingPassword))
      else if !compare(password.value, u.password) then Unauthorized("Invalid email or password")
      else Ok(AuthBody(PublicUser(u.id, u.email, u.name, OrDefault(Some(u.currency), "USD")),
                       sign(Claims(u.id, TOKEN_LIFETIME))))
  }

  /** Logging in right after registering a document under the email being logged in with,
      with a hash comparison that accepts the password against the stored one, answers the
      same user and token that the registration did. */
  lemma {:induction false} RegisterThenLogin(users: seq<UserDoc>, candidate: Option<UserDoc>, email: string, pw: string,
                          compare: (string, string) -> bool, sign: Claims -> string, describe: Failure -> string)
    requires Register(users, candidate, sign, describe).0.Created?
    requires candidate.value.email == NormalEmail(email) && candidate.value.currency != ""
    requires compare(pw, candidate.value.password)
    ensures Login(Register(users, candidate, sign, describe).1, email, Some(pw), compare, sign, describe)
      == Ok(Register(users, candidate, sign, describe).0.body)
  {
    var after := users + [candidate.value];
    assert WithEmail(NormalEmail(email))(after[|users|]);
  }

  /** With a hash comparison that accepts a password against its own hash, logging in right
      after signing up answers the same user and token that the signup did. */
  lemma SignupThenLogin(users: seq<UserDoc>, nextId: nat, email: string, pw: string, name: Option<string>,
                        currency: Option<string>, hash: string -> string, isEmail: string -> bool,
                        compare: (string, string) -> bool, sign: Claims -> string, describe: Failure -> string)
    requires Signup(users, nextId, email, Some(pw), name, currency, hash, isEmail, sign, describe).0.Created?
    requires compare(pw, Trim(hash(pw)))
    ensures var r := Signup(users, nextId, email, Some(pw), name, currency, hash, isEmail, sign, describe);
      Login(r.1, email, Some(pw), compare, sign, describe) == Ok(r.0.body)
  {
    RegisterThenLogin(users, Candidate(nextId, email, pw, name, currency, hash, isEmail), email, pw, compare, sign, describe);
  }

  /** Registering keeps emails unique, and ids below the counter once it has moved past the new one. */
  lemma RegisterKeepsValid(users: seq<UserDoc>, nextId: nat, candidate: Option<UserDoc>, sign: Claims -> string, describe: Failure -> string)
    requires UniqueEmails(users) && forall i :: 0 <= i < |users| ==> users[i].id.value < nextId
    requires candidate.Some? ==> candidate.value.id == ObjectId(nextId)
    ensures var r := Register(users, candidate, sign, describe);
      UniqueEmails(r.1) && forall i :: 0 <= i < |r.1| ==> r.1[i].id.value < if r.0.Created? then nextId + 1 else nextId
  {
    var r := Register(users, candidate, sign, describe);
    if r.0.Created? {
      assert r.1 == users + [candidate.value];
    }
  }

  /** A signup keeps the store's invariant, with the counter moved past a stored user. */
  lemma SignupKeepsValid(users: seq<UserDoc>, nextId: nat, email: string, password: Option<string>, name: Option<string>,
                         currency: Option<string>, hash: string -> string, isEmail: string -> bool,
                         sign: Claims -> string, describe: Failure -> string)
    requires UniqueEmails(users) && forall i :: 0 <= i < |users| ==> users[i].id.value < nextId
    ensures var r := Signup(users, nextId, email, password, name, currency, hash, isEmail, sign, describe);
      UniqueEmails(r.1) && forall i :: 0 <= i < |r.1| ==> r.1[i].id.value < if r.0.Created? then nextId + 1 else nextId
  {
    if password.Some? {
      RegisterKeepsValid(users, nextId, Candidate(nextId, email, password.value, name, currency, hash, isEmail), sign, describe);
    }
  }

  /** The stored user collection. */
  class UserStore {
    var users: seq<UserDoc>
    var nextId: nat

    ghost predicate Valid()
      reads this
    {
      UniqueEmails(users) && forall i :: 0 <= i < |users| ==> users[i].id.value < nextId
    }

    constructor ()
      ensures Valid() && users == []
    {
      users := [];
      nextId := 0;
    }

    /** Runs a signup against the store: the store becomes what the signup decided. */
    method SignupRequest(email: string, password: Option<string>, name: Option<string>, currency: Option<string>,
                         hash: string -> string, isEmail: string -> bool, sign: Claims -> string, describe: Failure -> string)
      returns (r: Response<AuthBody>)
      requires Valid()
      modifies this
      ensures Valid()
      ensures r == Signup(old(users), old(nextId), email, password, name, currency, hash, isEmail, sign, describe).0
      ensures users == Signup(old(users), old(nextId), email, password, name, currency, hash, isEmail, sign, describe).1
      ensures nextId == if r.Created? then old(nextId) + 1 else old(nextId)
    {
      var result := Signup(users, nextId, email, password, name, currency, hash, isEmail, sign, describe);
      SignupKeepsValid(users, nextId, email, password, name, currency, hash, isEmail, sign, describe);
      r := result.0;
      users, nextId := result.1, if r.Created? then nextId + 1 else nextId;
    }

    /** Runs a login against the store, which it does not change. */
    method LoginRequest(email: string, password: Option<string>, compare: (string, string) -> bool,
                        sign: Claims -> string, describe: Failure -> string) returns (r: Response<AuthBody>)
      ensures r == Login(users, email, password, compare, sign, describe)
      ensures r.Ok? ==> Status(r) == 200
    {
      r := Login(users, email, password, compare, sign, describe);
    }
  }
}
