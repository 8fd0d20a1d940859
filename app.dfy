/** The scoreboard service: an in-memory credential table and an append-only
    score ledger, the bearer-token login that guards them, and the six routes
    that read and write them.

    Foreign pieces enter as parameters: bcrypt is a `PasswordContext` of two
    function values plus the salt it would draw, `datetime.utcnow()` is an
    integer clock `now` in seconds, and the outcome of `jwt.decode` (signature
    and expiry check) is an `Option<Payload>`. */
module App {
  import opened Wrappers

  // ---------------------------------------------------------------------
  // Records (the pydantic models)
  // ---------------------------------------------------------------------

  /** A ledger entry, and also the body of POST /scores. */
  datatype Score = Score(username: string, score: int)

  /** The body of POST /register and the entries of GET /users. */
  datatype User = User(username: string, password: string)

  /** A row of the credential table. */
  datatype UserInDB = UserInDB(username: string, hashedPassword: string)

  /** The form-encoded body of POST /token (OAuth2 password grant). */
  datatype LoginForm = LoginForm(username: string, password: string)

  /** An HTTPException: status, detail message and the optional
      `WWW-Authenticate` header. */
  datatype HttpError = HttpError(status: nat, detail: string, wwwAuthenticate: Option<string>)

  const UsernameTaken := HttpError(400, "Username already registered", None)
  const BadCredentials := HttpError(400, "Incorrect username or password", Some("Bearer"))
  const Unauthorized := HttpError(401, "Could not validate credentials", Some("Bearer"))

  // ---------------------------------------------------------------------
  // Security configuration and tokens
  // ---------------------------------------------------------------------

  const SecretKey := "secret"
  const Algorithm := "HS256"
  /** Seconds per minute: times and durations are whole seconds. */
  const Minute := 60
  /** The lifetime the login route asks for. */
  const AccessTokenExpireMinutes := 30
  /** The lifetime `create_access_token` falls back to. */
  const DefaultExpireMinutes := 15

  /** A JSON value carried as a token claim. */
  datatype Claim = Text(text: string) | Number(number: int) | Null

  /** The claim set of a token. */
  type Payload = map<string, Claim>

  /** What `jwt.encode` signs: the claims, the key and the algorithm name.
      The encoding and the signature are not modelled. */
  datatype Jwt = Jwt(claims: Payload, key: string, algorithm: string)

  /** The body returned by POST /token. */
  datatype TokenResponse = TokenResponse(accessToken: Jwt, tokenType: string)

  type Salt = string

  /** The bcrypt context: `hash` is bcrypt with an explicit salt, `verify`
      compares a plaintext with a stored hash. */
  datatype PasswordContext = PasswordContext(hash: (string, Salt) -> string, verify: (string, string) -> bool)

  /** A hash always verifies against the password it was made from. */
  ghost predicate Consistent(ctx: PasswordContext)
  {
    forall password, salt :: ctx.verify(password, ctx.hash(password, salt))
  }

  /** Python truthiness of an optional `timedelta`: `None` and a zero
      duration are both false. */
  predicate Truthy(delta: Option<int>)
  {
    delta.Some? && delta.value != 0
  }

  /** create_access_token: copy `data`, set "exp" from the clock and the
      requested lifetime (15 minutes when none, or a zero one, is given),
      and sign with the server key. */
  function CreateAccessToken(data: Payload, expiresDelta: Option<int>, now: int): (token: Jwt)
    ensures token.key == SecretKey && token.algorithm == Algorithm
    ensures "exp" in token.claims
    ensures Truthy(expiresDelta) ==> token.claims["exp"] == Number(now + expiresDelta.value)
    ensures !Truthy(expiresDelta) ==> token.claims["exp"] == Number(now + DefaultExpireMinutes * Minute)
    ensures forall k :: k != "exp" ==> (k in token.claims <==> k in data)
    ensures forall k :: k != "exp" && k in data ==> token.claims[k] == data[k]
  {
    var expire := if Truthy(expiresDelta) then now + expiresDelta.value else now + DefaultExpireMinutes * Minute;
    Jwt(data["exp" := Number(expire)], SecretKey, Algorithm)
  }

  /** `payload.get("sub")` as a username: absent when the claim is missing
      or null. A non-string subject can never be a key of the credential
      table, so it is treated as absent too; both end in the same 401. */
  function Subject(payload: Payload): Option<string>
  {
    if "sub" in payload && payload["sub"].Text? then Some(payload["sub"].text) else None
  }

  // ---------------------------------------------------------------------
  // The GET /users projection
  // ---------------------------------------------------------------------

  /** The list comprehension of GET /users over the table's values, taken
      in the order of `order`: the password field carries the stored hash. */
  function Listing(order: seq<string>, db: map<string, UserInDB>): (view: seq<User>)
    requires forall k | k in order :: k in db
    ensures |view| == |order|
    ensures forall i | 0 <= i < |order| :: view[i].username == db[order[i]].username
    ensures forall i | 0 <= i < |order| :: view[i].password == db[order[i]].hashedPassword
  {
    if order == [] then []
    else [User(db[order[0]].username, db[order[0]].hashedPassword)] + Listing(order[1..], db)
  }

  ghost predicate Distinct(s: seq<string>)
  {
    forall i, j | 0 <= i < j < |s| :: s[i] != s[j]
  }

  /** A sequence without repetitions has as many elements as its set. */
  lemma {:induction false} DistinctCardinality(s: seq<string>)
    requires Distinct(s)
    ensures |set k | k in s| == |s|
  {
    if s != [] {
      assert Distinct(s[1..]) by {
        forall i, j | 0 <= i < j < |s[1..]| ensures s[1..][i] != s[1..][j] {
          assert s[1..][i] == s[i + 1] && s[1..][j] == s[j + 1];
        }
      }
      DistinctCardinality(s[1..]);
      var rest := set k | k in s[1..];
      assert (set k | k in s) == {s[0]} + rest;
      assert forall j | 0 <= j < |s[1..]| :: s[1..][j] != s[0] by {
        forall j | 0 <= j < |s[1..]| ensures s[1..][j] != s[0] {
          assert s[1..][j] == s[j + 1];
        }
      }
      assert s[0] !in rest;
    }
  }

  // ---------------------------------------------------------------------
  // The server state and its routes
  // ---------------------------------------------------------------------

  class Server {
    /** fake_users_db: username to credential row. */
    var users: map<string, UserInDB>
    /** The keys of `users` in insertion order (a Python dict keeps it). */
    var order: seq<string>
    /** scores: the ledger, oldest first. */
    var scores: seq<Score>

    /** Usernames are unique keys, each row is stored under its own
        username, and every ledger entry names a registered user. */
    ghost predicate Valid()
      reads this
    {
      && Distinct(order)
      && (forall k :: k in users <==> k in order)
      && (forall k | k in users :: users[k].username == k)
      && (forall i | 0 <= i < |scores| :: scores[i].username in users)
    }

    /** Both stores start empty. */
    constructor ()
      ensures Valid()
      ensures users == map[] && order == [] && scores == []
    {
      users := map[];
      order := [];
      scores := [];
    }

    /** POST /register: a taken username is a 400 that changes nothing;
        otherwise one row holding the salted hash is added and the request
        body, plaintext password included, is echoed back. */
    method Register(user: User, ctx: PasswordContext, salt: Salt) returns (r: Result<User, HttpError>)
      requires Valid()
      modifies this
      ensures Valid()
      ensures scores == old(scores)
      ensures user.username in old(users) ==>
        r == Failure(UsernameTaken) && users == old(users) && order == old(order)
      ensures user.username !in old(users) ==>
        && r == Success(user)
        && users == old(users)[user.username := UserInDB(user.username, ctx.hash(user.password, salt))]
        && order == old(order) + [user.username]
    {
      if user.username in users {
        return Failure(UsernameTaken);
      }
      var hashedPassword := ctx.hash(user.password, salt);
      users := users[user.username := UserInDB(user.username, hashedPassword)];
      order := order + [user.username];
      r := Success(user);
    }

    /** get_current_user: the row named by the decoded token's subject, or
        the same 401 when decoding failed, the subject is missing, or no
        row has that name. */
    function GetCurrentUser(decoded: Option<Payload>): (r: Result<UserInDB, HttpError>)
      reads this
      ensures r.Success? <==>
        decoded.Some? && Subject(decoded.value).Some? && Subject(decoded.value).value in users
      ensures r.Success? ==> r.value == users[Subject(decoded.value).value]
      ensures r.Success? && Valid() ==> r.value.username == Subject(decoded.value).value
      ensures r.Failure? ==> r.error == Unauthorized
    {
      match decoded
      case None => Failure(Unauthorized)
      case Some(payload) =>
        match Subject(payload)
        case None => Failure(Unauthorized)
        case Some(username) =>
          if username in users then Success(users[username]) else Failure(Unauthorized)
    }

    /** GET /scores: the whole ledger, oldest entry first. */
    function GetScores(): (ledger: seq<Score>)
      reads this
      ensures |ledger| == |scores|
      ensures forall i | 0 <= i < |ledger| :: ledger[i] == scores[i]
      ensures Valid() ==> forall i | 0 <= i < |ledger| :: ledger[i].username in users
    {
      scores
    }

    /** POST /scores: an authenticated caller appends one entry carrying
        their own username and the body's score (the body's username is
        ignored); an unauthenticated one gets the 401 and nothing changes.
        The credential table is never touched. */
    method PostScore(body: Score, decoded: Option<Payload>) returns (r: Result<Score, HttpError>)
      requires Valid()
      modifies this
      ensures Valid()
      ensures users == old(users) && order == old(order)
      ensures var caller := old(GetCurrentUser(decoded));
        && (caller.Failure? ==> r == Failure(Unauthorized) && scores == old(scores))
        && (caller.Success? ==>
              r == Success(Score(caller.value.username, body.score)) && scores == old(scores) + [r.value])
      ensures r.Success? ==> decoded.Some? && Subject(decoded.value) == Some(r.value.username)
      ensures GetScores() == if r.Success? then old(GetScores()) + [r.value] else old(GetScores())
    {
      var caller := GetCurrentUser(decoded);
      if caller.Failure? {
        return Failure(caller.error);
      }
      var newScore := Score(caller.value.username, body.score);
      scores := scores + [newScore];
      r := Success(newScore);
    }

    /** POST /token: a 400 exactly when the username is unknown or the
        password does not verify against the stored hash; otherwise a
        bearer token for the stored username that expires 30 minutes from
        `now`. Nothing is stored. */
    function Login(form: LoginForm, ctx: PasswordContext, now: int): (r: Result<TokenResponse, HttpError>)
      reads this
      ensures r.Failure? <==>
        form.username !in users || !ctx.verify(form.password, users[form.username].hashedPassword)
      ensures r.Failure? ==> r.error == BadCredentials
      ensures r.Success? ==>
        && r.value.tokenType == "bearer"
        && r.value.accessToken.key == SecretKey
        && r.value.accessToken.algorithm == Algorithm
        && r.value.accessToken.claims ==
             map["sub" := Text(users[form.username].username), "exp" := Number(now + AccessTokenExpireMinutes * Minute)]
    {
      if form.username !in users || !ctx.verify(form.password, users[form.username].hashedPassword) then
        Failure(BadCredentials)
      else
        var user := users[form.username];
        var token := CreateAccessToken(map["sub" := Text(user.username)], Some(AccessTokenExpireMinutes * Minute), now);
        Success(TokenResponse(token, "bearer"))
    }

    /** GET /users: one entry per registered user, in registration order,
        whose password field is that user's stored hash. */
    function GetUsers(): (view: seq<User>)
      reads this
      requires Valid()
      ensures |view| == |order| == |users|
      ensures forall i | 0 <= i < |view| :: view[i].username == order[i]
      ensures forall i | 0 <= i < |view| ::
        view[i].username in users && view[i].password == users[view[i].username].hashedPassword
      ensures forall u | u in users :: exists i :: 0 <= i < |view| && view[i].username == u
      ensures forall i, j | 0 <= i < j < |view| :: view[i].username != view[j].username
    {
      DistinctCardinality(order);
      assert (set k | k in order) == users.Keys;
      Listing(order, users)
    }
  }

  // ---------------------------------------------------------------------
  // Properties across routes
  // ---------------------------------------------------------------------

  /** A token issued by POST /token, once it decodes, authenticates the user
      who logged in. */
  lemma IssuedTokenResolves(s: Server, form: LoginForm, ctx: PasswordContext, now: int)
    requires s.Valid()
    requires s.Login(form, ctx, now).Success?
    ensures form.username in s.users
    ensures s.GetCurrentUser(Some(s.Login(form, ctx, now).value.accessToken.claims)) == Success(s.users[form.username])
    ensures s.users[form.username].username == form.username
  {
  }

  /** With a consistent bcrypt, the password a row was hashed from logs in. */
  lemma RegisteredPasswordLogsIn(s: Server, ctx: PasswordContext, username: string, password: string, salt: Salt, now: int)
    requires Consistent(ctx)
    requires username in s.users && s.users[username].hashedPassword == ctx.hash(password, salt)
    ensures s.Login(LoginForm(username, password), ctx, now).Success?
  {
  }

  /** Register "alice" with "pw123", log in, post 42: the ledger then holds
      alice's 42 (whatever username the body named) and the user listing
      shows alice with her stored hash in the password field. */
  method AliceScenario(ctx: PasswordContext, salt: Salt, now: int) returns (ledger: seq<Score>, listing: seq<User>)
    requires Consistent(ctx)
    ensures ledger == [Score("alice", 42)]
    ensures listing == [User("alice", ctx.hash("pw123", salt))]
  {
    var server := new Server();
    var registered := server.Register(User("alice", "pw123"), ctx, salt);
    RegisteredPasswordLogsIn(server, ctx, "alice", "pw123", salt, now);
    var login := server.Login(LoginForm("alice", "pw123"), ctx, now);
    IssuedTokenResolves(server, LoginForm("alice", "pw123"), ctx, now);
    var posted := server.PostScore(Score("mallory", 42), Some(login.value.accessToken.claims));
    ledger := server.GetScores();
    listing := server.GetUsers();
  }
}
