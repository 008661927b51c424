/** The mounted user routes (app/api/users.py): registration, login, match
    start, score submission with its inline token check, and the profile. */
module UsersApi {
  import opened Wrappers
  import opened Firestore
  import opened Jwt
  import opened UserModel
  import opened UserSchemas
  import ScoreService

  const MsgTaken := "Este nombre de usuario ya está registrado."
  const MsgNoUser := "Usuario no encontrado."
  const MsgBadPassword := "Contraseña incorrecta."
  const MsgNotFound := "Usuario no encontrado"
  const MsgMissingToken := "Falta el token de partida. ¿Hiciste Start Game?"
  const MsgLoggedIn := "Autenticación exitosa"

  /** `POST /users/register`: refused with 400 when some user document has
      this username; otherwise a new user (active, score 0) with the given
      password hash is stored under the username as document id. */
  method RegisterUser(db: Database, data: UserCreate, hashedPwd: string) returns (r: Result<UserOut, Failure>)
    modifies db
    ensures db.scores == old(db.scores) && db.events == old(db.events)
    ensures UsernameTaken(old(db.users), data.username) ==>
              r == Err(Http(400, MsgTaken)) && db.users == old(db.users)
    ensures !UsernameTaken(old(db.users), data.username) ==>
              && db.users == old(db.users)[data.username := ToDict(NewUser(Some(data.username), Some(hashedPwd)))]
              && r == Ok(UserOut(data.username, true, 0))
  {
    if UsernameTaken(db.users, data.username) {
      return Err(Http(400, MsgTaken));
    }
    var newUser := NewUser(Some(data.username), Some(hashedPwd));
    db.users := db.users[data.username := ToDict(newUser)];
    r := ToUserOut(newUser);
  }

  /** The stored document of a new registration reads back as an active user
      with score 0 and the hash that was given. */
  lemma RegisteredUserReadsBack(name: string, hashedPwd: string)
    ensures FromDict(ToDict(NewUser(Some(name), Some(hashedPwd)))) == User(Some(name), Some(hashedPwd), true, 0)
  {
    FromDictToDict(NewUser(Some(name), Some(hashedPwd)));
  }

  datatype LoginOk = LoginOk(mensaje: string, username: string)

  /** `POST /users/login`: 401 for an unknown document id, a crash (KeyError)
      for a document without a hash, 401 for a wrong password; `verify` is the
      password check. */
  function Login(users: map<string, Doc>, data: UserCreate, verify: (string, Value) -> bool)
    : (r: Result<LoginOk, Failure>)
    ensures data.username !in users ==> r == Err(Http(401, MsgNoUser))
    ensures r.Ok? <==> data.username in users && "hashed_password" in users[data.username]
                       && verify(data.password, users[data.username]["hashed_password"])
    ensures r.Ok? ==> r.value == LoginOk(MsgLoggedIn, data.username)
    ensures data.username in users && "hashed_password" in users[data.username] && r.Err?
            ==> r.error == Http(401, MsgBadPassword)
    ensures data.username in users && "hashed_password" !in users[data.username] ==> r.Err? && r.error.Crash?
  {
    if data.username !in users then Err(Http(401, MsgNoUser))
    else if "hashed_password" !in users[data.username] then Err(Crash("KeyError: 'hashed_password'"))
    else if !verify(data.password, users[data.username]["hashed_password"]) then Err(Http(401, MsgBadPassword))
    else Ok(LoginOk(MsgLoggedIn, data.username))
  }

  /** `POST /users/{username}/start-game`: 404 for an unknown user, otherwise
      a token for that user, of type game session, expiring ten minutes on. */
  function StartGame(users: map<string, Doc>, username: string, now: int): (r: Result<GameToken, Failure>)
    ensures username !in users ==> r == Err(Http(404, MsgNotFound))
    ensures username in users ==> r.Ok? && r.value.Signed? && r.value.verifies
    ensures r.Ok? ==> r.value.claims == Claims(Some(username), Some("game_session"), Some(now + 600))
  {
    if username !in users then Err(Http(404, MsgNotFound))
    else
      var payload := Claims(Some(username), Some("game_session"), Some(now + 600));
      Ok(Encode(payload))
  }

  /** The route's inline token check: a missing or empty token is refused
      before anything is decoded; then decoding, subject and type are checked
      as in the service. */
  function CheckToken(token: Option<GameToken>, username: string, now: int): (r: Outcome<Failure>)
    ensures token == None || token == Some(Blank) ==> r == Fail(Http(403, MsgMissingToken))
  {
    if token.None? || token.value.Blank? then Fail(Http(403, MsgMissingToken))
    else
      match Decode(token, now)
      case Expired => Fail(Http(403, ScoreService.MsgExpired))
      case Invalid => Fail(Http(403, ScoreService.MsgTampered))
      case Valid(c) =>
        if c.sub != Some(username) then Fail(Http(403, ScoreService.MsgNotOwner))
        else if c.kind != Some("game_session") then Fail(Http(403, ScoreService.MsgWrongType))
        else Pass
  }

  /** The route and the service agree on every present, non-empty token; they
      differ only where the route reports a missing token and the service a
      tampered one. */
  lemma CheckTokenMatchesService(token: Option<GameToken>, username: string, now: int)
    ensures token != None && token != Some(Blank) ==>
              CheckToken(token, username, now) == ScoreService.ValidateGameToken(token, username, now)
    ensures token == None || token == Some(Blank) ==>
              && CheckToken(token, username, now) == Fail(Http(403, MsgMissingToken))
              && ScoreService.ValidateGameToken(token, username, now) == Fail(Http(403, ScoreService.MsgTampered))
  {
  }

  /** A token from `start-game` passes the route's check for its user until it
      expires. */
  lemma StartedGameTokenAccepted(users: map<string, Doc>, username: string, issued: int, now: int)
    requires username in users
    requires issued <= now < issued + 600
    ensures CheckToken(Some(StartGame(users, username, issued).value), username, now) == Pass
  {
  }

  /** The route's score: base points chosen by an if-chain, minus time and
      damage penalties, raised to 0 when negative. */
  function RouteScore(stats: ScoreSubmission): (r: int)
    ensures r >= 0
  {
    var puntosBase :=
      if stats.nivelAlcanzado == 1 then 1000
      else if stats.nivelAlcanzado == 2 then 3000
      else if stats.nivelAlcanzado == 3 then 6000
      else 0;
    var scoreFinal := puntosBase - stats.tiempoSegundos * 2 - stats.danoRecibido * 5;
    if scoreFinal < 0 then 0 else scoreFinal
  }

  /** The route's formula is the service's `calculate_score`, applied to the
      reported time: the route has no anti-cheat substitution. */
  lemma RouteScoreIsServiceFormula(stats: ScoreSubmission)
    ensures RouteScore(stats) == ScoreService.CalculateScore(stats)
  {
  }

  /** The missing sanity check is observable: level 3 reported in 10 s scores
      5980 on the route and 5880 in the service. */
  lemma RouteSkipsSanityCheck(token: Option<GameToken>)
    ensures RouteScore(ScoreSubmission(10, 0, 3, token)) == 5980
    ensures ScoreService.CalculateScore(ScoreService.SanityCheck(ScoreSubmission(10, 0, 3, token))) == 5880
  {
  }

  /** The user store after the route's update: the stored best is replaced by
      the score only when the document exists and the score beats it. */
  function RouteBestUpdated(users: map<string, Doc>, username: string, score: int): (r: map<string, Doc>)
    requires username in users ==> ScoreIsNumber(users[username])
    ensures r.Keys == users.Keys
    ensures forall k | k in users && k != username :: r[k] == users[k]
    ensures username in users ==> ScoreIsNumber(r[username]) && r[username] - {"score"} == users[username] - {"score"}
    ensures username in users ==>
      StoredScore(r[username]) == if score > StoredScore(users[username]) then score else StoredScore(users[username])
  {
    if username in users && score > StoredScore(users[username])
    then users[username := users[username]["score" := Int(score)]]
    else users
  }

  /** `POST /users/{username}/submit-score`: a refused token changes nothing;
      an accepted one writes exactly one score document and reports the
      match score as the current best, with a new record exactly when the
      user document exists and the score beats its stored best. */
  method SubmitScore(db: Database, username: string, stats: ScoreSubmission, now: int)
    returns (r: Result<ScoreService.ScoreResponse, Failure>)
    requires username in db.users ==> ScoreIsNumber(db.users[username])
    modifies db
    ensures db.events == old(db.events)
    ensures CheckToken(stats.gameToken, username, now).Fail? ==>
      && r == Err(CheckToken(stats.gameToken, username, now).error)
      && db.users == old(db.users) && db.scores == old(db.scores)
    ensures CheckToken(stats.gameToken, username, now).Pass? ==>
      var score := RouteScore(stats);
      var record := username in old(db.users) && score > StoredScore(old(db.users)[username]);
      && db.scores == old(db.scores) + [ScoreService.ScoreRecord(username, score, stats.nivelAlcanzado, now)]
      && db.users == RouteBestUpdated(old(db.users), username, score)
      && r == Ok(ScoreService.ScoreResponse(score, record, score))
  {
    var check := CheckToken(stats.gameToken, username, now);
    if check.Fail? {
      return Err(check.error);
    }
    var scoreFinal := RouteScore(stats);
    db.scores := db.scores + [ScoreService.ScoreRecord(username, scoreFinal, stats.nivelAlcanzado, now)];
    var tituloRecord := false;
    if username in db.users {
      var currentBest := StoredScore(db.users[username]);
      if scoreFinal > currentBest {
        db.users := db.users[username := db.users[username]["score" := Int(scoreFinal)]];
        tituloRecord := true;
      }
    }
    r := Ok(ScoreService.ScoreResponse(scoreFinal, tituloRecord, scoreFinal));
  }

  const UserOutFields: set<string> := {"username", "is_active", "score"}

  /** `GET /users/{username}`: 404 for an unknown document id; the stored
      document filtered to `UserOut`, which fails response validation unless
      it holds a name, a flag and a score of the right types. */
  function GetUserProfile(users: map<string, Doc>, username: string): (r: Result<UserOut, Failure>)
    ensures username !in users ==> r == Err(Http(404, MsgNotFound))
    ensures r.Ok? ==> username in users
                      && UserOutFields <= users[username].Keys
                      && users[username]["username"] == Str(r.value.username)
                      && users[username]["is_active"] == Bool(r.value.isActive)
                      && users[username]["score"] == Int(r.value.score)
    ensures username in users && r.Err? ==> r.error.Crash?
    ensures (&& username in users && UserOutFields <= users[username].Keys && users[username]["username"].Str?
             && users[username]["is_active"].Bool? && users[username]["score"].Int?) ==> r.Ok?
  {
    if username !in users then Err(Http(404, MsgNotFound))
    else
      var d := users[username];
      if "username" in d && d["username"].Str? && "is_active" in d && d["is_active"].Bool?
         && "score" in d && d["score"].Int?
      then Ok(UserOut(d["username"].s, d["is_active"].b, d["score"].i))
      else Err(Crash("ResponseValidationError"))
  }

  /** A registered user's profile is its name, active, score 0. */
  lemma RegisteredProfile(users: map<string, Doc>, name: string, hashedPwd: string)
    ensures GetUserProfile(users[name := ToDict(NewUser(Some(name), Some(hashedPwd)))], name)
            == Ok(UserOut(name, true, 0))
  {
  }
}
