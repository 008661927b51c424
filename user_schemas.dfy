/** The request and response records of the user API (app/schemas/user.py). */
module UserSchemas {
  import opened Wrappers
  import opened Jwt
  import opened UserModel

  /** Registration or login data: both fields are required. */
  datatype UserCreate = UserCreate(username: string, password: string)

  /** The public data of a user sent to the client. */
  datatype UserOut = UserOut(username: string, isActive: bool, score: int)

  /** The statistics sent at the end of a match. The level is any integer
      ("1, 2 o 3" is only a comment in the schema); the token is optional. */
  datatype ScoreSubmission = ScoreSubmission(tiempoSegundos: int, danoRecibido: int,
                                             nivelAlcanzado: int, gameToken: Option<GameToken>)

  /** A formatted timestamp: `None` stands for the text "N/A". */
  type Fecha = Option<int>

  /** One entry of a user's score history. */
  datatype ScoreHistoryItem = ScoreHistoryItem(score: int, nivel: int, fecha: Fecha)

  /** `UserOut` extended with the game count and the recent history. */
  datatype UserProfileOut = UserProfileOut(user: UserOut, totalGames: int,
                                           history: seq<ScoreHistoryItem>)

  /** A submission as the schema builds it when `game_token` is not sent. */
  function NewScoreSubmission(tiempo: int, dano: int, nivel: int,
                              gameToken: Option<GameToken> := None): (s: ScoreSubmission)
    ensures s.tiempoSegundos == tiempo && s.danoRecibido == dano && s.nivelAlcanzado == nivel
    ensures s.gameToken == gameToken
  {
    ScoreSubmission(tiempo, dano, nivel, gameToken)
  }

  /** A profile as the schema builds it when no history is given. */
  function NewUserProfileOut(user: UserOut, totalGames: int,
                             history: seq<ScoreHistoryItem> := []): (p: UserProfileOut)
    ensures p.user == user && p.totalGames == totalGames && p.history == history
  {
    UserProfileOut(user, totalGames, history)
  }

  /** Building a `UserOut` from a `User`'s attributes (`from_attributes`): the
      password hash is dropped, and a user without a name fails response
      validation. */
  function ToUserOut(u: User): (r: Result<UserOut, Failure>)
    ensures r.Ok? <==> u.username.Some?
    ensures r.Ok? ==> r.value == UserOut(u.username.value, u.isActive, u.score)
    ensures r.Err? ==> r.error.Crash?
  {
    match u.username
    case Some(name) => Ok(UserOut(name, u.isActive, u.score))
    case None => Err(Crash("ResponseValidationError"))
  }

  /** The defaults: a submission built without a token carries none, whatever
      its level, and a profile built without a history has an empty one. */
  lemma SchemaDefaults(tiempo: int, dano: int, nivel: int, user: UserOut, total: int)
    ensures NewScoreSubmission(tiempo, dano, nivel).gameToken == None
    ensures NewUserProfileOut(user, total).history == []
  {
  }

  /** A freshly created user is presented with its name, active, and score 0. */
  lemma NewUserOut(name: string, hash: string)
    ensures ToUserOut(NewUser(Some(name), Some(hash))) == Ok(UserOut(name, true, 0))
  {
  }
}
