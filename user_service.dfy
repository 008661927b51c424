/** The refactored user service (app/services/user_service.py):
    registration, authentication and the profile with its recent history. */
module UserService {
  import opened Wrappers
  import opened Firestore
  import opened UserModel
  import opened UserSchemas
  import opened TimeOrder

  const MsgTaken := "Este nombre de usuario ya está registrado."
  const MsgNoUser := "Usuario no encontrado."
  const MsgBadPassword := "Contraseña incorrecta."
  const MsgNotFound := "Usuario no encontrado"

  /** How many games the profile lists. */
  const HistoryLength := 5

  /** `register_user`: refused with 400 when some user document has this
      username; otherwise the new `User` (default flag and score) is stored
      under the username and returned. */
  method RegisterUser(db: Database, data: UserCreate, hashedPwd: string) returns (r: Result<User, Failure>)
    modifies db
    ensures db.scores == old(db.scores) && db.events == old(db.events)
    ensures UsernameTaken(old(db.users), data.username) ==>
              r == Err(Http(400, MsgTaken)) && db.users == old(db.users)
    ensures !UsernameTaken(old(db.users), data.username) ==>
              && r == Ok(User(Some(data.username), Some(hashedPwd), true, 0))
              && db.users == old(db.users)[data.username := ToDict(r.value)]
  {
    if UsernameTaken(db.users, data.username) {
      return Err(Http(400, MsgTaken));
    }
    var newUser := NewUser(Some(data.username), Some(hashedPwd));
    db.users := db.users[data.username := ToDict(newUser)];
    r := Ok(newUser);
  }

  /** `authenticate_user`: 401 for an unknown document id, a crash (KeyError)
      for a document without a hash, 401 when `verify` rejects the password;
      otherwise the stored document itself. */
  function AuthenticateUser(users: map<string, Doc>, data: UserCreate, verify: (string, Value) -> bool)
    : (r: Result<Doc, Failure>)
    ensures data.username !in users ==> r == Err(Http(401, MsgNoUser))
    ensures r.Ok? <==> data.username in users && "hashed_password" in users[data.username]
                       && verify(data.password, users[data.username]["hashed_password"])
    ensures r.Ok? ==> r.value == users[data.username]
    ensures data.username in users && "hashed_password" in users[data.username] && r.Err?
            ==> r.error == Http(401, MsgBadPassword)
    ensures data.username in users && "hashed_password" !in users[data.username] ==> r.Err? && r.error.Crash?
  {
    if data.username !in users then Err(Http(401, MsgNoUser))
    else
      var userDataDb := users[data.username];
      if "hashed_password" !in userDataDb then Err(Crash("KeyError: 'hashed_password'"))
      else if !verify(data.password, userDataDb["hashed_password"]) then Err(Http(401, MsgBadPassword))
      else Ok(userDataDb)
  }

  /** A history entry while it still carries its sort key `_dt`. */
  datatype Entry = Entry(item: ScoreHistoryItem, dt: Option<int>)

  function Dt(e: Entry): Option<int> { e.dt }

  /** The entry built from a score document: score (default 0), level
      (default 1), the formatted date, and the raw timestamp as sort key. */
  function EntryOf(d: ScoreDoc): (e: Entry)
    ensures e.item == ScoreHistoryItem(ScoreOf(d), NivelOf(d), d.timestamp) && e.dt == d.timestamp
  {
    Entry(ScoreHistoryItem(ScoreOf(d), NivelOf(d), d.timestamp), d.timestamp)
  }

  function Entries(stream: seq<ScoreDoc>): (r: seq<Entry>)
    ensures |r| == |stream| && forall j | 0 <= j < |stream| :: r[j] == EntryOf(stream[j])
  {
    seq(|stream|, j requires 0 <= j < |stream| => EntryOf(stream[j]))
  }

  /** Sorting on the raw key compares timestamps with each other only: with two
      or more entries, a missing one makes the sort raise a TypeError. */
  predicate SortKeysComparable(entries: seq<Entry>) {
    |entries| <= 1 || forall j | 0 <= j < |entries| :: entries[j].dt.Some?
  }

  /** `del h["_dt"]` on every kept entry. */
  function Items(entries: seq<Entry>): (r: seq<ScoreHistoryItem>)
    ensures |r| == |entries| && forall j | 0 <= j < |entries| :: r[j] == entries[j].item
  {
    seq(|entries|, j requires 0 <= j < |entries| => entries[j].item)
  }

  function Min(a: int, b: int): int { if a <= b then a else b }

  /** The newest five entries, newest first. */
  function RecentHistory(entries: seq<Entry>): seq<Entry> {
    SortDesc(entries, Dt)[..Min(HistoryLength, |entries|)]
  }

  /** The profile: every stored user field, the game count and the history. */
  datatype Profile = Profile(fields: Doc, totalGames: int, history: seq<ScoreHistoryItem>)

  /** `get_user_profile`: 404 for an unknown user; otherwise the user's score
      documents become entries, are sorted newest first (a crash when their
      timestamps cannot be compared), counted, cut to five and stripped of
      their sort key. */
  method GetUserProfile(db: Database, username: string) returns (r: Result<Profile, Failure>)
    ensures username !in db.users ==> r == Err(Http(404, MsgNotFound))
    ensures username in db.users && !SortKeysComparable(Entries(ScoresOf(db.scores, username))) ==>
              r.Err? && r.error.Crash?
    ensures username in db.users && SortKeysComparable(Entries(ScoresOf(db.scores, username))) ==>
              r == Ok(Profile(db.users[username], |ScoresOf(db.scores, username)|,
                              Items(RecentHistory(Entries(ScoresOf(db.scores, username))))))
  {
    if username !in db.users {
      return Err(Http(404, MsgNotFound));
    }
    var userData := db.users[username];
    var stream := ScoresOf(db.scores, username);
    var allScores: seq<Entry> := [];
    var i := 0;
    while i < |stream|
      invariant 0 <= i <= |stream|
      invariant |allScores| == i
      invariant forall j | 0 <= j < i :: allScores[j] == EntryOf(stream[j])
    {
      var d := stream[i];
      allScores := allScores + [Entry(ScoreHistoryItem(ScoreOf(d), NivelOf(d), d.timestamp), d.timestamp)];
      i := i + 1;
    }
    assert allScores == Entries(stream);
    if !SortKeysComparable(allScores) {
      return Err(Crash("TypeError: '<' not supported between instances of 'NoneType' and 'datetime'"));
    }
    var sorted := SortDesc(allScores, Dt);
    var totalGames := |allScores|;
    var history5 := sorted[..Min(HistoryLength, |sorted|)];
    r := Ok(Profile(userData, totalGames, Items(history5)));
  }

  /** The history holds `min(5, total_games)` entries, each one of the
      user's games. */
  lemma RecentHistoryIsSome(entries: seq<Entry>)
    ensures var h := RecentHistory(entries);
      |h| == Min(HistoryLength, |entries|) && multiset(h) <= multiset(entries)
  {
    SortDescPrefixFrom(entries, Dt, Min(HistoryLength, |entries|));
  }

  /** The history is newest first, and no game left out is newer than any
      game shown. */
  lemma RecentHistoryIsNewest(entries: seq<Entry>)
    ensures var h := RecentHistory(entries);
      && SortedDesc(h, Dt)
      && forall i, j | 0 <= i < |h| && |h| <= j < |entries| ::
           NotBefore(Dt(h[i]), Dt(SortDesc(entries, Dt)[j]))
  {
    SortDescPrefixNewest(entries, Dt, Min(HistoryLength, |entries|));
  }
}
