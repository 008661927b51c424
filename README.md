# Tank game backend: sessions, scores, rooms and dashboard, in Dafny

This project models the core of the tank game backend (a FastAPI service over
Firestore): the short-lived game-session token that gates score submission,
the scoring rules with the anti-cheat time floor, the score ledger and the
personal-best reconciliation recomputed from it, the in-memory registry of
websocket game rooms with its failure-isolating broadcast, the user model and
the request/response schemas, the telemetry event logger, the user service's
profile with its five-game history, and the administrative dashboard's
aggregations over the ledger.

The Firestore collections are the fields of one `Firestore.Database` object:
`users` is a map from document id to a document (a map from field name to
value), `scores` and `events` are sequences in stream order. Timestamps are
integer seconds (UTC). The clock is a `now` parameter; the password check is
a function parameter `verify`; the password hash is a parameter `hashedPwd`.
A JSON Web Token (RFC 7519, HS256 of section 3.2 of RFC 7518) is abstracted to
its claims and whether its signature verifies under the server key; decoding
has the three outcomes valid claims, expired, invalid.

Layout, one module per file:

- `wrappers.dfy` (`Wrappers`): `Option`, `Result`, `Outcome`, and `Failure`
  (an `HTTPException` with status and detail, or an uncaught exception).
- `firestore.dfy` (`Firestore`): document values, typed score documents, the
  `where("username", "==", ...)` filter, the database object.
- `jwt.dfy` (`Jwt`): claims, tokens, `jwt.encode` and `jwt.decode`.
- `user_model.dfy`, `user_schemas.dfy`, `game_schemas.dfy`: `User` with
  `to_dict`/`from_dict`, the pydantic records, the `TankState` bounds.
- `score_service.dfy` (`ScoreService`): the refactored score service.
- `users_api.dfy` (`UsersApi`): the mounted `/users` routes, whose score
  submission duplicates the service with observable differences (no
  anti-cheat floor, missing-token check first, best reported as the match
  score).
- `game_rooms.dfy` (`GameRooms`): `ConnectionManager` as a class whose
  `activeRooms` map is updated in place; the invariant `Valid()` says no room
  maps to an empty list.
- `event_service.dfy`, `user_service.dfy`, `dashboard_service.dfy`: the
  remaining services; `time_order.dfy` is Python's stable descending sort on a
  timestamp key, `map_sum.dfy` the sum of a map's values, `ascii_case.dfy`
  `lower`/`upper`/`capitalize`.

Behaviour of the code that the model keeps as written:

- Token validation: the expiry is checked while decoding, before the subject
  and the type, so an expired token is reported as expired whatever its
  subject or type.
- Rooms: the code keeps a list per room, so a connection may appear twice,
  and `disconnect` removes one occurrence.
- The event logger reports every token failure, a wrong token type
  included, with one message.
- The level is any integer in the schema; the scoring rules give a level
  other than 1, 2 and 3 no base points and a 5-second floor.

## Model

| member | source | states |
|---|---|---|
| Jwt.Encode | app/services/score_service.py:40 | Encoding yields a token carrying exactly the given claims whose signature verifies. |
| Jwt.Decode | app/services/score_service.py:47-55 | Decoding succeeds exactly for a present, verifying token whose `exp` (if any) is after `now`, returning its claims; it reports expiry exactly for a verifying token with `exp <= now`; everything else is invalid. |
| Jwt.DecodeEncode | app/services/score_service.py:34-53 | Decoding an encoded token returns its claims until `exp`, and reports it expired from then on. |
| Jwt.ForgedIsInvalid | app/services/score_service.py:54-55 | A token whose signature does not verify is invalid, whatever its claims. |
| ScoreService.CreateGameToken | app/services/score_service.py:28-40 | The session token has subject the user, type `game_session`, expiry ten minutes after `now`, and a verifying signature. |
| ScoreService.ValidateGameToken | app/services/score_service.py:42-55 | The checks run in order with their own 403 messages: expired, otherwise invalid, then wrong subject, then wrong type; the token passes exactly when it decodes, belongs to the user and is a game session. |
| ScoreService.IssuedTokenValidates | app/services/score_service.py:34-53 | A token issued to `u` passes for `u` before expiry, fails as expired from the expiry on, and fails as someone else's for any other user before it. |
| ScoreService.MinSeconds | app/services/score_service.py:64-65 | The minimum time is 15 s for level 2, 30 s for level 3 and 5 s for every other level. |
| ScoreService.BasePoints | app/services/score_service.py:76 | Base points are 1000, 3000, 6000 exactly for levels 1, 2, 3 and 0 otherwise. |
| ScoreService.SanityCheck | app/services/score_service.py:59-70 | A time below the level's minimum becomes twice the minimum, any other time is kept; no other field changes; afterwards the time is at least the minimum. |
| ScoreService.SanityCheckIdempotent | app/services/score_service.py:67-70 | Applying the sanity check twice equals applying it once. |
| ScoreService.CalculateScore | app/services/score_service.py:72-82 | The score is never negative and equals `max(0, base - 2*time - 5*damage)`. |
| ScoreService.ScoreMonotone | app/services/score_service.py:78-82 | More time or more damage never raises the score; with non-negative inputs it never exceeds the base points. |
| ScoreService.ScoreExamples | app/services/score_service.py:64-82 | Level 1 in 100 s with 10 damage scores 750; level 3 in 10 s is penalised to 60 s and scores 5880. |
| Firestore.ScoresOf | app/services/score_service.py:122 | The filtered stream holds exactly the ledger documents whose username is the given name (membership both ways); multiplicity is stated by ScoresOfCounts. |
| Firestore.ScoresOfCounts | app/services/score_service.py:122 | Every document occurs in the filtered stream as often as in the ledger when it carries the name, and not at all otherwise. |
| Firestore.ScoresOfAppend | app/services/score_service.py:122 | The filter keeps stream order: the user's documents in two consecutive stretches of the ledger are those of the first followed by those of the second. |
| Firestore.UsernameTaken | app/services/user_service.py:18-20 | A name is taken when some user document stores it in its `username` field (the query on the field, not the document id); defined without a contract of its own. |
| Firestore.StoredScore | app/services/score_service.py:129 | The stored best is the document's integer `score`, a boolean `score` as the 0 or 1 Python compares it as, or 0 when absent. |
| ScoreService.TrueMaxIsMax | app/services/score_service.py:119-126 | The recomputed best is at least 0, bounds every ledger score of the user, and is 0 or one of those scores. |
| ScoreService.TrueMax | app/services/score_service.py:119-126 | The best recomputed from the ledger, starting at 0 and raised by every larger score of the user; its meaning is stated by TrueMaxIsMax and TrueMaxAppend. |
| ScoreService.ScoreRecord | app/services/score_service.py:100-106 | The ledger document written for a finalised match: username, score, level and the time of submission; SubmitScore states that exactly one is appended and TrueMaxAppend how it moves the best. |
| ScoreService.TrueMaxAppend | app/services/score_service.py:122-126 | Appending a record of the user raises the best to that score if larger; a record of another user leaves it unchanged. |
| ScoreService.TrueMaxExample | app/services/score_service.py:118-140 | Ledger scores 700, 1200, 900 give a best of 1200. |
| ScoreService.BestUpdated | app/services/score_service.py:128-134 | Only the user's own document may change, only in its `score` field, and only to a larger best; the stored best afterwards is the larger of the old one and the new best. |
| ScoreService.UpdateUserHighScore | app/services/score_service.py:111-141 | Reports the match score, the true maximum of the ledger, and a new record exactly when the user document exists and the score beats the stored best (default 0); the user store becomes `BestUpdated` with the true maximum; the ledger is untouched. |
| ScoreService.SubmitScore | app/services/score_service.py:84-109 | A refused token returns its error and changes nothing; an accepted one appends exactly one record scored on the sanity-checked time and reconciles the best as above. |
| ScoreService.AcceptedBestBoundsScores | app/services/score_service.py:99-126 | After an accepted submission the reported best is at least the match score, the previous best and every earlier score of the user. |
| UsersApi.RegisterUser | app/api/users.py:16-44 | A name that some user document already carries gives 400 and no change; otherwise the new user (active, score 0, the given hash) is stored under the name and returned as `UserOut`. |
| UsersApi.RegisteredUserReadsBack | app/api/users.py:36-42 | The stored document of a new registration deserialises to the active user with score 0 and the given hash. |
| UsersApi.Login | app/api/users.py:46-69 | Login succeeds exactly when the document exists, has a hash and the password verifies; an unknown user gives 401 "Usuario no encontrado.", a wrong password 401 "Contraseña incorrecta.", a document without a hash a crash (KeyError). |
| UsersApi.StartGame | app/api/users.py:77-98 | An unknown user gives 404; otherwise a verifying token for the user, of type `game_session`, expiring ten minutes after `now`. |
| UsersApi.CheckToken | app/api/users.py:105-119 | A missing or empty token is refused with "Falta el token de partida" before decoding. |
| UsersApi.CheckTokenMatchesService | app/api/users.py:109-119 | On every present, non-empty token the route's check equals the service's `validate_game_token`; a missing token is "missing" on the route and "tampered" in the service. |
| UsersApi.StartedGameTokenAccepted | app/api/users.py:89-119 | A token from `start-game` passes the route's check for its user until it expires. |
| UsersApi.RouteScore | app/api/users.py:121-137 | The route's score is never negative. |
| UsersApi.RouteScoreIsServiceFormula | app/api/users.py:121-137 | The route's if-chain and floor compute exactly the service's `calculate_score` on the reported time. |
| UsersApi.RouteSkipsSanityCheck | app/api/users.py:121-137 | Level 3 in 10 s scores 5980 on the route and 5880 in the service: the route has no anti-cheat floor. |
| UsersApi.RouteBestUpdated | app/api/users.py:152-165 | Only the user's own `score` field may change, and the stored best afterwards is exactly the larger of the match score and the old best. |
| UsersApi.SubmitScore | app/api/users.py:100-171 | A refused token changes nothing; an accepted one writes exactly one score document, updates the best only when the user exists and the score beats it, and reports the match score as the current best. |
| UsersApi.GetUserProfile | app/api/users.py:195-206 | An unknown user gives 404; a document with a string name, a boolean flag and an integer score gives exactly those fields, and any other document fails response validation. |
| UsersApi.RegisteredProfile | app/api/users.py:195-206 | A just registered user's profile is its name, active, score 0. |
| GameRooms.RemoveFirst | app/api/game.py:31 | Removing a present connection drops its first occurrence and keeps the elements before and after it in order. |
| GameRooms.ConnectionManager.Members | app/api/game.py:35-36 | Under the invariant a room has members exactly when it is a key of the registry. |
| GameRooms.ConnectionManager.Valid | app/api/game.py:35-36 | No room id maps to an empty list; established by the constructor and kept by Connect and Disconnect, whose contracts require and ensure it. |
| GameRooms.ConnectionManager.constructor | app/api/game.py:8-12 | The registry starts empty. |
| GameRooms.ConnectionManager.Connect | app/api/game.py:14-24 | The room's list becomes the old list (empty for a new room) plus the connection at the end; no other room changes; no room maps to an empty list. |
| GameRooms.ConnectionManager.Disconnect | app/api/game.py:26-37 | An unknown room changes nothing; otherwise the first occurrence of the connection is removed if present and the room is deleted when its list becomes empty; no room maps to an empty list. |
| GameRooms.ConnectionManager.BroadcastToRoom | app/api/game.py:39-52 | One send is attempted to every member of the room, in list order, with the message, whatever the earlier sends did; an unknown room gets none; the registry is not changed. |
| GameRooms.RemoveAfterAppend | app/api/game.py:23-31 | Leaving right after joining restores the room's list. |
| GameSchemas.ParseTankState | app/schemas/game.py:5-17 | Every accepted message satisfies the bounds. |
| GameSchemas.ParseTankStateExactly | app/schemas/game.py:10-17 | A message is accepted exactly when all four fields are integers, the rotation is in [0, 360] and the health in [0, 100], and it is then read field by field. |
| GameSchemas.BoundsInclusive | app/schemas/game.py:14-17 | Both ends of each bound are accepted, the values just outside rejected, and any position is allowed. |
| GameSchemas.DocumentedExample | app/schemas/game.py:20-28 | The documented example is accepted. |
| UserModel.NewUser | app/models/user.py:9-13 | The constructor stores its arguments, with defaults active and score 0. |
| UserModel.ToDict | app/models/user.py:15-24 | Serialising gives exactly the four keys holding the field values. |
| UserModel.FromDict | app/models/user.py:26-36 | A missing name or hash becomes None, a missing flag True and a missing score 0; present fields are read back. |
| UserModel.FromDictToDict | app/models/user.py:15-36 | Deserialising a serialised user reproduces it. |
| UserModel.ToDictFromDict | app/models/user.py:26-36 | Serialising a deserialised document keeps each of its four user fields and fills in the defaults for missing ones. |
| UserSchemas.NewScoreSubmission | app/schemas/user.py:31-39 | A submission holds the three integers and an optional token that defaults to none. |
| UserSchemas.NewUserProfileOut | app/schemas/user.py:49-55 | A profile holds the user, the game count and a history that defaults to empty. |
| UserSchemas.ToUserOut | app/schemas/user.py:18-27 | A user is presented as name, flag and score, without the hash; a user without a name fails validation. |
| UserSchemas.SchemaDefaults | app/schemas/user.py:35-55 | Without a token a submission has none; without a history a profile has an empty one. |
| UserSchemas.NewUserOut | app/schemas/user.py:18-27 | A new user is presented active with score 0. |
| EventService.EventUser | app/services/event_service.py:39-46 | Every decode failure and every non-session token ends in 403 "Token inválido o expirado"; otherwise the event belongs to the token's subject. |
| EventService.SessionTokenLogsForSubject | app/services/event_service.py:40-46 | A session token logs events for its subject until it expires, and is refused with the common message afterwards. |
| EventService.LogEvent | app/services/event_service.py:27-61 | A refused token writes nothing; otherwise exactly one event (subject, type, data, `now`) is appended and the fixed acknowledgement returned. |
| UserService.RegisterUser | app/services/user_service.py:13-38 | A taken name gives 400 and no change; otherwise the new default user is stored under the name and returned. |
| UserService.AuthenticateUser | app/services/user_service.py:40-60 | Succeeds exactly when the document exists, has a hash and the password verifies, returning the stored document; the failures are 401 with their two messages, and a crash (KeyError) for a document without a hash. |
| UserService.EntryOf | app/services/user_service.py:77-87 | A history entry carries the score (default 0), the level (default 1), the date and the raw timestamp as sort key. |
| UserService.Entries | app/services/user_service.py:76-87 | One entry per score document of the stream, in stream order, each built by EntryOf. |
| UserService.SortKeysComparable | app/services/user_service.py:89 | Sorting on the raw timestamps raises exactly when two or more entries exist and one lacks a timestamp; defined without a contract of its own, used by GetUserProfile. |
| UserService.Items | app/services/user_service.py:94-95 | The shown entries are the kept ones without their sort key. |
| UserService.RecentHistory | app/services/user_service.py:89-92 | The sorted entries cut to the first five; stated by RecentHistoryIsSome and RecentHistoryIsNewest. |
| UserService.GetUserProfile | app/services/user_service.py:62-101 | An unknown user gives 404; timestamps that cannot be compared crash the sort; otherwise the stored fields, the number of the user's score documents and the first five of them sorted newest first. |
| UserService.RecentHistoryIsSome | app/services/user_service.py:89-92 | The history has `min(5, total_games)` entries, all of them the user's. |
| UserService.RecentHistoryIsNewest | app/services/user_service.py:89-92 | The history is newest first, and no entry left out is newer than one shown. |
| TimeOrder.SortDesc | app/services/dashboard_service.py:130 | The sort keeps the length and the multiset of the elements; its order is stated by SortDescSorted and SortDescStable. |
| TimeOrder.SortDescSorted | app/services/dashboard_service.py:130 | The sorted list is newest first, a missing time counting as earliest. |
| TimeOrder.SortDescAllMissing | app/services/dashboard_service.py:130 | The stable sort leaves a list whose timestamps are all missing unchanged. |
| TimeOrder.SortDescStable | app/services/user_service.py:89 | The sort is stable: for every timestamp, the elements carrying it come out in the order they went in. |
| TimeOrder.SortDescPrefixFrom | app/services/user_service.py:89-92 | The first n of the sorted list are elements of the input. |
| TimeOrder.SortDescPrefixNewest | app/services/user_service.py:89-92 | The first n of the sorted list are newest first, and none of the rest is newer than any of them. |
| AsciiCase.Lower | app/services/dashboard_service.py:97 | Every character is mapped to lower case, keeping the length. |
| AsciiCase.Upper | app/services/dashboard_service.py:97 | Every character is mapped to upper case, keeping the length. |
| AsciiCase.Capitalize | app/services/dashboard_service.py:97 | The first character is upper-cased and the rest lower-cased. |
| AsciiCase.Variations | app/services/dashboard_service.py:97 | The spellings tried include the name itself and are at most four. |
| AsciiCase.VariationsAgreeIgnoringCase | app/services/dashboard_service.py:97 | Every spelling tried has the name's length and lower-case form. |
| AsciiCase.CapitalizeExample | app/services/dashboard_service.py:97 | `capitalize` lowers the letters after the first: "tANQUE" gives "Tanque". |
| AsciiCase.VariationsExample | app/services/dashboard_service.py:97 | "ana" gives the three spellings "ana", "Ana", "ANA". |
| DashboardService.LimitDate | app/services/dashboard_service.py:17-23 | "today" filters from the midnight (UTC) that starts the day of `now`, "week" from exactly seven days before `now`, any other range not at all. |
| DashboardService.Counted | app/services/dashboard_service.py:55-56 | A game is skipped only when a limit is set, it has a timestamp, and that timestamp is before the limit; defined without a contract of its own. |
| DashboardService.CountedGames | app/services/dashboard_service.py:54-58 | The counted games are no more than the ledger's games; their membership, multiplicity and stream order are stated by CountedGamesExactly, CountedGamesCounts and CountedGamesAppend. |
| DashboardService.CountedGamesExactly | app/services/dashboard_service.py:55-58 | A game is counted exactly when it lacks a timestamp or its timestamp is not before the limit. |
| DashboardService.CountedGamesCounts | app/services/dashboard_service.py:54-58 | Every document occurs among the counted games as often as in the ledger when it is counted, and not at all otherwise. |
| DashboardService.CountedGamesAppend | app/services/dashboard_service.py:43-58 | The filter keeps stream order: the counted games of two consecutive stretches of the ledger are those of the first followed by those of the second. |
| DashboardService.NoFilterCountsAll | app/services/dashboard_service.py:19-23 | Without a filter every game is counted. |
| DashboardService.GamesOn | app/services/dashboard_service.py:48-49 | The games that compete for the record of the day; membership, multiplicity and stream order are stated by GamesOnExactly, GamesOnCounts and GamesOnAppend. |
| DashboardService.GamesOnExactly | app/services/dashboard_service.py:48-49 | The games of the day record are exactly those dated today, whatever the range. |
| DashboardService.GamesOnCounts | app/services/dashboard_service.py:48-49 | Every document occurs among the games of the day as often as in the ledger when it is dated that day, and not at all otherwise. |
| DashboardService.GamesOnAppend | app/services/dashboard_service.py:43-52 | The filter keeps stream order: the games of a day in two consecutive stretches of the ledger are those of the first followed by those of the second. |
| DashboardService.Record | app/services/dashboard_service.py:36-52 | The record and its holder after a pass with a strict comparison from 0 and "---"; stated by RecordIsFirstMax. |
| DashboardService.UserOf | app/services/dashboard_service.py:45 | The record holder's name is the document's username, or "Anon" when absent; RecordIsFirstMax states which document holds the record. |
| DashboardService.RecordIsFirstMax | app/services/dashboard_service.py:69-72 | A record is the maximum of 0 and the scores, held by the first game reaching it (strict comparison), and "---" when it is 0. |
| DashboardService.CountLevel | app/services/dashboard_service.py:60-62 | The number of games at a level, never more than the games. |
| DashboardService.CountLevelIsMultiplicity | app/services/dashboard_service.py:60-62 | The count of a level is exactly how often that level occurs among the games' levels (a missing `nivel` read as 1). |
| DashboardService.LevelDist | app/services/dashboard_service.py:29-62 | The level distribution: the seed 1, 2, 3 at 0, plus one at each counted game's level; stated by LevelDistCounts. |
| DashboardService.LevelDistCounts | app/services/dashboard_service.py:29-62 | Levels 1 to 3 are always keys, each level counts its games (default level 1), and the counts add up to the number of counted games. |
| DashboardService.HourOf | app/services/dashboard_service.py:66 | The hour key of a timestamp is in 0..23. |
| DashboardService.HourSeedSize | app/services/dashboard_service.py:33-34 | Seeding hours 0 to n - 1 gives n keys. |
| DashboardService.HourSeedShape | app/services/dashboard_service.py:32-34 | The seed's keys are exactly the hours 0 to n - 1, n of them, and its counts add up to 0. |
| DashboardService.HourSeed | app/services/dashboard_service.py:33-34 | The hour keys 0 to n - 1, each at 0; stated by HourSeedSize and HourSeedShape. |
| DashboardService.InitialActivity | app/services/dashboard_service.py:30-34 | The chart before the loop: the 24 hour keys at 0 for "today", empty otherwise; stated by ActivityTodayKeys and ActivitySum. |
| DashboardService.Activity | app/services/dashboard_service.py:30-67 | The activity chart: the hourly seed for "today", plus one under the key of each counted game with a timestamp; stated by ActivitySum and ActivityTodayKeys. |
| DashboardService.ActivitySum | app/services/dashboard_service.py:65-67 | The activity counts add up to the number of counted games that have a timestamp. |
| DashboardService.ActivityTodayKeys | app/services/dashboard_service.py:32-67 | For "today" the chart keeps exactly the 24 hour keys. |
| DashboardService.KeepRecord | app/services/dashboard_service.py:50-52 | A game considered for a record leaves the record of the games so far extended by that game. |
| DashboardService.CountGame | app/services/dashboard_service.py:58-72 | A counted game leaves the count, the level distribution, the chart and the range record of the counted games extended by that game. |
| DashboardService.Visit | app/services/dashboard_service.py:43-72 | One document extends the day record by itself when dated today, and the range statistics by itself when counted. |
| DashboardService.GetGlobalStats | app/services/dashboard_service.py:10-90 | The number of users; the count, level distribution, activity chart and range record of the counted games; the day record over all games dated today; the range echoed. |
| DashboardService.FirstUser | app/services/dashboard_service.py:101-105 | The first spelling, in the given order, that is a user document id; stated by FirstUserFinds. |
| DashboardService.IsOrderOf | app/services/dashboard_service.py:97 | An iteration order of the set of spellings: each spelling exactly once; the requires of TargetIsSpelling and TargetPrefersUsers. |
| DashboardService.FirstUserFinds | app/services/dashboard_service.py:101-105 | The first search finds a spelling that is a user document id and comes after only spellings that are not (the `break`), and finds none exactly when no spelling is one. |
| DashboardService.SearchUsers | app/services/dashboard_service.py:101-105 | The loop stops at the first spelling, in the given order, that is a user document id. |
| DashboardService.FirstPlayer | app/services/dashboard_service.py:107-112 | The first spelling, in the given order, that has score documents; stated by FirstPlayerFinds. |
| DashboardService.FirstPlayerFinds | app/services/dashboard_service.py:108-112 | The second search finds a spelling that has score documents and comes after only spellings that have none (the `break`), and finds none exactly when no spelling has any. |
| DashboardService.SearchPlayers | app/services/dashboard_service.py:108-112 | The loop stops at the first spelling, in the given order, that has score documents. |
| DashboardService.TargetName | app/services/dashboard_service.py:99-115 | A user document first, a player with games otherwise, and an empty name as none found; stated by TargetIsSpelling and TargetPrefersUsers. |
| DashboardService.FindTarget | app/services/dashboard_service.py:96-115 | The two searches find the user document first, players with games second, and treat an empty name as not found. |
| DashboardService.TargetIsSpelling | app/services/dashboard_service.py:96-115 | In any set order, the name found is one of the spellings, equal to the requested name up to letter case. |
| DashboardService.TargetPrefersUsers | app/services/dashboard_service.py:96-115 | In any set order, the name found is a user when any spelling is one, otherwise a player with games, and nothing is found only when no spelling is a user or has games (or the name is empty). |
| DashboardService.Games | app/services/dashboard_service.py:118-128 | One game per score document of the player, with score default 0 and level default 1. |
| DashboardService.GameOf | app/services/dashboard_service.py:123-127 | The game built from a score document: score default 0, level default 1 and the raw timestamp; stated element by element by Games. |
| DashboardService.MaxScore | app/services/dashboard_service.py:140 | The maximum bounds every score and is one of them, or 0 without games. |
| DashboardService.TotalScore | app/services/dashboard_service.py:132 | The sum of the scores of the games; stated by TotalScorePermutation. |
| DashboardService.GameKeysComparable | app/services/dashboard_service.py:130 | The sort succeeds exactly when all games have a timestamp or none has; defined without a contract of its own, used by GetUserStats. |
| DashboardService.TotalScorePermutation | app/services/dashboard_service.py:132 | The total does not depend on the order of the games. |
| DashboardService.MaxScorePermutation | app/services/dashboard_service.py:140 | The maximum does not depend on the order of the games. |
| DashboardService.CollectGames | app/services/dashboard_service.py:118-128 | The loop builds one game per score document of the player, in stream order. |
| DashboardService.GetUserStats | app/services/dashboard_service.py:92-142 | Not found without a target; a crash when the games mix present and missing timestamps; otherwise the name, count, total, maximum and the games sorted newest first. |
| DashboardService.FoundStatsDescribeGames | app/services/dashboard_service.py:130-141 | The listed games are a permutation of the player's games, newest first, and the total and maximum equal those of the games in stream order. |

## Left out

- JWT internals: HMAC-SHA256 signing, base64url encoding and PyJWT's claim parsing are abstracted to `Jwt.GameToken`; the wall clock is the `now` parameter, one value per request.
- The second `raise` after the `PyJWTError` handler (app/services/score_service.py:57) is unreachable and not modelled.
- Ranking and feed queries that depend on Firestore's `order_by`/`limit`: `get_top_ranking`, `get_top_scores` (the `/users/ranking/top` route), `_get_ranking`, `_get_live_feed`, `get_recent_events`; the dashboard's `top_ranking` and `live_feed` fields are therefore not part of `DashboardService.GlobalStats`.
- Firestore stream order: a stream returns documents in document-id order, and new score documents get random ids; the model appends to the end of the ledger and reads it in sequence order. None of the proved properties depend on that order except which of several equal records the dashboard reports, and the order of equal-timestamp games after sorting.
- Websocket `accept` and `send_json`, asyncio scheduling and concurrency: the registry is sequential and a send's success is chosen nondeterministically.
- A per-player state cache, late-join replay, an exclude-sender broadcast, join/leave announcements and per-room locks: the room registry has none of them, so the model has none.
- A level range of 1..3: neither the schema nor the scoring code restricts the level, so the model does not either.
- Separate failure reasons in the event logger: the code catches every failure into one message, and the model does the same.
- Password hashing (passlib): `verify` and `hashedPwd` are parameters.
- The audit files, logging, application and CORS setup, Firebase initialisation, the thin event and dashboard routers, the scripts and the event schema.
- `avg_score` (a rounded float) and every `strftime` formatting: dates are kept as optional integer timestamps, and activity keys as the hour or the day number of a timestamp.
- `_sanity_check` assigns to the submission in place; it is modelled as a function returning the adjusted submission, which is what the service goes on to use.
- Pydantic coercions (a string "5" accepted as an integer and similar) and non-ASCII case mapping in `lower`/`upper`/`capitalize`. In particular UsersApi.GetUserProfile answers a response-validation crash for a boolean stored `score`, which lax validation would coerce to 0 or 1.
- ScoreService.SubmitScore, ScoreService.UpdateUserHighScore, UsersApi.SubmitScore: require the user document's `score` to be absent, an integer or a boolean (compared as 0 or 1); `None` or a string there makes the comparison raise, which is not modelled.
- UserModel.FromDict: requires the four user fields, when present, to hold values of the types `User` stores; other documents are not modelled.
- DashboardService.GetUserStats: takes the iteration order of the set of spellings as a parameter, since Python's string hashing makes it vary from run to run; properties that hold for every order are stated in `DashboardService.TargetIsSpelling` and `DashboardService.TargetPrefersUsers`. A lookup of the empty string as a document id is treated as absent.
- UsersApi.RegisterUser, UsersApi.Login, UserService.RegisterUser, UserService.AuthenticateUser: a username is used as a Firestore document id, and the validity of such ids is not modelled: the model treats every string as a key, while the Firestore client refuses an empty id and splits an id on "/", so that "a/b" raises and "a/b/c" addresses a document in a subcollection. For the same reason `DashboardService.GetGlobalStats` counts the user documents as `|users|` and leaves out the parent ids that `list_documents()` also returns for documents holding only subcollections.
- DashboardService.GetGlobalStats: the documents' `score` and `nivel` fields are taken to be integers, and a `nivel` key replaces the Python dictionary key of any type.
- UserService.GetUserProfile, DashboardService.GetUserStats: the crash when the sort meets incomparable timestamps is stated as some crash, without its message.
