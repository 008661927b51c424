/** Game sessions and score finalisation in the service layer
    (app/services/score_service.py): token issue and validation, the
    anti-cheat time floor, the score formula, the ledger append and the
    personal-best reconciliation against the whole ledger. */
module ScoreService {
  import opened Wrappers
  import opened Firestore
  import opened Jwt
  import opened UserSchemas

  /** A game token lives for ten minutes. */
  const SessionSeconds := 600
  const GameSession := "game_session"

  const MsgNotOwner := "El token no pertenece a este usuario"
  const MsgWrongType := "Token inválido para enviar scores"
  const MsgExpired := "La partida ha caducado (Token expirado)"
  const MsgTampered := "Token inválido o manipulado"

  /** What a finalised submission reports. */
  datatype ScoreResponse = ScoreResponse(scorePartida: int, nuevoRecord: bool, highScoreActual: int)

  /** The claims of a token issued to `username` at time `now`. */
  function SessionClaims(username: string, now: int): Claims {
    Claims(Some(username), Some(GameSession), Some(now + SessionSeconds))
  }

  /** `create_game_token`. */
  function CreateGameToken(username: string, now: int): (t: GameToken)
    ensures t.Signed? && t.verifies
    ensures t.claims.sub == Some(username) && t.claims.kind == Some(GameSession)
    ensures t.claims.exp == Some(now + SessionSeconds)
  {
    Encode(SessionClaims(username, now))
  }

  /** `validate_game_token`: decoding comes first (expired and otherwise
      invalid tokens each with their message), then the subject must be the
      user, then the type must be a game session. Every failure is a 403. */
  function ValidateGameToken(token: Option<GameToken>, username: string, now: int): (r: Outcome<Failure>)
    ensures Decode(token, now).Expired? ==> r == Fail(Http(403, MsgExpired))
    ensures Decode(token, now).Invalid? ==> r == Fail(Http(403, MsgTampered))
    ensures Decode(token, now).Valid? && Decode(token, now).claims.sub != Some(username)
            ==> r == Fail(Http(403, MsgNotOwner))
    ensures Decode(token, now).Valid? && Decode(token, now).claims.sub == Some(username)
            && Decode(token, now).claims.kind != Some(GameSession)
            ==> r == Fail(Http(403, MsgWrongType))
    ensures r.Pass? <==> Decode(token, now).Valid? && Decode(token, now).claims.sub == Some(username)
                         && Decode(token, now).claims.kind == Some(GameSession)
  {
    match Decode(token, now)
    case Expired => Fail(Http(403, MsgExpired))
    case Invalid => Fail(Http(403, MsgTampered))
    case Valid(c) =>
      if c.sub != Some(username) then Fail(Http(403, MsgNotOwner))
      else if c.kind != Some(GameSession) then Fail(Http(403, MsgWrongType))
      else Pass
  }

  /** A token issued to `u` at `issued` is accepted for `u` strictly before
      its expiry, is refused as expired from then on (whoever presents it), and
      is refused as someone else's for any other user before that. */
  lemma IssuedTokenValidates(u: string, v: string, issued: int, now: int)
    ensures ValidateGameToken(Some(CreateGameToken(u, issued)), v, now) ==
      if now >= issued + SessionSeconds then Fail(Http(403, MsgExpired))
      else if v != u then Fail(Http(403, MsgNotOwner))
      else Pass
  {
    DecodeEncode(SessionClaims(u, issued), now);
  }

  /** Minimum plausible completion time of a level, in seconds. */
  function MinSeconds(nivel: int): (m: int)
    ensures m in {5, 15, 30}
    ensures nivel == 2 ==> m == 15
    ensures nivel == 3 ==> m == 30
    ensures nivel != 2 && nivel != 3 ==> m == 5
  {
    if nivel == 1 then 5 else if nivel == 2 then 15 else if nivel == 3 then 30 else 5
  }

  /** Base points of a level. */
  function BasePoints(nivel: int): (p: int)
    ensures p in {0, 1000, 3000, 6000}
    ensures p == 1000 <==> nivel == 1
    ensures p == 3000 <==> nivel == 2
    ensures p == 6000 <==> nivel == 3
  {
    if nivel == 1 then 1000 else if nivel == 2 then 3000 else if nivel == 3 then 6000 else 0
  }

  /** `_sanity_check`: a time below the level's minimum is replaced by twice
      that minimum; nothing else changes, and afterwards the time is at least
      the minimum. */
  function SanityCheck(stats: ScoreSubmission): (r: ScoreSubmission)
    ensures r.danoRecibido == stats.danoRecibido && r.nivelAlcanzado == stats.nivelAlcanzado
    ensures r.gameToken == stats.gameToken
    ensures r.tiempoSegundos >= MinSeconds(stats.nivelAlcanzado)
    ensures stats.tiempoSegundos < MinSeconds(stats.nivelAlcanzado)
            ==> r.tiempoSegundos == 2 * MinSeconds(stats.nivelAlcanzado)
    ensures stats.tiempoSegundos >= MinSeconds(stats.nivelAlcanzado) ==> r == stats
  {
    var min := MinSeconds(stats.nivelAlcanzado);
    if stats.tiempoSegundos < min then stats.(tiempoSegundos := min * 2) else stats
  }

  /** Running the check twice is the same as running it once. */
  lemma SanityCheckIdempotent(stats: ScoreSubmission)
    ensures SanityCheck(SanityCheck(stats)) == SanityCheck(stats)
  {
  }

  /** `calculate_score`: base points minus twice the time minus five times the
      damage, floored at 0. */
  function CalculateScore(stats: ScoreSubmission): (r: int)
    ensures r >= 0
    ensures r >= BasePoints(stats.nivelAlcanzado) - 2 * stats.tiempoSegundos - 5 * stats.danoRecibido
    ensures r == 0 || r == BasePoints(stats.nivelAlcanzado) - 2 * stats.tiempoSegundos - 5 * stats.danoRecibido
  {
    var puntosBase := BasePoints(stats.nivelAlcanzado);
    var scoreFinal := puntosBase - stats.tiempoSegundos * 2 - stats.danoRecibido * 5;
    if scoreFinal > 0 then scoreFinal else 0
  }

  /** A longer time or more damage never raises the score, and the score never
      exceeds the level's base points when time and damage are not negative. */
  lemma ScoreMonotone(s: ScoreSubmission, t: ScoreSubmission)
    requires s.nivelAlcanzado == t.nivelAlcanzado
    requires s.tiempoSegundos <= t.tiempoSegundos && s.danoRecibido <= t.danoRecibido
    ensures CalculateScore(t) <= CalculateScore(s)
    ensures s.tiempoSegundos >= 0 && s.danoRecibido >= 0 ==> CalculateScore(s) <= BasePoints(s.nivelAlcanzado)
  {
  }

  /** The two worked examples of the scoring rules: level 1 in 100 s with 10
      damage scores 750; level 3 in 10 s is below the 30 s floor, so it is
      scored as 60 s and gives 5880. */
  lemma ScoreExamples(token: Option<GameToken>)
    ensures CalculateScore(SanityCheck(ScoreSubmission(100, 10, 1, token))) == 750
    ensures CalculateScore(SanityCheck(ScoreSubmission(10, 0, 3, token))) == 5880
  {
  }

  /** The ledger record of a finalised match. */
  function ScoreRecord(username: string, score: int, nivel: int, now: int): ScoreDoc {
    ScoreDoc(Some(username), Some(score), Some(nivel), Some(now))
  }

  /** The personal best recomputed from the ledger: the largest of 0 and the
      score of every document of the user, scanning in stream order. */
  function TrueMax(scores: seq<ScoreDoc>, username: string): int
  {
    if scores == [] then 0
    else
      var m := TrueMax(scores[..|scores| - 1], username);
      var d := scores[|scores| - 1];
      if d.username == Some(username) && ScoreOf(d) > m then ScoreOf(d) else m
  }

  /** `TrueMax` is the maximum of 0 and the user's scores: it bounds every one
      of them and is 0 or one of them. */
  lemma {:induction false} TrueMaxIsMax(scores: seq<ScoreDoc>, username: string)
    ensures TrueMax(scores, username) >= 0
    ensures forall i | 0 <= i < |scores| && scores[i].username == Some(username) ::
              ScoreOf(scores[i]) <= TrueMax(scores, username)
    ensures TrueMax(scores, username) == 0 ||
            exists i | 0 <= i < |scores| :: scores[i].username == Some(username) &&
                                            ScoreOf(scores[i]) == TrueMax(scores, username)
  {
    if scores != [] {
      var init := scores[..|scores| - 1];
      TrueMaxIsMax(init, username);
      assert forall i | 0 <= i < |init| :: init[i] == scores[i];
      if TrueMax(scores, username) != 0 && TrueMax(scores, username) != TrueMax(init, username) {
        assert scores[|scores| - 1].username == Some(username);
      }
    }
  }

  /** Appending a record of the user raises the recomputed best to at least
      that record's score, and appending anyone else's leaves it alone. */
  lemma {:induction false} TrueMaxAppend(scores: seq<ScoreDoc>, d: ScoreDoc, username: string)
    ensures d.username == Some(username) ==>
              TrueMax(scores + [d], username) == if ScoreOf(d) > TrueMax(scores, username) then ScoreOf(d) else TrueMax(scores, username)
    ensures d.username != Some(username) ==> TrueMax(scores + [d], username) == TrueMax(scores, username)
  {
    assert (scores + [d])[..|scores|] == scores;
  }

  /** Submitting 700, 1200 and 900 for one player reports 1200 as the best
      after the third submission, not the last score. */
  lemma TrueMaxExample(u: string, t1: int, t2: int, t3: int)
    ensures TrueMax([ScoreRecord(u, 700, 1, t1), ScoreRecord(u, 1200, 2, t2), ScoreRecord(u, 900, 1, t3)], u) == 1200
  {
    var l := [ScoreRecord(u, 700, 1, t1), ScoreRecord(u, 1200, 2, t2), ScoreRecord(u, 900, 1, t3)];
    assert l[..2] == [l[0], l[1]] && l[..2][..1] == [l[0]] && [l[0]][..0] == [];
    assert TrueMax([l[0]], u) == 700;
    assert TrueMax(l[..2], u) == 1200;
  }

  /** The user store after reconciliation: the stored best is overwritten with
      `best` only when the user document exists and `best` exceeds it. */
  function BestUpdated(users: map<string, Doc>, username: string, best: int): (r: map<string, Doc>)
    requires username in users ==> ScoreIsNumber(users[username])
    ensures r.Keys == users.Keys
    ensures forall k | k in users && k != username :: r[k] == users[k]
    ensures username in users ==> ScoreIsNumber(r[username])
    ensures username in users ==> StoredScore(r[username]) == if best > StoredScore(users[username]) then best else StoredScore(users[username])
    ensures username in users ==> r[username] - {"score"} == users[username] - {"score"}
  {
    if username in users && best > StoredScore(users[username])
    then users[username := users[username]["score" := Int(best)]]
    else users
  }

  /** `_update_user_high_score`: scans the ledger for the user's true best;
      reports a new record when the document exists and the new score beats
      the stored best (0 when absent); overwrites the stored best only with a
      larger true best. */
  method UpdateUserHighScore(db: Database, username: string, newScore: int) returns (resp: ScoreResponse)
    requires username in db.users ==> ScoreIsNumber(db.users[username])
    modifies db
    ensures db.scores == old(db.scores) && db.events == old(db.events)
    ensures resp.scorePartida == newScore
    ensures resp.highScoreActual == TrueMax(db.scores, username)
    ensures resp.nuevoRecord <==> username in old(db.users) && newScore > StoredScore(old(db.users)[username])
    ensures db.users == BestUpdated(old(db.users), username, TrueMax(db.scores, username))
  {
    var userSnap := if username in db.users then Some(db.users[username]) else None;
    var tituloRecord := false;
    var trueMaxScore := 0;
    var ledger := db.scores;
    var i := 0;
    while i < |ledger|
      invariant 0 <= i <= |ledger|
      invariant trueMaxScore == TrueMax(ledger[..i], username)
    {
      assert ledger[..i + 1][..i] == ledger[..i];
      var s := ledger[i];
      if s.username == Some(username) {
        var val := ScoreOf(s);
        if val > trueMaxScore {
          trueMaxScore := val;
        }
      }
      i := i + 1;
    }
    assert ledger[..i] == ledger;
    if userSnap.Some? {
      var storedScore := StoredScore(userSnap.value);
      if newScore > storedScore {
        tituloRecord := true;
      }
      if trueMaxScore > storedScore {
        db.users := db.users[username := userSnap.value["score" := Int(trueMaxScore)]];
      }
    }
    resp := ScoreResponse(newScore, tituloRecord, trueMaxScore);
  }

  /** `submit_score`: a rejected token changes nothing; an accepted one
      appends exactly one record, scored on the time as the sanity check
      adjusts it, and then reconciles the personal best. */
  method SubmitScore(db: Database, username: string, stats: ScoreSubmission, now: int)
    returns (r: Result<ScoreResponse, Failure>)
    requires username in db.users ==> ScoreIsNumber(db.users[username])
    modifies db
    ensures db.events == old(db.events)
    ensures ValidateGameToken(stats.gameToken, username, now).Fail? ==>
      && r == Err(ValidateGameToken(stats.gameToken, username, now).error)
      && db.users == old(db.users) && db.scores == old(db.scores)
    ensures ValidateGameToken(stats.gameToken, username, now).Pass? ==>
      var score := CalculateScore(SanityCheck(stats));
      && db.scores == old(db.scores) + [ScoreRecord(username, score, stats.nivelAlcanzado, now)]
      && db.users == BestUpdated(old(db.users), username, TrueMax(db.scores, username))
      && r == Ok(ScoreResponse(score,
                               username in old(db.users) && score > StoredScore(old(db.users)[username]),
                               TrueMax(db.scores, username)))
  {
    var check := ValidateGameToken(stats.gameToken, username, now);
    if check.Fail? {
      return Err(check.error);
    }
    var adjusted := SanityCheck(stats);
    var scoreFinal := CalculateScore(adjusted);
    db.scores := db.scores + [ScoreRecord(username, scoreFinal, adjusted.nivelAlcanzado, now)];
    var resp := UpdateUserHighScore(db, username, scoreFinal);
    r := Ok(resp);
  }

  /** After an accepted submission the reported best is at least this match's
      score and at least every earlier score of the user. */
  lemma AcceptedBestBoundsScores(scores: seq<ScoreDoc>, username: string, score: int, nivel: int, now: int)
    ensures var after := scores + [ScoreRecord(username, score, nivel, now)];
      && TrueMax(after, username) >= score
      && TrueMax(after, username) >= TrueMax(scores, username)
      && forall d | d in scores && d.username == Some(username) :: ScoreOf(d) <= TrueMax(after, username)
  {
    TrueMaxAppend(scores, ScoreRecord(username, score, nivel, now), username);
    TrueMaxIsMax(scores, username);
  }

  /** Three accepted submissions worth 700, 1200 and 900 by one player with the
      same session token: the third reports 1200 as the current best. */
  method ThreeSubmissions(u: string, issued: int)
  {
    var db := new Database();
    var token := Some(CreateGameToken(u, issued));
    IssuedTokenValidates(u, u, issued, issued);
    var r1 := SubmitScore(db, u, ScoreSubmission(150, 0, 1, token), issued);
    var r2 := SubmitScore(db, u, ScoreSubmission(900, 0, 2, token), issued);
    var r3 := SubmitScore(db, u, ScoreSubmission(50, 0, 1, token), issued);
    assert r1 == Ok(ScoreResponse(700, false, 700));
    TrueMaxExample(u, issued, issued, issued);
    assert r3.value.scorePartida == 900;
    assert r3.value.highScoreActual == 1200;
  }
}
