/** Telemetry events tied to a game session (app/services/event_service.py). */
module EventService {
  import opened Wrappers
  import opened Firestore
  import opened Jwt

  const MsgBadToken := "Token inválido o expirado"

  /** An incoming event: the session token, the event type and its optional
      data. */
  datatype EventCreate = EventCreate(gameToken: GameToken, eventType: string, eventData: Option<Doc>)

  datatype LogResult = LogResult(status: string, eventId: string)

  /** The token handling of `log_event`: any decoding failure, and a token
      that is not a game session, end in the same 403; otherwise the event
      belongs to the token's subject, whoever that is. */
  function EventUser(token: GameToken, now: int): (r: Result<Option<string>, Failure>)
    ensures r.Err? <==> !Decode(Some(token), now).Valid? || Decode(Some(token), now).claims.kind != Some("game_session")
    ensures r.Err? ==> r.error == Http(403, MsgBadToken)
    ensures r.Ok? ==> r.value == token.claims.sub
  {
    match Decode(Some(token), now)
    case Valid(c) =>
      // The HTTPException for a wrong type is itself caught by the generic
      // handler and replaced by the common message.
      if c.kind != Some("game_session") then Err(Http(403, MsgBadToken))
      else Ok(c.sub)
    case _ => Err(Http(403, MsgBadToken))
  }

  /** Any session token that is still valid is accepted for events, for its
      own subject; an expired one is refused with the common message. */
  lemma SessionTokenLogsForSubject(u: string, issued: int, now: int)
    ensures var t := Encode(Claims(Some(u), Some("game_session"), Some(issued + 600)));
      EventUser(t, now) == if issued + 600 <= now then Err(Http(403, MsgBadToken)) else Ok(Some(u))
  {
    DecodeEncode(Claims(Some(u), Some("game_session"), Some(issued + 600)), now);
  }

  /** `log_event`: nothing is written on failure; on success exactly one
      event document is added and the fixed acknowledgement returned. */
  method LogEvent(db: Database, event: EventCreate, now: int) returns (r: Result<LogResult, Failure>)
    modifies db
    ensures db.users == old(db.users) && db.scores == old(db.scores)
    ensures EventUser(event.gameToken, now).Err? ==>
              r == Err(EventUser(event.gameToken, now).error) && db.events == old(db.events)
    ensures EventUser(event.gameToken, now).Ok? ==>
              && db.events == old(db.events) + [EventDoc(EventUser(event.gameToken, now).value,
                                                         event.eventType, event.eventData, now)]
              && r == Ok(LogResult("ok", "logged"))
  {
    var user := EventUser(event.gameToken, now);
    if user.Err? {
      return Err(user.error);
    }
    var eventDoc := EventDoc(user.value, event.eventType, event.eventData, now);
    db.events := db.events + [eventDoc];
    r := Ok(LogResult("ok", "logged"));
  }
}
