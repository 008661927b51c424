/** The state a tank reports over the room connection (app/schemas/game.py). */
module GameSchemas {
  import opened Wrappers
  import opened Firestore

  /** Position, rotation in degrees and health percentage. */
  datatype TankState = TankState(x: int, y: int, rotacion: int, vida: int)

  /** The field bounds: rotation in [0, 360] and health in [0, 100], both ends
      included; the position is unconstrained. */
  predicate Valid(t: TankState) {
    0 <= t.rotacion <= 360 && 0 <= t.vida <= 100
  }

  /** The integer a field of the incoming message holds, if present. */
  function IntField(body: map<string, Value>, key: string): (o: Option<int>)
    ensures o.Some? <==> key in body && body[key].Int?
    ensures o.Some? ==> body[key] == Int(o.value)
  {
    if key in body && body[key].Int? then Some(body[key].i) else None
  }

  /** Validating an incoming message: all four fields are required integers
      and the bounds must hold; anything else is rejected. */
  function ParseTankState(body: map<string, Value>): (r: Option<TankState>)
    ensures r.Some? ==> Valid(r.value)
  {
    match (IntField(body, "x"), IntField(body, "y"), IntField(body, "rotacion"), IntField(body, "vida"))
    case (Some(x), Some(y), Some(r), Some(v)) =>
      var t := TankState(x, y, r, v);
      if Valid(t) then Some(t) else None
    case _ => None
  }

  /** A message is accepted exactly when its four fields are integers within
      the bounds, and it is then read field by field. */
  lemma ParseTankStateExactly(body: map<string, Value>)
    ensures ParseTankState(body).Some? <==>
      && (forall k | k in {"x", "y", "rotacion", "vida"} :: k in body && body[k].Int?)
      && 0 <= body["rotacion"].i <= 360 && 0 <= body["vida"].i <= 100
    ensures ParseTankState(body).Some? ==>
      ParseTankState(body).value == TankState(body["x"].i, body["y"].i, body["rotacion"].i, body["vida"].i)
  {
    if forall k | k in {"x", "y", "rotacion", "vida"} :: k in body && body[k].Int? {
      assert IntField(body, "x").Some? && IntField(body, "y").Some?;
      assert IntField(body, "rotacion").Some? && IntField(body, "vida").Some?;
    } else {
      var k :| k in {"x", "y", "rotacion", "vida"} && !(k in body && body[k].Int?);
      assert IntField(body, k).None?;
    }
  }

  /** The rotation bound includes both 0 and 360, the health bound both 0 and
      100, and the position may be any integer. */
  lemma BoundsInclusive(x: int, y: int)
    ensures Valid(TankState(x, y, 0, 0)) && Valid(TankState(x, y, 360, 100))
    ensures !Valid(TankState(x, y, -1, 50)) && !Valid(TankState(x, y, 361, 50))
    ensures !Valid(TankState(x, y, 90, -1)) && !Valid(TankState(x, y, 90, 101))
  {
  }

  /** The example shown in the schema's documentation is accepted. */
  lemma DocumentedExample()
    ensures ParseTankState(map["x" := Int(100), "y" := Int(200), "rotacion" := Int(90), "vida" := Int(100)])
            == Some(TankState(100, 200, 90, 100))
  {
  }
}
