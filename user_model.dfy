/** The User model (app/models/user.py) and its Firestore dictionary form. */
module UserModel {
  import opened Wrappers
  import opened Firestore

  /** A user. `from_dict` may leave the name or the hash as `None`. */
  datatype User = User(username: Option<string>, hashedPassword: Option<string>,
                       isActive: bool, score: int)

  /** `User(username, hashed_password, is_active=True, score=0)`. */
  function NewUser(username: Option<string>, hashedPassword: Option<string>,
                   isActive: bool := true, score: int := 0): (u: User)
    ensures u.username == username && u.hashedPassword == hashedPassword
    ensures u.isActive == isActive && u.score == score
  {
    User(username, hashedPassword, isActive, score)
  }

  /** A Python `str | None` stored as a field value. */
  function OptStr(o: Option<string>): (v: Value)
    ensures v.Null? <==> o.None?
    ensures o.Some? ==> v == Str(o.value)
  {
    match o
    case None => Null
    case Some(s) => Str(s)
  }

  /** The dictionary holds, under each of the four user keys it has, a value of
      the type `User` stores there (a string or None for the name and the hash,
      a bool for the flag, an int for the score). */
  predicate WellTyped(d: Doc) {
    && ("username" in d ==> d["username"].Str? || d["username"].Null?)
    && ("hashed_password" in d ==> d["hashed_password"].Str? || d["hashed_password"].Null?)
    && ("is_active" in d ==> d["is_active"].Bool?)
    && ("score" in d ==> d["score"].Int?)
  }

  const UserKeys: set<string> := {"username", "hashed_password", "is_active", "score"}

  /** `User.to_dict`: exactly the four keys, holding the field values. */
  function ToDict(u: User): (d: Doc)
    ensures d.Keys == UserKeys
    ensures WellTyped(d) && ScoreIsNumber(d)
    ensures d["username"] == OptStr(u.username)
    ensures d["hashed_password"] == OptStr(u.hashedPassword)
    ensures d["is_active"] == Bool(u.isActive)
    ensures d["score"] == Int(u.score)
  {
    map["username" := OptStr(u.username),
        "hashed_password" := OptStr(u.hashedPassword),
        "is_active" := Bool(u.isActive),
        "score" := Int(u.score)]
  }

  /** A `str | None` field read with `data.get(key)`. */
  function GetOptStr(d: Doc, key: string): (o: Option<string>)
    requires key in d ==> d[key].Str? || d[key].Null?
    ensures o.Some? <==> key in d && d[key].Str?
    ensures o.Some? ==> d[key] == Str(o.value)
  {
    if key in d && d[key].Str? then Some(d[key].s) else None
  }

  /** `User.from_dict`: a missing name or hash becomes None, a missing flag
      True and a missing score 0. */
  function FromDict(d: Doc): (u: User)
    requires WellTyped(d)
    ensures u.username == GetOptStr(d, "username")
    ensures u.hashedPassword == GetOptStr(d, "hashed_password")
    ensures u.isActive == ("is_active" !in d || d["is_active"].b)
    ensures u.score == if "score" in d then d["score"].i else 0
  {
    NewUser(GetOptStr(d, "username"), GetOptStr(d, "hashed_password"),
            if "is_active" in d then d["is_active"].b else true,
            if "score" in d then d["score"].i else 0)
  }

  /** Deserialising a serialised user reproduces it field by field. */
  lemma FromDictToDict(u: User)
    ensures FromDict(ToDict(u)) == u
  {
  }

  /** Serialising a deserialised document keeps every one of the four user
      fields the document has, and fills the missing flag and score with their
      defaults; a missing name or hash comes back as None. */
  lemma ToDictFromDict(d: Doc)
    requires WellTyped(d)
    ensures var e := ToDict(FromDict(d));
      && (forall k | k in d && k in UserKeys :: e[k] == d[k])
      && ("username" !in d ==> e["username"] == Null)
      && ("hashed_password" !in d ==> e["hashed_password"] == Null)
      && ("is_active" !in d ==> e["is_active"] == Bool(true))
      && ("score" !in d ==> e["score"] == Int(0))
  {
    var e := ToDict(FromDict(d));
    forall k | k in d && k in UserKeys
      ensures e[k] == d[k]
    {
      if k == "username" || k == "hashed_password" {
        assert d[k].Str? || d[k].Null?;
      }
    }
  }
}
