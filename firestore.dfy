/** The Firestore collections the services read and write ("users", "scores",
    "events"), as plain containers. */
module Firestore {
  import opened Wrappers

  /** A field value of a stored document. */
  datatype Value = Null | Bool(b: bool) | Int(i: int) | Str(s: string)

  /** A document: a dictionary from field names to values. */
  type Doc = map<string, Value>

  /** A document of the "scores" collection. A field that is `None` is absent
      from the document; the services write all four. */
  datatype ScoreDoc = ScoreDoc(username: Option<string>, score: Option<int>,
                               nivel: Option<int>, timestamp: Option<int>)

  /** `doc.get("score", 0)` on a score document. */
  function ScoreOf(d: ScoreDoc): int { d.score.GetOr(0) }

  /** `doc.get("nivel", 1)` on a score document. */
  function NivelOf(d: ScoreDoc): int { d.nivel.GetOr(1) }

  /** A document of the "events" collection. */
  datatype EventDoc = EventDoc(username: Option<string>, kind: string,
                               data: Option<Doc>, timestamp: int)

  /** The user document's "score" field can be compared with an integer:
      it is absent, an integer, or a boolean (which Python compares as 0 or 1). */
  predicate ScoreIsNumber(d: Doc) {
    "score" in d ==> d["score"].Int? || d["score"].Bool?
  }

  /** `user_doc.to_dict().get("score", 0)`, as the integer it compares as. */
  function StoredScore(d: Doc): (n: int)
    requires ScoreIsNumber(d)
    ensures "score" !in d ==> n == 0
    ensures "score" in d && d["score"].Int? ==> d["score"] == Int(n)
    ensures "score" in d && d["score"].Bool? ==> d["score"] == Bool(n == 1) && 0 <= n <= 1
  {
    if "score" !in d then 0
    else if d["score"].Int? then d["score"].i
    else if d["score"].b then 1 else 0
  }

  /** `users_ref.where("username", "==", name)` finds a document: some user
      document, whatever its id, has its "username" field equal to `name`. */
  predicate UsernameTaken(users: map<string, Doc>, name: string) {
    exists id | id in users :: "username" in users[id] && users[id]["username"] == Str(name)
  }

  /** `scores_ref.where("username", "==", name).stream()`, in stream order. */
  function ScoresOf(scores: seq<ScoreDoc>, name: string): (r: seq<ScoreDoc>)
    ensures |r| <= |scores|
    ensures forall d | d in r :: d in scores && d.username == Some(name)
    ensures forall d | d in scores && d.username == Some(name) :: d in r
  {
    if scores == [] then []
    else
      var rest := ScoresOf(scores[..|scores| - 1], name);
      var last := scores[|scores| - 1];
      assert scores == scores[..|scores| - 1] + [last];
      if last.username == Some(name) then rest + [last] else rest
  }

  /** The filtered stream keeps every copy of a matching document: each
      document occurs in it as often as in the ledger if it carries the name,
      and not at all otherwise. */
  lemma {:induction false} ScoresOfCounts(scores: seq<ScoreDoc>, name: string)
    ensures forall d ::
      multiset(ScoresOf(scores, name))[d] == if d.username == Some(name) then multiset(scores)[d] else 0
  {
    if scores != [] {
      var init := scores[..|scores| - 1];
      ScoresOfCounts(init, name);
      assert scores == init + [scores[|scores| - 1]];
    }
  }

  /** The filter keeps stream order: the matching documents of two
      consecutive stretches of the ledger are those of the first followed by
      those of the second. */
  lemma {:induction false} ScoresOfAppend(a: seq<ScoreDoc>, b: seq<ScoreDoc>, name: string)
    ensures ScoresOf(a + b, name) == ScoresOf(a, name) + ScoresOf(b, name)
  {
    if b == [] {
      assert a + b == a;
    } else {
      var init := b[..|b| - 1];
      ScoresOfAppend(a, init, name);
      assert (a + b)[..|a + b| - 1] == a + init;
      assert (a + b)[|a + b| - 1] == b[|b| - 1];
    }
  }

  /** The database: user documents keyed by document id, and the score and
      event collections in the order a stream returns them. */
  class Database {
    var users: map<string, Doc>
    var scores: seq<ScoreDoc>
    var events: seq<EventDoc>

    constructor ()
      ensures users == map[] && scores == [] && events == []
    {
      users, scores, events := map[], [], [];
    }
  }
}
