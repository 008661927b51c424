/** The administrative dashboard (app/services/dashboard_service.py): global
    counters over the score ledger within a time range, and per-player
    statistics. Timestamps are integer seconds of UTC time. */
module DashboardService {
  import opened Wrappers
  import opened Firestore
  import opened TimeOrder
  import MapSum
  import opened AsciiCase

  const SecondsPerHour := 3600
  const SecondsPerDay := 86400
  const HoursPerDay: nat := 24

  function DayOf(ts: int): int { ts / SecondsPerDay }

  function HourOf(ts: int): (h: int)
    ensures 0 <= h < 24
  {
    (ts % SecondsPerDay) / SecondsPerHour
  }

  /** The start of the filter: today's midnight, a week ago, or no filter. */
  function LimitDate(timeRange: string, now: int): (l: Option<int>)
    ensures timeRange == "today" ==>
      l.Some? && l.value % SecondsPerDay == 0 && l.value <= now < l.value + SecondsPerDay
    ensures timeRange == "week" ==> l.Some? && now - l.value == 7 * SecondsPerDay
    ensures timeRange != "today" && timeRange != "week" ==> l == None
  {
    if timeRange == "today" then Some(DayOf(now) * SecondsPerDay)
    else if timeRange == "week" then Some(now - 7 * SecondsPerDay)
    else None
  }

  /** A game is counted unless it has a timestamp before the limit. */
  predicate Counted(d: ScoreDoc, limit: Option<int>) {
    !(limit.Some? && d.timestamp.Some? && d.timestamp.value < limit.value)
  }

  /** The counted games, in stream order. */
  function CountedGames(scores: seq<ScoreDoc>, limit: Option<int>): (r: seq<ScoreDoc>)
    ensures |r| <= |scores|
  {
    if scores == [] then []
    else
      var rest := CountedGames(scores[..|scores| - 1], limit);
      var last := scores[|scores| - 1];
      assert scores == scores[..|scores| - 1] + [last];
      if Counted(last, limit) then rest + [last] else rest
  }

  /** The counted games are exactly the ledger's games on or after the limit
      and the games without a timestamp. */
  lemma {:induction false} CountedGamesExactly(scores: seq<ScoreDoc>, limit: Option<int>)
    ensures forall d :: d in CountedGames(scores, limit) <==> d in scores && Counted(d, limit)
  {
    if scores != [] {
      CountedGamesExactly(scores[..|scores| - 1], limit);
      assert scores == scores[..|scores| - 1] + [scores[|scores| - 1]];
    }
  }

  /** Each document occurs among the counted games as often as in the ledger
      if it is counted, and not at all otherwise. */
  lemma {:induction false} CountedGamesCounts(scores: seq<ScoreDoc>, limit: Option<int>)
    ensures forall d ::
      multiset(CountedGames(scores, limit))[d] == if Counted(d, limit) then multiset(scores)[d] else 0
  {
    if scores != [] {
      var init := scores[..|scores| - 1];
      CountedGamesCounts(init, limit);
      assert scores == init + [scores[|scores| - 1]];
    }
  }

  /** The filter keeps stream order: the counted games of two consecutive
      stretches of the ledger are those of the first followed by those of the
      second. */
  lemma {:induction false} CountedGamesAppend(a: seq<ScoreDoc>, b: seq<ScoreDoc>, limit: Option<int>)
    ensures CountedGames(a + b, limit) == CountedGames(a, limit) + CountedGames(b, limit)
  {
    if b == [] {
      assert a + b == a;
    } else {
      var init := b[..|b| - 1];
      CountedGamesAppend(a, init, limit);
      assert (a + b)[..|a + b| - 1] == a + init;
      assert (a + b)[|a + b| - 1] == b[|b| - 1];
    }
  }

  /** Without a filter every game counts, timestamped or not. */
  lemma {:induction false} NoFilterCountsAll(scores: seq<ScoreDoc>)
    ensures CountedGames(scores, None) == scores
  {
    if scores != [] {
      NoFilterCountsAll(scores[..|scores| - 1]);
      assert scores == scores[..|scores| - 1] + [scores[|scores| - 1]];
    }
  }

  /** Games dated today, whatever the range filter. */
  predicate DatedOn(d: ScoreDoc, day: int) {
    d.timestamp.Some? && DayOf(d.timestamp.value) == day
  }

  function GamesOn(scores: seq<ScoreDoc>, day: int): (r: seq<ScoreDoc>)
    ensures |r| <= |scores|
  {
    if scores == [] then []
    else
      var rest := GamesOn(scores[..|scores| - 1], day);
      var last := scores[|scores| - 1];
      assert scores == scores[..|scores| - 1] + [last];
      if DatedOn(last, day) then rest + [last] else rest
  }

  /** The filter keeps stream order: the games of a day in two consecutive
      stretches of the ledger are those of the first followed by those of the
      second. */
  lemma {:induction false} GamesOnAppend(a: seq<ScoreDoc>, b: seq<ScoreDoc>, day: int)
    ensures GamesOn(a + b, day) == GamesOn(a, day) + GamesOn(b, day)
  {
    if b == [] {
      assert a + b == a;
    } else {
      var init := b[..|b| - 1];
      GamesOnAppend(a, init, day);
      assert (a + b)[..|a + b| - 1] == a + init;
      assert (a + b)[|a + b| - 1] == b[|b| - 1];
    }
  }

  /** How one more ledger document extends the two filtered streams. */
  lemma FilterStep(scores: seq<ScoreDoc>, i: int, limit: Option<int>, day: int)
    requires 0 <= i < |scores|
    ensures CountedGames(scores[..i + 1], limit) ==
      if Counted(scores[i], limit) then CountedGames(scores[..i], limit) + [scores[i]]
      else CountedGames(scores[..i], limit)
    ensures GamesOn(scores[..i + 1], day) ==
      if DatedOn(scores[i], day) then GamesOn(scores[..i], day) + [scores[i]]
      else GamesOn(scores[..i], day)
  {
    assert scores[..i + 1][..i] == scores[..i];
  }

  /** Each document occurs among the games of a day as often as in the
      ledger if it is dated on that day, and not at all otherwise. */
  lemma {:induction false} GamesOnCounts(scores: seq<ScoreDoc>, day: int)
    ensures forall d ::
      multiset(GamesOn(scores, day))[d] == if DatedOn(d, day) then multiset(scores)[d] else 0
  {
    if scores != [] {
      var init := scores[..|scores| - 1];
      GamesOnCounts(init, day);
      assert scores == init + [scores[|scores| - 1]];
    }
  }

  /** The games of a day are exactly the ledger's games dated on it. */
  lemma {:induction false} GamesOnExactly(scores: seq<ScoreDoc>, day: int)
    ensures forall d :: d in GamesOn(scores, day) <==> d in scores && DatedOn(d, day)
  {
    if scores != [] {
      GamesOnExactly(scores[..|scores| - 1], day);
      assert scores == scores[..|scores| - 1] + [scores[|scores| - 1]];
    }
  }

  function UserOf(d: ScoreDoc): string { d.username.GetOr("Anon") }

  /** A record and its holder: the first game (in stream order) reaching the
      largest score, found by a strict comparison starting from 0 and "---". */
  function Record(games: seq<ScoreDoc>): (int, string)
  {
    if games == [] then (0, "---")
    else
      var best := Record(games[..|games| - 1]);
      var last := games[|games| - 1];
      if ScoreOf(last) > best.0 then (ScoreOf(last), UserOf(last)) else best
  }

  /** The record is the largest of 0 and the scores; when positive it is held
      by the first game that reaches it, otherwise nobody holds it. */
  lemma {:induction false} RecordIsFirstMax(games: seq<ScoreDoc>)
    ensures Record(games).0 >= 0
    ensures forall i | 0 <= i < |games| :: ScoreOf(games[i]) <= Record(games).0
    ensures Record(games).0 == 0 ==> Record(games).1 == "---"
    ensures Record(games).0 > 0 ==>
      exists i | 0 <= i < |games| ::
        && ScoreOf(games[i]) == Record(games).0 && UserOf(games[i]) == Record(games).1
        && forall j | 0 <= j < i :: ScoreOf(games[j]) < Record(games).0
  {
    if games != [] {
      var init := games[..|games| - 1];
      RecordIsFirstMax(init);
      assert forall i | 0 <= i < |init| :: init[i] == games[i];
      if Record(games) != Record(init) {
        var n := |games| - 1;
        assert ScoreOf(games[n]) == Record(games).0 && UserOf(games[n]) == Record(games).1;
        assert forall j | 0 <= j < n :: ScoreOf(games[j]) < Record(games).0;
      } else if Record(games).0 > 0 {
        var i :| 0 <= i < |init| && ScoreOf(init[i]) == Record(init).0 && UserOf(init[i]) == Record(init).1
                 && forall j | 0 <= j < i :: ScoreOf(init[j]) < Record(init).0;
        assert ScoreOf(games[i]) == Record(games).0;
      }
    }
  }

  /** The level of every counted game, with the default 1. */
  function CountLevel(games: seq<ScoreDoc>, level: int): (n: nat)
    ensures n <= |games|
  {
    if games == [] then 0
    else CountLevel(games[..|games| - 1], level) + (if NivelOf(games[|games| - 1]) == level then 1 else 0)
  }

  /** The levels of the games, in order. */
  function Levels(games: seq<ScoreDoc>): (r: seq<int>)
    ensures |r| == |games| && forall i | 0 <= i < |games| :: r[i] == NivelOf(games[i])
  {
    seq(|games|, i requires 0 <= i < |games| => NivelOf(games[i]))
  }

  /** The count of a level is how often it occurs among the games' levels. */
  lemma {:induction false} CountLevelIsMultiplicity(games: seq<ScoreDoc>, level: int)
    ensures CountLevel(games, level) == multiset(Levels(games))[level]
  {
    if games != [] {
      var init := games[..|games| - 1];
      CountLevelIsMultiplicity(init, level);
      assert Levels(games) == Levels(init) + [NivelOf(games[|games| - 1])];
    }
  }

  function GetCount<K>(m: map<K, int>, k: K): int { if k in m then m[k] else 0 }

  /** `m[k] = m.get(k, 0) + 1`. */
  function Bump<K>(m: map<K, int>, k: K): map<K, int> { m[k := GetCount(m, k) + 1] }

  /** The level distribution, seeded with levels 1 to 3 at 0. */
  function LevelDist(games: seq<ScoreDoc>): map<int, int>
  {
    if games == [] then map[1 := 0, 2 := 0, 3 := 0]
    else
      var m := LevelDist(games[..|games| - 1]);
      Bump(m, NivelOf(games[|games| - 1]))
  }

  /** Every level has as many games as the distribution says, levels 1 to 3
      are always present, and the values add up to the number of games. */
  lemma {:induction false} LevelDistCounts(games: seq<ScoreDoc>)
    ensures {1, 2, 3} <= LevelDist(games).Keys
    ensures forall k :: GetCount(LevelDist(games), k) == CountLevel(games, k)
    ensures MapSum.Sum(LevelDist(games)) == |games|
  {
    if games == [] {
      var m := map[1 := 0, 2 := 0, 3 := 0];
      MapSum.SumRemove(m, 1);
      MapSum.SumRemove(m - {1}, 2);
      MapSum.SumRemove(m - {1} - {2}, 3);
      assert m - {1} - {2} - {3} == map[];
    } else {
      var init := games[..|games| - 1];
      LevelDistCounts(init);
      var m := LevelDist(init);
      var lvl := NivelOf(games[|games| - 1]);
      MapSum.SumUpdate(m, lvl, GetCount(m, lvl) + 1);
    }
  }

  /** A key of the activity chart: an hour of the day for the "today" range,
      a calendar day otherwise. */
  datatype ActivityKey = HourKey(hour: int) | DateKey(day: int)

  function ActivityKeyOf(ts: int, hourly: bool): ActivityKey {
    if hourly then HourKey(HourOf(ts)) else DateKey(DayOf(ts))
  }

  /** The hours 0 to n - 1, each at 0. */
  function HourSeed(n: nat): map<ActivityKey, int> {
    map h | 0 <= h < n :: HourKey(h) := 0
  }

  lemma {:induction false} HourSeedSize(n: nat)
    ensures |HourSeed(n)| == n
  {
    if n > 0 {
      HourSeedSize(n - 1);
      var prev := HourSeed(n - 1);
      assert HourKey(n - 1) !in prev;
      assert HourSeed(n) == prev[HourKey(n - 1) := 0];
    } else {
      assert HourSeed(n) == map[];
    }
  }

  /** The seed holds exactly the hour keys `0 <= h < n`, all at 0. */
  lemma HourSeedShape(n: nat)
    ensures forall k :: k in HourSeed(n) <==> k.HourKey? && 0 <= k.hour < n
    ensures |HourSeed(n)| == n
    ensures MapSum.Sum(HourSeed(n)) == 0
  {
    HourSeedSize(n);
    MapSum.SumZero(HourSeed(n));
  }

  function InitialActivity(hourly: bool): map<ActivityKey, int> {
    if hourly then HourSeed(HoursPerDay) else map[]
  }

  /** The activity chart: one more game under the key of every counted game
      that has a timestamp. */
  function Activity(games: seq<ScoreDoc>, hourly: bool): map<ActivityKey, int>
  {
    if games == [] then InitialActivity(hourly)
    else
      var m := Activity(games[..|games| - 1], hourly);
      var last := games[|games| - 1];
      if last.timestamp.None? then m
      else
        Bump(m, ActivityKeyOf(last.timestamp.value, hourly))
  }

  function CountTimestamped(games: seq<ScoreDoc>): (n: nat)
    ensures n <= |games|
  {
    if games == [] then 0
    else CountTimestamped(games[..|games| - 1]) + (if games[|games| - 1].timestamp.Some? then 1 else 0)
  }

  /** The counts of the chart add up to the number of counted games that
      have a timestamp. */
  lemma {:induction false} ActivitySum(games: seq<ScoreDoc>, hourly: bool)
    ensures MapSum.Sum(Activity(games, hourly)) == CountTimestamped(games)
  {
    if games == [] {
      HourSeedShape(HoursPerDay);
    } else {
      var init := games[..|games| - 1];
      ActivitySum(init, hourly);
      var m := Activity(init, hourly);
      var last := games[|games| - 1];
      if last.timestamp.Some? {
        var k := ActivityKeyOf(last.timestamp.value, hourly);
        MapSum.SumUpdate(m, k, GetCount(m, k) + 1);
      }
    }
  }

  /** For "today" the chart has exactly the 24 hour keys. */
  lemma {:induction false} ActivityTodayKeys(games: seq<ScoreDoc>)
    ensures Activity(games, true).Keys == HourSeed(HoursPerDay).Keys
    ensures |Activity(games, true)| == HoursPerDay
  {
    if games != [] {
      ActivityTodayKeys(games[..|games| - 1]);
    }
    HourSeedShape(HoursPerDay);
  }

  /** How one more game extends each accumulated statistic. */
  lemma Extend(games: seq<ScoreDoc>, d: ScoreDoc, hourly: bool)
    ensures |games + [d]| == |games| + 1
    ensures LevelDist(games + [d]) == Bump(LevelDist(games), NivelOf(d))
    ensures d.timestamp.None? ==> Activity(games + [d], hourly) == Activity(games, hourly)
    ensures d.timestamp.Some? ==>
      Activity(games + [d], hourly) == Bump(Activity(games, hourly), ActivityKeyOf(d.timestamp.value, hourly))
    ensures Record(games + [d]) ==
      if ScoreOf(d) > Record(games).0 then (ScoreOf(d), UserOf(d)) else Record(games)
  {
    assert (games + [d])[..|games|] == games;
  }

  /** A game considered for a record: a strictly higher score takes it over. */
  method KeepRecord(ghost games: seq<ScoreDoc>, d: ScoreDoc, record: int, holder: string)
    returns (newRecord: int, newHolder: string)
    requires (record, holder) == Record(games)
    ensures (newRecord, newHolder) == Record(games + [d])
  {
    Extend(games, d, true);
    newRecord, newHolder := record, holder;
    var score := ScoreOf(d);
    if score > record {
      newRecord := score;
      newHolder := UserOf(d);
    }
  }

  /** A game in the range: one more game, one more at its level, one more in
      the chart when it has a timestamp, and a chance at the range record. */
  method CountGame(ghost counted: seq<ScoreDoc>, d: ScoreDoc, hourly: bool,
                   totalGames: int, levelDist: map<int, int>, activity: map<ActivityKey, int>,
                   record: int, holder: string)
    returns (newTotal: int, newLevels: map<int, int>, newActivity: map<ActivityKey, int>,
             newRecord: int, newHolder: string)
    requires totalGames == |counted| && levelDist == LevelDist(counted)
    requires activity == Activity(counted, hourly) && (record, holder) == Record(counted)
    ensures newTotal == |counted + [d]| && newLevels == LevelDist(counted + [d])
    ensures newActivity == Activity(counted + [d], hourly)
    ensures (newRecord, newHolder) == Record(counted + [d])
  {
    Extend(counted, d, hourly);
    newTotal := totalGames + 1;
    var lvl := NivelOf(d);
    newLevels := Bump(levelDist, lvl);
    newActivity := activity;
    if d.timestamp.Some? {
      var k := ActivityKeyOf(d.timestamp.value, hourly);
      newActivity := Bump(activity, k);
    }
    newRecord, newHolder := KeepRecord(counted, d, record, holder);
  }

  /** One ledger document in the pass: a game dated today may take the record
      of the day; a counted game is added to the range statistics. */
  method Visit(ghost counted: seq<ScoreDoc>, ghost today: seq<ScoreDoc>, data: ScoreDoc,
               limitDate: Option<int>, hoyDate: int, hourly: bool,
               totalGames: int, levelDist: map<int, int>, activity: map<ActivityKey, int>,
               dayRecord: int, dayHolder: string, rangeRecord: int, rangeHolder: string)
    returns (newTotal: int, newLevels: map<int, int>, newActivity: map<ActivityKey, int>,
             newDayRecord: int, newDayHolder: string, newRangeRecord: int, newRangeHolder: string)
    requires totalGames == |counted| && levelDist == LevelDist(counted)
    requires activity == Activity(counted, hourly) && (rangeRecord, rangeHolder) == Record(counted)
    requires (dayRecord, dayHolder) == Record(today)
    ensures var c := if Counted(data, limitDate) then counted + [data] else counted;
      && newTotal == |c| && newLevels == LevelDist(c) && newActivity == Activity(c, hourly)
      && (newRangeRecord, newRangeHolder) == Record(c)
    ensures (newDayRecord, newDayHolder) == Record(if DatedOn(data, hoyDate) then today + [data] else today)
  {
    var ts := data.timestamp;
    newDayRecord, newDayHolder := dayRecord, dayHolder;
    if ts.Some? && DayOf(ts.value) == hoyDate {
      newDayRecord, newDayHolder := KeepRecord(today, data, dayRecord, dayHolder);
    }
    newTotal, newLevels, newActivity, newRangeRecord, newRangeHolder :=
      totalGames, levelDist, activity, rangeRecord, rangeHolder;
    if !(limitDate.Some? && ts.Some? && ts.value < limitDate.value) {
      newTotal, newLevels, newActivity, newRangeRecord, newRangeHolder :=
        CountGame(counted, data, hourly, totalGames, levelDist, activity, rangeRecord, rangeHolder);
    }
  }

  datatype GlobalStats = GlobalStats(
    totalPlayers: int,
    totalGames: int,
    levelDistribution: map<int, int>,
    recentActivity: map<ActivityKey, int>,
    recordOfTheDay: int, recordOfTheDayUser: string,
    recordInRange: int, recordInRangeUser: string,
    activeRange: string)

  /** `get_global_stats`: one pass over the ledger updates the record of the
      day from every game dated today, skips games before the limit, and
      updates the counters, the distribution, the chart and the range record
      from the others. */
  method GetGlobalStats(db: Database, timeRange: string, now: int) returns (st: GlobalStats)
    ensures st.totalPlayers == |db.users|
    ensures st.totalGames == |CountedGames(db.scores, LimitDate(timeRange, now))|
    ensures st.levelDistribution == LevelDist(CountedGames(db.scores, LimitDate(timeRange, now)))
    ensures st.recentActivity == Activity(CountedGames(db.scores, LimitDate(timeRange, now)), timeRange == "today")
    ensures (st.recordOfTheDay, st.recordOfTheDayUser) == Record(GamesOn(db.scores, DayOf(now)))
    ensures (st.recordInRange, st.recordInRangeUser) == Record(CountedGames(db.scores, LimitDate(timeRange, now)))
    ensures st.activeRange == timeRange
  {
    var totalUsers := |db.users|;
    var limitDate := LimitDate(timeRange, now);
    var allScores := db.scores;
    var hourly := timeRange == "today";
    var totalGames := 0;
    var levelDist := map[1 := 0, 2 := 0, 3 := 0];
    var recentActivity := InitialActivity(hourly);
    var recordOfTheDay, recordOfTheDayUser := 0, "---";
    var recordInRange, recordInRangeUser := 0, "---";
    var hoyDate := DayOf(now);
    ghost var counted: seq<ScoreDoc> := [];
    ghost var today: seq<ScoreDoc> := [];
    var i := 0;
    while i < |allScores|
      invariant 0 <= i <= |allScores|
      invariant counted == CountedGames(allScores[..i], limitDate)
      invariant today == GamesOn(allScores[..i], hoyDate)
      invariant totalGames == |counted|
      invariant levelDist == LevelDist(counted)
      invariant recentActivity == Activity(counted, hourly)
      invariant recordOfTheDay == Record(today).0 && recordOfTheDayUser == Record(today).1
      invariant recordInRange == Record(counted).0 && recordInRangeUser == Record(counted).1
    {
      FilterStep(allScores, i, limitDate, hoyDate);
      var data := allScores[i];
      totalGames, levelDist, recentActivity, recordOfTheDay, recordOfTheDayUser, recordInRange, recordInRangeUser :=
        Visit(counted, today, data, limitDate, hoyDate, hourly, totalGames, levelDist, recentActivity,
              recordOfTheDay, recordOfTheDayUser, recordInRange, recordInRangeUser);
      if Counted(data, limitDate) {
        counted := counted + [data];
      }
      if DatedOn(data, hoyDate) {
        today := today + [data];
      }
      i := i + 1;
    }
    assert allScores[..i] == allScores;
    st := GlobalStats(totalUsers, totalGames, levelDist, recentActivity,
                      recordOfTheDay, recordOfTheDayUser, recordInRange, recordInRangeUser, timeRange);
  }

  // ---------------------------------------------------------------------
  // Statistics of one player (`get_user_stats`).

  /** The first name of `order` that is a user document id. */
  function FirstUser(order: seq<string>, users: map<string, Doc>): Option<string> {
    if order == [] then None
    else if order[0] in users then Some(order[0])
    else FirstUser(order[1..], users)
  }

  /** The name found is one of `order` with a user document, and no earlier
      name of `order` has one; none is found exactly when no name of `order`
      has one. */
  lemma {:induction false} FirstUserFinds(order: seq<string>, users: map<string, Doc>)
    ensures var r := FirstUser(order, users);
      && (r.Some? ==>
            && r.value in users
            && exists i | 0 <= i < |order| :: order[i] == r.value && forall j | 0 <= j < i :: order[j] !in users)
      && (r.None? <==> forall v | v in order :: v !in users)
  {
    if order != [] {
      FirstUserFinds(order[1..], users);
      assert forall v | v in order :: v == order[0] || v in order[1..];
      var r := FirstUser(order, users);
      if order[0] !in users && r.Some? {
        var i :| 0 <= i < |order[1..]| && order[1..][i] == r.value
                 && forall j | 0 <= j < i :: order[1..][j] !in users;
        assert order[i + 1] == r.value;
        assert forall j | 0 <= j < i + 1 :: order[j] !in users by {
          forall j | 0 <= j < i + 1 ensures order[j] !in users {
            if j > 0 { assert order[j] == order[1..][j - 1]; }
          }
        }
      }
    }
  }

  /** The first name of `order` that some score document carries. */
  function FirstPlayer(order: seq<string>, scores: seq<ScoreDoc>): Option<string> {
    if order == [] then None
    else if ScoresOf(scores, order[0]) != [] then Some(order[0])
    else FirstPlayer(order[1..], scores)
  }

  /** The name found is one of `order` with score documents, and no earlier
      name of `order` has any; none is found exactly when no name of `order`
      has any. */
  lemma {:induction false} FirstPlayerFinds(order: seq<string>, scores: seq<ScoreDoc>)
    ensures var r := FirstPlayer(order, scores);
      && (r.Some? ==>
            && ScoresOf(scores, r.value) != []
            && exists i | 0 <= i < |order| ::
                 order[i] == r.value && forall j | 0 <= j < i :: ScoresOf(scores, order[j]) == [])
      && (r.None? <==> forall v | v in order :: ScoresOf(scores, v) == [])
  {
    if order != [] {
      FirstPlayerFinds(order[1..], scores);
      assert forall v | v in order :: v == order[0] || v in order[1..];
      var r := FirstPlayer(order, scores);
      if ScoresOf(scores, order[0]) == [] && r.Some? {
        var i :| 0 <= i < |order[1..]| && order[1..][i] == r.value
                 && forall j | 0 <= j < i :: ScoresOf(scores, order[1..][j]) == [];
        assert order[i + 1] == r.value;
        assert forall j | 0 <= j < i + 1 :: ScoresOf(scores, order[j]) == [] by {
          forall j | 0 <= j < i + 1 ensures ScoresOf(scores, order[j]) == [] {
            if j > 0 { assert order[j] == order[1..][j - 1]; }
          }
        }
      }
    }
  }

  /** The name the statistics are for: a user document first, a player with
      games otherwise; an empty name counts as none found. */
  function TargetName(order: seq<string>, users: map<string, Doc>, scores: seq<ScoreDoc>): Option<string> {
    var byUser := FirstUser(order, users);
    if byUser.Some? && byUser != Some("") then byUser
    else
      var byGames := FirstPlayer(order, scores);
      if byGames == Some("") then None else byGames
  }

  /** The spellings tried, in the iteration order of the set: each of them
      once. */
  predicate IsOrderOf(order: seq<string>, username: string) {
    && (forall i, j | 0 <= i < j < |order| :: order[i] != order[j])
    && (set v | v in order) == Variations(username)
  }

  /** The names tried are exactly the spellings. */
  lemma OrderHoldsVariations(order: seq<string>, username: string)
    requires IsOrderOf(order, username)
    ensures forall v :: v in order <==> v in Variations(username)
  {
    forall v ensures v in order <==> v in Variations(username) {
      assert v in order <==> v in (set w | w in order);
    }
  }

  /** Whatever order the spellings are tried in, the name found is a spelling
      of the requested one: the same name up to the case of its letters. */
  lemma TargetIsSpelling(username: string, order: seq<string>, users: map<string, Doc>, scores: seq<ScoreDoc>)
    requires IsOrderOf(order, username)
    ensures var t := TargetName(order, users, scores);
      t.Some? ==> t.value in Variations(username) && |t.value| == |username| && Lower(t.value) == Lower(username)
  {
    VariationsAgreeIgnoringCase(username);
    OrderHoldsVariations(order, username);
    FirstUserFinds(order, users);
    FirstPlayerFinds(order, scores);
  }

  /** Whatever order the spellings are tried in, the name found is a user
      document when any spelling has one, and otherwise a player with games;
      nothing is found only when no spelling has either (or the name is
      empty). */
  lemma TargetPrefersUsers(username: string, order: seq<string>, users: map<string, Doc>, scores: seq<ScoreDoc>)
    requires IsOrderOf(order, username)
    ensures var t := TargetName(order, users, scores);
      && (t.Some? && (exists v | v in Variations(username) :: v in users) ==> t.value in users)
      && (t.Some? ==> t.value in users || ScoresOf(scores, t.value) != [])
      && (t.None? ==> username == "" ||
                      forall v | v in Variations(username) :: v !in users && ScoresOf(scores, v) == [])
  {
    OrderHoldsVariations(order, username);
    FirstUserFinds(order, users);
    FirstPlayerFinds(order, scores);
    var byUser := FirstUser(order, users);
    var byGames := FirstPlayer(order, scores);
    if byUser == Some("") || byGames == Some("") {
      VariationsAgreeIgnoringCase(username);
      assert |username| == 0;
    } else if byUser.None? {
      assert forall v | v in Variations(username) :: v !in users;
      if byGames.None? {
        assert forall v | v in Variations(username) :: ScoresOf(scores, v) == [];
      }
    }
  }

  /** A game of the player's list. */
  datatype Game = Game(score: int, nivel: int, timestamp: Option<int>)

  function GameOf(d: ScoreDoc): Game { Game(ScoreOf(d), NivelOf(d), d.timestamp) }

  function GameTime(g: Game): Option<int> { g.timestamp }

  function Games(stream: seq<ScoreDoc>): (r: seq<Game>)
    ensures |r| == |stream| && forall j | 0 <= j < |stream| :: r[j] == GameOf(stream[j])
  {
    seq(|stream|, j requires 0 <= j < |stream| => GameOf(stream[j]))
  }

  /** The sort key is the timestamp, or `datetime.min` for a game without one.
      Stored timestamps carry a time zone and `datetime.min` does not: a list
      holding games of both kinds cannot be sorted (a TypeError). */
  predicate GameKeysComparable(games: seq<Game>) {
    || (forall i | 0 <= i < |games| :: games[i].timestamp.Some?)
    || (forall i | 0 <= i < |games| :: games[i].timestamp.None?)
  }

  function TotalScore(games: seq<Game>): int {
    if games == [] then 0 else TotalScore(games[..|games| - 1]) + games[|games| - 1].score
  }

  /** `max(...) if games else 0`. */
  function MaxScore(games: seq<Game>): (m: int)
    ensures games == [] ==> m == 0
    ensures forall i | 0 <= i < |games| :: games[i].score <= m
    ensures games != [] ==> exists i | 0 <= i < |games| :: games[i].score == m
  {
    if games == [] then 0
    else if |games| == 1 then games[0].score
    else
      var m := MaxScore(games[..|games| - 1]);
      var last := games[|games| - 1].score;
      assert forall i | 0 <= i < |games| - 1 :: games[..|games| - 1][i] == games[i];
      if last > m then last else m
  }

  lemma {:induction false} TotalScoreAppend(a: seq<Game>, b: seq<Game>)
    ensures TotalScore(a + b) == TotalScore(a) + TotalScore(b)
  {
    if b == [] {
      assert a + b == a;
    } else {
      TotalScoreAppend(a, b[..|b| - 1]);
      assert (a + b)[..|a + b| - 1] == a + b[..|b| - 1];
    }
  }

  /** The total does not depend on the order of the games. */
  lemma {:induction false} TotalScorePermutation(a: seq<Game>, b: seq<Game>)
    requires multiset(a) == multiset(b)
    ensures TotalScore(a) == TotalScore(b)
  {
    if a == [] {
      assert |b| == |multiset(b)| == 0;
    } else {
      var x := a[|a| - 1];
      assert x in multiset(b);
      var k :| 0 <= k < |b| && b[k] == x;
      var rest := b[..k] + b[k + 1..];
      assert b == b[..k] + [x] + b[k + 1..];
      assert a == a[..|a| - 1] + [x];
      assert multiset(b) == multiset(b[..k]) + multiset{x} + multiset(b[k + 1..]);
      assert multiset(rest) == multiset(b[..k]) + multiset(b[k + 1..]);
      assert multiset(a) == multiset(a[..|a| - 1]) + multiset{x};
      assert multiset(a[..|a| - 1]) == multiset(a) - multiset{x};
      assert multiset(rest) == multiset(b) - multiset{x};
      TotalScorePermutation(a[..|a| - 1], rest);
      TotalScoreAppend(b[..k], [x]);
      TotalScoreAppend(b[..k] + [x], b[k + 1..]);
      TotalScoreAppend(b[..k], b[k + 1..]);
    }
  }

  /** The maximum does not depend on the order of the games. */
  lemma MaxScorePermutation(a: seq<Game>, b: seq<Game>)
    requires multiset(a) == multiset(b)
    ensures MaxScore(a) == MaxScore(b)
  {
    forall i | 0 <= i < |a| ensures a[i].score <= MaxScore(b) {
      assert a[i] in multiset(b);
    }
    forall i | 0 <= i < |b| ensures b[i].score <= MaxScore(a) {
      assert b[i] in multiset(a);
    }
    if a != [] {
      var i :| 0 <= i < |a| && a[i].score == MaxScore(a);
      assert a[i] in multiset(b);
      assert b != [];
    } else {
      assert |b| == |multiset(b)| == 0;
    }
  }

  datatype UserStats =
    | NotFound
    | Found(username: string, totalGames: int, totalScore: int, maxScore: int, games: seq<Game>)

  /** The first search of `get_user_stats`: the spellings as user document ids. */
  method SearchUsers(users: map<string, Doc>, order: seq<string>) returns (target: Option<string>)
    ensures target == FirstUser(order, users)
  {
    target := None;
    var i := 0;
    while i < |order| && target.None?
      invariant 0 <= i <= |order|
      invariant target.None? ==> FirstUser(order, users) == FirstUser(order[i..], users)
      invariant target.Some? ==> target == FirstUser(order, users)
    {
      assert order[i..] == [order[i]] + order[i + 1..];
      if order[i] in users {
        target := Some(order[i]);
      }
      i := i + 1;
    }
  }

  /** The second search: the spellings as player names with score documents. */
  method SearchPlayers(scores: seq<ScoreDoc>, order: seq<string>) returns (target: Option<string>)
    ensures target == FirstPlayer(order, scores)
  {
    target := None;
    var i := 0;
    while i < |order| && target.None?
      invariant 0 <= i <= |order|
      invariant target.None? ==> FirstPlayer(order, scores) == FirstPlayer(order[i..], scores)
      invariant target.Some? ==> target == FirstPlayer(order, scores)
    {
      assert order[i..] == [order[i]] + order[i + 1..];
      if ScoresOf(scores, order[i]) != [] {
        target := Some(order[i]);
      }
      i := i + 1;
    }
  }

  /** The two searches of `get_user_stats`: the spellings as user document
      ids, then, when that finds no (non-empty) name, as players with games. */
  method FindTarget(db: Database, order: seq<string>) returns (target: Option<string>)
    ensures target == TargetName(order, db.users, db.scores)
  {
    target := SearchUsers(db.users, order);
    if target.None? || target == Some("") {
      target := SearchPlayers(db.scores, order);
    }
    if target == Some("") {
      target := None;
    }
  }

  /** The loop of `get_user_stats` building one game per score document. */
  method CollectGames(stream: seq<ScoreDoc>) returns (games: seq<Game>)
    ensures games == Games(stream)
  {
    games := [];
    var i := 0;
    while i < |stream|
      invariant 0 <= i <= |stream|
      invariant |games| == i
      invariant forall j | 0 <= j < i :: games[j] == GameOf(stream[j])
    {
      var d := stream[i];
      games := games + [Game(ScoreOf(d), NivelOf(d), d.timestamp)];
      i := i + 1;
    }
  }

  /** `get_user_stats`, given the spellings of the requested name in the order
      the set yields them (`IsOrderOf`): they are tried as user document ids, then as
      players with games; without a name `{"found": False}`. Otherwise the
      name's games are listed, sorted newest first (a crash when their
      timestamps cannot be compared) and summed up. */
  method GetUserStats(db: Database, order: seq<string>) returns (r: Result<UserStats, Failure>)
    ensures TargetName(order, db.users, db.scores).None? ==> r == Ok(NotFound)
    ensures TargetName(order, db.users, db.scores).Some? ==>
      var target := TargetName(order, db.users, db.scores).value;
      var games := Games(ScoresOf(db.scores, target));
      && (!GameKeysComparable(games) ==> r.Err? && r.error.Crash?)
      && (GameKeysComparable(games) ==>
            var sorted := SortDesc(games, GameTime);
            r == Ok(Found(target, |sorted|, TotalScore(sorted), MaxScore(sorted), sorted)))
  {
    var target := FindTarget(db, order);
    if target.None? {
      return Ok(NotFound);
    }
    var games := CollectGames(ScoresOf(db.scores, target.value));
    if !GameKeysComparable(games) {
      return Err(Crash("TypeError: can't compare offset-naive and offset-aware datetimes"));
    }
    var sorted := SortDesc(games, GameTime);
    r := Ok(Found(target.value, |sorted|, TotalScore(sorted), MaxScore(sorted), sorted));
  }

  /** The totals of a found player describe all of their games in stream
      order: the count, the sum and the largest score, with the list newest
      first and holding exactly those games. */
  lemma FoundStatsDescribeGames(stream: seq<ScoreDoc>)
    requires GameKeysComparable(Games(stream))
    ensures var games := Games(stream);
      var sorted := SortDesc(games, GameTime);
      && |sorted| == |stream|
      && multiset(sorted) == multiset(games)
      && SortedDesc(sorted, GameTime)
      && TotalScore(sorted) == TotalScore(games)
      && MaxScore(sorted) == MaxScore(games)
  {
    var games := Games(stream);
    SortDescSorted(games, GameTime);
    TotalScorePermutation(SortDesc(games, GameTime), games);
    MaxScorePermutation(SortDesc(games, GameTime), games);
  }
}
