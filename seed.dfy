/**
 * The state the games router starts with: two hand-written games followed by
 * 200 placeholders with ids 3..202, and a stats array of two hand-written
 * entries followed by 200 generated ones, reached by the array indices
 * "0".."201". The generated stats come from `Math.random()`, whose outcomes
 * are a parameter here.
 */
module Seed {

  import opened Json
  import opened Catalogue
  import opened CatalogueProperties
  import JsParseInt

  const CounterStrike: Obj := map[
    "id" := Num(1.0),
    "title" := Str("Counter Strike 2"),
    "bannerImage" := Str("/images/Cs2-banner.png"),
    "image" := Str("/images/Cs2.jpg"),
    "description" := Str("For over two decades, Counter-Strike has offered an elite competitive experience..."),
    "developer" := Str("Valve"),
    "releaseDate" := Str("1 July 2023"),
    "averageReviews" := Str("3/5"),
    "tags" := Arr([Str("FPS"), Str("Multiplayer"), Str("Shooter")]),
    "price" := Str("Free")
  ]

  const DarkSouls: Obj := map[
    "id" := Num(2.0),
    "title" := Str("Dark Souls III"),
    "bannerImage" := Str("/images/header.jpg"),
    "image" := Str("/images/ds3cover.jpg"),
    "description" := Str("As fires fade and the world falls into ruin..."),
    "developer" := Str("FromSoftware"),
    "releaseDate" := Str("11 Apr 2016"),
    "averageReviews" := Str("5/5"),
    "tags" := Arr([Str("Souls-like"), Str("Rpg"), Str("Dark Fantasy")]),
    "price" := Str("40$")
  ]

  /**
   * The generated game with id `n`: what POST /games would store for a body
   * holding only the id, the title `Game n` and the price `N/A`.
   */
  function Placeholder(n: nat): (g: Obj)
    ensures g == WithDefaults(map["id" := Num(n as real), "title" := Str("Game " + JsParseInt.DecimalString(n)), "price" := Str("N/A")])
  {
    map[
      "id" := Num(n as real),
      "title" := Str("Game " + JsParseInt.DecimalString(n)),
      "bannerImage" := Str("/images/placeholder.jpg"),
      "image" := Str("/images/placeholder.jpg"),
      "description" := Str("No description available."),
      "developer" := Str("Unknown"),
      "releaseDate" := Str("N/A"),
      "averageReviews" := Str("0"),
      "tags" := Arr([Str("Unknown")]),
      "price" := Str("N/A")
    ]
  }

  /** The initial `games` list: the game at position `k` has id `k + 1`. */
  function SeedGames(): (games: seq<Obj>)
    ensures |games| == 202
    ensures forall k :: 0 <= k < |games| ==> Get(games[k], "id") == Some(Num((k + 1) as real))
  {
    [CounterStrike, DarkSouls] + seq(200, i requires 0 <= i => Placeholder(i + 3))
  }

  /** The seed ids 1..202 are distinct. */
  lemma SeedIdsDistinct()
    ensures DistinctIds(SeedGames())
  {
    var games := SeedGames();
    forall i, j | 0 <= i < j < |games|
      ensures !StrictEquals(Get(games[i], "id"), Get(games[j], "id"))
    {
    }
  }

  /** The outcome of the `Math.random()` calls for one generated stats entry. */
  datatype StatsRoll = StatsRoll(achievements: nat, hoursPlayed: nat, finished: bool, scoreTenths: nat)

  /**
   * `Math.floor(r * 50)`, `Math.floor(r * 200)` and `(r * 10).toFixed(1)` for
   * `r` in [0, 1): the score, in tenths, can round up to 10.0.
   */
  predicate ValidRoll(roll: StatsRoll)
  {
    roll.achievements < 50 && roll.hoursPlayed < 200 && roll.scoreTenths <= 100
  }

  /** `toFixed(1)` of a score given in tenths: a string, not a number. */
  function ScoreText(tenths: nat): (s: string)
    ensures |s| >= 3 && s[|s| - 2] == '.'
    ensures JsParseInt.AllDigits(s[..|s| - 2], 10) && JsParseInt.IsDigit(s[|s| - 1], 10)
    ensures JsParseInt.ValueOf(s[..|s| - 2], 10) * 10 + JsParseInt.DigitValue(s[|s| - 1]) == tenths
  {
    var whole := JsParseInt.DecimalString(tenths / 10);
    var s := whole + "." + JsParseInt.DecimalString(tenths % 10);
    JsParseInt.DecimalValue(tenths / 10);
    assert s[..|s| - 2] == whole;
    s
  }

  const FirstStats: Obj := map[
    "userId" := Num(1.0),
    "achievements" := Num(15.0),
    "hoursPlayed" := Num(50.0),
    "finished" := Bool(true),
    "score" := Num(8.5),
    "review" := Str("Amazing game, lots of fun!")
  ]

  const SecondStats: Obj := map[
    "userId" := Num(2.0),
    "achievements" := Num(25.0),
    "hoursPlayed" := Num(130.0),
    "finished" := Bool(true),
    "score" := Num(10.0),
    "review" := Str("Praise the sun!")
  ]

  /** The generated stats entry for user `userId`. */
  function GeneratedStats(userId: nat, roll: StatsRoll): (e: Obj)
    ensures e.Keys == FirstStats.Keys
    ensures Get(e, "userId") == Some(Num(userId as real))
    ensures !ValidStats(e)
  {
    map[
      "userId" := Num(userId as real),
      "achievements" := Num(roll.achievements as real),
      "hoursPlayed" := Num(roll.hoursPlayed as real),
      "finished" := Bool(roll.finished),
      "score" := Str(ScoreText(roll.scoreTenths)),
      "review" := Str("No review yet.")
    ]
  }

  /** A JavaScript array seen as an object: element `k` under the key `String(k)`. */
  function ArrayEntries(elems: seq<Obj>): (m: map<string, Obj>)
    ensures forall k :: 0 <= k < |elems| ==>
      JsParseInt.DecimalString(k) in m && m[JsParseInt.DecimalString(k)] == elems[k]
    ensures forall key :: key in m ==> exists k :: 0 <= k < |elems| && key == JsParseInt.DecimalString(k)
  {
    if elems == [] then map[]
    else
      var n := |elems| - 1;
      var m := ArrayEntries(elems[..n]);
      forall k | 0 <= k < n
        ensures JsParseInt.DecimalString(k) != JsParseInt.DecimalString(n)
      {
        JsParseInt.DecimalStringInjective(k, n);
      }
      m[JsParseInt.DecimalString(n) := elems[n]]
  }

  /** The outcomes of the 200 draws the seed makes. */
  predicate ValidRolls(rolls: seq<StatsRoll>)
  {
    |rolls| == 200 && forall k :: 0 <= k < |rolls| ==> ValidRoll(rolls[k])
  }

  /** The initial `userStats` array: two written entries, then one per draw for users 3..202. */
  function SeedStatsArray(rolls: seq<StatsRoll>): (elems: seq<Obj>)
    requires ValidRolls(rolls)
    ensures |elems| == 202 && elems[0] == FirstStats && elems[1] == SecondStats
    ensures forall k :: 2 <= k < 202 ==> elems[k] == GeneratedStats(k + 1, rolls[k - 2])
  {
    [FirstStats, SecondStats] + seq(|rolls|, i requires 0 <= i < |rolls| => GeneratedStats(i + 3, rolls[i]))
  }

  /** The initial `userStats`, as the router's bracket access sees it. */
  function SeedStats(rolls: seq<StatsRoll>): map<string, Obj>
    requires ValidRolls(rolls)
  {
    ArrayEntries(SeedStatsArray(rolls))
  }

  function SeedDb(rolls: seq<StatsRoll>): Db
    requires ValidRolls(rolls)
  {
    Db(SeedGames(), SeedStats(rolls))
  }

  // ---------------------------------------------------------------------------
  // The router's own examples, against the current seed

  /** Game 1 is found through the path "1". */
  lemma SeedFirstMatchOne(games: seq<Obj>)
    requires games == SeedGames()
    ensures IsFirstMatch(games, "1", 0)
  {
    JsParseInt.ParseIntDecimal(1, []);
    assert JsParseInt.DecimalString(1) + [] == "1";
  }

  /** No seed game is reached through the path "999". */
  lemma SeedNoMatch999(games: seq<Obj>)
    requires games == SeedGames()
    ensures NoMatch(games, "999")
  {
    JsParseInt.ParseIntDecimal(999, []);
    assert JsParseInt.DecimalString(999) + [] == "999" by {
      assert JsParseInt.DecimalString(99) == "99";
    }
  }

  /** GET /games lists all 202 seed games, Counter Strike 2 first. */
  lemma SeedListGames(db: Db)
    requires db.games == SeedGames()
    ensures var r := ListGames(db).response;
            r.status == 200 && r.payload.Records? && |r.payload.objs| == 202 &&
            r.payload.objs[0]["title"] == Str("Counter Strike 2")
  {
  }

  /** GET /games/1 finds Counter Strike 2; GET /games/999 finds nothing. */
  lemma SeedGetGame(db: Db)
    requires db.games == SeedGames()
    ensures GetGame(db, "1").response == Response(200, Record(CounterStrike))
    ensures GetGame(db, "999").response == Response(404, Error(GameNotFound))
  {
    SeedFirstMatchOne(db.games);
    SeedNoMatch999(db.games);
  }

  /** PUT /games/999 and DELETE /games/999 find nothing and change nothing. */
  lemma SeedUpdateDeleteMissing(db: Db)
    requires db.games == SeedGames()
    ensures UpdateGame(db, "999", map["title" := Str("Updated")]) == Outcome(Response(404, Error(GameNotFound)), db)
    ensures DeleteGame(db, "999") == Outcome(Response(404, Error(GameNotFound)), db)
  {
    SeedNoMatch999(db.games);
  }

  /**
   * POST /games/1/stats with three numbers is accepted whatever else the body
   * holds, and GET /user-stats/1 then reads the new score 9.
   */
  lemma SeedPostStats(db: Db)
    ensures var body := map["achievements" := Num(30.0), "hoursPlayed" := Num(75.0), "score" := Num(9.0),
                            "review" := Str("Great game!")];
            var out := PostStats(db, "1", body);
            out.response == Response(201, Record(body)) &&
            "1" in out.db.stats && out.db.stats["1"]["score"] == Num(9.0) &&
            GetStats(out.db, "1").response == Response(200, Record(body))
  {
    var body := map["achievements" := Num(30.0), "hoursPlayed" := Num(75.0), "score" := Num(9.0),
                    "review" := Str("Great game!")];
    assert ValidStats(body);
  }

  /** POST /games/1/stats with a string `achievements` is refused and stores nothing. */
  lemma SeedPostStatsInvalid(db: Db)
    ensures PostStats(db, "1", map["achievements" := Str("not a number")])
            == Outcome(Response(400, Error(InvalidStatsFormat)), db)
  {
  }

  /** Keys past the end of an array are not among its entries. */
  lemma ArrayEntriesBeyond(elems: seq<Obj>, n: nat)
    requires n >= |elems|
    ensures JsParseInt.DecimalString(n) !in ArrayEntries(elems)
  {
    forall k | 0 <= k < |elems|
      ensures JsParseInt.DecimalString(n) != JsParseInt.DecimalString(k)
    {
      JsParseInt.DecimalStringInjective(k, n);
    }
  }

  /**
   * GET /user-stats/1 reads array index 1, the entry of user 2 with score 10;
   * GET /user-stats/999 finds nothing.
   */
  lemma SeedGetStats(db: Db, rolls: seq<StatsRoll>)
    requires ValidRolls(rolls) && db.stats == SeedStats(rolls)
    ensures GetStats(db, "1").response == Response(200, Record(SecondStats))
    ensures SecondStats["score"] == Num(10.0)
    ensures GetStats(db, "999").response == Response(404, Error(StatsNotFound))
  {
    SeedStatsOne(rolls);
    SeedStatsNo999(rolls);
  }

  lemma SeedStatsOne(rolls: seq<StatsRoll>)
    requires ValidRolls(rolls)
    ensures "1" in SeedStats(rolls) && SeedStats(rolls)["1"] == SecondStats
  {
    var elems := SeedStatsArray(rolls);
    assert JsParseInt.DecimalString(1) == "1";
  }

  lemma SeedStatsNo999(rolls: seq<StatsRoll>)
    requires ValidRolls(rolls)
    ensures "999" !in SeedStats(rolls)
  {
    var elems := SeedStatsArray(rolls);
    assert JsParseInt.DecimalString(999) == "999" by {
      assert JsParseInt.DecimalString(99) == "99";
    }
    ArrayEntriesBeyond(elems, 999);
  }

  /** No seed game has an id of `n` when `n` is past 202. */
  lemma SeedIdsBelow(n: nat)
    requires n > 202
    ensures !IdTaken(SeedGames(), Some(Num(n as real)))
  {
    var games := SeedGames();
    forall k | 0 <= k < |games|
      ensures !StrictEquals(Get(games[k], "id"), Some(Num(n as real)))
    {
    }
  }

  /** POST /games with an id the seed already has (1, or 3) is refused; one without a title too. */
  lemma SeedCreateRefused(db: Db)
    requires db.games == SeedGames()
    ensures CreateGame(db, map["id" := Num(1.0), "title" := Str("Duplicate Game")]).response
            == Response(400, Error(GameIdExists))
    ensures CreateGame(db, map["id" := Num(3.0), "title" := Str("New Test Game"), "price" := Str("29.99$")]).response
            == Response(400, Error(GameIdExists))
    ensures CreateGame(db, map["id" := Num(3.0)]).response == Response(400, Error(IdAndTitleRequired))
  {
    assert StrictEquals(Get(db.games[0], "id"), Some(Num(1.0)));
    assert StrictEquals(Get(db.games[2], "id"), Some(Num(3.0)));
  }

  /** POST /games with a fresh id appends it with the default fields filled in. */
  lemma SeedCreateFresh(db: Db)
    requires db.games == SeedGames()
    ensures var body := map["id" := Num(203.0), "title" := Str("New Test Game"), "price" := Str("29.99$")];
            var out := CreateGame(db, body);
            out.response.status == 201 && |out.db.games| == 203 &&
            out.db.games[202]["price"] == Str("29.99$") && out.db.games[202]["developer"] == Str("Unknown")
  {
    var body := map["id" := Num(203.0), "title" := Str("New Test Game"), "price" := Str("29.99$")];
    SeedIdsBelow(203);
    assert Truthy(Get(body, "id")) && Truthy(Get(body, "title"));
    var g := WithDefaults(body);
    DefaultsFilled(body);
    assert CreateGame(db, body).db.games == db.games + [g];
  }

  /** The created record keeps the body's price and takes the default developer. */
  lemma DefaultsFilled(body: Obj)
    requires body == map["id" := Num(203.0), "title" := Str("New Test Game"), "price" := Str("29.99$")]
    ensures WithDefaults(body)["price"] == Str("29.99$") && WithDefaults(body)["developer"] == Str("Unknown")
  {
    assert "developer" !in body && Defaults["developer"] == Str("Unknown");
  }

  /** PUT /games/1 changes title and description and keeps the price. */
  lemma SeedUpdateGame(db: Db)
    requires db.games == SeedGames()
    ensures var out := UpdateGame(db, "1", map["title" := Str("Updated Title"), "description" := Str("New description")]);
            out.response.status == 200 && out.response.payload.Record? &&
            out.response.payload.obj["title"] == Str("Updated Title") &&
            out.response.payload.obj["description"] == Str("New description") &&
            out.response.payload.obj["price"] == Str("Free")
  {
    var body := map["title" := Str("Updated Title"), "description" := Str("New description")];
    SeedFirstMatchOne(db.games);
    assert db.games[0] == CounterStrike;
    assert "price" !in body;
  }

  /** DELETE /games/1 returns Counter Strike 2, leaves 201 games and drops the stats under "1". */
  lemma SeedDeleteGame(db: Db)
    requires db.games == SeedGames()
    ensures var out := DeleteGame(db, "1");
            out.response == Response(200, Record(CounterStrike)) &&
            |out.db.games| == 201 && "1" !in out.db.stats
  {
    SeedFirstMatchOne(db.games);
  }
}
