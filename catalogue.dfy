/**
 * The games catalogue and per-game stats store behind the games router,
 * written as pure functions: each handler takes the router's state (the
 * `games` list and the `userStats` entries) and the request, and gives the
 * response it sends and the state it leaves behind.
 *
 * Games are addressed by `parseInt` of the `:id` path parameter; stats
 * entries by the raw path parameter, so `/games/01` and `/games/1` reach the
 * same game but different stats keys.
 */
module Catalogue {

  import opened Json
  import JsParseInt

  const GameNotFound := "Game not found"
  const StatsNotFound := "Stats not found"
  const IdAndTitleRequired := "ID and title are required"
  const GameIdExists := "Game ID already exists"
  const InvalidStatsFormat := "Invalid stats format"

  /** The JSON document a handler sends; `Error(m)` goes out as `{ "error": m }`. */
  datatype Payload = Record(obj: Obj) | Records(objs: seq<Obj>) | Error(message: string)

  datatype Response = Response(status: int, payload: Payload)

  /** The router's module-level state: the ordered `games` list and the stats entries by key. */
  datatype Db = Db(games: seq<Obj>, stats: map<string, Obj>)

  /** What one request produces: the response sent and the state afterwards. */
  datatype Outcome = Outcome(response: Response, db: Db)

  /** The fields a created game gets when its body does not supply them. */
  const Defaults: Obj := map[
    "bannerImage" := Str("/images/placeholder.jpg"),
    "image" := Str("/images/placeholder.jpg"),
    "description" := Str("No description available."),
    "developer" := Str("Unknown"),
    "releaseDate" := Str("N/A"),
    "averageReviews" := Str("0"),
    "tags" := Arr([Str("Unknown")]),
    "price" := Str("10$")
  ]

  // ---------------------------------------------------------------------------
  // Searches

  /** `g.id === parseInt(p)`: false whenever `p` parses to NaN. */
  function IdMatches(g: Obj, p: string): (m: bool)
    ensures m ==> JsParseInt.ParseInt(p).Some?
    ensures m ==> "id" in g && g["id"] == Num(JsParseInt.ParseInt(p).value as real)
    ensures JsParseInt.ParseInt(p).Some? && Get(g, "id") == Some(Num(JsParseInt.ParseInt(p).value as real)) ==> m
  {
    match JsParseInt.ParseInt(p)
    case None => false
    case Some(n) => StrictEquals(Get(g, "id"), Some(Num(n as real)))
  }

  predicate NoMatch(games: seq<Obj>, p: string)
  {
    forall k :: 0 <= k < |games| ==> !IdMatches(games[k], p)
  }

  /** `i` is the position of the first game that `p` addresses. */
  predicate IsFirstMatch(games: seq<Obj>, p: string, i: int)
  {
    0 <= i < |games| && IdMatches(games[i], p) &&
    forall k :: 0 <= k < i ==> !IdMatches(games[k], p)
  }

  /** `games.findIndex(g => g.id === parseInt(p))`, with -1 for "none". */
  function FindIndex(games: seq<Obj>, p: string): (i: int)
    ensures i == -1 || IsFirstMatch(games, p, i)
    ensures i == -1 <==> NoMatch(games, p)
  {
    if games == [] then -1
    else if IdMatches(games[0], p) then 0
    else
      var j := FindIndex(games[1..], p);
      assert forall k :: 1 <= k < |games| ==> games[k] == games[1..][k - 1];
      if j == -1 then -1 else j + 1
  }

  /** `games.find(g => g.id === parseInt(p))`, with `None` for `undefined`. */
  function Find(games: seq<Obj>, p: string): (r: Option<Obj>)
    ensures r.None? <==> NoMatch(games, p)
    ensures r.Some? ==> exists i :: IsFirstMatch(games, p, i) && games[i] == r.value
  {
    var i := FindIndex(games, p);
    if i == -1 then None else Some(games[i])
  }

  /** Some game's `id` is strictly equal to `id`. */
  predicate IdTaken(games: seq<Obj>, id: Option<Value>)
  {
    exists k :: 0 <= k < |games| && StrictEquals(Get(games[k], "id"), id)
  }

  /** `games.some(game => game.id === id)` */
  function HasId(games: seq<Obj>, id: Option<Value>): (b: bool)
    ensures b <==> IdTaken(games, id)
  {
    if games == [] then false
    else if StrictEquals(Get(games[0], "id"), id) then true
    else
      var b := HasId(games[1..], id);
      assert forall k :: 1 <= k < |games| ==> games[k] == games[1..][k - 1];
      b
  }

  // ---------------------------------------------------------------------------
  // Records

  /** `{ ...a, ...b }`: every property of `b`, and those of `a` that `b` lacks. */
  function Spread(a: Obj, b: Obj): (r: Obj)
    ensures r.Keys == a.Keys + b.Keys
    ensures forall k :: k in b ==> r[k] == b[k]
    ensures forall k :: k in a && k !in b ==> r[k] == a[k]
  {
    a + b
  }

  /** A new game: the defaults, each overridden by the body when the body has that key. */
  function WithDefaults(body: Obj): (g: Obj)
    ensures g.Keys == Defaults.Keys + body.Keys
    ensures forall k :: k in body ==> g[k] == body[k]
    ensures forall k :: k in Defaults && k !in body ==> g[k] == Defaults[k]
    ensures Get(g, "id") == Get(body, "id")
    ensures g["price"] == if "price" in body then body["price"] else Str("10$")
  {
    Spread(Defaults, body)
  }

  /** The three fields the stats handler checks are numbers; `finished` and `review` are not checked. */
  function ValidStats(body: Obj): (v: bool)
    ensures v ==> "achievements" in body && "hoursPlayed" in body && "score" in body
    ensures v ==> body["achievements"].Num? && body["hoursPlayed"].Num? && body["score"].Num?
    ensures "score" in body && body["score"].Str? ==> !v
    ensures ("achievements" in body && body["achievements"].Num? && "hoursPlayed" in body &&
             body["hoursPlayed"].Num? && "score" in body && body["score"].Num?) ==> v
  {
    IsNumber(Get(body, "achievements")) && IsNumber(Get(body, "hoursPlayed")) && IsNumber(Get(body, "score"))
  }

  // ---------------------------------------------------------------------------
  // Handlers

  /** GET /games */
  function ListGames(db: Db): (out: Outcome)
    ensures out.db == db
    ensures out.response.status == 200 && out.response.payload == Records(db.games)
  {
    Outcome(Response(200, Records(db.games)), db)
  }

  /** GET /games/:id */
  function GetGame(db: Db, p: string): (out: Outcome)
    ensures out.db == db
    ensures NoMatch(db.games, p) ==> out.response == Response(404, Error(GameNotFound))
    ensures forall i :: IsFirstMatch(db.games, p, i) ==> out.response == Response(200, Record(db.games[i]))
  {
    match Find(db.games, p)
    case None => Outcome(Response(404, Error(GameNotFound)), db)
    case Some(g) => Outcome(Response(200, Record(g)), db)
  }

  /** GET /user-stats/:gameId */
  function GetStats(db: Db, key: string): (out: Outcome)
    ensures out.db == db
    ensures key in db.stats ==> out.response == Response(200, Record(db.stats[key]))
    ensures key !in db.stats ==> out.response == Response(404, Error(StatsNotFound))
  {
    if key in db.stats then Outcome(Response(200, Record(db.stats[key])), db)
    else Outcome(Response(404, Error(StatsNotFound)), db)
  }

  /** POST /games */
  function CreateGame(db: Db, body: Obj): (out: Outcome)
    ensures out.db.stats == db.stats
    ensures !Truthy(Get(body, "id")) || !Truthy(Get(body, "title")) ==>
      out == Outcome(Response(400, Error(IdAndTitleRequired)), db)
    ensures Truthy(Get(body, "id")) && Truthy(Get(body, "title")) && IdTaken(db.games, Get(body, "id")) ==>
      out == Outcome(Response(400, Error(GameIdExists)), db)
    ensures Truthy(Get(body, "id")) && Truthy(Get(body, "title")) && !IdTaken(db.games, Get(body, "id")) ==>
      out.response == Response(201, Record(WithDefaults(body))) &&
      out.db.games == db.games + [WithDefaults(body)]
  {
    if !Truthy(Get(body, "id")) || !Truthy(Get(body, "title")) then
      Outcome(Response(400, Error(IdAndTitleRequired)), db)
    else if HasId(db.games, Get(body, "id")) then
      Outcome(Response(400, Error(GameIdExists)), db)
    else
      var g := WithDefaults(body);
      Outcome(Response(201, Record(g)), db.(games := db.games + [g]))
  }

  /** POST /games/:id/stats: no check that the game exists. */
  function PostStats(db: Db, key: string, body: Obj): (out: Outcome)
    ensures out.db.games == db.games
    ensures !ValidStats(body) ==> out == Outcome(Response(400, Error(InvalidStatsFormat)), db)
    ensures ValidStats(body) ==> out.response == Response(201, Record(body))
    ensures ValidStats(body) ==> key in out.db.stats && out.db.stats[key] == body
    ensures forall k :: k != key ==> (k in out.db.stats <==> k in db.stats)
    ensures forall k :: k != key && k in db.stats ==> out.db.stats[k] == db.stats[k]
  {
    if !ValidStats(body) then Outcome(Response(400, Error(InvalidStatsFormat)), db)
    else Outcome(Response(201, Record(body)), db.(stats := db.stats[key := body]))
  }

  /** PUT /games/:id: the body may carry an `id` of its own, which is stored as given. */
  function UpdateGame(db: Db, p: string, body: Obj): (out: Outcome)
    ensures out.db.stats == db.stats
    ensures NoMatch(db.games, p) ==> out == Outcome(Response(404, Error(GameNotFound)), db)
    ensures forall i :: IsFirstMatch(db.games, p, i) ==>
      && |out.db.games| == |db.games|
      && out.db.games[i] == Spread(db.games[i], body)
      && (forall k :: 0 <= k < |db.games| && k != i ==> out.db.games[k] == db.games[k])
      && out.response == Response(200, Record(out.db.games[i]))
  {
    var i := FindIndex(db.games, p);
    if i == -1 then Outcome(Response(404, Error(GameNotFound)), db)
    else
      var g := Spread(db.games[i], body);
      Outcome(Response(200, Record(g)), db.(games := db.games[i := g]))
  }

  /** DELETE /games/:id: removes the game found by `parseInt(p)` and the stats entry under `p` itself. */
  function DeleteGame(db: Db, p: string): (out: Outcome)
    ensures NoMatch(db.games, p) ==> out == Outcome(Response(404, Error(GameNotFound)), db)
    ensures forall i :: IsFirstMatch(db.games, p, i) ==>
      && out.response == Response(200, Record(db.games[i]))
      && |out.db.games| == |db.games| - 1
      && out.db.games[..i] == db.games[..i]
      && out.db.games[i..] == db.games[i + 1..]
      && out.db.stats.Keys == db.stats.Keys - {p}
      && (forall k :: k in out.db.stats ==> out.db.stats[k] == db.stats[k])
  {
    var i := FindIndex(db.games, p);
    if i == -1 then Outcome(Response(404, Error(GameNotFound)), db)
    else Outcome(Response(200, Record(db.games[i])), Db(db.games[..i] + db.games[i + 1..], db.stats - {p}))
  }

  // ---------------------------------------------------------------------------
  // The router

  /** The seven routes of the games router. */
  datatype Request =
    | GetGames
    | GetGamesId(id: string)
    | GetUserStatsGameId(gameId: string)
    | PostGames(body: Obj)
    | PostGamesIdStats(id: string, body: Obj)
    | PutGamesId(id: string, body: Obj)
    | DeleteGamesId(id: string)

  /**
   * One request through the route table. Only POST and DELETE of a game
   * change the number of games, by one at most; only the stats POST and the
   * game DELETE touch the stats entries.
   */
  function Handle(db: Db, req: Request): (out: Outcome)
    ensures |db.games| - 1 <= |out.db.games| <= |db.games| + 1
    ensures !req.PostGames? && !req.DeleteGamesId? ==> |out.db.games| == |db.games|
    ensures !req.PostGamesIdStats? && !req.DeleteGamesId? ==> out.db.stats == db.stats
    ensures req.PostGames? || req.PostGamesIdStats? ==> out.db.stats.Keys >= db.stats.Keys
  {
    match req
    case GetGames => ListGames(db)
    case GetGamesId(id) => GetGame(db, id)
    case GetUserStatsGameId(gameId) => GetStats(db, gameId)
    case PostGames(body) => CreateGame(db, body)
    case PostGamesIdStats(id, body) => PostStats(db, id, body)
    case PutGamesId(id, body) => UpdateGame(db, id, body)
    case DeleteGamesId(id) => DeleteGame(db, id)
  }

  /** The state after handling `reqs` one after another. */
  function Run(db: Db, reqs: seq<Request>): (after: Db)
    ensures |after.games| <= |db.games| + |reqs|
    ensures (forall k :: 0 <= k < |reqs| ==> !reqs[k].PostGames?) ==> |after.games| <= |db.games|
    decreases |reqs|
  {
    if reqs == [] then db
    else
      assert forall k :: 0 <= k < |reqs[1..]| ==> reqs[1..][k] == reqs[k + 1];
      Run(Handle(db, reqs[0]).db, reqs[1..])
  }
}
