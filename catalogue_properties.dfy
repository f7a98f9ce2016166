/**
 * Properties of the games catalogue that relate several requests: reads
 * change nothing, stats writes are idempotent and read back, created,
 * updated and deleted games are seen (or not) by a following lookup, and
 * every route except PUT keeps game ids distinct.
 */
module CatalogueProperties {

  import opened Json
  import opened Catalogue
  import JsParseInt

  /** No two games have strictly equal ids. */
  predicate DistinctIds(games: seq<Obj>)
  {
    forall i, j :: 0 <= i < j < |games| ==> !StrictEquals(Get(games[i], "id"), Get(games[j], "id"))
  }

  /** The three GET routes leave the state as it was. */
  lemma ReadsChangeNothing(db: Db, req: Request)
    requires req.GetGames? || req.GetGamesId? || req.GetUserStatsGameId?
    ensures Handle(db, req).db == db
  {
  }

  /** Two games addressed by the same path id have strictly equal ids. */
  lemma SameAddressSameId(g: Obj, h: Obj, p: string)
    ensures IdMatches(g, p) && IdMatches(h, p) ==> StrictEquals(Get(g, "id"), Get(h, "id"))
  {
  }

  // ---------------------------------------------------------------------------
  // Distinct ids

  /** The duplicate-id check keeps ids distinct across a create. */
  lemma CreateKeepsIdsDistinct(db: Db, body: Obj)
    requires DistinctIds(db.games)
    ensures DistinctIds(CreateGame(db, body).db.games)
  {
    var after := CreateGame(db, body).db.games;
    if after != db.games {
      var g := WithDefaults(body);
      assert after == db.games + [g];
      forall i | 0 <= i < |db.games|
        ensures !StrictEquals(Get(after[i], "id"), Get(after[|db.games|], "id"))
      {
        assert after[i] == db.games[i];
      }
    }
  }

  /** Removing a game keeps the remaining ids distinct. */
  lemma DeleteKeepsIdsDistinct(db: Db, p: string)
    requires DistinctIds(db.games)
    ensures DistinctIds(DeleteGame(db, p).db.games)
  {
    var i := FindIndex(db.games, p);
    if i != -1 {
      var after := DeleteGame(db, p).db.games;
      assert after == db.games[..i] + db.games[i + 1..];
      forall a | 0 <= a < |after|
        ensures after[a] == db.games[if a < i then a else a + 1]
      {
      }
    }
  }

  /** Starting from distinct ids, any run of requests without a PUT keeps them distinct. */
  lemma {:induction false} RunWithoutPutKeepsIdsDistinct(db: Db, reqs: seq<Request>)
    requires DistinctIds(db.games)
    requires forall k :: 0 <= k < |reqs| ==> !reqs[k].PutGamesId?
    ensures DistinctIds(Run(db, reqs).games)
    decreases |reqs|
  {
    if reqs != [] {
      var next := Handle(db, reqs[0]).db;
      var r := reqs[0];
      if r.PostGames? {
        CreateKeepsIdsDistinct(db, r.body);
      } else if r.DeleteGamesId? {
        DeleteKeepsIdsDistinct(db, r.id);
      } else {
        assert next.games == db.games;
      }
      assert forall k :: 0 <= k < |reqs[1..]| ==> reqs[1..][k] == reqs[k + 1];
      RunWithoutPutKeepsIdsDistinct(next, reqs[1..]);
    }
  }

  /** A PUT whose body carries another game's id makes two games share it. */
  lemma UpdateCanDuplicateIds()
    ensures var db := Db([map["id" := Num(1.0)], map["id" := Num(2.0)]], map[]);
            var after := UpdateGame(db, "2", map["id" := Num(1.0)]).db;
            DistinctIds(db.games) && !DistinctIds(after.games)
  {
    var db := Db([map["id" := Num(1.0)], map["id" := Num(2.0)]], map[]);
    JsParseInt.ParseIntDecimal(2, []);
    assert JsParseInt.DecimalString(2) + [] == "2";
    assert IsFirstMatch(db.games, "2", 1);
    var after := UpdateGame(db, "2", map["id" := Num(1.0)]).db;
    assert Get(after.games[0], "id") == Get(after.games[1], "id") == Some(Num(1.0));
  }

  // ---------------------------------------------------------------------------
  // Stats

  /** Posting the same stats twice leaves what posting them once leaves. */
  lemma PostStatsIdempotent(db: Db, key: string, body: Obj)
    ensures var once := PostStats(db, key, body);
            PostStats(once.db, key, body) == once
  {
    if ValidStats(body) {
      assert db.stats[key := body][key := body] == db.stats[key := body];
    }
  }

  /** Valid stats posted under a key are what a following GET of that key returns. */
  lemma PostStatsThenGetStats(db: Db, key: string, body: Obj)
    requires ValidStats(body)
    ensures GetStats(PostStats(db, key, body).db, key).response == Response(200, Record(body))
  {
  }

  // ---------------------------------------------------------------------------
  // Lookups after writes

  /** A game created with a whole-number id is found by that id's decimal path. */
  lemma CreateThenGetGame(db: Db, body: Obj, n: nat)
    requires Get(body, "id") == Some(Num(n as real))
    requires CreateGame(db, body).response.status == 201
    ensures var after := CreateGame(db, body).db;
            GetGame(after, JsParseInt.DecimalString(n)).response == Response(200, Record(WithDefaults(body)))
  {
    var p := JsParseInt.DecimalString(n);
    JsParseInt.ParseIntDecimal(n, []);
    assert p + [] == p;
    var after := CreateGame(db, body).db;
    assert after.games == db.games + [WithDefaults(body)];
    forall k | 0 <= k < |db.games|
      ensures !IdMatches(after.games[k], p)
    {
      assert after.games[k] == db.games[k];
      assert !StrictEquals(Get(db.games[k], "id"), Get(body, "id"));
    }
    assert IsFirstMatch(after.games, p, |db.games|);
  }

  /** After a PUT that leaves `id` alone, looking the game up gives what the PUT returned. */
  lemma UpdateThenGetGame(db: Db, p: string, body: Obj)
    requires !NoMatch(db.games, p)
    requires "id" !in body
    ensures var out := UpdateGame(db, p, body);
            GetGame(out.db, p).response == out.response
  {
    var i := FindIndex(db.games, p);
    var out := UpdateGame(db, p, body);
    assert Get(out.db.games[i], "id") == Get(db.games[i], "id");
    assert IsFirstMatch(out.db.games, p, i);
  }

  /** With distinct ids, a deleted game and its stats entry are gone for good. */
  lemma DeleteThenGetGame(db: Db, p: string)
    requires DistinctIds(db.games)
    requires !NoMatch(db.games, p)
    ensures var after := DeleteGame(db, p).db;
            GetGame(after, p).response == Response(404, Error(GameNotFound)) &&
            GetStats(after, p).response == Response(404, Error(StatsNotFound))
  {
    var i := FindIndex(db.games, p);
    var after := DeleteGame(db, p).db;
    forall a | 0 <= a < |after.games|
      ensures !IdMatches(after.games[a], p)
    {
      var b := if a < i then a else a + 1;
      assert after.games[a] == db.games[b];
      if IdMatches(db.games[b], p) {
        assert false;
      }
    }
  }

  /**
   * The game is found through `parseInt`, the stats entry through the raw
   * path: DELETE /games/01 removes game 1 but keeps the stats under "1".
   */
  lemma DeletePaddedIdKeepsStats(db: Db)
    requires !NoMatch(db.games, "1")
    requires "1" in db.stats
    ensures var out := DeleteGame(db, "01");
            out.response.status == 200 && |out.db.games| == |db.games| - 1 &&
            "1" in out.db.stats && out.db.stats["1"] == db.stats["1"]
  {
    JsParseInt.ParseIntExamples();
    JsParseInt.ParseIntDecimal(1, []);
    assert JsParseInt.DecimalString(1) + [] == "1";
    var i := FindIndex(db.games, "1");
    assert forall g :: IdMatches(g, "01") == IdMatches(g, "1");
    assert IsFirstMatch(db.games, "01", i);
  }
}
