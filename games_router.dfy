/**
 * The games router as the object it is: module-level `games` and `userStats`
 * that the handlers read, and that POST, PUT and DELETE change in place
 * (`push`, index assignment, `splice`, keyed assignment, `delete`). Each
 * handler is proved to do exactly what the Catalogue function of the same
 * name says about the state before it.
 */
module GamesRouter {

  import opened Json
  import opened Catalogue
  import Seed

  class GameStore {
    var games: seq<Obj>
    var stats: map<string, Obj>

    function State(): Db
      reads this
    {
      Db(games, stats)
    }

    /** The module's initial state; `rolls` are the `Math.random()` outcomes of the generated stats. */
    constructor (rolls: seq<Seed.StatsRoll>)
      requires Seed.ValidRolls(rolls)
      ensures State() == Seed.SeedDb(rolls)
    {
      games := Seed.SeedGames();
      stats := Seed.SeedStats(rolls);
    }

    /** GET /games */
    function ListGames(): (r: Response)
      reads this
      ensures r == Response(200, Records(games))
    {
      Catalogue.ListGames(State()).response
    }

    /** GET /games/:id */
    function GetGame(id: string): (r: Response)
      reads this
      ensures NoMatch(games, id) ==> r == Response(404, Error(GameNotFound))
      ensures forall i :: IsFirstMatch(games, id, i) ==> r == Response(200, Record(games[i]))
    {
      Catalogue.GetGame(State(), id).response
    }

    /** GET /user-stats/:gameId */
    function GetStats(gameId: string): (r: Response)
      reads this
      ensures gameId in stats ==> r == Response(200, Record(stats[gameId]))
      ensures gameId !in stats ==> r == Response(404, Error(StatsNotFound))
    {
      Catalogue.GetStats(State(), gameId).response
    }

    /** POST /games */
    method CreateGame(body: Obj) returns (r: Response)
      modifies this
      ensures Outcome(r, State()) == Catalogue.CreateGame(old(State()), body)
      ensures r.status == 201 ==> games == old(games) + [WithDefaults(body)]
      ensures r.status != 201 ==> games == old(games)
      ensures stats == old(stats)
    {
      var id := Get(body, "id");
      if !Truthy(id) || !Truthy(Get(body, "title")) {
        return Response(400, Error(IdAndTitleRequired));
      }
      if HasId(games, id) {
        return Response(400, Error(GameIdExists));
      }
      var gameWithDefaults := WithDefaults(body);
      games := games + [gameWithDefaults];
      r := Response(201, Record(gameWithDefaults));
    }

    /** POST /games/:id/stats */
    method PostStats(gameId: string, body: Obj) returns (r: Response)
      modifies this
      ensures Outcome(r, State()) == Catalogue.PostStats(old(State()), gameId, body)
      ensures r.status == 201 ==> stats == old(stats)[gameId := body]
      ensures r.status != 201 ==> stats == old(stats)
      ensures games == old(games)
    {
      if !ValidStats(body) {
        return Response(400, Error(InvalidStatsFormat));
      }
      stats := stats[gameId := body];
      r := Response(201, Record(body));
    }

    /** PUT /games/:id */
    method UpdateGame(id: string, body: Obj) returns (r: Response)
      modifies this
      ensures Outcome(r, State()) == Catalogue.UpdateGame(old(State()), id, body)
      ensures stats == old(stats)
    {
      var index := FindIndex(games, id);
      if index == -1 {
        return Response(404, Error(GameNotFound));
      }
      games := games[index := Spread(games[index], body)];
      r := Response(200, Record(games[index]));
    }

    /** DELETE /games/:id */
    method DeleteGame(id: string) returns (r: Response)
      modifies this
      ensures Outcome(r, State()) == Catalogue.DeleteGame(old(State()), id)
      ensures r.status == 200 ==> stats == old(stats) - {id}
    {
      var index := FindIndex(games, id);
      if index == -1 {
        return Response(404, Error(GameNotFound));
      }
      var deletedGame := games[index];
      games := games[..index] + games[index + 1..];
      stats := stats - {id};
      r := Response(200, Record(deletedGame));
    }
  }
}
