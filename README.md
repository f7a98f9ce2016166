# Games router: in-memory catalogue and per-game stats

This project models the games router of the SteamAppServer backend
(`routes/games.js`), the one router the server mounts. The router keeps two
module-level collections:

- `games`, an ordered list of game records, seeded with the ids 1..202;
- `userStats`, an array of stats records that the handlers index with the raw
  path parameter, so it behaves as a map from strings to records.

Seven handlers read and change them: list all games, look up one game, read
the stats under a key, create a game (required `id` and `title`, duplicate-id
check, default fields), store stats (numeric-type check), merge-update a game,
and delete a game together with the stats under its path key.

The files:

- `json.dfy` (module `Json`): JSON values as the body parser produces them,
  property access with `undefined`, truthiness, `typeof … === 'number'` and
  strict equality. Arrays and objects are never `===` to a separately parsed
  value.
- `js_parse_int.dfy` (module `JsParseInt`): `parseInt` with no radix. It skips
  leading white space, reads an optional sign and a `0x` prefix, then the
  longest digit run. NaN is `None`. The module also has the decimal rendering
  `String(n)`.
- `catalogue.dfy` (module `Catalogue`): the searches (`find`, `findIndex`,
  `some`), object spread, and one pure function per handler. Each handler
  function maps the state `Db(games, stats)` and the request to an `Outcome`:
  the response sent and the state after.
- `catalogue_properties.dfy` (module `CatalogueProperties`): properties that
  span several requests.
- `seed.dfy` (module `Seed`): the initial state, and the router's own test
  examples checked against the current seed.
- `games_router.dfy` (module `GamesRouter`): class `GameStore`, with the field
  `games` a `seq` and the field `stats` (the router's `userStats`) a `map`,
  which the handlers change in place. Each
  mutating method is proved equal to the Catalogue function of the same name.

`routes/auth.js` and `routes/stats.js` query PostgreSQL, but `server.js:31`
mounts only `routes/games.js`, which keeps its state in memory.

The test file `games.test.js` was written for an older version of the module,
with a two-game seed and exported collections. `Seed` states each of its
examples against the current seed. Most still agree with the current code. In
four places the current code answers differently, and `Seed` proves the
current answers:

- GET /games lists 202 games, not 2 (`Seed.SeedListGames`).
- `userStats[1]` is user 2's entry, with score 10, not 8.5 (`Seed.SeedGetStats`).
- Creating id 3 is refused as a duplicate, so the list does not grow to 3
  (`Seed.SeedCreateRefused`).
- After DELETE /games/1, 201 games remain, not 1 (`Seed.SeedDeleteGame`).

## Model

| member | source | states |
|---|---|---|
| `Json.StrictEqualsProperties` | routes/games.js:103 | `===` is symmetric and implies equal values. It never holds of an array or object id, so such ids never match and never count as duplicates. |
| `Json.Truthy` | routes/games.js:98 | `!x` is true of `undefined`, `null`, `false`, `0` and `""` and of nothing else: `true`, non-zero numbers, non-empty strings, arrays and objects are truthy. |
| `Json.IsNumber` | routes/games.js:130-132 | `typeof x === 'number'` holds of every number and of nothing else: `undefined`, strings, booleans and `null` fail it, so a numeric string such as `"8.5"` is not a number. |
| `Json.StrictEquals` | routes/games.js:103 | `===` holds only of equal primitives or two `undefined`s, and always holds of those. |
| `JsParseInt.TrimStart` | routes/games.js:81 | Every character dropped from the front is white space, and the result does not start with white space. |
| `JsParseInt.TrimStartIsSuffix` | routes/games.js:81 | What is left after trimming is the tail of the input. |
| `JsParseInt.DigitRun` | routes/games.js:81 | Gives the length of the longest leading run of digits of the radix. |
| `JsParseInt.ParseInt` | routes/games.js:81 | A blank string is NaN. A negative result needs a leading `-` after the white space. |
| `JsParseInt.DecimalString` | routes/games.js:34 | `String(n)` is a non-empty run of decimal digits with no leading zero. |
| `JsParseInt.DecimalValue` | routes/games.js:81 | The digits of `String(n)`, read in radix 10, give `n` back. |
| `JsParseInt.DecimalStringInjective` | routes/games.js:88 | Different numbers give different array keys. |
| `JsParseInt.ParseIntDecimal` | routes/games.js:81 | `parseInt(String(n) + rest)` is `n` when `rest` starts with a non-digit. The exception is `rest` starting with `x` after a lone `0`, which would form a hex prefix. |
| `JsParseInt.ParseIntNegative` | routes/games.js:81 | A leading `-` negates the number. |
| `JsParseInt.ParseIntSkipsWhiteSpace` | routes/games.js:81 | Leading white space does not change what `parseInt` reads. |
| `JsParseInt.ParseIntExamples` | routes/games.js:81 | `""`, `"abc"` and `"0x"` are NaN, `"0x1A"` is 26 and `"01"` is 1. |
| `Catalogue.IdMatches` | routes/games.js:81 | `g.id === parseInt(p)` holds exactly when `p` parses to a number and the game's `id` is that whole number. A string id is never reached through a path. |
| `Catalogue.FindIndex` | routes/games.js:142 | Returns -1 exactly when no game's `id` is `===` to `parseInt` of the path. Otherwise it returns the position of the first such game. |
| `Catalogue.Find` | routes/games.js:81 | `undefined` exactly when no game matches. Otherwise it returns the game at the first matching position. |
| `Catalogue.HasId` | routes/games.js:103 | True exactly when some game's `id` is `===` to the given id. |
| `Catalogue.Spread` | routes/games.js:145 | `{...a, ...b}` has the keys of both. A key in `b` takes `b`'s value, and every other key keeps `a`'s. |
| `Catalogue.WithDefaults` | routes/games.js:108-118 | A new record has the default keys plus the body's keys. The body wins where it has a key, so the id is the body's and `price` is `"10$"` only when the body omits `price`. |
| `Catalogue.ValidStats` | routes/games.js:130-134 | Stats are valid exactly when `achievements`, `hoursPlayed` and `score` are all present and numbers, whatever else the body holds. A string `score` is refused. |
| `Catalogue.ListGames` | routes/games.js:75-77 | Status 200 with the games list as it is. State unchanged. |
| `Catalogue.GetGame` | routes/games.js:80-84 | 200 with the first game whose id matches the parsed path. Otherwise 404 `Game not found`. State unchanged. |
| `Catalogue.GetStats` | routes/games.js:87-91 | 200 with the entry stored under the raw key. Otherwise 404 `Stats not found`. State unchanged. |
| `Catalogue.CreateGame` | routes/games.js:94-122 | A falsy or missing `id` or `title` gives 400 `ID and title are required`. An id `===` to an existing one gives 400 `Game ID already exists`. Neither error changes state. Otherwise it appends the defaulted record at the end and returns it with 201. Stats are never touched. |
| `Catalogue.PostStats` | routes/games.js:125-138 | If `achievements`, `hoursPlayed` or `score` is not a number, it returns 400 `Invalid stats format` and changes nothing. Otherwise it stores the body under the key whether or not the game exists, and returns it with 201. Games and all other keys are unchanged. |
| `Catalogue.UpdateGame` | routes/games.js:141-147 | An unknown id gives 404 and changes nothing. Otherwise only the first match is replaced, by `old + body`, and returned with 200. The length, the other positions and the stats are unchanged. |
| `Catalogue.DeleteGame` | routes/games.js:150-157 | An unknown id gives 404 and changes nothing. Otherwise it returns the first match with 200 and removes exactly it, keeping the others in order. It also removes the stats key equal to the raw path and keeps every other entry. |
| `Catalogue.Handle` | routes/games.js:74-157 | One request through the route table. Only POST and DELETE of a game change the number of games, by one at most. Only the stats POST and the game DELETE touch the stats entries. |
| `Catalogue.Run` | routes/games.js:74-157 | After a run of requests there are at most as many more games as there were requests. A run without a POST /games never grows the list. |
| `CatalogueProperties.ReadsChangeNothing` | routes/games.js:74-91 | The three GET routes leave the state unchanged. |
| `CatalogueProperties.SameAddressSameId` | routes/games.js:81 | Two games reached through the same path have `===` ids. |
| `CatalogueProperties.CreateKeepsIdsDistinct` | routes/games.js:102-105 | From distinct ids, a create keeps ids distinct. |
| `CatalogueProperties.DeleteKeepsIdsDistinct` | routes/games.js:150-154 | From distinct ids, a delete keeps ids distinct. |
| `CatalogueProperties.RunWithoutPutKeepsIdsDistinct` | routes/games.js:74-157 | From distinct ids, any sequence of requests without a PUT keeps ids distinct. |
| `CatalogueProperties.UpdateCanDuplicateIds` | routes/games.js:145 | A PUT body carrying another game's id gives two games the same id. |
| `CatalogueProperties.PostStatsIdempotent` | routes/games.js:136 | Posting the same stats twice gives the same response and state as posting them once. |
| `CatalogueProperties.PostStatsThenGetStats` | routes/games.js:87-91 | After valid stats are posted under a key, GET of that key returns them with 200. |
| `CatalogueProperties.CreateThenGetGame` | routes/games.js:108-121 | After creating a game with whole-number id `n`, GET `/games/n` returns the created record. |
| `CatalogueProperties.UpdateThenGetGame` | routes/games.js:141-146 | After a PUT whose body has no `id`, GET of the same path returns what the PUT returned. |
| `CatalogueProperties.DeleteThenGetGame` | routes/games.js:150-157 | With distinct ids, after a delete, GET of the game and of the stats under that path both give 404. |
| `CatalogueProperties.DeletePaddedIdKeepsStats` | routes/games.js:151-155 | DELETE `/games/01` removes game 1 but keeps the stats under `"1"`. Games are addressed through `parseInt`, stats through the raw path. |
| `Seed.SeedGames` | routes/games.js:5-44 | There are 202 seed games, and the game at position `k` has id `k + 1`. |
| `Seed.Placeholder` | routes/games.js:30-43 | Generated game `n` is what POST /games would store for a body with id `n`, title `Game n` and price `N/A`. |
| `Seed.SeedIdsDistinct` | routes/games.js:5-44 | The seed ids are distinct. |
| `Seed.ScoreText` | routes/games.js:69 | `toFixed(1)` of a score in tenths is digits, a dot and one digit, and reading them back gives the score. |
| `Seed.GeneratedStats` | routes/games.js:62-71 | A generated entry has the same keys as the written ones, carries its user id, and would be refused by the stats POST because its `score` is a string. |
| `Seed.SeedStatsArray` | routes/games.js:45-72 | There are 202 seed stats entries: the two written ones, then one generated entry per draw for users 3..202. |
| `Seed.ArrayEntries` | routes/games.js:88 | Array element `k` is reached by key `String(k)` and only by such keys. |
| `Seed.SeedListGames` | games.test.js:28-33 | On the seed, GET `/games` gives 200 with 202 games, Counter Strike 2 first. |
| `Seed.SeedGetGame` | games.test.js:36-47 | On the seed, GET `/games/1` returns Counter Strike 2 and GET `/games/999` gives 404. |
| `Seed.SeedGetStats` | games.test.js:86-97 | On the seed, GET `/user-stats/1` returns user 2's entry with score 10, and `/user-stats/999` gives 404. |
| `Seed.SeedPostStats` | games.test.js:101-116 | A body with three numbers and a review is accepted with 201 and stored under `"1"`. `userStats[1].score` then reads 9. |
| `Seed.SeedPostStatsInvalid` | games.test.js:118-125 | A body whose `achievements` is a string gives 400 `Invalid stats format` and changes nothing. |
| `Seed.SeedCreateRefused` | games.test.js:67-83 | On the seed, ids 1 and 3 are refused as duplicates, and a body without a title is refused. |
| `Seed.SeedCreateFresh` | games.test.js:51-65 | On the seed, creating id 203 appends a 203rd game. It keeps the body's price and takes the default developer. |
| `Seed.SeedUpdateGame` | games.test.js:128-144 | On the seed, PUT `/games/1` changes title and description and keeps price `"Free"`. |
| `Seed.SeedUpdateDeleteMissing` | games.test.js:146-153 | On the seed, PUT `/games/999` and DELETE `/games/999` give 404 `Game not found` and change nothing. |
| `Seed.SeedDeleteGame` | games.test.js:156-163 | On the seed, DELETE `/games/1` returns Counter Strike 2, leaves 201 games and removes the stats under `"1"`. |
| `GamesRouter.GameStore.constructor` | routes/games.js:5-72 | The store starts in the seed state. |
| `GamesRouter.GameStore.ListGames` | routes/games.js:75-77 | 200 with the current `games` field. |
| `GamesRouter.GameStore.GetGame` | routes/games.js:80-84 | On the current fields: 200 with the first matching game, else 404 `Game not found`. |
| `GamesRouter.GameStore.GetStats` | routes/games.js:87-91 | On the current fields: 200 with the entry under the raw key, else 404 `Stats not found`. |
| `GamesRouter.GameStore.CreateGame` | routes/games.js:94-122 | The in-place `push` gives the response and state of `Catalogue.CreateGame`. |
| `GamesRouter.GameStore.PostStats` | routes/games.js:125-138 | The keyed assignment gives the response and state of `Catalogue.PostStats`. |
| `GamesRouter.GameStore.UpdateGame` | routes/games.js:141-147 | The index assignment gives the response and state of `Catalogue.UpdateGame`. |
| `GamesRouter.GameStore.DeleteGame` | routes/games.js:150-157 | `splice` and `delete` give the response and state of `Catalogue.DeleteGame`. |

## Left out

- Express plumbing is not modelled: routing by path, body parsing, and the
  serialisation done by `res.status().json()`. A response is a status and a
  payload value. JSON key order in the output is not modelled.
- Request bodies are always JSON objects. An array body is not modelled: its
  spread in PUT would add index keys.
- `userStats` is a map from path strings to records. Keys that name inherited
  array properties are not modelled. For example, `length` reads as a number,
  and assigning to it throws. Posting stats under the path `__proto__` does not
  store an entry. It replaces the array's prototype with the posted object, and
  from then on every key that has no stored entry, such as `score` or `push`,
  reads through that object. The model stores it as an ordinary key.
- Numbers are exact reals. Floating-point rounding is not modelled, including
  `parseInt` on more than 2^53 and the sign of `-0` (which `===` ignores
  anyway).
- The `Math.random()` outcomes of the generated seed stats are a parameter
  (`Seed.StatsRoll`).
- Objects are values. No handler mutates a stored object in place, so
  sharing between the stored object and the sent one changes nothing.
- `routes/auth.js` is not part of this model. It is a database query, a bcrypt
  comparison and JWT signing, and the router is not mounted.
- `routes/stats.js` is not part of this model. It is a SQL aggregation run by
  the database, and the router is not mounted.
- `generate_data.js` and `server.js` are not part of this model. One is a
  database seeding script and the other is server bootstrap.
