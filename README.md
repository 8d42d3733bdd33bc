# Bugsy API core in Dafny

Bugsy is a versioned PHP e-commerce API; this project models its core. A
request passes through `config/config.php`, which handles the CORS origin
header, the OPTIONS preflight, the APP_* settings and the class autoloader.
It also passes through `config/database.php`, which holds the `.env` parser
and the DB_* settings. It then reaches the `App` router:

- The router cleans the URL and extracts the API version and the route.
- It scans the version's table from `config/routes.php` for the first entry
  whose method and path pattern match.
- It dispatches to `Class@method` with the captured parameters, or answers
  with the common 404.

Controllers build on `BaseController`, which provides:

- the request-data merge;
- the input, query and parameter getters;
- `validate` and `sanitize`;
- `requireAuth` and `requireAdmin`;
- the ownership check;
- the pagination clamp.

Replies go through the envelopes of `Response`.

The models sit on `BaseModel`, a fluent query builder over the `Database`
singleton. It offers where, whereIn, orderBy and limit, and the terminal
operations find, findAll, create, update, delete, exists, count, paginate
and first. The domain rules of the v1 models are modelled on top of it:

- Order: the status whitelists, cancellation and the order-number format.
- OrderItem: the item-creation loop and the failure defaults.
- Cart: get-or-create, the item count and the total.
- CartItem: the merge on add, the stock check and cart validation.
- Product: the stock floor, the listings and the image URL.
- User: the registration defaults, the password check and the stripping of
  passwords from profiles and listings.

How it is modelled:

- **PHP values.** A `Php.Value` is null, a boolean, an integer, a string or
  an ordered array. An ordered array is a sequence of entries with PHP's
  rules for assignment, `unset`, `??` and `array_merge`.
- **The database.** The database is a connection whose state is the store
  of tables (`Tables.Store`) together with the list of SQL statements sent.
  Every model method is a Dafny `method` on a class that holds its
  `BaseModel`. Under the v1 (mysqli) strategy, its contract ties the answer
  and the new connection state to a reference function (`...Run`) of the
  old state. The lemmas beside that function state the rule the source
  implements.
- **The pdo strategy.** Under pdo the connection is null, because `getPDO`
  has an empty body. Every database call is then a fatal error (`Fatal`).
- **Inputs.** Whether the server accepts a statement, the rows it returns,
  the clock, `md5`, the session, the `.env` file's lines, the Origin header
  and the set of existing files are all parameters.
- **Refused statements.** A statement the server refuses makes the
  mysqli branch call logError and then return its fallback (null, `[]` or
  false). The model takes logError to return, as it does on PHP 7, where
  sprintf with too few arguments only warns. On PHP 8 the same call throws
  (the second row of "## Findings"), so those fallbacks are never reached.
- **Defects.** The operations send the text the source builds, defects
  included. The corrected text is defined beside it, in the members that
  "## Findings" names.
- **PHP 7 comparison and casts.** `Php.LooseEquals` is PHP 7's loose
  `==`, which `in_array` and checkOwnership's `!=` use. An integer against
  a string compares with the string's leading number, 0 when there is
  none, so 0 equals "admin" and 5 equals "5abc". Two strings compare as
  numbers only when both are numeric, and a numeric string allows leading
  whitespace only. `Php.ToInt` is the `(int)` cast. It reads the leading
  number, exponent included, so "1e3" is 1000, and saturates at the
  64-bit bounds. The number reader is the `numbers` module.
- **The route table.** The route table is data. Concrete routing facts are
  lemmas about the v1 table as the PHP array literal gives it.

Modules, one file each:

- `wrappers`, `strings`, `numbers` and `php`: the PHP library behaviour.
- `routes`, `router`, `routing_facts`, `route_queries`, `app` and `request_facts`: the router.
- `tables`, `sql`, `db` and `base_model`: persistence.
- `effects`: connection steps.
- `orders`, `order_items`, `carts`, `cart_items`, `products` and `users`: the models.
- `logging`, `response`, `controller` and `env_config`: the rest.

## Model

| member | source | states |
|---|---|---|
| Numbers.ReadIntText | app/Controllers/BaseController.php:408 | the decimal text of any integer is numeric, read to its end, and its value is that integer |
| Numbers.CastIntText | app/Controllers/BaseController.php:443-444 | the (int) cast of the decimal text of any 64-bit integer gives that integer back |
| Numbers.ExponentValue | app/Controllers/BaseController.php:443-444 | digits, 'e' and digits read as the first digits' value times ten to the power of the second |
| Numbers.ExponentText | app/Controllers/BaseController.php:443-444 | (int) of "1e3" is 1000 and of "5e1" is 50: the cast reads the exponent |
| Numbers.SaturatedDigits | app/Controllers/BaseController.php:443-444 | a digit string above PHP_INT_MAX casts to PHP_INT_MAX |
| Numbers.NoNumberText | app/Models/V1/User.php:253 | a string whose first character can neither start a number nor be skipped is not numeric and its leading number is 0 |
| Numbers.DigitsThenText | app/Controllers/BaseController.php:408 | digits followed by a character that cannot continue a number are not numeric, and their leading number is the digits' value |
| Numbers.SpaceAroundNumber | app/Controllers/BaseController.php:408 | "5 " and "5abc" are not numeric under PHP 7, and the leading number of each is 5 |
| Php.LetterFirstText | app/Models/V1/User.php:253 | a constant that starts with a lower-case letter is not numeric and its leading number is 0 |
| Php.InListString | app/Models/V1/User.php:253 | a string is in_array of letter-first constants exactly when it is one of them |
| Php.InListInt | app/Models/V1/User.php:253 | an integer is in_array of non-empty letter-first constants exactly when it is 0 |
| Routes.ParseVerb | config/routes.php:28-30 | a method string names a verb exactly when it is that verb's name, the first word of a table key |
| Routes.ParseKey | app/Core/App.php:270 | a key without a space is all method and an empty pattern; otherwise the method is the text before the first space and the pattern the rest |
| Routes.PatternWellFormed | config/routes.php:35-133 | every table path reads as a rooted pattern of literal words and `[a-z_]+` placeholders |
| Routes.PatternInjective | config/routes.php:35-133 | two table paths give the same pattern exactly when they are the same path |
| Routes.PatternRoundTrip | app/Core/App.php:295-301 | splitting the '/'-joined text of a well-formed pattern gives the pattern back, and the text holds no space |
| Routes.KeyRoundTrip | app/Core/App.php:270 | the router's split of a route's "METHOD /path" key gives the verb's name and a pattern text that parses back to the route's segments |
| Router.SanitizeUrl | app/Core/App.php:139 | FILTER_SANITIZE_URL: the result holds only URL characters, is no longer than the input, and leaves an all-URL input unchanged |
| Router.FirstToken | app/Core/App.php:133 | strtok at '?': the token holds no '?', and is empty exactly when the input is all '?' |
| Router.CleanUrl | app/Core/App.php:130-145 | the cleaned url holds no '?' and only URL characters that are not upper-case |
| Router.CleanUrlOfClean | app/Core/App.php:130-145 | a url already in clean form is its own cleaning |
| Router.CleanUrlDropsQuery | app/Core/App.php:133 | what follows the first '?' of a url plays no part in the cleaned url |
| Router.ExtractVersion | app/Core/App.php:152-168 | the version is v1 or a v1-v3 token |
| Router.Rooted | app/Core/App.php:192-199 | a route starting with '/' is kept, a truthy one gets a leading '/', "" and "0" become "/" |
| Router.UnprefixedUrl | app/Core/App.php:152-201 | a url whose first piece is not "api" gets version v1 and is routed whole |
| Router.ApiPrefixedUrl | app/Core/App.php:158-189 | "api/t/rest": a v1-v3 token t becomes the version and leaves the route; any other t stays in the route under v1 |
| Router.VersionOfCleanUrl | app/Core/App.php:152-168 | a cleaned url has no newline, so "v1\n" cannot pass the `$`-anchored pattern: the version is v1, v2 or v3 |
| Router.ParseBody | app/Core/App.php:206-226 | no body unless POST, PUT or DELETE with input PHP finds non-empty; then the JSON decoding whatever its type, else the parse_str array |
| Router.MatchSegs | app/Core/App.php:291-318 | the match succeeds exactly when the path matches the pattern segment-wise, anchored at both ends, and then captures each placeholder name, in pattern order |
| Router.MatchSegsCaptures | app/Core/App.php:304-313 | on a match, the capture of the placeholder at position j is its name paired with the j-th piece of the path, numbered by the placeholders before it |
| Router.MatchPathAnchored | app/Core/App.php:301 | a path with more or fewer pieces than the pattern fails |
| Router.Match | app/Core/App.php:268-283 | a hit is the handler and captures of an entry of the table whose key matches the request |
| Router.FirstHitKey | app/Core/App.php:268-283 | the winning key is in the table and matches, every earlier key fails, and no key means no entry matches |
| Router.MatchIsFirstHit | app/Core/App.php:268-283 | the scan's result is the first of the list of all hits, none when the list is empty |
| Router.MatchByKey | app/Core/App.php:268-283 | the scan's result is read off the first matching key and the value the array holds at it |
| Router.FirstHitKeySameKeys | app/Core/App.php:268-277 | which entry wins depends only on the keys, in order |
| Router.MatchLiteral | app/Core/App.php:268-283 | on an array literal the winner is the first key in source order that matches, with the last value the literal gives that key |
| Router.LiteralHits | app/Core/App.php:268-283 | the literal matches iff one of its written entries does, and the winner is one of those entries' hits |
| Router.VersionRoutes | app/Core/App.php:260 | `$this->routes[$this->version] ?? []`: a missing version is the empty table |
| Router.MatchRoute | app/Core/App.php:257-284 | no table or an empty table is no handler |
| RoutingFacts.MatchPiecesIsMatchSegs | app/Core/App.php:291-318 | matching request pieces against a table path is the router's segment match on that path's pattern |
| RoutingFacts.RouteMatchIsMatchSegs | app/Core/App.php:270-277 | a route matches a request exactly when the verb is the request's method and the segment match succeeds, with its captures |
| RoutingFacts.FirstRoute | app/Core/App.php:268-283 | the first route found is one of the table's and matches the request |
| RoutingFacts.LastHandlerFound | config/routes.php:25-134 | a table holds a handler for a verb and path exactly when some route has them, and it is the last such route's |
| RoutingFacts.VerbNameInjective | config/routes.php:25-134 | distinct verbs have distinct names |
| RoutingFacts.KeyTextInjective | config/routes.php:25-134 | two routes have the same key exactly when they have the same verb and path |
| RoutingFacts.KeyHitOfRoute | app/Core/App.php:270-277 | the router's reading of a route's key gives the structural match of its verb and path |
| RoutingFacts.RepeatHeld | config/routes.php:113-118 | writing again, further down, entries whose keys already hold those handlers leaves the array as it would be without them |
| RoutingFacts.ResolveRoutes | app/Core/App.php:268-283 | on a table written as routes the first matching route in file order wins, with the last handler the file gives its verb and path |
| RoutingFacts.V1FirstRoute | config/routes.php:25-134 | the first matching v1 route is the first one in the file's groups, front to back |
| RoutingFacts.V1LastHandler | config/routes.php:25-134 | the handler the v1 literal keeps for a verb and path is the last one the groups give |
| RoutingFacts.V1Resolved | config/routes.php:25-134 | what the router does with a v1 request, read off the groups of the file |
| RouteQueries.NoCapture | app/Core/App.php:291-318 | a route of two fixed words matches exactly those words and captures nothing |
| RouteQueries.TailCapture | app/Core/App.php:291-318 | "/w/{id}" captures a non-empty second piece as id |
| RouteQueries.MiddleCapture | app/Core/App.php:291-318 | "/a/{id}/b" captures a non-empty middle piece as id |
| RouteQueries.VersionTablesOf | config/routes.php:24-163 | the file's v1 entry is the v1 table; v2, v3 and any other version read as empty |
| RouteQueries.V1Version | app/Core/App.php:260 | the router's v1 scan is the scan of the file's v1 literal |
| RouteQueries.LaterVersionsEmpty | app/Core/App.php:260-265 | every request resolved to v2 or v3 finds no handler |
| RouteQueries.RepeatKnown | config/routes.php:113-118 | each entry of the repeated reviews block already holds the same handler before it |
| RouteQueries.RepeatChangesNothing | config/routes.php:113-118 | the repeated block changes nothing: the v1 table is the one the file gives without it |
| RouteQueries.ProductSearchRoute | config/routes.php:36-37 | GET /products/search goes to ProductController@search with no capture, ahead of /products/{id} |
| RouteQueries.ProductShowRoute | config/routes.php:37 | GET /products/42 goes to ProductController@show with id "42" |
| RouteQueries.ProductReviewsRoute | config/routes.php:49 | GET /products/42/reviews goes to ReviewController@index with id "42"; the anchored match keeps show out |
| RouteQueries.GetOrderStatusRoute | config/routes.php:93 | GET /orders/7/status goes to OrderController@status with id "7" |
| RouteQueries.PutOrderStatusRoute | config/routes.php:97 | PUT /orders/7/status goes to OrderController@updateStatus with id "7" |
| Application.HandlerParts | app/Core/App.php:329 | neither part holds '@'; a handler without '@' is all class and no method |
| Application.DispatchOutcome | app/Core/App.php:326-371 | the method is invoked exactly when its class and method are loadable, with the captures' values and the request data; otherwise the 404 body |
| Application.RunOutcome | app/Core/App.php:60-88 | OPTIONS, and only OPTIONS, is answered at once; no route is the 404 body; an invocation is of a truthy winner with its captures written over params |
| Application.SplitRequestUrl | app/Core/App.php:100-110 | parseRequest stores a url with no query string, only URL characters and no upper case, a version that is always v1, v2 or v3, and a route starting with '/' |
| Application.App.constructor | app/Core/App.php:46-126 | the fields hold the routes file, the request method, the cleaned url, its version and route, no parameters and the parsed body |
| Application.App.StoreCaptures | app/Core/App.php:306-313 | every named capture is assigned into params, in order; nothing else changes |
| Application.App.FindRoute | app/Core/App.php:257-284 | the winner's handler is returned and only its captures reach params; no winner leaves params as they were |
| Application.App.Dispatch | app/Core/App.php:326-371 | dispatch's outcome is DispatchOutcome on the App's parameters, body and request |
| Application.NotFoundFields | app/Core/App.php:456-464 | the not-found envelope has success false, error "Not Found", its message, the request's method, url and version, and available_versions listing v1, v2, v3 |
| Application.App.HandleNotFound | app/Core/App.php:453-467 | the 404 body is the not-found envelope, with success false and the App's own method, url and version under their keys |
| Application.App.Run | app/Core/App.php:60-88 | run's outcome is RunOutcome of the request the App holds |
| Application.Serve | app/Core/App.php:46-88 | building an App and running it answers as Respond over the raw request |
| RequestFacts.LaterVersionRequestNotFound | app/Core/App.php:60-88 | every request resolved to v2 or v3, other than OPTIONS, gets the 404 body |
| RequestFacts.FreshParams | app/Core/App.php:306-313 | on a fresh App the parameters are exactly the winner's captures |
| RequestFacts.PlainPathClean | app/Core/App.php:130-145 | a path of lower-case letters, digits and inner slashes is already clean |
| RequestFacts.HandlerPartsAt | app/Core/App.php:329 | a handler "Class@method" names that class and that method |
| RequestFacts.ShowHandlerNames | config/routes.php:37 | the show handler names Controllers\V1\ProductController's show method and is truthy |
| RequestFacts.DispatchInvokes | app/Core/App.php:326-371 | a handler whose class and method are loadable is invoked with the captures' values and the request data |
| RequestFacts.RunDispatchesWinner | app/Core/App.php:77-87 | a request other than OPTIONS whose winner is a truthy handler is dispatched with the captures written over params |
| RequestFacts.ShowFields | app/Core/App.php:96-126 | GET api/v1/products/42 gives version v1, route /products/42 and an empty body |
| RequestFacts.ShowRequest | app/Core/App.php:46-88 | GET /api/v1/products/42 calls V1\ProductController::show with "42" and the request data from the id capture, the query and an empty body |
| Router.ExtractRoute | app/Core/App.php:175-201 | the route always starts with a slash |
| Tables.NextId | app/Models/BaseModel.php:290-293 | the AUTO_INCREMENT id the next insert into a table receives is at least 1 |
| Tables.InsertRowAt | app/Models/BaseModel.php:284-293 | an insert stores the row, keyed by the primary key, under the next id, which was free; the counter moves on by one and every other row stays |
| Tables.UpdateRowAt | app/Models/BaseModel.php:353-358 | an update of a missing row changes nothing; of a present row, assigns the changes over it; no other row changes |
| Tables.DeleteRowAt | app/Models/BaseModel.php:397-400 | a delete removes the row selected by its key and no other |
| Tables.DeleteWhereRowAt | app/Models/V1/Cart.php:193-206 | a DELETE with a condition removes exactly the selected rows of that table and leaves the other tables |
| Tables.InsertNew | app/Models/BaseModel.php:284-293 | the inserted row is found under the id it was given, with its key set |
| Tables.InsertOther | app/Models/BaseModel.php:284-293 | an insert leaves every other table and id as it was |
| Tables.InsertRowsNext | app/Models/V1/OrderItem.php:30-47 | inserting n rows moves the table's counter on by n |
| Tables.InsertRowsAt | app/Models/V1/OrderItem.php:30-47 | the i-th of several inserted rows is found under the first free id plus i |
| Tables.InsertRowsKeep | app/Models/V1/OrderItem.php:30-47 | inserting rows leaves every earlier row and every other table as it was |
| Tables.UpdatedColumn | app/Models/BaseModel.php:336-358 | after an update of a present row a changed column holds the new value |
| Sql.InValues | app/Models/BaseModel.php:605-622 | an IN list has one written item per element of an array value, in order, and none for anything else |
| Sql.Conditions | app/Models/BaseModel.php:600-636 | one condition text per where entry, in order |
| Sql.WhereClause | app/Models/BaseModel.php:591-640 | no conditions give no clause; otherwise the clause starts " WHERE " |
| Sql.OrderByClause | app/Models/BaseModel.php:643-650 | no order gives no clause; otherwise the clause starts " ORDER BY " |
| Sql.WhereClauseSnoc | app/Models/BaseModel.php:639 | one more condition adds " AND " and its text at the end, or starts the clause |
| Sql.OrderByClauseSnoc | app/Models/BaseModel.php:649 | one more order adds ", " and the order at the end, or starts the clause |
| Sql.Columns | app/Models/BaseModel.php:266-281 | the column list names each key of the data, in order |
| Sql.WrittenValues | app/Models/BaseModel.php:270-282 | one written value per entry of the data, in order |
| Sql.WrittenCases | app/Models/BaseModel.php:272-278 | null is written NULL, a numeric value as it is, anything else quoted and escaped |
| Sql.RenderedInt | app/Models/BaseModel.php:609-630 | an integer and the decimal text of an integer are numeric and are written bare |
| Sql.RenderedName | app/Models/BaseModel.php:609-630 | a name that starts with a lower-case letter is not numeric and is written quoted and escaped |
| Sql.RenderedKinds | app/Models/BaseModel.php:609-630 | under PHP 7's is_numeric an integer and the decimal text of one go in bare, while a letter-first name and the boolean true are quoted and escaped |
| Sql.SetParts | app/Models/BaseModel.php:339-350 | one `column = value` part per entry of the data, in order |
| Db.Connection.constructor | app/Core/Database.php:86-92 | a new connection holds the database and has sent nothing, with both counters at 0 |
| Db.ConnectionErrorShape | app/Core/Database.php:234-266 | every connection failure reports success false; only development mode reveals the error, its code, the database and the host, and the production body does not depend on the failure at all |
| Db.DevErrorShape | app/Core/Database.php:241-252 | the development body reports the error, its code, the database name and the host |
| Db.ProdErrorShape | app/Core/Database.php:253-262 | the production body hides the error and the host and is the same for every failure |
| Db.Database.constructor | app/Core/Database.php:54-59 | a new Database holds no connection and has not initialised one |
| Db.Database.InitializeMySQLi | app/Core/Database.php:83-111 | an initialised side is kept and nothing dies; otherwise a fresh connection is made, and a refused one ends the request with the connection-error body |
| Db.Database.GetMySQLi | app/Core/Database.php:115-121 | the handle is the mysqli connection, initialised on first use |
| Db.Database.GetPDO | app/Core/Database.php:170-179 | the PDO side is never connected: the handle is null |
| Db.Database.AffectedRows | app/Core/Database.php:155-162 | the affected-row count of the connection, 0 when there is none |
| Db.Database.LastInsertId | app/Core/Database.php:193-206 | the last insert id of the connection, 0 when there is none |
| Db.Database.Close | app/Core/Database.php:212-226 | close drops the connection, clears both flags and empties the singleton slot |
| Db.Registry.constructor | app/Core/Database.php:45 | the singleton slot starts empty |
| Db.Registry.GetInstance | app/Core/Database.php:67-74 | a held instance is returned as it is; an empty slot is filled with a new, connected Database, and a refused connection ends the request with the error body |
| Db.ReconnectAfterClose | app/Core/Database.php:212-226 | after close the next getInstance builds a new Database with a new connection |
| Models.DetectApiVersion | app/Models/BaseModel.php:110-120 | the version is "v1", "v2" or "v3" |
| Models.DetectWithoutToken | app/Models/BaseModel.php:110-120 | a url with no v1-v3 token gives v1 |
| Models.DetectFirstToken | app/Models/BaseModel.php:110-120 | the leftmost v1-v3 token of the url is the version, whatever follows it |
| Models.Direction | app/Models/BaseModel.php:468-471 | the direction is ASC or DESC; an upper-cased ASC or DESC is kept |
| Models.Stamped | app/Models/BaseModel.php:258-262 | with timestamps on, created_at and updated_at hold the time and every other column keeps its value; with them off the data is unchanged |
| Models.Touched | app/Models/BaseModel.php:332-335 | with timestamps on and no updated_at given, updated_at is set to the time; otherwise the data is unchanged |
| Models.Found | app/Models/BaseModel.php:143-177 | a found row is the one stored under the id's key and is non-empty; a missing row is not found |
| Models.CountOf | app/Models/BaseModel.php:508-539 | a failed or empty reply counts 0 |
| Models.FetchedRow | app/Models/BaseModel.php:705-736 | `$row ?: null`: a row is returned exactly when the reply's first row is present and non-empty, and it is that row |
| Models.PageOf | app/Models/BaseModel.php:562 | the page number is at least 1, and for a positive offset the page is the one holding that offset |
| Models.PageOfOffset | app/Models/BaseModel.php:562 | the offset of page p gives page p back |
| Models.CeilDiv | app/Models/BaseModel.php:569 | `ceil(total / perPage)`: the fewest pages of perPage rows that hold every row |
| Models.FetchRows | app/Models/BaseModel.php:680-683 | the fetch loop collects every row of the result, in order |
| Models.BaseModel.constructor | app/Models/BaseModel.php:73-134 | for a table name PHP finds non-empty, a model holds its table, key, timestamps flag and the detected version, with an empty builder, and a connection only under v1 |
| Models.BaseModel.Construct | app/Models/BaseModel.php:73-101 | an empty table name ("" or "0") throws; any other builds the model the constructor describes |
| Models.BaseModel.Where | app/Models/BaseModel.php:434-444 | one condition is added at the end of the where list; nothing else changes, and the model itself is returned |
| Models.BaseModel.WhereIn | app/Models/BaseModel.php:448-458 | one IN condition over the values is added; nothing else changes |
| Models.BaseModel.OrderBy | app/Models/BaseModel.php:466-476 | "field DIR" is added to the order list, with DIR from Direction; nothing else changes |
| Models.BaseModel.Limit | app/Models/BaseModel.php:480-489 | the limit is the integer value; the offset is replaced only when one is given |
| Models.BaseModel.ResetQueryBuilder | app/Models/BaseModel.php:653-661 | the builder is empty again |
| Models.BaseModel.BuildWhereClause | app/Models/BaseModel.php:591-640 | the clause is the WHERE clause of the builder's conditions |
| Models.BaseModel.Find | app/Models/BaseModel.php:143-177 | under mysqli one SELECT by key is sent and the row found, if the query is accepted, returned; under PDO the call fails, as the PDO side is never connected |
| Models.BaseModel.FindAll | app/Models/BaseModel.php:190-244 | one SELECT with the builder's WHERE and ORDER BY and the arguments' LIMIT/OFFSET is sent; the rows are returned and the builder is cleared |
| Models.BaseModel.Create | app/Models/BaseModel.php:256-320 | the INSERT of the stamped row is sent; an accepted one stores it under the next id, which it returns, a refused one returns false |
| Models.BaseModel.Update | app/Models/BaseModel.php:330-385 | the UPDATE of the touched data is sent; an accepted one changes the selected row, and the result says whether it was accepted |
| Models.BaseModel.Delete | app/Models/BaseModel.php:392-420 | the DELETE by key is sent; an accepted one removes the row |
| Models.BaseModel.Exists | app/Models/BaseModel.php:498-501 | true exactly when find returns a row |
| Models.BaseModel.Count | app/Models/BaseModel.php:508-539 | the COUNT with the builder's WHERE is sent, its total returned and the builder cleared |
| Models.BaseModel.Paginate | app/Models/BaseModel.php:553-571 | count clears the builder, so the page query is the bare SELECT without LIMIT; the reply body holds the rows, the total, the page of the offset and the page count |
| Models.BaseModel.Query | app/Models/BaseModel.php:149-154 | a hand-written statement is sent and its reply returned; nothing is stored |
| Models.BaseModel.FetchAll | app/Models/BaseModel.php:669-702 | the statement is sent and every row of the reply returned, none for a failed query |
| Models.BaseModel.FetchOne | app/Models/BaseModel.php:705-736 | the statement is sent and the first row returned, null when there is none or it is empty |
| Models.BaseModel.First | app/Models/BaseModel.php:579-583 | limit(1) has no effect: the SELECT carries no LIMIT and the first row of the reply is returned |
| Orders.StatusWhitelists | app/Models/V1/Order.php:228-251 | a string passes either whitelist exactly when it is listed; an integer passes exactly when it is 0, which PHP 7 finds equal to every status name |
| Orders.CancellableStatuses | app/Models/V1/Order.php:273-276 | of the statuses updateStatus accepts exactly pending and processing can be cancelled; an order without a status can be, one whose status is true, which loosely equals every settled status, cannot, and an integer status can exactly when it is not 0 |
| Orders.OrderNumberShape | app/Models/V1/Order.php:36-64 | an order number is "ORD-" and the date, then at least five digits whose value is count + 1: zeros in front of its decimal text, which is never cut short |
| Orders.OrderRowPending | app/Models/V1/Order.php:21-30 | the order's row sets status and payment_status to pending |
| Orders.NewOrderPending | app/Models/V1/Order.php:15-33 | a created order is stored under the next id, holding that id, with status and payment status pending whatever the caller passed |
| Orders.StatusReplaced | app/Models/V1/Order.php:228-238 | no order between statuses is enforced: an accepted update stores the new status whatever the old one was |
| Orders.Order.constructor | app/Models/V1/Order.php:7-11 | an Order is a BaseModel of the orders table keyed by id with timestamps, connected under v1 |
| Orders.Order.GenerateOrderNumber | app/Models/V1/Order.php:36-64 | one count query on today's prefix is sent, a failed one counting as none, and the number follows that count |
| Orders.Order.CreateOrder | app/Models/V1/Order.php:15-33 | the count query, then one create of the pending order row with the new number; the id on acceptance, false otherwise |
| Orders.Order.UpdateStatus | app/Models/V1/Order.php:228-238 | a status in_array refuses is false with no statement sent, one it accepts is written as it is (by StatusWhitelists: a listed string, or the integer 0) |
| Orders.Order.UpdatePaymentStatus | app/Models/V1/Order.php:241-251 | a payment status in_array refuses is false with no statement sent, one it accepts is written as it is (by StatusWhitelists: a listed string, or the integer 0) |
| Orders.Order.CancelOrder | app/Models/V1/Order.php:255-269 | a missing or settled order gives false with only the find sent; otherwise the status becomes cancelled |
| OrderItems.LineRows | app/Models/V1/OrderItem.php:32-40 | one stamped order line per cart item, in order |
| OrderItems.InsertStatements | app/Models/V1/OrderItem.php:32-40 | one INSERT per line, in order |
| OrderItems.FirstRefused | app/Models/V1/OrderItem.php:32-44 | the index of the first refused insert, or the item count when none is refused |
| OrderItems.FirstRefusedIs | app/Models/V1/OrderItem.php:32-44 | an index with every earlier insert accepted and itself refused, or at the end, is the first refused one |
| OrderItems.ItemRowColumns | app/Models/V1/OrderItem.php:15-27 | a line holds the given quantity and subtotal = quantity × price |
| OrderItems.StoredColumn | app/Models/V1/OrderItem.php:30-47 | every column of the i-th line other than id and the timestamps is stored as given |
| OrderItems.LineStored | app/Models/V1/OrderItem.php:30-47 | the i-th created line stores the cart item's quantity and its subtotal |
| OrderItems.SummaryOf | app/Models/V1/OrderItem.php:120-147 | a failed query gives the zeroed summary; otherwise the first row, none for an empty reply |
| OrderItems.ZeroSummaryFigures | app/Models/V1/OrderItem.php:135-141 | the zeroed summary has item_count, total_quantity and total 0 |
| OrderItems.AfterCreate | app/Models/BaseModel.php:256-320 | a create sends its INSERT and leaves the affected rows; a refused one changes neither the data nor the insert id |
| OrderItems.CartRunAnswer | app/Models/V1/OrderItem.php:30-47 | the loop answers true exactly when no insert is refused |
| OrderItems.CartRunSent | app/Models/V1/OrderItem.php:30-47 | the INSERTs up to and including the first refused one are sent, in order |
| OrderItems.CartRunStored | app/Models/V1/OrderItem.php:30-47 | the lines before the first refused insert are stored and stay |
| OrderItems.CartRunLastId | app/Models/V1/OrderItem.php:30-47 | the insert id is the last stored line's |
| OrderItems.CartRunAffected | app/Models/V1/OrderItem.php:30-47 | the loop leaves the affected-row count |
| OrderItems.CartRunEffect | app/Models/V1/OrderItem.php:30-47 | the whole loop: true iff nothing is refused; the lines sent and stored stop at the first refused insert |
| OrderItems.OrderItem.constructor | app/Models/V1/OrderItem.php:7-11 | an OrderItem is a BaseModel of the order_items table keyed by id with timestamps |
| OrderItems.OrderItem.CreateItem | app/Models/V1/OrderItem.php:15-27 | one create of the stamped line; the next id on acceptance, false otherwise |
| OrderItems.OrderItem.CreateLine | app/Models/V1/OrderItem.php:33-43 | the loop body: the i-th line's create, truthy exactly when accepted |
| OrderItems.OrderItem.CreateFromCart | app/Models/V1/OrderItem.php:30-47 | the loop's answer and new connection state are CartRun's; an empty cart is true with nothing sent |
| OrderItems.OrderItem.GetByOrder | app/Models/V1/OrderItem.php:51-81 | one join query is sent; its rows are returned, none when it fails |
| OrderItems.OrderItem.GetOrderSummary | app/Models/V1/OrderItem.php:120-147 | one aggregate query is sent; the summary is SummaryOf its reply |
| Carts.NewCartColumns | app/Models/V1/Cart.php:42-44 | the new cart's stamped data is the user id, then the two stamps, and nothing else, so the INSERT names exactly those columns |
| Carts.ExistingCartKept | app/Models/V1/Cart.php:32-39 | a user who has a cart gets it back: only the lookup is sent and nothing is stored |
| Carts.NewCartRefused | app/Models/V1/Cart.php:41-50 | no cart and a refused insert: none, with the lookup and the INSERT sent and nothing stored |
| Carts.NewCartStored | app/Models/V1/Cart.php:41-46 | no cart and an accepted insert: a cart holding the user id and the stamps is stored under the next id, which becomes the insert id |
| Carts.NewCartSent | app/Models/V1/Cart.php:41-50 | after an accepted insert, the find on the new id follows the lookup and the INSERT |
| Carts.NewCartFetched | app/Models/V1/Cart.php:48-50 | when the find on the new id succeeds, the stored row is returned with its id |
| Carts.NewCartOwned | app/Models/V1/Cart.php:32-51 | the cart returned after a create belongs to the user and carries the new id |
| Carts.SubtotalSumAppend | app/Models/V1/Cart.php:110-115 | the subtotal sum over a concatenation is the sum of the sums |
| Carts.RowList | app/Models/V1/Cart.php:110-115 | the items list holds every row of the reply, in order |
| Carts.WithItemsShape | app/Models/V1/Cart.php:108-124 | the cart returned lists its items in reply order, with their count and the sum of their subtotals; every other column is as stored |
| Carts.WithItemsMissing | app/Models/V1/Cart.php:76-125 | null exactly when find finds no cart, and then the join is not sent; nothing is stored; a failed join gives no items, total 0 and count 0 |
| Carts.UserCartExisting | app/Models/V1/Cart.php:129-138 | a user who has a cart gets it with its items, found again by its id, and no cart is created |
| Carts.NoCartZero | app/Models/V1/Cart.php:143-188 | a user without a cart has item count 0 and total 0 with only the lookup sent; neither stores anything |
| Carts.DeleteCartEffect | app/Models/V1/Cart.php:193-217 | the items' DELETE goes before the cart's and only the cart's is answered; when both are accepted the cart and all its items are gone and every other row stays |
| Carts.Cart.constructor | app/Models/V1/Cart.php:17-21 | a Cart is a BaseModel of the carts table keyed by id with timestamps |
| Carts.Cart.GetByUserId | app/Models/V1/Cart.php:55-71 | one lookup by user is sent; the cart is its first row, none when it failed or found none |
| Carts.Cart.CreateCart | app/Models/V1/Cart.php:42-44 | one create of the user's cart; the next id on acceptance, false otherwise |
| Carts.Cart.GetOrCreate | app/Models/V1/Cart.php:32-51 | the answer and new connection state are GetOrCreateRun's, whose cases the lemmas above state |
| Carts.Cart.GetWithItems | app/Models/V1/Cart.php:76-125 | the answer and new connection state are WithItemsRun's |
| Carts.Cart.GatherItems | app/Models/V1/Cart.php:110-115 | the fetch loop gathers every row in reply order and the sum of their subtotals |
| Carts.Cart.GetUserCartWithItems | app/Models/V1/Cart.php:129-138 | the answer and new state are UserCartRun's: getOrCreate, then getWithItems on its id |
| Carts.Cart.GetItemCount | app/Models/V1/Cart.php:143-158 | the answer and new state are ItemCountRun's: 0 without a cart, else the count query's figure |
| Carts.Cart.GetTotal | app/Models/V1/Cart.php:163-188 | the answer and new state are TotalRun's: 0 without a cart, else the total query's figure |
| Carts.Cart.ClearItems | app/Models/V1/Cart.php:193-206 | one DELETE of the cart's items; an accepted one removes exactly those rows |
| Carts.Cart.DeleteCart | app/Models/V1/Cart.php:210-217 | the answer and new state are DeleteCartRun's: clearItems, then delete of the cart |
| CartItems.StockEnoughCases | app/Models/V1/CartItem.php:144-164 | the check holds exactly when the query gave a product row whose integer stock covers the request |
| CartItems.NewItemStamped | app/Models/V1/CartItem.php:39-44 | the new line is cart_id, product_id, quantity and price, then the two stamps |
| CartItems.QuantityTouched | app/Models/V1/CartItem.php:73-83 | the quantity change is the quantity and then updated_at |
| CartItems.QuantityOnly | app/Models/V1/CartItem.php:73-83 | an update of a stored line writes the new quantity and the stamp and keeps every other column, the id included |
| CartItems.AddItemRefused | app/Models/V1/CartItem.php:24-26 | not enough stock: false, with only the stock query sent and nothing stored |
| CartItems.AddItemMerged | app/Models/V1/CartItem.php:29-36 | an existing line for the cart and product is updated to old + requested and no line is created; the answer is the line's id, or false when refused |
| CartItems.MergePassesOverStock | app/Models/V1/CartItem.php:24-36 | the stock check does not look at the merged total: a line of 4 and a request of 3 against a stock of 5 pass, and the line becomes 7 |
| CartItems.AddItemNew | app/Models/V1/CartItem.php:38-44 | no existing line: one INSERT of the new line; an accepted one stores it under the next id, which is the answer |
| CartItems.ItemErrorsCount | app/Models/V1/CartItem.php:175-184 | an item adds one error per failed check, two when both fail, and none exactly when it passes |
| CartItems.CartErrorsNone | app/Models/V1/CartItem.php:172-188 | no errors at all exactly when every item is available and covered by its stock |
| CartItems.CartErrorsSnoc | app/Models/V1/CartItem.php:173-185 | one more item appends its own errors |
| CartItems.ErrorList | app/Models/V1/CartItem.php:186-188 | the errors list holds each message, in order |
| CartItems.ValidationVerdict | app/Models/V1/CartItem.php:186-188 | valid exactly when every item passes both checks, with the errors listed |
| CartItems.CartItem.constructor | app/Models/V1/CartItem.php:7-11 | a CartItem is a BaseModel of the cart_items table keyed by id with timestamps |
| CartItems.CartItem.CheckStock | app/Models/V1/CartItem.php:144-164 | one stock query is sent; the answer is StockEnough of its reply |
| CartItems.CartItem.FindByCartAndProduct | app/Models/V1/CartItem.php:48-70 | one lookup is sent; the line is its first row, none when it failed or found none |
| CartItems.CartItem.UpdateQuantity | app/Models/V1/CartItem.php:73-83 | update of the line's quantity, stamped; an accepted one changes that row |
| CartItems.CartItem.RemoveItem | app/Models/V1/CartItem.php:87-90 | delete of the line; an accepted one removes that row |
| CartItems.CartItem.CreateLine | app/Models/V1/CartItem.php:39-44 | one create of the new line; the next id on acceptance, false otherwise |
| CartItems.CartItem.MergeLine | app/Models/V1/CartItem.php:33-35 | update of an existing line to old + requested; its id on acceptance, false otherwise |
| CartItems.CartItem.PlaceItem | app/Models/V1/CartItem.php:28-44 | after the stock check: merge into an existing line or create a new one |
| CartItems.CartItem.AddItem | app/Models/V1/CartItem.php:21-45 | the answer and new connection state are AddItemRun's, whose cases the lemmas above state |
| CartItems.CartItem.GetByCart | app/Models/V1/CartItem.php:118-140 | one join is sent; every row of it is returned, none when it failed |
| CartItems.CartItem.CheckItem | app/Models/V1/CartItem.php:175-184 | the two checks of the loop body, in order, give ItemErrors of the item |
| CartItems.CartItem.CollectErrors | app/Models/V1/CartItem.php:173-185 | the loop appends each item's errors in order: CartErrors of the items |
| CartItems.CartItem.ValidateCartItems | app/Models/V1/CartItem.php:168-189 | only the join is sent; the answer is the validation body of the cart's errors |
| Products.StockTouched | app/Models/V1/Product.php:150-153 | update's timestamp touch turns updateStock's one-column data into stock then updated_at |
| Products.StockOnly | app/Models/V1/Product.php:150-153 | an accepted updateStock of a stored product leaves the row present with the new stock, and every column other than stock and updated_at as it was |
| Products.Floored | app/Models/V1/Product.php:165 | the new stock is never negative: the old stock less the quantity when that covers it, else 0 |
| Products.DecreaseMissing | app/Models/V1/Product.php:156-163 | a product find does not return makes decreaseStock answer false after the one SELECT, with no UPDATE sent |
| Products.DecreaseFloor | app/Models/V1/Product.php:156-168 | for a found product the answer is the UPDATE's acceptance; an accepted one stores max(0, stock - quantity) and keeps every other column but updated_at; a refused one leaves the store unchanged |
| Products.CheckStockCases | app/Models/V1/Product.php:171-180 | checkStock is true exactly when find returns the product and its stock covers the request (a null stock covers only 0); the store is never changed |
| Products.CheckedDecreaseExact | app/Models/V1/Product.php:156-180 | after a passed checkStock on a non-null stock, an accepted decreaseStock stores exactly the old stock less the quantity, with no flooring |
| Products.ListingWhereClause | app/Models/V1/Product.php:95-105 | the listing's two where() calls give one WHERE of the column test AND is_available = 1 |
| Products.ListingSql | app/Models/V1/Product.php:95-105 | on a cleared builder the listing sends SELECT * FROM products with that WHERE, ORDER BY rating DESC and the caller's LIMIT/OFFSET |
| Products.WithNamesMissing | app/Models/V1/Product.php:26-47 | a product the join does not return becomes the map holding only main_image_url with the no-image file, never null |
| Products.WithNamesFound | app/Models/V1/Product.php:40-44 | a found product keeps every column and gains main_image_url: the uploads URL of its main_image when truthy, else of no-image.png |
| Products.AllWithNamesGlued | app/Models/V1/Product.php:62-67 | as written, limit 10 and offset 20 end the statement in "LIMIT 10OFFSET 20", with no space before OFFSET |
| Products.PageTextCases | app/Models/V1/Product.php:62-67 | the corrected tail is empty without a truthy limit, "LIMIT n" without a truthy offset, "LIMIT n OFFSET m" with both; it differs from the text as written exactly when both are truthy |
| Products.Product.constructor | app/Models/V1/Product.php:9-16 | a valid products model with timestamps, a cleared builder, the API version detected from the URL and the mysqli connection under v1 |
| Products.Product.GetWithNames | app/Models/V1/Product.php:26-47 | under mysqli sends the join for the id and answers the fetched row with main_image_url added (WithImageUrl); under pdo a fatal error |
| Products.Product.GetAllWithNames | app/Models/V1/Product.php:51-70 | under mysqli sends the join with the LIMIT/OFFSET tail as written ("LIMIT nOFFSET m" when both are truthy) and answers the fetched rows; under pdo a fatal error |
| Products.Product.ListBy | app/Models/V1/Product.php:95-105 | under mysqli sends the SELECT with the builder's conditions plus the column test and is_available = 1, ordered by rating DESC with the given limit and offset, answers the rows and leaves the builder cleared; under pdo a fatal error |
| Products.Product.GetByCategory | app/Models/V1/Product.php:95-99 | ListBy on category_id |
| Products.Product.GetByBrand | app/Models/V1/Product.php:102-105 | ListBy on brand_id |
| Products.Product.UpdateStock | app/Models/V1/Product.php:150-153 | under mysqli the answer and the new connection state are those of one UPDATE of stock (UpdateStockRun); under pdo a fatal error |
| Products.Product.DecreaseStock | app/Models/V1/Product.php:156-168 | under mysqli the answer and state are DecreaseRun's, whose properties DecreaseMissing and DecreaseFloor state; under pdo a fatal error |
| Products.Product.CheckStock | app/Models/V1/Product.php:171-180 | with the requested quantity defaulting to 1, under mysqli the answer and state are CheckStockRun's, characterised by CheckStockCases; under pdo a fatal error |
| Users.VerifyHashed | app/Models/V1/User.php:34-43 | every password verifies against its own hash |
| Users.VerifyNeedsString | app/Models/V1/User.php:34-37 | the strict comparison means no non-string stored value (a missing user's null) ever verifies |
| Users.RegisterData | app/Models/V1/User.php:59-72 | the data handed to create holds the hash of the given password, the caller's role or else 'customer', the caller's is_active or else 1, and every other key as given |
| Users.RegisteredUser | app/Models/V1/User.php:59-85 | an accepted registration answers the new id and stores a row whose password verifies against the given one and whose role and active flag are RegisterData's |
| Users.Profile | app/Models/V1/User.php:94-104 | a profile exists exactly when the user was found |
| Users.ProfileHidesPassword | app/Models/V1/User.php:98-101 | a profile has no password key and every other column of the user |
| Users.ProfileChangesKeys | app/Models/V1/User.php:109-116 | updateProfile's data loses password, role and is_active and keeps every other key unchanged |
| Users.UpdateProfileGuards | app/Models/V1/User.php:107-119 | whatever the data holds, updateProfile leaves a stored user's password, role and is_active as they were |
| Users.PasswordTouched | app/Models/V1/User.php:139 | update's touch turns the one-column password data into password then updated_at |
| Users.ChangePasswordRefused | app/Models/V1/User.php:124-136 | a missing user or a wrong old password (taken as text) answers false after the one SELECT, with nothing written |
| Users.ChangePasswordStored | app/Models/V1/User.php:124-140 | when the old password's text verifies and the update is accepted, the answer is true and the new password's text verifies against the stored row |
| Users.RoleAllowedCases | app/Models/V1/User.php:253 | a string role passes exactly when it is 'customer' or 'admin'; in_array's loose comparison also lets true through, refuses null, and lets an integer through exactly when it is 0 |
| Users.ActiveFlag | app/Models/V1/User.php:245 | the stored flag is 0 or 1, and 1 exactly when the argument is truthy |
| Users.Stripped | app/Models/V1/User.php:220-222 | one row per fetched row, each with the password key removed |
| Users.StrippedRows | app/Models/V1/User.php:220-222 | no listed row has a password, and every other column is as fetched |
| Users.ByRoleIgnoresLimit | app/Models/V1/User.php:228-232 | the statement findAll() sends without arguments has no LIMIT or OFFSET, so the limit the caller passes never reaches it |
| Users.User.constructor | app/Models/V1/User.php:6-8 | a valid users model with timestamps, a cleared builder, the API version detected from the URL and the mysqli connection under v1 |
| Users.User.Register | app/Models/V1/User.php:59-85 | under mysqli the answer and state are RegisterRun's: one create of RegisterData, answering the id or false; under pdo a fatal error |
| Users.User.GetProfile | app/Models/V1/User.php:94-104 | under mysqli sends the find and answers Profile of what it returns; under pdo a fatal error |
| Users.User.UpdateProfile | app/Models/V1/User.php:107-119 | under mysqli the answer and state are one update of the filtered data (UpdateProfileRun); under pdo a fatal error |
| Users.User.WritePassword | app/Models/V1/User.php:139 | under mysqli one update of the password column with the stamp; under pdo a fatal error |
| Users.User.ChangePassword | app/Models/V1/User.php:124-140 | under mysqli the answer and state are ChangePasswordRun's (find, verify the old password's text, then the update with the hash of the new one's text); under pdo a fatal error |
| Users.User.ChangeRole | app/Models/V1/User.php:250-258 | a role in_array refuses is false with nothing sent on either driver; an allowed one (by RoleAllowedCases also true and the integer 0) is one update of role under mysqli and a fatal error under pdo |
| Users.User.SetActiveStatus | app/Models/V1/User.php:243-246 | under mysqli one update of is_active with ActiveFlag of the argument; under pdo a fatal error |
| Users.User.StripPasswords | app/Models/V1/User.php:220-222 | the loop's result is Stripped of the rows |
| Users.User.GetAllUsers | app/Models/V1/User.php:214-225 | under mysqli sends findAll's SELECT with the builder's conditions and order, the limit and the offset, and answers the rows stripped of passwords; under pdo a fatal error |
| Users.User.GetUsersByRole | app/Models/V1/User.php:228-240 | under mysqli sends the SELECT of the builder's conditions plus role = the given role, with no LIMIT or OFFSET, answers the rows stripped of passwords and leaves the builder cleared; under pdo a fatal error |
| Responses.SuccessHead | app/Helpers/Response.php:17-38 | the envelope before the data has distinct string keys, success true, and a message key exactly when the message is not null, holding that message; no other key |
| Responses.SuccessBody | app/Helpers/Response.php:17-38 | data that is not an array goes last under 'data' after the envelope |
| Responses.SuccessFlat | app/Helpers/Response.php:17-38 | array data is merged flat with array_merge: a string key of the data wins over success and message, the envelope's keys stay otherwise, nothing else appears |
| Responses.SuccessWrapped | app/Helpers/Response.php:17-38 | with non-array data the body reads data under 'data', true under success, the message when not null, and nothing under any other string key |
| Responses.Renumbered | app/Helpers/Response.php:17-38 | the entries renumbered from n keep their values and their order, under keys n, n+1, ... |
| Responses.MergeIntoIntKeys | app/Helpers/Response.php:17-38 | array_merge appends integer-keyed entries renumbered from the next free index, past a prefix whose integer keys are all below it |
| Responses.MergeIntoSplit | app/Helpers/Response.php:17-38 | array_merge of a string-keyed envelope and a list is the envelope unchanged followed by the list renumbered from 0 |
| Responses.MergeIntoStringHead | app/Helpers/Response.php:17-38 | array_merge copies a prefix of distinct string keys entry by entry |
| Responses.SuccessList | app/Helpers/Response.php:17-38 | a list of rows passed to success lands after the envelope under keys 0, 1, 2, ... and not under 'data' |
| Responses.Success | app/Helpers/Response.php:17-38 | the reply carries the given status and the success envelope of the data and message, whose keys SuccessHead, SuccessFlat and SuccessWrapped state |
| Responses.ErrorBody | app/Helpers/Response.php:42-57 | the error envelope has distinct keys, success false, the message, errors exactly when it is not null, and no other string key |
| Responses.Error | app/Helpers/Response.php:42-57 | the reply carries the given status and the error envelope |
| Responses.Json | app/Helpers/Response.php:61-65 | the reply carries the given status and the data unchanged |
| Responses.NotFound | app/Helpers/Response.php:69-72 | status 404, success false, the message, no errors key |
| Responses.Unauthorized | app/Helpers/Response.php:76-78 | status 401, success false, the message, no errors key |
| Responses.Forbidden | app/Helpers/Response.php:81-83 | status 403, success false, the message, no errors key |
| Responses.ServerError | app/Helpers/Response.php:85-87 | status 500, success false, the message, no errors key |
| Controllers.RequestDataMerge | app/Controllers/BaseController.php:56-59 | after setRequestData a key the router supplies reads as the router's value and any other key keeps its default |
| Controllers.ControllerError | app/Controllers/BaseController.php:148-152 | the controller's error reply carries the status, success false, the message and always an errors key, empty by default |
| Controllers.RequiredMessageGlued | app/Controllers/BaseController.php:180 | as written the message has 'i' and no space right after the field name ("Nameis required") |
| Controllers.RequiredMessage | app/Controllers/BaseController.php:180 | the corrected message is the ucfirst'ed field, one space, then "is required" |
| Controllers.FieldErrorsLookup | app/Controllers/BaseController.php:175-182 | a field has an error exactly when it has a rule and is unset or empty in the input, and the error is the message as the source builds it ("Nameis required") |
| Controllers.FieldErrorsNone | app/Controllers/BaseController.php:175-192 | there are no errors exactly when every field of the rules is set and non-empty |
| Controllers.ValidateOutcome | app/Controllers/BaseController.php:173-198 | validation continues with true exactly when every rule's field is set and non-empty; otherwise it ends with 422 "Validation failed" and the field errors, whose messages are as written |
| Controllers.Sanitize | app/Controllers/BaseController.php:204-221 | a string is trimmed, an array keeps its length and keys in order with each value sanitized in turn, any other value is returned as it is |
| Controllers.SanitizeClean | app/Controllers/BaseController.php:204-221 | no string anywhere in a sanitized value starts or ends with whitespace |
| Controllers.SanitizeIdempotent | app/Controllers/BaseController.php:204-221 | sanitizing twice is sanitizing once |
| Controllers.IdMatchesRowText | app/Controllers/BaseController.php:408 | an integer id and a decimal id text are loosely equal, from either side, exactly when the text is that id's |
| Controllers.IdTextsMatch | app/Controllers/BaseController.php:408 | two decimal id texts are loosely equal exactly when the ids are equal |
| Controllers.LooseTextCases | app/Controllers/BaseController.php:408 | under PHP 7 "5" differs from "5 ", while the integer 5 equals "5abc" and 0 equals "admin" |
| Controllers.SessionUser | app/Controllers/BaseController.php:338-350 | the session user is a non-empty array with the session's id, email and name or null, and its role or else 'customer' |
| Controllers.Authenticate | app/Controllers/BaseController.php:234-293 | the request goes on exactly when the version is v1 and the session's logged_in is true, with the session user; other versions end with 501, a v1 request without login with 401 |
| Controllers.SessionRoleDefault | app/Controllers/BaseController.php:338-350 | the session user is an admin exactly when the session's user_role is the string 'admin' |
| Controllers.BaseController.constructor | app/Controllers/BaseController.php:38-52 | a controller with the default request data and no user |
| Controllers.BaseController.SetRequestData | app/Controllers/BaseController.php:56-69 | the request data becomes the array_merge of the old data and the router's, the user unchanged |
| Controllers.BaseController.GetInput | app/Controllers/BaseController.php:76-79 | the body's value for a set key, else the default |
| Controllers.BaseController.GetAllInput | app/Controllers/BaseController.php:82-85 | the request body when it is an array, else empty |
| Controllers.BaseController.HasInput | app/Controllers/BaseController.php:88-91 | true exactly when getInput without a default is not null, so a key holding null is not present |
| Controllers.BaseController.GetQuery | app/Controllers/BaseController.php:95-102 | the whole query without a key; the query's value for a set key; else the default |
| Controllers.BaseController.HasQuery | app/Controllers/BaseController.php:105-108 | true exactly when getQuery of the key is not null |
| Controllers.BaseController.GetParam | app/Controllers/BaseController.php:115-118 | the route parameter for a set key, else the default |
| Controllers.BaseController.GetMethod | app/Controllers/BaseController.php:122-125 | the request data's method when it has one |
| Controllers.BaseController.GetVersion | app/Controllers/BaseController.php:129-132 | the request data's version when it has one |
| Controllers.BaseController.Validate | app/Controllers/BaseController.php:173-198 | the loop's outcome is ValidateOutcome of the request body and the rules, with the messages as written |
| Controllers.BaseController.RequireAuth | app/Controllers/BaseController.php:234-293 | the request data is kept; the outcome is Authenticate's for the request's version and the session, and the user becomes the session user exactly when it goes on |
| Controllers.BaseController.IsAdmin | app/Controllers/BaseController.php:325-332 | true exactly when there is a user and its role is strictly 'admin' |
| Controllers.BaseController.RequireAdmin | app/Controllers/BaseController.php:298-312 | the request goes on exactly when authentication goes on and the session user's role is 'admin'; a failed authentication ends it with that 401 or 501 and the user unchanged; otherwise the session user is loaded and a non-admin is refused with 403 "Admin access required. You do not have permission."; the request data is kept |
| Controllers.BaseController.GetUserId | app/Controllers/BaseController.php:380-389 | null without a user, else the user's id |
| Controllers.BaseController.CheckOwnership | app/Controllers/BaseController.php:394-414 | 401 without a user; an admin passes; anyone else passes exactly when their id equals the resource's user id under PHP 7's loose comparison (so an integer id 5 passes "5abc"), else 403 with the given message |
| Controllers.BaseController.GetPagination | app/Controllers/BaseController.php:441-452 | page is max(1, the page query) and per-page max(1, min(100, the per_page query, default 20)), each read by the (int) cast (leading number, exponent included, saturated at 64 bits); the offset is the start of that page, which paginate maps back to the same page |
| Controllers.OwnerReachesOwnRow | app/Controllers/BaseController.php:394-414 | a customer whose session id is n passes ownership of a row whose user_id is the text of n |
| Controllers.OtherUsersRowRefused | app/Controllers/BaseController.php:394-414 | a non-admin with id n is refused with 403 on a row of any other user m |
| Config.ParseLine | config/database.php:12-29 | skipped lines and lines without '=' give nothing; otherwise the key has no whitespace at its ends and the value no quote mark at its ends |
| Config.ParseLineSplitsAtFirst | config/database.php:19-25 | a line key=value whose key holds no '=' splits into the trimmed key and the trimmed, unquoted value, so a value may itself hold '=' |
| Config.QuotesStripped | config/database.php:25 | a value between any two quote marks comes back without them |
| Config.ApplyLineOther | config/database.php:12-29 | a line that does not set key k leaves k as it was |
| Config.ApplyLinesLookup | config/database.php:9-31 | after the file a key holds the value of the last line that sets it; a key no line sets keeps its value from the environment |
| Config.LaterLineOverrides | config/database.php:9-31 | of two lines for the same key the later one wins |
| Config.LoadEnv | config/database.php:9-31 | a missing file leaves the environment as it is; otherwise the loop leaves ApplyLines of the lines |
| Config.DbSettings | config/database.php:35-39 | each DB_* setting is the environment's value when set, else localhost, bugsydb, root, the empty string and utf8mb4 |
| Config.HostFromFile | config/database.php:9-35 | a DB_HOST line in the file decides DB_HOST, whatever the environment held |
| Config.DbDefaults | config/database.php:35-39 | with none of the five set, the settings are exactly the defaults |
| Config.AppSettings | config/config.php:18-20 | each APP_* setting is the environment's value when set, else Bugsy, development and http://localhost/Bugsy |
| Config.AllowOrigin | config/config.php:50-87 | the header is sent exactly when the origin is allowed, and then echoes the origin |
| Config.MissingOriginRefused | config/config.php:50 | a request without an Origin header is never given the header |
| Config.DevPrefixPasses | config/config.php:66-68 | in development any origin beginning with http://localhost or http://127.0.0.1 passes |
| Config.DevListRedundant | config/config.php:53-68 | in development the list adds nothing: the two prefixes alone decide |
| Config.ProductionExact | config/config.php:72-86 | outside development only the six listed origins pass; the plain localhost origin is refused |
| Config.DefaultEnvPermissive | config/config.php:19 | with APP_ENV unset the development policy applies, so localhost-prefixed origins are echoed |
| Config.Serve | config/config.php:97-100 | an OPTIONS request is answered by the configuration alone, and every other request reaches the App and is never a preflight there |
| Config.Slashes | config/config.php:112 | every backslash becomes a slash and every other character stays, at the same length |
| Config.SlashesAround | config/config.php:112 | a namespace separator becomes a directory separator |
| Config.FirstExisting | config/config.php:120-125 | none exactly when no path exists; else the earliest existing path |
| Config.Autoload | config/config.php:109-126 | the loop loads the first existing of the app, Controllers and Models candidates, and no later one |
| Logging.SprintfFails | app/Models/BaseModel.php:767-774 | sprintf fails exactly when the format has more %s conversions than there are arguments |
| Logging.SprintfText | app/Models/BaseModel.php:767-774 | text without a % is copied to the output |
| Logging.SprintfConversion | app/Models/BaseModel.php:767-774 | a %s takes the first argument |
| Logging.ConversionsText | app/Models/BaseModel.php:767-774 | text without a % holds no conversion |
| Logging.LogFormatConversions | app/Models/BaseModel.php:767-774 | logError's format holds four conversions |
| Logging.LogLineAlwaysFails | app/Models/BaseModel.php:767-774 | with three arguments for the four conversions, no line is ever built: sprintf fails on every input |
| Logging.LogLineText | app/Models/BaseModel.php:767-774 | with the statement as a fourth argument the line is "[class] message - Table: table, SQL: statement" |
| Logging.ConversionsSpec | app/Models/BaseModel.php:767-774 | a %s is one conversion |
| Config.SentAllowOrigin | config/config.php:50-100 | a preflight carries config.php's origin decision; every other request carries the '*' App::run sends, since header() replaces the earlier value |
| Config.PolicyOverridden | app/Core/App.php:60-65 | an origin the policy refuses, or a missing one, is still answered with an Allow-Origin header on every request other than OPTIONS |

## Left out

- SQL execution: MySQL's evaluation of a statement is not modelled. Each statement is recorded as text, and its effect on the store is the modelled effect of the builder operation that produced it. Acceptance and the fetched rows are inputs.
- The hand-written joins and aggregates are represented by a `Models.HandWritten` token, which records the method that builds the statement and the values it interpolates. This covers the Product joins, the Cart, CartItem and OrderItem reads, and the order-number count. Their text is not modelled, only where the source appends to it (the LIMIT/OFFSET tail of getAllWithNames).
- `real_escape_string` and `PDO::quote` are a caller-given escape function, not MySQL's escaping. `is_numeric` is `Php.IsNumeric`, PHP 7's rule over the modelled values.
- Floating point: prices, subtotals and totals are integers (cents), or read through a caller-given `amount` function. PHP's float arithmetic and rounding are not modelled.
- CartItems.CartItem.AddItem: the quantity is an integer, as are those of `CheckStock`, `MergeLine` and `PlaceItem` and of `Products.Product.DecreaseStock` and `CheckStock`. CartController passes any text `is_numeric` accepts, so "2.5" or "1e1" would reach `$existing['quantity'] + $quantity` as float arithmetic, which is not modelled.
- Php.ToStr: an array gives "Array". In PHP 7, `md5` and `real_escape_string` of an array warn and return null, so `Users.RegisterData` and `Users.ChangePasswordRun` hash "Array" where PHP would store or compare a null hash.
- Exceptions mysqli may throw are not modelled: a refused statement is a `false` result.
- I/O: `header`, `http_response_code`, `echo`, `exit` and `die` are represented by the reply or outcome value an operation ends with. `error_log` and the development-only log lines are dropped. `error_reporting` and `ini_set` are out.
- Clock, hashing and files: `date`, `md5`, `file` and `file_exists` are parameters. The ROOT, APP and STORAGE paths are the `app` parameter of the autoloader.
- Sessions: `$_SESSION` is a parameter map, and `session_start` and cookies are out.
- Concurrency: the count-plus-one race of the order number, and the missing transaction around multi-step writes, are out.
- Product: searchByName, getFeatured, getLatest, getByPriceRange, getLowStock and getOutOfStock are hand-written query text outside the modelled core.
- User: findByEmail, emailExists, getOrders, countOrders, resetPasswordDirect, isAdmin and isActive are outside the modelled core. resetPasswordDirect's update is the one `Users.User.WritePassword` models.
- Order: findByOrderNumber, getUserOrders, getWithItems, the counting and statistics queries, getByStatus and getRecent are hand-written reads outside the modelled core.
- OrderItem: getWithProduct and getTopProducts are hand-written reads. Cart: syncPrices and getAbandoned are out. CartItem: getWithProduct is out.
- BaseController: `json`, `log`, `getUser`, `checkPermission` and the database handle its constructor fetches are not modelled. The session is started by the caller.
- App: applyMiddleware has an empty body, sendError and getRequestInfo are output only, and setCorsHeaders is represented only by the origin value it sends (`Config.SentAllowOrigin`).
- Class-name case sensitivity of the filesystem is not modelled: loadable classes and methods are a set of names.
- Refused statements: the fallback answers below assume logError returns. This is PHP 7's behaviour, where sprintf with one argument too few warns and yields false. On PHP 8 that call throws ArgumentCountError (`Logging.LogLineAlwaysFails`). The request then ends in index.php's 500 handler, the statement having been sent and nothing reset. The lines below name each member whose contract states such a fallback.
- Models.BaseModel.Find: a refused query answers null after logError (BaseModel.php:153); on PHP 8 it throws there.
- Models.BaseModel.FindAll: a refused query resets the builder and answers `[]` after logError (BaseModel.php:216); on PHP 8 it throws before the reset.
- Models.BaseModel.Create: a refused insert answers false after logError (BaseModel.php:289); on PHP 8 it throws there.
- Models.BaseModel.Update: a refused update answers false after logError (BaseModel.php:358); on PHP 8 it throws there.
- Models.BaseModel.Delete: a refused delete answers false after logError (BaseModel.php:402); on PHP 8 it throws there.
- Models.BaseModel.FetchAll: a refused query answers `[]` after logError (BaseModel.php:675); on PHP 8 it throws there.
- Models.BaseModel.FetchOne: a refused query answers null after logError (BaseModel.php:711); on PHP 8 it throws there.
- Orders.Order.CreateOrder: its false for a refused insert is create's fallback; on PHP 8 the request ends inside create.
- OrderItems.CartRunAnswer: its false answer at the first refused insert is create's fallback; on PHP 8 the loop ends there with the throw.
- OrderItems.CartRunEffect: "true exactly when nothing is refused" rests on create's fallback; on PHP 8 a refused insert throws, and the sent and stored parts stay as stated.
- OrderItems.OrderItem.CreateItem: its false for a refused insert is create's fallback; on PHP 8 it throws.
- OrderItems.OrderItem.CreateLine: its falsy answer for a refused insert is create's fallback; on PHP 8 it throws.
- OrderItems.OrderItem.CreateFromCart: the early false at the first refused insert is create's fallback; on PHP 8 the loop ends there with the throw.
- OrderItems.OrderItem.GetByOrder: a failed join answers `[]` after logError (OrderItem.php:70); on PHP 8 it throws there.
- Carts.NewCartRefused: its null answer after a refused INSERT is create's fallback; on PHP 8 getOrCreate ends inside create.
- Carts.DeleteCartEffect: the cart's DELETE after a refused clearItems follows clearItems' fallback; on PHP 8 logError at Cart.php:201 throws first and that DELETE is never sent.
- Carts.Cart.GetByUserId: a failed lookup answers null after logError (Cart.php:63); on PHP 8 it throws there, so getOrCreate never sees "no cart" for a failed lookup.
- Carts.Cart.CreateCart: its false for a refused insert is create's fallback; on PHP 8 it throws.
- Carts.Cart.ClearItems: a refused DELETE answers false after logError (Cart.php:201); on PHP 8 it throws there.
- Carts.Cart.DeleteCart: after a refused clearItems it still sends the cart's DELETE; on PHP 8 the throw at Cart.php:201 ends the request first.
- CartItems.AddItemMerged: its false for a refused merge update is update's fallback; on PHP 8 it throws.
- CartItems.CartItem.FindByCartAndProduct: a failed lookup answers null after logError (CartItem.php:62); on PHP 8 it throws there.
- CartItems.CartItem.CreateLine: its false for a refused create is create's fallback; on PHP 8 it throws.
- CartItems.CartItem.MergeLine: its false for a refused update is update's fallback; on PHP 8 it throws.
- CartItems.CartItem.GetByCart: a failed join answers `[]` through fetchAll's fallback (BaseModel.php:675); on PHP 8 it throws.
- Products.DecreaseFloor: its false and unchanged store for a refused UPDATE are update's fallback; on PHP 8 it throws.
- Users.User.Register: its false for a refused create is create's fallback; on PHP 8 it throws.
- Models.BaseModel.Paginate: floor and ceil are integer division, and it requires a positive per-page count.
- Php.LooseEquals: numbers are compared as exact reals, without the rounding to double a long or fractional numeric string gets, and without PHP's rule for two integer strings that both overflow. Two arrays are equal only when identical, not by PHP's key-by-key loose comparison.
- Php.ToInt: the leading number is read exactly, so a huge exponent saturates instead of giving INF, which the cast maps to 0; the double rounding of a value with a fraction or exponent is not modelled. Integers are otherwise unbounded: the 64-bit width is modelled only by the cast's saturation.
- Controllers.BaseController.GetPagination: `($page - 1) * $perPage` is an unbounded integer; in PHP it becomes a float once it passes PHP_INT_MAX, which a saturated page makes possible.
- Controllers.BaseController.GetAllInput: a request body that is not an array reads as empty.
- Controllers.BaseController.Validate: the `return false` after the error reply is unreachable in the source, since the reply ends the request; it appears in the model as the `Halt` outcome.

## Findings

| source | as written | input that shows it | evidently intended | confidence | as-written member | corrected member |
|---|---|---|---|---|---|---|
| app/Models/V1/Product.php:62-67 | "LIMIT " . $limit followed by "OFFSET " . $offset, with no space between | limit 10, offset 20 gives "...LIMIT 10OFFSET 20", which MySQL rejects | "LIMIT 10 OFFSET 20" | high; not executed | Products.AllWithNamesGlued | Products.PageTextCases |
| app/Models/BaseModel.php:767-774 | sprintf with four %s and three arguments | any call of logError, for example class Order, message "Create failed", table orders | the statement as the fourth argument; on PHP 7 the call warns and logs nothing, on PHP 8 it throws ArgumentCountError, so every fallback after logError is dead there (the model follows PHP 7, see "## Left out") | high; not executed | Logging.LogLineAlwaysFails | Logging.LogLineText |
| app/Controllers/BaseController.php:180 | ucfirst($field) . 'is required' | field "name" gives "Nameis required" | "Name is required" | high; not executed | Controllers.RequiredMessageGlued | Controllers.RequiredMessage |
