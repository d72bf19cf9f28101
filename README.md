# okstdio: a Dafny model of the JSON-RPC 2.0 stdio server core

okstdio is a small Python framework for JSON-RPC 2.0 servers that talk over
standard input and output. One request is one line. The server keeps a tree
of routers. Each router holds its own methods and middlewares and mounts
sub-routers under a prefix. A dotted method name such as `hero.create` is
resolved through that tree. The handler's parameters are bound from the
request's `params`, and the handler's result goes back as a response line.
The server can also describe its router tree as a JSON-like document and
render it as Markdown. The repository ships an example "hero" server over
SQLite: create heroes, and send them into a dungeon whose background task
fights monsters and pushes each result to the client.

This project models those parts:

| Dafny module (file) | models |
|---|---|
| `JsonValue` (json.dfy) | JSON values as `json.loads` gives them |
| `Wrappers` (wrappers.dfy) | the optional value |
| `PyText` (pytext.dfy) | the Python `str` operations used: `split`, `join`, `upper`, `strip`, `splitlines`, `str(int)` |
| `JsonRpcModel` (jsonrpc_model.dfy) | the request, response and error envelopes: defaults, field validation in declaration order, encoding and decoding |
| `Router` (router.dfy) | `RPCRouter` as a class: registration, mounting, `method_tree` |
| `Application` (application.dfy) | `RPCServer`: segment splitting, recursive dispatch with middleware collection, argument binding, method execution, and the read loop |
| `AppDoc` (appdoc.dfy) | `docs_json` (walk and serialisation) and `docs_markdown` (a `MarkdownWriter` class whose methods append lines) |
| `Schemas` (schemas.dfy) | the example records, their validators (`Model(**mapping)`), and `model_dump` |
| `Databases` (databases.dfy) | the example `AppDB` as a class over an in-memory hero table |
| `ExampleServer` (example_server.dfy) | the example handlers: `healthy`, `hero.create`, the `fighting` loop, `hero.dungeon`, `hero.stop_dungeon` |

Code that changes state in place is modelled as classes whose methods name
what they modify. Each such method is proved against a function over values:
- `RpcRouter` against `Tree`
- `RpcServer.ServeLines` and `RpcServer.Run` against `Serve`
- `AppDb` against `FindHero`, `InsertHero` and `UpgradeOf`
- `ExampleApp.Fighting` against `Fight`
- `MarkdownWriter` against `MarkdownLines`

The main properties proved are:
- request, response, error and record round trips
- a route resolves exactly to the handler at the end of the path, and the path's middlewares are collected in order
- binding either binds every declared parameter or reports the first failure
- the read loop writes exactly the successful answers, in order, up to the first empty line
- the hero table keeps unique names, increasing ids and levels in 0..50
- the fight loop's experience and level arithmetic
- every registered method appears in the Markdown under a heading that carries its full dotted path

Behaviour this model follows from the code rather than from the project's
own description of it:
- The binder shown never injects the `IOWrite` writer. `IOWrite`'s own
  definition is not part of this model; assuming, as its use suggests, that
  it is not a pydantic model, a parameter annotated `IOWrite` whose name is
  absent from `params` is bound to its default, the `inspect.Parameter.empty`
  marker (`Application.BindOne`). The example's background task is modelled
  with a writer that works (see `ExampleServer.ExampleApp.Fighting` under
  "Left out").
- Every `int` field is validated as pydantic's lax `int`: a bool is 1 or 0
  and a string holding a decimal integer is that integer
  (`JsonRpcModel.LaxInt`). So `"id": true` is the id 1, and
  `{"hero_name": "a", "level": "7"}` is a hero at level 7. The `id`, an
  `int | str`, keeps a string as a string.
- A parameter annotated with a model class is built from the WHOLE `params`
  mapping (`ann(**params)`), not from `params[name]`. So the request that
  `create`'s docstring shows, `{"hero": {"hero_name": ...}}`, fails
  validation (`Schemas.NestedHeroIsNotCreateHero`).
- `appdoc.py` reads a richer router than the `router.py` shown:
  - method entries that are `(func, label)` pairs
  - a middleware list with `get_full()`
  - `label` and `version` attributes on routers and on the server

  The documentation is therefore modelled over a labelled router
  description (`AppDoc.DocRouter`, `AppDoc.DocServer`) whose children keep
  their mounting order.
- A method name equal to the server name alone leaves no segments. Unpacking
  `head, *tail` then raises `ValueError`. That is not an `RPCError`, so it
  escapes the read loop and stops the server (`Application.Resolve`,
  `Application.SegmentsEmpty`, `Application.ServeStep`).
- The binder does not validate a plain parameter: `hero.dungeon` with
  `"params": {}` binds `hero_name` to the `inspect.Parameter.empty` marker.
  SQLite cannot bind that marker in `get_hero`, and the error it raises is
  neither an `RPCError` nor a `ValidationError`, so it also escapes the read
  loop and stops the server. So does a list or object `hero_name`, an
  integer `hero_name` outside the signed 64-bit range (`OverflowError`), and
  a list or object `task_id` for `hero.stop_dungeon`, which `tasks.get` cannot
  hash (`ExampleServer.ExampleApp.Dungeon`,
  `ExampleServer.ExampleApp.StopDungeon`). A null `hero_name` finds no hero
  and answers "英雄 None 不存在."; an integer 5 finds a hero named "5".

## Model

| member | source | states |
|---|---|---|
| JsonRpcModel.NewResponse | src/okstdio/general/jsonrpc_model.py:28-29 | a response built from a result alone has id 0, version "2.0" and that result |
| JsonRpcModel.LaxInt | src/okstdio/general/jsonrpc_model.py:9 | an int is itself, a bool is 1 or 0, a string is read as a decimal integer; nothing else is an int |
| JsonRpcModel.LaxIntOfText | src/okstdio/general/jsonrpc_model.py:9 | an int and its decimal text are both accepted as that int |
| JsonRpcModel.CheckId | src/okstdio/general/jsonrpc_model.py:9 | a missing id defaults to 0; a string id is kept as a string; any other id is accepted exactly when the lax int accepts it, as that int |
| JsonRpcModel.CheckVersion | src/okstdio/general/jsonrpc_model.py:12-17 | fails exactly when a `jsonrpc` member other than "2.0" is present, with an invalid-request error carrying the id validated before it (0 when none); an accepted version is "2.0" |
| JsonRpcModel.UpperKeepsVersion | src/okstdio/general/jsonrpc_model.py:17 | upper-casing the accepted version leaves it "2.0" |
| JsonRpcModel.CheckStr | src/okstdio/general/jsonrpc_model.py:24 | a string field is accepted exactly when present and a string, and the value is the document's |
| JsonRpcModel.CheckAny | src/okstdio/general/jsonrpc_model.py:25 | an `Any` field is accepted exactly when present, with the document's value |
| JsonRpcModel.ValidateRequest | src/okstdio/general/jsonrpc_model.py:23-25 | a valid request has a string `method` and a `params` taken from the document, version "2.0" and the id the id check accepts (0 when missing); a bad version gives the invalid-request error with the validated id, and only a bad version gives a protocol error |
| JsonRpcModel.BadVersionReportsValidatedId | src/okstdio/general/jsonrpc_model.py:14-16 | with a bad version the error carries the request's int or string id (a bool id as 1 or 0), and 0 when the id is missing or not an id |
| JsonRpcModel.BoolIdIsInt | src/okstdio/general/jsonrpc_model.py:9 | a request whose id is `true` or `false` is accepted with the id 1 or 0 |
| JsonRpcModel.RequestDefaults | src/okstdio/general/jsonrpc_model.py:9-10 | a request with only method and params gets id 0 and version "2.0" |
| JsonRpcModel.RequestNeedsMethodAndParams | src/okstdio/general/jsonrpc_model.py:24-25 | a request without `method` or without `params` is refused |
| JsonRpcModel.EnvelopeFields | src/okstdio/general/jsonrpc_model.py:28-39 | a dumped response has exactly id, jsonrpc, result; a dumped error exactly id, jsonrpc, error; they share only id and jsonrpc |
| JsonRpcModel.DecodeResponse | src/okstdio/general/jsonrpc_model.py:28-29 | a decoded response has version "2.0" and its document has a result |
| JsonRpcModel.CheckErrorData | src/okstdio/general/jsonrpc_model.py:35 | missing error data defaults to none |
| JsonRpcModel.DecodeErrorDetail | src/okstdio/general/jsonrpc_model.py:32-35 | a decoded error detail's code is the document's code read as a lax int, and its message is the document's |
| JsonRpcModel.DecodeError | src/okstdio/general/jsonrpc_model.py:38-39 | a decoded error envelope has version "2.0" and its document has an error |
| JsonRpcModel.RequestRoundTrip | src/okstdio/general/jsonrpc_model.py:23-25 | validating a dumped request gives the request back |
| JsonRpcModel.ResponseRoundTrip | src/okstdio/general/jsonrpc_model.py:28-29 | decoding a dumped response gives the response back |
| JsonRpcModel.ErrorRoundTrip | src/okstdio/general/jsonrpc_model.py:32-39 | decoding a dumped error envelope, with its detail and data, gives it back |
| Router.MethodKey | src/okstdio/server/router.py:35 | a method is registered under the given name when it is non-empty, and otherwise under the function's own name |
| Router.RpcRouter.constructor | src/okstdio/server/router.py:11-20 | a new router has the given prefix, no methods, no middlewares and no sub-routers |
| Router.RpcRouter.RegisterMiddleware | src/okstdio/server/router.py:22-29 | the middleware is appended and nothing else changes; the decorator returns it unchanged |
| Router.RpcRouter.RegisterMethod | src/okstdio/server/router.py:31-39 | the method table maps the key to the function, replacing an earlier entry; the decorator returns the function |
| Router.RpcRouter.IncludeRouter | src/okstdio/server/router.py:41-46 | a taken prefix is refused and nothing changes; otherwise the child is mounted under its prefix |
| Router.RpcRouter.Tree | src/okstdio/server/router.py:48-53 | the method tree's keys are the methods' and the sub-routers' keys; every sub-router prefix maps to that sub-router's own tree, overriding a method of the same name |
| Router.RpcRouter.CollectTree | src/okstdio/server/router.py:50-53 | the loop over sub-routers computes the method tree |
| Router.RpcRouter.MethodTree | src/okstdio/server/router.py:48-53 | the router's own method table becomes the tree it had before the call, and that table is returned |
| Application.Segments | src/okstdio/server/application.py:40-42 | the segments hold no dot and join back into the method name, less a leading server-name segment |
| Application.SegmentsElideServerName | src/okstdio/server/application.py:40-42 | only a first segment equal to the server name is dropped: prefixing a name with the server name changes nothing, and other names are split as they are |
| Application.SegmentsEmpty | src/okstdio/server/application.py:40-42 | no segment is left exactly when the method name is the (dot-free) server name |
| Application.Resolve | src/okstdio/server/application.py:46-71 | dispatch fails fatally exactly on an empty path, otherwise fails only with method-not-found; a route collects the middlewares of every router on the path, the current one first |
| Application.ResolveFound | src/okstdio/server/application.py:46-71 | along an existing path of sub-routers ending in a method, dispatch finds that method with the middlewares of the whole path in order |
| Application.ResolvedPath | src/okstdio/server/application.py:46-71 | every successful dispatch is such a path: sub-routers by prefix, then a method of the last router |
| Application.ResolveMissing | src/okstdio/server/application.py:53-69 | a missing sub-router or method at a segment gives method-not-found naming that segment |
| Application.Dispatch | src/okstdio/server/application.py:46-73 | the recursive dispatcher computes the route |
| Application.Contains | src/okstdio/server/application.py:91 | `name in params` on a dict tests the keys, on a list the items, on a string the substrings (the name occurs at some position); anything else raises |
| Application.BindOne | src/okstdio/server/application.py:83-94 | a model-class parameter is built from the whole params object, with its errors; any other parameter takes its params entry, else its default (the empty marker when it has none); non-object params succeed only when the name is not in them |
| Application.Bind | src/okstdio/server/application.py:82-94 | a successful binding binds exactly the declared names, every step succeeding; a failed one fails with the failure of some parameter's step |
| Application.BindFromBindsEach | src/okstdio/server/application.py:82-94 | a successful binding binds exactly the declared names, each to its own binding, keeping earlier entries for names not redeclared |
| Application.BindFromFirstFailure | src/okstdio/server/application.py:82-94 | a failed binding fails with the first parameter that fails, all before it binding |
| Application.BindArgs | src/okstdio/server/application.py:82-94 | the loop over the signature computes the binding |
| Application.Execute | src/okstdio/server/application.py:75-109 | a call answers with a fresh response (id 0) holding the handler's result; validation errors in binding or in the call become invalid-params carrying the request id; calling a nested table fails fatally; the handler's world after the call is the one the handler leaves, and unchanged when binding fails or no handler is called |
| Application.ExecuteMethod | src/okstdio/server/application.py:75-109 | the method computes the execution and the world it leaves |
| Application.Serve | src/okstdio/server/application.py:111-129 | the read loop writes at most one response per line |
| Application.ServeStep | src/okstdio/server/application.py:113-124 | an empty line stops the loop; a response is written and the loop goes on; an RPC or validation error is dropped; any other exception stops the loop with nothing more written |
| Application.ServeAdvance | src/okstdio/server/application.py:113-124 | one iteration of the loop extends what was written by the line's response, if any |
| Application.ServeWritesAnswers | src/okstdio/server/application.py:111-129 | everything written is the successful answer of some line, and an escaping exception is some line's |
| Application.ServeConcat | src/okstdio/server/application.py:111-129 | serving two inputs in a row is serving the first and, if it ran out, then the second |
| Application.ServeEndsAtEmptyLine | src/okstdio/server/application.py:116-118 | input ending in an empty line never runs out |
| Application.ServeStopsAtEmptyLine | src/okstdio/server/application.py:116-118 | lines after an empty line are never read |
| Application.RpcServer.constructor | src/okstdio/server/application.py:18-25 | the server's root router has the server name as prefix and is empty; nothing is written yet and the writer is open |
| Application.RpcServer.Handle | src/okstdio/server/application.py:27-73 | a line that is not JSON is a parse error; an invalid request gives its validation error; a routing error is returned as is; an answer the middlewares give themselves is the answer; a request they hand on is executed with the params and id they hand on; only an executed handler changes the world |
| Application.RpcServer.HandleRequest | src/okstdio/server/application.py:27-73 | the handler of one line computes that answer and the world it leaves |
| Application.RpcServer.Answers | src/okstdio/server/application.py:111-126 | one answer per line, the first being the first line handled in the starting world |
| Application.RpcServer.AnswersAt | src/okstdio/server/application.py:111-126 | each line's answer is that line handled in the world the lines before it left |
| Application.RpcServer.AnswersStep | src/okstdio/server/application.py:113-124 | the answers from a line on are that line's answer, then the rest handled in the world it left |
| Application.ServeHalt | src/okstdio/server/application.py:113-118 | the loop stops with what it has written: "exhausted" at the end of the input, "empty line" at an empty line |
| Application.ServeProgress | src/okstdio/server/application.py:113-124 | handling a non-empty line either stops the session with the line's exception, or extends what was written by the line's response (if any) and carries on with the next line |
| Application.RpcServer.AnswerLine | src/okstdio/server/application.py:113-124 | handling a line in the current world gives that line's answer, and the later lines are answered in the world it leaves |
| Application.RpcServer.ServeLines | src/okstdio/server/application.py:111-126 | the loop writes and stops as the read-loop specification says for the answers of these lines, each handled in the world the earlier ones left |
| Application.RpcServer.Run | src/okstdio/server/application.py:111-129 | the output gains exactly the session's responses, the stop reason is the session's, and the writer is closed at the end |
| PyText.Split | src/okstdio/server/application.py:40 | splitting never gives an empty list |
| PyText.Join | src/okstdio/server/appdoc.py:99 | joining nothing is empty; a join starts with the first piece, followed by the separator when there are more |
| PyText.ParseInt | src/okstdio/general/jsonrpc_model.py:9 | text is read as an int only when it is an optional sign and digits; a minus sign gives a value of at most 0, any other text a value of at least 0 |
| PyText.NatToStringDigits | example/server.py:183 | `str(n)` is a run of digits whose value is n |
| PyText.ParseIntToString | src/okstdio/general/jsonrpc_model.py:9 | reading `str(i)` back as an int gives i |
| PyText.IsSubstringAt | src/okstdio/server/application.py:91 | `needle in haystack` holds exactly when the needle occurs at some position of the haystack |
| PyText.JoinOfSplit | src/okstdio/server/application.py:40 | joining the split pieces gives the name back |
| PyText.SplitOfJoin | src/okstdio/server/appdoc.py:99 | splitting a join of separator-free pieces gives the pieces back |
| PyText.SplitAfterPiece | src/okstdio/server/application.py:40 | a leading separator-free piece is split off as the first segment |
| PyText.Upper | src/okstdio/server/appdoc.py:149 | upper-casing maps every character and keeps the length |
| PyText.SplitLines | src/okstdio/server/appdoc.py:165 | no line of a docstring's split contains a line break |
| Schemas.ValidateHealthy | example/schemas.py:15-21 | a health result is valid exactly when its status is absent or "ok", and it is then "ok" |
| Schemas.RequiredStr | example/schemas.py:30 | a required string field is accepted exactly when present and a string |
| Schemas.CheckHeroId | example/schemas.py:40 | a missing or null hero id is none; any other is accepted exactly when the lax int accepts it, as that int |
| Schemas.CheckLevel | example/schemas.py:41 | a level is accepted exactly when present, a lax int and in 0..50, and it is that int |
| Schemas.ValidatePublicHero | example/schemas.py:33-41 | a public hero is valid exactly when name, id and level are, and carries them; a valid one has its level in range; errors are never empty |
| Schemas.LevelTextAccepted | example/schemas.py:41 | a level sent as the decimal text of a level in 0..50 is accepted as that level |
| Schemas.PublicHeroRoundTrip | example/schemas.py:33-41 | validating a dumped valid hero gives it back |
| Schemas.LevelOutOfRangeRefused | example/schemas.py:41 | a (lax) int level below 0 or above 50 is refused with the matching bound error on `level` |
| Schemas.ValidateCreateHero | example/schemas.py:44-51 | a create request is valid exactly when it has a string hero_name |
| Schemas.CreateHeroReadsOnlyName | example/schemas.py:44-51 | other keys do not affect creating the request |
| Schemas.NestedHeroIsNotCreateHero | example/server.py:110-113 | the documented nested `hero` params are refused for a missing hero_name |
| Schemas.Hex | example/schemas.py:61 | a task id is a fixed-width string of hex digits |
| Schemas.UnhexHex | example/schemas.py:61 | the hex text of a number below 16^width reads back as that number |
| Schemas.TaskIdsDistinct | example/schemas.py:61 | different uuids give different task ids |
| Schemas.NewFightingTask | example/schemas.py:54-62 | a new task has a 32-digit hex id reading back as its uuid, and the given hero |
| Schemas.ValidateFightingTask | example/schemas.py:54-62 | a valid task's hero validates from the `hero` object; a missing task id is generated, a present one kept; a missing hero is refused |
| Schemas.Nest | example/schemas.py:62 | errors of a nested record are located under the field's name |
| Schemas.FightingTaskRoundTrip | example/schemas.py:54-62 | validating a dumped task gives it back |
| Schemas.ValidateFightingResult | example/schemas.py:65-72 | a fight result is valid exactly when both texts are strings, and keeps them |
| Schemas.FightingResultRoundTrip | example/schemas.py:65-72 | validating a dumped fight result gives it back |
| Databases.FindHero | example/databases.py:72-87 | the lookup is none exactly when no row has the name; a found row is a stored row with that name |
| Databases.FindFirst | example/databases.py:81-84 | the lookup returns the first row with the name |
| Databases.FindUnique | example/databases.py:43 | with unique names the lookup returns the one row with the name |
| Databases.InsertHero | example/databases.py:58-59 | an insert keeps every row and appends one with the next id and level 0 |
| Databases.InsertOk | example/databases.py:42-44 | inserting a new name keeps the table's invariants (unique names, ids increasing below the last id, levels 0..50) |
| Databases.InsertFound | example/databases.py:58-59 | after inserting a new name it is found with the next id and level 0 |
| Databases.InsertHeroSpec | example/databases.py:49-61 | inserting a new name keeps the invariants, stores it with the next id and level 0, and changes no other lookup |
| Databases.SetLevel | example/databases.py:103-106 | the update changes the level of exactly the rows with the id |
| Databases.FindSetLevel | example/databases.py:103-106 | after the update a lookup gives the same row, with the new level when it has the id |
| Databases.SetLevelOk | example/databases.py:44 | setting a level in 0..50 keeps the invariants |
| Databases.DistinctIds | example/databases.py:42-43 | different heroes have different ids |
| Databases.UpgradeOther | example/databases.py:103-106 | upgrading a hero does not change any other hero |
| Databases.UpgradeSelf | example/databases.py:103-108 | after the upgrade the hero's level is one more |
| Databases.UpgradeSpec | example/databases.py:89-108 | an upgrade within 0..50 keeps the invariants, raises the hero by one and leaves every other hero alone |
| Databases.Upgrade | example/databases.py:103-106 | the upgrade keeps every row's id and name, and raises by one the level of the row with the hero's id only |
| Databases.UpgradeOf | example/databases.py:89-108 | "no hero" exactly when the name is not stored; only an upgrade changes the table, and it reports the stored level plus one, within 0..50 |
| Databases.UpgradeOk | example/databases.py:44 | an upgrade within range keeps the invariants |
| Databases.UpgradeOfFound | example/databases.py:89-108 | a stored hero below 50 is upgraded to level + 1; at 50 the level check fails and nothing changes |
| Databases.UpgradeStep | example/databases.py:89-108 | a successful upgrade keeps the invariants and reports the new level |
| Databases.AppDb.constructor | example/databases.py:19-27 | opening a database keeps an existing hero table, or creates an empty one |
| Databases.AppDb.CreateAllTable | example/databases.py:29-47 | the table exists afterwards and an existing table is untouched |
| Databases.AppDb.CreateHero | example/databases.py:49-61 | a taken name is an integrity error and changes nothing; a new name is inserted |
| Databases.AppDb.GetHeroList | example/databases.py:63-70 | all rows are returned, with distinct names and increasing ids |
| Databases.AppDb.GetHero | example/databases.py:72-87 | a hero is returned exactly when a row has the name, and it is that row |
| Databases.AppDb.HeroUpgrade | example/databases.py:89-108 | the outcome and the new table are the upgrade specification's: no hero, upgraded to level + 1, or a failed level check with nothing changed |
| ExampleServer.HealthyHandler | example/server.py:79-88 | the health check answers status "ok", and its dump validates back |
| ExampleServer.Gain | example/server.py:147-163 | each monster gives 10, 20 or 50 experience |
| ExampleServer.FightTimeRange | example/server.py:154-163 | the fight time is drawn in 1..2 seconds for the slime, 2..3 for the goblin and 3..5 for the minotaur |
| ExampleServer.Step | example/server.py:168-174 | a level-up happens exactly when the experience reaches 100, which then wraps to its remainder modulo 100; otherwise the gain is added |
| ExampleServer.StepBounded | example/server.py:169-177 | experience stays in 0..99 and a level-up happens exactly when it reaches 100, with no experience lost |
| ExampleServer.Fight | example/server.py:131-188 | a fight that does not crash pushes one result per round, one that crashes fewer; the level never falls |
| ExampleServer.FightSpec | example/server.py:131-188 | experience stays in 0..99 and the level in 0..50, never falling; without a crash every round pushes and 100 levels plus experience add up to all the gains; a crash only happens at level 50 on a level-up |
| ExampleServer.Pushes | example/server.py:179-188 | every push carries the task id as response id and a result that validates back to the round's result |
| ExampleServer.PushesSnoc | example/server.py:180-188 | one more round appends one push |
| ExampleServer.FightSplit | example/server.py:149-188 | a fight over two runs of rounds is the first run then the second from where it ended, unless the first crashed |
| ExampleServer.Advance | example/server.py:149-188 | a round that does not crash pushes its result and the fight continues from the new experience and level |
| ExampleServer.Halt | example/server.py:173-188 | a round whose level-up fails ends the fight with only the earlier pushes, crashed, at the level reached |
| ExampleServer.UpgradeDuringFight | example/server.py:173-176 | the upgrade during a fight raises the hero one level, or fails at 50 and leaves the table as it was |
| ExampleServer.ExampleApp.constructor | example/server.py:191-193 | the app starts with no tasks on the given database |
| ExampleServer.ExampleApp.Create | example/server.py:96-127 | a taken name answers error -32001 and changes nothing; a new hero is inserted and returned with the next id and level 0 |
| ExampleServer.ExampleApp.Fighting | example/server.py:131-188 | for rounds whose times lie in their monsters' ranges, the pushes, the crash and the hero's final level are those of the fight specification over the rounds played |
| ExampleServer.ExampleApp.PlayRound | example/server.py:150-188 | one round pushes its result, updates experience and stores a level-up, or crashes at level 50 with nothing stored |
| ExampleServer.ExampleApp.LevelUp | example/server.py:173-177 | the hero's stored level is raised by one below 50; at 50 nothing changes and no level is returned |
| ExampleServer.ExampleApp.Dungeon | example/server.py:196-218 | an argument SQLite cannot bind (list, object, the empty marker, an int outside the signed 64-bit range) raises a fatal error and registers nothing; a string, a 64-bit int or a bool finds the hero of that text, and null finds none; an unknown hero answers error -32002 naming the argument as `str()` prints it, with no task; otherwise a task with a fresh id and the stored hero is registered and returned |
| ExampleServer.ExampleApp.StopDungeon | example/server.py:221-233 | a list or object id cannot be hashed and raises a fatal error, changing nothing; any other id answers true; only a string naming a registered task marks it cancelled, and nothing else changes |
| AppDoc.DottedJoin | src/okstdio/server/appdoc.py:99 | empty parts are dropped and the rest joined by a dot |
| AppDoc.NonEmpty | src/okstdio/server/appdoc.py:99 | filtering keeps only non-empty parts of the input |
| AppDoc.ChainStep | src/okstdio/server/appdoc.py:123 | extending a prefix by one router or method name is the dotted path of the longer chain |
| AppDoc.ChainPathSplits | src/okstdio/server/appdoc.py:99 | a documented path splits back on "." into its segments, so it is the name the dispatcher resolves |
| AppDoc.TypeTag | src/okstdio/server/appdoc.py:45-53 | the type is none exactly for an unannotated parameter; classes give their name, other annotations their text |
| AppDoc.SchemaOf | src/okstdio/server/appdoc.py:47-49 | a schema is given exactly for a model class |
| AppDoc.ParamDocOf | src/okstdio/server/appdoc.py:39-63 | name and kind are kept; required exactly when there is no default; a JSON default is kept, any other default is shown by its repr; no default shows as null |
| AppDoc.ParamDocs | src/okstdio/server/appdoc.py:25-66 | no more items than parameters |
| AppDoc.ParamDocsKeep | src/okstdio/server/appdoc.py:28-65 | exactly the parameters not annotated `IOWrite` are documented |
| AppDoc.ParamDocsFrom | src/okstdio/server/appdoc.py:28-65 | the parameters from one on are documented as that parameter's item, unless it is an `IOWrite`, followed by the rest |
| AppDoc.SerializeParams | src/okstdio/server/appdoc.py:25-66 | the loop computes the parameter items |
| AppDoc.ResultDocs | src/okstdio/server/appdoc.py:73-94 | no item exactly for no annotation or `None`; otherwise one item with the type and schema, and the class docstring only for a custom type with one |
| AppDoc.Walk | src/okstdio/server/appdoc.py:96-131 | the walk keeps labels and order; each method's path is the dotted join of the prefix and its name; each middleware item carries the middleware's name, label and docstring, in `get_full()` order; each child is walked with its dotted prefix |
| AppDoc.WalkDistinctKeys | src/okstdio/server/appdoc.py:96-131 | the walk of a tree with distinct method names per node and distinct sibling prefixes has, at every node, distinct method names and distinct `routers` keys, so the `routers` dict loses no sub-router |
| AppDoc.DocsJson | src/okstdio/server/appdoc.py:133-141 | the document carries the server's name, version and label and the root walk's methods, middlewares and routers |
| AppDoc.DocsOf | src/okstdio/server/appdoc.py:100-108 | one method item per registration, described with its chain's path |
| AppDoc.WalkDocumentsAll | src/okstdio/server/appdoc.py:96-131 | the walk documents exactly the tree's registrations, in depth-first order |
| AppDoc.WalkDocumentsChildren | src/okstdio/server/appdoc.py:121-124 | the children's walks document exactly the children's registrations |
| AppDoc.DocumentedPaths | src/okstdio/server/appdoc.py:96-141 | every registered method is documented, by name, with the dotted path of its routers and its name |
| AppDoc.Padded | src/okstdio/server/appdoc.py:187 | each table cell is written with one space on either side |
| AppDoc.CellsSplit | src/okstdio/server/appdoc.py:186-188 | cells free of "|" are recovered by splitting the row text |
| AppDoc.RowSplit | src/okstdio/server/appdoc.py:186-188 | a table row splits on "|" into its padded cells between two empty ends |
| AppDoc.LabelSuffix | src/okstdio/server/appdoc.py:218 | the label suffix is empty exactly when there is no label |
| AppDoc.SchemaBlock | src/okstdio/server/appdoc.py:189-195 | a schema block is written exactly for a present, non-empty schema, four lines around its JSON text |
| AppDoc.TypeCell | src/okstdio/server/appdoc.py:187 | the type cell is the type name, or "-" when it is missing or empty |
| AppDoc.RequiredCell | src/okstdio/server/appdoc.py:185 | "是" exactly for a required parameter, "否" otherwise |
| AppDoc.DefaultCell | src/okstdio/server/appdoc.py:181-184 | "-" exactly for no default, the default in backquotes otherwise |
| AppDoc.ParamBlock | src/okstdio/server/appdoc.py:186-195 | each parameter starts with its table row |
| AppDoc.ParamsLinesShape | src/okstdio/server/appdoc.py:174-196 | no parameters gives the one "*无参数*" line; otherwise header, rule, one row per parameter, four lines per schema and a blank line |
| AppDoc.ParamRowAt | src/okstdio/server/appdoc.py:180-188 | the i-th parameter's row sits after the header, the earlier rows and their schema blocks |
| AppDoc.MethodLines | src/okstdio/server/appdoc.py:217-227 | a method's section starts with its heading |
| AppDoc.MethodIntro | src/okstdio/server/appdoc.py:218-223 | the part before the parameters starts with the heading |
| AppDoc.MethodsLinesAppend | src/okstdio/server/appdoc.py:217 | the methods are rendered one after the other |
| AppDoc.MethodsLinesContain | src/okstdio/server/appdoc.py:216-227 | every method's heading appears in its section list |
| AppDoc.Indented | src/okstdio/server/appdoc.py:165-170 | each docstring line is written with the first or the continuation indent |
| AppDoc.HeadingName | src/okstdio/server/appdoc.py:235 | a router heading's name is prefixed by its parent's full name when there is one |
| AppDoc.HeadingMatchesPath | src/okstdio/server/appdoc.py:235 | the router heading's full name is the dotted path the walk gives the same router |
| AppDoc.TopNode | src/okstdio/server/appdoc.py:255-256 | the top-level routers are rendered as the children of a node with the top-level methods |
| AppDoc.RouterHeadings | src/okstdio/server/appdoc.py:234-253 | a router's rendering contains the heading of every method in it or below it |
| AppDoc.ChildHeadings | src/okstdio/server/appdoc.py:252-253 | the children's renderings contain the heading of every method below them |
| AppDoc.MarkdownLines | src/okstdio/server/appdoc.py:143-256 | the document starts with the title block, headed by the upper-cased server name, and has the global middleware and top-level method sections when there are some |
| AppDoc.MarkdownHeadings | src/okstdio/server/appdoc.py:143-256 | the document contains the heading of every top-level and routed method |
| AppDoc.RegisteredMethodItems | src/okstdio/server/appdoc.py:216-219 | the documented methods are the registrations, each headed by its full path and label |
| AppDoc.RegisteredMethodsHeaded | src/okstdio/server/appdoc.py:143-259 | every registered method has a `###` heading with its full dotted path and label in the Markdown |
| AppDoc.MarkdownWriter.constructor | src/okstdio/server/appdoc.py:147 | the writer starts with no lines |
| AppDoc.MarkdownWriter.RenderParams | src/okstdio/server/appdoc.py:174-196 | appends exactly the parameter section |
| AppDoc.MarkdownWriter.RenderResults | src/okstdio/server/appdoc.py:198-214 | appends exactly the result section |
| AppDoc.MarkdownWriter.RenderMethod | src/okstdio/server/appdoc.py:217-227 | appends exactly one method's section |
| AppDoc.MarkdownWriter.RenderMethods | src/okstdio/server/appdoc.py:216-227 | appends exactly the methods' sections in order |
| AppDoc.MarkdownWriter.RenderIndented | src/okstdio/server/appdoc.py:165-170 | appends exactly the indented docstring lines |
| AppDoc.MarkdownWriter.RenderGlobalMiddleware | src/okstdio/server/appdoc.py:158-171 | appends exactly one global middleware's entry |
| AppDoc.MarkdownWriter.RenderGlobalMiddlewares | src/okstdio/server/appdoc.py:156-172 | appends the global middleware section, nothing when there are none |
| AppDoc.MarkdownWriter.RenderRouterMiddleware | src/okstdio/server/appdoc.py:242-250 | appends exactly one router middleware's entry |
| AppDoc.MarkdownWriter.RenderRouterMiddlewares | src/okstdio/server/appdoc.py:240-251 | appends the router middleware section, nothing when there are none |
| AppDoc.MarkdownWriter.RenderRouterHead | src/okstdio/server/appdoc.py:235-251 | appends the router heading, its methods and its middlewares |
| AppDoc.MarkdownWriter.RenderRouter | src/okstdio/server/appdoc.py:234-253 | appends exactly the router's rendering, its sub-routers included |
| AppDoc.MarkdownWriter.RenderChildren | src/okstdio/server/appdoc.py:252-253 | appends the sub-routers' renderings in order |
| AppDoc.MarkdownWriter.RenderTitle | src/okstdio/server/appdoc.py:149-154 | appends the title, version and (when labelled) description lines |
| AppDoc.MarkdownWriter.RenderTopMethods | src/okstdio/server/appdoc.py:230-232 | appends the top-level method section, nothing when there are none |
| AppDoc.DocsMarkdown | src/okstdio/server/appdoc.py:143-259 | the file is named after the server, and its text is the stripped newline join of the Markdown lines |

## Left out

- Standard input and output, asyncio and the `StdioStream` transport are not modelled. The read loop takes the lines read as a sequence, and each `write_line` appends to `output`.
- The middleware manager (`middleware.py`) is not part of this model. Its effect is a given function `Env.chain` that either hands the request on or answers itself. The example's logging middleware is one such chain.
- `Application.RpcServer.Answers`: handlers may keep state. A handler call takes and returns a world (`Env.invoke`), threaded from line to line. Middlewares are modelled as stateless: `Env.chain` is a pure function of the middlewares and the request.
- `errors.py` is not part of this model. The four protocol errors the server raises are given the codes of section 5.1 of the JSON-RPC 2.0 Specification: -32700, -32600, -32601 and -32602. Their messages and `data` layout beyond what the dispatcher passes are not modelled.
- pydantic internals are not modelled. `Env.build` stands for `ann(**params)`, and `Env.invoke` for the handler call. The example records' own validators are written out in `Schemas`.
- JSON parsing is not modelled. A line carries what `json.loads` makes of it. Floats are not represented.
- Logging, SQLite's engine and files are not modelled. `AppDb` keeps its table in memory, and each statement is one atomic change.
- `Router.RpcRouter.IncludeRouter`: requires the child's routers to be disjoint from the parent's. Mounting a router inside itself, or sharing one router between two parents, is not modelled.
- `Router.RpcRouter.MethodTree`: `method_tree` rewrites the method table of every router in the tree; the model rewrites only the root's. The sub-routers' own tables stay as they were. The nested tables the root stores are value snapshots, with no dictionary aliasing.
- `ExampleServer.ExampleApp.Fighting`: the writer is assumed to deliver every push. `IOWrite` is not part of this model, so neither its injection nor a failing write is.
- `ExampleServer.ExampleApp.Fighting`: the background task is a loop over the rounds it completes. The scheduler, the sleeps and cancellation are not modelled. Cancellation is the end of the rounds. The random monster and fight time are parameters.
- `ExampleServer.ExampleApp.StopDungeon`: models cancellation as a flag on the registered task; awaiting the task is not modelled.
- The example server's module-level wiring is not modelled: creating `app`, the decorators, and `include_router(hero_router)`. The labelled registration API it uses is not in the router shown.
- `AppDoc.DocsMarkdown`: returns the file name and the text instead of writing the file.
- `PyText.Upper`: upper-cases ASCII letters only; other characters are kept.
- `JsonRpcModel.LaxInt`: reads an optional sign and ASCII digits. pydantic also strips surrounding whitespace, allows `_` between digits, and accepts floats and float text with no fractional part. None of these is modelled.
- `AppDoc.WellFormed`: the walk and the rendering are stated for any `DocRouter`, including trees with repeated method names or prefixes, which the router's dicts cannot produce. Only `AppDoc.WalkDistinctKeys` assumes the shape.
- `ExampleServer.ExampleApp.Dungeon`: `hero_name` declares no default, so the binder never gives it a `Default` argument; the model requires that. SQLite is modelled only as far as `hero_name = ?` needs: text compares as itself, an int in the signed 64-bit range, or a bool, through the column's text affinity; a larger int cannot be bound; NULL matches nothing.
- `ExampleServer.ExampleApp.StopDungeon`: `task_id` declares no default, so the binder never gives it a `Default` argument; the model requires that.
- `inspect.getdoc`, `model_json_schema` and `repr` are not modelled. Each handler, middleware and class descriptor carries its docstring, schema text and default text.
- `AppDoc.MarkdownWriter.RenderChildren`: the `for` loops over sub-routers (in `render_router` and at the top level) are written as recursion over the child's index. Each child's rendering is itself recursive.
- `Application.Serve`: its own contract bounds only the number of writes. What it writes is stated by `Application.ServeStep`, `Application.ServeWritesAnswers` and `Application.ServeConcat`.
- `AppDoc.ParamDocs`: its own contract bounds only the number of items. Which parameters are documented is stated by `AppDoc.ParamDocsKeep`.
- `AppDoc.MethodLines`: its own contract states only the heading line. The rest of the section is stated through `AppDoc.MarkdownWriter.RenderMethod`.
- `JsonRpcModel.DecodeResponse`: its own contract states only the envelope shape. Decoding is stated exactly by the round-trip lemmas.
- `run()` (the entry point that starts the loop) has no body in the source shown, so it is not modelled.
