# sqflite web worker, modelled in Dafny

The web build of the application runs SQLite inside a web worker through the
sql.js library. The worker script `web/sqflite_sw.js` installs a single
`message` handler. Each message carries `{ method, sql, params }` and a reply
port. The handler works in three steps:

- On the first message it loads sql.js (`initSqlJs`) and opens an in-memory
  database (`new SQL.Database()`). It keeps both in the module-level slots
  `SQL` and `db`.
- It routes the message on `data.method` to `execute`, `run` or `query`.
  Any other method gets an `Unknown method: …` error.
- It posts exactly one reply, `{ result }` or `{ error }`. Every thrown
  error is caught and posted as `{ error: error.message }`.

The model is functional. Handling one message is a pure step:
`Worker.Handle(host, state, request)` returns the next state. The state
holds:

- the two slots, as `Slots(sqlSet, dbSet)`;
- the history of calls made into sql.js;
- the replies posted so far, as one append-only log.

`Sessions.Serve` handles a sequence of messages one after another.

sql.js itself is an oracle, `SqlJs.Host`. Each library call is answered by a
function of the call history that came before it. So a stateful database is
covered without modelling any SQL. A call either returns normally or throws
with a message (`Js.Completion`). A prepared statement is described by the
answers it will give (`SqlJs.Statement`):

- one `Turn` per iteration of the row loop, each being a row, a throwing
  `step()` or a throwing `getAsObject()`;
- after the last turn, `step()` returns false;
- the outcome of `free()`.

This is sound because, between `prepare` and `free`, the handler calls
nothing else. The `params` of a `run` message are either an array of
positional values or an object of named ones (`SqlJs.Params`); both are
passed to `db.run` as they came. `getRowsModified()` may throw like any
other library call. The host also supplies the text of the runtime's TypeError for
reading a property of `undefined` (`Host.readOfUndefined`). That error arises
when `db` is unset.

Files: `js.dfy` holds the JavaScript notions (`Option` for absent
properties, `Completion` for return-or-throw). `sqljs.dfy` holds the library
oracle. `protocol.dfy` holds the request and reply shapes and the routing.
`worker.dfy` holds the handler. `sessions.dfy` holds sequences of messages.

## Behaviour that is easy to misread

- The set-up runs whatever the method is. The `!SQL` guard comes before the
  method is inspected, so a first message with an unrecognised method still
  loads the library and opens the database (`Worker.UnknownMethodStillSetsUp`,
  `Sessions.UnknownFirstMessageStillSetsUp`).
- `query` calls `db.prepare(data.sql)` and binds nothing, so a `query`
  message's `params` have no effect (`Worker.QueryIgnoresParams`).
- A rejected `initSqlJs` leaves `SQL` unset, and the next message calls
  `initSqlJs` again; whether that succeeds is the `Host` oracle's answer
  (`Sessions.LoadRetriedWhileUnset`).
- A throwing `new SQL.Database()` leaves `SQL` set and `db` unset. The guard
  never fires again, so every later `execute`, `run` or `query` fails with
  the TypeError of reading a method off `undefined`
  (`Sessions.PoisonIsPermanent`).
- `free()` runs only after the row loop ends normally. It is skipped when
  `step()` or `getAsObject()` throws (`Worker.Consume`).

## Model

| member | source | states |
|---|---|---|
| `Protocol.Route` | web/sqflite_sw.js:21-37 | A recognised branch is taken exactly when `data.method` equals that branch's name. Every other value, including an absent method, falls through to the unknown-method branch. |
| `Worker.EnsureReady` | web/sqflite_sw.js:14-19 | With `SQL` set, no call is made and nothing changes. With `SQL` unset, the calls are exactly `initSqlJs`, and then the database constructor only if the load succeeded. A rejected load leaves both slots unchanged and throws its error. A failed constructor throws its error with `SQL` set and `db` as before. |
| `Worker.Collect` | web/sqflite_sw.js:29-32 | The collected rows are the statement's leading rows, in step order. The loop ends normally exactly when every turn yielded. Otherwise it stops at the first failing turn and throws that turn's error. It never calls `free`. |
| `Worker.CollectCallOrder` | web/sqflite_sw.js:30-32 | The loop's calls are `step()` and then `getAsObject()` for each row, followed by the `step()` that returned false or threw, and then `getAsObject()` if that was the call that threw. |
| `Worker.Consume` | web/sqflite_sw.js:30-34 | The calls are the row loop's, followed by `free()` exactly when the loop ended normally; `free` is then called once, as the last call. It ends normally exactly when every turn yielded and `free` returned, and then posts one reply holding every row, in order. Otherwise the error is the first failing turn's, or else `free`'s. |
| `Worker.ExecuteBranch` | web/sqflite_sw.js:21-23 | The only call is `db.exec(sql)`, with no parameters. On success the reply is `{ result }` holding exactly what `exec` returned. On failure no reply is posted, and the engine's error, or the TypeError of an unset `db`, is thrown. |
| `Worker.RunBranch` | web/sqflite_sw.js:24-26 | `db.run` receives the request's params, or an empty array when they are absent. The modified-row count is read right after a successful `run`, and the reply is `{ result: { changes } }` with that count. A failing `run` is the last call and its error is thrown; a failing count read throws its own error. |
| `Worker.QueryBranch` | web/sqflite_sw.js:27-34 | The first call is `prepare(sql)`. A failing prepare throws its error and nothing else is called. Otherwise the row loop follows, then `free` only after a normal end. It ends normally exactly when every turn yielded and `free` returned, with a reply listing every row in order. Otherwise the error is the first failing turn's, or else `free`'s. |
| `Worker.Dispatch` | web/sqflite_sw.js:21-37 | `execute`, `run` and `query` are each answered by their own branch. Every branch either posts one reply or throws without posting, and none loads the library or opens a database. An unknown method makes no call and replies `Unknown method: ` followed by the method. |
| `Worker.TryBlock` | web/sqflite_sw.js:13-37 | Set-up calls come first whatever the method. Only set-up touches the slots. A failed set-up ends the block. The load is attempted exactly when `SQL` was unset, and a database is constructed exactly when `SQL` becomes set. |
| `Worker.Handle` | web/sqflite_sw.js:7-42 | Each message appends exactly one reply to the port and only extends the call history. Its slots are those the set-up left, whatever fails afterwards. |
| `Worker.SetUpOnlyWhileUnloaded` | web/sqflite_sw.js:14-19 | A message calls `initSqlJs` exactly when `SQL` was unset, and then as its first call. Once `SQL` is set, the slots do not change. The database count grows by one exactly when `SQL` becomes set. |
| `Worker.RejectedLoadChangesNothing` | web/sqflite_sw.js:14-17 | A message after which `SQL` is still unset met a rejected `initSqlJs`. That was its only call, its error is the reply, and the slots are untouched. |
| `Worker.SetUpFailureIsTheReply` | web/sqflite_sw.js:38-41 | When set-up throws, the caught error's message is the single reply, and no call follows the set-up calls. |
| `Worker.UnknownMethodStillSetsUp` | web/sqflite_sw.js:35-36 | For an unrecognised method, the set-up still runs and sets the slots. Then the reply is `Unknown method: ` followed by the method, and no other call is made. |
| `Worker.QueryIgnoresParams` | web/sqflite_sw.js:27-28 | Changing `params` on a `query` message changes neither the calls, the slots nor the reply. |
| `Worker.CaughtAfterSetUp` | web/sqflite_sw.js:20-41 | After a successful set-up, the message's calls are the set-up's followed by its branch's, and the slots are the set-up's. The reply is the branch's own, or `{ error }` holding the `message` of what the branch threw. |
| `Worker.SetUpThenReady` | web/sqflite_sw.js:14-37 | A message whose set-up loads the library and opens the database is answered exactly as the same message sent to an already-ready worker whose history holds the set-up calls. |
| `Worker.ExecuteOnReady` | web/sqflite_sw.js:21-41 | On a ready worker, an `execute` message makes the single call `exec(sql)` and posts `{ result }` with exactly what it returned, or `{ error }` with its error's message. The slots stay set. |
| `Worker.RunOnReady` | web/sqflite_sw.js:24-41 | On a ready worker, a `run` message calls `run(sql, params or [])`. If that throws, no other call follows and its message is the reply. Otherwise `getRowsModified()` follows, and the reply is `{ result: { changes } }` with its value, or its error's message. |
| `Worker.QueryCallsOnReady` | web/sqflite_sw.js:27-34 | On a ready worker, a `query` message calls `prepare(sql)`; if that succeeds, the row loop's calls follow, then `free()` exactly when every turn yielded. |
| `Worker.QueryReplyOnReady` | web/sqflite_sw.js:27-41 | On a ready worker, a `query` message posts one reply. It is `{ result }` exactly when `prepare` succeeded, every turn yielded and `free` returned, and then it lists every row in order. Otherwise it is `{ error }` with the message of `prepare`'s error, of the first failing turn, or of `free`'s error. |
| `Worker.PoisonedStep` | web/sqflite_sw.js:21-36 | With `SQL` set and `db` unset, a message makes no call, leaves the slots unchanged and posts one error. |
| `Sessions.Serve` | web/sqflite_sw.js:7-42 | Handling n messages appends exactly n replies after the earlier ones and only extends the call history. |
| `Sessions.ServePrefix` | web/sqflite_sw.js:7-42 | The replies to the first n messages do not depend on the messages after them. |
| `Sessions.RepliesInOrder` | web/sqflite_sw.js:7-42 | The i-th new reply answers the i-th message, handled in the state left by the messages before it. |
| `Sessions.LoadedStaysLoaded` | web/sqflite_sw.js:14-19 | Once `SQL` is set, the slots never change again and no later message calls `initSqlJs` or constructs a database. |
| `Sessions.AtMostOneDatabase` | web/sqflite_sw.js:14-19 | From the initial worker, however the loads turn out, at most one database is ever constructed, and `db` is never set without `SQL`. |
| `Sessions.LoadRetriedWhileUnset` | web/sqflite_sw.js:14-17 | While `SQL` stays unset, every message calls `initSqlJs` again, and the slots stay as they were. |
| `Sessions.PoisonIsPermanent` | web/sqflite_sw.js:18-36 | With `SQL` set and `db` unset, handling any messages leaves the slots and the call history exactly as they were: no message reaches the library. The new replies are, one per message and in order, the TypeError of the first `db` member the method reads (`exec`, `run`, `prepare`), or the unknown-method error. |
| `Sessions.PartialSetUpPoisons` | web/sqflite_sw.js:15-18 | If the library loads but the database constructor throws, the reply is the constructor's error and the worker is left with `SQL` set and `db` unset. |
| `Sessions.UnknownFirstMessageStillSetsUp` | web/sqflite_sw.js:14-36 | A worked example: a first message `delete_everything` loads the library and opens the database, then replies `Unknown method: delete_everything`. |

## Left out

- What sql.js computes is not modelled: SQL parsing, the tables, result
  shapes and modified-row counts. These are answers of the `Host` oracle.
  Loading the library script (`importScripts`, line 1) and the `locateFile`
  option are not modelled either.
- Concurrency is not modelled. A second message can arrive while a first
  one is suspended at the `await` of `initSqlJs`, and both can then see
  `SQL` unset. The model handles messages one at a time, so the
  at-most-one-database property holds only under that assumption.
- Transport failures of `postMessage` and the `MessagePort` mechanics are
  not modelled. The reply ports of all messages form one append-only log.
  A message without a port, or whose `data` is not an object, is not
  modelled.
- The debug logging (lines 3, 11, 39) is left out. It has side effects only.
- A statement whose `step()` returns true forever is not modelled, because
  the worker would loop without replying. Statements are finite.
- A `method` that is neither absent nor a string (`null`, a number) is not
  modelled; `Request.verb` holds strings only. The code sends such a value
  to the fall-through branch and renders it with JavaScript's string
  conversion (`Unknown method: null`), which the model does not define.
- An absent `sql` is not modelled; `Request.sql` is always a string. The code
  would pass `undefined` on to `exec`, `run` or `prepare`, and what sql.js
  does with it is the library's business.
- Worker.Handle: its own contract states only the shape of a step (one
  reply, a growing history, the set-up's slots). Which reply is posted is
  stated by `Worker.CaughtAfterSetUp`, `Worker.SetUpFailureIsTheReply`, the
  three `…OnReady` lemmas, `Worker.SetUpThenReady` and `Worker.PoisonedStep`,
  because unfolding every branch in one contract is too costly to prove.
- Thrown values are assumed to carry a string `message`. A throw of a value
  without one (reply `{ error: undefined }`) is not modelled.
- SQLite values are modelled as null, integer, text or blob. Floating-point
  numbers and JavaScript booleans (which sql.js binds as 0 or 1) are left
  out; the handler passes `params` through unchanged, so nothing here
  depends on them.
- Every falsy `params` value is modelled as absent (`Undefined`). This
  includes `null`, `0` and `""`, which `data.params || []` also replaces
  with an empty array.
- `web/pdf_download.js` is not modelled. It only performs DOM, Blob and
  object-URL side effects to start a download.
- `macos/Runner/AppDelegate.swift` is not modelled. It only ignores
  `SIGPIPE` and returns constant lifecycle flags.
