/** The worker's `message` handler: lazy set-up of sql.js, dispatch on the
    method, the row loop of `query`, and the catch-all error reply. */
module Worker {
  import opened Js
  import opened SqlJs
  import opened Protocol

  /** The two module-level slots: whether `SQL` holds the loaded library and
      whether `db` holds a database. */
  datatype Slots = Slots(sqlSet: bool, dbSet: bool)

  /** Both slots unset, as when the worker script starts. */
  const Fresh := Slots(false, false)

  /** What a block of the handler did: the slots it left, the library calls it
      made in order, the replies it posted, and whether it threw. */
  datatype Trace = Trace(slots: Slots, calls: History, posted: seq<Reply>, status: Completion<()>)

  /** A block ends in exactly one of two ways: it posted one reply and returned,
      or it posted nothing and threw. */
  predicate Concludes(t: Trace)
  {
    (t.status.Normal? && |t.posted| == 1) || (t.status.Throw? && t.posted == [])
  }

  /** The lazy set-up guarded by `!SQL`: load the library, then open a database. */
  function EnsureReady(host: Host, slots: Slots, history: History): (t: Trace)
    ensures t.posted == []
    // the only calls are the load and, after a successful one, the constructor
    ensures t.calls ==
              if slots.sqlSet then []
              else if host.initSqlJs(history).Throw? then [InitSqlJs]
              else [InitSqlJs, NewDatabase]
    // nothing happens once the library is loaded
    ensures slots.sqlSet ==> t.slots == slots && t.calls == [] && t.status.Normal?
    // otherwise loading is attempted first, and only then a database
    ensures InitSqlJs in t.calls <==> !slots.sqlSet
    ensures !slots.sqlSet ==> t.calls[0] == InitSqlJs
    ensures NewDatabase in t.calls <==> !slots.sqlSet && t.slots.sqlSet
    ensures multiset(t.calls)[InitSqlJs] == (if slots.sqlSet then 0 else 1)
    ensures multiset(t.calls)[NewDatabase] <= 1
    // `SQL` is set afterwards iff it was set or loading succeeded
    ensures t.slots.sqlSet <==> slots.sqlSet || host.initSqlJs(history).Normal?
    // a rejected load leaves both slots as they were and throws its error
    ensures !t.slots.sqlSet ==> t.slots == slots && t.status == host.initSqlJs(history)
    // `db` is set afterwards iff it was set or a database was opened
    ensures t.slots.dbSet <==>
              slots.dbSet || (NewDatabase in t.calls && host.newDatabase(history + [InitSqlJs]).Normal?)
    // a failed database construction after a successful load throws its error
    ensures !slots.sqlSet && host.initSqlJs(history).Normal? &&
            host.newDatabase(history + [InitSqlJs]).Throw? ==>
              t.status == host.newDatabase(history + [InitSqlJs])
    // and a throw with `SQL` set can only be that constructor's error
    ensures t.status.Throw? && t.slots.sqlSet ==>
              !slots.sqlSet && t.status == host.newDatabase(history + [InitSqlJs])
  {
    if slots.sqlSet then Trace(slots, [], [], Normal(()))
    else
      match host.initSqlJs(history)
      case Throw(m) => Trace(slots, [InitSqlJs], [], Throw(m))
      case Normal(_) =>
        match host.newDatabase(history + [InitSqlJs])
        case Throw(m) => Trace(Slots(true, slots.dbSet), [InitSqlJs, NewDatabase], [], Throw(m))
        case Normal(_) => Trace(Slots(true, true), [InitSqlJs, NewDatabase], [], Normal(()))
  }

  /** What the row loop of `query` did: the rows pushed, the calls made, and
      whether a call threw out of the loop. */
  datatype Loop = Loop(rows: seq<Row>, calls: History, status: Completion<()>)

  /** The row loop over the turns of a statement: step, and read a row, until
      `step()` returns false or a call throws. */
  function Collect(turns: seq<Turn>): (l: Loop)
    // the rows are the statement's leading rows, in the order step produced them
    ensures |l.rows| <= |turns|
    ensures forall k :: 0 <= k < |l.rows| ==> turns[k] == Yields(l.rows[k])
    // the loop ends normally iff step returned false, after every turn yielded
    ensures l.status.Normal? <==> |l.rows| == |turns|
    // otherwise it stops at the first failing turn, with that turn's error
    ensures l.status.Throw? ==>
              !turns[|l.rows|].Yields? && l.status.message == turns[|l.rows|].message
    // the loop only steps and reads rows
    ensures Free !in l.calls && InitSqlJs !in l.calls && NewDatabase !in l.calls
  {
    if turns == [] then Loop([], [Step], Normal(()))
    else
      match turns[0]
      case StepThrows(m) => Loop([], [Step], Throw(m))
      case GetThrows(m) => Loop([], [Step, GetAsObject], Throw(m))
      case Yields(r) =>
        var rest := Collect(turns[1..]);
        Loop([r] + rest.rows, [Step, GetAsObject] + rest.calls, rest.status)
  }

  /** The calls of `n` turns that each yield a row: `step()`, then `getAsObject()`. */
  function Pairs(n: nat): History
  {
    if n == 0 then [] else [Step, GetAsObject] + Pairs(n - 1)
  }

  /** The order of the loop's calls: `step()` and `getAsObject()` once per row,
      then the `step()` that returned false or threw, followed by the
      `getAsObject()` that threw if it was that one. */
  lemma {:induction false} CollectCallOrder(turns: seq<Turn>)
    ensures Collect(turns).calls ==
              Pairs(|Collect(turns).rows|) +
              (if Collect(turns).status.Throw? && turns[|Collect(turns).rows|].GetThrows?
               then [Step, GetAsObject] else [Step])
  {
    if turns != [] && turns[0].Yields? {
      var l, rest := Collect(turns), Collect(turns[1..]);
      CollectCallOrder(turns[1..]);
      assert |l.rows| == |rest.rows| + 1 && l.status == rest.status;
      assert l.status.Throw? ==> turns[|l.rows|] == turns[1..][|rest.rows|];
      assert Pairs(|l.rows|) == [Step, GetAsObject] + Pairs(|rest.rows|);
    }
  }

  /** What happens to a prepared statement: the row loop, then `stmt.free()`
      only if the loop ended normally. */
  function Consume(slots: Slots, stmt: Statement): (t: Trace)
    ensures Concludes(t) && t.slots == slots
    ensures InitSqlJs !in t.calls && NewDatabase !in t.calls
    // the loop's steps and reads, then `free` only after a normal end
    ensures t.calls == Collect(stmt.turns).calls + (if AllYield(stmt.turns) then [Free] else [])
    // free is called exactly when every turn yielded, and then once, as the last call
    ensures Free in t.calls <==> AllYield(stmt.turns)
    ensures Free in t.calls ==>
              t.calls[|t.calls| - 1] == Free && Free !in t.calls[..|t.calls| - 1]
    // the error thrown is the first failing turn's, or else free's
    ensures !AllYield(stmt.turns) ==>
              t.status.Throw? &&
              t.status.message == stmt.turns[|Collect(stmt.turns).rows|].message
    ensures AllYield(stmt.turns) && t.status.Throw? ==> t.status == stmt.freed
    // it ends normally exactly when every turn yielded and free returned,
    // and then posts every row of the statement, in order
    ensures t.status.Normal? <==> AllYield(stmt.turns) && stmt.freed.Normal?
    ensures t.status.Normal? ==>
              t.posted[0].Result? && t.posted[0].payload.Objects? &&
              RowsOf(stmt.turns, t.posted[0].payload.rows)
  {
    var loop := Collect(stmt.turns);
    if loop.status.Throw? then
      assert !AllYield(stmt.turns) by {
        assert !stmt.turns[|loop.rows|].Yields?;
      }
      Trace(slots, loop.calls, [], loop.status)
    else
      var calls := loop.calls + [Free];
      assert calls[..|calls| - 1] == loop.calls;
      match stmt.freed
      case Throw(m) => Trace(slots, calls, [], Throw(m))
      case Normal(_) => Trace(slots, calls, [Result(Objects(loop.rows))], Normal(()))
  }

  /** The `execute` branch: `db.exec(data.sql)`, its value posted unchanged. */
  function ExecuteBranch(host: Host, slots: Slots, history: History, sql: string): (t: Trace)
    ensures Concludes(t) && t.slots == slots
    ensures !slots.dbSet ==> t.calls == [] && t.status == Throw(host.readOfUndefined("exec"))
    ensures slots.dbSet ==> t.calls == [Exec(sql)]
    ensures t.status.Normal? <==> slots.dbSet && host.exec(history, sql).Normal?
    ensures t.status.Normal? ==> t.posted == [Result(ResultSets(host.exec(history, sql).value))]
    ensures slots.dbSet && t.status.Throw? ==> t.status.message == host.exec(history, sql).message
  {
    if !slots.dbSet then Trace(slots, [], [], Throw(host.readOfUndefined("exec")))
    else
      match host.exec(history, sql)
      case Throw(m) => Trace(slots, [Exec(sql)], [], Throw(m))
      case Normal(sets) => Trace(slots, [Exec(sql)], [Result(ResultSets(sets))], Normal(()))
  }

  /** The `run` branch: `db.run(data.sql, data.params || [])`, then the
      modified-row count read right after it. */
  function RunBranch(host: Host, slots: Slots, history: History, sql: string,
                     params: Option<Params>): (t: Trace)
    ensures Concludes(t) && t.slots == slots
    ensures !slots.dbSet ==> t.calls == [] && t.status == Throw(host.readOfUndefined("run"))
    // absent params are bound as the empty array
    ensures slots.dbSet ==> |t.calls| >= 1 && t.calls[0] == Run(sql, ParamsOrEmpty(params))
    ensures slots.dbSet && params.Undefined? ==> |t.calls| >= 1 && t.calls[0] == Run(sql, Positional([]))
    // a failing statement is the last call, and its error is thrown
    ensures slots.dbSet && host.run(history, sql, ParamsOrEmpty(params)).Throw? ==>
              t.calls == [Run(sql, ParamsOrEmpty(params))] &&
              t.status == host.run(history, sql, ParamsOrEmpty(params))
    // otherwise the count is asked for right after the statement ran
    ensures slots.dbSet && host.run(history, sql, ParamsOrEmpty(params)).Normal? ==>
              t.calls == [Run(sql, ParamsOrEmpty(params)), GetRowsModified]
    ensures t.status.Normal? <==>
              slots.dbSet && host.run(history, sql, ParamsOrEmpty(params)).Normal? &&
              host.rowsModified(history + [Run(sql, ParamsOrEmpty(params))]).Normal?
    // and posted as `{ changes }`, or its error thrown
    ensures t.status.Normal? ==>
              t.posted == [Result(Changes(host.rowsModified(history + [Run(sql, ParamsOrEmpty(params))]).value))]
    ensures slots.dbSet && host.run(history, sql, ParamsOrEmpty(params)).Normal? && t.status.Throw? ==>
              t.status.message == host.rowsModified(history + [Run(sql, ParamsOrEmpty(params))]).message
  {
    if !slots.dbSet then Trace(slots, [], [], Throw(host.readOfUndefined("run")))
    else
      var ps := ParamsOrEmpty(params);
      match host.run(history, sql, ps)
      case Throw(m) => Trace(slots, [Run(sql, ps)], [], Throw(m))
      case Normal(_) =>
        match host.rowsModified(history + [Run(sql, ps)])
        case Throw(m) => Trace(slots, [Run(sql, ps), GetRowsModified], [], Throw(m))
        case Normal(n) => Trace(slots, [Run(sql, ps), GetRowsModified], [Result(Changes(n))], Normal(()))
  }

  /** The `query` branch: `db.prepare(data.sql)` with no parameters, then the
      statement is consumed. */
  function QueryBranch(host: Host, slots: Slots, history: History, sql: string): (t: Trace)
    ensures Concludes(t) && t.slots == slots
    ensures InitSqlJs !in t.calls && NewDatabase !in t.calls
    ensures !slots.dbSet ==> t.calls == [] && t.status == Throw(host.readOfUndefined("prepare"))
    ensures slots.dbSet ==> |t.calls| >= 1 && t.calls[0] == Prepare(sql)
    ensures slots.dbSet && host.prepare(history, sql).Throw? ==>
              t.calls == [Prepare(sql)] && t.status == Throw(host.prepare(history, sql).message)
    // a prepared statement is stepped right after `prepare`, and freed only
    // after a normal end of the loop
    ensures slots.dbSet && host.prepare(history, sql).Normal? ==>
              var turns := host.prepare(history, sql).value.turns;
              t.calls == [Prepare(sql)] + Collect(turns).calls + (if AllYield(turns) then [Free] else [])
    // it ends normally exactly when every turn yielded and free returned
    ensures t.status.Normal? <==>
              slots.dbSet && host.prepare(history, sql).Normal? &&
              AllYield(host.prepare(history, sql).value.turns) &&
              host.prepare(history, sql).value.freed.Normal?
    // otherwise the error is the first failing turn's, or else free's
    ensures slots.dbSet && host.prepare(history, sql).Normal? &&
            !AllYield(host.prepare(history, sql).value.turns) ==>
              var turns := host.prepare(history, sql).value.turns;
              t.status == Throw(turns[|Collect(turns).rows|].message)
    ensures slots.dbSet && host.prepare(history, sql).Normal? &&
            AllYield(host.prepare(history, sql).value.turns) && t.status.Throw? ==>
              t.status == host.prepare(history, sql).value.freed
    // free is called exactly when the loop ended normally, and then once, as the last call
    ensures Free in t.calls <==>
              slots.dbSet && host.prepare(history, sql).Normal? &&
              AllYield(host.prepare(history, sql).value.turns)
    ensures Free in t.calls ==>
              t.calls[|t.calls| - 1] == Free && Free !in t.calls[..|t.calls| - 1]
    // a successful reply holds every row of the statement, in order
    ensures t.status.Normal? ==>
              slots.dbSet && host.prepare(history, sql).Normal? &&
              host.prepare(history, sql).value.freed.Normal? &&
              t.posted[0].Result? && t.posted[0].payload.Objects? &&
              RowsOf(host.prepare(history, sql).value.turns, t.posted[0].payload.rows)
  {
    if !slots.dbSet then Trace(slots, [], [], Throw(host.readOfUndefined("prepare")))
    else
      match host.prepare(history, sql)
      case Throw(m) => Trace(slots, [Prepare(sql)], [], Throw(m))
      case Normal(stmt) =>
        var c := Consume(slots, stmt);
        var calls := [Prepare(sql)] + c.calls;
        SeqAssoc([Prepare(sql)], Collect(stmt.turns).calls, if AllYield(stmt.turns) then [Free] else []);
        Trace(slots, calls, c.posted, c.status)
  }

  /** The `if / else if` chain on `data.method`. */
  function Dispatch(host: Host, slots: Slots, history: History, req: Request): (t: Trace)
    ensures Concludes(t) && t.slots == slots
    ensures InitSqlJs !in t.calls && NewDatabase !in t.calls
    // each recognised method is answered by its own branch
    ensures Route(req.verb) == ExecuteMethod ==> t == ExecuteBranch(host, slots, history, req.sql)
    ensures Route(req.verb) == RunMethod ==> t == RunBranch(host, slots, history, req.sql, req.params)
    ensures Route(req.verb) == QueryMethod ==> t == QueryBranch(host, slots, history, req.sql)
    // an unrecognised method touches nothing and names itself in the error
    ensures Route(req.verb) == OtherMethod ==>
              t.calls == [] && t.posted == [Error(UnknownMethodMessage(req.verb))]
  {
    match Route(req.verb)
    case ExecuteMethod => ExecuteBranch(host, slots, history, req.sql)
    case RunMethod => RunBranch(host, slots, history, req.sql, req.params)
    case QueryMethod => QueryBranch(host, slots, history, req.sql)
    case OtherMethod => Trace(slots, [], [Error(UnknownMethodMessage(req.verb))], Normal(()))
  }

  /** The body of the `try`: set-up first, then dispatch. */
  function TryBlock(host: Host, slots: Slots, history: History, req: Request): (t: Trace)
    ensures Concludes(t)
    // only the set-up touches the slots
    ensures t.slots == EnsureReady(host, slots, history).slots
    // the set-up's calls come first, whatever the method
    ensures |EnsureReady(host, slots, history).calls| <= |t.calls|
    ensures t.calls[..|EnsureReady(host, slots, history).calls|] ==
              EnsureReady(host, slots, history).calls
    ensures EnsureReady(host, slots, history).status.Throw? ==>
              t == EnsureReady(host, slots, history)
    ensures InitSqlJs in t.calls <==> !slots.sqlSet
    ensures NewDatabase in t.calls <==> !slots.sqlSet && t.slots.sqlSet
    ensures multiset(t.calls)[InitSqlJs] == (if slots.sqlSet then 0 else 1)
    ensures multiset(t.calls)[NewDatabase] == (if !slots.sqlSet && t.slots.sqlSet then 1 else 0)
  {
    var init := EnsureReady(host, slots, history);
    if init.status.Throw? then init
    else
      var d := Dispatch(host, init.slots, history + init.calls, req);
      var calls := init.calls + d.calls;
      assert calls[..|init.calls|] == init.calls;
      assert multiset(calls) == multiset(init.calls) + multiset(d.calls);
      assert multiset(d.calls)[InitSqlJs] == 0 && multiset(d.calls)[NewDatabase] == 0;
      Trace(d.slots, calls, d.posted, d.status)
  }

  /** Everything the worker keeps between messages, and what it has sent:
      the slots, the calls made into the library, and the replies posted. */
  datatype WorkerState = WorkerState(slots: Slots, history: History, port: seq<Reply>)

  /** The calls a step made, given the states before and after it. */
  function NewCalls(w: WorkerState, w': WorkerState): History
    requires |w.history| <= |w'.history|
  {
    w'.history[|w.history|..]
  }

  /** One message: the `try` block, and the `catch` posting `{ error: error.message }`. */
  function Handle(host: Host, w: WorkerState, req: Request): (w': WorkerState)
    // exactly one reply, appended to what was posted before
    ensures |w'.port| == |w.port| + 1 && w.port <= w'.port
    // the call history only grows
    ensures w.history <= w'.history
    // the slots stay as the set-up left them, whatever fails later
    ensures w'.slots == EnsureReady(host, w.slots, w.history).slots
  {
    var t := TryBlock(host, w.slots, w.history, req);
    var caught := match t.status
      case Throw(m) => [Error(m)]
      case Normal(_) => [];
    WorkerState(t.slots, w.history + t.calls, w.port + t.posted + caught)
  }

  /** Set-up runs first and only while `SQL` is unset; a database is
      constructed at most once per message, and only when `SQL` becomes set. */
  lemma SetUpOnlyWhileUnloaded(host: Host, w: WorkerState, req: Request)
    ensures var w' := Handle(host, w, req);
      && (InitSqlJs in NewCalls(w, w') <==> !w.slots.sqlSet)
      && (!w.slots.sqlSet ==> w'.history[|w.history|] == InitSqlJs)
      && (w.slots.sqlSet ==> w'.slots == w.slots)
      && (NewDatabase in NewCalls(w, w') <==> !w.slots.sqlSet && w'.slots.sqlSet)
      && multiset(w'.history)[InitSqlJs] ==
           multiset(w.history)[InitSqlJs] + (if w.slots.sqlSet then 0 else 1)
      && multiset(w'.history)[NewDatabase] ==
           multiset(w.history)[NewDatabase] + (if !w.slots.sqlSet && w'.slots.sqlSet then 1 else 0)
  {
  }

  /** A message that finds `SQL` unset and after which it is still unset met a
      rejected load: that was its only call, its error is the reply, and the
      slots are untouched, so the next message tries again. */
  lemma RejectedLoadChangesNothing(host: Host, w: WorkerState, req: Request)
    requires !w.slots.sqlSet && !Handle(host, w, req).slots.sqlSet
    ensures host.initSqlJs(w.history).Throw?
    ensures Handle(host, w, req).slots == w.slots
    ensures Handle(host, w, req).history == w.history + [InitSqlJs]
    ensures Handle(host, w, req).port == w.port + [Error(host.initSqlJs(w.history).message)]
  {
  }

  /** `query` never reads `data.params`. */
  lemma QueryIgnoresParams(host: Host, w: WorkerState, req: Request, params: Option<Params>)
    requires Route(req.verb) == QueryMethod
    ensures Handle(host, w, req) == Handle(host, w, req.(params := params))
  {
  }

  /** A failed set-up is the whole of the reply: its error is posted and no
      other call is made. */
  lemma SetUpFailureIsTheReply(host: Host, w: WorkerState, req: Request)
    requires EnsureReady(host, w.slots, w.history).status.Throw?
    ensures Handle(host, w, req).history == w.history + EnsureReady(host, w.slots, w.history).calls
    ensures Handle(host, w, req).port ==
              w.port + [Error(EnsureReady(host, w.slots, w.history).status.message)]
  {
  }

  /** An unrecognised method does not skip the set-up: it runs first, and then
      the reply names the method and no other call is made. */
  lemma UnknownMethodStillSetsUp(host: Host, w: WorkerState, req: Request)
    requires Route(req.verb) == OtherMethod
    requires EnsureReady(host, w.slots, w.history).status.Normal?
    ensures Handle(host, w, req).history == w.history + EnsureReady(host, w.slots, w.history).calls
    ensures Handle(host, w, req).slots == EnsureReady(host, w.slots, w.history).slots
    ensures Handle(host, w, req).port == w.port + [Error(UnknownMethodMessage(req.verb))]
  {
  }

  /** The library calls made before dispatch when the set-up succeeded. */
  function SetUpHistory(host: Host, w: WorkerState): History
  {
    w.history + EnsureReady(host, w.slots, w.history).calls
  }

  lemma SeqAssoc<T>(a: seq<T>, b: seq<T>, c: seq<T>)
    ensures a + (b + c) == (a + b) + c
  {
  }

  lemma Singleton<T>(s: seq<T>)
    requires |s| == 1
    ensures s == [s[0]]
  {
  }

  lemma AppendEmpty<T>(a: seq<T>, b: seq<T>)
    ensures a + [] + b == a + b
  {
  }

  /** The `catch` turns a thrown error into the single reply. */
  lemma ThrowBecomesReply(host: Host, w: WorkerState, req: Request)
    ensures var t := TryBlock(host, w.slots, w.history, req);
      Handle(host, w, req) ==
        WorkerState(t.slots, w.history + t.calls,
                    w.port + (if t.status.Throw? then [Error(t.status.message)] else t.posted))
  {
    var t := TryBlock(host, w.slots, w.history, req);
    var caught := match t.status
      case Throw(m) => [Error(m)]
      case Normal(_) => [];
    assert Handle(host, w, req) == WorkerState(t.slots, w.history + t.calls, w.port + t.posted + caught);
    if t.status.Throw? {
      assert t.posted == [] && caught == [Error(t.status.message)];
      AppendEmpty(w.port, caught);
    } else {
      assert caught == [];
      AppendEmpty(w.port + t.posted, []);
    }
  }

  /** The `catch`: after a successful set-up, the message is answered by its
      branch, and an error the branch throws becomes the reply
      `{ error: error.message }`. */
  lemma CaughtAfterSetUp(host: Host, w: WorkerState, req: Request)
    requires EnsureReady(host, w.slots, w.history).status.Normal?
    ensures var d := Dispatch(host, EnsureReady(host, w.slots, w.history).slots, SetUpHistory(host, w), req);
      Handle(host, w, req) ==
        WorkerState(d.slots, SetUpHistory(host, w) + d.calls,
                    w.port + (if d.status.Throw? then [Error(d.status.message)] else d.posted))
  {
    ThrowBecomesReply(host, w, req);
    var init := EnsureReady(host, w.slots, w.history);
    var d := Dispatch(host, init.slots, SetUpHistory(host, w), req);
    assert TryBlock(host, w.slots, w.history, req) == Trace(d.slots, init.calls + d.calls, d.posted, d.status);
    assert SetUpHistory(host, w) == w.history + init.calls;
    SeqAssoc(w.history, init.calls, d.calls);
  }

  /** A message that completes the set-up is answered as the same message
      would be by a worker that was already ready, with the set-up's calls
      already in its history. */
  lemma SetUpThenReady(host: Host, w: WorkerState, req: Request)
    requires EnsureReady(host, w.slots, w.history).status.Normal?
    requires EnsureReady(host, w.slots, w.history).slots.dbSet
    ensures Handle(host, w, req) ==
              Handle(host, WorkerState(Slots(true, true), SetUpHistory(host, w), w.port), req)
  {
    var ready := WorkerState(Slots(true, true), SetUpHistory(host, w), w.port);
    CaughtAfterSetUp(host, w, req);
    CaughtAfterSetUp(host, ready, req);
    assert EnsureReady(host, w.slots, w.history).slots == Slots(true, true);
    assert SetUpHistory(host, ready) == SetUpHistory(host, w);
  }

  /** On a ready worker (library loaded, database open), an `execute` message
      makes the one `exec` call and replies with its result sets, or with the
      `message` of the error it threw. */
  lemma ExecuteOnReady(host: Host, w: WorkerState, req: Request)
    requires Route(req.verb) == ExecuteMethod
    requires w.slots == Slots(true, true)
    ensures var h := w.history;
      Handle(host, w, req) ==
        WorkerState(Slots(true, true), h + [Exec(req.sql)],
                    w.port + [match host.exec(h, req.sql)
                              case Normal(sets) => Result(ResultSets(sets))
                              case Throw(m) => Error(m)])
  {
    CaughtAfterSetUp(host, w, req);
    assert SetUpHistory(host, w) == w.history;
    var d := ExecuteBranch(host, Slots(true, true), w.history, req.sql);
    assert Dispatch(host, Slots(true, true), w.history, req) == d;
  }

  /** On a ready worker, a `run` message binds its params (an empty array when
      absent), then reads the modified-row count; the reply is `{ changes }`,
      or the `message` of whichever of the two calls threw. */
  lemma RunOnReady(host: Host, w: WorkerState, req: Request)
    requires Route(req.verb) == RunMethod
    requires w.slots == Slots(true, true)
    ensures var h := w.history;
      var ran := h + [Run(req.sql, ParamsOrEmpty(req.params))];
      Handle(host, w, req) ==
        match host.run(h, req.sql, ParamsOrEmpty(req.params))
        case Throw(m) => WorkerState(Slots(true, true), ran, w.port + [Error(m)])
        case Normal(_) =>
          WorkerState(Slots(true, true), ran + [GetRowsModified],
                      w.port + [match host.rowsModified(ran)
                                case Normal(n) => Result(Changes(n))
                                case Throw(m) => Error(m)])
  {
    CaughtAfterSetUp(host, w, req);
    assert SetUpHistory(host, w) == w.history;
    var h, ps := w.history, ParamsOrEmpty(req.params);
    var d := RunBranch(host, Slots(true, true), h, req.sql, req.params);
    assert Dispatch(host, Slots(true, true), h, req) == d;
    var ran := h + [Run(req.sql, ps)];
    match host.run(h, req.sql, ps)
    case Throw(m) =>
      assert d == Trace(Slots(true, true), [Run(req.sql, ps)], [], Throw(m));
      assert Handle(host, w, req) == WorkerState(Slots(true, true), ran, w.port + [Error(m)]);
    case Normal(_) =>
      assert h + [Run(req.sql, ps), GetRowsModified] == ran + [GetRowsModified];
      match host.rowsModified(ran)
      case Throw(m) =>
        assert d == Trace(Slots(true, true), [Run(req.sql, ps), GetRowsModified], [], Throw(m));
      case Normal(n) =>
        assert d == Trace(Slots(true, true), [Run(req.sql, ps), GetRowsModified], [Result(Changes(n))], Normal(()));
  }

  /** On a ready worker, a `query` message prepares its SQL, then runs the row
      loop, then frees the statement only after a normal end of the loop. */
  lemma QueryCallsOnReady(host: Host, w: WorkerState, req: Request)
    requires Route(req.verb) == QueryMethod
    requires w.slots == Slots(true, true)
    ensures var h := w.history;
      var w' := Handle(host, w, req);
      && w'.slots == Slots(true, true)
      && (host.prepare(h, req.sql).Throw? ==> w'.history == h + [Prepare(req.sql)])
      && (host.prepare(h, req.sql).Normal? ==>
            var turns := host.prepare(h, req.sql).value.turns;
            w'.history == h + [Prepare(req.sql)] + Collect(turns).calls +
                          (if AllYield(turns) then [Free] else []))
  {
    CaughtAfterSetUp(host, w, req);
    assert SetUpHistory(host, w) == w.history;
    var h := w.history;
    var d := QueryBranch(host, Slots(true, true), h, req.sql);
    assert Dispatch(host, Slots(true, true), h, req) == d;
    if host.prepare(h, req.sql).Normal? {
      var turns := host.prepare(h, req.sql).value.turns;
      var loop, tail := Collect(turns).calls, if AllYield(turns) then [Free] else [];
      SeqAssoc(h, [Prepare(req.sql)] + loop, tail);
      SeqAssoc(h, [Prepare(req.sql)], loop);
    }
  }

  /** On a ready worker, a `query` message replies with every row of the
      statement, in order, exactly when every turn yielded and `free`
      returned; otherwise with the `message` of `prepare`'s error, of the
      first failing turn, or of `free`. */
  lemma QueryReplyOnReady(host: Host, w: WorkerState, req: Request)
    requires Route(req.verb) == QueryMethod
    requires w.slots == Slots(true, true)
    ensures var h := w.history;
      var w' := Handle(host, w, req);
      && |w'.port| == |w.port| + 1 && w.port <= w'.port
      && (host.prepare(h, req.sql).Throw? ==>
            w'.port[|w.port|] == Error(host.prepare(h, req.sql).message))
      && (host.prepare(h, req.sql).Normal? ==>
            var stmt := host.prepare(h, req.sql).value;
            && (w'.port[|w.port|].Result? <==> AllYield(stmt.turns) && stmt.freed.Normal?)
            && (w'.port[|w.port|].Result? ==>
                  w'.port[|w.port|].payload.Objects? &&
                  RowsOf(stmt.turns, w'.port[|w.port|].payload.rows))
            && (!AllYield(stmt.turns) ==>
                  w'.port[|w.port|] == Error(stmt.turns[|Collect(stmt.turns).rows|].message))
            && (AllYield(stmt.turns) && stmt.freed.Throw? ==>
                  w'.port[|w.port|] == Error(stmt.freed.message)))
  {
    CaughtAfterSetUp(host, w, req);
    assert SetUpHistory(host, w) == w.history;
    var h := w.history;
    var d := QueryBranch(host, Slots(true, true), h, req.sql);
    assert Dispatch(host, Slots(true, true), h, req) == d;
    if d.status.Normal? {
      Singleton(d.posted);
    }
  }

  /** The slots left by a database constructor that threw after the library loaded. */
  const Poisoned := Slots(true, false)

  /** The reply to a message once the worker is poisoned: the TypeError of
      reading the method's first property off the unset `db`, or the
      unknown-method error. */
  function PoisonedReply(host: Host, req: Request): Reply
  {
    match Route(req.verb)
    case ExecuteMethod => Error(host.readOfUndefined("exec"))
    case RunMethod => Error(host.readOfUndefined("run"))
    case QueryMethod => Error(host.readOfUndefined("prepare"))
    case OtherMethod => Error(UnknownMethodMessage(req.verb))
  }

  /** A poisoned worker answers without touching the library or its slots. */
  lemma PoisonedStep(host: Host, w: WorkerState, req: Request)
    requires w.slots == Poisoned
    ensures Handle(host, w, req) == WorkerState(Poisoned, w.history, w.port + [PoisonedReply(host, req)])
  {
  }
}
