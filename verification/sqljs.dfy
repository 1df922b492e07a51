/** The part of the sql.js library the worker calls, kept abstract.

    Nothing of SQL is computed here: every answer of the library is read off a
    `Host` value. Each answer is a function of the history of calls the worker
    has made into the library so far, so a stateful in-memory database is
    covered without modelling its tables. */
module SqlJs {
  import opened Js

  /** A scalar SQLite value as sql.js hands it to JavaScript. */
  datatype Value = Null | Number(n: int) | Text(s: string) | Blob(bytes: seq<bv8>)

  /** One row as `Statement.getAsObject` returns it: column name to value. */
  type Row = map<string, Value>

  /** What `db.run` binds: an array of positional values, or an object of
      named ones (`{ $id: 1 }`), passed through as the message carried it. */
  datatype Params = Positional(values: seq<Value>) | Named(bindings: map<string, Value>)

  /** One element of the array `Database.exec` returns. */
  datatype ResultSet = ResultSet(columns: seq<string>, values: seq<seq<Value>>)

  /** A call the worker makes into the library. */
  datatype Call =
    | InitSqlJs                                 // initSqlJs({ locateFile })
    | NewDatabase                               // new SQL.Database()
    | Exec(sql: string)                         // db.exec(sql)
    | Run(sql: string, params: Params)          // db.run(sql, params)
    | GetRowsModified                           // db.getRowsModified()
    | Prepare(sql: string)                      // db.prepare(sql)
    | Step                                      // stmt.step()
    | GetAsObject                               // stmt.getAsObject()
    | Free                                      // stmt.free()

  /** Every call made into the library, oldest first. */
  type History = seq<Call>

  /** What one turn of the row loop meets: `step()` returns true and
      `getAsObject()` returns a row, or one of the two throws. */
  datatype Turn = Yields(row: Row) | StepThrows(message: string) | GetThrows(message: string)

  /** A prepared statement, described by the answers it gives: its turns in
      order (after the last one `step()` returns false) and what `free()` does.
      Between `prepare` and `free` the handler calls nothing else, so these
      answers are fixed once the statement exists. */
  datatype Statement = Statement(turns: seq<Turn>, freed: Completion<()>)

  /** The environment the handler runs in: the answers of sql.js to each call,
      given the history before it, and the `message` of the TypeError the
      JavaScript runtime throws when a property is read off `undefined`. */
  datatype Host = Host(
    initSqlJs: History -> Completion<()>,
    newDatabase: History -> Completion<()>,
    exec: (History, string) -> Completion<seq<ResultSet>>,
    run: (History, string, Params) -> Completion<()>,
    rowsModified: History -> Completion<int>,
    prepare: (History, string) -> Completion<Statement>,
    readOfUndefined: string -> string)

  /** No turn of the statement throws: the loop ends by `step()` returning false. */
  predicate AllYield(turns: seq<Turn>)
  {
    forall k :: 0 <= k < |turns| ==> turns[k].Yields?
  }

  /** `rows` are the rows of `turns`, one per turn, in order. */
  predicate RowsOf(turns: seq<Turn>, rows: seq<Row>)
  {
    |rows| == |turns| && forall k :: 0 <= k < |turns| ==> turns[k] == Yields(rows[k])
  }
}
