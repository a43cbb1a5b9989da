/**
 * An abstract relational store standing in for SQLite: tables hold rows
 * with an AUTOINCREMENT id, and each statement the helper issues through
 * `execSQL` is a `Stmt` whose effect is the pure function `Exec`.
 *
 * A statement either succeeds or fails with an `SqlError` and leaves the
 * store unchanged (SQLite rolls back the one failing statement).
 */
module Store {
  import opened Schema

  /** A row: its rowid and the values of its columns other than `_id`. */
  datatype Record = Record(id: nat, values: map<ColumnName, Value>)

  /**
   * A stored table. Rows are kept in ascending id order; `nextId` is the
   * AUTOINCREMENT counter, above every id the table has handed out.
   */
  datatype Table = Table(columns: seq<Column>, uniques: seq<seq<ColumnName>>, rows: seq<Record>, nextId: nat)

  type Db = map<TableName, Table>

  datatype SqlError =
    | NoSuchTable(table: TableName)
    | TableExists(table: TableName)
    | InvalidDefinition(table: TableName)
    | NoSuchColumn
    | DuplicateColumn(column: ColumnName)
    | NotNullWithoutDefault(column: ColumnName)
    | ColumnCountMismatch
    | ConstraintViolation   // what the driver reports as SQLiteConstraintException

  datatype Result<T> = Ok(value: T) | Err(error: SqlError)

  /** A select-list item: a column, or `CAST(ROUND(column*100) AS INTEGER)`. */
  datatype Expr = Col(column: ColumnName) | Rescaled(column: ColumnName)

  datatype Stmt =
    | CreateTable(name: TableName, def: TableDef)
    | DropTable(name: TableName)
    | RenameTable(from: TableName, to: TableName)
    | AddColumn(name: TableName, added: Column)
    | InsertSelect(target: TableName, into: seq<ColumnName>, source: TableName, select: seq<Expr>)
    | SetWhereNull(name: TableName, column: ColumnName, value: Value)

  datatype Outcome = Done | Failed(error: SqlError)

  /** The store after a sequence of statements, and how the sequence ended. */
  datatype Run = Run(db: Db, outcome: Outcome)

  /** The result of the driver's `insert`: the store and the new rowid, or -1. */
  datatype Insertion = Insertion(db: Db, id: int)

  // ---- columns and rows ----

  /** The columns a row stores values for: all but `_id`. */
  function DataColumns(cols: seq<Column>): set<ColumnName> {
    set c | c in cols && c.name != RowId :: c.name
  }

  function Get(r: Record, c: ColumnName): Value {
    if c in r.values then r.values[c] else Null
  }

  function DefaultOf(cols: seq<Column>, c: ColumnName): Value {
    if cols == [] then Null
    else if cols[0].name == c then cols[0].default
    else DefaultOf(cols[1..], c)
  }

  /** The values of a new row: the given ones, and every other column's default. */
  function Fill(cols: seq<Column>, given: map<ColumnName, Value>): map<ColumnName, Value> {
    map c | c in DataColumns(cols) :: if c in given then given[c] else DefaultOf(cols, c)
  }

  // ---- constraints ----

  /** Two rows collide on a unique key: every key column is non-NULL and equal in both. */
  predicate Clash(a: Record, b: Record, key: seq<ColumnName>) {
    forall c <- key :: Get(a, c) != Null && Get(a, c) == Get(b, c)
  }

  predicate NotNullHolds(cols: seq<Column>, rows: seq<Record>) {
    forall r <- rows, c <- cols :: c.notNull && c.name != RowId ==> Get(r, c.name) != Null
  }

  predicate UniqueHolds(uniques: seq<seq<ColumnName>>, rows: seq<Record>) {
    forall i, j, k :: 0 <= i < j < |rows| && 0 <= k < |uniques| ==> !Clash(rows[i], rows[j], uniques[k])
  }

  /** The table satisfies its NOT NULL and UNIQUE constraints. */
  predicate Consistent(t: Table) {
    NotNullHolds(t.columns, t.rows) && UniqueHolds(t.uniques, t.rows)
  }

  predicate DistinctNames(cols: seq<Column>) {
    forall i, j :: 0 <= i < j < |cols| ==> cols[i].name != cols[j].name
  }

  /** A definition SQLite accepts: distinct column names, unique keys over its columns. */
  predicate ValidDef(def: TableDef) {
    && DistinctNames(def.columns)
    && forall u <- def.uniques :: |u| > 0 && forall c <- u :: c in DataColumns(def.columns)
  }

  predicate IdsIncreasing(rows: seq<Record>) {
    forall i, j :: 0 <= i < j < |rows| ==> rows[i].id < rows[j].id
  }

  /** What SQLite guarantees of every table it holds. */
  predicate WellFormedTable(t: Table) {
    && ValidDef(TableDef(t.columns, t.uniques))
    && (forall r <- t.rows :: r.values.Keys == DataColumns(t.columns))
    && IdsIncreasing(t.rows)
    && (forall r <- t.rows :: r.id < t.nextId)
    && Consistent(t)
  }

  predicate WellFormed(db: Db) {
    forall name <- db :: WellFormedTable(db[name])
  }

  // ---- statements ----

  function CreateTableOp(db: Db, name: TableName, def: TableDef): Result<Db> {
    if name in db then Err(TableExists(name))
    else if !ValidDef(def) then Err(InvalidDefinition(name))
    else Ok(db[name := Table(def.columns, def.uniques, [], 1)])
  }

  function DropTableOp(db: Db, name: TableName): Result<Db> {
    if name !in db then Err(NoSuchTable(name)) else Ok(db - {name})
  }

  /** ALTER TABLE ... RENAME TO: the table, its rows and its id counter move to the new name. */
  function RenameTableOp(db: Db, from: TableName, to: TableName): Result<Db> {
    if from !in db then Err(NoSuchTable(from))
    else if to in db then Err(TableExists(to))
    else Ok((db - {from})[to := db[from]])
  }

  function WithColumn(rows: seq<Record>, c: ColumnName, v: Value): seq<Record> {
    seq(|rows|, i requires 0 <= i < |rows| => rows[i].(values := rows[i].values[c := v]))
  }

  /** ALTER TABLE ... ADD COLUMN: every existing row gets the column's default. */
  function AddColumnOp(db: Db, name: TableName, c: Column): Result<Db> {
    if name !in db then Err(NoSuchTable(name))
    else if c.name == RowId || c.name in DataColumns(db[name].columns) then Err(DuplicateColumn(c.name))
    else if c.notNull && c.default == Null then Err(NotNullWithoutDefault(c.name))
    else
      var t := db[name];
      Ok(db[name := t.(columns := t.columns + [c], rows := WithColumn(t.rows, c.name, c.default))])
  }

  function Eval(e: Expr, r: Record, rescale: Value -> Value): Value {
    match e
    case Col(c) => Get(r, c)
    case Rescaled(c) => rescale(Get(r, c))
  }

  function Evaluate(select: seq<Expr>, r: Record, rescale: Value -> Value): seq<Value> {
    seq(|select|, i requires 0 <= i < |select| => Eval(select[i], r, rescale))
  }

  /** The column list of an INSERT paired with its values. */
  function Zip(into: seq<ColumnName>, vals: seq<Value>): map<ColumnName, Value>
    decreases |into|
  {
    if into == [] || vals == [] then map[] else Zip(into[1..], vals[1..])[into[0] := vals[0]]
  }

  /** Every column an INSERT lists is a data column of the target. */
  predicate ListedColumnsExist(into: seq<ColumnName>, cols: seq<Column>) {
    forall c <- into :: c in DataColumns(cols)
  }

  /** Every column a SELECT list reads is a data column of the source. */
  predicate SelectedColumnsExist(select: seq<Expr>, cols: seq<Column>) {
    forall e <- select :: e.column in DataColumns(cols)
  }

  /** The rows INSERT ... SELECT appends to `t`: one per source row, with fresh ids. */
  function Copies(t: Table, into: seq<ColumnName>, select: seq<Expr>, rows: seq<Record>, rescale: Value -> Value): seq<Record> {
    seq(|rows|, i requires 0 <= i < |rows| =>
      Record(t.nextId + i, Fill(t.columns, Zip(into, Evaluate(select, rows[i], rescale)))))
  }

  /**
   * INSERT INTO target(into) SELECT select FROM source. The statement is
   * all-or-nothing: if any new row breaks a constraint, nothing is inserted.
   */
  function InsertSelectOp(db: Db, target: TableName, into: seq<ColumnName>, source: TableName,
                          select: seq<Expr>, rescale: Value -> Value): Result<Db>
  {
    if target !in db then Err(NoSuchTable(target))
    else if source !in db then Err(NoSuchTable(source))
    else if |into| != |select| then Err(ColumnCountMismatch)
    else if !ListedColumnsExist(into, db[target].columns) then Err(NoSuchColumn)
    else if !SelectedColumnsExist(select, db[source].columns) then Err(NoSuchColumn)
    else
      var t := db[target];
      var src := db[source].rows;
      var t' := t.(rows := t.rows + Copies(t, into, select, src, rescale), nextId := t.nextId + |src|);
      if Consistent(t') then Ok(db[target := t']) else Err(ConstraintViolation)
  }

  function FillNulls(rows: seq<Record>, c: ColumnName, v: Value): seq<Record> {
    seq(|rows|, i requires 0 <= i < |rows| =>
      if Get(rows[i], c) == Null then rows[i].(values := rows[i].values[c := v]) else rows[i])
  }

  /** UPDATE name SET column = value WHERE column IS NULL. */
  function SetWhereNullOp(db: Db, name: TableName, c: ColumnName, v: Value): Result<Db> {
    if name !in db then Err(NoSuchTable(name))
    else if c !in DataColumns(db[name].columns) then Err(NoSuchColumn)
    else
      var t' := db[name].(rows := FillNulls(db[name].rows, c, v));
      if Consistent(t') then Ok(db[name := t']) else Err(ConstraintViolation)
  }

  function Exec(db: Db, s: Stmt, rescale: Value -> Value): Result<Db> {
    match s
    case CreateTable(name, def) => CreateTableOp(db, name, def)
    case DropTable(name) => DropTableOp(db, name)
    case RenameTable(from, to) => RenameTableOp(db, from, to)
    case AddColumn(name, c) => AddColumnOp(db, name, c)
    case InsertSelect(target, into, source, select) => InsertSelectOp(db, target, into, source, select, rescale)
    case SetWhereNull(name, c, v) => SetWhereNullOp(db, name, c, v)
  }

  /** One `execSQL` call: on failure the store is unchanged and the error is raised. */
  function Execute(db: Db, s: Stmt, rescale: Value -> Value): Run {
    match Exec(db, s, rescale)
    case Ok(d) => Run(d, Done)
    case Err(e) => Run(db, Failed(e))
  }

  /** Statements run one after the other; the first failure ends the sequence. */
  function RunAll(db: Db, stmts: seq<Stmt>, rescale: Value -> Value): Run
    decreases |stmts|
  {
    if stmts == [] then Run(db, Done)
    else
      var r := Execute(db, stmts[0], rescale);
      if r.outcome.Failed? then r else RunAll(r.db, stmts[1..], rescale)
  }

  /**
   * The driver's `insert(table, null, values)`: one row, columns not given
   * take their defaults. It does not raise: on any error it returns -1 and
   * leaves the store unchanged.
   */
  function InsertOp(db: Db, target: TableName, values: map<ColumnName, Value>): Insertion {
    if target !in db || !(values.Keys <= DataColumns(db[target].columns)) then Insertion(db, -1)
    else
      var t := db[target];
      var t' := t.(rows := t.rows + [Record(t.nextId, Fill(t.columns, values))], nextId := t.nextId + 1);
      if Consistent(t') then Insertion(db[target := t'], t.nextId) else Insertion(db, -1)
  }
}
