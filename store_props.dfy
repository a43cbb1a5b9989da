/**
 * Properties of the abstract store: every statement keeps the guarantees
 * SQLite gives of its tables, and INSERT maps its column list onto the
 * selected values position by position.
 */
module StoreProps {
  import opened Schema
  import opened Store

  predicate NoDuplicates<T(==)>(s: seq<T>) {
    forall i, j :: 0 <= i < j < |s| ==> s[i] != s[j]
  }

  /** An INSERT column list that names the table's columns after `_id`, in order, lists data columns only. */
  lemma ListsDataColumns(cols: seq<Column>, into: seq<ColumnName>)
    requires |cols| == |into| + 1
    requires forall j :: 0 <= j < |into| ==> cols[j + 1].name == into[j] != RowId
    ensures forall c <- into :: c in DataColumns(cols)
  {
    forall c <- into
      ensures c in DataColumns(cols)
    {
      var j :| 0 <= j < |into| && into[j] == c;
      assert cols[j + 1] in cols;
    }
  }

  /** The INSERT column list pairs each column with the value in the same position. */
  lemma {:induction false} ZipAt(into: seq<ColumnName>, vals: seq<Value>, j: nat)
    requires |into| == |vals| && NoDuplicates(into) && j < |into|
    ensures into[j] in Zip(into, vals) && Zip(into, vals)[into[j]] == vals[j]
  {
    if j > 0 {
      assert NoDuplicates(into[1..]) by {
        forall a, b | 0 <= a < b < |into[1..]| ensures into[1..][a] != into[1..][b] {
          assert into[1..][a] == into[a + 1] && into[1..][b] == into[b + 1];
        }
      }
      ZipAt(into[1..], vals[1..], j - 1);
      assert into[1..][j - 1] == into[j];
    }
  }

  /** The keys of the pairing are exactly the listed columns. */
  lemma {:induction false} ZipKeys(into: seq<ColumnName>, vals: seq<Value>)
    requires |into| == |vals|
    ensures Zip(into, vals).Keys == set c | c in into
  {
    if into != [] {
      ZipKeys(into[1..], vals[1..]);
      assert (set c | c in into) == (set c | c in into[1..]) + {into[0]} by {
        forall c | c in into ensures c == into[0] || c in into[1..] {
          var i :| 0 <= i < |into| && into[i] == c;
          if i > 0 { assert into[1..][i - 1] == c; }
        }
      }
    }
  }

  lemma DataColumnsAppend(cols: seq<Column>, c: Column)
    requires c.name != RowId
    ensures DataColumns(cols + [c]) == DataColumns(cols) + {c.name}
  {
    assert c in cols + [c];
    forall x | x in DataColumns(cols + [c]) ensures x in DataColumns(cols) + {c.name} {
      var col :| col in cols + [c] && col.name != RowId && col.name == x;
      if col != c { assert col in cols; }
    }
    forall x | x in DataColumns(cols) ensures x in DataColumns(cols + [c]) {
      var col :| col in cols && col.name != RowId && col.name == x;
      assert col in cols + [c];
    }
  }

  lemma AppendIds(before: seq<Record>, added: seq<Record>, next: nat)
    requires IdsIncreasing(before) && forall r <- before :: r.id < next
    requires forall i :: 0 <= i < |added| ==> added[i].id == next + i
    ensures IdsIncreasing(before + added)
    ensures forall r <- before + added :: r.id < next + |added|
  {
    var rows := before + added;
    forall i, j | 0 <= i < j < |rows| ensures rows[i].id < rows[j].id {
      if j < |before| {
        assert rows[i] == before[i] && rows[j] == before[j];
      } else if i < |before| {
        assert rows[i] == before[i] && before[i] in before;
        assert rows[j] == added[j - |before|];
      } else {
        assert rows[i] == added[i - |before|] && rows[j] == added[j - |before|];
      }
    }
    forall r | r in rows ensures r.id < next + |added| {
      var i :| 0 <= i < |rows| && rows[i] == r;
      if i >= |before| { assert r == added[i - |before|]; } else { assert r == before[i] && before[i] in before; }
    }
  }

  lemma AppendKeys(before: seq<Record>, added: seq<Record>, keys: set<ColumnName>)
    requires forall r <- before :: r.values.Keys == keys
    requires forall r <- added :: r.values.Keys == keys
    ensures forall r <- before + added :: r.values.Keys == keys
  {
    forall r | r in before + added ensures r.values.Keys == keys {
      if r !in before { assert r in added; }
    }
  }

  /** Appending rows with fresh ascending ids and the table's columns keeps a consistent table well formed. */
  lemma AppendKeepsWellFormed(t: Table, added: seq<Record>)
    requires WellFormedTable(t)
    requires forall i :: 0 <= i < |added| ==> added[i].id == t.nextId + i
    requires forall r <- added :: r.values.Keys == DataColumns(t.columns)
    requires Consistent(t.(rows := t.rows + added, nextId := t.nextId + |added|))
    ensures WellFormedTable(t.(rows := t.rows + added, nextId := t.nextId + |added|))
  {
    AppendIds(t.rows, added, t.nextId);
    AppendKeys(t.rows, added, DataColumns(t.columns));
  }

  lemma AddColumnKeepsDistinct(cols: seq<Column>, c: Column)
    requires DistinctNames(cols) && c.name != RowId && c.name !in DataColumns(cols)
    ensures DistinctNames(cols + [c])
  {
    var cols' := cols + [c];
    forall i, j | 0 <= i < j < |cols'| ensures cols'[i].name != cols'[j].name {
      if j == |cols| {
        assert cols'[i] in cols;
        if cols'[i].name != RowId { assert cols'[i].name in DataColumns(cols); }
      }
    }
  }

  lemma AddColumnKeepsNotNull(cols: seq<Column>, rows: seq<Record>, c: Column)
    requires NotNullHolds(cols, rows) && !(c.notNull && c.default == Null)
    requires c.name !in DataColumns(cols)
    ensures NotNullHolds(cols + [c], WithColumn(rows, c.name, c.default))
  {
    var rows' := WithColumn(rows, c.name, c.default);
    forall r, col | r in rows' && col in cols + [c] && col.notNull && col.name != RowId
      ensures Get(r, col.name) != Null
    {
      var i :| 0 <= i < |rows'| && rows'[i] == r;
      assert rows[i] in rows;
      if col != c {
        assert col in cols;
        assert col.name in DataColumns(cols);
      }
    }
  }

  lemma AddColumnKeepsUnique(cols: seq<Column>, uniques: seq<seq<ColumnName>>, rows: seq<Record>, c: Column)
    requires UniqueHolds(uniques, rows) && c.name !in DataColumns(cols)
    requires forall u <- uniques :: forall x <- u :: x in DataColumns(cols)
    ensures UniqueHolds(uniques, WithColumn(rows, c.name, c.default))
  {
    var rows' := WithColumn(rows, c.name, c.default);
    forall i, j, k | 0 <= i < j < |rows'| && 0 <= k < |uniques|
      ensures !Clash(rows'[i], rows'[j], uniques[k])
    {
      assert uniques[k] in uniques;
      assert forall x <- uniques[k] :: Get(rows'[i], x) == Get(rows[i], x) && Get(rows'[j], x) == Get(rows[j], x);
      assert !Clash(rows[i], rows[j], uniques[k]);
    }
  }

  lemma AddColumnKeepsWellFormed(t: Table, c: Column)
    requires WellFormedTable(t)
    requires c.name != RowId && c.name !in DataColumns(t.columns)
    requires !(c.notNull && c.default == Null)
    ensures WellFormedTable(t.(columns := t.columns + [c], rows := WithColumn(t.rows, c.name, c.default)))
  {
    var cols := t.columns + [c];
    var rows := WithColumn(t.rows, c.name, c.default);
    DataColumnsAppend(t.columns, c);
    AddColumnKeepsDistinct(t.columns, c);
    AddColumnKeepsNotNull(t.columns, t.rows, c);
    AddColumnKeepsUnique(t.columns, t.uniques, t.rows, c);
    AddColumnKeepsKeys(t, c);
    forall u | u in t.uniques ensures |u| > 0 && forall x <- u :: x in DataColumns(cols) {
      assert forall x <- u :: x in DataColumns(t.columns);
    }
  }

  lemma AddColumnKeepsKeys(t: Table, c: Column)
    requires WellFormedTable(t) && c.name != RowId
    ensures var rows := WithColumn(t.rows, c.name, c.default);
            && IdsIncreasing(rows)
            && forall r <- rows :: r.values.Keys == DataColumns(t.columns + [c]) && r.id < t.nextId
  {
    var rows := WithColumn(t.rows, c.name, c.default);
    DataColumnsAppend(t.columns, c);
    forall r | r in rows ensures r.values.Keys == DataColumns(t.columns + [c]) && r.id < t.nextId {
      var i :| 0 <= i < |rows| && rows[i] == r;
      assert t.rows[i] in t.rows;
      assert r.values == t.rows[i].values[c.name := c.default];
    }
  }

  lemma FillNullsKeepsWellFormed(t: Table, c: ColumnName, v: Value)
    requires WellFormedTable(t) && c in DataColumns(t.columns)
    requires Consistent(t.(rows := FillNulls(t.rows, c, v)))
    ensures WellFormedTable(t.(rows := FillNulls(t.rows, c, v)))
  {
    FillNullsKeys(t.rows, c, v, DataColumns(t.columns));
    FillNullsIds(t.rows, c, v, t.nextId);
  }

  lemma FillNullsKeys(rows: seq<Record>, c: ColumnName, v: Value, keys: set<ColumnName>)
    requires c in keys && forall r <- rows :: r.values.Keys == keys
    ensures forall r <- FillNulls(rows, c, v) :: r.values.Keys == keys
  {
    var rows' := FillNulls(rows, c, v);
    forall r | r in rows' ensures r.values.Keys == keys {
      var i :| 0 <= i < |rows'| && rows'[i] == r;
      assert rows[i] in rows;
    }
  }

  lemma FillNullsIds(rows: seq<Record>, c: ColumnName, v: Value, next: int)
    requires IdsIncreasing(rows) && forall r <- rows :: r.id < next
    ensures IdsIncreasing(FillNulls(rows, c, v)) && forall r <- FillNulls(rows, c, v) :: r.id < next
  {
    var rows' := FillNulls(rows, c, v);
    assert forall i :: 0 <= i < |rows| ==> rows'[i].id == rows[i].id;
    forall r | r in rows' ensures r.id < next {
      var i :| 0 <= i < |rows'| && rows'[i] == r;
      assert rows[i] in rows;
    }
  }

  lemma UpdateKeepsWellFormed(db: Db, name: TableName, t: Table)
    requires WellFormed(db) && WellFormedTable(t)
    ensures WellFormed(db[name := t])
  {
  }

  lemma RemoveKeepsWellFormed(db: Db, name: TableName)
    requires WellFormed(db)
    ensures WellFormed(db - {name})
  {
  }

  /** Every statement that succeeds keeps every table well formed. */
  lemma ExecKeepsWellFormed(db: Db, s: Stmt, rescale: Value -> Value)
    requires WellFormed(db)
    ensures Exec(db, s, rescale).Ok? ==> WellFormed(Exec(db, s, rescale).value)
  {
    match s
    case CreateTable(name, def) =>
      if CreateTableOp(db, name, def).Ok? {
        UpdateKeepsWellFormed(db, name, Table(def.columns, def.uniques, [], 1));
      }
    case DropTable(name) =>
      RemoveKeepsWellFormed(db, name);
    case RenameTable(from, to) =>
      if RenameTableOp(db, from, to).Ok? {
        RemoveKeepsWellFormed(db, from);
        UpdateKeepsWellFormed(db - {from}, to, db[from]);
      }
    case AddColumn(name, c) =>
      assert Exec(db, s, rescale) == AddColumnOp(db, name, c);
      AddColumnOpKeepsWellFormed(db, name, c);
    case InsertSelect(target, into, source, select) =>
      assert Exec(db, s, rescale) == InsertSelectOp(db, target, into, source, select, rescale);
      InsertSelectOpKeepsWellFormed(db, target, into, source, select, rescale);
    case SetWhereNull(name, c, v) =>
      assert Exec(db, s, rescale) == SetWhereNullOp(db, name, c, v);
      SetWhereNullOpKeepsWellFormed(db, name, c, v);
  }

  lemma AddColumnOpKeepsWellFormed(db: Db, name: TableName, c: Column)
    requires WellFormed(db)
    ensures AddColumnOp(db, name, c).Ok? ==> WellFormed(AddColumnOp(db, name, c).value)
  {
    if AddColumnOp(db, name, c).Ok? {
      var t := db[name];
      AddColumnKeepsWellFormed(t, c);
      UpdateKeepsWellFormed(db, name, t.(columns := t.columns + [c], rows := WithColumn(t.rows, c.name, c.default)));
    }
  }

  lemma InsertSelectOpKeepsWellFormed(db: Db, target: TableName, into: seq<ColumnName>, source: TableName,
                                      select: seq<Expr>, rescale: Value -> Value)
    requires WellFormed(db)
    ensures var r := InsertSelectOp(db, target, into, source, select, rescale);
            r.Ok? ==> WellFormed(r.value)
  {
    if && target in db && source in db && |into| == |select|
       && ListedColumnsExist(into, db[target].columns) && SelectedColumnsExist(select, db[source].columns)
    {
      InsertSelectOpChecked(db, target, into, source, select, rescale);
      CopiesKeepWellFormed(db, target, into, source, select, rescale);
    } else {
      InsertSelectOpGuards(db, target, into, source, select, rescale);
    }
  }

  /** INSERT ... SELECT fails unless both tables exist, the lists match and every column named exists. */
  lemma InsertSelectOpGuards(db: Db, target: TableName, into: seq<ColumnName>, source: TableName,
                             select: seq<Expr>, rescale: Value -> Value)
    requires !(&& target in db && source in db && |into| == |select|
               && ListedColumnsExist(into, db[target].columns) && SelectedColumnsExist(select, db[source].columns))
    ensures InsertSelectOp(db, target, into, source, select, rescale).Err?
  {
  }

  /** The copies an INSERT ... SELECT appends keep the store well formed if they meet the constraints. */
  lemma CopiesKeepWellFormed(db: Db, target: TableName, into: seq<ColumnName>, source: TableName,
                             select: seq<Expr>, rescale: Value -> Value)
    requires WellFormed(db) && target in db && source in db
    ensures var t := db[target];
            var src := db[source].rows;
            var t' := t.(rows := t.rows + Copies(t, into, select, src, rescale), nextId := t.nextId + |src|);
            Consistent(t') ==> WellFormed(db[target := t'])
  {
    var t := db[target];
    var src := db[source].rows;
    var added := Copies(t, into, select, src, rescale);
    var t' := t.(rows := t.rows + added, nextId := t.nextId + |src|);
    if Consistent(t') {
      CopiesShape(t, into, select, src, rescale);
      AppendToTable(db, target, added, t');
    }
  }

  /** Appending rows with fresh ids and all data columns that meet the constraints keeps the store well formed. */
  lemma AppendToTable(db: Db, target: TableName, added: seq<Record>, t': Table)
    requires WellFormed(db) && target in db
    requires forall i :: 0 <= i < |added| ==> added[i].id == db[target].nextId + i
    requires forall r <- added :: r.values.Keys == DataColumns(db[target].columns)
    requires t' == db[target].(rows := db[target].rows + added, nextId := db[target].nextId + |added|)
    requires Consistent(t')
    ensures WellFormed(db[target := t'])
  {
    AppendKeepsWellFormed(db[target], added);
    UpdateKeepsWellFormed(db, target, t');
  }

  /** The copies carry fresh ids counting up from the table's counter, and a value for every data column. */
  lemma CopiesShape(t: Table, into: seq<ColumnName>, select: seq<Expr>, rows: seq<Record>, rescale: Value -> Value)
    ensures var added := Copies(t, into, select, rows, rescale);
            && |added| == |rows|
            && (forall i :: 0 <= i < |added| ==> added[i].id == t.nextId + i)
            && forall r <- added :: r.values.Keys == DataColumns(t.columns)
  {
    var added := Copies(t, into, select, rows, rescale);
    forall r | r in added ensures r.values.Keys == DataColumns(t.columns) {
      var i :| 0 <= i < |added| && added[i] == r;
      assert r.values == Fill(t.columns, Zip(into, Evaluate(select, rows[i], rescale)));
    }
  }

  lemma SetWhereNullOpKeepsWellFormed(db: Db, name: TableName, c: ColumnName, v: Value)
    requires WellFormed(db)
    ensures SetWhereNullOp(db, name, c, v).Ok? ==> WellFormed(SetWhereNullOp(db, name, c, v).value)
  {
    if SetWhereNullOp(db, name, c, v).Ok? {
      FillNullsKeepsWellFormed(db[name], c, v);
      UpdateKeepsWellFormed(db, name, db[name].(rows := FillNulls(db[name].rows, c, v)));
    }
  }

  /** So does every statement sequence, whether it completes or stops at a failure. */
  lemma {:induction false} RunAllKeepsWellFormed(db: Db, stmts: seq<Stmt>, rescale: Value -> Value)
    requires WellFormed(db)
    ensures WellFormed(RunAll(db, stmts, rescale).db)
    decreases |stmts|
  {
    if stmts != [] {
      ExecKeepsWellFormed(db, stmts[0], rescale);
      var r := Execute(db, stmts[0], rescale);
      if r.outcome.Done? { RunAllKeepsWellFormed(r.db, stmts[1..], rescale); }
    }
  }

  /** The driver's insert keeps every table well formed. */
  lemma InsertKeepsWellFormed(db: Db, target: TableName, values: map<ColumnName, Value>)
    requires WellFormed(db)
    ensures WellFormed(InsertOp(db, target, values).db)
  {
    if target in db && values.Keys <= DataColumns(db[target].columns) {
      var t := db[target];
      var added := [Record(t.nextId, Fill(t.columns, values))];
      if Consistent(t.(rows := t.rows + added, nextId := t.nextId + 1)) {
        AppendKeepsWellFormed(t, added);
      }
    }
  }

  // ---- running statement lists ----

  /** Running `a + b` runs `a`, then, if it completed, `b`. */
  lemma {:induction false} RunAllConcat(db: Db, a: seq<Stmt>, b: seq<Stmt>, rescale: Value -> Value)
    ensures RunAll(db, a + b, rescale)
         == (var r := RunAll(db, a, rescale); if r.outcome.Failed? then r else RunAll(r.db, b, rescale))
    decreases |a|
  {
    if a == [] {
      assert a + b == b;
    } else {
      assert (a + b)[0] == a[0];
      assert (a + b)[1..] == a[1..] + b;
      var r := Execute(db, a[0], rescale);
      if r.outcome.Done? {
        RunAllConcat(r.db, a[1..], b, rescale);
      }
    }
  }

  lemma RunOne(db: Db, s: Stmt, rescale: Value -> Value)
    ensures RunAll(db, [s], rescale) == Execute(db, s, rescale)
  {
  }

  lemma RunTwo(db: Db, s1: Stmt, s2: Stmt, rescale: Value -> Value)
    ensures RunAll(db, [s1, s2], rescale)
         == (var r := Execute(db, s1, rescale); if r.outcome.Failed? then r else Execute(r.db, s2, rescale))
  {
    assert [s1, s2][1..] == [s2];
    var r := Execute(db, s1, rescale);
    if r.outcome.Done? { RunOne(r.db, s2, rescale); }
  }

  lemma RunThree(db: Db, s1: Stmt, s2: Stmt, s3: Stmt, rescale: Value -> Value)
    ensures RunAll(db, [s1, s2, s3], rescale)
         == (var r := Execute(db, s1, rescale); if r.outcome.Failed? then r else RunAll(r.db, [s2, s3], rescale))
  {
    assert [s1, s2, s3][1..] == [s2, s3];
  }

  /** The value a copied row holds in the j-th listed column: the j-th select item on its source row. */
  lemma CopiesAt(t: Table, into: seq<ColumnName>, select: seq<Expr>, rows: seq<Record>, rescale: Value -> Value, i: nat, j: nat)
    requires |into| == |select| && NoDuplicates(into) && i < |rows| && j < |into|
    requires into[j] in DataColumns(t.columns)
    ensures Get(Copies(t, into, select, rows, rescale)[i], into[j]) == Eval(select[j], rows[i], rescale)
  {
    var vals := Evaluate(select, rows[i], rescale);
    ZipAt(into, vals, j);
  }

  /** `copy` holds, in each column of `into`, the matching select item evaluated on `orig`. */
  predicate CopiedRow(copy: Record, orig: Record, into: seq<ColumnName>, select: seq<Expr>, rescale: Value -> Value)
    requires |into| == |select|
  {
    forall j :: 0 <= j < |into| ==> Get(copy, into[j]) == Eval(select[j], orig, rescale)
  }

  /** Each copy made by INSERT ... SELECT carries its source row's values and the next fresh id. */
  lemma CopiesCopy(t: Table, into: seq<ColumnName>, select: seq<Expr>, rows: seq<Record>, rescale: Value -> Value)
    requires |into| == |select| && NoDuplicates(into)
    requires forall c <- into :: c in DataColumns(t.columns)
    ensures var copies := Copies(t, into, select, rows, rescale);
            forall i :: 0 <= i < |rows| ==> copies[i].id == t.nextId + i && CopiedRow(copies[i], rows[i], into, select, rescale)
  {
    var copies := Copies(t, into, select, rows, rescale);
    forall i | 0 <= i < |rows| ensures CopiedRow(copies[i], rows[i], into, select, rescale) {
      forall j | 0 <= j < |into| ensures Get(copies[i], into[j]) == Eval(select[j], rows[i], rescale) {
        assert into[j] in into;
        CopiesAt(t, into, select, rows, rescale, i, j);
      }
    }
  }

  /** INSERT ... SELECT whose columns all exist: all copies are appended, or none when a constraint breaks. */
  lemma InsertSelectOpChecked(db: Db, t: TableName, into: seq<ColumnName>, src: TableName, select: seq<Expr>,
                              rescale: Value -> Value)
    requires t in db && src in db && |into| == |select|
    requires ListedColumnsExist(into, db[t].columns) && SelectedColumnsExist(select, db[src].columns)
    ensures var tt := db[t];
            var source := db[src].rows;
            var t' := tt.(rows := tt.rows + Copies(tt, into, select, source, rescale), nextId := tt.nextId + |source|);
            InsertSelectOp(db, t, into, src, select, rescale)
            == if Consistent(t') then Ok(db[t := t']) else Err(ConstraintViolation)
  {
    assert ListedColumnsExist(into, db[t].columns) && SelectedColumnsExist(select, db[src].columns);
  }

  lemma InsertSelectChecked(db: Db, t: TableName, into: seq<ColumnName>, src: TableName, select: seq<Expr>,
                            rescale: Value -> Value)
    requires t in db && src in db && |into| == |select|
    requires ListedColumnsExist(into, db[t].columns) && SelectedColumnsExist(select, db[src].columns)
    ensures var tt := db[t];
            var source := db[src].rows;
            var t' := tt.(rows := tt.rows + Copies(tt, into, select, source, rescale), nextId := tt.nextId + |source|);
            Execute(db, InsertSelect(t, into, src, select), rescale)
            == if Consistent(t') then Run(db[t := t'], Done) else Run(db, Failed(ConstraintViolation))
  {
    assert Exec(db, InsertSelect(t, into, src, select), rescale) == InsertSelectOp(db, t, into, src, select, rescale);
    assert ListedColumnsExist(into, db[t].columns) && SelectedColumnsExist(select, db[src].columns);
  }

  /** INSERT ... SELECT into an empty table appends the copies if they meet its constraints. */
  lemma CopyIntoEmpty(db: Db, t: TableName, def: TableDef, into: seq<ColumnName>, src: TableName, select: seq<Expr>,
                      rescale: Value -> Value)
    requires t in db && db[t] == Empty(def) && src in db
    requires |into| == |select|
    requires forall c <- into :: c in DataColumns(def.columns)
    requires forall e <- select :: e.column in DataColumns(db[src].columns)
    ensures var source := db[src].rows;
            var built := Table(def.columns, def.uniques, Copies(Empty(def), into, select, source, rescale), 1 + |source|);
            Execute(db, InsertSelect(t, into, src, select), rescale)
            == if Consistent(built) then Run(db[t := built], Done) else Run(db, Failed(ConstraintViolation))
  {
    assert ListedColumnsExist(into, db[t].columns) && SelectedColumnsExist(select, db[src].columns);
    InsertSelectChecked(db, t, into, src, select, rescale);
    EmptyPlusCopies(def, Copies(Empty(def), into, select, db[src].rows, rescale), |db[src].rows|);
  }

  lemma EmptyPlusCopies(def: TableDef, copies: seq<Record>, n: nat)
    ensures Empty(def).(rows := Empty(def).rows + copies, nextId := Empty(def).nextId + n)
         == Table(def.columns, def.uniques, copies, 1 + n)
  {
    assert [] + copies == copies;
  }

  /**
   * CREATE TABLE t, INSERT INTO t ... SELECT ... FROM src, DROP TABLE src:
   * if the copies meet the new table's constraints, `src` is replaced by
   * `t` holding one fresh-id copy per source row; otherwise the insert
   * fails and `t` stays, empty.
   */
  lemma Rebuild(db: Db, t: TableName, def: TableDef, into: seq<ColumnName>, src: TableName, select: seq<Expr>,
                rescale: Value -> Value)
    requires t !in db && src in db && t != src && ValidDef(def)
    requires |into| == |select|
    requires forall c <- into :: c in DataColumns(def.columns)
    requires forall e <- select :: e.column in DataColumns(db[src].columns)
    ensures var source := db[src].rows;
            var built := Table(def.columns, def.uniques, Copies(Empty(def), into, select, source, rescale), 1 + |source|);
            RunAll(db, [CreateTable(t, def), InsertSelect(t, into, src, select), DropTable(src)], rescale)
            == if Consistent(built) then Run((db - {src})[t := built], Done)
               else Run(db[t := Empty(def)], Failed(ConstraintViolation))
  {
    var made := db[t := Empty(def)];
    assert Execute(db, CreateTable(t, def), rescale) == Run(made, Done);
    RunThree(db, CreateTable(t, def), InsertSelect(t, into, src, select), DropTable(src), rescale);
    RunTwo(made, InsertSelect(t, into, src, select), DropTable(src), rescale);
    assert made[src] == db[src];
    CopyIntoEmpty(made, t, def, into, src, select, rescale);
    var source := db[src].rows;
    var built := Table(def.columns, def.uniques, Copies(Empty(def), into, select, source, rescale), 1 + |source|);
    if Consistent(built) {
      assert made[t := built] - {src} == (db - {src})[t := built];
    }
  }

  /**
   * ALTER TABLE t RENAME TO old, then rebuild `t` from `old`: on success `t`
   * is replaced by one fresh-id copy of each of its former rows.
   */
  lemma RebuildInPlace(db: Db, t: TableName, def: TableDef, into: seq<ColumnName>, aside: TableName, select: seq<Expr>,
                       rescale: Value -> Value)
    requires t in db && aside !in db && t != aside && ValidDef(def)
    requires |into| == |select|
    requires forall c <- into :: c in DataColumns(def.columns)
    requires forall e <- select :: e.column in DataColumns(db[t].columns)
    ensures var source := db[t].rows;
            var built := Table(def.columns, def.uniques, Copies(Empty(def), into, select, source, rescale), 1 + |source|);
            var r := RunAll(db, [RenameTable(t, aside)] + [CreateTable(t, def), InsertSelect(t, into, aside, select), DropTable(aside)], rescale);
            (r.outcome == Done <==> Consistent(built))
            && (r.outcome.Failed? ==> r.outcome.error == ConstraintViolation)
            && (r.outcome == Done ==> r.db == db[t := built])
  {
    var renamed := (db - {t})[aside := db[t]];
    var rest := [CreateTable(t, def), InsertSelect(t, into, aside, select), DropTable(aside)];
    RenameFirst(db, t, aside, rest, rescale);
    Rebuild(renamed, t, def, into, aside, select, rescale);
    var source := db[t].rows;
    var built := Table(def.columns, def.uniques, Copies(Empty(def), into, select, source, rescale), 1 + |source|);
    DropAsideRebuilt(db, t, aside, built);
  }

  /** A rename that succeeds, followed by more statements. */
  lemma RenameFirst(db: Db, t: TableName, aside: TableName, rest: seq<Stmt>, rescale: Value -> Value)
    requires t in db && aside !in db && t != aside
    ensures RunAll(db, [RenameTable(t, aside)] + rest, rescale) == RunAll((db - {t})[aside := db[t]], rest, rescale)
  {
    assert Exec(db, RenameTable(t, aside), rescale) == Ok((db - {t})[aside := db[t]]);
    RunOne(db, RenameTable(t, aside), rescale);
    RunAllConcat(db, [RenameTable(t, aside)], rest, rescale);
  }

  /** Dropping the renamed-away table after `t` was rebuilt leaves the store with only `t` replaced. */
  lemma DropAsideRebuilt(db: Db, t: TableName, aside: TableName, y: Table)
    requires t in db && aside !in db && t != aside
    ensures (((db - {t})[aside := db[t]]) - {aside})[t := y] == db[t := y]
  {
  }

  /** ALTER TABLE t RENAME TO aside, then CREATE TABLE t afresh. */
  lemma RenameThenCreate(db: Db, t: TableName, aside: TableName, def: TableDef, rescale: Value -> Value)
    requires t in db && aside !in db && t != aside && ValidDef(def)
    ensures RunAll(db, [RenameTable(t, aside), CreateTable(t, def)], rescale)
         == Run(((db - {t})[aside := db[t]])[t := Empty(def)], Done)
  {
    RunTwo(db, RenameTable(t, aside), CreateTable(t, def), rescale);
  }

  /** Dropping the renamed-away table leaves the store with only `t` replaced. */
  lemma DropAside(db: Db, t: TableName, aside: TableName, x: Table, y: Table)
    requires aside !in db && t != aside
    ensures ((db - {t})[aside := x])[t := y] - {aside} == db[t := y]
  {
  }

  function Empty(def: TableDef): Table {
    Table(def.columns, def.uniques, [], 1)
  }
}
