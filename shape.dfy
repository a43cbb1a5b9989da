/**
 * The shape of a store: which tables exist, and each one's columns and
 * unique keys, with the rows left out. Every statement changes the shape
 * in a way that does not depend on the rows, so the definitions an
 * upgrade leaves behind can be computed from the definitions it starts from.
 */
module Shapes {
  import opened Schema
  import opened Store
  import opened Catalog

  type Shape = map<TableName, TableDef>

  function Def(t: Table): TableDef {
    TableDef(t.columns, t.uniques)
  }

  function ShapeOf(db: Db): Shape {
    map n | n in db :: Def(db[n])
  }

  /** The shape after a statement that succeeds. */
  function ShapeExec(sh: Shape, s: Stmt): Shape {
    match s
    case CreateTable(name, def) => sh[name := def]
    case DropTable(name) => sh - {name}
    case RenameTable(from, to) => if from in sh then (sh - {from})[to := sh[from]] else sh
    case AddColumn(name, c) =>
      if name in sh then sh[name := TableDef(sh[name].columns + [c], sh[name].uniques)] else sh
    case InsertSelect(_, _, _, _) => sh
    case SetWhereNull(_, _, _) => sh
  }

  function ShapeRun(sh: Shape, stmts: seq<Stmt>): Shape
    decreases |stmts|
  {
    if stmts == [] then sh else ShapeRun(ShapeExec(sh, stmts[0]), stmts[1..])
  }

  lemma ShapeRunOne(sh: Shape, s: Stmt)
    ensures ShapeRun(sh, [s]) == ShapeExec(sh, s)
  {
    assert [s][1..] == [];
  }

  lemma ShapeRunTwo(sh: Shape, s1: Stmt, s2: Stmt)
    ensures ShapeRun(sh, [s1, s2]) == ShapeExec(ShapeExec(sh, s1), s2)
  {
    assert [s1, s2][1..] == [s2];
    ShapeRunOne(ShapeExec(sh, s1), s2);
  }

  lemma ShapeRunThree(sh: Shape, s1: Stmt, s2: Stmt, s3: Stmt)
    ensures ShapeRun(sh, [s1, s2, s3]) == ShapeExec(ShapeExec(ShapeExec(sh, s1), s2), s3)
  {
    assert [s1, s2, s3][1..] == [s2, s3];
    ShapeRunTwo(ShapeExec(sh, s1), s2, s3);
  }

  lemma {:induction false} ShapeRunConcat(sh: Shape, a: seq<Stmt>, b: seq<Stmt>)
    ensures ShapeRun(sh, a + b) == ShapeRun(ShapeRun(sh, a), b)
    decreases |a|
  {
    if a == [] {
      assert a + b == b;
    } else {
      assert (a + b)[0] == a[0];
      assert (a + b)[1..] == a[1..] + b;
      ShapeRunConcat(ShapeExec(sh, a[0]), a[1..], b);
    }
  }

  lemma ShapeUpdate(db: Db, name: TableName, t: Table)
    ensures ShapeOf(db[name := t]) == ShapeOf(db)[name := Def(t)]
  {
  }

  lemma ShapeRemove(db: Db, name: TableName)
    ensures ShapeOf(db - {name}) == ShapeOf(db) - {name}
  {
  }

  /** Replacing a table by one with the same definition keeps the shape. */
  lemma ShapeSameDef(db: Db, name: TableName, t: Table)
    requires name in db && Def(t) == Def(db[name])
    ensures ShapeOf(db[name := t]) == ShapeOf(db)
  {
    ShapeUpdate(db, name, t);
  }

  /** A statement that succeeds changes the shape as `ShapeExec` says. */
  lemma ExecShape(db: Db, s: Stmt, rescale: Value -> Value)
    requires Exec(db, s, rescale).Ok?
    ensures ShapeOf(Exec(db, s, rescale).value) == ShapeExec(ShapeOf(db), s)
  {
    match s
    case CreateTable(name, def) =>
      ShapeUpdate(db, name, Table(def.columns, def.uniques, [], 1));
    case DropTable(name) =>
      ShapeRemove(db, name);
    case RenameTable(from, to) =>
      ShapeRemove(db, from);
      ShapeUpdate(db - {from}, to, db[from]);
    case AddColumn(name, c) =>
      var t := db[name];
      ShapeUpdate(db, name, t.(columns := t.columns + [c], rows := WithColumn(t.rows, c.name, c.default)));
    case InsertSelect(target, into, source, select) =>
      var t := db[target];
      var src := db[source].rows;
      ShapeSameDef(db, target, t.(rows := t.rows + Copies(t, into, select, src, rescale), nextId := t.nextId + |src|));
    case SetWhereNull(name, c, v) =>
      ShapeSameDef(db, name, db[name].(rows := FillNulls(db[name].rows, c, v)));
  }

  lemma ExecuteShape(db: Db, s: Stmt, rescale: Value -> Value)
    ensures var r := Execute(db, s, rescale);
            r.outcome.Done? ==> ShapeOf(r.db) == ShapeExec(ShapeOf(db), s)
  {
    if Exec(db, s, rescale).Ok? {
      ExecShape(db, s, rescale);
    }
  }

  /** Statements that all succeed change the shape as `ShapeRun` says. */
  lemma {:induction false} RunAllShape(db: Db, stmts: seq<Stmt>, rescale: Value -> Value)
    ensures var r := RunAll(db, stmts, rescale);
            r.outcome.Done? ==> ShapeOf(r.db) == ShapeRun(ShapeOf(db), stmts)
    decreases |stmts|
  {
    if stmts != [] {
      var r := Execute(db, stmts[0], rescale);
      ExecuteShape(db, stmts[0], rescale);
      if r.outcome.Done? {
        RunAllShape(r.db, stmts[1..], rescale);
      }
    }
  }

  /** A failed statement leaves the store as it was. */
  lemma FailedKeepsStore(db: Db, s: Stmt, rescale: Value -> Value)
    ensures var r := Execute(db, s, rescale);
            r.outcome.Failed? ==> r.db == db
  {
  }

  /** The driver's insert never changes the shape, whether it succeeds or not. */
  lemma InsertKeepsShape(db: Db, target: TableName, values: map<ColumnName, Value>)
    ensures ShapeOf(InsertOp(db, target, values).db) == ShapeOf(db)
  {
    if target in db && values.Keys <= DataColumns(db[target].columns) {
      var t := db[target];
      ShapeSameDef(db, target, t.(rows := t.rows + [Record(t.nextId, Fill(t.columns, values))], nextId := t.nextId + 1));
    }
  }

  /** Seeding the payment methods never changes the shape. */
  lemma {:induction false} SeedKeepsShape(db: Db, pms: seq<PreDefined>)
    ensures ShapeOf(Seed(db, pms)) == ShapeOf(db)
    decreases |pms|
  {
    if pms != [] {
      var m := InsertOp(db, PaymentMethods, MethodValues(pms[0]));
      var a := InsertOp(m.db, AccountTypeMethods, BankValues(m.id));
      InsertKeepsShape(db, PaymentMethods, MethodValues(pms[0]));
      InsertKeepsShape(m.db, AccountTypeMethods, BankValues(m.id));
      SeedKeepsShape(a.db, pms[1..]);
    }
  }
}
