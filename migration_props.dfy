/**
 * What the individual upgrade steps do to the store.
 */
module MigrationProps {
  import opened Schema
  import opened Store
  import opened StoreProps
  import opened SchemaFacts
  import opened Catalog
  import opened Migration

  /** Every table other than the named ones is untouched. */
  predicate OthersUnchanged(before: Db, after: Db, touched: set<TableName>) {
    forall n :: n !in touched ==> (n in after <==> n in before) && (n in before ==> after[n] == before[n])
  }

  // ---- version 25: transfer_peer NULL becomes 0 ----

  /**
   * Row by row, `after` is `before` with a NULL `transfer_peer` replaced
   * by 0; ids, other values, and non-NULL transfer peers are unchanged.
   */
  predicate PeersNormalised(before: seq<Record>, after: seq<Record>) {
    && |after| == |before|
    && forall i :: 0 <= i < |before| ==>
         && after[i].id == before[i].id
         && after[i].values.Keys == before[i].values.Keys
         && Get(after[i], TransferPeer)
            == (if Get(before[i], TransferPeer) == Null then Int(0) else Get(before[i], TransferPeer))
         && forall c :: c != TransferPeer ==> Get(after[i], c) == Get(before[i], c)
  }

  lemma FillNullsKeepsNotNull(cols: seq<Column>, rows: seq<Record>, c: ColumnName, v: Value)
    requires NotNullHolds(cols, rows) && v != Null
    ensures NotNullHolds(cols, FillNulls(rows, c, v))
  {
    var rows' := FillNulls(rows, c, v);
    forall r, col | r in rows' && col in cols && col.notNull && col.name != RowId
      ensures Get(r, col.name) != Null
    {
      var i :| 0 <= i < |rows'| && rows'[i] == r;
      assert rows[i] in rows;
    }
  }

  lemma FillNullsNormalises(rows: seq<Record>)
    requires forall r <- rows :: TransferPeer in r.values
    ensures PeersNormalised(rows, FillNulls(rows, TransferPeer, Int(0)))
  {
    var rows' := FillNulls(rows, TransferPeer, Int(0));
    forall i | 0 <= i < |rows|
      ensures rows'[i].values.Keys == rows[i].values.Keys
    {
      assert rows[i] in rows;
    }
  }

  /** The step's UPDATE succeeds on a transactions table without unique keys. */
  lemma Step25Runs(db: Db, rescale: Value -> Value)
    requires WellFormed(db) && Transactions in db
    requires TransferPeer in DataColumns(db[Transactions].columns) && db[Transactions].uniques == []
    ensures var t := db[Transactions];
            Step25(db, rescale)
            == Run(db[Transactions := t.(rows := FillNulls(t.rows, TransferPeer, Int(0)))], Done)
  {
    var t := db[Transactions];
    RunOne(db, SetWhereNull(Transactions, TransferPeer, Int(0)), rescale);
    FillNullsKeepsNotNull(t.columns, t.rows, TransferPeer, Int(0));
  }

  /**
   * Version 25: every transactions row whose `transfer_peer` is NULL gets
   * 0; every other value, every row id and every other table is unchanged.
   */
  lemma Step25NullPeersBecomeZero(db: Db, rescale: Value -> Value)
    requires WellFormed(db) && Transactions in db
    requires TransferPeer in DataColumns(db[Transactions].columns) && db[Transactions].uniques == []
    ensures var r := Step25(db, rescale);
            var t := db[Transactions];
            && r.outcome == Done
            && OthersUnchanged(db, r.db, {Transactions})
            && Transactions in r.db
            && r.db[Transactions].columns == t.columns
            && r.db[Transactions].uniques == t.uniques
            && r.db[Transactions].nextId == t.nextId
            && PeersNormalised(t.rows, r.db[Transactions].rows)
  {
    var t := db[Transactions];
    Step25Runs(db, rescale);
    assert forall r <- t.rows :: TransferPeer in r.values;
    FillNullsNormalises(t.rows);
  }

  /** Filling NULLs with a non-NULL value twice fills them once. */
  lemma FillNullsTwice(rows: seq<Record>, c: ColumnName, v: Value)
    requires v != Null
    ensures FillNulls(FillNulls(rows, c, v), c, v) == FillNulls(rows, c, v)
  {
  }

  /** The store after version 25 still meets what version 25 asks of its input. */
  lemma Step25ResultReady(db: Db)
    requires WellFormed(db) && Transactions in db
    requires TransferPeer in DataColumns(db[Transactions].columns) && db[Transactions].uniques == []
    ensures var t := db[Transactions];
            var once := db[Transactions := t.(rows := FillNulls(t.rows, TransferPeer, Int(0)))];
            && WellFormed(once) && Transactions in once
            && TransferPeer in DataColumns(once[Transactions].columns) && once[Transactions].uniques == []
  {
    var t := db[Transactions];
    var rows := FillNulls(t.rows, TransferPeer, Int(0));
    FillNullsKeepsNotNull(t.columns, t.rows, TransferPeer, Int(0));
    FillNullsKeepsWellFormed(t, TransferPeer, Int(0));
    UpdateKeepsWellFormed(db, Transactions, t.(rows := rows));
  }

  /** Version 25 is idempotent: running it on its own result changes nothing. */
  lemma Step25Idempotent(db: Db, rescale: Value -> Value)
    requires WellFormed(db) && Transactions in db
    requires TransferPeer in DataColumns(db[Transactions].columns) && db[Transactions].uniques == []
    ensures var once := Step25(db, rescale).db;
            Step25(once, rescale) == Run(once, Done)
  {
    var t := db[Transactions];
    var rows := FillNulls(t.rows, TransferPeer, Int(0));
    var once := db[Transactions := t.(rows := rows)];
    Step25Runs(db, rescale);
    Step25ResultReady(db);
    Step25Runs(once, rescale);
    FillNullsTwice(t.rows, TransferPeer, Int(0));
    assert once[Transactions].(rows := rows) == once[Transactions];
    assert once[Transactions := once[Transactions]] == once;
  }

  // ---- steps that add a column ----

  /**
   * `after` is `before` with column c appended: every row keeps its id and
   * values and gets c's default; constraints and id counter are unchanged.
   */
  predicate ColumnAdded(before: Table, after: Table, c: Column) {
    && after.columns == before.columns + [c]
    && after.uniques == before.uniques
    && after.nextId == before.nextId
    && |after.rows| == |before.rows|
    && forall i :: 0 <= i < |before.rows| ==>
         && after.rows[i].id == before.rows[i].id
         && Get(after.rows[i], c.name) == c.default
         && forall x :: x != c.name ==> Get(after.rows[i], x) == Get(before.rows[i], x)
  }

  /** ALTER TABLE name ADD COLUMN c: succeeds iff the table exists without a column of that name. */
  lemma AddColumnStep(db: Db, name: TableName, c: Column, rescale: Value -> Value)
    requires c.name != RowId && !(c.notNull && c.default == Null)
    ensures var r := RunAll(db, [AddColumn(name, c)], rescale);
            && (r.outcome.Done? <==> name in db && c.name !in DataColumns(db[name].columns))
            && (r.outcome.Failed? ==> r.db == db)
            && (r.outcome.Done? ==>
                  OthersUnchanged(db, r.db, {name}) && name in r.db && ColumnAdded(db[name], r.db[name], c))
  {
    RunOne(db, AddColumn(name, c), rescale);
  }

  /**
   * Version 24: `templates` gains `usages` with default 0. It succeeds iff
   * `templates` exists and has no such column; a failure changes nothing.
   */
  lemma Step24AddsUsages(db: Db, rescale: Value -> Value)
    ensures var r := Step24(db, rescale);
            && (r.outcome.Done? <==> Templates in db && Usages !in DataColumns(db[Templates].columns))
            && (r.outcome.Failed? ==> r.db == db)
            && (r.outcome.Done? ==>
                  && OthersUnchanged(db, r.db, {Templates}) && Templates in r.db
                  && ColumnAdded(db[Templates], r.db[Templates], Column(Usages, IntegerType, Int(0), false)))
  {
    AddColumnStep(db, Templates, TEMPLATES_USAGES_V24, rescale);
  }

  /** Version 26: `accounts` gains `color` with default -6697984, on the same terms. */
  lemma Step26AddsColor(db: Db, rescale: Value -> Value)
    ensures var r := Step26(db, rescale);
            && (r.outcome.Done? <==> Accounts in db && Color !in DataColumns(db[Accounts].columns))
            && (r.outcome.Failed? ==> r.db == db)
            && (r.outcome.Done? ==>
                  && OthersUnchanged(db, r.db, {Accounts}) && Accounts in r.db
                  && ColumnAdded(db[Accounts], r.db[Accounts], Column(Color, IntegerType, Int(-6697984), false)))
  {
    AddColumnStep(db, Accounts, ACCOUNTS_COLOR_V26, rescale);
  }

  /** Version 19: `expenses` gains a text `transfer_peer` column, NULL in every row. */
  lemma Step19AddsTransferPeer(db: Db, rescale: Value -> Value)
    ensures var r := Step19(db, rescale);
            && (r.outcome.Done? <==> Expenses in db && TransferPeer !in DataColumns(db[Expenses].columns))
            && (r.outcome.Failed? ==> r.db == db)
            && (r.outcome.Done? ==>
                  && OthersUnchanged(db, r.db, {Expenses}) && Expenses in r.db
                  && ColumnAdded(db[Expenses], r.db[Expenses], Column(TransferPeer, TextType, Null, false)))
  {
    AddColumnStep(db, Expenses, EXPENSES_PEER_V19, rescale);
  }

  // ---- steps that create or recreate a table ----

  lemma CreateOne(db: Db, name: TableName, def: TableDef, rescale: Value -> Value)
    requires ValidDef(def)
    ensures RunAll(db, [CreateTable(name, def)], rescale)
         == if name in db then Run(db, Failed(TableExists(name))) else Run(db[name := Empty(def)], Done)
  {
    RunOne(db, CreateTable(name, def), rescale);
  }

  /** Version 17: `accounts` must exist; it is dropped and recreated empty, its rows discarded. */
  lemma Step17RecreatesAccounts(db: Db, rescale: Value -> Value)
    ensures Step17(db, rescale)
         == if Accounts in db then Run(db[Accounts := Empty(ACCOUNTS_LEGACY)], Done)
            else Run(db, Failed(NoSuchTable(Accounts)))
  {
    AccountsLegacyValid();
    RunTwo(db, DropTable(Accounts), CreateTable(Accounts, ACCOUNTS_LEGACY), rescale);
    if Accounts in db {
      assert (db - {Accounts})[Accounts := Empty(ACCOUNTS_LEGACY)] == db[Accounts := Empty(ACCOUNTS_LEGACY)];
    }
  }

  /**
   * Version 18: creates the empty `payee` table, then gives `expenses` a
   * `payee` column, NULL in every row. If the second statement fails the
   * new table stays.
   */
  lemma Step18AddsPayees(db: Db, rescale: Value -> Value)
    ensures var r := Step18(db, rescale);
            && (r.outcome.Done? <==>
                  Payees !in db && Expenses in db && Payee !in DataColumns(db[Expenses].columns))
            && (r.outcome.Done? ==>
                  && OthersUnchanged(db, r.db, {Payees, Expenses})
                  && Payees in r.db && r.db[Payees] == Empty(PAYEES_CREATE)
                  && Expenses in r.db
                  && ColumnAdded(db[Expenses], r.db[Expenses], Column(Payee, TextType, Null, false)))
  {
    PayeesCreateValid();
    RunTwo(db, CreateTable(Payees, PAYEES_CREATE), AddColumn(Expenses, EXPENSES_PAYEE_V18), rescale);
    if Payees !in db {
      var made := db[Payees := Empty(PAYEES_CREATE)];
      assert Expenses in made <==> Expenses in db;
      if Expenses in db { assert made[Expenses] == db[Expenses]; }
    }
  }

  /** Version 22: creates `templates`, empty and without a unique key, unless it exists. */
  lemma Step22CreatesTemplates(db: Db, rescale: Value -> Value)
    ensures Step22(db, rescale)
         == if Templates in db then Run(db, Failed(TableExists(Templates)))
            else Run(db[Templates := Empty(TEMPLATES_V22)], Done)
  {
    TemplatesV22Valid();
    CreateOne(db, Templates, TEMPLATES_V22, rescale);
  }

  /** Version 27: creates `feature_used`, empty, unless it exists. */
  lemma Step27CreatesFeatureUsed(db: Db, rescale: Value -> Value)
    ensures Step27(db, rescale)
         == if FeatureUsed in db then Run(db, Failed(TableExists(FeatureUsed)))
            else Run(db[FeatureUsed := Empty(FEATURE_USED_CREATE)], Done)
  {
    FeatureUsedCreateValid();
    CreateOne(db, FeatureUsed, FEATURE_USED_CREATE, rescale);
  }

  // ---- version 20: expenses become transactions, accounts are rebuilt ----

  /** Every copied row of a given source satisfies the new table's NOT NULL columns. */
  predicate ExpensesCopyable(rows: seq<Record>, rescale: Value -> Value) {
    forall r <- rows :: Get(r, Comment) != Null && Get(r, Date) != Null && rescale(Get(r, Amount)) != Null
  }

  predicate AccountsCopyable(rows: seq<Record>) {
    forall r <- rows :: Get(r, Label) != Null && Get(r, Currency) != Null
  }

  /** A transactions row copied from an expenses row: the amount rescaled, the rest as it was. */
  predicate TransactionCopied(copy: Record, orig: Record, rescale: Value -> Value) {
    && Get(copy, Comment) == Get(orig, Comment)
    && Get(copy, Date) == Get(orig, Date)
    && Get(copy, Amount) == rescale(Get(orig, Amount))
    && Get(copy, CatId) == Get(orig, CatId)
    && Get(copy, AccountId) == Get(orig, AccountId)
    && Get(copy, Payee) == Get(orig, Payee)
    && Get(copy, TransferPeer) == Get(orig, TransferPeer)
  }

  /** An accounts row copied from an old accounts row: the opening balance rescaled. */
  predicate AccountCopied(copy: Record, orig: Record, rescale: Value -> Value) {
    && Get(copy, Label) == Get(orig, Label)
    && Get(copy, OpeningBalance) == rescale(Get(orig, OpeningBalance))
    && Get(copy, Description) == Get(orig, Description)
    && Get(copy, Currency) == Get(orig, Currency)
  }

  /** A table freshly built from `source`: its definition, one row per source row, ids 1, 2, ... */
  predicate BuiltFrom(t: Table, def: TableDef, source: seq<Record>) {
    && t.columns == def.columns && t.uniques == def.uniques
    && |t.rows| == |source| && t.nextId == 1 + |source|
    && forall i :: 0 <= i < |source| ==> t.rows[i].id == 1 + i
  }

  lemma TransactionsIntoFacts()
    ensures NoDuplicates(TRANSACTIONS_INTO) && |TRANSACTIONS_INTO| == |TRANSACTIONS_SELECT|
    ensures forall c <- TRANSACTIONS_INTO :: c in DataColumns(TRANSACTIONS_V20.columns)
    ensures forall j :: 0 <= j < |TRANSACTIONS_SELECT| ==> TRANSACTIONS_SELECT[j].column == TRANSACTIONS_INTO[j]
  {
    TransactionsIntoDistinct();
    TransactionsIntoColumns();
    TransactionsSelectPairs();
  }

  lemma TransactionsIntoDistinct()
    ensures NoDuplicates(TRANSACTIONS_INTO) && |TRANSACTIONS_INTO| == |TRANSACTIONS_SELECT|
  {
  }

  lemma TransactionsIntoColumns()
    ensures forall c <- TRANSACTIONS_INTO :: c in DataColumns(TRANSACTIONS_V20.columns)
  {
    var cols := TRANSACTIONS_V20.columns;
    assert forall j :: 0 <= j < |TRANSACTIONS_INTO| ==> cols[j + 1].name == TRANSACTIONS_INTO[j] != RowId;
    ListsDataColumns(cols, TRANSACTIONS_INTO);
  }

  lemma TransactionsSelectPairs()
    ensures forall j :: 0 <= j < |TRANSACTIONS_SELECT| ==> TRANSACTIONS_SELECT[j].column == TRANSACTIONS_INTO[j]
  {
  }
  lemma AccountsIntoFacts()
    ensures NoDuplicates(ACCOUNTS_INTO) && |ACCOUNTS_INTO| == |ACCOUNTS_SELECT|
    ensures forall c <- ACCOUNTS_INTO :: c in DataColumns(ACCOUNTS_LEGACY.columns)
    ensures forall j :: 0 <= j < |ACCOUNTS_SELECT| ==> ACCOUNTS_SELECT[j].column == ACCOUNTS_INTO[j]
  {
    AccountsIntoDistinct();
    AccountsIntoColumns();
    AccountsSelectPairs();
  }

  lemma AccountsIntoDistinct()
    ensures NoDuplicates(ACCOUNTS_INTO) && |ACCOUNTS_INTO| == |ACCOUNTS_SELECT|
  {
  }

  lemma AccountsIntoColumns()
    ensures forall c <- ACCOUNTS_INTO :: c in DataColumns(ACCOUNTS_LEGACY.columns)
  {
    var cols := ACCOUNTS_LEGACY.columns;
    assert forall j :: 0 <= j < |ACCOUNTS_INTO| ==> cols[j + 1].name == ACCOUNTS_INTO[j] != RowId;
    ListsDataColumns(cols, ACCOUNTS_INTO);
  }

  lemma AccountsSelectPairs()
    ensures forall j :: 0 <= j < |ACCOUNTS_SELECT| ==> ACCOUNTS_SELECT[j].column == ACCOUNTS_INTO[j]
  {
  }

  lemma TransactionRowCopied(copy: Record, orig: Record, rescale: Value -> Value)
    requires CopiedRow(copy, orig, TRANSACTIONS_INTO, TRANSACTIONS_SELECT, rescale)
    ensures TransactionCopied(copy, orig, rescale)
  {
    assert Get(copy, TRANSACTIONS_INTO[0]) == Eval(TRANSACTIONS_SELECT[0], orig, rescale);
    assert Get(copy, TRANSACTIONS_INTO[1]) == Eval(TRANSACTIONS_SELECT[1], orig, rescale);
    assert Get(copy, TRANSACTIONS_INTO[2]) == Eval(TRANSACTIONS_SELECT[2], orig, rescale);
    assert Get(copy, TRANSACTIONS_INTO[3]) == Eval(TRANSACTIONS_SELECT[3], orig, rescale);
    assert Get(copy, TRANSACTIONS_INTO[4]) == Eval(TRANSACTIONS_SELECT[4], orig, rescale);
    assert Get(copy, TRANSACTIONS_INTO[5]) == Eval(TRANSACTIONS_SELECT[5], orig, rescale);
    assert Get(copy, TRANSACTIONS_INTO[6]) == Eval(TRANSACTIONS_SELECT[6], orig, rescale);
  }

  lemma AccountRowCopied(copy: Record, orig: Record, rescale: Value -> Value)
    requires CopiedRow(copy, orig, ACCOUNTS_INTO, ACCOUNTS_SELECT, rescale)
    ensures AccountCopied(copy, orig, rescale)
  {
    assert Get(copy, ACCOUNTS_INTO[0]) == Eval(ACCOUNTS_SELECT[0], orig, rescale);
    assert Get(copy, ACCOUNTS_INTO[1]) == Eval(ACCOUNTS_SELECT[1], orig, rescale);
    assert Get(copy, ACCOUNTS_INTO[2]) == Eval(ACCOUNTS_SELECT[2], orig, rescale);
    assert Get(copy, ACCOUNTS_INTO[3]) == Eval(ACCOUNTS_SELECT[3], orig, rescale);
  }

  /** The copies meet the NOT NULL columns of the new `transactions` exactly when the source rows allow it. */
  lemma TransactionNotNull(copies: seq<Record>, source: seq<Record>, rescale: Value -> Value)
    requires |copies| == |source|
    requires forall i :: 0 <= i < |source| ==> TransactionCopied(copies[i], source[i], rescale)
    ensures NotNullHolds(TRANSACTIONS_V20.columns, copies) <==> ExpensesCopyable(source, rescale)
  {
    var cols := TRANSACTIONS_V20.columns;
    if ExpensesCopyable(source, rescale) {
      forall r, c | r in copies && c in cols && c.notNull && c.name != RowId ensures Get(r, c.name) != Null {
        var i :| 0 <= i < |copies| && copies[i] == r;
        assert source[i] in source;
      }
    }
    if NotNullHolds(cols, copies) {
      forall r | r in source
        ensures Get(r, Comment) != Null && Get(r, Date) != Null && rescale(Get(r, Amount)) != Null
      {
        var i :| 0 <= i < |source| && source[i] == r;
        assert copies[i] in copies;
        assert cols[1] in cols && cols[2] in cols && cols[3] in cols;
      }
    }
  }

  lemma AccountNotNull(copies: seq<Record>, source: seq<Record>, rescale: Value -> Value)
    requires |copies| == |source|
    requires forall i :: 0 <= i < |source| ==> AccountCopied(copies[i], source[i], rescale)
    ensures NotNullHolds(ACCOUNTS_LEGACY.columns, copies) <==> AccountsCopyable(source)
  {
    var cols := ACCOUNTS_LEGACY.columns;
    if AccountsCopyable(source) {
      forall r, c | r in copies && c in cols && c.notNull && c.name != RowId ensures Get(r, c.name) != Null {
        var i :| 0 <= i < |copies| && copies[i] == r;
        assert source[i] in source;
      }
    }
    if NotNullHolds(cols, copies) {
      forall r | r in source ensures Get(r, Label) != Null && Get(r, Currency) != Null {
        var i :| 0 <= i < |source| && source[i] == r;
        assert copies[i] in copies;
        assert cols[1] in cols && cols[4] in cols;
      }
    }
  }

  /** The copies of `source` that version 20's `transactions` receives. */
  function TransactionCopies(source: seq<Record>, rescale: Value -> Value): seq<Record> {
    Copies(Empty(TRANSACTIONS_V20), TRANSACTIONS_INTO, TRANSACTIONS_SELECT, source, rescale)
  }

  function AccountCopies(source: seq<Record>, rescale: Value -> Value): seq<Record> {
    Copies(Empty(ACCOUNTS_LEGACY), ACCOUNTS_INTO, ACCOUNTS_SELECT, source, rescale)
  }

  lemma TransactionCopiesFacts(source: seq<Record>, rescale: Value -> Value)
    ensures var t := Table(TRANSACTIONS_V20.columns, [], TransactionCopies(source, rescale), 1 + |source|);
            && BuiltFrom(t, TRANSACTIONS_V20, source)
            && (forall i :: 0 <= i < |source| ==> TransactionCopied(t.rows[i], source[i], rescale))
            && (Consistent(t) <==> ExpensesCopyable(source, rescale))
  {
    TransactionsIntoFacts();
    var copies := TransactionCopies(source, rescale);
    CopiesCopy(Empty(TRANSACTIONS_V20), TRANSACTIONS_INTO, TRANSACTIONS_SELECT, source, rescale);
    forall i | 0 <= i < |source| ensures TransactionCopied(copies[i], source[i], rescale) {
      TransactionRowCopied(copies[i], source[i], rescale);
    }
    TransactionNotNull(copies, source, rescale);
  }

  lemma AccountCopiesFacts(source: seq<Record>, rescale: Value -> Value)
    ensures var t := Table(ACCOUNTS_LEGACY.columns, [], AccountCopies(source, rescale), 1 + |source|);
            && BuiltFrom(t, ACCOUNTS_LEGACY, source)
            && (forall i :: 0 <= i < |source| ==> AccountCopied(t.rows[i], source[i], rescale))
            && (Consistent(t) <==> AccountsCopyable(source))
  {
    AccountsIntoFacts();
    var copies := AccountCopies(source, rescale);
    CopiesCopy(Empty(ACCOUNTS_LEGACY), ACCOUNTS_INTO, ACCOUNTS_SELECT, source, rescale);
    forall i | 0 <= i < |source| ensures AccountCopied(copies[i], source[i], rescale) {
      AccountRowCopied(copies[i], source[i], rescale);
    }
    AccountNotNull(copies, source, rescale);
  }

  /**
   * The first half of version 20: `expenses` becomes `transactions`, each
   * row copied with a fresh id and its amount rescaled. It fails, with a
   * constraint violation, exactly when some copy would break a NOT NULL column.
   */
  lemma Step20MovesExpenses(db: Db, rescale: Value -> Value)
    requires Expenses in db && Transactions !in db
    requires forall c <- TRANSACTIONS_INTO :: c in DataColumns(db[Expenses].columns)
    ensures var r := RunAll(db, STEP20_TRANSACTIONS, rescale);
            var source := db[Expenses].rows;
            && (r.outcome.Done? <==> ExpensesCopyable(source, rescale))
            && (r.outcome.Failed? ==> r.outcome.error == ConstraintViolation)
            && (r.outcome.Done? ==>
                  && Transactions in r.db
                  && r.db == (db - {Expenses})[Transactions := r.db[Transactions]]
                  && BuiltFrom(r.db[Transactions], TRANSACTIONS_V20, source)
                  && forall i :: 0 <= i < |source| ==> TransactionCopied(r.db[Transactions].rows[i], source[i], rescale))
  {
    TransactionsIntoFacts();
    TransactionsV20Valid();
    forall e | e in TRANSACTIONS_SELECT ensures e.column in DataColumns(db[Expenses].columns) {
      var j :| 0 <= j < |TRANSACTIONS_SELECT| && TRANSACTIONS_SELECT[j] == e;
      assert TRANSACTIONS_INTO[j] in TRANSACTIONS_INTO;
    }
    Rebuild(db, Transactions, TRANSACTIONS_V20, TRANSACTIONS_INTO, Expenses, TRANSACTIONS_SELECT, rescale);
    TransactionCopiesFacts(db[Expenses].rows, rescale);
  }

  /**
   * The second half of version 20: `accounts` is renamed away and rebuilt,
   * each row copied with a fresh id and its opening balance rescaled.
   */
  lemma Step20RebuildsAccounts(db: Db, rescale: Value -> Value)
    requires Accounts in db && AccountsOld !in db
    requires forall c <- ACCOUNTS_INTO :: c in DataColumns(db[Accounts].columns)
    ensures var r := RunAll(db, STEP20_ACCOUNTS, rescale);
            var source := db[Accounts].rows;
            && (r.outcome.Done? <==> AccountsCopyable(source))
            && (r.outcome.Failed? ==> r.outcome.error == ConstraintViolation)
            && (r.outcome.Done? ==>
                  && Accounts in r.db
                  && r.db == db[Accounts := r.db[Accounts]]
                  && BuiltFrom(r.db[Accounts], ACCOUNTS_LEGACY, source)
                  && forall i :: 0 <= i < |source| ==> AccountCopied(r.db[Accounts].rows[i], source[i], rescale))
  {
    AccountsIntoFacts();
    AccountsLegacyValid();
    forall e | e in ACCOUNTS_SELECT ensures e.column in DataColumns(db[Accounts].columns) {
      var j :| 0 <= j < |ACCOUNTS_SELECT| && ACCOUNTS_SELECT[j] == e;
      assert ACCOUNTS_INTO[j] in ACCOUNTS_INTO;
    }
    RebuildInPlace(db, Accounts, ACCOUNTS_LEGACY, ACCOUNTS_INTO, AccountsOld, ACCOUNTS_SELECT, rescale);
    AccountCopiesFacts(db[Accounts].rows, rescale);
  }

  /**
   * Version 20 as a whole: it completes exactly when both rebuilt tables
   * can hold their copies. Then `expenses` and `accounts_old` are gone,
   * `transactions` holds one fresh-id copy of each expense with the amount
   * rescaled, `accounts` one fresh-id copy of each account with the opening
   * balance rescaled, and every other table is as it was.
   */
  lemma Step20CopiesLedger(db: Db, rescale: Value -> Value)
    requires Expenses in db && Accounts in db && Transactions !in db && AccountsOld !in db
    requires forall c <- TRANSACTIONS_INTO :: c in DataColumns(db[Expenses].columns)
    requires forall c <- ACCOUNTS_INTO :: c in DataColumns(db[Accounts].columns)
    ensures var r := Step20(db, rescale);
            var expenses := db[Expenses].rows;
            var accounts := db[Accounts].rows;
            && (r.outcome.Done? <==> ExpensesCopyable(expenses, rescale) && AccountsCopyable(accounts))
            && (r.outcome.Failed? ==> r.outcome.error == ConstraintViolation)
            && (r.outcome.Done? ==>
                  && Expenses !in r.db && AccountsOld !in r.db
                  && OthersUnchanged(db, r.db, {Expenses, Transactions, Accounts})
                  && Transactions in r.db && Accounts in r.db
                  && BuiltFrom(r.db[Transactions], TRANSACTIONS_V20, expenses)
                  && (forall i :: 0 <= i < |expenses| ==> TransactionCopied(r.db[Transactions].rows[i], expenses[i], rescale))
                  && BuiltFrom(r.db[Accounts], ACCOUNTS_LEGACY, accounts)
                  && forall i :: 0 <= i < |accounts| ==> AccountCopied(r.db[Accounts].rows[i], accounts[i], rescale))
  {
    RunAllConcat(db, STEP20_TRANSACTIONS, STEP20_ACCOUNTS, rescale);
    Step20MovesExpenses(db, rescale);
    var moved := RunAll(db, STEP20_TRANSACTIONS, rescale);
    if moved.outcome.Done? {
      assert moved.db[Accounts] == db[Accounts];
      Step20RebuildsAccounts(moved.db, rescale);
    }
  }

  // ---- version 21: payment methods ----

  lemma Step21Creates(db: Db, rescale: Value -> Value)
    ensures var r := RunAll(db, STEP21_CREATE, rescale);
            && (r.outcome.Done? <==> PaymentMethods !in db && AccountTypeMethods !in db)
            && (r.outcome.Done? ==>
                  r.db == db[PaymentMethods := Empty(PAYMENT_METHODS_CREATE)][AccountTypeMethods := Empty(ACCOUNT_TYPE_METHODS_CREATE)])
  {
    PaymentMethodsCreateValid();
    AccountTypeMethodsCreateValid();
    RunTwo(db, CreateTable(PaymentMethods, PAYMENT_METHODS_CREATE),
           CreateTable(AccountTypeMethods, ACCOUNT_TYPE_METHODS_CREATE), rescale);
  }

  /** The store once version 21 has created and seeded the two payment-method tables. */
  lemma Step21Seeds(db: Db, pms: seq<PreDefined>)
    requires WellFormed(db) && PaymentMethods !in db && AccountTypeMethods !in db
    ensures var created := db[PaymentMethods := Empty(PAYMENT_METHODS_CREATE)][AccountTypeMethods := Empty(ACCOUNT_TYPE_METHODS_CREATE)];
            Seed(created, pms)
            == created[PaymentMethods := Table(PAYMENT_METHODS_CREATE.columns, [], MethodRows(1, pms), 1 + |pms|)]
                      [AccountTypeMethods := Table(ACCOUNT_TYPE_METHODS_CREATE.columns, ACCOUNT_TYPE_METHODS_CREATE.uniques,
                                                   BankRows(1, 1, |pms|), 1 + |pms|)]
  {
    PaymentMethodsCreateValid();
    AccountTypeMethodsCreateValid();
    EmptyWellFormed(PAYMENT_METHODS_CREATE);
    EmptyWellFormed(ACCOUNT_TYPE_METHODS_CREATE);
    var half := db[PaymentMethods := Empty(PAYMENT_METHODS_CREATE)];
    UpdateKeepsWellFormed(db, PaymentMethods, Empty(PAYMENT_METHODS_CREATE));
    UpdateKeepsWellFormed(half, AccountTypeMethods, Empty(ACCOUNT_TYPE_METHODS_CREATE));
    var created := half[AccountTypeMethods := Empty(ACCOUNT_TYPE_METHODS_CREATE)];
    SeedIntoEmpty(created, pms);
  }

  /** The two ALTER statements of version 21, run one after the other. */
  lemma Step21Alters(db: Db, rescale: Value -> Value)
    ensures var r := RunAll(db, STEP21_ALTER, rescale);
            && (r.outcome.Done? <==>
                  && Transactions in db && MethodId !in DataColumns(db[Transactions].columns)
                  && Accounts in db && Type !in DataColumns(db[Accounts].columns))
            && (r.outcome.Done? ==>
                  && OthersUnchanged(db, r.db, {Transactions, Accounts})
                  && Transactions in r.db && ColumnAdded(db[Transactions], r.db[Transactions], TRANSACTIONS_METHOD_V21)
                  && Accounts in r.db && ColumnAdded(db[Accounts], r.db[Accounts], ACCOUNTS_TYPE_V21))
  {
    RunTwo(db, AddColumn(Transactions, TRANSACTIONS_METHOD_V21), AddColumn(Accounts, ACCOUNTS_TYPE_V21), rescale);
    AddColumnStep(db, Transactions, TRANSACTIONS_METHOD_V21, rescale);
    RunOne(db, AddColumn(Transactions, TRANSACTIONS_METHOD_V21), rescale);
    var altered := Execute(db, AddColumn(Transactions, TRANSACTIONS_METHOD_V21), rescale);
    AddColumnStep(altered.db, Accounts, ACCOUNTS_TYPE_V21, rescale);
    RunOne(altered.db, AddColumn(Accounts, ACCOUNTS_TYPE_V21), rescale);
  }

  /**
   * Version 21: `paymentmethods` and `accounttype_paymentmethod` are
   * created and seeded with one method row and one BANK link per predefined
   * method, then `transactions` gains `payment_method_id` (text, default
   * 'CASH') and `accounts` gains `type` (text, default 'CASH'). It completes
   * exactly when the two new tables are absent and the two altered ones
   * exist without those columns.
   */
  lemma Step21AddsPaymentMethods(db: Db, pms: seq<PreDefined>, rescale: Value -> Value)
    requires WellFormed(db)
    ensures var r := Step21(db, pms, rescale);
            && (r.outcome.Done? <==>
                  && PaymentMethods !in db && AccountTypeMethods !in db
                  && Transactions in db && MethodId !in DataColumns(db[Transactions].columns)
                  && Accounts in db && Type !in DataColumns(db[Accounts].columns))
            && (r.outcome.Done? ==>
                  && OthersUnchanged(db, r.db, {PaymentMethods, AccountTypeMethods, Transactions, Accounts})
                  && PaymentMethods in r.db && AccountTypeMethods in r.db
                  && r.db[PaymentMethods] == Table(PAYMENT_METHODS_CREATE.columns, [], MethodRows(1, pms), 1 + |pms|)
                  && r.db[AccountTypeMethods]
                     == Table(ACCOUNT_TYPE_METHODS_CREATE.columns, ACCOUNT_TYPE_METHODS_CREATE.uniques, BankRows(1, 1, |pms|), 1 + |pms|)
                  && Transactions in r.db && ColumnAdded(db[Transactions], r.db[Transactions], TRANSACTIONS_METHOD_V21)
                  && Accounts in r.db && ColumnAdded(db[Accounts], r.db[Accounts], ACCOUNTS_TYPE_V21))
  {
    Step21Creates(db, rescale);
    if PaymentMethods !in db && AccountTypeMethods !in db {
      var seeded := Seeded21(db, pms);
      Step21Unfold(db, pms, rescale);
      Step21Seeds(db, pms);
      assert Step21(db, pms, rescale) == RunAll(seeded, STEP21_ALTER, rescale);
      Seeded21Facts(db, pms);
      Step21Alters(seeded, rescale);
      var r := RunAll(seeded, STEP21_ALTER, rescale);
      if r.outcome.Done? {
        OthersUnchangedCompose(db, seeded, r.db, {PaymentMethods, AccountTypeMethods}, {Transactions, Accounts});
        Untouched(seeded, r.db, {Transactions, Accounts}, PaymentMethods);
        Untouched(seeded, r.db, {Transactions, Accounts}, AccountTypeMethods);
      }
    }
  }

  /** The store once version 21 has created and seeded the two payment-method tables. */
  function Seeded21(db: Db, pms: seq<PreDefined>): Db {
    db[PaymentMethods := Empty(PAYMENT_METHODS_CREATE)][AccountTypeMethods := Empty(ACCOUNT_TYPE_METHODS_CREATE)]
      [PaymentMethods := Table(PAYMENT_METHODS_CREATE.columns, [], MethodRows(1, pms), 1 + |pms|)]
      [AccountTypeMethods := Table(ACCOUNT_TYPE_METHODS_CREATE.columns, ACCOUNT_TYPE_METHODS_CREATE.uniques,
                                   BankRows(1, 1, |pms|), 1 + |pms|)]
  }

  lemma Step21Unfold(db: Db, pms: seq<PreDefined>, rescale: Value -> Value)
    requires PaymentMethods !in db && AccountTypeMethods !in db
    ensures Step21(db, pms, rescale)
         == RunAll(Seed(db[PaymentMethods := Empty(PAYMENT_METHODS_CREATE)][AccountTypeMethods := Empty(ACCOUNT_TYPE_METHODS_CREATE)], pms),
                   STEP21_ALTER, rescale)
  {
    Step21Creates(db, rescale);
  }

  lemma Seeded21Facts(db: Db, pms: seq<PreDefined>)
    ensures var s := Seeded21(db, pms);
            && OthersUnchanged(db, s, {PaymentMethods, AccountTypeMethods})
            && PaymentMethods in s && AccountTypeMethods in s
            && s[PaymentMethods] == Table(PAYMENT_METHODS_CREATE.columns, [], MethodRows(1, pms), 1 + |pms|)
            && s[AccountTypeMethods]
               == Table(ACCOUNT_TYPE_METHODS_CREATE.columns, ACCOUNT_TYPE_METHODS_CREATE.uniques, BankRows(1, 1, |pms|), 1 + |pms|)
            && (Transactions in s <==> Transactions in db) && (Transactions in db ==> s[Transactions] == db[Transactions])
            && (Accounts in s <==> Accounts in db) && (Accounts in db ==> s[Accounts] == db[Accounts])
  {
  }

  lemma Untouched(before: Db, after: Db, touched: set<TableName>, n: TableName)
    requires OthersUnchanged(before, after, touched) && n !in touched && n in before
    ensures n in after && after[n] == before[n]
  {
  }

  lemma OthersUnchangedCompose(a: Db, b: Db, c: Db, s1: set<TableName>, s2: set<TableName>)
    requires OthersUnchanged(a, b, s1) && OthersUnchanged(b, c, s2)
    ensures OthersUnchanged(a, c, s1 + s2)
  {
  }

  // ---- version 23: templates rebuilt under unique(account_id, title) ----

  const TEMPLATE_KEY := [AccountId, Title]

  /** The old templates fit the rebuilt table: NOT NULL columns filled, no two share an account and title. */
  predicate TemplatesCopyable(rows: seq<Record>) {
    && (forall r <- rows :: Get(r, Comment) != Null && Get(r, Amount) != Null && Get(r, Title) != Null)
    && forall i, j :: 0 <= i < j < |rows| ==> !Clash(rows[i], rows[j], TEMPLATE_KEY)
  }

  /** A template copied unchanged, column by column. */
  predicate TemplateCopied(copy: Record, orig: Record) {
    && Get(copy, Comment) == Get(orig, Comment)
    && Get(copy, Amount) == Get(orig, Amount)
    && Get(copy, CatId) == Get(orig, CatId)
    && Get(copy, AccountId) == Get(orig, AccountId)
    && Get(copy, Payee) == Get(orig, Payee)
    && Get(copy, TransferPeer) == Get(orig, TransferPeer)
    && Get(copy, MethodId) == Get(orig, MethodId)
    && Get(copy, Title) == Get(orig, Title)
  }

  function TemplateCopies(source: seq<Record>, rescale: Value -> Value): seq<Record> {
    Copies(Empty(TEMPLATES_V23), TEMPLATES_INTO, TEMPLATES_SELECT, source, rescale)
  }

  lemma TemplatesIntoFacts()
    ensures NoDuplicates(TEMPLATES_INTO) && |TEMPLATES_INTO| == |TEMPLATES_SELECT|
    ensures forall c <- TEMPLATES_INTO :: c in DataColumns(TEMPLATES_V23.columns)
    ensures forall j :: 0 <= j < |TEMPLATES_SELECT| ==> TEMPLATES_SELECT[j] == Col(TEMPLATES_INTO[j])
  {
    TemplatesIntoDistinct();
    TemplatesIntoColumns();
    TemplatesSelectPairs();
  }

  lemma TemplatesIntoDistinct()
    ensures NoDuplicates(TEMPLATES_INTO) && |TEMPLATES_INTO| == |TEMPLATES_SELECT|
  {
  }

  lemma TemplatesIntoColumns()
    ensures forall c <- TEMPLATES_INTO :: c in DataColumns(TEMPLATES_V23.columns)
  {
    var cols := TEMPLATES_V23.columns;
    assert forall j :: 0 <= j < |TEMPLATES_INTO| ==> cols[j + 1].name == TEMPLATES_INTO[j] != RowId;
    ListsDataColumns(cols, TEMPLATES_INTO);
  }

  lemma TemplatesSelectPairs()
    ensures forall j :: 0 <= j < |TEMPLATES_SELECT| ==> TEMPLATES_SELECT[j] == Col(TEMPLATES_INTO[j])
  {
  }

  lemma TemplateRowCopied(copy: Record, orig: Record, rescale: Value -> Value)
    requires CopiedRow(copy, orig, TEMPLATES_INTO, TEMPLATES_SELECT, rescale)
    ensures TemplateCopied(copy, orig)
  {
    assert Get(copy, TEMPLATES_INTO[0]) == Eval(TEMPLATES_SELECT[0], orig, rescale);
    assert Get(copy, TEMPLATES_INTO[1]) == Eval(TEMPLATES_SELECT[1], orig, rescale);
    assert Get(copy, TEMPLATES_INTO[2]) == Eval(TEMPLATES_SELECT[2], orig, rescale);
    assert Get(copy, TEMPLATES_INTO[3]) == Eval(TEMPLATES_SELECT[3], orig, rescale);
    assert Get(copy, TEMPLATES_INTO[4]) == Eval(TEMPLATES_SELECT[4], orig, rescale);
    assert Get(copy, TEMPLATES_INTO[5]) == Eval(TEMPLATES_SELECT[5], orig, rescale);
    assert Get(copy, TEMPLATES_INTO[6]) == Eval(TEMPLATES_SELECT[6], orig, rescale);
    assert Get(copy, TEMPLATES_INTO[7]) == Eval(TEMPLATES_SELECT[7], orig, rescale);
  }

  lemma TemplateNotNull(copies: seq<Record>, source: seq<Record>)
    requires |copies| == |source|
    requires forall i :: 0 <= i < |source| ==> TemplateCopied(copies[i], source[i])
    ensures NotNullHolds(TEMPLATES_V23.columns, copies)
        <==> forall r <- source :: Get(r, Comment) != Null && Get(r, Amount) != Null && Get(r, Title) != Null
  {
    var cols := TEMPLATES_V23.columns;
    if forall r <- source :: Get(r, Comment) != Null && Get(r, Amount) != Null && Get(r, Title) != Null {
      forall r, c | r in copies && c in cols && c.notNull && c.name != RowId ensures Get(r, c.name) != Null {
        var i :| 0 <= i < |copies| && copies[i] == r;
        assert source[i] in source;
      }
    }
    if NotNullHolds(cols, copies) {
      forall r | r in source ensures Get(r, Comment) != Null && Get(r, Amount) != Null && Get(r, Title) != Null {
        var i :| 0 <= i < |source| && source[i] == r;
        assert copies[i] in copies;
        assert cols[1] in cols && cols[2] in cols && cols[8] in cols;
      }
    }
  }

  lemma TemplateUnique(copies: seq<Record>, source: seq<Record>)
    requires |copies| == |source|
    requires forall i :: 0 <= i < |source| ==> TemplateCopied(copies[i], source[i])
    ensures UniqueHolds([TEMPLATE_KEY], copies) <==> forall i, j :: 0 <= i < j < |source| ==> !Clash(source[i], source[j], TEMPLATE_KEY)
  {
    forall i, j | 0 <= i < |source| && 0 <= j < |source|
      ensures Clash(copies[i], copies[j], TEMPLATE_KEY) == Clash(source[i], source[j], TEMPLATE_KEY)
    {
    }
    assert [TEMPLATE_KEY][0] == TEMPLATE_KEY;
  }

  lemma TemplateCopiesFacts(source: seq<Record>, rescale: Value -> Value)
    ensures var t := Table(TEMPLATES_V23.columns, TEMPLATES_V23.uniques, TemplateCopies(source, rescale), 1 + |source|);
            && BuiltFrom(t, TEMPLATES_V23, source)
            && (forall i :: 0 <= i < |source| ==> TemplateCopied(t.rows[i], source[i]))
            && (Consistent(t) <==> TemplatesCopyable(source))
  {
    TemplatesIntoFacts();
    var copies := TemplateCopies(source, rescale);
    CopiesCopy(Empty(TEMPLATES_V23), TEMPLATES_INTO, TEMPLATES_SELECT, source, rescale);
    forall i | 0 <= i < |source| ensures TemplateCopied(copies[i], source[i]) {
      TemplateRowCopied(copies[i], source[i], rescale);
    }
    TemplateNotNull(copies, source);
    TemplateUnique(copies, source);
  }

  /**
   * The copy inside version 23, run against `templates_old` and the freshly
   * created `templates`: all rows or none, and a refusal is a constraint violation.
   */
  lemma Step23Copy(db: Db, rescale: Value -> Value)
    requires Templates in db && db[Templates] == Empty(TEMPLATES_V23) && TemplatesOld in db
    requires forall c <- TEMPLATES_INTO :: c in DataColumns(db[TemplatesOld].columns)
    ensures var source := db[TemplatesOld].rows;
            var built := Table(TEMPLATES_V23.columns, TEMPLATES_V23.uniques, TemplateCopies(source, rescale), 1 + |source|);
            Execute(db, TEMPLATES_COPY, rescale)
            == if TemplatesCopyable(source) then Run(db[Templates := built], Done)
               else Run(db, Failed(ConstraintViolation))
  {
    TemplatesIntoFacts();
    forall e | e in TEMPLATES_SELECT ensures e.column in DataColumns(db[TemplatesOld].columns) {
      var j :| 0 <= j < |TEMPLATES_SELECT| && TEMPLATES_SELECT[j] == e;
      assert TEMPLATES_INTO[j] in TEMPLATES_INTO;
    }
    CopyIntoEmpty(db, Templates, TEMPLATES_V23, TEMPLATES_INTO, TemplatesOld, TEMPLATES_SELECT, rescale);
    TemplateCopiesFacts(db[TemplatesOld].rows, rescale);
  }

  /** The guarded copy either fills the new `templates` or is swallowed; `templates_old` goes either way. */
  lemma CopyAndDropResult(made: Db, rescale: Value -> Value)
    requires Templates in made && made[Templates] == Empty(TEMPLATES_V23) && TemplatesOld in made
    requires forall c <- TEMPLATES_INTO :: c in DataColumns(made[TemplatesOld].columns)
    ensures var source := made[TemplatesOld].rows;
            var built := Table(TEMPLATES_V23.columns, TEMPLATES_V23.uniques, TemplateCopies(source, rescale), 1 + |source|);
            CopyAndDrop(made, rescale) == Run(made[Templates := if TemplatesCopyable(source) then built else Empty(TEMPLATES_V23)] - {TemplatesOld}, Done)
  {
    Step23Copy(made, rescale);
  }

  /** The rename and the create of version 23 always succeed here. */
  lemma Step23Unfold(db: Db, rescale: Value -> Value)
    requires Templates in db && TemplatesOld !in db
    ensures Step23(db, rescale) == CopyAndDrop(((db - {Templates})[TemplatesOld := db[Templates]])[Templates := Empty(TEMPLATES_V23)], rescale)
  {
    TemplatesV22Valid();
    RenameThenCreate(db, Templates, TemplatesOld, TEMPLATES_V23, rescale);
  }

  lemma Step23DropAside(db: Db, made: Db, t: Table)
    requires Templates in db && TemplatesOld !in db
    requires made == ((db - {Templates})[TemplatesOld := db[Templates]])[Templates := Empty(TEMPLATES_V23)]
    ensures made[Templates := t] - {TemplatesOld} == db[Templates := t]
  {
    DropAside(db, Templates, TemplatesOld, db[Templates], t);
    assert made[Templates := t] == ((db - {Templates})[TemplatesOld := db[Templates]])[Templates := t];
  }

  /** Version 23 in closed form: `templates` replaced by its rebuilt copies, or left empty. */
  lemma Step23Result(db: Db, rescale: Value -> Value)
    requires Templates in db && TemplatesOld !in db
    requires forall c <- TEMPLATES_INTO :: c in DataColumns(db[Templates].columns)
    ensures var source := db[Templates].rows;
            var built := Table(TEMPLATES_V23.columns, TEMPLATES_V23.uniques, TemplateCopies(source, rescale), 1 + |source|);
            Step23(db, rescale) == Run(db[Templates := if TemplatesCopyable(source) then built else Empty(TEMPLATES_V23)], Done)
  {
    var made := ((db - {Templates})[TemplatesOld := db[Templates]])[Templates := Empty(TEMPLATES_V23)];
    Step23Unfold(db, rescale);
    assert made[TemplatesOld] == db[Templates];
    CopyAndDropResult(made, rescale);
    var source := db[Templates].rows;
    var built := Table(TEMPLATES_V23.columns, TEMPLATES_V23.uniques, TemplateCopies(source, rescale), 1 + |source|);
    var t := if TemplatesCopyable(source) then built else Empty(TEMPLATES_V23);
    Step23DropAside(db, made, t);
  }

  /**
   * Version 23 is all-or-nothing about the rows and always completes: when
   * the old templates fit unique(account_id, title) and the NOT NULL
   * columns, `templates` is rebuilt holding a fresh-id copy of each;
   * otherwise the constraint violation is swallowed and `templates` is left
   * empty under the new definition. Either way `templates_old` is dropped
   * and nothing else changes, so the later steps still run.
   */
  lemma Step23RebuildsTemplates(db: Db, rescale: Value -> Value)
    requires Templates in db && TemplatesOld !in db
    requires forall c <- TEMPLATES_INTO :: c in DataColumns(db[Templates].columns)
    ensures var r := Step23(db, rescale);
            var source := db[Templates].rows;
            && r.outcome == Done
            && TemplatesOld !in r.db && Templates in r.db
            && r.db == db[Templates := r.db[Templates]]
            && r.db[Templates].columns == TEMPLATE_V22_COLUMNS
            && r.db[Templates].uniques == [TEMPLATE_KEY]
            && (TemplatesCopyable(source) ==>
                  && BuiltFrom(r.db[Templates], TEMPLATES_V23, source)
                  && forall i :: 0 <= i < |source| ==> TemplateCopied(r.db[Templates].rows[i], source[i]))
            && (!TemplatesCopyable(source) ==> r.db[Templates] == Empty(TEMPLATES_V23))
  {
    Step23Result(db, rescale);
    TemplateCopiesFacts(db[Templates].rows, rescale);
  }
}
