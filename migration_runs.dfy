/**
 * Which stores the whole upgrade ladder carries through. Below version 17
 * a store holds `expenses` and `accounts` and none of the tables the steps
 * create; from such a store every step runs, and the ladder completes
 * exactly when every expense can be copied into `transactions` (comment,
 * date and rescaled amount all non-NULL). Otherwise the step for version
 * 20 raises a constraint violation and the upgrade stops there.
 *
 * Every step also keeps each table well formed, so the ladder does.
 */
module MigrationRuns {
  import opened Schema
  import opened Store
  import opened StoreProps
  import opened SchemaFacts
  import opened Catalog
  import opened Migration
  import opened MigrationProps
  import opened MigrationShape

  // ---- every step keeps the store well formed ----

  lemma Step21KeepsWellFormed(db: Db, pms: seq<PreDefined>, rescale: Value -> Value)
    requires WellFormed(db)
    ensures WellFormed(Step21(db, pms, rescale).db)
  {
    RunAllKeepsWellFormed(db, STEP21_CREATE, rescale);
    var r := RunAll(db, STEP21_CREATE, rescale);
    if r.outcome.Done? {
      SeedKeepsWellFormed(r.db, pms);
      RunAllKeepsWellFormed(Seed(r.db, pms), STEP21_ALTER, rescale);
    }
  }

  lemma Step23KeepsWellFormed(db: Db, rescale: Value -> Value)
    requires WellFormed(db)
    ensures WellFormed(Step23(db, rescale).db)
  {
    RunAllKeepsWellFormed(db, STEP23_REBUILD, rescale);
    var r := RunAll(db, STEP23_REBUILD, rescale);
    if r.outcome.Done? {
      ExecKeepsWellFormed(r.db, TEMPLATES_COPY, rescale);
      var c := Execute(r.db, TEMPLATES_COPY, rescale);
      ExecKeepsWellFormed(c.db, DropTable(TemplatesOld), rescale);
    }
  }

  /** Whether it completes or raises, a step leaves every table well formed. */
  lemma StepKeepsWellFormed(k: int, db: Db, pms: seq<PreDefined>, rescale: Value -> Value)
    requires WellFormed(db)
    ensures WellFormed(Step(k, db, pms, rescale).db)
  {
    if FIRST_STEP <= k < 23 { EarlyStepKeepsWellFormed(k, db, pms, rescale); }
    else if 23 <= k <= LAST_STEP { LateStepKeepsWellFormed(k, db, rescale); }
  }

  lemma EarlyStepKeepsWellFormed(k: int, db: Db, pms: seq<PreDefined>, rescale: Value -> Value)
    requires FIRST_STEP <= k < 23 && WellFormed(db)
    ensures WellFormed(EarlyStep(k, db, pms, rescale).db)
  {
    if k == 17 { RunAllKeepsWellFormed(db, STEP17, rescale); }
    else if k == 18 { RunAllKeepsWellFormed(db, STEP18, rescale); }
    else if k == 19 { RunAllKeepsWellFormed(db, STEP19, rescale); }
    else if k == 20 { RunAllKeepsWellFormed(db, STEP20_TRANSACTIONS + STEP20_ACCOUNTS, rescale); }
    else if k == 21 { Step21KeepsWellFormed(db, pms, rescale); }
    else { RunAllKeepsWellFormed(db, STEP22, rescale); }
  }

  lemma LateStepKeepsWellFormed(k: int, db: Db, rescale: Value -> Value)
    requires 23 <= k <= LAST_STEP && WellFormed(db)
    ensures WellFormed(LateStep(k, db, rescale).db)
  {
    if k == 23 { Step23KeepsWellFormed(db, rescale); }
    else if k == 24 { RunAllKeepsWellFormed(db, STEP24, rescale); }
    else if k == 25 { RunAllKeepsWellFormed(db, STEP25, rescale); }
    else if k == 26 { RunAllKeepsWellFormed(db, STEP26, rescale); }
    else { RunAllKeepsWellFormed(db, STEP27, rescale); }
  }

  /** If every step keeps `p`, so does the ladder. */
  lemma {:induction false} LadderKeeps(db: Db, v: int, k: int, step: (int, Db) -> Run, p: Db -> bool)
    requires p(db) && forall j, d {:trigger step(j, d)} :: p(d) ==> p(step(j, d).db)
    ensures p(Ladder(db, v, k, step).db)
    decreases LAST_STEP + 1 - k
  {
    if k <= LAST_STEP {
      if v < k {
        LadderKeeps(step(k, db).db, v, k + 1, step, p);
      } else {
        LadderKeeps(db, v, k + 1, step, p);
      }
    }
  }

  /** An upgrade, whether it completes or stops at a raise, leaves every table well formed. */
  lemma UpgradeKeepsWellFormed(db: Db, oldVersion: int, pms: seq<PreDefined>, rescale: Value -> Value)
    requires WellFormed(db)
    ensures WellFormed(Upgrade(db, oldVersion, pms, rescale).db)
  {
    forall j, d | WellFormed(d)
      ensures WellFormed(Step(j, d, pms, rescale).db)
    {
      StepKeepsWellFormed(j, d, pms, rescale);
    }
    LadderKeeps(db, oldVersion, FIRST_STEP, Steps(pms, rescale), d => WellFormed(d));
  }

  // ---- the stores each step starts from ----

  predicate ReadyFor27(db: Db) {
    FeatureUsed !in db
  }

  predicate ReadyFor26(db: Db) {
    ReadyFor27(db) && Accounts in db && Color !in DataColumns(db[Accounts].columns)
  }

  /** What the steps from 25 on need: `transactions` keyless with a `transfer_peer`, `accounts` without `color`. */
  predicate ReadyFor25(db: Db) {
    && ReadyFor26(db)
    && Transactions in db && TransferPeer in DataColumns(db[Transactions].columns) && db[Transactions].uniques == []
  }

  predicate ReadyFor24(db: Db) {
    ReadyFor25(db) && Templates in db && Usages !in DataColumns(db[Templates].columns)
  }

  predicate ReadyFor23(db: Db) {
    ReadyFor25(db) && Templates in db && TemplatesOld !in db && db[Templates].columns == TEMPLATE_V22_COLUMNS
  }

  predicate ReadyFor22(db: Db) {
    ReadyFor25(db) && Templates !in db && TemplatesOld !in db
  }

  /**
   * What the steps from 21 on need: none of the tables they create,
   * `transactions` keyless with a `transfer_peer` but no `method_id`, and
   * `accounts` with neither `type` nor `color`.
   */
  predicate ReadyFor21(db: Db) {
    && PaymentMethods !in db && AccountTypeMethods !in db
    && Templates !in db && TemplatesOld !in db && FeatureUsed !in db
    && Transactions in db && db[Transactions].uniques == []
    && MethodId !in DataColumns(db[Transactions].columns) && TransferPeer in DataColumns(db[Transactions].columns)
    && Accounts in db && Type !in DataColumns(db[Accounts].columns) && Color !in DataColumns(db[Accounts].columns)
  }

  /** The version-20 definitions of `transactions` and `accounts` are what the steps from 21 on need. */
  lemma Version20Columns()
    ensures MethodId !in DataColumns(TRANSACTIONS_V20.columns) && TransferPeer in DataColumns(TRANSACTIONS_V20.columns)
    ensures TRANSACTIONS_V20.uniques == []
    ensures Type !in DataColumns(ACCOUNTS_LEGACY.columns) && Color !in DataColumns(ACCOUNTS_LEGACY.columns)
  {
    TransactionsV20Columns();
    AccountsLegacyColumns();
  }

  lemma TransactionsV20Columns()
    ensures MethodId !in DataColumns(TRANSACTIONS_V20.columns) && TransferPeer in DataColumns(TRANSACTIONS_V20.columns)
  {
    TransactionsV20Data();
  }

  lemma AccountsLegacyColumns()
    ensures Type !in DataColumns(ACCOUNTS_LEGACY.columns) && Color !in DataColumns(ACCOUNTS_LEGACY.columns)
  {
    AccountsLegacyData();
  }

  /** The version-22 columns of `templates` hold every column step 23 copies, and no `usages`. */
  lemma Version22Columns()
    ensures forall c <- TEMPLATES_INTO :: c in DataColumns(TEMPLATE_V22_COLUMNS)
    ensures Usages !in DataColumns(TEMPLATE_V22_COLUMNS)
  {
    TemplatesV22Data();
  }

  /** The tables the steps from 20 on create are all absent. */
  predicate NoLaterTables(db: Db) {
    && Transactions !in db && AccountsOld !in db
    && PaymentMethods !in db && AccountTypeMethods !in db
    && Templates !in db && TemplatesOld !in db && FeatureUsed !in db
  }

  /** The store before version 20: `expenses` with the columns the copy reads, `accounts` as version 17 left it. */
  predicate ReadyFor20(db: Db) {
    && NoLaterTables(db)
    && Expenses in db && (forall c <- TRANSACTIONS_INTO :: c in DataColumns(db[Expenses].columns))
    && Accounts in db && db[Accounts] == Empty(ACCOUNTS_LEGACY)
  }

  predicate ReadyFor19(db: Db) {
    && NoLaterTables(db)
    && Expenses in db && TransferPeer !in DataColumns(db[Expenses].columns)
    && (forall c <- [Comment, Date, Amount, CatId, AccountId, Payee] :: c in DataColumns(db[Expenses].columns))
    && Accounts in db && db[Accounts] == Empty(ACCOUNTS_LEGACY)
  }

  predicate ReadyFor18(db: Db) {
    && NoLaterTables(db) && Payees !in db
    && Expenses in db && Payee !in DataColumns(db[Expenses].columns) && TransferPeer !in DataColumns(db[Expenses].columns)
    && (forall c <- [Comment, Date, Amount, CatId, AccountId] :: c in DataColumns(db[Expenses].columns))
    && Accounts in db && db[Accounts] == Empty(ACCOUNTS_LEGACY)
  }

  // ---- each step, from the store it starts from, leaves the store the next one needs ----

  lemma Step27Ready(db: Db, rescale: Value -> Value)
    requires ReadyFor27(db)
    ensures Step27(db, rescale).outcome == Done
  {
    Step27CreatesFeatureUsed(db, rescale);
  }

  lemma Step26Ready(db: Db, rescale: Value -> Value)
    requires ReadyFor26(db)
    ensures Step26(db, rescale).outcome == Done && ReadyFor27(Step26(db, rescale).db)
  {
    Step26AddsColor(db, rescale);
    assert FeatureUsed !in Step26(db, rescale).db;
  }

  lemma Step25Ready(db: Db, rescale: Value -> Value)
    requires WellFormed(db) && ReadyFor25(db)
    ensures Step25(db, rescale).outcome == Done && ReadyFor26(Step25(db, rescale).db)
  {
    Step25NullPeersBecomeZero(db, rescale);
    var r := Step25(db, rescale);
    assert FeatureUsed !in r.db && r.db[Accounts] == db[Accounts];
  }

  lemma Step24Ready(db: Db, rescale: Value -> Value)
    requires ReadyFor24(db)
    ensures Step24(db, rescale).outcome == Done && ReadyFor25(Step24(db, rescale).db)
  {
    Step24AddsUsages(db, rescale);
    var r := Step24(db, rescale);
    assert FeatureUsed !in r.db && r.db[Accounts] == db[Accounts] && r.db[Transactions] == db[Transactions];
  }

  lemma Step23Ready(db: Db, rescale: Value -> Value)
    requires ReadyFor23(db)
    ensures Step23(db, rescale).outcome == Done && ReadyFor24(Step23(db, rescale).db)
  {
    Version22Columns();
    Step23RebuildsTemplates(db, rescale);
    ReadyAfter23(db, Step23(db, rescale).db);
  }

  lemma ReadyAfter23(db: Db, after: Db)
    requires ReadyFor23(db) && Templates in after && after == db[Templates := after[Templates]]
    requires after[Templates].columns == TEMPLATE_V22_COLUMNS
    ensures ReadyFor24(after)
  {
    Version22Columns();
    assert after[Accounts] == db[Accounts] && after[Transactions] == db[Transactions];
  }

  lemma Step22Ready(db: Db, rescale: Value -> Value)
    requires ReadyFor22(db)
    ensures Step22(db, rescale).outcome == Done && ReadyFor23(Step22(db, rescale).db)
  {
    Step22CreatesTemplates(db, rescale);
  }

  lemma Step21Ready(db: Db, pms: seq<PreDefined>, rescale: Value -> Value)
    requires WellFormed(db) && ReadyFor21(db)
    ensures Step21(db, pms, rescale).outcome == Done && ReadyFor22(Step21(db, pms, rescale).db)
  {
    Step21AddsPaymentMethods(db, pms, rescale);
    ReadyAfter21(db, Step21(db, pms, rescale).db);
  }

  lemma ReadyAfter21(db: Db, after: Db)
    requires ReadyFor21(db)
    requires OthersUnchanged(db, after, {PaymentMethods, AccountTypeMethods, Transactions, Accounts})
    requires Transactions in after && after[Transactions].columns == db[Transactions].columns + [TRANSACTIONS_METHOD_V21]
    requires after[Transactions].uniques == db[Transactions].uniques
    requires Accounts in after && after[Accounts].columns == db[Accounts].columns + [ACCOUNTS_TYPE_V21]
    ensures ReadyFor22(after)
  {
    DataColumnsAppend(db[Transactions].columns, TRANSACTIONS_METHOD_V21);
    DataColumnsAppend(db[Accounts].columns, ACCOUNTS_TYPE_V21);
    NoneAppear(db, after, {PaymentMethods, AccountTypeMethods, Transactions, Accounts}, {Templates, TemplatesOld, FeatureUsed});
  }

  /** A table the statements leave alone and that was absent is still absent. */
  lemma NoneAppear(before: Db, after: Db, touched: set<TableName>, absent: set<TableName>)
    requires OthersUnchanged(before, after, touched) && forall n <- absent :: n !in touched && n !in before
    ensures forall n <- absent :: n !in after
  {
  }

  /** The step for version 20 completes iff the expenses can be copied, and otherwise raises a constraint violation. */
  lemma Step20Ready(db: Db, rescale: Value -> Value)
    requires ReadyFor20(db)
    ensures var r := Step20(db, rescale);
            && (r.outcome == Done <==> ExpensesCopyable(db[Expenses].rows, rescale))
            && (r.outcome != Done ==> r.outcome == Failed(ConstraintViolation))
            && (r.outcome == Done ==> ReadyFor21(r.db))
  {
    AccountsIntoColumns();
    Step20CopiesLedger(db, rescale);
    var r := Step20(db, rescale);
    assert AccountsCopyable(db[Accounts].rows);
    if r.outcome.Done? {
      ReadyAfter20(db, r.db);
    }
  }

  lemma ReadyAfter20(db: Db, after: Db)
    requires NoLaterTables(db) && Expenses in db && Accounts in db
    requires OthersUnchanged(db, after, {Expenses, Transactions, Accounts})
    requires Transactions in after && BuiltFrom(after[Transactions], TRANSACTIONS_V20, db[Expenses].rows)
    requires Accounts in after && BuiltFrom(after[Accounts], ACCOUNTS_LEGACY, db[Accounts].rows)
    ensures ReadyFor21(after)
  {
    Version20Columns();
    AbsentAfter20(db, after);
  }

  lemma AbsentAfter20(db: Db, after: Db)
    requires NoLaterTables(db) && OthersUnchanged(db, after, {Expenses, Transactions, Accounts})
    ensures PaymentMethods !in after && AccountTypeMethods !in after
    ensures Templates !in after && TemplatesOld !in after && FeatureUsed !in after
  {
    NoneAppear(db, after, {Expenses, Transactions, Accounts}, {PaymentMethods, AccountTypeMethods, Templates, TemplatesOld, FeatureUsed});
  }

  /** Adding a column other than comment, date and amount keeps the expenses copyable or not. */
  lemma CopyableAfterAdd(before: Table, after: Table, c: Column, rescale: Value -> Value)
    requires ColumnAdded(before, after, c) && c.name != Comment && c.name != Date && c.name != Amount
    ensures ExpensesCopyable(after.rows, rescale) <==> ExpensesCopyable(before.rows, rescale)
  {
    if ExpensesCopyable(before.rows, rescale) {
      forall r | r in after.rows
        ensures Get(r, Comment) != Null && Get(r, Date) != Null && rescale(Get(r, Amount)) != Null
      {
        var i :| 0 <= i < |after.rows| && after.rows[i] == r;
        assert before.rows[i] in before.rows;
      }
    }
    if ExpensesCopyable(after.rows, rescale) {
      forall r | r in before.rows
        ensures Get(r, Comment) != Null && Get(r, Date) != Null && rescale(Get(r, Amount)) != Null
      {
        var i :| 0 <= i < |before.rows| && before.rows[i] == r;
        assert after.rows[i] in after.rows;
      }
    }
  }

  lemma Step19Ready(db: Db, rescale: Value -> Value)
    requires ReadyFor19(db)
    ensures var r := Step19(db, rescale);
            && r.outcome == Done && ReadyFor20(r.db)
            && (ExpensesCopyable(r.db[Expenses].rows, rescale) <==> ExpensesCopyable(db[Expenses].rows, rescale))
  {
    Step19AddsTransferPeer(db, rescale);
    ReadyAfter19(db, Step19(db, rescale).db, rescale);
  }

  lemma ReadyAfter19(db: Db, after: Db, rescale: Value -> Value)
    requires ReadyFor19(db) && OthersUnchanged(db, after, {Expenses}) && Expenses in after
    requires ColumnAdded(db[Expenses], after[Expenses], EXPENSES_PEER_V19)
    ensures ReadyFor20(after)
    ensures ExpensesCopyable(after[Expenses].rows, rescale) <==> ExpensesCopyable(db[Expenses].rows, rescale)
  {
    DataColumnsAppend(db[Expenses].columns, EXPENSES_PEER_V19);
    CopyableAfterAdd(db[Expenses], after[Expenses], EXPENSES_PEER_V19, rescale);
    assert after[Accounts] == db[Accounts];
    assert NoLaterTables(after);
  }

  lemma Step18Ready(db: Db, rescale: Value -> Value)
    requires ReadyFor18(db)
    ensures var r := Step18(db, rescale);
            && r.outcome == Done && ReadyFor19(r.db)
            && (ExpensesCopyable(r.db[Expenses].rows, rescale) <==> ExpensesCopyable(db[Expenses].rows, rescale))
  {
    Step18AddsPayees(db, rescale);
    ReadyAfter18(db, Step18(db, rescale).db, rescale);
  }

  lemma ReadyAfter18(db: Db, after: Db, rescale: Value -> Value)
    requires ReadyFor18(db) && OthersUnchanged(db, after, {Payees, Expenses}) && Expenses in after
    requires ColumnAdded(db[Expenses], after[Expenses], EXPENSES_PAYEE_V18)
    ensures ReadyFor19(after)
    ensures ExpensesCopyable(after[Expenses].rows, rescale) <==> ExpensesCopyable(db[Expenses].rows, rescale)
  {
    DataColumnsAppend(db[Expenses].columns, EXPENSES_PAYEE_V18);
    CopyableAfterAdd(db[Expenses], after[Expenses], EXPENSES_PAYEE_V18, rescale);
    assert after[Accounts] == db[Accounts];
    assert NoLaterTables(after);
  }

  // ---- the ladder, carried by an invariant indexed by the threshold ----

  /** If every step from k on carries `inv` from its threshold to the next and completes, so does the ladder. */
  lemma {:induction false} LadderCompletes(db: Db, v: int, k: int, step: (int, Db) -> Run, inv: (int, Db) -> bool)
    requires v < k && inv(k, db)
    requires forall j, d {:trigger step(j, d)} :: k <= j <= LAST_STEP && inv(j, d) ==> step(j, d).outcome == Done && inv(j + 1, step(j, d).db)
    ensures Ladder(db, v, k, step).outcome == Done
    decreases LAST_STEP + 1 - k
  {
    if k <= LAST_STEP {
      LadderCompletes(step(k, db).db, v, k + 1, step, inv);
    }
  }

  /**
   * If every step from k on, from a store satisfying `inv`, either raises
   * `e` or completes and carries `inv` to a later step, the ladder raises `e`.
   */
  lemma {:induction false} LadderRaises(db: Db, v: int, k: int, step: (int, Db) -> Run, inv: (int, Db) -> bool, e: Outcome)
    requires v < k <= LAST_STEP && inv(k, db) && e.Failed?
    requires forall j, d {:trigger step(j, d)} :: k <= j <= LAST_STEP && inv(j, d) ==>
               || step(j, d).outcome == e
               || (step(j, d).outcome == Done && j < LAST_STEP && inv(j + 1, step(j, d).db))
    ensures Ladder(db, v, k, step).outcome == e
    decreases LAST_STEP + 1 - k
  {
    var r := step(k, db);
    if r.outcome != e {
      LadderRaises(r.db, v, k + 1, step, inv, e);
    }
  }

  /** The store each step from 18 on starts from when every expense can be copied. */
  predicate ReadyAt(k: int, db: Db, rescale: Value -> Value) {
    if k == 18 then ReadyFor18(db) && ExpensesCopyable(db[Expenses].rows, rescale)
    else if k == 19 then ReadyFor19(db) && ExpensesCopyable(db[Expenses].rows, rescale)
    else if k == 20 then ReadyFor20(db) && ExpensesCopyable(db[Expenses].rows, rescale)
    else if k == 21 then ReadyFor21(db)
    else if k == 22 then ReadyFor22(db)
    else if k == 23 then ReadyFor23(db)
    else if k == 24 then ReadyFor24(db)
    else if k == 25 then ReadyFor25(db)
    else if k == 26 then ReadyFor26(db)
    else if k == 27 then ReadyFor27(db)
    else k == LAST_STEP + 1
  }

  /** The store each step from 18 to 20 starts from when some expense cannot be copied. */
  predicate DoomedAt(k: int, db: Db, rescale: Value -> Value) {
    if k == 18 then ReadyFor18(db) && !ExpensesCopyable(db[Expenses].rows, rescale)
    else if k == 19 then ReadyFor19(db) && !ExpensesCopyable(db[Expenses].rows, rescale)
    else if k == 20 then ReadyFor20(db) && !ExpensesCopyable(db[Expenses].rows, rescale)
    else false
  }

  /** From a well-formed store ready for it, a step from 18 on completes and leaves a well-formed store ready for the next. */
  lemma RungCompletes(k: int, db: Db, pms: seq<PreDefined>, rescale: Value -> Value)
    requires 18 <= k <= LAST_STEP && WellFormed(db) && ReadyAt(k, db, rescale)
    ensures var r := Step(k, db, pms, rescale);
            r.outcome == Done && WellFormed(r.db) && ReadyAt(k + 1, r.db, rescale)
  {
    StepKeepsWellFormed(k, db, pms, rescale);
    if k == 18 { Step18Ready(db, rescale); }
    else if k == 19 { Step19Ready(db, rescale); }
    else if k == 20 { Step20Ready(db, rescale); }
    else if k == 21 { Step21Ready(db, pms, rescale); }
    else if k == 22 { Step22Ready(db, rescale); }
    else if k == 23 { Step23Ready(db, rescale); }
    else if k == 24 { Step24Ready(db, rescale); }
    else if k == 25 { Step25Ready(db, rescale); }
    else if k == 26 { Step26Ready(db, rescale); }
    else { Step27Ready(db, rescale); }
  }

  /** With an expense that cannot be copied, steps 18 and 19 complete and step 20 raises a constraint violation. */
  lemma RungDooms(k: int, db: Db, pms: seq<PreDefined>, rescale: Value -> Value)
    requires DoomedAt(k, db, rescale)
    ensures var r := Step(k, db, pms, rescale);
            || r.outcome == Failed(ConstraintViolation)
            || (r.outcome == Done && k < LAST_STEP && DoomedAt(k + 1, r.db, rescale))
  {
    if k == 18 { Step18Ready(db, rescale); }
    else if k == 19 { Step19Ready(db, rescale); }
    else { Step20Ready(db, rescale); }
  }

  /**
   * From a store ready for step 18 with every threshold before it passed,
   * the ladder completes exactly when every expense can be copied, and
   * otherwise raises a constraint violation.
   */
  lemma CompletesFrom18(db: Db, v: int, pms: seq<PreDefined>, rescale: Value -> Value)
    requires v < 18 && WellFormed(db) && ReadyFor18(db)
    ensures var r := Ladder(db, v, 18, Steps(pms, rescale));
            && (r.outcome == Done <==> ExpensesCopyable(db[Expenses].rows, rescale))
            && (r.outcome != Done ==> r.outcome == Failed(ConstraintViolation))
  {
    if ExpensesCopyable(db[Expenses].rows, rescale) {
      CompletesWhenCopyable(db, v, pms, rescale);
    } else {
      RaisesWhenNotCopyable(db, v, pms, rescale);
    }
  }

  /** The invariant the ladder from 18 carries when every expense can be copied. */
  function Carried(rescale: Value -> Value): (int, Db) -> bool {
    (j: int, d: Db) => WellFormed(d) && ReadyAt(j, d, rescale)
  }

  /** The invariant the ladder from 18 carries when some expense cannot be copied. */
  function Doomed(rescale: Value -> Value): (int, Db) -> bool {
    (j: int, d: Db) => DoomedAt(j, d, rescale)
  }

  lemma CompletesWhenCopyable(db: Db, v: int, pms: seq<PreDefined>, rescale: Value -> Value)
    requires v < 18 && WellFormed(db) && ReadyAt(18, db, rescale)
    ensures Ladder(db, v, 18, Steps(pms, rescale)).outcome == Done
  {
    RungsComplete(pms, rescale);
    LadderCompletes(db, v, 18, Steps(pms, rescale), Carried(rescale));
  }

  lemma RaisesWhenNotCopyable(db: Db, v: int, pms: seq<PreDefined>, rescale: Value -> Value)
    requires v < 18 && DoomedAt(18, db, rescale)
    ensures Ladder(db, v, 18, Steps(pms, rescale)).outcome == Failed(ConstraintViolation)
  {
    RungsDoom(pms, rescale);
    LadderRaises(db, v, 18, Steps(pms, rescale), Doomed(rescale), Failed(ConstraintViolation));
  }

  /** Every step from 18 on carries `Carried` and completes. */
  lemma RungsComplete(pms: seq<PreDefined>, rescale: Value -> Value)
    ensures var step, inv := Steps(pms, rescale), Carried(rescale);
            forall j, d {:trigger step(j, d)} :: 18 <= j <= LAST_STEP && inv(j, d) ==>
              step(j, d).outcome == Done && inv(j + 1, step(j, d).db)
  {
    forall j, d | 18 <= j <= LAST_STEP && WellFormed(d) && ReadyAt(j, d, rescale)
      ensures && Step(j, d, pms, rescale).outcome == Done
              && WellFormed(Step(j, d, pms, rescale).db) && ReadyAt(j + 1, Step(j, d, pms, rescale).db, rescale)
    {
      RungCompletes(j, d, pms, rescale);
    }
  }

  /** Every step from 18 on, from a store satisfying `Doomed`, raises a constraint violation or carries `Doomed` on. */
  lemma RungsDoom(pms: seq<PreDefined>, rescale: Value -> Value)
    ensures var step, inv := Steps(pms, rescale), Doomed(rescale);
            forall j, d {:trigger step(j, d)} :: 18 <= j <= LAST_STEP && inv(j, d) ==>
              || step(j, d).outcome == Failed(ConstraintViolation)
              || (step(j, d).outcome == Done && j < LAST_STEP && inv(j + 1, step(j, d).db))
  {
    forall j, d | 18 <= j <= LAST_STEP && DoomedAt(j, d, rescale)
      ensures || Step(j, d, pms, rescale).outcome == Failed(ConstraintViolation)
              || (Step(j, d, pms, rescale).outcome == Done && j < LAST_STEP && DoomedAt(j + 1, Step(j, d, pms, rescale).db, rescale))
    {
      RungDooms(j, d, pms, rescale);
    }
  }

  // ---- the whole ladder ----

  /**
   * A store as a version below 17 left it: well formed; `expenses` has
   * comment, date, amount, cat_id and account_id but neither payee nor
   * transfer_peer; `accounts` exists; and none of the tables the steps
   * create is there yet. No step adds `account_id` to `expenses`, so the
   * store must already have it.
   */
  predicate Pre17Store(db: Db) {
    && WellFormed(db) && NoLaterTables(db) && Payees !in db
    && Expenses in db && Accounts in db
    && (forall c <- [Comment, Date, Amount, CatId, AccountId] :: c in DataColumns(db[Expenses].columns))
    && Payee !in DataColumns(db[Expenses].columns) && TransferPeer !in DataColumns(db[Expenses].columns)
  }

  /**
   * From a store of a version below 17, the upgrade completes exactly when
   * every expense has a comment, a date and an amount that rescales to a
   * non-NULL value; otherwise it stops on a constraint violation. A
   * completed upgrade then leaves `transactions`, `accounts` and
   * `templates` with the column names of their CREATE statements.
   */
  lemma UpgradeFromPre17(db: Db, oldVersion: int, pms: seq<PreDefined>, rescale: Value -> Value)
    requires oldVersion < FIRST_STEP && Pre17Store(db)
    ensures var r := Upgrade(db, oldVersion, pms, rescale);
            && (r.outcome == Done <==> ExpensesCopyable(db[Expenses].rows, rescale))
            && (r.outcome != Done ==> r.outcome == Failed(ConstraintViolation))
            && (r.outcome == Done ==>
                  && Transactions in r.db && Names(r.db[Transactions].columns) == Names(TRANSACTIONS_CREATE.columns)
                  && Accounts in r.db && Names(r.db[Accounts].columns) == Names(ACCOUNTS_CREATE.columns)
                  && Templates in r.db && Names(r.db[Templates].columns) == Names(TEMPLATES_CREATE.columns))
  {
    Pre17Outcome(db, oldVersion, pms, rescale);
    if Upgrade(db, oldVersion, pms, rescale).outcome == Done {
      UpgradeMatchesCreateNames(db, oldVersion, pms, rescale);
    }
  }

  lemma Pre17Outcome(db: Db, oldVersion: int, pms: seq<PreDefined>, rescale: Value -> Value)
    requires oldVersion < FIRST_STEP && Pre17Store(db)
    ensures var r := Upgrade(db, oldVersion, pms, rescale);
            && (r.outcome == Done <==> ExpensesCopyable(db[Expenses].rows, rescale))
            && (r.outcome != Done ==> r.outcome == Failed(ConstraintViolation))
  {
    LadderNext(db, oldVersion, 17, pms, rescale);
    Step17Ready(db, rescale);
    CompletesFrom18(Step17(db, rescale).db, oldVersion, pms, rescale);
  }

  /** Step 17 recreates `accounts` empty and leaves `expenses` as it was. */
  lemma Step17Ready(db: Db, rescale: Value -> Value)
    requires Pre17Store(db)
    ensures var r := Step17(db, rescale);
            && r.outcome == Done && WellFormed(r.db) && ReadyFor18(r.db) && r.db[Expenses] == db[Expenses]
  {
    Step17RecreatesAccounts(db, rescale);
    AccountsLegacyValid();
    EmptyWellFormed(ACCOUNTS_LEGACY);
    UpdateKeepsWellFormed(db, Accounts, Empty(ACCOUNTS_LEGACY));
    var d := db[Accounts := Empty(ACCOUNTS_LEGACY)];
    assert d[Expenses] == db[Expenses];
    assert ReadyFor18(d);
  }
}
