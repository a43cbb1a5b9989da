/**
 * The table definitions the upgrade ladder leaves behind. For a store that
 * completes the ladder from below version 20, `transactions` and `accounts`
 * end with the column names their CREATE statements list in that order;
 * from below version 23, `templates` does too. The definitions are not the
 * fresh-install ones, though: a few declared types and defaults differ.
 */
module MigrationShape {
  import opened Schema
  import opened Store
  import opened Catalog
  import opened Migration
  import opened Shapes

  /** How the step with threshold k changes the shape when it completes. */
  function StepShape(k: int, sh: Shape): Shape {
    if k == 17 then ShapeRun(sh, STEP17)
    else if k == 18 then ShapeRun(sh, STEP18)
    else if k == 19 then ShapeRun(sh, STEP19)
    else if k == 20 then ShapeRun(sh, STEP20_TRANSACTIONS + STEP20_ACCOUNTS)
    else if k == 21 then ShapeRun(ShapeRun(sh, STEP21_CREATE), STEP21_ALTER)
    else if k == 22 then ShapeRun(sh, STEP22)
    else if k == 23 then ShapeExec(ShapeRun(sh, STEP23_REBUILD), DropTable(TemplatesOld))
    else if k == 24 then ShapeRun(sh, STEP24)
    else if k == 25 then ShapeRun(sh, STEP25)
    else if k == 26 then ShapeRun(sh, STEP26)
    else if k == 27 then ShapeRun(sh, STEP27)
    else sh
  }

  /** The shape after the ladder from threshold k on, for recorded version v. */
  function LadderShape(sh: Shape, v: int, k: int): Shape
    decreases LAST_STEP + 1 - k
  {
    if k > LAST_STEP then sh
    else if v < k then LadderShape(StepShape(k, sh), v, k + 1)
    else LadderShape(sh, v, k + 1)
  }

  // ---- steps and the ladder follow the shape ----

  lemma Step21Shape(db: Db, pms: seq<PreDefined>, rescale: Value -> Value)
    ensures var r := Step21(db, pms, rescale);
            r.outcome.Done? ==> ShapeOf(r.db) == ShapeRun(ShapeRun(ShapeOf(db), STEP21_CREATE), STEP21_ALTER)
  {
    var c := RunAll(db, STEP21_CREATE, rescale);
    RunAllShape(db, STEP21_CREATE, rescale);
    if c.outcome.Done? {
      SeedKeepsShape(c.db, pms);
      RunAllShape(Seed(c.db, pms), STEP21_ALTER, rescale);
    }
  }

  lemma CopyAndDropShape(db: Db, rescale: Value -> Value)
    ensures var r := CopyAndDrop(db, rescale);
            r.outcome.Done? ==> ShapeOf(r.db) == ShapeExec(ShapeOf(db), DropTable(TemplatesOld))
  {
    var c := Execute(db, TEMPLATES_COPY, rescale);
    ExecuteShape(db, TEMPLATES_COPY, rescale);
    FailedKeepsStore(db, TEMPLATES_COPY, rescale);
    ExecuteShape(c.db, DropTable(TemplatesOld), rescale);
  }

  lemma Step23Shape(db: Db, rescale: Value -> Value)
    ensures var r := Step23(db, rescale);
            r.outcome.Done? ==> ShapeOf(r.db) == ShapeExec(ShapeRun(ShapeOf(db), STEP23_REBUILD), DropTable(TemplatesOld))
  {
    var r := RunAll(db, STEP23_REBUILD, rescale);
    RunAllShape(db, STEP23_REBUILD, rescale);
    if r.outcome.Done? {
      CopyAndDropShape(r.db, rescale);
    }
  }

  /** Each step that completes changes the shape as `StepShape` says. */
  lemma StepFollowsShape(k: int, db: Db, pms: seq<PreDefined>, rescale: Value -> Value)
    ensures var r := Step(k, db, pms, rescale);
            r.outcome.Done? ==> ShapeOf(r.db) == StepShape(k, ShapeOf(db))
  {
    if k == 17 { RunAllShape(db, STEP17, rescale); }
    else if k == 18 { RunAllShape(db, STEP18, rescale); }
    else if k == 19 { RunAllShape(db, STEP19, rescale); }
    else if k == 20 { RunAllShape(db, STEP20_TRANSACTIONS + STEP20_ACCOUNTS, rescale); }
    else if k == 21 { Step21Shape(db, pms, rescale); }
    else if k == 22 { RunAllShape(db, STEP22, rescale); }
    else if k == 23 { Step23Shape(db, rescale); }
    else if k == 24 { RunAllShape(db, STEP24, rescale); }
    else if k == 25 { RunAllShape(db, STEP25, rescale); }
    else if k == 26 { RunAllShape(db, STEP26, rescale); }
    else if k == 27 { RunAllShape(db, STEP27, rescale); }
  }

  lemma {:induction false} LadderFollowsShape(db: Db, v: int, k: int, pms: seq<PreDefined>, rescale: Value -> Value)
    ensures var r := Ladder(db, v, k, Steps(pms, rescale));
            r.outcome.Done? ==> ShapeOf(r.db) == LadderShape(ShapeOf(db), v, k)
    decreases LAST_STEP + 1 - k
  {
    if k <= LAST_STEP {
      if v < k {
        var r := Steps(pms, rescale)(k, db);
        StepFollowsShape(k, db, pms, rescale);
        if r.outcome.Done? {
          LadderFollowsShape(r.db, v, k + 1, pms, rescale);
        }
      } else {
        LadderFollowsShape(db, v, k + 1, pms, rescale);
      }
    }
  }

  /** The ladder from k reaches threshold m through some intermediate shape. */
  lemma {:induction false} LadderShapeSkip(sh: Shape, v: int, k: int, m: int)
    requires k <= m <= LAST_STEP + 1
    ensures exists mid :: LadderShape(sh, v, k) == LadderShape(mid, v, m)
    decreases m - k
  {
    if k == m {
      assert LadderShape(sh, v, k) == LadderShape(sh, v, m);
    } else {
      var next := if v < k then StepShape(k, sh) else sh;
      assert LadderShape(sh, v, k) == LadderShape(next, v, k + 1);
      LadderShapeSkip(next, v, k + 1, m);
    }
  }

  // ---- the definitions steps 20 to 27 produce ----

  /** `transactions`, `accounts` and `templates` as the upgrade leaves them. */
  const UPGRADED_TRANSACTIONS := TableDef(TRANSACTIONS_V20.columns + [TRANSACTIONS_METHOD_V21], [])
  const UPGRADED_ACCOUNTS := TableDef(ACCOUNTS_LEGACY.columns + [ACCOUNTS_TYPE_V21, ACCOUNTS_COLOR_V26], [])
  const UPGRADED_TEMPLATES := TableDef(TEMPLATE_V22_COLUMNS + [TEMPLATES_USAGES_V24], [[AccountId, Title]])

  lemma Shape20(sh: Shape)
    ensures var s := StepShape(20, sh);
            && Transactions in s && s[Transactions] == TRANSACTIONS_V20
            && Accounts in s && s[Accounts] == ACCOUNTS_LEGACY
  {
    assert StepShape(20, sh) == ShapeRun(sh, STEP20_TRANSACTIONS + STEP20_ACCOUNTS);
    ShapeRunConcat(sh, STEP20_TRANSACTIONS, STEP20_ACCOUNTS);
    var t := ShapeRun(sh, STEP20_TRANSACTIONS);
    ShapeRunThree(sh, STEP20_TRANSACTIONS[0], STEP20_TRANSACTIONS[1], STEP20_TRANSACTIONS[2]);
    ShapeRunConcat(t, [RenameTable(Accounts, AccountsOld)], ACCOUNTS_REBUILD);
    ShapeRunOne(t, RenameTable(Accounts, AccountsOld));
    ShapeRunThree(ShapeExec(t, RenameTable(Accounts, AccountsOld)), ACCOUNTS_REBUILD[0], ACCOUNTS_REBUILD[1], ACCOUNTS_REBUILD[2]);
  }

  lemma Shape21(sh: Shape)
    requires Transactions in sh && Accounts in sh
    ensures var s := StepShape(21, sh);
            && Transactions in s && s[Transactions] == TableDef(sh[Transactions].columns + [TRANSACTIONS_METHOD_V21], sh[Transactions].uniques)
            && Accounts in s && s[Accounts] == TableDef(sh[Accounts].columns + [ACCOUNTS_TYPE_V21], sh[Accounts].uniques)
  {
    assert StepShape(21, sh) == ShapeRun(ShapeRun(sh, STEP21_CREATE), STEP21_ALTER);
    ShapeRunTwo(sh, STEP21_CREATE[0], STEP21_CREATE[1]);
    ShapeRunTwo(ShapeRun(sh, STEP21_CREATE), STEP21_ALTER[0], STEP21_ALTER[1]);
  }

  lemma Shape22(sh: Shape)
    ensures var s := StepShape(22, sh);
            && Templates in s && s[Templates] == TEMPLATES_V22
            && (forall n :: n != Templates ==> (n in s <==> n in sh) && (n in sh ==> s[n] == sh[n]))
  {
    assert StepShape(22, sh) == ShapeRun(sh, STEP22);
    ShapeRunOne(sh, STEP22[0]);
  }

  lemma Shape23(sh: Shape)
    ensures var s := StepShape(23, sh);
            && Templates in s && s[Templates] == TEMPLATES_V23
            && (forall n :: n != Templates && n != TemplatesOld ==> (n in s <==> n in sh) && (n in sh ==> s[n] == sh[n]))
  {
    assert StepShape(23, sh) == ShapeExec(ShapeRun(sh, STEP23_REBUILD), DropTable(TemplatesOld));
    ShapeRunTwo(sh, STEP23_REBUILD[0], STEP23_REBUILD[1]);
  }

  lemma Shape24(sh: Shape)
    requires Templates in sh
    ensures var s := StepShape(24, sh);
            && Templates in s && s[Templates] == TableDef(sh[Templates].columns + [TEMPLATES_USAGES_V24], sh[Templates].uniques)
            && (forall n :: n != Templates ==> (n in s <==> n in sh) && (n in sh ==> s[n] == sh[n]))
  {
    assert StepShape(24, sh) == ShapeRun(sh, STEP24);
    ShapeRunOne(sh, STEP24[0]);
  }

  lemma Shape25(sh: Shape)
    ensures StepShape(25, sh) == sh
  {
    assert StepShape(25, sh) == ShapeRun(sh, STEP25);
    ShapeRunOne(sh, STEP25[0]);
  }

  lemma Shape26(sh: Shape)
    ensures var s := StepShape(26, sh);
            && (Accounts in sh ==>
                  Accounts in s && s[Accounts] == TableDef(sh[Accounts].columns + [ACCOUNTS_COLOR_V26], sh[Accounts].uniques))
            && (forall n :: n != Accounts ==> (n in s <==> n in sh) && (n in sh ==> s[n] == sh[n]))
  {
    assert StepShape(26, sh) == ShapeRun(sh, STEP26);
    ShapeRunOne(sh, STEP26[0]);
  }

  lemma Shape27(sh: Shape)
    ensures var s := StepShape(27, sh);
            forall n :: n != FeatureUsed ==> (n in s <==> n in sh) && (n in sh ==> s[n] == sh[n])
  {
    assert StepShape(27, sh) == ShapeRun(sh, STEP27);
    ShapeRunOne(sh, STEP27[0]);
  }

  /** From a recorded version below 20, steps 20 to 27 all run. */
  lemma UpgradedFrom20(sh: Shape, v: int)
    requires v < 20
    ensures var f := LadderShape(sh, v, 20);
            && Transactions in f && f[Transactions] == UPGRADED_TRANSACTIONS
            && Accounts in f && f[Accounts] == UPGRADED_ACCOUNTS
  {
    var s20 := StepShape(20, sh);
    Shape20(sh);
    var s21 := StepShape(21, s20);
    Shape21(s20);
    var s22 := StepShape(22, s21);
    Shape22(s21);
    var s23 := StepShape(23, s22);
    Shape23(s22);
    var s24 := StepShape(24, s23);
    Shape24(s23);
    var s25 := StepShape(25, s24);
    Shape25(s24);
    var s26 := StepShape(26, s25);
    Shape26(s25);
    var s27 := StepShape(27, s26);
    Shape27(s26);
    assert LadderShape(sh, v, 20) == LadderShape(s20, v, 21);
    assert LadderShape(s20, v, 21) == LadderShape(s21, v, 22);
    assert LadderShape(s21, v, 22) == LadderShape(s22, v, 23);
    assert LadderShape(s22, v, 23) == LadderShape(s23, v, 24);
    assert LadderShape(s23, v, 24) == LadderShape(s24, v, 25);
    assert LadderShape(s24, v, 25) == LadderShape(s25, v, 26);
    assert LadderShape(s25, v, 26) == LadderShape(s26, v, 27);
    assert LadderShape(s26, v, 27) == s27;
  }

  /** From a recorded version below 23, steps 23 to 27 all run. */
  lemma UpgradedFrom23(sh: Shape, v: int)
    requires v < 23
    ensures var f := LadderShape(sh, v, 23);
            Templates in f && f[Templates] == UPGRADED_TEMPLATES
  {
    var s23 := StepShape(23, sh);
    Shape23(sh);
    var s24 := StepShape(24, s23);
    Shape24(s23);
    var s25 := StepShape(25, s24);
    Shape25(s24);
    var s26 := StepShape(26, s25);
    Shape26(s25);
    var s27 := StepShape(27, s26);
    Shape27(s26);
    assert LadderShape(sh, v, 23) == LadderShape(s23, v, 24);
    assert LadderShape(s23, v, 24) == LadderShape(s24, v, 25);
    assert LadderShape(s24, v, 25) == LadderShape(s25, v, 26);
    assert LadderShape(s25, v, 26) == LadderShape(s26, v, 27);
    assert LadderShape(s26, v, 27) == s27;
  }

  /**
   * A completed upgrade leaves `transactions` and `accounts` as steps 20,
   * 21 and 26 define them when it started below version 20, and
   * `templates` as steps 23 and 24 define it when it started below 23.
   */
  lemma UpgradeLeavesDefinitions(db: Db, oldVersion: int, pms: seq<PreDefined>, rescale: Value -> Value)
    requires Upgrade(db, oldVersion, pms, rescale).outcome.Done?
    ensures var f := Upgrade(db, oldVersion, pms, rescale).db;
            && (oldVersion < 20 ==>
                  && Transactions in f && Def(f[Transactions]) == UPGRADED_TRANSACTIONS
                  && Accounts in f && Def(f[Accounts]) == UPGRADED_ACCOUNTS)
            && (oldVersion < 23 ==> Templates in f && Def(f[Templates]) == UPGRADED_TEMPLATES)
  {
    var f := Upgrade(db, oldVersion, pms, rescale).db;
    LadderFollowsShape(db, oldVersion, FIRST_STEP, pms, rescale);
    if oldVersion < 20 {
      LadderShapeSkip(ShapeOf(db), oldVersion, FIRST_STEP, 20);
      var mid :| LadderShape(ShapeOf(db), oldVersion, FIRST_STEP) == LadderShape(mid, oldVersion, 20);
      UpgradedFrom20(mid, oldVersion);
    }
    if oldVersion < 23 {
      LadderShapeSkip(ShapeOf(db), oldVersion, FIRST_STEP, 23);
      var mid :| LadderShape(ShapeOf(db), oldVersion, FIRST_STEP) == LadderShape(mid, oldVersion, 23);
      UpgradedFrom23(mid, oldVersion);
    }
  }

  // ---- the upgraded definitions against the CREATE statements ----

  /** The same column names in the same order, and the same unique keys, as a fresh store. */
  lemma UpgradedNamesMatchCreate()
    ensures Names(UPGRADED_TRANSACTIONS.columns) == Names(TRANSACTIONS_CREATE.columns)
    ensures Names(UPGRADED_ACCOUNTS.columns) == Names(ACCOUNTS_CREATE.columns)
    ensures Names(UPGRADED_TEMPLATES.columns) == Names(TEMPLATES_CREATE.columns)
    ensures UPGRADED_TRANSACTIONS.uniques == TRANSACTIONS_CREATE.uniques
    ensures UPGRADED_ACCOUNTS.uniques == ACCOUNTS_CREATE.uniques
    ensures UPGRADED_TEMPLATES.uniques == TEMPLATES_CREATE.uniques
  {
    assert UPGRADED_TRANSACTIONS.columns == TRANSACTIONS_CREATE.columns[7 := PEER_V20][8 := TRANSACTIONS_METHOD_V21];
    assert UPGRADED_ACCOUNTS.columns == ACCOUNTS_CREATE.columns[6 := ACCOUNTS_COLOR_V26];
    assert UPGRADED_TEMPLATES.columns == TEMPLATES_CREATE.columns[6 := PEER_V20];
  }

  /** `transfer_peer` as the steps for versions 20 and 22 declare it: no default. */
  const PEER_V20 := Column(TransferPeer, IntegerType, Null, false)

  /**
   * Where the upgraded definitions differ from a fresh install's, and only
   * there: `transfer_peer` has no default instead of 0 in `transactions` and
   * `templates`; `payment_method_id` in `transactions` is text with default
   * 'CASH' instead of a plain integer; `color` in `accounts` defaults to
   * -6697984 instead of -3355444.
   */
  lemma UpgradedDiffersFromCreate()
    ensures UPGRADED_TRANSACTIONS.columns == TRANSACTIONS_CREATE.columns[7 := PEER_V20][8 := TRANSACTIONS_METHOD_V21]
    ensures TRANSACTIONS_CREATE.columns[7].default == Int(0) && TRANSACTIONS_CREATE.columns[8].declared == IntegerType
    ensures UPGRADED_ACCOUNTS.columns == ACCOUNTS_CREATE.columns[6 := ACCOUNTS_COLOR_V26]
    ensures ACCOUNTS_CREATE.columns[6].default == Int(-3355444)
    ensures UPGRADED_TEMPLATES.columns == TEMPLATES_CREATE.columns[6 := PEER_V20]
    ensures TEMPLATES_CREATE.columns[6].default == Int(0)
  {
  }

  /** Hence a completed upgrade from below version 20 (23 for templates) ends with the CREATE column names. */
  lemma UpgradeMatchesCreateNames(db: Db, oldVersion: int, pms: seq<PreDefined>, rescale: Value -> Value)
    requires Upgrade(db, oldVersion, pms, rescale).outcome.Done?
    ensures var f := Upgrade(db, oldVersion, pms, rescale).db;
            && (oldVersion < 20 ==>
                  && Transactions in f && Names(f[Transactions].columns) == Names(TRANSACTIONS_CREATE.columns)
                  && Accounts in f && Names(f[Accounts].columns) == Names(ACCOUNTS_CREATE.columns))
            && (oldVersion < 23 ==> Templates in f && Names(f[Templates].columns) == Names(TEMPLATES_CREATE.columns))
  {
    UpgradeLeavesDefinitions(db, oldVersion, pms, rescale);
    UpgradedNamesMatchCreate();
  }
}
