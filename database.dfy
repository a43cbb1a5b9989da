/**
 * The open helper itself: an object holding the store its database handle
 * writes to. `execSQL` and `insert` change that store in place; `onCreate`,
 * `insertDefaultPaymentMethods` and `onUpgrade` are sequences of those
 * calls, each proved to have the effect the pure model of the store gives.
 */
module Helper {
  import opened Schema
  import opened Store
  import opened StoreProps
  import opened Catalog
  import opened Migration
  import opened MigrationProps
  import opened MigrationShape
  import opened MigrationRuns

  class TransactionDatabase {
    /** The tables of the database the platform hands to the callbacks. */
    var tables: Db
    /** SQLite's CAST(ROUND(x*100) AS INTEGER), left uninterpreted. */
    const rescale: Value -> Value
    /** The constants of the `PaymentMethod.PreDefined` enumeration, in declaration order. */
    const predefined: seq<PreDefined>

    constructor (db: Db, rescale: Value -> Value, predefined: seq<PreDefined>)
      ensures tables == db && this.rescale == rescale && this.predefined == predefined
    {
      tables := db;
      this.rescale := rescale;
      this.predefined := predefined;
    }

    /** `db.execSQL(s)`: the statement takes effect, or it raises and the store is left as it was. */
    method ExecSQL(s: Stmt) returns (o: Outcome)
      modifies this
      ensures Run(tables, o) == Execute(old(tables), s, rescale)
      ensures o.Failed? ==> tables == old(tables)
    {
      var r := Execute(tables, s, rescale);
      tables := r.db;
      o := r.outcome;
    }

    /** `db.insert(target, null, values)`: the new row's id, or -1 with the store unchanged. */
    method Insert(target: TableName, values: map<ColumnName, Value>) returns (id: int)
      modifies this
      ensures Insertion(tables, id) == InsertOp(old(tables), target, values)
      ensures id == -1 ==> tables == old(tables)
    {
      var r := InsertOp(tables, target, values);
      tables := r.db;
      id := r.id;
    }

    /**
     * `insertDefaultPaymentMethods`: for each predefined method in order, a
     * payment-method row, then a BANK association row naming the id the
     * first insert returned.
     */
    method InsertDefaultPaymentMethods()
      modifies this
      ensures tables == Seed(old(tables), predefined)
      ensures WellFormed(old(tables)) && SeedReady(old(tables)) ==> tables == Seeded(old(tables), predefined)
    {
      for i := 0 to |predefined|
        invariant Seed(old(tables), predefined) == Seed(tables, predefined[i..])
      {
        assert predefined[i..][0] == predefined[i] && predefined[i..][1..] == predefined[i + 1..];
        var id := Insert(PaymentMethods, MethodValues(predefined[i]));
        var _ := Insert(AccountTypeMethods, BankValues(id));
      }
      assert predefined[|predefined|..] == [];
      if WellFormed(old(tables)) && SeedReady(old(tables)) {
        SeedAppends(old(tables), predefined);
      }
    }

    /**
     * `onCreate`: the six tables, the seeding, then `templates` and
     * `feature_used`. On the empty store the platform hands it, the
     * result is exactly the fresh store.
     */
    method OnCreate() returns (o: Outcome)
      modifies this
      ensures Run(tables, o) == Create(old(tables), predefined, rescale)
      ensures WellFormed(old(tables)) ==> WellFormed(tables)
    {
      ghost var d0 := tables;
      if WellFormed(d0) { CreateKeepsWellFormed(d0, predefined, rescale); }
      RunAllConcat(d0, CREATE_FIRST, CREATE_SECOND, rescale);
      CreateBeforeSeedSplit();
      RunThree(tables, CREATE_FIRST[0], CREATE_FIRST[1], CREATE_FIRST[2], rescale);
      o := ExecSQL(CreateTable(Transactions, TRANSACTIONS_CREATE));
      if o.Failed? { return; }
      RunTwo(tables, CREATE_FIRST[1], CREATE_FIRST[2], rescale);
      o := ExecSQL(CreateTable(Categories, CATEGORIES_CREATE));
      if o.Failed? { return; }
      o := ExecSQL(CreateTable(Accounts, ACCOUNTS_CREATE));
      if o.Failed? { return; }
      RunThree(tables, CREATE_SECOND[0], CREATE_SECOND[1], CREATE_SECOND[2], rescale);
      o := ExecSQL(CreateTable(Payees, PAYEES_CREATE));
      if o.Failed? { return; }
      RunTwo(tables, CREATE_SECOND[1], CREATE_SECOND[2], rescale);
      o := ExecSQL(CreateTable(PaymentMethods, PAYMENT_METHODS_CREATE));
      if o.Failed? { return; }
      o := ExecSQL(CreateTable(AccountTypeMethods, ACCOUNT_TYPE_METHODS_CREATE));
      if o.Failed? { return; }
      InsertDefaultPaymentMethods();
      RunTwo(tables, CREATE_AFTER_SEED[0], CREATE_AFTER_SEED[1], rescale);
      o := ExecSQL(CreateTable(Templates, TEMPLATES_CREATE));
      if o.Failed? { return; }
      o := ExecSQL(CreateTable(FeatureUsed, FEATURE_USED_CREATE));
    }

    // ---- the steps of onUpgrade, one `if` block each ----

    method UpgradeTo17() returns (o: Outcome)
      modifies this
      ensures Run(tables, o) == Step17(old(tables), rescale)
    {
      RunTwo(tables, DropTable(Accounts), CreateTable(Accounts, ACCOUNTS_LEGACY), rescale);
      o := ExecSQL(DropTable(Accounts));
      if o.Failed? { return; }
      o := ExecSQL(CreateTable(Accounts, ACCOUNTS_LEGACY));
    }

    method UpgradeTo18() returns (o: Outcome)
      modifies this
      ensures Run(tables, o) == Step18(old(tables), rescale)
    {
      RunTwo(tables, CreateTable(Payees, PAYEES_CREATE), AddColumn(Expenses, EXPENSES_PAYEE_V18), rescale);
      o := ExecSQL(CreateTable(Payees, PAYEES_CREATE));
      if o.Failed? { return; }
      o := ExecSQL(AddColumn(Expenses, EXPENSES_PAYEE_V18));
    }

    method UpgradeTo19() returns (o: Outcome)
      modifies this
      ensures Run(tables, o) == Step19(old(tables), rescale)
    {
      RunOne(tables, AddColumn(Expenses, EXPENSES_PEER_V19), rescale);
      o := ExecSQL(AddColumn(Expenses, EXPENSES_PEER_V19));
    }

    method UpgradeTo20() returns (o: Outcome)
      modifies this
      ensures Run(tables, o) == Step20(old(tables), rescale)
    {
      RunAllConcat(tables, STEP20_TRANSACTIONS, STEP20_ACCOUNTS, rescale);
      RunThree(tables, STEP20_TRANSACTIONS[0], STEP20_TRANSACTIONS[1], STEP20_TRANSACTIONS[2], rescale);
      o := ExecSQL(CreateTable(Transactions, TRANSACTIONS_V20));
      if o.Failed? { return; }
      RunTwo(tables, STEP20_TRANSACTIONS[1], STEP20_TRANSACTIONS[2], rescale);
      o := ExecSQL(InsertSelect(Transactions, TRANSACTIONS_INTO, Expenses, TRANSACTIONS_SELECT));
      if o.Failed? { return; }
      o := ExecSQL(DropTable(Expenses));
      if o.Failed? { return; }
      RunAllConcat(tables, [RenameTable(Accounts, AccountsOld)], ACCOUNTS_REBUILD, rescale);
      RunOne(tables, RenameTable(Accounts, AccountsOld), rescale);
      o := ExecSQL(RenameTable(Accounts, AccountsOld));
      if o.Failed? { return; }
      RunThree(tables, ACCOUNTS_REBUILD[0], ACCOUNTS_REBUILD[1], ACCOUNTS_REBUILD[2], rescale);
      o := ExecSQL(CreateTable(Accounts, ACCOUNTS_LEGACY));
      if o.Failed? { return; }
      RunTwo(tables, ACCOUNTS_REBUILD[1], ACCOUNTS_REBUILD[2], rescale);
      o := ExecSQL(InsertSelect(Accounts, ACCOUNTS_INTO, AccountsOld, ACCOUNTS_SELECT));
      if o.Failed? { return; }
      o := ExecSQL(DropTable(AccountsOld));
    }

    method UpgradeTo21() returns (o: Outcome)
      modifies this
      ensures Run(tables, o) == Step21(old(tables), predefined, rescale)
    {
      RunTwo(tables, STEP21_CREATE[0], STEP21_CREATE[1], rescale);
      o := ExecSQL(CreateTable(PaymentMethods, PAYMENT_METHODS_CREATE));
      if o.Failed? { return; }
      o := ExecSQL(CreateTable(AccountTypeMethods, ACCOUNT_TYPE_METHODS_CREATE));
      if o.Failed? { return; }
      InsertDefaultPaymentMethods();
      RunTwo(tables, STEP21_ALTER[0], STEP21_ALTER[1], rescale);
      o := ExecSQL(AddColumn(Transactions, TRANSACTIONS_METHOD_V21));
      if o.Failed? { return; }
      o := ExecSQL(AddColumn(Accounts, ACCOUNTS_TYPE_V21));
    }

    method UpgradeTo22() returns (o: Outcome)
      modifies this
      ensures Run(tables, o) == Step22(old(tables), rescale)
    {
      RunOne(tables, CreateTable(Templates, TEMPLATES_V22), rescale);
      o := ExecSQL(CreateTable(Templates, TEMPLATES_V22));
    }

    /** The copy raising a constraint violation is caught: the step goes on to the drop. */
    method UpgradeTo23() returns (o: Outcome)
      modifies this
      ensures Run(tables, o) == Step23(old(tables), rescale)
    {
      RunTwo(tables, STEP23_REBUILD[0], STEP23_REBUILD[1], rescale);
      o := ExecSQL(RenameTable(Templates, TemplatesOld));
      if o.Failed? { return; }
      o := ExecSQL(CreateTable(Templates, TEMPLATES_V23));
      if o.Failed? { return; }
      o := ExecSQL(TEMPLATES_COPY);
      if o.Failed? && o.error != ConstraintViolation { return; }
      o := ExecSQL(DropTable(TemplatesOld));
    }

    method UpgradeTo24() returns (o: Outcome)
      modifies this
      ensures Run(tables, o) == Step24(old(tables), rescale)
    {
      RunOne(tables, AddColumn(Templates, TEMPLATES_USAGES_V24), rescale);
      o := ExecSQL(AddColumn(Templates, TEMPLATES_USAGES_V24));
    }

    method UpgradeTo25() returns (o: Outcome)
      modifies this
      ensures Run(tables, o) == Step25(old(tables), rescale)
    {
      RunOne(tables, SetWhereNull(Transactions, TransferPeer, Int(0)), rescale);
      o := ExecSQL(SetWhereNull(Transactions, TransferPeer, Int(0)));
    }

    method UpgradeTo26() returns (o: Outcome)
      modifies this
      ensures Run(tables, o) == Step26(old(tables), rescale)
    {
      RunOne(tables, AddColumn(Accounts, ACCOUNTS_COLOR_V26), rescale);
      o := ExecSQL(AddColumn(Accounts, ACCOUNTS_COLOR_V26));
    }

    method UpgradeTo27() returns (o: Outcome)
      modifies this
      ensures Run(tables, o) == Step27(old(tables), rescale)
    {
      RunOne(tables, CreateTable(FeatureUsed, FEATURE_USED_CREATE), rescale);
      o := ExecSQL(CreateTable(FeatureUsed, FEATURE_USED_CREATE));
    }

    /**
     * `onUpgrade(db, oldVersion, newVersion)`: each step whose threshold
     * the recorded version is below, in ascending order, until one raises.
     * `newVersion` is never read. From the current version nothing changes;
     * a completed upgrade from below 20 (below 23) leaves `transactions` and
     * `accounts` (`templates`) with the column names of the CREATE statements.
     * Well-formed tables stay well formed, and from a store of a version
     * below 17 the upgrade completes exactly when every expense can be copied.
     */
    method OnUpgrade(oldVersion: int, newVersion: int) returns (o: Outcome)
      modifies this
      ensures Run(tables, o) == Upgrade(old(tables), oldVersion, predefined, rescale)
      ensures oldVersion >= DATABASE_VERSION ==> o == Done && tables == old(tables)
      ensures o.Done? && oldVersion < 20 ==>
                && Transactions in tables && Names(tables[Transactions].columns) == Names(TRANSACTIONS_CREATE.columns)
                && Accounts in tables && Names(tables[Accounts].columns) == Names(ACCOUNTS_CREATE.columns)
      ensures o.Done? && oldVersion < 23 ==>
                Templates in tables && Names(tables[Templates].columns) == Names(TEMPLATES_CREATE.columns)
      ensures WellFormed(old(tables)) ==> WellFormed(tables)
      ensures oldVersion < 17 && Pre17Store(old(tables)) ==>
                && (o.Done? <==> ExpensesCopyable(old(tables)[Expenses].rows, rescale))
                && (o.Failed? ==> o == Failed(ConstraintViolation))
    {
      ghost var d0 := tables;
      if WellFormed(d0) { UpgradeKeepsWellFormed(d0, oldVersion, predefined, rescale); }
      if oldVersion < 17 && Pre17Store(d0) { Pre17Outcome(d0, oldVersion, predefined, rescale); }
      o := UpgradeEarly(oldVersion);
      if o.Failed? { return; }
      o := UpgradeLate(oldVersion);
      assert Ladder(tables, oldVersion, 28, Steps(predefined, rescale)) == Run(tables, Done);
      if oldVersion >= DATABASE_VERSION {
        UpgradeFromCurrentIsNoOp(d0, oldVersion, predefined, rescale);
      }
      if o.Done? {
        UpgradeMatchesCreateNames(d0, oldVersion, predefined, rescale);
      }
    }

    /** The blocks for versions 17 to 22; on success the ladder goes on at 23. */
    method UpgradeEarly(oldVersion: int) returns (o: Outcome)
      modifies this
      ensures o.Failed? ==> Run(tables, o) == Ladder(old(tables), oldVersion, 17, Steps(predefined, rescale))
      ensures o.Done? ==>
                Ladder(old(tables), oldVersion, 17, Steps(predefined, rescale))
                == Ladder(tables, oldVersion, 23, Steps(predefined, rescale))
    {
      ghost var d0 := tables;
      o := Done;
      LadderNext(tables, oldVersion, 17, predefined, rescale);
      if oldVersion < 17 {
        o := UpgradeTo17();
        if o.Failed? { return; }
      }
      assert Ladder(d0, oldVersion, 17, Steps(predefined, rescale)) == Ladder(tables, oldVersion, 18, Steps(predefined, rescale));
      LadderNext(tables, oldVersion, 18, predefined, rescale);
      if oldVersion < 18 {
        o := UpgradeTo18();
        if o.Failed? { return; }
      }
      assert Ladder(d0, oldVersion, 17, Steps(predefined, rescale)) == Ladder(tables, oldVersion, 19, Steps(predefined, rescale));
      LadderNext(tables, oldVersion, 19, predefined, rescale);
      if oldVersion < 19 {
        o := UpgradeTo19();
        if o.Failed? { return; }
      }
      assert Ladder(d0, oldVersion, 17, Steps(predefined, rescale)) == Ladder(tables, oldVersion, 20, Steps(predefined, rescale));
      LadderNext(tables, oldVersion, 20, predefined, rescale);
      if oldVersion < 20 {
        o := UpgradeTo20();
        if o.Failed? { return; }
      }
      assert Ladder(d0, oldVersion, 17, Steps(predefined, rescale)) == Ladder(tables, oldVersion, 21, Steps(predefined, rescale));
      LadderNext(tables, oldVersion, 21, predefined, rescale);
      if oldVersion < 21 {
        o := UpgradeTo21();
        if o.Failed? { return; }
      }
      assert Ladder(d0, oldVersion, 17, Steps(predefined, rescale)) == Ladder(tables, oldVersion, 22, Steps(predefined, rescale));
      LadderNext(tables, oldVersion, 22, predefined, rescale);
      if oldVersion < 22 {
        o := UpgradeTo22();
        if o.Failed? { return; }
      }
      assert Ladder(d0, oldVersion, 17, Steps(predefined, rescale)) == Ladder(tables, oldVersion, 23, Steps(predefined, rescale));
    }

    /** The blocks for versions 23 to 27, the last ones of the ladder. */
    method UpgradeLate(oldVersion: int) returns (o: Outcome)
      modifies this
      ensures o.Failed? ==> Run(tables, o) == Ladder(old(tables), oldVersion, 23, Steps(predefined, rescale))
      ensures o.Done? ==>
                Ladder(old(tables), oldVersion, 23, Steps(predefined, rescale))
                == Ladder(tables, oldVersion, 28, Steps(predefined, rescale))
    {
      ghost var d0 := tables;
      o := Done;
      LadderNext(tables, oldVersion, 23, predefined, rescale);
      if oldVersion < 23 {
        o := UpgradeTo23();
        if o.Failed? { return; }
      }
      assert Ladder(d0, oldVersion, 23, Steps(predefined, rescale)) == Ladder(tables, oldVersion, 24, Steps(predefined, rescale));
      LadderNext(tables, oldVersion, 24, predefined, rescale);
      if oldVersion < 24 {
        o := UpgradeTo24();
        if o.Failed? { return; }
      }
      assert Ladder(d0, oldVersion, 23, Steps(predefined, rescale)) == Ladder(tables, oldVersion, 25, Steps(predefined, rescale));
      LadderNext(tables, oldVersion, 25, predefined, rescale);
      if oldVersion < 25 {
        o := UpgradeTo25();
        if o.Failed? { return; }
      }
      assert Ladder(d0, oldVersion, 23, Steps(predefined, rescale)) == Ladder(tables, oldVersion, 26, Steps(predefined, rescale));
      LadderNext(tables, oldVersion, 26, predefined, rescale);
      if oldVersion < 26 {
        o := UpgradeTo26();
        if o.Failed? { return; }
      }
      assert Ladder(d0, oldVersion, 23, Steps(predefined, rescale)) == Ladder(tables, oldVersion, 27, Steps(predefined, rescale));
      LadderNext(tables, oldVersion, 27, predefined, rescale);
      if oldVersion < 27 {
        o := UpgradeTo27();
        if o.Failed? { return; }
      }
      assert Ladder(d0, oldVersion, 23, Steps(predefined, rescale)) == Ladder(tables, oldVersion, 28, Steps(predefined, rescale));
    }
  }
}
