/**
 * Fresh-store creation: the CREATE statements in the order `onCreate`
 * issues them, with the seeding of the predefined payment methods between
 * the association table and the templates table.
 */
module Catalog {
  import opened Schema
  import opened Store
  import opened StoreProps
  import opened SchemaFacts

  /** One predefined payment method: its enum constant name and its payment type. */
  datatype PreDefined = PreDefined(name: string, paymentType: int)

  /** The account type every predefined method is restricted to. */
  const BANK := "BANK"

  function MethodValues(pm: PreDefined): map<ColumnName, Value> {
    map[Label := Text(pm.name), Type := Int(pm.paymentType)]
  }

  function BankValues(methodId: int): map<ColumnName, Value> {
    map[Type := Text(BANK), MethodRef := Int(methodId)]
  }

  /**
   * The effect of `insertDefaultPaymentMethods`: for each method in order,
   * insert its payment-method row, then a BANK association row that uses
   * the id that insert returned.
   */
  function Seed(db: Db, pms: seq<PreDefined>): Db
    decreases |pms|
  {
    if pms == [] then db
    else
      var m := InsertOp(db, PaymentMethods, MethodValues(pms[0]));
      var a := InsertOp(m.db, AccountTypeMethods, BankValues(m.id));
      Seed(a.db, pms[1..])
  }

  /** The payment-method rows seeding appends, ids counting up from `first`. */
  function MethodRows(first: nat, pms: seq<PreDefined>): seq<Record> {
    seq(|pms|, i requires 0 <= i < |pms| => Record(first + i, MethodValues(pms[i])))
  }

  /** The association rows seeding appends: the i-th refers to method id `firstMethod + i`. */
  function BankRows(first: nat, firstMethod: nat, n: nat): seq<Record> {
    seq(n, i requires 0 <= i < n => Record(first + i, BankValues(firstMethod + i)))
  }

  /**
   * Both tables exist as the CREATE statements define them, and no
   * association row already refers to a method id not yet handed out.
   */
  predicate SeedReady(db: Db) {
    && PaymentMethods in db && AccountTypeMethods in db
    && db[PaymentMethods].columns == PAYMENT_METHODS_CREATE.columns
    && db[PaymentMethods].uniques == PAYMENT_METHODS_CREATE.uniques
    && db[AccountTypeMethods].columns == ACCOUNT_TYPE_METHODS_CREATE.columns
    && db[AccountTypeMethods].uniques == ACCOUNT_TYPE_METHODS_CREATE.uniques
    && forall r <- db[AccountTypeMethods].rows ::
         !(Get(r, MethodRef).Int? && Get(r, MethodRef).i >= db[PaymentMethods].nextId)
  }

  /** The store after seeding, as a closed form. */
  function Seeded(db: Db, pms: seq<PreDefined>): Db
    requires PaymentMethods in db && AccountTypeMethods in db
  {
    var pm := db[PaymentMethods];
    var atm := db[AccountTypeMethods];
    db[PaymentMethods := pm.(rows := pm.rows + MethodRows(pm.nextId, pms), nextId := pm.nextId + |pms|)]
      [AccountTypeMethods := atm.(rows := atm.rows + BankRows(atm.nextId, pm.nextId, |pms|), nextId := atm.nextId + |pms|)]
  }

  lemma BankValuesAt(methodId: int)
    ensures forall id :: Get(Record(id, BankValues(methodId)), Type) == Text(BANK)
    ensures forall id :: Get(Record(id, BankValues(methodId)), MethodRef) == Int(methodId)
  {
  }

  function AppendRow(t: Table, values: map<ColumnName, Value>): Table {
    t.(rows := t.rows + [Record(t.nextId, values)], nextId := t.nextId + 1)
  }

  /** The driver's insert of a row that names every data column and meets the table's constraints. */
  lemma InsertChecked(db: Db, target: TableName, values: map<ColumnName, Value>)
    requires target in db && values.Keys <= DataColumns(db[target].columns)
    requires Fill(db[target].columns, values) == values
    requires Consistent(AppendRow(db[target], values))
    ensures InsertOp(db, target, values)
         == Insertion(db[target := AppendRow(db[target], values)], db[target].nextId)
  {
  }

  /** A payment-method row names both data columns. */
  lemma MethodFill(pm: PreDefined)
    ensures MethodValues(pm).Keys == DataColumns(PAYMENT_METHODS_CREATE.columns)
    ensures Fill(PAYMENT_METHODS_CREATE.columns, MethodValues(pm)) == MethodValues(pm)
  {
    PaymentMethodsCreateData();
  }

  /** An association row names both data columns. */
  lemma BankFill(methodId: int)
    ensures BankValues(methodId).Keys == DataColumns(ACCOUNT_TYPE_METHODS_CREATE.columns)
    ensures Fill(ACCOUNT_TYPE_METHODS_CREATE.columns, BankValues(methodId)) == BankValues(methodId)
  {
    AccountTypeMethodsCreateData();
  }

  lemma MethodAppendNotNull(t: Table, pm: PreDefined)
    requires t.columns == PAYMENT_METHODS_CREATE.columns && NotNullHolds(t.columns, t.rows)
    ensures NotNullHolds(t.columns, AppendRow(t, MethodValues(pm)).rows)
  {
    var t' := AppendRow(t, MethodValues(pm));
    forall r, c | r in t'.rows && c in t'.columns && c.notNull && c.name != RowId
      ensures Get(r, c.name) != Null
    {
      if r != t'.rows[|t.rows|] { assert r in t.rows; }
    }
  }

  /** Inserting a predefined method into a payment-method table as created always succeeds. */
  lemma InsertMethod(db: Db, pm: PreDefined)
    requires WellFormed(db) && PaymentMethods in db
    requires db[PaymentMethods].columns == PAYMENT_METHODS_CREATE.columns
    requires db[PaymentMethods].uniques == PAYMENT_METHODS_CREATE.uniques
    ensures InsertOp(db, PaymentMethods, MethodValues(pm))
         == Insertion(db[PaymentMethods := AppendRow(db[PaymentMethods], MethodValues(pm))], db[PaymentMethods].nextId)
  {
    var t := db[PaymentMethods];
    MethodFill(pm);
    assert WellFormedTable(t);
    MethodAppendNotNull(t, pm);
    assert UniqueHolds(t.uniques, AppendRow(t, MethodValues(pm)).rows);
    InsertChecked(db, PaymentMethods, MethodValues(pm));
  }

  lemma BankAppendUnique(t: Table, methodId: int)
    requires t.uniques == ACCOUNT_TYPE_METHODS_CREATE.uniques && UniqueHolds(t.uniques, t.rows)
    requires forall r <- t.rows :: Get(r, MethodRef) != Int(methodId)
    ensures UniqueHolds(t.uniques, AppendRow(t, BankValues(methodId)).rows)
  {
    var t' := AppendRow(t, BankValues(methodId));
    forall i, j, k | 0 <= i < j < |t'.rows| && 0 <= k < |t'.uniques|
      ensures !Clash(t'.rows[i], t'.rows[j], t'.uniques[k])
    {
      assert t'.uniques[k] == [Type, MethodRef];
      if j < |t.rows| {
        assert t'.rows[i] == t.rows[i] && t'.rows[j] == t.rows[j];
      } else {
        assert t'.rows[i] in t.rows;
        assert Get(t'.rows[j], MethodRef) == Int(methodId);
      }
    }
  }

  /** Inserting a BANK association for a method id no row uses yet always succeeds. */
  lemma InsertBank(db: Db, methodId: int)
    requires WellFormed(db) && AccountTypeMethods in db
    requires db[AccountTypeMethods].columns == ACCOUNT_TYPE_METHODS_CREATE.columns
    requires db[AccountTypeMethods].uniques == ACCOUNT_TYPE_METHODS_CREATE.uniques
    requires forall r <- db[AccountTypeMethods].rows :: Get(r, MethodRef) != Int(methodId)
    ensures InsertOp(db, AccountTypeMethods, BankValues(methodId))
         == Insertion(db[AccountTypeMethods := AppendRow(db[AccountTypeMethods], BankValues(methodId))],
                      db[AccountTypeMethods].nextId)
  {
    var t := db[AccountTypeMethods];
    BankFill(methodId);
    assert WellFormedTable(t);
    BankAppendUnique(t, methodId);
    assert NotNullHolds(t.columns, AppendRow(t, BankValues(methodId)).rows);
    InsertChecked(db, AccountTypeMethods, BankValues(methodId));
  }

  /** The store after one pass of the seeding loop, table by table. */
  function SeedStep(db: Db, pm: PreDefined): Db
    requires PaymentMethods in db && AccountTypeMethods in db
  {
    db[PaymentMethods := AppendRow(db[PaymentMethods], MethodValues(pm))]
      [AccountTypeMethods := AppendRow(db[AccountTypeMethods], BankValues(db[PaymentMethods].nextId))]
  }

  /** One pass of the seeding loop: both inserts succeed and append one row each. */
  lemma SeedOneEffect(db: Db, pm: PreDefined)
    requires WellFormed(db) && SeedReady(db)
    ensures var m := InsertOp(db, PaymentMethods, MethodValues(pm));
            && m.id == db[PaymentMethods].nextId
            && InsertOp(m.db, AccountTypeMethods, BankValues(m.id)).db == SeedStep(db, pm)
  {
    var pmt := db[PaymentMethods];
    InsertMethod(db, pm);
    var m := InsertOp(db, PaymentMethods, MethodValues(pm));
    InsertKeepsWellFormed(db, PaymentMethods, MethodValues(pm));
    assert m.db[AccountTypeMethods] == db[AccountTypeMethods];
    InsertBank(m.db, pmt.nextId);
  }

  lemma SeedOneWellFormed(db: Db, pm: PreDefined)
    requires WellFormed(db) && SeedReady(db)
    ensures WellFormed(SeedStep(db, pm))
  {
    SeedOneEffect(db, pm);
    var m := InsertOp(db, PaymentMethods, MethodValues(pm));
    InsertKeepsWellFormed(db, PaymentMethods, MethodValues(pm));
    InsertKeepsWellFormed(m.db, AccountTypeMethods, BankValues(m.id));
  }

  lemma SeededNone(db: Db)
    requires PaymentMethods in db && AccountTypeMethods in db
    ensures Seeded(db, []) == db
  {
    var pmt := db[PaymentMethods];
    var atm := db[AccountTypeMethods];
    assert pmt.rows + MethodRows(pmt.nextId, []) == pmt.rows;
    assert atm.rows + BankRows(atm.nextId, pmt.nextId, 0) == atm.rows;
  }

  lemma SeedStepReady(db: Db, pm: PreDefined)
    requires SeedReady(db)
    ensures SeedReady(SeedStep(db, pm))
  {
    var atm := db[AccountTypeMethods];
    var next := db[PaymentMethods].nextId;
    var atm' := SeedStep(db, pm)[AccountTypeMethods];
    forall r | r in atm'.rows
      ensures !(Get(r, MethodRef).Int? && Get(r, MethodRef).i >= next + 1)
    {
      if r != atm'.rows[|atm.rows|] { assert r in atm.rows; }
    }
  }

  lemma SeedStepSeeded(db: Db, pm: PreDefined)
    requires PaymentMethods in db && AccountTypeMethods in db
    ensures SeedStep(db, pm) == Seeded(db, [pm])
  {
    var pmt := db[PaymentMethods];
    var atm := db[AccountTypeMethods];
    assert MethodRows(pmt.nextId, [pm]) == [Record(pmt.nextId, MethodValues(pm))];
    assert BankRows(atm.nextId, pmt.nextId, 1) == [Record(atm.nextId, BankValues(pmt.nextId))];
  }

  /** Seeding what is already seeded further is seeding the concatenation. */
  lemma SeededTwice(db: Db, pms: seq<PreDefined>)
    requires PaymentMethods in db && AccountTypeMethods in db && pms != []
    ensures Seeded(Seeded(db, [pms[0]]), pms[1..]) == Seeded(db, pms)
  {
    var pm := pms[0];
    var rest := pms[1..];
    var pmt := db[PaymentMethods];
    var atm := db[AccountTypeMethods];
    var n := |rest|;
    var once := Seeded(db, [pm]);
    var mr := MethodRows(pmt.nextId, pms);
    var br := BankRows(atm.nextId, pmt.nextId, |pms|);
    assert MethodRows(pmt.nextId, [pm]) + MethodRows(pmt.nextId + 1, rest) == mr;
    assert BankRows(atm.nextId, pmt.nextId, 1) + BankRows(atm.nextId + 1, pmt.nextId + 1, n) == br;
    assert once[PaymentMethods] == pmt.(rows := pmt.rows + MethodRows(pmt.nextId, [pm]), nextId := pmt.nextId + 1);
    assert once[AccountTypeMethods] == atm.(rows := atm.rows + BankRows(atm.nextId, pmt.nextId, 1), nextId := atm.nextId + 1);
    assert (pmt.rows + MethodRows(pmt.nextId, [pm])) + MethodRows(pmt.nextId + 1, rest) == pmt.rows + mr;
    assert (atm.rows + BankRows(atm.nextId, pmt.nextId, 1)) + BankRows(atm.nextId + 1, pmt.nextId + 1, n) == atm.rows + br;
  }

  lemma SeedUnfold(db: Db, pms: seq<PreDefined>)
    requires WellFormed(db) && SeedReady(db) && pms != []
    ensures Seed(db, pms) == Seed(SeedStep(db, pms[0]), pms[1..])
  {
    SeedOneEffect(db, pms[0]);
  }

  lemma {:induction false} SeedAppends(db: Db, pms: seq<PreDefined>)
    requires WellFormed(db) && SeedReady(db)
    ensures Seed(db, pms) == Seeded(db, pms)
    decreases |pms|
  {
    if pms == [] {
      SeededNone(db);
    } else {
      var next := SeedStep(db, pms[0]);
      SeedUnfold(db, pms);
      SeedOneWellFormed(db, pms[0]);
      SeedStepReady(db, pms[0]);
      SeedAppends(next, pms[1..]);
      SeedStepSeeded(db, pms[0]);
      SeededTwice(db, pms);
    }
  }

  /** Seeding two empty tables leaves exactly the seeded rows in them, ids counting from 1. */
  lemma SeedIntoEmpty(db: Db, pms: seq<PreDefined>)
    requires WellFormed(db) && SeedReady(db)
    requires db[PaymentMethods].rows == [] && db[PaymentMethods].nextId == 1
    requires db[AccountTypeMethods].rows == [] && db[AccountTypeMethods].nextId == 1
    ensures Seed(db, pms)
         == db[PaymentMethods := db[PaymentMethods].(rows := MethodRows(1, pms), nextId := 1 + |pms|)]
              [AccountTypeMethods := db[AccountTypeMethods].(rows := BankRows(1, 1, |pms|), nextId := 1 + |pms|)]
  {
    SeedAppends(db, pms);
    SeededEmpty(db, pms);
  }

  lemma SeededEmpty(db: Db, pms: seq<PreDefined>)
    requires PaymentMethods in db && AccountTypeMethods in db
    requires db[PaymentMethods].rows == [] && db[PaymentMethods].nextId == 1
    requires db[AccountTypeMethods].rows == [] && db[AccountTypeMethods].nextId == 1
    ensures Seeded(db, pms)
         == db[PaymentMethods := db[PaymentMethods].(rows := MethodRows(1, pms), nextId := 1 + |pms|)]
              [AccountTypeMethods := db[AccountTypeMethods].(rows := BankRows(1, 1, |pms|), nextId := 1 + |pms|)]
  {
    assert [] + MethodRows(1, pms) == MethodRows(1, pms);
    assert [] + BankRows(1, 1, |pms|) == BankRows(1, 1, |pms|);
  }

  /** Seeding keeps every table well formed. */
  lemma {:induction false} SeedKeepsWellFormed(db: Db, pms: seq<PreDefined>)
    requires WellFormed(db)
    ensures WellFormed(Seed(db, pms))
    decreases |pms|
  {
    if pms != [] {
      var m := InsertOp(db, PaymentMethods, MethodValues(pms[0]));
      InsertKeepsWellFormed(db, PaymentMethods, MethodValues(pms[0]));
      var a := InsertOp(m.db, AccountTypeMethods, BankValues(m.id));
      InsertKeepsWellFormed(m.db, AccountTypeMethods, BankValues(m.id));
      SeedKeepsWellFormed(a.db, pms[1..]);
    }
  }

  /**
   * In the seeded store each predefined method has its own row, and its own
   * BANK association row naming that row's id; no two association rows
   * name the same method id.
   */
  lemma SeedLinksEachMethod(db: Db, pms: seq<PreDefined>, i: nat, j: nat)
    requires PaymentMethods in db && AccountTypeMethods in db
    requires i < |pms| && j < |pms| && i != j
    ensures var pmt := db[PaymentMethods];
            var atm := db[AccountTypeMethods];
            var s := Seeded(db, pms);
            && |s[PaymentMethods].rows| == |pmt.rows| + |pms|
            && |s[AccountTypeMethods].rows| == |atm.rows| + |pms|
            && s[PaymentMethods].rows[|pmt.rows| + i] == Record(pmt.nextId + i, MethodValues(pms[i]))
            && Get(s[AccountTypeMethods].rows[|atm.rows| + i], Type) == Text(BANK)
            && Get(s[AccountTypeMethods].rows[|atm.rows| + i], MethodRef) == Int(s[PaymentMethods].rows[|pmt.rows| + i].id)
            && Get(s[AccountTypeMethods].rows[|atm.rows| + i], MethodRef)
               != Get(s[AccountTypeMethods].rows[|atm.rows| + j], MethodRef)
  {
    var pmt := db[PaymentMethods];
    var atm := db[AccountTypeMethods];
    var s := Seeded(db, pms);
    assert s[PaymentMethods].rows == pmt.rows + MethodRows(pmt.nextId, pms);
    assert s[AccountTypeMethods].rows == atm.rows + BankRows(atm.nextId, pmt.nextId, |pms|);
    assert s[PaymentMethods].rows[|pmt.rows| + i] == MethodRows(pmt.nextId, pms)[i];
    assert s[AccountTypeMethods].rows[|atm.rows| + i] == BankRows(atm.nextId, pmt.nextId, |pms|)[i];
    assert s[AccountTypeMethods].rows[|atm.rows| + j] == BankRows(atm.nextId, pmt.nextId, |pms|)[j];
    BankValuesAt(pmt.nextId + i);
    BankValuesAt(pmt.nextId + j);
  }

  // ---- onCreate ----

  const CREATE_BEFORE_SEED := [
    CreateTable(Transactions, TRANSACTIONS_CREATE),
    CreateTable(Categories, CATEGORIES_CREATE),
    CreateTable(Accounts, ACCOUNTS_CREATE),
    CreateTable(Payees, PAYEES_CREATE),
    CreateTable(PaymentMethods, PAYMENT_METHODS_CREATE),
    CreateTable(AccountTypeMethods, ACCOUNT_TYPE_METHODS_CREATE)]

  const CREATE_AFTER_SEED := [
    CreateTable(Templates, TEMPLATES_CREATE),
    CreateTable(FeatureUsed, FEATURE_USED_CREATE)]

  /** `onCreate`: six tables, the seeding, then the last two tables. */
  function Create(db: Db, pms: seq<PreDefined>, rescale: Value -> Value): Run {
    var r := RunAll(db, CREATE_BEFORE_SEED, rescale);
    if r.outcome.Failed? then r else RunAll(Seed(r.db, pms), CREATE_AFTER_SEED, rescale)
  }

  /** Whether it completes or raises, creating the schema leaves every table well formed. */
  lemma CreateKeepsWellFormed(db: Db, pms: seq<PreDefined>, rescale: Value -> Value)
    requires WellFormed(db)
    ensures WellFormed(Create(db, pms, rescale).db)
  {
    RunAllKeepsWellFormed(db, CREATE_BEFORE_SEED, rescale);
    var r := RunAll(db, CREATE_BEFORE_SEED, rescale);
    if r.outcome.Done? {
      SeedKeepsWellFormed(r.db, pms);
      RunAllKeepsWellFormed(Seed(r.db, pms), CREATE_AFTER_SEED, rescale);
    }
  }

  /** A fresh store: the eight tables, empty except for the seeded payment methods. */
  function FreshStore(pms: seq<PreDefined>): Db {
    map[
      Transactions := Empty(TRANSACTIONS_CREATE),
      Categories := Empty(CATEGORIES_CREATE),
      Accounts := Empty(ACCOUNTS_CREATE),
      Payees := Empty(PAYEES_CREATE),
      PaymentMethods := Table(PAYMENT_METHODS_CREATE.columns, PAYMENT_METHODS_CREATE.uniques,
                              MethodRows(1, pms), 1 + |pms|),
      AccountTypeMethods := Table(ACCOUNT_TYPE_METHODS_CREATE.columns, ACCOUNT_TYPE_METHODS_CREATE.uniques,
                                  BankRows(1, 1, |pms|), 1 + |pms|),
      Templates := Empty(TEMPLATES_CREATE),
      FeatureUsed := Empty(FEATURE_USED_CREATE)]
  }

  /** The six tables created before seeding, still empty. */
  function BeforeSeed(): Db {
    map[
      Transactions := Empty(TRANSACTIONS_CREATE),
      Categories := Empty(CATEGORIES_CREATE),
      Accounts := Empty(ACCOUNTS_CREATE),
      Payees := Empty(PAYEES_CREATE),
      PaymentMethods := Empty(PAYMENT_METHODS_CREATE),
      AccountTypeMethods := Empty(ACCOUNT_TYPE_METHODS_CREATE)]
  }

  /** A CREATE TABLE of a new, valid definition adds the empty table and the run goes on. */
  lemma CreateStep(db: Db, name: TableName, def: TableDef, rest: seq<Stmt>, rescale: Value -> Value)
    requires name !in db && ValidDef(def)
    ensures RunAll(db, [CreateTable(name, def)] + rest, rescale) == RunAll(db[name := Empty(def)], rest, rescale)
  {
    assert ([CreateTable(name, def)] + rest)[1..] == rest;
  }

  lemma EmptyWellFormed(def: TableDef)
    requires ValidDef(def)
    ensures WellFormedTable(Empty(def))
  {
  }

  /** Creating tables under new names with valid definitions in turn adds each one, empty. */
  lemma CreateThree(db: Db, n1: TableName, d1: TableDef, n2: TableName, d2: TableDef,
                    n3: TableName, d3: TableDef, rest: seq<Stmt>, rescale: Value -> Value)
    requires n1 !in db && n2 !in db && n3 !in db && n1 != n2 && n1 != n3 && n2 != n3
    requires ValidDef(d1) && ValidDef(d2) && ValidDef(d3)
    ensures RunAll(db, [CreateTable(n1, d1), CreateTable(n2, d2), CreateTable(n3, d3)] + rest, rescale)
         == RunAll(db[n1 := Empty(d1)][n2 := Empty(d2)][n3 := Empty(d3)], rest, rescale)
  {
    var c1 := CreateTable(n1, d1);
    var c2 := CreateTable(n2, d2);
    var c3 := CreateTable(n3, d3);
    assert [c1, c2, c3] + rest == [c1] + ([c2] + ([c3] + rest));
    CreateStep(db, n1, d1, [c2] + ([c3] + rest), rescale);
    CreateStep(db[n1 := Empty(d1)], n2, d2, [c3] + rest, rescale);
    CreateStep(db[n1 := Empty(d1)][n2 := Empty(d2)], n3, d3, rest, rescale);
  }

  const CREATE_FIRST := [CreateTable(Transactions, TRANSACTIONS_CREATE), CreateTable(Categories, CATEGORIES_CREATE),
                          CreateTable(Accounts, ACCOUNTS_CREATE)]
  const CREATE_SECOND := [CreateTable(Payees, PAYEES_CREATE), CreateTable(PaymentMethods, PAYMENT_METHODS_CREATE),
                           CreateTable(AccountTypeMethods, ACCOUNT_TYPE_METHODS_CREATE)]

  lemma CreateBeforeSeedSplit()
    ensures CREATE_BEFORE_SEED == CREATE_FIRST + CREATE_SECOND
  {
  }

  lemma CreateFirst(db: Db, rescale: Value -> Value)
    requires Transactions !in db && Categories !in db && Accounts !in db
    ensures RunAll(db, CREATE_FIRST + CREATE_SECOND, rescale)
         == RunAll(db[Transactions := Empty(TRANSACTIONS_CREATE)][Categories := Empty(CATEGORIES_CREATE)]
                     [Accounts := Empty(ACCOUNTS_CREATE)], CREATE_SECOND, rescale)
  {
    TransactionsCreateValid();
    CategoriesCreateValid();
    AccountsCreateValid();
    CreateThree(db, Transactions, TRANSACTIONS_CREATE, Categories, CATEGORIES_CREATE,
                Accounts, ACCOUNTS_CREATE, CREATE_SECOND, rescale);
  }

  lemma CreateSecond(db: Db, rescale: Value -> Value)
    requires Payees !in db && PaymentMethods !in db && AccountTypeMethods !in db
    ensures RunAll(db, CREATE_SECOND, rescale)
         == Run(db[Payees := Empty(PAYEES_CREATE)][PaymentMethods := Empty(PAYMENT_METHODS_CREATE)]
                  [AccountTypeMethods := Empty(ACCOUNT_TYPE_METHODS_CREATE)], Done)
  {
    PayeesCreateValid();
    PaymentMethodsCreateValid();
    AccountTypeMethodsCreateValid();
    assert CREATE_SECOND == CREATE_SECOND + [];
    CreateThree(db, Payees, PAYEES_CREATE, PaymentMethods, PAYMENT_METHODS_CREATE,
                AccountTypeMethods, ACCOUNT_TYPE_METHODS_CREATE, [], rescale);
  }

  /** The six CREATE statements before seeding, on a store holding none of their tables. */
  lemma CreateBeforeSeedOn(db: Db, rescale: Value -> Value)
    requires Transactions !in db && Categories !in db && Accounts !in db
    requires Payees !in db && PaymentMethods !in db && AccountTypeMethods !in db
    ensures RunAll(db, CREATE_BEFORE_SEED, rescale)
         == Run(db[Transactions := Empty(TRANSACTIONS_CREATE)][Categories := Empty(CATEGORIES_CREATE)]
                  [Accounts := Empty(ACCOUNTS_CREATE)][Payees := Empty(PAYEES_CREATE)]
                  [PaymentMethods := Empty(PAYMENT_METHODS_CREATE)]
                  [AccountTypeMethods := Empty(ACCOUNT_TYPE_METHODS_CREATE)], Done)
  {
    CreateBeforeSeedSplit();
    CreateFirst(db, rescale);
    CreateSecond(db[Transactions := Empty(TRANSACTIONS_CREATE)][Categories := Empty(CATEGORIES_CREATE)]
                   [Accounts := Empty(ACCOUNTS_CREATE)], rescale);
  }

  lemma CreateBeforeSeed(rescale: Value -> Value)
    ensures RunAll(map[], CREATE_BEFORE_SEED, rescale) == Run(BeforeSeed(), Done)
  {
    CreateBeforeSeedOn(map[], rescale);
  }

  lemma BeforeSeedWellFormed()
    ensures WellFormed(BeforeSeed())
  {
    TransactionsCreateValid();
    CategoriesCreateValid();
    AccountsCreateValid();
    PayeesCreateValid();
    PaymentMethodsCreateValid();
    AccountTypeMethodsCreateValid();
    var d0: Db := map[];
    var d1 := d0[Transactions := Empty(TRANSACTIONS_CREATE)];
    var d2 := d1[Categories := Empty(CATEGORIES_CREATE)];
    var d3 := d2[Accounts := Empty(ACCOUNTS_CREATE)];
    var d4 := d3[Payees := Empty(PAYEES_CREATE)];
    var d5 := d4[PaymentMethods := Empty(PAYMENT_METHODS_CREATE)];
    var d6 := d5[AccountTypeMethods := Empty(ACCOUNT_TYPE_METHODS_CREATE)];
    EmptyWellFormed(TRANSACTIONS_CREATE);
    UpdateKeepsWellFormed(d0, Transactions, Empty(TRANSACTIONS_CREATE));
    EmptyWellFormed(CATEGORIES_CREATE);
    UpdateKeepsWellFormed(d1, Categories, Empty(CATEGORIES_CREATE));
    EmptyWellFormed(ACCOUNTS_CREATE);
    UpdateKeepsWellFormed(d2, Accounts, Empty(ACCOUNTS_CREATE));
    EmptyWellFormed(PAYEES_CREATE);
    UpdateKeepsWellFormed(d3, Payees, Empty(PAYEES_CREATE));
    EmptyWellFormed(PAYMENT_METHODS_CREATE);
    UpdateKeepsWellFormed(d4, PaymentMethods, Empty(PAYMENT_METHODS_CREATE));
    EmptyWellFormed(ACCOUNT_TYPE_METHODS_CREATE);
    UpdateKeepsWellFormed(d5, AccountTypeMethods, Empty(ACCOUNT_TYPE_METHODS_CREATE));
    assert d6 == BeforeSeed();
  }

  lemma BeforeSeedReady()
    ensures WellFormed(BeforeSeed()) && SeedReady(BeforeSeed())
  {
    BeforeSeedWellFormed();
  }

  /** The six tables after seeding. */
  lemma SeededBeforeSeed(pms: seq<PreDefined>)
    ensures Seeded(BeforeSeed(), pms) == map[
      Transactions := Empty(TRANSACTIONS_CREATE),
      Categories := Empty(CATEGORIES_CREATE),
      Accounts := Empty(ACCOUNTS_CREATE),
      Payees := Empty(PAYEES_CREATE),
      PaymentMethods := Table(PAYMENT_METHODS_CREATE.columns, PAYMENT_METHODS_CREATE.uniques,
                              MethodRows(1, pms), 1 + |pms|),
      AccountTypeMethods := Table(ACCOUNT_TYPE_METHODS_CREATE.columns, ACCOUNT_TYPE_METHODS_CREATE.uniques,
                                  BankRows(1, 1, |pms|), 1 + |pms|)]
  {
    assert [] + MethodRows(1, pms) == MethodRows(1, pms);
    assert [] + BankRows(1, 1, |pms|) == BankRows(1, 1, |pms|);
  }

  /** The two CREATE statements after seeding, on a store holding neither table. */
  lemma CreateAfterSeedOn(db: Db, rescale: Value -> Value)
    requires Templates !in db && FeatureUsed !in db
    ensures RunAll(db, CREATE_AFTER_SEED, rescale)
         == Run(db[Templates := Empty(TEMPLATES_CREATE)][FeatureUsed := Empty(FEATURE_USED_CREATE)], Done)
  {
    TemplatesCreateValid();
    FeatureUsedCreateValid();
    var c1 := CreateTable(Templates, TEMPLATES_CREATE);
    var c2 := CreateTable(FeatureUsed, FEATURE_USED_CREATE);
    assert CREATE_AFTER_SEED == [c1] + ([c2] + []);
    CreateStep(db, Templates, TEMPLATES_CREATE, [c2] + [], rescale);
    CreateStep(db[Templates := Empty(TEMPLATES_CREATE)], FeatureUsed, FEATURE_USED_CREATE, [], rescale);
  }

  lemma CreateAfterSeed(pms: seq<PreDefined>, rescale: Value -> Value)
    ensures RunAll(Seeded(BeforeSeed(), pms), CREATE_AFTER_SEED, rescale) == Run(FreshStore(pms), Done)
  {
    SeededBeforeSeed(pms);
    CreateAfterSeedOn(Seeded(BeforeSeed(), pms), rescale);
  }

  /**
   * On an empty store `onCreate` succeeds and yields exactly the eight
   * tables of the CREATE statements, with one payment-method row and one
   * BANK association row per predefined method. Seeding succeeds because
   * both tables it writes are created before it runs.
   */
  lemma CreateOnEmptyStore(pms: seq<PreDefined>, rescale: Value -> Value)
    ensures Create(map[], pms, rescale) == Run(FreshStore(pms), Done)
  {
    CreateBeforeSeed(rescale);
    BeforeSeedReady();
    SeedAppends(BeforeSeed(), pms);
    CreateAfterSeed(pms, rescale);
  }
}
