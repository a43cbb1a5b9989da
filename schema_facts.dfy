/**
 * Facts about the concrete table definitions: that SQLite accepts each of
 * them, and which columns the small ones hold values for.
 */
module SchemaFacts {
  import opened Schema
  import opened Store

  /** A unique key over two data columns of the table. */
  lemma PairKey(cols: seq<Column>, i: nat, j: nat)
    requires i < |cols| && j < |cols| && cols[i].name != RowId && cols[j].name != RowId
    ensures forall u <- [[cols[i].name, cols[j].name]] :: |u| > 0 && forall c <- u :: c in DataColumns(cols)
  {
    assert cols[i] in cols && cols[j] in cols;
  }

  lemma TransactionsCreateValid()
    ensures ValidDef(TRANSACTIONS_CREATE)
  {
  }

  lemma AccountsCreateValid()
    ensures ValidDef(ACCOUNTS_CREATE)
  {
  }

  lemma CategoriesCreateKeys()
    ensures forall u <- CATEGORIES_CREATE.uniques :: |u| > 0 && forall c <- u :: c in DataColumns(CATEGORIES_CREATE.columns)
  {
    var cols := CATEGORIES_CREATE.columns;
    assert CATEGORIES_CREATE.uniques == [[cols[1].name, cols[2].name]];
    PairKey(cols, 1, 2);
  }

  lemma CategoriesCreateValid()
    ensures ValidDef(CATEGORIES_CREATE)
  {
    CategoriesCreateKeys();
  }

  lemma PaymentMethodsCreateData()
    ensures DataColumns(PAYMENT_METHODS_CREATE.columns) == {Label, Type}
  {
  }

  lemma PaymentMethodsCreateValid()
    ensures ValidDef(PAYMENT_METHODS_CREATE)
  {
  }

  lemma AccountTypeMethodsCreateData()
    ensures DataColumns(ACCOUNT_TYPE_METHODS_CREATE.columns) == {Type, MethodRef}
  {
  }

  lemma AccountTypeMethodsCreateValid()
    ensures ValidDef(ACCOUNT_TYPE_METHODS_CREATE)
  {
    AccountTypeMethodsCreateData();
  }

  lemma TemplatesCreateDistinct()
    ensures DistinctNames(TEMPLATES_CREATE.columns)
  {
  }

  lemma TemplatesCreateKeys()
    ensures forall u <- TEMPLATES_CREATE.uniques :: |u| > 0 && forall c <- u :: c in DataColumns(TEMPLATES_CREATE.columns)
  {
    var cols := TEMPLATES_CREATE.columns;
    assert TEMPLATES_CREATE.uniques == [[cols[4].name, cols[8].name]];
    PairKey(cols, 4, 8);
  }

  lemma TemplatesCreateValid()
    ensures ValidDef(TEMPLATES_CREATE)
  {
    TemplatesCreateDistinct();
    TemplatesCreateKeys();
  }

  lemma FeatureUsedCreateValid()
    ensures ValidDef(FEATURE_USED_CREATE)
  {
  }

  lemma PayeesCreateValid()
    ensures ValidDef(PAYEES_CREATE)
  {
    var cols := PAYEES_CREATE.columns;
    assert cols[1] in cols;
  }

  lemma AccountsLegacyData()
    ensures DataColumns(ACCOUNTS_LEGACY.columns) == {Label, OpeningBalance, Description, Currency}
  {
  }

  lemma AccountsLegacyValid()
    ensures ValidDef(ACCOUNTS_LEGACY)
  {
  }

  lemma TransactionsV20Data()
    ensures DataColumns(TRANSACTIONS_V20.columns) == {Comment, Date, Amount, CatId, AccountId, Payee, TransferPeer}
  {
  }

  lemma TransactionsV20Valid()
    ensures ValidDef(TRANSACTIONS_V20)
  {
  }

  lemma TemplatesV22Data()
    ensures DataColumns(TEMPLATE_V22_COLUMNS) == {Comment, Amount, CatId, AccountId, Payee, TransferPeer, MethodId, Title}
  {
  }

  lemma TemplatesV22Distinct()
    ensures DistinctNames(TEMPLATE_V22_COLUMNS)
  {
  }

  lemma TemplatesV23Keys()
    ensures forall u <- TEMPLATES_V23.uniques :: |u| > 0 && forall c <- u :: c in DataColumns(TEMPLATE_V22_COLUMNS)
  {
    var cols := TEMPLATE_V22_COLUMNS;
    assert TEMPLATES_V23.uniques == [[cols[4].name, cols[8].name]];
    PairKey(cols, 4, 8);
  }

  lemma TemplatesV22Valid()
    ensures ValidDef(TEMPLATES_V22) && ValidDef(TEMPLATES_V23)
  {
    TemplatesV22Distinct();
    TemplatesV23Keys();
  }
}
