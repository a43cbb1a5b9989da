/**
 * The schema catalog of the ledger store: the tables and columns the
 * TransactionDatabase helper names, SQL values, and the table definitions
 * that its CREATE statements (fresh install) and its upgrade steps use.
 *
 * Table and column names are enumerations; `TableSqlName` and `ColumnSqlName`
 * give the literal SQL identifier of each one.
 */
module Schema {

  datatype TableName =
    | Transactions | Expenses | Accounts | AccountsOld | Categories
    | PaymentMethods | AccountTypeMethods | Templates | TemplatesOld
    | Payees | FeatureUsed

  datatype ColumnName =
    | RowId | Comment | Date | Amount | CatId | AccountId | Payee
    | TransferPeer | MethodId | Title | Usages | Label | OpeningBalance
    | Description | Currency | Type | Color | ParentId | Name | Feature
    | MethodRef

  function TableSqlName(t: TableName): string {
    match t
    case Transactions => "transactions"
    case Expenses => "expenses"
    case Accounts => "accounts"
    case AccountsOld => "accounts_old"
    case Categories => "categories"
    case PaymentMethods => "paymentmethods"
    case AccountTypeMethods => "accounttype_paymentmethod"
    case Templates => "templates"
    case TemplatesOld => "templates_old"
    case Payees => "payee"
    case FeatureUsed => "feature_used"
  }

  function ColumnSqlName(c: ColumnName): string {
    match c
    case RowId => "_id"
    case Comment => "comment"
    case Date => "date"
    case Amount => "amount"
    case CatId => "cat_id"
    case AccountId => "account_id"
    case Payee => "payee"
    case TransferPeer => "transfer_peer"
    case MethodId => "payment_method_id"
    case Title => "title"
    case Usages => "usages"
    case Label => "label"
    case OpeningBalance => "opening_balance"
    case Description => "description"
    case Currency => "currency"
    case Type => "type"
    case Color => "color"
    case ParentId => "parent_id"
    case Name => "name"
    case Feature => "feature"
    case MethodRef => "method_id"
  }

  /** A value stored in a column; `Null` is SQL NULL. */
  datatype Value = Null | Int(i: int) | Real(r: real) | Text(s: string)

  /** The declared type of a column, as written in its CREATE or ALTER statement. */
  datatype DeclaredType = IntegerType | TextType | DatetimeType

  datatype Column = Column(name: ColumnName, declared: DeclaredType, default: Value, notNull: bool)

  /**
   * A table definition: its columns in declaration order and its unique keys
   * (a composite primary key other than `_id` is one of them).
   * `RowId` stands for `_id integer primary key autoincrement`.
   */
  datatype TableDef = TableDef(columns: seq<Column>, uniques: seq<seq<ColumnName>>)

  /** The column names of a definition, in declaration order. */
  function Names(cols: seq<Column>): seq<ColumnName> {
    seq(|cols|, i requires 0 <= i < |cols| => cols[i].name)
  }

  const ID_COLUMN := Column(RowId, IntegerType, Null, false)

  // ---- CREATE statements of a fresh store ----

  const TRANSACTIONS_CREATE := TableDef([
    ID_COLUMN,
    Column(Comment, TextType, Null, true),
    Column(Date, DatetimeType, Null, true),
    Column(Amount, IntegerType, Null, true),
    Column(CatId, IntegerType, Null, false),
    Column(AccountId, IntegerType, Null, false),
    Column(Payee, TextType, Null, false),
    Column(TransferPeer, IntegerType, Int(0), false),
    Column(MethodId, IntegerType, Null, false)], [])

  const ACCOUNTS_CREATE := TableDef([
    ID_COLUMN,
    Column(Label, TextType, Null, true),
    Column(OpeningBalance, IntegerType, Null, false),
    Column(Description, TextType, Null, false),
    Column(Currency, TextType, Null, true),
    Column(Type, TextType, Text("CASH"), false),
    Column(Color, IntegerType, Int(-3355444), false)], [])

  const CATEGORIES_CREATE := TableDef([
    ID_COLUMN,
    Column(Label, TextType, Null, true),
    Column(ParentId, IntegerType, Int(0), true),
    Column(Usages, IntegerType, Int(0), false)], [[Label, ParentId]])

  const PAYMENT_METHODS_CREATE := TableDef([
    ID_COLUMN,
    Column(Label, TextType, Null, true),
    Column(Type, IntegerType, Int(0), false)], [])

  const ACCOUNT_TYPE_METHODS_CREATE := TableDef([
    Column(Type, TextType, Null, false),
    Column(MethodRef, IntegerType, Null, false)], [[Type, MethodRef]])

  const TEMPLATES_CREATE := TableDef([
    ID_COLUMN,
    Column(Comment, TextType, Null, true),
    Column(Amount, IntegerType, Null, true),
    Column(CatId, IntegerType, Null, false),
    Column(AccountId, IntegerType, Null, false),
    Column(Payee, TextType, Null, false),
    Column(TransferPeer, IntegerType, Int(0), false),
    Column(MethodId, IntegerType, Null, false),
    Column(Title, TextType, Null, true),
    Column(Usages, IntegerType, Int(0), false)], [[AccountId, Title]])

  const FEATURE_USED_CREATE := TableDef([Column(Feature, TextType, Null, true)], [])

  const PAYEES_CREATE := TableDef([
    ID_COLUMN,
    Column(Name, TextType, Null, true)], [[Name]])

  // ---- definitions used by the upgrade steps ----

  /** `accounts` as recreated by the steps for versions 17 and 20. */
  const ACCOUNTS_LEGACY := TableDef([
    ID_COLUMN,
    Column(Label, TextType, Null, true),
    Column(OpeningBalance, IntegerType, Null, false),
    Column(Description, TextType, Null, false),
    Column(Currency, TextType, Null, true)], [])

  /** `transactions` as created by the step for version 20. */
  const TRANSACTIONS_V20 := TableDef([
    ID_COLUMN,
    Column(Comment, TextType, Null, true),
    Column(Date, DatetimeType, Null, true),
    Column(Amount, IntegerType, Null, true),
    Column(CatId, IntegerType, Null, false),
    Column(AccountId, IntegerType, Null, false),
    Column(Payee, TextType, Null, false),
    Column(TransferPeer, IntegerType, Null, false)], [])

  const TEMPLATE_V22_COLUMNS := [
    ID_COLUMN,
    Column(Comment, TextType, Null, true),
    Column(Amount, IntegerType, Null, true),
    Column(CatId, IntegerType, Null, false),
    Column(AccountId, IntegerType, Null, false),
    Column(Payee, TextType, Null, false),
    Column(TransferPeer, IntegerType, Null, false),
    Column(MethodId, IntegerType, Null, false),
    Column(Title, TextType, Null, true)]

  /** `templates` as created by the step for version 22 (no unique key). */
  const TEMPLATES_V22 := TableDef(TEMPLATE_V22_COLUMNS, [])

  /** `templates` as rebuilt by the step for version 23, with unique(account_id, title). */
  const TEMPLATES_V23 := TableDef(TEMPLATE_V22_COLUMNS, [[AccountId, Title]])

  const TRANSACTIONS_METHOD_V21 := Column(MethodId, TextType, Text("CASH"), false)
  const ACCOUNTS_TYPE_V21 := Column(Type, TextType, Text("CASH"), false)
  const TEMPLATES_USAGES_V24 := Column(Usages, IntegerType, Int(0), false)
  const ACCOUNTS_COLOR_V26 := Column(Color, IntegerType, Int(-6697984), false)
  const EXPENSES_PAYEE_V18 := Column(Payee, TextType, Null, false)
  const EXPENSES_PEER_V19 := Column(TransferPeer, TextType, Null, false)

  /** The recorded version a fresh store is given. */
  const DATABASE_VERSION := 27
}
