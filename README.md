# TransactionDatabase: a verified model of the MyExpenses schema helper

`TransactionDatabase` is the `SQLiteOpenHelper` of MyExpenses. It does three things:

- `onCreate` lays out a fresh database. It creates eight tables and seeds the predefined payment methods between the sixth and seventh.
- `onUpgrade` carries a database from any recorded version to version 27. It runs a ladder of eleven version-gated blocks, with thresholds 17 to 27.
- Three SQL `CASE` expressions derive a transaction's labels from its category or, for a transfer, its account: `LABEL_MAIN`, `LABEL_SUB` and `SHORT_LABEL`.

The model has five layers:

- **Store.** SQLite is replaced by an abstract store (`Store`). A database maps table names to tables. A table is its column list, its unique keys, its rows and its AUTOINCREMENT counter.
  - Each `execSQL` statement is a `Stmt`. The pure `Exec` gives its effect, with the errors SQLite would raise. A raising statement leaves the store as it was.
  - `insert` returns the new row id, or -1 with the store unchanged.
- **Statement lists.** The CREATE statements and the statements of each upgrade block are constants of `Schema`, `Catalog` and `Migration`. The pure functions `Create`, `Seed`, `Step17` … `Step27` and `Upgrade` state their effect.
- **Imperative helper.** The class `Helper.TransactionDatabase` holds the store in a field. Its `OnCreate`, `InsertDefaultPaymentMethods` and `OnUpgrade` issue the calls one by one, as the Java methods do. Each is proved to have the effect the pure functions give.
- **Lemmas.** The lemmas in `MigrationProps`, `MigrationShape` and `Catalog` state what each block does to the data and to the table definitions. They also state which blocks run.
- **Labels.** `Labels` models the three label expressions as pure functions under SQL three-valued logic.

## Model

| member | source | states |
|---|---|---|
| Helper.TransactionDatabase.ExecSQL | src/org/totschnig/myexpenses/provider/TransactionDatabase.java:160-169 | one `execSQL` call: the store becomes what the statement makes of it, or the statement raises and the store is left unchanged |
| Helper.TransactionDatabase.Insert | src/org/totschnig/myexpenses/provider/TransactionDatabase.java:183-187 | one `insert` call: the id of the new row, or -1 with the store unchanged |
| Helper.TransactionDatabase.InsertDefaultPaymentMethods | src/org/totschnig/myexpenses/provider/TransactionDatabase.java:176-189 | the loop, with invariant "the rest of the loop seeds the rest of the enumeration", ends with the store `Seed` gives; when both tables are as created, that store is the closed form `Seeded`: one payment-method row per constant and one association row per constant |
| Helper.TransactionDatabase.OnCreate | src/org/totschnig/myexpenses/provider/TransactionDatabase.java:158-170 | the six CREATE calls, the seeding and the last two CREATE calls, stopping at the first one that raises, leave the store and outcome `Create` gives; a store whose tables were well formed stays well formed |
| Helper.TransactionDatabase.UpgradeTo17 | src/org/totschnig/myexpenses/provider/TransactionDatabase.java:195-200 | the block for 17 has the effect of `Step17` |
| Helper.TransactionDatabase.UpgradeTo18 | src/org/totschnig/myexpenses/provider/TransactionDatabase.java:201-204 | the block for 18 has the effect of `Step18` |
| Helper.TransactionDatabase.UpgradeTo19 | src/org/totschnig/myexpenses/provider/TransactionDatabase.java:205-207 | the block for 19 has the effect of `Step19` |
| Helper.TransactionDatabase.UpgradeTo20 | src/org/totschnig/myexpenses/provider/TransactionDatabase.java:208-221 | the seven statements of the block for 20 have the effect of `Step20` |
| Helper.TransactionDatabase.UpgradeTo21 | src/org/totschnig/myexpenses/provider/TransactionDatabase.java:222-228 | two CREATE calls, the seeding loop and two ALTER calls have the effect of `Step21` |
| Helper.TransactionDatabase.UpgradeTo22 | src/org/totschnig/myexpenses/provider/TransactionDatabase.java:229-233 | the block for 22 has the effect of `Step22` |
| Helper.TransactionDatabase.UpgradeTo23 | src/org/totschnig/myexpenses/provider/TransactionDatabase.java:234-248 | the rename, the recreate, the guarded copy whose constraint violation is caught, and the drop have the effect of `Step23` |
| Helper.TransactionDatabase.UpgradeTo24 | src/org/totschnig/myexpenses/provider/TransactionDatabase.java:249-251 | the block for 24 has the effect of `Step24` |
| Helper.TransactionDatabase.UpgradeTo25 | src/org/totschnig/myexpenses/provider/TransactionDatabase.java:252-255 | the block for 25 has the effect of `Step25` |
| Helper.TransactionDatabase.UpgradeTo26 | src/org/totschnig/myexpenses/provider/TransactionDatabase.java:256-258 | the block for 26 has the effect of `Step26` |
| Helper.TransactionDatabase.UpgradeTo27 | src/org/totschnig/myexpenses/provider/TransactionDatabase.java:259-261 | the block for 27 has the effect of `Step27` |
| Helper.TransactionDatabase.OnUpgrade | src/org/totschnig/myexpenses/provider/TransactionDatabase.java:192-263 | the eleven `if` blocks have the effect of the ladder `Upgrade`, and `newVersion` is never read; from version 27 or later nothing changes; a completed upgrade from below 20 leaves `transactions` and `accounts`, and one from below 23 leaves `templates`, with the column names of their CREATE statements; a store whose tables were well formed stays well formed, whether the upgrade completes or stops at a raise; from a store of a version below 17 it completes iff every expense is copyable, and otherwise raises a constraint violation |
| Helper.TransactionDatabase.UpgradeEarly | src/org/totschnig/myexpenses/provider/TransactionDatabase.java:195-233 | the blocks for 17 to 22: a raised error ends the upgrade with the ladder's result, and otherwise the ladder from 17 on the old store equals the ladder from 23 on the new one |
| Helper.TransactionDatabase.UpgradeLate | src/org/totschnig/myexpenses/provider/TransactionDatabase.java:234-262 | the blocks for 23 to 27: a raised error ends the upgrade with the ladder's result, and otherwise the ladder from 23 on the old store equals the finished ladder on the new one |
| Migration.StepsRunExactly | src/org/totschnig/myexpenses/provider/TransactionDatabase.java:195-261 | the thresholds whose blocks run for recorded version v are exactly those k in 17..27 with v < k, in strictly ascending order, so each runs once; all eleven run below 17 and none from 27 on |
| Migration.LadderRunsSteps | src/org/totschnig/myexpenses/provider/TransactionDatabase.java:195-261 | the ladder runs exactly the listed steps, one after the other, stopping at the first that raises |
| Migration.UpgradeRunsSteps | src/org/totschnig/myexpenses/provider/TransactionDatabase.java:192-263 | `onUpgrade` is running the steps `StepsRun(oldVersion)` in order |
| Migration.UpgradeFromCurrentIsNoOp | src/org/totschnig/myexpenses/provider/TransactionDatabase.java:192-263 | from version 27 or later upgrading completes and changes nothing |
| MigrationProps.Step17RecreatesAccounts | src/org/totschnig/myexpenses/provider/TransactionDatabase.java:195-200 | with `accounts` present, it is replaced by an empty table of the legacy definition; otherwise the drop raises "no such table" and nothing changes |
| MigrationProps.Step18AddsPayees | src/org/totschnig/myexpenses/provider/TransactionDatabase.java:201-204 | the block completes iff `payee` is absent and `expenses` lacks a `payee` column; then `payee` is created empty, `expenses` gains the column with NULL in every row and no other table changes |
| MigrationProps.Step19AddsTransferPeer | src/org/totschnig/myexpenses/provider/TransactionDatabase.java:205-207 | completes iff `expenses` exists without `transfer_peer`; then that text column is added as NULL to every row and nothing else changes; on failure the store is unchanged |
| MigrationProps.Step20MovesExpenses | src/org/totschnig/myexpenses/provider/TransactionDatabase.java:209-214 | the copy into `transactions` completes iff every `expenses` row has a comment, a date and a rescaled amount that is not NULL; any failure is a constraint violation; on success `expenses` is gone and `transactions` holds one row per expenses row, ids 1, 2, …, the amount rescaled and the other six columns copied |
| MigrationProps.Step20RebuildsAccounts | src/org/totschnig/myexpenses/provider/TransactionDatabase.java:215-220 | the rebuild of `accounts` completes iff every account has a label and a currency; on success `accounts` holds one row per old account, ids fresh, opening balance rescaled, the rest copied, and no other table changes |
| MigrationProps.Step20CopiesLedger | src/org/totschnig/myexpenses/provider/TransactionDatabase.java:208-221 | the whole block for 20 completes iff both copies can; any failure is a constraint violation; on success neither `expenses` nor `accounts_old` exists, tables other than transactions/accounts are unchanged, and both new tables are built row by row from their sources as above |
| MigrationProps.Step21Creates | src/org/totschnig/myexpenses/provider/TransactionDatabase.java:223-224 | the two CREATE calls complete iff neither payment-method table exists, and create both empty |
| MigrationProps.Step21Seeds | src/org/totschnig/myexpenses/provider/TransactionDatabase.java:225 | seeding the two new tables leaves method row i with id i + 1, the i-th constant's name and type, and association row i naming method id i + 1 |
| MigrationProps.Step21Alters | src/org/totschnig/myexpenses/provider/TransactionDatabase.java:226-227 | the two ALTER calls complete iff `transactions` lacks `payment_method_id` and `accounts` lacks `type`; then each row gains the column's default 'CASH' and nothing else changes |
| MigrationProps.Step21AddsPaymentMethods | src/org/totschnig/myexpenses/provider/TransactionDatabase.java:222-228 | the whole block completes iff the payment-method tables are absent and the two columns are missing; then exactly four tables change: the two new tables hold the seeded rows, and `transactions` and `accounts` gain a column |
| MigrationProps.Step22CreatesTemplates | src/org/totschnig/myexpenses/provider/TransactionDatabase.java:229-233 | `templates` is created empty without a unique key, or creation raises if it exists |
| MigrationProps.Step23Copy | src/org/totschnig/myexpenses/provider/TransactionDatabase.java:239-241 | the copy into the rebuilt `templates` succeeds iff the old rows are copyable, that is, they have comment, amount and title and no two clash on (account_id, title) with SQL's NULL-distinct rule; otherwise it raises a constraint violation and the store is unchanged |
| MigrationProps.Step23Result | src/org/totschnig/myexpenses/provider/TransactionDatabase.java:234-248 | closed form of the block for 23: only `templates` changes, to the copied table or, when the copy was refused, to the empty new table |
| MigrationProps.Step23RebuildsTemplates | src/org/totschnig/myexpenses/provider/TransactionDatabase.java:234-248 | all or nothing: the block always completes, so later blocks still run; `templates_old` is gone; `templates` has the unique key (account_id, title) and holds one row per old template with all eight columns copied, or, when the old rows are not copyable, no rows at all |
| MigrationProps.TemplateUnique | src/org/totschnig/myexpenses/provider/TransactionDatabase.java:236-241 | rows copied column by column satisfy unique(account_id, title) iff their sources do |
| MigrationProps.Step24AddsUsages | src/org/totschnig/myexpenses/provider/TransactionDatabase.java:249-251 | completes iff `templates` exists without `usages`; then every row gains `usages` = 0 and nothing else changes; on failure the store is unchanged |
| MigrationProps.Step25NullPeersBecomeZero | src/org/totschnig/myexpenses/provider/TransactionDatabase.java:252-255 | every `transactions` row with a NULL `transfer_peer` gets 0, every other value and row keeps its value, and no other table changes |
| MigrationProps.Step25Idempotent | src/org/totschnig/myexpenses/provider/TransactionDatabase.java:252-255 | applying the block for 25 to its own result changes nothing |
| MigrationProps.FillNullsNormalises | src/org/totschnig/myexpenses/provider/TransactionDatabase.java:254 | row by row, the UPDATE replaces a NULL `transfer_peer` by 0 and keeps ids and every other column |
| MigrationProps.Step26AddsColor | src/org/totschnig/myexpenses/provider/TransactionDatabase.java:256-258 | completes iff `accounts` exists without `color`; then every row gains `color` = -6697984 and nothing else changes |
| MigrationProps.Step27CreatesFeatureUsed | src/org/totschnig/myexpenses/provider/TransactionDatabase.java:259-261 | `feature_used` is created empty as its CREATE statement defines it, or creation raises if it exists |
| MigrationRuns.StepKeepsWellFormed | src/org/totschnig/myexpenses/provider/TransactionDatabase.java:195-261 | every block, whether it completes or raises, keeps every table consistent with its column constraints and unique keys |
| MigrationRuns.UpgradeKeepsWellFormed | src/org/totschnig/myexpenses/provider/TransactionDatabase.java:192-263 | so does the whole upgrade, from any recorded version |
| MigrationRuns.Step17Ready | src/org/totschnig/myexpenses/provider/TransactionDatabase.java:195-200 | on a store of a version below 17 the block for 17 completes, leaves `expenses` as it was and the store ready for the block for 18 |
| MigrationRuns.Step20Ready | src/org/totschnig/myexpenses/provider/TransactionDatabase.java:208-221 | on a store the blocks for 17 to 19 have prepared, the block for 20 completes iff every expense is copyable, raises a constraint violation otherwise, and on success leaves the store ready for the block for 21 |
| MigrationRuns.CompletesFrom18 | src/org/totschnig/myexpenses/provider/TransactionDatabase.java:201-261 | from a store ready for the block for 18, the blocks 18 to 27 all complete iff every expense has a comment, a date and an amount that rescales to a non-NULL value; otherwise the ladder stops on a constraint violation |
| MigrationRuns.UpgradeFromPre17 | src/org/totschnig/myexpenses/provider/TransactionDatabase.java:192-263 | from a store of a version below 17 (`expenses` with comment, date, amount, cat_id and account_id but no payee or transfer_peer, `accounts` present, none of the later tables yet), `onUpgrade` completes iff every expense is copyable as above, otherwise raises a constraint violation, and a completed upgrade leaves `transactions`, `accounts` and `templates` with the column names of their CREATE statements |
| MigrationShape.StepFollowsShape | src/org/totschnig/myexpenses/provider/TransactionDatabase.java:195-261 | when a block completes, the table definitions it leaves depend only on the definitions it started from, not on the rows |
| MigrationShape.LadderFollowsShape | src/org/totschnig/myexpenses/provider/TransactionDatabase.java:192-263 | the same holds for the whole ladder |
| MigrationShape.UpgradeLeavesDefinitions | src/org/totschnig/myexpenses/provider/TransactionDatabase.java:208-258 | a completed upgrade from below 20 leaves `transactions` (the v20 columns plus `payment_method_id`) and `accounts` (the legacy columns plus `type` and `color`); one from below 23 leaves `templates` (the v23 columns plus `usages`, keyed on (account_id, title)) |
| MigrationShape.UpgradedNamesMatchCreate | src/org/totschnig/myexpenses/provider/TransactionDatabase.java:44-93 | those upgraded tables have the column names, in order, and the unique keys of the CREATE statements |
| MigrationShape.UpgradedDiffersFromCreate | src/org/totschnig/myexpenses/provider/TransactionDatabase.java:53-62 | they differ from the CREATE statements exactly where three columns differ: `transfer_peer` defaults to NULL, not 0; `payment_method_id` is text defaulting to 'CASH', not integer; `color` defaults to -6697984, not -3355444 |
| MigrationShape.UpgradeMatchesCreateNames | src/org/totschnig/myexpenses/provider/TransactionDatabase.java:192-263 | a completed upgrade from below 20 (23) ends with the CREATE column names for transactions and accounts (templates) |
| Catalog.SeedAppends | src/org/totschnig/myexpenses/provider/TransactionDatabase.java:176-189 | on the two tables as created, seeding appends, for each constant in order, a method row with the next id and the constant's name and type, and an association row (BANK, that id); no other table changes |
| Catalog.SeedOneEffect | src/org/totschnig/myexpenses/provider/TransactionDatabase.java:180-187 | one pass: the method insert succeeds with the next id, and the association insert naming that id succeeds |
| Catalog.InsertBank | src/org/totschnig/myexpenses/provider/TransactionDatabase.java:184-187 | a BANK association for a method id no row names yet never violates the (type, method_id) key |
| Catalog.SeedLinksEachMethod | src/org/totschnig/myexpenses/provider/TransactionDatabase.java:176-189 | after seeding, constant i has its own method row, and its association row is (BANK, that row's id); the association ids of two different constants differ |
| Catalog.SeedKeepsWellFormed | src/org/totschnig/myexpenses/provider/TransactionDatabase.java:176-189 | seeding keeps every table consistent with its constraints |
| Catalog.CreateKeepsWellFormed | src/org/totschnig/myexpenses/provider/TransactionDatabase.java:158-170 | creating the schema, whether it completes or raises, keeps every table consistent with its constraints |
| Catalog.CreateOnEmptyStore | src/org/totschnig/myexpenses/provider/TransactionDatabase.java:158-170 | on the empty store `onCreate` completes with exactly the eight CREATE tables, empty except for the seeded rows; seeding succeeds because both of its tables are created before it runs |
| Catalog.BeforeSeedReady | src/org/totschnig/myexpenses/provider/TransactionDatabase.java:160-166 | the six tables created before seeding are consistent and ready for it |
| Labels.LabelMain | src/org/totschnig/myexpenses/provider/TransactionDatabase.java:108-125 | a present main label of a transfer is some account's label; otherwise it is the label of some category |
| Labels.LabelSub | src/org/totschnig/myexpenses/provider/TransactionDatabase.java:126-132 | a present sub label belongs to a non-transfer and is the label of some category with a non-zero parent |
| Labels.ShortLabel | src/org/totschnig/myexpenses/provider/TransactionDatabase.java:137-144 | a present short label of a transfer is some account's label; otherwise `cat_id` is set and the short label is the label of the category it names |
| Labels.LabelColumns | src/org/totschnig/myexpenses/provider/TransactionDatabase.java:22-23 | the projection has exactly three distinct result columns, `label_sub`, `label_main` and `label`, so no alias hides another |
| Labels.LabelMainMeaning | src/org/totschnig/myexpenses/provider/TransactionDatabase.java:108-125 | the main label is s iff: for a transfer, the account with id `cat_id` is labelled s; otherwise `cat_id` is non-zero and its category has parent 0 and label s, or a non-zero parent labelled s |
| Labels.LabelSubMeaning | src/org/totschnig/myexpenses/provider/TransactionDatabase.java:126-132 | the sub label is s iff `transfer_peer` is 0 (not NULL), `cat_id` names a category with a non-zero parent, and that category's own label is s |
| Labels.NullPeerHidesSubLabel | src/org/totschnig/myexpenses/provider/TransactionDatabase.java:126-132 | a NULL `transfer_peer` counts as "no transfer" for the main and short labels, but makes the sub label NULL |
| Labels.ShortLabelMeaning | src/org/totschnig/myexpenses/provider/TransactionDatabase.java:137-144 | the short label is s iff, for a transfer, the account with id `cat_id` is labelled s, and otherwise the category with id `cat_id` itself, never its parent, is labelled s |
| Labels.ShortLabelVersusMain | src/org/totschnig/myexpenses/provider/TransactionDatabase.java:108-144 | the short label equals the main label for transfers and for main categories; on a subcategory it is the subcategory's label while the main label is its parent's |
| Labels.ShortLabelIsSubLabel | src/org/totschnig/myexpenses/provider/TransactionDatabase.java:126-144 | whenever the sub label is present, the short label equals it |
| Labels.LabelColumnsCrossed | src/org/totschnig/myexpenses/provider/TransactionDatabase.java:22-23 | the result column named `label_sub` carries the main label and `label_main` the sub label |

## Left out

- `SQLiteOpenHelper` and `Context` plumbing, the helper's constructor (lines 153-155) and the platform's choice of which callback to call are not modelled. The store is the class's field, and so is the list of predefined methods.
- The `Log.w` and `Log.e` calls are diagnostics only.
- SQL text is not parsed. Each `execSQL` string is written as the `Stmt` it denotes.
- `CAST(ROUND(x*100) AS INTEGER)` works on legacy floating-point values. It is the uninterpreted `rescale` function.
- Column type affinity is not modelled. A declared type is recorded, but values are not converted on insert. This includes the text-typed `transfer_peer` of a version-19 store.
- Row ids are a per-table AUTOINCREMENT counter that creation starts at 1 and rename carries along. SQLite's `sqlite_sequence` bookkeeping is not modelled.
- The contents of `PaymentMethod.PreDefined` are not part of this model. The enumeration is a sequence of (name, paymentType) pairs given to the class.
- Storage faults, driver errors and the platform's transaction around `onUpgrade` are not modelled. A raising statement ends the callback but earlier statements stay applied.
- The label functions read an id-keyed view of `accounts` and `categories`, not the store's rows. Because `_id` is the primary key, a scalar subquery finds at most one row.
- Helper.TransactionDatabase.OnCreate: its contract ties the result to `Create` for any starting store. The fresh-store result on the empty store is stated separately by `Catalog.CreateOnEmptyStore`.
- Catalog.SeedLinksEachMethod: it states distinctness for two given constants i ≠ j, not as one quantified statement over all pairs.
- `MigrationRuns.UpgradeFromPre17` starts from a store that already has `expenses.account_id`: the statement that would add it (line 199) is commented out in the source, and without that column the copy in the block for 20 raises "no such column". Stores at versions 17 to 26 are covered block by block by the step lemmas, not by one lemma per starting version.
