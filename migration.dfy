/**
 * The upgrade ladder of `onUpgrade`: eleven steps with thresholds 17 to 27.
 * A step runs iff the recorded version is below its threshold, the steps
 * run in ascending order, and the first statement that raises ends the
 * upgrade (the exception propagates out of `onUpgrade`). The new version
 * the platform passes is never consulted.
 */
module Migration {
  import opened Schema
  import opened Store
  import opened Catalog

  const FIRST_STEP := 17
  const LAST_STEP := 27

  // ---- the statements of each step ----

  const STEP17 := [DropTable(Accounts), CreateTable(Accounts, ACCOUNTS_LEGACY)]

  const STEP18 := [CreateTable(Payees, PAYEES_CREATE), AddColumn(Expenses, EXPENSES_PAYEE_V18)]

  const STEP19 := [AddColumn(Expenses, EXPENSES_PEER_V19)]

  /** The columns the step for version 20 copies from `expenses` into `transactions`. */
  const TRANSACTIONS_INTO := [Comment, Date, Amount, CatId, AccountId, Payee, TransferPeer]
  const TRANSACTIONS_SELECT :=
    [Col(Comment), Col(Date), Rescaled(Amount), Col(CatId), Col(AccountId), Col(Payee), Col(TransferPeer)]

  /** The columns the step for version 20 copies from `accounts_old` into `accounts`. */
  const ACCOUNTS_INTO := [Label, OpeningBalance, Description, Currency]
  const ACCOUNTS_SELECT := [Col(Label), Rescaled(OpeningBalance), Col(Description), Col(Currency)]

  /** Version 20, first half: `expenses` becomes `transactions` with amounts rescaled. */
  const STEP20_TRANSACTIONS := [
    CreateTable(Transactions, TRANSACTIONS_V20),
    InsertSelect(Transactions, TRANSACTIONS_INTO, Expenses, TRANSACTIONS_SELECT),
    DropTable(Expenses)]

  const ACCOUNTS_REBUILD := [
    CreateTable(Accounts, ACCOUNTS_LEGACY),
    InsertSelect(Accounts, ACCOUNTS_INTO, AccountsOld, ACCOUNTS_SELECT),
    DropTable(AccountsOld)]

  /** Version 20, second half: `accounts` is rebuilt with opening balances rescaled. */
  const STEP20_ACCOUNTS := [RenameTable(Accounts, AccountsOld)] + ACCOUNTS_REBUILD

  const STEP21_CREATE := [
    CreateTable(PaymentMethods, PAYMENT_METHODS_CREATE),
    CreateTable(AccountTypeMethods, ACCOUNT_TYPE_METHODS_CREATE)]

  const STEP21_ALTER := [AddColumn(Transactions, TRANSACTIONS_METHOD_V21), AddColumn(Accounts, ACCOUNTS_TYPE_V21)]

  const STEP22 := [CreateTable(Templates, TEMPLATES_V22)]

  const STEP23_REBUILD := [RenameTable(Templates, TemplatesOld), CreateTable(Templates, TEMPLATES_V23)]

  /** The columns the step for version 23 copies from `templates_old`, all unchanged. */
  const TEMPLATES_INTO := [Comment, Amount, CatId, AccountId, Payee, TransferPeer, MethodId, Title]
  const TEMPLATES_SELECT :=
    [Col(Comment), Col(Amount), Col(CatId), Col(AccountId), Col(Payee), Col(TransferPeer), Col(MethodId), Col(Title)]

  const TEMPLATES_COPY := InsertSelect(Templates, TEMPLATES_INTO, TemplatesOld, TEMPLATES_SELECT)

  const STEP24 := [AddColumn(Templates, TEMPLATES_USAGES_V24)]

  const STEP25 := [SetWhereNull(Transactions, TransferPeer, Int(0))]

  const STEP26 := [AddColumn(Accounts, ACCOUNTS_COLOR_V26)]

  const STEP27 := [CreateTable(FeatureUsed, FEATURE_USED_CREATE)]

  // ---- steps ----

  /** Version 17: `accounts` is dropped and recreated, empty. */
  function Step17(db: Db, rescale: Value -> Value): Run { RunAll(db, STEP17, rescale) }

  /** Version 18: the `payee` table, and a `payee` column on `expenses`. */
  function Step18(db: Db, rescale: Value -> Value): Run { RunAll(db, STEP18, rescale) }

  /** Version 19: a `transfer_peer` column on `expenses`. */
  function Step19(db: Db, rescale: Value -> Value): Run { RunAll(db, STEP19, rescale) }

  /** Version 20: `expenses` becomes `transactions`, and `accounts` is rebuilt. */
  function Step20(db: Db, rescale: Value -> Value): Run {
    RunAll(db, STEP20_TRANSACTIONS + STEP20_ACCOUNTS, rescale)
  }

  /** Version 21: the two payment-method tables, their seeding, then two new columns. */
  function Step21(db: Db, pms: seq<PreDefined>, rescale: Value -> Value): Run {
    var r := RunAll(db, STEP21_CREATE, rescale);
    if r.outcome.Failed? then r else RunAll(Seed(r.db, pms), STEP21_ALTER, rescale)
  }

  /** Version 22: the `templates` table, without a unique key. */
  function Step22(db: Db, rescale: Value -> Value): Run { RunAll(db, STEP22, rescale) }

  /**
   * Version 23: rebuild `templates` under unique(account_id, title). A
   * constraint violation while copying is caught and ignored, so the new
   * table then stays empty; any other failure propagates. `templates_old`
   * is dropped either way.
   */
  function Step23(db: Db, rescale: Value -> Value): Run {
    var r := RunAll(db, STEP23_REBUILD, rescale);
    if r.outcome.Failed? then r else CopyAndDrop(r.db, rescale)
  }

  /** The guarded copy of version 23 and the drop of `templates_old` after it. */
  function CopyAndDrop(db: Db, rescale: Value -> Value): Run {
    var c := Execute(db, TEMPLATES_COPY, rescale);
    if c.outcome.Failed? && c.outcome.error != ConstraintViolation then c
    else Execute(c.db, DropTable(TemplatesOld), rescale)
  }

  /** Version 24: a `usages` column on `templates`. */
  function Step24(db: Db, rescale: Value -> Value): Run { RunAll(db, STEP24, rescale) }

  /** Version 25: `transfer_peer` NULL becomes 0 in `transactions`. */
  function Step25(db: Db, rescale: Value -> Value): Run { RunAll(db, STEP25, rescale) }

  /** Version 26: a `color` column on `accounts`. */
  function Step26(db: Db, rescale: Value -> Value): Run { RunAll(db, STEP26, rescale) }

  /** Version 27: the `feature_used` table. */
  function Step27(db: Db, rescale: Value -> Value): Run { RunAll(db, STEP27, rescale) }

  /** The step with threshold k; a threshold outside 17..27 names no step and changes nothing. */
  function Step(k: int, db: Db, pms: seq<PreDefined>, rescale: Value -> Value): Run {
    if FIRST_STEP <= k < 23 then EarlyStep(k, db, pms, rescale)
    else if 23 <= k <= LAST_STEP then LateStep(k, db, rescale)
    else Run(db, Done)
  }

  /** The steps with thresholds 17 to 22. */
  function EarlyStep(k: int, db: Db, pms: seq<PreDefined>, rescale: Value -> Value): Run
    requires FIRST_STEP <= k < 23
  {
    if k == 17 then Step17(db, rescale)
    else if k == 18 then Step18(db, rescale)
    else if k == 19 then Step19(db, rescale)
    else if k == 20 then Step20(db, rescale)
    else if k == 21 then Step21(db, pms, rescale)
    else Step22(db, rescale)
  }

  /** The steps with thresholds 23 to 27. */
  function LateStep(k: int, db: Db, rescale: Value -> Value): Run
    requires 23 <= k <= LAST_STEP
  {
    if k == 23 then Step23(db, rescale)
    else if k == 24 then Step24(db, rescale)
    else if k == 25 then Step25(db, rescale)
    else if k == 26 then Step26(db, rescale)
    else Step27(db, rescale)
  }

  /** The steps of this helper, as a function of threshold and store. */
  function Steps(pms: seq<PreDefined>, rescale: Value -> Value): (int, Db) -> Run {
    (k: int, db: Db) => Step(k, db, pms, rescale)
  }

  /** The ladder from threshold k on, for recorded version v. */
  function Ladder(db: Db, v: int, k: int, step: (int, Db) -> Run): Run
    decreases LAST_STEP + 1 - k
  {
    if k > LAST_STEP then Run(db, Done)
    else if v < k then
      var r := step(k, db);
      if r.outcome.Failed? then r else Ladder(r.db, v, k + 1, step)
    else Ladder(db, v, k + 1, step)
  }

  /** `onUpgrade(db, oldVersion, newVersion)`; `newVersion` plays no part. */
  function Upgrade(db: Db, oldVersion: int, pms: seq<PreDefined>, rescale: Value -> Value): Run {
    Ladder(db, oldVersion, FIRST_STEP, Steps(pms, rescale))
  }

  /** At a threshold of the ladder: step k runs iff v < k, and unless it raises the ladder goes on at k + 1. */
  lemma LadderNext(db: Db, v: int, k: int, pms: seq<PreDefined>, rescale: Value -> Value)
    requires FIRST_STEP <= k <= LAST_STEP
    ensures Ladder(db, v, k, Steps(pms, rescale))
         == if v < k then
              var r := Step(k, db, pms, rescale);
              if r.outcome.Failed? then r else Ladder(r.db, v, k + 1, Steps(pms, rescale))
            else Ladder(db, v, k + 1, Steps(pms, rescale))
  {
  }

  // ---- which steps run ----

  /** The thresholds from k on that the recorded version v is below, in order. */
  function StepsFrom(v: int, k: int): seq<int>
    decreases LAST_STEP + 1 - k
  {
    if k > LAST_STEP then [] else (if v < k then [k] else []) + StepsFrom(v, k + 1)
  }

  function StepsRun(v: int): seq<int> {
    StepsFrom(v, FIRST_STEP)
  }

  /** Running a list of steps one after the other, stopping at the first failure. */
  function RunSteps(db: Db, ks: seq<int>, step: (int, Db) -> Run): Run
    decreases |ks|
  {
    if ks == [] then Run(db, Done)
    else
      var r := step(ks[0], db);
      if r.outcome.Failed? then r else RunSteps(r.db, ks[1..], step)
  }

  /** The consecutive thresholds lo, lo + 1, ..., hi - 1. */
  function Range(lo: int, hi: int): seq<int>
    decreases hi - lo
  {
    if lo >= hi then [] else [lo] + Range(lo + 1, hi)
  }

  function Max(a: int, b: int): int {
    if a >= b then a else b
  }

  lemma {:induction false} StepsFromRange(v: int, k: int)
    requires k <= LAST_STEP + 1
    ensures StepsFrom(v, k) == Range(Max(k, v + 1), LAST_STEP + 1)
    decreases LAST_STEP + 1 - k
  {
    if k <= LAST_STEP {
      StepsFromRange(v, k + 1);
      if v >= k {
        assert Max(k, v + 1) == Max(k + 1, v + 1);
      }
    }
  }

  lemma {:induction false} RangeMembers(lo: int, hi: int)
    ensures forall k :: k in Range(lo, hi) <==> lo <= k < hi
    ensures forall i, j :: 0 <= i < j < |Range(lo, hi)| ==> Range(lo, hi)[i] < Range(lo, hi)[j]
    ensures lo <= hi ==> |Range(lo, hi)| == hi - lo
    decreases hi - lo
  {
    if lo < hi {
      RangeMembers(lo + 1, hi);
      var r := Range(lo, hi);
      assert r == [lo] + Range(lo + 1, hi);
      forall i, j | 0 <= i < j < |r| ensures r[i] < r[j] {
        if i > 0 {
          assert r[i] == Range(lo + 1, hi)[i - 1] && r[j] == Range(lo + 1, hi)[j - 1];
        } else {
          assert r[j] in Range(lo + 1, hi);
        }
      }
    }
  }

  /**
   * Exactly the thresholds k in 17..27 with v < k run, in strictly
   * ascending order (so each at most once): the steps from max(17, v + 1)
   * through 27.
   */
  lemma StepsRunExactly(v: int)
    ensures StepsRun(v) == Range(Max(FIRST_STEP, v + 1), LAST_STEP + 1)
    ensures forall k :: k in StepsRun(v) <==> FIRST_STEP <= k <= LAST_STEP && v < k
    ensures forall i, j :: 0 <= i < j < |StepsRun(v)| ==> StepsRun(v)[i] < StepsRun(v)[j]
    ensures v < FIRST_STEP ==> |StepsRun(v)| == LAST_STEP - FIRST_STEP + 1
    ensures v >= LAST_STEP ==> StepsRun(v) == []
  {
    StepsFromRange(v, FIRST_STEP);
    RangeMembers(Max(FIRST_STEP, v + 1), LAST_STEP + 1);
  }

  /** The ladder runs exactly the listed steps. */
  lemma {:induction false} LadderRunsSteps(db: Db, v: int, k: int, step: (int, Db) -> Run)
    ensures Ladder(db, v, k, step) == RunSteps(db, StepsFrom(v, k), step)
    decreases LAST_STEP + 1 - k
  {
    if k <= LAST_STEP {
      if v < k {
        var r := step(k, db);
        LadderRunsSteps(r.db, v, k + 1, step);
        assert StepsFrom(v, k) == [k] + StepsFrom(v, k + 1);
        assert StepsFrom(v, k)[1..] == StepsFrom(v, k + 1);
      } else {
        LadderRunsSteps(db, v, k + 1, step);
        assert [] + StepsFrom(v, k + 1) == StepsFrom(v, k + 1);
      }
    }
  }

  /** `onUpgrade` runs the steps `StepsRun(oldVersion)` and nothing else. */
  lemma UpgradeRunsSteps(db: Db, oldVersion: int, pms: seq<PreDefined>, rescale: Value -> Value)
    ensures Upgrade(db, oldVersion, pms, rescale) == RunSteps(db, StepsRun(oldVersion), Steps(pms, rescale))
  {
    LadderRunsSteps(db, oldVersion, FIRST_STEP, Steps(pms, rescale));
  }

  /** From the current version or a later one, upgrading changes nothing. */
  lemma UpgradeFromCurrentIsNoOp(db: Db, oldVersion: int, pms: seq<PreDefined>, rescale: Value -> Value)
    requires oldVersion >= DATABASE_VERSION
    ensures Upgrade(db, oldVersion, pms, rescale) == Run(db, Done)
  {
    UpgradeRunsSteps(db, oldVersion, pms, rescale);
    StepsRunExactly(oldVersion);
  }
}
