/**
 * The label expressions the helper builds for transaction queries: the
 * main label, the sub label and the short label of a transaction.
 *
 * Each is an SQL CASE expression, so SQL's three-valued logic decides which
 * branch is taken: a WHEN branch is taken only when its condition is TRUE,
 * never when it is FALSE or NULL.
 */
module Labels {

  datatype Option<T> = None | Some(value: T)

  /** SQL truth values. */
  datatype Tri = True | False | Unknown

  /** An integer column used as a condition: NULL is unknown, 0 is false, anything else is true. */
  function Truth(v: Option<int>): Tri {
    match v
    case None => Unknown
    case Some(n) => if n == 0 then False else True
  }

  function Not(a: Tri): Tri {
    match a
    case True => False
    case False => True
    case Unknown => Unknown
  }

  function And(a: Tri, b: Tri): Tri {
    if a == False || b == False then False
    else if a == True && b == True then True
    else Unknown
  }

  /** A category row: its label (`name` here) and its parent's id (0 for a main category). */
  datatype Category = Category(name: string, parentId: int)

  /** The `accounts` and `categories` tables, keyed by `_id`. */
  datatype Ledger = Ledger(accounts: map<int, string>, categories: map<int, Category>)

  /** The columns of a `transactions` row the labels read. */
  datatype TxRef = TxRef(catId: Option<int>, transferPeer: Option<int>)

  // ---- scalar subqueries: NULL when the id is NULL or no row matches ----

  /** (SELECT label FROM accounts WHERE _id = id) */
  function AccountLabel(l: Ledger, id: Option<int>): Option<string> {
    if id.Some? && id.value in l.accounts then Some(l.accounts[id.value]) else None
  }

  /** (SELECT label FROM categories WHERE _id = id) */
  function CategoryLabel(l: Ledger, id: Option<int>): Option<string> {
    if id.Some? && id.value in l.categories then Some(l.categories[id.value].name) else None
  }

  /** (SELECT parent_id FROM categories WHERE _id = id) */
  function ParentOf(l: Ledger, id: Option<int>): Option<int> {
    if id.Some? && id.value in l.categories then Some(l.categories[id.value].parentId) else None
  }

  // ---- the three expressions ----

  /** LABEL_MAIN: the account of a transfer, else the main category of the transaction's category. */
  function LabelMain(l: Ledger, t: TxRef): (r: Option<string>)
    ensures r.Some? && IsTransfer(t) ==> r.value in l.accounts.Values
    ensures r.Some? && !IsTransfer(t) ==> exists id :: id in l.categories && l.categories[id].name == r.value
  {
    if Truth(t.transferPeer) == True then AccountLabel(l, t.catId)
    else if Truth(t.catId) == True then
      if Truth(ParentOf(l, t.catId)) == True then CategoryLabel(l, ParentOf(l, t.catId))
      else CategoryLabel(l, t.catId)
    else None
  }

  /** LABEL_SUB: the transaction's own category, when that is a subcategory and this is no transfer. */
  function LabelSub(l: Ledger, t: TxRef): (r: Option<string>)
    ensures r.Some? ==> !IsTransfer(t)
    ensures r.Some? ==> exists id :: id in l.categories && l.categories[id].parentId != 0 && l.categories[id].name == r.value
  {
    if And(And(Not(Truth(t.transferPeer)), Truth(t.catId)), Truth(ParentOf(l, t.catId))) == True
    then CategoryLabel(l, t.catId)
    else None
  }

  /** SHORT_LABEL: the account of a transfer, else the transaction's own category. */
  function ShortLabel(l: Ledger, t: TxRef): (r: Option<string>)
    ensures r.Some? && IsTransfer(t) ==> r.value in l.accounts.Values
    ensures r.Some? && !IsTransfer(t) ==> t.catId.Some? && t.catId.value in l.categories && l.categories[t.catId.value].name == r.value
  {
    if Truth(t.transferPeer) == True then AccountLabel(l, t.catId)
    else CategoryLabel(l, t.catId)
  }

  /** The output column names, as the helper's alias constants give them. */
  const KEY_LABEL_MAIN := "label_sub"
  const KEY_LABEL_SUB := "label_main"
  const KEY_SHORT_LABEL := "label"

  /** The three labels of one row, under the column names a query result carries; no alias hides another. */
  function LabelColumns(l: Ledger, t: TxRef): (r: map<string, Option<string>>)
    ensures r.Keys == {"label_sub", "label_main", "label"} && |r| == 3
  {
    map[KEY_LABEL_MAIN := LabelMain(l, t), KEY_LABEL_SUB := LabelSub(l, t), KEY_SHORT_LABEL := ShortLabel(l, t)]
  }

  // ---- what the labels mean ----

  /** A transfer: `transfer_peer` is neither NULL nor 0. */
  predicate IsTransfer(t: TxRef) {
    t.transferPeer.Some? && t.transferPeer.value != 0
  }

  /** `s` is the main label of `t`: stated on the tables directly. */
  predicate MainLabelIs(l: Ledger, t: TxRef, s: string) {
    if IsTransfer(t) then
      t.catId.Some? && t.catId.value in l.accounts && l.accounts[t.catId.value] == s
    else
      && t.catId.Some? && t.catId.value != 0 && t.catId.value in l.categories
      && var c := l.categories[t.catId.value];
         if c.parentId != 0 then c.parentId in l.categories && l.categories[c.parentId].name == s
         else c.name == s
  }

  /**
   * The main label of a transfer is its account's label; otherwise, for a
   * non-zero `cat_id`, the parent category's label when the category has a
   * parent and its own label when it has none; otherwise NULL.
   */
  lemma LabelMainMeaning(l: Ledger, t: TxRef)
    ensures forall s :: LabelMain(l, t) == Some(s) <==> MainLabelIs(l, t, s)
  {
  }

  /** The sub label is present exactly for a non-transfer (peer 0) booked on a subcategory, and is that subcategory's label. */
  lemma LabelSubMeaning(l: Ledger, t: TxRef)
    ensures forall s :: LabelSub(l, t) == Some(s) <==>
      && t.transferPeer == Some(0)
      && t.catId.Some? && t.catId.value != 0 && t.catId.value in l.categories
      && l.categories[t.catId.value].parentId != 0
      && l.categories[t.catId.value].name == s
  {
  }

  /** The short label is the account of a transfer, else the transaction's own category, never its parent. */
  lemma ShortLabelMeaning(l: Ledger, t: TxRef)
    ensures forall s :: ShortLabel(l, t) == Some(s) <==>
      if IsTransfer(t) then t.catId.Some? && t.catId.value in l.accounts && l.accounts[t.catId.value] == s
      else t.catId.Some? && t.catId.value in l.categories && l.categories[t.catId.value].name == s
  {
  }

  /**
   * A NULL `transfer_peer` counts as "not a transfer" for the main label,
   * but hides the sub label: NOT NULL is NULL, so the sub label's WHEN is
   * never TRUE.
   */
  lemma NullPeerHidesSubLabel(l: Ledger, catId: Option<int>)
    ensures LabelMain(l, TxRef(catId, None)) == LabelMain(l, TxRef(catId, Some(0)))
    ensures LabelSub(l, TxRef(catId, None)) == None
    ensures ShortLabel(l, TxRef(catId, None)) == ShortLabel(l, TxRef(catId, Some(0)))
  {
  }

  /** With the sub label present, the short label is the sub label. */
  lemma ShortLabelIsSubLabel(l: Ledger, t: TxRef)
    requires LabelSub(l, t).Some?
    ensures ShortLabel(l, t) == LabelSub(l, t)
  {
  }

  /**
   * The short label agrees with the main label for a transfer and for a
   * transaction booked on a main category; on a subcategory it is the
   * subcategory's own label while the main label is its parent's.
   */
  lemma ShortLabelVersusMain(l: Ledger, t: TxRef)
    ensures IsTransfer(t) ==> ShortLabel(l, t) == LabelMain(l, t)
    ensures !IsTransfer(t) && t.catId.Some? && t.catId.value != 0 && t.catId.value in l.categories
            ==> var c := l.categories[t.catId.value];
                && ShortLabel(l, t) == Some(c.name)
                && (c.parentId == 0 ==> LabelMain(l, t) == Some(c.name))
                && (c.parentId != 0 ==> LabelMain(l, t) == CategoryLabel(l, Some(c.parentId)))
  {
  }

  /**
   * The alias constants are crossed: the column a query result calls
   * `label_sub` carries the main label, and `label_main` the sub label.
   */
  lemma LabelColumnsCrossed(l: Ledger, t: TxRef)
    ensures LabelColumns(l, t)["label_sub"] == LabelMain(l, t)
    ensures LabelColumns(l, t)["label_main"] == LabelSub(l, t)
    ensures LabelColumns(l, t)["label"] == ShortLabel(l, t)
  {
  }
}
