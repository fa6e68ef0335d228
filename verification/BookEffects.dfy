/** When each operation on the expenses succeeds and what it leaves behind, said of the rows themselves. */
module BookEffects {
  import opened Prelude
  import opened Calendar
  import opened Text
  import opened Expenses
  import opened RevolutImport
  import opened ImportRuns
  import opened Statements

  // ----- Expenses -----

  /** Row `e` is now the only one with the identifier and says this; every other expense is as before, and so are
      receipts and reviews. */
  ghost predicate WrittenAt(b: Books, after: Books, e: nat, row: Expense) {
    && after == b.(expenses := after.expenses)
    && after.expenses.rows == b.expenses.rows[e := row]
    && after.expenses.next == (if e in b.expenses.rows then b.expenses.next else b.expenses.next + 1)
    && (e in b.expenses.rows ==> b.expenses.rows[e].external == row.external)
    && (e !in b.expenses.rows ==> e == b.expenses.next)
    && forall d :: d in b.expenses.rows && d != e ==> b.expenses.rows[d].external != row.external
  }

  /** A Revolut expense is written exactly if it has an identifier, a positive amount and one of the two purposes. The
      one row of the identifier then says what was written. */
  lemma UpsertEffect(b: Books, ext: string, amount: int, spent: Date, desc: string, purpose: string)
    requires BooksOk(b)
    ensures var r := UpsertExpense(b, ext, amount, spent, desc, purpose);
      && (r.Ok? <==> Trim(ext) != "" && amount > 0 && purpose in {"lunchkraam", "avondeten"})
      && (r == Err(MissingExternal) <==> Trim(ext) == "")
      && (r.Ok? ==> WrittenAt(b, r.value.0, r.value.1,
            Expense(amount, spent, Trim(desc), purpose, Digitaal, Some(Trim(ext)))))
  {
    hide Trim;
  }

  /** An expense booked by hand takes a row of its own. Its amount is positive, except for what goes back into
      the till. */
  lemma InsertEffect(b: Books, amount: int, spent: Date, description: string, purpose: string, channel: Channel)
    ensures var r := InsertExpense(b, amount, spent, description, purpose, channel);
      && (r.Ok? <==> purpose in {"lunchkraam", "avondeten"} && if channel == KasBij then amount < 0 else amount > 0)
      && (r.Ok? ==> r.value == b.(expenses := Table(
            b.expenses.rows[b.expenses.next := Expense(amount, spent, Trim(description), purpose, channel, None)],
            b.expenses.next + 1)))
  {
    hide Trim;
  }

  lemma PurposeEffect(b: Books, e: nat, purpose: string)
    ensures var r := UpdatePurpose(b, e, purpose);
      && (r.Ok? <==> e in b.expenses.rows && purpose in {"lunchkraam", "avondeten"})
      && (r == Err(InvalidPurpose) <==> purpose !in {"lunchkraam", "avondeten"})
      && (r.Ok? ==>
            r.value
              == b.(expenses := b.expenses.(rows := b.expenses.rows[e := b.expenses.rows[e].(purpose := purpose)])))
  {}

  // ----- Reviews and receipts -----

  /** A possible duplicate is staged beside the expense it resembles, once per identifier. */
  lemma StageEffect(b: Books, row: Review)
    ensures var r, known := StageReview(b, row), exists q ::
        q in b.reviews.rows && b.reviews.rows[q].external == row.external;
      && (r.Ok? <==>
            && row.amount > 0 && row.purpose in {"lunchkraam", "avondeten"}
            && (known || row.matched in b.expenses.rows))
      && (r.Ok? && known ==> r.value == b)
      && (r.Ok? && !known ==>
            r.value == b.(reviews := Table(b.reviews.rows[b.reviews.next := row], b.reviews.next + 1)))
  {}

  /** Deleting an expense takes its receipts and the reviews staged beside it along, and nothing else. */
  lemma DropEffect(b: Books, e: nat)
    ensures DeleteExpense(b, e).Ok? <==> e in b.expenses.rows
    ensures DeleteExpense(b, e).Err? ==> DeleteExpense(b, e).error == NotFound
    ensures DeleteExpense(b, e).Ok? ==>
      var after := DeleteExpense(b, e).value;
      && after.expenses == b.expenses.(rows := b.expenses.rows - {e}) && after.reviews.next == b.reviews.next
      && (forall r :: r in after.reviews.rows <==> r in b.reviews.rows && b.reviews.rows[r].matched != e)
      && (forall r :: r in after.reviews.rows ==> after.reviews.rows[r] == b.reviews.rows[r])
      && (forall k :: k in after.receipts <==> k in b.receipts && b.receipts[k] != e)
      && (forall k :: k in after.receipts ==> after.receipts[k] == b.receipts[k])
  {}

  /** Dismissing a review removes that review alone. */
  lemma DismissEffect(b: Books, r: nat)
    ensures DeleteReview(b, r).Ok? <==> r in b.reviews.rows
    ensures DeleteReview(b, r).Ok? ==>
      DeleteReview(b, r).value == b.(reviews := b.reviews.(rows := b.reviews.rows - {r}))
  {}

  /** In a merge every receipt of the manual expense becomes one of the Revolut expense, and no other receipt moves. */
  lemma MergeEffect(b: Books, r: nat)
    requires BooksOk(b) && r in b.reviews.rows
    ensures MergeReview(b, r).Ok? && MergedInto(b, r).Some?
    ensures var after, matched, e := MergeReview(b, r).value, b.reviews.rows[r].matched, MergedInto(b, r).value;
      && after.receipts.Keys == b.receipts.Keys
      && (forall k :: k in b.receipts ==> after.receipts[k] == if b.receipts[k] == matched then e else b.receipts[k])
      && e in after.expenses.rows && after.expenses.rows[e].external == Some(b.reviews.rows[r].external)
      && matched !in after.expenses.rows
  {
    MergeOutcome(b, r);
    hide BooksOk, MergeReview, MergedInto;
  }

  // ----- One row of an import -----

  /** What the import of one expense row leaves behind. A row that is skipped touches no table. One that is to be
      reviewed adds a review beside the manual expense of its amount and date, unless its identifier is staged already.
      Any other is written as the expense of its identifier. The counter of what happened goes up by one. */
  lemma RowEffect(env: Env, o: Options, p: Progress, row: Row)
    requires EnvOk(env) && BooksOk(p.books) && ValidPurpose(o.purpose) && p.failed.None?
    ensures var after, s := ImportRow(env, o, p, row), ScreenDebit(env, o, ParseSkipTypes(o.skipTypes), row);
      && after.failed.None?
      && (s.Rejected? ==> after.books == p.books && CountsSkip(p.counts, after.counts, s.reason))
      && (s.Accepted? && Duplicates(p.books, s.item) ==>
            && after.counts == p.counts.(pending := p.counts.pending + 1)
            && exists matched :: SameByHand(p.books, matched, s.item) && Stages(p.books, after.books, s.item, matched))
      && (s.Accepted? && !Duplicates(p.books, s.item) ==>
            && after.counts == p.counts.(imported := p.counts.imported + 1)
            && exists e :: WrittenAt(p.books, after.books, e, ExpenseOf(s.item)))
  {
    var s := ScreenDebit(env, o, ParseSkipTypes(o.skipTypes), row);
    var plan := PlanDebit(env, Some(p.books), o, ParseSkipTypes(o.skipTypes), row);
    DebitPlanned(env, p.books, o, row);
    ScreenedOk(env, o, ParseSkipTypes(o.skipTypes), row);
    hide ScreenDebit, ParseSkipTypes, PlanDebit, EnvOk, BooksOk, Write, ItemOk, SameByHand, Stages, WrittenAt,
        CountDebit, CountsSkip;
    Counted(p.counts, plan);
    if s.Accepted? {
      if plan.PendingReview? {
        StagedEffect(p.books, s.item, plan.matched);
      } else {
        WrittenEffect(p.books, s.item, plan);
      }
    }
  }

  /** The expense that an item is booked as. */
  function ExpenseOf(item: Item): Expense {
    Expense(item.amount, item.date, Trim(item.description), item.purpose, Digitaal, Some(item.external))
  }

  /** One row more is skipped, for this reason. */
  ghost predicate CountsSkip(was: Counts, now: Counts, why: SkipReason) {
    && now == was.(skipped := was.skipped + 1, reasons := now.reasons)
    && forall reason :: CountOf(now.reasons, reason) == CountOf(was.reasons, reason) + if reason == why then 1 else 0
  }

  lemma Counted(c: Counts, plan: DebitPlan)
    ensures match plan
      case SkipRow(reason) => CountsSkip(c, CountDebit(c, plan), reason)
      case PendingReview(_, _) => CountDebit(c, plan) == c.(pending := c.pending + 1)
      case _ => CountDebit(c, plan) == c.(imported := c.imported + 1)
  {}

  lemma StagedEffect(b: Books, item: Item, matched: nat)
    requires ItemOk(item) && SameByHand(b, matched, item)
    ensures Write(b, PendingReview(item, matched)).Ok?
    ensures Stages(b, Write(b, PendingReview(item, matched)).value, item, matched)
  {
    StageEffect(b, Review(item.amount, item.date, item.description, item.purpose, item.external, matched));
    hide StageReview;
  }

  lemma WrittenEffect(b: Books, item: Item, plan: DebitPlan)
    requires BooksOk(b) && ItemOk(item) && (plan == UpdateExpense(item) || plan == NewExpense(item))
    ensures Write(b, plan).Ok? && exists e :: WrittenAt(b, Write(b, plan).value, e, ExpenseOf(item))
  {
    hide Trim, BooksOk;
    UpsertEffect(b, item.external, item.amount, item.date, item.description, item.purpose);
    hide UpsertExpense, WrittenAt;
    var r := UpsertExpense(b, item.external, item.amount, item.date, item.description, item.purpose);
    assert WrittenAt(b, Write(b, plan).value, r.value.1, ExpenseOf(item));
  }

  /** Not booked under its identifier yet, but booked by hand. */
  ghost predicate Duplicates(b: Books, item: Item) {
    && (forall e :: e in b.expenses.rows ==> b.expenses.rows[e].external != Some(item.external))
    && exists e :: SameByHand(b, e, item)
  }

  ghost predicate Stages(b: Books, after: Books, item: Item, matched: nat) {
    if exists q :: q in b.reviews.rows && b.reviews.rows[q].external == item.external then after == b
    else after == b.(reviews := Table(b.reviews.rows[b.reviews.next :=
      Review(item.amount, item.date, item.description, item.purpose, item.external, matched)], b.reviews.next + 1))
  }
}
