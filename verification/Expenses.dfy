/** Expenses booked by hand or taken over from Revolut, their receipts, and imported rows staged as possible duplicates.
    */
module Expenses {
  import opened Prelude
  import opened Calendar
  import opened Text

  datatype Channel = Contant | Digitaal | KasBij

  /** Amounts in cents. A row with an external identifier came from Revolut, a row without one was booked by hand. */
  datatype Expense = Expense(amount: int, spent: Date, description: string, purpose: string, channel: Channel,
      external: Option<string>)

  /** A Revolut row that has the amount and date of the manual expense `matched`. */
  datatype Review = Review(amount: int, spent: Date, description: string, purpose: string, external: string,
      matched: nat)

  /** `receipts` maps a receipt to its expense. */
  datatype Books = Books(expenses: Table<Expense>, reviews: Table<Review>, receipts: map<nat, nat>)

  datatype BookError = NotFound | MissingExternal | AmountNotPositive | AmountZero
   | InvalidPurpose | ConstraintViolation

  type BookOutcome<T> = Result<T, BookError>

  predicate ValidPurpose(s: string) { s == "lunchkraam" || s == "avondeten" }

  // ----- Queries -----

  function FindExpense(expenses: map<nat, Expense>, external: string, n: nat): (r: Option<nat>)
    ensures r.Some? ==> r.value in expenses && expenses[r.value].external == Some(external)
    ensures r.None? ==> forall e :: e in expenses && e < n ==> expenses[e].external != Some(external)
  {
    if n == 0 then None
    else if n - 1 in expenses && expenses[n - 1].external == Some(external) then Some(n - 1)
    else FindExpense(expenses, external, n - 1)
  }

  predicate IsManualMatch(row: Expense, amount: int, spent: Date) {
    row.external.None? && row.amount == amount && row.spent == spent
  }

  /** FindMatchingManualExpenses, as the set of ids. */
  function ManualMatches(expenses: map<nat, Expense>, amount: int, spent: Date): set<nat> {
    set e | e in expenses && IsManualMatch(expenses[e], amount, spent)
  }

  predicate Booked(b: Books, external: string) {
    exists e :: e in b.expenses.rows && b.expenses.rows[e].external == Some(external)
  }

  predicate Staged(b: Books, external: string) {
    exists r :: r in b.reviews.rows && b.reviews.rows[r].external == external
  }

  // ----- Operations -----

  function InsertExpense(b: Books, amount: int, spent: Date, description: string, purpose: string,
      channel: Channel): BookOutcome<Books> {
    if amount == 0 then Err(AmountZero)
    else if !ValidPurpose(purpose) || (channel == KasBij <==> amount > 0) then Err(ConstraintViolation)
    else Ok(b.(expenses := b.expenses.Insert(Expense(amount, spent, Trim(description), purpose, channel, None))))
  }

  /** The row that an import writes over an existing one. */
  function Overwrite(row: Expense, amount: int, spent: Date, description: string, purpose: string): Expense {
    row.(amount := amount, spent := spent, description := description, purpose := purpose, channel := Digitaal)
  }

  /** upsertImportedShopExpense: the books, and the id of the row written. */
  function UpsertExpense(b: Books, ext: string, amount: int, spent: Date, desc: string,
      purpose: string): BookOutcome<(Books, nat)> {
    var external := Trim(ext);
    var description := Trim(desc);
    if external == "" then Err(MissingExternal)
    else if amount <= 0 then Err(AmountNotPositive)
    else if !ValidPurpose(purpose) then Err(ConstraintViolation)
    else
      var existing := FindExpense(b.expenses.rows, external, b.expenses.next);
      if existing.None? then
        Ok((b.(expenses := b.expenses.Insert(Expense(amount, spent, description, purpose, Digitaal,
            Some(external)))), b.expenses.next))
      else
        Ok((b.(expenses := b.expenses.Put(existing.value,
            Overwrite(b.expenses.rows[existing.value], amount, spent, description, purpose))),
            existing.value))
  }

  /** InsertPendingImportReview: ON CONFLICT (source, external_id) DO NOTHING. */
  function StageReview(b: Books, row: Review): BookOutcome<Books> {
    if row.amount <= 0 || !ValidPurpose(row.purpose) then Err(ConstraintViolation)
    else if Staged(b, row.external) then Ok(b)
    else if row.matched !in b.expenses.rows then Err(ConstraintViolation)
    else Ok(b.(reviews := b.reviews.Insert(row)))
  }

  function MoveReceipts(receipts: map<nat, nat>, from: nat, to: nat): map<nat, nat> {
    map k | k in receipts :: if receipts[k] == from then to else receipts[k]
  }

  /** DELETE FROM shop_expenses: receipts and staged reviews of the row cascade. */
  function DropExpense(b: Books, e: nat): Books {
    Books(b.expenses.(rows := b.expenses.rows - {e}),
          b.reviews.(rows := map r | r in b.reviews.rows && b.reviews.rows[r].matched != e :: b.reviews.rows[r]),
          map k | k in b.receipts && b.receipts[k] != e :: b.receipts[k])
  }

  function DropReview(b: Books, r: nat): Books {
    b.(reviews := b.reviews.(rows := b.reviews.rows - {r}))
  }

  /** Receipts move to the Revolut expense, the review goes, then the manual expense with whatever still points at it.
      */
  function Replaced(books: Books, r: nat, matched: nat, id: nat): Books {
    DropExpense(DropReview(books.(receipts := MoveReceipts(books.receipts, matched, id)), r), matched)
  }

  function MergeReview(b: Books, r: nat): BookOutcome<Books> {
    if r !in b.reviews.rows then Err(NotFound)
    else
      var row := b.reviews.rows[r];
      var written := UpsertExpense(b, row.external, row.amount, row.spent, row.description, row.purpose);
      if written.Err? then Err(written.error)
      else
        var (books, id) := written.value;
        Ok(Replaced(books, r, row.matched, id))
  }

  function DeleteReview(b: Books, r: nat): BookOutcome<Books> {
    if r !in b.reviews.rows then Err(NotFound) else Ok(DropReview(b, r))
  }

  function DeleteExpense(b: Books, e: nat): BookOutcome<Books> {
    if e !in b.expenses.rows then Err(NotFound) else Ok(DropExpense(b, e))
  }

  function UpdatePurpose(b: Books, e: nat, purpose: string): BookOutcome<Books> {
    if !ValidPurpose(purpose) then Err(InvalidPurpose)
    else if e !in b.expenses.rows then Err(NotFound)
    else Ok(b.(expenses := b.expenses.Put(e, b.expenses.rows[e].(purpose := purpose))))
  }

  /** A receipt uploaded for an expense. */
  function AttachReceipt(b: Books, k: nat, e: nat): BookOutcome<Books> {
    if e !in b.expenses.rows || k in b.receipts then
      Err(ConstraintViolation) else Ok(b.(receipts := b.receipts[k := e]))
  }

  // ----- What every operation keeps -----

  ghost predicate UniqueExternals(b: Books) {
    && (forall d, e ::
          (d in b.expenses.rows && e in b.expenses.rows && b.expenses.rows[d].external.Some?
           && b.expenses.rows[d].external == b.expenses.rows[e].external) ==> d == e)
    && (forall q, r ::
          (q in b.reviews.rows && r in b.reviews.rows && b.reviews.rows[q].external == b.reviews.rows[r].external) ==>
            q == r)
  }

  /** A staged review agrees in amount and date with a manual expense. */
  ghost predicate ReviewFits(expenses: map<nat, Expense>, row: Review) {
    && row.matched in expenses && IsManualMatch(expenses[row.matched], row.amount, row.spent)
    && row.amount > 0 && ValidPurpose(row.purpose) && row.external != "" && Trimmed(row.external)
  }

  ghost predicate ReviewsFit(b: Books) {
    forall r :: r in b.reviews.rows ==> ReviewFits(b.expenses.rows, b.reviews.rows[r])
  }

  predicate ReceiptsFit(b: Books) {
    forall k :: k in b.receipts ==> b.receipts[k] in b.expenses.rows
  }

  ghost predicate ImportsPositive(b: Books) {
    forall e :: e in b.expenses.rows && b.expenses.rows[e].external.Some? ==> b.expenses.rows[e].amount > 0
  }

  ghost predicate BooksOk(b: Books) {
    b.expenses.Valid() && b.reviews.Valid() && UniqueExternals(b) && ReviewsFit(b) && ReceiptsFit(b)
        && ImportsPositive(b)
  }

  lemma UpsertKeeps(b: Books, ext: string, amount: int, spent: Date, desc: string, purpose: string)
    requires BooksOk(b) && UpsertExpense(b, ext, amount, spent, desc, purpose).Ok?
    ensures BooksOk(UpsertExpense(b, ext, amount, spent, desc, purpose).value.0)
  {}

  lemma StageKeeps(b: Books, row: Review)
    requires BooksOk(b) && StageReview(b, row).Ok?
    requires row.matched in b.expenses.rows && IsManualMatch(b.expenses.rows[row.matched], row.amount, row.spent)
    requires row.external != "" && Trimmed(row.external)
    ensures BooksOk(StageReview(b, row).value)
  {}

  lemma DropExpenseKeeps(b: Books, e: nat)
    requires BooksOk(b)
    ensures BooksOk(DropExpense(b, e))
  {}

  lemma DropReviewKeeps(b: Books, r: nat)
    requires BooksOk(b)
    ensures BooksOk(DropReview(b, r))
  {}

  lemma MoveReceiptsKeeps(b: Books, from: nat, to: nat)
    requires BooksOk(b) && to in b.expenses.rows
    ensures BooksOk(b.(receipts := MoveReceipts(b.receipts, from, to)))
  {}

  lemma ManualKeeps(b: Books, amount: int, spent: Date, description: string, purpose: string, channel: Channel)
    requires BooksOk(b) && InsertExpense(b, amount, spent, description, purpose, channel).Ok?
    ensures BooksOk(InsertExpense(b, amount, spent, description, purpose, channel).value)
  {}

  lemma UpdatePurposeKeeps(b: Books, e: nat, purpose: string)
    requires BooksOk(b) && UpdatePurpose(b, e, purpose).Ok?
    ensures BooksOk(UpdatePurpose(b, e, purpose).value)
  {}

  // ----- Merging a duplicate -----

  function SpentOn(day: Date): (nat, Expense) -> int {
    (e, row: Expense) => if row.spent == day then row.amount else 0
  }

  function DayTotal(b: Books, day: Date): int { Total(b.expenses.rows, SpentOn(day), b.expenses.next) }

  /** The merge of a staged review never fails. It replaces the manual expense by the Revolut one, moves every receipt
      of the first to the second, and removes exactly the reviews that pointed at the first. */
  lemma MergeOutcome(b: Books, r: nat)
    requires BooksOk(b) && r in b.reviews.rows
    ensures MergeReview(b, r).Ok? && BooksOk(MergeReview(b, r).value)
    ensures MergedInto(b, r).Some?
    ensures var after, row, id := MergeReview(b, r).value, b.reviews.rows[r], MergedInto(b, r).value;
      && id in after.expenses.rows && id != row.matched
      && after.expenses.rows[id] ==
           Expense(row.amount, row.spent, Trim(row.description), row.purpose, Digitaal, Some(row.external))
      && after.expenses.rows.Keys == b.expenses.rows.Keys - {row.matched} + {id}
      && (forall e :: e in b.expenses.rows && e != id && e != row.matched ==>
            after.expenses.rows[e] == b.expenses.rows[e])
      && after.receipts == MoveReceipts(b.receipts, row.matched, id)
      && after.reviews.rows == map q | q in b.reviews.rows
      && b.reviews.rows[q].matched != row.matched :: b.reviews.rows[q]
  {
    var row := b.reviews.rows[r];
    assert ReviewFits(b.expenses.rows, row);
    var written := UpsertExpense(b, row.external, row.amount, row.spent, row.description, row.purpose);
    UpsertKeeps(b, row.external, row.amount, row.spent, row.description, row.purpose);
    ReplacedKeeps(written.value.0, r, row.matched, written.value.1);
    ReplacedTables(written.value.0, r, row.matched, written.value.1);
    hide BooksOk;
  }

  lemma ReplacedKeeps(books: Books, r: nat, matched: nat, id: nat)
    requires BooksOk(books) && id in books.expenses.rows
    ensures BooksOk(Replaced(books, r, matched, id))
  {
    hide BooksOk;
    var moved := books.(receipts := MoveReceipts(books.receipts, matched, id));
    MoveReceiptsKeeps(books, matched, id);
    DropReviewKeeps(moved, r);
    DropExpenseKeeps(DropReview(moved, r), matched);
  }

  lemma ReplacedTables(books: Books, r: nat, matched: nat, id: nat)
    requires r in books.reviews.rows && books.reviews.rows[r].matched == matched && id != matched
    ensures Replaced(books, r, matched, id).receipts == MoveReceipts(books.receipts, matched, id)
    ensures Replaced(books, r, matched, id).reviews.rows == map q | q in books.reviews.rows
      && books.reviews.rows[q].matched != matched :: books.reviews.rows[q]
  {}

  /** The Revolut expense that a merge of `r` writes. */
  function MergedInto(b: Books, r: nat): Option<nat> {
    if r !in b.reviews.rows then None
    else
      var row := b.reviews.rows[r];
      var written := UpsertExpense(b, row.external, row.amount, row.spent, row.description, row.purpose);
      if written.Ok? then Some(written.value.1) else None
  }

  /** What was already booked under this identifier for the given day. */
  function BookedOn(b: Books, external: string, day: Date): int {
    var e := FindExpense(b.expenses.rows, external, b.expenses.next);
    if e.Some? && b.expenses.rows[e.value].spent == day then b.expenses.rows[e.value].amount else 0
  }

  /** A merge takes from each day what was already booked under the review's identifier, and nothing else. */
  lemma MergeDayTotals(b: Books, r: nat, day: Date)
    requires BooksOk(b) && r in b.reviews.rows
    ensures MergeReview(b, r).Ok?
    ensures DayTotal(MergeReview(b, r).value, day) == DayTotal(b, day) - BookedOn(b, b.reviews.rows[r].external, day)
  {
    var row := b.reviews.rows[r];
    assert ReviewFits(b.expenses.rows, row);
    MergeOutcome(b, r);
    hide BooksOk;
    var (books, id) := UpsertExpense(b, row.external, row.amount, row.spent, row.description, row.purpose).value;
    UpsertDayTotal(b, row.external, row.amount, row.spent, row.description, row.purpose, day);
    var after := MergeReview(b, r).value;
    assert row.matched < b.expenses.next
      <= books.expenses.next by { assert b.expenses.Valid() by { assert BooksOk(b); } }
    assert books.expenses.rows[row.matched] == b.expenses.rows[row.matched];
    TotalChange(books.expenses.rows, SpentOn(day), after.expenses.rows, SpentOn(day), books.expenses.next, row.matched);
  }

  lemma UpsertDayTotal(b: Books, external: string, amount: int, spent: Date, desc: string, purpose: string, day: Date)
    requires BooksOk(b) && Trimmed(external) && UpsertExpense(b, external, amount, spent, desc, purpose).Ok?
    ensures DayTotal(UpsertExpense(b, external, amount, spent, desc, purpose).value.0, day)
         == DayTotal(b, day) - BookedOn(b, external, day) + (if spent == day then amount else 0)
  {
    var (after, id) := UpsertExpense(b, external, amount, spent, desc, purpose).value;
    TotalGrow(b.expenses.rows, SpentOn(day), b.expenses.next, after.expenses.next);
    TotalChange(b.expenses.rows, SpentOn(day), after.expenses.rows, SpentOn(day), after.expenses.next, id);
  }

  /** A merge keeps the expense total of every day exactly when its identifier was not booked yet. */
  lemma MergeConserves(b: Books, r: nat)
    requires BooksOk(b) && r in b.reviews.rows
    ensures MergeReview(b, r).Ok?
    ensures (forall day :: DayTotal(MergeReview(b, r).value, day) == DayTotal(b, day)) <==>
      !Booked(b, b.reviews.rows[r].external)
  {
    MergeOutcome(b, r);
    var external := b.reviews.rows[r].external;
    var e := FindExpense(b.expenses.rows, external, b.expenses.next);
    forall day ensures DayTotal(MergeReview(b, r).value, day)
      == DayTotal(b, day) - BookedOn(b, external, day) { MergeDayTotals(b, r, day); }
    if e.Some? {
      assert BookedOn(b, external, b.expenses.rows[e.value].spent) > 0;
    }
  }
}
