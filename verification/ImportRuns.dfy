/** The import as a pass over changing tables: it repeats without effect, and its preview tells what it will do. */
module ImportRuns {
  import opened Prelude
  import opened Calendar
  import opened Text
  import opened Expenses
  import opened RevolutImport

  // ----- The pass over the rows -----

  /** Where an import stands: the tables, the counters, and the error that stopped it, if any. */
  datatype Progress = Progress(books: Books, counts: Counts, failed: Option<BookError>)

  function Write(b: Books, plan: DebitPlan): BookOutcome<Books>
    requires !plan.SkipRow?
  {
    var item := plan.item;
    if plan.PendingReview? then
      StageReview(b, Review(item.amount, item.date, item.description, item.purpose, item.external, plan.matched))
    else
      var r := UpsertExpense(b, item.external, item.amount, item.date, item.description, item.purpose);
      if r.Ok? then Ok(r.value.0) else Err(r.error)
  }

  /** Each row is planned against the tables as the rows before it left them. */
  function ImportRow(env: Env, o: Options, p: Progress, row: Row): Progress {
    if p.failed.Some? then p
    else
      var plan := PlanDebit(env, Some(p.books), o, ParseSkipTypes(o.skipTypes), row);
      if plan.SkipRow? then p.(counts := CountDebit(p.counts, plan))
      else
        var r := Write(p.books, plan);
        if r.Err? then p.(failed := Some(r.error)) else Progress(r.value, CountDebit(p.counts, plan), None)
  }

  function ImportDebits(env: Env, o: Options, b: Books, rows: seq<Row>): Progress
    decreases |rows|
  {
    if rows == [] then Progress(b, ZERO, None)
    else ImportRow(env, o, ImportDebits(env, o, b, rows[..|rows| - 1]), rows[|rows| - 1])
  }

  // ----- The same pass over the accepted items alone -----

  function WriteItem(env: Env, b: Books, item: Item): Books {
    var r := Write(b, PlanItem(env, b, item));
    if r.Ok? then r.value else b
  }

  function WriteItems(env: Env, b: Books, items: seq<Item>): Books
    decreases |items|
  {
    if items == [] then b else WriteItem(env, WriteItems(env, b, items[..|items| - 1]), items[|items| - 1])
  }

  function AcceptedOf(s: Screened): seq<Item> { if s.Accepted? then [s.item] else [] }

  function Items(env: Env, o: Options, rows: seq<Row>): seq<Item>
    decreases |rows|
  {
    if rows == [] then []
    else Items(env, o, rows[..|rows| - 1]) + AcceptedOf(ScreenDebit(env, o, ParseSkipTypes(o.skipTypes),
        rows[|rows| - 1]))
  }

  /** Writing a sound item succeeds and keeps the books sound. */
  lemma WriteSucceeds(env: Env, b: Books, item: Item)
    requires EnvOk(env) && BooksOk(b) && ItemOk(item)
    ensures Write(b, PlanItem(env, b, item)).Ok? && BooksOk(WriteItem(env, b, item))
    ensures KeepsManual(b, WriteItem(env, b, item)) && GrowsExternals(b, WriteItem(env, b, item))
  {
    hide BooksOk;
    var plan := PlanItem(env, b, item);
    if plan.PendingReview? {
      var row := Review(item.amount, item.date, item.description, item.purpose, item.external, plan.matched);
      assert plan.matched in ManualMatches(b.expenses.rows, item.amount, item.date);
      StageKeeps(b, row);
      StageGrows(b, row);
    } else {
      UpsertKeeps(b, item.external, item.amount, item.date, item.description, item.purpose);
      UpsertKeepsManual(b, item);
    }
  }

  /** Manual expenses are left as they are and none appears. */
  ghost predicate KeepsManual(b: Books, after: Books) {
    && (forall e :: e in b.expenses.rows && b.expenses.rows[e].external.None? ==>
            e in after.expenses.rows && after.expenses.rows[e] == b.expenses.rows[e])
    && (forall e :: e in after.expenses.rows && after.expenses.rows[e].external.None? ==>
            e in b.expenses.rows && b.expenses.rows[e].external.None?)
    && after.receipts == b.receipts
  }

  ghost predicate GrowsExternals(b: Books, after: Books) {
    && (forall x :: Booked(b, x) ==> Booked(after, x))
    && (forall x :: Staged(b, x) ==> Staged(after, x))
  }

  lemma StageGrows(b: Books, row: Review)
    requires BooksOk(b) && StageReview(b, row).Ok?
    ensures KeepsManual(b, StageReview(b, row).value) && GrowsExternals(b, StageReview(b, row).value)
  {
    var after := StageReview(b, row).value;
    assert after.expenses == b.expenses;
    forall x | Staged(b, x) ensures Staged(after, x) {
      var r :| r in b.reviews.rows && b.reviews.rows[r].external == x;
      assert b.reviews.Valid() && after.reviews.rows[r].external == x;
    }
  }

  lemma UpsertKeepsManual(b: Books, item: Item)
    requires BooksOk(b) && ItemOk(item)
      && UpsertExpense(b, item.external, item.amount, item.date, item.description, item.purpose).Ok?
    ensures var after := UpsertExpense(b, item.external, item.amount, item.date, item.description,
        item.purpose).value.0;
      KeepsManual(b, after) && GrowsExternals(b, after)
  {
    var (after, id) := UpsertExpense(b, item.external, item.amount, item.date, item.description, item.purpose).value;
    assert b.expenses.Valid();
    forall x | Booked(b, x) ensures Booked(after, x) {
      var e :| e in b.expenses.rows && b.expenses.rows[e].external == Some(x);
      assert after.expenses.rows[e].external == Some(x);
    }
  }

  /** One row: a rejected row changes nothing, an accepted one is written. */
  lemma RowIsWritten(env: Env, o: Options, p: Progress, row: Row)
    requires EnvOk(env) && BooksOk(p.books) && ValidPurpose(o.purpose) && p.failed.None?
    ensures var s, after := ScreenDebit(env, o, ParseSkipTypes(o.skipTypes), row), ImportRow(env, o, p, row);
      && after.failed.None? && BooksOk(after.books)
      && after.counts == CountDebit(p.counts, PlanDebit(env, Some(p.books), o, ParseSkipTypes(o.skipTypes), row))
      && (s.Rejected? ==> after.books == p.books)
      && (s.Accepted? ==> ItemOk(s.item) && after.books == WriteItem(env, p.books, s.item))
  {
    hide BooksOk, Write, PlanItem, ParseSkipTypes;
    var s := ScreenDebit(env, o, ParseSkipTypes(o.skipTypes), row);
    ScreenedOk(env, o, ParseSkipTypes(o.skipTypes), row);
    hide ScreenDebit;
    if s.Accepted? {
      WriteSucceeds(env, p.books, s.item);
      NotSkipped(env, p.books, s.item);
    }
  }

  /** With valid options an import never stops half-way; what it writes depends on the accepted items only. */
  lemma {:induction false} ImportNeverFails(env: Env, o: Options, b: Books, rows: seq<Row>)
    requires EnvOk(env) && BooksOk(b) && ValidPurpose(o.purpose)
    ensures ItemsOk(Items(env, o, rows))
    ensures ImportDebits(env, o, b, rows).failed.None? && BooksOk(ImportDebits(env, o, b, rows).books)
    ensures ImportDebits(env, o, b, rows).books == WriteItems(env, b, Items(env, o, rows))
    decreases |rows|
  {
    hide BooksOk, ScreenDebit, ImportRow, WriteItem, ParseSkipTypes;
    if rows != [] {
      var n := |rows| - 1;
      ImportNeverFails(env, o, b, rows[..n]);
      RowIsWritten(env, o, ImportDebits(env, o, b, rows[..n]), rows[n]);
      var items := Items(env, o, rows[..n]);
      var s := ScreenDebit(env, o, ParseSkipTypes(o.skipTypes), rows[n]);
      if s.Accepted? {
        assert (items + [s.item])[..|items|] == items;
      } else {
        assert items + [] == items;
      }
    }
  }

  lemma NotSkipped(env: Env, b: Books, item: Item)
    ensures !PlanItem(env, b, item).SkipRow?
  {}

  // ----- Importing twice -----

  function Updated(row: Expense, item: Item): Expense {
    Overwrite(row, item.amount, item.date, Trim(item.description), item.purpose)
  }

  function OverlayRow(row: Expense, items: seq<Item>): Expense {
    if row.external.None? || LastOf(items, row.external.value).None? then
      row else Updated(row, LastOf(items, row.external.value).value)
  }

  /** The books in which every booked identifier shows what the last of its items says. */
  function Overlay(b: Books, items: seq<Item>): Books {
    b.(expenses := b.expenses.(rows := map e | e in b.expenses.rows :: OverlayRow(b.expenses.rows[e], items)))
  }

  /** The item has been dealt with: its identifier is booked, or it is staged beside its manual match. */
  ghost predicate Settled(b: Books, item: Item) {
    Booked(b, item.external) || (Staged(b, item.external) && ManualMatches(b.expenses.rows, item.amount,
        item.date) != {})
  }

  ghost predicate AllSettled(b: Books, items: seq<Item>) {
    forall i :: 0 <= i < |items| ==> Settled(b, items[i])
  }

  lemma WriteSettles(env: Env, b: Books, item: Item)
    requires EnvOk(env) && BooksOk(b) && ItemOk(item)
    ensures Settled(WriteItem(env, b, item), item)
  {
    var after := WriteItem(env, b, item);
    WriteSucceeds(env, b, item);
    var plan := PlanItem(env, b, item);
    if plan.PendingReview? {
      assert after.expenses == b.expenses;
      if !Staged(b, item.external) {
        assert after.reviews.rows[b.reviews.next].external == item.external;
      }
    } else {
      var id := UpsertExpense(b, item.external, item.amount, item.date, item.description, item.purpose).value.1;
      assert after.expenses.rows[id].external == Some(item.external);
    }
  }

  lemma SettledStays(b: Books, after: Books, item: Item)
    requires Settled(b, item) && KeepsManual(b, after) && GrowsExternals(b, after)
    ensures Settled(after, item)
  {
    if !Booked(b, item.external) {
      var e :| e in ManualMatches(b.expenses.rows, item.amount, item.date);
      assert e in ManualMatches(after.expenses.rows, item.amount, item.date);
    }
  }

  /** After a pass every item is settled, and writing the last word again would change nothing. */
  lemma {:induction false} PassSettles(env: Env, b: Books, items: seq<Item>)
    requires EnvOk(env) && BooksOk(b) && ItemsOk(items)
    ensures BooksOk(WriteItems(env, b, items)) && AllSettled(WriteItems(env, b, items), items)
    ensures Overlay(WriteItems(env, b, items), items) == WriteItems(env, b, items)
    decreases |items|
  {
    hide BooksOk, WriteItem;
    if items == [] {
      assert Overlay(b, items).expenses.rows == b.expenses.rows;
    } else {
      var n := |items| - 1;
      var before := WriteItems(env, b, items[..n]);
      PassSettles(env, b, items[..n]);
      var after := WriteItem(env, before, items[n]);
      WriteSucceeds(env, before, items[n]);
      WriteSettles(env, before, items[n]);
      forall i | 0 <= i < n ensures Settled(after, items[i]) {
        assert items[..n][i] == items[i];
        SettledStays(before, after, items[i]);
      }
      OverlayGrows(env, before, items);
    }
  }

  /** Writing one more item keeps the books equal to their own overlay. */
  lemma OverlayGrows(env: Env, before: Books, items: seq<Item>)
    requires EnvOk(env) && BooksOk(before) && items != [] && ItemOk(items[|items| - 1])
    requires Overlay(before, items[..|items| - 1]) == before
    ensures Overlay(WriteItem(env, before, items[|items| - 1]), items) == WriteItem(env, before, items[|items| - 1])
  {
    var n := |items| - 1;
    var item := items[n];
    var after := WriteItem(env, before, item);
    WriteSucceeds(env, before, item);
    forall e | e in after.expenses.rows ensures OverlayRow(after.expenses.rows[e], items) == after.expenses.rows[e] {
      if e in before.expenses.rows { assert OverlayRow(before.expenses.rows[e],
          items[..n]) == before.expenses.rows[e]; }
      WrittenRow(env, before, item, e);
    }
    assert Overlay(after, items).expenses.rows == after.expenses.rows;
  }

  /** The row of the written identifier says what the item says; every other row is as before. */
  lemma WrittenRow(env: Env, before: Books, item: Item, e: nat)
    requires EnvOk(env) && BooksOk(before) && ItemOk(item) && e in WriteItem(env, before, item).expenses.rows
    ensures var row := WriteItem(env, before, item).expenses.rows[e];
      if row.external == Some(item.external) then Updated(row, item) == row
      else e in before.expenses.rows && row == before.expenses.rows[e]
  {
    var plan := PlanItem(env, before, item);
    if plan.PendingReview? {
      assert WriteItem(env, before, item).expenses == before.expenses;
    } else {
      UpsertedRow(before, item, e);
    }
  }

  lemma UpsertedRow(before: Books, item: Item, e: nat)
    requires BooksOk(before) && ItemOk(item)
    ensures var r := UpsertExpense(before, item.external, item.amount, item.date, item.description, item.purpose);
      r.Ok? && (e in r.value.0.expenses.rows ==>
        (var row := r.value.0.expenses.rows[e];
         if row.external == Some(item.external) then Updated(row, item) == row
         else e in before.expenses.rows && row == before.expenses.rows[e]))
  {}

  /** Over settled books a pass only repeats the last word on each booked identifier. */
  lemma {:induction false} PassOverlays(env: Env, b: Books, items: seq<Item>)
    requires EnvOk(env) && BooksOk(b) && ItemsOk(items) && AllSettled(b, items)
    ensures WriteItems(env, b, items) == Overlay(b, items)
    decreases |items|
  {
    hide BooksOk, WriteItem;
    if items == [] {
      assert Overlay(b, items).expenses.rows == b.expenses.rows;
    } else {
      var n := |items| - 1;
      forall i | 0 <= i < n ensures Settled(b, items[..n][i]) { assert items[..n][i] == items[i]; }
      PassOverlays(env, b, items[..n]);
      OverlayStep(env, b, items);
    }
  }

  lemma OverlayStep(env: Env, b: Books, items: seq<Item>)
    requires EnvOk(env) && BooksOk(b) && items != [] && ItemOk(items[|items| - 1]) && Settled(b, items[|items| - 1])
    ensures WriteItem(env, Overlay(b, items[..|items| - 1]), items[|items| - 1]) == Overlay(b, items)
  {
    var n := |items| - 1;
    var item, c := items[n], Overlay(b, items[..n]);
    OverlaySameQueries(b, items[..n], item);
    if Booked(b, item.external) {
      UpdateIsOverlay(b, items);
    } else {
      var matches := ManualMatches(c.expenses.rows, item.amount, item.date);
      assert env.first(matches) in matches;
      assert WriteItem(env, c, item) == c;
      assert Overlay(b, items).expenses.rows == c.expenses.rows;
    }
  }

  lemma UpdateIsOverlay(b: Books, items: seq<Item>)
    requires BooksOk(b) && items != [] && ItemOk(items[|items| - 1]) && Booked(b, items[|items| - 1].external)
    ensures var n, item := |items| - 1, items[|items| - 1];
      var r := UpsertExpense(Overlay(b, items[..n]), item.external, item.amount, item.date, item.description,
          item.purpose);
      r.Ok? && r.value.0 == Overlay(b, items)
  {
    var n := |items| - 1;
    var item, c := items[n], Overlay(b, items[..n]);
    var e :| e in b.expenses.rows && b.expenses.rows[e].external == Some(item.external);
    assert c.expenses.rows[e].external == Some(item.external);
    assert FindExpense(c.expenses.rows, item.external, c.expenses.next) == Some(e);
    assert Overlay(b, items).expenses.rows == c.expenses.rows[e := Updated(c.expenses.rows[e], item)];
  }

  /** The overlay answers the planner's questions as the books themselves do. */
  lemma OverlaySameQueries(b: Books, items: seq<Item>, item: Item)
    ensures Booked(Overlay(b, items), item.external) <==> Booked(b, item.external)
    ensures Staged(Overlay(b, items), item.external) <==> Staged(b, item.external)
    ensures ManualMatches(Overlay(b, items).expenses.rows, item.amount, item.date)
      == ManualMatches(b.expenses.rows, item.amount, item.date)
  {
    var c := Overlay(b, items);
    forall e | e in b.expenses.rows ensures c.expenses.rows[e].external == b.expenses.rows[e].external {}
    forall e | e in b.expenses.rows
      ensures IsManualMatch(c.expenses.rows[e], item.amount, item.date) <==>
        IsManualMatch(b.expenses.rows[e], item.amount, item.date)
    {}
  }

  /** Importing any list of rows twice gives the same expenses, reviews and receipts as importing it once. */
  lemma DebitImportIsIdempotent(env: Env, o: Options, b: Books, rows: seq<Row>)
    requires EnvOk(env) && BooksOk(b) && ValidPurpose(o.purpose)
    ensures var once := ImportDebits(env, o, b, rows).books; ImportDebits(env, o, once, rows).books == once
  {
    var items := Items(env, o, rows);
    ImportNeverFails(env, o, b, rows);
    var once := WriteItems(env, b, items);
    ImportNeverFails(env, o, once, rows);
    PassSettles(env, b, items);
    PassOverlays(env, once, items);
  }

  // ----- The preview tells what the import will do -----

  lemma RowExplained(env: Env, o: Options, p: Progress, row: Row)
    requires Explained(p.counts)
    ensures Explained(ImportRow(env, o, p, row).counts)
  {
    hide Explained, CountDebit, PlanDebit, Write;
    if p.failed.None? { CountDebitExplained(p.counts,
        PlanDebit(env, Some(p.books), o, ParseSkipTypes(o.skipTypes), row)); }
  }

  /** Skipped rows are explained by their reasons, even in an import that stops. */
  lemma {:induction false} ImportExplained(env: Env, o: Options, b: Books, rows: seq<Row>)
    ensures Explained(ImportDebits(env, o, b, rows).counts)
    decreases |rows|
  {
    hide Explained, ImportRow;
    if rows == [] {
      NothingAddsUp(ZERO);
    } else {
      ImportExplained(env, o, b, rows[..|rows| - 1]);
      RowExplained(env, o, ImportDebits(env, o, b, rows[..|rows| - 1]), rows[|rows| - 1]);
    }
  }

  lemma {:induction false} ImportAddsUp(env: Env, o: Options, b: Books, rows: seq<Row>)
    requires EnvOk(env) && BooksOk(b) && ValidPurpose(o.purpose)
    ensures AddsUp(ImportDebits(env, o, b, rows).counts, |rows|)
    decreases |rows|
  {
    hide BooksOk, ImportRow, PlanDebit, AddsUp, ParseSkipTypes;
    if rows == [] {
      NothingAddsUp(ZERO);
    } else {
      var n := |rows| - 1;
      ImportNeverFails(env, o, b, rows[..n]);
      ImportAddsUp(env, o, b, rows[..n]);
      var p := ImportDebits(env, o, b, rows[..n]);
      RowIsWritten(env, o, p, rows[n]);
      DebitStepAddsUp(env, Some(p.books), o, ParseSkipTypes(o.skipTypes), rows[n], p.counts, n);
    }
  }

  function PreviewPlan(env: Env, o: Options, b: Books, row: Row): DebitPlan {
    PlanDebit(env, Some(b), o, ParseSkipTypes(o.skipTypes), row)
  }

  /** The preview shows the row as a new expense with this identifier. */
  predicate ShownNew(env: Env, o: Options, b: Books, row: Row, external: string) {
    var plan := PreviewPlan(env, o, b, row);
    plan.NewExpense? && plan.item.external == external
  }

  predicate NewBefore(env: Env, o: Options, b: Books, rows: seq<Row>, external: string) {
    exists i :: 0 <= i < |rows| && ShownNew(env, o, b, rows[i], external)
  }

  /** The preview shows the row as a possible duplicate, but a new row before it has the same identifier. */
  predicate Overtaken(env: Env, o: Options, b: Books, before: seq<Row>, row: Row) {
    var plan := PreviewPlan(env, o, b, row);
    plan.PendingReview? && NewBefore(env, o, b, before, plan.item.external)
  }

  /** How many of the first `n` rows are overtaken. */
  function OvertakenCount(env: Env, o: Options, b: Books, rows: seq<Row>, n: nat): nat
    requires n <= |rows|
  {
    if n == 0 then 0
    else OvertakenCount(env, o, b, rows, n - 1) + (if Overtaken(env, o, b, rows[..n - 1], rows[n - 1]) then 1 else 0)
  }

  /** Against tables that grew by imports alone, a plan changes only because its identifier got booked. */
  lemma PlanMoves(env: Env, b: Books, now: Books, item: Item)
    requires KeepsManual(b, now) && GrowsExternals(b, now)
    ensures PlanItem(env, now, item)
      == if Booked(now, item.external) then UpdateExpense(item) else PlanItem(env, b, item)
  {
    assert ManualMatches(now.expenses.rows, item.amount, item.date)
      == ManualMatches(b.expenses.rows, item.amount, item.date);
    if Booked(b, item.external) { assert Booked(now, item.external); }
  }

  lemma BookedByWrite(env: Env, b: Books, item: Item, external: string)
    requires EnvOk(env) && BooksOk(b) && ItemOk(item)
    ensures Booked(WriteItem(env, b, item), external) <==>
      Booked(b, external) || (!PlanItem(env, b, item).PendingReview? && item.external == external)
  {
    var after := WriteItem(env, b, item);
    WriteSucceeds(env, b, item);
    if Booked(after, external) {
      var e :| e in after.expenses.rows && after.expenses.rows[e].external == Some(external);
      WrittenRow(env, b, item, e);
    }
    if !PlanItem(env, b, item).PendingReview? { WriteSettles(env, b, item); }
  }

  /** One row books its own identifier, unless it is staged. */
  lemma BookedByRow(env: Env, o: Options, b: Books, p: Progress, row: Row, x: string)
    requires EnvOk(env) && BooksOk(p.books) && ValidPurpose(o.purpose) && p.failed.None?
    requires KeepsManual(b, p.books) && GrowsExternals(b, p.books)
    ensures Booked(ImportRow(env, o, p, row).books, x) <==> Booked(p.books, x) || ShownNew(env, o, b, row, x)
  {
    RowIsWritten(env, o, p, row);
    var s := ScreenDebit(env, o, ParseSkipTypes(o.skipTypes), row);
    hide BooksOk, ScreenDebit, WriteItem, ImportRow, ParseSkipTypes, Booked;
    if s.Accepted? {
      PlanMoves(env, b, p.books, s.item);
      BookedByWrite(env, p.books, s.item, x);
      BookedMeansUpdate(env, b, s.item);
      BookedMeansUpdate(env, p.books, s.item);
      assert Booked(b, x) ==> Booked(p.books, x);
    }
  }

  lemma BookedMeansUpdate(env: Env, b: Books, item: Item)
    ensures Booked(b, item.external) <==> PlanItem(env, b, item).UpdateExpense?
  {}

  lemma KeptByRow(env: Env, o: Options, b: Books, p: Progress, row: Row)
    requires EnvOk(env) && BooksOk(p.books) && ValidPurpose(o.purpose) && p.failed.None?
    requires KeepsManual(b, p.books) && GrowsExternals(b, p.books)
    ensures KeepsManual(b, ImportRow(env, o, p, row).books) && GrowsExternals(b, ImportRow(env, o, p, row).books)
  {
    RowIsWritten(env, o, p, row);
    var s := ScreenDebit(env, o, ParseSkipTypes(o.skipTypes), row);
    hide BooksOk, ScreenDebit, WriteItem, ImportRow, ParseSkipTypes, Booked, Staged;
    if s.Accepted? { WriteSucceeds(env, p.books, s.item); }
  }

  /** A pass leaves manual expenses and receipts alone, and only adds identifiers. */
  lemma {:induction false} KeptByPass(env: Env, o: Options, b: Books, rows: seq<Row>)
    requires EnvOk(env) && BooksOk(b) && ValidPurpose(o.purpose)
    ensures KeepsManual(b, ImportDebits(env, o, b, rows).books)
      && GrowsExternals(b, ImportDebits(env, o, b, rows).books)
    decreases |rows|
  {
    if rows != [] {
      hide BooksOk, KeepsManual, GrowsExternals, ImportRow;
      ImportNeverFails(env, o, b, rows[..|rows| - 1]);
      KeptByPass(env, o, b, rows[..|rows| - 1]);
      KeptByRow(env, o, b, ImportDebits(env, o, b, rows[..|rows| - 1]), rows[|rows| - 1]);
    }
  }

  /** An identifier is booked after the pass if it was before, or if the preview showed a new row for it. */
  lemma {:induction false} BookedAfterPass(env: Env, o: Options, b: Books, rows: seq<Row>, x: string)
    requires EnvOk(env) && BooksOk(b) && ValidPurpose(o.purpose)
    ensures Booked(ImportDebits(env, o, b, rows).books, x) <==> Booked(b, x) || NewBefore(env, o, b, rows, x)
    decreases |rows|
  {
    hide BooksOk, KeepsManual, GrowsExternals, ImportRow, ShownNew, Booked;
    if rows != [] {
      var n := |rows| - 1;
      BookedAfterPass(env, o, b, rows[..n], x);
      ImportNeverFails(env, o, b, rows[..n]);
      KeptByPass(env, o, b, rows[..n]);
      BookedByRow(env, o, b, ImportDebits(env, o, b, rows[..n]), rows[n], x);
      NewBeforeLast(env, o, b, rows, x);
    }
  }

  lemma NewBeforeLast(env: Env, o: Options, b: Books, rows: seq<Row>, x: string)
    requires rows != []
    ensures NewBefore(env, o, b, rows, x) <==>
      NewBefore(env, o, b, rows[..|rows| - 1], x) || ShownNew(env, o, b, rows[|rows| - 1], x)
  {
    hide ShownNew;
    var n := |rows| - 1;
    forall i | 0 <= i < n ensures rows[..n][i] == rows[i] {}
    if NewBefore(env, o, b, rows[..n], x) {
      var i :| 0 <= i < n && ShownNew(env, o, b, rows[..n][i], x);
      assert ShownNew(env, o, b, rows[i], x);
    }
  }

  /** A row is planned as in the preview, unless it is overtaken. */
  lemma PlannedAsPreviewed(env: Env, o: Options, b: Books, before: seq<Row>, row: Row)
    requires EnvOk(env) && BooksOk(b) && ValidPurpose(o.purpose)
    ensures var plan, preview := PreviewPlan(env, o, ImportDebits(env, o, b, before).books, row),
        PreviewPlan(env, o, b, row);
      if Overtaken(env, o, b, before, row) then plan.UpdateExpense? && preview.PendingReview?
      else
        && (plan.SkipRow? <==> preview.SkipRow?) && (plan.SkipRow? ==> plan == preview)
        && (plan.PendingReview? <==> preview.PendingReview?)
  {
    var now := ImportDebits(env, o, b, before).books;
    var s := ScreenDebit(env, o, ParseSkipTypes(o.skipTypes), row);
    hide BooksOk, ScreenDebit, Booked, ImportDebits, ParseSkipTypes, NewBefore;
    if s.Accepted? {
      KeptByPass(env, o, b, before);
      PlanMoves(env, b, now, s.item);
      BookedAfterPass(env, o, b, before, s.item.external);
      BookedMeansUpdate(env, b, s.item);
      BookedMeansUpdate(env, now, s.item);
    }
  }

  /** `k` rows booked instead of staged. */
  function Shifted(c: Counts, k: int): Counts { c.(imported := c.imported + k, pending := c.pending - k) }

  lemma CountedAsPreviewed(env: Env, o: Options, b: Books, before: seq<Row>, row: Row, c: Counts, k: int)
    requires EnvOk(env) && BooksOk(b) && ValidPurpose(o.purpose)
    ensures var plan, preview := PreviewPlan(env, o, ImportDebits(env, o, b, before).books, row),
        PreviewPlan(env, o, b, row);
      CountDebit(Shifted(c, k), plan)
        == Shifted(CountDebit(c, preview), k + (if Overtaken(env, o, b, before, row) then 1 else 0))
  {
    PlannedAsPreviewed(env, o, b, before, row);
    hide BooksOk, PreviewPlan, Overtaken, ImportDebits;
  }

  lemma PassStep(env: Env, o: Options, b: Books, rows: seq<Row>, n: nat)
    requires EnvOk(env) && BooksOk(b) && ValidPurpose(o.purpose) && n < |rows|
    ensures ImportDebits(env, o, b, rows[..n + 1]).counts
         == CountDebit(ImportDebits(env, o, b, rows[..n]).counts,
             PreviewPlan(env, o, ImportDebits(env, o, b, rows[..n]).books, rows[n]))
    ensures TallyDebit(env, Some(b), o, rows[..n + 1])
      == CountDebit(TallyDebit(env, Some(b), o, rows[..n]), PreviewPlan(env, o, b, rows[n]))
  {
    hide BooksOk, ImportRow, PlanDebit, ParseSkipTypes;
    assert rows[..n + 1][..n] == rows[..n];
    ImportNeverFails(env, o, b, rows[..n]);
    RowIsWritten(env, o, ImportDebits(env, o, b, rows[..n]), rows[n]);
  }

  /** The import counts what the preview counts, except that it books every overtaken row instead of staging it. */
  lemma {:induction false} ImportVersusPreview(env: Env, o: Options, b: Books, rows: seq<Row>, n: nat)
    requires EnvOk(env) && BooksOk(b) && ValidPurpose(o.purpose) && n <= |rows|
    ensures ImportDebits(env, o, b, rows[..n]).counts
      == Shifted(TallyDebit(env, Some(b), o, rows[..n]), OvertakenCount(env, o, b, rows, n))
  {
    if n > 0 {
      hide EnvOk, ValidPurpose, BooksOk, ImportDebits, TallyDebit, PreviewPlan, Overtaken, CountDebit, Shifted;
      ImportVersusPreview(env, o, b, rows, n - 1);
      PassStep(env, o, b, rows, n - 1);
      CountedAsPreviewed(env, o, b, rows[..n - 1], rows[n - 1], TallyDebit(env, Some(b), o, rows[..n - 1]),
          OvertakenCount(env, o, b, rows, n - 1));
    }
  }

  lemma {:induction false} NoneOvertaken(env: Env, o: Options, b: Books, rows: seq<Row>, n: nat)
    requires n <= |rows|
    ensures OvertakenCount(env, o, b, rows, n) == 0 <==>
      forall j :: 0 <= j < n ==> !Overtaken(env, o, b, rows[..j], rows[j])
  {
    hide Overtaken;
    if n > 0 { NoneOvertaken(env, o, b, rows, n - 1); }
  }

  /** The preview's counters are those of the import exactly when no shown duplicate is overtaken by an earlier new row
      with the same identifier. */
  lemma PreviewTellsTheTruth(env: Env, o: Options, b: Books, rows: seq<Row>)
    requires EnvOk(env) && BooksOk(b) && ValidPurpose(o.purpose)
    ensures ImportDebits(env, o, b, rows).counts == TallyDebit(env, Some(b), o, rows)
      <==> forall j :: 0 <= j < |rows| ==> !Overtaken(env, o, b, rows[..j], rows[j])
  {
    hide BooksOk, ImportDebits, TallyDebit, Overtaken;
    ImportVersusPreview(env, o, b, rows, |rows|);
    NoneOvertaken(env, o, b, rows, |rows|);
    assert rows[..|rows|] == rows;
  }

  /** Accepted rows have pairwise different identifiers. */
  ghost predicate DistinctExternals(env: Env, o: Options, rows: seq<Row>) {
    forall i, j :: 0 <= i < j < |rows| ==>
      var s, t := ScreenDebit(env, o, ParseSkipTypes(o.skipTypes), rows[i]),
          ScreenDebit(env, o, ParseSkipTypes(o.skipTypes), rows[j]);
      s.Accepted? && t.Accepted? ==> s.item.external != t.item.external
  }

  lemma DistinctRowsArePreviewed(env: Env, o: Options, b: Books, rows: seq<Row>)
    requires EnvOk(env) && BooksOk(b) && ValidPurpose(o.purpose) && DistinctExternals(env, o, rows)
    ensures ImportDebits(env, o, b, rows).counts == TallyDebit(env, Some(b), o, rows)
  {
    PreviewTellsTheTruth(env, o, b, rows);
    forall j: nat | j < |rows| ensures !Overtaken(env, o, b, rows[..j], rows[j]) {
      forall i | 0 <= i < j ensures rows[..j][i] == rows[i] {}
    }
  }

  // ----- A preview that promises too much -----

  const EARLY := DateParts(2026, 9, 1)
  const BY_HAND := Expense(200, EARLY, "", "lunchkraam", Contant, None)
  const ONE_EXPENSE := Books(Table(map[1 := BY_HAND], 2), Table(map[], 1), map[])
  const PLAIN := Options("lunchkraam", false, "", "", false, false, false, {}, map[])

  function Payment(amount: int): Row { Row(EARLY, 0, -amount, "", "", "", "", "x") }

  /** Two rows with one identifier; the second has the amount and date of a manual expense. The preview announces a
      duplicate to review, the import books both. */
  lemma PreviewCanBeOvertaken(env: Env)
    requires EnvOk(env)
    ensures BooksOk(ONE_EXPENSE)
    ensures TallyDebit(env, Some(ONE_EXPENSE), PLAIN, [Payment(100), Payment(200)]).pending == 1
    ensures ImportDebits(env, PLAIN, ONE_EXPENSE, [Payment(100), Payment(200)]).counts.pending == 0
  {
    hide BooksOk, PreviewPlan, ImportDebits, TallyDebit, OvertakenCount, EnvOk, PlanDebit;
    var rows := [Payment(100), Payment(200)];
    OneExpenseOk();
    PlannedNew(env);
    PlannedDuplicate(env);
    SecondOvertaken(env);
    ImportVersusPreview(env, PLAIN, ONE_EXPENSE, rows, 2);
    assert rows[..2] == rows;
    TallyOfTwo(env, rows[0], rows[1]);
  }

  lemma OneExpenseOk()
    ensures BooksOk(ONE_EXPENSE) && ValidPurpose(PLAIN.purpose)
  {}

  lemma SecondOvertaken(env: Env)
    ensures OvertakenCount(env, PLAIN, ONE_EXPENSE, [Payment(100), Payment(200)], 2) == 1
  {
    hide PreviewPlan;
    var rows := [Payment(100), Payment(200)];
    PlannedNew(env);
    PlannedDuplicate(env);
    assert ShownNew(env, PLAIN, ONE_EXPENSE, rows[..1][0], "x");
    assert Overtaken(env, PLAIN, ONE_EXPENSE, rows[..1], rows[1]);
    assert !Overtaken(env, PLAIN, ONE_EXPENSE, rows[..0], rows[0]);
    assert OvertakenCount(env, PLAIN, ONE_EXPENSE, rows, 1) == OvertakenCount(env, PLAIN, ONE_EXPENSE, rows, 0) == 0;
  }

  lemma TallyOfTwo(env: Env, first: Row, second: Row)
    ensures TallyDebit(env, Some(ONE_EXPENSE), PLAIN, [first, second])
         == CountDebit(CountDebit(ZERO, PreviewPlan(env, PLAIN, ONE_EXPENSE, first)),
             PreviewPlan(env, PLAIN, ONE_EXPENSE, second))
  {
    hide PlanDebit, CountDebit;
    assert [first, second][..1] == [first] && [first][..0] == [];
    assert TallyDebit(env, Some(ONE_EXPENSE), PLAIN, [first])
      == CountDebit(ZERO, PreviewPlan(env, PLAIN, ONE_EXPENSE, first));
  }

  lemma PlannedNew(env: Env)
    ensures PreviewPlan(env, PLAIN, ONE_EXPENSE, Payment(100))
      == NewExpense(Item("x", 100, EARLY, BuildDescription(Payment(100)), "lunchkraam", false))
  {
    assert Trim("x") == "x";
    assert ManualMatches(ONE_EXPENSE.expenses.rows, 100, EARLY) == {};
  }

  lemma PlannedDuplicate(env: Env)
    ensures PreviewPlan(env, PLAIN, ONE_EXPENSE, Payment(200)).PendingReview?
    ensures PreviewPlan(env, PLAIN, ONE_EXPENSE, Payment(200)).item.external == "x"
  {
    assert Trim("x") == "x";
    assert 1 in ManualMatches(ONE_EXPENSE.expenses.rows, 200, EARLY);
  }

  // ----- Every run of the bookkeeping -----

  datatype BookOp =
    | ManualOp(amount: int, spent: Date, description: string, purpose: string, channel: Channel)
    | ImportOp(options: Options, rows: seq<Row>)
    | MergeOp(review: nat)
    | DeleteReviewOp(review: nat)
    | DeleteExpenseOp(expense: nat)
    | PurposeOp(expense: nat, purpose: string)
    | ReceiptOp(receipt: nat, expense: nat)

  function BookStep(env: Env, b: Books, op: BookOp): Books {
    if op.ImportOp? then
      if ValidPurpose(op.options.purpose) && !op.options.dryRun then
        ImportDebits(env, op.options, b, op.rows).books else b
    else
      var r := match op
        case ManualOp(amount, spent, description, purpose, channel)
          => InsertExpense(b, amount, spent, description, purpose, channel)
        case MergeOp(r) => MergeReview(b, r)
        case DeleteReviewOp(r) => DeleteReview(b, r)
        case DeleteExpenseOp(e) => DeleteExpense(b, e)
        case PurposeOp(e, purpose) => UpdatePurpose(b, e, purpose)
        case ReceiptOp(k, e) => AttachReceipt(b, k, e)
        case ImportOp(_, _) => Ok(b);
      if r.Ok? then r.value else b
  }

  function BookRun(env: Env, b: Books, ops: seq<BookOp>): Books
    decreases |ops|
  {
    if ops == [] then b else BookRun(env, BookStep(env, b, ops[0]), ops[1..])
  }

  lemma BookStepKeeps(env: Env, b: Books, op: BookOp)
    requires EnvOk(env) && BooksOk(b)
    ensures BooksOk(BookStep(env, b, op))
  {
    match op
    case ImportOp(o, rows) => if ValidPurpose(o.purpose) { ImportNeverFails(env, o, b, rows); }
    case ManualOp(amount, spent, description, purpose, channel) =>
      if InsertExpense(b, amount, spent, description, purpose,
          channel).Ok? { ManualKeeps(b, amount, spent, description, purpose, channel); }
    case MergeOp(r) => if r in b.reviews.rows { MergeOutcome(b, r); }
    case DeleteReviewOp(r) => DropReviewKeeps(b, r);
    case DeleteExpenseOp(e) => DropExpenseKeeps(b, e);
    case PurposeOp(e, purpose) => if UpdatePurpose(b, e, purpose).Ok? { UpdatePurposeKeeps(b, e, purpose); }
    case ReceiptOp(_, _) =>
  }

  /** In every reachable state each staged review agrees in amount and date with a manual expense, receipts have their
      expense, and identifiers are unique. */
  lemma {:induction false} BooksStaySound(env: Env, b: Books, ops: seq<BookOp>)
    requires EnvOk(env) && BooksOk(b)
    ensures BooksOk(BookRun(env, b, ops))
    decreases |ops|
  {
    hide BooksOk, EnvOk;
    if ops != [] {
      BookStepKeeps(env, b, ops[0]);
      BooksStaySound(env, BookStep(env, b, ops[0]), ops[1..]);
    }
  }

  // ----- A merge that lowers a day's total -----

  const NO_BOOKS := Books(Table(map[], 1), Table(map[], 1), map[])
  const BY_HAND_OP := ManualOp(200, EARLY, "", "lunchkraam", Contant)

  /** An expense of 200 booked by hand; the statement row "x" over 200 is staged beside it; a later statement has "x"
      over 100, which is booked; accepting the duplicate then takes those 100 from the day. */
  lemma MergeCanLowerADay(env: Env)
    requires EnvOk(env)
    ensures BooksOk(NO_BOOKS)
    ensures var before := BookRun(env, NO_BOOKS,
        [BY_HAND_OP, ImportOp(PLAIN, [Payment(200)]), ImportOp(PLAIN, [Payment(100)])]);
      && 1 in before.reviews.rows && Booked(before, before.reviews.rows[1].external)
      && DayTotal(BookStep(env, before, MergeOp(1)), EARLY) == DayTotal(before, EARLY) - 100
  {
    hide BookStep, BooksOk;
    NoBooksOk();
    var manual := BookStep(env, NO_BOOKS, BY_HAND_OP);
    BookedByHand(env);
    var staged := BookStep(env, manual, ImportOp(PLAIN, [Payment(200)]));
    StagedBeside(env);
    var both := BookStep(env, staged, ImportOp(PLAIN, [Payment(100)]));
    BookedAnyway(env, staged);
    RunOfThree(env, NO_BOOKS, BY_HAND_OP, ImportOp(PLAIN, [Payment(200)]), ImportOp(PLAIN, [Payment(100)]));
    BooksStaySound(env, NO_BOOKS, [BY_HAND_OP, ImportOp(PLAIN, [Payment(200)]), ImportOp(PLAIN, [Payment(100)])]);
    MergedHundredLess(env, both);
  }

  lemma NoBooksOk()
    ensures BooksOk(NO_BOOKS)
  {}

  lemma BookedByHand(env: Env)
    ensures BookStep(env, NO_BOOKS, BY_HAND_OP) == ONE_EXPENSE
  {
    assert Trim("") == "";
    assert BookStep(env, NO_BOOKS, BY_HAND_OP).expenses.rows == map[1 := BY_HAND];
  }

  /** A pass over one row. */
  lemma OneRow(env: Env, b: Books, row: Row)
    ensures ImportDebits(env, PLAIN, b, [row]) == ImportRow(env, PLAIN, Progress(b, ZERO, None), row)
  {
    hide ImportRow;
    assert [row][..0] == [];
    assert ImportDebits(env, PLAIN, b, []) == Progress(b, ZERO, None);
  }

  /** Row "x" over 200 waits for review beside expense 1; nothing is booked under "x". */
  ghost predicate WaitsBeside(b: Books) {
    && b.expenses == ONE_EXPENSE.expenses && b.reviews.rows.Keys == {1}
    && b.reviews.rows[1].external == "x" && b.reviews.rows[1].amount == 200 && b.reviews.rows[1].spent == EARLY
  }

  lemma StagedBeside(env: Env)
    requires EnvOk(env)
    ensures WaitsBeside(BookStep(env, ONE_EXPENSE, ImportOp(PLAIN, [Payment(200)])))
  {
    OneRow(env, ONE_EXPENSE, Payment(200));
    PlannedDuplicate(env);
    MatchIsFirst(env);
    hide PlanDebit, ParseSkipTypes, ImportDebits;
    assert !Staged(ONE_EXPENSE, "x");
  }

  lemma MatchIsFirst(env: Env)
    requires EnvOk(env)
    ensures PreviewPlan(env, PLAIN, ONE_EXPENSE, Payment(200)).PendingReview?
    ensures var plan := PreviewPlan(env, PLAIN, ONE_EXPENSE, Payment(200));
      plan.matched == 1 && plan.item.amount == 200 && plan.item.date == EARLY && plan.item.purpose == "lunchkraam"
  {
    assert Trim("x") == "x";
    assert ManualMatches(ONE_EXPENSE.expenses.rows, 200, EARLY) == {1};
    assert env.first({1}) in {1};
  }

  lemma BookedAnyway(env: Env, b: Books)
    requires EnvOk(env) && WaitsBeside(b)
    ensures var after := BookStep(env, b, ImportOp(PLAIN, [Payment(100)]));
      && after.reviews == b.reviews && after.expenses.next == 3 && after.expenses.rows.Keys == {1, 2}
      && after.expenses.rows[1] == BY_HAND
      && after.expenses.rows[2].external == Some("x") && after.expenses.rows[2].amount == 100
      && after.expenses.rows[2].spent == EARLY
  {
    OneRow(env, b, Payment(100));
    PlannedNewBeside(env, b);
    hide PlanDebit, ParseSkipTypes, ImportDebits;
    assert Trim("x") == "x";
    assert FindExpense(b.expenses.rows, "x", 2).None?;
  }

  lemma PlannedNewBeside(env: Env, b: Books)
    requires b.expenses == ONE_EXPENSE.expenses
    ensures PreviewPlan(env, PLAIN, b, Payment(100))
      == NewExpense(Item("x", 100, EARLY, BuildDescription(Payment(100)), "lunchkraam", false))
  {
    PlannedNew(env);
    hide ScreenDebit;
  }

  lemma MergedHundredLess(env: Env, b: Books)
    requires BooksOk(b) && b.reviews.rows.Keys == {1} && b.reviews.rows[1].external == "x"
    requires b.expenses.next == 3 && b.expenses.rows.Keys == {1, 2} && b.expenses.rows[1] == BY_HAND
    requires b.expenses.rows[2].external == Some("x") && b.expenses.rows[2].amount == 100
      && b.expenses.rows[2].spent == EARLY
    ensures Booked(b, "x") && DayTotal(BookStep(env, b, MergeOp(1)), EARLY) == DayTotal(b, EARLY) - 100
  {
    hide BooksOk, MergeReview, DayTotal;
    MergeDayTotals(b, 1, EARLY);
    assert FindExpense(b.expenses.rows, "x", 3) == Some(2);
  }

  lemma RunOfThree(env: Env, b: Books, x: BookOp, y: BookOp, z: BookOp)
    ensures BookRun(env, b, [x, y, z]) == BookStep(env, BookStep(env, BookStep(env, b, x), y), z)
  {
    hide BookStep;
    assert [x, y, z][1..] == [y, z] && [y, z][1..] == [z] && [z][1..] == [];
    var b1 := BookStep(env, b, x);
    assert BookRun(env, b1, [y, z]) == BookRun(env, BookStep(env, b1, y), [z]);
    assert BookRun(env, BookStep(env, b1, y), [z]) == BookRun(env, BookStep(env, BookStep(env, b1, y), z), []);
  }
}
