/** Expense tables and statement imports as the program runs them: loops over rows, statement by statement. */
module ImportStore {
  import opened Prelude
  import opened Calendar
  import opened Text
  import opened BankCredits
  import opened Expenses
  import opened RevolutImport
  import ImportRuns
  import CreditImport
  import opened CreditDesk

  ghost predicate Settles(spec: BookOutcome<Books>, before: Books, after: Books, err: Option<BookError>) {
    match err
    case None => spec == Ok(after)
    case Some(e) => spec == Err(e) && after == before
  }

  class BookStore {
    var expenses: Table<Expense>
    var reviews: Table<Review>
    var receipts: map<nat, nat>

    function State(): Books
      reads this
    {
      Books(expenses, reviews, receipts)
    }

    constructor (b: Books)
      ensures State() == b
    {
      expenses, reviews, receipts := b.expenses, b.reviews, b.receipts;
    }

    method UpsertImportedShopExpense(ext: string, amount: int, spent: Date, desc: string, purpose: string)
      returns (r: BookOutcome<nat>)
      modifies this`expenses
      ensures var spec := UpsertExpense(old(State()), ext, amount, spent, desc, purpose);
        match r
        case Ok(id) => spec == Ok((State(), id))
        case Err(e) => spec == Err(e) && State() == old(State())
    {
      var external, description := Trim(ext), Trim(desc);
      if external == "" { return Err(BookError.MissingExternal); }
      if amount <= 0 { return Err(BookError.AmountNotPositive); }
      if !ValidPurpose(purpose) { return Err(ConstraintViolation); }
      var conflict := FindExpense(expenses.rows, external, expenses.next);
      var id := expenses.next;
      if conflict.None? {
        expenses := expenses.Insert(Expense(amount, spent, description, purpose, Digitaal, Some(external)));
      } else {
        id := conflict.value;
        expenses := expenses.Put(id, Overwrite(expenses.rows[id], amount, spent, description, purpose));
      }
      return Ok(id);
    }

    /** Whether a new row was staged. */
    method InsertPendingImportReview(row: Review) returns (r: BookOutcome<bool>)
      modifies this`reviews
      ensures var spec := StageReview(old(State()), row);
        match r
        case Ok(inserted) => spec == Ok(State()) && inserted == !Staged(old(State()), row.external)
        case Err(e) => spec == Err(e) && State() == old(State())
    {
      if row.amount <= 0 || !ValidPurpose(row.purpose) { return Err(ConstraintViolation); }
      if exists q :: q in reviews.rows && reviews.rows[q].external == row.external { return Ok(false); }
      if row.matched !in expenses.rows { return Err(ConstraintViolation); }
      reviews := reviews.Insert(row);
      return Ok(true);
    }

    method MergePendingImportReview(r: nat) returns (err: Option<BookError>)
      modifies this
      ensures Settles(MergeReview(old(State()), r), old(State()), State(), err)
    {
      if r !in reviews.rows { return Some(NotFound); }
      var review := reviews.rows[r];
      var written := UpsertImportedShopExpense(review.external, review.amount, review.spent, review.description,
          review.purpose);
      if written.Err? { return Some(written.error); }
      receipts := MoveReceipts(receipts, review.matched, written.value);
      reviews := reviews.(rows := reviews.rows - {r});
      DropRow(review.matched);
      return None;
    }

    /** DELETE FROM shop_expenses with its cascades. */
    method DropRow(e: nat)
      modifies this`expenses, this`reviews, this`receipts
      ensures State() == DropExpense(old(State()), e)
    {
      expenses := expenses.(rows := expenses.rows - {e});
      reviews := reviews.(rows := map r | r in reviews.rows && reviews.rows[r].matched != e :: reviews.rows[r]);
      receipts := map k | k in receipts && receipts[k] != e :: receipts[k];
    }

    method DeletePendingImportReview(r: nat) returns (deleted: BookOutcome<Review>)
      modifies this`reviews
      ensures match deleted
        case Ok(row) => r in old(reviews).rows && row == old(reviews).rows[r] && DeleteReview(old(State()), r)
          == Ok(State())
        case Err(e) => DeleteReview(old(State()), r) == Err(e) && State() == old(State())
    {
      if r !in reviews.rows { return Err(NotFound); }
      var row := reviews.rows[r];
      reviews := reviews.(rows := reviews.rows - {r});
      return Ok(row);
    }

    method DeleteShopExpense(e: nat) returns (err: Option<BookError>)
      modifies this
      ensures Settles(DeleteExpense(old(State()), e), old(State()), State(), err)
    {
      var affected := if e in expenses.rows then 1 else 0;
      if affected == 0 { return Some(NotFound); }
      DropRow(e);
      return None;
    }

    method UpdateShopExpensePurpose(e: nat, purpose: string) returns (err: Option<BookError>)
      modifies this`expenses
      ensures Settles(UpdatePurpose(old(State()), e, purpose), old(State()), State(), err)
    {
      if !ValidPurpose(purpose) { return Some(BookError.InvalidPurpose); }
      if e !in expenses.rows { return Some(NotFound); }
      expenses := expenses.Put(e, expenses.rows[e].(purpose := purpose));
      return None;
    }
  }

  // ----- The import loops -----

  datatype ImportError = BadPurpose | NoStandardAmount | NeedsDatabase | Stopped(error: BookError)
   | CreditStopped(creditError: CreditError) | Internal

  method CollectSkipTypes(csv: string) returns (out: set<string>)
    ensures out == ParseSkipTypes(csv)
  {
    var parts := Split(csv, ',');
    out := {};
    for n := 0 to |parts|
      invariant out == set p | p in parts[..n] && Trim(Upper(p)) != "" :: Trim(Upper(p))
    {
      var p := Trim(Upper(parts[n]));
      if p != "" { out := out + {p}; }
    }
    assert parts[..|parts|] == parts;
  }

  function StateOf(st: BookStore?): Option<Books>
    reads st
  {
    if st == null then None else Some(st.State())
  }

  method ImportDebitRows(env: Env, st: BookStore?, rows: seq<Row>, o: Options)
    returns (res: Counts, err: Option<ImportError>)
    modifies st
    ensures !ValidPurpose(o.purpose) ==> err == Some(BadPurpose)
    ensures ValidPurpose(o.purpose) && !o.dryRun && st == null ==> err == Some(NeedsDatabase)
    ensures ValidPurpose(o.purpose) && o.dryRun ==> err.None? && res == TallyDebit(env, old(StateOf(st)), o, rows)
    ensures st != null && (o.dryRun || !ValidPurpose(o.purpose)) ==> st.State() == old(st.State())
    ensures st != null && ValidPurpose(o.purpose) && !o.dryRun ==>
      var p := ImportRuns.ImportDebits(env, o, old(st.State()), rows);
      st.State() == p.books && res == p.counts && err == StoppedBy(p.failed)
  {
    res, err := ZERO, None;
    if !ValidPurpose(o.purpose) { return res, Some(BadPurpose); }
    if !o.dryRun && st == null { return res, Some(NeedsDatabase); }
    var skip := CollectSkipTypes(o.skipTypes);
    if o.dryRun {
      res := DryRunDebits(env, st, rows, o, skip);
      DebitTallyAddsUp(env, StateOf(st), o, rows);
    } else {
      ImportRuns.ImportExplained(env, o, st.State(), rows);
      res, err := BookDebits(env, st, rows, o, skip);
      if err.Some? { return; }
    }
    if !Explained(res) { return res, Some(Internal); }
  }

  /** The loop without writes. */
  method DryRunDebits(env: Env, st: BookStore?, rows: seq<Row>, o: Options, skip: set<string>) returns (res: Counts)
    requires skip == ParseSkipTypes(o.skipTypes)
    ensures res == TallyDebit(env, StateOf(st), o, rows)
  {
    hide TallyDebit, TallyCredit, PlanDebit, ParseSkipTypes;
    res := ZERO;
    assert rows[..0] == [] && TallyDebit(env, StateOf(st), o, []) == ZERO by { NoRows(env, StateOf(st), o); }
    for n := 0 to |rows|
      invariant res == TallyDebit(env, StateOf(st), o, rows[..n])
    {
      DebitTallyStep(env, StateOf(st), o, rows, n);
      var plan := PlanDebit(env, StateOf(st), o, skip, rows[n]);
      res := CountPlan(res, plan);
    }
    assert rows[..|rows|] == rows;
  }

  /** One row of the import: classify it against the tables as they are now, then count, stage or write it. */
  method BookDebitRow(env: Env, st: BookStore, row: Row, o: Options, skip: set<string>, before: Counts)
    returns (res: Counts, err: Option<BookError>)
    requires skip == ParseSkipTypes(o.skipTypes)
    modifies st`expenses, st`reviews
    ensures ImportRuns.ImportRow(env, o, ImportRuns.Progress(old(st.State()), before, None), row)
      == ImportRuns.Progress(st.State(), res, err)
  {
    hide ParseSkipTypes, StageReview, UpsertExpense, CountDebit, PlanDebit;
    var plan := PlanDebit(env, Some(st.State()), o, skip, row);
    var counted := CountPlan(before, plan);
    if plan.SkipRow? { return counted, None; }
    var item := plan.item;
    if plan.PendingReview? {
      var staged := st.InsertPendingImportReview(Review(item.amount, item.date, item.description, item.purpose,
          item.external, plan.matched));
      if staged.Err? { return before, Some(staged.error); }
      return counted, None;
    }
    var written := st.UpsertImportedShopExpense(item.external, item.amount, item.date, item.description, item.purpose);
    if written.Err? { return before, Some(written.error); }
    return counted, None;
  }

  /** The loop with writes; an error stops it and leaves the rows before it booked. */
  method BookDebits(env: Env, st: BookStore, rows: seq<Row>, o: Options, skip: set<string>)
    returns (res: Counts, err: Option<ImportError>)
    requires skip == ParseSkipTypes(o.skipTypes)
    modifies st`expenses, st`reviews
    ensures var p := ImportRuns.ImportDebits(env, o, old(st.State()), rows);
      st.State() == p.books && res == p.counts && err == StoppedBy(p.failed)
  {
    hide ImportRuns.ImportDebits, ImportRuns.ImportRow, ParseSkipTypes;
    NothingBooked(env, o, st.State());
    res, err := ZERO, None;
    ghost var start := st.State();
    assert rows[..0] == [];
    for n := 0 to |rows|
      invariant ImportRuns.ImportDebits(env, o, start, rows[..n]) == ImportRuns.Progress(st.State(), res, None)
      invariant err.None?
    {
      BookingStep(env, o, start, rows, n);
      var stop: Option<BookError>;
      res, stop := BookDebitRow(env, st, rows[n], o, skip, res);
      if stop.Some? {
        StoppedStays(env, o, start, rows, n + 1);
        return res, Some(Stopped(stop.value));
      }
    }
    assert rows[..|rows|] == rows;
  }

  function StoppedBy(failed: Option<BookError>): Option<ImportError> {
    if failed.None? then None else Some(Stopped(failed.value))
  }

  function CreditsStoppedBy(failed: Option<CreditError>): Option<ImportError> {
    if failed.None? then None else Some(CreditStopped(failed.value))
  }

  lemma NothingBooked(env: Env, o: Options, b: Books)
    ensures ImportRuns.ImportDebits(env, o, b, []) == ImportRuns.Progress(b, ZERO, None)
  {}

  lemma BookingStep(env: Env, o: Options, b: Books, rows: seq<Row>, n: nat)
    requires n < |rows|
    ensures ImportRuns.ImportDebits(env, o, b, rows[..n + 1])
      == ImportRuns.ImportRow(env, o, ImportRuns.ImportDebits(env, o, b, rows[..n]), rows[n])
  {
    hide ImportRuns.ImportRow;
    assert rows[..n + 1][..n] == rows[..n];
  }

  /** Once stopped, the rest of the rows is not looked at. */
  lemma {:induction false} StoppedStays(env: Env, o: Options, b: Books, rows: seq<Row>, n: nat)
    requires n <= |rows| && ImportRuns.ImportDebits(env, o, b, rows[..n]).failed.Some?
    ensures ImportRuns.ImportDebits(env, o, b, rows) == ImportRuns.ImportDebits(env, o, b, rows[..n])
    decreases |rows| - n
  {
    if n < |rows| {
      assert rows[..n + 1][..n] == rows[..n];
      StoppedStays(env, o, b, rows, n + 1);
    } else {
      assert rows[..n] == rows;
    }
  }

  method ImportCreditRows(env: Env, desk: Desk?, rows: seq<Row>, co: CreditOptions)
    returns (res: Counts, err: Option<ImportError>)
    modifies desk
    ensures !ValidPurpose(co.plain.purpose) ==> err == Some(BadPurpose)
    ensures ValidPurpose(co.plain.purpose) && co.lunchAmount <= 0 && co.avondetenAmount <= 0 ==>
      err == Some(NoStandardAmount)
    ensures desk != null ==> desk.requests == old(desk.requests)
    ensures err in {Some(BadPurpose), Some(NoStandardAmount), Some(NeedsDatabase)} && desk != null ==>
      desk.credits == old(desk.credits)
    ensures CanImport(co) && co.plain.dryRun ==>
      err.None? && res == TallyCredit(env, co, rows) && (desk != null ==> desk.credits == old(desk.credits))
    ensures CanImport(co) && !co.plain.dryRun && desk == null ==> err == Some(NeedsDatabase)
    ensures CanImport(co) && !co.plain.dryRun && desk != null ==>
      var p := CreditImport.ImportCredits(env, co, old(desk.credits), rows);
      desk.credits == p.credits && res == p.counts && err == CreditsStoppedBy(p.failed)
  {
    res, err := ZERO, None;
    if !ValidPurpose(co.plain.purpose) { return res, Some(BadPurpose); }
    if co.lunchAmount <= 0 && co.avondetenAmount <= 0 { return res, Some(NoStandardAmount); }
    if !co.plain.dryRun && desk == null { return res, Some(NeedsDatabase); }
    var skip := CollectSkipTypes(co.plain.skipTypes);
    if co.plain.dryRun {
      res := DryRunCredits(env, rows, co, skip);
      CreditTallyExplained(env, co, rows);
    } else {
      CreditImport.CreditImportExplained(env, co, desk.credits, rows);
      res, err := BookCredits(env, desk, rows, co, skip);
      if err.Some? { return; }
    }
    if !Explained(res) { return res, Some(Internal); }
  }

  predicate CanImport(co: CreditOptions) {
    ValidPurpose(co.plain.purpose) && (co.lunchAmount > 0 || co.avondetenAmount > 0)
  }

  /** The counters of one accepted credit. */
  method CountItem(before: Counts, item: Item) returns (res: Counts)
    ensures res == CountCredit(before, Accepted(item))
  {
    res := before.(imported := before.imported + 1);
    if item.purpose == "lunchkraam" {
      res := res.(lunchkraam := res.lunchkraam + 1);
    } else if item.purpose == "avondeten" {
      res := res.(avondeten := res.avondeten + 1);
    }
    if !item.standard { res := res.(inferred := res.inferred + 1); }
  }

  method DryRunCredits(env: Env, rows: seq<Row>, co: CreditOptions, skip: set<string>) returns (res: Counts)
    requires skip == ParseSkipTypes(co.plain.skipTypes)
    ensures res == TallyCredit(env, co, rows)
  {
    hide TallyCredit, TallyDebit, ScreenCredit, ParseSkipTypes, CountCredit;
    res := ZERO;
    assert rows[..0] == [] && TallyCredit(env, co, []) == ZERO by {
      NoCreditRows(env, co);
    }
    for n := 0 to |rows|
      invariant res == TallyCredit(env, co, rows[..n])
    {
      CreditTallyStep(env, co, rows, n);
      var s := ScreenCredit(env, co, skip, rows[n]);
      res := CountScreened(res, s);
    }
    assert rows[..|rows|] == rows;
  }

  method BookCreditRow(env: Env, desk: Desk, row: Row, co: CreditOptions, skip: set<string>, before: Counts)
    returns (res: Counts, err: Option<CreditError>)
    requires skip == ParseSkipTypes(co.plain.skipTypes)
    modifies desk`credits
    ensures CreditImport.ImportCreditRow(env, co, CreditImport.CreditProgress(old(desk.credits), before, None), row)
         == CreditImport.CreditProgress(desk.credits, res, err)
  {
    hide ParseSkipTypes, ScreenCredit, UpsertCredit, CountCredit;
    var s := ScreenCredit(env, co, skip, row);
    var counted := CountScreened(before, s);
    if s.Rejected? { return counted, None; }
    var item := s.item;
    err := desk.UpsertImportedBankCredit(item.external, item.amount, item.date, item.description, item.purpose);
    res := if err.Some? then before else counted;
  }

  method BookCredits(env: Env, desk: Desk, rows: seq<Row>, co: CreditOptions, skip: set<string>)
    returns (res: Counts, err: Option<ImportError>)
    requires skip == ParseSkipTypes(co.plain.skipTypes)
    modifies desk`credits
    ensures var p := CreditImport.ImportCredits(env, co, old(desk.credits), rows);
      desk.credits == p.credits && res == p.counts && err == CreditsStoppedBy(p.failed)
  {
    hide CreditImport.ImportCredits, CreditImport.ImportCreditRow, ParseSkipTypes;
    NoCreditBooked(env, co, desk.credits);
    res, err := ZERO, None;
    ghost var start := desk.credits;
    assert rows[..0] == [];
    for n := 0 to |rows|
      invariant CreditImport.ImportCredits(env, co, start, rows[..n])
        == CreditImport.CreditProgress(desk.credits, res, None)
      invariant err.None?
    {
      CreditBookingStep(env, co, start, rows, n);
      var stop: Option<CreditError>;
      res, stop := BookCreditRow(env, desk, rows[n], co, skip, res);
      if stop.Some? {
        CreditsStoppedStays(env, co, start, rows, n + 1);
        return res, Some(CreditStopped(stop.value));
      }
    }
    assert rows[..|rows|] == rows;
  }

  lemma NoCreditBooked(env: Env, co: CreditOptions, credits: Table<Credit>)
    ensures CreditImport.ImportCredits(env, co, credits, []) == CreditImport.CreditProgress(credits, ZERO, None)
  {}

  lemma CreditBookingStep(env: Env, co: CreditOptions, credits: Table<Credit>, rows: seq<Row>, n: nat)
    requires n < |rows|
    ensures CreditImport.ImportCredits(env, co, credits, rows[..n + 1])
         == CreditImport.ImportCreditRow(env, co, CreditImport.ImportCredits(env, co, credits, rows[..n]), rows[n])
  {
    hide CreditImport.ImportCreditRow;
    assert rows[..n + 1][..n] == rows[..n];
  }

  lemma {:induction false} CreditsStoppedStays(env: Env, co: CreditOptions, credits: Table<Credit>, rows: seq<Row>,
      n: nat)
    requires n <= |rows| && CreditImport.ImportCredits(env, co, credits, rows[..n]).failed.Some?
    ensures CreditImport.ImportCredits(env, co, credits, rows)
      == CreditImport.ImportCredits(env, co, credits, rows[..n])
    decreases |rows| - n
  {
    if n < |rows| {
      assert rows[..n + 1][..n] == rows[..n];
      CreditsStoppedStays(env, co, credits, rows, n + 1);
    } else {
      assert rows[..n] == rows;
    }
  }

  // ----- The preview -----

  datatype Shown =
    | NotImported(reason: SkipReason) | AsPending | AsUpdate | AsNew
    | CreditsDisabled | AsCredit(lunchkraam: bool, inferred: bool)

  datatype Branch = Branch(outcome: Shown, selectable: bool, rowKey: string, purpose: string)

  datatype PreviewRow = PreviewRow(line: int, row: Row, debit: Branch, credit: Branch)

  function DebitBranch(plan: DebitPlan): Branch {
    match plan
    case SkipRow(reason) => Branch(NotImported(reason), false, "", "")
    case PendingReview(item, _) => Branch(AsPending, true, item.external, item.purpose)
    case UpdateExpense(item) => Branch(AsUpdate, true, item.external, item.purpose)
    case NewExpense(item) => Branch(AsNew, true, item.external, item.purpose)
  }

  function CreditBranch(s: Screened, enabled: bool): Branch {
    if !enabled then Branch(CreditsDisabled, false, "", "")
    else match s
      case Rejected(reason) => Branch(NotImported(reason), false, "", "")
      case Accepted(item)
        => Branch(AsCredit(item.purpose == "lunchkraam", !item.standard), true, item.external, item.purpose)
  }

  /** The plans of one row on both sides, as shown. */
  function PlannedRow(env: Env, b: Books, row: Row, line: int, o: Options, co: CreditOptions,
      runCredits: bool): PreviewRow {
    PreviewRow(line, row, DebitBranch(PlanDebit(env, Some(b), o, ParseSkipTypes(o.skipTypes), row)),
               CreditBranch(ScreenCredit(env, co, ParseSkipTypes(co.plain.skipTypes), row), runCredits))
  }

  function SelectableDebits(out: seq<PreviewRow>): nat {
    if out == [] then 0 else SelectableDebits(out[..|out| - 1]) + (if out[|out| - 1].debit.selectable then 1 else 0)
  }

  function SelectableCredits(out: seq<PreviewRow>): nat {
    if out == [] then 0 else SelectableCredits(out[..|out| - 1]) + (if out[|out| - 1].credit.selectable then 1 else 0)
  }

  /** As many rows can be chosen on each side as the counters announce. */
  lemma {:induction false} SelectableRows(env: Env, b: Books, rows: seq<Row>, o: Options, co: CreditOptions,
      runCredits: bool, out: seq<PreviewRow>)
    requires |out| == |rows|
    requires forall i :: 0 <= i < |out| ==> out[i] == PlannedRow(env, b, rows[i], i + 1, o, co, runCredits)
    ensures SelectableDebits(out)
      == TallyDebit(env, Some(b), o, rows).imported + TallyDebit(env, Some(b), o, rows).pending
    ensures SelectableCredits(out) == if runCredits then TallyCredit(env, co, rows).imported else 0
    decreases |out|
  {
    hide TallyDebit, TallyCredit, PlanDebit, ScreenCredit, ParseSkipTypes;
    if out == [] {
      NoRows(env, Some(b), o);
      NoCreditRows(env, co);
    } else {
      var n := |out| - 1;
      SelectableRows(env, b, rows[..n], o, co, runCredits, out[..n]);
      assert rows[..n + 1] == rows;
      DebitTallyStep(env, Some(b), o, rows, n);
      CreditTallyStep(env, co, rows, n);
    }
  }

  lemma PreviewExplained(env: Env, b: Books, rows: seq<Row>, o: Options, co: CreditOptions)
    ensures Explained(TallyDebit(env, Some(b), o, rows)) && Explained(TallyCredit(env, co, rows))
  {
    DebitTallyAddsUp(env, Some(b), o, rows);
    CreditTallyExplained(env, co, rows);
  }

  /** The counters are those of a dry run over the same rows; they agree with the rows shown; no row can be chosen on
      both sides. */
  method BuildRevolutImportPreview(env: Env, st: BookStore?, rows: seq<Row>, o: Options, co: CreditOptions,
      runCredits: bool)
    returns (out: seq<PreviewRow>, debit: Counts, credit: Counts, err: Option<ImportError>)
    ensures st == null <==> err == Some(NeedsDatabase)
    ensures st != null ==> err.None? && debit == TallyDebit(env, Some(st.State()), o, rows)
    ensures st != null ==> credit == if runCredits then TallyCredit(env, co, rows) else ZERO
    ensures st != null ==>
      |out| == |rows| && SelectableDebits(out) == debit.imported + debit.pending && SelectableCredits(out)
        == credit.imported
    ensures st != null ==> forall i :: 0 <= i < |out| ==>
      out[i] == PlannedRow(env, st.State(), rows[i], i + 1, o, co, runCredits)
    ensures forall i :: 0 <= i < |out| ==> !(out[i].debit.selectable && out[i].credit.selectable)
  {
    hide TallyDebit, TallyCredit, PlanDebit, ScreenCredit, ParseSkipTypes, CountCredit, CountDebit, Explained,
        AddsUp, SelectableDebits, SelectableCredits;
    out, debit, credit, err := [], ZERO, ZERO, None;
    if st == null { return out, debit, credit, Some(NeedsDatabase); }
    var skipDebit := CollectSkipTypes(o.skipTypes);
    var skipCredit := CollectSkipTypes(co.plain.skipTypes);
    assert rows[..0] == [] && TallyDebit(env, Some(st.State()), o, []) == ZERO && TallyCredit(env, co, []) == ZERO by {
      NoRows(env, Some(st.State()), o);
      NoCreditRows(env, co);
    }
    for n := 0 to |rows|
      invariant |out| == n
      invariant debit == TallyDebit(env, Some(st.State()), o, rows[..n])
      invariant credit == (if runCredits then TallyCredit(env, co, rows[..n]) else ZERO)
      invariant forall i :: 0 <= i < n ==> out[i] == PlannedRow(env, st.State(), rows[i], i + 1, o, co, runCredits)
      invariant forall i :: 0 <= i < n ==> !(out[i].debit.selectable && out[i].credit.selectable)
    {
      DebitTallyStep(env, Some(st.State()), o, rows, n);
      CreditTallyStep(env, co, rows, n);
      var row: PreviewRow;
      row, debit, credit := PreviewOne(env, st.State(), rows[n], n + 1, o, co, skipDebit, skipCredit, runCredits,
          debit, credit);
      out := out + [row];
    }
    assert rows[..|rows|] == rows;
    PreviewExplained(env, st.State(), rows, o, co);
    SelectableRows(env, st.State(), rows, o, co, runCredits, out);
    if !Explained(debit) { return [], ZERO, ZERO, Some(Internal); }
    if runCredits && !Explained(credit) { return [], ZERO, ZERO, Some(Internal); }
  }

  /** One row of the preview. */
  method PreviewOne(env: Env, b: Books, row: Row, line: int, o: Options, co: CreditOptions, skipDebit: set<string>,
      skipCredit: set<string>,
                    runCredits: bool, debitBefore: Counts, creditBefore: Counts)
    returns (shown: PreviewRow, debit: Counts, credit: Counts)
    ensures shown == PreviewRow(line, row, DebitBranch(PlanDebit(env, Some(b), o, skipDebit, row)),
                                CreditBranch(ScreenCredit(env, co, skipCredit, row), runCredits))
    ensures !(shown.debit.selectable && shown.credit.selectable)
    ensures debit == CountDebit(debitBefore, PlanDebit(env, Some(b), o, skipDebit, row))
    ensures credit
      == if runCredits then CountCredit(creditBefore, ScreenCredit(env, co, skipCredit, row)) else creditBefore
  {
    NeverBoth(env, Some(b), o, co, skipDebit, skipCredit, row);
    hide PlanDebit, ScreenCredit, CountDebit, CountCredit;
    var plan := PlanDebit(env, Some(b), o, skipDebit, row);
    debit := CountPlan(debitBefore, plan);
    credit := creditBefore;
    var s := Rejected(Unknown);
    if runCredits {
      s := ScreenCredit(env, co, skipCredit, row);
      credit := CountScreened(creditBefore, s);
    }
    shown := PreviewRow(line, row, DebitBranch(plan), CreditBranch(s, runCredits));
  }

  method CountPlan(before: Counts, plan: DebitPlan) returns (res: Counts)
    ensures res == CountDebit(before, plan)
  {
    res := before;
    if plan.SkipRow? {
      res := res.(skipped := res.skipped + 1, reasons := IncSkipReason(res.reasons, plan.reason));
    } else if plan.PendingReview? {
      res := res.(pending := res.pending + 1);
    } else {
      res := res.(imported := res.imported + 1);
    }
  }

  method CountScreened(before: Counts, s: Screened) returns (res: Counts)
    ensures res == CountCredit(before, s)
  {
    if s.Rejected? {
      res := before.(skipped := before.skipped + 1, reasons := IncSkipReason(before.reasons, s.reason));
    } else {
      res := CountItem(before, s.item);
    }
  }
}
