/** The revenue side of an import: positive rows become bank credits. */
module CreditImport {
  import opened Prelude
  import opened Calendar
  import opened Text
  import opened BankCredits
  import opened Expenses
  import opened RevolutImport

  datatype CreditProgress = CreditProgress(credits: Table<Credit>, counts: Counts, failed: Option<CreditError>)

  function WriteCredit(credits: Table<Credit>, item: Item): CreditOutcome {
    UpsertCredit(credits, item.external, item.amount, item.date, item.description, item.purpose)
  }

  function ImportCreditRow(env: Env, co: CreditOptions, p: CreditProgress, row: Row): CreditProgress {
    if p.failed.Some? then p
    else
      var s := ScreenCredit(env, co, ParseSkipTypes(co.plain.skipTypes), row);
      if s.Rejected? then p.(counts := CountCredit(p.counts, s))
      else
        var r := WriteCredit(p.credits, s.item);
        if r.Err? then p.(failed := Some(r.error)) else CreditProgress(r.value, CountCredit(p.counts, s), None)
  }

  function ImportCredits(env: Env, co: CreditOptions, credits: Table<Credit>, rows: seq<Row>): CreditProgress
    decreases |rows|
  {
    if rows == [] then CreditProgress(credits, ZERO, None)
    else ImportCreditRow(env, co, ImportCredits(env, co, credits, rows[..|rows| - 1]), rows[|rows| - 1])
  }

  ghost predicate TableOk(credits: Table<Credit>) {
    credits.Valid() && OneCreditPerExternal(credits.rows)
  }

  /** Every credit keeps its status and its link; new credits are open and unlinked. */
  ghost predicate KeepsReconciliation(before: map<nat, Credit>, after: map<nat, Credit>) {
    && (forall b :: b in before ==>
          && b in after && after[b].status == before[b].status && after[b].sale == before[b].sale
          && after[b].external == before[b].external)
    && (forall b :: b in after && b !in before ==> after[b].status == OpenRevenue && after[b].sale == None)
  }

  lemma WriteCreditKeeps(credits: Table<Credit>, item: Item)
    requires TableOk(credits) && ItemOk(item)
    ensures WriteCredit(credits, item).Ok? && TableOk(WriteCredit(credits, item).value)
    ensures KeepsReconciliation(credits.rows, WriteCredit(credits, item).value.rows)
  {}

  // ----- Accepted items -----

  function CreditItems(env: Env, co: CreditOptions, rows: seq<Row>): seq<Item>
    decreases |rows|
  {
    if rows == [] then []
    else
      var s := ScreenCredit(env, co, ParseSkipTypes(co.plain.skipTypes), rows[|rows| - 1]);
      CreditItems(env, co, rows[..|rows| - 1]) + (if s.Accepted? then [s.item] else [])
  }

  function WriteCredits(credits: Table<Credit>, items: seq<Item>): Table<Credit>
    decreases |items|
  {
    if items == [] then credits
    else
      var before := WriteCredits(credits, items[..|items| - 1]);
      var r := WriteCredit(before, items[|items| - 1]);
      if r.Ok? then r.value else before
  }

  lemma CreditRowIsWritten(env: Env, co: CreditOptions, p: CreditProgress, row: Row)
    requires EnvOk(env) && TableOk(p.credits) && ValidPurpose(co.plain.purpose) && p.failed.None?
    ensures var s, after := ScreenCredit(env, co, ParseSkipTypes(co.plain.skipTypes), row),
        ImportCreditRow(env, co, p, row);
      && after.failed.None? && after.counts == CountCredit(p.counts, s) && TableOk(after.credits)
      && KeepsReconciliation(p.credits.rows, after.credits.rows)
      && (s.Accepted? ==> WriteCredit(p.credits, s.item).Ok?) && (s.Accepted? ==> ItemOk(s.item))
      && after.credits == if s.Accepted? then WriteCredit(p.credits, s.item).value else p.credits
  {
    var s := ScreenCredit(env, co, ParseSkipTypes(co.plain.skipTypes), row);
    ScreenedCreditOk(env, co, ParseSkipTypes(co.plain.skipTypes), row);
    hide TableOk, WriteCredit, ScreenCredit, ParseSkipTypes;
    if s.Accepted? { WriteCreditKeeps(p.credits, s.item); }
  }

  lemma ReconciliationChain(a: map<nat, Credit>, b: map<nat, Credit>, c: map<nat, Credit>)
    requires KeepsReconciliation(a, b) && KeepsReconciliation(b, c)
    ensures KeepsReconciliation(a, c)
  {}

  /** With valid options the credit import never stops, counts what preview and dry run count, and changes the
      reconciliation of no credit. */
  lemma {:induction false} CreditImportOutcome(env: Env, co: CreditOptions, credits: Table<Credit>, rows: seq<Row>)
    requires EnvOk(env) && TableOk(credits) && ValidPurpose(co.plain.purpose)
    ensures var p := ImportCredits(env, co, credits, rows);
      && p.failed.None? && p.counts == TallyCredit(env, co, rows) && TableOk(p.credits)
      && KeepsReconciliation(credits.rows, p.credits.rows)
    decreases |rows|
  {
    if rows != [] {
      hide EnvOk, TableOk, ImportCreditRow, ScreenCredit, ParseSkipTypes, CountCredit, KeepsReconciliation;
      var n := |rows| - 1;
      CreditImportOutcome(env, co, credits, rows[..n]);
      var before := ImportCredits(env, co, credits, rows[..n]);
      CreditRowIsWritten(env, co, before, rows[n]);
      ReconciliationChain(credits.rows, before.credits.rows, ImportCreditRow(env, co, before, rows[n]).credits.rows);
    }
  }

  /** What it writes depends on the accepted items only. */
  lemma {:induction false} CreditsFromItems(env: Env, co: CreditOptions, credits: Table<Credit>, rows: seq<Row>)
    requires EnvOk(env) && TableOk(credits) && ValidPurpose(co.plain.purpose)
    ensures ImportCredits(env, co, credits, rows).credits == WriteCredits(credits, CreditItems(env, co, rows))
    ensures ItemsOk(CreditItems(env, co, rows))
    decreases |rows|
  {
    if rows != [] {
      hide EnvOk, TableOk, ImportCreditRow, ScreenCredit, ParseSkipTypes, CountCredit, KeepsReconciliation, TallyCredit;
      var n := |rows| - 1;
      CreditsFromItems(env, co, credits, rows[..n]);
      CreditImportOutcome(env, co, credits, rows[..n]);
      var before := ImportCredits(env, co, credits, rows[..n]);
      CreditRowIsWritten(env, co, before, rows[n]);
      var items := CreditItems(env, co, rows[..n]);
      var s := ScreenCredit(env, co, ParseSkipTypes(co.plain.skipTypes), rows[n]);
      if s.Accepted? {
        assert (items + [s.item])[..|items|] == items;
        WriteCreditKeeps(before.credits, s.item);
      } else {
        assert items + [] == items;
      }
    }
  }

  lemma CreditRowExplained(env: Env, co: CreditOptions, p: CreditProgress, row: Row)
    requires Explained(p.counts)
    ensures Explained(ImportCreditRow(env, co, p, row).counts)
  {
    hide Explained, CountCredit, ScreenCredit, WriteCredit;
    if p.failed.None? { CountCreditExplained(p.counts,
        ScreenCredit(env, co, ParseSkipTypes(co.plain.skipTypes), row)); }
  }

  /** Skipped rows are explained by their reasons, even in an import that stops. */
  lemma {:induction false} CreditImportExplained(env: Env, co: CreditOptions, credits: Table<Credit>, rows: seq<Row>)
    ensures Explained(ImportCredits(env, co, credits, rows).counts)
    decreases |rows|
  {
    hide Explained, ImportCreditRow;
    if rows == [] {
      NothingAddsUp(ZERO);
    } else {
      CreditImportExplained(env, co, credits, rows[..|rows| - 1]);
      CreditRowExplained(env, co, ImportCredits(env, co, credits, rows[..|rows| - 1]), rows[|rows| - 1]);
    }
  }

  // ----- Importing twice -----

  function Updated(row: Credit, item: Item): Credit
    requires ItemOk(item)
  {
    row.(amount := item.amount, received := item.date, description := Trim(item.description),
        purpose := ParsePurpose(item.purpose).value)
  }

  function OverlayRow(row: Credit, items: seq<Item>): Credit {
    var last := LastOf(items, row.external);
    if last.None? || !ItemOk(last.value) then row else Updated(row, last.value)
  }

  /** The table in which every identifier shows what the last of its items says. */
  function Overlay(credits: Table<Credit>, items: seq<Item>): Table<Credit> {
    credits.(rows := map b | b in credits.rows :: OverlayRow(credits.rows[b], items))
  }

  ghost predicate Imported(credits: Table<Credit>, external: string) {
    exists b :: b in credits.rows && credits.rows[b].external == external
  }

  /** The row of the written identifier says what the item says; every other row is as before. */
  lemma WrittenCredit(credits: Table<Credit>, item: Item, b: nat)
    requires TableOk(credits) && ItemOk(item) && b in WriteCredit(credits, item).value.rows
    ensures var row := WriteCredit(credits, item).value.rows[b];
      if row.external == item.external then Updated(row, item) == row else b in credits.rows && row == credits.rows[b]
  {}

  lemma WriteImports(credits: Table<Credit>, item: Item, external: string)
    requires TableOk(credits) && ItemOk(item) && (item.external == external || Imported(credits, external))
    ensures Imported(WriteCredit(credits, item).value, external)
  {
    var after := WriteCredit(credits, item).value;
    var found := FindCredit(credits.rows, item.external, credits.next);
    assert after.rows[if found.Some? then found.value else credits.next].external == item.external;
    if Imported(credits, external) {
      var b :| b in credits.rows && credits.rows[b].external == external;
      assert b in after.rows && after.rows[b].external == external by { WriteCreditKeeps(credits, item); }
    }
  }

  ghost predicate AllImported(credits: Table<Credit>, items: seq<Item>) {
    forall i :: 0 <= i < |items| ==> Imported(credits, items[i].external)
  }

  lemma WriteImportsAll(before: Table<Credit>, items: seq<Item>)
    requires TableOk(before) && items != [] && ItemOk(items[|items| - 1]) && AllImported(before, items[..|items| - 1])
    ensures WriteCredit(before, items[|items| - 1]).Ok?
      && AllImported(WriteCredit(before, items[|items| - 1]).value, items)
  {
    hide TableOk, WriteCredit, Imported;
    var n := |items| - 1;
    WriteCreditKeeps(before, items[n]);
    forall i | 0 <= i < |items| ensures Imported(WriteCredit(before, items[n]).value, items[i].external) {
      if i < n { assert items[..n][i] == items[i]; }
      WriteImports(before, items[n], items[i].external);
    }
  }

  lemma {:induction false} PassImports(credits: Table<Credit>, items: seq<Item>)
    requires TableOk(credits) && ItemsOk(items)
    ensures TableOk(WriteCredits(credits, items))
      && Overlay(WriteCredits(credits, items), items) == WriteCredits(credits, items)
    ensures AllImported(WriteCredits(credits, items), items)
    decreases |items|
  {
    if items == [] {
      assert Overlay(credits, items).rows == credits.rows;
    } else {
      var n := |items| - 1;
      var before := WriteCredits(credits, items[..n]);
      hide TableOk, WriteCredit, AllImported, Overlay;
      PassImports(credits, items[..n]);
      WriteCreditKeeps(before, items[n]);
      WriteImportsAll(before, items);
      OverlayGrows(before, items);
    }
  }

  lemma OverlayGrows(before: Table<Credit>, items: seq<Item>)
    requires TableOk(before) && items != [] && ItemOk(items[|items| - 1])
      && Overlay(before, items[..|items| - 1]) == before
    ensures WriteCredit(before, items[|items| - 1]).Ok?
    ensures var after := WriteCredit(before, items[|items| - 1]).value; Overlay(after, items) == after
  {
    var n := |items| - 1;
    WriteCreditKeeps(before, items[n]);
    var after := WriteCredit(before, items[n]).value;
    forall b | b in after.rows ensures OverlayRow(after.rows[b], items) == after.rows[b] {
      if b in before.rows { assert OverlayRow(before.rows[b], items[..n]) == before.rows[b]; }
      WrittenCredit(before, items[n], b);
    }
    assert Overlay(after, items).rows == after.rows;
  }

  lemma {:induction false} PassOverlays(credits: Table<Credit>, items: seq<Item>)
    requires TableOk(credits) && ItemsOk(items)
    requires AllImported(credits, items)
    ensures WriteCredits(credits, items) == Overlay(credits, items)
    decreases |items|
  {
    if items == [] {
      assert Overlay(credits, items).rows == credits.rows;
    } else {
      var n := |items| - 1;
      hide TableOk, WriteCredit, Imported;
      forall i | 0 <= i < n ensures Imported(credits, items[..n][i].external) { assert items[..n][i] == items[i]; }
      PassOverlays(credits, items[..n]);
      OverlayStep(credits, items);
    }
  }

  lemma OverlayStep(credits: Table<Credit>, items: seq<Item>)
    requires TableOk(credits) && items != [] && ItemOk(items[|items| - 1])
      && Imported(credits, items[|items| - 1].external)
    ensures WriteCredit(Overlay(credits, items[..|items| - 1]), items[|items| - 1]) == Ok(Overlay(credits, items))
  {
    var n := |items| - 1;
    var item, c := items[n], Overlay(credits, items[..n]);
    var b :| b in credits.rows && credits.rows[b].external == item.external;
    assert c.rows[b].external == item.external;
    var id := FindCredit(c.rows, item.external, c.next);
    assert id == Some(b);
    assert WriteCredit(c, item) == Ok(c.Put(b, Updated(c.rows[b], item)));
    assert Overlay(credits, items).rows == c.rows[b := Updated(c.rows[b], item)];
  }

  /** Importing any list of rows twice gives the same credits as importing it once. */
  lemma CreditImportIsIdempotent(env: Env, co: CreditOptions, credits: Table<Credit>, rows: seq<Row>)
    requires EnvOk(env) && TableOk(credits) && ValidPurpose(co.plain.purpose)
    ensures var once := ImportCredits(env, co, credits, rows).credits;
      ImportCredits(env, co, once, rows).credits == once
  {
    var items := CreditItems(env, co, rows);
    var once := WriteCredits(credits, items);
    CreditsFromItems(env, co, credits, rows);
    PassImports(credits, items);
    CreditsFromItems(env, co, once, rows);
    PassOverlays(once, items);
  }
}
