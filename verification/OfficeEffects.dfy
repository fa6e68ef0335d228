/** When each operation of the bookkeeping succeeds and what it leaves behind, said of the rows themselves. */
module OfficeEffects {
  import opened Prelude
  import opened Ledger
  import opened Calendar
  import opened Text
  import opened BankCredits
  import opened Rounding
  import opened Reconciliation
  import Expenses
  import opened RevolutImport
  import opened CreditImport
  import opened Statements

  // ----- Credits -----

  /** Purpose texts and purposes. */
  ghost predicate Reads(text: string, purpose: Purpose) {
    text == (if purpose == LunchPurpose then "lunchkraam" else "avondeten")
  }

  /** The credit row that the statement gives for this identifier, apart from its status and link. */
  ghost predicate Shows(row: Credit, external: string, amount: int, received: Date, description: string,
      purpose: string)
  {
    && row.external == external && row.amount == amount && row.received == received
    && row.description == Trim(description) && Reads(purpose, row.purpose)
  }

  /** Row `b`, new and open or with the status and link it had, is now the only one with the identifier; every other row
      is as before. */
  ghost predicate WrittenAt(credits: Table<Credit>, after: Table<Credit>, b: nat, external: string) {
    && b in after.rows && after.rows[b].external == external
    && (b in credits.rows ==>
          after.rows[b].status == credits.rows[b].status && after.rows[b].sale == credits.rows[b].sale)
    && (b !in credits.rows ==>
          b == credits.next && after.rows[b].status == OpenRevenue && after.rows[b].sale == None)
    && after.next == (if b in credits.rows then credits.next else credits.next + 1)
    && after.rows.Keys == credits.rows.Keys + {b}
    && (forall d :: d in credits.rows && d != b ==>
          after.rows[d] == credits.rows[d] && credits.rows[d].external != external)
  }

  /** A credit is written exactly if it has an identifier, a positive amount and one of the two purposes. The one row of
      the identifier then shows what was written, and nothing else changes. */
  lemma UpsertEffect(credits: Table<Credit>, ext: string, amount: int, received: Date, desc: string, purpose: string)
    returns (b: nat)
    requires TableOk(credits)
    ensures var r := UpsertCredit(credits, ext, amount, received, desc, purpose);
      && (r.Ok? <==> Trim(ext) != "" && amount > 0 && purpose in {"lunchkraam", "avondeten"})
      && (r == Err(MissingExternal) <==> Trim(ext) == "")
      && (r == Err(AmountNotPositive) <==> Trim(ext) != "" && amount <= 0)
      && (r.Ok? ==>
            && WrittenAt(credits, r.value, b, Trim(ext))
            && Shows(r.value.rows[b], Trim(ext), amount, received, desc, purpose))
  {
    hide Trim;
    var r := UpsertCredit(credits, ext, amount, received, desc, purpose);
    var existing := FindCredit(credits.rows, Trim(ext), credits.next);
    b := if existing.Some? then existing.value else credits.next;
  }

  /** The sale that a credit can stand for: a fulfilled sale of the credit's purpose, at exactly its amount, that no
      other credit is linked to. */
  ghost predicate Pays(credits: map<nat, Credit>, requests: map<nat, Request>, b: nat, r: nat)
    requires b in credits
  {
    && r in requests && requests[r].status.Fulfilled? && requests[r].price == Some(credits[b].amount)
    && requests[r].kind == (if credits[b].purpose == LunchPurpose then Tosti else Avondeten)
    && forall a :: a in credits && credits[a].sale == Some(r) ==> a == b
  }

  /** An open credit can be linked to exactly those sales, and the link is all that changes. */
  lemma LinkEffect(credits: Table<Credit>, requests: map<nat, Request>, b: nat, r: nat)
    ensures Link(credits, requests, b, r).Ok? <==>
      b in credits.rows && credits.rows[b].status == OpenRevenue && Pays(credits.rows, requests, b, r)
    ensures Link(credits, requests, b, r).Ok? ==>
      Link(credits, requests, b, r).value
        == credits.(rows := credits.rows[b := credits.rows[b].(status := MatchedSale, sale := Some(r))])
    ensures Link(credits, requests, b, r) == Err(CreditNotFound) <==> b !in credits.rows
    ensures Link(credits, requests, b, r) == Err(CreditNotOpen) <==>
      b in credits.rows && credits.rows[b].status != OpenRevenue
  {
    if b in credits.rows && r in requests && requests[r].price.Some? {
      TolerantIsExact(credits.rows[b].amount, requests[r].price.value);
    }
    hide AmountsMatch, Eur;
  }

  /** Exactly matched and waived credits can be opened again; exactly open credits can be waived. Only that credit
      changes. */
  lemma ReleaseEffect(credits: Table<Credit>, b: nat)
    ensures Unlink(credits, b).Ok? <==> b in credits.rows && credits.rows[b].status in {MatchedSale, Waived}
    ensures Unlink(credits, b).Err? ==> Unlink(credits, b).error == CreditNotFound
    ensures Unlink(credits, b).Ok? ==>
      Unlink(credits, b).value
        == credits.(rows := credits.rows[b := credits.rows[b].(status := OpenRevenue, sale := None)])
    ensures Waive(credits, b).Ok? <==> b in credits.rows && credits.rows[b].status == OpenRevenue
    ensures Waive(credits, b) == Err(CreditNotFound) <==> b !in credits.rows
    ensures Waive(credits, b) == Err(CreditNotOpen) <==> b in credits.rows && credits.rows[b].status != OpenRevenue
    ensures Waive(credits, b).Ok? ==>
      Waive(credits, b).value == credits.(rows := credits.rows[b := credits.rows[b].(status := Waived)])
  {}

  // ----- From the statement to the sale -----

  /** The credit of an imported row is open for exactly the fulfilled, unlinked sales of its amount and kind. */
  ghost predicate Awaits(credits: Table<Credit>, requests: map<nat, Request>, external: string, amount: int, kind: Kind)
  {
    exists b ::
      && b in credits.rows && credits.rows[b].external == external && credits.rows[b].status == OpenRevenue
      && forall r :: Link(credits, requests, b, r).Ok? <==>
           && r in requests && requests[r].status.Fulfilled? && requests[r].kind == kind
           && requests[r].price == Some(amount)
           && forall a :: a in credits.rows ==> credits.rows[a].sale != Some(r)
  }

  /** An incoming row for which the user chose no purpose, at the lunch price: the import counts one lunchkraam credit
      more and no inferred one, and a new credit can be linked to exactly the fulfilled, unlinked tosti sales at that
      price. At the dinner price, if that is a different one, the same holds for avondeten. */
  lemma StandardRowIsLinkable(env: Env, co: CreditOptions, p: CreditProgress, row: Row, requests: map<nat, Request>)
    requires EnvOk(env) && TableOk(p.credits) && Expenses.ValidPurpose(co.plain.purpose) && p.failed.None?
    requires LinksOpenOnly(p.credits)
    ensures var s, after := ScreenCredit(env, co, ParseSkipTypes(co.plain.skipTypes), row),
        ImportCreditRow(env, co, p, row);
      s.Accepted? && NoneChosen(co.plain, s.item.external) && !NoPrice(co, row.amount) ==>
        var lunch := row.amount == co.lunchAmount && co.lunchAmount > 0;
        && after.failed.None?
        && after.counts == p.counts.(imported := p.counts.imported + 1,
             lunchkraam := p.counts.lunchkraam + (if lunch then 1 else 0),
             avondeten := p.counts.avondeten + (if lunch then 0 else 1))
        && (NewOrOpen(p.credits, s.item.external) ==>
              Awaits(after.credits, requests, s.item.external, row.amount, if lunch then Tosti else Avondeten))
  {
    var s := ScreenCredit(env, co, ParseSkipTypes(co.plain.skipTypes), row);
    CreditScreened(env, co, row);
    CreditRowIsWritten(env, co, p, row);
    hide ScreenCredit, ParseSkipTypes, ImportCreditRow, EnvOk, Trim;
    if s.Accepted? && NoneChosen(co.plain, s.item.external) && !NoPrice(co, row.amount) {
      ChosenIsNotNone(co.plain, s.item.external, s.item.purpose);
      assert AtPrice(co, row.amount, s.item.purpose);
      hide Chosen, NoneChosen, Describes, CreditIdentifies, ByClock, Passes;
      if NewOrOpen(p.credits, s.item.external) {
        WrittenAwaits(p.credits, s.item, requests);
      }
    }
  }

  lemma ChosenIsNotNone(o: Options, external: string, purpose: string)
    requires NoneChosen(o, external)
    ensures !Chosen(o, external, purpose)
  {}

  /** Only matched credits are linked. */
  ghost predicate LinksOpenOnly(credits: Table<Credit>) {
    forall b :: b in credits.rows && credits.rows[b].sale.Some? ==> credits.rows[b].status == MatchedSale
  }

  ghost predicate NewOrOpen(credits: Table<Credit>, external: string) {
    forall b :: b in credits.rows && credits.rows[b].external == external ==> credits.rows[b].status == OpenRevenue
  }

  lemma WrittenAwaits(credits: Table<Credit>, item: Item, requests: map<nat, Request>)
    requires TableOk(credits) && ItemOk(item) && LinksOpenOnly(credits) && NewOrOpen(credits, item.external)
    ensures WriteCredit(credits, item).Ok?
    ensures Awaits(WriteCredit(credits, item).value, requests, item.external, item.amount,
      if item.purpose == "lunchkraam" then Tosti else Avondeten)
  {
    WriteCreditKeeps(credits, item);
    var b := UpsertEffect(credits, item.external, item.amount, item.date, item.description, item.purpose);
    hide UpsertCredit;
    var after := WriteCredit(credits, item).value;
    forall r ensures Link(after, requests, b, r).Ok? <==> Pays(after.rows, requests, b, r) {
      LinkEffect(after, requests, b, r);
    }
    hide Link;
  }
}
