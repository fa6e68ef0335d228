/** What the preview of an import shows of each row, said of the row and the tables. */
module Previews {
  import opened Prelude
  import opened Text
  import opened Expenses
  import opened RevolutImport
  import opened Statements
  import opened BookEffects
  import opened ImportStore

  /** The expense side offers a row exactly if the import would take it up, under the identifier and purpose it would
      get: as an update if the identifier is booked, for review if it is a possible duplicate, else as new. */
  lemma DebitShown(env: Env, b: Books, o: Options, row: Row)
    requires EnvOk(env)
    ensures var skip := ParseSkipTypes(o.skipTypes);
      var shown, s := DebitBranch(PlanDebit(env, Some(b), o, skip, row)), ScreenDebit(env, o, skip, row);
      match s
      case Rejected(reason) => shown == Branch(NotImported(reason), false, "", "")
      case Accepted(item) =>
        var known := exists e :: e in b.expenses.rows && b.expenses.rows[e].external == Some(item.external);
        && shown.selectable && shown.rowKey == item.external && shown.purpose == item.purpose
        && (shown.outcome == AsUpdate <==> known)
        && (shown.outcome == AsPending <==> Duplicates(b, item))
        && (shown.outcome == AsNew <==> !known && !Duplicates(b, item))
  {
    DebitPlanned(env, b, o, row);
    hide PlanDebit, ScreenDebit, ParseSkipTypes, EnvOk, SameByHand;
  }

  /** The revenue side, if it is on, offers a row exactly if the import would take it up, and says what it will count as
      and whether that was inferred. */
  lemma CreditShown(env: Env, co: CreditOptions, row: Row, enabled: bool)
    ensures var skip := ParseSkipTypes(co.plain.skipTypes);
      var shown, s := CreditBranch(ScreenCredit(env, co, skip, row), enabled), ScreenCredit(env, co, skip, row);
      && (shown.selectable <==> enabled && s.Accepted?)
      && (shown.selectable ==>
            && shown.rowKey == s.item.external && shown.purpose == s.item.purpose
            && shown.outcome == AsCredit(s.item.purpose == "lunchkraam",
                 !NoneChosen(co.plain, s.item.external) || NoPrice(co, row.amount)))
      && (shown.outcome == CreditsDisabled <==> !enabled)
      && (forall reason :: shown.outcome == NotImported(reason) <==> enabled && s == Rejected(reason))
  {
    CreditScreened(env, co, row);
    hide ScreenCredit, ParseSkipTypes, NoneChosen;
  }
}
