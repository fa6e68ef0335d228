/** What an import makes of a statement row, and what it counts over all rows, said of the rows themselves. */
module Statements {
  import opened Prelude
  import opened Calendar
  import opened Text
  import opened Expenses
  import opened RevolutImport

  // ----- Filters -----

  /** A row that is not known to be completed. An empty state passes. */
  ghost predicate Unfinished(row: Row) {
    Trim(Upper(row.state)) !in {"", "COMPLETED", "VOLTOOID", "COMPLETE", "AFGEHANDELD"}
  }

  /** The row names a currency other than the one that is asked for. */
  ghost predicate Foreign(row: Row, currency: string) {
    currency != "" && Trim(Upper(row.currency)) != "" && Trim(Upper(row.currency)) != Upper(Trim(currency))
  }

  /** The row has a type that is on the list, which is read up to case and blanks. */
  ghost predicate Unwanted(row: Row, csv: string) {
    && Trim(Upper(row.kind)) != ""
    && exists part :: part in Split(csv, ',') && Trim(Upper(part)) == Trim(Upper(row.kind))
  }

  /** A row is filtered out for the first of three reasons that applies, and for no other. */
  lemma FilterExactly(row: Row, currency: string, csv: string, completedOnly: bool)
    ensures var why := RowFilter(row, currency, ParseSkipTypes(csv), completedOnly);
      var late := completedOnly && Unfinished(row);
      && (why == Some(FilterNotCompleted) <==> late)
      && (why == Some(FilterCurrencyMismatch) <==> !late && Foreign(row, currency))
      && (why == Some(FilterTypeSkipped) <==> !late && !Foreign(row, currency) && Unwanted(row, csv))
      && (why == None <==> !late && !Foreign(row, currency) && !Unwanted(row, csv))
  {
    hide Trim, Upper, Split;
  }

  ghost predicate Passes(row: Row, o: Options) {
    !(o.completedOnly && Unfinished(row)) && !Foreign(row, o.currency) && !Unwanted(row, o.skipTypes)
  }

  // ----- Purpose -----

  /** The user has chosen this purpose for the identifier. */
  ghost predicate Chosen(o: Options, external: string, purpose: string) {
    && external in o.overrides && purpose in {"lunchkraam", "avondeten"}
    && Trim(Lower(o.overrides[external])) == purpose
  }

  ghost predicate NoneChosen(o: Options, external: string) {
    forall purpose :: !Chosen(o, external, purpose)
  }

  /** What the clock says if it is asked: lunchkraam from 08:00 until 13:00, avondeten from 16:00 until 19:00, and
      otherwise the purpose of the import. */
  ghost predicate ByClock(o: Options, minute: int, purpose: string) {
    purpose == if o.guessByTime && 480 <= minute < 780 then "lunchkraam"
               else if o.guessByTime && 960 <= minute < 1140 then "avondeten"
               else o.purpose
  }

  lemma OverrideExactly(o: Options, external: string)
    ensures forall purpose :: Chosen(o, external, purpose) <==> Override(o, external) == Some(purpose)
    ensures NoneChosen(o, external) <==> Override(o, external).None?
  {
    hide Trim, Lower;
    forall purpose ensures Chosen(o, external, purpose) <==> Override(o, external) == Some(purpose) {}
  }

  /** The description an item carries: the type, if there is one, before the description. */
  ghost predicate Describes(row: Row, description: string) {
    && (Trim(row.kind) == "" ==> description == Trim(row.description))
    && (Trim(row.kind) != "" ==> description == Trim(Trim(row.kind) + ": " + Trim(row.description)))
  }

  lemma DescribedExactly(row: Row)
    ensures Describes(row, BuildDescription(row))
  {
    hide Trim;
    if Trim(row.kind) == "" {
      assert "" + Trim(row.description) == Trim(row.description);
      TrimmedOnce(row.description);
    }
  }

  lemma TrimmedOnce(s: string)
    ensures Trim(Trim(s)) == Trim(s)
  {}

  /** The row's identifier: its own, or if it has none and that is allowed, its digest. */
  ghost predicate Identifies(env: Env, o: Options, row: Row, external: string) {
    if Trim(row.external) != "" then external == Trim(row.external)
    else o.fingerprint && external == env.digest(row)
  }

  lemma IdentifiedExactly(env: Env, o: Options, row: Row)
    ensures forall external :: Identifies(env, o, row, external) <==>
      ExternalOf(env, row, o.fingerprint) == Some(external)
    ensures ExternalOf(env, row, o.fingerprint).None? <==> Trim(row.external) == "" && !o.fingerprint
  {
    hide Trim;
    forall external
      ensures Identifies(env, o, row, external) <==> ExternalOf(env, row, o.fingerprint) == Some(external) {}
  }

  // ----- Screening -----

  /** An outgoing row is taken up exactly if it passes the filters, can be identified and is not excluded. Its expense
      has the amount paid, the date and description of the row, and the purpose that the user chose or else the clock
      gives. */
  lemma DebitScreened(env: Env, o: Options, row: Row)
    ensures var s := ScreenDebit(env, o, ParseSkipTypes(o.skipTypes), row);
      && (s.Accepted? <==>
            Passes(row, o) && row.amount < 0 && exists x :: Identifies(env, o, row, x) && x !in o.excluded)
      && (s == Rejected(NotDebit) <==> Passes(row, o) && row.amount >= 0)
      && (s == Rejected(NoExternalID) <==>
            Passes(row, o) && row.amount < 0 && Trim(row.external) == "" && !o.fingerprint)
      && (s == Rejected(UserExcluded) <==>
            Passes(row, o) && row.amount < 0 && exists x :: Identifies(env, o, row, x) && x in o.excluded)
    ensures var s := ScreenDebit(env, o, ParseSkipTypes(o.skipTypes), row);
      s.Accepted? ==>
        && Identifies(env, o, row, s.item.external) && s.item.amount == -row.amount && s.item.date == row.date
        && Describes(row, s.item.description)
        && (Chosen(o, s.item.external, s.item.purpose)
            || (NoneChosen(o, s.item.external) && ByClock(o, row.minute, s.item.purpose)))
  {
    hide Trim, ParseSkipTypes, RowFilter, Override, BuildDescription, ExternalOf;
    FilterExactly(row, o.currency, o.skipTypes, o.completedOnly);
    IdentifiedExactly(env, o, row);
    DescribedExactly(row);
    var x := ExternalOf(env, row, o.fingerprint);
    if x.Some? { OverrideExactly(o, x.value); }
    hide Unfinished, Foreign, Unwanted, Describes, Chosen, NoneChosen, Identifies;
  }

  /** The amount of a standard price: the lunch price stands for lunchkraam, otherwise the dinner price for avondeten. A
      price of zero stands for nothing. */
  ghost predicate AtPrice(co: CreditOptions, amount: int, purpose: string) {
    || (purpose == "lunchkraam" && amount == co.lunchAmount && co.lunchAmount > 0)
    || (purpose == "avondeten" && amount == co.avondetenAmount && co.avondetenAmount > 0
        && !(amount == co.lunchAmount && co.lunchAmount > 0))
  }

  ghost predicate NoPrice(co: CreditOptions, amount: int) {
    !(amount == co.lunchAmount && co.lunchAmount > 0) && !(amount == co.avondetenAmount && co.avondetenAmount > 0)
  }

  /** Which identifier a credit row is booked under. */
  ghost predicate CreditIdentifies(env: Env, o: Options, row: Row, external: string) {
    exists x :: Identifies(env, o, row, x) && external == "credit:" + x
  }

  /** An incoming row is taken up exactly if it passes the filters, can be identified and is not excluded. Its credit
      has the purpose that the user chose; else, at a standard price, the purpose of that price; else what the clock
      gives. Only in the second case does it count as a standard amount. */
  lemma CreditScreened(env: Env, co: CreditOptions, row: Row)
    ensures var o, s := co.plain, ScreenCredit(env, co, ParseSkipTypes(co.plain.skipTypes), row);
      && (s.Accepted? <==>
            Passes(row, o) && row.amount > 0 && exists x :: CreditIdentifies(env, o, row, x) && x !in o.excluded)
      && (s == Rejected(NotCredit) <==> Passes(row, o) && row.amount <= 0)
      && (s == Rejected(NoExternalID) <==>
            Passes(row, o) && row.amount > 0 && Trim(row.external) == "" && !o.fingerprint)
      && (s == Rejected(UserExcluded) <==>
            Passes(row, o) && row.amount > 0 && exists x :: CreditIdentifies(env, o, row, x) && x in o.excluded)
    ensures var o, s := co.plain, ScreenCredit(env, co, ParseSkipTypes(co.plain.skipTypes), row);
      s.Accepted? ==>
        && CreditIdentifies(env, o, row, s.item.external) && s.item.amount == row.amount && s.item.date == row.date
        && Describes(row, s.item.description)
        && (Chosen(o, s.item.external, s.item.purpose)
            || (NoneChosen(o, s.item.external) && AtPrice(co, row.amount, s.item.purpose))
            || (NoneChosen(o, s.item.external) && NoPrice(co, row.amount) && ByClock(o, row.minute, s.item.purpose)))
        && (s.item.standard <==> NoneChosen(o, s.item.external) && !NoPrice(co, row.amount))
  {
    hide Trim, ParseSkipTypes, RowFilter, Override, BuildDescription, ExternalOf;
    var o := co.plain;
    FilterExactly(row, o.currency, o.skipTypes, o.completedOnly);
    IdentifiedExactly(env, o, row);
    DescribedExactly(row);
    var x := ExternalOf(env, row, o.fingerprint);
    if x.Some? {
      OverrideExactly(o, "credit:" + x.value);
      assert CreditIdentifies(env, o, row, "credit:" + x.value);
    }
    hide Unfinished, Foreign, Unwanted, Describes, Chosen, NoneChosen, Identifies;
  }

  // ----- Planning against the books -----

  /** An accepted row whose identifier is booked updates that expense. One that is not, beside expenses booked by hand
      of the same amount and date, waits for review against one of them. Any other is a new expense. */
  lemma DebitPlanned(env: Env, b: Books, o: Options, row: Row)
    requires EnvOk(env)
    ensures var plan, s := PlanDebit(env, Some(b), o, ParseSkipTypes(o.skipTypes), row),
        ScreenDebit(env, o, ParseSkipTypes(o.skipTypes), row);
      match s
      case Rejected(reason) => plan == SkipRow(reason)
      case Accepted(item) =>
        var known := exists e :: e in b.expenses.rows && b.expenses.rows[e].external == Some(item.external);
        && !plan.SkipRow? && plan.item == item
        && (plan.UpdateExpense? <==> known)
        && (plan.PendingReview? <==> !known && exists e :: SameByHand(b, e, item))
        && (plan.PendingReview? ==> SameByHand(b, plan.matched, item))
  {
    hide ScreenDebit, ParseSkipTypes;
    var s := ScreenDebit(env, o, ParseSkipTypes(o.skipTypes), row);
    if s.Accepted? {
      forall e: nat ensures e in ManualMatches(b.expenses.rows, s.item.amount, s.item.date) <==>
        SameByHand(b, e, s.item) {}
    }
  }

  /** Expense `e` was booked by hand, for the amount and date of the item. */
  ghost predicate SameByHand(b: Books, e: nat, item: Item) {
    && e in b.expenses.rows && b.expenses.rows[e].external.None?
    && b.expenses.rows[e].amount == item.amount && b.expenses.rows[e].spent == item.date
  }

  // ----- Counting -----

  /** How many elements of the list satisfy `p`. */
  ghost function Matching<T>(xs: seq<T>, p: T -> bool): int {
    |set i | 0 <= i < |xs| && p(xs[i])|
  }

  lemma MatchingAppend<T>(xs: seq<T>, x: T, p: T -> bool)
    ensures Matching(xs + [x], p) == Matching(xs, p) + if p(x) then 1 else 0
  {
    var before := set i | 0 <= i < |xs| && p(xs[i]);
    var after := set i | 0 <= i < |xs + [x]| && p((xs + [x])[i]);
    assert after == if p(x) then before + {|xs|} else before;
  }

  /** The counter that belongs to a reason. */
  function CountOf(r: Reasons, reason: SkipReason): int {
    match reason
    case FilterNotCompleted => r.notCompleted
    case FilterCurrencyMismatch => r.currencyMismatch
    case FilterTypeSkipped => r.typeSkipped
    case NotDebit => r.notDebit
    case NotCredit => r.notCredit
    case AmountNotStandard => r.amountNotStandard
    case NoExternalID => r.missingExternalID
    case UserExcluded => r.userExcluded
    case Unknown => r.other
  }

  function Imports(s: Screened): bool { s.Accepted? }
  function ImportsAs(purpose: string): Screened -> bool { (s: Screened) => s.Accepted? && s.item.purpose == purpose }
  function Infers(s: Screened): bool { s.Accepted? && !s.item.standard }
  function Rejects(s: Screened): bool { s.Rejected? }
  function RejectsFor(reason: SkipReason): Screened -> bool { (s: Screened) => s == Rejected(reason) }

  /** Every counter is the number of rows it stands for. */
  ghost predicate CountsCredits(c: Counts, xs: seq<Screened>) {
    && c.imported == Matching(xs, Imports) && c.skipped == Matching(xs, Rejects) && c.pending == 0
    && c.lunchkraam == Matching(xs, ImportsAs("lunchkraam")) && c.avondeten == Matching(xs, ImportsAs("avondeten"))
    && c.inferred == Matching(xs, Infers)
    && forall reason :: CountOf(c.reasons, reason) == Matching(xs, RejectsFor(reason))
  }

  ghost function CreditScreens(env: Env, co: CreditOptions, rows: seq<Row>): seq<Screened> {
    seq(|rows|, i requires 0 <= i < |rows| => ScreenCredit(env, co, ParseSkipTypes(co.plain.skipTypes), rows[i]))
  }

  lemma NothingMatches<T>(p: T -> bool)
    ensures Matching([], p) == 0
  {}

  lemma CountedCredit(c: Counts, xs: seq<Screened>, s: Screened)
    requires CountsCredits(c, xs)
    ensures CountsCredits(CountCredit(c, s), xs + [s])
  {
    hide Matching;
    MatchingAppend(xs, s, Imports);
    MatchingAppend(xs, s, Rejects);
    MatchingAppend(xs, s, ImportsAs("lunchkraam"));
    MatchingAppend(xs, s, ImportsAs("avondeten"));
    MatchingAppend(xs, s, Infers);
    forall reason ensures Matching(xs + [s], RejectsFor(reason))
      == Matching(xs, RejectsFor(reason)) + if s == Rejected(reason) then 1 else 0
    {
      MatchingAppend(xs, s, RejectsFor(reason));
    }
  }

  lemma NoCreditCounted()
    ensures CountsCredits(ZERO, [])
  {
    NothingMatches(Imports);
    NothingMatches(Rejects);
    NothingMatches(ImportsAs("lunchkraam"));
    NothingMatches(ImportsAs("avondeten"));
    NothingMatches(Infers);
    forall reason ensures Matching([], RejectsFor(reason)) == 0 { NothingMatches(RejectsFor(reason)); }
  }

  /** The counters of a credit import are the numbers of rows taken up, skipped for each reason, booked for each
      purpose, and inferred. */
  lemma {:induction false} CreditsCounted(env: Env, co: CreditOptions, rows: seq<Row>)
    ensures CountsCredits(TallyCredit(env, co, rows), CreditScreens(env, co, rows))
    decreases |rows|
  {
    hide TallyCredit, ScreenCredit, ParseSkipTypes, CountCredit, CountsCredits;
    if rows == [] {
      NoCreditRows(env, co);
      NoCreditCounted();
      assert CreditScreens(env, co, []) == [];
    } else {
      var n := |rows| - 1;
      CreditsCounted(env, co, rows[..n]);
      CreditTallyStep(env, co, rows, n);
      assert rows[..n + 1] == rows;
      var s := ScreenCredit(env, co, ParseSkipTypes(co.plain.skipTypes), rows[n]);
      CountedCredit(TallyCredit(env, co, rows[..n]), CreditScreens(env, co, rows[..n]), s);
      assert CreditScreens(env, co, rows) == CreditScreens(env, co, rows[..n]) + [s];
    }
  }

  function Writes(p: DebitPlan): bool { p.UpdateExpense? || p.NewExpense? }
  function Waits(p: DebitPlan): bool { p.PendingReview? }
  function Skips(p: DebitPlan): bool { p.SkipRow? }
  function SkipsFor(reason: SkipReason): DebitPlan -> bool { (p: DebitPlan) => p == SkipRow(reason) }

  ghost predicate CountsDebits(c: Counts, xs: seq<DebitPlan>) {
    && c.imported == Matching(xs, Writes) && c.pending == Matching(xs, Waits) && c.skipped == Matching(xs, Skips)
    && forall reason :: CountOf(c.reasons, reason) == Matching(xs, SkipsFor(reason))
  }

  ghost function DebitPlans(env: Env, st: Option<Books>, o: Options, rows: seq<Row>): seq<DebitPlan> {
    seq(|rows|, i requires 0 <= i < |rows| => PlanDebit(env, st, o, ParseSkipTypes(o.skipTypes), rows[i]))
  }

  lemma CountedDebit(c: Counts, xs: seq<DebitPlan>, p: DebitPlan)
    requires CountsDebits(c, xs)
    ensures CountsDebits(CountDebit(c, p), xs + [p])
  {
    hide Matching;
    MatchingAppend(xs, p, Writes);
    MatchingAppend(xs, p, Waits);
    MatchingAppend(xs, p, Skips);
    forall reason ensures Matching(xs + [p], SkipsFor(reason))
      == Matching(xs, SkipsFor(reason)) + if p == SkipRow(reason) then 1 else 0
    {
      MatchingAppend(xs, p, SkipsFor(reason));
    }
  }

  lemma NoDebitCounted()
    ensures CountsDebits(ZERO, [])
  {
    NothingMatches(Writes);
    NothingMatches(Waits);
    NothingMatches(Skips);
    forall reason ensures Matching([], SkipsFor(reason)) == 0 { NothingMatches(SkipsFor(reason)); }
  }

  /** The counters of a dry run or preview of expenses are the numbers of rows to be booked, to be reviewed, and skipped
      for each reason. */
  lemma {:induction false} DebitsCounted(env: Env, st: Option<Books>, o: Options, rows: seq<Row>)
    ensures CountsDebits(TallyDebit(env, st, o, rows), DebitPlans(env, st, o, rows))
    decreases |rows|
  {
    hide TallyDebit, PlanDebit, ParseSkipTypes, CountDebit, CountsDebits;
    if rows == [] {
      NoRows(env, st, o);
      NoDebitCounted();
      assert DebitPlans(env, st, o, []) == [];
    } else {
      var n := |rows| - 1;
      DebitsCounted(env, st, o, rows[..n]);
      DebitTallyStep(env, st, o, rows, n);
      assert rows[..n + 1] == rows;
      var p := PlanDebit(env, st, o, ParseSkipTypes(o.skipTypes), rows[n]);
      CountedDebit(TallyDebit(env, st, o, rows[..n]), DebitPlans(env, st, o, rows[..n]), p);
      assert DebitPlans(env, st, o, rows) == DebitPlans(env, st, o, rows[..n]) + [p];
    }
  }
}
