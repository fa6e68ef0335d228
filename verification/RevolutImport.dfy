/** What an import plans for each row of a Revolut statement, and how it counts what it plans. */
module RevolutImport {
  import opened Prelude
  import opened Calendar
  import opened Text
  import opened Expenses

  /** A statement row: Amsterdam calendar date and minute of the day of completion, amount in cents. */
  datatype Row = Row(date: Date, minute: int, amount: int, description: string, kind: string, state: string,
      currency: string, external: string)

  datatype Options = Options(
    purpose: string, guessByTime: bool, currency: string, skipTypes: string, completedOnly: bool, fingerprint: bool,
        dryRun: bool,
    excluded: set<string>, overrides: map<string, string>)

  datatype CreditOptions = CreditOptions(plain: Options, lunchAmount: int, avondetenAmount: int)

  /** The digest of a row without identifier, and which of several equal manual expenses the database returns first. */
  datatype Env = Env(digest: Row -> string, first: set<nat> -> nat)

  ghost predicate EnvOk(env: Env) {
    && (forall row :: Trimmed(env.digest(row)) && env.digest(row) != "")
    && (forall s :: s != {} ==> env.first(s) in s)
  }

  /** `Unknown` stands for any code the counters do not know. */
  datatype SkipReason =
    | FilterNotCompleted | FilterCurrencyMismatch | FilterTypeSkipped | NotDebit | NotCredit
    | AmountNotStandard | NoExternalID | UserExcluded | Unknown

  // ----- Screening -----

  function ParseSkipTypes(csv: string): set<string> {
    set part | part in Split(csv, ',') && Trim(Upper(part)) != "" :: Trim(Upper(part))
  }

  predicate IsCompletedState(state: string) {
    state == "COMPLETED" || state == "VOLTOOID" || state == "COMPLETE" || state == "AFGEHANDELD"
  }

  function RowFilter(row: Row, currency: string, skip: set<string>, completedOnly: bool): Option<SkipReason> {
    var state := Trim(Upper(row.state));
    var cur := Trim(Upper(row.currency));
    var kind := Trim(Upper(row.kind));
    if completedOnly && state != "" && !IsCompletedState(state) then Some(FilterNotCompleted)
    else if currency != "" && cur != "" && cur != Upper(Trim(currency)) then Some(FilterCurrencyMismatch)
    else if kind != "" && kind in skip then Some(FilterTypeSkipped)
    else None
  }

  /** Morning 08:00-13:00 is lunchkraam, evening 16:00-19:00 is avondeten. */
  function PurposeByTime(minute: int, fallback: string): string {
    if 8 * 60 <= minute < 13 * 60 then "lunchkraam"
    else if 16 * 60 <= minute < 19 * 60 then "avondeten"
    else fallback
  }

  function NormalizePurpose(s: string): Option<string> {
    var p := Trim(Lower(s));
    if ValidPurpose(p) then Some(p) else None
  }

  function BuildDescription(row: Row): string {
    Trim((if Trim(row.kind) != "" then Trim(row.kind) + ": " else "") + Trim(row.description))
  }

  /** A row that an import acts on. */
  datatype Item = Item(external: string, amount: int, date: Date, description: string, purpose: string, standard: bool)

  datatype Screened = Rejected(reason: SkipReason) | Accepted(item: Item)

  function ExternalOf(env: Env, row: Row, fingerprint: bool): Option<string> {
    if Trim(row.external) != "" then Some(Trim(row.external))
    else if fingerprint then Some(env.digest(row))
    else None
  }

  function DefaultPurpose(row: Row, o: Options): string {
    if o.guessByTime then PurposeByTime(row.minute, o.purpose) else o.purpose
  }

  function Override(o: Options, external: string): Option<string> {
    if external in o.overrides then NormalizePurpose(o.overrides[external]) else None
  }

  /** classifyDebitRow up to the point where the store is asked. */
  function ScreenDebit(env: Env, o: Options, skip: set<string>, row: Row): Screened {
    var filtered := RowFilter(row, o.currency, skip, o.completedOnly);
    if filtered.Some? then Rejected(filtered.value)
    else if row.amount >= 0 then Rejected(NotDebit)
    else
      var external := ExternalOf(env, row, o.fingerprint);
      if external.None? then Rejected(NoExternalID)
      else if external.value in o.excluded then Rejected(UserExcluded)
      else
        var override := Override(o, external.value);
        Accepted(Item(external.value, -row.amount, row.date, BuildDescription(row),
                      if override.Some? then override.value else DefaultPurpose(row, o), false))
  }

  function CreditPurposeForAmount(amount: int, lunch: int, avondeten: int): Option<string> {
    if lunch > 0 && lunch == amount then Some("lunchkraam")
    else if avondeten > 0 && avondeten == amount then Some("avondeten")
    else None
  }

  /** classifyCreditRow. */
  function ScreenCredit(env: Env, co: CreditOptions, skip: set<string>, row: Row): Screened {
    var o := co.plain;
    var filtered := RowFilter(row, o.currency, skip, o.completedOnly);
    if filtered.Some? then Rejected(filtered.value)
    else if row.amount <= 0 then Rejected(NotCredit)
    else
      var raw := ExternalOf(env, row, o.fingerprint);
      if raw.None? then Rejected(NoExternalID)
      else
        var external := "credit:" + raw.value;
        if external in o.excluded then Rejected(UserExcluded)
        else
          var override := Override(o, external);
          var standard := CreditPurposeForAmount(row.amount, co.lunchAmount, co.avondetenAmount);
          if override.Some? then
            Accepted(Item(external, row.amount, row.date, BuildDescription(row), override.value, false))
          else if standard.Some? then
            Accepted(Item(external, row.amount, row.date, BuildDescription(row), standard.value, true))
          else Accepted(Item(external, row.amount, row.date, BuildDescription(row), DefaultPurpose(row, o), false))
  }

  // ----- Planning -----

  datatype DebitPlan = SkipRow(reason: SkipReason) | PendingReview(item: Item,
      matched: nat) | UpdateExpense(item: Item) | NewExpense(item: Item)

  /** classifyDebitRow; without a store every accepted row is new. */
  function PlanDebit(env: Env, st: Option<Books>, o: Options, skip: set<string>, row: Row): DebitPlan {
    match ScreenDebit(env, o, skip, row)
    case Rejected(reason) => SkipRow(reason)
    case Accepted(item) => if st.None? then NewExpense(item) else PlanItem(env, st.value, item)
  }

  function PlanItem(env: Env, b: Books, item: Item): DebitPlan {
    var matches := ManualMatches(b.expenses.rows, item.amount, item.date);
    if Booked(b, item.external) then UpdateExpense(item)
    else if matches != {} then PendingReview(item, env.first(matches))
    else NewExpense(item)
  }

  // ----- Counting -----

  datatype Reasons = Reasons(notCompleted: int, currencyMismatch: int, typeSkipped: int, notDebit: int, notCredit: int,
                             amountNotStandard: int, missingExternalID: int, userExcluded: int, other: int) {
    function Sum(): int {
      notCompleted + currencyMismatch + typeSkipped + notDebit + notCredit + amountNotStandard
       + missingExternalID + userExcluded + other
    }
  }

  datatype Counts = Counts(imported: int, skipped: int, pending: int, reasons: Reasons, lunchkraam: int,
      avondeten: int, inferred: int)

  const ZERO := Counts(0, 0, 0, Reasons(0, 0, 0, 0, 0, 0, 0, 0, 0), 0, 0, 0)

  function IncSkipReason(r: Reasons, reason: SkipReason): Reasons {
    match reason
    case FilterNotCompleted => r.(notCompleted := r.notCompleted + 1)
    case FilterCurrencyMismatch => r.(currencyMismatch := r.currencyMismatch + 1)
    case FilterTypeSkipped => r.(typeSkipped := r.typeSkipped + 1)
    case NotDebit => r.(notDebit := r.notDebit + 1)
    case NotCredit => r.(notCredit := r.notCredit + 1)
    case AmountNotStandard => r.(amountNotStandard := r.amountNotStandard + 1)
    case NoExternalID => r.(missingExternalID := r.missingExternalID + 1)
    case UserExcluded => r.(userExcluded := r.userExcluded + 1)
    case Unknown => r.(other := r.other + 1)
  }

  lemma OneMoreReason(r: Reasons, reason: SkipReason)
    ensures IncSkipReason(r, reason).Sum() == r.Sum() + 1
  {}

  function CountSkip(c: Counts, reason: SkipReason): Counts {
    c.(skipped := c.skipped + 1, reasons := IncSkipReason(c.reasons, reason))
  }

  function CountDebit(c: Counts, plan: DebitPlan): Counts {
    match plan
    case SkipRow(reason) => CountSkip(c, reason)
    case PendingReview(_, _) => c.(pending := c.pending + 1)
    case _ => c.(imported := c.imported + 1)
  }

  function CountCredit(c: Counts, s: Screened): Counts {
    match s
    case Rejected(reason) => CountSkip(c, reason)
    case Accepted(item) =>
      c.(imported := c.imported + 1,
         lunchkraam := c.lunchkraam + (if item.purpose == "lunchkraam" then 1 else 0),
         avondeten := c.avondeten + (if item.purpose == "avondeten" then 1 else 0),
         inferred := c.inferred + (if item.standard then 0 else 1))
  }

  /** What a pass over the rows counts while the tables stand still: the counters of preview and dry run. */
  function TallyDebit(env: Env, st: Option<Books>, o: Options, rows: seq<Row>): Counts
    decreases |rows|
  {
    if rows == [] then ZERO
    else CountDebit(TallyDebit(env, st, o, rows[..|rows| - 1]),
        PlanDebit(env, st, o, ParseSkipTypes(o.skipTypes), rows[|rows| - 1]))
  }

  function TallyCredit(env: Env, co: CreditOptions, rows: seq<Row>): Counts
    decreases |rows|
  {
    if rows == [] then ZERO
    else CountCredit(TallyCredit(env, co, rows[..|rows| - 1]),
        ScreenCredit(env, co, ParseSkipTypes(co.plain.skipTypes), rows[|rows| - 1]))
  }

  lemma NoRows(env: Env, st: Option<Books>, o: Options)
    ensures TallyDebit(env, st, o, []) == ZERO
  {
    hide PlanDebit, CountDebit, ParseSkipTypes;
  }

  lemma NoCreditRows(env: Env, co: CreditOptions)
    ensures TallyCredit(env, co, []) == ZERO
  {
    hide ScreenCredit, CountCredit, ParseSkipTypes;
  }

  lemma NothingAddsUp(c: Counts)
    requires c.imported == 0 && c.skipped == 0 && c.pending == 0 && c.reasons == Reasons(0, 0, 0, 0, 0, 0, 0, 0, 0)
    ensures AddsUp(c, 0) && Explained(c)
  {}

  lemma NothingCredited(c: Counts)
    requires AddsUp(c, 0) && c.imported == 0 && c.pending == 0 && c.lunchkraam == 0 && c.avondeten == 0
      && c.inferred == 0
    ensures CreditsAddUp(c, 0)
  {
    hide AddsUp;
  }

  lemma DebitTallyStep(env: Env, st: Option<Books>, o: Options, rows: seq<Row>, n: nat)
    requires n < |rows|
    ensures TallyDebit(env, st, o, rows[..n + 1])
         == CountDebit(TallyDebit(env, st, o, rows[..n]), PlanDebit(env, st, o, ParseSkipTypes(o.skipTypes), rows[n]))
  {
    hide CountDebit, PlanDebit;
    assert rows[..n + 1][..n] == rows[..n];
  }

  lemma CreditTallyStep(env: Env, co: CreditOptions, rows: seq<Row>, n: nat)
    requires n < |rows|
    ensures TallyCredit(env, co, rows[..n + 1])
         == CountCredit(TallyCredit(env, co, rows[..n]),
             ScreenCredit(env, co, ParseSkipTypes(co.plain.skipTypes), rows[n]))
  {
    hide CountCredit, ScreenCredit;
    assert rows[..n + 1][..n] == rows[..n];
  }

  /** The skip counter equals the sum of its reasons. */
  predicate Explained(c: Counts) { c.skipped == c.reasons.Sum() }

  /** Every row is counted once; skipped rows are explained by known reasons. */
  ghost predicate AddsUp(c: Counts, n: int) {
    && c.imported + c.skipped + c.pending == n
    && Explained(c) && c.reasons.other == 0 && c.reasons.amountNotStandard == 0
    && c.imported >= 0 && c.pending >= 0
  }

  ghost predicate CreditsAddUp(c: Counts, n: int) {
    && AddsUp(c, n) && c.pending == 0
    && c.imported == c.lunchkraam + c.avondeten && 0 <= c.inferred <= c.imported
  }

  lemma DebitStepAddsUp(env: Env, st: Option<Books>, o: Options, skip: set<string>, row: Row, c: Counts, n: int)
    requires AddsUp(c, n)
    ensures AddsUp(CountDebit(c, PlanDebit(env, st, o, skip, row)), n + 1)
  {
    var plan := PlanDebit(env, st, o, skip, row);
    if plan.SkipRow? {
      OneMoreReason(c.reasons, plan.reason);
      assert plan.reason != Unknown && plan.reason != AmountNotStandard;
    }
  }

  lemma CreditStepAddsUp(env: Env, co: CreditOptions, skip: set<string>, row: Row, c: Counts, n: int)
    requires CreditsAddUp(c, n) && ValidPurpose(co.plain.purpose)
    ensures CreditsAddUp(CountCredit(c, ScreenCredit(env, co, skip, row)), n + 1)
  {
    var s := ScreenCredit(env, co, skip, row);
    if s.Accepted? {
      assert ValidPurpose(s.item.purpose);
    } else {
      OneMoreReason(c.reasons, s.reason);
      assert s.reason != Unknown && s.reason != AmountNotStandard;
    }
  }

  lemma {:induction false} DebitTallyAddsUp(env: Env, st: Option<Books>, o: Options, rows: seq<Row>)
    ensures AddsUp(TallyDebit(env, st, o, rows), |rows|) && Explained(TallyDebit(env, st, o, rows))
    decreases |rows|
  {
    hide TallyDebit, PlanDebit, ParseSkipTypes, CountDebit, AddsUp, Explained;
    if rows == [] {
      NoRows(env, st, o);
      NothingAddsUp(ZERO);
    } else {
      var n := |rows| - 1;
      DebitTallyAddsUp(env, st, o, rows[..n]);
      DebitTallyStep(env, st, o, rows, n);
      assert rows[..n + 1] == rows;
      var plan := PlanDebit(env, st, o, ParseSkipTypes(o.skipTypes), rows[n]);
      DebitStepAddsUp(env, st, o, ParseSkipTypes(o.skipTypes), rows[n], TallyDebit(env, st, o, rows[..n]), n);
      CountDebitExplained(TallyDebit(env, st, o, rows[..n]), plan);
    }
  }

  lemma {:induction false} CreditTallyAddsUp(env: Env, co: CreditOptions, rows: seq<Row>)
    requires ValidPurpose(co.plain.purpose)
    ensures CreditsAddUp(TallyCredit(env, co, rows), |rows|)
    decreases |rows|
  {
    hide TallyCredit, ScreenCredit, ParseSkipTypes, CountCredit, CreditsAddUp, AddsUp, Explained;
    if rows == [] {
      NoCreditRows(env, co);
      NothingAddsUp(ZERO);
      NothingCredited(ZERO);
    } else {
      var n := |rows| - 1;
      CreditTallyAddsUp(env, co, rows[..n]);
      CreditTallyStep(env, co, rows, n);
      assert rows[..n + 1] == rows;
      CreditStepAddsUp(env, co, ParseSkipTypes(co.plain.skipTypes), rows[n], TallyCredit(env, co, rows[..n]), n);
    }
  }

  lemma CountDebitExplained(c: Counts, plan: DebitPlan)
    requires Explained(c)
    ensures Explained(CountDebit(c, plan))
  {
    if plan.SkipRow? { OneMoreReason(c.reasons, plan.reason); }
  }

  lemma CountCreditExplained(c: Counts, s: Screened)
    requires Explained(c)
    ensures Explained(CountCredit(c, s))
  {
    if s.Rejected? { OneMoreReason(c.reasons, s.reason); }
  }

  /** Skipped credit rows are explained by their reasons whatever the options. */
  lemma {:induction false} CreditTallyExplained(env: Env, co: CreditOptions, rows: seq<Row>)
    ensures Explained(TallyCredit(env, co, rows))
    decreases |rows|
  {
    hide TallyCredit, ScreenCredit, ParseSkipTypes, CountCredit, Explained, AddsUp;
    if rows == [] {
      NoCreditRows(env, co);
      NothingAddsUp(ZERO);
    } else {
      var n := |rows| - 1;
      CreditTallyExplained(env, co, rows[..n]);
      CreditTallyStep(env, co, rows, n);
      assert rows[..n + 1] == rows;
      CountCreditExplained(TallyCredit(env, co, rows[..n]),
          ScreenCredit(env, co, ParseSkipTypes(co.plain.skipTypes), rows[n]));
    }
  }

  /** No row is acted on both as an expense and as revenue. */
  lemma NeverBoth(env: Env, st: Option<Books>, o: Options, co: CreditOptions, skip: set<string>,
      skipCredit: set<string>, row: Row)
    ensures PlanDebit(env, st, o, skip, row).SkipRow? || ScreenCredit(env, co, skipCredit, row).Rejected?
  {}

  /** What is written can be written: identifier and amount are there, the purpose is one of the two. */
  predicate ItemOk(item: Item) {
    item.external != "" && Trimmed(item.external) && item.amount > 0 && ValidPurpose(item.purpose)
  }

  predicate ItemsOk(items: seq<Item>) { forall i :: 0 <= i < |items| ==> ItemOk(items[i]) }

  /** The last of the items with this identifier. */
  function LastOf(items: seq<Item>, external: string): Option<Item>
    decreases |items|
  {
    if items == [] then None
    else if items[|items| - 1].external == external then Some(items[|items| - 1])
    else LastOf(items[..|items| - 1], external)
  }

  lemma ScreenedOk(env: Env, o: Options, skip: set<string>, row: Row)
    requires EnvOk(env) && ValidPurpose(o.purpose)
    ensures ScreenDebit(env, o, skip, row).Accepted? ==> ItemOk(ScreenDebit(env, o, skip, row).item)
  {}

  lemma ScreenedCreditOk(env: Env, co: CreditOptions, skip: set<string>, row: Row)
    requires EnvOk(env) && ValidPurpose(co.plain.purpose)
    ensures ScreenCredit(env, co, skip, row).Accepted? ==> ItemOk(ScreenCredit(env, co, skip, row).item)
  {
    var s := ScreenCredit(env, co, skip, row);
    if s.Accepted? {
      var raw := ExternalOf(env, row, co.plain.fingerprint).value;
      assert s.item.external == "credit:" + raw;
      assert s.item.external[0] == 'c' && s.item.external[|s.item.external| - 1] == raw[|raw| - 1];
    }
  }
}
