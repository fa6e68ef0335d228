/** Reconciling bank credits with card sales, and the revenue that is reported from both. */
module Reconciliation {
  import opened Prelude
  import opened Ledger
  import opened Invariant
  import opened Runs
  import opened Calendar
  import opened Text
  import opened BankCredits
  import opened Rounding

  /** The card administration and the bank credits side by side. */
  datatype Office = Office(db: Db, credits: Table<Credit>)

  // ----- Operations -----

  predicate PurposeMatches(purpose: Purpose, kind: Kind) {
    (purpose == LunchPurpose && kind == Tosti) || (purpose == AvondetenPurpose && kind == Avondeten)
  }

  predicate AmountsMatch(a: real, b: real) { -0.005 < a - b < 0.005 }

  /** Half a cent of tolerance on whole cents is equality. */
  lemma TolerantIsExact(a: int, b: int)
    ensures AmountsMatch(Eur(a), Eur(b)) <==> a == b
  {
    if a < b { assert b - a >= 1; } else if a > b { assert a - b >= 1; }
  }

  predicate LinkedElsewhere(credits: map<nat, Credit>, b: nat, r: nat) {
    exists a :: a in credits && a != b && credits[a].sale == Some(r)
  }

  /** Reading a NULL price into a number fails before the status is looked at. */
  function Link(credits: Table<Credit>, requests: map<nat, Request>, b: nat, r: nat): CreditOutcome {
    if b !in credits.rows then Err(CreditNotFound)
    else if credits.rows[b].status != OpenRevenue then Err(CreditNotOpen)
    else if r !in requests then Err(RequestNotFound)
    else if requests[r].price.None? then Err(NoSalePrice)
    else if !requests[r].status.Fulfilled? then Err(NotFulfilled)
    else if !PurposeMatches(credits.rows[b].purpose, requests[r].kind) then Err(Mismatch)
    else if !AmountsMatch(Eur(credits.rows[b].amount), Eur(requests[r].price.value)) then Err(Mismatch)
    else if LinkedElsewhere(credits.rows, b, r) then Err(AlreadyMatched)
    else Ok(credits.Put(b, credits.rows[b].(sale := Some(r), status := MatchedSale)))
  }

  function Unlink(credits: Table<Credit>, b: nat): CreditOutcome {
    if b !in credits.rows || credits.rows[b].status == OpenRevenue then Err(CreditNotFound)
    else Ok(credits.Put(b, credits.rows[b].(sale := None, status := OpenRevenue)))
  }

  function Waive(credits: Table<Credit>, b: nat): CreditOutcome {
    if b !in credits.rows then Err(CreditNotFound)
    else if credits.rows[b].status != OpenRevenue then Err(CreditNotOpen)
    else Ok(credits.Put(b, credits.rows[b].(status := Waived)))
  }

  datatype OfficeOp =
    | Counter(op: Op)
    | LinkOp(credit: nat, request: nat)
    | UnlinkOp(credit: nat)
    | WaiveOp(credit: nat)
    | ImportOp(external: string, amount: int, received: Date, description: string, purpose: string)

  /** ON DELETE SET NULL of matched_card_request_id. */
  function ForgetGone(credits: Table<Credit>, requests: map<nat, Request>): Table<Credit> {
    credits.(rows := map b | b in credits.rows ::
      if credits.rows[b].sale.Some? && credits.rows[b].sale.value !in requests then
        credits.rows[b].(sale := None) else credits.rows[b])
  }

  function PerformCredit(o: Office, op: OfficeOp): CreditOutcome
    requires !op.Counter?
  {
    match op
    case LinkOp(b, r) => Link(o.credits, o.db.requests.rows, b, r)
    case UnlinkOp(b) => Unlink(o.credits, b)
    case WaiveOp(b) => Waive(o.credits, b)
    case ImportOp(external, amount, received, description, purpose)
      => UpsertCredit(o.credits, external, amount, received, description, purpose)
  }

  function OfficeStep(o: Office, op: OfficeOp): Office {
    if op.Counter? then
      var db := Step(o.db, op.op);
      Office(db, ForgetGone(o.credits, db.requests.rows))
    else
      var r := PerformCredit(o, op);
      if r.Ok? then o.(credits := r.value) else o
  }

  function OfficeRun(o: Office, ops: seq<OfficeOp>): Office
    decreases |ops|
  {
    if ops == [] then o else OfficeRun(OfficeStep(o, ops[0]), ops[1..])
  }

  // ----- Links are safe -----

  predicate IsSale(requests: map<nat, Request>, r: nat) { r in requests && requests[r].status.Fulfilled? }

  ghost predicate CreditFits(requests: map<nat, Request>, row: Credit) {
    && row.amount > 0
    && (row.sale.Some? <==> row.status == MatchedSale)
    && (row.sale.Some? ==> IsSale(requests, row.sale.value))
  }

  ghost predicate LinksFit(credits: map<nat, Credit>, requests: map<nat, Request>) {
    forall b :: b in credits ==> CreditFits(requests, credits[b])
  }

  ghost predicate OneCreditPerSale(credits: map<nat, Credit>) {
    forall a, b :: a in credits && b in credits && credits[a].sale.Some? && credits[a].sale == credits[b].sale ==>
      a == b
  }

  ghost predicate CreditsOk(credits: Table<Credit>, requests: map<nat, Request>) {
    && credits.Valid() && OneCreditPerExternal(credits.rows)
    && LinksFit(credits.rows, requests) && OneCreditPerSale(credits.rows)
  }

  ghost predicate OfficeOk(o: Office) {
    Inv(o.db) && CreditsOk(o.credits, o.db.requests.rows)
  }

  ghost predicate OfficeStart(o: Office) {
    Initial(o.db) && o.credits.Valid() && o.credits.rows == map[]
  }

  lemma SalesKeepLinks(credits: Table<Credit>, before: map<nat, Request>, after: map<nat, Request>)
    requires CreditsOk(credits, before) && SalesKept(before, after)
    ensures CreditsOk(credits, after) && ForgetGone(credits, after) == credits
  {
    assert ForgetGone(credits, after).rows == credits.rows;
  }

  lemma UpsertKeeps(credits: Table<Credit>, requests: map<nat, Request>, external: string, amount: int, received: Date,
      description: string, purpose: string)
    requires CreditsOk(credits, requests) && UpsertCredit(credits, external, amount, received, description, purpose).Ok?
    ensures CreditsOk(UpsertCredit(credits, external, amount, received, description, purpose).value, requests)
  {}

  lemma OfficeStepKeeps(o: Office, op: OfficeOp)
    requires OfficeOk(o)
    ensures OfficeOk(OfficeStep(o, op)) && SalesKept(o.db.requests.rows, OfficeStep(o, op).db.requests.rows)
  {
    hide Inv, CreditsOk, SalesKept, PerformCredit, Step;
    match op
    case Counter(inner) =>
      StepKeeps(o.db, inner);
      StepKeepsSales(o.db, inner);
      SalesKeepLinks(o.credits, o.db.requests.rows, Step(o.db, inner).requests.rows);
    case _ =>
      Unchanged(o.db.requests.rows);
      if PerformCredit(o, op).Ok? { CreditOpKeeps(o, op); }
  }

  lemma CreditOpKeeps(o: Office, op: OfficeOp)
    requires CreditsOk(o.credits, o.db.requests.rows) && !op.Counter? && PerformCredit(o, op).Ok?
    ensures CreditsOk(PerformCredit(o, op).value, o.db.requests.rows)
  {
    if op.ImportOp? {
      hide CreditsOk;
      UpsertKeeps(o.credits, o.db.requests.rows, op.external, op.amount, op.received, op.description, op.purpose);
    }
  }

  /** In every reachable state a link is present exactly when the credit is matched, it points at a fulfilled sale, and
      no two credits point at the same sale. */
  lemma {:induction false} LinksAreSafe(o: Office, ops: seq<OfficeOp>)
    requires OfficeStart(o) || OfficeOk(o)
    ensures OfficeOk(OfficeRun(o, ops))
    decreases |ops|
  {
    if OfficeStart(o) { Reachable(o.db, []); }
    hide Inv, OfficeStart;
    if ops != [] {
      OfficeStepKeeps(o, ops[0]);
      LinksAreSafe(OfficeStep(o, ops[0]), ops[1..]);
    }
  }

  /** Once sold, a request stays sold at the same price through any run of the counter and the office. */
  lemma {:induction false} SoldIsSold(o: Office, ops: seq<OfficeOp>)
    requires OfficeOk(o)
    ensures SalesKept(o.db.requests.rows, OfficeRun(o, ops).db.requests.rows)
    decreases |ops|
  {
    hide OfficeOk;
    if ops != [] {
      OfficeStepKeeps(o, ops[0]);
      SoldIsSold(OfficeStep(o, ops[0]), ops[1..]);
    }
  }

  /** In every reachable state the status check of a link passes whenever it is reached: a request without a sale is
      always turned away at its missing price. */
  lemma StatusCheckNeverFails(o: Office, ops: seq<OfficeOp>, b: nat, r: nat)
    requires OfficeStart(o)
    ensures var s := OfficeRun(o, ops);
      && Link(s.credits, s.db.requests.rows, b, r) != Err(NotFulfilled)
      && (Link(s.credits, s.db.requests.rows, b, r) == Err(NoSalePrice) <==>
            b in s.credits.rows && s.credits.rows[b].status
              == OpenRevenue && r in s.db.requests.rows && !s.db.requests.rows[r].status.Fulfilled?)
  {
    hide Inv, OfficeStart, OfficeRun, CreditsOk, Link;
    LinksAreSafe(o, ops);
    var s := OfficeRun(o, ops);
    if r in s.db.requests.rows { PricedExactly(s.db, r); }
    LinkErrors(s.credits, s.db.requests.rows, b, r);
  }

  lemma LinkErrors(credits: Table<Credit>, requests: map<nat, Request>, b: nat, r: nat)
    requires r in requests ==> (requests[r].price.Some? <==> requests[r].status.Fulfilled?)
    ensures Link(credits, requests, b, r) != Err(NotFulfilled)
    ensures Link(credits, requests, b, r) == Err(NoSalePrice) <==>
      b in credits.rows && credits.rows[b].status == OpenRevenue && r in requests && !requests[r].status.Fulfilled?
  {}

  lemma PricedExactly(db: Db, r: nat)
    requires Inv(db) && r in db.requests.rows
    ensures db.requests.rows[r].price.Some? <==> db.requests.rows[r].status.Fulfilled?
  {
    assert RequestFits(db.cards.rows, db.requests.rows[r]);
  }

  // ----- One step undoes the other -----

  lemma LinkThenUnlink(credits: Table<Credit>, requests: map<nat, Request>, b: nat, r: nat)
    requires CreditsOk(credits, requests) && Link(credits, requests, b, r).Ok?
    ensures Unlink(Link(credits, requests, b, r).value, b) == Ok(credits)
  {
    assert CreditFits(requests, credits.rows[b]);
    assert Unlink(Link(credits, requests, b, r).value, b).value.rows == credits.rows;
  }

  lemma WaiveThenUnlink(credits: Table<Credit>, requests: map<nat, Request>, b: nat)
    requires CreditsOk(credits, requests) && Waive(credits, b).Ok?
    ensures Unlink(Waive(credits, b).value, b) == Ok(credits)
  {
    assert CreditFits(requests, credits.rows[b]);
    assert Unlink(Waive(credits, b).value, b).value.rows == credits.rows;
  }

  /** A match can be taken off and put back exactly as long as credit and sale still agree. */
  lemma UnlinkThenLink(credits: Table<Credit>, requests: map<nat, Request>, b: nat, r: nat)
    requires CreditsOk(credits, requests) && b in credits.rows && credits.rows[b].sale == Some(r)
    ensures Unlink(credits, b).Ok?
    ensures Link(Unlink(credits, b).value, requests, b, r) == Ok(credits) <==> Agrees(requests, credits.rows[b])
  {
    assert CreditFits(requests, credits.rows[b]);
    var open := Unlink(credits, b).value;
    assert !LinkedElsewhere(open.rows, b, r);
    TolerantIsExact(credits.rows[b].amount, PriceOf(requests[r]));
    if Agrees(requests, credits.rows[b]) { assert Link(open, requests, b, r).value.rows == credits.rows; }
  }

  // ----- Revenue -----

  function Imported(kind: Kind): (nat, Credit) -> int {
    (b, row: Credit) => if PurposeMatches(row.purpose, kind) then row.amount else 0
  }

  function WithStatus(kind: Kind, status: CreditStatus): (nat, Credit) -> int {
    (b, row: Credit) => if PurposeMatches(row.purpose, kind) && row.status == status then row.amount else 0
  }

  function Sold(kind: Kind): (nat, Request) -> int {
    (r, row: Request) => if row.status.Fulfilled? && row.kind == kind then PriceOf(row) else 0
  }

  /** A credit with id below `n` is linked to sale `r`. */
  ghost predicate LinkedBelow(credits: map<nat, Credit>, n: nat, r: nat) {
    exists b :: b in credits && b < n && credits[b].sale == Some(r)
  }

  ghost function SoldLinked(kind: Kind, credits: map<nat, Credit>, n: nat): (nat, Request) -> int {
    (r: nat, row: Request) => if LinkedBelow(credits, n, r) then Sold(kind)(r, row) else 0
  }

  ghost function SoldUnlinked(kind: Kind, credits: map<nat, Credit>, n: nat): (nat, Request) -> int {
    (r: nat, row: Request) => if LinkedBelow(credits, n, r) then 0 else Sold(kind)(r, row)
  }

  /** The price of the sale that a credit is linked to. */
  function LinkedPrice(kind: Kind, requests: map<nat, Request>): (nat, Credit) -> int {
    (b, row: Credit) => if row.sale.Some? && row.sale.value in requests then
      Sold(kind)(row.sale.value, requests[row.sale.value]) else 0
  }

  function SalesTotal(o: Office, kind: Kind): int { Total(o.db.requests.rows, Sold(kind), o.db.requests.next) }
  function ImportedTotal(o: Office, kind: Kind): int { Total(o.credits.rows, Imported(kind), o.credits.next) }
  function StatusTotal(o: Office, kind: Kind,
      status: CreditStatus): int { Total(o.credits.rows, WithStatus(kind, status), o.credits.next) }

  ghost function UnlinkedTotal(o: Office, kind: Kind): int {
    Total(o.db.requests.rows, SoldUnlinked(kind, o.credits.rows, o.credits.next), o.db.requests.next)
  }

  /** What matched credits are worth above the sales they are matched with. */
  function Drift(o: Office, kind: Kind): int {
    StatusTotal(o, kind, MatchedSale) - Total(o.credits.rows, LinkedPrice(kind, o.db.requests.rows), o.credits.next)
  }

  /** Reported revenue, sales plus open credits, holds every imported or earned euro once. */
  ghost predicate CountedOnce(o: Office, kind: Kind) {
    SalesTotal(o, kind) + StatusTotal(o, kind, OpenRevenue)
      == ImportedTotal(o, kind) - StatusTotal(o, kind, Waived) + UnlinkedTotal(o, kind)
  }

  /** Credit and linked sale have the same amount and the same purpose. */
  predicate Agrees(requests: map<nat, Request>, row: Credit) {
    row.sale.Some? ==>
      && IsSale(requests, row.sale.value)
      && requests[row.sale.value].price == Some(row.amount)
      && PurposeMatches(row.purpose, requests[row.sale.value].kind)
  }

  ghost predicate AllAgree(o: Office) {
    forall b :: b in o.credits.rows ==> Agrees(o.db.requests.rows, o.credits.rows[b])
  }

  /** Summing sale prices along the credits' links is summing them over the linked sales: the matching is injective. */
  lemma {:induction false} MatchingSum(credits: map<nat, Credit>, requests: map<nat, Request>, kind: Kind, n: nat,
      m: nat)
    requires OneCreditPerSale(credits) && forall r :: r in requests ==> r < m
    ensures Total(credits, LinkedPrice(kind, requests), n) == Total(requests, SoldLinked(kind, credits, n), m)
  {
    if n == 0 {
      forall r: nat | r < m ensures Share(requests, SoldLinked(kind, credits, 0), r)
        == 0 { assert !LinkedBelow(credits, 0, r); }
      TotalZero(requests, SoldLinked(kind, credits, 0), m);
    } else {
      MatchingSum(credits, requests, kind, n - 1, m);
      var before, after := SoldLinked(kind, credits, n - 1), SoldLinked(kind, credits, n);
      forall r: nat | r < m && !(n - 1 in credits && credits[n - 1].sale == Some(r))
        ensures Share(requests, before, r) == Share(requests, after, r)
      {
        assert LinkedBelow(credits, n, r) <==> LinkedBelow(credits, n - 1, r);
      }
      if n - 1 in credits && credits[n - 1].sale.Some? && credits[n - 1].sale.value in requests {
        var r := credits[n - 1].sale.value;
        assert LinkedBelow(credits, n, r) && !LinkedBelow(credits, n - 1, r);
        TotalChange(requests, before, requests, after, m, r);
      } else {
        TotalCongruent(requests, before, requests, after, m);
      }
    }
  }

  /** Sales plus open credits = all credits - waived credits + sales without a credit - drift, in every reachable state.
      */
  lemma RevenueIdentity(o: Office, kind: Kind)
    requires OfficeOk(o)
    ensures SalesTotal(o, kind) + StatusTotal(o, kind, OpenRevenue)
         == ImportedTotal(o, kind) - StatusTotal(o, kind, Waived) + UnlinkedTotal(o, kind) - Drift(o, kind)
    ensures CountedOnce(o, kind) <==> Drift(o, kind) == 0
  {
    var credits, n := o.credits.rows, o.credits.next;
    var requests, m := o.db.requests.rows, o.db.requests.next;
    assert forall r :: r in requests ==> r < m by { assert o.db.requests.Valid(); }
    hide Inv;
    MatchingSum(credits, requests, kind, n, m);
    TotalAdds(requests, SoldLinked(kind, credits, n), SoldUnlinked(kind, credits, n), Sold(kind), m);
    StatusesPartition(credits, kind, n);
  }

  lemma {:induction false} StatusesPartition(credits: map<nat, Credit>, kind: Kind, n: nat)
    ensures Total(credits, Imported(kind), n) == Total(credits, WithStatus(kind, OpenRevenue), n)
         + Total(credits, WithStatus(kind, MatchedSale), n) + Total(credits, WithStatus(kind, Waived), n)
  {
    if n > 0 { StatusesPartition(credits, kind, n - 1); }
  }

  lemma AgreementCountsOnce(o: Office, kind: Kind)
    requires OfficeOk(o) && AllAgree(o)
    ensures CountedOnce(o, kind)
  {
    RevenueIdentity(o, kind);
    hide Inv, CountedOnce;
    var credits, requests := o.credits.rows, o.db.requests.rows;
    forall b: nat | b < o.credits.next ensures Share(credits, WithStatus(kind, MatchedSale), b)
      == Share(credits, LinkedPrice(kind, requests), b) {
      if b in credits { AgreedRow(requests, credits[b], kind, b); }
    }
    TotalCongruent(credits, WithStatus(kind, MatchedSale), credits, LinkedPrice(kind, requests), o.credits.next);
  }

  lemma AgreedRow(requests: map<nat, Request>, row: Credit, kind: Kind, b: nat)
    requires CreditFits(requests, row) && Agrees(requests, row)
    ensures WithStatus(kind, MatchedSale)(b, row) == LinkedPrice(kind, requests)(b, row)
  {
    if row.sale.Some? {
      var sale := requests[row.sale.value];
      assert PurposeMatches(row.purpose, kind) <==> sale.kind == kind;
      assert LinkedPrice(kind, requests)(b, row) == Sold(kind)(row.sale.value, sale);
    }
  }

  /** A re-import that leaves amount and purpose of a matched credit as they are. */
  predicate KeepsMatched(credits: Table<Credit>, op: OfficeOp) {
    op.ImportOp? ==>
      var existing := FindCredit(credits.rows, Trim(op.external), credits.next);
      existing.Some? && credits.rows[existing.value].status == MatchedSale && PerformImport(credits, op).Ok? ==>
        credits.rows[existing.value].amount == op.amount && Some(credits.rows[existing.value].purpose)
          == ParsePurpose(op.purpose)
  }

  function PerformImport(credits: Table<Credit>, op: OfficeOp): CreditOutcome
    requires op.ImportOp?
  {
    UpsertCredit(credits, op.external, op.amount, op.received, op.description, op.purpose)
  }

  lemma StepKeepsAgreement(o: Office, op: OfficeOp)
    requires OfficeOk(o) && AllAgree(o) && KeepsMatched(o.credits, op)
    ensures AllAgree(OfficeStep(o, op))
  {
    hide Inv;
    match op
    case Counter(inner) =>
      StepKeepsSales(o.db, inner);
      SalesKeepLinks(o.credits, o.db.requests.rows, Step(o.db, inner).requests.rows);
    case LinkOp(b, r) =>
      if PerformCredit(o, op).Ok? { TolerantIsExact(o.credits.rows[b].amount, PriceOf(o.db.requests.rows[r])); }
    case ImportOp(_, _, _, _, _) =>
      assert forall b :: b in o.credits.rows ==> CreditFits(o.db.requests.rows, o.credits.rows[b]);
    case _ =>
  }

  ghost predicate MatchedAmountsKept(o: Office, ops: seq<OfficeOp>)
    decreases |ops|
  {
    ops == [] || (KeepsMatched(o.credits, ops[0]) && MatchedAmountsKept(OfficeStep(o, ops[0]), ops[1..]))
  }

  /** In runs whose re-imports leave matched credits as they are, reported revenue counts every euro once, per kind. */
  lemma {:induction false} RevenueCountsOnce(o: Office, ops: seq<OfficeOp>, kind: Kind)
    requires OfficeStart(o) || (OfficeOk(o) && AllAgree(o))
    requires MatchedAmountsKept(o, ops)
    ensures CountedOnce(OfficeRun(o, ops), kind)
    decreases |ops|
  {
    if OfficeStart(o) { Reachable(o.db, []); }
    hide Inv, OfficeStart, KeepsMatched, CountedOnce;
    if ops == [] {
      AgreementCountsOnce(o, kind);
    } else {
      OfficeStepKeeps(o, ops[0]);
      StepKeepsAgreement(o, ops[0]);
      RevenueCountsOnce(OfficeStep(o, ops[0]), ops[1..], kind);
    }
  }

  /** Where all matches agree, one import leaves revenue counted once if and only if it leaves matched amounts and
      purposes alone. */
  lemma ReimportDrift(o: Office, op: OfficeOp)
    requires OfficeOk(o) && AllAgree(o) && op.ImportOp?
    ensures (CountedOnce(OfficeStep(o, op), Tosti) && CountedOnce(OfficeStep(o, op), Avondeten)) <==>
      KeepsMatched(o.credits, op)
  {
    OfficeStepKeeps(o, op);
    hide Inv;
    if KeepsMatched(o.credits, op) {
      StepKeepsAgreement(o, op);
      AgreementCountsOnce(OfficeStep(o, op), Tosti);
      AgreementCountsOnce(OfficeStep(o, op), Avondeten);
    } else {
      var b := FindCredit(o.credits.rows, Trim(op.external), o.credits.next).value;
      var kind := KindOf(o.credits.rows[b].purpose);
      ChangedMatchDrifts(o, op, b, kind);
    }
  }

  function KindOf(purpose: Purpose): Kind { if purpose == LunchPurpose then Tosti else Avondeten }

  lemma ChangedMatchDrifts(o: Office, op: OfficeOp, b: nat, kind: Kind)
    requires OfficeOk(o) && AllAgree(o) && op.ImportOp? && !KeepsMatched(o.credits, op) && OfficeOk(OfficeStep(o, op))
    requires FindCredit(o.credits.rows, Trim(op.external), o.credits.next) == Some(b)
      && kind == KindOf(o.credits.rows[b].purpose)
    ensures !CountedOnce(OfficeStep(o, op), kind)
  {
    hide Inv, CountedOnce;
    var after := OfficeStep(o, op);
    RevenueIdentity(o, kind);
    AgreementCountsOnce(o, kind);
    RevenueIdentity(after, kind);
    var w, p := WithStatus(kind, MatchedSale), LinkedPrice(kind, o.db.requests.rows);
    assert CreditFits(o.db.requests.rows, o.credits.rows[b]);
    TotalChange(o.credits.rows, w, after.credits.rows, w, o.credits.next, b);
    TotalChange(o.credits.rows, p, after.credits.rows, p, o.credits.next, b);
  }

  // ----- A re-import that counts a euro twice -----

  const NOTHING := Office(EMPTY, Table(map[], 1))
  const SALE := SellOp(1, 1, Tosti, 1500, 24320)
  const MEMBER := SaveUserOp(None, User(Some("a"), false, false, false))

  function Statement(amount: int): OfficeOp { ImportOp("x", amount, DateParts(2026, 9, 1), "", "lunchkraam") }

  const BOOKED := Credit("x", 1500, DateParts(2026, 9, 1), "", LunchPurpose, OpenRevenue, None)

  /** A sale of 15 euro, matched with its credit, which a later statement reports as 16 euro. */
  lemma ReimportedAmountIsNotCountedOnce()
    ensures OfficeStart(NOTHING)
    ensures !CountedOnce(OfficeRun(NOTHING,
        [Counter(MEMBER), Counter(SALE), Statement(1500), LinkOp(1, 1), Statement(1600)]), Tosti)
  {
    hide OfficeStep, CountedOnce;
    FirstSale();
    var sold := OfficeStep(OfficeStep(NOTHING, Counter(MEMBER)), Counter(SALE));
    MatchedAndReimported(sold);
    RunOfFive(Counter(MEMBER), Counter(SALE), Statement(1500), LinkOp(1, 1), Statement(1600));
    CountsOf(OfficeStep(OfficeStep(OfficeStep(sold, Statement(1500)), LinkOp(1, 1)), Statement(1600)));
  }

  lemma FirstSale()
    ensures var sold := OfficeStep(OfficeStep(NOTHING, Counter(MEMBER)), Counter(SALE));
      sold.credits == NOTHING.credits && sold.db.requests
        == Table(map[1 := Request(1, Tosti, Fulfilled(Some(1), 24320), Some(1), 0, Some(1500))], 2)
  {
    var member := OfficeStep(NOTHING, Counter(MEMBER));
    assert member.credits == NOTHING.credits && 1 in member.db.users.rows;
    assert BuyerError(member.db, 1, Tosti).None?;
    var sold := OfficeStep(member, Counter(SALE));
    assert sold.credits == NOTHING.credits;
  }

  lemma MatchedAndReimported(sold: Office)
    requires sold.credits == NOTHING.credits
    requires sold.db.requests
      == Table(map[1 := Request(1, Tosti, Fulfilled(Some(1), 24320), Some(1), 0, Some(1500))], 2)
    ensures OfficeStep(OfficeStep(OfficeStep(sold, Statement(1500)), LinkOp(1, 1)), Statement(1600))
         == Office(sold.db, Table(map[1 := BOOKED.(amount := 1600, sale := Some(1), status := MatchedSale)], 2))
  {
    var imported := OfficeStep(sold, Statement(1500));
    assert imported == Office(sold.db, Table(map[1 := BOOKED], 2));
    TolerantIsExact(1500, 1500);
    var matched := BOOKED.(sale := Some(1), status := MatchedSale);
    var linked := OfficeStep(imported, LinkOp(1, 1));
    assert linked == Office(sold.db, Table(map[1 := matched], 2));
    assert OfficeStep(linked, Statement(1600)).credits.rows == map[1 := matched.(amount := 1600)];
  }

  lemma RunOfFive(a: OfficeOp, b: OfficeOp, c: OfficeOp, d: OfficeOp, e: OfficeOp)
    ensures OfficeRun(NOTHING, [a, b, c, d, e])
      == OfficeStep(OfficeStep(OfficeStep(OfficeStep(OfficeStep(NOTHING, a), b), c), d), e)
  {
    hide OfficeStep;
    assert [a, b, c, d, e][1..] == [b, c, d, e] && [b, c, d, e][1..] == [c, d, e] && [c, d, e][1..]
      == [d, e] && [d, e][1..] == [e] && [e][1..] == [];
    var o4 := OfficeStep(OfficeStep(OfficeStep(NOTHING, a), b), c);
    assert OfficeRun(o4, [d, e]) == OfficeRun(OfficeStep(o4, d), [e])
      == OfficeRun(OfficeStep(OfficeStep(o4, d), e), []);
    assert OfficeRun(NOTHING, [a, b, c, d, e]) == OfficeRun(OfficeStep(NOTHING, a), [b, c, d, e]);
    assert OfficeRun(OfficeStep(NOTHING, a), [b, c, d, e])
      == OfficeRun(OfficeStep(OfficeStep(NOTHING, a), b), [c, d, e]) == OfficeRun(o4, [d, e]);
  }

  lemma CountsOf(o: Office)
    requires o.db.requests.next == 2 && o.db.requests.rows.Keys == {1}
    requires o.db.requests.rows[1].status.Fulfilled? && o.db.requests.rows[1].kind == Tosti
      && o.db.requests.rows[1].price == Some(1500)
    requires o.credits.next == 2 && o.credits.rows.Keys == {1}
    requires o.credits.rows[1].sale == Some(1) && o.credits.rows[1].status == MatchedSale
    requires o.credits.rows[1].amount == 1600 && o.credits.rows[1].purpose == LunchPurpose
    ensures !CountedOnce(o, Tosti)
  {
    var credits, requests := o.credits.rows, o.db.requests.rows;
    assert LinkedBelow(credits, 2, 1);
    assert Total(requests, Sold(Tosti), 1) == 0 && SalesTotal(o, Tosti) == 1500;
    assert Total(requests, SoldUnlinked(Tosti, credits, 2), 1) == 0 && UnlinkedTotal(o, Tosti) == 0;
    assert Total(credits, Imported(Tosti), 1) == 0 && ImportedTotal(o, Tosti) == 1600;
    assert Total(credits, WithStatus(Tosti, OpenRevenue), 1) == 0 && StatusTotal(o, Tosti, OpenRevenue) == 0;
    assert Total(credits, WithStatus(Tosti, Waived), 1) == 0 && StatusTotal(o, Tosti, Waived) == 0;
  }
}
