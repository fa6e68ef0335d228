/** Bank credits taken over from Revolut statements, one row per external identifier. */
module BankCredits {
  import opened Prelude
  import opened Calendar
  import opened Text

  datatype Purpose = LunchPurpose | AvondetenPurpose

  function ParsePurpose(s: string): Option<Purpose> {
    if s == "lunchkraam" then Some(LunchPurpose) else if s == "avondeten" then Some(AvondetenPurpose) else None
  }

  datatype CreditStatus = OpenRevenue | MatchedSale | Waived

  /** `amount` in cents; `sale` is matched_card_request_id. */
  datatype Credit = Credit(external: string, amount: int, received: Date, description: string, purpose: Purpose,
                           status: CreditStatus, sale: Option<nat>)

  datatype CreditError =
    | MissingExternal | AmountNotPositive | InvalidPurpose
    | CreditNotFound | CreditNotOpen | RequestNotFound | NoSalePrice | NotFulfilled | Mismatch | AlreadyMatched

  type CreditOutcome = Result<Table<Credit>, CreditError>

  /** The unique index on (source, external_id); Revolut is the only source. */
  ghost predicate OneCreditPerExternal(credits: map<nat, Credit>) {
    forall a, b :: a in credits && b in credits && credits[a].external == credits[b].external ==> a == b
  }

  function FindCredit(credits: map<nat, Credit>, external: string, n: nat): (r: Option<nat>)
    ensures r.Some? ==> r.value in credits && credits[r.value].external == external
    ensures r.None? ==> forall b :: b in credits && b < n ==> credits[b].external != external
  {
    if n == 0 then None
    else if n - 1 in credits && credits[n - 1].external == external then Some(n - 1)
    else FindCredit(credits, external, n - 1)
  }

  /** INSERT ... ON CONFLICT (source, external_id) DO UPDATE: status and link of an existing row are left alone. */
  function UpsertCredit(credits: Table<Credit>, ext: string, amount: int, received: Date, desc: string,
      purpose: string): CreditOutcome {
    var external := Trim(ext);
    var description := Trim(desc);
    if external == "" then Err(MissingExternal)
    else if amount <= 0 then Err(AmountNotPositive)
    else if ParsePurpose(purpose).None? then Err(InvalidPurpose)
    else
      var p := ParsePurpose(purpose).value;
      var existing := FindCredit(credits.rows, external, credits.next);
      if existing.None? then Ok(credits.Insert(Credit(external, amount, received, description, p, OpenRevenue, None)))
      else Ok(credits.Put(existing.value,
                credits.rows[existing.value].(amount := amount, received := received, description := description,
                    purpose := p)))
  }
}
