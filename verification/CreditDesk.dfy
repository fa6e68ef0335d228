/** The credit table as the program changes it, statement by statement. */
module CreditDesk {
  import opened Prelude
  import opened Ledger
  import opened Calendar
  import opened Text
  import opened BankCredits
  import opened Rounding
  import opened Reconciliation

  ghost predicate SettlesCredits(spec: CreditOutcome, before: Table<Credit>, after: Table<Credit>,
      err: Option<CreditError>) {
    match err
    case None => spec == Ok(after)
    case Some(e) => spec == Err(e) && after == before
  }

  class Desk {
    var credits: Table<Credit>
    var requests: map<nat, Request>

    constructor (credits: Table<Credit>, requests: map<nat, Request>)
      ensures this.credits == credits && this.requests == requests
    {
      this.credits, this.requests := credits, requests;
    }

    method LinkBankCreditToCardRequest(b: nat, r: nat) returns (err: Option<CreditError>)
      modifies this`credits
      ensures SettlesCredits(Link(old(credits), requests, b, r), old(credits), credits, err)
    {
      if b !in credits.rows { return Some(CreditNotFound); }
      var credit := credits.rows[b];
      if credit.status != OpenRevenue { return Some(CreditNotOpen); }
      if r !in requests { return Some(RequestNotFound); }
      var row := requests[r];
      if row.price.None? { return Some(NoSalePrice); }
      if !row.status.Fulfilled? { return Some(NotFulfilled); }
      if !PurposeMatches(credit.purpose, row.kind) { return Some(Mismatch); }
      if !AmountsMatch(Eur(credit.amount), Eur(row.price.value)) { return Some(Mismatch); }
      if LinkedElsewhere(credits.rows, b, r) { return Some(AlreadyMatched); }
      credits := credits.Put(b, credits.rows[b].(sale := Some(r), status := MatchedSale));
      return None;
    }

    method UnlinkBankCreditMatch(b: nat) returns (err: Option<CreditError>)
      modifies this`credits
      ensures SettlesCredits(Unlink(old(credits), b), old(credits), credits, err)
    {
      var affected := 0;
      if b in credits.rows && credits.rows[b].status in {MatchedSale, Waived} {
        credits := credits.Put(b, credits.rows[b].(sale := None, status := OpenRevenue));
        affected := 1;
      }
      if affected == 0 { return Some(CreditNotFound); }
      return None;
    }

    method WaiveBankCreditFromOpenRevenue(b: nat) returns (err: Option<CreditError>)
      modifies this`credits
      ensures SettlesCredits(Waive(old(credits), b), old(credits), credits, err)
    {
      var affected := 0;
      if b in credits.rows && credits.rows[b].status == OpenRevenue {
        credits := credits.Put(b, credits.rows[b].(status := Waived));
        affected := 1;
      }
      if affected == 0 {
        if b !in credits.rows { return Some(CreditNotFound); }
        return Some(CreditNotOpen);
      }
      return None;
    }

    method UpsertImportedBankCredit(ext: string, amount: int, received: Date, desc: string, purpose: string)
      returns (err: Option<CreditError>)
      modifies this`credits
      ensures SettlesCredits(UpsertCredit(old(credits), ext, amount, received, desc, purpose), old(credits), credits,
          err)
    {
      var external, description := Trim(ext), Trim(desc);
      if external == "" { return Some(MissingExternal); }
      if amount <= 0 { return Some(AmountNotPositive); }
      var p := ParsePurpose(purpose);
      if p.None? { return Some(InvalidPurpose); }
      var conflict := FindCredit(credits.rows, external, credits.next);
      if conflict.None? {
        credits := credits.Insert(Credit(external, amount, received, description, p.value, OpenRevenue, None));
      } else {
        var row := credits.rows[conflict.value];
        credits := credits.Put(conflict.value,
            row.(amount := amount, received := received, description := description, purpose := p.value));
      }
      return None;
    }
  }
}
