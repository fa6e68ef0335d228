/** Linking as a transaction that locks the credit, then the request, beside every other operation of office and
    counter. */
module LinkInterleaving {
  import opened Prelude
  import opened Ledger
  import opened Invariant
  import opened Runs
  import opened Calendar
  import opened Text
  import opened BankCredits
  import opened Rounding
  import opened Reconciliation

  datatype RowLock = CreditLock(cb: nat) | SaleLock(cr: nat)

  /** A linking transaction, with the rows it has read under lock. */
  datatype LinkTxn =
    | Begun(b: nat, r: nat)
    | CreditRead(b: nat, r: nat, credit: Credit)
    | SaleRead(b: nat, r: nat, credit: Credit, sale: Request)
    | Unclaimed(b: nat, r: nat, credit: Credit, sale: Request)

  function Locks(t: LinkTxn): set<RowLock> {
    match t
    case Begun(_, _) => {}
    case CreditRead(b, _, _) => {CreditLock(b)}
    case SaleRead(b, r, _, _) => {CreditLock(b), SaleLock(r)}
    case Unclaimed(b, r, _, _) => {CreditLock(b), SaleLock(r)}
  }

  predicate Matching(credit: Credit, sale: Request) {
    && sale.price.Some? && sale.status.Fulfilled? && PurposeMatches(credit.purpose, sale.kind)
    && AmountsMatch(Eur(credit.amount), Eur(sale.price.value))
  }

  /** The next statement of `t` succeeds on the committed tables and takes it to `u`. */
  predicate Advances(o: Office, t: LinkTxn, u: LinkTxn) {
    match t
    case Begun(b, r) => b in o.credits.rows && u == CreditRead(b, r, o.credits.rows[b]) && u.credit.status
      == OpenRevenue
    case CreditRead(b, r, credit) =>
      r in o.db.requests.rows && u == SaleRead(b, r, credit, o.db.requests.rows[r]) && Matching(credit, u.sale)
    case SaleRead(b, r, credit, sale) => u == Unclaimed(b, r, credit, sale) && !LinkedElsewhere(o.credits.rows, b, r)
    case Unclaimed(_, _, _, _) => false
  }

  datatype Sys = Sys(office: Office, txns: map<nat, LinkTxn>)

  datatype Action = Begin(t: nat, b: nat, r: nat) | Advance(t: nat,
      to: LinkTxn) | Commit(t: nat) | Abort(t: nat) | Statement(op: OfficeOp)

  predicate LockedByOther(s: Sys, t: nat, l: RowLock) {
    exists u :: u in s.txns && u != t && l in Locks(s.txns[u])
  }

  predicate LockedBySome(s: Sys, l: RowLock) {
    exists u :: u in s.txns && l in Locks(s.txns[u])
  }

  /** The credit row that a single-statement operation updates. */
  function Touched(o: Office, op: OfficeOp): Option<nat> {
    match op
    case UnlinkOp(b) => Some(b)
    case WaiveOp(b) => Some(b)
    case ImportOp(external, _, _, _, _) => FindCredit(o.credits.rows, Trim(external), o.credits.next)
    case _ => None
  }

  /** UPDATE ... SET matched_card_request_id WHERE reconciliation_status = 'open'. */
  function Claim(o: Office, t: LinkTxn): Office
    requires t.b in o.credits.rows
  {
    o.(credits := o.credits.Put(t.b, o.credits.rows[t.b].(sale := Some(t.r), status := MatchedSale)))
  }

  /** Operations of the counter are not held back by any lock here, which only adds behaviours. */
  ghost predicate Next(s: Sys, a: Action, s': Sys) {
    match a
    case Begin(t, b, r) => t !in s.txns && s' == s.(txns := s.txns[t := Begun(b, r)])
    case Advance(t, u) =>
      && t in s.txns && Advances(s.office, s.txns[t], u)
      && (forall l :: l in Locks(u) ==> !LockedByOther(s, t, l))
      && s' == s.(txns := s.txns[t := u])
    case Commit(t) =>
      && t in s.txns && s.txns[t].Unclaimed? && s.txns[t].b in s.office.credits.rows
      && s.office.credits.rows[s.txns[t].b].status == OpenRevenue
      && s' == Sys(Claim(s.office, s.txns[t]), s.txns - {t})
    case Abort(t) => t in s.txns && s' == s.(txns := s.txns - {t})
    case Statement(op) =>
      && !op.LinkOp?
      && (Touched(s.office, op).Some? ==> !LockedBySome(s, CreditLock(Touched(s.office, op).value)))
      && s' == s.(office := OfficeStep(s.office, op))
  }

  /** What `t` has read still holds of the committed tables, up to the parts of a sale that never change. */
  predicate StillTrue(o: Office, t: LinkTxn) {
    && (!t.Begun? ==> t.b in o.credits.rows && o.credits.rows[t.b] == t.credit && t.credit.status == OpenRevenue)
    && (t.SaleRead? || t.Unclaimed? ==> t.r in o.db.requests.rows && Matching(t.credit, o.db.requests.rows[t.r]))
    && (t.Unclaimed? ==> !LinkedElsewhere(o.credits.rows, t.b, t.r))
  }

  ghost predicate SysOk(s: Sys) {
    && OfficeOk(s.office)
    && (forall t :: t in s.txns ==> StillTrue(s.office, s.txns[t]))
    && (forall t, u :: t in s.txns && u in s.txns && t != u ==> Locks(s.txns[t]) !! Locks(s.txns[u]))
  }

  ghost predicate OneOperation(o: Office, after: Office) {
    after == o || exists op :: after == OfficeStep(o, op)
  }

  /** At its commit a linking transaction is the atomic link. */
  lemma CommitIsLink(o: Office, t: LinkTxn)
    requires StillTrue(o, t) && t.Unclaimed?
    ensures OfficeStep(o, LinkOp(t.b, t.r)) == Claim(o, t)
  {}

  /** Another link to another sale leaves what `u` relies on. */
  lemma ClaimUndisturbed(o: Office, t: LinkTxn, u: LinkTxn)
    requires StillTrue(o, t) && t.Unclaimed? && StillTrue(o, u) && Locks(t) !! Locks(u)
    ensures StillTrue(Claim(o, t), u)
  {
    assert CreditLock(t.b) in Locks(t) && SaleLock(t.r) in Locks(t);
    if u.Unclaimed? { assert SaleLock(u.r) in Locks(u); }
    if !u.Begun? { assert CreditLock(u.b) in Locks(u); }
  }

  lemma StatementUndisturbed(o: Office, op: OfficeOp, u: LinkTxn)
    requires OfficeOk(o) && StillTrue(o, u) && !op.LinkOp?
    requires Touched(o, op).Some? ==> CreditLock(Touched(o, op).value) !in Locks(u)
    ensures StillTrue(OfficeStep(o, op), u)
  {
    hide Inv, Step, CreditsOk;
    if op.Counter? {
      StepKeepsSales(o.db, op.op);
      SalesKeepLinks(o.credits, o.db.requests.rows, Step(o.db, op.op).requests.rows);
      SalesUndisturbed(o, Step(o.db, op.op), u);
    } else {
      if !u.Begun? {
        assert CreditLock(u.b) in Locks(u);
        CreditUndisturbed(o, op, u.b);
      }
      if u.Unclaimed? { NoNewLink(o, op, u.b, u.r); }
    }
  }

  lemma SalesUndisturbed(o: Office, db: Db, u: LinkTxn)
    requires StillTrue(o, u) && SalesKept(o.db.requests.rows, db.requests.rows)
    ensures StillTrue(Office(db, o.credits), u)
  {}

  lemma CreditUndisturbed(o: Office, op: OfficeOp, b: nat)
    requires CreditsOk(o.credits, o.db.requests.rows) && !op.Counter? && !op.LinkOp? && Touched(o, op) != Some(b)
      && b in o.credits.rows
    ensures b in OfficeStep(o, op).credits.rows && OfficeStep(o, op).credits.rows[b] == o.credits.rows[b]
    ensures OfficeStep(o, op).db == o.db
  {}

  lemma NoNewLink(o: Office, op: OfficeOp, b: nat, r: nat)
    requires OfficeOk(o) && !op.LinkOp? && !LinkedElsewhere(o.credits.rows, b, r)
    requires op.Counter? ==> OfficeStep(o, op).credits == o.credits
    ensures !LinkedElsewhere(OfficeStep(o, op).credits.rows, b, r)
  {
    hide Inv;
    var after := OfficeStep(o, op).credits.rows;
    forall a | a in after && after[a].sale == Some(r) ensures a in o.credits.rows && o.credits.rows[a].sale
      == Some(r) {}
  }

  lemma NextKeeps(s: Sys, a: Action, s': Sys)
    requires SysOk(s) && Next(s, a, s')
    ensures SysOk(s') && OneOperation(s.office, s'.office)
  {
    hide OfficeOk;
    match a
    case Commit(t) =>
      hide Next;
      CommitKeeps(s, t, s');
    case Statement(op) =>
      OfficeStepKeeps(s.office, op);
      hide OfficeStep;
      forall u | u in s.txns ensures StillTrue(s'.office, s.txns[u]) { StatementUndisturbed(s.office, op, s.txns[u]); }
    case Advance(t, u) =>
      forall v | v in s.txns && v != t ensures Locks(s.txns[v]) !! Locks(u) {
        forall l | l in Locks(u) ensures l !in Locks(s.txns[v]) { assert !LockedByOther(s, t, l); }
      }
    case _ =>
  }

  lemma CommitKeeps(s: Sys, t: nat, s': Sys)
    requires SysOk(s) && Next(s, Commit(t), s')
    ensures SysOk(s') && s'.office == OfficeStep(s.office, LinkOp(s.txns[t].b, s.txns[t].r))
  {
    hide OfficeOk, StillTrue;
    var txn := s.txns[t];
    CommitIsLink(s.office, txn);
    OfficeStepKeeps(s.office, LinkOp(txn.b, txn.r));
    hide OfficeStep, Claim;
    forall u | u in s'.txns ensures StillTrue(s'.office, s.txns[u]) { ClaimUndisturbed(s.office, txn, s.txns[u]); }
  }

  ghost predicate Trace(states: seq<Sys>, actions: seq<Action>) {
    && |states| == |actions| + 1
    && forall i :: 0 <= i < |actions| ==> Next(states[i], actions[i], states[i + 1])
  }

  /** Every interleaving of links with the other operations commits what a run of whole operations commits; so links
      stay safe: no two credits on one sale, a link exactly when matched, and only to sales. */
  lemma {:induction false} LinksSafeInterleaved(states: seq<Sys>, actions: seq<Action>)
    requires Trace(states, actions) && OfficeStart(states[0].office) && states[0].txns == map[]
    ensures SysOk(states[|actions|]) && exists ops :: states[|actions|].office == OfficeRun(states[0].office, ops)
    decreases |actions|
  {
    var n := |actions|;
    if n == 0 {
      LinksAreSafe(states[0].office, []);
      assert states[0].office == OfficeRun(states[0].office, []);
    } else {
      hide SysOk, Next, OfficeStart;
      LinksSafeInterleaved(states[..n], actions[..n - 1]);
      var ops :| states[n - 1].office == OfficeRun(states[0].office, ops);
      NextKeeps(states[n - 1], actions[n - 1], states[n]);
      if states[n].office == states[n - 1].office {
        assert states[n].office == OfficeRun(states[0].office, ops);
      } else {
        var op :| states[n].office == OfficeStep(states[n - 1].office, op);
        OfficeRunAppend(states[0].office, ops, op);
        assert states[n].office == OfficeRun(states[0].office, ops + [op]);
      }
    }
  }

  lemma {:induction false} OfficeRunAppend(o: Office, ops: seq<OfficeOp>, op: OfficeOp)
    ensures OfficeRun(o, ops + [op]) == OfficeStep(OfficeRun(o, ops), op)
    decreases |ops|
  {
    hide OfficeStep;
    if ops == [] {
      assert ([] + [op])[1..] == [];
    } else {
      assert (ops + [op])[1..] == ops[1..] + [op];
      OfficeRunAppend(OfficeStep(o, ops[0]), ops[1..], op);
    }
  }

  // ----- One after the other -----

  ghost predicate Reaches(s: Sys, s': Sys) {
    exists states, actions :: Trace(states, actions) && states[0] == s && states[|actions|] == s'
  }

  lemma OneMore(s: Sys, mid: Sys, a: Action, s': Sys)
    requires Reaches(s, mid) && Next(mid, a, s')
    ensures Reaches(s, s')
  {
    hide Next;
    var states, actions :| Trace(states, actions) && states[0] == s && states[|actions|] == mid;
    assert Trace(states + [s'], actions + [a]);
    assert (states + [s'])[|actions + [a]|] == s';
  }

  function Idle(o: Office): Sys { Sys(o, map[]) }
  function Alone(o: Office, t: LinkTxn): Sys { Sys(o, map[1 := t]) }

  lemma MovesOn(start: Sys, o: Office, t: LinkTxn, u: LinkTxn)
    requires Reaches(start, Alone(o, t)) && Advances(o, t, u)
    ensures Reaches(start, Alone(o, u))
  {
    hide Advances, Reaches;
    assert Alone(o, u).txns == Alone(o, t).txns[1 := u];
    OneMore(start, Alone(o, t), Advance(1, u), Alone(o, u));
  }

  /** A link that goes through as a whole goes through as a transaction. */
  lemma LinksAlone(start: Sys, o: Office, b: nat, r: nat)
    requires Reaches(start, Idle(o)) && Link(o.credits, o.db.requests.rows, b, r).Ok?
    ensures Reaches(start, Idle(OfficeStep(o, LinkOp(b, r))))
  {
    hide Reaches, AmountsMatch, PurposeMatches;
    var credit, sale := o.credits.rows[b], o.db.requests.rows[r];
    assert Alone(o, Begun(b, r)).txns == Idle(o).txns[1 := Begun(b, r)];
    OneMore(start, Idle(o), Begin(1, b, r), Alone(o, Begun(b, r)));
    MovesOn(start, o, Begun(b, r), CreditRead(b, r, credit));
    MovesOn(start, o, CreditRead(b, r, credit), SaleRead(b, r, credit, sale));
    MovesOn(start, o, SaleRead(b, r, credit, sale), Unclaimed(b, r, credit, sale));
    assert Alone(o, Unclaimed(b, r, credit, sale)).txns - {1} == map[];
    OneMore(start, Alone(o, Unclaimed(b, r, credit, sale)), Commit(1), Idle(OfficeStep(o, LinkOp(b, r))));
  }

  /** Every run of whole operations is one of the interleavings. */
  lemma {:induction false} EveryRunInterleaves(start: Sys, o: Office, ops: seq<OfficeOp>)
    requires Reaches(start, Idle(o))
    ensures Reaches(start, Idle(OfficeRun(o, ops)))
    decreases |ops|
  {
    if ops != [] {
      hide Reaches, Link;
      var after := OfficeStep(o, ops[0]);
      if ops[0].LinkOp? {
        if Link(o.credits, o.db.requests.rows, ops[0].credit, ops[0].request).Ok? {
          LinksAlone(start, o, ops[0].credit, ops[0].request);
        }
      } else {
        OneMore(start, Idle(o), Statement(ops[0]), Idle(after));
      }
      EveryRunInterleaves(start, after, ops[1..]);
    }
  }
}
