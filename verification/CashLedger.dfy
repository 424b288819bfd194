/** What every transaction of the cash desk keeps, and so what holds after any run of them. */
module CashLedger {
  import opened Sums
  import opened CashTables

  // ----- aggregates -----

  function FlowOf(f: Id): CashTx -> int {
    (t: CashTx) => if t.fund == f then Signed(t) else 0
  }

  /** Counts the ledger rows written for one purpose. */
  function Tagged(p: Purpose): CashTx -> int {
    (t: CashTx) => if t.purpose == p then 1 else 0
  }

  function Balance(): Fund -> int { (f: Fund) => f.balance }
  function Opening(): Fund -> int { (f: Fund) => f.opening }

  /** Money that crossed the shop's boundary; handover rows only move it inside. */
  function External(): CashTx -> int {
    (t: CashTx) => if t.purpose.Outgoing? || t.purpose.Incoming? then 0 else Signed(t)
  }

  /** Cash that left its till and has not reached the bank yet. */
  function InTransit(): Handover -> int {
    (h: Handover) => if h.settlement == AwaitingBank then h.transfer else 0
  }

  function KeyedBy(employee: Employee, key: string): CashRefund -> int {
    (r: CashRefund) => if r.employee == employee && r.key == key then 1 else 0
  }

  // ----- invariants: each reads only the tables it is about -----

  ghost predicate TxOk(t: CashTx, shifts: seq<Shift>, funds: nat, invoices: nat, refunds: nat, handovers: nat) {
    && t.fund < funds && t.amount > 0
    && (t.shift.Some? ==> t.shift.value < |shifts| && shifts[t.shift.value].fund == t.fund)
    && match t.purpose
       case Sale(i) => i < invoices && t.flow == Income && t.shift.Some?
       case Manual => t.shift.Some?
       case RefundOf(r) => r < refunds && t.flow == Expense && t.shift.Some?
       case Variance(h) => h < handovers && t.shift == None
       case Outgoing(h) => h < handovers && t.shift == None
       case Incoming(h) => h < handovers && t.shift == None
  }

  ghost predicate TxsOk(txns: seq<CashTx>, shifts: seq<Shift>, funds: nat, invoices: nat, refunds: nat, handovers: nat) {
    forall t :: 0 <= t < |txns| ==> TxOk(txns[t], shifts, funds, invoices, refunds, handovers)
  }

  ghost predicate RefundOk(row: CashRefund, r: Id, txns: seq<CashTx>, invoices: nat) {
    && row.tx < |txns| && row.request.invoice < invoices && row.request.amount > 0
    && txns[row.tx].purpose == RefundOf(r) && txns[row.tx].amount == row.request.amount
  }

  /** Refund rows point at their own ledger rows, and no employee and key has two. */
  ghost predicate RefundsOk(refunds: seq<CashRefund>, txns: seq<CashTx>, invoices: nat) {
    && (forall r :: 0 <= r < |refunds| ==> RefundOk(refunds[r], r, txns, invoices))
    && (forall i, j :: 0 <= i < j < |refunds| ==>
         refunds[i].employee != refunds[j].employee || refunds[i].key != refunds[j].key)
  }

  ghost predicate RequestsOk(requests: seq<ExpenseRequest>) {
    forall q :: 0 <= q < |requests| ==> requests[q].amount > 0
  }

  /** A fund's balance is its opening balance plus what its ledger rows moved, and never negative. */
  ghost predicate FundOk(fund: Fund, f: Id, txns: seq<CashTx>) {
    fund.balance == fund.opening + Total(txns, FlowOf(f)) && fund.balance >= 0
  }

  ghost predicate FundsOk(funds: seq<Fund>, txns: seq<CashTx>) {
    forall f :: 0 <= f < |funds| ==> FundOk(funds[f], f, txns)
  }

  /** An open shift reconciles to the running balance of its active cash fund, a closed one to the
      amount stored when it closed. */
  ghost predicate ShiftOk(shift: Shift, s: Id, db: Db)
    requires s < |db.shifts|
  {
    && shift.fund < |db.funds|
    && match shift.status
       case Open => db.funds[shift.fund].kind == Cash && !db.funds[shift.fund].deleted
                    && Reconciled(db, s) == db.funds[shift.fund].balance
       case Closed(reported, actual) => Reconciled(db, s) == actual && reported >= 0 && actual >= 0
  }

  ghost predicate ShiftsOk(db: Db) {
    && (forall s :: 0 <= s < |db.shifts| ==> ShiftOk(db.shifts[s], s, db))
    && (forall s, s' :: 0 <= s < s' < |db.shifts| && db.shifts[s].status == Open && db.shifts[s'].status == Open ==>
         db.shifts[s].fund != db.shifts[s'].fund && db.shifts[s].employee != db.shifts[s'].employee)
  }

  /** A paid cash invoice has exactly one sale row, over its total; its status says exactly how much
      of it was refunded. */
  ghost predicate InvoiceOk(v: Invoice, i: Id, refunds: seq<CashRefund>, txns: seq<CashTx>) {
    var refunded := Total(refunds, RefundedOn(i));
    if v.paidBy == CashPayment && Settleable(v.status) then
      && v.shift.Some? && v.total > 0
      && v.cashTx.Some? && v.cashTx.value < |txns| && Total(txns, Tagged(Sale(i))) == 1
      && txns[v.cashTx.value] == CashTx(Income, v.total, txns[v.cashTx.value].fund, v.shift, Sale(i))
      && 0 <= refunded <= v.total
      && (v.status == Paid <==> refunded == 0) && (v.status == Refunded <==> refunded == v.total)
    else
      v.total >= 0 && v.cashTx == None && Total(txns, Tagged(Sale(i))) == 0 && refunded == 0
      && (v.status == PartiallyRefunded || v.status == Refunded ==> v.paidBy == Transfer)
  }

  ghost predicate InvoicesOk(invoices: seq<Invoice>, refunds: seq<CashRefund>, txns: seq<CashTx>) {
    forall i :: 0 <= i < |invoices| ==> InvoiceOk(invoices[i], i, refunds, txns)
  }

  /** An invoice paid by transfer is REFUNDED once the provider's refunds reach its total and PARTIALLY_REFUNDED
      while they do not; no other invoice has any. */
  ghost predicate ReversalOk(v: Invoice, i: Id, reversals: seq<ProviderRefund>) {
    var reversed := Total(reversals, ReversedOn(i));
    if v.paidBy == Transfer && Settleable(v.status) then
      reversed >= 0 && (v.status == Paid <==> reversed == 0) && (v.status == Refunded <==> reversed > 0 && reversed >= v.total)
    else reversed == 0
  }

  ghost predicate ReversalsOk(invoices: seq<Invoice>, reversals: seq<ProviderRefund>) {
    && (forall i :: 0 <= i < |invoices| ==> ReversalOk(invoices[i], i, reversals))
    && (forall r :: 0 <= r < |reversals| ==>
         reversals[r].invoice < |invoices| && reversals[r].amount > 0
         && reversals[r].shift == invoices[reversals[r].invoice].shift)
  }

  /** How often a handover must have credited its destination: once when it is approved, except
      while a bank destination awaits settlement. */
  function CreditsDue(h: Handover): nat {
    if h.status == Approved && h.settlement != AwaitingBank then 1 else 0
  }

  ghost predicate HandoverOk(h: Handover, id: Id, txns: seq<CashTx>, funds: seq<Fund>) {
    && h.source < |funds| && h.destination < |funds| && h.source != h.destination
    && h.variance == h.counted - h.expected && h.transfer == h.counted - h.retained
    && h.transfer > 0 && h.retained >= 0 && h.counted >= 0
    && Total(txns, Tagged(Incoming(id))) == CreditsDue(h)
    && Total(txns, Tagged(Outgoing(id))) == (if h.status == Approved then 1 else 0)
    && (h.status != Approved ==> h.settlement == NotRequired)
    && (h.settlement == NotRequired ==> h.bankRef == None)
    && (h.settlement == Settled ==> h.bankRef.Some?)
    && (h.bankRef.Some? <==> h.evidence.Some?)
    && (h.settlement == AwaitingBank ==> funds[h.destination].kind == Bank && !funds[h.destination].deleted)
    && (CreditsDue(h) == 1 ==>
         h.destinationTx.Some? && h.destinationTx.value < |txns| && txns[h.destinationTx.value] == IncomingRow(id, h))
    && (h.status == Approved ==>
         h.sourceTx.Some? && h.sourceTx.value < |txns| && txns[h.sourceTx.value] == OutgoingRow(id, h))
  }

  ghost predicate HandoversOk(handovers: seq<Handover>, txns: seq<CashTx>, funds: seq<Fund>) {
    && (forall h :: 0 <= h < |handovers| ==> HandoverOk(handovers[h], h, txns, funds))
    && (forall i, j :: 0 <= i < j < |handovers| && handovers[i].bankRef.Some?
                       && handovers[i].destination == handovers[j].destination ==>
         handovers[i].bankRef != handovers[j].bankRef)
  }

  ghost predicate EntryOk(e: Entry, handovers: seq<Handover>) {
    e.matching.Matched? ==>
      && e.matching.handover < |handovers|
      && var h := handovers[e.matching.handover];
         h.settlement == Settled && h.destination == e.fund && h.transfer == e.line.amount
         && h.bankRef.Some? && h.bankRef == e.line.bankRef
  }

  /** Matched entries agree with their handovers, and no handover is matched twice. */
  ghost predicate EntriesOk(entries: seq<Entry>, handovers: seq<Handover>) {
    && (forall e :: 0 <= e < |entries| ==> EntryOk(entries[e], handovers))
    && (forall i, j :: 0 <= i < j < |entries| && entries[i].matching.Matched? ==> entries[i].matching != entries[j].matching)
  }

  /** What the funds hold plus what is on its way to the bank is what they opened with plus what
      came in from outside. */
  ghost predicate Conserved(funds: seq<Fund>, handovers: seq<Handover>, txns: seq<CashTx>) {
    Total(funds, Balance()) + Total(handovers, InTransit()) == Total(funds, Opening()) + Total(txns, External())
  }

  ghost predicate Inv(db: Db) {
    match db
    case Db(funds, shifts, txns, invoices, refunds, requests, handovers, _, entries, _, reversals) =>
      && TxsOk(txns, shifts, |funds|, |invoices|, |refunds|, |handovers|)
      && RefundsOk(refunds, txns, |invoices|)
      && RequestsOk(requests)
      && FundsOk(funds, txns)
      && ShiftsOk(db)
      && InvoicesOk(invoices, refunds, txns)
      && ReversalsOk(invoices, reversals)
      && HandoversOk(handovers, txns, funds)
      && EntriesOk(entries, handovers)
      && Conserved(funds, handovers, txns)
  }

  /** A transaction that commits leaves the invariant in place; a refused one changes nothing. */
  ghost predicate Keeps(o: Outcome) {
    match o
    case Ok(db, _) => Inv(db)
    case Fail(_) => true
  }

  // ----- one ledger row -----

  /** `Post` on the funds table alone. */
  function Moved(funds: seq<Fund>, t: CashTx): seq<Fund>
    requires t.fund < |funds|
  {
    funds[t.fund := funds[t.fund].(balance := funds[t.fund].balance + Signed(t))]
  }

  lemma PostFunds(funds: seq<Fund>, txns: seq<CashTx>, t: CashTx)
    requires FundsOk(funds, txns) && t.fund < |funds| && funds[t.fund].balance + Signed(t) >= 0
    ensures FundsOk(Moved(funds, t), txns + [t])
  {
    forall f | 0 <= f < |funds|
      ensures FundOk(Moved(funds, t)[f], f, txns + [t])
    {
      TotalAppend(txns, t, FlowOf(f));
    }
  }

  lemma PostTxs(txns: seq<CashTx>, t: CashTx, shifts: seq<Shift>, funds: nat, invoices: nat, refunds: nat, handovers: nat)
    requires TxsOk(txns, shifts, funds, invoices, refunds, handovers) && TxOk(t, shifts, funds, invoices, refunds, handovers)
    ensures TxsOk(txns + [t], shifts, funds, invoices, refunds, handovers)
  {
  }

  lemma PostRefunds(refunds: seq<CashRefund>, txns: seq<CashTx>, t: CashTx, invoices: nat)
    requires RefundsOk(refunds, txns, invoices)
    ensures RefundsOk(refunds, txns + [t], invoices)
  {
  }

  lemma PostTags(txns: seq<CashTx>, t: CashTx, p: Purpose)
    ensures Total(txns + [t], Tagged(p)) == Total(txns, Tagged(p)) + if t.purpose == p then 1 else 0
  {
    TotalAppend(txns, t, Tagged(p));
  }

  lemma PostConserves(funds: seq<Fund>, txns: seq<CashTx>, t: CashTx)
    requires t.fund < |funds|
    ensures Total(Moved(funds, t), Balance()) == Total(funds, Balance()) + Signed(t)
    ensures Total(Moved(funds, t), Opening()) == Total(funds, Opening())
    ensures Total(txns + [t], External()) == Total(txns, External()) + External()(t)
  {
    TotalUpdate(funds, t.fund, Moved(funds, t)[t.fund], Balance());
    TotalUpdate(funds, t.fund, Moved(funds, t)[t.fund], Opening());
    TotalAppend(txns, t, External());
  }

  lemma PostInvoices(invoices: seq<Invoice>, refunds: seq<CashRefund>, txns: seq<CashTx>, t: CashTx)
    requires InvoicesOk(invoices, refunds, txns) && !t.purpose.Sale?
    ensures InvoicesOk(invoices, refunds, txns + [t])
  {
    forall i | 0 <= i < |invoices|
      ensures InvoiceOk(invoices[i], i, refunds, txns + [t])
    {
      PostTags(txns, t, Sale(i));
    }
  }

  lemma PostHandovers(handovers: seq<Handover>, txns: seq<CashTx>, funds: seq<Fund>, t: CashTx)
    requires HandoversOk(handovers, txns, funds) && t.fund < |funds| && !t.purpose.Incoming? && !t.purpose.Outgoing?
    ensures HandoversOk(handovers, txns + [t], Moved(funds, t))
  {
    forall h | 0 <= h < |handovers|
      ensures HandoverOk(handovers[h], h, txns + [t], Moved(funds, t))
    {
      PostTags(txns, t, Incoming(h));
      PostTags(txns, t, Outgoing(h));
    }
  }

  /** A ledger row changes a shift's reconciliation only when it is one of its manual movements. */
  lemma PostReconciles(db: Db, t: CashTx, s: Id)
    requires t.fund < |db.funds| && s < |db.shifts| && RefundsOk(db.refunds, db.txns, |db.invoices|)
    ensures Reconciled(Post(db, t), s)
         == Reconciled(db, s) + if t.shift == Some(s) && !t.purpose.Sale? && !t.purpose.RefundOf? then Signed(t) else 0
  {
    TotalAppend(db.txns, t, MovementIn(s, Income));
    TotalAppend(db.txns, t, MovementIn(s, Expense));
    TotalSame(db.refunds, RefundIn(db.txns + [t], s), RefundIn(db.txns, s));
  }

  /** Changing one invoice changes a shift's reconciliation by that invoice's cash sale. */
  lemma InvoiceReconciles(db: Db, i: Id, v: Invoice, s: Id)
    requires i < |db.invoices| && s < |db.shifts|
    ensures Reconciled(db.(invoices := db.invoices[i := v]), s)
         == Reconciled(db, s) - SaleIn(s)(db.invoices[i]) + SaleIn(s)(v)
  {
    TotalUpdate(db.invoices, i, v, SaleIn(s));
  }

  // ----- shifts and movements -----

  /** A movement on an open shift moves that shift's reconciliation and its fund's balance alike. */
  lemma MovementShifts(db: Db, t: CashTx)
    requires ShiftsOk(db) && RefundsOk(db.refunds, db.txns, |db.invoices|) && t.purpose == Manual
    requires TxOk(t, db.shifts, |db.funds|, 0, 0, 0) && db.shifts[t.shift.value].status == Open
    ensures ShiftsOk(Post(db, t))
  {
    forall s | 0 <= s < |db.shifts|
      ensures ShiftOk(db.shifts[s], s, Post(db, t))
    {
      PostReconciles(db, t, s);
    }
  }

  lemma MovementKeeps(db: Db, t: CashTx)
    requires Inv(db) && TxOk(t, db.shifts, |db.funds|, 0, 0, 0) && t.purpose == Manual
    requires db.shifts[t.shift.value].status == Open && db.funds[t.fund].balance + Signed(t) >= 0
    ensures Inv(Post(db, t))
  {
    var d := Post(db, t);
    assert d.funds == Moved(db.funds, t) && d.txns == db.txns + [t];
    MovementShifts(db, t);
    PostTxs(db.txns, t, db.shifts, |db.funds|, |db.invoices|, |db.refunds|, |db.handovers|);
    PostRefunds(db.refunds, db.txns, t, |db.invoices|);
    PostFunds(db.funds, db.txns, t);
    PostInvoices(db.invoices, db.refunds, db.txns, t);
    PostHandovers(db.handovers, db.txns, db.funds, t);
    PostConserves(db.funds, db.txns, t);
  }

  /** Nothing is booked on a shift before it exists. */
  lemma NothingBookedYet(db: Db, s: Id)
    requires s >= |db.shifts| && TxsOk(db.txns, db.shifts, |db.funds|, |db.invoices|, |db.refunds|, |db.handovers|)
    requires RefundsOk(db.refunds, db.txns, |db.invoices|) && InvoicesOk(db.invoices, db.refunds, db.txns)
    ensures Total(db.invoices, SaleIn(s)) == Total(db.txns, MovementIn(s, Income)) == Total(db.txns, MovementIn(s, Expense)) == 0
    ensures Total(db.refunds, RefundIn(db.txns, s)) == 0
  {
    TotalZero(db.invoices, SaleIn(s));
    TotalZero(db.txns, MovementIn(s, Income));
    TotalZero(db.txns, MovementIn(s, Expense));
    TotalZero(db.refunds, RefundIn(db.txns, s));
  }

  lemma OpenShiftShifts(db: Db, shift: Shift)
    requires ShiftsOk(db) && shift.fund < |db.funds| && !db.funds[shift.fund].deleted && db.funds[shift.fund].kind == Cash
    requires shift.status == Open && shift.expectedStart == db.funds[shift.fund].balance
    requires Reconciled(db.(shifts := db.shifts + [shift]), |db.shifts|) == shift.expectedStart
    requires !FundHasOpenShift(db.shifts, shift.fund) && OpenShiftOf(db.shifts, shift.employee) == |db.shifts|
    ensures ShiftsOk(db.(shifts := db.shifts + [shift]))
  {
    var d := db.(shifts := db.shifts + [shift]);
    forall s | 0 <= s < |d.shifts|
      ensures ShiftOk(d.shifts[s], s, d)
    {
      assert s < |db.shifts| ==> Reconciled(d, s) == Reconciled(db, s);
    }
  }

  lemma OpenShiftKeeps(db: Db, employee: Employee, fund: Id, cash: Money)
    requires Inv(db)
    ensures Keeps(OpenShift(db, employee, fund, cash))
  {
    if OpenShift(db, employee, fund, cash).Ok? {
      NothingBookedYet(db, |db.shifts|);
      OpenShiftShifts(db, Shift(employee, fund, cash, db.funds[fund].balance, Open));
    }
  }

  /** Closing stores the fund's running balance. */
  lemma CloseShiftKeeps(db: Db, employee: Employee, s: Id, reported: Money, hasNote: bool, note: Money, payments: nat, sessions: nat)
    requires Inv(db) && CloseShift(db, employee, s, reported, hasNote, note, payments, sessions).Ok?
    ensures var d := CloseShift(db, employee, s, reported, hasNote, note, payments, sessions).db;
            Inv(d) && d.shifts[s].status == Closed(reported, db.funds[db.shifts[s].fund].balance)
  {
    var d := CloseShift(db, employee, s, reported, hasNote, note, payments, sessions).db;
    forall k | 0 <= k < |d.shifts|
      ensures ShiftOk(d.shifts[k], k, d)
    {
      assert Reconciled(d, k) == Reconciled(db, k);
    }
  }

  // ----- invoices -----

  /** An invoice that no provider refund touches may change, short of becoming a refunded transfer. */
  lemma ReversalsStay(invoices: seq<Invoice>, reversals: seq<ProviderRefund>, i: Id, v: Invoice)
    requires ReversalsOk(invoices, reversals) && i < |invoices|
    requires invoices[i].paidBy != Transfer || !Settleable(invoices[i].status)
    requires v.paidBy == Transfer && Settleable(v.status) ==> v.status == Paid
    ensures ReversalsOk(invoices[i := v], reversals)
  {
    assert ReversalOk(invoices[i], i, reversals);
    forall r | 0 <= r < |reversals| ensures reversals[r].invoice != i {
      if reversals[r].invoice == i {
        TotalAtLeast(reversals, ReversedOn(i), r);
      }
    }
  }

  lemma ReversalsOfNewInvoice(invoices: seq<Invoice>, reversals: seq<ProviderRefund>, v: Invoice)
    requires ReversalsOk(invoices, reversals) && v.status == Unpaid
    ensures ReversalsOk(invoices + [v], reversals)
  {
    TotalZero(reversals, ReversedOn(|invoices|));
  }

  lemma IssueShifts(db: Db, v: Invoice)
    requires ShiftsOk(db) && v.shift.None?
    ensures ShiftsOk(db.(invoices := db.invoices + [v]))
  {
    var d := db.(invoices := db.invoices + [v]);
    forall s | 0 <= s < |d.shifts|
      ensures ShiftOk(d.shifts[s], s, d)
    {
      TotalAppend(db.invoices, v, SaleIn(s));
    }
  }

  lemma IssueKeeps(db: Db, total: Money)
    requires Inv(db)
    ensures Keeps(IssueInvoice(db, total))
  {
    var n := |db.invoices|;
    TotalZero(db.txns, Tagged(Sale(n)));
    TotalZero(db.refunds, RefundedOn(n));
    IssueShifts(db, Invoice(total, CashPayment, Unpaid, None, None));
    ReversalsOfNewInvoice(db.invoices, db.reversals, Invoice(total, CashPayment, Unpaid, None, None));
    hide ShiftsOk, FundsOk, HandoversOk, EntriesOk, Conserved, ReversalsOk;
  }

  lemma InvoiceRowShifts(db: Db, i: Id, v: Invoice)
    requires ShiftsOk(db) && i < |db.invoices| && forall s :: SaleIn(s)(v) == SaleIn(s)(db.invoices[i])
    ensures ShiftsOk(db.(invoices := db.invoices[i := v]))
  {
    var d := db.(invoices := db.invoices[i := v]);
    forall s | 0 <= s < |d.shifts|
      ensures ShiftOk(d.shifts[s], s, d)
    {
      InvoiceReconciles(db, i, v, s);
    }
  }

  /** An invoice row may change without a ledger row only while it counts for nothing in cash. */
  lemma InvoiceRowKeeps(db: Db, i: Id, v: Invoice)
    requires Inv(db) && i < |db.invoices|
    requires db.invoices[i].status == Unpaid && v.total == db.invoices[i].total && v.cashTx == db.invoices[i].cashTx
    requires v.status == Voided || (v.status == Paid && v.paidBy != CashPayment)
    ensures Inv(db.(invoices := db.invoices[i := v]))
  {
    InvoiceRowShifts(db, i, v);
    ReversalsStay(db.invoices, db.reversals, i, v);
    hide ShiftsOk, ReversalsOk, FundsOk, HandoversOk, EntriesOk, Conserved;
  }

  ghost predicate IsCashSale(db: Db, i: Id, v: Invoice, t: CashTx) {
    && i < |db.invoices| && db.invoices[i].status == Unpaid && v.total > 0
    && t.shift.Some? && t.shift.value < |db.shifts| && db.shifts[t.shift.value].status == Open
    && t == CashTx(Income, v.total, db.shifts[t.shift.value].fund, t.shift, Sale(i))
    && v == Invoice(db.invoices[i].total, CashPayment, Paid, t.shift, Some(|db.txns|))
  }

  lemma IsCashSaleRow(db: Db, i: Id, v: Invoice, t: CashTx)
    requires IsCashSale(db, i, v, t)
    ensures i < |db.invoices| && db.invoices[i].status == Unpaid && v.paidBy == CashPayment
  {
  }

  /** A cash payment: the sale row raises the balance and the paid invoice raises the
      reconciliation, by the same total. */
  lemma CashSaleShifts(db: Db, i: Id, v: Invoice, t: CashTx)
    requires ShiftsOk(db) && RefundsOk(db.refunds, db.txns, |db.invoices|) && IsCashSale(db, i, v, t)
    ensures t.fund < |db.funds| && ShiftsOk(Post(db, t).(invoices := db.invoices[i := v]))
  {
    var p := Post(db, t);
    var d := p.(invoices := db.invoices[i := v]);
    forall s | 0 <= s < |d.shifts|
      ensures ShiftOk(d.shifts[s], s, d)
    {
      PostReconciles(db, t, s);
      InvoiceReconciles(p, i, v, s);
    }
  }

  lemma CashSaleInvoices(db: Db, i: Id, v: Invoice, t: CashTx)
    requires InvoicesOk(db.invoices, db.refunds, db.txns) && IsCashSale(db, i, v, t)
    ensures i < |db.invoices| && InvoicesOk(db.invoices[i := v], db.refunds, db.txns + [t])
  {
    var after := db.invoices[i := v];
    forall k | 0 <= k < |after|
      ensures InvoiceOk(after[k], k, db.refunds, db.txns + [t])
    {
      PostTags(db.txns, t, Sale(k));
    }
  }

  lemma CashSaleRow(db: Db, i: Id, v: Invoice, t: CashTx)
    requires FundsOk(db.funds, db.txns) && IsCashSale(db, i, v, t) && t.fund < |db.funds|
    ensures TxOk(t, db.shifts, |db.funds|, |db.invoices|, |db.refunds|, |db.handovers|)
    ensures db.funds[t.fund].balance + Signed(t) >= 0 && Signed(t) == External()(t) && t.purpose.Sale?
  {
    assert FundOk(db.funds[t.fund], t.fund, db.txns);
  }

  /** What a cash payment leaves of the other parts of the invariant. */
  lemma CashSaleRest(db: Db, i: Id, v: Invoice, t: CashTx)
    requires Inv(db) && IsCashSale(db, i, v, t) && t.fund < |db.funds|
    ensures var funds, txns := Moved(db.funds, t), db.txns + [t];
            && TxsOk(txns, db.shifts, |funds|, |db.invoices|, |db.refunds|, |db.handovers|) && RefundsOk(db.refunds, txns, |db.invoices|)
            && FundsOk(funds, txns) && HandoversOk(db.handovers, txns, funds) && Conserved(funds, db.handovers, txns)
  {
    CashSaleRow(db, i, v, t);
    hide ShiftsOk, TxsOk, TxOk, RefundsOk, RequestsOk, FundsOk, HandoversOk, EntriesOk, InvoicesOk, IsCashSale, Signed;
    PostTxs(db.txns, t, db.shifts, |db.funds|, |db.invoices|, |db.refunds|, |db.handovers|);
    PostRefunds(db.refunds, db.txns, t, |db.invoices|);
    PostFunds(db.funds, db.txns, t);
    PostHandovers(db.handovers, db.txns, db.funds, t);
    PostConserves(db.funds, db.txns, t);
  }

  lemma CashSaleKeeps(db: Db, i: Id, v: Invoice, t: CashTx)
    requires Inv(db) && IsCashSale(db, i, v, t)
    ensures t.fund < |db.funds| && i < |db.invoices| && Inv(Post(db, t).(invoices := db.invoices[i := v]))
  {
    hide ShiftsOk, TxsOk, RefundsOk, RequestsOk, FundsOk, HandoversOk, EntriesOk, InvoicesOk, Conserved, IsCashSale;
    CashSaleShifts(db, i, v, t);
    CashSaleRest(db, i, v, t);
    CashSaleInvoices(db, i, v, t);
    ReversalsStay(db.invoices, db.reversals, i, v) by {
      assert IsCashSale(db, i, v, t);
      IsCashSaleRow(db, i, v, t);
    }
    hide ReversalsOk;
  }

  lemma PayKeeps(db: Db, id: Id, employee: Employee, paidBy: Method, tendered: Option<Money>)
    requires Inv(db) && id < |db.invoices| && db.invoices[id].status == Unpaid
    ensures Keeps(Pay(db, id, employee, paidBy, tendered))
  {
    if Pay(db, id, employee, paidBy, tendered).Ok? {
      var s := OpenShiftOf(db.shifts, employee);
      var v := db.invoices[id];
      var paid := v.(status := Paid, paidBy := paidBy, shift := Some(s));
      if paidBy == CashPayment {
        CashSaleKeeps(db, id, paid.(cashTx := Some(|db.txns|)), CashTx(Income, v.total, db.shifts[s].fund, Some(s), Sale(id)));
      } else {
        InvoiceRowKeeps(db, id, paid);
      }
    }
  }

  // ----- cash refunds -----

  ghost predicate IsRefund(db: Db, row: CashRefund, v: Invoice, t: CashTx) {
    && row.tx == |db.txns| && row.request.invoice < |db.invoices| && row.request.amount > 0
    && RefundByKey(db.refunds, row.employee, row.key) == |db.refunds|
    && t.shift.Some? && t.shift.value < |db.shifts| && db.shifts[t.shift.value].status == Open
    && t == CashTx(Expense, row.request.amount, db.shifts[t.shift.value].fund, t.shift, RefundOf(|db.refunds|))
    && var was := db.invoices[row.request.invoice];
       var refunded := Total(db.refunds, RefundedOn(row.request.invoice)) + row.request.amount;
       && was.paidBy == CashPayment && (was.status == Paid || was.status == PartiallyRefunded)
       && refunded <= was.total
       && v == was.(status := if refunded == was.total then Refunded else PartiallyRefunded)
  }

  lemma RefundRows(db: Db, row: CashRefund, v: Invoice, t: CashTx)
    requires TxsOk(db.txns, db.shifts, |db.funds|, |db.invoices|, |db.refunds|, |db.handovers|)
    requires RefundsOk(db.refunds, db.txns, |db.invoices|) && IsRefund(db, row, v, t) && t.fund < |db.funds|
    ensures TxsOk(db.txns + [t], db.shifts, |db.funds|, |db.invoices|, |db.refunds| + 1, |db.handovers|)
    ensures RefundsOk(db.refunds + [row], db.txns + [t], |db.invoices|)
  {
  }

  lemma RefundInvoices(db: Db, row: CashRefund, v: Invoice, t: CashTx)
    requires InvoicesOk(db.invoices, db.refunds, db.txns) && IsRefund(db, row, v, t)
    ensures InvoicesOk(db.invoices[row.request.invoice := v], db.refunds + [row], db.txns + [t])
  {
    var after := db.invoices[row.request.invoice := v];
    forall i | 0 <= i < |after|
      ensures InvoiceOk(after[i], i, db.refunds + [row], db.txns + [t])
    {
      TotalAppend(db.refunds, row, RefundedOn(i));
      PostTags(db.txns, t, Sale(i));
    }
  }

  /** A refund is booked on the shift that pays it out, whichever shift made the sale: the seller's
      reconciliation keeps the sale, the payer's loses the refund. */
  lemma RefundReconciles(db: Db, row: CashRefund, v: Invoice, t: CashTx, s: Id)
    requires RefundsOk(db.refunds, db.txns, |db.invoices|) && IsRefund(db, row, v, t) && t.fund < |db.funds| && s < |db.shifts|
    ensures Reconciled(Post(db, t).(refunds := db.refunds + [row], invoices := db.invoices[row.request.invoice := v]), s)
         == Reconciled(db, s) - if t.shift == Some(s) then t.amount else 0
  {
    var p := Post(db, t);
    PostReconciles(db, t, s);
    InvoiceReconciles(p, row.request.invoice, v, s);
    TotalAppend(db.refunds, row, RefundIn(p.txns, s));
  }

  lemma RefundShifts(db: Db, row: CashRefund, v: Invoice, t: CashTx)
    requires ShiftsOk(db) && RefundsOk(db.refunds, db.txns, |db.invoices|) && IsRefund(db, row, v, t)
    ensures t.fund < |db.funds|
    ensures ShiftsOk(Post(db, t).(refunds := db.refunds + [row], invoices := db.invoices[row.request.invoice := v]))
  {
    var d := Post(db, t).(refunds := db.refunds + [row], invoices := db.invoices[row.request.invoice := v]);
    forall s | 0 <= s < |d.shifts|
      ensures ShiftOk(d.shifts[s], s, d)
    {
      RefundReconciles(db, row, v, t, s);
    }
  }

  lemma RefundKeeps(db: Db, row: CashRefund, v: Invoice, t: CashTx)
    requires Inv(db) && IsRefund(db, row, v, t)
    requires t.fund < |db.funds| ==> db.funds[t.fund].balance >= t.amount
    ensures t.fund < |db.funds|
    ensures Inv(Post(db, t).(refunds := db.refunds + [row], invoices := db.invoices[row.request.invoice := v]))
  {
    RefundShifts(db, row, v, t);
    var d := Post(db, t);
    assert d.funds == Moved(db.funds, t) && d.txns == db.txns + [t];
    RefundRows(db, row, v, t);
    RefundInvoices(db, row, v, t);
    ReversalsStay(db.invoices, db.reversals, row.request.invoice, v);
    hide ReversalsOk;
    PostFunds(db.funds, db.txns, t);
    PostHandovers(db.handovers, db.txns, db.funds, t);
    PostConserves(db.funds, db.txns, t);
  }

  lemma RefundCashKeeps(db: Db, employee: Employee, key: string, request: RefundRequest, shift: Id, handedOff: bool)
    requires Inv(db) && request.amount > 0
    ensures Keeps(RefundCash(db, employee, key, request, shift, handedOff))
  {
    if RefundCash(db, employee, key, request, shift, handedOff).Ok? {
      if RefundByKey(db.refunds, employee, key) == |db.refunds| {
        var s := OpenShiftOf(db.shifts, employee);
        var was := db.invoices[request.invoice];
        var refunded := Total(db.refunds, RefundedOn(request.invoice)) + request.amount;
        RefundKeeps(db, CashRefund(request, employee, key, |db.txns|),
                    was.(status := if refunded == was.total then Refunded else PartiallyRefunded),
                    CashTx(Expense, request.amount, db.shifts[s].fund, Some(s), RefundOf(|db.refunds|)));
      }
    }
  }

  // ----- handovers -----

  /** A row outside any shift, on a fund without an open one, disturbs no shift. */
  lemma UnbookedShifts(db: Db, t: CashTx)
    requires ShiftsOk(db) && RefundsOk(db.refunds, db.txns, |db.invoices|)
    requires t.shift == None && t.fund < |db.funds| && !FundHasOpenShift(db.shifts, t.fund)
    ensures ShiftsOk(Post(db, t))
  {
    forall s | 0 <= s < |db.shifts|
      ensures ShiftOk(db.shifts[s], s, Post(db, t))
    {
      PostReconciles(db, t, s);
    }
  }

  /** A fund that is not a cash fund has no open shift. */
  lemma OnlyCashFundsHaveShifts(db: Db, f: Id)
    requires ShiftsOk(db) && f < |db.funds| && db.funds[f].kind != Cash
    ensures !FundHasOpenShift(db.shifts, f)
  {
  }

  /** Everything a handover row touches except the handover itself. */
  ghost predicate Rest(db: Db) {
    && TxsOk(db.txns, db.shifts, |db.funds|, |db.invoices|, |db.refunds|, |db.handovers|)
    && RefundsOk(db.refunds, db.txns, |db.invoices|)
    && FundsOk(db.funds, db.txns)
    && ShiftsOk(db)
    && InvoicesOk(db.invoices, db.refunds, db.txns) && ReversalsOk(db.invoices, db.reversals)
  }

  lemma UnbookedRest(db: Db, t: CashTx)
    requires Rest(db) && TxOk(t, db.shifts, |db.funds|, |db.invoices|, |db.refunds|, |db.handovers|)
    requires t.shift == None && !FundHasOpenShift(db.shifts, t.fund) && db.funds[t.fund].balance + Signed(t) >= 0
    ensures Rest(Post(db, t))
  {
    var d := Post(db, t);
    assert d.funds == Moved(db.funds, t) && d.txns == db.txns + [t];
    UnbookedShifts(db, t);
    PostTxs(db.txns, t, db.shifts, |db.funds|, |db.invoices|, |db.refunds|, |db.handovers|);
    PostRefunds(db.refunds, db.txns, t, |db.invoices|);
    PostFunds(db.funds, db.txns, t);
    PostInvoices(db.invoices, db.refunds, db.txns, t);
  }

  /** The source side of an approval, as ledger rows posted one by one. */
  function PostSource(db: Db, id: Id, h: Handover): Db
    requires h.source < |db.funds|
  {
    var rows := VarianceRow(id, h);
    Post(if rows == [] then db else Post(db, rows[0]), OutgoingRow(id, h))
  }

  /** Overwriting the balance with the retained cash is posting the variance and the transfer. */
  lemma OverwriteIsPosting(db: Db, id: Id, h: Handover)
    requires h.source < |db.funds| && db.funds[h.source].balance == h.expected
    requires h.variance == h.counted - h.expected && h.transfer == h.counted - h.retained
    ensures db.(funds := db.funds[h.source := db.funds[h.source].(balance := h.retained)],
                txns := db.txns + VarianceRow(id, h) + [OutgoingRow(id, h)])
         == PostSource(db, id, h)
  {
  }

  lemma PostSourceRest(db: Db, id: Id, h: Handover)
    requires Rest(db) && id < |db.handovers| && h.source < |db.funds| && db.funds[h.source].balance == h.expected
    requires h.variance == h.counted - h.expected && h.transfer == h.counted - h.retained
    requires h.transfer > 0 && h.retained >= 0 && h.counted >= 0 && !FundHasOpenShift(db.shifts, h.source)
    ensures Rest(PostSource(db, id, h))
  {
    var rows := VarianceRow(id, h);
    if rows == [] {
      UnbookedRest(db, OutgoingRow(id, h));
    } else {
      UnbookedRest(db, rows[0]);
      UnbookedRest(Post(db, rows[0]), OutgoingRow(id, h));
    }
  }

  lemma PostSourceTags(db: Db, id: Id, h: Handover, p: Purpose)
    requires h.source < |db.funds| && !p.Variance?
    ensures Total(PostSource(db, id, h).txns, Tagged(p)) == Total(db.txns, Tagged(p)) + if p == Outgoing(id) then 1 else 0
  {
    var rows := VarianceRow(id, h);
    if rows == [] {
      PostTags(db.txns, OutgoingRow(id, h), p);
    } else {
      PostTags(db.txns, rows[0], p);
      PostTags(db.txns + rows, OutgoingRow(id, h), p);
    }
  }

  lemma PostTotals(db: Db, t: CashTx)
    requires t.fund < |db.funds|
    ensures var d := Post(db, t);
            && Total(d.funds, Balance()) == Total(db.funds, Balance()) + Signed(t)
            && Total(d.funds, Opening()) == Total(db.funds, Opening())
            && Total(d.txns, External()) == Total(db.txns, External()) + External()(t)
  {
    PostConserves(db.funds, db.txns, t);
  }

  lemma PostSourceTotals(db: Db, id: Id, h: Handover)
    requires h.source < |db.funds|
    ensures var d := PostSource(db, id, h);
            && Total(d.funds, Balance()) == Total(db.funds, Balance()) + h.variance - h.transfer
            && Total(d.funds, Opening()) == Total(db.funds, Opening())
            && Total(d.txns, External()) == Total(db.txns, External()) + h.variance
  {
    var rows := VarianceRow(id, h);
    if rows == [] {
      PostTotals(db, OutgoingRow(id, h));
    } else {
      PostTotals(db, rows[0]);
      PostTotals(Post(db, rows[0]), OutgoingRow(id, h));
    }
  }

  /** Ledger rows for other handovers do not concern this one. */
  lemma HandoverStays(h: Handover, i: Id, txns: seq<CashTx>, funds: seq<Fund>, more: seq<CashTx>, moved: seq<Fund>)
    requires HandoverOk(h, i, txns, funds) && txns <= more && |moved| == |funds|
    requires forall f :: 0 <= f < |moved| ==> moved[f].kind == funds[f].kind && moved[f].deleted == funds[f].deleted
    requires Total(more, Tagged(Outgoing(i))) == Total(txns, Tagged(Outgoing(i)))
    requires Total(more, Tagged(Incoming(i))) == Total(txns, Tagged(Incoming(i)))
    ensures HandoverOk(h, i, more, moved)
  {
  }

  /** An approval's effect on the handover table: this handover has sent its cash, and has credited
      its destination unless it awaits the bank; every other handover is as before. */
  lemma ApproveHandovers(db: Db, id: Id, after: Handover, txns: seq<CashTx>, funds: seq<Fund>)
    requires HandoversOk(db.handovers, db.txns, db.funds) && id < |db.handovers| && db.handovers[id].status == Pending
    requires |funds| == |db.funds| && db.txns <= txns
    requires forall f :: 0 <= f < |funds| ==> funds[f].kind == db.funds[f].kind && funds[f].deleted == db.funds[f].deleted
    requires after == db.handovers[id].(status := Approved, settlement := after.settlement, sourceTx := after.sourceTx,
                                        destinationTx := after.destinationTx, varianceTx := after.varianceTx)
    requires after.settlement != Settled
    requires after.settlement == AwaitingBank ==> funds[after.destination].kind == Bank && !funds[after.destination].deleted
    requires after.sourceTx.Some? && after.sourceTx.value < |txns| && txns[after.sourceTx.value] == OutgoingRow(id, after)
    requires after.settlement == NotRequired ==>
               after.destinationTx.Some? && after.destinationTx.value < |txns| && txns[after.destinationTx.value] == IncomingRow(id, after)
    requires forall h :: Total(txns, Tagged(Outgoing(h))) == Total(db.txns, Tagged(Outgoing(h))) + if h == id then 1 else 0
    requires forall h :: Total(txns, Tagged(Incoming(h))) ==
                         Total(db.txns, Tagged(Incoming(h))) + if h == id then CreditsDue(after) else 0
    ensures HandoversOk(db.handovers[id := after], txns, funds)
  {
    var handovers := db.handovers[id := after];
    assert HandoverOk(after, id, txns, funds) by {
      assert HandoverOk(db.handovers[id], id, db.txns, db.funds);
    }
    hide HandoverOk;
    forall h | 0 <= h < |handovers|
      ensures HandoverOk(handovers[h], h, txns, funds)
    {
      assert HandoverOk(db.handovers[h], h, db.txns, db.funds);
      if h != id {
        HandoverStays(handovers[h], h, db.txns, db.funds, txns, funds);
      }
    }
  }

  /** Entries hang on settled handovers only, which an approval never touches. */
  lemma ApproveEntries(entries: seq<Entry>, handovers: seq<Handover>, id: Id, after: Handover)
    requires EntriesOk(entries, handovers) && id < |handovers| && handovers[id].settlement != Settled
    ensures EntriesOk(entries, handovers[id := after])
  {
  }

  lemma ApproveTags(db: Db, id: Id, h: Handover)
    requires h.source < |db.funds| && h.destination < |db.funds|
    ensures var d := PostSource(db, id, h); var e := Post(d, IncomingRow(id, h));
            && (forall k :: Total(d.txns, Tagged(Outgoing(k))) == Total(db.txns, Tagged(Outgoing(k))) + if k == id then 1 else 0)
            && (forall k :: Total(d.txns, Tagged(Incoming(k))) == Total(db.txns, Tagged(Incoming(k))))
            && (forall k :: Total(e.txns, Tagged(Outgoing(k))) == Total(db.txns, Tagged(Outgoing(k))) + if k == id then 1 else 0)
            && (forall k :: Total(e.txns, Tagged(Incoming(k))) == Total(db.txns, Tagged(Incoming(k))) + if k == id then 1 else 0)
  {
    var d := PostSource(db, id, h);
    forall k
      ensures Total(d.txns, Tagged(Outgoing(k))) == Total(db.txns, Tagged(Outgoing(k))) + if k == id then 1 else 0
      ensures Total(d.txns, Tagged(Incoming(k))) == Total(db.txns, Tagged(Incoming(k)))
      ensures Total(d.txns + [IncomingRow(id, h)], Tagged(Outgoing(k))) == Total(d.txns, Tagged(Outgoing(k)))
      ensures Total(d.txns + [IncomingRow(id, h)], Tagged(Incoming(k))) == Total(d.txns, Tagged(Incoming(k))) + if k == id then 1 else 0
    {
      PostSourceTags(db, id, h, Outgoing(k));
      PostSourceTags(db, id, h, Incoming(k));
      PostTags(d.txns, IncomingRow(id, h), Outgoing(k));
      PostTags(d.txns, IncomingRow(id, h), Incoming(k));
    }
  }

  ghost predicate CanApprove(db: Db, id: Id) {
    && id < |db.handovers| && db.handovers[id].status == Pending
    && var h := db.handovers[id];
       h.source < |db.funds| && h.destination < |db.funds| && !db.funds[h.destination].deleted
       && !FundsBusy(db, h.source, h.destination) && db.funds[h.source].balance == h.expected
  }

  lemma ApproveToBankKeeps(db: Db, id: Id, after: Handover)
    requires Inv(db) && CanApprove(db, id) && db.funds[db.handovers[id].destination].kind == Bank
    requires after == db.handovers[id].(status := Approved, settlement := AwaitingBank,
                                        sourceTx := Some(|db.txns| + |VarianceRow(id, db.handovers[id])|), varianceTx := after.varianceTx)
    ensures Inv(PostSource(db, id, db.handovers[id]).(handovers := db.handovers[id := after]))
  {
    var h := db.handovers[id];
    var d := PostSource(db, id, h);
    PostSourceRest(db, id, h);
    ApproveTags(db, id, h);
    assert OutgoingRow(id, h) == OutgoingRow(id, after);
    ApproveHandovers(db, id, after, d.txns, d.funds);
    ApproveEntries(db.entries, db.handovers, id, after);
    PostSourceTotals(db, id, h);
    TotalUpdate(db.handovers, id, after, InTransit());
    RestIsEnough(d, db.handovers[id := after]);
  }

  lemma RestIsEnough(db: Db, handovers: seq<Handover>)
    requires Rest(db) && RequestsOk(db.requests) && |handovers| == |db.handovers|
    requires HandoversOk(handovers, db.txns, db.funds) && EntriesOk(db.entries, handovers) && Conserved(db.funds, handovers, db.txns)
    ensures Inv(db.(handovers := handovers))
  {
    var d := db.(handovers := handovers);
    assert forall s :: 0 <= s < |d.shifts| ==> Reconciled(d, s) == Reconciled(db, s);
  }

  lemma ApproveAtOnceRest(db: Db, id: Id)
    requires Inv(db) && CanApprove(db, id) && db.funds[db.handovers[id].destination].kind != Bank
    ensures var h := db.handovers[id]; Rest(Post(PostSource(db, id, h), IncomingRow(id, h)))
  {
    var h := db.handovers[id];
    var d := PostSource(db, id, h);
    PostSourceRest(db, id, h);
    if db.funds[h.destination].kind != Cash {
      OnlyCashFundsHaveShifts(db, h.destination);
    }
    assert FundOk(d.funds[h.destination], h.destination, d.txns);
    UnbookedRest(d, IncomingRow(id, h));
  }

  lemma ApproveAtOnceKeeps(db: Db, id: Id, after: Handover)
    requires Inv(db) && CanApprove(db, id) && db.funds[db.handovers[id].destination].kind != Bank
    requires after == db.handovers[id].(status := Approved, settlement := NotRequired,
                                        sourceTx := Some(|db.txns| + |VarianceRow(id, db.handovers[id])|), varianceTx := after.varianceTx,
                                        destinationTx := Some(|db.txns| + |VarianceRow(id, db.handovers[id])| + 1))
    ensures var h := db.handovers[id];
            Inv(Post(PostSource(db, id, h), IncomingRow(id, h)).(handovers := db.handovers[id := after]))
  {
    hide TxsOk, RefundsOk, RequestsOk, FundsOk, ShiftsOk, InvoicesOk, EntriesOk, Rest;
    var h := db.handovers[id];
    var d := PostSource(db, id, h);
    var e := Post(d, IncomingRow(id, h));
    ApproveAtOnceRest(db, id);
    ApproveTags(db, id, h);
    assert OutgoingRow(id, h) == OutgoingRow(id, after) && IncomingRow(id, h) == IncomingRow(id, after);
    ApproveHandovers(db, id, after, e.txns, e.funds);
    ApproveEntries(db.entries, db.handovers, id, after);
    PostSourceTotals(db, id, h);
    PostTotals(d, IncomingRow(id, h));
    TotalUpdate(db.handovers, id, after, InTransit());
    RestIsEnough(e, db.handovers[id := after]);
  }

  lemma ApproveHandoverKeeps(db: Db, id: Id, employee: Employee)
    requires Inv(db)
    ensures Keeps(ApproveHandover(db, id, employee))
  {
    if ApproveHandover(db, id, employee).Ok? {
      var h := db.handovers[id];
      assert HandoverOk(h, id, db.txns, db.funds);
      OverwriteIsPosting(db, id, h);
      var after := ApproveHandover(db, id, employee).db.handovers[id];
      if db.funds[h.destination].kind == Bank {
        ApproveToBankKeeps(db, id, after);
      } else {
        ApproveAtOnceKeeps(db, id, after);
      }
    }
  }

  lemma SettleHandovers(handovers: seq<Handover>, txns: seq<CashTx>, funds: seq<Fund>, id: Id, after: Handover)
    requires HandoversOk(handovers, txns, funds) && id < |handovers| && handovers[id].settlement == AwaitingBank
    requires after == handovers[id].(settlement := Settled, bankRef := after.bankRef, evidence := after.evidence,
                                     destinationTx := Some(|txns|))
    requires after.bankRef.Some? && after.evidence.Some?
    requires !ReferenceTaken(handovers, id, after.destination, after.bankRef.value)
    ensures HandoversOk(handovers[id := after], txns + [IncomingRow(id, after)], Moved(funds, IncomingRow(id, after)))
  {
    var t := IncomingRow(id, after);
    var table := handovers[id := after];
    forall h | 0 <= h < |table|
      ensures HandoverOk(table[h], h, txns + [t], Moved(funds, t))
    {
      PostTags(txns, t, Incoming(h));
      PostTags(txns, t, Outgoing(h));
    }
  }

  lemma SettleKeeps(db: Db, id: Id, employee: Employee, reference: string, evidence: string)
    requires Inv(db)
    ensures Keeps(Settle(db, id, employee, reference, evidence))
  {
    if Settle(db, id, employee, reference, evidence).Ok? {
      var h := db.handovers[id];
      assert HandoverOk(h, id, db.txns, db.funds);
      var t := IncomingRow(id, h);
      var d := Post(db, t);
      var after := h.(settlement := Settled, bankRef := Some(reference), evidence := Some(evidence), destinationTx := Some(|db.txns|));
      assert IncomingRow(id, after) == t && d.funds == Moved(db.funds, t) && d.txns == db.txns + [t];
      OnlyCashFundsHaveShifts(db, h.destination);
      UnbookedRest(db, t);
      SettleHandovers(db.handovers, db.txns, db.funds, id, after);
      ApproveEntries(db.entries, db.handovers, id, after);
      PostTotals(db, t);
      TotalUpdate(db.handovers, id, after, InTransit());
      RestIsEnough(d, db.handovers[id := after]);
    }
  }

  /** A handover row may change without a ledger row when what it must have posted is the same. */
  lemma HandoverRowKeeps(db: Db, id: Id, after: Handover)
    requires Inv(db) && id < |db.handovers|
    requires HandoverOk(after, id, db.txns, db.funds) && after.destination == db.handovers[id].destination
    requires after.bankRef == db.handovers[id].bankRef
             || (after.bankRef.Some? && !ReferenceTaken(db.handovers, id, after.destination, after.bankRef.value))
    requires after.settlement == db.handovers[id].settlement != Settled && after.transfer == db.handovers[id].transfer
    ensures Inv(db.(handovers := db.handovers[id := after]))
  {
    TotalUpdate(db.handovers, id, after, InTransit());
    ApproveEntries(db.entries, db.handovers, id, after);
    RestIsEnough(db, db.handovers[id := after]);
  }

  lemma NewHandover(handovers: seq<Handover>, txns: seq<CashTx>, funds: seq<Fund>, h: Handover)
    requires HandoversOk(handovers, txns, funds) && HandoverOk(h, |handovers|, txns, funds) && h.bankRef == None
    ensures HandoversOk(handovers + [h], txns, funds)
  {
  }

  lemma NewHandoverKeeps(db: Db, h: Handover)
    requires Inv(db) && HandoverOk(h, |db.handovers|, db.txns, db.funds) && h.bankRef == None && h.settlement == NotRequired
    ensures Inv(db.(handovers := db.handovers + [h]))
  {
    var d := db.(handovers := db.handovers + [h]);
    NewHandover(db.handovers, db.txns, db.funds, h);
    TotalAppend(db.handovers, h, InTransit());
    assert EntriesOk(d.entries, d.handovers);
    assert forall s :: 0 <= s < |d.shifts| ==> Reconciled(d, s) == Reconciled(db, s);
  }

  /** A requested handover has posted nothing yet. */
  lemma RequestedIsOk(db: Db, employee: Employee, shift: Id, destination: Id, retained: Money)
    requires TxsOk(db.txns, db.shifts, |db.funds|, |db.invoices|, |db.refunds|, |db.handovers|)
    requires shift < |db.shifts| ==> ShiftOk(db.shifts[shift], shift, db)
    ensures var o := RequestHandover(db, employee, shift, destination, retained); var n := |db.handovers|;
            o.Ok? ==> o.db == db.(handovers := o.db.handovers) && |o.db.handovers| == n + 1
                      && o.db.handovers == db.handovers + [o.db.handovers[n]]
                      && HandoverOk(o.db.handovers[n], n, db.txns, db.funds)
                      && o.db.handovers[n].bankRef == None && o.db.handovers[n].settlement == NotRequired
  {
    TotalZero(db.txns, Tagged(Incoming(|db.handovers|)));
    TotalZero(db.txns, Tagged(Outgoing(|db.handovers|)));
  }

  lemma RequestHandoverKeeps(db: Db, employee: Employee, shift: Id, destination: Id, retained: Money)
    requires Inv(db)
    ensures Keeps(RequestHandover(db, employee, shift, destination, retained))
  {
    hide TxsOk, RefundsOk, FundsOk, InvoicesOk, ReversalsOk, HandoversOk, EntriesOk, Conserved, HandoverOk, RequestHandover, ShiftOk;
    RequestedIsOk(db, employee, shift, destination, retained);
    var o := RequestHandover(db, employee, shift, destination, retained);
    if o.Ok? {
      NewHandoverKeeps(db, o.db.handovers[|db.handovers|]);
    }
  }

  lemma DeclineHandoverKeeps(db: Db, id: Id, employee: Employee, status: RequestStatus)
    requires Inv(db)
    ensures Keeps(DeclineHandover(db, id, employee, status))
  {
    if DeclineHandover(db, id, employee, status).Ok? {
      assert HandoverOk(db.handovers[id], id, db.txns, db.funds);
      HandoverRowKeeps(db, id, db.handovers[id].(status := status));
    }
  }

  lemma RegisterDepositKeeps(db: Db, id: Id, employee: Employee, reference: string, evidence: string)
    requires Inv(db)
    ensures Keeps(RegisterDeposit(db, id, employee, reference, evidence))
  {
    if RegisterDeposit(db, id, employee, reference, evidence).Ok? {
      var h := db.handovers[id];
      assert HandoverOk(h, id, db.txns, db.funds);
      if h.bankRef == None {
        HandoverRowKeeps(db, id, h.(bankRef := Some(reference), evidence := Some(evidence)));
      }
    }
  }

  // ----- funds -----

  lemma FundAppendKeeps(db: Db, kind: FundType, opening: Money)
    requires Inv(db)
    ensures Keeps(CreateFund(db, kind, opening))
  {
    var d := CreateFund(db, kind, opening).db;
    var n := |db.funds|;
    TotalZero(db.txns, FlowOf(n));
    TotalAppend(db.funds, d.funds[n], Balance());
    TotalAppend(db.funds, d.funds[n], Opening());
    assert forall s :: 0 <= s < |d.shifts| ==> Reconciled(d, s) == Reconciled(db, s);
  }

  /** A fund may change its type or be deleted when no open shift and no unfinished handover uses it. */
  lemma FundRowKeeps(db: Db, f: Id, after: Fund)
    requires Inv(db) && f < |db.funds| && after.balance == db.funds[f].balance && after.opening == db.funds[f].opening
    requires after == db.funds[f] || (!FundHasOpenShift(db.shifts, f) && !HasUnfinishedHandover(db.handovers, f))
    ensures Inv(db.(funds := db.funds[f := after]))
  {
    var d := db.(funds := db.funds[f := after]);
    TotalUpdate(db.funds, f, after, Balance());
    TotalUpdate(db.funds, f, after, Opening());
    assert forall s :: 0 <= s < |d.shifts| ==> Reconciled(d, s) == Reconciled(db, s);
    FundRowHandovers(db.handovers, db.txns, db.funds, f, after);
  }

  lemma FundRowHandovers(handovers: seq<Handover>, txns: seq<CashTx>, funds: seq<Fund>, f: Id, after: Fund)
    requires HandoversOk(handovers, txns, funds) && f < |funds|
    requires after == funds[f] || !HasUnfinishedHandover(handovers, f)
    ensures HandoversOk(handovers, txns, funds[f := after])
  {
  }

  // ----- statement entries -----

  lemma EntriesChange(db: Db, entries: seq<Entry>)
    requires Inv(db) && EntriesOk(entries, db.handovers)
    ensures Inv(db.(entries := entries))
  {
    var d := db.(entries := entries);
    assert forall s :: 0 <= s < |d.shifts| ==> Reconciled(d, s) == Reconciled(db, s);
  }

  lemma RemarkKeeps(db: Db, id: Id, m: Match)
    requires Inv(db) && id < |db.entries| && !m.Matched?
    ensures Inv(Remark(db, id, m))
  {
    if OpenMatch(db.entries[id].matching) {
      EntriesChange(db, db.entries[id := db.entries[id].(matching := m)]);
    }
  }

  lemma LinkKeeps(db: Db, id: Id, h: Id)
    requires Inv(db) && id < |db.entries| && OpenMatch(db.entries[id].matching)
    requires EntryOk(db.entries[id].(matching := Matched(h)), db.handovers) && !MatchedElsewhere(db.entries, id, h)
    ensures Inv(Remark(db, id, Matched(h)))
  {
    EntriesChange(db, db.entries[id := db.entries[id].(matching := Matched(h))]);
  }

  lemma ReconcileEntryKeeps(db: Db, id: Id, employee: Employee)
    requires Inv(db)
    ensures Keeps(ReconcileEntry(db, id, employee))
  {
    if ReconcileEntry(db, id, employee).Ok? {
      var e := db.entries[id];
      if OpenMatch(e.matching) {
        RemarkKeeps(db, id, Unmatched);
        RemarkKeeps(db, id, Mismatch);
        if e.line.bankRef.Some? {
          var h := HandoverByReference(db.handovers, e.fund, e.line.bankRef.value);
          if h < |db.handovers| && !MatchedElsewhere(db.entries, id, h) && db.handovers[h].transfer == e.line.amount
             && db.handovers[h].evidence.Some? {
            if db.handovers[h].settlement == Settled {
              LinkKeeps(db, id, h);
            } else if db.handovers[h].settlement == AwaitingBank && db.handovers[h].status == Approved {
              SettleKeeps(db, h, employee, e.line.bankRef.value, db.handovers[h].evidence.value);
              LinkKeeps(Settle(db, h, employee, e.line.bankRef.value, db.handovers[h].evidence.value).db, id, h);
            }
          }
        }
      }
    }
  }
}
