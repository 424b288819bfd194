/** Refunds of online payments through the provider. A refund is claimed, sent to the provider once,
    and the answer may be a success, a definite refusal, something unclear, or never arrive; the
    provider meanwhile acts on its own. Each transaction and each action of the provider is one step. */
module ProviderRefunds {
  import opened Sums

  type Id = nat
  type Employee = nat

  const LOCK_TIMEOUT_MS := 10 * 60 * 1_000

  datatype PaymentStatus = Unpaid | Paid | Voided | PartiallyRefunded | Refunded
  datatype Invoice = Invoice(total: int, cash: bool, status: PaymentStatus)

  datatype Provider = Vnpay | Momo | PayOs
  datatype AttemptStatus = AttemptPending | AttemptSucceeded | AttemptFailed | AttemptExpired | AttemptInReview
  datatype Attempt = Attempt(invoice: Id, provider: Provider, amount: int, status: AttemptStatus, transactionNo: Option<string>)

  datatype RefundType = Full | Partial
  datatype RefundStatus = Pending | Processing | Succeeded | Failed | Rejected | RequiresReview

  /** The fields the request hash covers. */
  datatype Request = Request(attempt: Id, amount: int, reason: string)

  /** What the provider knows of a refund, whether or not it was ever able to say so. */
  datatype Truth = NeverSent | Undecided | PaidOut | Refused

  datatype Refund = Refund(kind: RefundType, request: Request, requestedBy: Employee, key: string, status: RefundStatus,
                           requestedAt: int, lockedAt: int, submissions: nat, truth: Truth)

  /** The fields of a provider response that are read. */
  datatype Response = Response(sameReference: bool, amount: int, kind: RefundType, responseCode: string, transactionStatus: string)

  /** A worker between claiming a refund and recording its outcome. */
  datatype Call = Sending | Answered(response: Response)

  /** `conflicts` counts the incidents "refund succeeded but invoice state could not be updated". */
  datatype Db = Db(invoices: seq<Invoice>, attempts: seq<Attempt>, refunds: seq<Refund>, calls: map<Id, Call>, conflicts: nat)

  const EMPTY: Db := Db([], [], [], map[], 0)

  datatype Error = NotFound | Conflict | Invalid
  datatype Created = Created(db: Db, refund: Id) | Failure(error: Error)

  predicate Reserving(s: RefundStatus) { s == Pending || s == Processing || s == Succeeded || s == RequiresReview }

  function ReservedOf(a: Id): Refund -> int {
    (r: Refund) => if r.request.attempt == a && Reserving(r.status) then r.request.amount else 0
  }

  function SucceededOf(a: Id): Refund -> int {
    (r: Refund) => if r.request.attempt == a && r.status == Succeeded then r.request.amount else 0
  }

  function PaidOutOf(a: Id): Refund -> int {
    (r: Refund) => if r.request.attempt == a && r.truth == PaidOut then r.request.amount else 0
  }

  predicate Refundable(s: PaymentStatus) { s == Paid || s == PartiallyRefunded }

  predicate Keyed(r: Refund, employee: Employee, key: string) { r.requestedBy == employee && r.key == key }

  /** The refund that already used this key, if there is one. */
  function FindKeyed(refunds: seq<Refund>, employee: Employee, key: string): (found: Option<Id>)
    ensures found.Some? ==> found.value < |refunds| && Keyed(refunds[found.value], employee, key)
    ensures found.None? ==> forall i :: 0 <= i < |refunds| ==> !Keyed(refunds[i], employee, key)
  {
    if refunds == [] then None
    else if Keyed(refunds[|refunds| - 1], employee, key) then Some(|refunds| - 1)
    else FindKeyed(refunds[..|refunds| - 1], employee, key)
  }

  /** The transaction of `createRefund`, which first looks for a replay. */
  function CreateRefund(db: Db, q: Request, employee: Employee, key: string, now: int): Created {
    var replay := FindKeyed(db.refunds, employee, key);
    if replay.Some? then
      if db.refunds[replay.value].request == q then Created(db, replay.value) else Failure(Conflict)
    else if q.attempt >= |db.attempts| then Failure(NotFound)
    else
      var a := db.attempts[q.attempt];
      if a.provider != Vnpay || a.status != AttemptSucceeded || a.transactionNo.None? then Failure(Conflict)
      else if a.invoice >= |db.invoices| || !Refundable(db.invoices[a.invoice].status) then Failure(Conflict)
      else
        var reserved := Total(db.refunds, ReservedOf(q.attempt));
        if q.amount > a.amount - reserved then Failure(Conflict)
        else if q.amount <= 0 then Failure(Invalid)
        else
          var kind := if reserved == 0 && q.amount == a.amount then Full else Partial;
          Created(db.(refunds := db.refunds + [Refund(kind, q, employee, key, Pending, now, 0, 0, NeverSent)]), |db.refunds|)
  }

  /** The compare-and-set at the start of `submitRefund`; the caller goes on to call the provider. */
  function Claim(db: Db, id: Id, now: int): Db {
    if id < |db.refunds| && db.refunds[id].status == Pending then
      var r := db.refunds[id];
      db.(refunds := db.refunds[id := r.(status := Processing, lockedAt := now, submissions := r.submissions + 1, truth := Undecided)],
          calls := db.calls[id := Sending])
    else db
  }

  /** The provider decides on its own time: also long after its answer was given up on. */
  function Decide(db: Db, id: Id, pays: bool): Db {
    if id < |db.refunds| && db.refunds[id].truth == Undecided then
      db.(refunds := db.refunds[id := db.refunds[id].(truth := if pays then PaidOut else Refused)])
    else db
  }

  const FAILURE_CODES: set<string> := {"02", "03", "04", "13", "91", "93", "95", "97"}

  function RefundOutcome(responseCode: string, transactionStatus: string): RefundStatus {
    if responseCode == "00" && transactionStatus == "00" then Succeeded
    else if responseCode == "00" && transactionStatus == "09" then Rejected
    else if responseCode == "00" && transactionStatus == "02" then Failed
    else if responseCode in FAILURE_CODES then Failed
    else RequiresReview
  }

  predicate Mismatch(r: Refund, p: Response) {
    !p.sameReference || p.amount != r.request.amount || p.kind != r.kind
  }

  function Outcome(r: Refund, p: Response): RefundStatus {
    if Mismatch(r, p) then RequiresReview else RefundOutcome(p.responseCode, p.transactionStatus)
  }

  /** The answer names this refund: its payment, its amount and its kind. */
  predicate AboutRefund(r: Refund, p: Response) {
    p.sameReference && p.amount == r.request.amount && p.kind == r.kind
  }

  /** What the codes mean to the provider that sends them: the money went back, or it did not and will not. */
  predicate SaysPaidOut(p: Response) { p.responseCode == "00" && p.transactionStatus == "00" }

  predicate SaysRefused(p: Response) {
    || (p.responseCode == "00" && (p.transactionStatus == "02" || p.transactionStatus == "09"))
    || p.responseCode in {"02", "03", "04", "13", "91", "93", "95", "97"}
  }

  /** The provider does not claim what is not so: a definite answer about this refund is true. */
  predicate Truthful(r: Refund, p: Response) {
    AboutRefund(r, p) ==> (SaysPaidOut(p) ==> r.truth == PaidOut) && (SaysRefused(p) ==> r.truth == Refused)
  }

  function Answer(db: Db, id: Id, p: Response): Db {
    if id in db.calls && db.calls[id].Sending? && id < |db.refunds| && Truthful(db.refunds[id], p)
    then db.(calls := db.calls[id := Answered(p)]) else db
  }

  function DropCall(db: Db, id: Id): Db { db.(calls := db.calls - {id}) }

  function SetStatus(db: Db, id: Id, s: RefundStatus): Db
    requires id < |db.refunds|
  {
    db.(refunds := db.refunds[id := db.refunds[id].(status := s, lockedAt := 0)])
  }

  /** Books a success: the refund first, then the invoice by what has succeeded so far. */
  function Complete(db: Db, id: Id): Db
    requires id < |db.refunds|
  {
    var d := SetStatus(db, id, Succeeded);
    var a := db.refunds[id].request.attempt;
    if a < |d.attempts| && d.attempts[a].invoice < |d.invoices| && Refundable(d.invoices[d.attempts[a].invoice].status) then
      var i := d.attempts[a].invoice;
      var target := if Total(d.refunds, SucceededOf(a)) >= d.attempts[a].amount then Refunded else PartiallyRefunded;
      d.(invoices := d.invoices[i := d.invoices[i].(status := target)])
    else d.(conflicts := d.conflicts + 1)
  }

  /** The transaction of `applyProviderResponse`; it does not look at the refund's present status. */
  function ApplyResponse(db: Db, id: Id): Db {
    if id in db.calls && db.calls[id].Answered? && id < |db.refunds| then
      var s := Outcome(db.refunds[id], db.calls[id].response);
      DropCall(if s == Succeeded then Complete(db, id) else SetStatus(db, id, s), id)
    else db
  }

  /** The transaction of `markProviderUncertain`, after the provider call threw. */
  function MarkUncertain(db: Db, id: Id): Db {
    if id in db.calls && db.calls[id].Sending? && id < |db.refunds| then DropCall(SetStatus(db, id, RequiresReview), id) else db
  }

  /** One round of `recoverAbandonedRefunds`; the worker may still be running. */
  function GiveUp(db: Db, id: Id, now: int): Db {
    if id < |db.refunds| && db.refunds[id].status == Processing && db.refunds[id].lockedAt < now - LOCK_TIMEOUT_MS
    then SetStatus(db, id, RequiresReview) else db
  }

  /** A confirmed payment pays its unpaid invoice and succeeds in one transaction. */
  function ConfirmPayment(db: Db, a: Id, transactionNo: string): Db {
    if a < |db.attempts| && db.attempts[a].status != AttemptSucceeded && db.attempts[a].invoice < |db.invoices|
       && db.invoices[db.attempts[a].invoice].status == Unpaid then
      var i := db.attempts[a].invoice;
      db.(invoices := db.invoices[i := db.invoices[i].(status := Paid, cash := false)],
          attempts := db.attempts[a := db.attempts[a].(status := AttemptSucceeded, transactionNo := Some(transactionNo))])
    else db
  }

  datatype Event =
    | Invoiced(total: int)
    | PaidAtDesk(invoice: Id, cash: bool)
    | InvoiceVoided(invoice: Id)
    | CashRefunded(invoice: Id, all: bool)
    | AttemptCreated(invoice: Id, provider: Provider)
    | AttemptClosed(attempt: Id, status: AttemptStatus)
    | PaymentConfirmed(attempt: Id, transactionNo: string)
    | RefundCreated(request: Request, employee: Employee, key: string, now: int)
    | RefundClaimed(id: Id, now: int)
    | ProviderDecided(id: Id, pays: bool)
    | ProviderAnswered(id: Id, response: Response)
    | ResponseApplied(id: Id)
    | MarkedUncertain(id: Id)
    | WorkerLost(id: Id)
    | GivenUp(id: Id, now: int)

  function SetInvoice(db: Db, i: Id, from: set<PaymentStatus>, to: PaymentStatus, cash: bool): Db {
    if i < |db.invoices| && db.invoices[i].status in from
    then db.(invoices := db.invoices[i := db.invoices[i].(status := to, cash := cash)]) else db
  }

  function Step(db: Db, e: Event): Db {
    match e
    case Invoiced(total) => db.(invoices := db.invoices + [Invoice(total, false, Unpaid)])
    case PaidAtDesk(i, cash) => SetInvoice(db, i, {Unpaid}, Paid, cash)
    case InvoiceVoided(i) => if i < |db.invoices| then SetInvoice(db, i, {Unpaid}, Voided, db.invoices[i].cash) else db
    case CashRefunded(i, all) =>
      if i < |db.invoices| && db.invoices[i].cash
      then SetInvoice(db, i, {Paid, PartiallyRefunded}, if all then Refunded else PartiallyRefunded, true) else db
    case AttemptCreated(i, provider) =>
      if i < |db.invoices| && db.invoices[i].status == Unpaid && db.invoices[i].total > 0
      then db.(attempts := db.attempts + [Attempt(i, provider, db.invoices[i].total, AttemptPending, None)]) else db
    case AttemptClosed(a, status) =>
      if a < |db.attempts| && db.attempts[a].status != AttemptSucceeded && status != AttemptSucceeded
      then db.(attempts := db.attempts[a := db.attempts[a].(status := status)]) else db
    case PaymentConfirmed(a, transactionNo) => ConfirmPayment(db, a, transactionNo)
    case RefundCreated(q, employee, key, now) =>
      var o := CreateRefund(db, q, employee, key, now);
      if o.Created? then o.db else db
    case RefundClaimed(id, now) => Claim(db, id, now)
    case ProviderDecided(id, pays) => Decide(db, id, pays)
    case ProviderAnswered(id, p) => Answer(db, id, p)
    case ResponseApplied(id) => ApplyResponse(db, id)
    case MarkedUncertain(id) => MarkUncertain(db, id)
    case WorkerLost(id) => DropCall(db, id)
    case GivenUp(id, now) => GiveUp(db, id, now)
  }

  function Run(db: Db, events: seq<Event>): Db {
    if events == [] then db else Step(Run(db, events[..|events| - 1]), events[|events| - 1])
  }

  // ----- invariant -----

  /** A refund is sent exactly when it leaves PENDING, once; a definite status is the provider's truth;
      it is FULL exactly when it asks for the whole attempt. */
  predicate RefundOk(r: Refund, attempts: seq<Attempt>) {
    && r.request.amount > 0 && r.request.attempt < |attempts|
    && attempts[r.request.attempt].status == AttemptSucceeded
    && (r.kind == Full <==> r.request.amount == attempts[r.request.attempt].amount)
    && r.submissions == (if r.status == Pending then 0 else 1) && (r.truth == NeverSent <==> r.status == Pending)
    && (r.status == Succeeded ==> r.truth == PaidOut)
    && (r.status == Failed || r.status == Rejected ==> r.truth == Refused)
  }

  predicate CallOk(id: Id, c: Call, refunds: seq<Refund>) {
    && id < |refunds| && (refunds[id].status == Processing || refunds[id].status == RequiresReview)
    && (c.Answered? ==> Truthful(refunds[id], c.response))
  }

  function StatusAfter(succeeded: int, amount: int): PaymentStatus {
    if succeeded == 0 then Paid else if succeeded >= amount then Refunded else PartiallyRefunded
  }

  /** A succeeded attempt paid its invoice, whose status says how much of it was refunded. */
  predicate AttemptOk(a: Id, t: Attempt, invoices: seq<Invoice>, refunds: seq<Refund>) {
    && t.invoice < |invoices| && t.amount == invoices[t.invoice].total > 0
    && 0 <= Total(refunds, SucceededOf(a)) && Total(refunds, ReservedOf(a)) <= t.amount
    && (t.status == AttemptSucceeded ==> !invoices[t.invoice].cash && invoices[t.invoice].status == StatusAfter(Total(refunds, SucceededOf(a)), t.amount))
    && (t.status != AttemptSucceeded ==> Total(refunds, SucceededOf(a)) == 0)
  }

  predicate RefundsOk(refunds: seq<Refund>, attempts: seq<Attempt>) {
    forall i :: 0 <= i < |refunds| ==> RefundOk(refunds[i], attempts)
  }

  predicate CallsOk(calls: map<Id, Call>, refunds: seq<Refund>) {
    forall id :: id in calls ==> CallOk(id, calls[id], refunds)
  }

  predicate AttemptsOk(attempts: seq<Attempt>, invoices: seq<Invoice>, refunds: seq<Refund>) {
    forall a :: 0 <= a < |attempts| ==> AttemptOk(a, attempts[a], invoices, refunds)
  }

  predicate OnePayment(attempts: seq<Attempt>) {
    forall a, b :: 0 <= a < b < |attempts| && attempts[a].invoice == attempts[b].invoice ==>
      attempts[a].status != AttemptSucceeded || attempts[b].status != AttemptSucceeded
  }

  predicate KeysOk(refunds: seq<Refund>) {
    forall i, j :: 0 <= i < |refunds| && 0 <= j < |refunds| && i != j ==>
      !(refunds[i].requestedBy == refunds[j].requestedBy && refunds[i].key == refunds[j].key)
  }

  predicate Inv(db: Db) {
    && RefundsOk(db.refunds, db.attempts) && CallsOk(db.calls, db.refunds)
    && AttemptsOk(db.attempts, db.invoices, db.refunds)
    && OnePayment(db.attempts) && KeysOk(db.refunds) && db.conflicts == 0
  }

  // ----- the steps keep it -----

  lemma TotalsAfter(refunds: seq<Refund>, id: Id, r: Refund, a: Id)
    requires id < |refunds| && r.request == refunds[id].request
    ensures Total(refunds[id := r], ReservedOf(a)) == Total(refunds, ReservedOf(a)) - ReservedOf(a)(refunds[id]) + ReservedOf(a)(r)
    ensures Total(refunds[id := r], SucceededOf(a)) == Total(refunds, SucceededOf(a)) - SucceededOf(a)(refunds[id]) + SucceededOf(a)(r)
  {
    TotalUpdate(refunds, id, r, ReservedOf(a));
    TotalUpdate(refunds, id, r, SucceededOf(a));
  }

  /** A refund row may change without touching the attempts if what has succeeded stays the same and
      no more is reserved. */
  lemma AttemptsStayOk(attempts: seq<Attempt>, invoices: seq<Invoice>, refunds: seq<Refund>, id: Id, r: Refund)
    requires AttemptsOk(attempts, invoices, refunds) && id < |refunds| && r.request == refunds[id].request && r.request.amount > 0
    requires (r.status == Succeeded <==> refunds[id].status == Succeeded) && (Reserving(r.status) ==> Reserving(refunds[id].status))
    ensures AttemptsOk(attempts, invoices, refunds[id := r])
  {
    forall a | 0 <= a < |attempts| ensures AttemptOk(a, attempts[a], invoices, refunds[id := r]) {
      TotalsAfter(refunds, id, r, a);
    }
  }

  lemma TablesStayOk(refunds: seq<Refund>, attempts: seq<Attempt>, id: Id, r: Refund)
    requires RefundsOk(refunds, attempts) && KeysOk(refunds) && id < |refunds| && RefundOk(r, attempts)
    requires r.requestedBy == refunds[id].requestedBy && r.key == refunds[id].key
    ensures RefundsOk(refunds[id := r], attempts) && KeysOk(refunds[id := r])
  {
  }

  lemma OthersCallsStayOk(calls: map<Id, Call>, refunds: seq<Refund>, id: Id, r: Refund)
    requires CallsOk(calls, refunds) && id < |refunds|
    ensures CallsOk(calls - {id}, refunds[id := r])
  {
  }

  lemma CallsStayOk(calls: map<Id, Call>, refunds: seq<Refund>, id: Id, r: Refund)
    requires CallsOk(calls, refunds) && id < |refunds| && (id in calls ==> CallOk(id, calls[id], refunds[id := r]))
    ensures CallsOk(calls, refunds[id := r])
  {
    forall k | k in calls ensures CallOk(k, calls[k], refunds[id := r]) {
      assert CallOk(k, calls[k], refunds);
    }
  }

  lemma ClaimKeeps(db: Db, id: Id, now: int)
    requires Inv(db)
    ensures Inv(Claim(db, id, now))
  {
    var d := Claim(db, id, now);
    if d != db {
      AttemptsStayOk(db.attempts, db.invoices, db.refunds, id, d.refunds[id]);
      TablesStayOk(db.refunds, db.attempts, id, d.refunds[id]);
      OthersCallsStayOk(db.calls, db.refunds, id, d.refunds[id]);
      hide AttemptsOk, RefundsOk, KeysOk;
      assert forall k :: k in d.calls && k != id ==> k in db.calls - {id} && d.calls[k] == (db.calls - {id})[k];
    }
  }

  lemma DecideKeeps(db: Db, id: Id, pays: bool)
    requires Inv(db)
    ensures Inv(Decide(db, id, pays))
  {
    var d := Decide(db, id, pays);
    if d != db {
      var r := d.refunds[id];
      assert RefundOk(db.refunds[id], db.attempts);
      AttemptsStayOk(db.attempts, db.invoices, db.refunds, id, r);
      TablesStayOk(db.refunds, db.attempts, id, r);
      hide AttemptsOk, RefundsOk, KeysOk;
      if id in db.calls {
        assert CallOk(id, db.calls[id], db.refunds);
      }
      CallsStayOk(db.calls, db.refunds, id, r);
    }
  }

  lemma SetStatusKeeps(db: Db, id: Id, s: RefundStatus)
    requires Inv(db) && id < |db.refunds| && (db.refunds[id].status == Processing || db.refunds[id].status == RequiresReview)
    requires s == RequiresReview || (db.refunds[id].truth == Refused && (s == Failed || s == Rejected))
    ensures s == RequiresReview ==> Inv(SetStatus(db, id, s))
    ensures Inv(DropCall(SetStatus(db, id, s), id))
  {
    var r := SetStatus(db, id, s).refunds[id];
    assert RefundOk(db.refunds[id], db.attempts);
    AttemptsStayOk(db.attempts, db.invoices, db.refunds, id, r);
    TablesStayOk(db.refunds, db.attempts, id, r);
    OthersCallsStayOk(db.calls, db.refunds, id, r);
    hide AttemptsOk, RefundsOk, KeysOk;
    if s == RequiresReview {
      if id in db.calls {
        assert CallOk(id, db.calls[id], db.refunds);
      }
      CallsStayOk(db.calls, db.refunds, id, r);
    }
  }

  lemma SucceededWithinReserved(refunds: seq<Refund>, attempts: seq<Attempt>, a: Id)
    requires RefundsOk(refunds, attempts)
    ensures Total(refunds, SucceededOf(a)) <= Total(refunds, ReservedOf(a))
  {
    TotalAtMost(refunds, SucceededOf(a), ReservedOf(a));
  }

  lemma CompleteKeepsAttempts(db: Db, id: Id)
    requires Inv(db) && id < |db.refunds| && (db.refunds[id].status == Processing || db.refunds[id].status == RequiresReview)
    requires RefundsOk(SetStatus(db, id, Succeeded).refunds, db.attempts)
    ensures var c := Complete(db, id); AttemptsOk(c.attempts, c.invoices, c.refunds) && c.conflicts == 0
  {
    var d := SetStatus(db, id, Succeeded);
    var a := db.refunds[id].request.attempt;
    assert RefundOk(db.refunds[id], db.attempts) && AttemptOk(a, db.attempts[a], db.invoices, db.refunds);
    SucceededWithinReserved(d.refunds, d.attempts, a);
    hide RefundsOk, KeysOk, CallsOk;
    TotalsAfter(db.refunds, id, d.refunds[id], a);
    var c := Complete(db, id);
    forall b | 0 <= b < |c.attempts| ensures AttemptOk(b, c.attempts[b], c.invoices, c.refunds) {
      assert AttemptOk(b, db.attempts[b], db.invoices, db.refunds);
      TotalsAfter(db.refunds, id, d.refunds[id], b);
    }
  }

  /** When a refund succeeds its invoice can be updated, and the new status is the right one. */
  lemma CompleteKeeps(db: Db, id: Id)
    requires Inv(db) && id < |db.refunds| && (db.refunds[id].status == Processing || db.refunds[id].status == RequiresReview)
    requires db.refunds[id].truth == PaidOut
    ensures Inv(DropCall(Complete(db, id), id))
  {
    var r := SetStatus(db, id, Succeeded).refunds[id];
    assert RefundOk(db.refunds[id], db.attempts);
    TablesStayOk(db.refunds, db.attempts, id, r);
    OthersCallsStayOk(db.calls, db.refunds, id, r);
    CompleteKeepsAttempts(db, id);
    hide AttemptsOk, RefundsOk, KeysOk, CallsOk;
  }

  lemma ApplyResponseKeeps(db: Db, id: Id)
    requires Inv(db)
    ensures Inv(ApplyResponse(db, id))
  {
    if id in db.calls && db.calls[id].Answered? {
      assert CallOk(id, db.calls[id], db.refunds);
      var s := Outcome(db.refunds[id], db.calls[id].response);
      if s == Succeeded {
        CompleteKeeps(db, id);
      } else {
        SetStatusKeeps(db, id, s);
      }
    }
  }

  lemma GiveUpKeeps(db: Db, id: Id, now: int)
    requires Inv(db)
    ensures Inv(GiveUp(db, id, now)) && Inv(MarkUncertain(db, id))
  {
    if id < |db.refunds| && db.refunds[id].status == Processing {
      SetStatusKeeps(db, id, RequiresReview);
    }
    if id in db.calls {
      assert CallOk(id, db.calls[id], db.refunds);
      SetStatusKeeps(db, id, RequiresReview);
    }
  }

  lemma AttemptsAfterCreation(db: Db, r: Refund)
    requires AttemptsOk(db.attempts, db.invoices, db.refunds) && r.status == Pending
    requires r.request.attempt < |db.attempts|
    requires Total(db.refunds, ReservedOf(r.request.attempt)) + r.request.amount <= db.attempts[r.request.attempt].amount
    ensures AttemptsOk(db.attempts, db.invoices, db.refunds + [r])
  {
    forall a | 0 <= a < |db.attempts| ensures AttemptOk(a, db.attempts[a], db.invoices, db.refunds + [r]) {
      assert AttemptOk(a, db.attempts[a], db.invoices, db.refunds);
      TotalAppend(db.refunds, r, ReservedOf(a));
      TotalAppend(db.refunds, r, SucceededOf(a));
    }
  }

  lemma TablesAfterCreation(db: Db, r: Refund)
    requires RefundsOk(db.refunds, db.attempts) && KeysOk(db.refunds) && CallsOk(db.calls, db.refunds) && RefundOk(r, db.attempts)
    requires forall i :: 0 <= i < |db.refunds| ==> !Keyed(db.refunds[i], r.requestedBy, r.key)
    ensures RefundsOk(db.refunds + [r], db.attempts) && KeysOk(db.refunds + [r]) && CallsOk(db.calls, db.refunds + [r])
  {
    forall k | k in db.calls ensures CallOk(k, db.calls[k], db.refunds + [r]) {
      assert CallOk(k, db.calls[k], db.refunds);
    }
  }

  lemma CreateRefundKeeps(db: Db, q: Request, employee: Employee, key: string, now: int)
    requires Inv(db)
    ensures CreateRefund(db, q, employee, key, now).Created? ==> Inv(CreateRefund(db, q, employee, key, now).db)
  {
    var o := CreateRefund(db, q, employee, key, now);
    if o.Created? && o.refund == |db.refunds| {
      var r := o.db.refunds[o.refund];
      TotalNonNegative(db.refunds, ReservedOf(q.attempt)) by {
        assert forall i :: 0 <= i < |db.refunds| ==> RefundOk(db.refunds[i], db.attempts);
      }
      hide AttemptsOk, RefundsOk, KeysOk, CallsOk;
      AttemptsAfterCreation(db, r);
      TablesAfterCreation(db, r);
    }
  }

  lemma ConfirmPaymentKeeps(db: Db, a: Id, transactionNo: string)
    requires Inv(db)
    ensures Inv(ConfirmPayment(db, a, transactionNo))
  {
    var d := ConfirmPayment(db, a, transactionNo);
    if d != db {
      forall b | 0 <= b < |db.attempts| ensures AttemptOk(b, d.attempts[b], d.invoices, d.refunds) {
        assert AttemptOk(b, db.attempts[b], db.invoices, db.refunds);
      }
      assert AttemptOk(a, db.attempts[a], db.invoices, db.refunds);
    }
  }

  /** Invoices and attempts that no succeeded attempt is involved in may change freely. */
  lemma DeskKeeps(db: Db, e: Event)
    requires Inv(db)
    requires e.Invoiced? || e.PaidAtDesk? || e.InvoiceVoided? || e.CashRefunded? || e.AttemptClosed?
    ensures Inv(Step(db, e))
  {
    var d := Step(db, e);
    hide KeysOk, CallsOk;
    forall a | 0 <= a < |d.attempts| ensures AttemptOk(a, d.attempts[a], d.invoices, d.refunds) {
      assert AttemptOk(a, db.attempts[a], db.invoices, db.refunds);
    }
  }

  lemma AttemptCreatedKeeps(db: Db, e: Event)
    requires Inv(db) && e.AttemptCreated?
    ensures Inv(Step(db, e))
  {
    var a := |db.attempts|;
    TotalZero(db.refunds, ReservedOf(a));
    TotalZero(db.refunds, SucceededOf(a));
    hide KeysOk, CallsOk;
  }

  lemma StepKeeps(db: Db, e: Event)
    requires Inv(db)
    ensures Inv(Step(db, e))
  {
    match e
    case RefundCreated(q, employee, key, now) => CreateRefundKeeps(db, q, employee, key, now);
    case RefundClaimed(id, now) => ClaimKeeps(db, id, now);
    case ProviderDecided(id, pays) => DecideKeeps(db, id, pays);
    case ProviderAnswered(id, p) =>
    case ResponseApplied(id) => ApplyResponseKeeps(db, id);
    case MarkedUncertain(id) => GiveUpKeeps(db, id, 0);
    case WorkerLost(id) =>
    case GivenUp(id, now) => GiveUpKeeps(db, id, now);
    case PaymentConfirmed(a, transactionNo) => ConfirmPaymentKeeps(db, a, transactionNo);
    case AttemptCreated(_, _) => AttemptCreatedKeeps(db, e);
    case _ => DeskKeeps(db, e);
  }

  lemma {:induction false} RunKeeps(db: Db, events: seq<Event>)
    requires Inv(db)
    ensures Inv(Run(db, events))
  {
    if events != [] {
      RunKeeps(db, events[..|events| - 1]);
      StepKeeps(Run(db, events[..|events| - 1]), events[|events| - 1]);
    }
  }

  // ----- theorems -----

  ghost predicate Reachable(db: Db) {
    exists events :: db == Run(EMPTY, events)
  }

  lemma ReachableInv(db: Db)
    requires Reachable(db)
    ensures Inv(db)
  {
    var events :| db == Run(EMPTY, events);
    RunKeeps(EMPTY, events);
  }

  lemma Sandwich(db: Db, a: Id)
    requires Inv(db)
    ensures 0 <= Total(db.refunds, SucceededOf(a)) <= Total(db.refunds, PaidOutOf(a)) <= Total(db.refunds, ReservedOf(a))
    ensures a < |db.attempts| ==> Total(db.refunds, ReservedOf(a)) <= db.attempts[a].amount
  {
    assert forall i :: 0 <= i < |db.refunds| ==> RefundOk(db.refunds[i], db.attempts);
    TotalNonNegative(db.refunds, SucceededOf(a));
    TotalAtMost(db.refunds, SucceededOf(a), PaidOutOf(a));
    TotalAtMost(db.refunds, PaidOutOf(a), ReservedOf(a));
    if a < |db.attempts| {
      assert AttemptOk(a, db.attempts[a], db.invoices, db.refunds);
    }
  }

  /** Whatever the provider did in the cases where nobody heard of it: what it really paid out lies
      between what is booked as succeeded and what is reserved, and never exceeds the payment. */
  lemma RefundsNeverExceedThePayment(db: Db, a: Id)
    requires Reachable(db) && a < |db.attempts|
    ensures
      0 <= Total(db.refunds, SucceededOf(a)) <= Total(db.refunds, PaidOutOf(a))
      <= Total(db.refunds, ReservedOf(a)) <= db.attempts[a].amount
  {
    ReachableInv(db);
    Sandwich(db, a);
  }

  /** A refund reaches the provider once at most, and not at all while it is pending. */
  lemma EachRefundIsSubmittedOnce(db: Db, id: Id)
    requires Reachable(db) && id < |db.refunds|
    ensures var r := db.refunds[id];
            r.submissions <= 1 && (r.submissions == 0 <==> r.status == Pending) && (r.truth == PaidOut ==> r.submissions == 1)
  {
    ReachableInv(db);
    assert RefundOk(db.refunds[id], db.attempts);
  }

  /** No refund of this attempt may have been paid out without being known. */
  predicate NothingInDoubt(refunds: seq<Refund>, a: Id) {
    forall i :: 0 <= i < |refunds| && refunds[i].request.attempt == a ==>
      refunds[i].status != Processing && refunds[i].status != RequiresReview
  }

  /** The invoice of a succeeded attempt is REFUNDED exactly when the succeeded refunds reach the amount,
      PAID exactly when there are none, and once nothing is in doubt the same holds of the money that
      really went back. */
  lemma InvoiceTellsTheTruth(db: Db, a: Id)
    requires Reachable(db) && a < |db.attempts| && db.attempts[a].status == AttemptSucceeded
    ensures var t := db.attempts[a];
            && t.invoice < |db.invoices|
            && (db.invoices[t.invoice].status == Refunded <==> Total(db.refunds, SucceededOf(a)) == t.amount)
            && (db.invoices[t.invoice].status == Paid <==> Total(db.refunds, SucceededOf(a)) == 0)
            && (db.invoices[t.invoice].status in {Paid, PartiallyRefunded, Refunded})
            && (NothingInDoubt(db.refunds, a) ==> Total(db.refunds, PaidOutOf(a)) == Total(db.refunds, SucceededOf(a)))
  {
    ReachableInv(db);
    assert AttemptOk(a, db.attempts[a], db.invoices, db.refunds);
    Sandwich(db, a);
    if NothingInDoubt(db.refunds, a) {
      assert forall i :: 0 <= i < |db.refunds| ==> RefundOk(db.refunds[i], db.attempts);
      TotalSame(db.refunds, PaidOutOf(a), SucceededOf(a));
    }
  }

  /** The incident "refund succeeded but invoice state could not be updated" is never opened, and this
      needs no promise about the attempts: no invoice is ever paid by two of them. */
  lemma InvoiceStateConflictIsUnreachable(db: Db, a: Id, b: Id)
    requires Reachable(db)
    ensures
      && db.conflicts == 0
      && (a < b < |db.attempts| && db.attempts[a].invoice == db.attempts[b].invoice ==>
           !(db.attempts[a].status == AttemptSucceeded && db.attempts[b].status == AttemptSucceeded))
  {
    ReachableInv(db);
  }

  /** A refund sent to the provider as a full one is the only one that reserves anything. */
  lemma FullRefundIsAlone(db: Db, i: Id, j: Id)
    requires Reachable(db)
    requires var rs := db.refunds;
             i < |rs| && j < |rs| && i != j && rs[i].request.attempt == rs[j].request.attempt && rs[i].kind == Full
    requires Reserving(db.refunds[i].status)
    ensures !Reserving(db.refunds[j].status)
  {
    ReachableInv(db);
    var a := db.refunds[i].request.attempt;
    assert RefundOk(db.refunds[i], db.attempts) && RefundOk(db.refunds[j], db.attempts);
    assert AttemptOk(a, db.attempts[a], db.invoices, db.refunds);
    assert forall k :: 0 <= k < |db.refunds| ==> RefundOk(db.refunds[k], db.attempts);
    TotalTwo(db.refunds, ReservedOf(a), if i < j then i else j, if i < j then j else i);
  }

  predicate Definite(s: RefundStatus) { s == Succeeded || s == Failed || s == Rejected }

  /** What later steps leave alone: what was asked for and by whom, and a definite status; and a refund
      under review whose worker is gone stays under review, with its amount reserved. */
  predicate RowPersists(r: Refund, s: Refund, calledBefore: bool, calledAfter: bool) {
    && s.request == r.request && s.requestedBy == r.requestedBy && s.key == r.key && s.kind == r.kind
    && (Definite(r.status) ==> s.status == r.status)
    && (r.status == RequiresReview && !calledBefore ==> s.status == RequiresReview && !calledAfter)
  }

  predicate Persists(before: Db, after: Db) {
    && |before.refunds| <= |after.refunds|
    && forall i :: 0 <= i < |before.refunds| ==>
         RowPersists(before.refunds[i], after.refunds[i], i in before.calls, i in after.calls)
  }

  lemma AppliedPersists(db: Db, id: Id)
    requires CallsOk(db.calls, db.refunds)
    ensures Persists(db, ApplyResponse(db, id)) && Persists(db, MarkUncertain(db, id))
  {
    if id in db.calls {
      assert CallOk(id, db.calls[id], db.refunds);
    }
  }

  lemma RowStepsPersist(db: Db, id: Id, now: int, pays: bool, p: Response)
    ensures Persists(db, Claim(db, id, now)) && Persists(db, Decide(db, id, pays)) && Persists(db, GiveUp(db, id, now))
    ensures Persists(db, Answer(db, id, p)) && Persists(db, DropCall(db, id))
  {
  }

  lemma CreationPersists(db: Db, q: Request, employee: Employee, key: string, now: int)
    ensures Persists(db, Step(db, RefundCreated(q, employee, key, now)))
  {
  }

  lemma DeskPersists(db: Db, e: Event)
    requires Step(db, e).refunds == db.refunds && Step(db, e).calls == db.calls
    ensures Persists(db, Step(db, e))
  {
  }

  lemma StepPersists(db: Db, e: Event)
    requires CallsOk(db.calls, db.refunds)
    ensures Persists(db, Step(db, e))
  {
    hide Persists, CallsOk;
    var p := Response(false, 0, Full, "", "");
    match e
    case RefundCreated(q, employee, key, now) => CreationPersists(db, q, employee, key, now);
    case RefundClaimed(id, now) => RowStepsPersist(db, id, now, false, p);
    case ProviderDecided(id, pays) => RowStepsPersist(db, id, 0, pays, p);
    case ProviderAnswered(id, response) => RowStepsPersist(db, id, 0, false, response);
    case ResponseApplied(id) => AppliedPersists(db, id);
    case MarkedUncertain(id) => AppliedPersists(db, id);
    case WorkerLost(id) => RowStepsPersist(db, id, 0, false, p);
    case GivenUp(id, now) => RowStepsPersist(db, id, now, false, p);
    case _ => DeskPersists(db, e);
  }

  lemma {:induction false} RunPersists(db: Db, events: seq<Event>)
    requires Inv(db)
    ensures Persists(db, Run(db, events))
  {
    if events != [] {
      RunPersists(db, events[..|events| - 1]);
      RunKeeps(db, events[..|events| - 1]);
      StepPersists(Run(db, events[..|events| - 1]), events[|events| - 1]);
    }
  }

  lemma FoundIsTheOnlyOne(refunds: seq<Refund>, i: Id)
    requires i < |refunds| && KeysOk(refunds)
    ensures FindKeyed(refunds, refunds[i].requestedBy, refunds[i].key) == Some(i)
  {
  }

  /** Asking again, at any later time, returns the refund of the first time and creates nothing; the same
      key with a different request is refused. */
  lemma RefundReplays(db: Db, q: Request, other: Request, employee: Employee, key: string, now: int, events: seq<Event>, later: int)
    requires Inv(db) && CreateRefund(db, q, employee, key, now).Created? && other != q
    ensures var o := CreateRefund(db, q, employee, key, now); var d := Run(o.db, events);
            && CreateRefund(d, q, employee, key, later) == Created(d, o.refund)
            && CreateRefund(d, other, employee, key, later) == Failure(Conflict)
  {
    var o := CreateRefund(db, q, employee, key, now);
    CreateRefundKeeps(db, q, employee, key, now);
    RunPersists(o.db, events);
    RunKeeps(o.db, events);
    FoundIsTheOnlyOne(Run(o.db, events).refunds, o.refund);
  }
}
