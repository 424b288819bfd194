/** When refunds are granted, how an answer of the provider is booked, and when a refund is given up: in terms of
    the rows and of the provider's literal codes. */
module RefundAnswers {
  import opened Sums
  import opened ProviderRefunds

  /** Everything asked back of a payment but what was definitely not paid out. */
  function NotTurnedDown(a: Id): Refund -> int {
    (r: Refund) => if r.request.attempt == a && r.status != Failed && r.status != Rejected then r.request.amount else 0
  }

  /** A confirmed payment through this provider, on an invoice that is paid and not yet refunded in full, that has
      this much left. */
  ghost predicate MayRefund(db: Db, q: Request) {
    && q.attempt < |db.attempts|
    && var t := db.attempts[q.attempt];
       && t.provider == Vnpay && t.status == AttemptSucceeded && t.transactionNo.Some?
       && t.invoice < |db.invoices| && (db.invoices[t.invoice].status == Paid || db.invoices[t.invoice].status == PartiallyRefunded)
       && 0 < q.amount && Total(db.refunds, NotTurnedDown(q.attempt)) + q.amount <= t.amount
  }

  predicate UsedBy(r: Refund, employee: Employee, key: string) { r.requestedBy == employee && r.key == key }

  /** A used key gets its refund again, or a conflict for any other request. A fresh one gets a pending refund
      exactly if it may, as a full one exactly if it is for the whole payment. */
  ghost predicate CreateSays(before: Db, o: Created, q: Request, employee: Employee, key: string, now: int) {
    var unused := forall i :: 0 <= i < |before.refunds| ==> !UsedBy(before.refunds[i], employee, key);
    && (forall i :: 0 <= i < |before.refunds| && UsedBy(before.refunds[i], employee, key) ==>
         o == if before.refunds[i].request == q then Created(before, i) else Failure(Conflict))
    && (unused ==>
         && (o.Created? <==> MayRefund(before, q))
         && (o == Failure(NotFound) <==> q.attempt >= |before.attempts|)
         && (o.Created? ==>
              && o.refund == |before.refunds|
              && o.db == before.(refunds := before.refunds +
                   [Refund(if q.amount == before.attempts[q.attempt].amount then Full else Partial, q, employee, key, Pending, now, 0, 0, NeverSent)])))
  }

  lemma ReservedIsNotTurnedDown(db: Db, a: Id)
    requires Inv(db)
    ensures Total(db.refunds, ReservedOf(a)) == Total(db.refunds, NotTurnedDown(a)) >= 0
  {
    assert forall i :: 0 <= i < |db.refunds| ==> RefundOk(db.refunds[i], db.attempts);
    TotalNonNegative(db.refunds, ReservedOf(a));
    TotalSame(db.refunds, ReservedOf(a), NotTurnedDown(a));
  }

  lemma UsedIsFound(db: Db, employee: Employee, key: string)
    requires Inv(db)
    ensures var found := FindKeyed(db.refunds, employee, key);
            && (forall i :: 0 <= i < |db.refunds| && UsedBy(db.refunds[i], employee, key) ==> found == Some(i))
            && (found.Some? ==> found.value < |db.refunds| && UsedBy(db.refunds[found.value], employee, key))
  {
    forall i | 0 <= i < |db.refunds| && UsedBy(db.refunds[i], employee, key)
      ensures FindKeyed(db.refunds, employee, key) == Some(i)
    {
      FoundIsTheOnlyOne(db.refunds, i);
    }
  }

  lemma CreateAnswers(db: Db, q: Request, employee: Employee, key: string, now: int)
    requires Inv(db)
    ensures CreateSays(db, CreateRefund(db, q, employee, key, now), q, employee, key, now)
  {
    hide Inv, Total, FindKeyed, UsedBy;
    ReservedIsNotTurnedDown(db, q.attempt);
    UsedIsFound(db, employee, key);
  }

  /** The status an answer leads to, code by code; an answer about something else leads nowhere but to a review. */
  predicate BookedAs(r: Refund, p: Response, s: RefundStatus) {
    if p.sameReference && p.amount == r.request.amount && p.kind == r.kind then
      && (s == Succeeded <==> p.responseCode == "00" && p.transactionStatus == "00")
      && (s == Rejected <==> p.responseCode == "00" && p.transactionStatus == "09")
      && (s == Failed <==> (p.responseCode == "00" && p.transactionStatus == "02")
                           || p.responseCode in {"02", "03", "04", "13", "91", "93", "95", "97"})
      && (s == Succeeded || s == Rejected || s == Failed || s == RequiresReview)
    else
      s == RequiresReview
  }

  /** Booking an answer changes the refund's status by its codes, and the invoice exactly if the refund succeeded. */
  ghost predicate ApplySays(before: Db, after: Db, id: Id, p: Response) {
    && id < |before.refunds| == |after.refunds|
    && var s := after.refunds[id].status;
       && BookedAs(before.refunds[id], p, s)
       && after == before.(invoices := after.invoices, refunds := before.refunds[id := before.refunds[id].(status := s, lockedAt := 0)], calls := before.calls - {id})
       && var a := before.refunds[id].request.attempt;
          && a < |before.attempts| && before.attempts[a].invoice < |before.invoices|
          && var i := before.attempts[a].invoice;
             after.invoices == if s != Succeeded then before.invoices
                               else before.invoices[i := before.invoices[i].(status :=
                                      if Total(after.refunds, SucceededOf(a)) == before.attempts[a].amount then Refunded else PartiallyRefunded)]
  }

  /** What is assumed of the provider is assumed of exactly the answers that are booked as definite. */
  lemma DefiniteIsMeant(r: Refund, p: Response)
    ensures Outcome(r, p) == Succeeded <==> AboutRefund(r, p) && SaysPaidOut(p)
    ensures Outcome(r, p) == Failed || Outcome(r, p) == Rejected <==> AboutRefund(r, p) && SaysRefused(p)
  {
  }

  lemma OutcomeIsBookedAs(r: Refund, p: Response)
    ensures BookedAs(r, p, Outcome(r, p))
  {
  }

  lemma ApplyAnswers(db: Db, id: Id)
    requires Inv(db) && id in db.calls && db.calls[id].Answered?
    ensures ApplySays(db, ApplyResponse(db, id), id, db.calls[id].response)
  {
    assert CallOk(id, db.calls[id], db.refunds) && RefundOk(db.refunds[id], db.attempts);
    var a := db.refunds[id].request.attempt;
    assert AttemptOk(a, db.attempts[a], db.invoices, db.refunds);
    OutcomeIsBookedAs(db.refunds[id], db.calls[id].response);
    var d := ApplyResponse(db, id);
    ApplyResponseKeeps(db, id);
    hide BookedAs, Outcome, Truthful;
    if d.refunds[id].status == Succeeded {
      assert AttemptOk(a, d.attempts[a], d.invoices, d.refunds);
      SucceededWithinReserved(d.refunds, d.attempts, a);
      hide Inv;
    }
  }

  /** A refund is claimed exactly if it is pending, and given up exactly if its worker has had it for more than ten
      minutes; it then awaits a review with its amount reserved. */
  ghost predicate ClaimSays(before: Db, after: Db, id: Id, now: int) {
    after == if id < |before.refunds| && before.refunds[id].status == Pending
             then before.(refunds := before.refunds[id := before.refunds[id].(status := Processing, lockedAt := now, submissions := 1, truth := Undecided)],
                          calls := before.calls[id := Sending])
             else before
  }

  lemma ClaimAnswers(db: Db, id: Id, now: int)
    requires Inv(db)
    ensures ClaimSays(db, Claim(db, id, now), id, now)
  {
    if id < |db.refunds| {
      assert RefundOk(db.refunds[id], db.attempts);
    }
  }

  lemma GiveUpAnswers(db: Db, id: Id, now: int)
    ensures var late := id < |db.refunds| && db.refunds[id].status == Processing && db.refunds[id].lockedAt + 600_000 < now;
            && GiveUp(db, id, now) == (if late then db.(refunds := db.refunds[id := db.refunds[id].(status := RequiresReview, lockedAt := 0)]) else db)
            && forall a :: Total(GiveUp(db, id, now).refunds, NotTurnedDown(a)) == Total(db.refunds, NotTurnedDown(a))
  {
    var d := GiveUp(db, id, now);
    if d != db {
      forall a
        ensures Total(d.refunds, NotTurnedDown(a)) == Total(db.refunds, NotTurnedDown(a))
      {
        hide Total;
        TotalUpdate(db.refunds, id, d.refunds[id], NotTurnedDown(a));
      }
    }
    hide Total;
  }

  /** A confirmation pays the invoice of the attempt exactly if it is unpaid; a late one finds it paid or void and
      changes nothing here. */
  lemma ConfirmAnswers(db: Db, a: Id, transactionNo: string)
    requires Inv(db) && a < |db.attempts|
    ensures var i := db.attempts[a].invoice;
            && i < |db.invoices|
            && ConfirmPayment(db, a, transactionNo) ==
                 if db.invoices[i].status == Unpaid then
                   db.(invoices := db.invoices[i := db.invoices[i].(status := Paid, cash := false)],
                       attempts := db.attempts[a := db.attempts[a].(status := AttemptSucceeded, transactionNo := Some(transactionNo))])
                 else db
  {
    assert AttemptOk(a, db.attempts[a], db.invoices, db.refunds);
    hide Inv, Total;
  }
}
