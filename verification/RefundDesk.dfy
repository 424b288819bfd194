/** The refund service as an object over its tables, tied to the steps of `ProviderRefunds`. */
module RefundDesk {
  import opened Sums
  import opened ProviderRefunds
  import opened RefundAnswers

  const RESUME_AFTER_MS := 60_000
  const RESUME_BATCH := 25

  /** How one call of the provider turned out; `decision` is what the provider did meanwhile, if it
      made up its mind. */
  datatype ProviderCall = Answers(decision: Option<bool>, response: Response) | Throws(decision: Option<bool>)

  function Decided(r: Refund, decision: Option<bool>): Refund {
    match decision
    case None => r
    case Some(pays) => r.(truth := if pays then PaidOut else Refused)
  }

  /** A definite answer is true. */
  predicate Honest(r: Refund, call: ProviderCall) {
    call.Answers? ==> Truthful(Decided(r.(truth := Undecided), call.decision), call.response)
  }

  /** The steps of one undisturbed `submitRefund`. */
  function SubmitSteps(db: Db, id: Id, now: int, call: ProviderCall): seq<Event> {
    if id >= |db.refunds| || db.refunds[id].status != Pending then []
    else
      [RefundClaimed(id, now)] + (if call.decision.Some? then [ProviderDecided(id, call.decision.value)] else []) +
      match call
      case Answers(_, p) => [ProviderAnswered(id, p), ResponseApplied(id)]
      case Throws(_) => [MarkedUncertain(id)]
  }

  /** The state after the provider has decided, or not yet. */
  function AfterDecision(db: Db, id: Id, decision: Option<bool>): Db {
    match decision
    case None => db
    case Some(pays) => Decide(db, id, pays)
  }

  lemma RunSubmit(db: Db, id: Id, now: int, call: ProviderCall)
    requires id < |db.refunds| && db.refunds[id].status == Pending
    ensures var d := AfterDecision(Claim(db, id, now), id, call.decision);
            Run(db, SubmitSteps(db, id, now, call)) ==
              match call
              case Answers(_, p) => ApplyResponse(Answer(d, id, p), id)
              case Throws(_) => MarkUncertain(d, id)
  {
    hide Claim, Decide, Answer, ApplyResponse, MarkUncertain;
    var es := SubmitSteps(db, id, now, call);
    assert Run(db, es[..0]) == db;
    assert forall k :: 0 <= k < |es| ==> es[..k + 1][..k] == es[..k];
    assert Run(db, es[..1]) == Step(Run(db, es[..0]), es[0]);
    assert Run(db, es[..2]) == Step(Run(db, es[..1]), es[1]);
    if |es| >= 3 {
      assert Run(db, es[..3]) == Step(Run(db, es[..2]), es[2]);
    }
    if |es| >= 4 {
      assert Run(db, es[..4]) == Step(Run(db, es[..3]), es[3]);
    }
    assert es[..|es|] == es;
  }

  lemma NothingRun(db: Db)
    ensures Run(db, []) == db
  {
  }

  lemma {:induction false} RunConcat(db: Db, s: seq<Event>, t: seq<Event>)
    ensures Run(db, s + t) == Run(Run(db, s), t)
  {
    if t == [] {
      assert s + t == s;
    } else {
      RunConcat(db, s, t[..|t| - 1]);
      assert (s + t)[..|s + t| - 1] == s + t[..|t| - 1];
    }
  }

  predicate Sent(before: Refund, after: Refund) {
    after.status != Pending && after.submissions == before.submissions + 1
  }

  /** Only the submitted refund changes; it is no longer pending and was sent once more. */
  predicate OnlySubmitted(before: seq<Refund>, after: seq<Refund>, id: Id)
    requires id < |before|
  {
    && |after| == |before| && (forall k :: 0 <= k < |before| && k != id ==> after[k] == before[k])
    && Sent(before[id], after[id])
  }

  lemma BookingIsFinal(db: Db, id: Id)
    requires id < |db.refunds| && db.refunds[id].status == Processing
    ensures var d := ApplyResponse(db, id);
            && id < |d.refunds| && d.refunds == db.refunds[id := d.refunds[id]] && d.refunds[id].status != Pending
            && d.refunds[id].submissions == db.refunds[id].submissions
  {
  }

  lemma SubmitEffect(db: Db, id: Id, now: int, call: ProviderCall)
    requires id < |db.refunds| && db.refunds[id].status == Pending
    ensures OnlySubmitted(db.refunds, Run(db, SubmitSteps(db, id, now, call)).refunds, id)
  {
    hide Run, SubmitSteps, Truthful, ApplyResponse;
    RunSubmit(db, id, now, call);
    var d := AfterDecision(Claim(db, id, now), id, call.decision);
    if call.Answers? {
      BookingIsFinal(Answer(d, id, call.response), id);
    }
  }

  /** What one booking does: the refund leaves the worker's hands with a status that says whether its amount
      has gone back, is free again or stays reserved; the sums of every attempt follow; no other refund changes. */
  ghost predicate Booked(before: Db, after: Db, id: Id) {
    && id < |before.refunds| == |after.refunds| && id !in after.calls && after.conflicts == before.conflicts
    && after.refunds == before.refunds[id := before.refunds[id].(status := after.refunds[id].status, lockedAt := 0)]
    && (Definite(after.refunds[id].status) || after.refunds[id].status == RequiresReview)
    && forall a :: SumsFollow(before.refunds, after.refunds, id, a)
  }

  predicate SumsFollow(before: seq<Refund>, after: seq<Refund>, id: Id, a: Id)
    requires id < |before| && id < |after|
  {
    var mine := if before[id].request.attempt == a then before[id].request.amount else 0;
    && Total(after, SucceededOf(a)) == Total(before, SucceededOf(a)) + (if after[id].status == Succeeded then mine else 0)
    && Total(after, ReservedOf(a)) == Total(before, ReservedOf(a)) - (if Reserving(after[id].status) then 0 else mine)
  }

  lemma StatusMovesSums(before: seq<Refund>, after: seq<Refund>, id: Id)
    requires id < |before| == |after| && after == before[id := after[id]] && after[id].request == before[id].request
    requires before[id].status == Processing || before[id].status == RequiresReview
    ensures forall a :: SumsFollow(before, after, id, a)
  {
    forall a
      ensures SumsFollow(before, after, id, a)
    {
      TotalsAfter(before, id, after[id], a);
    }
  }

  lemma ResponseIsBooked(db: Db, id: Id)
    requires Inv(db) && id in db.calls && db.calls[id].Answered?
    ensures var d := ApplyResponse(db, id); Inv(d) && Booked(db, d, id)
  {
    var d := ApplyResponse(db, id);
    ApplyResponseKeeps(db, id);
    assert CallOk(id, db.calls[id], db.refunds);
    StatusMovesSums(db.refunds, d.refunds, id);
  }

  lemma UncertaintyIsBooked(db: Db, id: Id)
    requires Inv(db) && id in db.calls && db.calls[id].Sending?
    ensures var d := MarkUncertain(db, id); Inv(d) && Booked(db, d, id)
  {
    var d := MarkUncertain(db, id);
    GiveUpKeeps(db, id, 0);
    assert CallOk(id, db.calls[id], db.refunds);
    StatusMovesSums(db.refunds, d.refunds, id);
  }

  /** A booked success shows on the invoice of the payment. */
  lemma SuccessShows(db: Db, id: Id)
    requires Inv(db) && id < |db.refunds| && db.refunds[id].status == Succeeded
    ensures var a := db.refunds[id].request.attempt;
            && a < |db.attempts| && db.attempts[a].invoice < |db.invoices| && db.refunds[id].truth == PaidOut
            && db.invoices[db.attempts[a].invoice].status ==
                 if Total(db.refunds, SucceededOf(a)) == db.attempts[a].amount then Refunded else PartiallyRefunded
  {
    var a := db.refunds[id].request.attempt;
    assert RefundOk(db.refunds[id], db.attempts);
    assert AttemptOk(a, db.attempts[a], db.invoices, db.refunds);
    assert forall i :: 0 <= i < |db.refunds| ==> RefundOk(db.refunds[i], db.attempts);
    TotalAtLeast(db.refunds, SucceededOf(a), id);
    SucceededWithinReserved(db.refunds, db.attempts, a);
  }

  /** Claiming a refund moves no money: what is reserved and what has succeeded stay as they were. */
  lemma ClaimMovesNothing(db: Db, id: Id, now: int)
    requires Inv(db)
    ensures Inv(Claim(db, id, now))
    ensures forall a :: Total(Claim(db, id, now).refunds, ReservedOf(a)) == Total(db.refunds, ReservedOf(a))
    ensures forall a :: Total(Claim(db, id, now).refunds, SucceededOf(a)) == Total(db.refunds, SucceededOf(a))
    ensures id < |db.refunds| && db.refunds[id].status == Pending ==> db.refunds[id].submissions == 0
  {
    ClaimKeeps(db, id, now);
    var d := Claim(db, id, now);
    if d != db {
      assert RefundOk(db.refunds[id], db.attempts);
      forall a
        ensures Total(d.refunds, ReservedOf(a)) == Total(db.refunds, ReservedOf(a)) && Total(d.refunds, SucceededOf(a)) == Total(db.refunds, SucceededOf(a))
      {
        TotalsAfter(db.refunds, id, d.refunds[id], a);
      }
    }
  }

  /** The order in which refunds are resumed: by the time they were requested, then by number. */
  predicate Earlier(refunds: seq<Refund>, i: Id, j: Id) {
    && i < |refunds| && j < |refunds|
    && (refunds[i].requestedAt < refunds[j].requestedAt || (refunds[i].requestedAt == refunds[j].requestedAt && i < j))
  }

  predicate InOrder(refunds: seq<Refund>, found: seq<Id>) {
    forall i, j :: 0 <= i < j < |found| ==> Earlier(refunds, found[i], found[j])
  }

  lemma AnsweredIsKnown(db: Db, id: Id)
    requires Inv(db)
    ensures id in db.calls ==> id < |db.refunds|
  {
  }

  predicate Resumable(r: Refund, now: int) {
    r.status == Pending && r.requestedAt < now - RESUME_AFTER_MS
  }

  class PaymentRefunds {
    var invoices: seq<Invoice>
    var attempts: seq<Attempt>
    var refunds: seq<Refund>
    var calls: map<Id, Call>
    var conflicts: nat

    constructor ()
      ensures Snapshot() == EMPTY
    {
      invoices, attempts, refunds, calls, conflicts := [], [], [], map[], 0;
    }

    function Snapshot(): Db
      reads this
    {
      Db(invoices, attempts, refunds, calls, conflicts)
    }

    method ReservedAmount(attempt: Id) returns (reserved: int)
      ensures reserved == Total(refunds, ReservedOf(attempt))
    {
      reserved := 0;
      for i := 0 to |refunds|
        invariant reserved == Total(refunds[..i], ReservedOf(attempt))
      {
        assert refunds[..i + 1] == refunds[..i] + [refunds[i]];
        TotalAppend(refunds[..i], refunds[i], ReservedOf(attempt));
        if refunds[i].request.attempt == attempt && Reserving(refunds[i].status) {
          reserved := reserved + refunds[i].request.amount;
        }
      }
      assert refunds[..|refunds|] == refunds;
    }

    /** Creates a refund within what the payment has left, or returns the one its key created before. */
    method CreateRefund(q: Request, employee: Employee, key: string, now: int) returns (o: Created)
      requires Inv(Snapshot())
      modifies `refunds
      ensures Inv(Snapshot()) && (o.Created? ==> o.refund < |refunds| && refunds[o.refund].request == q)
      ensures o == ProviderRefunds.CreateRefund(old(Snapshot()), q, employee, key, now)
      ensures Snapshot() == if o.Created? then o.db else old(Snapshot())
      ensures CreateSays(old(Snapshot()), o, q, employee, key, now)
    {
      hide Inv, CreateSays;
      CreateAnswers(Snapshot(), q, employee, key, now);
      CreateRefundKeeps(Snapshot(), q, employee, key, now);
      var replay := FindKeyed(refunds, employee, key);
      if replay.Some? {
        if refunds[replay.value].request != q {
          return Failure(Conflict);
        }
        return Created(Snapshot(), replay.value);
      }
      if q.attempt >= |attempts| {
        return Failure(NotFound);
      }
      var a := attempts[q.attempt];
      if a.provider != Vnpay || a.status != AttemptSucceeded || a.transactionNo.None? {
        return Failure(Conflict);
      }
      if a.invoice >= |invoices| || (invoices[a.invoice].status != Paid && invoices[a.invoice].status != PartiallyRefunded) {
        return Failure(Conflict);
      }
      var reserved := ReservedAmount(q.attempt);
      if q.amount > a.amount - reserved {
        return Failure(Conflict);
      }
      if q.amount <= 0 {
        return Failure(Invalid);
      }
      var kind := if reserved == 0 && q.amount == a.amount then Full else Partial;
      refunds := refunds + [Refund(kind, q, employee, key, Pending, now, 0, 0, NeverSent)];
      return Created(Snapshot(), |refunds| - 1);
    }

    /** Takes a pending refund for this worker alone: it was never sent before, nobody else can take it, and
        no money moves. */
    method ClaimRefund(id: Id, now: int) returns (claimed: bool)
      requires Inv(Snapshot())
      modifies `refunds, `calls
      ensures Snapshot() == Claim(old(Snapshot()), id, now) && Inv(Snapshot()) && ClaimSays(old(Snapshot()), Snapshot(), id, now)
      ensures claimed <==> id < |old(refunds)| && old(refunds)[id].status == Pending
      ensures claimed ==> id in calls && refunds[id].submissions == 1 && Claim(Snapshot(), id, now) == Snapshot()
      ensures !claimed ==> Snapshot() == old(Snapshot())
      ensures forall a :: Total(refunds, ReservedOf(a)) == Total(old(refunds), ReservedOf(a))
      ensures forall a :: Total(refunds, SucceededOf(a)) == Total(old(refunds), SucceededOf(a))
    {
      hide Inv, ClaimSays;
      ClaimAnswers(Snapshot(), id, now);
      ClaimMovesNothing(Snapshot(), id, now);
      claimed := id < |refunds| && refunds[id].status == Pending;
      if claimed {
        var r := refunds[id];
        refunds := refunds[id := r.(status := Processing, lockedAt := now, submissions := r.submissions + 1, truth := Undecided)];
        calls := calls[id := Sending];
      }
    }

    method CompleteSuccessfulRefund(id: Id)
      requires id < |refunds|
      modifies `refunds, `invoices, `conflicts
      ensures Snapshot() == Complete(old(Snapshot()), id)
    {
      refunds := refunds[id := refunds[id].(status := Succeeded, lockedAt := 0)];
      var a := refunds[id].request.attempt;
      var refunded := Total(refunds, SucceededOf(a));
      if a >= |attempts| || attempts[a].invoice >= |invoices| || !Refundable(invoices[attempts[a].invoice].status) {
        conflicts := conflicts + 1;
        return;
      }
      var i := attempts[a].invoice;
      invoices := invoices[i := invoices[i].(status := if refunded >= attempts[a].amount then Refunded else PartiallyRefunded)];
    }

    /** Books the provider's answer: the status is the one its codes mean, the sums follow, and a success has really been paid out, shows on the
        invoice and opens no incident. */
    method ApplyProviderResponse(id: Id)
      requires Inv(Snapshot())
      modifies `refunds, `invoices, `conflicts, `calls
      ensures Snapshot() == ApplyResponse(old(Snapshot()), id) && Inv(Snapshot())
      ensures id in old(calls) && old(calls)[id].Answered? ==>
                Booked(old(Snapshot()), Snapshot(), id) && ApplySays(old(Snapshot()), Snapshot(), id, old(calls)[id].response)
      ensures id in old(calls) && old(calls)[id].Answered? && refunds[id].status == Succeeded ==>
                var a := refunds[id].request.attempt;
                && a < |attempts| && attempts[a].invoice < |invoices| && refunds[id].truth == PaidOut
                && invoices[attempts[a].invoice].status == if Total(refunds, SucceededOf(a)) == attempts[a].amount then Refunded else PartiallyRefunded
    {
      hide Inv, Booked, ApplySays, Complete;
      ghost var booked := ApplyResponse(Snapshot(), id);
      ApplyResponseKeeps(Snapshot(), id);
      AnsweredIsKnown(Snapshot(), id);
      if id in calls && calls[id].Answered? {
        ResponseIsBooked(Snapshot(), id);
        ApplyAnswers(Snapshot(), id);
        if booked.refunds[id].status == Succeeded {
          SuccessShows(booked, id);
        }
      }
      if id !in calls || !calls[id].Answered? || id >= |refunds| {
        return;
      }
      var outcome := Outcome(refunds[id], calls[id].response);
      if outcome == Succeeded {
        CompleteSuccessfulRefund(id);
      } else {
        refunds := refunds[id := refunds[id].(status := outcome, lockedAt := 0)];
      }
      calls := calls - {id};
    }

    /** After a call that threw: the refund goes to review with its amount still reserved. */
    method MarkProviderUncertain(id: Id)
      requires Inv(Snapshot())
      modifies `refunds, `calls
      ensures Snapshot() == MarkUncertain(old(Snapshot()), id) && Inv(Snapshot())
      ensures id in old(calls) && old(calls)[id].Sending? ==> Booked(old(Snapshot()), Snapshot(), id) && refunds[id].status == RequiresReview
    {
      hide Inv, Booked;
      GiveUpKeeps(Snapshot(), id, 0);
      if id in calls && calls[id].Sending? {
        UncertaintyIsBooked(Snapshot(), id);
      }
      if id in calls && calls[id].Sending? && id < |refunds| {
        refunds := refunds[id := refunds[id].(status := RequiresReview, lockedAt := 0)];
        calls := calls - {id};
      }
    }

    /** What the provider does while it is called, and the answer that arrives. */
    method CallProvider(id: Id, call: ProviderCall)
      requires Inv(Snapshot()) && id < |refunds| && id in calls && calls[id].Sending? && refunds[id].truth == Undecided
      requires call.Answers? ==> Truthful(Decided(refunds[id], call.decision), call.response)
      modifies `refunds, `calls
      ensures Inv(Snapshot())
      ensures var d := AfterDecision(old(Snapshot()), id, call.decision);
              Snapshot() == if call.Answers? then Answer(d, id, call.response) else d
      ensures |refunds| == |old(refunds)| && refunds[id] == Decided(old(refunds)[id], call.decision)
      ensures id in calls && calls[id] == if call.Answers? then Answered(call.response) else Sending
    {
      hide Inv, Truthful;
      if call.decision.Some? {
        StepKeeps(Snapshot(), ProviderDecided(id, call.decision.value));
      }
      ghost var decided := AfterDecision(Snapshot(), id, call.decision);
      refunds := refunds[id := Decided(refunds[id], call.decision)];
      assert Snapshot() == decided;
      if call.Answers? {
        StepKeeps(decided, ProviderAnswered(id, call.response));
        calls := calls[id := Answered(call.response)];
      }
    }

    /** One undisturbed submission: claim, call the provider, record what came of it. The refund ends as the answer's
        codes say, and in review if none came. */
    method SubmitRefund(id: Id, now: int, call: ProviderCall)
      requires Inv(Snapshot()) && (id < |refunds| ==> Honest(refunds[id], call))
      modifies this
      ensures Inv(Snapshot()) && Snapshot() == Run(old(Snapshot()), SubmitSteps(old(Snapshot()), id, now, call))
      ensures id < |old(refunds)| && old(refunds)[id].status == Pending ==>
                && id < |refunds|
                && if call.Answers? then BookedAs(old(refunds)[id], call.response, refunds[id].status) else refunds[id].status == RequiresReview
    {
      hide Inv, Booked;
      ghost var before := Snapshot();
      assert Run(before, []) == before;
      var claimed := ClaimRefund(id, now);
      if !claimed {
        return;
      }
      RunSubmit(before, id, now, call);
      hide Run, SubmitSteps, Step, ApplyResponse, MarkUncertain, Answer, Truthful, Outcome, Complete;
      CallProvider(id, call);
      if call.Answers? {
        ApplyProviderResponse(id);
      } else {
        MarkProviderUncertain(id);
      }
    }

    /** The earliest refund that has been pending for a minute and is not among those found. */
    method EarliestResumable(now: int, found: seq<Id>) returns (next: Option<Id>)
      ensures next.Some? ==> next.value < |refunds| && Resumable(refunds[next.value], now) && next.value !in found
      ensures forall id: Id :: id < |refunds| && Resumable(refunds[id], now) && id !in found ==>
                next.Some? && (id == next.value || Earlier(refunds, next.value, id))
    {
      next := None;
      for id := 0 to |refunds|
        invariant next.Some? ==> next.value < id && Resumable(refunds[next.value], now) && next.value !in found
        invariant forall k: Id :: k < id && Resumable(refunds[k], now) && k !in found ==>
                    next.Some? && (k == next.value || Earlier(refunds, next.value, k))
      {
        if Resumable(refunds[id], now) && id !in found && (next.None? || refunds[id].requestedAt < refunds[next.value].requestedAt) {
          next := Some(id);
        }
      }
    }

    /** The earliest requested refunds that have been pending for a minute, in order, up to 25 of them. */
    method FindResumable(now: int) returns (found: seq<Id>)
      ensures |found| <= RESUME_BATCH && InOrder(refunds, found)
      ensures forall i :: 0 <= i < |found| ==> found[i] < |refunds| && Resumable(refunds[found[i]], now)
      ensures forall id: Id :: id < |refunds| && Resumable(refunds[id], now) && id !in found ==>
                |found| == RESUME_BATCH && forall k :: k in found ==> Earlier(refunds, k, id)
    {
      found := [];
      while |found| < RESUME_BATCH
        invariant |found| <= RESUME_BATCH && InOrder(refunds, found)
        invariant forall i :: 0 <= i < |found| ==> found[i] < |refunds| && Resumable(refunds[found[i]], now)
        invariant forall id: Id :: id < |refunds| && Resumable(refunds[id], now) && id !in found ==> forall k :: k in found ==> Earlier(refunds, k, id)
        decreases RESUME_BATCH - |found|
      {
        var next := EarliestResumable(now, found);
        if next.None? {
          break;
        }
        found := found + [next.value];
      }
    }

    /** Resumes each of them: afterwards none is pending, each was sent once, and no other refund changed. */
    method RecoverPendingRefunds(now: int, call: Id -> ProviderCall) returns (resumed: seq<Id>, ghost trace: seq<Event>)
      requires Inv(Snapshot()) && forall id: nat :: id < |refunds| ==> Honest(refunds[id], call(id))
      modifies this
      ensures Inv(Snapshot()) && Snapshot() == Run(old(Snapshot()), trace) && |refunds| == |old(refunds)| && InOrder(old(refunds), resumed)
      ensures forall i :: 0 <= i < |resumed| ==> resumed[i] < |refunds| && Resumable(old(refunds)[resumed[i]], now) && Sent(old(refunds)[resumed[i]], refunds[resumed[i]])
      ensures forall id :: 0 <= id < |refunds| && id !in resumed ==> refunds[id] == old(refunds)[id]
      ensures forall id: Id :: id < |refunds| && Resumable(refunds[id], now) ==>
                |resumed| == RESUME_BATCH && forall k :: k in resumed ==> Earlier(old(refunds), k, id)
    {
      hide Inv, Run, SubmitSteps, Honest;
      ghost var before := Snapshot();
      resumed := FindResumable(now);
      trace := [];
      NothingRun(before);
      for n := 0 to |resumed|
        invariant Inv(Snapshot()) && Snapshot() == Run(before, trace) && |refunds| == |before.refunds|
        invariant forall i :: 0 <= i < n ==> Sent(before.refunds[resumed[i]], refunds[resumed[i]])
        invariant forall id :: 0 <= id < |refunds| && id !in resumed[..n] ==> refunds[id] == before.refunds[id]
      {
        ghost var db := Snapshot();
        var id := resumed[n];
        assert id !in resumed[..n];
        SubmitEffect(db, id, now, call(id));
        RunConcat(before, trace, SubmitSteps(db, id, now, call(id)));
        SubmitRefund(id, now, call(id));
        trace := trace + SubmitSteps(db, id, now, call(id));
      }
      assert resumed[..|resumed|] == resumed;
    }
  }
}
