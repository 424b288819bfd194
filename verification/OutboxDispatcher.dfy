/** The dispatcher object: it claims due events in batches, hands them to the queue or delivers them
    itself, and gives back what it could not hand on. Each method is tied to the steps of `Outbox`. */
module OutboxDispatch {
  import opened Sums
  import opened Outbox
  import opened OutboxAnswers

  const BATCH_SIZE := 50
  const RECOVERY_INTERVAL_MS := 15_000

  /** How handing one event on turned out. With a queue: accepted, the previous job of the event still
      running, or refused. Without one: the outcome of the publish, or an error of the database before
      or after the delivery had claimed the row. */
  datatype Handover = Accepted | PreviousActive | Refused
                    | Delivered(result: Option<Trouble>) | FailedBeforeClaim | FailedAfterClaim

  predicate Due(rows: map<Id, Row>, id: Id, now: int) {
    id in rows && rows[id].status == Pending && rows[id].availableAt <= now
  }

  predicate Receivable(db: Db, id: Id, now: int) {
    id in db.rows && (db.rows[id].status == Enqueued || db.rows[id].status == Pending) && db.rows[id].availableAt <= now
  }

  /** What one undisturbed call of `deliver` does to the event `id`. */
  function DeliverySteps(db: Db, id: Id, result: Option<Trouble>, now: int, jobExhausted: bool): seq<Event> {
    if !Receivable(db, id, now) then []
    else
      var t := db.nextToken;
      [Claimed(id, db.rows[id], now)] +
      if db.rows[id].attempts >= MAX_ATTEMPTS then [BudgetExhausted(t, now)]
      else [PublishReturned(t, result),
            match result
            case None => Marked(t, now, true, true)
            case Some(Deferred(_)) => LeaseReleased(t, now)
            case Some(_) => FailureRecorded(t, now, jobExhausted)]
  }

  lemma RunThree(db: Db, a: Event, b: Event, c: Event)
    ensures Run(db, [a]) == Step(db, a)
    ensures Run(db, [a, b]) == Step(Step(db, a), b)
    ensures Run(db, [a, b, c]) == Step(Step(Step(db, a), b), c)
  {
    hide Step;
    assert Run(db, []) == db;
    RunThen(db, [], a);
    RunThen(db, [a], b);
    RunThen(db, [a, b], c);
    assert [] + [a] == [a] && [a] + [b] == [a, b] && [a, b] + [c] == [a, b, c];
  }

  lemma {:induction false} RunConcat(db: Db, s: seq<Event>, t: seq<Event>)
    ensures Run(db, s + t) == Run(Run(db, s), t)
  {
    if t == [] {
      assert s + t == s;
    } else {
      RunConcat(db, s, t[..|t| - 1]);
      assert (s + t)[..|s + t| - 1] == s + t[..|t| - 1];
    }
  }

  /** The row after an undisturbed delivery under the token `t`. */
  function Settled(r: Row, t: Token, result: Option<Trouble>, now: int, jobExhausted: bool): Row {
    var p := Process(r, t, now);
    if r.attempts >= MAX_ATTEMPTS then RecordFailure(p, r.attempts, true, now)
    else match result
      case None => Publish(NoteSent(p, t), t, now)
      case Some(Deferred(retryAfter)) => Release(p, now, retryAfter)
      case Some(trouble) => RecordFailure(p, r.attempts + 1, trouble == Permanent || r.attempts + 1 >= MAX_ATTEMPTS || jobExhausted, now)
  }

  /** The effect of an undisturbed delivery: one row changes and one token is drawn. */
  function DeliverAlone(db: Db, id: Id, result: Option<Trouble>, now: int, jobExhausted: bool): Db {
    if !Receivable(db, id, now) then db
    else db.(rows := db.rows[id := Settled(db.rows[id], db.nextToken, result, now, jobExhausted)], nextToken := db.nextToken + 1)
  }

  lemma ClaimThenPublish(db: Db, id: Id, result: Option<Trouble>, now: int)
    requires Inv(db) && Receivable(db, id, now)
    ensures var t := db.nextToken; var c := Step(Step(db, Claimed(id, db.rows[id], now)), PublishReturned(t, result));
            var p := Process(db.rows[id], t, now);
            && t !in db.deliveries && db.rows[id].attempts < MAX_ATTEMPTS
            && c == Db(db.rows[id := if result == None then NoteSent(p, t) else p], db.nextId, t + 1,
                       db.deliveries[t := Delivery(id, db.rows[id].attempts, if result == None then Sent else Failed(result.value))], db.batches)
  {
  }

  lemma LastStepSettles(db: Db, id: Id, result: Option<Trouble>, now: int, jobExhausted: bool)
    requires Receivable(db, id, now) && db.rows[id].attempts < MAX_ATTEMPTS && db.nextToken !in db.deliveries
    ensures var t := db.nextToken; var p := Process(db.rows[id], t, now);
            var c := Db(db.rows[id := if result == None then NoteSent(p, t) else p], db.nextId, t + 1,
                        db.deliveries[t := Delivery(id, db.rows[id].attempts, if result == None then Sent else Failed(result.value))], db.batches);
            Step(c, DeliverySteps(db, id, result, now, jobExhausted)[2]) == DeliverAlone(db, id, result, now, jobExhausted)
  {
    var t := db.nextToken;
    var l := Delivery(id, db.rows[id].attempts, if result == None then Sent else Failed(result.value));
    assert db.deliveries[t := l] - {t} == db.deliveries;
    var p := Process(db.rows[id], t, now);
    var d := DeliverAlone(db, id, result, now, jobExhausted);
    assert db.rows[id := p][id := d.rows[id]] == d.rows && db.rows[id := NoteSent(p, t)][id := d.rows[id]] == d.rows;
  }

  /** A delivery that nobody disturbs, step by step, has exactly that effect. */
  lemma DeliveryHasItsEffect(db: Db, id: Id, result: Option<Trouble>, now: int, jobExhausted: bool)
    requires Inv(db)
    ensures Run(db, DeliverySteps(db, id, result, now, jobExhausted)) == DeliverAlone(db, id, result, now, jobExhausted)
    ensures Inv(DeliverAlone(db, id, result, now, jobExhausted))
  {
    hide Inv;
    var es := DeliverySteps(db, id, result, now, jobExhausted);
    RunKeeps(db, es);
    if Receivable(db, id, now) {
      ClaimThenPublish(db, id, result, now);
      assert es == [es[0], es[1], es[2]];
      RunThree(db, es[0], es[1], es[2]);
      LastStepSettles(db, id, result, now, jobExhausted);
    } else {
      assert Run(db, []) == db;
    }
  }

  lemma NextTokenIsNew(db: Db)
    requires Inv(db)
    ensures db.nextToken !in db.deliveries
  {
  }

  lemma DeliverAnswers(db: Db, id: Id, result: Option<Trouble>, now: int, jobExhausted: bool)
    requires Inv(db)
    ensures DeliverSays(db, DeliverAlone(db, id, result, now, jobExhausted), id, result, now, jobExhausted)
  {
    if Receivable(db, id, now) {
      assert RowOk(db.rows[id], db.nextToken);
      if result.Some? && !result.value.Deferred? {
        FailureIsRecorded(Process(db.rows[id], db.nextToken, now), db.nextToken, result.value, jobExhausted, now);
      }
      hide RecordFailure;
    }
    hide Inv;
  }

  /** The oldest due events up to the batch size, each once, in whatever order they come back. */
  predicate OldestDue(db: Db, batch: seq<Id>, now: int) {
    && (forall i :: 0 <= i < |batch| ==> Due(db.rows, batch[i], now) && batch[i] < db.nextId)
    && Distinct(batch) && |batch| <= BATCH_SIZE
    && forall id: nat :: Due(db.rows, id, now) && id < db.nextId && id !in batch ==>
         |batch| == BATCH_SIZE && forall k :: k in batch ==> k < id
  }

  predicate Fails(h: Handover) { h.FailedBeforeClaim? || h.FailedAfterClaim? }

  /** Where handing on leaves an event that had been attempted so often before. */
  function StatusAfter(h: Handover, attempts: nat): Status {
    match h
    case Accepted => Enqueued
    case PreviousActive => Pending
    case Refused => Pending
    case FailedBeforeClaim => Enqueued
    case FailedAfterClaim => Processing
    case Delivered(None) => Published
    case Delivered(Some(Deferred(_))) => Pending
    case Delivered(Some(trouble)) => if trouble == Permanent || attempts + 1 >= MAX_ATTEMPTS then DeadLetter else Pending
  }

  /** The cycle hands on the first `n` events: up to one that fails, to one that the queue refuses, or to a
      shutdown after `stopAt` of them. */
  predicate StopsAt(n: nat, failed: bool, size: nat, handover: nat -> Handover, stopAt: nat) {
    && n <= size && (forall k :: 0 <= k < n ==> !Fails(handover(k)))
    && (forall k :: 0 <= k < n - 1 ==> handover(k) != Refused) && (n > 1 ==> n - 1 < stopAt)
    && if failed then n < size && Fails(handover(n)) && (n > 0 ==> handover(n - 1) != Refused && n < stopAt)
       else n < size ==> n > 0 && (handover(n - 1) == Refused || n >= stopAt)
  }

  /** The loop that hands on, after `n` events. */
  predicate GoneOn(n: nat, failed: bool, proceed: bool, stopping: bool, size: nat, handover: nat -> Handover, stopAt: nat) {
    if proceed && !stopping then
      !failed && n <= size && (n > 0 ==> n < stopAt) && forall k :: 0 <= k < n ==> !Fails(handover(k)) && handover(k) != Refused
    else StopsAt(n, failed, size, handover, stopAt)
  }

  lemma GoesOn(n: nat, size: nat, handover: nat -> Handover, stopAt: nat, stopping: bool)
    requires GoneOn(n, false, true, false, size, handover, stopAt) && n < size
    ensures Fails(handover(n)) ==> GoneOn(n, true, false, stopping, size, handover, stopAt)
    ensures !Fails(handover(n)) ==> GoneOn(n + 1, false, handover(n) != Refused, n + 1 >= stopAt, size, handover, stopAt)
  {
  }

  /** Event `k` of the batch once `n` are handed on: done with, failed, or as it was claimed. */
  predicate HandedOn(rows: map<Id, Row>, claimed: map<Id, Row>, batch: seq<Id>, k: nat, n: nat, failed: bool, handover: nat -> Handover)
    requires k < |batch|
  {
    && batch[k] in rows && batch[k] in claimed
    && if k < n || (k == n && failed && !handover(k).FailedBeforeClaim?)
       then rows[batch[k]].status == StatusAfter(handover(k), claimed[batch[k]].attempts)
       else rows[batch[k]] == claimed[batch[k]]
  }

  predicate AllHandedOn(rows: map<Id, Row>, claimed: map<Id, Row>, batch: seq<Id>, n: nat, failed: bool, handover: nat -> Handover) {
    forall k :: 0 <= k < |batch| ==> HandedOn(rows, claimed, batch, k, n, failed, handover)
  }

  predicate Distinct(batch: seq<Id>) { forall i, j :: 0 <= i < j < |batch| ==> batch[i] != batch[j] }

  lemma BatchLeaseIsEnqueued(db: Db, id: Id, token: Token)
    requires Inv(db) && token in db.batches && Holds(db, id, token)
    ensures db.rows[id].status == Enqueued
  {
  }

  /** A leased event can still be attempted. */
  lemma LeasesLeaveRoom(db: Db)
    requires Inv(db)
    ensures forall id :: id in db.rows && Leased(db.rows[id].status) ==> db.rows[id].attempts < MAX_ATTEMPTS
  {
  }

  /** Claimed by the batch of this token and not handed on yet. */
  predicate Waiting(db: Db, id: Id, token: Token, now: int) {
    id in db.rows && db.rows[id].status == Enqueued && db.rows[id].lockedBy == Some(token) && db.rows[id].availableAt <= now
  }

  /** Only the row `id` may have changed, and the batch `token` no longer leases it. */
  predicate Freed(before: Db, after: Db, id: Id, token: Token) {
    && after.rows.Keys == before.rows.Keys && after.batches == before.batches
    && (id in after.rows ==> after.rows[id].lockedBy != Some(token))
    && forall k :: k in after.rows && k != id ==> after.rows[k] == before.rows[k]
  }

  /** What handing an event on changed. */
  predicate OneChanged(before: Db, after: Db, id: Id, token: Token, h: Handover) {
    && (if h.Accepted? || h.FailedBeforeClaim? then after == before else Freed(before, after, id, token))
    && id in after.rows && id in before.rows && after.rows[id].status == StatusAfter(h, before.rows[id].attempts)
  }

  lemma DeliveryFrees(db: Db, id: Id, result: Option<Trouble>, now: int, token: Token)
    requires Inv(db) && token in db.batches && Waiting(db, id, token, now)
    ensures OneChanged(db, DeliverAlone(db, id, result, now, false), id, token, Delivered(result))
  {
  }

  lemma ReleaseFrees(db: Db, id: Id, token: Token, now: int, enqueuedOnly: bool)
    requires Inv(db) && token in db.batches
    ensures Freed(db, Step(db, ClaimReleased(id, token, now, enqueuedOnly)), id, token)
  {
  }

  lemma ClaimFrees(db: Db, id: Id, now: int, token: Token)
    requires Inv(db) && token in db.batches && Waiting(db, id, token, now)
    ensures var c := Step(db, Claimed(id, db.rows[id], now));
            OneChanged(db, c.(deliveries := db.deliveries), id, token, FailedAfterClaim)
            && Step(c, Crashed(db.nextToken)) == c.(deliveries := db.deliveries)
  {
  }

  /** The queue refuses a waiting event, or is still busy with its previous job. */
  lemma RefusalFrees(db: Db, id: Id, now: int, token: Token, h: Handover)
    requires Inv(db) && token in db.batches && Waiting(db, id, token, now) && (h == Refused || h == PreviousActive)
    ensures OneChanged(db, Step(db, ClaimReleased(id, token, now, false)), id, token, h)
  {
  }

  lemma StaysWaiting(db: Db, id: Id, now: int, token: Token, h: Handover)
    requires Waiting(db, id, token, now) && (h == Accepted || h == FailedBeforeClaim)
    ensures OneChanged(db, db, id, token, h)
  {
  }

  predicate AllWaiting(db: Db, batch: seq<Id>, token: Token, now: int) {
    forall k :: 0 <= k < |batch| ==> Waiting(db, batch[k], token, now)
  }

  /** After `n` events of the batch: the batch leases no event outside it, and of the first `n` only
      those that the queue accepted. */
  predicate BatchOk(db: Db, batch: seq<Id>, token: Token, n: nat, handover: nat -> Handover)
    requires n <= |batch|
  {
    && Inv(db) && token in db.batches
    && (forall id :: id in db.rows && db.rows[id].lockedBy == Some(token) ==> id in batch)
    && (forall k :: 0 <= k < n && batch[k] in db.rows && db.rows[batch[k]].lockedBy == Some(token) ==> handover(k) == Accepted)
  }

  lemma ClaimedBatchIsOk(db: Db, batch: seq<Id>, now: int, handover: nat -> Handover)
    requires Inv(db) && forall k :: 0 <= k < |batch| ==> Due(db.rows, batch[k], now)
    ensures var d := Step(db, BatchClaimed((set id | id in batch), now));
            && BatchOk(d, batch, db.nextToken, 0, handover)
            && AllWaiting(d, batch, db.nextToken, now)
  {
    StepKeeps(db, BatchClaimed((set id | id in batch), now));
  }

  lemma FreedIsOk(before: Db, after: Db, batch: seq<Id>, token: Token, n: nat, handover: nat -> Handover)
    requires n < |batch| && BatchOk(before, batch, token, n, handover) && Freed(before, after, batch[n], token) && Inv(after)
    ensures BatchOk(after, batch, token, n + 1, handover)
  {
    hide Inv;
  }

  lemma AllAsClaimed(db: Db, batch: seq<Id>, token: Token, now: int, handover: nat -> Handover)
    requires AllWaiting(db, batch, token, now)
    ensures AllHandedOn(db.rows, db.rows, batch, 0, false, handover)
  {
    assert forall k :: 0 <= k < |batch| ==> Waiting(db, batch[k], token, now);
  }

  lemma StillWaiting(db: Db, start: Db, batch: seq<Id>, n: nat, token: Token, now: int, handover: nat -> Handover)
    requires n < |batch| && AllHandedOn(db.rows, start.rows, batch, n, false, handover) && AllWaiting(start, batch, token, now)
    ensures Waiting(db, batch[n], token, now)
  {
    assert HandedOn(db.rows, start.rows, batch, n, n, false, handover) && Waiting(start, batch[n], token, now);
  }

  lemma BatchRuns(db: Db, batch: seq<Id>, token: Token, n: nat, handover: nat -> Handover)
    requires n <= |batch| && BatchOk(db, batch, token, n, handover)
    ensures Inv(db) && token in db.batches && forall steps :: Inv(Run(db, steps))
  {
    forall steps ensures Inv(Run(db, steps)) {
      RunKeeps(db, steps);
    }
  }

  lemma HandingOnKeepsBatch(before: Db, after: Db, batch: seq<Id>, token: Token, n: nat, handover: nat -> Handover)
    requires n < |batch| && BatchOk(before, batch, token, n, handover) && Inv(after)
    requires OneChanged(before, after, batch[n], token, handover(n))
    ensures BatchOk(after, batch, token, if Fails(handover(n)) then n else n + 1, handover)
  {
    hide Inv;
    if !handover(n).Accepted? && !handover(n).FailedBeforeClaim? {
      FreedIsOk(before, after, batch, token, n, handover);
    }
  }

  lemma OneHandedOn(before: Db, after: Db, start: Db, batch: seq<Id>, n: nat, token: Token, handover: nat -> Handover)
    requires n < |batch| && AllHandedOn(before.rows, start.rows, batch, n, false, handover) && Distinct(batch)
    requires OneChanged(before, after, batch[n], token, handover(n))
    ensures AllHandedOn(after.rows, start.rows, batch, if Fails(handover(n)) then n else n + 1, Fails(handover(n)), handover)
  {
    var m := if Fails(handover(n)) then n else n + 1;
    forall k | 0 <= k < |batch| ensures HandedOn(after.rows, start.rows, batch, k, m, Fails(handover(n)), handover) {
      assert HandedOn(before.rows, start.rows, batch, k, n, false, handover);
      assert HandedOn(before.rows, start.rows, batch, n, n, false, handover);
      assert k != n ==> batch[k] != batch[n];
    }
  }

  /** Event `k` at the end of the cycle: handed on, or failed under its own lease, or pending again. */
  predicate GivenBack(rows: map<Id, Row>, claimed: map<Id, Row>, batch: seq<Id>, k: nat, n: nat, failed: bool, handover: nat -> Handover)
    requires k < |batch|
  {
    && batch[k] in rows && batch[k] in claimed
    && rows[batch[k]].status == if k < n then StatusAfter(handover(k), claimed[batch[k]].attempts)
                                else if k == n && failed && handover(k).FailedAfterClaim? then Processing else Status.Pending
  }

  predicate AllGivenBack(rows: map<Id, Row>, claimed: map<Id, Row>, batch: seq<Id>, n: nat, failed: bool, handover: nat -> Handover) {
    forall k :: 0 <= k < |batch| ==> GivenBack(rows, claimed, batch, k, n, failed, handover)
  }

  /** Up to `m` given back, from there on still as handed on. */
  predicate GivenBackUpTo(rows: map<Id, Row>, claimed: map<Id, Row>, batch: seq<Id>, m: nat, n: nat, failed: bool, handover: nat -> Handover) {
    && (forall k :: 0 <= k < m && k < |batch| ==> GivenBack(rows, claimed, batch, k, n, failed, handover))
    && (forall k :: m <= k < |batch| ==> HandedOn(rows, claimed, batch, k, n, failed, handover))
  }

  lemma NoneGivenBack(rows: map<Id, Row>, claimed: map<Id, Row>, batch: seq<Id>, n: nat, failed: bool, handover: nat -> Handover)
    requires AllHandedOn(rows, claimed, batch, n, failed, handover)
    ensures GivenBackUpTo(rows, claimed, batch, n, n, failed, handover)
  {
    forall k | 0 <= k < n && k < |batch| ensures GivenBack(rows, claimed, batch, k, n, failed, handover) {
      assert HandedOn(rows, claimed, batch, k, n, failed, handover);
    }
  }

  lemma OneGivenBack(db: Db, claimed: Db, batch: seq<Id>, k: nat, n: nat, failed: bool, token: Token, now: int, handover: nat -> Handover)
    requires n <= k < |batch| && token in db.batches && AllWaiting(claimed, batch, token, now) && Distinct(batch)
    requires failed ==> n < |batch| && Fails(handover(n))
    requires GivenBackUpTo(db.rows, claimed.rows, batch, k, n, failed, handover)
    ensures GivenBackUpTo(Step(db, ClaimReleased(batch[k], token, now, true)).rows, claimed.rows, batch, k + 1, n, failed, handover)
  {
    var d := Step(db, ClaimReleased(batch[k], token, now, true));
    assert HandedOn(db.rows, claimed.rows, batch, k, n, failed, handover) && Waiting(claimed, batch[k], token, now);
    forall i | 0 <= i < |batch|
      ensures if i < k + 1 then GivenBack(d.rows, claimed.rows, batch, i, n, failed, handover)
              else HandedOn(d.rows, claimed.rows, batch, i, n, failed, handover)
    {
      assert i != k ==> batch[i] != batch[k];
      assert i < k ==> GivenBack(db.rows, claimed.rows, batch, i, n, failed, handover);
      assert i > k ==> HandedOn(db.rows, claimed.rows, batch, i, n, failed, handover);
    }
  }

  predicate RecoveryDue(lastRecoveryAt: int, now: int) { now - lastRecoveryAt >= RECOVERY_INTERVAL_MS }

  function Recovering(db: Db, lastRecoveryAt: int, now: int): Db {
    if RecoveryDue(lastRecoveryAt, now) then RecoverAbandoned(db, now) else db
  }

  /** Nobody holds a lease under a token that is not drawn yet. */
  lemma BatchIsEmpty(db: Db, token: Token)
    requires Inv(db) && token == db.nextToken
    ensures forall id :: id in db.rows ==> db.rows[id].lockedBy != Some(token)
  {
  }

  lemma CycleEnds(db: Db, start: Db, claimed: Db, batch: seq<Id>, n: nat, failed: bool, token: Token, now: int, handover: nat -> Handover)
    requires BatchOk(db, batch, token, |batch|, handover)
    requires claimed == Step(start, BatchClaimed((set id | id in batch), now)) && OldestDue(start, batch, now)
    requires AllGivenBack(db.rows, claimed.rows, batch, n, failed, handover)
    ensures Inv(db) && AllGivenBack(db.rows, start.rows, batch, n, failed, handover)
    ensures forall id :: id in db.rows && db.rows[id].lockedBy == Some(token) ==> id in batch
    ensures forall k :: 0 <= k < |batch| && batch[k] in db.rows && db.rows[batch[k]].lockedBy == Some(token) ==> handover(k) == Accepted
  {
    hide Inv;
    forall k | 0 <= k < |batch| ensures GivenBack(db.rows, start.rows, batch, k, n, failed, handover) {
      assert GivenBack(db.rows, claimed.rows, batch, k, n, failed, handover) && Due(start.rows, batch[k], now);
    }
  }

  class Dispatcher {
    var rows: map<Id, Row>
    var nextId: Id
    var nextToken: Token
    var deliveries: map<Token, Delivery>
    var batches: set<Token>
    var stopping: bool
    var lastRecoveryAt: int

    constructor ()
      ensures Snapshot() == EMPTY && !stopping && lastRecoveryAt == 0
    {
      rows, nextId, nextToken, deliveries, batches := map[], 0, 0, map[], {};
      stopping, lastRecoveryAt := false, 0;
    }

    function Snapshot(): Db
      reads this
    {
      Db(rows, nextId, nextToken, deliveries, batches)
    }

    method FindDue(now: int) returns (batch: seq<Id>)
      ensures OldestDue(Snapshot(), batch, now)
    {
      batch := [];
      var id := 0;
      while id < nextId && |batch| < BATCH_SIZE
        invariant id <= nextId && |batch| <= BATCH_SIZE
        invariant forall i :: 0 <= i < |batch| ==> Due(rows, batch[i], now) && batch[i] < id
        invariant forall i, j :: 0 <= i < j < |batch| ==> batch[i] < batch[j]
        invariant forall k: nat :: k < id && Due(rows, k, now) ==> k in batch
      {
        if id in rows && rows[id].status == Pending && rows[id].availableAt <= now {
          batch := batch + [id];
        }
        id := id + 1;
      }
    }

    /** Claims the oldest due events all under one fresh token. */
    method ClaimNextBatch(now: int) returns (batch: seq<Id>, token: Token)
      modifies `rows, `nextToken, `batches
      ensures token == old(nextToken) && OldestDue(old(Snapshot()), batch, now)
      ensures Snapshot() == Step(old(Snapshot()), BatchClaimed((set id | id in batch), now))
      ensures BatchSays(old(Snapshot()), Snapshot(), (set id | id in batch), now)
    {
      hide BatchSays;
      batch := FindDue(now);
      BatchAnswers(Snapshot(), (set id | id in batch), now);
      token := nextToken;
      rows := map k | k in rows :: if k in batch then Enqueue(rows[k], token, now) else rows[k];
      nextToken := nextToken + 1;
      batches := batches + {token};
    }

    /** One call of `deliver`, undisturbed. */
    method Deliver(id: Id, result: Option<Trouble>, now: int, jobExhausted: bool)
      requires Inv(Snapshot())
      modifies `rows, `nextToken, `deliveries
      ensures Snapshot() == DeliverAlone(old(Snapshot()), id, result, now, jobExhausted)
      ensures DeliverSays(old(Snapshot()), Snapshot(), id, result, now, jobExhausted)
    {
      hide Inv, DeliverSays;
      DeliverAnswers(Snapshot(), id, result, now, jobExhausted);
      NextTokenIsNew(Snapshot());
      if id !in rows || (rows[id].status != Enqueued && rows[id].status != Pending) || rows[id].availableAt > now {
        return;
      }
      var lockedBy := nextToken;
      var row := Process(rows[id], lockedBy, now);
      rows := rows[id := row];
      nextToken := nextToken + 1;
      deliveries := deliveries[lockedBy := Delivery(id, row.attempts, Working)];
      if row.attempts >= MAX_ATTEMPTS {
        row := RecordFailure(row, row.attempts, true, now);
      } else {
        match result
        case None =>
          row := Publish(NoteSent(row, lockedBy), lockedBy, now);
        case Some(Deferred(retryAfter)) =>
          row := Release(row, now, retryAfter);
        case Some(trouble) =>
          var dead := trouble == Permanent || row.attempts + 1 >= MAX_ATTEMPTS || jobExhausted;
          row := RecordFailure(row, row.attempts + 1, dead, now);
      }
      assert row == Settled(old(rows)[id], lockedBy, result, now, jobExhausted);
      rows := rows[id := row];
      deliveries := deliveries - {lockedBy};
      assert rows == old(rows)[id := row] && deliveries == old(deliveries);
    }

    /** A call of `deliver` that fails right after it has claimed the row. */
    method AbortedDeliver(id: Id, now: int)
      requires Inv(Snapshot()) && Receivable(Snapshot(), id, now)
      modifies `rows, `nextToken
      ensures Snapshot() == Step(old(Snapshot()), Claimed(id, old(rows)[id], now)).(deliveries := old(deliveries))
    {
      rows := rows[id := Process(rows[id], nextToken, now)];
      nextToken := nextToken + 1;
    }

    /** Gives a claimed event back: afterwards the batch does not lease it, and it waits with its attempts as
        they were. Nothing changes if the batch had lost it already. */
    method ReleaseEvent(id: Id, token: Token, now: int, enqueuedOnly: bool)
      requires Inv(Snapshot()) && token in batches
      modifies `rows
      ensures Snapshot() == Step(old(Snapshot()), ClaimReleased(id, token, now, enqueuedOnly))
      ensures Inv(Snapshot()) && Freed(old(Snapshot()), Snapshot(), id, token)
      ensures !Holds(old(Snapshot()), id, token) ==> rows == old(rows)
      ensures Holds(old(Snapshot()), id, token) ==>
                id in rows && rows[id].status == Pending && rows[id].attempts == old(rows)[id].attempts && rows[id].availableAt == now + POLL_INTERVAL_MS
    {
      hide Inv, Freed;
      StepKeeps(Snapshot(), ClaimReleased(id, token, now, enqueuedOnly));
      ReleaseFrees(Snapshot(), id, token, now, enqueuedOnly);
      if Holds(Snapshot(), id, token) {
        BatchLeaseIsEnqueued(Snapshot(), id, token);
      }
      if token in batches && id in rows && Leased(rows[id].status) && rows[id].lockedBy == Some(token)
         && (!enqueuedOnly || rows[id].status == Enqueued) {
        rows := rows[id := Release(rows[id], now, POLL_INTERVAL_MS)];
      }
    }

    /** Takes every lease away that is older than the timeout: afterwards none is, such events are pending
        with their attempts as they were, and no other event has changed. */
    method RecoverAbandonedEvents(now: int)
      requires Inv(Snapshot())
      modifies `rows
      ensures Snapshot() == Step(old(Snapshot()), Recovered(now)) && Inv(Snapshot())
      ensures rows.Keys == old(rows).Keys && forall id :: id in rows ==> !Abandonable(rows[id], now)
      ensures forall id :: id in rows ==>
                if Abandonable(old(rows)[id], now)
                then rows[id].status == Pending && rows[id].lockedBy.None? && rows[id].attempts == old(rows)[id].attempts < MAX_ATTEMPTS
                else rows[id] == old(rows)[id]
    {
      hide Inv;
      StepKeeps(Snapshot(), Recovered(now));
      LeasesLeaveRoom(Snapshot());
      rows := map id | id in rows :: if Abandonable(rows[id], now) then Recover(rows[id]) else rows[id];
    }

    /** Puts a dead letter back that is still as the operator saw it: it is due at once, all its attempts are
        before it again, and no other event changes. */
    method RetryOutboxEvent(id: Id, expectedAvailableAt: int, now: int) returns (ok: bool)
      requires Inv(Snapshot())
      modifies `rows
      ensures Snapshot() == Step(old(Snapshot()), Retried(id, expectedAvailableAt, now)) && Inv(Snapshot())
      ensures ok ==> Due(rows, id, now) && rows[id].attempts == 0 && rows == old(rows)[id := rows[id]]
      ensures !ok ==> rows == old(rows)
      ensures ok <==> id in old(rows) && old(rows)[id].status == DeadLetter && old(rows)[id].availableAt == expectedAvailableAt
    {
      hide Inv;
      StepKeeps(Snapshot(), Retried(id, expectedAvailableAt, now));
      ok := id in rows && rows[id].status == DeadLetter && rows[id].availableAt == expectedAvailableAt;
      if ok {
        var r := rows[id];
        rows := rows[id := r.(status := Pending, attempts := 0, availableAt := now, lockedBy := None,
                              history := r.history.(failuresSinceRetry := 0))];
      }
    }

    /** Hands one event of the batch on: `reached` says whether the cycle counts it as handed on, and
        `proceed` whether the cycle goes on to the next event. */
    method HandOn(id: Id, h: Handover, token: Token, now: int) returns (reached: bool, proceed: bool, ghost trace: seq<Event>)
      requires Inv(Snapshot()) && token in batches && Waiting(Snapshot(), id, token, now)
      modifies `rows, `nextToken, `deliveries
      ensures Snapshot() == Run(old(Snapshot()), trace)
      ensures reached <==> !h.FailedBeforeClaim? && !h.FailedAfterClaim?
      ensures proceed <==> reached && h != Refused
      ensures OneChanged(old(Snapshot()), Snapshot(), id, token, h)
    {
      ghost var db := Snapshot();
      trace := [];
      assert Run(db, trace) == db;
      assert Receivable(db, id, now);
      hide Inv, Freed, StatusAfter, Waiting, OneChanged, Step, Settled;
      reached, proceed := true, true;
      match h
      case Accepted =>
        StaysWaiting(db, id, now, token, h);
      case PreviousActive | Refused =>
        RefusalFrees(db, id, now, token, h);
        trace := [ClaimReleased(id, token, now, false)];
        RunThen(db, [], trace[0]);
        assert [] + [trace[0]] == trace;
        ReleaseEvent(id, token, now, false);
        proceed := h.PreviousActive?;
      case Delivered(result) =>
        DeliveryFrees(db, id, result, now, token);
        DeliveryHasItsEffect(db, id, result, now, false);
        trace := DeliverySteps(db, id, result, now, false);
        Deliver(id, result, now, false);
      case FailedBeforeClaim =>
        StaysWaiting(db, id, now, token, h);
        reached, proceed := false, false;
      case FailedAfterClaim =>
        ClaimFrees(db, id, now, token);
        trace := [Claimed(id, rows[id], now), Crashed(nextToken)];
        RunThree(db, trace[0], trace[1], trace[1]);
        AbortedDeliver(id, now);
        reached, proceed := false, false;
    }

    /** Gives back the events from position `n` on that are still enqueued under the batch. */
    method ReleaseUnqueued(batch: seq<Id>, n: nat, failed: bool, token: Token, now: int, ghost claimed: Db, ghost handover: nat -> Handover)
      returns (ghost trace: seq<Event>)
      requires n <= |batch| && BatchOk(Snapshot(), batch, token, n, handover) && Distinct(batch)
      requires AllWaiting(claimed, batch, token, now) && AllHandedOn(rows, claimed.rows, batch, n, failed, handover)
      requires failed ==> n < |batch| && Fails(handover(n))
      modifies `rows
      ensures Snapshot() == Run(old(Snapshot()), trace) && BatchOk(Snapshot(), batch, token, |batch|, handover)
      ensures AllGivenBack(rows, claimed.rows, batch, n, failed, handover)
    {
      trace := [];
      assert Run(Snapshot(), []) == Snapshot();
      NoneGivenBack(rows, claimed.rows, batch, n, failed, handover);
      hide Inv, BatchOk, HandedOn, AllHandedOn, GivenBack, AllWaiting, Distinct;
      for k := n to |batch|
        invariant Snapshot() == Run(old(Snapshot()), trace) && BatchOk(Snapshot(), batch, token, k, handover)
        invariant GivenBackUpTo(rows, claimed.rows, batch, k, n, failed, handover)
      {
        hide GivenBackUpTo;
        ghost var db := Snapshot();
        ghost var e := ClaimReleased(batch[k], token, now, true);
        BatchRuns(db, batch, token, k, handover);
        ReleaseFrees(db, batch[k], token, now, true);
        StepKeeps(db, e);
        RunThen(old(Snapshot()), trace, e);
        ReleaseEvent(batch[k], token, now, true);
        FreedIsOk(db, Snapshot(), batch, token, k, handover);
        OneGivenBack(db, claimed, batch, k, n, failed, token, now, handover);
        trace := trace + [e];
      }
    }

    /** Hands the events on in order until one fails, the queue refuses one, or `stopping` is set, which
        a shutdown does once `stopAt` events are handed on. */
    method HandOnAll(batch: seq<Id>, token: Token, now: int, handover: nat -> Handover, stopAt: nat)
      returns (nextIndex: nat, failed: bool, ghost trace: seq<Event>)
      requires BatchOk(Snapshot(), batch, token, 0, handover) && !stopping
      requires AllWaiting(Snapshot(), batch, token, now)
      requires Distinct(batch)
      modifies `rows, `nextToken, `deliveries, `stopping
      ensures nextIndex <= |batch| && Snapshot() == Run(old(Snapshot()), trace)
      ensures BatchOk(Snapshot(), batch, token, nextIndex, handover) && StopsAt(nextIndex, failed, |batch|, handover, stopAt)
      ensures AllHandedOn(rows, old(rows), batch, nextIndex, failed, handover)
    {
      hide Inv, BatchOk, OneChanged, AllHandedOn, AllWaiting, Waiting, Distinct;
      trace := [];
      assert Run(Snapshot(), []) == Snapshot();
      nextIndex, failed := 0, false;
      AllAsClaimed(Snapshot(), batch, token, now, handover);
      var proceed := true;
      while nextIndex < |batch| && !stopping && proceed
        invariant nextIndex <= |batch| && (failed ==> !proceed)
        invariant Snapshot() == Run(old(Snapshot()), trace) && BatchOk(Snapshot(), batch, token, nextIndex, handover)
        invariant AllHandedOn(rows, old(rows), batch, nextIndex, failed, handover)
        invariant GoneOn(nextIndex, failed, proceed, stopping, |batch|, handover, stopAt)
        decreases |batch| - nextIndex, proceed
      {
        hide GoneOn;
        ghost var db := Snapshot();
        var reached;
        ghost var steps;
        StillWaiting(db, old(Snapshot()), batch, nextIndex, token, now, handover);
        BatchRuns(db, batch, token, nextIndex, handover);
        reached, proceed, steps := HandOn(batch[nextIndex], handover(nextIndex), token, now);
        RunConcat(old(Snapshot()), trace, steps);
        trace := trace + steps;
        HandingOnKeepsBatch(db, Snapshot(), batch, token, nextIndex, handover);
        OneHandedOn(db, Snapshot(), old(Snapshot()), batch, nextIndex, token, handover);
        GoesOn(nextIndex, |batch|, handover, stopAt, stopping);
        if reached {
          nextIndex := nextIndex + 1;
          stopping := nextIndex >= stopAt;
        } else {
          failed := true;
        }
      }
    }

    /** Hands a claimed batch on and gives back what is left of it. */
    method WorkThrough(batch: seq<Id>, token: Token, now: int, handover: nat -> Handover, stopAt: nat)
      returns (n: nat, failed: bool, ghost trace: seq<Event>)
      requires BatchOk(Snapshot(), batch, token, 0, handover) && !stopping
      requires AllWaiting(Snapshot(), batch, token, now) && Distinct(batch)
      modifies `rows, `nextToken, `deliveries, `stopping
      ensures Snapshot() == Run(old(Snapshot()), trace) && BatchOk(Snapshot(), batch, token, |batch|, handover)
      ensures StopsAt(n, failed, |batch|, handover, stopAt) && AllGivenBack(rows, old(rows), batch, n, failed, handover)
    {
      ghost var rest;
      n, failed, trace := HandOnAll(batch, token, now, handover, stopAt);
      assert failed ==> n < |batch| && Fails(handover(n));
      hide BatchOk, AllHandedOn, AllGivenBack, AllWaiting, Distinct, StopsAt;
      rest := ReleaseUnqueued(batch, n, failed, token, now, old(Snapshot()), handover);
      RunConcat(old(Snapshot()), trace, rest);
      trace := trace + rest;
    }

    method RecoverIfDue(now: int) returns (ghost trace: seq<Event>)
      requires Inv(Snapshot())
      modifies `rows, `lastRecoveryAt
      ensures Snapshot() == Recovering(old(Snapshot()), old(lastRecoveryAt), now) == Run(old(Snapshot()), trace) && Inv(Snapshot())
      ensures lastRecoveryAt == if RecoveryDue(old(lastRecoveryAt), now) then now else old(lastRecoveryAt)
    {
      hide Inv, Abandonable, Recover;
      trace := [];
      assert Run(Snapshot(), []) == Snapshot();
      if now - lastRecoveryAt >= RECOVERY_INTERVAL_MS {
        StepKeeps(Snapshot(), Recovered(now));
        RunThen(Snapshot(), trace, Recovered(now));
        trace := [Recovered(now)];
        assert [] + trace == trace;
        RecoverAbandonedEvents(now);
        lastRecoveryAt := now;
      }
    }

    /** One cycle of the dispatcher, with nobody else at work: it recovers abandoned events when that is due,
        claims the oldest due events, hands them on until something stops it, and gives back the others.
        However the cycle ends, the batch keeps its lease on an event only if the queue accepted that event. */
    method DispatchBatch(now: int, handover: nat -> Handover, stopAt: nat)
      returns (batch: seq<Id>, token: Token, n: nat, failed: bool, ghost trace: seq<Event>)
      requires Inv(Snapshot())
      modifies this
      ensures Snapshot() == Run(old(Snapshot()), trace) && Inv(Snapshot())
      ensures lastRecoveryAt == if RecoveryDue(old(lastRecoveryAt), now) then now else old(lastRecoveryAt)
      ensures var start := Recovering(old(Snapshot()), old(lastRecoveryAt), now);
              if old(stopping) then Snapshot() == start && batch == []
              else OldestDue(start, batch, now) && StopsAt(n, failed, |batch|, handover, stopAt)
                   && AllGivenBack(rows, start.rows, batch, n, failed, handover)
      ensures forall id :: id in rows && rows[id].lockedBy == Some(token) ==> id in batch
      ensures forall k :: 0 <= k < |batch| && batch[k] in rows && rows[batch[k]].lockedBy == Some(token) ==> handover(k) == Accepted
    {
      hide Inv, RecoverAbandoned;
      batch, token, n, failed := [], nextToken, 0, false;
      trace := RecoverIfDue(now);
      if stopping {
        BatchIsEmpty(Snapshot(), token);
        return;
      }
      hide Recovering;
      ghost var db := Snapshot();
      batch, token := ClaimNextBatch(now);
      ghost var e := BatchClaimed((set id | id in batch), now);
      RunThen(old(Snapshot()), trace, e);
      trace := trace + [e];
      ClaimedBatchIsOk(db, batch, now, handover);
      assert Distinct(batch);
      hide BatchOk, AllHandedOn, AllGivenBack, OldestDue, AllWaiting, Step, Distinct;
      ghost var claimed := Snapshot();
      ghost var steps;
      n, failed, steps := WorkThrough(batch, token, now, handover, stopAt);
      RunConcat(old(Snapshot()), trace, steps);
      trace := trace + steps;
      CycleEnds(Snapshot(), db, claimed, batch, n, failed, token, now, handover);
    }
  }
}
