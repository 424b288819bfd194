/** What becomes of an event at each step of its life, in terms of its row: who gets it, when it is due again after
    a failure, and when it is given up. */
module OutboxAnswers {
  import opened Sums
  import opened Outbox

  /** When an event that failed for the n-th time is due again. */
  const BACK_OFF_MS: seq<int> := [1_000, 2_000, 4_000, 8_000]

  /** A failure counts as one attempt. It is the last one if the error is permanent, at the fifth attempt, or if the
      queue would not try again; otherwise the event is due after a while that doubles every time. */
  predicate FailedOnce(r: Row, s: Row, trouble: Trouble, jobExhausted: bool, now: int) {
    var last := trouble == Permanent || r.attempts >= 4 || jobExhausted;
    && s.attempts == r.attempts + 1 && s.lockedBy.None?
    && s.status == (if last then DeadLetter else Pending)
    && s.availableAt == if last then r.availableAt else now + BACK_OFF_MS[r.attempts]
  }

  /** A deferral costs no attempt: the event is due when the deferral says, but not within the next second. */
  predicate PutOff(r: Row, s: Row, retryAfter: int, now: int) {
    && s.attempts == r.attempts && s.lockedBy.None? && s.status == Pending
    && s.availableAt == now + if retryAfter > 1_000 then retryAfter else 1_000
  }

  predicate Done(r: Row, s: Row, now: int) {
    s.status == Published && s.publishedAt == now && s.lockedBy.None? && s.attempts == r.attempts && s.availableAt == r.availableAt
  }

  predicate OnlyRow(before: map<Id, Row>, after: map<Id, Row>, id: Id) {
    after.Keys == before.Keys && forall k :: k in before && k != id ==> after[k] == before[k]
  }

  /** An event is delivered if it is due and neither finished nor at work, and then settled by the result. */
  predicate DeliverSays(before: Db, after: Db, id: Id, result: Option<Trouble>, now: int, jobExhausted: bool) {
    if id in before.rows && (before.rows[id].status == Enqueued || before.rows[id].status == Pending) && before.rows[id].availableAt <= now then
      && OnlyRow(before.rows, after.rows, id)
      && var r, s := before.rows[id], after.rows[id];
         match result
         case None => Done(r, s, now)
         case Some(Deferred(retryAfter)) => PutOff(r, s, retryAfter, now)
         case Some(trouble) => FailedOnce(r, s, trouble, jobExhausted, now)
    else
      after == before
  }

  lemma BackOffDoubles(n: nat)
    requires n < 4
    ensures Pow2(n) * 1_000 == BACK_OFF_MS[n]
  {
    assert Pow2(0) == 1 && Pow2(1) == 2 && Pow2(2) == 4 && Pow2(3) == 8;
  }

  lemma FailureIsRecorded(r: Row, token: Token, trouble: Trouble, jobExhausted: bool, now: int)
    requires r.attempts < MAX_ATTEMPTS
    ensures FailedOnce(r, RecordFailure(r, r.attempts + 1, trouble == Permanent || r.attempts + 1 >= MAX_ATTEMPTS || jobExhausted, now),
                       trouble, jobExhausted, now)
  {
    if r.attempts < 4 {
      BackOffDoubles(r.attempts);
    }
  }

  // ----- the steps of the protocol -----

  predicate HeldBy(db: Db, id: Id, t: Token) { id in db.rows && db.rows[id].status == Processing && db.rows[id].lockedBy == Some(t) }

  /** A claim is granted exactly if the row is due and still as it was read; it is then at work under a fresh token. */
  predicate ClaimSays(before: Db, after: Db, id: Id, seen: Row, now: int) {
    if && (seen.status == Enqueued || seen.status == Pending) && seen.availableAt <= now
       && id in before.rows && before.rows[id].(lockedAt := seen.lockedAt, publishedAt := seen.publishedAt, history := seen.history) == seen
    then
      && OnlyRow(before.rows, after.rows, id)
      && after.rows[id] == before.rows[id].(status := Processing, lockedBy := Some(before.nextToken), lockedAt := now, history := after.rows[id].history)
    else
      after == before
  }

  lemma ClaimAnswers(db: Db, id: Id, seen: Row, now: int)
    ensures ClaimSays(db, Step(db, Claimed(id, seen, now)), id, seen, now)
  {
  }

  /** A batch takes rows that are pending and due, all of them under one fresh token. */
  predicate BatchSays(before: Db, after: Db, ids: set<Id>, now: int) {
    if forall id :: id in ids ==> id in before.rows && before.rows[id].status == Pending && before.rows[id].availableAt <= now then
      && after.rows.Keys == before.rows.Keys
      && (forall id :: id in before.rows && id !in ids ==> after.rows[id] == before.rows[id])
      && (forall id :: id in ids ==>
           after.rows[id] == before.rows[id].(status := Enqueued, lockedBy := Some(before.nextToken), lockedAt := now, history := after.rows[id].history))
    else
      after == before
  }

  lemma BatchAnswers(db: Db, ids: set<Id>, now: int)
    ensures BatchSays(db, Step(db, BatchClaimed(ids, now)), ids, now)
  {
  }

  /** What a delivery that is over leaves behind, whatever happened to its row meanwhile: it settles the row if the
      row is still its own, and otherwise touches nothing. */
  lemma FailureAnswers(db: Db, t: Token, now: int, jobExhausted: bool)
    requires Inv(db) && t in db.deliveries && db.deliveries[t].phase.Failed?
    ensures var id, trouble := db.deliveries[t].id, db.deliveries[t].phase.trouble;
            var d := Step(db, if trouble.Deferred? then LeaseReleased(t, now) else FailureRecorded(t, now, jobExhausted));
            && d == db.(rows := d.rows, deliveries := db.deliveries - {t})
            && if HeldBy(db, id, t) then
                 && OnlyRow(db.rows, d.rows, id)
                 && if trouble.Deferred? then PutOff(db.rows[id], d.rows[id], trouble.retryAfter, now)
                    else FailedOnce(db.rows[id], d.rows[id], trouble, jobExhausted, now)
               else d.rows == db.rows
  {
    var id, trouble := db.deliveries[t].id, db.deliveries[t].phase.trouble;
    if id in db.rows && db.rows[id].lockedBy == Some(t) {
      assert RowOk(db.rows[id], db.nextToken) && LeaseOk(id, db.rows[id], db.deliveries, db.batches);
      FailureIsRecorded(db.rows[id], t, trouble, jobExhausted, now);
    }
    hide Inv, RecordFailure;
  }

  /** A publication is marked if the row is still the delivery's own and the update got through; a worker that does not
      hear of it carries on as after a failure. */
  lemma MarkAnswers(db: Db, t: Token, now: int, applied: bool, acknowledged: bool)
    requires t in db.deliveries && db.deliveries[t].phase == Sent
    ensures var id := db.deliveries[t].id;
            var d := Step(db, Marked(t, now, applied, acknowledged));
            && (if applied && HeldBy(db, id, t) then OnlyRow(db.rows, d.rows, id) && Done(db.rows[id], d.rows[id], now) else d.rows == db.rows)
            && d.deliveries == if applied && acknowledged then db.deliveries - {t}
                               else db.deliveries[t := db.deliveries[t].(phase := Failed(Plain))]
  {
  }

  /** A lease is taken away once it is older than ninety seconds; a row is removed at most thirty days after it was
      published, and an operator's retry is granted exactly for a dead letter as it was seen. */
  lemma UpkeepAnswers(db: Db, id: Id, ids: set<Id>, expected: int, now: int)
    requires Inv(db) && id in db.rows
    ensures var r := db.rows[id];
            var recovered, retried, purged := Step(db, Recovered(now)), Step(db, Retried(id, expected, now)), Step(db, Purged(ids, now));
            && id in recovered.rows && id in retried.rows
            && recovered.rows[id] == (if r.lockedBy.Some? && r.lockedAt + 90_000 < now
                                      then r.(status := Pending, lockedBy := None, history := recovered.rows[id].history) else r)
            && retried.rows[id] == (if r.status == DeadLetter && r.availableAt == expected
                                    then r.(status := Pending, attempts := 0, availableAt := now, lockedBy := None, history := retried.rows[id].history) else r)
            && (id !in purged.rows ==> r.status == Published && r.publishedAt + 2_592_000_000 < now)
  {
    assert RowOk(db.rows[id], db.nextToken);
    hide Inv;
  }
}
