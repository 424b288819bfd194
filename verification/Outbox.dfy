/** The outbox lease protocol with any number of dispatchers and delivery workers. Every database
    statement is one atomic step and steps of different workers interleave freely. A delivery is
    named by the token of its lease; a token is drawn fresh for every lease. */
module Outbox {
  import opened Sums

  type Id = nat
  type Token = nat

  const MAX_ATTEMPTS := 5
  const LOCK_TIMEOUT_MS := 90_000
  const POLL_INTERVAL_MS := 1_000
  const PUBLISHED_RETENTION_MS := 30 * 24 * 60 * 60 * 1_000

  datatype Status = Pending | Enqueued | Processing | Published | DeadLetter

  /** What happened to an event so far; `sent` are the leases under which a publish succeeded. */
  datatype History = History(acquired: nat, published: nat, failures: nat, releases: nat, recoveries: nat,
                             failuresSinceRetry: nat, sent: set<Token>, publishedBy: Option<Token>)

  datatype Row = Row(status: Status, attempts: nat, lockedBy: Option<Token>, lockedAt: int, availableAt: int,
                     publishedAt: int, history: History)

  datatype Trouble = Deferred(retryAfter: int) | Permanent | Plain
  datatype Phase = Working | Sent | Failed(trouble: Trouble)

  /** A running call of `deliver` that won its row: the row as it was read, and how far it has come. */
  datatype Delivery = Delivery(id: Id, attempts: nat, phase: Phase)

  /** `batches` are the tokens under which a dispatcher claimed a batch. */
  datatype Db = Db(rows: map<Id, Row>, nextId: Id, nextToken: Token, deliveries: map<Token, Delivery>, batches: set<Token>)

  const EMPTY: Db := Db(map[], 0, 0, map[], {})

  datatype Event =
    | Emitted(availableAt: int)
    | BatchClaimed(ids: set<Id>, now: int)
    | ClaimReleased(id: Id, batch: Token, now: int, enqueuedOnly: bool)
    | Claimed(id: Id, seen: Row, now: int)
    | PublishReturned(token: Token, result: Option<Trouble>)
    | Marked(token: Token, now: int, applied: bool, acknowledged: bool)
    | FailureRecorded(token: Token, now: int, jobExhausted: bool)
    | BudgetExhausted(token: Token, now: int)
    | LeaseReleased(token: Token, now: int)
    | LeaseRenewed(token: Token, now: int)
    | Crashed(token: Token)
    | Recovered(now: int)
    | Retried(id: Id, expectedAvailableAt: int, now: int)
    | Purged(ids: set<Id>, now: int)

  predicate Leased(s: Status) { s == Enqueued || s == Processing }
  predicate Terminal(s: Status) { s == Published || s == DeadLetter }

  // ----- row updates -----

  function NewRow(availableAt: int): Row {
    Row(Pending, 0, None, 0, availableAt, 0, History(0, 0, 0, 0, 0, 0, {}, None))
  }

  function Enqueue(r: Row, token: Token, now: int): Row {
    r.(status := Enqueued, lockedBy := Some(token), lockedAt := now, history := r.history.(acquired := r.history.acquired + 1))
  }

  /** The delivery claim: a pending row is leased anew, an enqueued one changes hands. */
  function Process(r: Row, token: Token, now: int): Row {
    r.(status := Processing, lockedBy := Some(token), lockedAt := now,
       history := r.history.(acquired := r.history.acquired + if r.status == Pending then 1 else 0))
  }

  function Publish(r: Row, token: Token, now: int): Row {
    r.(status := Published, lockedBy := None, publishedAt := now,
       history := r.history.(published := r.history.published + 1, publishedBy := Some(token)))
  }

  /** Two to the power of `n`: the retry back-off in seconds. */
  function Pow2(n: nat): nat { if n == 0 then 1 else 2 * Pow2(n - 1) }

  function RecordFailure(r: Row, attempts: nat, dead: bool, now: int): Row
    requires dead || attempts > 0
  {
    r.(status := if dead then DeadLetter else Pending, attempts := attempts, lockedBy := None,
       availableAt := if dead then r.availableAt else now + Pow2(attempts - 1) * 1_000,
       history := r.history.(failures := r.history.failures + 1, failuresSinceRetry := r.history.failuresSinceRetry + 1))
  }

  function Release(r: Row, now: int, delay: int): Row {
    r.(status := Pending, lockedBy := None, availableAt := now + if delay < 1_000 then 1_000 else delay,
       history := r.history.(releases := r.history.releases + 1))
  }

  function Recover(r: Row): Row {
    r.(status := Pending, lockedBy := None, history := r.history.(recoveries := r.history.recoveries + 1))
  }

  function NoteSent(r: Row, token: Token): Row {
    r.(history := r.history.(sent := r.history.sent + {token}))
  }

  predicate Holds(db: Db, id: Id, token: Token) {
    id in db.rows && Leased(db.rows[id].status) && db.rows[id].lockedBy == Some(token)
  }

  /** The condition of the updates guarded by a delivery lease. */
  predicate HoldsDelivery(db: Db, id: Id, token: Token) {
    id in db.rows && db.rows[id].status == Processing && db.rows[id].lockedBy == Some(token)
  }

  predicate Abandonable(r: Row, now: int) {
    Leased(r.status) && r.lockedAt < now - LOCK_TIMEOUT_MS
  }

  predicate Claimable(db: Db, ids: set<Id>, now: int) {
    forall id :: id in ids ==> id in db.rows && db.rows[id].status == Pending && db.rows[id].availableAt <= now
  }

  predicate Purgeable(db: Db, ids: set<Id>, now: int) {
    forall id :: id in ids ==> id in db.rows && db.rows[id].status == Published && db.rows[id].publishedAt < now - PUBLISHED_RETENTION_MS
  }

  function SetRow(db: Db, id: Id, r: Row): Db { db.(rows := db.rows[id := r]) }
  function Drop(db: Db, t: Token): Db { db.(deliveries := db.deliveries - {t}) }
  function Advance(db: Db, t: Token, phase: Phase): Db
    requires t in db.deliveries
  {
    db.(deliveries := db.deliveries[t := db.deliveries[t].(phase := phase)])
  }

  // ----- steps -----

  function ClaimBatch(db: Db, ids: set<Id>, now: int): Db {
    if Claimable(db, ids, now) then
      var t := db.nextToken;
      db.(rows := map id | id in db.rows :: if id in ids then Enqueue(db.rows[id], t, now) else db.rows[id],
          nextToken := t + 1, batches := db.batches + {t})
    else db
  }

  /** A dispatcher gives back a claimed event: after a failed enqueue, or at the end of a batch (then
      only while it is still enqueued). */
  function ReleaseClaim(db: Db, id: Id, batch: Token, now: int, enqueuedOnly: bool): Db {
    if batch in db.batches && Holds(db, id, batch) && (enqueuedOnly ==> db.rows[id].status == Enqueued) then
      SetRow(db, id, Release(db.rows[id], now, POLL_INTERVAL_MS))
    else db
  }

  /** The compare-and-set of `deliver`: the row must still be as it was read. */
  function ClaimDelivery(db: Db, id: Id, seen: Row, now: int): Db {
    if && (seen.status == Enqueued || seen.status == Pending)
       && id in db.rows && db.rows[id].status == seen.status && db.rows[id].lockedBy == seen.lockedBy
       && db.rows[id].attempts == seen.attempts && db.rows[id].availableAt == seen.availableAt && seen.availableAt <= now
    then
      var t := db.nextToken;
      SetRow(db, id, Process(db.rows[id], t, now)).(nextToken := t + 1,
        deliveries := db.deliveries[t := Delivery(id, seen.attempts, Working)])
    else db
  }

  predicate InPhase(db: Db, t: Token, phase: Phase) { t in db.deliveries && db.deliveries[t].phase == phase }

  /** The event bus accepted the event (`None`) or threw. */
  function PublishReturn(db: Db, t: Token, result: Option<Trouble>): Db {
    if InPhase(db, t, Working) && db.deliveries[t].attempts < MAX_ATTEMPTS then
      var id := db.deliveries[t].id;
      match result
      case Some(trouble) => Advance(db, t, Failed(trouble))
      case None => Advance(if id in db.rows then SetRow(db, id, NoteSent(db.rows[id], t)) else db, t, Sent)
    else db
  }

  /** `markPublished`; when its acknowledgement is lost the worker carries on as after a failed publish. */
  function MarkPublished(db: Db, t: Token, now: int, applied: bool, acknowledged: bool): Db {
    if InPhase(db, t, Sent) then
      var id := db.deliveries[t].id;
      var d := if applied && HoldsDelivery(db, id, t) then SetRow(db, id, Publish(db.rows[id], t, now)) else db;
      if applied && acknowledged then Drop(d, t) else Advance(d, t, Failed(Plain))
    else db
  }

  predicate Troubled(db: Db, t: Token, deferred: bool) {
    t in db.deliveries && db.deliveries[t].phase.Failed? && db.deliveries[t].phase.trouble.Deferred? == deferred
  }

  function FailDelivery(db: Db, t: Token, now: int, jobExhausted: bool): Db {
    if Troubled(db, t, false) then
      var l := db.deliveries[t];
      var dead := l.phase.trouble == Permanent || l.attempts + 1 >= MAX_ATTEMPTS || jobExhausted;
      Drop(if HoldsDelivery(db, l.id, t) then SetRow(db, l.id, RecordFailure(db.rows[l.id], l.attempts + 1, dead, now)) else db, t)
    else db
  }

  /** The branch for a row claimed with its retry budget already used up. */
  function FailExhausted(db: Db, t: Token, now: int): Db {
    if InPhase(db, t, Working) && db.deliveries[t].attempts >= MAX_ATTEMPTS then
      var l := db.deliveries[t];
      Drop(if HoldsDelivery(db, l.id, t) then SetRow(db, l.id, RecordFailure(db.rows[l.id], l.attempts, true, now)) else db, t)
    else db
  }

  function ReleaseLease(db: Db, t: Token, now: int): Db {
    if Troubled(db, t, true) then
      var l := db.deliveries[t];
      Drop(if Holds(db, l.id, t) then SetRow(db, l.id, Release(db.rows[l.id], now, l.phase.trouble.retryAfter)) else db, t)
    else db
  }

  function RenewLease(db: Db, t: Token, now: int): Db {
    if t in db.deliveries && HoldsDelivery(db, db.deliveries[t].id, t) then
      var id := db.deliveries[t].id;
      SetRow(db, id, db.rows[id].(lockedAt := now))
    else db
  }

  function RecoverAbandoned(db: Db, now: int): Db {
    db.(rows := map id | id in db.rows :: if Abandonable(db.rows[id], now) then Recover(db.rows[id]) else db.rows[id])
  }

  /** The manual retry of a dead letter that is still as the operator saw it. */
  function Retry(db: Db, id: Id, expected: int, now: int): Db {
    if id in db.rows && db.rows[id].status == DeadLetter && db.rows[id].availableAt == expected then
      var r := db.rows[id];
      SetRow(db, id, r.(status := Pending, attempts := 0, availableAt := now, lockedBy := None,
                        history := r.history.(failuresSinceRetry := 0)))
    else db
  }

  function Purge(db: Db, ids: set<Id>, now: int): Db {
    if Purgeable(db, ids, now) then db.(rows := db.rows - ids) else db
  }

  function Step(db: Db, e: Event): Db {
    match e
    case Emitted(availableAt) => SetRow(db, db.nextId, NewRow(availableAt)).(nextId := db.nextId + 1)
    case BatchClaimed(ids, now) => ClaimBatch(db, ids, now)
    case ClaimReleased(id, batch, now, enqueuedOnly) => ReleaseClaim(db, id, batch, now, enqueuedOnly)
    case Claimed(id, seen, now) => ClaimDelivery(db, id, seen, now)
    case PublishReturned(t, result) => PublishReturn(db, t, result)
    case Marked(t, now, applied, acknowledged) => MarkPublished(db, t, now, applied, acknowledged)
    case FailureRecorded(t, now, jobExhausted) => FailDelivery(db, t, now, jobExhausted)
    case BudgetExhausted(t, now) => FailExhausted(db, t, now)
    case LeaseReleased(t, now) => ReleaseLease(db, t, now)
    case LeaseRenewed(t, now) => RenewLease(db, t, now)
    case Crashed(t) => Drop(db, t)
    case Recovered(now) => RecoverAbandoned(db, now)
    case Retried(id, expected, now) => Retry(db, id, expected, now)
    case Purged(ids, now) => Purge(db, ids, now)
  }

  function Run(db: Db, events: seq<Event>): Db {
    if events == [] then db else Step(Run(db, events[..|events| - 1]), events[|events| - 1])
  }

  // ----- invariant -----

  /** A lease is held exactly in the two leased states; every lease ever taken ended in one of four
      ways or is live; the attempts count the failures since the last manual retry and leave room for
      another one unless the row is finished; a row is marked published once at most, and was then
      sent under the very lease that marked it. */
  predicate RowOk(r: Row, nextToken: Token) {
    var h := r.history;
    && (Leased(r.status) <==> r.lockedBy.Some?) && (r.lockedBy.Some? ==> r.lockedBy.value < nextToken)
    && (forall t :: t in h.sent ==> t < nextToken)
    && h.acquired == h.published + h.failures + h.releases + h.recoveries + (if Leased(r.status) then 1 else 0)
    && r.attempts == h.failuresSinceRetry <= MAX_ATTEMPTS && (!Terminal(r.status) ==> r.attempts < MAX_ATTEMPTS)
    && h.published == (if r.status == Published then 1 else 0)
    && (r.status == Published ==> h.publishedBy.Some? && h.publishedBy.value in h.sent)
  }

  /** A lease belongs to one delivery, which works on this row, or to one batch, or to a worker that is gone. */
  predicate LeaseOk(id: Id, r: Row, deliveries: map<Token, Delivery>, batches: set<Token>) {
    r.lockedBy.Some? ==>
      var t := r.lockedBy.value;
      && (t in deliveries ==> r.status == Processing && deliveries[t].id == id && deliveries[t].attempts == r.attempts)
      && (t in batches ==> r.status == Enqueued)
  }

  predicate DeliveryOk(t: Token, l: Delivery, rows: map<Id, Row>, nextId: Id) {
    l.id < nextId && l.attempts < MAX_ATTEMPTS && (l.phase == Sent && l.id in rows ==> t in rows[l.id].history.sent)
  }

  predicate RowsOk(rows: map<Id, Row>, nextId: Id, nextToken: Token) {
    forall id :: id in rows ==> id < nextId && RowOk(rows[id], nextToken)
  }

  predicate LeasesOk(rows: map<Id, Row>, deliveries: map<Token, Delivery>, batches: set<Token>) {
    forall id :: id in rows ==> LeaseOk(id, rows[id], deliveries, batches)
  }

  predicate DeliveriesOk(deliveries: map<Token, Delivery>, rows: map<Id, Row>, nextId: Id) {
    forall t :: t in deliveries ==> DeliveryOk(t, deliveries[t], rows, nextId)
  }

  predicate TokensOk(deliveries: map<Token, Delivery>, batches: set<Token>, nextToken: Token) {
    && (forall t :: t in deliveries ==> t < nextToken && t !in batches)
    && (forall t :: t in batches ==> t < nextToken)
  }

  predicate Inv(db: Db) {
    && RowsOk(db.rows, db.nextId, db.nextToken)
    && LeasesOk(db.rows, db.deliveries, db.batches)
    && DeliveriesOk(db.deliveries, db.rows, db.nextId)
    && TokensOk(db.deliveries, db.batches, db.nextToken)
  }

  lemma ClaimBatchKeeps(db: Db, ids: set<Id>, now: int)
    requires Inv(db)
    ensures Inv(ClaimBatch(db, ids, now))
  {
  }

  lemma ClaimDeliveryKeeps(db: Db, id: Id, seen: Row, now: int)
    requires Inv(db)
    ensures Inv(ClaimDelivery(db, id, seen, now))
  {
  }

  lemma PublishReturnKeeps(db: Db, t: Token, result: Option<Trouble>)
    requires Inv(db)
    ensures Inv(PublishReturn(db, t, result))
  {
  }

  lemma MarkPublishedKeeps(db: Db, t: Token, now: int, applied: bool, acknowledged: bool)
    requires Inv(db)
    ensures Inv(MarkPublished(db, t, now, applied, acknowledged))
  {
  }

  lemma FailDeliveryKeeps(db: Db, t: Token, now: int, jobExhausted: bool)
    requires Inv(db)
    ensures Inv(FailDelivery(db, t, now, jobExhausted))
  {
  }

  lemma RecoverKeeps(db: Db, now: int)
    requires Inv(db)
    ensures Inv(RecoverAbandoned(db, now))
  {
  }

  lemma ReleaseKeeps(db: Db, id: Id, t: Token, now: int, enqueuedOnly: bool)
    requires Inv(db)
    ensures Inv(ReleaseClaim(db, id, t, now, enqueuedOnly)) && Inv(ReleaseLease(db, t, now))
  {
  }

  lemma HousekeepingKeeps(db: Db, id: Id, ids: set<Id>, expected: int, now: int)
    requires Inv(db)
    ensures Inv(Retry(db, id, expected, now)) && Inv(Purge(db, ids, now))
  {
  }

  lemma QuietKeeps(db: Db, t: Token, availableAt: int, now: int)
    requires Inv(db)
    ensures Inv(Step(db, Emitted(availableAt))) && Inv(FailExhausted(db, t, now)) && Inv(RenewLease(db, t, now)) && Inv(Drop(db, t))
  {
  }

  lemma StepKeeps(db: Db, e: Event)
    requires Inv(db)
    ensures Inv(Step(db, e))
  {
    hide Inv;
    match e
    case Emitted(availableAt) => QuietKeeps(db, 0, availableAt, 0);
    case BudgetExhausted(t, now) => QuietKeeps(db, t, 0, now);
    case LeaseRenewed(t, now) => QuietKeeps(db, t, 0, now);
    case Crashed(t) => QuietKeeps(db, t, 0, 0);
    case BatchClaimed(ids, now) => ClaimBatchKeeps(db, ids, now);
    case ClaimReleased(id, batch, now, enqueuedOnly) => ReleaseKeeps(db, id, batch, now, enqueuedOnly);
    case Claimed(id, seen, now) => ClaimDeliveryKeeps(db, id, seen, now);
    case PublishReturned(t, result) => PublishReturnKeeps(db, t, result);
    case Marked(t, now, applied, acknowledged) => MarkPublishedKeeps(db, t, now, applied, acknowledged);
    case FailureRecorded(t, now, jobExhausted) => FailDeliveryKeeps(db, t, now, jobExhausted);
    case LeaseReleased(t, now) => ReleaseKeeps(db, 0, t, now, false);
    case Recovered(now) => RecoverKeeps(db, now);
    case Retried(id, expected, now) => HousekeepingKeeps(db, id, {}, expected, now);
    case Purged(ids, now) => HousekeepingKeeps(db, 0, ids, 0, now);
  }

  lemma {:induction false} RunKeeps(db: Db, events: seq<Event>)
    requires Inv(db)
    ensures Inv(Run(db, events))
  {
    if events != [] {
      RunKeeps(db, events[..|events| - 1]);
      StepKeeps(Run(db, events[..|events| - 1]), events[|events| - 1]);
    }
  }

  lemma RunThen(db: Db, events: seq<Event>, e: Event)
    ensures Run(db, events + [e]) == Step(Run(db, events), e)
  {
    assert (events + [e])[..|events|] == events;
  }

  lemma RunFour(db: Db, a: Event, b: Event, c: Event, d: Event)
    ensures Run(db, [a, b, c, d]) == Step(Step(Step(Step(db, a), b), c), d)
  {
    assert Run(db, []) == db;
    RunThen(db, [], a);
    RunThen(db, [a], b);
    RunThen(db, [a, b], c);
    RunThen(db, [a, b, c], d);
    assert [] + [a] == [a] && [a] + [b] == [a, b] && [a, b] + [c] == [a, b, c] && [a, b, c] + [d] == [a, b, c, d];
  }

  // ----- theorems -----

  ghost predicate Reachable(db: Db) {
    exists events :: db == Run(EMPTY, events)
  }

  lemma ReachableInv(db: Db)
    requires Reachable(db)
    ensures Inv(db)
  {
    var events :| db == Run(EMPTY, events);
    RunKeeps(EMPTY, events);
  }

  /** In every reachable state the leases an event ever took are its publications, recorded failures,
      releases, recoveries and live lease; it is marked published once at most, and then under a lease
      under which the event bus had accepted it. */
  lemma LeasesAreAccountedFor(db: Db, id: Id)
    requires Reachable(db) && id in db.rows
    ensures var r := db.rows[id]; var h := r.history;
            && h.acquired == h.published + h.failures + h.releases + h.recoveries + (if Leased(r.status) then 1 else 0)
            && h.published == (if r.status == Published then 1 else 0)
            && (r.status == Published ==> h.publishedBy.Some? && h.publishedBy.value in h.sent)
  {
    ReachableInv(db);
  }

  /** The attempts of an event are its recorded failures since the last manual retry; an event that is
      not finished has room for another one, and so has every running delivery: the branch that finds
      the retry budget exhausted on entry never runs. */
  lemma BudgetIsNeverExhaustedOnEntry(db: Db, id: Id, t: Token, now: int)
    requires Reachable(db)
    ensures
      && (id in db.rows ==> db.rows[id].attempts == db.rows[id].history.failuresSinceRetry <= MAX_ATTEMPTS)
      && (id in db.rows && !Terminal(db.rows[id].status) ==> db.rows[id].attempts < MAX_ATTEMPTS)
      && (t in db.deliveries ==> db.deliveries[t].attempts < MAX_ATTEMPTS)
      && Step(db, BudgetExhausted(t, now)) == db
  {
    ReachableInv(db);
  }

  /** The events that act in the name of a lease. */
  predicate ActsFor(e: Event, t: Token) {
    match e
    case ClaimReleased(_, batch, _, _) => batch == t
    case PublishReturned(token, _) => token == t
    case Marked(token, _, _, _) => token == t
    case FailureRecorded(token, _, _) => token == t
    case BudgetExhausted(token, _) => token == t
    case LeaseReleased(token, _) => token == t
    case LeaseRenewed(token, _) => token == t
    case Crashed(token) => token == t
    case _ => false
  }

  /** Equal but for the note of what was sent, which no column of the table records. */
  predicate SameColumns(r: Row, s: Row) { r.(history := s.history) == s }

  /** Who may change a row: while it is leased, the holder of the lease, the recovery once the lease is
      90 seconds old, and for an enqueued row the worker that takes it over under the token it read;
      a dead letter, only the manual retry; a published row, only its purge. */
  lemma OnlyTheHolderChangesALeasedRow(db: Db, e: Event, id: Id)
    requires Inv(db) && id in db.rows
    ensures var r := db.rows[id]; var d := Step(db, e);
            match r.status
            case Processing => id in d.rows && (SameColumns(d.rows[id], r) || ActsFor(e, r.lockedBy.value) || (e.Recovered? && Abandonable(r, e.now)))
            case Enqueued => id in d.rows && (SameColumns(d.rows[id], r) || ActsFor(e, r.lockedBy.value) || (e.Recovered? && Abandonable(r, e.now))
                                              || (e.Claimed? && e.id == id && e.seen.lockedBy == r.lockedBy))
            case DeadLetter => id in d.rows && (SameColumns(d.rows[id], r) || (e.Retried? && e.id == id))
            case Published => if id in d.rows then SameColumns(d.rows[id], r) else e.Purged? && id in e.ids
            case Pending => id in d.rows && (SameColumns(d.rows[id], r) || (e.BatchClaimed? && id in e.ids) || (e.Claimed? && e.id == id))
  {
    assert RowOk(db.rows[id], db.nextToken) && id < db.nextId;
    hide Inv;
  }

  /** No row is leased under this token, which has been drawn. */
  predicate Gone(db: Db, t: Token) {
    t < db.nextToken && forall id :: id in db.rows ==> db.rows[id].lockedBy != Some(t)
  }

  lemma GoneStays(db: Db, e: Event, t: Token)
    requires Inv(db) && Gone(db, t)
    ensures Gone(Step(db, e), t)
  {
  }

  lemma {:induction false} GoneForever(db: Db, events: seq<Event>, t: Token)
    requires Inv(db) && Gone(db, t)
    ensures Gone(Run(db, events), t)
  {
    if events != [] {
      GoneForever(db, events[..|events| - 1], t);
      RunKeeps(db, events[..|events| - 1]);
      GoneStays(Run(db, events[..|events| - 1]), events[|events| - 1], t);
    }
  }

  lemma GoneIsPowerless(db: Db, e: Event, t: Token)
    requires Gone(db, t) && ActsFor(e, t)
    ensures Step(db, e).rows.Keys == db.rows.Keys
    ensures forall id :: id in db.rows ==> SameColumns(Step(db, e).rows[id], db.rows[id])
  {
  }

  /** Fencing: once recovery has taken a delivery's lease, then whatever happens afterwards, nothing that
      delivery still does changes a column of any row. */
  lemma RecoveredDeliveryIsPowerless(db: Db, t: Token, now: int, events: seq<Event>, e: Event)
    requires Inv(db) && t in db.deliveries && Holds(db, db.deliveries[t].id, t)
    requires Abandonable(db.rows[db.deliveries[t].id], now) && ActsFor(e, t)
    ensures var d := Run(RecoverAbandoned(db, now), events);
            && Step(d, e).rows.Keys == d.rows.Keys
            && forall id :: id in d.rows ==> SameColumns(Step(d, e).rows[id], d.rows[id])
  {
    RecoverKeeps(db, now);
    var c := RecoverAbandoned(db, now);
    assert Gone(c, t) by {
      forall id | id in c.rows ensures c.rows[id].lockedBy != Some(t) {
        assert LeaseOk(id, db.rows[id], db.deliveries, db.batches);
      }
    }
    GoneForever(c, events, t);
    GoneIsPowerless(Run(c, events), e, t);
  }

  /** Steps that bring the event `id` to PUBLISHED from any state. */
  function Rescue(db: Db, id: Id): seq<Event>
    requires id in db.rows
  {
    var r := db.rows[id];
    var now := r.lockedAt + LOCK_TIMEOUT_MS + 1;
    var free := if r.status == DeadLetter then Retried(id, r.availableAt, r.availableAt) else Recovered(now);
    var s := if r.status == DeadLetter then Retry(db, id, r.availableAt, r.availableAt).rows[id]
             else if Leased(r.status) then Recover(r) else r;
    if r.status == Published then []
    else [free, Claimed(id, s, s.availableAt), PublishReturned(db.nextToken, None), Marked(db.nextToken, now, true, true)]
  }

  lemma PendingIsPublished(db: Db, id: Id, now: int)
    requires Inv(db) && id in db.rows && db.rows[id].status == Pending
    ensures var t := db.nextToken;
            var c := Step(Step(db, Claimed(id, db.rows[id], db.rows[id].availableAt)), PublishReturned(t, None));
            var d := Step(c, Marked(t, now, true, true));
            id in d.rows && d.rows[id].status == Published
  {
  }

  /** No event is ever stuck: from every state that can be reached it can still be published, by recovery
      or manual retry and one delivery. */
  lemma EveryEventCanStillBePublished(db: Db, id: Id)
    requires Inv(db) && id in db.rows
    ensures id in Run(db, Rescue(db, id)).rows && Run(db, Rescue(db, id)).rows[id].status == Published
  {
    var es := Rescue(db, id);
    if db.rows[id].status != Published {
      var a := Step(db, es[0]);
      StepKeeps(db, es[0]);
      assert id in a.rows && a.rows[id] == es[1].seen && a.rows[id].status == Pending && a.nextToken == db.nextToken;
      PendingIsPublished(a, id, es[3].now);
      RunFour(db, es[0], es[1], es[2], es[3]);
    }
  }

  /** Delivery is at least once and not exactly once: a slow worker whose lease was recovered and the
      worker after it both hand the same event to the event bus. */
  lemma DeliveryIsNotExactlyOnce() returns (events: seq<Event>)
    ensures 0 in Run(EMPTY, events).rows && Run(EMPTY, events).rows[0].history.sent == {0, 1}
  {
    var e0, e1, e2 := Emitted(0), Claimed(0, NewRow(0), 0), Recovered(LOCK_TIMEOUT_MS + 1);
    var s0 := Step(EMPTY, e0);
    var s1 := Step(s0, e1);
    var s2 := Step(s1, e2);
    var e3, e4, e5 := Claimed(0, s2.rows[0], 0), PublishReturned(0, None), PublishReturned(1, None);
    events := [e0, e1, e2, e3] + [e4] + [e5];
    RunFour(EMPTY, e0, e1, e2, e3);
    RunThen(EMPTY, [e0, e1, e2, e3], e4);
    RunThen(EMPTY, [e0, e1, e2, e3] + [e4], e5);
    var s3 := Step(s2, e3);
    assert s3.deliveries == map[0 := Delivery(0, 0, Working), 1 := Delivery(0, 0, Working)] && 0 in s3.rows;
    assert s3.rows[0].history.sent == {};
  }
}
