/** Menu images: an upload is announced before it is written, attached to a menu item, replaced, and
    reclaimed by any number of cleaners. Database statements are single steps, and so is the moment a storage
    call takes effect, which may come long after its caller has given up. */
module MenuImages {
  import opened Sums

  type Id = nat
  type Worker = nat
  type Employee = nat
  type Request = nat

  const DRAFT_TTL_MS := 24 * 60 * 60 * 1_000
  const LEASE_MS := 5 * 60_000
  const CLEANUP_BATCH := 25

  datatype Status = Uploading | Ready | Attached | Deleting
  datatype Row = Row(status: Status, employee: Employee, menuItem: Option<Id>, expiresAt: int)

  /** A cleaner that leased a row, and the removal it asked the storage for. */
  datatype Cleaner = Cleaner(id: Id, lease: int, request: Request)

  /** `objects` are the stored files. `uploads` wait for the storage; `writes` are the files that the storage may
      still write, with the time at which their announcement expires, and `removals` those that it may still
      remove. A call that never arrives never takes effect. */
  datatype Db = Db(
    rows: map<Id, Row>, nextId: Id, objects: set<Id>, uploads: set<Id>, writes: map<Id, int>,
    cleaners: map<Worker, Cleaner>, removals: map<Request, Id>, nextRequest: Request)

  const EMPTY: Db := Db(map[], 0, {}, {}, map[], map[], map[], 0)

  /** The image a menu item refers to: a tracked upload, a managed address that is not tracked, or any other. */
  datatype Reference = NoImage | Tracked(id: Id) | Untracked | External

  datatype Event =
    | UploadAnnounced(employee: Employee, now: int)
    | FileWritten(id: Id, now: int)
    | UploadFinished(id: Id, now: int)
    | UploadLost(id: Id)
    | Synced(employee: Employee, menuItem: Id, reference: Reference, now: int)
    | CleanupClaimed(worker: Worker, id: Id, cycleAt: int, now: int)
    | CleanupPostponed(id: Id, cycleAt: int, now: int)
    | FileRemoved(request: Request)
    | RowDeleted(worker: Worker)
    | CleanerLost(worker: Worker)

  function Announce(db: Db, employee: Employee, now: int): Db {
    db.(rows := db.rows[db.nextId := Row(Uploading, employee, None, now + DRAFT_TTL_MS)], nextId := db.nextId + 1,
        uploads := db.uploads + {db.nextId}, writes := db.writes[db.nextId := now + DRAFT_TTL_MS])
  }

  /** The storage writes an announced file, once and however late. */
  function WriteFile(db: Db, id: Id): Db {
    if id in db.writes then db.(objects := db.objects + {id}, writes := db.writes - {id}) else db
  }

  /** The upload goes on when the storage has confirmed the file. */
  function FinishUpload(db: Db, id: Id, now: int): Db {
    if id in db.uploads && id !in db.writes then
      var d := db.(uploads := db.uploads - {id});
      if id in db.rows && db.rows[id].status == Uploading && db.rows[id].expiresAt > now
      then d.(rows := db.rows[id := db.rows[id].(status := Ready)]) else d
    else db
  }

  /** The condition under which an upload may be attached: a fresh one of the employee's own, or the one
      that is attached already. */
  predicate Attachable(r: Row, employee: Employee, menuItem: Id, now: int) {
    || (r.status == Ready && r.employee == employee && r.menuItem.None? && r.expiresAt > now)
    || (r.status == Attached && r.menuItem == Some(menuItem))
  }

  function Attach(rows: map<Id, Row>, menuItem: Id, keep: Option<Id>, now: int): map<Id, Row> {
    map id | id in rows ::
      if keep == Some(id) then rows[id].(status := Attached, menuItem := Some(menuItem))
      else if rows[id].status == Attached && rows[id].menuItem == Some(menuItem) then rows[id].(status := Deleting, expiresAt := now + DRAFT_TTL_MS)
      else rows[id]
  }

  /** `syncReference`, inside the transaction that saves the menu item; `None` if it refuses. */
  function Sync(db: Db, employee: Employee, menuItem: Id, reference: Reference, now: int): Option<Db> {
    match reference
    case NoImage => Some(db.(rows := Attach(db.rows, menuItem, None, now)))
    case External => Some(db.(rows := Attach(db.rows, menuItem, None, now)))
    case Untracked => None
    case Tracked(id) =>
      if id in db.rows && Attachable(db.rows[id], employee, menuItem, now)
      then Some(db.(rows := Attach(db.rows, menuItem, Some(id), now))) else None
  }

  predicate Reclaimable(r: Row, cycleAt: int) { r.status != Attached && r.expiresAt <= cycleAt }

  /** A cleaner of the cycle that began at `cycleAt` leases a row and asks the storage to remove its file. */
  function Claim(db: Db, w: Worker, id: Id, cycleAt: int, now: int): Db {
    if w !in db.cleaners && id in db.rows && Reclaimable(db.rows[id], cycleAt) && cycleAt <= now
    then db.(rows := db.rows[id := db.rows[id].(status := Deleting, expiresAt := now + LEASE_MS)],
             cleaners := db.cleaners[w := Cleaner(id, now + LEASE_MS, db.nextRequest)],
             removals := db.removals[db.nextRequest := id], nextRequest := db.nextRequest + 1)
    else db
  }

  /** A row whose address does not fit the configuration is only postponed. */
  function Postpone(db: Db, id: Id, cycleAt: int, now: int): Db {
    if id in db.rows && Reclaimable(db.rows[id], cycleAt) && cycleAt <= now
    then db.(rows := db.rows[id := db.rows[id].(expiresAt := now + DRAFT_TTL_MS)]) else db
  }

  /** The storage removes a file, whether or not the cleaner that asked for it still waits. */
  function RemoveFile(db: Db, r: Request): Db {
    if r in db.removals then db.(objects := db.objects - {db.removals[r]}, removals := db.removals - {r}) else db
  }

  /** The removal that the cleaner asked for is done. */
  predicate Confirmed(db: Db, w: Worker) { w in db.cleaners && db.cleaners[w].request !in db.removals }

  /** A cleaner whose removal is confirmed deletes the row, if it still holds the lease. */
  function DeleteRow(db: Db, w: Worker): Db {
    if Confirmed(db, w) then
      var c := db.cleaners[w];
      var d := db.(cleaners := db.cleaners - {w});
      if c.id in db.rows && db.rows[c.id].status == Deleting && db.rows[c.id].expiresAt == c.lease then d.(rows := db.rows - {c.id}) else d
    else db
  }

  function Step(db: Db, e: Event): Db {
    match e
    case UploadAnnounced(employee, now) => Announce(db, employee, now)
    case FileWritten(id, _) => WriteFile(db, id)
    case UploadFinished(id, now) => FinishUpload(db, id, now)
    case UploadLost(id) => db.(uploads := db.uploads - {id})
    case Synced(employee, menuItem, reference, now) =>
      var o := Sync(db, employee, menuItem, reference, now);
      if o.Some? then o.value else db
    case CleanupClaimed(w, id, cycleAt, now) => Claim(db, w, id, cycleAt, now)
    case CleanupPostponed(id, cycleAt, now) => Postpone(db, id, cycleAt, now)
    case FileRemoved(r) => RemoveFile(db, r)
    case RowDeleted(w) => DeleteRow(db, w)
    case CleanerLost(w) => db.(cleaners := db.cleaners - {w})
  }

  function Run(db: Db, events: seq<Event>): Db {
    if events == [] then db else Step(Run(db, events[..|events| - 1]), events[|events| - 1])
  }

  // ----- invariant -----

  /** What may be shown has its file, for good; so has an upload that was written and is not being deleted. */
  predicate RowOk(id: Id, r: Row, nextId: Id, objects: set<Id>, writes: map<Id, int>) {
    && id < nextId && (r.status == Ready || r.status == Attached ==> id in objects)
    && (r.status == Uploading && id !in writes ==> id in objects)
    && (r.status == Attached ==> r.menuItem.Some?)
  }

  /** A cleaner works on a row that is being deleted, or on none, and the row never expires before its lease. */
  predicate CleanerOk(c: Cleaner, db: Db) {
    && c.id < db.nextId && c.request < db.nextRequest && (c.request in db.removals ==> db.removals[c.request] == c.id)
    && (c.id in db.rows ==> db.rows[c.id].status == Deleting && c.lease <= db.rows[c.id].expiresAt)
  }

  predicate RemovalOk(r: Request, id: Id, db: Db) {
    r < db.nextRequest && id < db.nextId && (id in db.rows ==> db.rows[id].status == Deleting)
  }

  predicate OneImageEach(rows: map<Id, Row>) {
    forall i, j :: i in rows && j in rows && rows[i].status == Attached && rows[j].status == Attached && rows[i].menuItem == rows[j].menuItem ==> i == j
  }

  ghost predicate Inv(db: Db) {
    && (forall id :: id in db.rows ==> RowOk(id, db.rows[id], db.nextId, db.objects, db.writes))
    && (forall w :: w in db.cleaners ==> CleanerOk(db.cleaners[w], db))
    && (forall r :: r in db.removals ==> RemovalOk(r, db.removals[r], db))
    && (forall id :: id in db.uploads || id in db.writes || id in db.objects ==> id < db.nextId)
    && (forall id :: id in db.writes ==> id !in db.objects)
    && OneImageEach(db.rows)
  }

  lemma SyncKeeps(db: Db, employee: Employee, menuItem: Id, reference: Reference, now: int)
    requires Inv(db)
    ensures Sync(db, employee, menuItem, reference, now).Some? ==> Inv(Sync(db, employee, menuItem, reference, now).value)
  {
  }

  lemma ClaimKeeps(db: Db, w: Worker, id: Id, cycleAt: int, now: int)
    requires Inv(db)
    ensures Inv(Claim(db, w, id, cycleAt, now))
  {
    var d := Claim(db, w, id, cycleAt, now);
    forall v | v in d.cleaners
      ensures CleanerOk(d.cleaners[v], d)
    {
      if v in db.cleaners {
        assert CleanerOk(db.cleaners[v], db);
      }
    }
  }

  lemma PostponeKeeps(db: Db, id: Id, cycleAt: int, now: int)
    requires Inv(db)
    ensures Inv(Postpone(db, id, cycleAt, now))
  {
  }

  lemma RemoveFileKeeps(db: Db, r: Request)
    requires Inv(db)
    ensures Inv(RemoveFile(db, r))
  {
  }

  lemma DeleteRowKeeps(db: Db, w: Worker)
    requires Inv(db)
    ensures Inv(DeleteRow(db, w))
  {
  }

  lemma AnnounceKeeps(db: Db, employee: Employee, now: int)
    requires Inv(db)
    ensures Inv(Announce(db, employee, now))
  {
  }

  lemma WriteFileKeeps(db: Db, id: Id)
    requires Inv(db)
    ensures Inv(WriteFile(db, id))
  {
  }

  lemma FinishUploadKeeps(db: Db, id: Id, now: int)
    requires Inv(db)
    ensures Inv(FinishUpload(db, id, now))
  {
  }

  lemma CallerLostKeeps(db: Db, id: Id, w: Worker)
    requires Inv(db)
    ensures Inv(db.(uploads := db.uploads - {id})) && Inv(db.(cleaners := db.cleaners - {w}))
  {
  }

  lemma StepKeeps(db: Db, e: Event)
    requires Inv(db)
    ensures Inv(Step(db, e))
  {
    hide Inv;
    match e
    case UploadAnnounced(employee, now) => AnnounceKeeps(db, employee, now);
    case FileWritten(id, _) => WriteFileKeeps(db, id);
    case UploadFinished(id, now) => FinishUploadKeeps(db, id, now);
    case UploadLost(id) => CallerLostKeeps(db, id, 0);
    case CleanerLost(w) => CallerLostKeeps(db, 0, w);
    case Synced(employee, menuItem, reference, now) => SyncKeeps(db, employee, menuItem, reference, now);
    case CleanupClaimed(w, id, cycleAt, now) => ClaimKeeps(db, w, id, cycleAt, now);
    case CleanupPostponed(id, cycleAt, now) => PostponeKeeps(db, id, cycleAt, now);
    case FileRemoved(r) => RemoveFileKeeps(db, r);
    case RowDeleted(w) => DeleteRowKeeps(db, w);
  }

  lemma {:induction false} RunKeeps(db: Db, events: seq<Event>)
    requires Inv(db)
    ensures Inv(Run(db, events))
  {
    if events != [] {
      RunKeeps(db, events[..|events| - 1]);
      StepKeeps(Run(db, events[..|events| - 1]), events[|events| - 1]);
    }
  }

  // ----- theorems -----

  ghost predicate Reachable(db: Db) {
    exists events :: db == Run(EMPTY, events)
  }

  lemma ReachableInv(db: Db)
    requires Reachable(db)
    ensures Inv(db)
  {
    var events :| db == Run(EMPTY, events);
    RunKeeps(EMPTY, events);
  }

  /** With any number of cleaners, and writes and removals however late: an image that can be shown always has its file, and a menu
      item has one attached image at most. */
  lemma ShownImagesExist(db: Db, i: Id, j: Id)
    requires Reachable(db)
    ensures
      && (i in db.rows && (db.rows[i].status == Ready || db.rows[i].status == Attached) ==> i in db.objects)
      && (i in db.rows && j in db.rows && db.rows[i].menuItem == db.rows[j].menuItem ==>
           db.rows[i].status == Attached && db.rows[j].status == Attached ==> i == j)
  {
    ReachableInv(db);
  }

  /** A row that is being deleted stays so until a cleaner whose removal was confirmed deletes it under its
      own lease, and an attached one leaves that state only when its menu item takes another image. */
  lemma DeletingEndsByRemoval(db: Db, e: Event, id: Id)
    requires Inv(db) && id in db.rows
    ensures db.rows[id].status == Deleting ==>
              if id in Step(db, e).rows then Step(db, e).rows[id].status == Deleting
              else e.RowDeleted? && Confirmed(db, e.worker) && db.cleaners[e.worker].id == id && db.cleaners[e.worker].lease == db.rows[id].expiresAt
    ensures db.rows[id].status == Attached ==>
              id in Step(db, e).rows && (Step(db, e).rows[id].status == Attached
                || (e.Synced? && Some(e.menuItem) == db.rows[id].menuItem && e.reference != Tracked(id)))
  {
  }

  lemma DeletedStepStays(db: Db, e: Event, id: Id)
    requires Inv(db) && id < db.nextId && id !in db.rows
    ensures id !in Step(db, e).rows && id < Step(db, e).nextId
  {
  }

  /** A deleted row never comes back, and its image is never shown again. */
  lemma {:induction false} DeletedForGood(db: Db, id: Id, events: seq<Event>)
    requires Inv(db) && id < db.nextId && (id in db.rows ==> db.rows[id].status == Deleting)
    ensures id in Run(db, events).rows ==> Run(db, events).rows[id].status == Deleting
    ensures id < Run(db, events).nextId
  {
    if events != [] {
      var before, e := Run(db, events[..|events| - 1]), events[|events| - 1];
      DeletedForGood(db, id, events[..|events| - 1]);
      RunKeeps(db, events[..|events| - 1]);
      if id in before.rows {
        DeletingEndsByRemoval(before, e, id);
        NextIdGrows(before, e);
      } else {
        DeletedStepStays(before, e, id);
      }
      hide Step, Inv;
    }
  }

  lemma NextIdGrows(db: Db, e: Event)
    ensures Step(db, e).nextId >= db.nextId
  {
  }

  lemma RunThen(db: Db, events: seq<Event>, e: Event)
    ensures Run(db, events + [e]) == Step(Run(db, events), e)
  {
    assert (events + [e])[..|events|] == events;
  }

  lemma RunFive(db: Db, a: Event, b: Event, c: Event, d: Event, e: Event)
    ensures Run(db, [a, b, c, d, e]) == Step(Step(Step(Step(Step(db, a), b), c), d), e)
  {
    hide Step;
    assert Run(db, []) == db;
    RunThen(db, [], a);
    RunThen(db, [a], b);
    RunThen(db, [a, b], c);
    RunThen(db, [a, b, c], d);
    RunThen(db, [a, b, c, d], e);
    assert [] + [a] == [a] && [a] + [b] == [a, b] && [a, b] + [c] == [a, b, c] && [a, b, c] + [d] == [a, b, c, d];
    assert [a, b, c, d] + [e] == [a, b, c, d, e];
  }

  /** Files can be left behind: an upload that outlives its announcement writes after the cleaner was done. */
  lemma SlowUploadLeavesAFile() returns (events: seq<Event>)
    ensures LeftBehind(Run(EMPTY, events), 0)
  {
    var t := DRAFT_TTL_MS;
    var a, b, c, d, e := UploadAnnounced(0, 0), CleanupClaimed(0, 0, t, t), FileRemoved(0), RowDeleted(0), FileWritten(0, t);
    events := [a, b, c, d, e];
    RunFive(EMPTY, a, b, c, d, e);
  }

  // ----- files without a row -----

  /** A stored file that no row tells of: nothing will reclaim it. */
  predicate LeftBehind(db: Db, id: Id) { id in db.objects && id !in db.rows }

  function Before(events: seq<Event>, k: nat): Db
    requires k <= |events|
  {
    Run(EMPTY, events[..k])
  }

  /** The storage wrote the file of `id` at step `k`. */
  ghost predicate WrittenAt(events: seq<Event>, k: nat, id: Id) {
    k < |events| && events[k].FileWritten? && events[k].id == id && id in Before(events, k).writes
  }

  /** The storage removed the file of `id`, or found none, at step `k`. */
  ghost predicate RemovedAt(events: seq<Event>, k: nat, id: Id) {
    k < |events| && events[k].FileRemoved? && events[k].request in Before(events, k).removals && Before(events, k).removals[events[k].request] == id
  }

  /** A cleaner deleted the row of `id` at step `k`. */
  ghost predicate DroppedAt(events: seq<Event>, k: nat, id: Id) {
    k < |events| && events[k].RowDeleted? && id in Before(events, k).rows && id !in Step(Before(events, k), events[k]).rows
  }

  ghost predicate AllRemovedBy(events: seq<Event>, k: nat, id: Id) {
    forall r: nat :: RemovedAt(events, r, id) ==> r < k
  }

  ghost predicate Stored(events: seq<Event>, id: Id) {
    exists k :: WrittenAt(events, k, id) && AllRemovedBy(events, k, id)
  }

  ghost predicate Dropped(events: seq<Event>, id: Id) {
    exists k :: DroppedAt(events, k, id)
  }

  /** What happened before the last step happened in the run without it. */
  lemma HappenedBefore(events: seq<Event>, id: Id)
    requires events != []
    ensures forall k: nat :: k + 1 < |events| ==> (WrittenAt(events, k, id) <==> WrittenAt(events[..|events| - 1], k, id))
    ensures forall k: nat :: k + 1 < |events| ==> (RemovedAt(events, k, id) <==> RemovedAt(events[..|events| - 1], k, id))
    ensures forall k: nat :: k + 1 < |events| ==> (DroppedAt(events, k, id) <==> DroppedAt(events[..|events| - 1], k, id))
  {
    hide Run, Step;
    forall k: nat | k + 1 < |events|
      ensures events[..|events| - 1][..k] == events[..k]
    {
    }
  }

  lemma NothingHappensAfter(events: seq<Event>, id: Id)
    ensures forall k: nat :: WrittenAt(events, k, id) || RemovedAt(events, k, id) || DroppedAt(events, k, id) ==> k < |events|
  {
  }

  lemma FileChanges(db: Db, e: Event, id: Id)
    ensures id in Step(db, e).objects <==>
              || (e.FileWritten? && e.id == id && id in db.writes)
              || (id in db.objects && !(e.FileRemoved? && e.request in db.removals && db.removals[e.request] == id))
  {
  }

  /** What the last step of a run does to a file and to its row. */
  lemma LastStep(events: seq<Event>, id: Id)
    requires events != []
    ensures var n := |events| - 1;
            && !(WrittenAt(events, n, id) && RemovedAt(events, n, id))
            && (id in Run(EMPTY, events).objects <==>
                 WrittenAt(events, n, id) || (id in Run(EMPTY, events[..n]).objects && !RemovedAt(events, n, id)))
            && (id < Run(EMPTY, events).nextId && id !in Run(EMPTY, events).rows <==>
                 DroppedAt(events, n, id) || (id < Run(EMPTY, events[..n]).nextId && id !in Run(EMPTY, events[..n]).rows))
  {
    hide Step, Inv;
    RunKeeps(EMPTY, events[..|events| - 1]);
    RowGoes(Run(EMPTY, events[..|events| - 1]), events[|events| - 1], id);
    FileChanges(Run(EMPTY, events[..|events| - 1]), events[|events| - 1], id);
  }

  /** A file is stored exactly if it was written and every removal came before. */
  lemma {:induction false} StoredIfWrittenLast(events: seq<Event>, id: Id)
    ensures id in Run(EMPTY, events).objects <==> Stored(events, id)
  {
    hide Step, WrittenAt, RemovedAt;
    NothingHappensAfter(events, id);
    if events != [] {
      var n := |events| - 1;
      hide Run;
      StoredIfWrittenLast(events[..n], id);
      NothingHappensAfter(events[..n], id);
      HappenedBefore(events, id);
      LastStep(events, id);
      if WrittenAt(events, n, id) {
        assert AllRemovedBy(events, n, id);
      } else if RemovedAt(events, n, id) {
        assert forall k: nat :: WrittenAt(events, k, id) ==> k < n && !AllRemovedBy(events, k, id);
      } else {
        assert forall k: nat :: WrittenAt(events, k, id) <==> WrittenAt(events[..n], k, id);
        assert forall k: nat :: RemovedAt(events, k, id) <==> RemovedAt(events[..n], k, id);
        assert forall k: nat :: AllRemovedBy(events, k, id) <==> AllRemovedBy(events[..n], k, id);
      }
    }
  }

  /** An announced upload has lost its row exactly if a cleaner deleted it. */
  lemma {:induction false} RowGoneIfDropped(events: seq<Event>, id: Id)
    ensures id < Run(EMPTY, events).nextId && id !in Run(EMPTY, events).rows <==> Dropped(events, id)
  {
    hide Step, DroppedAt;
    NothingHappensAfter(events, id);
    if events != [] {
      var n := |events| - 1;
      hide Run;
      RowGoneIfDropped(events[..n], id);
      NothingHappensAfter(events[..n], id);
      HappenedBefore(events, id);
      LastStep(events, id);
      if Dropped(events[..n], id) {
        var k: nat :| DroppedAt(events[..n], k, id);
        assert DroppedAt(events, k, id);
      }
    }
  }

  ghost predicate Removed(events: seq<Event>, id: Id) {
    exists k :: RemovedAt(events, k, id)
  }

  ghost predicate SomeoneConfirmed(db: Db, id: Id) {
    exists w :: Confirmed(db, w) && db.cleaners[w].id == id
  }

  /** Neither a cleaner has its removal confirmed nor a row is gone before the storage has removed the file. */
  lemma {:induction false} RemovalComesFirst(events: seq<Event>, id: Id)
    ensures SomeoneConfirmed(Run(EMPTY, events), id) || Dropped(events, id) ==> Removed(events, id)
  {
    NothingHappensAfter(events, id);
    if events != [] {
      var n := |events| - 1;
      var init, e := events[..n], events[n];
      RemovalComesFirst(init, id);
      NothingHappensAfter(init, id);
      HappenedBefore(events, id);
      RunKeeps(EMPTY, init);
      ConfirmedByRemoval(Run(EMPTY, init), e, id);
      RowGoes(Run(EMPTY, init), e, id);
      assert RemovedAt(events, n, id) <==> e.FileRemoved? && e.request in Run(EMPTY, init).removals && Run(EMPTY, init).removals[e.request] == id;
      assert DroppedAt(events, n, id) ==> SomeoneConfirmed(Run(EMPTY, init), id);
      hide Step, Inv, RemovedAt, DroppedAt;
      if Removed(init, id) {
        var k: nat :| RemovedAt(init, k, id);
        assert RemovedAt(events, k, id);
      }
      if Dropped(events, id) {
        var k: nat :| DroppedAt(events, k, id);
        assert k == n || DroppedAt(init, k, id);
      }
    }
  }

  /** A row goes only when a cleaner with a confirmed removal deletes it, and none comes back. */
  lemma RowGoes(db: Db, e: Event, id: Id)
    requires Inv(db)
    ensures id < Step(db, e).nextId && id !in Step(db, e).rows <==>
              (id < db.nextId && id !in db.rows) || (e.RowDeleted? && id in db.rows && id !in Step(db, e).rows)
    ensures id in db.rows && id !in Step(db, e).rows ==> e.RowDeleted? && Confirmed(db, e.worker) && db.cleaners[e.worker].id == id
  {
    assert id in db.rows ==> id < db.nextId;
    hide Inv, RowOk, CleanerOk, RemovalOk;
  }

  /** A removal is confirmed by the storage doing it. */
  lemma ConfirmedByRemoval(db: Db, e: Event, id: Id)
    requires Inv(db)
    ensures forall w :: Confirmed(Step(db, e), w) && Step(db, e).cleaners[w].id == id ==>
              (Confirmed(db, w) && db.cleaners[w].id == id)
              || (e.FileRemoved? && e.request in db.removals && db.removals[e.request] == id)
  {
  }

  /** A run leaves a file behind exactly if its row was deleted and it was written after every removal of it,
      so after the one that the deletion waited for. */
  lemma LeftBehindIff(events: seq<Event>, id: Id)
    ensures LeftBehind(Run(EMPTY, events), id) <==> Dropped(events, id) && Stored(events, id)
    ensures LeftBehind(Run(EMPTY, events), id) ==> exists r: nat, w: nat :: RemovedAt(events, r, id) && WrittenAt(events, w, id) && r < w
  {
    RunKeeps(EMPTY, events);
    StoredIfWrittenLast(events, id);
    RowGoneIfDropped(events, id);
    RemovalComesFirst(events, id);
    hide Run, Step;
    if LeftBehind(Run(EMPTY, events), id) {
      var r :| RemovedAt(events, r, id);
      var w :| WrittenAt(events, w, id) && AllRemovedBy(events, w, id);
      assert r < w;
    }
  }

  /** The two steps that leave a file behind: it is written when the row is gone, or the row is deleted when
      the file has been written since its removal. */
  lemma LeftBehindIsBorn(db: Db, e: Event, id: Id)
    requires Inv(db) && !LeftBehind(db, id)
    ensures LeftBehind(Step(db, e), id) <==>
              || (e.FileWritten? && e.id == id && id in db.writes && id !in db.rows)
              || (e.RowDeleted? && Confirmed(db, e.worker) && db.cleaners[e.worker].id == id && id in db.rows
                  && db.cleaners[e.worker].lease == db.rows[id].expiresAt && id in db.objects)
  {
  }

  /** A cleaner that holds the lease of the row and has its removal confirmed. */
  predicate AboutToDelete(db: Db, w: Worker, id: Id) {
    Confirmed(db, w) && db.cleaners[w].id == id && id in db.rows && db.cleaners[w].lease == db.rows[id].expiresAt
  }

  ghost predicate AtRisk(db: Db, id: Id) {
    || LeftBehind(db, id) || id in db.writes
    || (id in db.objects && exists w :: AboutToDelete(db, w, id))
  }

  /** A cleaner comes to delete a row only through the removal of its file: its lease does not come back. */
  lemma AboutToDeleteAfter(db: Db, e: Event, w: Worker, id: Id)
    requires w in db.cleaners ==> CleanerOk(db.cleaners[w], db)
    requires AboutToDelete(Step(db, e), w, id)
    ensures AboutToDelete(db, w, id) || (e.FileRemoved? && e.request in db.removals && db.removals[e.request] == id)
  {
  }

  lemma SafeStepStays(db: Db, e: Event, id: Id)
    requires Inv(db) && id < db.nextId && !AtRisk(db, id)
    ensures !AtRisk(Step(db, e), id) && id < Step(db, e).nextId
  {
    var d := Step(db, e);
    LeftBehindIsBorn(db, e, id);
    forall w | AboutToDelete(d, w, id)
      ensures id !in d.objects
    {
      AboutToDeleteAfter(db, e, w, id);
    }
    if e.RowDeleted? && id in db.objects {
      assert !AboutToDelete(db, e.worker, id);
    }
  }

  lemma {:induction false} SafeStays(db: Db, id: Id, events: seq<Event>)
    requires Inv(db) && id < db.nextId && !AtRisk(db, id)
    ensures !AtRisk(Run(db, events), id) && id < Run(db, events).nextId
  {
    hide Inv, AtRisk, Step;
    if events != [] {
      SafeStays(db, id, events[..|events| - 1]);
      RunKeeps(db, events[..|events| - 1]);
      SafeStepStays(Run(db, events[..|events| - 1]), events[|events| - 1], id);
    }
  }

  /** The file of an announced upload can still end without a row exactly while it has, while it may still be
      written, or while it is stored and a cleaner whose removal is confirmed holds the row's lease. */
  lemma RiskDecides(db: Db, id: Id)
    requires Inv(db) && id < db.nextId
    ensures AtRisk(db, id) <==> exists events: seq<Event> :: LeftBehind(Run(db, events), id)
  {
    hide Run, LeftBehind;
    if AtRisk(db, id) {
      var events := LeaveBehind(db, id);
      assert LeftBehind(Run(db, events), id);
    } else {
      forall events: seq<Event>
        ensures !LeftBehind(Run(db, events), id)
      {
        SafeStays(db, id, events);
        assert !AtRisk(Run(db, events), id);
      }
    }
  }

  /** A cleaner reclaims a row whose file has not been written yet, and then it is written. */
  lemma LateWrite(db: Db, id: Id) returns (events: seq<Event>)
    requires Inv(db) && id in db.writes && id in db.rows
    ensures LeftBehind(Run(db, events), id)
  {
    var t := db.rows[id].expiresAt;
    var a, b, c, d, e := CleanerLost(0), CleanupClaimed(0, id, t, t), FileRemoved(db.nextRequest), RowDeleted(0), FileWritten(id, t);
    events := [a, b, c, d, e];
    RunFive(db, a, b, c, d, e);
  }

  lemma LeaveBehind(db: Db, id: Id) returns (events: seq<Event>)
    requires Inv(db) && AtRisk(db, id)
    ensures LeftBehind(Run(db, events), id)
  {
    if LeftBehind(db, id) {
      events := [];
    } else if id in db.writes && id !in db.rows {
      events := [FileWritten(id, 0)];
      RunThree(db, events[0], events[0], events[0]);
    } else if id in db.writes {
      events := LateWrite(db, id);
    } else {
      var w :| AboutToDelete(db, w, id);
      events := [RowDeleted(w)];
      RunThree(db, events[0], events[0], events[0]);
    }
  }

  // ----- writes in time -----

  function Time(e: Event, clock: int): int {
    match e
    case UploadAnnounced(_, now) => now
    case FileWritten(_, now) => now
    case UploadFinished(_, now) => now
    case Synced(_, _, _, now) => now
    case CleanupClaimed(_, _, _, now) => now
    case CleanupPostponed(_, _, now) => now
    case _ => clock
  }

  function Clock(events: seq<Event>, start: int): int {
    if events == [] then start else Time(events[|events| - 1], Clock(events[..|events| - 1], start))
  }

  /** Time does not run backwards, and the storage writes no file after its announcement has expired. */
  predicate InTime(events: seq<Event>, start: int) {
    events == [] ||
    (var init, e := events[..|events| - 1], events[|events| - 1];
     && InTime(init, start) && Clock(init, start) <= Time(e, Clock(init, start))
     && (e.FileWritten? && e.id in Run(EMPTY, init).writes ==> e.now < Run(EMPTY, init).writes[e.id]))
  }

  /** What may still be written is announced and not leased, unless it is too late. */
  predicate WriteTimely(db: Db, id: Id, clock: int)
    requires id in db.writes
  {
    db.writes[id] <= clock || (id in db.rows && db.rows[id].status == Uploading && db.writes[id] <= db.rows[id].expiresAt)
  }

  ghost predicate TimedInv(db: Db, clock: int) {
    && db.objects <= db.rows.Keys
    && (forall id :: id in db.writes ==> WriteTimely(db, id, clock))
    && (forall w :: Confirmed(db, w) ==> db.cleaners[w].id !in db.objects)
  }

  lemma WriteStaysTimely(db: Db, e: Event, id: Id, clock: int)
    requires id < db.nextId && id in db.writes && WriteTimely(db, id, clock) && clock <= Time(e, clock)
    requires forall w :: w in db.cleaners ==> CleanerOk(db.cleaners[w], db)
    ensures id in Step(db, e).writes ==> WriteTimely(Step(db, e), id, Time(e, clock))
  {
  }

  lemma TimedStep(db: Db, e: Event, clock: int)
    requires Inv(db) && TimedInv(db, clock) && clock <= Time(e, clock)
    requires e.FileWritten? && e.id in db.writes ==> e.now < db.writes[e.id]
    ensures TimedInv(Step(db, e), Time(e, clock))
  {
    var d := Step(db, e);
    forall id | id in d.writes
      ensures WriteTimely(d, id, Time(e, clock))
    {
      if id in db.writes {
        WriteStaysTimely(db, e, id, clock);
      }
    }
    forall w | Confirmed(d, w)
      ensures d.cleaners[w].id !in d.objects
    {
      ConfirmedByRemoval(db, e, d.cleaners[w].id);
    }
    forall id | id in d.objects
      ensures id in d.rows
    {
      LeftBehindIsBorn(db, e, id);
    }
  }

  /** If every write comes before its announcement expires, no file is ever without a row. */
  lemma {:induction false} WritesInTimeLeaveNothing(events: seq<Event>, start: int)
    requires InTime(events, start)
    ensures Run(EMPTY, events).objects <= Run(EMPTY, events).rows.Keys
    ensures TimedInv(Run(EMPTY, events), Clock(events, start))
  {
    hide Inv, Step;
    if events != [] {
      var init := events[..|events| - 1];
      WritesInTimeLeaveNothing(init, start);
      RunKeeps(EMPTY, init);
      TimedStep(Run(EMPTY, init), events[|events| - 1], Clock(init, start));
    }
  }

  // ----- the service -----

  function CleanupSteps(db: Db, id: Id, cycleAt: int, now: int, fits: bool, removes: bool): seq<Event> {
    if id !in db.rows || !Reclaimable(db.rows[id], cycleAt) then []
    else if !fits then [CleanupPostponed(id, cycleAt, now)]
    else if removes then [CleanupClaimed(0, id, cycleAt, now), FileRemoved(db.nextRequest), RowDeleted(0)]
    else [CleanupClaimed(0, id, cycleAt, now), CleanerLost(0)]
  }

  lemma RunThree(db: Db, a: Event, b: Event, c: Event)
    ensures Run(db, []) == db && Run(db, [a]) == Step(db, a)
    ensures Run(db, [a, b]) == Step(Step(db, a), b) && Run(db, [a, b, c]) == Step(Step(Step(db, a), b), c)
  {
    hide Step;
    assert Run(db, []) == db;
    RunThen(db, [], a);
    RunThen(db, [a], b);
    RunThen(db, [a, b], c);
    assert [] + [a] == [a] && [a] + [b] == [a, b] && [a, b] + [c] == [a, b, c];
  }

  /** A cleaner that leases a row and is not disturbed. */
  lemma ClaimedAlone(db: Db, id: Id, cycleAt: int, now: int)
    requires 0 !in db.cleaners && id in db.rows && Reclaimable(db.rows[id], cycleAt) && cycleAt <= now && db.nextRequest !in db.removals
    ensures var d := Claim(db, 0, id, cycleAt, now);
            && d.(cleaners := d.cleaners - {0}) == CleanAlone(db, id, cycleAt, now, true, false)
            && DeleteRow(RemoveFile(d, db.nextRequest), 0) == CleanAlone(db, id, cycleAt, now, true, true)
  {
    var d := Claim(db, 0, id, cycleAt, now);
    assert d.cleaners - {0} == db.cleaners;
    var f := RemoveFile(d, db.nextRequest);
    assert f.cleaners - {0} == db.cleaners && f.rows - {id} == db.rows - {id} && f.removals == db.removals;
  }

  /** The effect of one cleaner at work alone, on each way through. */
  function CleanAlone(db: Db, id: Id, cycleAt: int, now: int, fits: bool, removes: bool): Db {
    if id !in db.rows || !Reclaimable(db.rows[id], cycleAt) then db
    else if !fits then db.(rows := db.rows[id := db.rows[id].(expiresAt := now + DRAFT_TTL_MS)])
    else if removes then db.(rows := db.rows - {id}, objects := db.objects - {id}, nextRequest := db.nextRequest + 1)
    else db.(rows := db.rows[id := db.rows[id].(status := Deleting, expiresAt := now + LEASE_MS)],
             removals := db.removals[db.nextRequest := id], nextRequest := db.nextRequest + 1)
  }

  lemma CleanupRuns(db: Db, id: Id, cycleAt: int, now: int, fits: bool, removes: bool)
    requires 0 !in db.cleaners && cycleAt <= now && db.nextRequest !in db.removals
    ensures Run(db, CleanupSteps(db, id, cycleAt, now, fits, removes)) == CleanAlone(db, id, cycleAt, now, fits, removes)
  {
    hide Run, RemoveFile, DeleteRow;
    if id !in db.rows || !Reclaimable(db.rows[id], cycleAt) {
      RunThree(db, CleanerLost(0), CleanerLost(0), CleanerLost(0));
    } else if !fits {
      RunThree(db, CleanupPostponed(id, cycleAt, now), CleanerLost(0), CleanerLost(0));
    } else {
      ClaimedAlone(db, id, cycleAt, now);
      hide Claim;
      if removes {
        RunThree(db, CleanupClaimed(0, id, cycleAt, now), FileRemoved(db.nextRequest), RowDeleted(0));
      } else {
        RunThree(db, CleanupClaimed(0, id, cycleAt, now), CleanerLost(0), CleanerLost(0));
      }
    }
  }

  /** A cycle over the candidates, one after the other. */
  function CleanEach(db: Db, candidates: seq<Id>, cycleAt: int, now: int, fits: Id -> bool, removes: Id -> bool): Db {
    if candidates == [] then db
    else
      var n := |candidates| - 1;
      CleanAlone(CleanEach(db, candidates[..n], cycleAt, now, fits, removes), candidates[n], cycleAt, now, fits(candidates[n]), removes(candidates[n]))
  }

  /** What a cycle leaves alone, and that no row goes without its file. */
  predicate OnlyReclaimed(before: Db, after: Db, candidates: seq<Id>, cycleAt: int) {
    && after.rows.Keys <= before.rows.Keys && after.objects <= before.objects
    && (forall k :: k in before.rows && (k !in candidates || !Reclaimable(before.rows[k], cycleAt)) ==> k in after.rows && after.rows[k] == before.rows[k])
    && (forall k :: k in before.objects && (k !in candidates || k in after.rows) ==> k in after.objects)
    && (forall k :: k in before.rows && k !in after.rows ==> k !in after.objects)
  }

  lemma {:induction false} CleaningReclaims(db: Db, candidates: seq<Id>, cycleAt: int, now: int, fits: Id -> bool, removes: Id -> bool)
    ensures OnlyReclaimed(db, CleanEach(db, candidates, cycleAt, now, fits, removes), candidates, cycleAt)
  {
    if candidates != [] {
      CleaningReclaims(db, candidates[..|candidates| - 1], cycleAt, now, fits, removes);
      assert candidates == candidates[..|candidates| - 1] + [candidates[|candidates| - 1]];
    }
  }

  /** What saving a menu item does to the images of all menu items. */
  lemma SyncShows(db: Db, employee: Employee, menuItem: Id, reference: Reference, now: int)
    requires Inv(db) && Sync(db, employee, menuItem, reference, now).Some?
    ensures var rows := Sync(db, employee, menuItem, reference, now).value.rows;
            && (forall i :: ShownBy(rows, i, menuItem) <==> reference == Tracked(i))
            && (forall i, m :: m != menuItem && ShownBy(db.rows, i, m) ==> ShownBy(rows, i, m) && rows[i] == db.rows[i])
            && (reference.Tracked? ==> reference.id in db.objects)
  {
  }

  predicate ShownBy(rows: map<Id, Row>, i: Id, menuItem: Id) {
    i in rows && rows[i].status == Attached && rows[i].menuItem == Some(menuItem)
  }

  // ----- what each step does, row by row -----

  /** A finished upload of the employee's own that is on no menu item and has not expired, or the image the menu item
      has already. */
  predicate MayAttach(rows: map<Id, Row>, id: Id, employee: Employee, menuItem: Id, now: int) {
    && id in rows
    && var r := rows[id];
       || (r.status == Ready && r.employee == employee && r.menuItem.None? && now < r.expiresAt)
       || (r.status == Attached && r.menuItem == Some(menuItem))
  }

  predicate Had(rows: map<Id, Row>, id: Id, menuItem: Id) {
    id in rows && rows[id].status == Attached && rows[id].menuItem == Some(menuItem)
  }

  /** A reference is refused exactly if it is to a file that is managed and not tracked, or to an upload that may not
      be attached. Otherwise the upload is attached, and what the menu item had before is given up a day later. */
  ghost predicate SyncSays(before: map<Id, Row>, after: map<Id, Row>, ok: bool, employee: Employee, menuItem: Id, reference: Reference, now: int) {
    && (ok <==> !reference.Untracked? && (reference.Tracked? ==> MayAttach(before, reference.id, employee, menuItem, now)))
    && (!ok ==> after == before)
    && (ok ==>
         && after.Keys == before.Keys
         && forall id :: id in before ==>
              after[id] == if reference == Tracked(id) then before[id].(status := Attached, menuItem := Some(menuItem))
                           else if Had(before, id, menuItem) then before[id].(status := Deleting, expiresAt := now + 86_400_000)
                           else before[id])
  }

  lemma SyncAnswers(db: Db, employee: Employee, menuItem: Id, reference: Reference, now: int)
    ensures var o := Sync(db, employee, menuItem, reference, now);
            && (o.Some? ==> o.value == db.(rows := o.value.rows))
            && SyncSays(db.rows, if o.Some? then o.value.rows else db.rows, o.Some?, employee, menuItem, reference, now)
  {
  }

  predicate Expired(rows: map<Id, Row>, id: Id, cycleAt: int) {
    id in rows && rows[id].status != Attached && rows[id].expiresAt <= cycleAt
  }

  /** A candidate of a cycle that expired unattached goes with its file; if the file could not be removed the row stays
      in deletion for five minutes, and if its address does not fit it is left alone for a day. */
  ghost predicate CleanSays(before: Db, after: Db, id: Id, cycleAt: int, now: int, fits: bool, removes: bool) {
    if !Expired(before.rows, id, cycleAt) then after == before
    else if !fits then after == before.(rows := before.rows[id := before.rows[id].(expiresAt := now + 86_400_000)])
    else if removes then after == before.(rows := before.rows - {id}, objects := before.objects - {id}, nextRequest := after.nextRequest)
    else
      && after == before.(rows := before.rows[id := before.rows[id].(status := Deleting, expiresAt := now + 300_000)],
                          removals := after.removals, nextRequest := after.nextRequest)
      && after.removals == before.removals[before.nextRequest := id]
  }

  lemma CleanAnswers(db: Db, id: Id, cycleAt: int, now: int, fits: bool, removes: bool)
    ensures CleanSays(db, CleanAlone(db, id, cycleAt, now, fits, removes), id, cycleAt, now, fits, removes)
  {
  }

  /** An upload is announced for a day and may be written from then on; it is ready once its file is confirmed within
      that day, and a worker confirms it once. */
  lemma UploadAnswers(db: Db, employee: Employee, id: Id, now: int)
    ensures Announce(db, employee, now) ==
              db.(rows := db.rows[db.nextId := Row(Uploading, employee, None, now + 86_400_000)], nextId := db.nextId + 1,
                  uploads := db.uploads + {db.nextId}, writes := db.writes[db.nextId := now + 86_400_000])
    ensures var confirmed := id in db.uploads && id !in db.writes;
            FinishUpload(db, id, now) ==
              if confirmed && id in db.rows && db.rows[id].status == Uploading && now < db.rows[id].expiresAt
              then db.(uploads := db.uploads - {id}, rows := db.rows[id := db.rows[id].(status := Ready)])
              else if confirmed then db.(uploads := db.uploads - {id}) else db
  {
  }

  /** A cleaner gets a row exactly if it has none and the row expired unattached before its cycle began; it has the row
      for five minutes, and then deletes it only if it has it still. */
  lemma LeaseAnswers(db: Db, w: Worker, id: Id, cycleAt: int, now: int)
    requires cycleAt <= now
    ensures Claim(db, w, id, cycleAt, now).rows ==
              if w !in db.cleaners && Expired(db.rows, id, cycleAt) then db.rows[id := db.rows[id].(status := Deleting, expiresAt := now + 300_000)] else db.rows
    ensures w in db.cleaners ==>
              var c := db.cleaners[w];
              DeleteRow(db, w).rows ==
                if c.request !in db.removals && c.id in db.rows && db.rows[c.id].status == Deleting && db.rows[c.id].expiresAt == c.lease
                then db.rows - {c.id} else db.rows
  {
  }

  class ImageService {
    var rows: map<Id, Row>
    var nextId: Id
    var objects: set<Id>
    var uploads: set<Id>
    var writes: map<Id, int>
    var cleaners: map<Worker, Cleaner>
    var removals: map<Request, Id>
    var nextRequest: Request
    var stopping: bool

    constructor ()
      ensures Snapshot() == EMPTY
    {
      rows, nextId, objects, uploads, writes := map[], 0, {}, {}, map[];
      cleaners, removals, nextRequest, stopping := map[], map[], 0, false;
    }

    function Snapshot(): Db
      reads this
    {
      Db(rows, nextId, objects, uploads, writes, cleaners, removals, nextRequest)
    }

    /** Attaches the referenced upload to the menu item and gives up whatever it had before: afterwards the
        menu item shows that image and no other, the file is there, and no other menu item's image changed. */
    method SyncReference(employee: Employee, menuItem: Id, reference: Reference, now: int) returns (ok: bool)
      requires Inv(Snapshot())
      modifies `rows
      ensures Inv(Snapshot()) && (!ok ==> rows == old(rows))
      ensures var o := Sync(old(Snapshot()), employee, menuItem, reference, now);
              ok == o.Some? && Snapshot() == if ok then o.value else old(Snapshot())
      ensures SyncSays(old(rows), rows, ok, employee, menuItem, reference, now)
      ensures ok && reference.Tracked? ==> reference.id in objects
      ensures ok ==> forall i :: ShownBy(rows, i, menuItem) <==> reference == Tracked(i)
      ensures ok ==> forall i, m :: m != menuItem && ShownBy(old(rows), i, m) ==> ShownBy(rows, i, m) && rows[i] == old(rows)[i]
    {
      hide Inv, ShownBy, SyncSays;
      SyncAnswers(Snapshot(), employee, menuItem, reference, now);
      SyncKeeps(Snapshot(), employee, menuItem, reference, now);
      if Sync(Snapshot(), employee, menuItem, reference, now).Some? {
        SyncShows(Snapshot(), employee, menuItem, reference, now);
      }
      var keep: Option<Id> := None;
      match reference {
      case Tracked(id) =>
        if id !in rows || !((rows[id].status == Ready && rows[id].employee == employee && rows[id].menuItem.None? && rows[id].expiresAt > now)
                            || (rows[id].status == Attached && rows[id].menuItem == Some(menuItem))) {
          return false;
        }
        keep := Some(id);
      case Untracked =>
        return false;
      case _ =>
      }
      var before := rows;
      rows := map id | id in before ::
        if keep == Some(id) then before[id].(status := Attached, menuItem := Some(menuItem))
        else if before[id].status == Attached && before[id].menuItem == Some(menuItem) then before[id].(status := Deleting, expiresAt := now + DRAFT_TTL_MS)
        else before[id];
      return true;
    }

    /** One candidate of a cleanup cycle; `fits` says that its address fits the configuration, `removes`
        that the storage confirms the removal. */
    method CleanupOne(id: Id, cycleAt: int, now: int, fits: bool, removes: bool)
      requires nextRequest !in removals
      modifies `rows, `objects, `removals, `nextRequest
      ensures Snapshot() == CleanAlone(old(Snapshot()), id, cycleAt, now, fits, removes)
      ensures CleanSays(old(Snapshot()), Snapshot(), id, cycleAt, now, fits, removes)
    {
      hide CleanSays;
      CleanAnswers(Snapshot(), id, cycleAt, now, fits, removes);
      if id !in rows || rows[id].status == Attached || rows[id].expiresAt > cycleAt {
        return;
      }
      if !fits {
        rows := rows[id := rows[id].(expiresAt := now + DRAFT_TTL_MS)];
        return;
      }
      var before := rows;
      var lease := now + LEASE_MS;
      rows := rows[id := rows[id].(status := Deleting, expiresAt := lease)];
      ghost var pending := removals;
      removals, nextRequest := removals[nextRequest := id], nextRequest + 1;
      if !removes {
        return;
      }
      removals, objects := removals - {nextRequest - 1}, objects - {id};
      assert removals == pending;
      if id in rows && rows[id].status == Deleting && rows[id].expiresAt == lease {
        rows := rows - {id};
      }
      assert rows == before - {id};
    }

    /** One cleanup cycle over the candidates that were read, with nobody else at work: it reclaims exactly
        those of them that are expired and not attached, and no row it deletes keeps its file. */
    method CleanupBatch(candidates: seq<Id>, cycleAt: int, now: int, fits: Id -> bool, removes: Id -> bool)
      returns (ghost trace: seq<Event>)
      requires Inv(Snapshot()) && 0 !in cleaners && |candidates| <= CLEANUP_BATCH && cycleAt <= now
      modifies `rows, `objects, `removals, `nextRequest
      ensures Snapshot() == Run(old(Snapshot()), trace) && Inv(Snapshot())
      ensures Snapshot() == if stopping then old(Snapshot()) else CleanEach(old(Snapshot()), candidates, cycleAt, now, fits, removes)
      ensures OnlyReclaimed(old(Snapshot()), Snapshot(), candidates, cycleAt)
    {
      trace := [];
      assert Run(Snapshot(), []) == Snapshot();
      hide Inv, CleanAlone, OnlyReclaimed;
      for n := 0 to |candidates|
        invariant Snapshot() == Run(old(Snapshot()), trace) && Inv(Snapshot()) && 0 !in cleaners
        invariant Snapshot() == CleanEach(old(Snapshot()), candidates[..n], cycleAt, now, fits, removes)
        invariant stopping ==> n == 0
      {
        if stopping {
          break;
        }
        ghost var db := Snapshot();
        FreshRequest(db);
        var id := candidates[n];
        ghost var steps := CleanupSteps(db, id, cycleAt, now, fits(id), removes(id));
        CleanupRuns(db, id, cycleAt, now, fits(id), removes(id));
        RunConcat(old(Snapshot()), trace, steps);
        RunKeeps(db, steps);
        assert candidates[..n + 1][..n] == candidates[..n];
        CleanupOne(id, cycleAt, now, fits(id), removes(id));
        trace := trace + steps;
      }
      assert candidates[..|candidates|] == candidates;
      CleaningReclaims(old(Snapshot()), candidates, cycleAt, now, fits, removes);
      NothingReclaimed(old(Snapshot()), candidates, cycleAt);
    }
  }

  lemma FreshRequest(db: Db)
    requires Inv(db)
    ensures db.nextRequest !in db.removals
  {
  }

  lemma NothingReclaimed(db: Db, candidates: seq<Id>, cycleAt: int)
    ensures OnlyReclaimed(db, db, candidates, cycleAt)
  {
  }

  lemma {:induction false} RunConcat(db: Db, s: seq<Event>, t: seq<Event>)
    ensures Run(db, s + t) == Run(Run(db, s), t)
  {
    if t == [] {
      assert s + t == s;
    } else {
      RunConcat(db, s, t[..|t| - 1]);
      assert (s + t)[..|s + t| - 1] == s + t[..|t| - 1];
    }
  }
}
