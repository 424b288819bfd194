/** How often the event bus gets an event. A delivery that handed its event on, or still can, may lose its lease
    before it marks the event published; exactly then the event can be handed on again. */
module OutboxHandOns {
  import opened Sums
  import opened Outbox

  predicate CanSend(db: Db, id: Id, t: Token) {
    t in db.deliveries && db.deliveries[t].id == id && db.deliveries[t].phase == Working
  }

  /** The delivery under this token handed the event on, or still can. */
  predicate Exposed(db: Db, id: Id, t: Token)
    requires id in db.rows
  {
    t in db.rows[id].history.sent || CanSend(db, id, t)
  }

  /** The token holds the row, or marked it published. */
  predicate Owns(r: Row, t: Token) {
    r.lockedBy == Some(t) || (r.status == Published && r.history.publishedBy == Some(t))
  }

  predicate Stray(db: Db, id: Id, t: Token) {
    id in db.rows && Exposed(db, id, t) && !Owns(db.rows[id], t)
  }

  /** The step takes the lease from a delivery that handed the event on or still can: recovery once the lease is
      90 seconds old, or the failure the delivery records itself after its mark was lost. */
  predicate Loses(db: Db, e: Event, id: Id) {
    && id in db.rows && db.rows[id].lockedBy.Some? && Exposed(db, id, db.rows[id].lockedBy.value)
    && match e
       case Recovered(now) => Abandonable(db.rows[id], now)
       case FailureRecorded(t, _, _) => db.rows[id].lockedBy == Some(t) && Troubled(db, t, false)
       case _ => false
  }

  /** How many steps of a run lose such a lease. */
  function Losses(db: Db, events: seq<Event>, id: Id): nat {
    if events == [] then 0
    else
      var n := |events| - 1;
      Losses(db, events[..n], id) + if Loses(Run(db, events[..n]), events[n], id) then 1 else 0
  }

  predicate Twice(db: Db, id: Id) { id in db.rows && |db.rows[id].history.sent| >= 2 }

  // ----- what is noted of hand-ons -----

  /** A token that handed the event on was a delivery of it, which has got no further than a lost mark. */
  predicate NoteOk(db: Db, id: Id, t: Token)
    requires id in db.rows
  {
    && t !in db.batches && (db.rows[id].lockedBy == Some(t) ==> db.rows[id].status == Processing)
    && (t in db.deliveries ==> db.deliveries[t].id == id && (db.deliveries[t].phase == Sent || db.deliveries[t].phase == Failed(Plain)))
  }

  predicate NotesOk(db: Db) {
    forall id, t :: id in db.rows && t in db.rows[id].history.sent ==> NoteOk(db, id, t)
  }

  lemma NotesStay(db: Db, e: Event)
    requires Inv(db) && NotesOk(db)
    ensures NotesOk(Step(db, e))
  {
    forall id, t | id in Step(db, e).rows && t in Step(db, e).rows[id].history.sent ensures NoteOk(Step(db, e), id, t) {
      NoteStays(db, e, id, t);
    }
  }

  /** What the invariants say of one row and one token. */
  lemma Facts(db: Db, id: Id, t: Token)
    requires Inv(db) && NotesOk(db)
    ensures id in db.rows ==> id < db.nextId && RowOk(db.rows[id], db.nextToken) && LeaseOk(id, db.rows[id], db.deliveries, db.batches)
    ensures id in db.rows && t in db.rows[id].history.sent ==> NoteOk(db, id, t)
    ensures t in db.deliveries ==> DeliveryOk(t, db.deliveries[t], db.rows, db.nextId) && t < db.nextToken && t !in db.batches
    ensures t in db.batches ==> t < db.nextToken
  {
  }

  lemma NoteStays(db: Db, e: Event, id: Id, t: Token)
    requires Inv(db) && NotesOk(db) && id in Step(db, e).rows && t in Step(db, e).rows[id].history.sent
    ensures NoteOk(Step(db, e), id, t)
  {
    hide Inv, NotesOk;
    Facts(db, id, t);
  }

  lemma {:induction false} RunNotes(db: Db, events: seq<Event>)
    requires Inv(db) && NotesOk(db)
    ensures Inv(Run(db, events)) && NotesOk(Run(db, events))
  {
    RunKeeps(db, events);
    if events != [] {
      RunNotes(db, events[..|events| - 1]);
      NotesStay(Run(db, events[..|events| - 1]), events[|events| - 1]);
    }
  }

  // ----- strays -----

  /** Only the loss of a lease makes a stray, and it makes its holder one. */
  lemma StrayStep(db: Db, e: Event, id: Id, t: Token)
    requires Inv(db) && NotesOk(db) && Stray(Step(db, e), id, t)
    ensures Stray(db, id, t) || (Loses(db, e, id) && db.rows[id].lockedBy == Some(t))
  {
    hide Inv, NotesOk;
    Facts(db, id, t);
    if id in db.rows && db.rows[id].lockedBy.Some? {
      Facts(db, id, db.rows[id].lockedBy.value);
    }
  }

  lemma LossMakesStray(db: Db, e: Event, id: Id)
    requires Inv(db) && NotesOk(db) && Loses(db, e, id)
    ensures Stray(Step(db, e), id, db.rows[id].lockedBy.value)
  {
    assert RowOk(db.rows[id], db.nextToken) && LeaseOk(id, db.rows[id], db.deliveries, db.batches);
  }

  function Strays(db: Db, id: Id): set<Token>
    requires id in db.rows
  {
    set t | t in db.rows[id].history.sent + db.deliveries.Keys && Stray(db, id, t)
  }

  lemma StraysGrow(db: Db, e: Event, id: Id)
    requires Inv(db) && NotesOk(db) && id in Step(db, e).rows
    ensures var before := if id in db.rows then Strays(db, id) else {};
            |Strays(Step(db, e), id)| <= |before| + if Loses(db, e, id) then 1 else 0
  {
    var before := if id in db.rows then Strays(db, id) else {};
    var lost := if Loses(db, e, id) then {db.rows[id].lockedBy.value} else {};
    forall t | t in Strays(Step(db, e), id) ensures t in before + lost {
      StrayStep(db, e, id, t);
    }
    Smaller(Strays(Step(db, e), id), before + lost);
    assert |before + lost| <= |before| + |lost|;
  }

  lemma Smaller(a: set<Token>, b: set<Token>)
    requires a <= b
    ensures |a| <= |b|
  {
    assert b == a + (b - a);
  }

  lemma {:induction false} StraysBounded(db: Db, events: seq<Event>, id: Id)
    requires Inv(db) && NotesOk(db) && (id in db.rows ==> Strays(db, id) == {})
    ensures id in Run(db, events).rows ==> |Strays(Run(db, events), id)| <= Losses(db, events, id)
  {
    if events != [] {
      var n := |events| - 1;
      StraysBounded(db, events[..n], id);
      RunNotes(db, events[..n]);
      hide Inv, NotesOk, Step, Loses, Strays;
      if id in Run(db, events).rows {
        StraysGrow(Run(db, events[..n]), events[n], id);
      }
    }
  }

  /** Of the tokens that handed the event on, at most one owns the row. */
  lemma OneOwner(db: Db, id: Id)
    requires Inv(db) && id in db.rows
    ensures |db.rows[id].history.sent| <= 1 + |Strays(db, id)|
  {
    var r := db.rows[id];
    assert RowOk(r, db.nextToken);
    var owner := if r.lockedBy.Some? then {r.lockedBy.value} else if r.history.publishedBy.Some? then {r.history.publishedBy.value} else {};
    assert r.history.sent <= owner + Strays(db, id);
    Smaller(r.history.sent, owner + Strays(db, id));
  }

  // ----- theorems -----

  /** An event is handed on at most once, plus once for every lease lost by a delivery that had handed it on or
      still could; each such loss is among the recoveries and recorded failures of the event. */
  lemma HandOnsAreBounded(events: seq<Event>, id: Id)
    requires id in Run(EMPTY, events).rows
    ensures var h := Run(EMPTY, events).rows[id].history;
            |h.sent| <= 1 + Losses(EMPTY, events, id) <= 1 + h.recoveries + h.failures
  {
    RunNotes(EMPTY, events);
    StraysBounded(EMPTY, events, id);
    OneOwner(Run(EMPTY, events), id);
    LossesAreOnRecord(events, id);
  }

  lemma LossIsOnRecord(db: Db, e: Event, id: Id)
    requires Inv(db) && id in db.rows && id in Step(db, e).rows
    ensures var h, k := db.rows[id].history, Step(db, e).rows[id].history;
            k.recoveries + k.failures >= h.recoveries + h.failures + if Loses(db, e, id) then 1 else 0
  {
    assert RowOk(db.rows[id], db.nextToken) && LeaseOk(id, db.rows[id], db.deliveries, db.batches);
  }

  lemma IdsAreNotReused(db: Db, e: Event, id: Id)
    requires Inv(db) && id < db.nextId && id !in db.rows
    ensures id !in Step(db, e).rows && id < Step(db, e).nextId
  {
  }

  lemma NextIdGrows(db: Db, e: Event, id: Id)
    requires Inv(db)
    ensures Step(db, e).nextId >= db.nextId && (id in db.rows ==> id < db.nextId)
  {
  }

  /** Before an event exists it has lost nothing. */
  lemma {:induction false} NothingLostYet(events: seq<Event>, id: Id)
    requires id >= Run(EMPTY, events).nextId
    ensures Losses(EMPTY, events, id) == 0 && id !in Run(EMPTY, events).rows
  {
    if events != [] {
      var n := |events| - 1;
      var before := Run(EMPTY, events[..n]);
      RunKeeps(EMPTY, events[..n]);
      NextIdGrows(before, events[n], id);
      NothingLostYet(events[..n], id);
      RunKeeps(EMPTY, events);
    }
  }

  lemma {:induction false} LossesAreOnRecord(events: seq<Event>, id: Id)
    requires id in Run(EMPTY, events).rows
    ensures var h := Run(EMPTY, events).rows[id].history; Losses(EMPTY, events, id) <= h.recoveries + h.failures
  {
    if events != [] {
      var n := |events| - 1;
      var before := Run(EMPTY, events[..n]);
      RunKeeps(EMPTY, events[..n]);
      if id in before.rows {
        LossesAreOnRecord(events[..n], id);
        LossIsOnRecord(before, events[n], id);
      } else {
        if id < before.nextId {
          IdsAreNotReused(before, events[n], id);
        }
        NothingLostYet(events[..n], id);
      }
    }
  }

  lemma {:induction false} LossesConcat(db: Db, s: seq<Event>, t: seq<Event>, id: Id)
    ensures Run(db, s + t) == Run(Run(db, s), t)
    ensures Losses(db, s + t, id) == Losses(db, s, id) + Losses(Run(db, s), t, id)
  {
    if t == [] {
      assert s + t == s;
    } else {
      var n := |t| - 1;
      LossesConcat(db, s, t[..n], id);
      assert (s + t)[..|s + t| - 1] == s + t[..n] && (s + t)[|s + t| - 1] == t[n];
    }
  }

  lemma OneStep(db: Db, e: Event, id: Id)
    ensures Run(db, [e]) == Step(db, e) && Losses(db, [e], id) == if Loses(db, e, id) then 1 else 0
  {
    assert [e][..0] == [];
  }

  /** One more step that loses nothing. */
  lemma Then(db: Db, s: seq<Event>, e: Event, id: Id)
    requires Losses(db, s, id) == 0 && !Loses(Run(db, s), e, id)
    ensures Run(db, s + [e]) == Step(Run(db, s), e) && Losses(db, s + [e], id) == 0
  {
    LossesConcat(db, s, [e], id);
    OneStep(Run(db, s), e, id);
  }

  lemma HandsOn(db: Db, id: Id, t: Token)
    requires Inv(db) && id in db.rows && CanSend(db, id, t)
    ensures var e := PublishReturned(t, None); var d := Step(db, e);
            && !Loses(db, e, id) && id in d.rows && d.rows[id].history.sent == db.rows[id].history.sent + {t}
            && d.rows[id] == NoteSent(db.rows[id], t)
  {
    assert DeliveryOk(t, db.deliveries[t], db.rows, db.nextId);
  }

  lemma PendingCanBeClaimed(db: Db, id: Id)
    requires Inv(db) && id in db.rows && db.rows[id].status == Status.Pending
    ensures var e := Claimed(id, db.rows[id], db.rows[id].availableAt); var d := Step(db, e);
            && !Loses(db, e, id) && id in d.rows && d.rows[id].history.sent == db.rows[id].history.sent
            && CanSend(d, id, db.nextToken)
  {
  }

  /** Whatever the row's status: unless its owner can hand on itself, the event can be made pending without a loss. */
  lemma CanBeFreed(db: Db, id: Id) returns (e: Event)
    requires Inv(db) && id in db.rows && db.rows[id].status != Published && db.rows[id].status != Status.Pending
    requires db.rows[id].lockedBy.Some? ==> !Exposed(db, id, db.rows[id].lockedBy.value)
    ensures var d := Step(db, e);
            && !Loses(db, e, id) && id in d.rows && d.rows[id].history.sent == db.rows[id].history.sent
            && d.rows[id].status == Status.Pending && d.nextToken == db.nextToken
  {
    assert RowOk(db.rows[id], db.nextToken);
    e := if db.rows[id].status == DeadLetter then Retried(id, db.rows[id].availableAt, 0)
         else Recovered(db.rows[id].lockedAt + LOCK_TIMEOUT_MS + 1);
  }

  lemma AnotherMember(s: set<Token>, t: Token, u: Token)
    requires t in s && u in s && t != u
    ensures |s| >= 2
  {
    Smaller({t, u}, s);
  }

  /** A pending event that was handed on before is handed on again by the next delivery. */
  lemma PendingHandsOn(db: Db, id: Id, t: Token) returns (events: seq<Event>)
    requires Inv(db) && id in db.rows && db.rows[id].status == Status.Pending && t in db.rows[id].history.sent
    ensures Losses(db, events, id) == 0 && Twice(Run(db, events), id)
  {
    assert RowOk(db.rows[id], db.nextToken);
    var claim := Claimed(id, db.rows[id], db.rows[id].availableAt);
    var c := Step(db, claim);
    PendingCanBeClaimed(db, id);
    StepKeeps(db, claim);
    HandsOn(c, id, db.nextToken);
    hide Inv, Step, Loses, CanSend;
    OneStep(db, claim, id);
    Then(db, [claim], PublishReturned(db.nextToken, None), id);
    events := [claim] + [PublishReturned(db.nextToken, None)];
    AnotherMember(Run(db, events).rows[id].history.sent, t, db.nextToken);
  }

  /** An event that a stray delivery handed on can be handed on again. */
  lemma SentStrayDoubles(db: Db, id: Id, t: Token) returns (events: seq<Event>)
    requires Inv(db) && id in db.rows && Stray(db, id, t) && t in db.rows[id].history.sent
    ensures Losses(db, events, id) == 0 && Twice(Run(db, events), id)
  {
    var r := db.rows[id];
    assert RowOk(r, db.nextToken);
    assert Run(db, []) == db && Losses(db, [], id) == 0;
    if r.status == Published {
      events := [];
      AnotherMember(r.history.sent, t, r.history.publishedBy.value);
    } else if r.lockedBy.Some? && r.lockedBy.value in r.history.sent {
      events := [];
      AnotherMember(r.history.sent, t, r.lockedBy.value);
    } else if r.lockedBy.Some? && CanSend(db, id, r.lockedBy.value) {
      var e := PublishReturned(r.lockedBy.value, None);
      HandsOn(db, id, r.lockedBy.value);
      OneStep(db, e, id);
      events := [e];
      AnotherMember(Step(db, e).rows[id].history.sent, t, r.lockedBy.value);
    } else if r.status == Status.Pending {
      events := PendingHandsOn(db, id, t);
    } else {
      var e := CanBeFreed(db, id);
      StepKeeps(db, e);
      hide Inv, Step, Loses, CanSend;
      OneStep(db, e, id);
      var rest := PendingHandsOn(Step(db, e), id, t);
      LossesConcat(db, [e], rest, id);
      events := [e] + rest;
    }
  }

  lemma StrayDoubles(db: Db, id: Id, t: Token) returns (events: seq<Event>)
    requires Inv(db) && Stray(db, id, t)
    ensures Losses(db, events, id) == 0 && Twice(Run(db, events), id)
  {
    if t in db.rows[id].history.sent {
      events := SentStrayDoubles(db, id, t);
    } else {
      var e := PublishReturned(t, None);
      HandsOn(db, id, t);
      StepKeeps(db, e);
      assert Stray(Step(db, e), id, t);
      hide Inv, Step, Loses, CanSend, Stray;
      OneStep(db, e, id);
      var rest := SentStrayDoubles(Step(db, e), id, t);
      LossesConcat(db, [e], rest, id);
      events := [e] + rest;
    }
  }

  /** Without losing another lease, an event can be handed on twice if and only if there is a stray: a delivery
      that handed it on or still can, but neither holds its lease nor marked it published. */
  lemma StrayDecides(db: Db, id: Id)
    requires Inv(db) && NotesOk(db) && id in db.rows
    ensures (exists t :: Stray(db, id, t)) <==> exists events :: Losses(db, events, id) == 0 && Twice(Run(db, events), id)
  {
    if t :| Stray(db, id, t) {
      var events := StrayDoubles(db, id, t);
    } else {
      forall events | Losses(db, events, id) == 0 ensures !Twice(Run(db, events), id) {
        assert Strays(db, id) == {};
        StraysBounded(db, events, id);
        RunNotes(db, events);
        if id in Run(db, events).rows {
          OneOwner(Run(db, events), id);
        }
      }
    }
  }

  /** After the first `k` steps of the run, it can go on without losing a lease so that the event is handed on twice. */
  ghost predicate DoublesAfter(events: seq<Event>, k: nat, id: Id)
    requires k <= |events|
  {
    exists more :: Losses(Run(EMPTY, events[..k]), more, id) == 0 && Twice(Run(Run(EMPTY, events[..k]), more), id)
  }

  lemma {:induction false} FirstLoss(events: seq<Event>, id: Id) returns (k: nat)
    requires Losses(EMPTY, events, id) > 0
    ensures k < |events| && Loses(Run(EMPTY, events[..k]), events[k], id)
  {
    var n := |events| - 1;
    if Loses(Run(EMPTY, events[..n]), events[n], id) {
      k := n;
    } else {
      k := FirstLoss(events[..n], id);
      assert events[..n][..k] == events[..k];
    }
  }

  /** Exactly when delivery is not once only: a schedule opens the way to a second hand-on if and only if some step
      of it takes the lease from a delivery that handed the event on or still can. */
  lemma HandedOnTwiceIffALeaseIsLost(events: seq<Event>, id: Id)
    ensures Losses(EMPTY, events, id) > 0 <==> exists k :: 0 <= k <= |events| && DoublesAfter(events, k, id)
  {
    if Losses(EMPTY, events, id) > 0 {
      var k := FirstLoss(events, id);
      var before, e := Run(EMPTY, events[..k]), events[k];
      RunNotes(EMPTY, events[..k]);
      LossMakesStray(before, e, id);
      StepKeeps(before, e);
      assert events[..k + 1][..k] == events[..k];
      var more := StrayDoubles(Step(before, e), id, before.rows[id].lockedBy.value);
      assert Run(EMPTY, events[..k + 1]) == Step(before, e);
      assert DoublesAfter(events, k + 1, id);
    } else {
      forall k | 0 <= k <= |events| ensures !DoublesAfter(events, k, id) {
        NeverTwice(events, k, id);
      }
    }
  }

  lemma NeverTwice(events: seq<Event>, k: nat, id: Id)
    requires k <= |events| && Losses(EMPTY, events, id) == 0
    ensures !DoublesAfter(events, k, id)
  {
    assert events == events[..k] + events[k..];
    LossesConcat(EMPTY, events[..k], events[k..], id);
    forall more | Losses(Run(EMPTY, events[..k]), more, id) == 0 ensures !Twice(Run(Run(EMPTY, events[..k]), more), id) {
      LossesConcat(EMPTY, events[..k], more, id);
      if id in Run(EMPTY, events[..k] + more).rows {
        HandOnsAreBounded(events[..k] + more, id);
      }
    }
  }
}
