/** What a caller of the order, invoice and online-order services may rely on, transaction by transaction, in
    any state of the invariant. */
module OrderPromises {
  import opened Sums
  import opened OrderTables
  import opened OrderStock
  import opened OrderItems
  import opened OrderFloor
  import opened OrderSteps
  import opened OrderBilling
  import opened OrderOnline
  import opened OrderRuns

  /** A transaction keeps the invariant, and no item goes back. */
  ghost predicate Promised(before: Db, o: Outcome, capacity: nat) {
    && Inv(before, capacity) && AllAge(before.items, before.items)
    && (o.Ok? ==> Inv(o.db, capacity) && AllAge(before.items, o.db.items))
  }

  lemma StepPromise(db: Db, e: Event, capacity: nat)
    requires Inv(db, capacity)
    ensures Promised(db, Do(db, e, capacity), capacity)
  {
    hide Inv, AllAge, Do;
    EveryAges(db.items);
    StepKeeps(db, e, capacity);
    StepAges(db, e, capacity);
  }

  lemma MergePromised(db: Db, sourceTables: set<Id>, destination: Id, sourceSessions: set<Id>, into: Id, capacity: nat)
    requires Inv(db, capacity)
    ensures Promised(db, MergeTables(db, sourceTables, destination, sourceSessions, into), capacity)
  {
    hide Promised, Inv, MergeTables;
    StepPromise(db, TablesMerged(sourceTables, destination, sourceSessions, into), capacity);
  }

  lemma RemakePromised(db: Db, i: Id, routable: bool, capacity: nat)
    requires Inv(db, capacity)
    ensures Promised(db, RemakeItem(db, i, routable), capacity)
  {
    hide Promised, Inv, RemakeItem;
    StepPromise(db, ItemRemade(i, routable), capacity);
  }

  lemma InvoicePromised(db: Db, s: Id, chosen: Option<seq<Id>>, discount: nat, rate: nat, paid: bool, closing: bool, capacity: nat)
    requires Inv(db, capacity)
    ensures Promised(db, CreateInvoice(db, s, chosen, discount, rate, paid, closing, false), capacity)
  {
    hide Promised, Inv, CreateInvoice;
    StepPromise(db, Invoiced(s, chosen, discount, rate, paid, closing), capacity);
  }

  lemma AcceptPromised(db: Db, q: Id, lines: seq<Line>, now: int, capacity: nat)
    requires Inv(db, capacity)
    ensures Promised(db, AcceptRequest(db, q, lines, now, capacity), capacity)
  {
    hide Promised, Inv, AcceptRequest;
    StepPromise(db, RequestAccepted(q, lines, now), capacity);
  }

  lemma CollectPromised(db: Db, q: Id, capacity: nat)
    requires Inv(db, capacity)
    ensures var c := CollectRequest(db, q); Promised(db, if c.Collected? then c.outcome else Fail(Conflict), capacity)
  {
    hide Promised, Inv, CollectRequest;
    StepPromise(db, RequestCollected(q), capacity);
  }

  lemma CancelRequestPromised(db: Db, q: Id, capacity: nat)
    requires Inv(db, capacity)
    ensures Promised(db, CancelRequest(db, q), capacity)
  {
    hide Promised, Inv, CancelRequest;
    StepPromise(db, RequestCalledOff(q), capacity);
  }

  // ----- who sits where -----

  lemma FoundActive(sessions: seq<Session>, s: Id, t: Id)
    requires OneSessionEach(sessions) && ActiveAt(sessions, s, t)
    ensures FindActive(sessions, t) == Some(s)
  {
  }

  /** A table is free, occupied or deleted as its active session says. */
  lemma TableTells(db: Db, t: Id, capacity: nat)
    requires Inv(db, capacity) && t < |db.tables|
    ensures db.tables[t].status == Empty <==> FindActive(db.sessions, t).None?
    ensures db.tables[t].status == Occupied <==> FindActive(db.sessions, t).Some?
    ensures db.tables[t].deleted ==> FindActive(db.sessions, t).None?
  {
    assert TableOk(t, db.tables[t], db.sessions);
    var found := FindActive(db.sessions, t);
    if found.Some? {
      assert ActiveAt(db.sessions, found.value, t);
    }
  }

  lemma SeatsAre(db: Db, capacity: nat)
    requires Inv(db, capacity)
    ensures forall s: Id, t: Id :: ActiveAt(db.sessions, s, t) <==> FindActive(db.sessions, t) == Some(s)
  {
    forall s: Id, t: Id | ActiveAt(db.sessions, s, t)
      ensures FindActive(db.sessions, t) == Some(s)
    {
      FoundActive(db.sessions, s, t);
    }
  }

  /** Every table but those of `except` has the active session it had. */
  ghost predicate SameSeats(before: seq<Session>, after: seq<Session>, except: set<Id>) {
    forall t: Id :: t !in except ==> FindActive(after, t) == FindActive(before, t)
  }

  lemma SeatsStay(before: seq<Session>, after: seq<Session>, except: set<Id>)
    requires OneSessionEach(before) && OneSessionEach(after)
    requires forall s, t :: t !in except ==> (ActiveAt(after, s, t) <==> ActiveAt(before, s, t))
    ensures SameSeats(before, after, except)
  {
    forall t: Id | t !in except
      ensures FindActive(after, t) == FindActive(before, t)
    {
      var found := FindActive(before, t);
      if found.Some? {
        FoundActive(after, found.value, t);
      }
    }
  }

  lemma OneEach(db: Db, capacity: nat)
    requires Inv(db, capacity)
    ensures OneSessionEach(db.sessions)
  {
  }

  /** A session opens at a table exactly if the table exists and nobody sits there; it then sits there. */
  lemma OpenSessionPromise(db: Db, t: Id, capacity: nat)
    requires Inv(db, capacity)
    ensures var o := OpenSession(db, Some(t), None);
            && (o.Ok? <==> TableExists(db, t) && FindActive(db.sessions, t).None?)
            && (o.Ok? ==> FindActive(o.db.sessions, t) == Some(|db.sessions|) && SameSeats(db.sessions, o.db.sessions, {t}))
  {
    hide Inv, SameSeats, FindActive;
    var o := OpenSession(db, Some(t), None);
    if TableExists(db, t) {
      TableTells(db, t, capacity);
    }
    if o.Ok? {
      OpenSessionKeeps(db, Some(t), capacity);
      OneEach(db, capacity);
      OneEach(o.db, capacity);
      hide OneSessionEach;
      assert ActiveAt(o.db.sessions, |db.sessions|, t);
      FoundActive(o.db.sessions, |db.sessions|, t);
      SeatsStay(db.sessions, o.db.sessions, {t});
    }
  }

  /** A transfer succeeds exactly if both tables exist, the session sits at the first and nobody at the
      second; it then sits at the second, nobody at the first, and no other table is concerned. */
  lemma TransferPromise(db: Db, s: Id, from: Id, to: Id, capacity: nat)
    requires Inv(db, capacity)
    ensures var o := TransferTable(db, s, from, to);
            && (o.Ok? <==> TableExists(db, from) && TableExists(db, to) && FindActive(db.sessions, from) == Some(s) && FindActive(db.sessions, to).None?)
            && (o.Ok? ==> FindActive(o.db.sessions, from).None? && FindActive(o.db.sessions, to) == Some(s)
                          && SameSeats(db.sessions, o.db.sessions, {from, to}))
  {
    hide Inv, SameSeats, FindActive;
    var o := TransferTable(db, s, from, to);
    SeatsAre(db, capacity);
    if TableExists(db, to) {
      TableTells(db, to, capacity);
    }
    if o.Ok? {
      TransferTableKeeps(db, s, from, to, capacity);
      OneEach(db, capacity);
      OneEach(o.db, capacity);
      SeatsAre(o.db, capacity);
      hide OneSessionEach;
      assert ActiveAt(db.sessions, s, from) && ActiveAt(o.db.sessions, s, to);
      assert forall r :: !ActiveAt(o.db.sessions, r, from);
      SeatsStay(db.sessions, o.db.sessions, {from, to});
    }
  }

  // ----- stock -----

  /** What is on hand stays; nothing is consumed. */
  predicate SameOnHand(before: seq<Stock>, after: seq<Stock>) {
    |after| == |before| && forall k :: 0 <= k < |before| ==> after[k].stock == before[k].stock && after[k].received == before[k].received
  }

  predicate StartsCooking(db: Db, i: Id, next: ServeStatus) {
    i < |db.items| && next == Cooking && db.items[i].status == Pending
  }

  /** Stock falls by exactly what the item needs, if its preparation starts, and by nothing otherwise. */
  predicate TakesFor(before: Db, after: Db, i: Id, starts: bool)
    requires i < |before.items|
  {
    |after.stock| == |before.stock| && forall k :: 0 <= k < |before.stock| ==>
      && after.stock[k].stock == before.stock[k].stock - (if starts then NeedFor(before.items[i], k) else 0)
      && after.stock[k].reserved == before.stock[k].reserved - (if starts then HeldFor(before.items[i], k) else 0)
  }

  /** Only the item `i` may have changed. */
  predicate OnlyItem(before: seq<Item>, after: seq<Item>, i: Id) {
    i < |before| == |after| && forall k :: 0 <= k < |before| && k != i ==> after[k] == before[k]
  }

  lemma ConsumeTakes(db: Db, i: Id)
    requires i < |db.items| && Consume(db, i).Ok?
    ensures TakesFor(db, Consume(db, i).db, i, true) && OnlyItem(db.items, Consume(db, i).db.items, i)
    ensures Consume(db, i).db.items[i] == db.items[i].(held := map[], consumed := db.items[i].consumed + 1)
  {
  }

  lemma ChangeStatusPromise(db: Db, i: Id, next: ServeStatus, handoffOnly: bool, pickup: Pickup, due: bool)
    requires ChangeStatus(db, i, next, handoffOnly, pickup, due).Ok?
    ensures var d := ChangeStatus(db, i, next, handoffOnly, pickup, due).db;
            && i < |db.items| && OnlyItem(db.items, d.items, i) && d.items[i].status == next
            && TakesFor(db, d, i, StartsCooking(db, i, next))
            && d.items[i].consumed == db.items[i].consumed + (if StartsCooking(db, i, next) then 1 else 0)
  {
    hide Consume;
    if StartsCooking(db, i, next) {
      ConsumeTakes(db.(items := db.items[i := db.items[i].(status := next)]), i);
    }
  }

  /** A cancelled item gives its reservation back and is written off exactly if it had been consumed. */
  lemma CancelItemPromise(db: Db, i: Id, hasReason: bool, capacity: nat)
    requires Inv(db, capacity) && CancelItem(db, i, hasReason).Ok?
    ensures var d := CancelItem(db, i, hasReason).db;
            && i < |db.items| && OnlyItem(db.items, d.items, i) && d.items[i].status == Cancelled && d.items[i].held == map[]
            && SameOnHand(db.stock, d.stock)
            && (forall k :: 0 <= k < |db.stock| ==> d.stock[k].reserved == db.stock[k].reserved - HeldFor(db.items[i], k))
            && d.items[i].wasted == d.items[i].consumed
  {
    assert ItemOk(db.items[i], db.sessions, db.invoices);
    hide Inv;
  }

  // ----- calling off -----

  /** Every item of the session is cancelled and holds nothing; no other item has changed. */
  predicate AllCancelled(before: seq<Item>, after: seq<Item>, s: Id) {
    |after| == |before| && forall i :: 0 <= i < |before| ==>
      if before[i].session == s then after[i].session == s && after[i].status == Cancelled && after[i].held == map[] else after[i] == before[i]
  }

  lemma ReleaseKeepsOnHand(db: Db, sel: Item -> bool)
    requires Release(db, sel).Ok?
    ensures SameOnHand(db.stock, Release(db, sel).db.stock)
  {
  }

  lemma CallOffPromise(db: Db, s: Id, capacity: nat)
    requires Inv(db, capacity) && s < |db.sessions| && CallOff(db, s).Ok? && !AnyPaidOrInvoiced(db.items, s)
    ensures AllCancelled(db.items, CallOff(db, s).db.items, s) && SameOnHand(db.stock, CallOff(db, s).db.stock)
  {
    ReleaseKeepsOnHand(db, LiveIn(s));
    hide Release;
    var d := CallOff(db, s).db;
    forall i | 0 <= i < |db.items|
      ensures |d.items| == |db.items| && (if db.items[i].session == s then d.items[i].session == s && d.items[i].status == Cancelled && d.items[i].held == map[]
                                          else d.items[i] == db.items[i])
    {
      CallOffEffect(db, s, i);
      assert ItemOk(db.items[i], db.sessions, db.invoices);
      assert db.items[i].session == s ==> ItemIn(db.items[i], s);
      hide CallOff, Inv;
    }
    CallOffLength(db, s);
    hide CallOff, Inv;
  }

  lemma CallOffLength(db: Db, s: Id)
    requires s < |db.sessions| && CallOff(db, s).Ok?
    ensures |CallOff(db, s).db.items| == |db.items|
  {
  }

  /** A session that is cancelled leaves its table, and its items hold no stock. */
  lemma CancelSessionPromise(db: Db, s: Id, capacity: nat)
    requires Inv(db, capacity) && CancelSession(db, s).Ok?
    ensures var d := CancelSession(db, s).db;
            && s < |db.sessions| == |d.sessions| && d.sessions[s].status == SessionCancelled
            && AllCancelled(db.items, d.items, s) && SameOnHand(db.stock, d.stock)
            && (db.sessions[s].table.Some? ==> FindActive(d.sessions, db.sessions[s].table.value).None?)
  {
    hide Inv, AllCancelled, SameOnHand, FindActive, CallOff;
    CallOffPromise(db, s, capacity);
    CancelSessionKeeps(db, s, capacity);
    SeatsAre(db, capacity);
    var d := CancelSession(db, s).db;
    SeatsAre(d, capacity);
    CallOffSessions(db, s);
    if db.sessions[s].table.Some? {
      assert ActiveAt(db.sessions, s, db.sessions[s].table.value);
      NobodyElse(db.sessions, d.sessions, s, db.sessions[s].table.value);
    }
  }

  lemma CallOffSessions(db: Db, s: Id)
    requires s < |db.sessions| && CallOff(db, s).Ok?
    ensures CallOff(db, s).db.sessions == db.sessions[s := db.sessions[s].(status := SessionCancelled)]
  {
  }

  /** When the session of a table ends, nobody sits there. */
  lemma NobodyElse(before: seq<Session>, after: seq<Session>, s: Id, t: Id)
    requires FindActive(before, t) == Some(s) && s < |after| && after == before[s := after[s]] && after[s].status != Active
    requires forall r: Id :: ActiveAt(before, r, t) <==> FindActive(before, t) == Some(r)
    ensures FindActive(after, t).None?
  {
    assert forall r: Id :: ActiveAt(after, r, t) ==> ActiveAt(before, r, t) && r != s;
  }

  lemma ClearTablePromise(db: Db, t: Id, expected: Option<Id>, capacity: nat)
    requires Inv(db, capacity) && ClearTable(db, t, expected).Ok?
    ensures var d := ClearTable(db, t, expected).db;
            && FindActive(db.sessions, t) == expected && FindActive(d.sessions, t).None? && SameOnHand(db.stock, d.stock)
            && (if expected.Some? then AllCancelled(db.items, d.items, expected.value) else d.items == db.items && d.sessions == db.sessions)
  {
    hide Inv, AllCancelled, SameOnHand, FindActive, CallOff;
    SeatsAre(db, capacity);
    if expected.Some? {
      assert ActiveAt(db.sessions, expected.value, t);
      CallOffPromise(db, expected.value, capacity);
      CallOffSessions(db, expected.value);
      NobodyElse(db.sessions, ClearTable(db, t, expected).db.sessions, expected.value, t);
    } else {
      EveryStays(db.stock);
    }
  }

  lemma EveryStays(stock: seq<Stock>)
    ensures SameOnHand(stock, stock)
  {
  }

  /** A completed session has nothing left to pay, and nobody sits at its table. */
  lemma CompletePromise(db: Db, s: Id, capacity: nat)
    requires Inv(db, capacity) && CompleteSession(db, s).Ok?
    ensures var d := CompleteSession(db, s).db;
            && s < |db.sessions| == |d.sessions| && d.sessions[s].status == Completed && db.sessions[s].table.Some?
            && (forall i :: 0 <= i < |db.items| && db.items[i].session == s ==> db.items[i].status == Cancelled || db.items[i].paid)
            && (db.sessions[s].status == Active ==> FindActive(d.sessions, db.sessions[s].table.value).None?)
  {
    assert forall i :: 0 <= i < |db.items| ==> ItemOk(db.items[i], db.sessions, db.invoices) && (ItemIn(db.items[i], s) <==> db.items[i].session == s);
    SeatsAre(db, capacity);
    hide Inv, FindActive;
    if db.sessions[s].status == Active {
      assert ActiveAt(db.sessions, s, db.sessions[s].table.value);
      NobodyElse(db.sessions, CompleteSession(db, s).db.sessions, s, db.sessions[s].table.value);
    }
  }

  // ----- merging -----

  function WorthIn(sessions: set<Id>): Item -> int { (it: Item) => if it.session in sessions then Amount(it) else 0 }

  /** Nobody sits at the source tables, and what was ordered by the merged sessions is in the one session at the
      destination, at the same worth. */
  ghost predicate Joined(before: Db, after: Db, sourceTables: set<Id>, destination: Id, merged: set<Id>, into: Id) {
    && (forall t: Id :: t in sourceTables ==> FindActive(after.sessions, t).None?) && FindActive(after.sessions, destination) == Some(into)
    && (forall i :: 0 <= i < |after.items| ==> after.items[i].session !in merged)
    && Total(after.items, LineIn(into)) == Total(before.items, WorthIn(merged + {into}))
  }

  lemma MergePromise(db: Db, sourceTables: set<Id>, destination: Id, sourceSessions: set<Id>, into: Id, capacity: nat)
    requires Inv(db, capacity) && MergeTables(db, sourceTables, destination, sourceSessions, into).Ok?
    ensures var d := MergeTables(db, sourceTables, destination, sourceSessions, into).db;
            Joined(db, d, sourceTables, destination, MergeSources(db, sourceTables, sourceSessions), into)
  {
    hide Inv, OneSessionEach, FindActive, MergeTables, MergeSources;
    var d := MergeTables(db, sourceTables, destination, sourceSessions, into).db;
    var merged := MergeSources(db, sourceTables, sourceSessions);
    MergeTablesKeeps(db, sourceTables, destination, sourceSessions, into, capacity);
    OneEach(d, capacity);
    MergedSessions(db, sourceTables, destination, sourceSessions, into, capacity);
    MergedItems(db, sourceTables, destination, sourceSessions, into);
    TotalsAgree(db.items, d.items, WorthIn(merged + {into}), LineIn(into));
    FoundActive(d.sessions, into, destination);
    forall t: Id | t in sourceTables
      ensures FindActive(d.sessions, t).None?
    {
      assert forall s: Id :: !ActiveAt(d.sessions, s, t);
    }
  }

  lemma MergedSessions(db: Db, sourceTables: set<Id>, destination: Id, sourceSessions: set<Id>, into: Id, capacity: nat)
    requires Inv(db, capacity) && MergeTables(db, sourceTables, destination, sourceSessions, into).Ok?
    ensures var d := MergeTables(db, sourceTables, destination, sourceSessions, into).db;
            forall s, t :: ActiveAt(d.sessions, s, t) <==> ActiveAt(db.sessions, s, t) && s !in MergeSources(db, sourceTables, sourceSessions)
    ensures into !in MergeSources(db, sourceTables, sourceSessions) && ActiveAt(db.sessions, into, destination)
    ensures forall s, t :: ActiveAt(db.sessions, s, t) && t in sourceTables ==> s in MergeSources(db, sourceTables, sourceSessions)
  {
    MergedTablesAreLeft(db, sourceTables, sourceSessions);
    hide Inv, OneSessionEach;
  }

  lemma MergedItems(db: Db, sourceTables: set<Id>, destination: Id, sourceSessions: set<Id>, into: Id)
    requires MergeTables(db, sourceTables, destination, sourceSessions, into).Ok?
    ensures var d := MergeTables(db, sourceTables, destination, sourceSessions, into).db;
            && |d.items| == |db.items|
            && forall i :: 0 <= i < |d.items| ==>
                 d.items[i] == if db.items[i].session in MergeSources(db, sourceTables, sourceSessions) then db.items[i].(session := into) else db.items[i]
  {
    var merged := MergeSources(db, sourceTables, sourceSessions);
    forall i | 0 <= i < |db.items| && db.items[i].session in merged
      ensures !db.items[i].paid && db.items[i].invoice.None?
    {
      assert ItemIn(db.items[i], db.items[i].session);
      assert !AnyPaidOrInvoiced(db.items, db.items[i].session);
    }
  }

  // ----- remaking -----

  /** A remake is free, needs what its original needed, and is the only one. */
  lemma RemakePromise(db: Db, i: Id, routable: bool)
    requires RemakeItem(db, i, routable).Ok?
    ensures var d := RemakeItem(db, i, routable).db;
            && i < |db.items| && |d.items| == |db.items| + 1
            && d.items[i].wasted == db.items[i].wasted + 1 && Need(d.items[|db.items|]) == Need(db.items[i])
            && Total(d.items, Value()) == Total(db.items, Value())
            && RemakeItem(d, i, routable) == Fail(Conflict)
  {
    var d := RemakeItem(db, i, routable).db;
    var marked := db.items[i].(remadeAs := Some(|db.items|), wasted := db.items[i].wasted + 1);
    TotalUpdate(db.items, i, marked, Value());
    TotalAppend(db.items[i := marked], Replacement(db.items[i], i), Value());
  }

  // ----- invoices -----

  /** All items of the invoice are paid. */
  predicate AllPaid(items: seq<Item>, v: Id) { forall i :: 0 <= i < |items| && items[i].invoice == Some(v) ==> items[i].paid }

  /** Every pending item of the invoice holds all it needs. */
  predicate AllReserved(items: seq<Item>, sel: Item -> bool) {
    forall i :: 0 <= i < |items| && sel(items[i]) && items[i].status == Pending ==> items[i].held == Need(items[i])
  }

  predicate SomeUnpaid(items: seq<Item>, s: Id) {
    exists i :: 0 <= i < |items| && ItemIn(items[i], s) && items[i].status != Cancelled && !items[i].paid
  }

  /** A session without a table does not stay active when everything in it is paid. */
  predicate ClosedIfPaid(db: Db, s: Id) {
    s < |db.sessions| && (db.sessions[s].table.None? && db.sessions[s].status == Active ==> SomeUnpaid(db.items, s))
  }

  lemma ReservedAll(db: Db, sel: Item -> bool)
    requires ReservePending(db, sel).Ok? && forall it: Item :: sel(it.(held := Need(it))) == sel(it)
    ensures AllReserved(ReservePending(db, sel).db.items, sel) && SameOnHand(db.stock, ReservePending(db, sel).db.stock)
  {
  }

  lemma CloseIfPaidCloses(db: Db, s: Id)
    requires s < |db.sessions|
    ensures CloseIfPaid(db, s).items == db.items && CloseIfPaid(db, s).stock == db.stock && CloseIfPaid(db, s).invoices == db.invoices
    ensures ClosedIfPaid(CloseIfPaid(db, s), s)
  {
  }

  lemma ReservedPaid(db: Db, v: Id)
    requires v < |db.invoices| && ReservePending(MarkPaid(db, v), OnInvoice(v)).Ok?
    ensures AllPaid(ReservePending(MarkPaid(db, v), OnInvoice(v)).db.items, v)
  {
  }

  /** A payment at the desk pays every item of the invoice and leaves each pending one with its stock reserved. */
  lemma PayInvoicePromise(db: Db, v: Id, closing: bool)
    requires PayInvoice(db, v, closing).Ok?
    ensures var d := PayInvoice(db, v, closing).db;
            && v < |db.invoices| == |d.invoices| && d.invoices[v].status == Paid && AllPaid(d.items, v) && AllReserved(d.items, OnInvoice(v))
            && SameOnHand(db.stock, d.stock) && (closing ==> ClosedIfPaid(d, db.invoices[v].session))
  {
    hide ReservePending, CloseIfPaid, AllPaid, AllReserved, ClosedIfPaid, SameOnHand;
    var r := ReservePending(MarkPaid(db, v), OnInvoice(v));
    ReservedAll(MarkPaid(db, v), OnInvoice(v));
    ReservedPaid(db, v);
    ReserveKeepsSessions(MarkPaid(db, v), OnInvoice(v));
    CloseIfPaidCloses(r.db, db.invoices[v].session);
  }

  /** A confirmed online payment pays every item of the invoice and is never refused for want of stock. */
  lemma PayOnlinePromise(db: Db, v: Id, closing: bool, capacity: nat)
    requires Inv(db, capacity)
    ensures PayOnline(db, v, closing).Ok? <==> v < |db.invoices| && db.invoices[v].status == Unpaid
    ensures PayOnline(db, v, closing).Ok? ==>
              var d := PayOnline(db, v, closing).db;
              && |d.invoices| == |db.invoices| && d.invoices[v].status == Paid && AllPaid(d.items, v) && d.stock == db.stock
              && (closing ==> ClosedIfPaid(d, db.invoices[v].session))
  {
    if v < |db.invoices| {
      assert InvoiceOk(v, db.invoices[v], db.items, db.sessions);
    }
    hide Inv, CloseIfPaid, ClosedIfPaid;
    if PayOnline(db, v, closing).Ok? {
      CloseIfPaidCloses(MarkPaid(db, v), db.invoices[v].session);
    }
  }

  /** No item is on the invoice any more, and those that were can be billed again. */
  predicate Freed(before: seq<Item>, after: seq<Item>, v: Id) {
    |after| == |before| && forall i :: 0 <= i < |before| ==>
      if before[i].invoice == Some(v) then Billable(after[i]) else after[i] == before[i]
  }

  /** Voiding is refused only for an invoice that is not there or not unpaid. */
  lemma VoidPromise(db: Db, v: Id, capacity: nat)
    requires Inv(db, capacity)
    ensures VoidInvoice(db, v).Ok? <==> v < |db.invoices| && db.invoices[v].status == Unpaid
    ensures VoidInvoice(db, v).Ok? ==>
              var d := VoidInvoice(db, v).db;
              |d.invoices| == |db.invoices| && d.invoices[v].status == Voided && Freed(db.items, d.items, v) && SameOnHand(db.stock, d.stock)
  {
    if v < |db.invoices| {
      assert InvoiceOk(v, db.invoices[v], db.items, db.sessions);
    }
    ReleaseEffect(db, PendingOn(v));
    ReleaseKeepsOnHand(db, PendingOn(v));
    EveryStays(db.stock);
    hide Release, SameOnHand;
    if VoidInvoice(db, v).Ok? {
      var d := VoidInvoice(db, v).db;
      forall i | 0 <= i < |db.items|
        ensures |d.items| == |db.items| && (if db.items[i].invoice == Some(v) then Billable(d.items[i]) else d.items[i] == db.items[i])
      {
        assert ItemOk(db.items[i], db.sessions, db.invoices);
      }
      hide Inv;
      VoidedLength(db, v);
    }
  }

  lemma VoidedLength(db: Db, v: Id)
    requires VoidInvoice(db, v).Ok?
    ensures |VoidInvoice(db, v).db.items| == |db.items|
  {
  }

  // ----- online orders -----

  /** A request that was turned down takes no place in any slot and is never accepted. */
  lemma RejectPromise(db: Db, q: Id, now: int, capacity: nat)
    requires RejectRequest(db, q, now).Ok?
    ensures var d := RejectRequest(db, q, now).db;
            && (forall p :: Total(d.requests, BookedAt(p)) == Total(db.requests, BookedAt(p)))
            && (forall lines, later :: AcceptRequest(d, q, lines, later, capacity) == Fail(Conflict))
  {
    var d := RejectRequest(db, q, now).db;
    forall p
      ensures Total(d.requests, BookedAt(p)) == Total(db.requests, BookedAt(p))
    {
      TotalUpdate(db.requests, q, d.requests[q], BookedAt(p));
    }
  }

  /** An accepted order is a session of its own with everything reserved, worth what was quoted, in a slot that
      had a place. */
  lemma AcceptPromise(db: Db, q: Id, lines: seq<Line>, now: int, capacity: nat)
    requires Inv(db, capacity) && AcceptRequest(db, q, lines, now, capacity).Ok?
    ensures var d := AcceptRequest(db, q, lines, now, capacity).db; var s := |db.sessions|;
            && q < |db.requests| == |d.requests| && d.requests[q].session == Some(s) && |d.sessions| == s + 1
            && Total(d.items, LineIn(s)) == db.requests[q].quotedSubtotal && AllReserved(d.items, InSession(s)) && SameOnHand(db.stock, d.stock)
            && (db.requests[q].pickupAt.Some? ==>
                 var p := db.requests[q].pickupAt.value;
                 Total(d.requests, BookedAt(p)) == Total(db.requests, BookedAt(p)) + 1 <= capacity)
  {
    var d := AcceptRequest(db, q, lines, now, capacity).db;
    AcceptRequestKeeps(db, q, lines, now, capacity);
    AcceptShape(db, q, lines, now, capacity);
    hide AcceptRequest, AllReserved, SameOnHand;
    ReservedAll(Opened(db, q, lines), InSession(|db.sessions|));
    OpenedSessions(db, q, lines);
    hide ReservePending;
    assert OnlineSessionOk(|db.sessions|, d.sessions[|db.sessions|], d.requests, d.items);
    hide Inv;
    if db.requests[q].pickupAt.Some? {
      TotalUpdate(db.requests, q, d.requests[q], BookedAt(db.requests[q].pickupAt.value));
    }
  }

  lemma OpenedSessions(db: Db, q: Id, lines: seq<Line>)
    requires ReservePending(Opened(db, q, lines), InSession(|db.sessions|)).Ok?
    ensures var d := ReservePending(Opened(db, q, lines), InSession(|db.sessions|)).db;
            d.sessions == db.sessions + [Session(None, Active, Some(q))] && d.requests == db.requests
  {
  }
}
