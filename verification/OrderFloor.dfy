/** The floor: a table is OCCUPIED exactly when it has an active session, and never has two. */
module OrderFloor {
  import opened Sums
  import opened OrderTables

  ghost predicate HasActive(sessions: seq<Session>, t: Id) {
    exists s: Id :: ActiveAt(sessions, s, t)
  }

  ghost predicate TableOk(t: Id, table: Table, sessions: seq<Session>) {
    (table.status == Occupied <==> HasActive(sessions, t)) && (table.deleted ==> table.status == Empty) && table.status != Reserved
  }

  ghost predicate OneSessionEach(sessions: seq<Session>) {
    forall r, s, t :: ActiveAt(sessions, r, t) && ActiveAt(sessions, s, t) ==> r == s
  }

  ghost predicate FloorOk(tables: seq<Table>, sessions: seq<Session>) {
    && (forall t :: 0 <= t < |tables| ==> TableOk(t, tables[t], sessions))
    && OneSessionEach(sessions)
    && (forall s :: 0 <= s < |sessions| && sessions[s].table.Some? ==> sessions[s].table.value < |tables|)
  }

  /** Sessions may change in any way that leaves who is active where as it was. */
  ghost predicate SamePlaces(before: seq<Session>, after: seq<Session>) {
    forall s, t :: ActiveAt(after, s, t) <==> ActiveAt(before, s, t)
  }

  lemma SamePlacesKeep(tables: seq<Table>, before: seq<Session>, after: seq<Session>)
    requires FloorOk(tables, before) && SamePlaces(before, after)
    requires forall s :: 0 <= s < |after| && after[s].table.Some? ==> after[s].table.value < |tables|
    ensures FloorOk(tables, after)
  {
    forall t | 0 <= t < |tables| ensures TableOk(t, tables[t], after) {
      assert TableOk(t, tables[t], before);
    }
  }

  /** A session opens at an empty table. */
  lemma SeatKeeps(tables: seq<Table>, sessions: seq<Session>, t: Id, s: Session)
    requires FloorOk(tables, sessions) && t < |tables| && tables[t].status == Empty && !tables[t].deleted
    requires s.table == Some(t) && s.status == Active
    ensures FloorOk(tables[t := tables[t].(status := Occupied)], sessions + [s])
  {
    var after := sessions + [s];
    assert ActiveAt(after, |sessions|, t);
    assert forall r, u :: ActiveAt(after, r, u) ==> ActiveAt(sessions, r, u) || (r == |sessions| && u == t);
    assert forall r, u :: ActiveAt(sessions, r, u) ==> ActiveAt(after, r, u);
    assert TableOk(t, tables[t], sessions);
    forall u | 0 <= u < |tables| && u != t ensures TableOk(u, tables[u], after) {
      assert TableOk(u, tables[u], sessions);
    }
  }

  /** The active session of a table ends or leaves, and the table becomes empty. */
  lemma LeaveKeeps(tables: seq<Table>, sessions: seq<Session>, s: Id, t: Id, after: Session)
    requires FloorOk(tables, sessions) && ActiveAt(sessions, s, t) && t < |tables|
    requires after.status != Active && after.table == sessions[s].table
    ensures FloorOk(tables[t := tables[t].(status := Empty)], sessions[s := after])
  {
    var rest := sessions[s := after];
    assert forall r, u :: ActiveAt(rest, r, u) <==> r != s && ActiveAt(sessions, r, u);
    assert !HasActive(rest, t);
    forall u | 0 <= u < |tables| && u != t ensures TableOk(u, tables[u], rest) {
      assert TableOk(u, tables[u], sessions);
      if tables[u].status == Occupied {
        var r: Id :| ActiveAt(sessions, r, u);
        assert ActiveAt(rest, r, u);
      }
    }
    assert TableOk(t, tables[t], sessions);
  }

  lemma AddTableKeeps(db: Db)
    requires FloorOk(db.tables, db.sessions)
    ensures FloorOk(AddTable(db).db.tables, db.sessions)
  {
    var t := |db.tables|;
    assert !HasActive(db.sessions, t);
    forall u | 0 <= u < t ensures TableOk(u, AddTable(db).db.tables[u], db.sessions) {
      assert TableOk(u, db.tables[u], db.sessions);
    }
  }

  lemma DeleteTableKeeps(db: Db, t: Id)
    requires FloorOk(db.tables, db.sessions) && DeleteTable(db, t).Ok?
    ensures FloorOk(DeleteTable(db, t).db.tables, db.sessions)
  {
    assert TableOk(t, db.tables[t], db.sessions);
    forall u | 0 <= u < |db.tables| && u != t ensures TableOk(u, db.tables[u], db.sessions) {
    }
  }

  /** An occupied table that is set empty: only if nobody is active there. */
  lemma ResetKeeps(db: Db, t: Id)
    requires FloorOk(db.tables, db.sessions) && t < |db.tables| && !HasActive(db.sessions, t)
    ensures FloorOk(SetTable(db, t, Empty).tables, db.sessions)
  {
    assert TableOk(t, db.tables[t], db.sessions);
    forall u | 0 <= u < |db.tables| && u != t ensures TableOk(u, db.tables[u], db.sessions) {
    }
  }

  lemma TransferKeeps(db: Db, s: Id, from: Id, to: Id)
    requires FloorOk(db.tables, db.sessions) && TransferTable(db, s, from, to).Ok?
    ensures FloorOk(TransferTable(db, s, from, to).db.tables, TransferTable(db, s, from, to).db.sessions)
  {
    var d := TransferTable(db, s, from, to).db;
    assert TableOk(from, db.tables[from], db.sessions) && TableOk(to, db.tables[to], db.sessions);
    assert from != to && d.tables[from].status == Empty && d.tables[to].status == Occupied;
    assert forall r, u :: ActiveAt(d.sessions, r, u) <==> (if r == s then u == to else ActiveAt(db.sessions, r, u));
    assert ActiveAt(d.sessions, s, to);
    assert !HasActive(d.sessions, from);
    forall u | 0 <= u < |db.tables| && u != from && u != to ensures TableOk(u, d.tables[u], d.sessions) {
      assert TableOk(u, db.tables[u], db.sessions);
      if db.tables[u].status == Occupied {
        var r: Id :| ActiveAt(db.sessions, r, u);
        assert ActiveAt(d.sessions, r, u);
      }
    }
  }

  // ----- merging -----

  /** An injective image of a set has as many elements; if they are as many as the target they are all of it. */
  lemma {:induction false} InjectionIsOnto(sources: set<Id>, targets: set<Id>, place: Id -> Id)
    requires forall s :: s in sources ==> place(s) in targets
    requires forall r, s :: r in sources && s in sources && place(r) == place(s) ==> r == s
    requires |sources| == |targets|
    ensures forall t :: t in targets ==> exists s :: s in sources && place(s) == t
    decreases |sources|
  {
    if sources != {} {
      var s :| s in sources;
      InjectionIsOnto(sources - {s}, targets - {place(s)}, place);
      forall t | t in targets ensures exists r :: r in sources && place(r) == t {
        if t == place(s) {
        } else {
          assert t in targets - {place(s)};
          var r :| r in sources - {s} && place(r) == t;
          assert r in sources;
        }
      }
    } else {
      assert targets == {};
    }
  }

  function PlaceIn(sessions: seq<Session>): Id -> Id {
    (s: Id) => if s < |sessions| && sessions[s].table.Some? then sessions[s].table.value else 0
  }

  /** Counting the source sessions is enough: then every source table had its only session among them. */
  lemma MergedTablesAreLeft(db: Db, sourceTables: set<Id>, sourceSessions: set<Id>)
    requires FloorOk(db.tables, db.sessions)
    requires |MergeSources(db, sourceTables, sourceSessions)| == |sourceTables|
    ensures forall s, t :: ActiveAt(db.sessions, s, t) && t in sourceTables ==> s in MergeSources(db, sourceTables, sourceSessions)
  {
    var merged := MergeSources(db, sourceTables, sourceSessions);
    forall r, s | r in merged && s in merged && PlaceIn(db.sessions)(r) == PlaceIn(db.sessions)(s) ensures r == s {
      assert ActiveAt(db.sessions, r, db.sessions[r].table.value) && ActiveAt(db.sessions, s, db.sessions[r].table.value);
    }
    InjectionIsOnto(merged, sourceTables, PlaceIn(db.sessions));
    forall s, t | ActiveAt(db.sessions, s, t) && t in sourceTables ensures s in merged {
      var r :| r in merged && PlaceIn(db.sessions)(r) == t;
      assert ActiveAt(db.sessions, r, t);
    }
  }

  lemma MergeKeeps(db: Db, sourceTables: set<Id>, destination: Id, sourceSessions: set<Id>, into: Id)
    requires FloorOk(db.tables, db.sessions) && MergeTables(db, sourceTables, destination, sourceSessions, into).Ok?
    ensures var d := MergeTables(db, sourceTables, destination, sourceSessions, into).db; FloorOk(d.tables, d.sessions)
  {
    var d := MergeTables(db, sourceTables, destination, sourceSessions, into).db;
    var merged := MergeSources(db, sourceTables, sourceSessions);
    MergedTablesAreLeft(db, sourceTables, sourceSessions);
    forall r, u ensures ActiveAt(d.sessions, r, u) <==> r !in merged && ActiveAt(db.sessions, r, u) {
    }
    forall t | 0 <= t < |d.tables| ensures TableOk(t, d.tables[t], d.sessions) {
      assert TableOk(t, db.tables[t], db.sessions);
      if t in sourceTables {
        assert !HasActive(d.sessions, t);
      } else if db.tables[t].status == Occupied {
        var r: Id :| ActiveAt(db.sessions, r, t);
        assert ActiveAt(d.sessions, r, t);
      }
    }
  }
}
