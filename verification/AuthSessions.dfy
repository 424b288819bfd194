/** Refresh-token families. A family starts at login; each refresh revokes the session of the presented
    token and opens the next one; presenting a token that cannot be refreshed revokes the whole family.
    Rotation and family revocation are two transactions, and any others may come between them. */
module AuthSessions {
  import opened Sums

  type Id = nat
  type Family = nat
  type Employee = nat

  /** A signed refresh token; `secret` stands for the token text, whose hash the session row keeps. */
  datatype Token = Token(session: Id, family: Family, employee: Employee, secret: nat)
  datatype Row = Row(family: Family, employee: Employee, secret: nat, revoked: bool, expiresAt: int)

  /** A worker that found a token unusable and has not revoked its family yet. */
  datatype Pending = Pending(family: Family, employee: Employee)

  /** `issued` are the tokens handed out, `owner` the employee of each family. */
  datatype Db = Db(rows: map<Id, Row>, nextId: Id, owner: seq<Employee>, issued: set<Token>, pending: set<Pending>)

  const EMPTY: Db := Db(map[], 0, [], {}, {})

  const TTL_MS := 30 * 24 * 60 * 60 * 1_000
  const PURGE_GRACE_MS := 30 * 24 * 60 * 60 * 1_000

  datatype Event =
    | LoggedIn(employee: Employee, now: int)
    | RotationTried(token: Token, employeeOk: bool, now: int)
    | ReuseRevoked(pending: Pending)
    | LoggedOut(token: Token)
    | EmployeeRevoked(employee: Employee)
    | Purged(ids: set<Id>, now: int)

  predicate Live(rows: map<Id, Row>, id: Id, f: Family) { id in rows && !rows[id].revoked && rows[id].family == f }

  /** `createSession`: a fresh family with its first session. */
  function LogIn(db: Db, employee: Employee, now: int): Db {
    var t := Token(db.nextId, |db.owner|, employee, db.nextId);
    db.(rows := db.rows[db.nextId := Row(|db.owner|, employee, db.nextId, false, now + TTL_MS)], nextId := db.nextId + 1,
        owner := db.owner + [employee], issued := db.issued + {t})
  }

  predicate Usable(db: Db, t: Token, employeeOk: bool, now: int) {
    && t.session in db.rows
    && var r := db.rows[t.session];
       r.employee == t.employee && r.family == t.family && employeeOk && !r.revoked && r.expiresAt > now && r.secret == t.secret
  }

  /** The rotation transaction: it consumes the session and opens the next, or leaves a revocation to do. */
  function Rotate(db: Db, t: Token, employeeOk: bool, now: int): Db {
    if Usable(db, t, employeeOk, now) then
      var r := db.rows[t.session];
      db.(rows := db.rows[t.session := r.(revoked := true)][db.nextId := Row(t.family, t.employee, db.nextId, false, now + TTL_MS)],
          nextId := db.nextId + 1, issued := db.issued + {Token(db.nextId, t.family, t.employee, db.nextId)})
    else db.(pending := db.pending + {Pending(t.family, t.employee)})
  }

  function RevokeRows(rows: map<Id, Row>, f: Family, employee: Employee): map<Id, Row> {
    map id | id in rows :: if rows[id].family == f && rows[id].employee == employee then rows[id].(revoked := true) else rows[id]
  }

  function FinishReuse(db: Db, p: Pending): Db {
    if p in db.pending then db.(rows := RevokeRows(db.rows, p.family, p.employee), pending := db.pending - {p}) else db
  }

  /** `revoke`: a logout revokes the family if the token's session row is still there. */
  function LogOut(db: Db, t: Token): Db {
    if t.session in db.rows && db.rows[t.session].employee == t.employee && db.rows[t.session].family == t.family
    then db.(rows := RevokeRows(db.rows, t.family, t.employee)) else db
  }

  function RevokeEmployee(db: Db, employee: Employee): Db {
    db.(rows := map id | id in db.rows :: if db.rows[id].employee == employee then db.rows[id].(revoked := true) else db.rows[id])
  }

  function Purge(db: Db, ids: set<Id>, now: int): Db {
    if forall id :: id in ids ==> id in db.rows && db.rows[id].expiresAt < now - PURGE_GRACE_MS then db.(rows := db.rows - ids) else db
  }

  /** Only tokens that were handed out carry a valid signature. */
  function Step(db: Db, e: Event): Db {
    match e
    case LoggedIn(employee, now) => LogIn(db, employee, now)
    case RotationTried(t, employeeOk, now) => if t in db.issued then Rotate(db, t, employeeOk, now) else db
    case ReuseRevoked(p) => FinishReuse(db, p)
    case LoggedOut(t) => if t in db.issued then LogOut(db, t) else db
    case EmployeeRevoked(employee) => RevokeEmployee(db, employee)
    case Purged(ids, now) => Purge(db, ids, now)
  }

  function Run(db: Db, events: seq<Event>): Db {
    if events == [] then db else Step(Run(db, events[..|events| - 1]), events[|events| - 1])
  }

  // ----- invariant -----

  predicate RowOk(id: Id, r: Row, nextId: Id, owner: seq<Employee>) {
    id < nextId && r.family < |owner| && r.employee == owner[r.family] && r.secret == id
  }

  predicate TokenOk(t: Token, nextId: Id, owner: seq<Employee>) {
    t.session < nextId && t.family < |owner| && t.employee == owner[t.family] && t.secret == t.session
  }

  predicate OneLive(rows: map<Id, Row>) {
    forall i, j :: i in rows && j in rows && !rows[i].revoked && !rows[j].revoked && rows[i].family == rows[j].family ==> i == j
  }

  /** A session belongs to the family of the token it was handed out with. */
  predicate SameFamily(issued: set<Token>, rows: map<Id, Row>) {
    forall t :: t in issued && t.session in rows ==> rows[t.session].family == t.family
  }

  predicate Inv(db: Db) {
    && (forall id :: id in db.rows ==> RowOk(id, db.rows[id], db.nextId, db.owner))
    && (forall t :: t in db.issued ==> TokenOk(t, db.nextId, db.owner))
    && (forall p :: p in db.pending ==> p.family < |db.owner| && p.employee == db.owner[p.family])
    && OneLive(db.rows) && SameFamily(db.issued, db.rows)
  }

  lemma RotateKeeps(db: Db, t: Token, employeeOk: bool, now: int)
    requires Inv(db) && t in db.issued
    ensures Inv(Rotate(db, t, employeeOk, now))
  {
    assert TokenOk(t, db.nextId, db.owner);
  }

  lemma LogInKeeps(db: Db, employee: Employee, now: int)
    requires Inv(db)
    ensures Inv(LogIn(db, employee, now))
  {
  }

  lemma FamilyRevoked(db: Db, f: Family, employee: Employee)
    requires Inv(db)
    ensures Inv(db.(rows := RevokeRows(db.rows, f, employee)))
  {
  }

  lemma FinishReuseKeeps(db: Db, p: Pending)
    requires Inv(db)
    ensures Inv(FinishReuse(db, p))
  {
    FamilyRevoked(db, p.family, p.employee);
    hide RevokeRows, OneLive, SameFamily;
  }

  lemma EmployeeRevokedKeeps(db: Db, employee: Employee)
    requires Inv(db)
    ensures Inv(RevokeEmployee(db, employee))
  {
  }

  lemma PurgeKeeps(db: Db, ids: set<Id>, now: int)
    requires Inv(db)
    ensures Inv(Purge(db, ids, now))
  {
  }

  lemma StepKeeps(db: Db, e: Event)
    requires Inv(db)
    ensures Inv(Step(db, e))
  {
    hide Inv;
    match e
    case LoggedIn(employee, now) => LogInKeeps(db, employee, now);
    case RotationTried(t, employeeOk, now) => if t in db.issued { RotateKeeps(db, t, employeeOk, now); }
    case ReuseRevoked(p) => FinishReuseKeeps(db, p);
    case LoggedOut(t) => FamilyRevoked(db, t.family, t.employee);
    case EmployeeRevoked(employee) => EmployeeRevokedKeeps(db, employee);
    case Purged(ids, now) => PurgeKeeps(db, ids, now);
  }

  lemma {:induction false} RunKeeps(db: Db, events: seq<Event>)
    requires Inv(db)
    ensures Inv(Run(db, events))
  {
    if events != [] {
      RunKeeps(db, events[..|events| - 1]);
      StepKeeps(Run(db, events[..|events| - 1]), events[|events| - 1]);
    }
  }

  // ----- theorems -----

  ghost predicate Reachable(db: Db) {
    exists events :: db == Run(EMPTY, events)
  }

  lemma ReachableInv(db: Db)
    requires Reachable(db)
    ensures Inv(db)
  {
    var events :| db == Run(EMPTY, events);
    RunKeeps(EMPTY, events);
  }

  /** A family has one unrevoked session at most. */
  lemma OneLiveSessionPerFamily(db: Db, i: Id, j: Id, f: Family)
    requires Reachable(db) && Live(db.rows, i, f) && Live(db.rows, j, f)
    ensures i == j
  {
    ReachableInv(db);
  }

  /** The family exists and has no unrevoked session. */
  predicate Dead(db: Db, f: Family) { f < |db.owner| && forall id :: id in db.rows && db.rows[id].family == f ==> db.rows[id].revoked }

  lemma DeadStepStays(db: Db, e: Event, f: Family)
    requires Inv(db) && Dead(db, f)
    ensures Dead(Step(db, e), f)
  {
  }

  /** A family without an unrevoked session never gets one again. */
  lemma {:induction false} DeadFamilyStaysDead(db: Db, events: seq<Event>, f: Family)
    requires Inv(db) && Dead(db, f)
    ensures Dead(Run(db, events), f)
  {
    if events != [] {
      DeadFamilyStaysDead(db, events[..|events| - 1], f);
      RunKeeps(db, events[..|events| - 1]);
      DeadStepStays(Run(db, events[..|events| - 1]), events[|events| - 1], f);
    }
  }

  lemma PendingStepStays(db: Db, e: Event, p: Pending)
    requires Inv(db) && p in db.pending
    ensures p in Step(db, e).pending || Dead(Step(db, e), p.family)
  {
  }

  /** A revocation that is still to do stays to do until the family is dead. */
  lemma {:induction false} PendingUntilDead(db: Db, events: seq<Event>, p: Pending)
    requires Inv(db) && p in db.pending
    ensures p in Run(db, events).pending || Dead(Run(db, events), p.family)
  {
    if events != [] {
      var before := Run(db, events[..|events| - 1]);
      PendingUntilDead(db, events[..|events| - 1], p);
      RunKeeps(db, events[..|events| - 1]);
      if Dead(before, p.family) {
        DeadStepStays(before, events[|events| - 1], p.family);
      } else {
        PendingStepStays(before, events[|events| - 1], p);
      }
    }
  }

  /** A reuse attempt: once a token was refused, then whatever else happens in between, when the attempt has
      revoked the family, the family has no unrevoked session, then and for ever. */
  lemma ReuseEndsTheFamily(db: Db, t: Token, employeeOk: bool, now: int, between: seq<Event>, afterwards: seq<Event>)
    requires Inv(db) && t in db.issued && !Usable(db, t, employeeOk, now)
    ensures var refused := Run(Step(db, RotationTried(t, employeeOk, now)), between);
            Dead(Run(Step(refused, ReuseRevoked(Pending(t.family, t.employee))), afterwards), t.family)
  {
    var p := Pending(t.family, t.employee);
    var tried := Step(db, RotationTried(t, employeeOk, now));
    StepKeeps(db, RotationTried(t, employeeOk, now));
    RunKeeps(tried, between);
    PendingUntilDead(tried, between, p);
    var refused := Run(tried, between);
    if p in refused.pending {
      assert TokenOk(t, db.nextId, db.owner);
      assert Dead(Step(refused, ReuseRevoked(p)), t.family);
    } else {
      DeadStepStays(refused, ReuseRevoked(p), t.family);
    }
    StepKeeps(refused, ReuseRevoked(p));
    DeadFamilyStaysDead(Step(refused, ReuseRevoked(p)), afterwards, t.family);
  }

  /** The session of a token is revoked or gone. */
  predicate Spent(db: Db, t: Token) { t.session < db.nextId && (t.session in db.rows ==> db.rows[t.session].revoked) }

  lemma {:induction false} SpentStays(db: Db, t: Token, events: seq<Event>)
    requires Spent(db, t)
    ensures Spent(Run(db, events), t)
  {
    if events != [] {
      SpentStays(db, t, events[..|events| - 1]);
    }
  }

  /** A token is exchanged once at most: after it was, it is never usable again, at any later time. */
  lemma TokenRotatesOnce(db: Db, t: Token, now: int, events: seq<Event>, employeeOk: bool, later: int)
    requires Inv(db) && t in db.issued && Usable(db, t, true, now)
    ensures !Usable(Run(Rotate(db, t, true, now), events), t, employeeOk, later)
  {
    assert TokenOk(t, db.nextId, db.owner);
    SpentStays(Rotate(db, t, true, now), t, events);
  }

  /** A refused token, with nothing between the two transactions. */
  lemma RefusalRevokes(db: Db, t: Token, employeeOk: bool, now: int)
    requires Inv(db) && t in db.issued && !Usable(db, t, employeeOk, now)
    ensures var d := FinishReuse(Rotate(db, t, employeeOk, now), Pending(t.family, t.employee));
            Inv(d) && Dead(d, t.family) && d.pending == db.pending - {Pending(t.family, t.employee)}
  {
    RotateKeeps(db, t, employeeOk, now);
    assert TokenOk(t, db.nextId, db.owner);
    StepKeeps(Rotate(db, t, employeeOk, now), ReuseRevoked(Pending(t.family, t.employee)));
  }

  /** A token is good exactly while its session is on record, neither revoked nor expired, and its employee may work. */
  lemma WhenUsable(db: Db, t: Token, employeeOk: bool, now: int)
    requires Inv(db) && t in db.issued
    ensures Usable(db, t, employeeOk, now) <==> t.session in db.rows && !db.rows[t.session].revoked && now < db.rows[t.session].expiresAt && employeeOk
  {
    assert TokenOk(t, db.nextId, db.owner);
  }

  /** A session is only forgotten thirty days after it expired, that is sixty after it began. */
  lemma ForgottenLate(db: Db, id: Id, ids: set<Id>, now: int)
    requires id in db.rows && id !in Purge(db, ids, now).rows
    ensures db.rows[id].expiresAt + 2_592_000_000 < now
  {
  }

  lemma NextIdIsNew(db: Db)
    requires Inv(db)
    ensures db.nextId !in db.rows
  {
  }

  lemma SuccessorIsLive(db: Db, t: Token, now: int)
    requires Inv(db) && t in db.issued && Usable(db, t, true, now)
    ensures t.session != db.nextId && Live(Rotate(db, t, true, now).rows, db.nextId, t.family)
  {
  }

  // ----- the service -----

  class SessionService {
    var rows: map<Id, Row>
    var nextId: Id
    var owner: seq<Employee>
    var issued: set<Token>
    var pending: set<Pending>

    constructor ()
      ensures Snapshot() == EMPTY
    {
      rows, nextId, owner, issued, pending := map[], 0, [], {}, {};
    }

    function Snapshot(): Db
      reads this
    {
      Db(rows, nextId, owner, issued, pending)
    }

    method CreateSession(employee: Employee, now: int) returns (t: Token)
      requires Inv(Snapshot())
      modifies this
      ensures Snapshot() == LogIn(old(Snapshot()), employee, now) && Inv(Snapshot())
      ensures t in issued && Live(rows, t.session, t.family) && t.family == |old(owner)|
      ensures t.session !in old(rows) && rows == old(rows)[t.session := Row(t.family, employee, t.secret, false, now + 2_592_000_000)]
    {
      StepKeeps(Snapshot(), LoggedIn(employee, now));
      NextIdIsNew(Snapshot());
      hide Inv;
      t := Token(nextId, |owner|, employee, nextId);
      rows := rows[nextId := Row(|owner|, employee, nextId, false, now + TTL_MS)];
      nextId := nextId + 1;
      owner := owner + [employee];
      issued := issued + {t};
    }

    /** Both transactions of a refresh, with nothing in between. A good token is exchanged for one whose session lasts
        another thirty days, and its own session is revoked; any other token ends its family, and nothing else. */
    method RotateToken(t: Token, employeeOk: bool, now: int) returns (next: Option<Token>)
      requires Inv(Snapshot()) && t in issued
      modifies this
      ensures Inv(Snapshot())
      ensures next.Some? <==> t.session in old(rows) && !old(rows)[t.session].revoked && now < old(rows)[t.session].expiresAt && employeeOk
      ensures next.Some? ==> next.value.employee == t.employee && next.value.session !in old(rows) && t.session in old(rows)
                             && rows == old(rows)[t.session := old(rows)[t.session].(revoked := true)]
                                                 [next.value.session := Row(t.family, t.employee, next.value.secret, false, now + 2_592_000_000)]
      ensures next.None? ==> rows.Keys == old(rows).Keys && forall id :: id in rows && rows[id].family != t.family ==> rows[id] == old(rows)[id]
      ensures next.Some? ==> Snapshot() == Rotate(old(Snapshot()), t, employeeOk, now)
                             && next.value in issued && next.value.family == t.family && Live(rows, next.value.session, t.family)
      ensures next.None? ==> Snapshot() == FinishReuse(Rotate(old(Snapshot()), t, employeeOk, now), Pending(t.family, t.employee))
                             && Dead(Snapshot(), t.family)
    {
      hide Inv, Dead;
      WhenUsable(Snapshot(), t, employeeOk, now);
      NextIdIsNew(Snapshot());
      RotateKeeps(Snapshot(), t, employeeOk, now);
      if Usable(Snapshot(), t, employeeOk, now) {
        SuccessorIsLive(Snapshot(), t, now);
      } else {
        RefusalRevokes(Snapshot(), t, employeeOk, now);
      }
      if t.session in rows && rows[t.session].employee == t.employee && rows[t.session].family == t.family && employeeOk
         && !rows[t.session].revoked && rows[t.session].expiresAt > now && rows[t.session].secret == t.secret {
        rows := rows[t.session := rows[t.session].(revoked := true)];
        var successor := Token(nextId, t.family, t.employee, nextId);
        rows := rows[nextId := Row(t.family, t.employee, nextId, false, now + TTL_MS)];
        nextId := nextId + 1;
        issued := issued + {successor};
        return Some(successor);
      }
      rows := RevokeRows(rows, t.family, t.employee);
      pending := pending + {Pending(t.family, t.employee)} - {Pending(t.family, t.employee)};
      return None;
    }

    /** A logout with a token, used or not, whose session row is still there leaves its family without an
        unrevoked session; no other family is touched. */
    method Revoke(t: Token)
      requires Inv(Snapshot()) && t in issued
      modifies `rows
      ensures Snapshot() == LogOut(old(Snapshot()), t) && Inv(Snapshot())
      ensures t.session in old(rows) ==> Dead(Snapshot(), t.family)
      ensures rows.Keys == old(rows).Keys && forall id :: id in rows && rows[id].family != t.family ==> rows[id] == old(rows)[id]
    {
      assert TokenOk(t, nextId, owner);
      if t.session in rows && rows[t.session].employee == t.employee && rows[t.session].family == t.family {
        rows := RevokeRows(rows, t.family, t.employee);
      }
    }

    method RevokeAllForEmployee(employee: Employee)
      requires Inv(Snapshot())
      modifies `rows
      ensures Snapshot() == RevokeEmployee(old(Snapshot()), employee) && Inv(Snapshot())
      ensures forall id :: id in rows && rows[id].employee == employee ==> rows[id].revoked
      ensures rows.Keys == old(rows).Keys && forall id :: id in rows && rows[id].employee != employee ==> rows[id] == old(rows)[id]
    {
      rows := map id | id in rows :: if rows[id].employee == employee then rows[id].(revoked := true) else rows[id];
    }
  }
}
