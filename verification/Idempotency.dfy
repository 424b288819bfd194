/** Idempotent commands against a table of records that housekeeping purges. A command and its record
    commit in one transaction, so a record that can be seen is a completed one. */
module Idempotency {
  import opened Sums

  const TTL_MS := 24 * 60 * 60 * 1_000

  datatype Key = Key(employee: nat, operation: string, key: string)

  /** `request` stands for its hash; `expiresAt` is a day after the command ran. */
  datatype Record<Q, R> = Record(request: Q, response: R, expiresAt: int)

  /** One run of an operation, with the time it ran. */
  datatype Effect<Q> = Effect(key: Key, request: Q, at: int)

  datatype Db<Q, R> = Db(records: map<Key, Record<Q, R>>, effects: seq<Effect<Q>>, clock: int)

  datatype Answer<R> = Response(value: R) | KeyReused | OperationFailed

  /** Operations without another durable identity of their own keep their records. */
  predicate Protected(k: Key) { "inventory.stock." <= k.operation || "cashier-shift." <= k.operation }

  /** `execute`: `result` is what the operation would answer, or that it would throw. */
  function Execute<Q(==), R>(db: Db<Q, R>, k: Key, q: Q, now: int, result: Option<R>): (Db<Q, R>, Answer<R>) {
    if k in db.records then
      (db, if db.records[k].request == q then Response(db.records[k].response) else KeyReused)
    else match result
      case None => (db, OperationFailed)
      case Some(r) => (Db(db.records[k := Record(q, r, now + TTL_MS)], db.effects + [Effect(k, q, now)], db.clock), Response(r))
  }

  predicate Purgeable<Q, R>(db: Db<Q, R>, k: Key, now: int) {
    k in db.records && db.records[k].expiresAt < now && !Protected(k)
  }

  function Purge<Q, R>(db: Db<Q, R>, keys: set<Key>, now: int): Db<Q, R> {
    if forall k :: k in keys ==> Purgeable(db, k, now) then db.(records := db.records - keys) else db
  }

  /** Every step happens at the time the clock shows, and the clock does not run backwards. */
  datatype Event<Q, R> =
    | Executed(key: Key, request: Q, result: Option<R>)
    | Purged(keys: set<Key>)
    | Waited(until: int)

  function Step<Q(==), R>(db: Db<Q, R>, e: Event<Q, R>): Db<Q, R> {
    match e
    case Executed(k, q, result) => Execute(db, k, q, db.clock, result).0
    case Purged(keys) => Purge(db, keys, db.clock)
    case Waited(until) => if until >= db.clock then db.(clock := until) else db
  }

  function Run<Q(==), R>(db: Db<Q, R>, events: seq<Event<Q, R>>): Db<Q, R> {
    if events == [] then db else Step(Run(db, events[..|events| - 1]), events[|events| - 1])
  }

  // ----- invariant -----

  /** An effect either still has its record or lies more than a day back and is not protected; and two
      effects under one key are more than a day apart and not protected. */
  predicate EffectOk<Q, R>(e: Effect<Q>, db: Db<Q, R>) {
    e.at <= db.clock && (e.key !in db.records ==> !Protected(e.key) && e.at + TTL_MS < db.clock)
  }

  predicate PairOk<Q>(e: Effect<Q>, f: Effect<Q>) {
    e.key == f.key ==> !Protected(e.key) && e.at + TTL_MS < f.at
  }

  ghost predicate Inv<Q, R>(db: Db<Q, R>) {
    && (forall i :: 0 <= i < |db.effects| ==> EffectOk(db.effects[i], db))
    && (forall i, j :: 0 <= i < j < |db.effects| ==> PairOk(db.effects[i], db.effects[j]))
    && (forall i :: 0 <= i < |db.effects| && db.effects[i].key in db.records ==> db.effects[i].at + TTL_MS <= db.records[db.effects[i].key].expiresAt)
  }

  lemma ExecuteKeeps<Q, R>(db: Db<Q, R>, k: Key, q: Q, result: Option<R>)
    requires Inv(db)
    ensures Inv(Execute(db, k, q, db.clock, result).0)
  {
    if k !in db.records && result.Some? {
      var d := Execute(db, k, q, db.clock, result).0;
      forall i | 0 <= i < |db.effects| ensures EffectOk(db.effects[i], d) && PairOk(db.effects[i], d.effects[|db.effects|]) {
        assert EffectOk(db.effects[i], db);
      }
    }
  }

  lemma PurgeKeeps<Q, R>(db: Db<Q, R>, keys: set<Key>)
    requires Inv(db)
    ensures Inv(Purge(db, keys, db.clock))
  {
    var d := Purge(db, keys, db.clock);
    forall i | 0 <= i < |d.effects| ensures EffectOk(d.effects[i], d) {
      assert EffectOk(db.effects[i], db);
      if d.effects[i].key in db.records && d.effects[i].key !in d.records {
        assert Purgeable(db, d.effects[i].key, db.clock);
      }
    }
  }

  lemma {:induction false} RunKeeps<Q, R>(events: seq<Event<Q, R>>)
    ensures Inv(Run(Db(map[], [], 0), events))
  {
    if events != [] {
      var before := Run(Db(map[], [], 0), events[..|events| - 1]);
      RunKeeps(events[..|events| - 1]);
      match events[|events| - 1]
      case Executed(k, q, result) => ExecuteKeeps(before, k, q, result);
      case Purged(keys) => PurgeKeeps(before, keys);
      case Waited(until) =>
        forall i | 0 <= i < |before.effects| ensures EffectOk(before.effects[i], Step(before, Waited(until))) {
          assert EffectOk(before.effects[i], before);
        }
    }
  }

  // ----- theorems -----

  /** Over any run, with housekeeping between any two calls: a protected command takes effect once at most
      under a key, and any other command at most once a day. */
  lemma EffectsAreADayApart<Q, R>(events: seq<Event<Q, R>>, i: nat, j: nat)
    requires i < j < |Run(Db(map[], [], 0), events).effects|
    requires var fx := Run(Db(map[], [], 0), events).effects; fx[i].key == fx[j].key
    ensures var fx := Run(Db(map[], [], 0), events).effects; !Protected(fx[i].key) && fx[j].at - fx[i].at > TTL_MS
  {
    RunKeeps(events);
    var fx := Run(Db(map[], [], 0), events).effects;
    assert PairOk(fx[i], fx[j]);
  }

  /** The record of a command is gone only if housekeeping could take it: while it is there the command
      replays its response and refuses the key for anything else, without effect. */
  lemma {:induction false} CommandReplays<Q, R>(db: Db<Q, R>, k: Key, q: Q, r: R, now: int, events: seq<Event<Q, R>>, other: Q, result: Option<R>)
    requires k !in db.records && other != q
    requires forall i :: 0 <= i < |events| && events[i].Purged? ==> k !in events[i].keys
    ensures var d := Run(Execute(db, k, q, now, Some(r)).0, events);
            && Execute(d, k, q, d.clock, result) == (d, Response(r))
            && Execute(d, k, other, d.clock, result) == (d, KeyReused)
  {
    if events != [] {
      CommandReplays(db, k, q, r, now, events[..|events| - 1], other, result);
    }
  }

  /** Without protection one key can take effect twice: a purge after the day has passed forgets it. */
  lemma PurgeForgets(k: Key)
    requires !Protected(k)
    ensures var events: seq<Event<int, int>> := [Executed(k, 0, Some(0)), Waited(TTL_MS + 1), Purged({k}), Executed(k, 0, Some(0))];
            |Run(Db(map[], [], 0), events).effects| == 2
  {
    var events: seq<Event<int, int>> := [Executed(k, 0, Some(0)), Waited(TTL_MS + 1), Purged({k}), Executed(k, 0, Some(0))];
    var start: Db<int, int> := Db(map[], [], 0);
    assert events[..3] == [events[0], events[1], events[2]] && events[..3][..2] == [events[0], events[1]] && events[..2][..1] == [events[0]];
    assert events[..1][..0] == [] && Run(start, []) == start;
    var a := Step(start, events[0]);
    assert Run(start, [events[0]]) == a;
    var b := Step(a, events[1]);
    assert Run(start, [events[0], events[1]]) == b;
    var c := Step(b, events[2]);
    assert Purgeable(b, k, b.clock);
    assert Run(start, [events[0], events[1], events[2]]) == c;
    assert k !in c.records;
  }

  ghost predicate TookEffect<Q>(effects: seq<Effect<Q>>, k: Key) { exists i :: 0 <= i < |effects| && effects[i].key == k }

  lemma ProtectedStaysRecorded<Q, R>(db: Db<Q, R>, k: Key)
    requires Inv(db)
    ensures Protected(k) && TookEffect(db.effects, k) ==> k in db.records
  {
    if Protected(k) && TookEffect(db.effects, k) {
      var i :| 0 <= i < |db.effects| && db.effects[i].key == k;
      assert EffectOk(db.effects[i], db);
    }
  }

  class Store<Q(==), R> {
    var records: map<Key, Record<Q, R>>
    var effects: seq<Effect<Q>>
    var clock: int

    constructor ()
      ensures Snapshot() == Db(map[], [], 0)
    {
      records, effects, clock := map[], [], 0;
    }

    function Snapshot(): Db<Q, R>
      reads this
    {
      Db(records, effects, clock)
    }

    /** A stored record answers; otherwise the operation runs and its record is written with it. The same
        command sent again gets the same response and does nothing, whatever the operation would answer by
        then; a refusal does nothing; and a protected command that ever took effect takes none again. */
    method ExecuteCommand(k: Key, q: Q, result: Option<R>) returns (a: Answer<R>)
      requires Inv(Snapshot())
      modifies `records, `effects
      ensures (Snapshot(), a) == Execute(old(Snapshot()), k, q, clock, result) && Inv(Snapshot())
      ensures a.Response? ==> forall other :: Execute(Snapshot(), k, q, clock, other) == (Snapshot(), a)
      ensures !a.Response? ==> Snapshot() == old(Snapshot())
      ensures Protected(k) && TookEffect(old(effects), k) ==> effects == old(effects)
      ensures forall j :: j != k ==> (j in records <==> j in old(records)) && (j in records ==> records[j] == old(records)[j])
    {
      ProtectedStaysRecorded(Snapshot(), k);
      ExecuteKeeps(Snapshot(), k, q, result);
      hide Inv, TookEffect, Protected;
      if k in records {
        if records[k].request != q {
          return KeyReused;
        }
        return Response(records[k].response);
      }
      if result.None? {
        return OperationFailed;
      }
      records := records[k := Record(q, result.value, clock + TTL_MS)];
      effects := effects + [Effect(k, q, clock)];
      return Response(result.value);
    }
  }
}
