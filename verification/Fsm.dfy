/** The replicated state machine: log entries, their effect on the store, and
    whole-store snapshots. */
module Fsm {
  import opened Options
  import opened Records
  import opened Stores

  datatype LogOp = LogOp(op: string, bucket: string, kind: Kind, project: string, name: string, key: string, value: Doc)

  /** The bytes of a raft log entry: a JSON-encoded LogOp, or something else. */
  datatype LogData = EncodedOp(o: LogOp) | Garbled

  /** Rebuilds the typed value of a known kind; fails for other kinds. */
  function DecodeKind(k: Kind, raw: Doc): Option<Resource> {
    match k
    case KindProject | KindContainer | KindFunction | KindBucket | KindAccessKey | KindSecret
       | KindEventRule | KindCluster | KindNode | KindUser | KindToken | KindBuild => Unmarshal(raw)
    case NoKind | KindEvent => None
  }

  /** What a log entry does: new database, events emitted, error answered. */
  datatype Outcome = Outcome(db: Db, events: seq<Event>, err: Option<Error>)

  function ApplyOp(db: Db, maxKey: nat, o: LogOp): Outcome
    requires o.op in {"put", "delete"} ==> o.bucket in db
  {
    if o.op == "put" then
      var err := PutError(o.key, maxKey);
      if err.Some? then Outcome(db, [], err) else
      var typed := if o.kind != NoKind then DecodeKind(o.kind, o.value) else None;
      Outcome(db[o.bucket := db[o.bucket][o.key := o.value]], [Event(o.kind, OpPut, o.project, o.name, typed)], None)
    else if o.op == "delete" then
      if o.key !in db[o.bucket] then Outcome(db, [], Some(NotFound)) else
      Outcome(db[o.bucket := db[o.bucket] - {o.key}], [Event(o.kind, OpDelete, o.project, o.name, None)], None)
    else Outcome(db, [], Some(UnknownOp(o.op)))
  }

  /** An entry names only buckets the store has. */
  predicate Addressed(e: LogData, buckets: set<string>) {
    e.EncodedOp? && e.o.op in {"put", "delete"} ==> e.o.bucket in buckets
  }

  function ApplyEntry(db: Db, maxKey: nat, e: LogData): (r: Outcome)
    requires Addressed(e, db.Keys)
    ensures r.db.Keys == db.Keys
  {
    if e.Garbled? then Outcome(db, [], Some(BadLogEntry)) else ApplyOp(db, maxKey, e.o)
  }

  /** What an entry does, by what it says. A put stores its value under its key,
      empty keys and keys beyond the engine's limit excepted, and announces what
      the value decodes to, if its kind is known; a delete removes its key or finds
      nothing; any other op and bytes that are no entry do nothing but fail. */
  lemma EntryDoes(db: Db, maxKey: nat, e: LogData)
    requires Addressed(e, db.Keys)
    ensures var r := ApplyEntry(db, maxKey, e);
            && (r.err.Some? ==> r.db == db && r.events == [])
            && (e.Garbled? ==> r.err == Some(BadLogEntry))
            && (e.EncodedOp? ==>
                  var o := e.o;
                  && (o.op == "put" ==> r.err == if o.key == "" || |o.key| > maxKey then Some(KeyRefused) else None)
                  && (o.op == "delete" ==> r.err == if o.key in db[o.bucket] then None else Some(NotFound))
                  && (o.op != "put" && o.op != "delete" ==> r.err == Some(UnknownOp(o.op)))
                  && (r.err.None? ==>
                        && r.events == [Event(o.kind, if o.op == "put" then OpPut else OpDelete, o.project, o.name,
                                              if o.op == "put" && o.value.Encoded? && o.kind !in {NoKind, KindEvent}
                                              then Some(o.value.r) else None)]
                        && r.db.Keys == db.Keys && (forall b :: b in db && b != o.bucket ==> r.db[b] == db[b])
                        && (forall k :: k in r.db[o.bucket] <==>
                              if k == o.key then o.op == "put" else k in db[o.bucket])
                        && (forall k :: k in r.db[o.bucket] ==>
                              r.db[o.bucket][k] == if k == o.key then o.value else db[o.bucket][k])))
  {
  }

  // ---------- snapshots ----------

  /** A gob-encoded dump, or bytes that do not decode as one. */
  datatype SnapshotData = Gob(buckets: Db) | NotGob

  predicate KeysAccepted(db: Db, maxKey: nat) {
    forall b, k :: b in db && k in db[b] ==> PutError(k, maxKey).None?
  }

  /** Buckets in the dump are replaced whole; others stay. */
  function Restored(db: Db, snap: Db): Db {
    db + snap
  }

  method DumpBolt(s: Store) returns (out: SnapshotData)
    ensures out == Gob(s.db)
  {
    var buckets: Db := map[];
    var names := s.db.Keys;
    while names != {}
      invariant names <= s.db.Keys
      invariant buckets == map b | b in s.db && b !in names :: s.db[b]
    {
      var name :| name in names;
      var copied: map<string, Doc> := map[];
      var keys := s.db[name].Keys;
      while keys != {}
        invariant keys <= s.db[name].Keys
        invariant copied == map k | k in s.db[name] && k !in keys :: s.db[name][k]
      {
        var k :| k in keys;
        copied := copied[k := s.db[name][k]];
        keys := keys - {k};
      }
      assert copied == s.db[name];
      buckets := buckets[name := copied];
      names := names - {name};
    }
    out := Gob(buckets);
  }

  /** One transaction: every dumped bucket is deleted, recreated and refilled;
      a refused key rolls everything back. */
  method RestoreBolt(s: Store, data: SnapshotData) returns (err: Option<Error>)
    modifies s`db
    ensures err == if data.NotGob? then Some(BadLogEntry)
                   else if KeysAccepted(data.buckets, s.maxKey) then None else Some(KeyRefused)
    ensures s.db == if err.None? then Restored(old(s.db), data.buckets) else old(s.db)
  {
    if data.NotGob? {
      return Some(BadLogEntry);
    }
    var snap := data.buckets;
    var tx := s.db;
    var names := snap.Keys;
    while names != {}
      invariant names <= snap.Keys && s.db == old(s.db)
      invariant tx == s.db + (map b | b in snap && b !in names :: snap[b])
      invariant forall b, k :: b in snap && b !in names && k in snap[b] ==> PutError(k, s.maxKey).None?
    {
      var name :| name in names;
      var refused, bucket := Refill(snap[name], s.maxKey);
      if refused {
        assert !KeysAccepted(snap, s.maxKey);
        return Some(KeyRefused);
      }
      tx := tx - {name};
      tx := tx[name := bucket];
      names := names - {name};
    }
    assert snap == map b | b in snap && b !in names :: snap[b];
    assert tx == Restored(s.db, snap);
    s.db := tx;
    err := None;
  }

  method Refill(kvs: map<string, Doc>, maxKey: nat) returns (refused: bool, bucket: map<string, Doc>)
    ensures refused <==> exists k :: k in kvs && PutError(k, maxKey).Some?
    ensures !refused ==> bucket == kvs
  {
    refused, bucket := false, map[];
    var keys := kvs.Keys;
    while keys != {}
      invariant keys <= kvs.Keys
      invariant bucket == map k | k in kvs && k !in keys :: kvs[k]
      invariant forall k :: k in kvs && k !in keys ==> PutError(k, maxKey).None?
    {
      var k :| k in keys;
      if PutError(k, maxKey).Some? {
        refused := true;
        return;
      }
      bucket := bucket[k := kvs[k]];
      keys := keys - {k};
    }
  }

  /** Loading a dump brings back the dumped store exactly when the target has
      no bucket the dump lacks. */
  lemma RestoreInvertsDump(dumped: Db, target: Db)
    ensures Restored(target, dumped) == dumped <==> target.Keys <= dumped.Keys
  {
    assert Restored(target, dumped).Keys == target.Keys + dumped.Keys;
    if target.Keys <= dumped.Keys {
      assert Restored(target, dumped) == dumped;
    }
  }

  // ---------- the machine ----------

  class FSM {
    const store: Store

    constructor (s: Store)
      ensures store == s
    {
      store := s;
    }

    method Apply(l: LogData) returns (err: Option<Error>)
      requires Addressed(l, store.db.Keys)
      modifies store
      ensures var r := ApplyEntry(old(store.db), store.maxKey, l);
              store.db == r.db && store.emitted == old(store.emitted) + r.events && err == r.err
    {
      if l.Garbled? {
        return Some(BadLogEntry);
      }
      var o := l.o;
      if o.op == "put" {
        err := store.Put(o.bucket, o.key, o.value);
        if err.Some? {
          return;
        }
        var typed := None;
        if o.kind != NoKind {
          typed := DecodeKind(o.kind, o.value);
        }
        store.Emit(Event(o.kind, OpPut, o.project, o.name, typed));
      } else if o.op == "delete" {
        err := store.Del(o.bucket, o.key);
        if err.Some? {
          return;
        }
        store.Emit(Event(o.kind, OpDelete, o.project, o.name, None));
      } else {
        err := Some(UnknownOp(o.op));
      }
    }

    method Snapshot() returns (dump: SnapshotData)
      ensures dump == Gob(store.db)
    {
      dump := DumpBolt(store);
    }

    method Restore(data: SnapshotData) returns (err: Option<Error>)
      modifies store`db
      ensures err.None? <==> data.Gob? && KeysAccepted(data.buckets, store.maxKey)
      ensures store.db == if err.None? then Restored(old(store.db), data.buckets) else old(store.db)
    {
      err := RestoreBolt(store, data);
    }
  }
}
