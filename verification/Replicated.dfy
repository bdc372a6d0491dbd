/** ReplicatedStore: the write wrapper that goes straight to the local store on
    one voter, through the raft log on a leader, and refuses on a follower. */
module Replicated {
  import opened Options
  import opened Records
  import opened Stores
  import opened Fsm
  import opened Clusters

  /** The raft handle: an entry submitted to the leader is committed and applied
      by this node's own state machine, whose answer is returned. */
  class Raft {
    const fsm: FSM
    var leader: bool
    var voters: nat
    var log: seq<LogData>

    constructor (fsm: FSM)
      ensures this.fsm == fsm && log == []
    {
      this.fsm := fsm;
      leader, voters, log := false, 1, [];
    }

    method Submit(o: LogOp) returns (err: Option<Error>)
      requires Addressed(EncodedOp(o), fsm.store.db.Keys)
      modifies this`log, fsm.store
      ensures !leader ==> err == Some(NotLeader) && log == old(log) &&
                          fsm.store.db == old(fsm.store.db) && fsm.store.emitted == old(fsm.store.emitted)
      ensures leader ==> var r := ApplyEntry(old(fsm.store.db), fsm.store.maxKey, EncodedOp(o));
                         fsm.store.db == r.db && fsm.store.emitted == old(fsm.store.emitted) + r.events &&
                         err == r.err && log == old(log) + [EncodedOp(o)]
    {
      if !leader {
        return Some(NotLeader);
      }
      log := log + [EncodedOp(o)];
      err := fsm.Apply(EncodedOp(o));
    }
  }

  datatype Mode = SingleNode | Leader | Follower

  // ---------- what the wrapper does, per mode ----------

  function PutOp(bucket: string, kind: Kind, v: Resource): LogOp {
    LogOp("put", bucket, kind, v.meta.project, v.meta.name, KeyFor(v.meta.project, v.meta.name), Marshal(v))
  }

  function DeleteOp(bucket: string, kind: Kind, project: string, name: string): LogOp {
    LogOp("delete", bucket, kind, project, name, KeyFor(project, name), Undecodable("null"))
  }

  /** A typed put on the leader: Meta is minted first, then the marshalled value
      takes the trip through the log. `entries` is what the log gains. */
  function LeaderPut(db: Db, maxKey: nat, bucket: string, kind: Kind, r: Resource, mint: Mint)
    : (res: (Effect, seq<LogData>))
    requires bucket in db
  {
    var m := Defaulted(r.meta);
    if m.name == "" then (Effect(db, r.(meta := m), [], Some(NameRequired)), []) else
    var v := r.(meta := Stamped(m, mint));
    var e := EncodedOp(PutOp(bucket, kind, v));
    var out := ApplyEntry(db, maxKey, e);
    (Effect(out.db, v, out.events, out.err), [e])
  }

  function LeaderDelete(db: Db, maxKey: nat, bucket: string, kind: Kind, project: string, name: string)
    : (Outcome, seq<LogData>)
    requires bucket in db
  {
    var e := EncodedOp(DeleteOp(bucket, kind, project, name));
    (ApplyEntry(db, maxKey, e), [e])
  }

  function TypedPut(mode: Mode, db: Db, maxKey: nat, bucket: string, kind: Kind, r: Resource, mint: Mint)
    : (Effect, seq<LogData>)
    requires bucket in db
  {
    match mode
    case SingleNode => (PutScopedEffect(db, maxKey, bucket, kind, r, mint), [])
    case Leader => LeaderPut(db, maxKey, bucket, kind, r, mint)
    case Follower =>
      (Effect(db, r.(meta := Defaulted(r.meta)), [], Some(if r.meta.name == "" then NameRequired else NotLeader)), [])
  }

  function TypedDelete(mode: Mode, db: Db, maxKey: nat, bucket: string, kind: Kind, project: string, name: string)
    : (Outcome, seq<LogData>)
    requires bucket in db
  {
    match mode
    case SingleNode =>
      var (d, evs, e) := DeleteEffect(db, bucket, LocalDeleteKey(kind, project, name),
                                      Event(kind, OpDelete, project, name, None));
      (Outcome(d, evs, e), [])
    case Leader => LeaderDelete(db, maxKey, bucket, kind, project, name)
    case Follower => (Outcome(db, [], Some(NotLeader)), [])
  }

  /** Every way of putting first fills in the project, then refuses a nameless
      value. */
  lemma TypedPutNames(mode: Mode, db: Db, maxKey: nat, bucket: string, kind: Kind, r: Resource, mint: Mint)
    requires bucket in db
    ensures var named := r.(meta := Defaulted(r.meta));
            TypedPut(mode, db, maxKey, bucket, kind, r, mint) ==
            if r.meta.name == "" then (Effect(db, named, [], Some(NameRequired)), [])
            else TypedPut(mode, db, maxKey, bucket, kind, named, mint)
  {
  }

  /** Where a put's effect comes from, by mode. On a leader the database afterwards
      is what the new log entries make of it, and a named value makes one entry,
      its put under its key; on a follower nothing happens but an error; on a
      single node the log is not touched. */
  lemma PutGoesThroughLog(mode: Mode, db: Db, maxKey: nat, bucket: string, kind: Kind, r: Resource, mint: Mint)
    requires bucket in db
    ensures var (e, entries) := TypedPut(mode, db, maxKey, bucket, kind, r, mint);
            && (mode == Leader ==>
                  && e.db == Fold(db, maxKey, entries)
                  && (if r.meta.name == "" then entries == [] && e.err == Some(NameRequired) else
                      |entries| == 1 && entries[0] ==
                        EncodedOp(LogOp("put", bucket, kind, e.value.meta.project, r.meta.name,
                                        e.value.meta.project + "/" + r.meta.name, Marshal(e.value)))))
            && (mode == Follower ==> e.db == db && entries == [] && e.events == [] && e.err.Some?)
            && (mode == SingleNode ==> entries == [])
  {
    var (e, entries) := TypedPut(mode, db, maxKey, bucket, kind, r, mint);
    if |entries| == 1 { FoldOfOne(db, maxKey, entries[0]); }
  }

  lemma DeleteGoesThroughLog(mode: Mode, db: Db, maxKey: nat, bucket: string, kind: Kind, project: string, name: string)
    requires bucket in db
    ensures var (out, entries) := TypedDelete(mode, db, maxKey, bucket, kind, project, name);
            && (mode == Leader ==>
                  && out.db == Fold(db, maxKey, entries)
                  && |entries| == 1 && entries[0].EncodedOp?
                  && var o := entries[0].o;
                     o.op == "delete" && o.bucket == bucket && o.kind == kind && o.project == project &&
                     o.name == name &&
                     o.key == if project == "" then name else project + "/" + name)
            && (mode == Follower ==> out.db == db && entries == [] && out.events == [] && out.err.Some?)
            && (mode == SingleNode ==> entries == [])
  {
    var (out, entries) := TypedDelete(mode, db, maxKey, bucket, kind, project, name);
    if |entries| == 1 { FoldOfOne(db, maxKey, entries[0]); }
  }

  lemma FoldOfOne(db: Db, maxKey: nat, e: LogData)
    ensures Fold(db, maxKey, [e]) == Apply1(db, maxKey, e)
  {
    assert [e][..0] == [];
  }

  lemma {:induction false} FoldAppends(db: Db, maxKey: nat, a: seq<LogData>, b: seq<LogData>)
    ensures Fold(db, maxKey, a + b) == Fold(Fold(db, maxKey, a), maxKey, b)
    decreases |b|
  {
    if b == [] {
      assert a + b == a;
    } else {
      FoldAppends(db, maxKey, a, b[..|b| - 1]);
      assert (a + b)[..|a + b| - 1] == a + b[..|b| - 1];
    }
  }

  class ReplicatedStore {
    const store: Store
    const raft: Raft
    /** The database when the log was empty. */
    ghost const base: Db

    constructor (s: Store, r: Raft)
      requires r.fsm.store == s
      ensures store == s && raft == r && base == s.db
    {
      store, raft, base := s, r, s.db;
    }

    /** The database is what the log makes of the one it started from. */
    ghost predicate InStep()
      reads this, store, raft
    {
      store.db == Fold(base, store.maxKey, raft.log)
    }

    ghost predicate Valid()
      reads this, store, raft
    {
      raft.fsm.store == store && store.Valid()
    }

    function ModeNow(): Mode
      reads raft
    {
      if raft.voters <= 1 then SingleNode else if raft.leader then Leader else Follower
    }

    method ApplyTypedPut(bucket: string, kind: Kind, v: Record, mint: Mint) returns (err: Option<Error>)
      requires Valid() && bucket in store.db
      modifies store, raft`log, v`meta
      ensures Valid()
      ensures Did(TypedPut(old(ModeNow()), old(store.db), store.maxKey, bucket, kind, old(v.Value()), mint),
                  old(store.emitted), old(raft.log), v, err)
      ensures raft.voters > 1 && old(InStep()) ==> InStep()
      ensures raft.voters > 1 && !raft.leader ==>
        err.Some? && store.db == old(store.db) && store.emitted == old(store.emitted) && raft.log == old(raft.log)
      ensures |raft.log| == |old(raft.log)| + if raft.voters > 1 && raft.leader && old(v.meta.name) != "" then 1 else 0
    {
      PutStaysInStep(bucket, kind, v.Value(), mint);
      err := PutDefaulted(bucket, kind, v, mint);
    }

    /** The put by the way the node is set up, once the project is filled in and
        nameless values are refused. */
    method PutDefaulted(bucket: string, kind: Kind, v: Record, mint: Mint) returns (err: Option<Error>)
      requires Valid() && bucket in store.db
      modifies store, raft`log, v`meta
      ensures Valid()
      ensures Did(TypedPut(old(ModeNow()), old(store.db), store.maxKey, bucket, kind, old(v.Value()), mint),
                  old(store.emitted), old(raft.log), v, err)
    {
      ghost var r := v.Value();
      TypedPutNames(ModeNow(), store.db, store.maxKey, bucket, kind, r, mint);
      if v.meta.project == "" {
        v.meta := v.meta.(project := "default");
      }
      assert v.Value() == r.(meta := Defaulted(r.meta));
      if v.meta.name == "" {
        return Some(NameRequired);
      }
      err := PutNamed(bucket, kind, v, mint);
    }

    lemma PutStaysInStep(bucket: string, kind: Kind, r: Resource, mint: Mint)
      requires bucket in store.db
      ensures var (e, entries) := TypedPut(ModeNow(), store.db, store.maxKey, bucket, kind, r, mint);
              && (ModeNow() != SingleNode && InStep() ==> e.db == Fold(base, store.maxKey, raft.log + entries))
              && (ModeNow() == Follower ==> e.err.Some? && e.db == store.db && e.events == [] && entries == [])
              && |entries| == if ModeNow() == Leader && r.meta.name != "" then 1 else 0
    {
      PutGoesThroughLog(ModeNow(), store.db, store.maxKey, bucket, kind, r, mint);
      FoldAppends(base, store.maxKey, raft.log, TypedPut(ModeNow(), store.db, store.maxKey, bucket, kind, r, mint).1);
    }

    lemma DeleteStaysInStep(bucket: string, kind: Kind, project: string, name: string)
      requires bucket in store.db
      ensures var (out, entries) := TypedDelete(ModeNow(), store.db, store.maxKey, bucket, kind, project, name);
              && (ModeNow() != SingleNode && InStep() ==> out.db == Fold(base, store.maxKey, raft.log + entries))
              && (ModeNow() == Follower ==> out.err.Some? && out.db == store.db && out.events == [] && entries == [])
              && |entries| == if ModeNow() == Leader then 1 else 0
    {
      DeleteGoesThroughLog(ModeNow(), store.db, store.maxKey, bucket, kind, project, name);
      var entries := TypedDelete(ModeNow(), store.db, store.maxKey, bucket, kind, project, name).1;
      FoldAppends(base, store.maxKey, raft.log, entries);
    }

    /** The state and answer a put's effect describes. */
    predicate Did(effect: (Effect, seq<LogData>), emitted: seq<Event>, log: seq<LogData>, v: Record, err: Option<Error>)
      reads store, raft, v
    {
      && store.db == effect.0.db && v.Value() == effect.0.value && store.emitted == emitted + effect.0.events
      && err == effect.0.err && raft.log == log + effect.1
    }

    /** A put that has its key, by the way the node is set up. */
    method PutNamed(bucket: string, kind: Kind, v: Record, mint: Mint) returns (err: Option<Error>)
      requires Valid() && bucket in store.db
      requires v.meta.project != "" && v.meta.name != ""
      modifies store, raft`log, v`meta
      ensures Valid()
      ensures Did(TypedPut(old(ModeNow()), old(store.db), store.maxKey, bucket, kind, old(v.Value()), mint),
                  old(store.emitted), old(raft.log), v, err)
    {
      if raft.voters <= 1 {
        err := store.PutScoped(bucket, kind, v, mint);
        return;
      }
      if !raft.leader {
        return Some(NotLeader);
      }
      err := PutThroughLog(bucket, kind, v, mint);
    }

    /** The leader's half: mint Meta, marshal, submit. */
    method PutThroughLog(bucket: string, kind: Kind, v: Record, mint: Mint) returns (err: Option<Error>)
      requires Valid() && bucket in store.db && raft.leader
      requires v.meta.project != "" && v.meta.name != ""
      modifies store, raft`log, v`meta
      ensures Valid()
      ensures v.Value() == Resource(Stamped(old(v.meta), mint), old(v.body))
      ensures var e := EncodedOp(PutOp(bucket, kind, Resource(Stamped(old(v.meta), mint), old(v.body))));
              var out := ApplyEntry(old(store.db), store.maxKey, e);
              store.db == out.db && store.emitted == old(store.emitted) + out.events && err == out.err &&
              raft.log == old(raft.log) + [e]
    {
      MintMeta(v, mint);
      err := raft.Submit(PutOp(bucket, kind, v.Value()));
    }

    method MintMeta(v: Record, mint: Mint)
      modifies v`meta
      ensures v.meta == Stamped(old(v.meta), mint)
    {
      if v.meta.uid == "" {
        v.meta := v.meta.(uid := mint.uid, createdAt := mint.created);
      }
      v.meta := v.meta.(updatedAt := mint.updated);
      v.meta := v.meta.(generation := v.meta.generation + 1);
    }

    method ApplyTypedDelete(bucket: string, kind: Kind, project: string, name: string) returns (err: Option<Error>)
      requires Valid() && bucket in store.db
      modifies store, raft`log
      ensures Valid()
      ensures var (out, entries) := TypedDelete(old(ModeNow()), old(store.db), store.maxKey, bucket, kind, project,
                                                name);
              store.db == out.db && store.emitted == old(store.emitted) + out.events && err == out.err &&
              raft.log == old(raft.log) + entries
      ensures raft.voters > 1 && old(InStep()) ==> InStep()
      ensures raft.voters > 1 && !raft.leader ==>
        err.Some? && store.db == old(store.db) && store.emitted == old(store.emitted) && raft.log == old(raft.log)
      ensures |raft.log| == |old(raft.log)| + if raft.voters > 1 && raft.leader then 1 else 0
    {
      DeleteStaysInStep(bucket, kind, project, name);
      if raft.voters <= 1 {
        err := store.LocalDelete(bucket, kind, project, name);
        return;
      }
      if !raft.leader {
        return Some(NotLeader);
      }
      err := raft.Submit(DeleteOp(bucket, kind, project, name));
    }
  }

  // ---------- the leader path refines the single-node path ----------

  /** What a subscriber sees of an event after the JSON round trip. */
  function EventOnWire(ev: Event): Event {
    if ev.value.Some? then ev.(value := Some(OnWire(ev.value.value))) else ev
  }

  function EventsOnWire(evs: seq<Event>): seq<Event> {
    seq(|evs|, i requires 0 <= i < |evs| => EventOnWire(evs[i]))
  }

  predicate Decodable(kind: Kind) {
    kind != NoKind && kind != KindEvent
  }

  /** One put through the log does what the local put does; its event carries
      the value as JSON returns it, provided the kind is one the state machine
      can decode. */
  lemma PutRefines(db: Db, maxKey: nat, bucket: string, kind: Kind, r: Resource, mint: Mint)
    requires bucket in db
    ensures var local, led := PutScopedEffect(db, maxKey, bucket, kind, r, mint),
                              LeaderPut(db, maxKey, bucket, kind, r, mint).0;
            && led.db == local.db && led.value == local.value && led.err == local.err
            && (led.events == EventsOnWire(local.events) <==> Decodable(kind) || local.err.Some?)
  {
    var m := Defaulted(r.meta);
    if m.name != "" {
      var v := r.(meta := Stamped(m, mint));
      PutOpMatches(db, maxKey, bucket, kind, v);
    }
  }

  lemma PutOpMatches(db: Db, maxKey: nat, bucket: string, kind: Kind, v: Resource)
    requires bucket in db
    ensures var key, ev := KeyFor(v.meta.project, v.meta.name),
                           Event(kind, OpPut, v.meta.project, v.meta.name, Some(v));
            var out := ApplyEntry(db, maxKey, EncodedOp(PutOp(bucket, kind, v)));
            && out.err == PutError(key, maxKey)
            && out.db == (if out.err.None? then db[bucket := db[bucket][key := Marshal(v)]] else db)
            && (out.err.None? ==> (out.events == EventsOnWire([ev]) <==> Decodable(kind)))
            && (out.err.Some? ==> out.events == EventsOnWire([]))
  {
    var o := PutOp(bucket, kind, v);
    var ev := Event(kind, OpPut, v.meta.project, v.meta.name, Some(v));
    assert EventsOnWire([ev]) == [EventOnWire(ev)];
    assert DecodeKind(kind, o.value) == if Decodable(kind) then Some(OnWire(v)) else None;
  }

  /** A delete through the log does what the local one does - database, events
      and error - except where both could only be reached by a caller that routes
      nodes, users or tokens and names no project: then the keys differ, and so do
      the outcomes if and only if either key is there. */
  lemma DeleteRefines(db: Db, maxKey: nat, bucket: string, kind: Kind, project: string, name: string)
    requires bucket in db
    ensures var (d, evs, e) := DeleteEffect(db, bucket, LocalDeleteKey(kind, project, name),
                                            Event(kind, OpDelete, project, name, None));
            LeaderDelete(db, maxKey, bucket, kind, project, name).0 == Outcome(d, EventsOnWire(evs), e) <==>
            || !(project == "" && kind in {KindNode, KindUser, KindToken})
            || (name !in db[bucket] && "system/" + name !in db[bucket])
  {
    assert |"system/" + name| != |name|;
    var (d, evs, e) := DeleteEffect(db, bucket, LocalDeleteKey(kind, project, name),
                                    Event(kind, OpDelete, project, name, None));
    assert EventsOnWire(evs) == evs;
    var out := LeaderDelete(db, maxKey, bucket, kind, project, name).0;
    if project == "" && kind in {KindNode, KindUser, KindToken} {
      assert name in db[bucket] ==> name !in out.db[bucket] && ("system/" + name in db[bucket] ==> name in d[bucket]);
    }
  }

  // ---------- over whole sequences of calls ----------

  datatype Call =
    | PutCall(bucket: string, kind: Kind, r: Resource, mint: Mint)
    | DeleteCall(bucket: string, kind: Kind, project: string, name: string)

  /** The kinds and buckets ReplicatedStore routes. */
  const ROUTES: map<Kind, string> := map[
    KindContainer := "containers", KindFunction := "functions", KindBucket := "buckets",
    KindAccessKey := "accesskeys", KindSecret := "secrets", KindEventRule := "eventrules"]

  predicate Routed(c: Call) {
    c.kind in ROUTES && c.bucket == ROUTES[c.kind]
  }

  /** Everything a sequence of calls leaves behind: the database, the events,
      each call's error and, for a put, the caller's minted value. */
  datatype Trace = Trace(db: Db, events: seq<Event>, errs: seq<Option<Error>>, values: seq<Resource>)

  function CallLocally(t: Trace, maxKey: nat, c: Call): Trace
    requires c.bucket in t.db
  {
    match c
    case PutCall(bucket, kind, r, mint) =>
      var e := PutScopedEffect(t.db, maxKey, bucket, kind, r, mint);
      Trace(e.db, t.events + e.events, t.errs + [e.err], t.values + [e.value])
    case DeleteCall(bucket, kind, project, name) =>
      var (d, evs, e) := DeleteEffect(t.db, bucket, LocalDeleteKey(kind, project, name),
                                      Event(kind, OpDelete, project, name, None));
      Trace(d, t.events + evs, t.errs + [e], t.values)
  }

  function CallLeader(t: Trace, maxKey: nat, c: Call): (res: (Trace, seq<LogData>))
    requires c.bucket in t.db
  {
    match c
    case PutCall(bucket, kind, r, mint) =>
      var (e, entries) := LeaderPut(t.db, maxKey, bucket, kind, r, mint);
      (Trace(e.db, t.events + e.events, t.errs + [e.err], t.values + [e.value]), entries)
    case DeleteCall(bucket, kind, project, name) =>
      var (out, entries) := LeaderDelete(t.db, maxKey, bucket, kind, project, name);
      (Trace(out.db, t.events + out.events, t.errs + [out.err], t.values), entries)
  }

  ghost predicate AllRouted(calls: seq<Call>) {
    forall i :: 0 <= i < |calls| ==> Routed(calls[i])
  }

  function Locally(db: Db, maxKey: nat, calls: seq<Call>): (t: Trace)
    requires ROOT_BUCKETS <= db.Keys && AllRouted(calls)
    ensures t.db.Keys == db.Keys
    decreases |calls|
  {
    if calls == [] then Trace(db, [], [], []) else
    CallLocally(Locally(db, maxKey, calls[..|calls| - 1]), maxKey, calls[|calls| - 1])
  }

  function ThroughLog(db: Db, maxKey: nat, calls: seq<Call>): (res: (Trace, seq<LogData>))
    requires ROOT_BUCKETS <= db.Keys && AllRouted(calls)
    ensures res.0.db.Keys == db.Keys
    decreases |calls|
  {
    if calls == [] then (Trace(db, [], [], []), []) else
    var (t, log) := ThroughLog(db, maxKey, calls[..|calls| - 1]);
    var (t', entries) := CallLeader(t, maxKey, calls[|calls| - 1]);
    (t', log + entries)
  }

  /** For every sequence of typed puts and deletes the leader path leaves the
      same database, emits the same events up to JSON, returns the same errors
      and mints the same values as the single-node path. */
  lemma {:induction false} LeaderRefinesSingleNode(db: Db, maxKey: nat, calls: seq<Call>)
    requires ROOT_BUCKETS <= db.Keys && AllRouted(calls)
    ensures var local, led := Locally(db, maxKey, calls), ThroughLog(db, maxKey, calls).0;
            led == local.(events := EventsOnWire(local.events))
    decreases |calls|
  {
    if calls == [] {
      assert EventsOnWire([]) == [];
    } else {
      var init, c := calls[..|calls| - 1], calls[|calls| - 1];
      LeaderRefinesSingleNode(db, maxKey, init);
      CallRefines(Locally(db, maxKey, init), maxKey, c);
    }
  }

  lemma CallRefines(t: Trace, maxKey: nat, c: Call)
    requires Routed(c) && c.bucket in t.db
    ensures var local := CallLocally(t, maxKey, c);
            CallLeader(t.(events := EventsOnWire(t.events)), maxKey, c).0 ==
              local.(events := EventsOnWire(local.events))
  {
    match c
    case PutCall(bucket, kind, r, mint) =>
      PutRefines(t.db, maxKey, bucket, kind, r, mint);
      EventsOnWireAppend(t.events, PutScopedEffect(t.db, maxKey, bucket, kind, r, mint).events);
    case DeleteCall(bucket, kind, project, name) =>
      DeleteRefines(t.db, maxKey, bucket, kind, project, name);
      EventsOnWireAppend(t.events, DeleteEffect(t.db, bucket, LocalDeleteKey(kind, project, name),
                                                Event(kind, OpDelete, project, name, None)).1);
  }

  lemma EventsOnWireAppend(a: seq<Event>, b: seq<Event>)
    ensures EventsOnWire(a + b) == EventsOnWire(a) + EventsOnWire(b)
  {
  }

  /** The entries the calls put in the log fold to the database they leave. */
  lemma {:induction false} LogFoldsToDatabase(db: Db, maxKey: nat, calls: seq<Call>)
    requires ROOT_BUCKETS <= db.Keys && AllRouted(calls)
    ensures var (t, log) := ThroughLog(db, maxKey, calls); t.db == Fold(db, maxKey, log)
    decreases |calls|
  {
    if calls != [] {
      var init := calls[..|calls| - 1];
      LogFoldsToDatabase(db, maxKey, init);
      var (t, log) := ThroughLog(db, maxKey, init);
      CallFolds(db, t, maxKey, log, calls[|calls| - 1]);
    }
  }

  lemma CallFolds(db: Db, t: Trace, maxKey: nat, log: seq<LogData>, c: Call)
    requires c.bucket in t.db && t.db == Fold(db, maxKey, log)
    ensures var (t', entries) := CallLeader(t, maxKey, c); t'.db == Fold(db, maxKey, log + entries)
  {
    var (t', entries) := CallLeader(t, maxKey, c);
    if |entries| == 1 {
      assert (log + entries)[..|log|] == log && (log + entries)[|log|] == entries[0];
      assert Addressed(entries[0], t.db.Keys);
    } else {
      assert log + entries == log;
    }
  }

  /** End to end. Take any typed calls on a leader, and any cluster schedule
      that commits the entries they produce: every replica that has applied
      them all, and reflects nothing beyond them, holds the database a
      single node would hold after the same calls. */
  lemma ReplicasMatchSingleNode(start: Db, maxKey: nat, calls: seq<Call>, ids: set<nat>, steps: seq<Step>, id: nat)
    requires start.Keys == ROOT_BUCKETS && AllRouted(calls)
    requires var c := Run(Initial(start, ids), maxKey, steps);
             c.log == ThroughLog(start, maxKey, calls).1 && id in c.replicas && c.replicas[id].applied == |c.log|
    ensures Run(Initial(start, ids), maxKey, steps).replicas[id].db == Locally(start, maxKey, calls).db
  {
    RunKeepsTrack(start, maxKey, ids, steps);
    var c := Run(Initial(start, ids), maxKey, steps);
    CaughtUp(start, maxKey, c.log, c.replicas[id]);
    LogFoldsToDatabase(start, maxKey, calls);
    LeaderRefinesSingleNode(start, maxKey, calls);
  }
}
