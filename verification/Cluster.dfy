/** A raft cluster over one committed log: replicas apply entries, snapshot,
    install each other's snapshots and crash. The database survives a crash;
    the applied index does not. */
module Clusters {
  import opened Options
  import opened Records
  import opened Stores
  import opened Fsm

  /** What one entry does to the database. */
  function Apply1(db: Db, maxKey: nat, e: LogData): (r: Db)
    ensures r.Keys == db.Keys
  {
    if Addressed(e, db.Keys) then ApplyEntry(db, maxKey, e).db else db
  }

  /** The database after a stretch of log. */
  function Fold(db: Db, maxKey: nat, log: seq<LogData>): (r: Db)
    ensures r.Keys == db.Keys
    decreases |log|
  {
    if log == [] then db else Apply1(Fold(db, maxKey, log[..|log| - 1]), maxKey, log[|log| - 1])
  }

  // ---------- last-writer view of a stretch of log ----------

  /** What an entry leaves at a place: nothing said, gone, or a document. */
  function Writes(e: LogData, maxKey: nat, b: string, k: string): Option<Option<Doc>> {
    if e.Garbled? || e.o.bucket != b || e.o.key != k then None
    else if e.o.op == "put" && PutError(k, maxKey).None? then Some(Some(e.o.value))
    else if e.o.op == "delete" then Some(None)
    else None
  }

  function LastWrite(log: seq<LogData>, maxKey: nat, b: string, k: string): Option<Option<Doc>>
    decreases |log|
  {
    if log == [] then None else
    var last := Writes(log[|log| - 1], maxKey, b, k);
    if last.Some? then last else LastWrite(log[..|log| - 1], maxKey, b, k)
  }

  function Lookup(db: Db, b: string, k: string): Option<Doc>
    requires b in db
  {
    if k in db[b] then Some(db[b][k]) else None
  }

  lemma {:induction false} FoldIsLastWrite(db: Db, maxKey: nat, log: seq<LogData>, b: string, k: string)
    requires b in db
    ensures Lookup(Fold(db, maxKey, log), b, k) ==
            match LastWrite(log, maxKey, b, k) case Some(w) => w case None => Lookup(db, b, k)
    decreases |log|
  {
    if log != [] {
      FoldIsLastWrite(db, maxKey, log[..|log| - 1], b, k);
      ApplyWrites(Fold(db, maxKey, log[..|log| - 1]), maxKey, log[|log| - 1], b, k);
    }
  }

  lemma ApplyWrites(db: Db, maxKey: nat, e: LogData, b: string, k: string)
    requires b in db
    ensures Lookup(Apply1(db, maxKey, e), b, k) ==
      match Writes(e, maxKey, b, k) case Some(w) => w case None => Lookup(db, b, k)
  {
  }

  lemma {:induction false} LastWriteOfSuffix(log: seq<LogData>, maxKey: nat, j: nat, b: string, k: string)
    requires j <= |log|
    ensures LastWrite(log[j..], maxKey, b, k).Some? ==>
      LastWrite(log, maxKey, b, k) == LastWrite(log[j..], maxKey, b, k)
    decreases |log|
  {
    if j < |log| {
      assert log[j..][|log[j..]| - 1] == log[|log| - 1];
      assert log[j..][..|log[j..]| - 1] == log[..|log| - 1][j..];
      LastWriteOfSuffix(log[..|log| - 1], maxKey, j, b, k);
    }
  }

  lemma SameLookups(a: Db, b: Db)
    requires a.Keys == b.Keys
    requires forall n, k :: n in a ==> Lookup(a, n, k) == Lookup(b, n, k)
    ensures a == b
  {
    forall n | n in a ensures a[n] == b[n] {
      forall k ensures (k in a[n] <==> k in b[n]) && (k in a[n] ==> a[n][k] == b[n][k]) {
        assert Lookup(a, n, k) == Lookup(b, n, k);
      }
    }
  }

  // ---------- replay over a database that is ahead ----------

  /** Applying the log from `applied` up to the high-water mark gives the fold
      of the whole stretch over the common start. */
  ghost predicate OnTrack(start: Db, maxKey: nat, log: seq<LogData>, db: Db, applied: nat, mark: nat) {
    applied <= mark <= |log| && db.Keys == start.Keys &&
    Fold(db, maxKey, log[applied..mark]) == Fold(start, maxKey, log[..mark])
  }

  /** Replaying entries the database already holds changes nothing in the end:
      going back to an earlier index stays on track. */
  lemma ReplayAbsorbs(start: Db, maxKey: nat, log: seq<LogData>, db: Db, applied: nat, mark: nat, earlier: nat)
    requires OnTrack(start, maxKey, log, db, applied, mark) && earlier <= applied
    ensures OnTrack(start, maxKey, log, db, earlier, mark)
  {
    var all, long, short := log[..mark], log[earlier..mark], log[applied..mark];
    assert all[earlier..] == long && long[applied - earlier..] == short;
    var want, got := Fold(start, maxKey, all), Fold(db, maxKey, long);
    forall b, k | b in start ensures Lookup(got, b, k) == Lookup(want, b, k) {
      FoldIsLastWrite(start, maxKey, all, b, k);
      FoldIsLastWrite(db, maxKey, long, b, k);
      FoldIsLastWrite(db, maxKey, short, b, k);
      LastWriteOfSuffix(all, maxKey, earlier, b, k);
      LastWriteOfSuffix(long, maxKey, applied - earlier, b, k);
    }
    SameLookups(got, want);
  }

  /** One more entry: the front of the remaining stretch, or a new mark. */
  lemma ApplyStaysOnTrack(start: Db, maxKey: nat, log: seq<LogData>, db: Db, applied: nat, mark: nat)
    requires OnTrack(start, maxKey, log, db, applied, mark) && applied < |log|
    ensures OnTrack(start, maxKey, log, Apply1(db, maxKey, log[applied]), applied + 1, Max(mark, applied + 1))
  {
    if mark > applied {
      assert log[applied..mark] == [log[applied]] + log[applied + 1..mark];
      FoldFromFront(db, maxKey, log[applied], log[applied + 1..mark]);
    } else {
      assert log[..applied + 1][..applied] == log[..applied];
      assert log[applied..mark] == [] && log[applied + 1..applied + 1] == [];
    }
  }

  lemma {:induction false} FoldFromFront(db: Db, maxKey: nat, e: LogData, rest: seq<LogData>)
    ensures Fold(db, maxKey, [e] + rest) == Fold(Apply1(db, maxKey, e), maxKey, rest)
    decreases |rest|
  {
    var log := [e] + rest;
    if rest == [] {
      assert log[..|log| - 1] == [];
    } else {
      assert log[..|log| - 1] == [e] + rest[..|rest| - 1];
      FoldFromFront(db, maxKey, e, rest[..|rest| - 1]);
    }
  }

  // ---------- the cluster ----------

  /** `seen` is the history the database reflects: the log length it has ever
      been driven to. It guides no step. */
  datatype Snapshot = Snapshot(content: Db, index: nat, seen: nat)
  datatype Replica = Replica(db: Db, applied: nat, seen: nat, snapshots: seq<Snapshot>)
  datatype Cluster = Cluster(log: seq<LogData>, replicas: map<nat, Replica>)

  datatype Step =
    | Commit(e: LogData)                              // raft agrees on one more entry
    | ApplyNext(id: nat)                              // a replica applies its next entry
    | TakeSnapshot(id: nat)                           // ... dumps its database
    | CrashAndReplay(id: nat)                         // ... restarts without a snapshot
    | CrashAndRestore(id: nat, which: nat)            // ... restarts from a snapshot it kept
    | InstallSnapshot(from: nat, which: nat, to: nat) // ... is sent another replica's

  function Max(a: nat, b: nat): nat { if a < b then b else a }

  function LoadSnapshot(r: Replica, s: Snapshot): Replica {
    Replica(Restored(r.db, s.content), s.index, s.seen, r.snapshots)
  }

  function ApplyTo(r: Replica, maxKey: nat, log: seq<LogData>): Replica
    requires r.applied < |log|
  {
    r.(db := Apply1(r.db, maxKey, log[r.applied]), applied := r.applied + 1, seen := Max(r.seen, r.applied + 1))
  }

  function Update(c: Cluster, id: nat, r: Replica): Cluster {
    c.(replicas := c.replicas[id := r])
  }

  /** A step that is not enabled leaves the cluster as it is. */
  function Do(c: Cluster, maxKey: nat, step: Step): Cluster {
    match step
    case Commit(e) =>
      if Addressed(e, ROOT_BUCKETS) then c.(log := c.log + [e]) else c
    case ApplyNext(id) =>
      if id in c.replicas && c.replicas[id].applied < |c.log|
      then Update(c, id, ApplyTo(c.replicas[id], maxKey, c.log)) else c
    case TakeSnapshot(id) =>
      if id in c.replicas then
        var r := c.replicas[id];
        Update(c, id, r.(snapshots := r.snapshots + [Snapshot(r.db, r.applied, r.seen)]))
      else c
    case CrashAndReplay(id) =>
      if id in c.replicas then Update(c, id, c.replicas[id].(applied := 0)) else c
    case CrashAndRestore(id, which) =>
      if id in c.replicas && which < |c.replicas[id].snapshots| then
        Update(c, id, LoadSnapshot(c.replicas[id], c.replicas[id].snapshots[which]))
      else c
    case InstallSnapshot(from, which, to) =>
      if from in c.replicas && to in c.replicas && which < |c.replicas[from].snapshots| then
        var s := c.replicas[from].snapshots[which];
        var r := LoadSnapshot(c.replicas[to], s);
        Update(c, to, r.(snapshots := r.snapshots + [s]))
      else c
  }

  function Run(c: Cluster, maxKey: nat, steps: seq<Step>): Cluster
    decreases |steps|
  {
    if steps == [] then c else Do(Run(c, maxKey, steps[..|steps| - 1]), maxKey, steps[|steps| - 1])
  }

  /** Every replica starts from the same opened database and an empty log. */
  function Initial(start: Db, ids: set<nat>): Cluster {
    Cluster([], map id | id in ids :: Replica(start, 0, 0, []))
  }

  ghost predicate ReplicaOnTrack(start: Db, maxKey: nat, log: seq<LogData>, r: Replica) {
    && OnTrack(start, maxKey, log, r.db, r.applied, r.seen)
    && forall i :: 0 <= i < |r.snapshots| ==>
         OnTrack(start, maxKey, log, r.snapshots[i].content, r.snapshots[i].index, r.snapshots[i].seen)
  }

  ghost predicate AllOnTrack(start: Db, maxKey: nat, c: Cluster) {
    forall id :: id in c.replicas ==> ReplicaOnTrack(start, maxKey, c.log, c.replicas[id])
  }

  lemma LongerLogKeepsTrack(start: Db, maxKey: nat, log: seq<LogData>, e: LogData, db: Db, applied: nat, mark: nat)
    requires OnTrack(start, maxKey, log, db, applied, mark)
    ensures OnTrack(start, maxKey, log + [e], db, applied, mark)
  {
    assert (log + [e])[applied..mark] == log[applied..mark] && (log + [e])[..mark] == log[..mark];
  }

  lemma CommitKeepsTrack(start: Db, maxKey: nat, log: seq<LogData>, e: LogData, r: Replica)
    requires ReplicaOnTrack(start, maxKey, log, r)
    ensures ReplicaOnTrack(start, maxKey, log + [e], r)
  {
    LongerLogKeepsTrack(start, maxKey, log, e, r.db, r.applied, r.seen);
    forall i | 0 <= i < |r.snapshots|
      ensures OnTrack(start, maxKey, log + [e], r.snapshots[i].content, r.snapshots[i].index, r.snapshots[i].seen)
    {
      var s := r.snapshots[i];
      LongerLogKeepsTrack(start, maxKey, log, e, s.content, s.index, s.seen);
    }
  }

  /** A snapshot that is on track puts the replica that loads it on track. */
  lemma LoadKeepsTrack(start: Db, maxKey: nat, log: seq<LogData>, r: Replica, s: Snapshot)
    requires ReplicaOnTrack(start, maxKey, log, r)
    requires OnTrack(start, maxKey, log, s.content, s.index, s.seen)
    ensures ReplicaOnTrack(start, maxKey, log, LoadSnapshot(r, s))
    ensures ReplicaOnTrack(start, maxKey, log, LoadSnapshot(r, s).(snapshots := r.snapshots + [s]))
  {
    RestoreInvertsDump(s.content, r.db);
  }

  /** Whatever one replica does by itself or with a snapshot at hand. */
  lemma ReplicaStepKeepsTrack(start: Db, maxKey: nat, log: seq<LogData>, r: Replica)
    requires ReplicaOnTrack(start, maxKey, log, r)
    ensures r.applied < |log| ==> ReplicaOnTrack(start, maxKey, log, ApplyTo(r, maxKey, log))
    ensures ReplicaOnTrack(start, maxKey, log, r.(snapshots := r.snapshots + [Snapshot(r.db, r.applied, r.seen)]))
    ensures ReplicaOnTrack(start, maxKey, log, r.(applied := 0))
  {
    if r.applied < |log| {
      ApplyStaysOnTrack(start, maxKey, log, r.db, r.applied, r.seen);
    }
    ReplayAbsorbs(start, maxKey, log, r.db, r.applied, r.seen, 0);
  }

  lemma StepKeepsTrack(start: Db, maxKey: nat, c: Cluster, step: Step)
    requires AllOnTrack(start, maxKey, c)
    ensures AllOnTrack(start, maxKey, Do(c, maxKey, step))
  {
    match step
    case Commit(e) =>
      forall id | id in c.replicas ensures ReplicaOnTrack(start, maxKey, c.log + [e], c.replicas[id]) {
        CommitKeepsTrack(start, maxKey, c.log, e, c.replicas[id]);
      }
    case ApplyNext(id) =>
      if id in c.replicas { ReplicaStepKeepsTrack(start, maxKey, c.log, c.replicas[id]); }
    case TakeSnapshot(id) =>
      if id in c.replicas { ReplicaStepKeepsTrack(start, maxKey, c.log, c.replicas[id]); }
    case CrashAndReplay(id) =>
      if id in c.replicas { ReplicaStepKeepsTrack(start, maxKey, c.log, c.replicas[id]); }
    case CrashAndRestore(id, which) =>
      if id in c.replicas && which < |c.replicas[id].snapshots| {
        LoadKeepsTrack(start, maxKey, c.log, c.replicas[id], c.replicas[id].snapshots[which]);
      }
    case InstallSnapshot(from, which, to) =>
      if from in c.replicas && to in c.replicas && which < |c.replicas[from].snapshots| {
        assert ReplicaOnTrack(start, maxKey, c.log, c.replicas[from]);
        LoadKeepsTrack(start, maxKey, c.log, c.replicas[to], c.replicas[from].snapshots[which]);
      }
  }

  lemma {:induction false} RunKeepsTrack(start: Db, maxKey: nat, ids: set<nat>, steps: seq<Step>)
    ensures AllOnTrack(start, maxKey, Run(Initial(start, ids), maxKey, steps))
    decreases |steps|
  {
    if steps != [] {
      RunKeepsTrack(start, maxKey, ids, steps[..|steps| - 1]);
      StepKeepsTrack(start, maxKey, Run(Initial(start, ids), maxKey, steps[..|steps| - 1]), steps[|steps| - 1]);
    }
  }

  /** What any replica holds at any moment, even in the middle of a replay: at
      every place that none of the entries still to be replayed writes, the fold of
      the log up to its applied index. */
  lemma UnwrittenPlacesAreCurrent(start: Db, maxKey: nat, ids: set<nat>, steps: seq<Step>, id: nat, b: string,
                                  k: string)
    requires b in start && id in Run(Initial(start, ids), maxKey, steps).replicas
    requires var c := Run(Initial(start, ids), maxKey, steps);
             var r := c.replicas[id];
             r.applied <= r.seen <= |c.log| ==> LastWrite(c.log[r.applied..r.seen], maxKey, b, k).None?
    ensures var c := Run(Initial(start, ids), maxKey, steps);
            var r := c.replicas[id];
            && r.applied <= r.seen <= |c.log| && b in r.db
            && Lookup(r.db, b, k) == Lookup(Fold(start, maxKey, c.log[..r.applied]), b, k)
  {
    RunKeepsTrack(start, maxKey, ids, steps);
    var c := Run(Initial(start, ids), maxKey, steps);
    var r := c.replicas[id];
    assert ReplicaOnTrack(start, maxKey, c.log, r);
    var rest, all := c.log[r.applied..r.seen], c.log[..r.seen];
    assert all == c.log[..r.applied] + rest;
    FoldIsLastWrite(r.db, maxKey, rest, b, k);
    FoldIsLastWrite(start, maxKey, all, b, k);
    FoldIsLastWrite(start, maxKey, c.log[..r.applied], b, k);
    LastWriteOfPrefix(c.log[..r.applied], rest, maxKey, b, k);
  }

  lemma {:induction false} LastWriteOfPrefix(log: seq<LogData>, rest: seq<LogData>, maxKey: nat, b: string, k: string)
    requires LastWrite(rest, maxKey, b, k).None?
    ensures LastWrite(log + rest, maxKey, b, k) == LastWrite(log, maxKey, b, k)
    decreases |rest|
  {
    if rest == [] {
      assert log + rest == log;
    } else {
      assert (log + rest)[..|log + rest| - 1] == log + rest[..|rest| - 1];
      LastWriteOfPrefix(log, rest[..|rest| - 1], maxKey, b, k);
    }
  }

  /** Convergence. After any schedule of commits, applies, snapshots, snapshot
      installs and crashes, a replica whose applied index has reached
      everything its database ever reflected holds the fold of that prefix of
      the log over the common start. */
  lemma CaughtUpReplicaIsTheFold(start: Db, maxKey: nat, ids: set<nat>, steps: seq<Step>, id: nat)
    requires var c := Run(Initial(start, ids), maxKey, steps);
             id in c.replicas && c.replicas[id].seen <= c.replicas[id].applied
    ensures var c := Run(Initial(start, ids), maxKey, steps);
            var r := c.replicas[id];
            r.applied <= |c.log| && r.db == Fold(start, maxKey, c.log[..r.applied])
  {
    RunKeepsTrack(start, maxKey, ids, steps);
    var c := Run(Initial(start, ids), maxKey, steps);
    assert ReplicaOnTrack(start, maxKey, c.log, c.replicas[id]);
    NothingLeft(start, maxKey, c.log, c.replicas[id]);
  }

  lemma NothingLeft(start: Db, maxKey: nat, log: seq<LogData>, r: Replica)
    requires OnTrack(start, maxKey, log, r.db, r.applied, r.seen) && r.seen <= r.applied
    ensures r.db == Fold(start, maxKey, log[..r.applied])
  {
    assert log[r.applied..r.applied] == [];
  }

  /** Before that it may not: a replica that restarts over its surviving
      database and replays one of two entries already shows the second. */
  lemma MidReplayIsAhead(start: Db, maxKey: nat, a: LogOp, b: LogOp)
    requires a.op == b.op == "put" && a.bucket in start && b.bucket in start && a.key != b.key
    requires PutError(a.key, maxKey).None? && PutError(b.key, maxKey).None? && b.key !in start[b.bucket]
    ensures var log := [EncodedOp(a), EncodedOp(b)];
            var r := ApplyTo(ApplyTo(Replica(start, 0, 0, []), maxKey, log), maxKey, log);
            var r' := ApplyTo(r.(applied := 0), maxKey, log);
            r'.applied == 1 && r'.seen == 2 && r'.db != Fold(start, maxKey, log[..1])
  {
    var log := [EncodedOp(a), EncodedOp(b)];
    var db1 := Apply1(start, maxKey, log[0]);
    var db2 := Apply1(db1, maxKey, log[1]);
    assert b.key !in db1[b.bucket] && b.key in db2[b.bucket];
    assert b.key in Apply1(db2, maxKey, log[0])[b.bucket];
    assert log[..1] == [log[0]] && [log[0]][..0] == [];
    assert Fold(start, maxKey, log[..1]) == db1;
  }

  function Repeat(step: Step, n: nat): seq<Step> {
    seq(n, i => step)
  }

  /** Catching up always gets there: from any reachable cluster, a replica that
      applies the entries it has left holds the fold of the whole log. */
  lemma CatchingUpConverges(start: Db, maxKey: nat, ids: set<nat>, steps: seq<Step>, id: nat)
    requires id in ids
    ensures var c := Run(Initial(start, ids), maxKey, steps);
            id in c.replicas && c.replicas[id].applied <= |c.log| &&
            var c' := Run(c, maxKey, Repeat(ApplyNext(id), |c.log| - c.replicas[id].applied));
            id in c'.replicas && c'.log == c.log && c'.replicas[id].db == Fold(start, maxKey, c.log)
  {
    RunKeepsTrack(start, maxKey, ids, steps);
    var c := Run(Initial(start, ids), maxKey, steps);
    MembersStay(Initial(start, ids), maxKey, steps);
    assert ReplicaOnTrack(start, maxKey, c.log, c.replicas[id]);
    var n := |c.log| - c.replicas[id].applied;
    ApplyRepeatedly(start, maxKey, c, id, n);
    CaughtUp(start, maxKey, c.log, Run(c, maxKey, Repeat(ApplyNext(id), n)).replicas[id]);
  }

  /** A replica that loads a snapshot, its own after a crash or another's, holds
      afterwards exactly what was dumped, nothing of its own mixed in, and goes on
      from the index of the dump. */
  lemma LoadingIsExact(start: Db, maxKey: nat, ids: set<nat>, steps: seq<Step>, from: nat, which: nat, to: nat)
    requires var c := Run(Initial(start, ids), maxKey, steps);
             from in c.replicas && to in c.replicas && which < |c.replicas[from].snapshots|
    ensures var c := Run(Initial(start, ids), maxKey, steps);
            var s := c.replicas[from].snapshots[which];
            var sent := Do(c, maxKey, InstallSnapshot(from, which, to)).replicas;
            && to in sent && sent[to].db == s.content && sent[to].applied == s.index && s in sent[to].snapshots
            && (from == to ==>
                  var back := Do(c, maxKey, CrashAndRestore(from, which)).replicas;
                  from in back && back[from].db == s.content && back[from].applied == s.index)
  {
    RunKeepsTrack(start, maxKey, ids, steps);
    var c := Run(Initial(start, ids), maxKey, steps);
    assert ReplicaOnTrack(start, maxKey, c.log, c.replicas[from]);
    assert ReplicaOnTrack(start, maxKey, c.log, c.replicas[to]);
    RestoreInvertsDump(c.replicas[from].snapshots[which].content, c.replicas[to].db);
    var sent := Do(c, maxKey, InstallSnapshot(from, which, to)).replicas[to].snapshots;
    assert sent[|sent| - 1] == c.replicas[from].snapshots[which];
  }

  /** A dump holds the replica's database and the index applied to it; a crash
      costs the index alone. */
  lemma DumpAndCrash(c: Cluster, maxKey: nat, id: nat)
    requires id in c.replicas
    ensures var (r, d, x) := (c.replicas[id], Do(c, maxKey, TakeSnapshot(id)), Do(c, maxKey, CrashAndReplay(id)));
            && id in d.replicas && d.replicas[id].db == r.db && |d.replicas[id].snapshots| == |r.snapshots| + 1
            && d.replicas[id].snapshots[|r.snapshots|].content == r.db
            && d.replicas[id].snapshots[|r.snapshots|].index == r.applied
            && id in x.replicas && x.replicas[id].applied == 0 && x.replicas[id].db == r.db
  {
  }

  /** Every log of entries that name opened buckets comes about. */
  lemma {:induction false} LogsHappen(start: Db, maxKey: nat, ids: set<nat>, log: seq<LogData>)
    returns (steps: seq<Step>)
    requires forall e :: e in log ==> Addressed(e, ROOT_BUCKETS)
    ensures Run(Initial(start, ids), maxKey, steps).log == log
  {
    if log == [] {
      steps := [];
    } else {
      var before := LogsHappen(start, maxKey, ids, log[..|log| - 1]);
      steps := before + [Commit(log[|log| - 1])];
      assert steps[..|steps| - 1] == before && log == log[..|log| - 1] + [log[|log| - 1]];
    }
  }

  // ---------- snapshots load ----------

  /** Every key a replica or one of its snapshots holds is one the engine takes. */
  ghost predicate Loadable(r: Replica, maxKey: nat) {
    KeysAccepted(r.db, maxKey) && forall i :: 0 <= i < |r.snapshots| ==> KeysAccepted(r.snapshots[i].content, maxKey)
  }

  ghost predicate AllLoadable(c: Cluster, maxKey: nat) {
    forall id :: id in c.replicas ==> Loadable(c.replicas[id], maxKey)
  }

  lemma StepKeepsLoadable(c: Cluster, maxKey: nat, step: Step)
    requires AllLoadable(c, maxKey)
    ensures AllLoadable(Do(c, maxKey, step), maxKey)
  {
    match step
    case Commit(_) =>
    case ApplyNext(id) =>
      if id in c.replicas { assert Loadable(c.replicas[id], maxKey); }
    case TakeSnapshot(id) =>
      if id in c.replicas { assert Loadable(c.replicas[id], maxKey); }
    case CrashAndReplay(id) =>
      if id in c.replicas { assert Loadable(c.replicas[id], maxKey); }
    case CrashAndRestore(id, _) =>
      if id in c.replicas { assert Loadable(c.replicas[id], maxKey); }
    case InstallSnapshot(from, _, to) =>
      if from in c.replicas && to in c.replicas {
        assert Loadable(c.replicas[from], maxKey) && Loadable(c.replicas[to], maxKey);
      }
  }

  /** The restores of a run never fail: whatever the schedule, RestoreBolt finds
      no key it must refuse in any snapshot there is. */
  lemma {:induction false} SnapshotsLoad(start: Db, maxKey: nat, ids: set<nat>, steps: seq<Step>)
    requires KeysAccepted(start, maxKey)
    ensures AllLoadable(Run(Initial(start, ids), maxKey, steps), maxKey)
    decreases |steps|
  {
    if steps != [] {
      SnapshotsLoad(start, maxKey, ids, steps[..|steps| - 1]);
      StepKeepsLoadable(Run(Initial(start, ids), maxKey, steps[..|steps| - 1]), maxKey, steps[|steps| - 1]);
    }
  }

  lemma CaughtUp(start: Db, maxKey: nat, log: seq<LogData>, r: Replica)
    requires ReplicaOnTrack(start, maxKey, log, r) && r.applied == |log|
    ensures r.db == Fold(start, maxKey, log)
  {
    assert log[|log|..|log|] == [] && log[..|log|] == log;
  }

  lemma {:induction false} ApplyRepeatedly(start: Db, maxKey: nat, c: Cluster, id: nat, n: nat)
    requires AllOnTrack(start, maxKey, c) && id in c.replicas && c.replicas[id].applied + n <= |c.log|
    ensures var c' := Run(c, maxKey, Repeat(ApplyNext(id), n));
            AllOnTrack(start, maxKey, c') && c'.log == c.log && c'.replicas.Keys == c.replicas.Keys &&
            c'.replicas[id].applied == c.replicas[id].applied + n
  {
    if n > 0 {
      ApplyRepeatedly(start, maxKey, c, id, n - 1);
      assert Repeat(ApplyNext(id), n)[..n - 1] == Repeat(ApplyNext(id), n - 1);
      StepKeepsTrack(start, maxKey, Run(c, maxKey, Repeat(ApplyNext(id), n - 1)), ApplyNext(id));
    }
  }

  lemma {:induction false} MembersStay(c: Cluster, maxKey: nat, steps: seq<Step>)
    ensures Run(c, maxKey, steps).replicas.Keys == c.replicas.Keys
    decreases |steps|
  {
    if steps != [] {
      MembersStay(c, maxKey, steps[..|steps| - 1]);
    }
  }
}
