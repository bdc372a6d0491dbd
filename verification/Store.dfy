/** The keyed store: BoltDB buckets and project-scoped resources. */
module Stores {
  import opened Options
  import opened Lexicographic
  import opened OrderedKeys
  import opened EventKeys
  import opened Records

  type Db = map<string, map<string, Doc>>

  const ROOT_BUCKETS: set<string> := {
    "projects", "nodes", "containers", "functions", "buckets", "accesskeys", "users", "tokens", "cluster",
    "meta", "secrets", "eventrules", "builds", "eventlog", "deliveries", "webhookqueue"
  }

  // ---------- keys ----------

  function KeyFor(project: string, name: string): string {
    if project == "" then name else project + "/" + name
  }

  predicate SlashFree(s: string) {
    '/' !in s
  }

  /** Exactly when two (project, name) pairs share a key: one project continues
      the other across a slash that the other's name supplies. */
  lemma KeyForCollides(p: string, n: string, q: string, m: string)
    requires p != "" && q != "" && |p| <= |q|
    ensures KeyFor(p, n) == KeyFor(q, m) <==>
            (p == q && n == m) || (p + "/" <= q && n == q[|p| + 1..] + "/" + m)
  {
    assert p + "/" <= q ==> q == p + "/" + q[|p| + 1..];
    if KeyFor(p, n) == KeyFor(q, m) {
      var k := KeyFor(p, n);
      assert k[..|p|] == p && k[..|q|] == q && k[|p| + 1..] == n && k[|q| + 1..] == m;
      if |p| < |q| {
        assert q == k[..|q|] && p + "/" == k[..|p| + 1];
        assert n == k[|p| + 1..|q|] + k[|q|..|q| + 1] + k[|q| + 1..];
      }
    }
  }

  /** With slash-free projects the key determines project and name. */
  lemma KeyForInjective(p: string, n: string, q: string, m: string)
    requires p != "" && q != "" && SlashFree(p) && SlashFree(q)
    requires KeyFor(p, n) == KeyFor(q, m)
    ensures p == q && n == m
  {
    assert (p + "/")[|p|] == '/' && (q + "/")[|q|] == '/';
    if |p| <= |q| {
      KeyForCollides(p, n, q, m);
    } else {
      KeyForCollides(q, m, p, n);
    }
  }

  /** No key carries the prefixes of two slash-free projects. */
  lemma PrefixesAreDisjoint(p: string, q: string, k: string)
    requires SlashFree(p) && SlashFree(q)
    requires p + "/" <= k && q + "/" <= k
    ensures p == q
  {
    assert k[|p|] == '/' && k[..|p|] == p && k[|q|] == '/' && k[..|q|] == q;
    assert forall i :: 0 <= i < |q| ==> k[i] == q[i];
    assert forall i :: 0 <= i < |p| ==> k[i] == p[i];
  }

  /** A key carries a slash-free project's prefix only if it is that project's. */
  lemma PrefixNamesProject(p: string, q: string, n: string)
    requires SlashFree(p) && SlashFree(q) && q != ""
    ensures p + "/" <= KeyFor(q, n) <==> p == q
  {
    if p + "/" <= KeyFor(q, n) {
      PrefixesAreDisjoint(p, q, KeyFor(q, n));
    }
  }

  /** Project `p`'s prefix takes in the record `n` of project `q`. */
  predicate Covers(p: string, q: string, n: string) {
    p == q || p + "/" <= q || (q + "/" <= p && p[|q| + 1..] + "/" <= n)
  }

  /** Exactly when a key carries a project's prefix: the projects agree, or one
      continues the other across a slash, with the help of the name if the listed
      project is the longer one. */
  lemma PrefixCovers(p: string, q: string, n: string)
    requires p != "" && q != ""
    ensures p + "/" <= KeyFor(q, n) <==> Covers(p, q, n)
  {
    var k := q + "/" + n;
    if |p| < |q| {
      assert k[..|p| + 1] == q[..|p| + 1];
    } else if |p| == |q| {
      assert k[..|p| + 1] == q + "/" && (p + "/")[..|p|] == p && (q + "/")[..|q|] == q;
    } else {
      assert k[..|q| + 1] == q + "/" && (p + "/")[..|q| + 1] == p[..|q| + 1];
      if q + "/" <= p {
        var rest := p[|q| + 1..] + "/";
        assert p + "/" == (q + "/") + rest && k == (q + "/") + n;
        PrefixAfter(q + "/", rest, n);
      }
    }
  }

  lemma PrefixAfter(a: string, x: string, y: string)
    ensures a + x <= a + y <==> x <= y
  {
    if |x| <= |y| {
      assert (a + y)[..|a + x|] == a + y[..|x|];
      assert (a + x)[|a|..] == x && (a + y[..|x|])[|a|..] == y[..|x|];
    }
  }

  // ---------- buckets as ordered maps ----------

  /** Where a cursor lands on Seek. */
  function Seek(ks: seq<string>, prefix: string): (i: nat)
    ensures i <= |ks|
    ensures forall j :: 0 <= j < i ==> Less(ks[j], prefix)
    ensures i < |ks| ==> !Less(ks[i], prefix)
  {
    if ks == [] || !Less(ks[0], prefix) then 0 else
    var i := Seek(ks[1..], prefix);
    assert forall j :: 0 < j <= |ks[1..]| ==> ks[j] == ks[1..][j - 1];
    i + 1
  }

  function KeysUnder(m: map<string, Doc>, prefix: string): (ks: seq<string>)
    ensures forall k :: k in ks <==> k in m && prefix <= k
  {
    Ascending(WithPrefix(m.Keys, prefix))
  }

  function Values(m: map<string, Doc>, ks: seq<string>): (vs: seq<Doc>)
    requires forall k :: k in ks ==> k in m
    ensures |vs| == |ks| && forall i :: 0 <= i < |ks| ==> vs[i] == m[ks[i]]
  {
    seq(|ks|, i requires 0 <= i < |ks| => m[ks[i]])
  }

  /** The values under a prefix, in ascending key order. */
  function Listed(m: map<string, Doc>, prefix: string): seq<Doc> {
    Values(m, KeysUnder(m, prefix))
  }

  // ---------- what the writes do ----------

  /** The engine's own refusal of a key: empty, or longer than its limit. */
  function PutError(key: string, maxKey: nat): Option<Error> {
    if key == "" || |key| > maxKey then Some(KeyRefused) else None
  }

  function Defaulted(m: Meta): Meta {
    if m.project == "" then m.(project := "default") else m
  }

  function Stamped(m: Meta, mint: Mint): Meta {
    var named := if m.uid == "" then m.(uid := mint.uid, createdAt := mint.created) else m;
    named.(updatedAt := mint.updated, generation := m.generation + 1)
  }

  /** A write's effect: the database, the caller's value, the events emitted
      and the error returned. */
  datatype Effect = Effect(db: Db, value: Resource, events: seq<Event>, err: Option<Error>)

  function PutScopedEffect(db: Db, maxKey: nat, bucket: string, kind: Kind, r: Resource, mint: Mint): Effect
    requires bucket in db
  {
    var m := Defaulted(r.meta);
    if m.name == "" then Effect(db, r.(meta := m), [], Some(NameRequired)) else
    var v := r.(meta := Stamped(m, mint));
    var key := KeyFor(m.project, m.name);
    var err := PutError(key, maxKey);
    if err.Some? then Effect(db, v, [], err)
    else Effect(db[bucket := db[bucket][key := Marshal(v)]], v, [Event(kind, OpPut, m.project, m.name, Some(v))], None)
  }

  function LocalDeleteKey(kind: Kind, project: string, name: string): string {
    if project == "" then
      if kind in {KindNode, KindUser, KindToken} then "system/" + name else name
    else KeyFor(project, name)
  }

  function DeleteEffect(db: Db, bucket: string, key: string, ev: Event): (Db, seq<Event>, Option<Error>)
    requires bucket in db
  {
    if key in db[bucket] then (db[bucket := db[bucket] - {key}], [ev], None) else (db, [], Some(NotFound))
  }

  /** What a put of a named value leaves, in terms of what it was given: one
      record under project and name, the project "default" if none was named; a
      uid and a creation time minted only if it had no uid; one more generation;
      everything else of the value, of the bucket and of the database as before,
      but that JSON drops an empty map of labels; and one event. */
  lemma PutStores(db: Db, maxKey: nat, bucket: string, kind: Kind, r: Resource, mint: Mint)
    requires bucket in db && r.meta.name != ""
    ensures var (e, project) := (PutScopedEffect(db, maxKey, bucket, kind, r, mint),
                                 if r.meta.project == "" then "default" else r.meta.project);
            var (key, unborn) := (project + "/" + r.meta.name, r.meta.uid == "");
            && e.value.body == r.body
            && e.value.meta == Meta(project, r.meta.name, if unborn then mint.uid else r.meta.uid,
                                    r.meta.generation + 1, if unborn then mint.created else r.meta.createdAt,
                                    mint.updated, r.meta.labels)
            && e.err == (if |key| > maxKey then Some(KeyRefused) else None)
            && (e.err.Some? ==> e.db == db && e.events == [])
            && (e.err.None? ==>
                  && e.db.Keys == db.Keys && key in e.db[bucket]
                  && e.db[bucket][key] == Encoded(e.value.(meta := e.value.meta.(labels :=
                       if r.meta.labels == Some(map[]) then None else r.meta.labels)))
                  && (forall k :: k != key ==> (k in e.db[bucket] <==> k in db[bucket]))
                  && (forall k :: k != key && k in db[bucket] ==> e.db[bucket][k] == db[bucket][k])
                  && (forall b :: b != bucket && b in db ==> e.db[b] == db[b])
                  && e.events == [Event(kind, OpPut, project, r.meta.name, Some(e.value))])
  {
  }

  /** A nameless value is refused with nothing written or announced. */
  lemma PutNeedsName(db: Db, maxKey: nat, bucket: string, kind: Kind, r: Resource, mint: Mint)
    requires bucket in db && r.meta.name == ""
    ensures var e := PutScopedEffect(db, maxKey, bucket, kind, r, mint);
            e.db == db && e.events == [] && e.err == Some(NameRequired) && e.value.body == r.body
  {
  }

  // ---------- the store ----------

  class Store {
    var db: Db
    /** Everything passed to emit so far. */
    var emitted: seq<Event>
    /** The database engine's key size limit. */
    const maxKey: nat

    /** Open: every root bucket exists. */
    ghost predicate Valid()
      reads this
    {
      ROOT_BUCKETS <= db.Keys
    }

    constructor (maxKey: nat)
      ensures Valid() && emitted == [] && this.maxKey == maxKey
      ensures db == map b | b in ROOT_BUCKETS :: map[]
    {
      this.maxKey := maxKey;
      db := map b | b in ROOT_BUCKETS :: map[];
      emitted := [];
    }

    method Emit(ev: Event)
      modifies this`emitted
      ensures emitted == old(emitted) + [ev]
    {
      emitted := emitted + [ev];
    }

    method Put(bucket: string, key: string, data: Doc) returns (err: Option<Error>)
      requires bucket in db
      modifies this`db
      ensures err == PutError(key, maxKey)
      ensures db == if err.None? then old(db)[bucket := old(db)[bucket][key := data]] else old(db)
    {
      err := PutError(key, maxKey);
      if err.None? {
        db := db[bucket := db[bucket][key := data]];
      }
    }

    method Del(bucket: string, key: string) returns (err: Option<Error>)
      requires bucket in db
      modifies this`db
      ensures err == if key in old(db)[bucket] then None else Some(NotFound)
      ensures db == if err.None? then old(db)[bucket := old(db)[bucket] - {key}] else old(db)
    {
      if key !in db[bucket] {
        return Some(NotFound);
      }
      db := db[bucket := db[bucket] - {key}];
      err := None;
    }

    /** Seek and scan, or scan everything for an empty prefix. */
    method List(bucket: string, prefix: string) returns (out: seq<Doc>)
      requires bucket in db
      ensures out == Listed(db[bucket], prefix)
    {
      var m := db[bucket];
      var ks := Ascending(m.Keys);
      assert forall k :: k in ks ==> k in m;
      var lo := if prefix == "" then 0 else Seek(ks, prefix);
      var hi;
      hi, out := Scan(m, ks, prefix, lo);
      ScanIsComplete(m, ks, prefix, lo, hi);
    }

    /** putScoped: mints Meta on the caller's value, writes it under its own
        key and announces it. */
    method PutScoped(bucket: string, kind: Kind, v: Record, mint: Mint) returns (err: Option<Error>)
      requires Valid() && bucket in db
      modifies this, v`meta
      ensures Valid()
      ensures var e := PutScopedEffect(old(db), maxKey, bucket, kind, old(v.Value()), mint);
              db == e.db && v.Value() == e.value && emitted == old(emitted) + e.events && err == e.err
    {
      ghost var want := PutScopedEffect(db, maxKey, bucket, kind, v.Value(), mint);
      if v.meta.project == "" {
        v.meta := v.meta.(project := "default");
      }
      if v.meta.name == "" {
        assert want == Effect(db, v.Value(), [], Some(NameRequired));
        return Some(NameRequired);
      }
      if v.meta.uid == "" {
        v.meta := v.meta.(uid := mint.uid, createdAt := mint.created);
      }
      v.meta := v.meta.(updatedAt := mint.updated);
      v.meta := v.meta.(generation := v.meta.generation + 1);
      var ev := Event(kind, OpPut, v.meta.project, v.meta.name, Some(v.Value()));
      assert want.value == v.Value() && want.err == PutError(KeyFor(v.meta.project, v.meta.name), maxKey);
      assert want.events == if want.err.None? then [ev] else [];
      err := Put(bucket, KeyFor(v.meta.project, v.meta.name), Marshal(v.Value()));
      assert db == want.db;
      if err.Some? {
        return;
      }
      Emit(ev);
    }

    method LocalDelete(bucket: string, kind: Kind, project: string, name: string) returns (err: Option<Error>)
      requires Valid() && bucket in db
      modifies this
      ensures Valid()
      ensures var (d, evs, e) := DeleteEffect(old(db), bucket, LocalDeleteKey(kind, project, name),
                                              Event(kind, OpDelete, project, name, None));
              db == d && emitted == old(emitted) + evs && err == e
    {
      var key := "";
      if project == "" {
        key := name;
        if kind == KindNode || kind == KindUser || kind == KindToken {
          key := "system/" + name;
        }
      } else {
        key := KeyFor(project, name);
      }
      err := Del(bucket, key);
      if err.Some? {
        return;
      }
      Emit(Event(kind, OpDelete, project, name, None));
    }
  }

  /** The cursor loop: values from position `lo` while the prefix lasts. */
  method Scan(m: map<string, Doc>, ks: seq<string>, prefix: string, lo: nat) returns (hi: nat, out: seq<Doc>)
    requires lo <= |ks| && forall i :: 0 <= i < |ks| ==> ks[i] in m
    ensures lo <= hi <= |ks|
    ensures forall i :: lo <= i < hi ==> prefix <= ks[i]
    ensures hi < |ks| ==> !(prefix <= ks[hi])
    ensures out == Values(m, ks[lo..hi])
  {
    out := [];
    hi := lo;
    var more := false;
    if hi < |ks| { more := HasPrefix(ks[hi], prefix); }
    while more
      invariant lo <= hi <= |ks|
      invariant more <==> hi < |ks| && prefix <= ks[hi]
      invariant forall i :: lo <= i < hi ==> prefix <= ks[i]
      invariant |out| == hi - lo
      invariant forall i :: lo <= i < hi ==> out[i - lo] == m[ks[i]]
      decreases |ks| - hi
    {
      out := out + [m[ks[hi]]];
      hi := hi + 1;
      more := false;
      if hi < |ks| { more := HasPrefix(ks[hi], prefix); }
    }
  }

  method HasPrefix(b: string, prefix: string) returns (r: bool)
    ensures r <==> prefix <= b
  {
    if |b| < |prefix| {
      return false;
    }
    for i := 0 to |prefix|
      invariant forall j :: 0 <= j < i ==> b[j] == prefix[j]
    {
      if b[i] != prefix[i] {
        return false;
      }
    }
    return true;
  }

  /** The scan loop has read exactly the prefix's run when it stops. */
  lemma ScanIsComplete(m: map<string, Doc>, ks: seq<string>, prefix: string, lo: nat, hi: nat)
    requires ks == Ascending(m.Keys)
    requires lo <= hi <= |ks|
    requires forall i :: 0 <= i < lo ==> Less(ks[i], prefix)
    requires lo < |ks| ==> !Less(ks[lo], prefix)
    requires forall i :: lo <= i < hi ==> prefix <= ks[i]
    requires hi < |ks| ==> !(prefix <= ks[hi])
    ensures ks[lo..hi] == KeysUnder(m, prefix)
  {
    if lo < hi < |ks| {
      AscendingAscends(m.Keys);
      AtOrAbove(prefix, ks[lo], ks[hi]);
    }
    PrefixRun(ks, m.Keys, prefix, lo, hi);
  }

  lemma AtOrAbove(prefix: string, a: string, b: string)
    requires !Less(a, prefix) && Less(a, b)
    ensures !Less(b, prefix)
  {
    if Less(b, prefix) { Transitive(a, b, prefix); }
  }

  // ---------- every reachable state is keyed by its own Meta ----------

  datatype ScopedOp =
    | Write(kind: Kind, r: Resource, mint: Mint)
    | Erase(kind: Kind, project: string, name: string)

  function ApplyScoped(db: Db, maxKey: nat, bucket: string, op: ScopedOp): (r: Db)
    requires bucket in db
    ensures r.Keys == db.Keys
  {
    match op
    case Write(kind, r, mint) => PutScopedEffect(db, maxKey, bucket, kind, r, mint).db
    case Erase(kind, project, name) =>
      DeleteEffect(db, bucket, LocalDeleteKey(kind, project, name), Event(kind, OpDelete, project, name, None)).0
  }

  function RunScoped(db: Db, maxKey: nat, bucket: string, ops: seq<ScopedOp>): (r: Db)
    requires bucket in db
    ensures r.Keys == db.Keys
    decreases |ops|
  {
    if ops == [] then db else
    ApplyScoped(RunScoped(db, maxKey, bucket, ops[..|ops| - 1]), maxKey, bucket, ops[|ops| - 1])
  }

  /** Every document sits under the key its own Meta names. */
  ghost predicate SelfKeyed(m: map<string, Doc>) {
    forall k :: k in m ==> m[k].Encoded? && m[k].r.meta.project != "" && m[k].r.meta.name != "" &&
                           k == KeyFor(m[k].r.meta.project, m[k].r.meta.name)
  }

  ghost predicate SlashFreeWrites(ops: seq<ScopedOp>) {
    forall i :: 0 <= i < |ops| && ops[i].Write? ==> SlashFree(ops[i].r.meta.project)
  }

  ghost predicate SlashFreeProjects(m: map<string, Doc>) {
    forall k :: k in m ==> m[k].Encoded? && SlashFree(m[k].r.meta.project)
  }

  lemma {:induction false} ReachableIsSelfKeyed(db: Db, maxKey: nat, bucket: string, ops: seq<ScopedOp>)
    requires bucket in db && SelfKeyed(db[bucket])
    ensures SelfKeyed(RunScoped(db, maxKey, bucket, ops)[bucket])
    ensures SlashFreeProjects(db[bucket]) && SlashFreeWrites(ops) ==>
            SlashFreeProjects(RunScoped(db, maxKey, bucket, ops)[bucket])
    decreases |ops|
  {
    if ops != [] {
      ReachableIsSelfKeyed(db, maxKey, bucket, ops[..|ops| - 1]);
      var last := ops[|ops| - 1];
      StepIsSelfKeyed(RunScoped(db, maxKey, bucket, ops[..|ops| - 1]), maxKey, bucket, last);
      assert SlashFreeWrites(ops) ==> SlashFreeWrites(ops[..|ops| - 1]);
    }
  }

  lemma StepIsSelfKeyed(db: Db, maxKey: nat, bucket: string, op: ScopedOp)
    requires bucket in db && SelfKeyed(db[bucket])
    ensures SelfKeyed(ApplyScoped(db, maxKey, bucket, op)[bucket])
    ensures SlashFreeProjects(db[bucket]) && (op.Write? ==> SlashFree(op.r.meta.project)) ==>
            SlashFreeProjects(ApplyScoped(db, maxKey, bucket, op)[bucket])
  {
    var m, m' := db[bucket], ApplyScoped(db, maxKey, bucket, op)[bucket];
    if op.Write? {
      var meta := Defaulted(op.r.meta);
      var v := OnWire(op.r.(meta := Stamped(meta, op.mint)));
      assert v.meta.project == meta.project && v.meta.name == meta.name;
      assert m' == m || (m' == m[KeyFor(meta.project, meta.name) := Encoded(v)] && meta.name != "");
      assert SlashFree("default");
    } else {
      assert forall k :: k in m' ==> k in m && m'[k] == m[k];
    }
  }

  /** What listing a project yields, whatever the names, in every state that
      typed puts and deletes can reach from an empty bucket: all its own records
      and those of other projects its prefix covers. So the list is exactly the
      project's if and only if it covers no record of another. */
  lemma ProjectListCovers(db: Db, maxKey: nat, bucket: string, ops: seq<ScopedOp>, project: string)
    requires bucket in db && db[bucket] == map[] && project != ""
    ensures var m := RunScoped(db, maxKey, bucket, ops)[bucket];
            && SelfKeyed(m)
            && (forall k :: k in KeysUnder(m, project + "/") <==>
                            k in m && Covers(project, m[k].r.meta.project, m[k].r.meta.name))
            && ((forall k :: k in KeysUnder(m, project + "/") <==> k in m && m[k].r.meta.project == project) <==>
                (forall k :: k in m && m[k].r.meta.project != project ==>
                             !Covers(project, m[k].r.meta.project, m[k].r.meta.name)))
  {
    ReachableIsSelfKeyed(db, maxKey, bucket, ops);
    var m := RunScoped(db, maxKey, bucket, ops)[bucket];
    forall k | k in m ensures project + "/" <= k <==> Covers(project, m[k].r.meta.project, m[k].r.meta.name) {
      PrefixCovers(project, m[k].r.meta.project, m[k].r.meta.name);
    }
  }

  /** In every state that typed puts and deletes can reach from an empty bucket
      under slash-free project names, listing a project yields exactly the
      records whose Meta names it. */
  lemma ProjectListIsExact(db: Db, maxKey: nat, bucket: string, ops: seq<ScopedOp>, project: string)
    requires bucket in db && db[bucket] == map[]
    requires SlashFreeWrites(ops) && SlashFree(project)
    ensures var m := RunScoped(db, maxKey, bucket, ops)[bucket];
            SelfKeyed(m) &&
            forall k :: k in KeysUnder(m, project + "/") <==> k in m && m[k].r.meta.project == project
  {
    ReachableIsSelfKeyed(db, maxKey, bucket, ops);
    var m := RunScoped(db, maxKey, bucket, ops)[bucket];
    forall k | k in m ensures project + "/" <= k <==> m[k].r.meta.project == project {
      PrefixNamesProject(project, m[k].r.meta.project, m[k].r.meta.name);
    }
  }

  /** With a slash in a project name the list of another project picks up
      records that are not its own. */
  lemma SlashedProjectLeaks(maxKey: nat, mint: Mint)
    requires maxKey >= 5
    ensures var r := Resource(Meta("a/b", "c", "", 0, 0, 0, None), Payload(""));
            var db := PutScopedEffect(map["containers" := map[]], maxKey, "containers", KindContainer, r, mint).db;
            exists k :: k in KeysUnder(db["containers"], "a/") && db["containers"][k].r.meta.project == "a/b"
  {
    var r := Resource(Meta("a/b", "c", "", 0, 0, 0, None), Payload(""));
    var db := PutScopedEffect(map["containers" := map[]], maxKey, "containers", KindContainer, r, mint).db;
    assert KeyFor("a/b", "c") == "a/b/c";
    assert "a/" <= "a/b/c";
    assert "a/b/c" in KeysUnder(db["containers"], "a/");
  }
}
