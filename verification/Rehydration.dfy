/** Rebuilding the function runtimes after a restart. */
module Rehydration {
  import opened Options
  import opened Records
  import opened OrderedKeys
  import opened Stores
  import B = Blobs
  import BuildSlots

  /** The switch on a function's runtime: anything but firecracker is wasm. */
  function Selected(runtime: string): BuildSlots.Runtime {
    if runtime == "firecracker" then BuildSlots.Firecracker else BuildSlots.Wasm
  }

  function FnKey(r: Resource): string {
    r.meta.project + "/" + r.meta.name
  }

  /** A function runtime: code by function key, and which deploys it accepts -
      the stub accepts all of them. */
  class Runtime {
    var funcs: map<string, string>
    const accepts: (string, string) -> bool

    constructor (accepts: (string, string) -> bool)
      ensures funcs == map[] && this.accepts == accepts
    {
      this.accepts := accepts;
      funcs := map[];
    }

    method Deploy(fn: Resource, code: string) returns (ok: bool)
      modifies this
      ensures ok == accepts(FnKey(fn), code)
      ensures funcs == if ok then old(funcs)[FnKey(fn) := code] else old(funcs)
    {
      ok := accepts(FnKey(fn), code);
      if ok {
        funcs := funcs[FnKey(fn) := code];
      }
    }
  }

  /** The record names code that is on disk. */
  predicate Restorable(d: Doc, dir: B.Dir) {
    d.Encoded? && d.r.body.Function? && d.r.body.sourceRef != "" && d.r.body.sourceRef in dir
  }

  predicate Redeploys(d: Doc, dir: B.Dir, c: BuildSlots.Runtime, accepts: (string, string) -> bool) {
    Restorable(d, dir) && Selected(d.r.body.runtime) == c && accepts(FnKey(d.r), dir[d.r.body.sourceRef])
  }

  /** What a runtime gains from the stored functions and the blobs. */
  function Rebuilt(m: map<string, Doc>, keys: set<string>, dir: B.Dir, c: BuildSlots.Runtime,
                   accepts: (string, string) -> bool): map<string, string> {
    map k | k in keys && k in m && Redeploys(m[k], dir, c, accepts) :: dir[m[k].r.body.sourceRef]
  }

  class Rehydrator {
    const st: Store
    const blobs: B.BlobStore
    const wasm: Runtime?
    const fc: Runtime?

    constructor (st: Store, blobs: B.BlobStore, wasm: Runtime?, fc: Runtime?)
      ensures this.st == st && this.blobs == blobs && this.wasm == wasm && this.fc == fc
    {
      this.st, this.blobs, this.wasm, this.fc := st, blobs, wasm, fc;
    }

    /** One record of the loop. */
    method Redeploy(d: Doc)
      requires d.Encoded? && (wasm == null || wasm != fc)
      modifies wasm, fc
      ensures wasm != null ==> wasm.funcs == With(old(wasm.funcs), d, blobs.dir, BuildSlots.Wasm, wasm.accepts)
      ensures fc != null ==> fc.funcs == With(old(fc.funcs), d, blobs.dir, BuildSlots.Firecracker, fc.accepts)
    {
      if !d.r.body.Function? || d.r.body.sourceRef == "" {
        return;
      }
      var data := blobs.Get(d.r.body.sourceRef);
      if data.None? {
        return;
      }
      var rt := if d.r.body.runtime == "firecracker" then fc else wasm;
      if rt == null {
        return;
      }
      var ok := rt.Deploy(d.r, data.value);
    }

    /** Each runtime that is there keeps what it had but for the stored functions
        that select it, whose blob is present and whose deploy it accepts: those
        now run the blob. */
    method Run()
      requires st.Valid() && SelfKeyed(st.db["functions"])
      requires wasm == null || wasm != fc
      modifies wasm, fc
      ensures var m := st.db["functions"];
              && (wasm != null ==>
                  wasm.funcs == old(wasm.funcs) + Rebuilt(m, m.Keys, blobs.dir, BuildSlots.Wasm, wasm.accepts))
              && (fc != null ==>
                  fc.funcs == old(fc.funcs) + Rebuilt(m, m.Keys, blobs.dir, BuildSlots.Firecracker, fc.accepts))
    {
      var m := st.db["functions"];
      var fns := st.List("functions", "");
      ghost var ks := KeysUnder(m, "");
      forall k | k in ks ensures Indexed(m, k) { KeysAreFnKeys(m, k); }
      RedeployAll(fns, m, ks);
      assert Firsts(ks, |ks|) == m.Keys;
    }

    method RedeployAll(fns: seq<Doc>, ghost m: map<string, Doc>, ghost ks: seq<string>)
      requires |fns| == |ks| && forall i :: 0 <= i < |ks| ==> Indexed(m, ks[i]) && fns[i] == m[ks[i]]
      requires wasm == null || wasm != fc
      modifies wasm, fc
      ensures wasm != null ==>
        wasm.funcs == old(wasm.funcs) + Rebuilt(m, Firsts(ks, |ks|), blobs.dir, BuildSlots.Wasm, wasm.accepts)
      ensures fc != null ==>
        fc.funcs == old(fc.funcs) + Rebuilt(m, Firsts(ks, |ks|), blobs.dir, BuildSlots.Firecracker, fc.accepts)
    {
      for i := 0 to |fns|
        invariant wasm != null ==>
          wasm.funcs == old(wasm.funcs) + Rebuilt(m, Firsts(ks, i), blobs.dir, BuildSlots.Wasm, wasm.accepts)
        invariant fc != null ==>
          fc.funcs == old(fc.funcs) + Rebuilt(m, Firsts(ks, i), blobs.dir, BuildSlots.Firecracker, fc.accepts)
      {
        if wasm != null { OneMoreKey(m, ks, i, blobs.dir, BuildSlots.Wasm, wasm.accepts, old(wasm.funcs)); }
        if fc != null { OneMoreKey(m, ks, i, blobs.dir, BuildSlots.Firecracker, fc.accepts, old(fc.funcs)); }
        Redeploy(fns[i]);
      }
    }
  }

  /** A record stored under its own function key. */
  predicate Indexed(m: map<string, Doc>, k: string) {
    k in m && m[k].Encoded? && k == FnKey(m[k].r)
  }

  function With(had: map<string, string>, d: Doc, dir: B.Dir, c: BuildSlots.Runtime,
                accepts: (string, string) -> bool): map<string, string> {
    if Redeploys(d, dir, c, accepts) then had[FnKey(d.r) := dir[d.r.body.sourceRef]] else had
  }

  function Firsts(ks: seq<string>, n: nat): set<string>
    requires n <= |ks|
  {
    set k | k in ks[..n]
  }

  lemma OneMoreKey(m: map<string, Doc>, ks: seq<string>, i: nat, dir: B.Dir, c: BuildSlots.Runtime,
                   accepts: (string, string) -> bool, had: map<string, string>)
    requires i < |ks| && Indexed(m, ks[i])
    ensures had + Rebuilt(m, Firsts(ks, i + 1), dir, c, accepts) ==
            With(had + Rebuilt(m, Firsts(ks, i), dir, c, accepts), m[ks[i]], dir, c, accepts)
  {
    assert ks[..i + 1] == ks[..i] + [ks[i]];
    assert Firsts(ks, i + 1) == Firsts(ks, i) + {ks[i]};
  }

  lemma KeysAreFnKeys(m: map<string, Doc>, k: string)
    requires SelfKeyed(m) && k in m
    ensures Indexed(m, k)
  {
  }

  // ---------- after a restart ----------

  /** From empty runtimes that accept every deploy, in every state that typed
      writes of functions and whole blob writes can reach: each stored function
      whose blob is present runs, in the runtime its record selects and there
      only, the one code whose hash is its SourceRef; and nothing else runs. */
  lemma RestartRestores(db: Db, maxKey: nat, ops: seq<ScopedOp>, hash: string -> string, blobOps: seq<B.Op>,
                        c: BuildSlots.Runtime, k: string)
    requires "functions" in db && db["functions"] == map[]
    requires B.Injective(hash) && B.TornIds(hash, blobOps) == {}
    ensures var m := RunScoped(db, maxKey, "functions", ops)["functions"];
            var dir := B.Run(map[], hash, blobOps);
            var funcs := map[] + Rebuilt(m, m.Keys, dir, c, (key, code) => true);
            && SelfKeyed(m)
            && (k in funcs <==>
                  k in m && m[k].r.body.Function? && m[k].r.body.sourceRef != "" && m[k].r.body.sourceRef in dir &&
                  (c == BuildSlots.Firecracker <==> m[k].r.body.runtime == "firecracker"))
            && (k in funcs ==>
                  k == m[k].r.meta.project + "/" + m[k].r.meta.name &&
                  forall data :: data == funcs[k] <==> hash(data) == m[k].r.body.sourceRef)
  {
    ReachableIsSelfKeyed(db, maxKey, "functions", ops);
    B.HonestUnlessTorn(hash, blobOps);
  }

  // ---------- and the builds ----------

  /** The stored functions as the builder's machine sees them. */
  function RecordsOf(m: map<string, Doc>): map<string, BuildSlots.FnRecord> {
    map k | k in m && m[k].Encoded? && m[k].r.body.Function? ::
      BuildSlots.FnRecord(Selected(m[k].r.body.runtime), m[k].r.body.sourceRef)
  }

  function CodeOf(wasm: map<string, string>, fc: map<string, string>): map<(BuildSlots.Runtime, string), string> {
    (map k | k in wasm :: (BuildSlots.Wasm, k) := wasm[k]) + (map k | k in fc :: (BuildSlots.Firecracker, k) := fc[k])
  }

  /** With every deploy accepted. */
  function AllRebuilt(m: map<string, Doc>, dir: B.Dir): map<(BuildSlots.Runtime, string), string> {
    CodeOf(Rebuilt(m, m.Keys, dir, BuildSlots.Wasm, (key, code) => true),
           Rebuilt(m, m.Keys, dir, BuildSlots.Firecracker, (key, code) => true))
  }

  /** The builder's machine after a crash and a restart: no builds, rebuilt
      runtimes, and as stale functions those recorded with a torn blob. */
  function Restarted(r: BuildSlots.State, m: map<string, Doc>): BuildSlots.State {
    BuildSlots.State(map[], [], map[], r.blobs, AllRebuilt(m, r.blobs), r.records, map[],
                     (set fn | fn in r.records && r.records[fn].sourceRef in r.torn), r.torn, {})
  }

  /** A crash at any point of any interleaving of builds, blob writes cut short
      included, even between Deploy and PutFunction or after a failed PutFunction:
      after the restart a record and its runtime agree if and only if its
      SourceRef is not the name of a blob written only in part, and the builder's
      guarantees hold again from there. */
  lemma RestartHeals(s: BuildSlots.State, hash: string -> string, steps: seq<BuildSlots.Step>, m: map<string, Doc>)
    requires BuildSlots.Init(s, hash) && B.Injective(hash)
    requires BuildSlots.Run(s, hash, steps).records == RecordsOf(m)
    ensures var r := BuildSlots.Run(s, hash, steps);
            && BuildSlots.Init(Restarted(r, m), hash)
            && forall fn | fn in r.records && r.records[fn].sourceRef != "" ::
                 BuildSlots.Agrees(Restarted(r, m), hash, fn) <==> r.records[fn].sourceRef !in r.torn
  {
    BuildSlots.Reachable(s, hash, steps);
    var r := BuildSlots.Run(s, hash, steps);
    forall fn | fn in r.records && r.records[fn].sourceRef != ""
      ensures BuildSlots.Agrees(Restarted(r, m), hash, fn) <==> r.records[fn].sourceRef !in r.torn
    {
      RecordRuns(m, r.blobs, fn);
    }
    StartsAgain(Restarted(r, m), hash);
  }

  /** The runtime a record selects runs the blob it names, torn or not. */
  lemma RecordRuns(m: map<string, Doc>, dir: B.Dir, k: string)
    requires k in RecordsOf(m) && RecordsOf(m)[k].sourceRef != "" && RecordsOf(m)[k].sourceRef in dir
    ensures var rec := RecordsOf(m)[k];
            (rec.runtime, k) in AllRebuilt(m, dir) && AllRebuilt(m, dir)[(rec.runtime, k)] == dir[rec.sourceRef]
  {
    var all := (key: string, code: string) => true;
    var c := Selected(m[k].r.body.runtime);
    assert Redeploys(m[k], dir, c, all);
    assert k in Rebuilt(m, m.Keys, dir, c, all) && Rebuilt(m, m.Keys, dir, c, all)[k] == dir[m[k].r.body.sourceRef];
    CodeAt(Rebuilt(m, m.Keys, dir, BuildSlots.Wasm, all), Rebuilt(m, m.Keys, dir, BuildSlots.Firecracker, all), k);
  }

  lemma CodeAt(wasm: map<string, string>, fc: map<string, string>, k: string)
    ensures k in wasm ==> (BuildSlots.Wasm, k) in CodeOf(wasm, fc) && CodeOf(wasm, fc)[(BuildSlots.Wasm, k)] == wasm[k]
    ensures k in fc ==>
      (BuildSlots.Firecracker, k) in CodeOf(wasm, fc) && CodeOf(wasm, fc)[(BuildSlots.Firecracker, k)] == fc[k]
  {
  }

  lemma StartsAgain(s: BuildSlots.State, hash: string -> string)
    requires s.queue == map[] && s.tokens == [] && s.threads == map[] && s.holder == map[]
    requires forall ref :: ref in s.blobs && ref !in s.torn ==> hash(s.blobs[ref]) == ref
    requires B.Injective(hash) ==> forall ref :: ref in s.torn ==> ref in s.blobs && hash(s.blobs[ref]) != ref
    requires forall k :: k in s.records && s.records[k].sourceRef != "" ==> s.records[k].sourceRef in s.blobs
    requires forall k :: k in s.records && BuildSlots.Trusted(s, k) ==> BuildSlots.Agrees(s, hash, k)
    ensures BuildSlots.Init(s, hash)
  {
  }
}
