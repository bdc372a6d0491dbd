/** Concurrent git builds: any number of runBuild goroutines, the channel
    semaphore that serialises them per function, the runtimes they deploy to and
    the function records they write. Every step is one atomic action. */
module BuildSlots {
  import opened Options
  import B = Blobs

  datatype Runtime = Wasm | Firecracker

  /** Where a build goroutine stands. `Waiting` has looked its channel up,
      `Receiving` has looked it up again to release it. */
  datatype PC = Started | Waiting | Building | HasArtifact | Deployed | Releasing | Receiving | Finished

  /** `runtime` is that of the Function value the build was triggered with;
      `chan` is the channel of the last lookup. */
  datatype Thread = Thread(fn: string, runtime: Runtime, pc: PC, chan: nat, artifact: string)

  datatype FnRecord = FnRecord(runtime: Runtime, sourceRef: string)

  /** Four history variables guide no step: `holder` says which goroutine is
      between acquire's send and release's receive, `stale` for which functions
      the last deployed build failed to write the record, `torn` which blobs were
      written only in part, `spoiled` for which functions a failed Deploy was the
      last to touch the Firecracker code. */
  datatype State = State(queue: map<string, nat>, tokens: seq<nat>, threads: map<nat, Thread>,
                         blobs: map<string, string>, code: map<(Runtime, string), string>,
                         records: map<string, FnRecord>, holder: map<string, nat>, stale: set<string>,
                         torn: set<string>, spoiled: set<string>)

  datatype Step =
    | Trigger(id: nat, fn: string, runtime: Runtime)
    | LookUp(id: nat)                        // acquire, under queueMu
    | Send(id: nat)                          // acquire, blocking on a full channel
    | Fail(id: nat)                          // any error before Deploy
    | StoreBlob(id: nat, artifact: string, writing: B.Writing)
    | Deploy(id: nat, writing: B.Writing)
    | PutFunction(id: nat, ok: bool)
    | LookUpAgain(id: nat)                   // release, under queueMu
    | Receive(id: nat)                       // release, blocking on an empty channel

  predicate At(s: State, id: nat, pc: PC) {
    id in s.threads && s.threads[id].pc == pc
  }

  predicate Enabled(s: State, step: Step) {
    match step
    case Trigger(id, fn, rt) => id !in s.threads
    case LookUp(id) => At(s, id, Started)
    case Send(id) => At(s, id, Waiting) && s.threads[id].chan < |s.tokens| && s.tokens[s.threads[id].chan] < 1
    case Fail(id) => At(s, id, Building) || At(s, id, HasArtifact)
    case StoreBlob(id, artifact, _) => At(s, id, Building) && artifact != ""
    case Deploy(id, _) => At(s, id, HasArtifact)
    case PutFunction(id, ok) => At(s, id, Deployed)
    case LookUpAgain(id) => At(s, id, Releasing)
    case Receive(id) => At(s, id, Receiving) && s.threads[id].chan < |s.tokens| && s.tokens[s.threads[id].chan] > 0
  }

  /** The acting goroutine afterwards, and the rest of the state. */
  function Act(s: State, hash: string -> string, step: Step): (State, Thread)
    requires Enabled(s, step)
  {
    match step
    case Trigger(id, fn, rt) => (s, Thread(fn, rt, Started, 0, ""))
    case LookUp(id) =>
      var t := s.threads[id];
      if t.fn in s.queue then (s, t.(pc := Waiting, chan := s.queue[t.fn]))
      else (s.(queue := s.queue[t.fn := |s.tokens|], tokens := s.tokens + [0]), t.(pc := Waiting, chan := |s.tokens|))
    case Send(id) =>
      var t := s.threads[id];
      (s.(tokens := s.tokens[t.chan := s.tokens[t.chan] + 1], holder := s.holder[t.fn := id]), t.(pc := Building))
    case Fail(id) => (s, s.threads[id].(pc := Releasing))
    case StoreBlob(id, artifact, w) =>
      var (ref, t, put) := (hash(artifact), s.threads[id], B.Put(artifact, w));
      (s.(blobs := B.Do(s.blobs, hash, put), torn := if B.Tears(s.blobs, hash, put) then s.torn + {ref} else s.torn),
       if ref in s.blobs || w == B.Whole then t.(pc := HasArtifact, artifact := artifact) else t.(pc := Releasing))
    case Deploy(id, w) =>
      var t := s.threads[id];
      if w == B.Whole then (WithCode(s, t), t.(pc := Deployed)) else (Spoiled(s, t, w), t.(pc := Releasing))
    case PutFunction(id, ok) =>
      var t := s.threads[id];
      (if ok then s.(records := s.records[t.fn := FnRecord(t.runtime, hash(t.artifact))], stale := s.stale - {t.fn})
       else s.(stale := s.stale + {t.fn}), t.(pc := Releasing))
    case LookUpAgain(id) =>
      var t := s.threads[id];
      (s, if t.fn in s.queue then t.(pc := Receiving, chan := s.queue[t.fn]) else t.(pc := Finished))
    case Receive(id) =>
      var t := s.threads[id];
      (s.(tokens := s.tokens[t.chan := s.tokens[t.chan] - 1], holder := s.holder - {t.fn}), t.(pc := Finished))
  }

  /** A Deploy that succeeds. */
  function WithCode(s: State, t: Thread): State {
    s.(code := s.code[(t.runtime, t.fn) := t.artifact],
       spoiled := if t.runtime == Firecracker then s.spoiled - {t.fn} else s.spoiled)
  }

  /** A Deploy that fails: the wasm runtime compiles first and then changes
      nothing, Firecracker writes the code over the old file. */
  function Spoiled(s: State, t: Thread, w: B.Writing): State {
    var file := B.FileAfter(t.artifact, w);
    if t.runtime == Firecracker && file.Some?
    then s.(code := s.code[(Firecracker, t.fn) := file.value], spoiled := s.spoiled + {t.fn})
    else s
  }

  /** A step that is not enabled - a goroutine blocked on it - changes nothing. */
  function Do(s: State, hash: string -> string, step: Step): State {
    if !Enabled(s, step) then s else
    var (s1, t) := Act(s, hash, step);
    s1.(threads := s.threads[step.id := t])
  }

  function Run(s: State, hash: string -> string, steps: seq<Step>): State
    decreases |steps|
  {
    if steps == [] then s else Do(Run(s, hash, steps[..|steps| - 1]), hash, steps[|steps| - 1])
  }

  // ---------- the slot ----------

  /** Between acquire's send and release's receive. */
  predicate Holds(t: Thread) {
    t.pc in {Building, HasArtifact, Deployed, Releasing, Receiving}
  }

  /** Channels belong to one function each and a goroutine in the slot or
      waiting for it knows its function's. */
  ghost predicate ChannelsOk(s: State) {
    && (forall k :: k in s.queue ==> s.queue[k] < |s.tokens|)
    && (forall k, l :: k in s.queue && l in s.queue && s.queue[k] == s.queue[l] ==> k == l)
    && (forall id :: id in s.threads && (Holds(s.threads[id]) || s.threads[id].pc == Waiting) ==>
          s.threads[id].fn in s.queue && s.threads[id].chan == s.queue[s.threads[id].fn])
  }

  /** The holders are exactly the goroutines inside; a held slot's channel has
      one token, a free one's none. */
  ghost predicate SlotsOk(s: State) {
    && (forall id :: id in s.threads ==>
          (Holds(s.threads[id]) <==> s.threads[id].fn in s.holder && s.holder[s.threads[id].fn] == id))
    && (forall k :: k in s.holder ==> k in s.queue && s.holder[k] in s.threads && s.threads[s.holder[k]].fn == k)
    && (forall k :: k in s.queue && s.queue[k] < |s.tokens| ==> s.tokens[s.queue[k]] == if k in s.holder then 1 else 0)
  }

  // ---------- code and record ----------

  /** The blobs that are not torn are honest, the torn ones are not. */
  ghost predicate FilesOk(blobs: B.Dir, torn: set<string>, hash: string -> string) {
    && (forall ref :: ref in blobs && ref !in torn ==> hash(blobs[ref]) == ref)
    && (B.Injective(hash) ==> forall ref :: ref in torn ==> ref in blobs && hash(blobs[ref]) != ref)
  }

  /** What is to be recorded or has been is on disk. */
  ghost predicate RefsOk(s: State, hash: string -> string) {
    && (forall id :: id in s.threads && s.threads[id].pc in {HasArtifact, Deployed} ==>
        hash(s.threads[id].artifact) in s.blobs)
    && (forall fn :: fn in s.records && s.records[fn].sourceRef != "" ==> s.records[fn].sourceRef in s.blobs)
  }

  ghost predicate BlobsOk(s: State, hash: string -> string) {
    FilesOk(s.blobs, s.torn, hash) && RefsOk(s, hash)
  }

  /** The runtime the stored record selects holds the code its SourceRef names. */
  predicate Agrees(s: State, hash: string -> string, fn: string) {
    fn in s.records && s.records[fn].sourceRef != "" ==>
      var key := (s.records[fn].runtime, fn);
      key in s.code && hash(s.code[key]) == s.records[fn].sourceRef
  }

  /** Some build of the function has deployed and not yet written the record. */
  ghost predicate MidUpdate(s: State, fn: string) {
    exists id :: id in s.threads && s.threads[id].pc == Deployed && s.threads[id].fn == fn
  }

  /** MidUpdate seen from the holder. */
  predicate HolderDeployed(s: State, fn: string) {
    fn in s.holder && s.holder[fn] in s.threads && s.threads[s.holder[fn]].pc == Deployed
  }

  /** Neither the last record write nor the last Deploy to the recorded runtime
      failed. */
  predicate Trusted(s: State, fn: string)
    requires fn in s.records
  {
    fn !in s.stale && !(s.records[fn].runtime == Firecracker && fn in s.spoiled)
  }

  ghost predicate CodeOk(s: State, hash: string -> string) {
    && (forall fn :: fn in s.records && Trusted(s, fn) && !HolderDeployed(s, fn) ==> Agrees(s, hash, fn))
    && (forall id :: id in s.threads && s.threads[id].pc == Deployed ==>
          (s.threads[id].runtime, s.threads[id].fn) in s.code &&
          s.code[(s.threads[id].runtime, s.threads[id].fn)] == s.threads[id].artifact)
  }

  ghost predicate Inv(s: State, hash: string -> string) {
    SlotInv(s) && BlobsOk(s, hash) && CodeOk(s, hash)
  }

  /** No build yet; what is deployed matches the records that can be trusted. */
  ghost predicate Init(s: State, hash: string -> string) {
    s.queue == map[] && s.tokens == [] && s.threads == map[] && s.holder == map[] &&
    BlobsOk(s, hash) && forall fn :: fn in s.records && Trusted(s, fn) ==> Agrees(s, hash, fn)
  }

  ghost predicate SlotInv(s: State) {
    ChannelsOk(s) && SlotsOk(s)
  }

  /** Moves that leave queue, channels and holders alone. */
  lemma PlainMove(s: State, s1: State, id: nat, t: Thread)
    requires SlotInv(s)
    requires s1.queue == s.queue && s1.tokens == s.tokens && s1.holder == s.holder && s1.threads == s.threads[id := t]
    requires if id in s.threads then t.fn == s.threads[id].fn && (Holds(t) <==> Holds(s.threads[id])) else !Holds(t)
    requires Holds(t) || t.pc == Waiting ==> t.fn in s.queue && t.chan == s.queue[t.fn]
    ensures SlotInv(s1)
  {
  }

  lemma LookUpMove(s: State, hash: string -> string, id: nat)
    requires SlotInv(s) && Enabled(s, LookUp(id)) && s.threads[id].fn !in s.queue
    ensures SlotInv(Do(s, hash, LookUp(id)))
  {
    assert s.threads[id].fn !in s.holder;
  }

  lemma SlotTaken(s: State, s': State, id: nat, t: Thread)
    requires SlotsOk(s) && id in s.threads && t == s.threads[id] && !Holds(t) && t.fn in s.queue && t.fn !in s.holder
    requires s'.holder == s.holder[t.fn := id] && s'.queue == s.queue &&
      s'.threads == s.threads[id := t.(pc := Building)]
    requires |s'.tokens| == |s.tokens|
    requires forall k :: k in s.queue && s.queue[k] < |s.tokens| ==>
      s'.tokens[s.queue[k]] == if k == t.fn then 1 else s.tokens[s.queue[k]]
    ensures SlotsOk(s')
  {
  }

  lemma SendMove(s: State, hash: string -> string, id: nat)
    requires SlotInv(s) && Enabled(s, Send(id))
    ensures SlotInv(Do(s, hash, Send(id)))
  {
    var t, s' := s.threads[id], Do(s, hash, Send(id));
    assert t.fn !in s.holder;
    assert s'.holder == s.holder[t.fn := id] && s'.queue == s.queue &&
           s'.threads == s.threads[id := t.(pc := Building)];
    assert forall k :: k in s.queue && k != t.fn ==> s'.tokens[s.queue[k]] == s.tokens[s.queue[k]];
    assert ChannelsOk(s');
    SlotTaken(s, s', id, t);
  }

  lemma ReceiveMove(s: State, hash: string -> string, id: nat)
    requires SlotInv(s) && Enabled(s, Receive(id))
    ensures SlotInv(Do(s, hash, Receive(id)))
  {
    var t, s' := s.threads[id], Do(s, hash, Receive(id));
    assert s.holder[t.fn] == id;
    assert s'.holder == s.holder - {t.fn} && s'.queue == s.queue && s'.threads == s.threads[id := t.(pc := Finished)];
    assert forall k :: k in s.queue && k != t.fn ==> s'.tokens[s.queue[k]] == s.tokens[s.queue[k]];
    assert ChannelsOk(s');
    SlotFreed(s, s', id, t);
  }

  lemma SlotFreed(s: State, s': State, id: nat, t: Thread)
    requires SlotsOk(s) && id in s.threads && t == s.threads[id] && Holds(t) && t.fn in s.queue
    requires s'.holder == s.holder - {t.fn} && s'.queue == s.queue && s'.threads == s.threads[id := t.(pc := Finished)]
    requires |s'.tokens| == |s.tokens|
    requires forall k :: k in s.queue && s.queue[k] < |s.tokens| ==>
      s'.tokens[s.queue[k]] == if k == t.fn then 0 else s.tokens[s.queue[k]]
    ensures SlotsOk(s')
  {
  }

  lemma SlotStep(s: State, hash: string -> string, step: Step)
    requires SlotInv(s)
    ensures SlotInv(Do(s, hash, step))
  {
    if Enabled(s, step) {
      if step.Send? {
        SendMove(s, hash, step.id);
      } else if step.Receive? {
        ReceiveMove(s, hash, step.id);
      } else if step.LookUp? && s.threads[step.id].fn !in s.queue {
        LookUpMove(s, hash, step.id);
      } else {
        PlainAct(s, hash, step);
        PlainMove(s, Do(s, hash, step), step.id, Act(s, hash, step).1);
      }
    }
  }

  /** Everything but a send, a receive and the first lookup of a function. */
  lemma PlainAct(s: State, hash: string -> string, step: Step)
    requires Enabled(s, step) && !step.Send? && !step.Receive?
    requires step.LookUp? ==> s.threads[step.id].fn in s.queue
    requires step.id in s.threads && (Holds(s.threads[step.id]) || s.threads[step.id].pc == Waiting) ==>
      s.threads[step.id].fn in s.queue && s.threads[step.id].chan == s.queue[s.threads[step.id].fn]
    ensures var (s1, t) := Act(s, hash, step);
            && s1.queue == s.queue && s1.tokens == s.tokens && s1.holder == s.holder && s1.threads == s.threads
            && (if step.id in s.threads then
                  t.fn == s.threads[step.id].fn && (Holds(t) <==> Holds(s.threads[step.id]))
                else !Holds(t))
            && (Holds(t) || t.pc == Waiting ==> t.fn in s.queue && t.chan == s.queue[t.fn])
  {
  }

  lemma BlobStep(s: State, hash: string -> string, step: Step)
    requires BlobsOk(s, hash)
    ensures BlobsOk(Do(s, hash, step), hash)
  {
    if Enabled(s, step) {
      if step.StoreBlob? {
        StoreKeepsFiles(s.blobs, s.torn, hash, step.artifact, step.writing);
        StoreKeepsRefs(s, hash, step);
      } else {
        BlobAct(s, hash, step);
        OthersKeepRefs(s, hash, step);
      }
    }
  }

  lemma StoreKeepsFiles(blobs: B.Dir, torn: set<string>, hash: string -> string, data: string, w: B.Writing)
    requires FilesOk(blobs, torn, hash)
    ensures FilesOk(B.Do(blobs, hash, B.Put(data, w)),
                    if B.Tears(blobs, hash, B.Put(data, w)) then torn + {hash(data)} else torn, hash)
  {
    if B.Tears(blobs, hash, B.Put(data, w)) {
      assert |data[..w.bytes]| != |data|;
    }
  }

  lemma StoreKeepsRefs(s: State, hash: string -> string, step: Step)
    requires RefsOk(s, hash) && Enabled(s, step) && step.StoreBlob?
    ensures RefsOk(Do(s, hash, step), hash)
  {
  }

  lemma OthersKeepRefs(s: State, hash: string -> string, step: Step)
    requires RefsOk(s, hash) && Enabled(s, step) && !step.StoreBlob?
    ensures RefsOk(Do(s, hash, step), hash)
  {
    BlobAct(s, hash, step);
  }

  lemma BlobAct(s: State, hash: string -> string, step: Step)
    requires Enabled(s, step) && !step.StoreBlob?
    requires step.id in s.threads && s.threads[step.id].pc in {HasArtifact, Deployed} ==>
      hash(s.threads[step.id].artifact) in s.blobs
    ensures var (s1, t) := Act(s, hash, step);
            && s1.blobs == s.blobs && s1.torn == s.torn && s1.threads == s.threads
            && (t.pc in {HasArtifact, Deployed} ==> hash(t.artifact) in s.blobs)
            && (forall fn :: fn in s1.records ==>
                (fn in s.records && s1.records[fn] == s.records[fn]) || s1.records[fn].sourceRef in s.blobs)
  {
  }

  /** Moves of a goroutine that neither deploys nor records. */
  lemma QuietMove(s: State, s': State, hash: string -> string, id: nat, t: Thread)
    requires CodeOk(s, hash)
    requires s'.code == s.code && s'.records == s.records && s'.stale == s.stale && s'.spoiled == s.spoiled
    requires s'.threads == s.threads[id := t] && t.pc != Deployed
    requires forall fn :: HolderDeployed(s, fn) ==> HolderDeployed(s', fn)
    ensures CodeOk(s', hash)
  {
  }

  lemma DeployMove(s: State, hash: string -> string, id: nat)
    requires SlotInv(s) && CodeOk(s, hash) && Enabled(s, Deploy(id, B.Whole))
    ensures CodeOk(Do(s, hash, Deploy(id, B.Whole)), hash)
  {
    var s' := Do(s, hash, Deploy(id, B.Whole));
    assert HolderDeployed(s', s.threads[id].fn);
    assert forall fn :: HolderDeployed(s, fn) ==> HolderDeployed(s', fn);
  }

  lemma SpoilMove(s: State, hash: string -> string, id: nat, w: B.Writing)
    requires SlotInv(s) && CodeOk(s, hash) && Enabled(s, Deploy(id, w)) && w != B.Whole
    ensures CodeOk(Do(s, hash, Deploy(id, w)), hash)
  {
    AloneInside(s, id);
    DeployedStay(s, hash, Deploy(id, w));
    SpoilDoes(s, hash, id, w);
    SpoilKeepsCode(s, Do(s, hash, Deploy(id, w)), hash, id, s.threads[id].(pc := Releasing), w);
  }

  lemma AloneInside(s: State, id: nat)
    requires SlotInv(s) && At(s, id, HasArtifact)
    ensures !HolderDeployed(s, s.threads[id].fn)
    ensures forall o :: o in s.threads && s.threads[o].pc == Deployed ==> s.threads[o].fn != s.threads[id].fn
  {
    assert s.holder[s.threads[id].fn] == id;
  }

  lemma DeployedStay(s: State, hash: string -> string, step: Step)
    requires SlotInv(s) && Enabled(s, step) && !step.PutFunction?
    ensures forall fn :: HolderDeployed(s, fn) ==> HolderDeployed(Do(s, hash, step), fn)
  {
    forall fn | HolderDeployed(s, fn) ensures HolderDeployed(Do(s, hash, step), fn) { OthersStay(s, hash, step, fn); }
  }

  lemma SpoilDoes(s: State, hash: string -> string, id: nat, w: B.Writing)
    requires Enabled(s, Deploy(id, w)) && w != B.Whole
    ensures var (s', t) := (Do(s, hash, Deploy(id, w)), s.threads[id].(pc := Releasing));
            var p := Spoiled(s, t, w);
            && s'.code == p.code && s'.records == p.records && s'.stale == p.stale && s'.spoiled == p.spoiled
            && s'.threads == s.threads[id := t]
  {
  }

  lemma SpoilKeepsCode(s: State, s': State, hash: string -> string, id: nat, t: Thread, w: B.Writing)
    requires CodeOk(s, hash) && !HolderDeployed(s, t.fn) && t.pc == Releasing
    requires forall o :: o in s.threads && s.threads[o].pc == Deployed ==> s.threads[o].fn != t.fn
    requires forall fn :: HolderDeployed(s, fn) ==> HolderDeployed(s', fn)
    requires var p := Spoiled(s, t, w);
             s'.code == p.code && s'.records == p.records && s'.stale == p.stale && s'.spoiled == p.spoiled
    requires s'.threads == s.threads[id := t]
    ensures CodeOk(s', hash)
  {
    forall fn | fn in s'.records && Trusted(s', fn) && !HolderDeployed(s', fn) ensures Agrees(s', hash, fn) {
      assert Trusted(s, fn) && !HolderDeployed(s, fn);
      assert Agrees(s, hash, fn);
    }
  }

  lemma PutMove(s: State, hash: string -> string, id: nat, ok: bool)
    requires SlotInv(s) && CodeOk(s, hash) && Enabled(s, PutFunction(id, ok))
    ensures CodeOk(Do(s, hash, PutFunction(id, ok)), hash)
  {
    var s' := Do(s, hash, PutFunction(id, ok));
    assert forall fn :: fn != s.threads[id].fn && HolderDeployed(s, fn) ==> HolderDeployed(s', fn);
  }

  lemma CodeStep(s: State, hash: string -> string, step: Step)
    requires SlotInv(s) && CodeOk(s, hash)
    ensures CodeOk(Do(s, hash, step), hash)
  {
    if Enabled(s, step) {
      if step.Deploy? && step.writing == B.Whole {
        DeployMove(s, hash, step.id);
      } else if step.Deploy? {
        SpoilMove(s, hash, step.id, step.writing);
      } else if step.PutFunction? {
        PutMove(s, hash, step.id, step.ok);
      } else {
        QuietStep(s, hash, step);
      }
    }
  }

  lemma QuietStep(s: State, hash: string -> string, step: Step)
    requires SlotInv(s) && CodeOk(s, hash) && Enabled(s, step) && !step.PutFunction? && !step.Deploy?
    ensures CodeOk(Do(s, hash, step), hash)
  {
    DeployedStay(s, hash, step);
    QuietMove(s, Do(s, hash, step), hash, step.id, Act(s, hash, step).1);
  }

  lemma OthersStay(s: State, hash: string -> string, step: Step, fn: string)
    requires SlotInv(s) && Enabled(s, step) && !step.PutFunction? && HolderDeployed(s, fn)
    ensures HolderDeployed(Do(s, hash, step), fn)
  {
    assert step.id != s.holder[fn];
    OthersThreadStays(s, hash, step, s.holder[fn]);
    HolderStays(s, hash, step, fn);
  }

  lemma OthersThreadStays(s: State, hash: string -> string, step: Step, o: nat)
    requires Enabled(s, step) && o in s.threads && step.id != o
    ensures o in Do(s, hash, step).threads && Do(s, hash, step).threads[o] == s.threads[o]
  {
  }

  lemma HolderStays(s: State, hash: string -> string, step: Step, fn: string)
    requires SlotInv(s) && Enabled(s, step) && fn in s.holder && step.id != s.holder[fn]
    ensures var holder := Act(s, hash, step).0.holder; fn in holder && holder[fn] == s.holder[fn]
  {
    match step
    case Send(id) => assert s.threads[id].fn !in s.holder;
    case Receive(id) => assert s.holder[s.threads[id].fn] == id;
    case _ =>
  }

  lemma {:induction false} Reachable(s: State, hash: string -> string, steps: seq<Step>)
    requires Init(s, hash)
    ensures Inv(Run(s, hash, steps), hash)
    decreases |steps|
  {
    if steps != [] {
      var before := Run(s, hash, steps[..|steps| - 1]);
      Reachable(s, hash, steps[..|steps| - 1]);
      SlotStep(before, hash, steps[|steps| - 1]);
      BlobStep(before, hash, steps[|steps| - 1]);
      CodeStep(before, hash, steps[|steps| - 1]);
    }
  }

  /** In every interleaving at most one build of a function is between acquire
      and release. */
  lemma OneBuildPerFunction(s: State, hash: string -> string, steps: seq<Step>, a: nat, b: nat)
    requires Init(s, hash)
    requires var r := Run(s, hash, steps);
             a in r.threads && b in r.threads && Holds(r.threads[a]) && Holds(r.threads[b]) &&
               r.threads[a].fn == r.threads[b].fn
    ensures a == b
  {
    Reachable(s, hash, steps);
  }

  /** release never blocks, and acquire blocks only while another build of the
      same function is inside. */
  lemma OnlyHoldersBlock(s: State, hash: string -> string, steps: seq<Step>, id: nat)
    requires Init(s, hash)
    requires id in Run(s, hash, steps).threads
    ensures var r := Run(s, hash, steps);
            && (r.threads[id].pc == Receiving ==> Enabled(r, Receive(id)))
            && (r.threads[id].pc == Waiting ==>
                  (Enabled(r, Send(id)) <==>
                   !exists o :: o in r.threads && Holds(r.threads[o]) && r.threads[o].fn == r.threads[id].fn))
  {
    Reachable(s, hash, steps);
    var r := Run(s, hash, steps);
    var t := r.threads[id];
    if t.fn in r.holder {
      assert Holds(r.threads[r.holder[t.fn]]);
    }
  }

  /** No deadlock: while any build is unfinished, some build can move. */
  lemma SomeBuildCanMove(s: State, hash: string -> string, steps: seq<Step>, id: nat)
    requires Init(s, hash)
    requires var r := Run(s, hash, steps); id in r.threads && r.threads[id].pc != Finished
    ensures exists step: Step :: !step.Trigger? && Enabled(Run(s, hash, steps), step)
  {
    var r := Run(s, hash, steps);
    OnlyHoldersBlock(s, hash, steps, id);
    if r.threads[id].pc == Waiting && !Enabled(r, Send(id)) {
      var o :| o in r.threads && Holds(r.threads[o]) && r.threads[o].fn == r.threads[id].fn;
      OnlyHoldersBlock(s, hash, steps, o);
      NonWaitingMoves(r, o);
    } else {
      NonWaitingMoves(r, id);
    }
  }

  lemma NonWaitingMoves(r: State, id: nat)
    requires id in r.threads && r.threads[id].pc != Finished
    requires r.threads[id].pc == Waiting ==> Enabled(r, Send(id))
    requires r.threads[id].pc == Receiving ==> Enabled(r, Receive(id))
    ensures exists step: Step :: !step.Trigger? && Enabled(r, step)
  {
    var step := match r.threads[id].pc
      case Started => LookUp(id)
      case Waiting => Send(id)
      case Building => Fail(id)
      case HasArtifact => Deploy(id, B.Whole)
      case Deployed => PutFunction(id, true)
      case Releasing => LookUpAgain(id)
      case _ => Receive(id);
    assert Enabled(r, step);
  }

  /** Deploy and record stay together: in every interleaving, whenever no build
      of a function is between Deploy and PutFunction, its last PutFunction
      succeeded and no failed Deploy has touched its code since, the runtime the
      record selects holds exactly the code its SourceRef names. The blob store
      has a file of that name too, which holds that code if and only if it was
      not written in part. */
  lemma RecordMatchesRuntime(s: State, hash: string -> string, steps: seq<Step>, fn: string)
    requires Init(s, hash)
    requires var r := Run(s, hash, steps);
             fn in r.records && r.records[fn].sourceRef != "" && Trusted(r, fn) && !MidUpdate(r, fn)
    ensures var r := Run(s, hash, steps);
            var rec := r.records[fn];
            && (rec.runtime, fn) in r.code && hash(r.code[(rec.runtime, fn)]) == rec.sourceRef
            && rec.sourceRef in r.blobs
            && (B.Injective(hash) ==>
                (r.blobs[rec.sourceRef] == r.code[(rec.runtime, fn)] <==> rec.sourceRef !in r.torn))
  {
    Reachable(s, hash, steps);
    var r := Run(s, hash, steps);
    assert !HolderDeployed(r, fn);
    assert Agrees(r, hash, fn);
  }

  lemma {:induction false} RunSplits(s: State, hash: string -> string, a: seq<Step>, b: seq<Step>)
    ensures Run(s, hash, a + b) == Run(Run(s, hash, a), hash, b)
    decreases |b|
  {
    if b == [] {
      assert a + b == a;
    } else {
      RunSplits(s, hash, a, b[..|b| - 1]);
      assert (a + b)[..|a + b| - 1] == a + b[..|b| - 1];
    }
  }

  lemma RunOne(s: State, hash: string -> string, step: Step)
    ensures Run(s, hash, [step]) == Do(s, hash, step)
  {
    assert [step][..0] == [] && Run(s, hash, []) == s;
  }

  /** What one function's record and code are. */
  function Placed(s: State, fn: string): (Option<FnRecord>, Option<string>, Option<string>) {
    (if fn in s.records then Some(s.records[fn]) else None,
     if (Wasm, fn) in s.code then Some(s.code[(Wasm, fn)]) else None,
     if (Firecracker, fn) in s.code then Some(s.code[(Firecracker, fn)]) else None)
  }

  /** While one build is inside, the steps of others leave its function alone. */
  lemma OthersLeave(s: State, hash: string -> string, id: nat, step: Step)
    requires SlotInv(s) && id in s.threads && Holds(s.threads[id]) && step.id != id
    ensures var s' := Do(s, hash, step);
            id in s'.threads && s'.threads[id] == s.threads[id] &&
              Placed(s', s.threads[id].fn) == Placed(s, s.threads[id].fn)
  {
    if Enabled(s, step) {
      OneHolder(s, id, step.id);
      ActPlaces(s, hash, step, s.threads[id].fn);
      OnlyActorMoves(s, hash, step, id);
    }
  }

  lemma OnlyActorMoves(s: State, hash: string -> string, step: Step, id: nat)
    requires Enabled(s, step) && id in s.threads && step.id != id
    ensures var s' := Do(s, hash, step);
            id in s'.threads && s'.threads[id] == s.threads[id] &&
              Placed(s', s.threads[id].fn) == Placed(Act(s, hash, step).0, s.threads[id].fn)
  {
  }

  lemma OneHolder(s: State, a: nat, b: nat)
    requires SlotsOk(s) && a in s.threads && Holds(s.threads[a]) && a != b
    ensures b in s.threads && Holds(s.threads[b]) ==> s.threads[b].fn != s.threads[a].fn
  {
  }

  lemma CodeElsewhere(s: State, t: Thread, w: B.Writing, fn: string)
    requires t.fn != fn
    ensures Placed(WithCode(s, t), fn) == Placed(s, fn) == Placed(Spoiled(s, t, w), fn)
  {
  }

  lemma ActPlaces(s: State, hash: string -> string, step: Step, fn: string)
    requires Enabled(s, step) && (step.Deploy? || step.PutFunction? ==> s.threads[step.id].fn != fn)
    ensures Placed(Act(s, hash, step).0, fn) == Placed(s, fn)
  {
    var s1 := Act(s, hash, step).0;
    match step
    case Deploy(id, w) => CodeElsewhere(s, s.threads[id], w, fn);
    case PutFunction(_, _) => assert s1.code == s.code;
    case _ => assert s1.code == s.code && s1.records == s.records;
  }

  lemma {:induction false} OthersLeaveAll(s: State, hash: string -> string, id: nat, steps: seq<Step>)
    requires SlotInv(s) && id in s.threads && Holds(s.threads[id])
    requires forall step :: step in steps ==> step.id != id
    ensures var s' := Run(s, hash, steps);
            SlotInv(s') && id in s'.threads && s'.threads[id] == s.threads[id] &&
            Placed(s', s.threads[id].fn) == Placed(s, s.threads[id].fn)
    decreases |steps|
  {
    if steps != [] {
      var before := Run(s, hash, steps[..|steps| - 1]);
      OthersLeaveAll(s, hash, id, steps[..|steps| - 1]);
      OthersLeave(before, hash, id, steps[|steps| - 1]);
      SlotStep(before, hash, steps[|steps| - 1]);
    }
  }

  /** A failed Deploy ends the build. It leaves a record in agreement exactly when
      it was before, unless it wrote over the recorded Firecracker code: then
      exactly when what it wrote has the recorded hash. */
  lemma FailedDeployLeaves(s: State, hash: string -> string, id: nat, w: B.Writing)
    requires At(s, id, HasArtifact) && w != B.Whole
    requires s.threads[id].fn in s.records && s.records[s.threads[id].fn].sourceRef != ""
    ensures var t, rec := s.threads[id], s.records[s.threads[id].fn];
            var (s', file) := (Do(s, hash, Deploy(id, w)), B.FileAfter(t.artifact, w));
            && s'.records == s.records
            && (Agrees(s', hash, t.fn) <==>
                  if t.runtime == rec.runtime == Firecracker && file.Some? then hash(file.value) == rec.sourceRef
                  else Agrees(s, hash, t.fn))
  {
  }

  /** A failed PutFunction is only logged. In every run, whatever other builds do
      between its Deploy and its PutFunction, the old record agrees afterwards
      exactly when the deployed code has the recorded hash, or, if the build
      deployed to another runtime, when it agreed before. */
  lemma FailedPutLeaves(s: State, hash: string -> string, before: seq<Step>, id: nat, between: seq<Step>)
    requires Init(s, hash) && forall step :: step in between ==> step.id != id
    requires var r := Run(s, hash, before);
             At(r, id, HasArtifact) && r.threads[id].fn in r.records && r.records[r.threads[id].fn].sourceRef != ""
    ensures var r := Run(s, hash, before);
            var t, rec := r.threads[id], r.records[r.threads[id].fn];
            var r' := Run(s, hash, before + [Deploy(id, B.Whole)] + between + [PutFunction(id, false)]);
            && t.fn in r'.records && r'.records[t.fn] == rec
            && (Agrees(r', hash, t.fn) <==>
                  if t.runtime == rec.runtime then hash(t.artifact) == rec.sourceRef else Agrees(r, hash, t.fn))
  {
    Reachable(s, hash, before);
    RunsOn(s, hash, before, Deploy(id, B.Whole), between, PutFunction(id, false));
    FailedPutFrom(Run(s, hash, before), hash, id, between);
  }

  lemma FailedPutFrom(r: State, hash: string -> string, id: nat, between: seq<Step>)
    requires SlotInv(r) && At(r, id, HasArtifact) && forall step :: step in between ==> step.id != id
    requires var fn := r.threads[id].fn; fn in r.records && r.records[fn].sourceRef != ""
    ensures var t, rec := r.threads[id], r.records[r.threads[id].fn];
            var r' := Do(Run(Do(r, hash, Deploy(id, B.Whole)), hash, between), hash, PutFunction(id, false));
            && t.fn in r'.records && r'.records[t.fn] == rec
            && (Agrees(r', hash, t.fn) <==>
                  if t.runtime == rec.runtime then hash(t.artifact) == rec.sourceRef else Agrees(r, hash, t.fn))
  {
    var r1 := Do(r, hash, Deploy(id, B.Whole));
    DeployPlaces(r, hash, id);
    OthersLeaveAll(r1, hash, id, between);
    var r2 := Run(r1, hash, between);
    FailedPutPlaces(r2, hash, id);
    FailedPutAgrees(r, r2, Do(r2, hash, PutFunction(id, false)), hash, r.threads[id]);
  }

  lemma DeployPlaces(r: State, hash: string -> string, id: nat)
    requires SlotInv(r) && At(r, id, HasArtifact)
    ensures var (r1, t) := (Do(r, hash, Deploy(id, B.Whole)), r.threads[id]);
            && SlotInv(r1) && id in r1.threads && r1.threads[id] == t.(pc := Deployed)
            && Placed(r1, t.fn) == Placed(r.(code := r.code[(t.runtime, t.fn) := t.artifact]), t.fn)
  {
    SlotStep(r, hash, Deploy(id, B.Whole));
  }

  lemma FailedPutPlaces(r: State, hash: string -> string, id: nat)
    requires At(r, id, Deployed)
    ensures var r' := Do(r, hash, PutFunction(id, false)); r'.records == r.records && r'.code == r.code
  {
  }

  lemma RunsOn(s: State, hash: string -> string, before: seq<Step>, x: Step, between: seq<Step>, y: Step)
    ensures Run(s, hash, before + [x] + between + [y]) ==
      Do(Run(Do(Run(s, hash, before), hash, x), hash, between), hash, y)
  {
    RunSplits(s, hash, before, [x]);
    RunOne(Run(s, hash, before), hash, x);
    RunSplits(s, hash, before + [x], between);
    RunSplits(s, hash, before + [x] + between, [y]);
    RunOne(Run(s, hash, before + [x] + between), hash, y);
  }

  lemma FailedPutAgrees(r: State, r2: State, r3: State, hash: string -> string, t: Thread)
    requires t.fn in r.records && r.records[t.fn].sourceRef != ""
    requires Placed(r2, t.fn) == Placed(r.(code := r.code[(t.runtime, t.fn) := t.artifact]), t.fn)
    requires r3.records == r2.records && r3.code == r2.code
    ensures var rec := r.records[t.fn];
            && t.fn in r3.records && r3.records[t.fn] == rec
            && (Agrees(r3, hash, t.fn) <==>
                  if t.runtime == rec.runtime then hash(t.artifact) == rec.sourceRef else Agrees(r, hash, t.fn))
  {
  }

  /** A blob written in part can get into a record: one build's write of `x` is
      cut short, another's finds the file and goes on. */
  lemma TornBlobIsRecorded(hash: string -> string, x: string, n: nat)
    requires n < |x|
    ensures exists steps ::
              var r := Run(EMPTY, hash, steps);
              "g" in r.records && r.records["g"].sourceRef == hash(x) && hash(x) in r.torn &&
              hash(x) in r.blobs && r.blobs[hash(x)] != x
  {
    var a := TornFirst(hash, x, n);
    var s1 := Run(EMPTY, hash, a);
    var b := Begun(s1, hash, 1, "g");
    RunSplits(EMPTY, hash, a, b);
    var s2 := Run(s1, hash, b);
    var c := Completed(s2, hash, 1, x);
    RunSplits(EMPTY, hash, a + b, c);
    assert |x[..n]| != |x|;
    var r := Run(EMPTY, hash, a + b + c);
    assert "g" in r.records && r.records["g"].sourceRef == hash(x) && r.torn == s1.torn && r.blobs == s1.blobs;
  }

  lemma TornFirst(hash: string -> string, x: string, n: nat) returns (steps: seq<Step>)
    requires n < |x|
    ensures var s := Run(EMPTY, hash, steps);
            && hash(x) in s.torn && hash(x) in s.blobs && s.blobs[hash(x)] == x[..n]
            && 1 !in s.threads && "g" !in s.queue
  {
    var a := Begun(EMPTY, hash, 0, "f");
    var s1 := Run(EMPTY, hash, a);
    var b := StoreBlob(0, x, B.Torn(n));
    steps := a + [b];
    RunOne(s1, hash, b);
    RunSplits(EMPTY, hash, a, [b]);
    assert "g" !in s1.queue.Keys;
  }

  /** A build whose artifact is on disk under its name already goes through. */
  lemma Completed(s: State, hash: string -> string, id: nat, x: string) returns (steps: seq<Step>)
    requires At(s, id, Building) && hash(x) in s.blobs && x != ""
    ensures var s' := Run(s, hash, steps);
            && s.threads[id].fn in s'.records && s'.records[s.threads[id].fn].sourceRef == hash(x)
            && s'.blobs == s.blobs && s'.torn == s.torn
  {
    var put, deploy, record := StoreBlob(id, x, B.Whole), Deploy(id, B.Whole), PutFunction(id, true);
    steps := [put] + [deploy] + [record];
    var s1 := Do(s, hash, put);
    var s2 := Do(s1, hash, deploy);
    RunOne(s, hash, put);
    RunOne(s1, hash, deploy);
    RunOne(s2, hash, record);
    RunSplits(s, hash, [put], [deploy]);
    RunSplits(s, hash, [put] + [deploy], [record]);
  }

  const EMPTY := State(map[], [], map[], map[], map[], map[], map[], {}, {}, {})

  /** A new build of a function nobody builds gets into its slot. */
  lemma Begun(s: State, hash: string -> string, id: nat, fn: string) returns (steps: seq<Step>)
    requires id !in s.threads && fn !in s.queue
    ensures var s' := Run(s, hash, steps);
            && At(s', id, Building) && s'.threads[id].fn == fn
            && s'.threads.Keys == s.threads.Keys + {id} && s'.queue.Keys == s.queue.Keys + {fn}
            && s'.blobs == s.blobs && s'.torn == s.torn && s'.records == s.records
  {
    steps := [Trigger(id, fn, Wasm)] + [LookUp(id)] + [Send(id)];
    var s1 := Do(s, hash, Trigger(id, fn, Wasm));
    var s2 := Do(s1, hash, LookUp(id));
    RunOne(s, hash, Trigger(id, fn, Wasm));
    RunOne(s1, hash, LookUp(id));
    RunOne(s2, hash, Send(id));
    RunSplits(s, hash, [Trigger(id, fn, Wasm)], [LookUp(id)]);
    RunSplits(s, hash, [Trigger(id, fn, Wasm)] + [LookUp(id)], [Send(id)]);
  }
}
