/** One pass of the container reconciler as a function of what it reads: its
    retry state, the stored container, the clock, the liveness probe, the
    secrets and the outcome of Start. */
module Containers {
  import opened Numerals
  import opened Options
  import opened Records
  import opened Stores

  const SECOND: int := 1_000_000_000

  datatype Phase = NoPhase | Pending | Running | Failed | Succeeded | Stopped

  datatype RestartPolicy = Unset | Never | OnFailure | Always

  function PolicyName(p: RestartPolicy): string {
    match p case Unset => "" case Never => "Never" case OnFailure => "OnFailure" case Always => "Always"
  }

  predicate ShouldRestart(p: RestartPolicy) {
    p == Always || p == OnFailure
  }

  /** `runtime` stands for the fields only the runtime fills in. */
  datatype Status = Status(phase: Phase, message: string, updatedAt: Instant, runtime: string)

  datatype SecretMount = SecretMount(secret: string, envName: string, mountPath: string)

  type Vars = map<string, string>

  /** `spec` stands for the image, command, ports, volumes and limits. */
  datatype Container = Container(meta: Meta, spec: string, env: Option<Vars>, mounts: seq<SecretMount>,
                                 policy: RestartPolicy, nodeID: string, status: Status)

  /** The reconciler's memory of one container; the zero value when new. */
  datatype RState = RState(lastAttempt: int, nextAttempt: int, lastAliveCheck: int, attempts: nat, lastGen: int,
                           startedOK: bool)

  const NEVER: int := -62_135_596_800 * SECOND
  const FRESH := RState(NEVER, NEVER, NEVER, 0, 0, false)

  datatype Probe = Alive | Gone | ProbeError | NoHook
  datatype StartResult = Started(message: string, at: Instant, runtime: string) | StartFailed(message: string)

  /** Plaintexts by (project, secret); a missing entry cannot be revealed. */
  type Vault = map<(string, string), string>

  /** What one pass finds. Without a resolver the vault is None. */
  datatype Surroundings = Surroundings(now: int, probe: Probe, start: StartResult, vault: Option<Vault>, mint: Mint)

  datatype BusEvent = CrashEvent(name: string, error: string, attempts: nat) | StartEvent(name: string)

  // ---------- secrets ----------

  predicate IsRef(v: string) {
    "secret://" <= v
  }

  function FirstSlash(s: string): nat {
    if s == "" || s[0] == '/' then 0 else 1 + FirstSlash(s[1..])
  }

  /** Which secret a `secret://` value names. */
  function Target(project: string, v: string): (string, string)
    requires IsRef(v)
  {
    var ref := v[|"secret://"|..];
    var i := FirstSlash(ref);
    if 0 < i < |ref| then (ref[..i], ref[i + 1..]) else (project, ref)
  }

  predicate Resolvable(project: string, vault: Vault, v: string) {
    IsRef(v) ==> Target(project, v) in vault
  }

  function ResolvedValue(project: string, vault: Vault, v: string): string
    requires Resolvable(project, vault, v)
  {
    if IsRef(v) then vault[Target(project, v)] else v
  }

  predicate AllResolvable(project: string, vault: Vault, env: Vars) {
    forall k :: k in env ==> Resolvable(project, vault, env[k])
  }

  function ResolvedVars(project: string, vault: Vault, env: Vars): Vars
    requires AllResolvable(project, vault, env)
  {
    map k | k in env :: ResolvedValue(project, vault, env[k])
  }

  /** The env-mode secret mounts, written over `env` in order. */
  function Injected(env: Vars, project: string, vault: Vault, mounts: seq<SecretMount>): Vars {
    if mounts == [] then env else
    var base, sm := Injected(env, project, vault, mounts[..|mounts| - 1]), mounts[|mounts| - 1];
    if sm.envName == "" || (project, sm.secret) !in vault then base
    else base[sm.envName := vault[(project, sm.secret)]]
  }

  /** Whether the working copy shares the container's own Env map when the
      mounts are injected: nothing was resolved into a new map. */
  predicate Shares(c: Container, vault: Vault) {
    c.env.Some? && (|c.env.value| == 0 || !AllResolvable(c.meta.project, vault, c.env.value))
  }

  /** The container's own Env after the secrets were materialised. */
  function EnvAfterSecrets(c: Container, vault: Option<Vault>): Option<Vars> {
    if vault.Some? && Shares(c, vault.value)
    then Some(Injected(c.env.value, c.meta.project, vault.value, c.mounts))
    else c.env
  }

  /** The Env handed to Start. */
  function WorkingEnv(c: Container, vault: Option<Vault>): Option<Vars> {
    if vault.None? then c.env else
    var v := vault.value;
    var base := if c.env.None? then map[]
                else if AllResolvable(c.meta.project, v, c.env.value) then ResolvedVars(c.meta.project, v, c.env.value)
                else c.env.value;
    Some(Injected(base, c.meta.project, v, c.mounts))
  }

  // ---------- backoff ----------

  /** Five seconds doubling with every further failure, at most five minutes. */
  function Backoff(failures: nat): int
    requires failures > 0
  {
    var d := 5 * Pow2(failures - 1);
    (if d < 300 then d else 300) * SECOND
  }

  // ---------- one pass ----------

  /** The container and memory a pass leaves behind; whether PutContainer
      stored it, whether Start ran, and the bus events. `touched` tells
      whether the memory was looked up at all. */
  datatype PassResult = PassResult(st: RState, c: Container, put: bool, started: bool, events: seq<BusEvent>,
                                   touched: bool)

  /** PutContainer on the caller's container: minted, then stored unless it has
      no name. */
  function Persisted(c: Container, mint: Mint): (Container, bool) {
    var m := Defaulted(c.meta);
    if m.name == "" then (c.(meta := m), false) else (c.(meta := Stamped(m, mint)), true)
  }

  predicate Elsewhere(c: Container, nodeID: string) {
    c.nodeID != "" && c.nodeID != nodeID
  }

  predicate SettledSpec(st: RState, c: Container) {
    st.startedOK && st.lastGen == c.meta.generation && c.status.phase == Running
  }

  predicate Probes(st: RState, now: int) {
    now - st.lastAliveCheck > 8 * SECOND
  }

  function Pass(st: RState, c: Container, nodeID: string, w: Surroundings): PassResult {
    if Elsewhere(c, nodeID) || c.status.phase == Stopped then PassResult(st, c, false, false, [], false)
    else if SettledSpec(st, c) then SettledPass(st, c, nodeID, w)
    else StartPass(st, c, nodeID, w)
  }

  /** A pass over a container already started under this generation. */
  function SettledPass(st: RState, c: Container, nodeID: string, w: Surroundings): PassResult {
    var (r, restart) := LivePass(st, c, w);
    if restart then StartPass(r.st, c, nodeID, w) else r
  }

  /** The liveness check of a settled container; `restart` sends the pass on to
      the start path. */
  function LivePass(st: RState, c: Container, w: Surroundings): (PassResult, bool) {
    var checked := st.(lastAliveCheck := w.now);
    if !Probes(st, w.now) then (PassResult(st, c, false, false, [], true), false)
    else if w.probe != Gone then (PassResult(checked, c, false, false, [], true), false)
    else if ShouldRestart(c.policy) then (PassResult(checked.(startedOK := false), c, false, false, [], true), true)
    else
      var (c', put) := Persisted(c.(status := Exited(c, w.now)), w.mint);
      (PassResult(checked.(startedOK := false), c', put, false, [], true), false)
  }

  function Exited(c: Container, now: int): Status {
    c.status.(phase := Stopped, message := "exited (restartPolicy=" + PolicyName(c.policy) + ")", updatedAt := now)
  }

  /** From the backoff check on. */
  function StartPass(st: RState, c: Container, nodeID: string, w: Surroundings): PassResult {
    if c.status.phase == Failed && w.now < st.nextAttempt then PassResult(st, c, false, false, [], true) else
    var st1 := st.(lastAttempt := w.now);
    var c1 := c.(env := EnvAfterSecrets(c, w.vault));
    match w.start
    case StartFailed(msg) => AfterFailure(st1, c1, msg, w)
    case Started(msg, at, rt) => AfterSuccess(st1, c1, Status(Running, msg, at, rt), nodeID, w)
  }

  function AfterFailure(st: RState, c: Container, msg: string, w: Surroundings): PassResult {
    var n := st.attempts + 1;
    var st' := st.(attempts := n, startedOK := false, nextAttempt := w.now + Backoff(n));
    var (c', put) := if c.status.phase == Failed && c.status.message == msg then (c, false)
                     else Persisted(c.(status := Status(Failed, msg, w.now, "")), w.mint);
    PassResult(st', c', put, true, [CrashEvent(c.meta.name, msg, n)], true)
  }

  function AfterSuccess(st: RState, c: Container, out: Status, nodeID: string, w: Surroundings): PassResult {
    var st' := st.(attempts := 0, startedOK := true, lastGen := c.meta.generation);
    var (c', put) := if c.status.phase == out.phase && c.nodeID == nodeID then (c, false)
                     else Persisted(c.(status := out, nodeID := nodeID), w.mint);
    PassResult(st', c', put, true, if st.startedOK then [] else [StartEvent(c.meta.name)], true)
  }

  // ---------- what a pass may change ----------

  /** `c'` differs from `c` at most in status, node, Meta's generation and
      timestamps, and Env; a put bumps the generation by one. */
  ghost predicate OnlyObserved(c: Container, c': Container, nodeID: string, put: bool) {
    && c' == c.(status := c'.status, nodeID := c'.nodeID, meta := c'.meta, env := c'.env)
    && (c'.nodeID == c.nodeID || c'.nodeID == nodeID)
    && c'.meta.name == c.meta.name && c'.meta.labels == c.meta.labels
    && (c.meta.uid != "" && c.meta.project != "" ==>
          c'.meta == c.meta.(generation := c'.meta.generation, updatedAt := c'.meta.updatedAt))
    && c'.meta.generation == c.meta.generation + (if put then 1 else 0)
    && (!put && c.meta.name != "" ==> c' == c.(env := c'.env))
  }

  /** Whether a pass calls Start, from what it finds: on this node's container that
      is not stopped, if it has not run under this generation, unless it failed and
      its next attempt is not due; or if it has, but a liveness check is due, finds
      it gone, and the policy is to restart. */
  predicate Attempts(st: RState, c: Container, nodeID: string, w: Surroundings) {
    && (c.nodeID == "" || c.nodeID == nodeID) && c.status.phase != Stopped
    && if Settled(st, c) then CheckDue(st, w) && w.probe == Gone && c.policy in {Always, OnFailure}
       else c.status.phase == Failed ==> w.now >= st.nextAttempt
  }

  /** The container runs as the memory says it was last started. */
  predicate Settled(st: RState, c: Container) {
    st.startedOK && st.lastGen == c.meta.generation && c.status.phase == Running
  }

  predicate CheckDue(st: RState, w: Surroundings) {
    w.now > st.lastAliveCheck + 8_000_000_000
  }

  /** The pass finds that a container has exited and is not to be restarted. */
  predicate Ends(st: RState, c: Container, nodeID: string, w: Surroundings) {
    && (c.nodeID == "" || c.nodeID == nodeID) && Settled(st, c) && CheckDue(st, w) && w.probe == Gone
    && c.policy in {Never, Unset}
  }

  /** A mount that is put into Env. */
  predicate Reveals(sm: SecretMount, project: string, vault: Vault) {
    sm.envName != "" && (project, sm.secret) in vault
  }

  /** Some name's last such mount reveals something other than what Env has. */
  ghost predicate MountsDiffer(env: Vars, project: string, vault: Vault, mounts: seq<SecretMount>) {
    exists i :: 0 <= i < |mounts| && LastNews(env, project, vault, mounts, i)
  }

  ghost predicate LastNews(env: Vars, project: string, vault: Vault, mounts: seq<SecretMount>, i: nat)
    requires i < |mounts|
  {
    var sm := mounts[i];
    && Reveals(sm, project, vault)
    && (forall j :: i < j < |mounts| && Reveals(mounts[j], project, vault) ==> mounts[j].envName != sm.envName)
    && (sm.envName in env ==> env[sm.envName] != vault[(project, sm.secret)])
  }

  /** Injecting the mounts changes an Env exactly when they reveal news. */
  lemma InjectedDiffers(env: Vars, project: string, vault: Vault, mounts: seq<SecretMount>)
    ensures Injected(env, project, vault, mounts) != env <==> MountsDiffer(env, project, vault, mounts)
  {
    var out := Injected(env, project, vault, mounts);
    if i :| 0 <= i < |mounts| && LastNews(env, project, vault, mounts, i) {
      LastMountWins(env, project, vault, mounts, i);
    }
    if out != env {
      var name := ChangedName(env, project, vault, mounts);
      var i := LastMountOf(env, project, vault, mounts, name);
      LastMountWins(env, project, vault, mounts, i);
      assert LastNews(env, project, vault, mounts, i);
    }
  }

  lemma {:induction false} LastMountWins(env: Vars, project: string, vault: Vault, mounts: seq<SecretMount>, i: nat)
    requires i < |mounts| && Reveals(mounts[i], project, vault)
    requires forall j :: i < j < |mounts| && Reveals(mounts[j], project, vault) ==>
      mounts[j].envName != mounts[i].envName
    ensures var out := Injected(env, project, vault, mounts);
            mounts[i].envName in out && out[mounts[i].envName] == vault[(project, mounts[i].secret)]
    decreases |mounts|
  {
    if i < |mounts| - 1 {
      LastMountWins(env, project, vault, mounts[..|mounts| - 1], i);
    }
  }

  lemma {:induction false} ChangedName(env: Vars, project: string, vault: Vault, mounts: seq<SecretMount>)
    returns (name: string)
    requires Injected(env, project, vault, mounts) != env
    ensures var out := Injected(env, project, vault, mounts);
            name in out && (name in env ==> out[name] != env[name])
  {
    var out := Injected(env, project, vault, mounts);
    OnlyAdds(env, project, vault, mounts);
    assert (forall k :: k in out ==> k in env && out[k] == env[k]) ==> out == env;
    name :| name in out && (name in env ==> out[name] != env[name]);
  }

  lemma {:induction false} OnlyAdds(env: Vars, project: string, vault: Vault, mounts: seq<SecretMount>)
    ensures env.Keys <= Injected(env, project, vault, mounts).Keys
    decreases |mounts|
  {
    if mounts != [] { OnlyAdds(env, project, vault, mounts[..|mounts| - 1]); }
  }

  /** The last mount for a name that the mounts changed. */
  lemma {:induction false} LastMountOf(env: Vars, project: string, vault: Vault, mounts: seq<SecretMount>, name: string)
    returns (i: nat)
    requires var out := Injected(env, project, vault, mounts);
             name in out && (name in env ==> out[name] != env[name])
    ensures i < |mounts| && Reveals(mounts[i], project, vault) && mounts[i].envName == name
    ensures forall j :: i < j < |mounts| && Reveals(mounts[j], project, vault) ==> mounts[j].envName != name
    decreases |mounts|
  {
    var last := |mounts| - 1;
    if mounts != [] && Reveals(mounts[last], project, vault) && mounts[last].envName == name {
      i := last;
    } else {
      i := LastMountOf(env, project, vault, mounts[..last], name);
    }
  }

  /** A pass changes status, node, Meta's generation and timestamps, and nothing
      else of the container it was given - except that it writes revealed secrets
      into that container's Env exactly when it is due to call Start while the
      working copy shares the map and the mounts reveal something it does not
      hold. Whether the store ever sees this depends on whether the pass writes. */
  lemma SpecIsKept(st: RState, c: Container, nodeID: string, w: Surroundings)
    ensures var r := Pass(st, c, nodeID, w);
            && OnlyObserved(c, r.c, nodeID, r.put)
            && (r.started <==> Attempts(st, c, nodeID, w))
            && (r.c.env == c.env <==>
                  !(Attempts(st, c, nodeID, w) && w.vault.Some? && Shares(c, w.vault.value) &&
                    MountsDiffer(c.env.value, c.meta.project, w.vault.value, c.mounts)))
  {
    PassKeepsSpec(st, c, nodeID, w);
    StartsWhenDue(st, c, nodeID, w);
    if w.vault.Some? && c.env.Some? {
      InjectedDiffers(c.env.value, c.meta.project, w.vault.value, c.mounts);
    }
  }

  /** Whether a pass that calls Start writes the record afterwards. */
  predicate StartWrites(c: Container, nodeID: string, w: Surroundings) {
    c.meta.name != "" &&
    match w.start
    case StartFailed(msg) => c.status.phase != Failed || c.status.message != msg
    case Started(_, _, _) => c.status.phase != Running || c.nodeID != nodeID
  }

  /** The stored record after a pass. */
  function RecordAfter(c: Container, r: PassResult): Container {
    if r.put then r.c else c
  }

  /** Exactly when a pass changes the Env of the stored record: it is due to call
      Start, writes the record afterwards, and meanwhile had a working copy that
      shares the map while the mounts reveal something the map does not hold. */
  lemma StoredEnvIsKept(st: RState, c: Container, nodeID: string, w: Surroundings)
    ensures var stored := RecordAfter(c, Pass(st, c, nodeID, w));
            stored.env == c.env <==>
            !(Attempts(st, c, nodeID, w) && StartWrites(c, nodeID, w) && w.vault.Some? && Shares(c, w.vault.value) &&
              MountsDiffer(c.env.value, c.meta.project, w.vault.value, c.mounts))
  {
    SpecIsKept(st, c, nodeID, w);
    WritesAfterStart(st, c, nodeID, w);
  }

  lemma WritesAfterStart(st: RState, c: Container, nodeID: string, w: Surroundings)
    ensures var r := Pass(st, c, nodeID, w); r.started ==> (r.put <==> StartWrites(c, nodeID, w))
  {
  }

  lemma StartsWhenDue(st: RState, c: Container, nodeID: string, w: Surroundings)
    ensures Pass(st, c, nodeID, w).started <==> Attempts(st, c, nodeID, w)
  {
  }

  ghost predicate Keeps(c: Container, r: PassResult, nodeID: string, w: Surroundings) {
    OnlyObserved(c, r.c, nodeID, r.put) && r.c.env == if r.started then EnvAfterSecrets(c, w.vault) else c.env
  }

  lemma PassKeepsSpec(st: RState, c: Container, nodeID: string, w: Surroundings)
    ensures Keeps(c, Pass(st, c, nodeID, w), nodeID, w)
  {
    var (r, restart) := LivePass(st, c, w);
    StartKeepsSpec(st, c, nodeID, w);
    StartKeepsSpec(r.st, c, nodeID, w);
    LivePassKeepsSpec(st, c, nodeID, w);
    assert Keeps(c, PassResult(st, c, false, false, [], false), nodeID, w);
  }

  lemma LivePassKeepsSpec(st: RState, c: Container, nodeID: string, w: Surroundings)
    ensures Keeps(c, LivePass(st, c, w).0, nodeID, w)
  {
    PersistedIsObserved(c, c.(status := Exited(c, w.now)), nodeID, w.mint);
  }

  lemma PersistedIsObserved(c: Container, c1: Container, nodeID: string, mint: Mint)
    requires OnlyObserved(c, c1.(status := c.status, nodeID := c.nodeID), nodeID, false) && c1.meta == c.meta
    requires c1.nodeID == c.nodeID || c1.nodeID == nodeID
    ensures var (c', put) := Persisted(c1, mint); OnlyObserved(c, c', nodeID, put) && c'.env == c1.env
  {
  }

  lemma StartKeepsSpec(st: RState, c: Container, nodeID: string, w: Surroundings)
    ensures Keeps(c, StartPass(st, c, nodeID, w), nodeID, w)
  {
    var c1 := c.(env := EnvAfterSecrets(c, w.vault));
    match w.start
    case StartFailed(msg) =>
      PersistedIsObserved(c, c1.(status := Status(Failed, msg, w.now, "")), nodeID, w.mint);
    case Started(msg, at, rt) =>
      PersistedIsObserved(c, c1.(status := Status(Running, msg, at, rt), nodeID := nodeID), nodeID, w.mint);
  }

  /** With a resolver that succeeds and an Env that is nil or non-empty, the
      persisted Env never sees a plaintext. */
  lemma NoPlaintextPersisted(st: RState, c: Container, nodeID: string, w: Surroundings)
    requires w.vault.Some? && c.env.Some? ==>
      |c.env.value| > 0 && AllResolvable(c.meta.project, w.vault.value, c.env.value)
    ensures Pass(st, c, nodeID, w).c.env == c.env
  {
    SpecIsKept(st, c, nodeID, w);
  }

  /** When one reference cannot be resolved, the plaintext of an env-mode mount
      ends up in the stored record. */
  lemma FailedResolveLeaks(meta: Meta, plaintext: string, w: Surroundings)
    requires meta.project == "p" && meta.name == "web" && plaintext != "secret://gone"
    requires w.vault == Some(map[("p", "token") := plaintext]) && w.start.Started?
    ensures var c := Container(meta, "", Some(map["DB" := "secret://gone"]), [SecretMount("token", "DB", "")],
                               Always, "n1", Status(Pending, "", 0, ""));
            var r := Pass(FRESH, c, "n1", w);
            r.put && r.c.env == Some(map["DB" := plaintext])
  {
    var c := Container(meta, "", Some(map["DB" := "secret://gone"]), [SecretMount("token", "DB", "")],
                       Always, "n1", Status(Pending, "", 0, ""));
    var v := w.vault.value;
    assert IsRef(c.env.value["DB"]);
    assert Injected(c.env.value, "p", v, []) == c.env.value;
    assert c.mounts[..0] == [];
    assert Injected(c.env.value, "p", v, c.mounts) == c.env.value["DB" := plaintext];
    assert c.env.value["DB" := plaintext] == map["DB" := plaintext];
  }

  // ---------- what each kind of pass leaves ----------

  /** Start failed: one more failure is counted, the next attempt put off by its
      backoff, the message shown, and a crash announced. */
  lemma FailedStart(st: RState, c: Container, nodeID: string, w: Surroundings, msg: string)
    requires Attempts(st, c, nodeID, w) && w.start == StartFailed(msg) && c.meta.name != ""
    ensures var r := Pass(st, c, nodeID, w);
            && r.st.attempts == st.attempts + 1 && !r.st.startedOK && r.st.lastGen == st.lastGen
            && r.st.lastAttempt == w.now && r.st.nextAttempt == w.now + Backoff(st.attempts + 1)
            && r.st.lastAliveCheck == (if Settled(st, c) then w.now else st.lastAliveCheck)
            && r.events == [CrashEvent(c.meta.name, msg, st.attempts + 1)]
            && r.c.nodeID == c.nodeID
            && (if c.status.phase == Failed && c.status.message == msg then r.c.status == c.status && !r.put
                else r.c.status == Status(Failed, msg, w.now, "") && r.put)
  {
  }

  /** Start succeeded: the count is cleared, the generation before the write is
      remembered, the container shows as running here, and a start is announced
      unless the memory had it running under another generation. */
  lemma SucceededStart(st: RState, c: Container, nodeID: string, w: Surroundings)
    requires Attempts(st, c, nodeID, w) && w.start.Started? && c.meta.name != ""
    ensures var r := Pass(st, c, nodeID, w);
            && r.st.attempts == 0 && r.st.startedOK && r.st.lastGen == c.meta.generation && r.st.lastAttempt == w.now
            && r.events == (if st.startedOK && !Settled(st, c) then [] else [StartEvent(c.meta.name)])
            && r.st.lastAliveCheck == (if Settled(st, c) then w.now else st.lastAliveCheck)
            && r.c.status.phase == Running && r.c.nodeID == nodeID
            && (r.put <==> c.status.phase != Running || c.nodeID != nodeID)
            && (r.put ==> r.c.status == Status(Running, w.start.message, w.start.at, w.start.runtime))
            && (!r.put ==> r.c.status == c.status)
  {
  }

  /** An exited container that is not to be restarted is marked stopped. */
  lemma EndedPass(st: RState, c: Container, nodeID: string, w: Surroundings)
    requires Ends(st, c, nodeID, w) && c.meta.name != ""
    ensures var r := Pass(st, c, nodeID, w);
            && !r.started && r.put && r.events == [] && !r.st.startedOK && r.st.lastAliveCheck == w.now
            && r.c.status.phase == Stopped && r.c.status.updatedAt == w.now && r.c.status.runtime == c.status.runtime
            && r.c.status.message ==
                 (if c.policy == Never then "exited (restartPolicy=Never)" else "exited (restartPolicy=)")
            && r.c.env == c.env && r.c.nodeID == c.nodeID
  {
  }

  /** Any other pass leaves container, record and bus alone, and of the memory
      changes only when the container was last seen alive. */
  lemma QuietPass(st: RState, c: Container, nodeID: string, w: Surroundings)
    requires !Attempts(st, c, nodeID, w) && !Ends(st, c, nodeID, w)
    ensures var (r, here) := (Pass(st, c, nodeID, w), c.nodeID == "" || c.nodeID == nodeID);
            && r.c == c && !r.put && !r.started && r.events == []
            && r.st == if here && Settled(st, c) && CheckDue(st, w) then st.(lastAliveCheck := w.now) else st
  {
  }

  /** The backoff starts at five seconds and doubles up to five minutes. */
  lemma BackoffDoubles(n: nat)
    requires n > 0
    ensures Backoff(1) == 5_000_000_000
    ensures Backoff(n + 1) == if 2 * Backoff(n) < 300_000_000_000 then 2 * Backoff(n) else 300_000_000_000
  {
    assert Pow2(n) == 2 * Pow2(n - 1);
  }

  // ---------- what Start is given ----------

  /** Which secret a reference names: a bare name is the container's project's; a
      name after a project and a slash is that project's; a leading slash does not
      count as one. */
  lemma BareName(project: string, n: string)
    requires '/' !in n
    ensures Target(project, "secret://" + n) == (project, n)
  {
    assert ("secret://" + n)[|"secret://"|..] == n && n + "" == n;
    SlashAt(n, "", |n|);
  }

  /** Before the first slash stands another project, */
  lemma ProjectAndName(project: string, q: string, n: string)
    requires '/' !in q && q != ""
    ensures Target(project, "secret://" + (q + "/" + n)) == (q, n)
  {
    var rest := q + "/" + n;
    assert ("secret://" + rest)[|"secret://"|..] == rest && rest == q + ("/" + n);
    SlashAt(q, "/" + n, |q|);
    assert rest[..|q|] == q && rest[|q| + 1..] == n;
  }

  /** unless nothing does: then the slash belongs to the name. */
  lemma SlashFirst(project: string, n: string)
    ensures Target(project, "secret://" + ("/" + n)) == (project, "/" + n)
  {
    assert ("secret://" + ("/" + n))[|"secret://"|..] == "/" + n;
  }

  lemma {:induction false} SlashAt(q: string, rest: string, i: nat)
    requires '/' !in q && i == |q| && (rest == "" || rest[0] == '/')
    ensures FirstSlash(q + rest) == i
  {
    if q != "" {
      assert (q + rest)[0] == q[0] && (q + rest)[1..] == q[1..] + rest;
      SlashAt(q[1..], rest, i - 1);
    } else {
      assert q + rest == rest;
    }
  }

  /** The variables Start is given when every reference resolves: those of the
      container, each reference replaced by the secret it names, except where a
      mount puts another secret. */
  lemma HandedEnv(c: Container, vault: Vault, k: string)
    requires c.env.Some? && AllResolvable(c.meta.project, vault, c.env.value)
    requires forall i :: 0 <= i < |c.mounts| && Reveals(c.mounts[i], c.meta.project, vault) ==> c.mounts[i].envName != k
    ensures var e := WorkingEnv(c, Some(vault));
            && e.Some? && (k in e.value <==> k in c.env.value)
            && (k in c.env.value ==>
                  var v := c.env.value[k];
                  if "secret://" <= v then
                    Target(c.meta.project, v) in vault && e.value[k] == vault[Target(c.meta.project, v)]
                  else e.value[k] == v)
  {
    UnmountedStays(ResolvedVars(c.meta.project, vault, c.env.value), c.meta.project, vault, c.mounts, k);
  }

  /** And where one does, the last such mount's. */
  lemma HandedMount(c: Container, vault: Vault, i: nat)
    requires i < |c.mounts| && Reveals(c.mounts[i], c.meta.project, vault)
    requires forall j :: i < j < |c.mounts| && Reveals(c.mounts[j], c.meta.project, vault) ==>
      c.mounts[j].envName != c.mounts[i].envName
    ensures var (e, sm) := (WorkingEnv(c, Some(vault)), c.mounts[i]);
            && e.Some? && sm.envName in e.value && e.value[sm.envName] == vault[(c.meta.project, sm.secret)]
  {
    var base := if c.env.None? then map[]
                else if AllResolvable(c.meta.project, vault, c.env.value)
                then ResolvedVars(c.meta.project, vault, c.env.value) else c.env.value;
    LastMountWins(base, c.meta.project, vault, c.mounts, i);
  }

  lemma {:induction false} UnmountedStays(env: Vars, project: string, vault: Vault, mounts: seq<SecretMount>, k: string)
    requires forall i :: 0 <= i < |mounts| && Reveals(mounts[i], project, vault) ==> mounts[i].envName != k
    ensures var out := Injected(env, project, vault, mounts);
            (k in out <==> k in env) && (k in env ==> out[k] == env[k])
    decreases |mounts|
  {
    if mounts != [] {
      UnmountedStays(env, project, vault, mounts[..|mounts| - 1], k);
      assert mounts[|mounts| - 1] == mounts[..][|mounts| - 1];
    }
  }
}
