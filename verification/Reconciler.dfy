/** The reconciler as it runs: objects updated in place, Env maps shared by
    reference. Its passes are those of Containers.Pass. */
module Reconcilers {
  import opened Options
  import opened Records
  import opened Stores
  import opened Containers
  import opened RetrySpacing

  /** A Go map value: copying the struct that holds it copies the reference. */
  class EnvMap {
    var vars: Vars

    constructor (vars: Vars)
      ensures this.vars == vars
    {
      this.vars := vars;
    }
  }

  function VarsOf(e: EnvMap?): Option<Vars>
    reads e
  {
    if e == null then None else Some(e.vars)
  }

  class ContainerObject {
    var meta: Meta
    const spec: string
    var env: EnvMap?
    const mounts: seq<SecretMount>
    const policy: RestartPolicy
    var nodeID: string
    var status: Status

    constructor (c: Container)
      ensures Value() == c && (env == null || fresh(env))
    {
      meta, spec, mounts, policy, nodeID, status := c.meta, c.spec, c.mounts, c.policy, c.nodeID, c.status;
      env := null;
      new;
      if c.env.Some? {
        env := new EnvMap(c.env.value);
      }
    }

    function Value(): Container
      reads this, env
    {
      Container(meta, spec, VarsOf(env), mounts, policy, nodeID, status)
    }
  }

  /** The containers bucket. */
  class ContainerStore {
    var containers: map<string, Container>

    constructor ()
      ensures containers == map[]
    {
      containers := map[];
    }

    method PutContainer(c: ContainerObject, mint: Mint) returns (stored: bool)
      modifies this, c`meta
      ensures (c.Value(), stored) == Persisted(old(c.Value()), mint)
      ensures containers == if stored then old(containers)[KeyFor(c.meta.project, c.meta.name) := c.Value()]
                            else old(containers)
    {
      if c.meta.project == "" {
        c.meta := c.meta.(project := "default");
      }
      if c.meta.name == "" {
        return false;
      }
      c.meta := Stamped(c.meta, mint);
      containers := containers[KeyFor(c.meta.project, c.meta.name) := c.Value()];
      stored := true;
    }
  }

  /** The bucket after a pass. */
  function Stored(containers: map<string, Container>, r: PassResult): map<string, Container> {
    if r.put then containers[KeyFor(r.c.meta.project, r.c.meta.name) := r.c] else containers
  }

  // ---------- secrets ----------

  /** Resolve: the same map when there is nothing in it, a new map otherwise,
      nothing when a reference cannot be revealed. */
  method Resolve(project: string, vault: Vault, env: EnvMap?) returns (ok: bool, out: EnvMap?)
    ensures env == null || |env.vars| == 0 ==> ok && out == env
    ensures env != null && |env.vars| > 0 ==>
      && ok == AllResolvable(project, vault, env.vars)
      && (ok ==> out != null && fresh(out) && out.vars == ResolvedVars(project, vault, env.vars))
  {
    if env == null || |env.vars| == 0 {
      return true, env;
    }
    var resolved: Vars := map[];
    var keys := env.vars.Keys;
    while keys != {}
      invariant keys <= env.vars.Keys
      invariant forall k :: k in env.vars && k !in keys ==> Resolvable(project, vault, env.vars[k])
      invariant resolved.Keys == env.vars.Keys - keys
      invariant forall k :: k in resolved ==>
        Resolvable(project, vault, env.vars[k]) && resolved[k] == ResolvedValue(project, vault, env.vars[k])
    {
      var k :| k in keys;
      var v := env.vars[k];
      if !IsRef(v) {
        resolved := resolved[k := v];
      } else {
        if Target(project, v) !in vault {
          return false, null;
        }
        resolved := resolved[k := vault[Target(project, v)]];
      }
      keys := keys - {k};
    }
    assert resolved == ResolvedVars(project, vault, env.vars);
    ok := true;
    out := new EnvMap(resolved);
  }

  /** The working copy's Env. It is the container's own map only if that map was
      empty or could not be resolved; otherwise no write reaches it. */
  method MaterialiseSecrets(c: ContainerObject, vault: Vault) returns (work: EnvMap)
    modifies c.env
    ensures c.env == old(c.env)
    ensures Shares(old(c.Value()), vault) ==> work == c.env
    ensures !Shares(old(c.Value()), vault) ==> fresh(work) && VarsOf(c.env) == old(VarsOf(c.env))
    ensures VarsOf(c.env) == EnvAfterSecrets(old(c.Value()), Some(vault))
    ensures Some(work.vars) == WorkingEnv(old(c.Value()), Some(vault))
  {
    var project := c.meta.project;
    var ok, resolved := Resolve(project, vault, c.env);
    var maybe := c.env;
    if ok {
      maybe := resolved;
    }
    if maybe == null {
      work := new EnvMap(map[]);
    } else {
      work := maybe;
    }
    ghost var base := work.vars;
    for i := 0 to |c.mounts|
      invariant work.vars == Injected(base, project, vault, c.mounts[..i])
      invariant work != c.env ==> VarsOf(c.env) == old(VarsOf(c.env))
    {
      var sm := c.mounts[i];
      assert c.mounts[..i + 1][..i] == c.mounts[..i];
      if sm.envName != "" {
        if (project, sm.secret) in vault {
          work.vars := work.vars[sm.envName := vault[(project, sm.secret)]];
        }
      }
    }
    assert c.mounts[..|c.mounts|] == c.mounts;
    EmptyResolves(project, vault);
  }

  lemma EmptyResolves(project: string, vault: Vault)
    ensures forall env: Vars :: |env| == 0 ==>
      env == map[] && AllResolvable(project, vault, env) && ResolvedVars(project, vault, env) == map[]
  {
  }

  // ---------- the reconciler ----------

  class Reconciler {
    const st: ContainerStore
    var state: map<string, RState>
    var bus: seq<BusEvent>

    constructor (st: ContainerStore)
      ensures this.st == st && state == map[] && bus == []
    {
      this.st := st;
      state, bus := map[], [];
    }

    function StateOf(key: string): RState
      reads this
    {
      if key in state then state[key] else FRESH
    }

    method Forget(key: string)
      modifies this`state
      ensures state == old(state) - {key}
    {
      state := state - {key};
    }

    method IsRunning(probe: Probe) returns (alive: bool)
      ensures alive == (probe != Gone)
    {
      match probe
      case NoHook => alive := true;
      case ProbeError => alive := true;
      case Alive => alive := true;
      case Gone => alive := false;
    }

    /** One pass over the caller's container. `handed` is the Env Start got. */
    method ReconcileOne(c: ContainerObject, nodeID: string, w: Surroundings)
      returns (started: bool, handed: Option<Vars>)
      modifies this`state, this`bus, st, c, c.env
      ensures var key := old(c.meta.project) + "/" + old(c.meta.name);
              var r := Pass(old(StateOf(key)), old(c.Value()), nodeID, w);
              && c.Value() == r.c
              && started == r.started
              && state == (if r.touched then old(state)[key := r.st] else old(state))
              && bus == old(bus) + r.events
              && st.containers == Stored(old(st.containers), r)
      ensures started ==> handed == WorkingEnv(old(c.Value()), w.vault)
      ensures c.env == old(c.env)
    {
      var key := c.meta.project + "/" + c.meta.name;
      if (c.nodeID != "" && c.nodeID != nodeID) || c.status.phase == Stopped {
        return false, None;
      }
      started, handed := ReconcileHere(key, StateOf(key), c, nodeID, w);
    }

    /** Container, memory, bus and store as a pass leaves them. */
    predicate After(r: PassResult, key: string, state0: map<string, RState>, bus0: seq<BusEvent>,
                    containers0: map<string, Container>, c: ContainerObject)
      reads this, st, c, c.env
    {
      && c.Value() == r.c && state == state0[key := r.st]
      && bus == bus0 + r.events && st.containers == Stored(containers0, r)
    }

    /** The pass over a container this node may act on. */
    method ReconcileHere(key: string, s: RState, c: ContainerObject, nodeID: string, w: Surroundings)
      returns (started: bool, handed: Option<Vars>)
      modifies this`state, this`bus, st, c, c.env
      requires !Elsewhere(c.Value(), nodeID) && c.status.phase != Stopped
      ensures var r := Pass(s, old(c.Value()), nodeID, w);
              started == r.started && After(r, key, old(state), old(bus), old(st.containers), c)
      ensures started ==> handed == WorkingEnv(old(c.Value()), w.vault)
      ensures c.env == old(c.env)
    {
      if s.startedOK && s.lastGen == c.meta.generation && c.status.phase == Running {
        started, handed := ReconcileSettled(key, s, c, nodeID, w);
      } else {
        state := state[key := s];
        started, handed := StartIfDue(key, s, c, nodeID, w);
      }
    }

    /** The pass over a container already started under this generation. */
    method ReconcileSettled(key: string, s: RState, c: ContainerObject, nodeID: string, w: Surroundings)
      returns (started: bool, handed: Option<Vars>)
      modifies this`state, this`bus, st, c, c.env
      ensures var r := SettledPass(s, old(c.Value()), nodeID, w);
              started == r.started && After(r, key, old(state), old(bus), old(st.containers), c)
      ensures started ==> handed == WorkingEnv(old(c.Value()), w.vault)
      ensures c.env == old(c.env)
    {
      state := state[key := s];
      var restart := CheckAlive(key, s, c, w);
      if !restart {
        return false, None;
      }
      assert c.Value() == old(c.Value());
      started, handed := StartIfDue(key, state[key], c, nodeID, w);
    }

    /** One event of the loop: deletions are forgotten, a container that is
        still there is read back and reconciled, anything else is skipped. */
    method HandleEvent(ev: Event, nodeID: string, w: Surroundings) returns (started: bool)
      modifies this`state, this`bus, st
      ensures var (key, at) := (ev.project + "/" + ev.name, KeyFor(ev.project, ev.name));
              if ev.kind == KindContainer && ev.op == OpDelete then
                !started && state == old(state) - {key} && bus == old(bus) && st.containers == old(st.containers)
              else if ev.kind == KindContainer && at in old(st.containers) then
                var c := old(st.containers)[at];
                var own := c.meta.project + "/" + c.meta.name;
                var r := Pass(old(StateOf(own)), c, nodeID, w);
                && started == r.started
                && state == (if r.touched then old(state)[own := r.st] else old(state))
                && bus == old(bus) + r.events
                && st.containers == Stored(old(st.containers), r)
              else !started && state == old(state) && bus == old(bus) && st.containers == old(st.containers)
    {
      started := false;
      if ev.kind != KindContainer {
        return;
      }
      if ev.op == OpDelete {
        Forget(ev.project + "/" + ev.name);
        return;
      }
      if KeyFor(ev.project, ev.name) !in st.containers {
        return;
      }
      var c := new ContainerObject(st.containers[KeyFor(ev.project, ev.name)]);
      var handed;
      started, handed := ReconcileOne(c, nodeID, w);
    }

    method CheckAlive(key: string, s: RState, c: ContainerObject, w: Surroundings) returns (restart: bool)
      requires key in state && state[key] == s
      modifies this`state, st, c`status, c`meta
      ensures var (r, more) := LivePass(s, old(c.Value()), w);
              && restart == more && c.Value() == r.c && state == old(state)[key := r.st]
              && st.containers == Stored(old(st.containers), r)
    {
      if !(w.now - s.lastAliveCheck > 8 * SECOND) {
        return false;
      }
      var alive := IsRunning(w.probe);
      state := state[key := s.(lastAliveCheck := w.now)];
      if alive {
        return false;
      }
      if !ShouldRestart(c.policy) {
        c.status := c.status.(phase := Stopped);
        c.status := c.status.(message := "exited (restartPolicy=" + PolicyName(c.policy) + ")");
        c.status := c.status.(updatedAt := w.now);
        var _ := st.PutContainer(c, w.mint);
        state := state[key := s.(lastAliveCheck := w.now, startedOK := false)];
        return false;
      }
      state := state[key := s.(lastAliveCheck := w.now, startedOK := false)];
      restart := true;
    }

    /** The part of a pass from the backoff check on. */
    method StartIfDue(key: string, s: RState, c: ContainerObject, nodeID: string, w: Surroundings)
      returns (started: bool, handed: Option<Vars>)
      requires key in state && state[key] == s
      modifies this`state, this`bus, st, c, c.env
      ensures var r := StartPass(s, old(c.Value()), nodeID, w);
              && c.Value() == r.c
              && started == r.started
              && state == old(state)[key := r.st]
              && bus == old(bus) + r.events
              && st.containers == Stored(old(st.containers), r)
      ensures started ==> handed == WorkingEnv(old(c.Value()), w.vault)
      ensures c.env == old(c.env)
    {
      started, handed := false, None;
      if c.status.phase == Failed && w.now < s.nextAttempt {
        return;
      }
      ghost var c0 := c.Value();
      var s1 := s.(lastAttempt := w.now);
      handed := VarsOf(c.env);
      if w.vault.Some? {
        var work := MaterialiseSecrets(c, w.vault.value);
        handed := Some(work.vars);
      }
      ghost var c1 := c0.(env := EnvAfterSecrets(c0, w.vault));
      assert c.Value() == c1 && handed == WorkingEnv(c0, w.vault);
      started := true;
      match w.start
      case StartFailed(msg) =>
        RecordFailure(key, s1, c, msg, w);
      case Started(msg, at, rt) =>
        RecordSuccess(key, s1, c, Status(Running, msg, at, rt), nodeID, w);
    }

    method RecordFailure(key: string, s: RState, c: ContainerObject, msg: string, w: Surroundings)
      modifies this`state, this`bus, st, c`status, c`meta
      ensures var r := AfterFailure(s, old(c.Value()), msg, w);
              && c.Value() == r.c && state == old(state)[key := r.st] && bus == old(bus) + r.events
              && st.containers == Stored(old(st.containers), r)
    {
      var backoff := ComputeBackoff(s.attempts + 1);
      state := state[key := s.(attempts := s.attempts + 1, startedOK := false, nextAttempt := w.now + backoff)];
      if c.status.phase != Failed || c.status.message != msg {
        c.status := Status(Failed, msg, w.now, "");
        var _ := st.PutContainer(c, w.mint);
      }
      bus := bus + [CrashEvent(c.meta.name, msg, s.attempts + 1)];
    }

    method RecordSuccess(key: string, s: RState, c: ContainerObject, out: Status, nodeID: string, w: Surroundings)
      modifies this`state, this`bus, st, c`status, c`nodeID, c`meta
      ensures var r := AfterSuccess(s, old(c.Value()), out, nodeID, w);
              && c.Value() == r.c && state == old(state)[key := r.st] && bus == old(bus) + r.events
              && st.containers == Stored(old(st.containers), r)
    {
      var wasRunning := s.startedOK;
      state := state[key := s.(attempts := 0, startedOK := true, lastGen := c.meta.generation)];
      if !wasRunning {
        bus := bus + [StartEvent(c.meta.name)];
      }
      if c.status.phase != out.phase || c.nodeID != nodeID {
        c.status := out;
        c.nodeID := nodeID;
        var _ := st.PutContainer(c, w.mint);
      }
    }
  }
}
