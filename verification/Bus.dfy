/** The in-process event bus: a bounded queue, one worker, and tables of live
    subscribers and sinks. */
module Buses {
  import opened Options
  import opened Records
  import opened EventKeys
  import opened Stores
  import opened EventLogs

  const CAP := 1024

  /** The bus's own fields. A callback is known by the id it was given, a sink by
      its place in the list. */
  datatype Fields = Fields(queue: seq<EventRecord>, stopped: bool, dropped: nat,
                           subs: set<nat>, nextID: nat, sinks: nat)

  const NEW := Fields([], false, 0, {}, 0, 0)

  /** What Emit fills in before the event is queued. */
  function Addressed(ev: EventRecord, now: Time): EventRecord {
    var timed := if ev.at == ZERO_TIME then ev.(at := now) else ev;
    if timed.project == "" then timed.(project := "default") else timed
  }

  /** The non-blocking send. */
  function Offer(f: Fields, ev: EventRecord): Fields {
    if |f.queue| < CAP then f.(queue := f.queue + [ev]) else f.(dropped := f.dropped + 1)
  }

  /** Only a missing time and a missing project are filled in. */
  lemma AddressedFills(ev: EventRecord, now: Time)
    ensures Addressed(ev, now) ==
            EventRecord(ev.uid, ev.eventType, if ev.project == "" then "default" else ev.project, ev.subject,
                        if ev.at == ZERO_TIME then now else ev.at)
  {
  }

  class Bus {
    var queue: seq<EventRecord>
    var stopped: bool
    var dropped: nat
    var subs: set<nat>
    var nextID: nat
    var sinks: nat

    /** Ids already given out are below the next one. */
    ghost predicate Valid()
      reads this
    {
      forall id :: id in subs ==> id < nextID
    }

    constructor ()
      ensures Valid() && Value() == NEW
    {
      queue, stopped, dropped, subs, nextID, sinks := [], false, 0, {}, 0, 0;
    }

    function Value(): Fields
      reads this
    {
      Fields(queue, stopped, dropped, subs, nextID, sinks)
    }

    method Emit(ev: EventRecord, now: Time)
      requires Valid()
      modifies this
      ensures Valid()
      ensures !old(stopped) && |old(queue)| < 1024 ==>
        queue == old(queue) + [EventRecord(ev.uid, ev.eventType, if ev.project == "" then "default" else ev.project,
                                           ev.subject, if ev.at == ZERO_TIME then now else ev.at)]
      ensures Value() == if old(stopped) then old(Value()) else Offer(old(Value()), Addressed(ev, now))
    {
      if stopped {
        return;
      }
      var e := ev;
      if e.at == ZERO_TIME {
        e := e.(at := now);
      }
      if e.project == "" {
        e := e.(project := "default");
      }
      if |queue| < CAP {
        queue := queue + [e];
      } else {
        dropped := dropped + 1;
      }
    }

    method Subscribe() returns (id: nat)
      requires Valid()
      modifies this
      ensures Valid() && id == old(nextID) && id !in old(subs)
      ensures Value() == old(Value()).(subs := old(subs) + {id}, nextID := old(nextID) + 1)
    {
      id := nextID;
      nextID := nextID + 1;
      subs := subs + {id};
    }

    method Unsubscribe(id: nat)
      requires Valid()
      modifies this
      ensures Valid()
      ensures Value() == old(Value()).(subs := old(subs) - {id})
    {
      subs := subs - {id};
    }

    method AddSink() returns (index: nat)
      requires Valid()
      modifies this
      ensures Valid()
      ensures index == old(sinks) && Value() == old(Value()).(sinks := old(sinks) + 1)
    {
      index := sinks;
      sinks := sinks + 1;
    }

    /** One dispatch nobody else runs beside: the event is appended to the log,
        and whether that succeeds or not every subscriber is then called once with
        it, in the order the map yields them, before a goroutine starts per sink.
        `did` records what happened in order. */
    method Dispatch(st: Store, ev: EventRecord, uid: string, now: Time)
      returns (called: seq<nat>, did: seq<Deed>)
      requires st.Valid()
      modifies st`db
      ensures var shown := Completed(ev, uid, now);
              && st.Valid()
              && st.db == (if PutError(LogKey(shown), st.maxKey).Some? then old(st.db)
                           else old(st.db)["eventlog" := old(st.db)["eventlog"][LogKey(shown) := Logged(shown)]])
              && multiset(called) == multiset(subs)
              && did == [LogDeed(shown)] + Calls(called, shown) + Starts(sinks, shown)
    {
      var err, shown := AppendEvent(st, ev, uid, now);
      did := [LogDeed(shown)];
      called := CallOrder(subs);
      did := did + Calls(called, shown);
      var starts := StartAll(sinks, shown);
      did := did + starts;
    }
  }

  /** The subscribers in whatever order the map yields them. */
  method CallOrder(subs: set<nat>) returns (called: seq<nat>)
    ensures multiset(called) == multiset(subs)
  {
    var rest := subs;
    called := [];
    while rest != {}
      invariant rest <= subs && multiset(called) + multiset(rest) == multiset(subs)
    {
      var id :| id in rest;
      assert multiset(rest) == multiset(rest - {id}) + multiset{id};
      called := called + [id];
      rest := rest - {id};
    }
  }

  method StartAll(sinks: nat, shown: EventRecord) returns (did: seq<Deed>)
    ensures did == Starts(sinks, shown)
  {
    did := [];
    for k := 0 to sinks
      invariant did == Starts(k, shown)
    {
      assert Starts(k + 1, shown) == Starts(k, shown) + [StartDeed(k, shown)];
      did := did + [StartDeed(k, shown)];
    }
  }

  /** What a dispatch does, step by step. */
  datatype Deed = LogDeed(ev: EventRecord) | CallDeed(sub: nat, ev: EventRecord) | StartDeed(sink: nat, ev: EventRecord)

  function Calls(ids: seq<nat>, ev: EventRecord): seq<Deed> {
    seq(|ids|, i requires 0 <= i < |ids| => CallDeed(ids[i], ev))
  }

  function Starts(n: nat, ev: EventRecord): seq<Deed> {
    seq(n, k requires 0 <= k => StartDeed(k, ev))
  }

  // ---------- emitters, the worker and registrations, interleaved ----------

  /** The worker between two receives: it holds an event, then has appended it to
      the log, then has copied the tables and is calling the subscribers left in
      `rest` before starting the sinks. */
  datatype Worker =
    | Idle
    | Holding(ev: EventRecord)
    | Appended(ev: EventRecord)
    | Calling(ev: EventRecord, rest: set<nat>, sinks: nat)
    | Gone

  /** `emitters` have passed Emit's test of `stopped` and not yet sent. History:
      how many Emit calls there were and how many found the bus stopped, which
      call an emitter is in, the events accepted into the queue and the calls they
      came from, those taken from the queue, those whose dispatch copied the
      tables, and what every subscriber and sink was given. */
  datatype System = System(f: Fields, emitters: map<nat, EventRecord>, worker: Worker, cancelled: bool,
                           calls: nat, refused: nat, begun: map<nat, nat>,
                           accepted: seq<EventRecord>, callOf: seq<nat>, taken: seq<EventRecord>,
                           dispatched: seq<EventRecord>, got: map<nat, seq<EventRecord>>, handed: seq<seq<EventRecord>>)

  const START := System(NEW, map[], Idle, false, 0, 0, map[], [], [], [], [], map[], [])

  datatype Step =
    | Emit(id: nat, ev: EventRecord, now: Time)
    | Send(id: nat)
    | Subscribe
    | Unsubscribe(sub: nat)
    | AddSink
    | Cancel
    | Receive                             // the select may prefer the queue even when cancelled
    | Stop
    | Persist(uid: string, now: Time)
    | Copy
    | Call(sub: nat)
    | StartSinks

  predicate Enabled(s: System, step: Step) {
    match step
    case Emit(id, _, _) => id !in s.emitters
    case Send(id) => id in s.emitters
    case Subscribe => true
    case Unsubscribe(_) => true
    case AddSink => true
    case Cancel => true
    case Receive => s.worker.Idle? && s.f.queue != []
    case Stop => s.worker.Idle? && s.cancelled
    case Persist(_, _) => s.worker.Holding?
    case Copy => s.worker.Appended?
    case Call(sub) => s.worker.Calling? && sub in s.worker.rest
    case StartSinks => s.worker.Calling? && s.worker.rest == {}
  }

  /** The call an emitter is in, by how many came before it. */
  function CallOf(s: System, id: nat): nat {
    if id in s.begun then s.begun[id] else 0
  }

  function Given(m: map<nat, seq<EventRecord>>, id: nat): seq<EventRecord> {
    if id in m then m[id] else []
  }

  /** Every sink known when the tables were copied is handed the event. */
  function HandToAll(handed: seq<seq<EventRecord>>, n: nat, ev: EventRecord): seq<seq<EventRecord>> {
    seq(|handed|, k requires 0 <= k < |handed| => handed[k] + if k < n then [ev] else [])
  }

  function Do(s: System, step: Step): System {
    if !Enabled(s, step) then s else
    match step
    case Emit(id, ev, now) =>
      var t := s.(calls := s.calls + 1);
      if s.f.stopped then t.(refused := s.refused + 1)
      else t.(emitters := s.emitters[id := Addressed(ev, now)], begun := s.begun[id := s.calls])
    case Send(id) =>
      var t := s.(f := Offer(s.f, s.emitters[id]), emitters := s.emitters - {id});
      if |s.f.queue| < CAP then t.(accepted := s.accepted + [s.emitters[id]], callOf := s.callOf + [CallOf(s, id)])
      else t
    case Subscribe => s.(f := s.f.(subs := s.f.subs + {s.f.nextID}, nextID := s.f.nextID + 1))
    case Unsubscribe(sub) => s.(f := s.f.(subs := s.f.subs - {sub}))
    case AddSink => s.(f := s.f.(sinks := s.f.sinks + 1), handed := s.handed + [[]])
    case Cancel => s.(cancelled := true)
    case Receive =>
      var ev := s.f.queue[0];
      s.(f := s.f.(queue := s.f.queue[1..]), worker := Holding(ev), taken := s.taken + [ev])
    case Stop => s.(f := s.f.(stopped := true), worker := Gone)
    case Persist(uid, now) => s.(worker := Appended(Completed(s.worker.ev, uid, now)))
    case Copy => s.(worker := Calling(s.worker.ev, s.f.subs, s.f.sinks), dispatched := s.dispatched + [s.worker.ev])
    case Call(sub) =>
      s.(worker := s.worker.(rest := s.worker.rest - {sub}), got := s.got[sub := Given(s.got, sub) + [s.worker.ev]])
    case StartSinks => s.(worker := Idle, handed := HandToAll(s.handed, s.worker.sinks, s.worker.ev))
  }

  function Run(s: System, steps: seq<Step>): System
    decreases |steps|
  {
    if steps == [] then s else Do(Run(s, steps[..|steps| - 1]), steps[|steps| - 1])
  }

  lemma {:induction false} RunSplits(s: System, a: seq<Step>, b: seq<Step>)
    ensures Run(s, a + b) == Run(Run(s, a), b)
    decreases |b|
  {
    if b == [] {
      assert a + b == a;
    } else {
      RunSplits(s, a, b[..|b| - 1]);
      assert (a + b)[..|a + b| - 1] == a + b[..|b| - 1];
    }
  }

  // ---------- conservation ----------

  /** The event with only what it lacked filled in by AppendEvent. */
  predicate Completes(done: EventRecord, ev: EventRecord) {
    && done.(uid := ev.uid, at := ev.at) == ev
    && (ev.uid != "" ==> done.uid == ev.uid)
    && (ev.at != ZERO_TIME ==> done.at == ev.at)
  }

  predicate Uncopied(w: Worker) {
    w.Holding? || w.Appended?
  }

  ghost predicate Counted(s: System) {
    && s.calls == s.refused + |s.accepted| + s.f.dropped + |s.emitters|
    && s.accepted == s.taken + s.f.queue
    && |s.f.queue| <= CAP
  }

  ghost predicate InOrder(s: System) {
    && |s.taken| == |s.dispatched| + (if Uncopied(s.worker) then 1 else 0)
    && (forall k :: 0 <= k < |s.dispatched| ==> Completes(s.dispatched[k], s.taken[k]))
    && (Uncopied(s.worker) ==> Completes(s.worker.ev, s.taken[|s.taken| - 1]))
  }

  ghost predicate Inv(s: System) {
    Counted(s) && InOrder(s) && (s.worker.Gone? <==> s.f.stopped)
  }

  /** The steps of the worker; the others are those of emitters, subscribers and
      whoever adds sinks or cancels. */
  predicate OfWorker(step: Step) {
    step.Receive? || step.Stop? || step.Persist? || step.Copy? || step.Call? || step.StartSinks?
  }

  lemma StepKeepsCount(s: System, step: Step)
    requires Counted(s)
    ensures Counted(Do(s, step))
  {
    if OfWorker(step) {
      WorkerCounts(s, step);
    } else if step.Send? {
      SendCounts(s, step);
    } else {
      CallCounts(s, step);
    }
  }

  lemma WorkerCounts(s: System, step: Step)
    requires Counted(s) && OfWorker(step)
    ensures Counted(Do(s, step))
  {
  }

  lemma SendCounts(s: System, step: Step)
    requires Counted(s) && step.Send?
    ensures Counted(Do(s, step))
  {
    if Enabled(s, step) {
      assert |s.emitters - {step.id}| == |s.emitters| - 1;
    }
  }

  lemma CallCounts(s: System, step: Step)
    requires Counted(s) && !OfWorker(step) && !step.Send?
    ensures Counted(Do(s, step))
  {
  }

  lemma StepKeepsOrder(s: System, step: Step)
    requires InOrder(s)
    ensures InOrder(Do(s, step))
  {
    if OfWorker(step) {
      WorkerKeepsOrder(s, step);
    } else {
      OthersKeepWork(s, step);
    }
  }

  lemma WorkerKeepsOrder(s: System, step: Step)
    requires InOrder(s) && OfWorker(step)
    ensures InOrder(Do(s, step))
  {
    match step
    case Receive =>
    case Persist(_, _) =>
    case Copy =>
    case _ =>
  }

  lemma OthersKeepWork(s: System, step: Step)
    requires !OfWorker(step)
    ensures var t := Do(s, step);
            && t.worker == s.worker && t.taken == s.taken && t.dispatched == s.dispatched && t.got == s.got
            && s.handed <= t.handed && s.f.sinks <= t.f.sinks
  {
  }

  lemma StepKeepsInv(s: System, step: Step)
    requires Inv(s)
    ensures Inv(Do(s, step))
  {
    StepKeepsCount(s, step);
    StepKeepsOrder(s, step);
  }

  lemma StartInv()
    ensures Inv(START)
  {
    assert |START.emitters| == 0;
  }

  lemma {:induction false} Reachable(steps: seq<Step>)
    ensures Inv(Run(START, steps))
    decreases |steps|
  {
    if steps == [] {
      StartInv();
    } else {
      Reachable(steps[..|steps| - 1]);
      StepKeepsInv(Run(START, steps[..|steps| - 1]), steps[|steps| - 1]);
    }
  }

  /** In every interleaving: each Emit call is accepted, dropped, refused or still
      on its way; the accepted events are the ones taken followed by the queue;
      the dispatched ones are those taken, in order, but for one the worker may
      still be appending; and the queue stays within its capacity. */
  lemma Conservation(steps: seq<Step>)
    ensures var s := Run(START, steps);
            && s.calls == |s.accepted| + s.f.dropped + s.refused + |s.emitters|
            && s.accepted == s.taken + s.f.queue
            && |s.f.queue| <= CAP
            && |s.dispatched| <= |s.taken| <= |s.dispatched| + 1
            && (s.worker.Idle? || s.worker.Gone? ==> |s.dispatched| == |s.taken|)
            && forall k :: 0 <= k < |s.dispatched| ==> Completes(s.dispatched[k], s.accepted[k])
  {
    Reachable(steps);
  }

  // ---------- where events come from ----------

  /** One of the Emit calls so far brought this event; only a missing time and a
      missing project were filled in. */
  ghost predicate Brought(steps: seq<Step>, e: EventRecord) {
    exists j :: 0 <= j < |steps| && steps[j].Emit? && Brings(steps[j].ev, steps[j].now, e)
  }

  predicate Brings(ev: EventRecord, now: Time, e: EventRecord) {
    e == EventRecord(ev.uid, ev.eventType, if ev.project == "" then "default" else ev.project, ev.subject,
                     if ev.at == ZERO_TIME then now else ev.at)
  }

  lemma BroughtStill(steps: seq<Step>, step: Step, e: EventRecord)
    requires Brought(steps, e) || (step.Emit? && Brings(step.ev, step.now, e))
    ensures Brought(steps + [step], e)
  {
    if j :| 0 <= j < |steps| && steps[j].Emit? && Brings(steps[j].ev, steps[j].now, e) {
      assert (steps + [step])[j] == steps[j];
    } else {
      assert (steps + [step])[|steps|] == step;
    }
  }

  /** The events a step puts on their way or in the queue were there before, or it
      is the Emit call that brings them. */
  lemma StepAdds(s: System, step: Step)
    ensures var t := Do(s, step);
            && (forall id :: id in t.emitters ==>
                  (id in s.emitters && t.emitters[id] == s.emitters[id]) ||
                  (step.Emit? && Brings(step.ev, step.now, t.emitters[id])))
            && (t.accepted == s.accepted ||
                (step.Send? && step.id in s.emitters && t.accepted == s.accepted + [s.emitters[step.id]]))
  {
  }

  /** The bus invents nothing: in every interleaving each event it accepted was
      brought by an Emit call. */
  lemma {:induction false} NothingInvented(steps: seq<Step>)
    ensures var s := Run(START, steps);
            && (forall id :: id in s.emitters ==> Brought(steps, s.emitters[id]))
            && (forall k :: 0 <= k < |s.accepted| ==> Brought(steps, s.accepted[k]))
    decreases |steps|
  {
    if steps != [] {
      var before, last := steps[..|steps| - 1], steps[|steps| - 1];
      NothingInvented(before);
      assert forall id :: id in Run(START, before).emitters ==> Brought(before, Run(START, before).emitters[id]);
      var s, t := Run(START, before), Run(START, steps);
      assert steps == before + [last] && t == Do(s, last);
      StepAdds(s, last);
      forall id | id in t.emitters ensures Brought(steps, t.emitters[id]) {
        BroughtStill(before, last, t.emitters[id]);
      }
      forall k | 0 <= k < |t.accepted| ensures Brought(steps, t.accepted[k]) {
        BroughtStill(before, last, t.accepted[k]);
      }
    }
  }

  /** The worker goes only after a cancel, and an idle one then can. */
  lemma {:induction false} StopsWhenCancelled(steps: seq<Step>)
    ensures var s := Run(START, steps);
            && (s.worker.Gone? ==> Cancel in steps)
            && (s.cancelled <==> Cancel in steps)
            && (Cancel in steps && s.worker.Idle? ==> Enabled(s, Stop) && Do(s, Stop).worker.Gone?)
    decreases |steps|
  {
    if steps != [] {
      var (before, last) := (steps[..|steps| - 1], steps[|steps| - 1]);
      StopsWhenCancelled(before);
      assert steps == before + [last];
      StepCancels(Run(START, before), last);
    }
  }

  lemma StepCancels(s: System, step: Step)
    ensures var t := Do(s, step);
            && (t.cancelled <==> s.cancelled || step.Cancel?)
            && (t.worker.Gone? ==> s.worker.Gone? || s.cancelled)
  {
  }

  // ---------- subscribers ----------

  /** What a dispatch in progress has still to give a subscriber. */
  function InFlight(s: System, id: nat): seq<EventRecord> {
    if s.worker.Calling? && id in s.worker.rest then [s.worker.ev] else []
  }

  function Shown(s: System, id: nat): seq<EventRecord> {
    Given(s.got, id) + InFlight(s, id)
  }

  ghost predicate IdsOk(s: System) {
    && (forall id :: id in s.f.subs ==> id < s.f.nextID)
    && (forall id :: id in s.got ==> id < s.f.nextID)
    && (s.worker.Calling? ==> forall id :: id in s.worker.rest ==> id < s.f.nextID)
  }

  lemma StepKeepsIds(s: System, step: Step)
    requires IdsOk(s)
    ensures IdsOk(Do(s, step))
  {
  }

  lemma {:induction false} ReachableIds(steps: seq<Step>)
    ensures IdsOk(Run(START, steps))
    decreases |steps|
  {
    if steps != [] {
      ReachableIds(steps[..|steps| - 1]);
      StepKeepsIds(Run(START, steps[..|steps| - 1]), steps[|steps| - 1]);
    }
  }

  lemma StepRegistered(s: System, id: nat, from: nat, step: Step)
    requires id in s.f.subs && from <= |s.dispatched| && Shown(s, id) == s.dispatched[from..]
    requires step != Unsubscribe(id)
    ensures var t := Do(s, step); id in t.f.subs && from <= |t.dispatched| && Shown(t, id) == t.dispatched[from..]
  {
    if OfWorker(step) {
      WorkerShows(s, id, step);
    } else {
      OthersKeepWork(s, step);
      OthersKeepSubscriber(s, id, step);
    }
  }

  lemma OthersKeepSubscriber(s: System, id: nat, step: Step)
    requires id in s.f.subs && !OfWorker(step) && step != Unsubscribe(id)
    ensures id in Do(s, step).f.subs
  {
  }

  lemma WorkerShows(s: System, id: nat, step: Step)
    requires id in s.f.subs && OfWorker(step)
    ensures var t := Do(s, step);
            && id in t.f.subs
            && s.dispatched <= t.dispatched
            && Shown(t, id) == Shown(s, id) + t.dispatched[|s.dispatched|..]
  {
    if Enabled(s, step) {
      if step.Copy? {
        assert Shown(Do(s, step), id) == Shown(s, id) + [s.worker.ev];
      } else {
        assert Shown(Do(s, step), id) == Shown(s, id) && Do(s, step).dispatched == s.dispatched;
      }
    }
  }

  /** While a subscriber is registered it is shown whatever is dispatched. */
  lemma {:induction false} WhileRegistered(s: System, id: nat, from: nat, steps: seq<Step>)
    requires id in s.f.subs && from <= |s.dispatched| && Shown(s, id) == s.dispatched[from..]
    requires Unsubscribe(id) !in steps
    ensures var t := Run(s, steps); id in t.f.subs && from <= |t.dispatched| && Shown(t, id) == t.dispatched[from..]
    decreases |steps|
  {
    if steps != [] {
      WhileRegistered(s, id, from, steps[..|steps| - 1]);
      StepRegistered(Run(s, steps[..|steps| - 1]), id, from, steps[|steps| - 1]);
    }
  }

  lemma StepGone(s: System, id: nat, step: Step)
    requires id !in s.f.subs && id < s.f.nextID
    ensures var t := Do(s, step); id !in t.f.subs && id < t.f.nextID && Shown(t, id) == Shown(s, id)
    ensures s.dispatched <= Do(s, step).dispatched
  {
    if Enabled(s, step) && step.Call? {
      assert Given(Do(s, step).got, id) + InFlight(Do(s, step), id) == Shown(s, id);
    }
  }

  /** Afterwards nothing more. */
  lemma {:induction false} OnceGone(s: System, id: nat, steps: seq<Step>)
    requires id !in s.f.subs && id < s.f.nextID
    ensures var t := Run(s, steps); id !in t.f.subs && id < t.f.nextID && Shown(t, id) == Shown(s, id)
    ensures s.dispatched <= Run(s, steps).dispatched
    decreases |steps|
  {
    if steps != [] {
      OnceGone(s, id, steps[..|steps| - 1]);
      StepGone(Run(s, steps[..|steps| - 1]), id, steps[|steps| - 1]);
    }
  }

  /** A subscriber sees, in order and without gaps, exactly the events whose
      dispatch copied the tables between its Subscribe and its Unsubscribe; at
      most the last of them may still be on its way to it. */
  lemma SubscriberSees(before: seq<Step>, during: seq<Step>, after: seq<Step>)
    requires Unsubscribe(Run(START, before).f.nextID) !in during
    ensures var s := Run(START, before);
            var id := s.f.nextID;
            var t := Run(START, before + [Subscribe] + during);
            var u := Run(START, before + [Subscribe] + during + [Unsubscribe(id)] + after);
            && |s.dispatched| <= |t.dispatched|
            && Shown(t, id) == t.dispatched[|s.dispatched|..]
            && Shown(u, id) == t.dispatched[|s.dispatched|..]
            && t.dispatched <= u.dispatched
  {
    var id := Run(START, before).f.nextID;
    var path := before + [Subscribe] + during;
    SubscriberOpens(before, during);
    ReachableIds(path);
    assert (path + [Unsubscribe(id)])[..|path|] == path;
    RunSplits(START, path + [Unsubscribe(id)], after);
    OnceGone(Do(Run(START, path), Unsubscribe(id)), id, after);
  }

  lemma SubscriberOpens(before: seq<Step>, during: seq<Step>)
    requires Unsubscribe(Run(START, before).f.nextID) !in during
    ensures var s := Run(START, before);
            var t := Run(START, before + [Subscribe] + during);
            s.f.nextID in t.f.subs && |s.dispatched| <= |t.dispatched| &&
              Shown(t, s.f.nextID) == t.dispatched[|s.dispatched|..]
  {
    var s := Run(START, before);
    ReachableIds(before);
    var s1 := Do(s, Subscribe);
    assert (before + [Subscribe])[..|before|] == before;
    RunSplits(START, before + [Subscribe], during);
    assert Shown(s1, s.f.nextID) == [] == s1.dispatched[|s.dispatched|..];
    WhileRegistered(s1, s.f.nextID, |s.dispatched|, during);
  }

  // ---------- sinks ----------

  /** What sink `k` was handed, the dispatch in progress included. */
  function Handed(s: System, k: nat): seq<EventRecord>
    requires k < |s.handed|
  {
    s.handed[k] + if s.worker.Calling? && k < s.worker.sinks then [s.worker.ev] else []
  }

  ghost predicate SinksOk(s: System) {
    && |s.handed| == s.f.sinks
    && (s.worker.Calling? ==> s.worker.sinks <= s.f.sinks)
  }

  lemma StepKeepsSinks(s: System, step: Step)
    requires SinksOk(s)
    ensures SinksOk(Do(s, step))
  {
  }

  lemma {:induction false} ReachableSinks(steps: seq<Step>)
    ensures SinksOk(Run(START, steps))
    decreases |steps|
  {
    if steps != [] {
      ReachableSinks(steps[..|steps| - 1]);
      StepKeepsSinks(Run(START, steps[..|steps| - 1]), steps[|steps| - 1]);
    }
  }

  lemma StepAdded(s: System, k: nat, from: nat, step: Step)
    requires SinksOk(s) && k < s.f.sinks && from <= |s.dispatched| && Handed(s, k) == s.dispatched[from..]
    ensures var t := Do(s, step);
            SinksOk(t) && k < t.f.sinks && from <= |t.dispatched| && Handed(t, k) == t.dispatched[from..]
  {
    StepKeepsSinks(s, step);
    if OfWorker(step) {
      WorkerHands(s, k, step);
    } else {
      OthersKeepWork(s, step);
    }
  }

  lemma WorkerHands(s: System, k: nat, step: Step)
    requires SinksOk(s) && k < s.f.sinks && OfWorker(step)
    ensures var t := Do(s, step);
            && k < |t.handed| && t.f.sinks == s.f.sinks && s.dispatched <= t.dispatched
            && Handed(t, k) == Handed(s, k) + t.dispatched[|s.dispatched|..]
  {
    if Enabled(s, step) {
      if step.Copy? {
        assert Handed(Do(s, step), k) == Handed(s, k) + [s.worker.ev];
      } else {
        assert Handed(Do(s, step), k) == Handed(s, k) && Do(s, step).dispatched == s.dispatched;
      }
    }
  }

  lemma {:induction false} OnceAdded(s: System, k: nat, from: nat, steps: seq<Step>)
    requires SinksOk(s) && k < s.f.sinks && from <= |s.dispatched| && Handed(s, k) == s.dispatched[from..]
    ensures var t := Run(s, steps);
            SinksOk(t) && k < t.f.sinks && from <= |t.dispatched| && Handed(t, k) == t.dispatched[from..]
    decreases |steps|
  {
    if steps != [] {
      OnceAdded(s, k, from, steps[..|steps| - 1]);
      StepAdded(Run(s, steps[..|steps| - 1]), k, from, steps[|steps| - 1]);
    }
  }

  /** A sink is handed exactly the events dispatched after it was added. */
  lemma SinkSees(before: seq<Step>, after: seq<Step>)
    ensures var s := Run(START, before);
            var t := Run(START, before + [AddSink] + after);
            && |s.dispatched| <= |t.dispatched| && s.f.sinks < |t.handed|
            && Handed(t, s.f.sinks) == t.dispatched[|s.dispatched|..]
  {
    var s := Run(START, before);
    ReachableSinks(before);
    assert (before + [AddSink])[..|before|] == before;
    RunSplits(START, before + [AddSink], after);
    assert Handed(Do(s, AddSink), s.f.sinks) == [];
    OnceAdded(Do(s, AddSink), s.f.sinks, |s.dispatched|, after);
  }

  predicate AcceptedBy(s: System, k: nat) {
    k < |s.accepted|
  }

  /** Every event the sink has been handed was accepted after it was added. */
  ghost predicate OnlyLater(before: seq<Step>, after: seq<Step>) {
    var s := Run(START, before);
    forall k: nat | |s.dispatched| <= k < |Run(START, before + [AddSink] + after).dispatched| :: !AcceptedBy(s, k)
  }

  /** The worker can always finish its calls ... */
  lemma FinishCalls(s: System) returns (steps: seq<Step>)
    requires s.worker.Calling?
    ensures var t := Run(s, steps); t.worker.Idle? && t.f == s.f && t.dispatched == s.dispatched
    decreases s.worker.rest
  {
    if s.worker.rest == {} {
      steps := [StartSinks];
      assert Run(s, steps[..0]) == s;
    } else {
      var sub :| sub in s.worker.rest;
      var more := FinishCalls(Do(s, Call(sub)));
      steps := [Call(sub)] + more;
      assert Run(s, [Call(sub)][..0]) == s;
      RunSplits(s, [Call(sub)], more);
    }
  }

  /** ... and go on to dispatch the next event there is. */
  lemma DispatchNext(s: System) returns (steps: seq<Step>)
    requires !s.worker.Gone? && (s.f.queue != [] || Uncopied(s.worker))
    ensures |Run(s, steps).dispatched| > |s.dispatched|
    decreases if s.worker.Calling? then 3 else if s.worker.Idle? then 2 else if s.worker.Holding? then 1 else 0
  {
    if s.worker.Appended? {
      steps := [Copy];
      assert Run(s, steps[..0]) == s;
    } else if s.worker.Calling? {
      var calls := FinishCalls(s);
      var more := DispatchNext(Run(s, calls));
      RunSplits(s, calls, more);
      steps := calls + more;
    } else {
      var first := if s.worker.Idle? then Receive else Persist("", ZERO_TIME);
      var more := DispatchNext(Do(s, first));
      assert Run(s, [first][..0]) == s;
      RunSplits(s, [first], more);
      steps := [first] + more;
    }
  }

  /** "Sinks added later only see events emitted after registration" is promised.
      In terms of when events are accepted into the queue it holds of every
      continuation if and only if, when the sink is added, the worker has gone, or
      nothing is queued and the worker has copied the tables for whatever it
      took. */
  lemma OnlyLaterEvents(before: seq<Step>)
    ensures var s := Run(START, before);
            (forall after :: OnlyLater(before, after)) <==> (s.worker.Gone? || (s.f.queue == [] && !Uncopied(s.worker)))
  {
    var s := Run(START, before);
    Reachable(before);
    var s1 := Do(s, AddSink);
    assert (before + [AddSink])[..|before|] == before;
    if s.worker.Gone? {
      forall after ensures OnlyLater(before, after) {
        RunSplits(START, before + [AddSink], after);
        AfterStop(s1, after);
      }
    } else if s.f.queue != [] || Uncopied(s.worker) {
      var after := DispatchNext(s1);
      RunSplits(START, before + [AddSink], after);
      var k := |s.dispatched|;
      assert k < |Run(START, before + [AddSink] + after).dispatched| && AcceptedBy(s, k);
      assert !OnlyLater(before, after);
    }
  }

  // ---------- sinks and Emit calls ----------

  /** Calls in progress and accepted events come from calls there were. */
  ghost predicate CallsOk(s: System) {
    && |s.callOf| == |s.accepted|
    && (forall k :: 0 <= k < |s.callOf| ==> s.callOf[k] < s.calls)
    && (forall id :: id in s.emitters ==> CallOf(s, id) < s.calls)
  }

  lemma StepKeepsCalls(s: System, step: Step)
    requires CallsOk(s)
    ensures CallsOk(Do(s, step))
  {
    if !step.Emit? && !step.Send? { OthersKeepCalls(s, step); }
  }

  lemma OthersKeepCalls(s: System, step: Step)
    requires !step.Emit? && !step.Send?
    ensures var t := Do(s, step);
            && t.callOf == s.callOf && t.accepted == s.accepted && t.calls == s.calls
            && t.begun == s.begun && t.emitters == s.emitters
  {
  }

  lemma {:induction false} ReachableCalls(steps: seq<Step>)
    ensures CallsOk(Run(START, steps))
    decreases |steps|
  {
    if steps != [] {
      ReachableCalls(steps[..|steps| - 1]);
      StepKeepsCalls(Run(START, steps[..|steps| - 1]), steps[|steps| - 1]);
    }
  }

  /** Beyond the first `n` events, all accepted since, and all on their way now,
      come from calls begun at or after call `since`. */
  ghost predicate CallsSince(t: System, n: nat, since: nat) {
    && n <= |t.callOf| && since <= t.calls
    && (forall k :: n <= k < |t.callOf| ==> t.callOf[k] >= since)
    && (forall id :: id in t.emitters ==> CallOf(t, id) >= since)
  }

  lemma StepKeepsSince(t: System, n: nat, since: nat, step: Step)
    requires CallsSince(t, n, since)
    ensures CallsSince(Do(t, step), n, since)
  {
    if !step.Emit? && !step.Send? { OthersKeepCalls(t, step); }
  }

  lemma {:induction false} RunKeepsSince(s: System, n: nat, since: nat, steps: seq<Step>)
    requires CallsSince(s, n, since)
    ensures CallsSince(Run(s, steps), n, since)
    decreases |steps|
  {
    if steps != [] {
      RunKeepsSince(s, n, since, steps[..|steps| - 1]);
      StepKeepsSince(Run(s, steps[..|steps| - 1]), n, since, steps[|steps| - 1]);
    }
  }

  lemma StepKeepsEarlierCalls(s: System, step: Step)
    ensures s.callOf <= Do(s, step).callOf
  {
    if !step.Emit? && !step.Send? { OthersKeepCalls(s, step); }
  }

  lemma {:induction false} CallsStay(s: System, steps: seq<Step>)
    ensures s.callOf <= Run(s, steps).callOf
    decreases |steps|
  {
    if steps != [] {
      CallsStay(s, steps[..|steps| - 1]);
      StepKeepsEarlierCalls(Run(s, steps[..|steps| - 1]), steps[|steps| - 1]);
    }
  }

  predicate CalledBy(s: System, t: System, k: nat) {
    k < |t.callOf| && t.callOf[k] < s.calls
  }

  /** Every event the sink has been handed comes from an Emit call that began
      after it was added. */
  ghost predicate OnlyLaterCalls(before: seq<Step>, after: seq<Step>) {
    var s := Run(START, before);
    var t := Run(START, before + [AddSink] + after);
    forall k: nat | |s.dispatched| <= k < |t.dispatched| :: !CalledBy(s, t, k)
  }

  /** In terms of Emit calls the promise needs, besides, that none is on its way. */
  lemma OnlyLaterEmits(before: seq<Step>)
    ensures var s := Run(START, before);
            (forall after :: OnlyLaterCalls(before, after)) <==>
            (s.worker.Gone? || (s.f.queue == [] && !Uncopied(s.worker) && s.emitters == map[]))
  {
    var s := Run(START, before);
    Reachable(before);
    ReachableCalls(before);
    if s.worker.Gone? || (s.f.queue == [] && !Uncopied(s.worker) && s.emitters == map[]) {
      forall after ensures OnlyLaterCalls(before, after) { LaterCallsOnly(before, after); }
    } else {
      var after := EarlierCallHanded(before);
      assert !OnlyLaterCalls(before, after);
    }
  }

  lemma Added(before: seq<Step>, after: seq<Step>)
    ensures Run(START, before + [AddSink] + after) == Run(Do(Run(START, before), AddSink), after)
  {
    assert (before + [AddSink])[..|before|] == before;
    RunSplits(START, before + [AddSink], after);
  }

  lemma LaterCallsOnly(before: seq<Step>, after: seq<Step>)
    requires var s := Run(START, before);
             s.worker.Gone? || (s.f.queue == [] && !Uncopied(s.worker) && s.emitters == map[])
    ensures OnlyLaterCalls(before, after)
  {
    var s := Run(START, before);
    var s1 := Do(s, AddSink);
    Reachable(before);
    ReachableCalls(before);
    Added(before, after);
    if s.worker.Gone? {
      AfterStop(s1, after);
    } else {
      RunKeepsSince(s1, |s.accepted|, s.calls, after);
    }
  }

  /** Otherwise the next event dispatched is from an earlier call. */
  lemma EarlierCallHanded(before: seq<Step>) returns (after: seq<Step>)
    requires var s := Run(START, before);
             !s.worker.Gone? && (s.f.queue != [] || Uncopied(s.worker) || s.emitters != map[])
    ensures !OnlyLaterCalls(before, after)
  {
    var s := Run(START, before);
    var s1 := Do(s, AddSink);
    Reachable(before);
    ReachableCalls(before);
    var k := |s.dispatched|;
    if s.f.queue != [] || Uncopied(s.worker) {
      after := DispatchNext(s1);
      CallsStay(s1, after);
    } else {
      var id :| id in s.emitters;
      var s2 := Do(s1, Send(id));
      var more := DispatchNext(s2);
      assert Run(s1, [Send(id)][..0]) == s1;
      RunSplits(s1, [Send(id)], more);
      after := [Send(id)] + more;
      CallsStay(s2, more);
    }
    Added(before, after);
    var t := Run(START, before + [AddSink] + after);
    assert k < |t.dispatched| && CalledBy(s, t, k);
  }

  /** Already a single queued event does it. */
  lemma SinkSeesEarlierEvent(ev: EventRecord, now: Time)
    ensures exists after :: !OnlyLater([Emit(0, ev, now), Send(0)], after)
  {
    var steps := [Emit(0, ev, now), Send(0)];
    assert steps[..1][..0] == [];
    assert steps[..1] == [Emit(0, ev, now)];
    assert Run(START, steps[..1]) == Do(START, Emit(0, ev, now));
    OnlyLaterEvents(steps);
  }

  // ---------- stopping ----------

  /** Once the worker has gone nothing is dispatched and new calls are refused;
      an emitter already past the test of `stopped` can still queue an event,
      which is then neither dispatched nor counted as dropped. */
  lemma {:induction false} AfterStop(s: System, steps: seq<Step>)
    requires s.worker.Gone? && s.f.stopped
    ensures NothingMore(s, Run(s, steps))
    decreases |steps|
  {
    if steps != [] {
      AfterStop(s, steps[..|steps| - 1]);
      var t := Run(s, steps[..|steps| - 1]);
      StepAfterStop(t, steps[|steps| - 1]);
      assert t.accepted <= Do(t, steps[|steps| - 1]).accepted;
    }
  }

  ghost predicate NothingMore(s: System, t: System) {
    && t.worker.Gone? && t.f.stopped
    && t.dispatched == s.dispatched && t.taken == s.taken
    && t.emitters.Keys <= s.emitters.Keys
    && t.calls - s.calls == t.refused - s.refused
    && s.accepted <= t.accepted
    && |t.accepted| - |s.accepted| <= |s.emitters| - |t.emitters|
  }

  lemma StepAfterStop(s: System, step: Step)
    requires s.worker.Gone? && s.f.stopped
    ensures NothingMore(s, Do(s, step))
  {
    if Enabled(s, step) && step.Send? {
      assert |s.emitters - {step.id}| == |s.emitters| - 1;
    }
  }
}
