/** Whole runs of the reconciler over one container that nobody else writes. */
module ReconcileRuns {
  import opened Options
  import opened Numerals
  import opened Records
  import opened Stores
  import opened Containers

  /** The stored record, the reconciler's memory of it and the events about it
      still queued. */
  datatype World = World(rec: Container, st: RState, pending: nat)

  /** What a stretch of passes did besides changing the world: the Start calls
      and the self-writes it made. */
  datatype Tally = Tally(w: World, starts: nat, writes: nat)

  /** One pass over the stored record. A write of the reconciler's own queues
      one more event unless the subscriber's channel is full. */
  function PassOver(t: Tally, nodeID: string, o: Surroundings, dropped: bool): Tally {
    var r := Pass(t.w.st, t.w.rec, nodeID, o);
    Tally(World(if r.put then r.c else t.w.rec, r.st, t.w.pending + (if r.put && !dropped then 1 else 0)),
          t.starts + (if r.started then 1 else 0), t.writes + (if r.put then 1 else 0))
  }

  function Handle(t: Tally, nodeID: string, o: Surroundings, dropped: bool): Tally
    requires t.w.pending > 0
  {
    PassOver(t.(w := t.w.(pending := t.w.pending - 1)), nodeID, o, dropped)
  }

  /** The event loop until the queue is empty or the surroundings given run out. */
  function Drain(t: Tally, nodeID: string, os: seq<(Surroundings, bool)>): Tally
    decreases |os|
  {
    if t.w.pending == 0 || os == [] then t else Drain(Handle(t, nodeID, os[0].0, os[0].1), nodeID, os[1..])
  }

  ghost predicate Monotone(os: seq<(Surroundings, bool)>) {
    forall i, j :: 0 <= i < j < |os| ==> os[i].0.now <= os[j].0.now
  }

  /** While the queue drains, every pass that finds the container failed comes
      before its next attempt is due. */
  predicate BeforeRetries(t: Tally, nodeID: string, os: seq<(Surroundings, bool)>)
    decreases |os|
  {
    t.w.pending > 0 && os != [] ==>
      && (t.w.rec.status.phase == Failed ==> os[0].0.now < t.w.st.nextAttempt)
      && BeforeRetries(Handle(t, nodeID, os[0].0, os[0].1), nodeID, os[1..])
  }

  /** The pass finds nothing to do for this record at time `now`. */
  predicate Idle(st: RState, c: Container, nodeID: string, now: int) {
    Elsewhere(c, nodeID) || c.status.phase == Stopped ||
    (c.status.phase == Failed && now < st.nextAttempt)
  }

  lemma IdlePass(st: RState, c: Container, nodeID: string, o: Surroundings)
    requires Idle(st, c, nodeID, o.now)
    ensures var r := Pass(st, c, nodeID, o); r.c == c && !r.put && !r.started && r.st == st
  {
  }

  /** Started by the reconciler on this node, in memory as such. */
  predicate RunningHere(st: RState, c: Container, nodeID: string) {
    st.startedOK && c.status.phase == Running && c.nodeID == nodeID
  }

  /** After a pass that wrote, either the container is stopped or failed, or it
      runs here under a generation the memory has not seen. */
  predicate Echoing(st: RState, c: Container, nodeID: string) {
    || c.status.phase == Stopped
    || c.status.phase == Failed
    || (RunningHere(st, c, nodeID) && st.lastGen != c.meta.generation)
  }

  lemma AfterWrite(st: RState, c: Container, nodeID: string, o: Surroundings)
    requires Pass(st, c, nodeID, o).put
    ensures var r := Pass(st, c, nodeID, o);
            && Echoing(r.st, r.c, nodeID) && !Elsewhere(r.c, nodeID)
            && (r.c.status.phase != Stopped ==> r.started)
  {
    StartWrite(st, c, nodeID, o);
    StartWrite(st.(lastAliveCheck := o.now, startedOK := false), c, nodeID, o);
  }

  lemma StartWrite(st: RState, c: Container, nodeID: string, o: Surroundings)
    ensures var r := StartPass(st, c, nodeID, o); r.put ==> r.started && Echoing(r.st, r.c, nodeID)
  {
  }

  /** A pass over a container that runs here under an unseen generation starts
      it again and writes only if that fails. */
  lemma SecondStart(st: RState, c: Container, nodeID: string, o: Surroundings)
    requires RunningHere(st, c, nodeID) && st.lastGen != c.meta.generation
    ensures var r := Pass(st, c, nodeID, o); r.started && (r.put ==> r.c.status.phase == Failed)
  {
  }

  /** The reconciler does not loop on its own writes while the clock stays before
      the next attempt: whatever Start and the probe answer and however long
      Start takes, one event costs at most two Start calls and two writes before
      the queue is empty, and three passes empty it. */
  lemma OneStimulusIsBounded(rec: Container, st: RState, nodeID: string, os: seq<(Surroundings, bool)>)
    requires os != [] ==>
      BeforeRetries(Handle(Tally(World(rec, st, 1), 0, 0), nodeID, os[0].0, os[0].1), nodeID, os[1..])
    ensures var t := Drain(Tally(World(rec, st, 1), 0, 0), nodeID, os);
            t.starts <= 2 && t.writes <= 2 && (|os| >= 3 ==> t.w.pending == 0)
  {
    if os != [] {
      var t1 := Handle(Tally(World(rec, st, 1), 0, 0), nodeID, os[0].0, os[0].1);
      assert Drain(Tally(World(rec, st, 1), 0, 0), nodeID, os) == Drain(t1, nodeID, os[1..]);
      if t1.w.pending > 0 {
        AfterWrite(st, rec, nodeID, os[0].0);
        EchoIsBounded(t1, nodeID, os[1..]);
      }
    }
  }

  /** The events a self-write sends back to the reconciler. */
  lemma EchoIsBounded(t: Tally, nodeID: string, os: seq<(Surroundings, bool)>)
    requires t.w.pending == 1 && t.starts <= 1 && t.writes <= 1
    requires BeforeRetries(t, nodeID, os) && Echoing(t.w.st, t.w.rec, nodeID)
    ensures var t' := Drain(t, nodeID, os);
            t'.starts <= 2 && t'.writes <= 2 && (|os| >= 2 ==> t'.w.pending == 0)
  {
    if os != [] {
      var t2 := Handle(t, nodeID, os[0].0, os[0].1);
      assert Drain(t, nodeID, os) == Drain(t2, nodeID, os[1..]);
      if RunningHere(t.w.st, t.w.rec, nodeID) {
        SecondStart(t.w.st, t.w.rec, nodeID, os[0].0);
        if t2.w.pending > 0 && |os| > 1 {
          assert os[1..][0] == os[1];
          IdlePass(t2.w.st, t2.w.rec, nodeID, os[1].0);
          var t3 := Handle(t2, nodeID, os[1].0, os[1].1);
          assert Drain(t2, nodeID, os[1..]) == Drain(t3, nodeID, os[1..][1..]) == t3;
        }
      } else {
        IdlePass(t.w.st, t.w.rec, nodeID, os[0].0);
        assert Drain(t2, nodeID, os[1..]) == t2;
      }
    }
  }

  /** The next pass finds the container running, or failed with its next attempt
      due. */
  predicate NextStarts(t: Tally, os: seq<(Surroundings, bool)>) {
    os != [] && (t.w.rec.status.phase == Failed ==> os[0].0.now >= t.w.st.nextAttempt)
  }

  /** The next pass writes, its event comes back, and the one after it starts. */
  predicate EchoStarts(t: Tally, nodeID: string, os: seq<(Surroundings, bool)>)
    requires t.w.pending > 0
  {
    os != [] &&
    var t' := Handle(t, nodeID, os[0].0, os[0].1);
    t'.w.pending > 0 && NextStarts(t', os[1..])
  }

  /** Exactly when the bound is broken: the events of the first two passes' writes
      came back, and the third pass does not find a container that failed before
      its next attempt is due. Nothing else can break it; a late echo whose Start
      fails with the stored message, say, does not. */
  lemma BoundIsExact(rec: Container, st: RState, nodeID: string, os: seq<(Surroundings, bool)>)
    ensures var t0 := Tally(World(rec, st, 1), 0, 0);
            var t := Drain(t0, nodeID, os);
            t.starts > 2 || t.writes > 2 <==>
            && os != []
            && var t1 := Handle(t0, nodeID, os[0].0, os[0].1);
               t1.w.pending > 0 && EchoStarts(t1, nodeID, os[1..])
  {
    var t0 := Tally(World(rec, st, 1), 0, 0);
    if os != [] {
      var t1 := Handle(t0, nodeID, os[0].0, os[0].1);
      assert Drain(t0, nodeID, os) == Drain(t1, nodeID, os[1..]);
      if t1.w.pending > 0 {
        AfterWrite(st, rec, nodeID, os[0].0);
        SecondStage(t1, nodeID, os[1..]);
      }
    }
  }

  lemma SecondStage(t: Tally, nodeID: string, os: seq<(Surroundings, bool)>)
    requires t.w.pending == 1 && t.starts <= 1 && t.writes <= 1
    requires Echoing(t.w.st, t.w.rec, nodeID) && !Elsewhere(t.w.rec, nodeID)
    requires t.w.rec.status.phase != Stopped ==> t.starts == 1
    ensures var t' := Drain(t, nodeID, os); t'.starts > 2 || t'.writes > 2 <==> EchoStarts(t, nodeID, os)
  {
    if os != [] {
      var t2 := Handle(t, nodeID, os[0].0, os[0].1);
      assert Drain(t, nodeID, os) == Drain(t2, nodeID, os[1..]);
      EchoedTwice(t, nodeID, os[0].0, os[0].1);
      if t2.w.pending > 0 {
        ThirdStage(t2, nodeID, os[1..]);
      }
    }
  }

  lemma ThirdStage(t: Tally, nodeID: string, os: seq<(Surroundings, bool)>)
    requires t.w.pending == 1 && t.starts == 2 && t.writes <= 2 && t.w.rec.status.phase != Stopped
    requires Echoing(t.w.st, t.w.rec, nodeID) && !Elsewhere(t.w.rec, nodeID)
    ensures var t' := Drain(t, nodeID, os); t'.starts > 2 || t'.writes > 2 <==> NextStarts(t, os)
  {
    if os != [] {
      var t3 := Handle(t, nodeID, os[0].0, os[0].1);
      assert Drain(t, nodeID, os) == Drain(t3, nodeID, os[1..]);
      ThirdPass(t, nodeID, os[0].0, os[0].1);
      CountsGrow(t3, nodeID, os[1..]);
    }
  }

  /** Two self-writes that came back were both made after a Start. */
  lemma EchoedTwice(t: Tally, nodeID: string, o: Surroundings, dropped: bool)
    requires t.w.pending == 1 && t.starts <= 1 && t.writes <= 1
    requires Echoing(t.w.st, t.w.rec, nodeID) && !Elsewhere(t.w.rec, nodeID)
    requires t.w.rec.status.phase != Stopped ==> t.starts == 1
    ensures var t' := Handle(t, nodeID, o, dropped);
            && t'.starts <= 2 && t'.writes <= 2 && t'.w.pending <= 1
            && (t'.w.pending > 0 ==>
                  t'.starts == 2 && t'.w.rec.status.phase != Stopped && Echoing(t'.w.st, t'.w.rec, nodeID))
            && !Elsewhere(t'.w.rec, nodeID)
  {
    if RunningHere(t.w.st, t.w.rec, nodeID) {
      SecondStart(t.w.st, t.w.rec, nodeID, o);
    }
    StartWrite(t.w.st, t.w.rec, nodeID, o);
  }

  lemma ThirdPass(t: Tally, nodeID: string, o: Surroundings, dropped: bool)
    requires t.w.pending == 1 && t.starts == 2 && t.writes <= 2 && t.w.rec.status.phase != Stopped
    requires Echoing(t.w.st, t.w.rec, nodeID) && !Elsewhere(t.w.rec, nodeID)
    ensures var t' := Handle(t, nodeID, o, dropped);
            if t.w.rec.status.phase == Failed ==> o.now >= t.w.st.nextAttempt then t'.starts == 3
            else t'.starts == 2 && t'.writes == t.writes && t'.w.pending == 0
  {
  }

  lemma {:induction false} CountsGrow(t: Tally, nodeID: string, os: seq<(Surroundings, bool)>)
    ensures var t' := Drain(t, nodeID, os); t'.starts >= t.starts && t'.writes >= t.writes
    decreases |os|
  {
    if t.w.pending != 0 && os != [] {
      CountsGrow(Handle(t, nodeID, os[0].0, os[0].1), nodeID, os[1..]);
    }
  }

  /** The clock is read before Start runs, so an echo can come at or after the
      next attempt. A pass that then finds the container failed starts it at
      once, and writes again if and only if the start succeeds or fails with
      another message. */
  lemma LateEchoStarts(st: RState, c: Container, nodeID: string, o: Surroundings)
    requires c.status.phase == Failed && !Elsewhere(c, nodeID) && o.now >= st.nextAttempt && c.meta.name != ""
    ensures var r := Pass(st, c, nodeID, o);
            r.started && (r.put <==> o.start.Started? || o.start.message != c.status.message)
  {
  }

  /** Every pass of the stretch comes at or after the next attempt, finds the
      channel free, and its Start fails with a message not stored before. */
  predicate LateFailures(t: Tally, nodeID: string, os: seq<(Surroundings, bool)>)
    decreases |os|
  {
    os != [] ==>
      var (o, dropped) := os[0];
      && t.w.pending > 0 && o.now >= t.w.st.nextAttempt && !dropped
      && o.start.StartFailed? && o.start.message != t.w.rec.status.message
      && LateFailures(Handle(t, nodeID, o, dropped), nodeID, os[1..])
  }

  /** Then the reconciler does loop on its own writes: of one event come as many
      Start calls and writes as there are passes, and one more is queued. */
  lemma {:induction false} LateEchoesLoop(t: Tally, nodeID: string, os: seq<(Surroundings, bool)>)
    requires t.w.pending == 1 && t.w.rec.status.phase == Failed && !Elsewhere(t.w.rec, nodeID) &&
      t.w.rec.meta.name != ""
    requires LateFailures(t, nodeID, os)
    ensures var t' := Drain(t, nodeID, os);
            t'.starts == t.starts + |os| && t'.writes == t.writes + |os| && t'.w.pending == 1
    decreases |os|
  {
    if os != [] {
      LateEchoStarts(t.w.st, t.w.rec, nodeID, os[0].0);
      SpecIsKept(t.w.st, t.w.rec, nodeID, os[0].0);
      LateEchoesLoop(Handle(t, nodeID, os[0].0, os[0].1), nodeID, os[1..]);
    }
  }

  /** Such a stretch exists from every failed container, of any length. */
  lemma {:induction false} LateFailuresHappen(t: Tally, nodeID: string, n: nat) returns (os: seq<(Surroundings, bool)>)
    requires t.w.pending == 1 && t.w.rec.status.phase == Failed && !Elsewhere(t.w.rec, nodeID) &&
      t.w.rec.meta.name != ""
    ensures |os| == n && LateFailures(t, nodeID, os)
    decreases n
  {
    if n == 0 {
      os := [];
    } else {
      var msg := if t.w.rec.status.message == "no such image" then "timeout" else "no such image";
      var o := Surroundings(t.w.st.nextAttempt, NoHook, StartFailed(msg), None, Mint("", 0, 0));
      LateEchoStarts(t.w.st, t.w.rec, nodeID, o);
      SpecIsKept(t.w.st, t.w.rec, nodeID, o);
      var rest := LateFailuresHappen(Handle(t, nodeID, o, false), nodeID, n - 1);
      os := [(o, false)] + rest;
    }
  }

  // ---------- the fixed point ----------

  predicate SettledHere(w: World, nodeID: string) {
    SettledSpec(w.st, w.rec) && !Elsewhere(w.rec, nodeID)
  }

  /** With a runtime whose Start succeeds, one event about a container that is
      not to be left alone settles it within two passes. */
  lemma TwoPassesSettle(rec: Container, st: RState, nodeID: string, os: seq<(Surroundings, bool)>)
    requires |os| >= 2 && os[0].0.start.Started? && os[1].0.start.Started? && !os[0].1
    requires os[0].0.probe != Gone || rec.policy in {Always, OnFailure}
    requires rec.meta.name != "" && !Idle(st, rec, nodeID, os[0].0.now)
    ensures var t := Drain(Tally(World(rec, st, 1), 0, 0), nodeID, os[..2]);
            t.w.pending == 0 && SettledHere(t.w, nodeID) && t.writes <= 1
  {
    var r := Pass(st, rec, nodeID, os[0].0);
    var t0 := Tally(World(rec, st, 1), 0, 0);
    var t1 := Handle(t0, nodeID, os[0].0, os[0].1);
    var os1 := os[..2][1..];
    assert os[..2][0] == os[0] && os1 == [os[1]];
    SpecIsKept(st, rec, nodeID, os[0].0);
    if t1.w.pending > 0 {
      AfterWrite(st, rec, nodeID, os[0].0);
      var t2 := Handle(t1, nodeID, os1[0].0, os1[0].1);
      assert Drain(t2, nodeID, os1[1..]) == t2;
    }
  }

  /** Any number of later passes, on ticks or events. */
  function Passes(t: Tally, nodeID: string, os: seq<(Surroundings, bool)>): Tally
    decreases |os|
  {
    if os == [] then t else
    var last := os[|os| - 1];
    PassOver(Passes(t, nodeID, os[..|os| - 1]), nodeID, last.0, last.1)
  }

  /** Later passes never write a settled record while starts succeed and the
      container either stays alive or may be restarted by the node it names. */
  lemma {:induction false} SettledStaysUnwritten(w: World, nodeID: string, os: seq<(Surroundings, bool)>)
    requires SettledHere(w, nodeID)
    requires forall i :: 0 <= i < |os| ==>
      os[i].0.start.Started? &&
      (os[i].0.probe != Gone || (w.rec.policy in {Always, OnFailure} && w.rec.nodeID == nodeID))
    ensures var t := Passes(Tally(w, 0, 0), nodeID, os);
            t.writes == 0 && t.w.rec == w.rec && t.w.pending == w.pending && SettledHere(t.w, nodeID) &&
            ((forall i :: 0 <= i < |os| ==> os[i].0.probe != Gone) ==> t.starts == 0)
    decreases |os|
  {
    if os != [] {
      var init, last := os[..|os| - 1], os[|os| - 1];
      SettledStaysUnwritten(w, nodeID, init);
      var t := Passes(Tally(w, 0, 0), nodeID, init);
      SpecIsKept(t.w.st, t.w.rec, nodeID, last.0);
    }
  }

  // ---------- containers to be left alone ----------

  /** A container that is stopped or assigned elsewhere is neither started nor
      written, however long the reconciler runs. */
  lemma {:induction false} LeftAlone(w: World, nodeID: string, os: seq<(Surroundings, bool)>)
    requires (w.rec.nodeID != "" && w.rec.nodeID != nodeID) || w.rec.status.phase == Stopped
    ensures Passes(Tally(w, 0, 0), nodeID, os) == Tally(w, 0, 0)
    decreases |os|
  {
    if os != [] {
      LeftAlone(w, nodeID, os[..|os| - 1]);
    }
  }

  /** A settled container that exits is noticed by the second of two passes more
      than eight seconds apart - ten-second ticks - whatever passes come
      between: it is started if the policy is Always or OnFailure, and stopped if it
      is Never or unset. */
  lemma {:induction false} ExitIsHandled(w: World, nodeID: string, os: seq<(Surroundings, bool)>)
    requires SettledHere(w, nodeID) && w.rec.meta.name != ""
    requires |os| >= 2 && Monotone(os) && os[|os| - 1].0.now - os[0].0.now > 8 * SECOND
    requires w.st.lastAliveCheck <= os[0].0.now
    requires forall i :: 0 <= i < |os| ==> os[i].0.probe == Gone
    ensures var t := Passes(Tally(w, 0, 0), nodeID, os);
            if w.rec.policy in {Always, OnFailure} then t.starts >= 1
            else t.starts == 0 && t.w.rec.status.phase == Stopped
  {
    UnnoticedOrHandled(w, nodeID, os[..|os| - 1]);
  }

  lemma {:induction false} UnnoticedOrHandled(w: World, nodeID: string, os: seq<(Surroundings, bool)>)
    requires SettledHere(w, nodeID) && w.rec.meta.name != ""
    requires forall i :: 0 <= i < |os| ==> os[i].0.probe == Gone
    ensures var t := Passes(Tally(w, 0, 0), nodeID, os);
            || (t.w.rec == w.rec && t.w.st == w.st && t.starts == 0)
            || (if w.rec.policy in {Always, OnFailure} then t.starts >= 1
                else t.starts == 0 && t.w.rec.status.phase == Stopped)
    decreases |os|
  {
    if os != [] {
      UnnoticedOrHandled(w, nodeID, os[..|os| - 1]);
    }
  }
}
