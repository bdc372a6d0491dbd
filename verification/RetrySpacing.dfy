/** How far apart the reconciler's Start calls are while a container fails. */
module RetrySpacing {
  import opened Numerals
  import opened Records
  import opened Containers

  /** The backoff loop of a failing pass. */
  method ComputeBackoff(attempts: nat) returns (backoff: int)
    requires attempts > 0
    ensures backoff == Backoff(attempts)
  {
    backoff := 5 * SECOND;
    var i := 1;
    while i < attempts && backoff < 300 * SECOND
      invariant 1 <= i <= attempts
      invariant backoff == 5 * Pow2(i - 1) * SECOND
      invariant i == 1 || 5 * Pow2(i - 2) < 300
      decreases attempts - i
    {
      backoff := backoff * 2;
      i := i + 1;
    }
    if i < attempts {
      Pow2Grows(i - 1, attempts - 1);
    }
    if backoff > 300 * SECOND {
      backoff := 300 * SECOND;
    }
  }

  lemma {:induction false} Pow2Grows(m: nat, n: nat)
    requires m <= n
    ensures Pow2(m) <= Pow2(n)
  {
    if m < n { Pow2Grows(m, n - 1); }
  }

  /** One Start call: when its pass began, whether it failed, and the failure
      count after it. */
  datatype Attempt = Attempt(at: int, failed: bool, streak: nat)

  datatype History = History(rec: Container, st: RState, attempts: seq<Attempt>)

  function Step(h: History, nodeID: string, o: Surroundings): History {
    var r := Pass(h.st, h.rec, nodeID, o);
    History(if r.put then r.c else h.rec, r.st,
            if r.started then h.attempts + [Attempt(o.now, o.start.StartFailed?, r.st.attempts)] else h.attempts)
  }

  /** Any passes over a record nobody else writes or deletes, oldest first. */
  function Record(h: History, nodeID: string, os: seq<Surroundings>): History
    decreases |os|
  {
    if os == [] then h else Step(Record(h, nodeID, os[..|os| - 1]), nodeID, os[|os| - 1])
  }

  ghost predicate ClockRuns(os: seq<Surroundings>) {
    forall i, j :: 0 <= i < j < |os| ==> os[i].now <= os[j].now
  }

  /** Successive attempts: after a failure the next Start waits out the backoff
      of the streak so far, and the streak counts on. */
  ghost predicate Follows(a: Attempt, b: Attempt) {
    && a.at <= b.at
    && (a.failed ==> a.streak > 0 && b.at >= a.at + Backoff(a.streak))
    && b.streak == if b.failed then a.streak + 1 else 0
  }

  ghost predicate Spaced(attempts: seq<Attempt>) {
    forall i, j :: 0 <= i && j == i + 1 < |attempts| ==> Follows(attempts[i], attempts[j])
  }

  /** What the memory and the record say about the last attempt. */
  ghost predicate Remembers(h: History) {
    h.attempts != [] ==>
      var last := h.attempts[|h.attempts| - 1];
      && h.st.attempts == last.streak
      && (last.failed ==> last.streak > 0 && !h.st.startedOK && h.rec.status.phase == Failed &&
                          h.st.nextAttempt == last.at + Backoff(last.streak))
  }

  lemma StepKeepsSpacing(h: History, nodeID: string, o: Surroundings)
    requires h.rec.meta.name != "" && Spaced(h.attempts) && Remembers(h)
    requires forall i :: 0 <= i < |h.attempts| ==> h.attempts[i].at <= o.now
    ensures var h' := Step(h, nodeID, o);
            h'.rec.meta.name != "" && Spaced(h'.attempts) && Remembers(h') &&
            forall i :: 0 <= i < |h'.attempts| ==> h'.attempts[i].at <= o.now
  {
    SpecIsKept(h.st, h.rec, nodeID, o);
    var r := Pass(h.st, h.rec, nodeID, o);
    StartOutcome(h.st, h.rec, nodeID, o);
    var h' := Step(h, nodeID, o);
    if r.started {
      var n := |h.attempts|;
      assert n > 0 ==> Follows(h.attempts[n - 1], h'.attempts[n]);
    }
  }

  lemma StartOutcome(st: RState, c: Container, nodeID: string, o: Surroundings)
    requires c.meta.name != ""
    ensures var r := Pass(st, c, nodeID, o);
            && (r.started && o.start.StartFailed? ==>
                  r.st.attempts == st.attempts + 1 && !r.st.startedOK &&
                  r.st.nextAttempt == o.now + Backoff(r.st.attempts) &&
                  (if r.put then r.c.status.phase == Failed else c.status.phase == Failed))
            && (r.started && o.start.Started? ==> r.st.attempts == 0)
            && (r.started && c.status.phase == Failed ==> o.now >= st.nextAttempt)
            && (!r.started ==> r.st.attempts == st.attempts && r.st.nextAttempt == st.nextAttempt &&
                               (!st.startedOK ==> !r.st.startedOK && !r.put))
  {
  }

  /** Retry spacing, over every run: whatever the probes, the ticks and the
      events in between, the Start after a failure that ended a streak of k
      begins at least min(5 * 2^(k-1), 300) seconds after that failure began. */
  lemma {:induction false} RetriesAreSpaced(rec: Container, st: RState, nodeID: string, os: seq<Surroundings>)
    requires rec.meta.name != "" && ClockRuns(os)
    ensures var h := Record(History(rec, st, []), nodeID, os);
            h.rec.meta.name != "" && Spaced(h.attempts) && Remembers(h) &&
            forall i :: 0 <= i < |h.attempts| && os != [] ==> h.attempts[i].at <= os[|os| - 1].now
    decreases |os|
  {
    if os != [] {
      var init := os[..|os| - 1];
      RetriesAreSpaced(rec, st, nodeID, init);
      if init == [] {
        assert Record(History(rec, st, []), nodeID, init).attempts == [];
      }
      StepKeepsSpacing(Record(History(rec, st, []), nodeID, init), nodeID, os[|os| - 1]);
    }
  }

  /** The streak of a failing stretch that starts afresh, seen from its k-th
      failure. */
  ghost predicate FailsFrom(attempts: seq<Attempt>, first: nat, n: nat) {
    n > 0 && first + n <= |attempts| && attempts[first].streak == 1 &&
    forall i :: first <= i < first + n ==> attempts[i].failed
  }

  /** So n >= 7 consecutive failures span at least 315 + 300 * (n - 7) seconds;
      fewer span the sum of their backoffs, 5 * (2^(n-1) - 1). */
  lemma {:induction false} FailuresSpan(attempts: seq<Attempt>, first: nat, n: nat)
    requires Spaced(attempts) && FailsFrom(attempts, first, n)
    ensures attempts[first + n - 1].streak == n
    ensures attempts[first + n - 1].at - attempts[first].at >=
            (if n < 7 then 5 * (Pow2(n - 1) - 1) else 315 + 300 * (n - 7)) * SECOND
    decreases n
  {
    if n > 1 {
      FailuresSpan(attempts, first, n - 1);
      var i := first + n - 2;
      assert Follows(attempts[i], attempts[i + 1]);
      if n <= 7 {
        assert Pow2(5) == 32 by { assert Pow2(3) == 8; }
        Pow2Grows(n - 2, 5);
      } else {
        assert Pow2(6) == 64 by { assert Pow2(3) == 8; }
        Pow2Grows(6, n - 2);
      }
    }
  }

  lemma SevenFailures(rec: Container, st: RState, nodeID: string, os: seq<Surroundings>, first: nat, n: nat)
    requires rec.meta.name != "" && ClockRuns(os) && n >= 7
    requires FailsFrom(Record(History(rec, st, []), nodeID, os).attempts, first, n)
    ensures var a := Record(History(rec, st, []), nodeID, os).attempts;
            a[first + n - 1].at - a[first].at >= (315 + 300 * (n - 7)) * SECOND
  {
    RetriesAreSpaced(rec, st, nodeID, os);
    FailuresSpan(Record(History(rec, st, []), nodeID, os).attempts, first, n);
  }
}
