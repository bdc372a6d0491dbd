/** Webhook deliveries: the retry loop and the records it leaves in the store. */
module Webhooks {
  import opened Options
  import opened Numerals
  import opened Records
  import opened Stores

  /** What an attempt meets: a request that cannot be built, a transport error,
      or a response. */
  datatype Outcome = BadRequest(msg: string) | TransportError(msg: string) | Response(status: nat)

  /** A rule's webhook and the event it fires for. */
  datatype Job = Job(project: string, rule: string, eventUid: string)

  const ATTEMPTS := 5

  predicate Accepted(o: Outcome) {
    o.Response? && 200 <= o.status < 300
  }

  /** An attempt that was sent and is retried. */
  predicate Fails(o: Outcome) {
    !o.BadRequest? && !Accepted(o)
  }

  function Decimal(n: nat): string {
    if n < 10 then [Digit(n)] else Decimal(n / 10) + [Digit(n % 10)]
  }

  function ErrorText(o: Outcome): string {
    if o.Response? then "http " + Decimal(o.status) else o.msg
  }

  /** Seconds to sleep after a failed attempt. */
  function SleepAfter(attempt: nat): nat
    requires attempt > 0
  {
    var d := Pow2(attempt - 1);
    if d > 60 then 60 else d
  }

  // ---------- names ----------

  function DeliveryName(rule: string, eventUid: string, attempt: nat): string
    requires attempt < 10
  {
    rule + "-" + eventUid + "-" + [Digit(attempt)]
  }

  function DeliveryKey(j: Job, attempt: nat): string
    requires attempt < 10
  {
    KeyFor(if j.project == "" then "default" else j.project, DeliveryName(j.rule, j.eventUid, attempt))
  }

  /** Exactly when two deliveries share a name: the attempts agree, and so do
      rule and event or else one rule continues the other across a dash that the
      other's event uid supplies. */
  lemma NamesCollide(r: string, u: string, a: nat, q: string, v: string, b: nat)
    requires a < 10 && b < 10 && |r| <= |q|
    ensures DeliveryName(r, u, a) == DeliveryName(q, v, b) <==>
            a == b && ((r == q && u == v) || (r + "-" <= q && u == q[|r| + 1..] + "-" + v))
  {
    DigitOrder(a, b);
    var m, n := DeliveryName(r, u, a), DeliveryName(q, v, b);
    assert r + "-" <= q ==> q == r + "-" + q[|r| + 1..];
    if m == n {
      assert m[|m| - 1] == Digit(a) && n[|n| - 1] == Digit(b);
      assert m[..|r|] == r && n[..|q|] == q && m[|r| + 1..|m| - 2] == u && n[|q| + 1..|n| - 2] == v;
      if |r| < |q| {
        assert r + "-" == m[..|r| + 1] && q == m[..|q|];
        assert u == m[|r| + 1..|q|] + m[|q|..|q| + 1] + m[|q| + 1..|m| - 2];
      }
    }
  }

  predicate DashFree(s: string) {
    '-' !in s
  }

  /** Event uids have no dash and projects no slash, so the key determines rule,
      event and attempt: no two deliveries touch each other's records. */
  lemma DeliveryKeysAreDistinct(i: Job, a: nat, j: Job, b: nat)
    requires a < 10 && b < 10 && DashFree(i.eventUid) && DashFree(j.eventUid)
    requires i.project != "" && j.project != "" && SlashFree(i.project) && SlashFree(j.project)
    requires DeliveryKey(i, a) == DeliveryKey(j, b)
    ensures i == j && a == b
  {
    KeyForInjective(i.project, DeliveryName(i.rule, i.eventUid, a), j.project, DeliveryName(j.rule, j.eventUid, b));
    if |i.rule| <= |j.rule| {
      NamesCollide(i.rule, i.eventUid, a, j.rule, j.eventUid, b);
    } else {
      NamesCollide(j.rule, j.eventUid, b, i.rule, i.eventUid, a);
    }
  }

  // ---------- what a delivery leaves behind ----------

  predicate AllFail(outcomes: seq<Outcome>, n: nat)
    requires n <= |outcomes|
  {
    forall i :: 0 <= i < n ==> Fails(outcomes[i])
  }

  /** How many attempts fail before one is accepted, cannot be built, or the
      attempts run out. */
  function Failures(outcomes: seq<Outcome>): (n: nat)
    ensures n <= |outcomes|
    ensures AllFail(outcomes, n)
    ensures n < |outcomes| ==> !Fails(outcomes[n])
  {
    if outcomes == [] || !Fails(outcomes[0]) then 0 else 1 + Failures(outcomes[1..])
  }

  predicate Succeeds(outcomes: seq<Outcome>) {
    var n := Failures(outcomes);
    n < |outcomes| && Accepted(outcomes[n])
  }

  /** The status of the last response, 0 if there was none. */
  function LastStatus(outcomes: seq<Outcome>): int
  {
    if outcomes == [] then 0 else
    var o := outcomes[|outcomes| - 1];
    if o.Response? then o.status else LastStatus(outcomes[..|outcomes| - 1])
  }

  function Status(o: Outcome): int {
    if o.Response? then o.status else 0
  }

  /** One call of recordDelivery, as a write of a new resource. */
  function Write1(j: Job, attempt: nat, status: int, error: string, done: bool, mint: Mint): ScopedOp
    requires attempt < 10
  {
    Write(KindEventRule,
          Resource(Meta(j.project, DeliveryName(j.rule, j.eventUid, attempt), "", 0, 0, 0, None),
                   Delivery(j.rule, status, error, attempt, done, j.eventUid)),
          mint)
  }

  /** The record that closes the delivery. */
  function Closing(j: Job, outcomes: seq<Outcome>, mint: Mint): ScopedOp
    requires |outcomes| == ATTEMPTS
  {
    var n := Failures(outcomes);
    if Succeeds(outcomes) then Write1(j, n + 1, outcomes[n].status, "", true, mint)
    else
      var last := outcomes[if n < ATTEMPTS then n else n - 1];
      Write1(j, ATTEMPTS, LastStatus(outcomes[..n]), "exhausted: " + ErrorText(last), true, mint)
  }

  // ---------- which attempt ends it, and how ----------

  /** Attempts are retried after a transport error or a response outside 200 to
      299; a response inside ends the delivery as a success, a request that cannot
      be built ends it at once. */
  lemma RetriedUntil2xx(outcomes: seq<Outcome>)
    ensures var n := Failures(outcomes);
            && (forall i :: 0 <= i < n ==>
                  outcomes[i].TransportError? || (outcomes[i].Response? && !(200 <= outcomes[i].status < 300)))
            && (n < |outcomes| ==>
                  outcomes[n].BadRequest? || (outcomes[n].Response? && 200 <= outcomes[n].status < 300))
            && (Succeeds(outcomes) <==> n < |outcomes| && outcomes[n].Response?)
            && (|outcomes| == ATTEMPTS ==> LastAttempt(outcomes) == if Succeeds(outcomes) then n + 1 else 5)
  {
  }

  /** The status and error of the Done record when `n` attempts failed: those of
      the success, else the last failure's text and the last response's status. */
  ghost predicate ClosesAs(outcomes: seq<Outcome>, n: nat, status: int, error: string)
    requires n <= |outcomes| == ATTEMPTS
  {
    if n < 5 && outcomes[n].Response? then
      status == outcomes[n].status && 200 <= status < 300 && error == ""
    else
      && error == "exhausted: " + ErrorText(outcomes[if n < 5 then n else 4])
      && !(200 <= status < 300)
      && (forall i :: 0 <= i < n && outcomes[i].Response? && (forall k :: i < k < n ==> outcomes[k].TransportError?) ==>
            status == outcomes[i].status)
      && ((forall i :: 0 <= i < n ==> outcomes[i].TransportError?) ==> status == 0)
  }

  lemma {:induction false} LastStatusIs(outcomes: seq<Outcome>, n: nat)
    requires n <= |outcomes| && AllFail(outcomes, n)
    ensures var status := LastStatus(outcomes[..n]);
            && !(200 <= status < 300)
            && (forall i :: 0 <= i < n && outcomes[i].Response? &&
                            (forall k :: i < k < n ==> outcomes[k].TransportError?) ==>
                  status == outcomes[i].status)
            && ((forall i :: 0 <= i < n ==> outcomes[i].TransportError?) ==> status == 0)
  {
    if n > 0 {
      OneMoreFailure(outcomes, n - 1);
      LastStatusIs(outcomes, n - 1);
    }
  }

  lemma ClosingSays(j: Job, outcomes: seq<Outcome>, mint: Mint)
    requires |outcomes| == ATTEMPTS
    ensures var b := Body1(Closing(j, outcomes, mint));
            && b == Delivery(j.rule, b.status, b.error, LastAttempt(outcomes), true, j.eventUid)
            && ClosesAs(outcomes, Failures(outcomes), b.status, b.error)
  {
    LastStatusIs(outcomes, Failures(outcomes));
  }

  // ---------- the text of an error ----------

  /** A status is written in decimal digits, without leading zeros. */
  lemma {:induction false} DecimalDenotes(n: nat)
    ensures Denoted(10, Decimal(n)) == n && (forall c :: c in Decimal(n) ==> '0' <= c <= '9')
    ensures Decimal(n) != "" && (n > 0 ==> Decimal(n)[0] != '0')
    ensures n < 10 ==> |Decimal(n)| == 1
  {
    if n >= 10 {
      DecimalDenotes(n / 10);
      DenotedStep(10, Decimal(n / 10), n % 10);
    } else {
      assert "" + [Digit(n)] == [Digit(n)];
      DenotedStep(10, "", n);
    }
  }

  lemma ErrorSays(o: Outcome)
    ensures ErrorText(o) ==
      match o
      case BadRequest(msg) => msg
      case TransportError(msg) => msg
      case Response(status) => "http " + Decimal(status)
  {
  }

  predicate AllWrites(ops: seq<ScopedOp>) {
    forall op :: op in ops ==> op.Write?
  }

  function FailedWrites(j: Job, outcomes: seq<Outcome>, mints: seq<Mint>, n: nat): (ops: seq<ScopedOp>)
    requires n <= |outcomes| <= ATTEMPTS && n <= |mints|
    ensures AllWrites(ops)
  {
    seq(n, i requires 0 <= i < n => Write1(j, i + 1, Status(outcomes[i]), ErrorText(outcomes[i]), false, mints[i]))
  }

  /** Every record in the order written. */
  function Trail(j: Job, outcomes: seq<Outcome>, mints: seq<Mint>): (ops: seq<ScopedOp>)
    requires |outcomes| == ATTEMPTS && |mints| == ATTEMPTS + 1
    ensures AllWrites(ops)
  {
    FailedWrites(j, outcomes, mints, Failures(outcomes)) + [Closing(j, outcomes, mints[Failures(outcomes)])]
  }

  /** The announcements of a list of writes. */
  function Announced(maxKey: nat, ops: seq<ScopedOp>): seq<Event>
    requires AllWrites(ops)
    decreases |ops|
  {
    if ops == [] then [] else Announced(maxKey, ops[..|ops| - 1]) + Announcement(maxKey, ops[|ops| - 1])
  }

  function Announcement(maxKey: nat, op: ScopedOp): seq<Event>
    requires op.Write?
  {
    PutScopedEffect(map["" := map[]], maxKey, "", op.kind, op.r, op.mint).events
  }

  /** The writes so far, and nothing else, have been applied and announced. */
  ghost predicate Recorded(db: Db, emitted: seq<Event>, db0: Db, emitted0: seq<Event>, maxKey: nat, ops: seq<ScopedOp>)
    requires "deliveries" in db0 && AllWrites(ops)
  {
    db == RunScoped(db0, maxKey, "deliveries", ops) && emitted == emitted0 + Announced(maxKey, ops)
  }

  lemma OneMore(db: Db, maxKey: nat, ops: seq<ScopedOp>, op: ScopedOp)
    requires "deliveries" in db && op.Write? && AllWrites(ops)
    ensures RunScoped(db, maxKey, "deliveries", ops + [op]) ==
            ApplyScoped(RunScoped(db, maxKey, "deliveries", ops), maxKey, "deliveries", op)
    ensures Announced(maxKey, ops + [op]) == Announced(maxKey, ops) + Announcement(maxKey, op)
  {
    assert (ops + [op])[..|ops|] == ops;
  }

  lemma OneMoreRecorded(db: Db, emitted: seq<Event>, db0: Db, emitted0: seq<Event>, maxKey: nat, ops: seq<ScopedOp>,
                        op: ScopedOp)
    requires "deliveries" in db0 && op.Write? && AllWrites(ops) && Recorded(db, emitted, db0, emitted0, maxKey, ops)
    ensures var e := PutScopedEffect(db, maxKey, "deliveries", op.kind, op.r, op.mint);
            Recorded(e.db, emitted + e.events, db0, emitted0, maxKey, ops + [op])
  {
    OneMore(db0, maxKey, ops, op);
    AnnouncedAnywhere(db, maxKey, op);
  }

  /** What a put announces does not depend on the database. */
  lemma AnnouncedAnywhere(db: Db, maxKey: nat, op: ScopedOp)
    requires "deliveries" in db && op.Write?
    ensures PutScopedEffect(db, maxKey, "deliveries", op.kind, op.r, op.mint).events == Announcement(maxKey, op)
  {
  }

  // ---------- the loop ----------

  method RecordDelivery(s: Store, op: ScopedOp, ghost db0: Db, ghost emitted0: seq<Event>, ghost ops: seq<ScopedOp>)
    requires s.Valid() && op.Write? && op.kind == KindEventRule && "deliveries" in db0
    requires AllWrites(ops)
    requires Recorded(s.db, s.emitted, db0, emitted0, s.maxKey, ops)
    modifies s
    ensures s.Valid() && Recorded(s.db, s.emitted, db0, emitted0, s.maxKey, ops + [op])
  {
    OneMoreRecorded(s.db, s.emitted, db0, emitted0, s.maxKey, ops, op);
    var dlv := new Record(op.r);
    var err := s.PutScoped("deliveries", KindEventRule, dlv, op.mint);
  }

  /** The cap of a minute is out of reach of five attempts; together they sleep
      one second less than a power of two. */
  lemma Sleeps(attempt: nat)
    requires 1 <= attempt <= ATTEMPTS
    ensures Pow2(attempt - 1) - 1 + SleepAfter(attempt) == Pow2(attempt) - 1 <= 31
    ensures Pow2(0) == 1
  {
    assert Pow2(1) == 2 && Pow2(2) == 4 && Pow2(3) == 8 && Pow2(4) == 16 && Pow2(5) == 32;
  }

  lemma FailedWritesGrow(j: Job, outcomes: seq<Outcome>, mints: seq<Mint>, n: nat)
    requires n < |outcomes| <= ATTEMPTS && n < |mints|
    ensures FailedWrites(j, outcomes, mints, n + 1) ==
            FailedWrites(j, outcomes, mints, n) +
              [Write1(j, n + 1, Status(outcomes[n]), ErrorText(outcomes[n]), false, mints[n])]
  {
  }

  lemma AddFailed(db: Db, maxKey: nat, j: Job, outcomes: seq<Outcome>, mints: seq<Mint>, n: nat)
    requires n < |outcomes| <= ATTEMPTS && n < |mints| && "deliveries" in db
    ensures var op := Write1(j, n + 1, Status(outcomes[n]), ErrorText(outcomes[n]), false, mints[n]);
            RunScoped(db, maxKey, "deliveries", FailedWrites(j, outcomes, mints, n + 1)) ==
            ApplyScoped(RunScoped(db, maxKey, "deliveries", FailedWrites(j, outcomes, mints, n)), maxKey,
                        "deliveries", op)
  {
    var op := Write1(j, n + 1, Status(outcomes[n]), ErrorText(outcomes[n]), false, mints[n]);
    FailedWritesGrow(j, outcomes, mints, n);
    OneMore(db, maxKey, FailedWrites(j, outcomes, mints, n), op);
  }

  lemma OneMoreFailure(outcomes: seq<Outcome>, n: nat)
    requires n < |outcomes| && AllFail(outcomes, n) && Fails(outcomes[n])
    ensures AllFail(outcomes, n + 1)
    ensures LastStatus(outcomes[..n + 1]) ==
      if outcomes[n].Response? then outcomes[n].status else LastStatus(outcomes[..n])
  {
    assert outcomes[..n + 1][..n] == outcomes[..n];
  }

  lemma AddClosing(db: Db, maxKey: nat, j: Job, outcomes: seq<Outcome>, mints: seq<Mint>)
    requires |outcomes| == ATTEMPTS && |mints| == ATTEMPTS + 1 && "deliveries" in db
    ensures var n := Failures(outcomes);
            RunScoped(db, maxKey, "deliveries", Trail(j, outcomes, mints)) ==
            ApplyScoped(RunScoped(db, maxKey, "deliveries", FailedWrites(j, outcomes, mints, n)), maxKey, "deliveries",
                        Closing(j, outcomes, mints[n]))
  {
    var n := Failures(outcomes);
    OneMore(db, maxKey, FailedWrites(j, outcomes, mints, n), Closing(j, outcomes, mints[n]));
  }

  lemma TrailAccepted(j: Job, outcomes: seq<Outcome>, mints: seq<Mint>, n: nat)
    requires n < |outcomes| == ATTEMPTS && |mints| == ATTEMPTS + 1
    requires AllFail(outcomes, n) && Accepted(outcomes[n])
    ensures Failures(outcomes) == n && Succeeds(outcomes)
    ensures Trail(j, outcomes, mints) ==
            FailedWrites(j, outcomes, mints, n) + [Write1(j, n + 1, outcomes[n].status, "", true, mints[n])]
  {
    FailuresAre(outcomes, n);
  }

  lemma TrailExhausted(j: Job, outcomes: seq<Outcome>, mints: seq<Mint>, n: nat)
    requires n <= |outcomes| == ATTEMPTS && |mints| == ATTEMPTS + 1
    requires AllFail(outcomes, n) && (n < ATTEMPTS ==> outcomes[n].BadRequest?)
    ensures Failures(outcomes) == n && !Succeeds(outcomes)
    ensures var text := ErrorText(outcomes[if n < ATTEMPTS then n else n - 1]);
            Trail(j, outcomes, mints) == FailedWrites(j, outcomes, mints, n) +
              [Write1(j, ATTEMPTS, LastStatus(outcomes[..n]), "exhausted: " + text, true, mints[n])]
  {
    FailuresAre(outcomes, n);
  }

  /** The retry loop: `n` attempts failed and were recorded; the closing record
      is still to be written. */
  method SendUntilAccepted(s: Store, j: Job, outcomes: seq<Outcome>, mints: seq<Mint>)
    returns (n: nat, accepted: bool, lastStatus: int, lastErr: string, slept: nat)
    requires s.Valid() && |outcomes| == ATTEMPTS && |mints| == ATTEMPTS + 1
    modifies s
    ensures s.Valid() && n <= ATTEMPTS && AllFail(outcomes, n) && slept == Pow2(n) - 1 <= 31
    ensures n < ATTEMPTS ==> (if accepted then Accepted(outcomes[n]) else outcomes[n].BadRequest?)
    ensures n == ATTEMPTS ==> !accepted
    ensures !accepted ==>
      lastStatus == LastStatus(outcomes[..n]) && lastErr == ErrorText(outcomes[if n < ATTEMPTS then n else n - 1])
    ensures Recorded(s.db, s.emitted, old(s.db), old(s.emitted), s.maxKey, FailedWrites(j, outcomes, mints, n))
  {
    n, accepted, lastStatus, lastErr, slept := 0, false, 0, "", 0;
    ghost var db0, emitted0 := s.db, s.emitted;
    var attempt := 1;
    while attempt <= 5
      invariant 1 <= attempt <= 6 && n == attempt - 1 && s.Valid()
      invariant SoFar(outcomes, n, lastStatus, lastErr, slept)
      invariant Recorded(s.db, s.emitted, db0, emitted0, s.maxKey, FailedWrites(j, outcomes, mints, n))
    {
      var o := outcomes[n];
      if o.BadRequest? {
        lastErr := o.msg;
        return;
      }
      if Accepted(o) {
        accepted := true;
        return;
      }
      var pause;
      lastStatus, lastErr, pause := FailedAttempt(s, j, outcomes, mints, n, lastStatus, db0, emitted0);
      slept := slept + pause;
      n, attempt := n + 1, attempt + 1;
    }
  }

  /** What the loop remembers after `n` failed attempts. */
  ghost predicate SoFar(outcomes: seq<Outcome>, n: nat, lastStatus: int, lastErr: string, slept: nat)
    requires n <= |outcomes|
  {
    && AllFail(outcomes, n) && lastStatus == LastStatus(outcomes[..n])
    && (n > 0 ==> lastErr == ErrorText(outcomes[n - 1]))
    && slept == Pow2(n) - 1 <= 31
  }

  /** One attempt that failed: recorded, then slept after. */
  method FailedAttempt(s: Store, j: Job, outcomes: seq<Outcome>, mints: seq<Mint>, n: nat, lastStatus: int,
                       ghost db0: Db, ghost emitted0: seq<Event>)
    returns (status: int, err: string, pause: nat)
    requires s.Valid() && n < |outcomes| == ATTEMPTS && |mints| == ATTEMPTS + 1 && "deliveries" in db0
    requires AllFail(outcomes, n) && Fails(outcomes[n]) && lastStatus == LastStatus(outcomes[..n])
    requires Recorded(s.db, s.emitted, db0, emitted0, s.maxKey, FailedWrites(j, outcomes, mints, n))
    modifies s
    ensures s.Valid() && AllFail(outcomes, n + 1)
    ensures status == LastStatus(outcomes[..n + 1]) && err == ErrorText(outcomes[n])
    ensures Pow2(n) - 1 + pause == Pow2(n + 1) - 1 <= 31
    ensures Recorded(s.db, s.emitted, db0, emitted0, s.maxKey, FailedWrites(j, outcomes, mints, n + 1))
  {
    var o := outcomes[n];
    status, err := lastStatus, ErrorText(o);
    if o.Response? {
      status := o.status;
    }
    OneMoreFailure(outcomes, n);
    FailedWritesGrow(j, outcomes, mints, n);
    Sleeps(n + 1);
    RecordDelivery(s, Write1(j, n + 1, Status(o), err, false, mints[n]), db0, emitted0,
                   FailedWrites(j, outcomes, mints, n));
    pause := SleepAfter(n + 1);
  }

  /** `slept` counts seconds, `sends` the requests that went out. */
  method DeliverWebhook(s: Store, j: Job, outcomes: seq<Outcome>, mints: seq<Mint>) returns (sends: nat, slept: nat)
    requires s.Valid() && |outcomes| == ATTEMPTS && |mints| == ATTEMPTS + 1
    modifies s
    ensures s.Valid()
    ensures Recorded(s.db, s.emitted, old(s.db), old(s.emitted), s.maxKey, Trail(j, outcomes, mints))
    ensures sends == Failures(outcomes) + if Succeeds(outcomes) then 1 else 0
    ensures slept == Pow2(Failures(outcomes)) - 1
    ensures sends <= 5 && slept <= 31
    ensures forall i :: 0 <= i < sends - 1 ==>
      outcomes[i].TransportError? || (outcomes[i].Response? && !(200 <= outcomes[i].status < 300))
    ensures sends < 5 ==>
      outcomes[sends].BadRequest? ||
      (sends > 0 && outcomes[sends - 1].Response? && 200 <= outcomes[sends - 1].status < 300)
  {
    RetriedUntil2xx(outcomes);
    ghost var db0, emitted0 := s.db, s.emitted;
    var n, accepted, lastStatus, lastErr;
    n, accepted, lastStatus, lastErr, slept := SendUntilAccepted(s, j, outcomes, mints);
    ghost var writes := FailedWrites(j, outcomes, mints, n);
    if accepted {
      TrailAccepted(j, outcomes, mints, n);
      RecordDelivery(s, Write1(j, n + 1, outcomes[n].status, "", true, mints[n]), db0, emitted0, writes);
      return n + 1, slept;
    }
    sends := n;
    TrailExhausted(j, outcomes, mints, n);
    RecordDelivery(s, Write1(j, 5, lastStatus, "exhausted: " + lastErr, true, mints[n]), db0, emitted0, writes);
  }

  lemma {:induction false} FailuresAre(outcomes: seq<Outcome>, n: nat)
    requires n <= |outcomes|
    requires AllFail(outcomes, n)
    requires n < |outcomes| ==> !Fails(outcomes[n])
    ensures Failures(outcomes) == n
  {
    if n > 0 { FailuresAre(outcomes[1..], n - 1); }
  }

  // ---------- what is left ----------

  function Find(m: map<string, Doc>, k: string): Option<Doc> {
    if k in m then Some(m[k]) else None
  }

  /** The last attempt that counts: the accepted one, else the fifth. */
  function LastAttempt(outcomes: seq<Outcome>): (a: nat)
    requires |outcomes| == ATTEMPTS
    ensures 1 <= a <= ATTEMPTS
  {
    if Succeeds(outcomes) then Failures(outcomes) + 1 else ATTEMPTS
  }

  predicate Fits(j: Job, maxKey: nat) {
    |DeliveryKey(j, 1)| <= maxKey
  }

  predicate IsDone(d: Doc) {
    d.Encoded? && d.r.body.Delivery? && d.r.body.done
  }

  lemma KeysOfOneJob(j: Job, a: nat, b: nat)
    requires a < 10 && b < 10
    ensures DeliveryKey(j, a) == DeliveryKey(j, b) <==> a == b
    ensures |DeliveryKey(j, a)| == |DeliveryKey(j, b)|
  {
    DigitOrder(a, b);
    var k, l := DeliveryKey(j, a), DeliveryKey(j, b);
    assert k[|k| - 1] == Digit(a) && l[|l| - 1] == Digit(b);
  }

  /** One record written: under its own key if the key fits, otherwise nothing. */
  lemma WriteLands(db: Db, maxKey: nat, j: Job, a: nat, status: int, error: string, done: bool, mint: Mint, k: string)
    requires "deliveries" in db && a < 10
    ensures var m' := ApplyScoped(db, maxKey, "deliveries", Write1(j, a, status, error, done, mint))["deliveries"];
            if Fits(j, maxKey) && k == DeliveryKey(j, a) then
              k in m' && m'[k].Encoded? && m'[k].r.body == Delivery(j.rule, status, error, a, done, j.eventUid)
            else Find(m', k) == Find(db["deliveries"], k)
  {
    KeysOfOneJob(j, 1, a);
  }

  lemma FailedLeave(db: Db, maxKey: nat, j: Job, outcomes: seq<Outcome>, mints: seq<Mint>, n: nat, k: string)
    requires "deliveries" in db && n <= |outcomes| <= ATTEMPTS && n <= |mints|
    ensures var m' := RunScoped(db, maxKey, "deliveries", FailedWrites(j, outcomes, mints, n))["deliveries"];
            && (forall a | 1 <= a <= n && Fits(j, maxKey) && k == DeliveryKey(j, a) ::
                  k in m' && m'[k].Encoded? &&
                  m'[k].r.body ==
                    Delivery(j.rule, Status(outcomes[a - 1]), ErrorText(outcomes[a - 1]), a, false, j.eventUid))
            && ((!Fits(j, maxKey) || forall a | 1 <= a <= n :: k != DeliveryKey(j, a)) ==>
                Find(m', k) == Find(db["deliveries"], k))
  {
    forall a | 1 <= a <= n && Fits(j, maxKey) && k == DeliveryKey(j, a)
      ensures var m' := RunScoped(db, maxKey, "deliveries", FailedWrites(j, outcomes, mints, n))["deliveries"];
              k in m' && m'[k].Encoded? &&
              m'[k].r.body ==
                Delivery(j.rule, Status(outcomes[a - 1]), ErrorText(outcomes[a - 1]), a, false, j.eventUid)
    {
      FailedAttemptLeaves(db, maxKey, j, outcomes, mints, n, a);
    }
    if !Fits(j, maxKey) || forall a | 1 <= a <= n :: k != DeliveryKey(j, a) {
      FailedAttemptsSpare(db, maxKey, j, outcomes, mints, n, k);
    }
  }

  lemma {:induction false} FailedAttemptLeaves(db: Db, maxKey: nat, j: Job, outcomes: seq<Outcome>, mints: seq<Mint>,
                                               n: nat, a: nat)
    requires "deliveries" in db && n <= |outcomes| <= ATTEMPTS && n <= |mints| && 1 <= a <= n && Fits(j, maxKey)
    ensures var m' := RunScoped(db, maxKey, "deliveries", FailedWrites(j, outcomes, mints, n))["deliveries"];
            var k := DeliveryKey(j, a);
            k in m' && m'[k].Encoded? &&
            m'[k].r.body == Delivery(j.rule, Status(outcomes[a - 1]), ErrorText(outcomes[a - 1]), a, false, j.eventUid)
  {
    AddFailed(db, maxKey, j, outcomes, mints, n - 1);
    var before := RunScoped(db, maxKey, "deliveries", FailedWrites(j, outcomes, mints, n - 1));
    WriteLands(before, maxKey, j, n, Status(outcomes[n - 1]), ErrorText(outcomes[n - 1]), false, mints[n - 1],
               DeliveryKey(j, a));
    if a < n {
      FailedAttemptLeaves(db, maxKey, j, outcomes, mints, n - 1, a);
      KeysOfOneJob(j, a, n);
    }
  }

  lemma {:induction false} FailedAttemptsSpare(db: Db, maxKey: nat, j: Job, outcomes: seq<Outcome>, mints: seq<Mint>,
                                               n: nat, k: string)
    requires "deliveries" in db && n <= |outcomes| <= ATTEMPTS && n <= |mints|
    requires !Fits(j, maxKey) || forall a | 1 <= a <= n :: k != DeliveryKey(j, a)
    ensures Find(RunScoped(db, maxKey, "deliveries", FailedWrites(j, outcomes, mints, n))["deliveries"], k) ==
            Find(db["deliveries"], k)
  {
    if n == 0 {
      assert FailedWrites(j, outcomes, mints, 0) == [];
    } else {
      FailedAttemptsSpare(db, maxKey, j, outcomes, mints, n - 1, k);
      AddFailed(db, maxKey, j, outcomes, mints, n - 1);
      var before := RunScoped(db, maxKey, "deliveries", FailedWrites(j, outcomes, mints, n - 1));
      WriteLands(before, maxKey, j, n, Status(outcomes[n - 1]), ErrorText(outcomes[n - 1]), false, mints[n - 1], k);
    }
  }

  function Body1(op: ScopedOp): Body
    requires op.Write?
  {
    op.r.body
  }

  /** What a whole delivery leaves: a record per failed attempt, and on the last
      attempt the closing record, which overwrites that attempt's own. */
  lemma DeliveryLeaves(db: Db, maxKey: nat, j: Job, outcomes: seq<Outcome>, mints: seq<Mint>, a: nat)
    requires "deliveries" in db && |outcomes| == ATTEMPTS && |mints| == ATTEMPTS + 1
    requires 1 <= a <= ATTEMPTS && Fits(j, maxKey)
    ensures var m' := RunScoped(db, maxKey, "deliveries", Trail(j, outcomes, mints))["deliveries"];
            var k := DeliveryKey(j, a);
            if a == LastAttempt(outcomes) then
              k in m' && m'[k].Encoded? && m'[k].r.body.Delivery? &&
              ClosesAs(outcomes, Failures(outcomes), m'[k].r.body.status, m'[k].r.body.error) &&
              m'[k].r.body == Delivery(j.rule, m'[k].r.body.status, m'[k].r.body.error, a, true, j.eventUid)
            else if a <= Failures(outcomes) then
              k in m' && m'[k].Encoded? &&
              m'[k].r.body ==
                Delivery(j.rule, if outcomes[a - 1].Response? then outcomes[a - 1].status else 0,
                         ErrorText(outcomes[a - 1]), a, false, j.eventUid)
            else Find(m', k) == Find(db["deliveries"], k)
  {
    ClosingSays(j, outcomes, mints[0]);
    var k := DeliveryKey(j, a);
    ClosingLands(db, maxKey, j, outcomes, mints, k);
    FailedLeave(db, maxKey, j, outcomes, mints, Failures(outcomes), k);
    forall c | 1 <= c <= ATTEMPTS ensures DeliveryKey(j, c) == k <==> c == a { KeysOfOneJob(j, c, a); }
  }

  /** The closing record goes to the last attempt's key, over what is there. */
  lemma ClosingLands(db: Db, maxKey: nat, j: Job, outcomes: seq<Outcome>, mints: seq<Mint>, k: string)
    requires "deliveries" in db && |outcomes| == ATTEMPTS && |mints| == ATTEMPTS + 1
    ensures var m' := RunScoped(db, maxKey, "deliveries", Trail(j, outcomes, mints))["deliveries"];
            var before := RunScoped(db, maxKey, "deliveries",
                                    FailedWrites(j, outcomes, mints, Failures(outcomes)))["deliveries"];
            if Fits(j, maxKey) && k == DeliveryKey(j, LastAttempt(outcomes)) then
              k in m' && m'[k].Encoded? && m'[k].r.body == Body1(Closing(j, outcomes, mints[0]))
            else Find(m', k) == Find(before, k)
  {
    var n := Failures(outcomes);
    AddClosing(db, maxKey, j, outcomes, mints);
    var before := RunScoped(db, maxKey, "deliveries", FailedWrites(j, outcomes, mints, n));
    var b := Body1(Closing(j, outcomes, mints[n]));
    WriteLands(before, maxKey, j, b.attempt, b.status, b.error, b.done, mints[n], k);
  }

  /** Nothing else is touched. */
  lemma DeliverySparesOthers(db: Db, maxKey: nat, j: Job, outcomes: seq<Outcome>, mints: seq<Mint>, k: string)
    requires "deliveries" in db && |outcomes| == ATTEMPTS && |mints| == ATTEMPTS + 1
    requires !Fits(j, maxKey) || forall a | 1 <= a <= ATTEMPTS :: k != DeliveryKey(j, a)
    ensures Find(RunScoped(db, maxKey, "deliveries", Trail(j, outcomes, mints))["deliveries"], k) ==
      Find(db["deliveries"], k)
  {
    ClosingLands(db, maxKey, j, outcomes, mints, k);
    FailedLeave(db, maxKey, j, outcomes, mints, Failures(outcomes), k);
  }

  /** Of the five records a delivery may leave exactly one is Done, the last
      attempt's, and it comes after every other record: whatever the server
      does, if and only if the store takes keys of that length. */
  lemma OneDoneRecord(db: Db, maxKey: nat, j: Job, outcomes: seq<Outcome>, mints: seq<Mint>)
    requires "deliveries" in db && |outcomes| == ATTEMPTS && |mints| == ATTEMPTS + 1
    requires forall a | 1 <= a <= ATTEMPTS :: DeliveryKey(j, a) !in db["deliveries"]
    ensures var m' := RunScoped(db, maxKey, "deliveries", Trail(j, outcomes, mints))["deliveries"];
            forall a | 1 <= a <= ATTEMPTS ::
              && (DeliveryKey(j, a) in m' && IsDone(m'[DeliveryKey(j, a)]) <==>
                  Fits(j, maxKey) && a == LastAttempt(outcomes))
              && (DeliveryKey(j, a) in m' ==> a <= LastAttempt(outcomes))
    ensures var m' := RunScoped(db, maxKey, "deliveries", Trail(j, outcomes, mints))["deliveries"];
            Fits(j, maxKey) ==>
              var d := m'[DeliveryKey(j, LastAttempt(outcomes))].r.body;
              && d.attempt == LastAttempt(outcomes) && (d.error == "" <==> 200 <= d.status < 300)
              && (d.error == "" <==> Succeeds(outcomes))
  {
    if Fits(j, maxKey) {
      DeliveryLeaves(db, maxKey, j, outcomes, mints, LastAttempt(outcomes));
      assert "exhausted: "[0] == 'e';
    }
    forall a | 1 <= a <= ATTEMPTS
      ensures var m' := RunScoped(db, maxKey, "deliveries", Trail(j, outcomes, mints))["deliveries"];
              && (DeliveryKey(j, a) in m' && IsDone(m'[DeliveryKey(j, a)]) <==>
                  Fits(j, maxKey) && a == LastAttempt(outcomes))
              && (DeliveryKey(j, a) in m' ==> a <= LastAttempt(outcomes))
    {
      if Fits(j, maxKey) {
        DeliveryLeaves(db, maxKey, j, outcomes, mints, a);
      } else {
        DeliverySparesOthers(db, maxKey, j, outcomes, mints, DeliveryKey(j, a));
      }
    }
  }

  // ---------- deliveries side by side ----------

  /** The writes that go to one key. */
  function To(ops: seq<ScopedOp>, k: string): seq<ScopedOp>
    decreases |ops|
  {
    if ops == [] then [] else
    To(ops[..|ops| - 1], k) + if KeyOf(ops[|ops| - 1]) == k then [ops[|ops| - 1]] else []
  }

  function KeyOf(op: ScopedOp): string {
    match op
    case Write(_, r, _) => KeyFor(Defaulted(r.meta).project, r.meta.name)
    case Erase(kind, project, name) => LocalDeleteKey(kind, project, name)
  }

  lemma SameAt(d: Db, e: Db, maxKey: nat, op: ScopedOp, k: string)
    requires "deliveries" in d && "deliveries" in e && Find(d["deliveries"], k) == Find(e["deliveries"], k)
    ensures var d', e' := ApplyScoped(d, maxKey, "deliveries", op), ApplyScoped(e, maxKey, "deliveries", op);
            && Find(d'["deliveries"], k) == Find(e'["deliveries"], k)
            && (KeyOf(op) != k ==> Find(d'["deliveries"], k) == Find(d["deliveries"], k))
  {
  }

  /** However the writes of several deliveries interleave, what a key holds
      depends only on the writes to it, in their order. */
  lemma {:induction false} OnlyOwnWritesMatter(db: Db, maxKey: nat, ops: seq<ScopedOp>, k: string)
    requires "deliveries" in db
    ensures Find(RunScoped(db, maxKey, "deliveries", ops)["deliveries"], k) ==
            Find(RunScoped(db, maxKey, "deliveries", To(ops, k))["deliveries"], k)
    decreases |ops|
  {
    if ops != [] {
      var front, op := ops[..|ops| - 1], ops[|ops| - 1];
      OnlyOwnWritesMatter(db, maxKey, front, k);
      SameAt(RunScoped(db, maxKey, "deliveries", front), RunScoped(db, maxKey, "deliveries", To(front, k)), maxKey,
             op, k);
      if KeyOf(op) == k {
        assert To(ops, k)[..|To(ops, k)| - 1] == To(front, k);
      } else {
        assert To(ops, k) == To(front, k);
      }
    }
  }

  /** One webhook delivery: its job and what it meets. */
  datatype Run = Run(job: Job, outcomes: seq<Outcome>, mints: seq<Mint>) {
    predicate Valid() {
      |outcomes| == ATTEMPTS && |mints| == ATTEMPTS + 1 && DashFree(job.eventUid) && job.project != "" &&
        SlashFree(job.project)
    }

    function Writes(): seq<ScopedOp>
      requires Valid()
    {
      Trail(job, outcomes, mints)
    }
  }

  /** Deliveries of different rules or events. */
  ghost predicate Separate(runs: seq<Run>) {
    && (forall i :: 0 <= i < |runs| ==> runs[i].Valid())
    && (forall i, j :: 0 <= i < j < |runs| ==> runs[i].job != runs[j].job)
  }

  /** How often `i` was scheduled. */
  function Turns(schedule: seq<nat>, i: nat): nat
    decreases |schedule|
  {
    if schedule == [] then 0 else
    Turns(schedule[..|schedule| - 1], i) + if schedule[|schedule| - 1] == i then 1 else 0
  }

  /** The writes of the deliveries, interleaved: each turn of a delivery that has
      not ended is its next write. */
  function Interleaved(runs: seq<Run>, schedule: seq<nat>): seq<ScopedOp>
    requires forall i :: 0 <= i < |runs| ==> runs[i].Valid()
    decreases |schedule|
  {
    if schedule == [] then [] else
    var (front, i) := (schedule[..|schedule| - 1], schedule[|schedule| - 1]);
    Interleaved(runs, front) +
      if i < |runs| && Turns(front, i) < |runs[i].Writes()| then [runs[i].Writes()[Turns(front, i)]] else []
  }

  function Progress(r: Run, schedule: seq<nat>, i: nat): nat
    requires r.Valid()
  {
    if Turns(schedule, i) < |r.Writes()| then Turns(schedule, i) else |r.Writes()|
  }

  lemma TrailKeys(r: Run, x: nat)
    requires r.Valid() && x < |r.Writes()|
    ensures exists a: nat :: 1 <= a <= ATTEMPTS && KeyOf(r.Writes()[x]) == DeliveryKey(r.job, a)
  {
    var op := r.Writes()[x];
    var a := op.r.body.attempt;
    assert 1 <= a <= ATTEMPTS && KeyOf(op) == DeliveryKey(r.job, a);
  }

  /** In every interleaving the writes to a delivery's keys are the ones it has
      made so far. */
  lemma {:induction false} OwnWrites(runs: seq<Run>, schedule: seq<nat>, i: nat, a: nat)
    requires Separate(runs) && i < |runs| && 1 <= a <= ATTEMPTS
    ensures To(Interleaved(runs, schedule), DeliveryKey(runs[i].job, a)) ==
            To(runs[i].Writes()[..Progress(runs[i], schedule, i)], DeliveryKey(runs[i].job, a))
    decreases |schedule|
  {
    if schedule != [] {
      var (front, j) := (schedule[..|schedule| - 1], schedule[|schedule| - 1]);
      assert schedule == front + [j];
      OwnWrites(runs, front, i, a);
      if j < |runs| && Turns(front, j) < |runs[j].Writes()| {
        OneTurn(runs, front, j, i, a);
      } else {
        NoTurn(runs, front, j, i);
      }
    }
  }

  /** A turn of a delivery that has ended, or of none, writes nothing. */
  lemma NoTurn(runs: seq<Run>, front: seq<nat>, j: nat, i: nat)
    requires Separate(runs) && i < |runs| && (j < |runs| ==> Turns(front, j) >= |runs[j].Writes()|)
    ensures Interleaved(runs, front + [j]) == Interleaved(runs, front)
    ensures Progress(runs[i], front + [j], i) == Progress(runs[i], front, i)
  {
    assert (front + [j])[..|front|] == front;
  }

  /** A turn taken adds the delivery's next write, which only it can make. */
  lemma OneTurn(runs: seq<Run>, front: seq<nat>, j: nat, i: nat, a: nat)
    requires Separate(runs) && i < |runs| && j < |runs| && 1 <= a <= ATTEMPTS && Turns(front, j) < |runs[j].Writes()|
    ensures var k := DeliveryKey(runs[i].job, a);
            var (before, after) := (Progress(runs[i], front, i), Progress(runs[i], front + [j], i));
            To(Interleaved(runs, front), k) == To(runs[i].Writes()[..before], k) ==>
              To(Interleaved(runs, front + [j]), k) == To(runs[i].Writes()[..after], k)
  {
    var (x, k) := (Turns(front, j), DeliveryKey(runs[i].job, a));
    var op := runs[j].Writes()[x];
    assert (front + [j])[..|front|] == front;
    assert Interleaved(runs, front + [j]) == Interleaved(runs, front) + [op];
    ToSnoc(Interleaved(runs, front), op, k);
    assert Progress(runs[i], front + [j], i) == Progress(runs[i], front, i) + if i == j then 1 else 0;
    if j == i {
      ToNext(runs[i].Writes(), x, k);
    } else {
      OthersWriteElsewhere(runs, i, a, j, x);
    }
  }

  lemma ToNext(ops: seq<ScopedOp>, x: nat, k: string)
    requires x < |ops|
    ensures To(ops[..x + 1], k) == To(ops[..x], k) + if KeyOf(ops[x]) == k then [ops[x]] else []
  {
    assert ops[..x + 1] == ops[..x] + [ops[x]];
    ToSnoc(ops[..x], ops[x], k);
  }

  lemma OthersWriteElsewhere(runs: seq<Run>, i: nat, a: nat, j: nat, x: nat)
    requires Separate(runs) && i < |runs| && j < |runs| && i != j && 1 <= a <= ATTEMPTS && x < |runs[j].Writes()|
    ensures KeyOf(runs[j].Writes()[x]) != DeliveryKey(runs[i].job, a)
  {
    TrailKeys(runs[j], x);
    var b: nat :| 1 <= b <= ATTEMPTS && KeyOf(runs[j].Writes()[x]) == DeliveryKey(runs[j].job, b);
    if DeliveryKey(runs[j].job, b) == DeliveryKey(runs[i].job, a) {
      DeliveryKeysAreDistinct(runs[i].job, a, runs[j].job, b);
    }
  }

  lemma ToSnoc(ops: seq<ScopedOp>, op: ScopedOp, k: string)
    ensures To(ops + [op], k) == To(ops, k) + if KeyOf(op) == k then [op] else []
  {
    assert (ops + [op])[..|ops|] == ops;
  }

  /** However any number of deliveries interleave, each that has ended has left
      exactly one Done record, its last attempt's. */
  lemma OneDoneRecordAmongOthers(db: Db, maxKey: nat, runs: seq<Run>, schedule: seq<nat>, i: nat, a: nat)
    requires "deliveries" in db && Separate(runs) && i < |runs| && 1 <= a <= ATTEMPTS
    requires forall c | 1 <= c <= ATTEMPTS :: DeliveryKey(runs[i].job, c) !in db["deliveries"]
    requires Turns(schedule, i) >= |runs[i].Writes()|
    ensures var m' := RunScoped(db, maxKey, "deliveries", Interleaved(runs, schedule))["deliveries"];
            var k := DeliveryKey(runs[i].job, a);
            && (k in m' && IsDone(m'[k]) <==> Fits(runs[i].job, maxKey) && a == LastAttempt(runs[i].outcomes))
            && (k in m' && IsDone(m'[k]) ==> (m'[k].r.body.error == "" <==> 200 <= m'[k].r.body.status < 300))
  {
    var r := runs[i];
    var k := DeliveryKey(r.job, a);
    OneDoneRecord(db, maxKey, r.job, r.outcomes, r.mints);
    OwnWrites(runs, schedule, i, a);
    assert r.Writes()[..|r.Writes()|] == r.Writes();
    OnlyOwnWritesMatter(db, maxKey, Interleaved(runs, schedule), k);
    OnlyOwnWritesMatter(db, maxKey, r.Writes(), k);
  }
}
