/** The bounded per-project event log: appending, listing and trimming. */
module EventLogs {
  import opened Options
  import opened Lexicographic
  import opened OrderedKeys
  import opened EventKeys
  import opened Records
  import opened Stores
  import opened Slices

  type Log = map<string, Doc>

  const ZERO_TIME := Time(1, 1, 1, 0, 0, 0, 0)

  function Completed(rec: EventRecord, uid: string, now: Time): EventRecord {
    var named := if rec.uid == "" then rec.(uid := uid) else rec;
    if named.at == ZERO_TIME then named.(at := now) else named
  }

  function LogProject(rec: EventRecord): string {
    if rec.project == "" then "default" else rec.project
  }

  function LogKey(rec: EventRecord): string {
    EventKey(LogProject(rec), rec.at, rec.uid)
  }

  method AppendEvent(s: Store, rec: EventRecord, uid: string, now: Time)
    returns (err: Option<Error>, written: EventRecord)
    requires s.Valid()
    modifies s`db
    ensures s.Valid()
    ensures written == Completed(rec, uid, now) && err == PutError(LogKey(written), s.maxKey)
    ensures written == EventRecord(if rec.uid == "" then uid else rec.uid, rec.eventType, rec.project, rec.subject,
                                   if rec.at == ZERO_TIME then now else rec.at)
    ensures LogKey(written) == EventKey(if rec.project == "" then "default" else rec.project, written.at, written.uid)
    ensures s.db == if err.None? then old(s.db)["eventlog" := old(s.db)["eventlog"][LogKey(written) := Logged(written)]]
                    else old(s.db)
  {
    written := rec;
    if written.uid == "" {
      written := written.(uid := uid);
    }
    if written.at == ZERO_TIME {
      written := written.(at := now);
    }
    var project := written.project;
    if project == "" {
      project := "default";
    }
    err := s.Put("eventlog", EventKey(project, written.at, written.uid), Logged(written));
  }

  // ---------- listing ----------

  function Decoded(docs: seq<Doc>): seq<EventRecord> {
    if docs == [] then [] else
    Decoded(docs[..|docs| - 1]) + (if docs[|docs| - 1].Logged? then [docs[|docs| - 1].e] else [])
  }

  /** A project's whole log, newest key first. */
  function Timeline(m: Log, project: string): seq<EventRecord> {
    Reversed(Decoded(Listed(m, project + "/")))
  }

  function Truncated<T>(s: seq<T>, limit: nat): seq<T> {
    if |s| > limit then s[..limit] else s
  }

  function EffectiveLimit(limit: int): nat {
    if limit <= 0 then 100 else limit
  }

  /** Documents that do not decode are left out. */
  method DecodeAll(raws: seq<Doc>) returns (out: seq<EventRecord>)
    ensures out == Decoded(raws)
  {
    out := [];
    for i := 0 to |raws|
      invariant out == Decoded(raws[..i])
    {
      assert raws[..i + 1][..i] == raws[..i];
      if raws[i].Logged? {
        out := out + [raws[i].e];
      }
    }
    assert raws[..|raws|] == raws;
  }

  method ListEvents(s: Store, project: string, limit: int) returns (out: seq<EventRecord>)
    requires s.Valid()
    ensures out == Truncated(Timeline(s.db["eventlog"], project), EffectiveLimit(limit))
  {
    var lim := limit;
    if lim <= 0 {
      lim := 100;
    }
    var raws := s.List("eventlog", project + "/");
    out := DecodeAll(raws);
    out := Reverse(out);
    if |out| > lim {
      out := out[..lim];
    }
  }

  // ---------- trimming ----------

  function EffectiveKeep(keep: int): nat {
    if keep <= 0 then 10000 else keep
  }

  /** The log without the first `n` keys of a prefix's run. */
  function WithoutOldest(m: Log, prefix: string, n: nat): Log {
    var run := KeysUnder(m, prefix);
    var oldest := run[..if n < |run| then n else |run|];
    m - set k | k in oldest
  }

  /** The first transaction of TrimEvents: how many records to drop. */
  method CountExcess(s: Store, project: string, keep: int) returns (toDelete: nat)
    requires s.Valid()
    ensures var n := |KeysUnder(s.db["eventlog"], project + "/")|;
            toDelete == if n <= EffectiveKeep(keep) then 0 else n - EffectiveKeep(keep)
  {
    var k := keep;
    if k <= 0 {
      k := 10000;
    }
    var raws := s.List("eventlog", project + "/");
    if |raws| <= k {
      return 0;
    }
    toDelete := |raws| - k;
  }

  /** Its second transaction: delete that many from the run's start. The
      iteration is over the keys as they were. */
  method DeleteOldest(s: Store, project: string, toDelete: nat)
    requires s.Valid()
    modifies s`db
    ensures s.Valid()
    ensures s.db == old(s.db)["eventlog" := WithoutOldest(old(s.db)["eventlog"], project + "/", toDelete)]
  {
    var m := s.db["eventlog"];
    var run := KeysUnder(m, project + "/");
    var left := m;
    var i := 0;
    while i < |run| && i < toDelete
      invariant 0 <= i <= |run| && i <= toDelete
      invariant left == m - set k | k in run[..i]
    {
      assert run[..i + 1] == run[..i] + [run[i]];
      left := left - {run[i]};
      i := i + 1;
    }
    s.db := s.db["eventlog" := left];
  }

  method TrimEvents(s: Store, project: string, keep: int)
    requires s.Valid()
    modifies s`db
    ensures s.Valid()
    ensures s.db == old(s.db)["eventlog" := Trimmed(old(s.db)["eventlog"], project, keep)]
  {
    var toDelete := CountExcess(s, project, keep);
    if toDelete > 0 {
      DeleteOldest(s, project, toDelete);
    } else {
      assert WithoutOldest(s.db["eventlog"], project + "/", 0) == s.db["eventlog"];
    }
  }

  function Excess(m: Log, project: string, keep: int): nat {
    var n := |KeysUnder(m, project + "/")|;
    if n <= EffectiveKeep(keep) then 0 else n - EffectiveKeep(keep)
  }

  function Trimmed(m: Log, project: string, keep: int): Log {
    WithoutOldest(m, project + "/", Excess(m, project, keep))
  }

  lemma RunAfterDelete(m: Log, prefix: string, n: nat)
    requires n <= |KeysUnder(m, prefix)|
    ensures KeysUnder(WithoutOldest(m, prefix, n), prefix) == KeysUnder(m, prefix)[n..]
  {
    var keys := WithPrefix(m.Keys, prefix);
    AscendingTail(keys, n);
    var gone := set k | k in KeysUnder(m, prefix)[..n];
    assert WithPrefix((m - gone).Keys, prefix) == keys - gone;
  }

  /** The log holds nothing but event records under a project. */
  ghost predicate AllDecode(m: Log, project: string) {
    RunDecodes(m, project + "/")
  }

  ghost predicate RunDecodes(m: Log, prefix: string) {
    forall k :: k in KeysUnder(m, prefix) ==> m[k].Logged?
  }

  lemma {:induction false} DecodedIsPointwise(docs: seq<Doc>)
    requires forall d :: d in docs ==> d.Logged?
    ensures |Decoded(docs)| == |docs| && forall i :: 0 <= i < |docs| ==> Decoded(docs)[i] == docs[i].e
  {
    if docs != [] {
      assert forall d :: d in docs[..|docs| - 1] ==> d in docs;
      DecodedIsPointwise(docs[..|docs| - 1]);
    }
  }

  lemma RunIsPointwise(m: Log, prefix: string)
    requires RunDecodes(m, prefix)
    ensures var (ks, es) := (KeysUnder(m, prefix), Decoded(Listed(m, prefix)));
            |es| == |ks| && forall i :: 0 <= i < |ks| ==> es[i] == m[ks[i]].e
  {
    ListedDecodes(m, prefix);
    DecodedIsPointwise(Listed(m, prefix));
  }

  lemma TimelineIsPointwise(m: Log, project: string)
    requires AllDecode(m, project)
    ensures var ks := KeysUnder(m, project + "/");
            |Timeline(m, project)| == |ks| &&
            forall i :: 0 <= i < |ks| ==> Timeline(m, project)[i] == m[ks[|ks| - 1 - i]].e
  {
    RunIsPointwise(m, project + "/");
  }

  lemma ListedAfterDelete(m: Log, prefix: string, n: nat)
    requires n <= |KeysUnder(m, prefix)|
    ensures |Listed(m, prefix)| == |KeysUnder(m, prefix)|
    ensures Listed(WithoutOldest(m, prefix, n), prefix) == Listed(m, prefix)[n..]
  {
    RunAfterDelete(m, prefix, n);
    ValuesDrop(m, WithoutOldest(m, prefix, n), KeysUnder(m, prefix), n);
  }

  lemma ValuesDrop(m: Log, after: Log, ks: seq<string>, n: nat)
    requires n <= |ks| && forall k :: k in ks ==> k in m
    requires forall k :: k in ks[n..] ==> k in after
    requires forall k :: k in after ==> k in m && after[k] == m[k]
    ensures Values(after, ks[n..]) == Values(m, ks)[n..]
  {
    forall i | n <= i < |ks| ensures after[ks[i]] == m[ks[i]] {
      assert ks[n..][i - n] in ks[n..];
    }
  }

  lemma DecodedDrop(docs: seq<Doc>, n: nat)
    requires n <= |docs| && forall d :: d in docs ==> d.Logged?
    ensures |Decoded(docs)| == |docs| && Decoded(docs[n..]) == Decoded(docs)[n..]
  {
    DecodedIsPointwise(docs);
    DecodedIsPointwise(docs[n..]);
  }

  lemma ListedDecodes(m: Log, prefix: string)
    requires RunDecodes(m, prefix)
    ensures forall d :: d in Listed(m, prefix) ==> d.Logged?
  {
    var ks := KeysUnder(m, prefix);
    assert forall i :: 0 <= i < |ks| ==> ks[i] in ks && Listed(m, prefix)[i] == m[ks[i]];
  }

  lemma RunDecodesAfterDelete(m: Log, prefix: string, n: nat)
    requires RunDecodes(m, prefix) && n <= |KeysUnder(m, prefix)|
    ensures RunDecodes(WithoutOldest(m, prefix, n), prefix)
  {
    RunAfterDelete(m, prefix, n);
    var after := WithoutOldest(m, prefix, n);
    forall k | k in KeysUnder(after, prefix) ensures after[k].Logged? {
      assert k in KeysUnder(m, prefix) && after[k] == m[k];
    }
  }

  lemma {:induction false} ReversedDrop<T>(s: seq<T>, n: nat)
    requires n <= |s|
    ensures Reversed(s[n..]) == Reversed(s)[..|s| - n]
  {
  }

  /** The deletion takes only from the old end of the timeline, whatever was
      appended since the records were counted. */
  lemma DeleteCutsTheOldEnd(m: Log, project: string, n: nat)
    requires AllDecode(m, project) && n <= |KeysUnder(m, project + "/")|
    ensures AllDecode(WithoutOldest(m, project + "/", n), project)
    ensures var t := Timeline(m, project);
            |t| == |KeysUnder(m, project + "/")| &&
              Timeline(WithoutOldest(m, project + "/", n), project) == t[..|t| - n]
  {
    RunDecodesAfterDelete(m, project + "/", n);
    ListedAfterDelete(m, project + "/", n);
    ListedDecodes(m, project + "/");
    DecodedDrop(Listed(m, project + "/"), n);
    var es := Decoded(Listed(m, project + "/"));
    assert Decoded(Listed(WithoutOldest(m, project + "/", n), project + "/")) == es[n..];
    ReversedDrop(es, n);
  }

  /** Whatever else is under a project's prefix, its timeline holds exactly the
      event records there; what does not decode is left out and hides nothing. */
  lemma TimelineHolds(m: Log, project: string, e: EventRecord)
    ensures e in Timeline(m, project) <==> exists k :: k in m && project + "/" <= k && m[k] == Logged(e)
  {
    var (ks, docs) := (KeysUnder(m, project + "/"), Listed(m, project + "/"));
    DecodedHolds(docs, e);
    var (es, t) := (Decoded(docs), Timeline(m, project));
    if i :| 0 <= i < |es| && es[i] == e { assert t[|es| - 1 - i] == e; }
    if j :| 0 <= j < |t| && t[j] == e { assert es[|es| - 1 - j] == e; }
    if k :| k in m && project + "/" <= k && m[k] == Logged(e) {
      var i :| 0 <= i < |ks| && ks[i] == k;
      assert docs[i] == Logged(e);
    }
    if Logged(e) in docs {
      var i :| 0 <= i < |docs| && docs[i] == Logged(e);
      assert ks[i] in ks;
    }
  }

  lemma {:induction false} DecodedHolds(docs: seq<Doc>, e: EventRecord)
    ensures e in Decoded(docs) <==> Logged(e) in docs
  {
    if docs != [] {
      var front, last := docs[..|docs| - 1], docs[|docs| - 1];
      assert docs == front + [last];
      DecodedHolds(front, e);
    }
  }

  /** What a page holds: the newest records of the project's run, newest first, as
      many as asked for, or a hundred, or all there are. */
  lemma PageIsNewest(m: Log, project: string, limit: int)
    requires AllDecode(m, project)
    ensures var (page, ks) := (Truncated(Timeline(m, project), EffectiveLimit(limit)), KeysUnder(m, project + "/"));
            var most := if limit <= 0 then 100 else limit;
            && |page| == (if |ks| < most then |ks| else most)
            && forall i :: 0 <= i < |page| ==> ks[|ks| - 1 - i] in m && m[ks[|ks| - 1 - i]] == Logged(page[i])
  {
    TimelineIsPointwise(m, project);
    var ks := KeysUnder(m, project + "/");
    assert forall i :: 0 <= i < |ks| ==> ks[i] in ks;
  }

  /** How many a trim finds in excess: those beyond `keep`, or ten thousand. */
  lemma ExcessIsBeyondKeep(m: Log, project: string, keep: int)
    ensures var (n, most) := (|KeysUnder(m, project + "/")|, if keep <= 0 then 10000 else keep);
            Excess(m, project, keep) == if n <= most then 0 else n - most
  {
  }

  /** Trimming is invisible to every reader of at most `keep` records. */
  lemma TrimIsInvisible(m: Log, project: string, keep: int, limit: int)
    requires AllDecode(m, project)
    requires EffectiveLimit(limit) <= EffectiveKeep(keep)
    ensures Truncated(Timeline(Trimmed(m, project, keep), project), EffectiveLimit(limit)) ==
            Truncated(Timeline(m, project), EffectiveLimit(limit))
  {
    var n := Excess(m, project, keep);
    DeleteCutsTheOldEnd(m, project, n);
    TimelineIsPointwise(m, project);
  }

  /** A reader of more than `keep` records sees the trim whenever it cut. */
  lemma TrimShowsBeyondKeep(m: Log, project: string, keep: int, limit: int)
    requires AllDecode(m, project)
    requires EffectiveLimit(limit) > EffectiveKeep(keep)
    ensures Truncated(Timeline(Trimmed(m, project, keep), project), EffectiveLimit(limit)) ==
            Truncated(Timeline(m, project), EffectiveLimit(limit))
            <==> |KeysUnder(m, project + "/")| <= EffectiveKeep(keep)
  {
    var n := Excess(m, project, keep);
    DeleteCutsTheOldEnd(m, project, n);
    TimelineIsPointwise(m, project);
    TimelineIsPointwise(Trimmed(m, project, keep), project);
    RunAfterDelete(m, project + "/", n);
  }

  /** Appends that land between the count and the delete make no difference to
      how many records remain: `keep` and as many as were appended; and what
      remains is the new end of the timeline, so readers of at most `keep` records
      do not notice. */
  lemma TrimAgainstAppends(m: Log, grown: Log, project: string, keep: int)
    requires m.Keys <= grown.Keys && AllDecode(grown, project)
    requires |KeysUnder(m, project + "/")| >= EffectiveKeep(keep)
    ensures var n := Excess(m, project, keep);
            var t, t' := Timeline(grown, project), Timeline(WithoutOldest(grown, project + "/", n), project);
            var appended := |KeysUnder(grown, project + "/")| - |KeysUnder(m, project + "/")|;
            && appended >= 0
            && |t'| == |KeysUnder(WithoutOldest(grown, project + "/", n), project + "/")| ==
               EffectiveKeep(keep) + appended
            && t' <= t
  {
    var prefix := project + "/";
    var n := Excess(m, project, keep);
    SubsetCount(WithPrefix(m.Keys, prefix), WithPrefix(grown.Keys, prefix));
    DeleteCutsTheOldEnd(grown, project, n);
    RunAfterDelete(grown, prefix, n);
  }

  lemma SubsetCount<T>(a: set<T>, b: set<T>)
    requires a <= b
    ensures |a| <= |b|
  {
    assert b == a + (b - a);
  }

  /** The keys of a run that sort below `k`. */
  function Below(m: Log, prefix: string, k: string): set<string> {
    set x | x in KeysUnder(m, prefix) && Less(x, k)
  }

  function Elements(ks: seq<string>): set<string> {
    set x | x in ks
  }

  lemma {:induction false} RankInAscending(ks: seq<string>, i: nat)
    requires Ascends(ks) && i <= |ks|
    ensures |Elements(ks[..i])| == i
  {
    if i > 0 {
      RankInAscending(ks, i - 1);
      var last := ks[i - 1];
      assert ks[..i] == ks[..i - 1] + [last];
      NotBefore(ks, i - 1);
      OneMoreElement(ks[..i - 1], last);
    }
  }

  lemma OneMoreElement(ks: seq<string>, x: string)
    requires x !in ks
    ensures |Elements(ks + [x])| == |Elements(ks)| + 1
  {
    assert Elements(ks + [x]) == Elements(ks) + {x};
  }

  lemma NotBefore(ks: seq<string>, i: nat)
    requires Ascends(ks) && i < |ks|
    ensures ks[i] !in ks[..i]
  {
    Irreflexive(ks[i]);
  }

  /** Exactly which records of a run a delete of its `n` oldest leaves: those
      above at least `n` others. */
  lemma SurvivesDelete(m: Log, prefix: string, n: nat, k: string)
    requires k in KeysUnder(m, prefix) && n <= |KeysUnder(m, prefix)|
    ensures k in WithoutOldest(m, prefix, n) <==> |Below(m, prefix, k)| >= n
  {
    var ks := KeysUnder(m, prefix);
    AscendingAscends(WithPrefix(m.Keys, prefix));
    var i :| 0 <= i < |ks| && ks[i] == k;
    forall x | x in ks ensures x in ks[..i] <==> Less(x, k) {
      var j :| 0 <= j < |ks| && ks[j] == x;
      RankDecides(ks, j, i);
    }
    assert Below(m, prefix, k) == Elements(ks[..i]);
    RankInAscending(ks, i);
    assert k in ks[..n] <==> i < n by {
      if k in ks[..n] {
        var j :| 0 <= j < n && ks[j] == k;
        RankDecides(ks, j, i);
        RankDecides(ks, i, j);
      }
    }
  }

  lemma RankDecides(ks: seq<string>, j: nat, i: nat)
    requires Ascends(ks) && i < |ks| && j < |ks|
    ensures Less(ks[j], ks[i]) <==> j < i
    ensures ks[j] in ks[..i] <==> j < i
  {
    Irreflexive(ks[i]);
    if i < j { Asymmetric(ks[i], ks[j]); }
    if ks[j] in ks[..i] {
      var l :| 0 <= l < i && ks[l] == ks[j];
      Irreflexive(ks[j]);
    }
  }

  /** An append that lands between the count and the delete survives if and only
      if at least as many records sort below it as the count found in excess. */
  lemma AppendSurvives(m: Log, grown: Log, project: string, keep: int, k: string)
    requires m.Keys <= grown.Keys && k in KeysUnder(grown, project + "/")
    ensures var n := Excess(m, project, keep);
            k in WithoutOldest(grown, project + "/", n) <==> |Below(grown, project + "/", k)| >= n
  {
    SubsetCount(WithPrefix(m.Keys, project + "/"), WithPrefix(grown.Keys, project + "/"));
    SurvivesDelete(grown, project + "/", Excess(m, project, keep), k);
  }

  /** So the newest event can be lost: two events lie on a whole second, one is
      kept, and an event later in that second is appended before the delete, which
      takes it. */
  lemma TrimDropsAppend(a: Time, b: Time, project: string, uids: seq<string>)
    requires a.Valid() && b.Valid() && a.SameSecond(b) && a.nano == 0 < b.nano
    requires |uids| == 3 && uids[0] != uids[1]
    ensures var e0, e1 := EventRecord(uids[0], "", project, "", a), EventRecord(uids[1], "", project, "", a);
            var e2 := EventRecord(uids[2], "", project, "", b);
            var m := map[EventKey(project, a, uids[0]) := Logged(e0), EventKey(project, a, uids[1]) := Logged(e1)];
            var grown := m[EventKey(project, b, uids[2]) := Logged(e2)];
            && Excess(m, project, 1) == 1
            && EventKey(project, b, uids[2]) !in WithoutOldest(grown, project + "/", 1)
            && EventKey(project, a, uids[0]) in WithoutOldest(grown, project + "/", 1)
            && EventKey(project, a, uids[1]) in WithoutOldest(grown, project + "/", 1)
  {
    var k0, k1, k2 := EventKey(project, a, uids[0]), EventKey(project, a, uids[1]), EventKey(project, b, uids[2]);
    var p := project + "/";
    KeysDiffer(project, a, uids[0], uids[1]);
    WholeSecondSortsLast(project, a, b, uids[0], uids[2]);
    WholeSecondSortsLast(project, a, b, uids[1], uids[2]);
    Asymmetric(k2, k0);
    Asymmetric(k2, k1);
    Irreflexive(k2);
    HasProjectPrefix(project, a, uids[0]);
    HasProjectPrefix(project, a, uids[1]);
    HasProjectPrefix(project, b, uids[2]);
    DeleteTakesTheLeast(p, k0, k1, k2, Logged(EventRecord(uids[0], "", project, "", a)),
                        Logged(EventRecord(uids[1], "", project, "", a)),
                        Logged(EventRecord(uids[2], "", project, "", b)));
  }

  lemma HasProjectPrefix(project: string, at: Time, uid: string)
    ensures project + "/" <= EventKey(project, at, uid)
  {
  }

  lemma KeysDiffer(project: string, at: Time, u: string, v: string)
    requires u != v
    ensures EventKey(project, at, u) != EventKey(project, at, v)
  {
    var p := project + "/" + Format(at) + "-";
    assert (p + u)[|p|..] == u && (p + v)[|p|..] == v;
  }

  lemma DeleteTakesTheLeast(p: string, k0: string, k1: string, k2: string, d0: Doc, d1: Doc, d2: Doc)
    requires p <= k0 && p <= k1 && p <= k2 && k0 != k1 && Less(k2, k0) && Less(k2, k1)
    ensures var m := map[k0 := d0, k1 := d1];
            var grown := m[k2 := d2];
            && |KeysUnder(m, p)| == 2
            && k2 !in WithoutOldest(grown, p, 1) && k0 in WithoutOldest(grown, p, 1) && k1 in WithoutOldest(grown, p, 1)
  {
    var m := map[k0 := d0, k1 := d1];
    var grown := m[k2 := d2];
    Irreflexive(k2);
    Asymmetric(k2, k0);
    Asymmetric(k2, k1);
    assert WithPrefix(m.Keys, p) == {k0, k1};
    assert WithPrefix(grown.Keys, p) == {k0, k1, k2};
    assert Below(grown, p, k2) == {};
    assert k2 in Below(grown, p, k0) && k2 in Below(grown, p, k1);
    SurvivesDelete(grown, p, 1, k0);
    SurvivesDelete(grown, p, 1, k1);
    SurvivesDelete(grown, p, 1, k2);
  }

  /** Exactly which records a trim of one project deletes: those its prefix
      covers, its own or another's, below which there are not as many as are in
      excess. */
  lemma TrimReaches(m: Log, project: string, keep: int, q: string, n: string)
    requires project != "" && q != "" && KeyFor(q, n) in m
    ensures KeyFor(q, n) in Trimmed(m, project, keep) <==>
            !Covers(project, q, n) || |Below(m, project + "/", KeyFor(q, n))| >= Excess(m, project, keep)
  {
    PrefixCovers(project, q, n);
    if Covers(project, q, n) {
      SurvivesDelete(m, project + "/", Excess(m, project, keep), KeyFor(q, n));
    }
  }

  /** With a slash in a project name a trim deletes another project's events. */
  lemma TrimDeletesOthers(at: Time, u: string, v: string, d: Doc)
    requires u != v
    ensures var m := map[EventKey("a/b", at, u) := d, EventKey("a/b", at, v) := d];
            exists k :: k in m && k !in Trimmed(m, "a", 1)
  {
    var k, l := EventKey("a/b", at, u), EventKey("a/b", at, v);
    var m := map[k := d, l := d];
    KeysDiffer("a/b", at, u, v);
    HasProjectPrefix("a/b", at, u);
    HasProjectPrefix("a/b", at, v);
    assert "a/" <= "a/b/" && "a/" <= k && "a/" <= l;
    assert WithPrefix(m.Keys, "a/") == {k, l};
    assert "a" + "/" == "a/";
    var run := KeysUnder(m, "a/");
    assert |run| == 2 && run[0] in run[..1];
    assert run[0] in m && run[0] !in WithoutOldest(m, "a/", 1);
  }

  /** Trimming one slash-free project leaves every other one alone. */
  lemma TrimSparesOthers(m: Log, project: string, keep: int, other: string)
    requires SlashFree(project) && SlashFree(other) && project != other
    ensures var after := Trimmed(m, project, keep);
            after.Keys <= m.Keys &&
            forall k :: k in m && other + "/" <= k ==> k in after && after[k] == m[k]
  {
    forall k | k in m && other + "/" <= k ensures !(project + "/" <= k) {
      if project + "/" <= k {
        PrefixesAreDisjoint(project, other, k);
      }
    }
  }

  // ---------- the timeline and time ----------

  /** Every record of a project sits under its own key. */
  ghost predicate SelfLogged(m: Log, project: string) {
    forall k :: k in m && project + "/" <= k ==> UnderOwnKey(project, k, m[k])
  }

  predicate UnderOwnKey(project: string, k: string, d: Doc) {
    d.Logged? && d.e.at.Valid() && k == EventKey(project, d.e.at, d.e.uid)
  }

  lemma AppendKeepsSelfLogged(m: Log, project: string, rec: EventRecord)
    requires SelfLogged(m, project) && rec.at.Valid()
    requires SlashFree(project) && SlashFree(rec.project)
    ensures SelfLogged(m[LogKey(rec) := Logged(rec)], project)
  {
    assert SlashFree("default");
    var q := LogProject(rec);
    var name := Format(rec.at) + "-" + rec.uid;
    assert LogKey(rec) == KeyFor(q, name);
    PrefixNamesProject(project, q, name);
  }

  /** Newest first means newest first exactly when no two records of the
      project form an inverted pair. */
  lemma TimelineIsChronological(m: Log, project: string)
    requires SelfLogged(m, project)
    ensures var t := Timeline(m, project);
            (forall i, j :: 0 <= i < j < |t| ==> !t[i].at.Before(t[j].at)) <==>
            (forall i, j :: 0 <= i < |t| && 0 <= j < |t| ==> !(t[i].at.Before(t[j].at) && Inverted(t[i].at, t[j].at)))
  {
    var t := Timeline(m, project);
    forall i, j | 0 <= i < |t| && 0 <= j < |t| && t[i].at.Before(t[j].at)
      ensures Inverted(t[i].at, t[j].at) <==> i < j
    {
      PairInTimeline(m, project, i, j);
    }
  }

  /** Where a timeline's entry comes from. */
  lemma EntryKey(m: Log, project: string, i: nat) returns (k: string)
    requires AllDecode(m, project) && i < |Timeline(m, project)|
    ensures var ks := KeysUnder(m, project + "/"); |ks| == |Timeline(m, project)| && k == ks[|ks| - 1 - i]
    ensures k in KeysUnder(m, project + "/") && m[k].Logged? && m[k].e == Timeline(m, project)[i]
  {
    TimelineIsPointwise(m, project);
    var ks := KeysUnder(m, project + "/");
    k := ks[|ks| - 1 - i];
  }

  lemma SelfLoggedDecodes(m: Log, project: string)
    requires SelfLogged(m, project)
    ensures AllDecode(m, project)
  {
    forall k | k in KeysUnder(m, project + "/") ensures m[k].Logged? { SelfLoggedAt(m, project, k); }
  }

  lemma SelfLoggedAt(m: Log, project: string, k: string)
    requires SelfLogged(m, project) && k in KeysUnder(m, project + "/")
    ensures UnderOwnKey(project, k, m[k])
  {
  }

  lemma PairInTimeline(m: Log, project: string, i: nat, j: nat)
    requires SelfLogged(m, project)
    requires var t := Timeline(m, project); i < |t| && j < |t| && t[i].at.Before(t[j].at)
    ensures var t := Timeline(m, project); Inverted(t[i].at, t[j].at) <==> i < j
  {
    SelfLoggedDecodes(m, project);
    var ki := EntryKey(m, project, i);
    var kj := EntryKey(m, project, j);
    SelfLoggedAt(m, project, ki);
    SelfLoggedAt(m, project, kj);
    AscendingAscends(WithPrefix(m.Keys, project + "/"));
    var t := Timeline(m, project);
    KeyOrderIsTimeOrder(project, t[i].at, t[j].at, t[i].uid, t[j].uid);
    if j < i { Asymmetric(ki, kj); }
  }
}
