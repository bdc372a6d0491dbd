/** The table of live streams under streamMu, and every goroutine that touches
    a stream: builds that open, write and close them, writers that keep a
    pointer, StreamLogs callers and unsubscribers. */
module StreamTables {
  import opened Options
  import opened LogStreams

  /** A build's goroutine: its stream is listed in the table, has been unlisted
      by closeStream, or has been closed. Build and stream share an id. */
  datatype Stage = Listed | Unlisted | Done
  datatype Build = Build(uid: string, stage: Stage)

  /** `mutex` is streamMu: held by the StreamLogs caller that found stream
      `value`, across its call of subscribe. `broken` records that some
      operation panicked or blocked under a lock. */
  datatype System = System(streams: map<nat, Stream>, builds: map<nat, Build>, table: map<string, nat>,
                           mutex: Option<nat>, broken: bool)

  datatype Step =
    | Open(b: nat, uid: string)       // openStream: a new stream, then the table under streamMu
    | Write(b: nat, line: string)     // any writer that holds the stream, even after close
    | Unlist(b: nat)                  // closeStream, under streamMu
    | CloseStream(b: nat)             // closeStream, after releasing it
    | Find(uid: string)               // StreamLogs takes streamMu and looks the build up
    | SubscribeFound                  // ... subscribes and releases streamMu
    | Leave(b: nat, sub: nat)         // an unsubscribe function is called
    | Consume(b: nat, sub: nat)       // a subscriber receives from its channel

  predicate Enabled(s: System, step: Step) {
    match step
    case Open(b, uid) => b !in s.builds && b !in s.streams && s.mutex.None?
    case Write(b, _) => b in s.streams
    case Unlist(b) => b in s.builds && s.builds[b].stage == Listed && s.mutex.None?
    case CloseStream(b) => b in s.builds && s.builds[b].stage == Unlisted && b in s.streams
    case Find(uid) => s.mutex.None? && uid in s.table
    case SubscribeFound => s.mutex.Some? && s.mutex.value in s.streams
    case Leave(b, _) => b in s.streams
    case Consume(b, _) => b in s.streams
  }

  function Finish(s: System, b: nat, e: Ending): System {
    match e
    case Ok(st) => s.(streams := s.streams[b := st])
    case _ => s.(broken := true)
  }

  function Do(s: System, step: Step): System {
    if !Enabled(s, step) then s else
    match step
    case Open(b, uid) =>
      s.(streams := s.streams[b := FRESH], builds := s.builds[b := Build(uid, Listed)], table := s.table[uid := b])
    case Write(b, line) => Finish(s, b, Append(s.streams[b], line))
    case Unlist(b) =>
      s.(table := s.table - {s.builds[b].uid}, builds := s.builds[b := s.builds[b].(stage := Unlisted)])
    case CloseStream(b) =>
      Finish(s.(builds := s.builds[b := s.builds[b].(stage := Done)]), b, Close(s.streams[b]))
    case Find(uid) => s.(mutex := Some(s.table[uid]))
    case SubscribeFound => Finish(s.(mutex := None), s.mutex.value, Subscribe(s.streams[s.mutex.value]))
    case Leave(b, sub) => s.(streams := s.streams[b := Unsubscribe(s.streams[b], sub)])
    case Consume(b, sub) => s.(streams := s.streams[b := Take(s.streams[b], sub)])
  }

  function Run(s: System, steps: seq<Step>): System
    decreases |steps|
  {
    if steps == [] then s else Do(Run(s, steps[..|steps| - 1]), steps[|steps| - 1])
  }

  const EMPTY := System(map[], map[], map[], None, false)

  /** Only a build that has not begun closeStream is in the table, under its own
      uid; a stream is closed only when its build is done; and while a caller
      holds streamMu the stream it found stays listed. */
  ghost predicate Inv(s: System) {
    && !s.broken
    && s.builds.Keys == s.streams.Keys
    && (forall b :: b in s.streams ==> StreamOk(s.streams[b]) && (s.streams[b].closed <==> s.builds[b].stage == Done))
    && (forall u :: u in s.table ==> s.table[u] in s.builds && s.builds[s.table[u]] == Build(u, Listed))
    && (s.mutex.Some? ==> s.mutex.value in s.builds && s.builds[s.mutex.value].stage == Listed)
  }

  lemma StreamChange(s: System, b: nat, st: Stream)
    requires Inv(s) && b in s.streams && StreamOk(st) && st.closed == s.streams[b].closed
    ensures Inv(s.(streams := s.streams[b := st]))
  {
  }

  lemma FreshOk()
    ensures StreamOk(FRESH)
  {
    assert LastLines([]) == [];
  }

  lemma OpenKeepsInv(s: System, b: nat, uid: string)
    requires Inv(s) && Enabled(s, Open(b, uid))
    ensures Inv(Do(s, Open(b, uid)))
  {
    FreshOk();
  }

  lemma UnlistKeepsInv(s: System, b: nat)
    requires Inv(s) && Enabled(s, Unlist(b))
    ensures Inv(Do(s, Unlist(b)))
  {
  }

  lemma CloseKeepsInv(s: System, b: nat)
    requires Inv(s) && Enabled(s, CloseStream(b))
    ensures Inv(Do(s, CloseStream(b)))
  {
    CloseOk(s.streams[b]);
  }

  lemma StepKeepsInv(s: System, step: Step)
    requires Inv(s)
    ensures Inv(Do(s, step))
  {
    if Enabled(s, step) {
      match step
      case Open(b, uid) => OpenKeepsInv(s, b, uid);
      case Write(b, line) =>
        AppendOk(s.streams[b], line);
        StreamChange(s, b, Append(s.streams[b], line).s);
      case Unlist(b) => UnlistKeepsInv(s, b);
      case CloseStream(b) => CloseKeepsInv(s, b);
      case Find(uid) =>
      case SubscribeFound =>
        var b := s.mutex.value;
        SubscribeOk(s.streams[b]);
        StreamChange(s.(mutex := None), b, Subscribe(s.streams[b]).s);
      case Leave(b, sub) =>
        UnsubscribeOk(s.streams[b], sub);
        StreamChange(s, b, Unsubscribe(s.streams[b], sub));
      case Consume(b, sub) =>
        TakeOk(s.streams[b], sub);
        StreamChange(s, b, Take(s.streams[b], sub));
    }
  }

  lemma {:induction false} Reachable(steps: seq<Step>)
    ensures Inv(Run(EMPTY, steps))
    decreases |steps|
  {
    if steps != [] {
      Reachable(steps[..|steps| - 1]);
      StepKeepsInv(Run(EMPTY, steps[..|steps| - 1]), steps[|steps| - 1]);
    }
  }

  /** In every interleaving: nothing is sent on a closed channel, no channel is
      closed twice, nobody subscribes to a nil map or blocks in subscribe while
      holding the locks. */
  lemma NothingBreaks(steps: seq<Step>)
    ensures !Run(EMPTY, steps).broken
  {
    Reachable(steps);
  }

  /** A stream that can be found in the table, or that a StreamLogs caller has
      found, is open. */
  lemma ListedIsOpen(steps: seq<Step>, uid: string)
    ensures var s := Run(EMPTY, steps);
            && (uid in s.table ==> s.table[uid] in s.streams && !s.streams[s.table[uid]].closed)
            && (s.mutex.Some? ==> s.mutex.value in s.streams && !s.streams[s.mutex.value].closed)
  {
    Reachable(steps);
  }

  /** A goroutine other than the one that took streamMu can wait for it, but its
      holder can always go on: no deadlock between the two locks. */
  lemma HolderProceeds(steps: seq<Step>)
    ensures var s := Run(EMPTY, steps);
            s.mutex.Some? ==> Enabled(s, SubscribeFound) && Do(s, SubscribeFound).mutex.None?
  {
    Reachable(steps);
    var s := Run(EMPTY, steps);
    if s.mutex.Some? { SubscribeOk(s.streams[s.mutex.value]); }
  }

  /** What a subscriber gets, in every interleaving: the tail buffered when it
      came (at most 256 texts), then some of the later texts in order, of which
      those not yet received are still queued. */
  lemma SubscriberSees(steps: seq<Step>, b: nat, sub: nat)
    requires var s := Run(EMPTY, steps); b in s.streams && sub in s.streams[b].chans
    ensures var st := Run(EMPTY, steps).streams[b];
            sub in st.start && Delivered(st.text, st.start[sub], st.chans[sub].sent) && QueueOk(st.chans[sub])
  {
    Reachable(steps);
  }

  /** Whenever a text is written to stream `b`, subscriber `sub`'s channel has
      room for it. */
  predicate AlwaysRoom(steps: seq<Step>, b: nat, sub: nat)
    decreases |steps|
  {
    steps != [] ==>
      var (before, last) := (steps[..|steps| - 1], steps[|steps| - 1]);
      var s := Run(EMPTY, before);
      && AlwaysRoom(before, b, sub)
      && (last.Write? && last.b == b && b in s.streams && sub in s.streams[b].chans ==>
            |s.streams[b].chans[sub].buf| < 256)
  }

  /** The tail buffered at `from` and everything since. */
  predicate Everything(text: seq<string>, from: nat, sent: seq<string>) {
    from <= |text| && sent == LastLines(text[..from]) + text[from..]
  }

  lemma EverythingGrows(text: seq<string>, from: nat, sent: seq<string>, line: string)
    requires Everything(text, from, sent)
    ensures Everything(text + [line], from, sent + [line])
  {
    assert (text + [line])[..from] == text[..from] && (text + [line])[from..] == text[from..] + [line];
  }

  lemma NothingYet(text: seq<string>)
    ensures Everything(text, |text|, LastLines(text))
  {
    assert text[..|text|] == text && text[|text|..] == [];
  }

  /** It was sent everything, and is registered as long as the stream is open. */
  predicate Complete(st: Stream, sub: nat) {
    sub in st.chans ==>
      && sub in st.start && Everything(st.text, st.start[sub], st.chans[sub].sent)
      && (st.subs.Some? ==> sub in st.subs.value)
  }

  lemma AppendKeepsComplete(st: Stream, line: string, sub: nat)
    requires StreamOk(st) && Complete(st, sub) && (sub in st.chans ==> |st.chans[sub].buf| < 256)
    ensures Append(st, line).Ok? && Complete(Append(st, line).s, sub)
  {
    AppendOk(st, line);
    if st.closed {
      ClosedTakesNothing(st, line);
    } else {
      AppendKeepsBooks(st, line);
      if sub in st.chans {
        LineReaches(st, line, sub);
        EverythingGrows(st.text, st.start[sub], st.chans[sub].sent, line);
      }
    }
  }

  lemma AppendKeepsBooks(st: Stream, line: string)
    requires StreamOk(st) && Append(st, line).Ok?
    ensures var s' := Append(st, line).s; s'.start == st.start && s'.subs == st.subs && s'.chans.Keys == st.chans.Keys
  {
  }

  lemma SubscribeKeepsComplete(st: Stream, sub: nat)
    requires StreamOk(st) && !st.closed && Complete(st, sub)
    ensures Subscribe(st).Ok? && Complete(Subscribe(st).s, sub)
  {
    BufferFits(st);
    NothingYet(st.text);
  }

  lemma StepKeepsComplete(s: System, step: Step, b: nat, sub: nat)
    requires Inv(s) && (b in s.streams ==> Complete(s.streams[b], sub)) && step != Leave(b, sub)
    requires step.Write? && step.b == b && b in s.streams && sub in s.streams[b].chans ==>
      |s.streams[b].chans[sub].buf| < 256
    ensures var t := Do(s, step); b in t.streams ==> Complete(t.streams[b], sub)
  {
    if Enabled(s, step) {
      if step.Write? && step.b == b {
        AppendKeepsComplete(s.streams[b], step.line, sub);
      } else if step.SubscribeFound? && s.mutex.value == b {
        SubscribeKeepsComplete(s.streams[b], sub);
      } else if step.CloseStream? && step.b == b {
        CloseOk(s.streams[b]);
      } else {
        OthersKeepStream(s, step, b, sub);
      }
    }
  }

  lemma OthersKeepStream(s: System, step: Step, b: nat, sub: nat)
    requires Inv(s) && Enabled(s, step) && step != Leave(b, sub)
    requires !(step.Write? && step.b == b) && !(step.CloseStream? && step.b == b)
    requires !(step.SubscribeFound? && s.mutex.value == b)
    requires b in s.streams ==> Complete(s.streams[b], sub)
    ensures var t := Do(s, step); b in t.streams ==> Complete(t.streams[b], sub)
  {
  }

  lemma {:induction false} RunKeepsComplete(steps: seq<Step>, b: nat, sub: nat)
    requires Leave(b, sub) !in steps && AlwaysRoom(steps, b, sub)
    ensures var s := Run(EMPTY, steps); b in s.streams ==> Complete(s.streams[b], sub)
    decreases |steps|
  {
    if steps != [] {
      var before := steps[..|steps| - 1];
      Reachable(before);
      RunKeepsComplete(before, b, sub);
      StepKeepsComplete(Run(EMPTY, before), steps[|steps| - 1], b, sub);
    }
  }

  /** A subscriber that keeps up loses nothing: if its channel has room at every
      write and it does not unsubscribe, it was sent the buffered tail followed by
      every later text. */
  lemma KeepingUpLosesNothing(steps: seq<Step>, b: nat, sub: nat)
    requires Leave(b, sub) !in steps && AlwaysRoom(steps, b, sub)
    requires var s := Run(EMPTY, steps); b in s.streams && sub in s.streams[b].chans
    ensures var st := Run(EMPTY, steps).streams[b];
            && sub in st.start && st.start[sub] <= |st.text|
            && st.chans[sub].sent == LastLines(st.text[..st.start[sub]]) + st.text[st.start[sub]..]
  {
    RunKeepsComplete(steps, b, sub);
  }

  // ---------- what the steps achieve ----------

  /** A build's stream can be found as soon as it is opened. */
  lemma OpenIsFound(s: System, b: nat, uid: string)
    requires Enabled(s, Open(b, uid))
    ensures var t := Do(s, Open(b, uid));
            Enabled(t, Find(uid)) && Do(t, Find(uid)).mutex == Some(b) && b in t.streams && !t.streams[b].closed
  {
  }

  /** Whoever found a stream subscribes to it and is registered, with the newest
      texts, 256 at most, in its channel. */
  lemma FoundIsSubscribed(steps: seq<Step>)
    requires Run(EMPTY, steps).mutex.Some?
    ensures var s := Run(EMPTY, steps);
            var (b, t) := (s.mutex.value, Do(s, SubscribeFound));
            && b in s.streams && b in t.streams
            && var (sub, n) := (s.streams[b].nextID, |s.streams[b].text|);
               && t.streams[b].subs.Some? && sub in t.streams[b].subs.value && sub in t.streams[b].chans
               && t.streams[b].chans[sub].buf == s.streams[b].text[if n < 256 then 0 else n - 256..]
  {
    Reachable(steps);
    var s := Run(EMPTY, steps);
    TailIsNewest(s.streams[s.mutex.value]);
  }

  /** In every interleaving a text written to an open stream is kept and goes at
      once to every registered subscriber whose channel has room. */
  lemma WriteReaches(steps: seq<Step>, b: nat, line: string, sub: nat)
    requires var s := Run(EMPTY, steps); b in s.streams && !s.streams[b].closed && sub in s.streams[b].chans
    ensures var (s, t) := (Run(EMPTY, steps), Do(Run(EMPTY, steps), Write(b, line)));
            && b in t.streams && sub in t.streams[b].chans && s.streams[b].subs.Some?
            && t.streams[b].text == s.streams[b].text + [line]
            && (sub in s.streams[b].subs.value && |s.streams[b].chans[sub].buf| < 256 ==>
                  t.streams[b].chans[sub].buf == s.streams[b].chans[sub].buf + [line])
  {
    Reachable(steps);
    LineReaches(Run(EMPTY, steps).streams[b], line, sub);
  }

  /** What subscribe's caller skipped: had closeStream closed the stream before
      unlisting it, a caller could subscribe to a nil map. */
  lemma ClosedStreamRefuses(s: Stream)
    requires StreamOk(s) && s.closed
    ensures Subscribe(s) == Panic
  {
  }
}
