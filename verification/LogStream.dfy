/** A build's live log: the last 256 texts, and one bounded channel per
    subscriber. Operations that Go would panic on or block in are modelled as
    such, so that their absence can be proved. */
module LogStreams {
  import opened Options

  const CAPACITY: nat := 256

  /** A Go channel of capacity 256. `sent` is its history, what a receiver has
      taken is `sent` without the queued end. */
  datatype Channel = Channel(buf: seq<string>, closed: bool, sent: seq<string>)

  /** `subs` is None once the map is nil. `text` records everything accepted,
      `start[id]` how much of it there was when `id` subscribed. */
  datatype Stream = Stream(buffer: seq<string>, subs: Option<set<nat>>, nextID: nat, closed: bool,
                           chans: map<nat, Channel>, text: seq<string>, start: map<nat, nat>)

  /** How an operation ends: normally, in a panic, or blocked while it holds
      the stream's lock. */
  datatype Ending = Ok(s: Stream) | Panic | Blocked

  const FRESH := Stream([], Some({}), 0, false, map[], [], map[])

  /** The last 256 elements. */
  function LastLines(s: seq<string>): seq<string> {
    if |s| > CAPACITY then s[|s| - CAPACITY..] else s
  }

  // ---------- channel operations ----------

  /** A send with a default branch: dropped when the channel is full. */
  function TrySend(c: Channel, text: string): Channel {
    if |c.buf| < CAPACITY then c.(buf := c.buf + [text], sent := c.sent + [text]) else c
  }

  function Receive(c: Channel): Channel {
    if c.buf == [] then c else c.(buf := c.buf[1..])
  }

  function SentTo(chans: map<nat, Channel>, ids: set<nat>, text: string): map<nat, Channel> {
    map id | id in chans :: if id in ids then TrySend(chans[id], text) else chans[id]
  }

  function ClosedAmong(chans: map<nat, Channel>, ids: set<nat>): map<nat, Channel> {
    map id | id in chans :: if id in ids then chans[id].(closed := true) else chans[id]
  }

  // ---------- stream operations ----------

  function Append(s: Stream, text: string): Ending {
    if s.closed then Ok(s) else
    var s1 := s.(buffer := LastLines(s.buffer + [text]), text := s.text + [text]);
    if s.subs.None? then Ok(s1)
    else if exists id :: id in s.subs.value && id in s.chans && s.chans[id].closed then Panic
    else Ok(s1.(chans := SentTo(s.chans, s.subs.value, text)))
  }

  function Subscribe(s: Stream): Ending {
    if |s.buffer| > CAPACITY then Blocked
    else if s.subs.None? then Panic
    else Ok(s.(nextID := s.nextID + 1, subs := Some(s.subs.value + {s.nextID}),
               chans := s.chans[s.nextID := Channel(s.buffer, false, s.buffer)],
               start := s.start[s.nextID := |s.text|]))
  }

  function Unsubscribe(s: Stream, id: nat): Stream {
    if s.subs.None? then s else s.(subs := Some(s.subs.value - {id}))
  }

  function Close(s: Stream): Ending {
    if s.subs.None? then Ok(s.(closed := true))
    else if exists id :: id in s.subs.value && id in s.chans && s.chans[id].closed then Panic
    else Ok(s.(closed := true, subs := None, chans := ClosedAmong(s.chans, s.subs.value)))
  }

  function Take(s: Stream, id: nat): Stream {
    if id in s.chans then s.(chans := s.chans[id := Receive(s.chans[id])]) else s
  }

  // ---------- what holds of every stream ----------

  /** `a` is `b` with some elements left out. */
  predicate Thinned(a: seq<string>, b: seq<string>) {
    if a == [] then true else
    b != [] && ((a[|a| - 1] == b[|b| - 1] && Thinned(a[..|a| - 1], b[..|b| - 1])) || Thinned(a, b[..|b| - 1]))
  }

  /** A subscriber that came when there were `from` texts was sent the tail of
      those, then some of the later texts, in order. */
  ghost predicate Delivered(text: seq<string>, from: nat, sent: seq<string>) {
    from <= |text| &&
    var tail := LastLines(text[..from]);
    |tail| <= |sent| && sent[..|tail|] == tail && Thinned(sent[|tail|..], text[from..])
  }

  ghost predicate ChannelOk(c: Channel, text: seq<string>, from: nat) {
    QueueOk(c) && Delivered(text, from, c.sent)
  }

  ghost predicate StreamOk(s: Stream) {
    && s.buffer == LastLines(s.text)
    && (s.closed <==> s.subs.None?)
    && s.chans.Keys == s.start.Keys
    && (forall id :: id in s.chans ==> id < s.nextID && ChannelOk(s.chans[id], s.text, s.start[id]))
    && (s.subs.Some? ==> forall id :: id in s.subs.value ==> id in s.chans && !s.chans[id].closed)
  }

  /** The part of StreamOk that keeps the operations from panicking. */
  ghost predicate Usable(s: Stream) {
    && |s.buffer| <= CAPACITY
    && (s.closed <==> s.subs.None?)
    && (s.subs.Some? ==> forall id :: id in s.subs.value ==> id in s.chans && !s.chans[id].closed)
  }

  lemma {:induction false} ThinnedGrows(a: seq<string>, b: seq<string>, x: string)
    requires Thinned(a, b)
    ensures Thinned(a, b + [x]) && Thinned(a + [x], b + [x])
  {
    assert (b + [x])[..|b|] == b && (a + [x])[..|a|] == a;
  }

  lemma LastLinesStep(s: seq<string>, x: string)
    ensures LastLines(LastLines(s) + [x]) == LastLines(s + [x])
  {
  }

  lemma DeliveredGrows(text: seq<string>, from: nat, sent: seq<string>, line: string)
    requires Delivered(text, from, sent)
    ensures Delivered(text + [line], from, sent) && Delivered(text + [line], from, sent + [line])
  {
    var tail := LastLines(text[..from]);
    assert (text + [line])[..from] == text[..from] && (text + [line])[from..] == text[from..] + [line];
    ThinnedGrows(sent[|tail|..], text[from..], line);
    assert (sent + [line])[|tail|..] == sent[|tail|..] + [line] && (sent + [line])[..|tail|] == sent[..|tail|];
  }

  ghost predicate QueueOk(c: Channel) {
    |c.buf| <= CAPACITY && |c.buf| <= |c.sent| && c.buf == c.sent[|c.sent| - |c.buf|..]
  }

  lemma SendQueues(c: Channel, line: string)
    requires QueueOk(c)
    ensures QueueOk(TrySend(c, line))
  {
  }

  lemma SendOk(c: Channel, text: seq<string>, from: nat, line: string)
    requires ChannelOk(c, text, from)
    ensures ChannelOk(c, text + [line], from) && ChannelOk(TrySend(c, line), text + [line], from)
  {
    DeliveredGrows(text, from, c.sent, line);
    SendQueues(c, line);
  }

  lemma FirstOk(text: seq<string>)
    ensures ChannelOk(Channel(LastLines(text), false, LastLines(text)), text, |text|)
  {
    var tail := LastLines(text);
    assert text[..|text|] == text && text[|text|..] == [] && tail[..|tail|] == tail && tail[|tail|..] == [] &&
           tail[0..] == tail;
  }

  lemma AppendOk(s: Stream, line: string)
    requires StreamOk(s)
    ensures Append(s, line).Ok? && StreamOk(Append(s, line).s)
  {
    if !s.closed {
      var s' := Append(s, line).s;
      LastLinesStep(s.text, line);
      forall id | id in s'.chans ensures ChannelOk(s'.chans[id], s'.text, s'.start[id]) {
        SendOk(s.chans[id], s.text, s.start[id], line);
      }
    }
  }

  /** A new subscriber's channel holds the newest texts there are, 256 at most. */
  lemma TailIsNewest(s: Stream)
    requires StreamOk(s) && !s.closed
    ensures Subscribe(s).Ok? && s.nextID in Subscribe(s).s.chans
    ensures var n := |s.text|; Subscribe(s).s.chans[s.nextID].buf == s.text[if n < 256 then 0 else n - 256..]
  {
    BufferFits(s);
    LastLinesAre(s.text);
  }

  lemma LastLinesAre(s: seq<string>)
    ensures LastLines(s) == s[if |s| < 256 then 0 else |s| - 256..]
  {
  }

  /** Who gets a line: on an open stream every registered subscriber with fewer
      than 256 texts queued, right away; nobody else's channel changes. */
  lemma LineReaches(s: Stream, line: string, id: nat)
    requires StreamOk(s) && !s.closed && id in s.chans
    ensures var (c, a) := (s.chans[id], Append(s, line));
            && a.Ok? && id in a.s.chans && a.s.text == s.text + [line]
            && var c' := a.s.chans[id];
               if id in s.subs.value && |c.buf| < 256 then
                 c'.buf == c.buf + [line] && c'.sent == c.sent + [line] && c'.closed == c.closed
               else c' == c
  {
    AppendOk(s, line);
  }

  /** What a receiver has taken from the channel. */
  ghost function Taken(c: Channel): seq<string>
    requires |c.buf| <= |c.sent|
  {
    c.sent[..|c.sent| - |c.buf|]
  }

  /** Receivers take the texts one at a time, in the order they were sent. */
  lemma TakenInOrder(c: Channel)
    requires QueueOk(c) && c.buf != []
    ensures var n := |Taken(c)|;
            && QueueOk(Receive(c)) && Receive(c).sent == c.sent
            && n < |c.sent| && Taken(Receive(c)) == c.sent[..n + 1]
  {
  }

  /** A closed stream takes no more text. */
  lemma ClosedTakesNothing(s: Stream, line: string)
    requires s.closed
    ensures Append(s, line) == Ok(s)
  {
  }

  /** Closing ends every registered subscriber's channel, leaves it what it has
      queued, and drops the registrations. */
  lemma CloseEnds(s: Stream, id: nat)
    requires StreamOk(s) && id in s.chans
    ensures var a := Close(s);
            && a.Ok? && a.s.closed && a.s.subs.None? && a.s.text == s.text && id in a.s.chans
            && a.s.chans[id].buf == s.chans[id].buf && a.s.chans[id].sent == s.chans[id].sent
            && (a.s.chans[id].closed <==> s.chans[id].closed || (s.subs.Some? && id in s.subs.value))
  {
  }

  /** Unsubscribing removes one registration and closes nothing. */
  lemma UnsubscribeRemoves(s: Stream, id: nat)
    requires s.subs.Some?
    ensures var s' := Unsubscribe(s, id);
            s'.subs.Some? && s'.chans == s.chans && forall o :: o in s'.subs.value <==> o in s.subs.value && o != id
  {
  }

  lemma SubscribeOk(s: Stream)
    requires StreamOk(s) && !s.closed
    ensures Subscribe(s).Ok? && StreamOk(Subscribe(s).s)
  {
    FirstOk(s.text);
    BufferFits(s);
    var s' := Subscribe(s).s;
    forall id | id in s'.chans ensures ChannelOk(s'.chans[id], s'.text, s'.start[id]) {
      assert id != s.nextID ==> ChannelOk(s.chans[id], s.text, s.start[id]);
    }
  }

  lemma BufferFits(s: Stream)
    requires StreamOk(s)
    ensures |s.buffer| <= CAPACITY
  {
  }

  lemma CloseOk(s: Stream)
    requires StreamOk(s)
    ensures Close(s).Ok? && StreamOk(Close(s).s)
  {
    if s.subs.Some? {
      var s' := Close(s).s;
      forall id | id in s'.chans ensures ChannelOk(s'.chans[id], s'.text, s'.start[id]) {
        assert ChannelOk(s.chans[id], s.text, s.start[id]);
      }
    }
  }

  lemma TakeOk(s: Stream, id: nat)
    requires StreamOk(s)
    ensures StreamOk(Take(s, id))
  {
    if id in s.chans {
      var c := s.chans[id];
      assert ChannelOk(c, s.text, s.start[id]);
      ReceiveOk(c, s.text, s.start[id]);
      var s' := Take(s, id);
      forall o | o in s'.chans ensures ChannelOk(s'.chans[o], s'.text, s'.start[o]) {
        assert ChannelOk(s.chans[o], s.text, s.start[o]);
      }
    }
  }

  lemma ReceiveOk(c: Channel, text: seq<string>, from: nat)
    requires ChannelOk(c, text, from)
    ensures ChannelOk(Receive(c), text, from)
  {
  }

  lemma UnsubscribeOk(s: Stream, id: nat)
    requires StreamOk(s)
    ensures StreamOk(Unsubscribe(s, id))
  {
  }

  // ---------- the stream as it runs ----------

  /** A new channel with the recent lines sent to it, none of which can block. */
  method Preloaded(lines: seq<string>) returns (ch: Channel)
    requires |lines| <= CAPACITY
    ensures ch == Channel(lines, false, lines)
  {
    ch := Channel([], false, []);
    for i := 0 to |lines|
      invariant ch == Channel(lines[..i], false, lines[..i])
    {
      assert |ch.buf| < CAPACITY;
      ch := ch.(buf := ch.buf + [lines[i]], sent := ch.sent + [lines[i]]);
    }
    assert lines[..|lines|] == lines;
  }

  method SendAll(chans: map<nat, Channel>, ids: set<nat>, line: string) returns (out: map<nat, Channel>)
    requires ids <= chans.Keys
    ensures out == SentTo(chans, ids, line)
  {
    out := chans;
    var left := ids;
    while left != {}
      invariant left <= ids
      invariant out == SentTo(chans, ids - left, line)
    {
      var id :| id in left;
      out := out[id := TrySend(out[id], line)];
      left := left - {id};
    }
  }

  method CloseAll(chans: map<nat, Channel>, ids: set<nat>) returns (out: map<nat, Channel>)
    requires ids <= chans.Keys
    ensures out == ClosedAmong(chans, ids)
  {
    out := chans;
    var left := ids;
    while left != {}
      invariant left <= ids
      invariant out == ClosedAmong(chans, ids - left)
    {
      var id :| id in left;
      out := out[id := out[id].(closed := true)];
      left := left - {id};
    }
  }

  class LogStream {
    var buffer: seq<string>
    var subs: Option<set<nat>>
    var nextID: nat
    var closed: bool
    var chans: map<nat, Channel>
    ghost var text: seq<string>
    ghost var start: map<nat, nat>

    ghost function State(): Stream
      reads this
    {
      Stream(buffer, subs, nextID, closed, chans, text, start)
    }

    ghost predicate Valid()
      reads this
    {
      Usable(State())
    }

    constructor ()
      ensures Valid() && State() == FRESH
    {
      buffer, subs, nextID, closed, chans := [], Some({}), 0, false, map[];
      text, start := [], map[];
    }

    method AppendLines(line: string)
      requires Valid()
      modifies this
      ensures Valid() && Append(old(State()), line) == Ok(State())
    {
      if closed {
        return;
      }
      buffer := buffer + [line];
      if |buffer| > CAPACITY {
        buffer := buffer[|buffer| - CAPACITY..];
      }
      text := text + [line];
      chans := SendAll(chans, subs.value, line);
    }

    method SubscribeNow() returns (id: nat)
      requires Valid() && !closed
      modifies this
      ensures Valid() && id == old(nextID) && Subscribe(old(State())) == Ok(State())
    {
      id := nextID;
      nextID := nextID + 1;
      var ch := Preloaded(buffer);
      chans := chans[id := ch];
      subs := Some(subs.value + {id});
      start := start[id := |text|];
    }

    method UnsubscribeNow(id: nat)
      requires Valid()
      modifies this
      ensures Valid() && State() == Unsubscribe(old(State()), id)
    {
      if subs.Some? {
        subs := Some(subs.value - {id});
      }
    }

    method CloseNow()
      requires Valid()
      modifies this
      ensures Valid() && Close(old(State())) == Ok(State())
    {
      closed := true;
      if subs.Some? {
        chans := CloseAll(chans, subs.value);
        subs := None;
      }
    }
  }
}
