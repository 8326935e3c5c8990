/** The `/logs` handler (`SendLogsStream`): an event stream in the framing of
    the WHATWG HTML Living Standard, section 9.2 (Server-sent events). The
    handler is a pure function of the channel at connect time and a trace of
    loop iterations; what the wait primitive and the socket report each time
    round is an input of the trace. */
module EventStream {
  import opened Common
  import opened Decimal
  import opened ViewerServer

  datatype Event = Open | Data(payload: string) | Keepalive(count: nat)

  const OpenFrame: string := "event: open\n\n"
  const DataField: string := "data: "
  const KeepaliveHead: string := "event: keepalive\n: keepalive ping "

  /** The text one event is written as: field lines, a comment line for the
      keepalive counter, and a blank line that ends the event. */
  function Frame(e: Event): string {
    match e
    case Open => OpenFrame
    case Data(p) => DataField + p + "\n\n"
    case Keepalive(n) => KeepaliveHead + NatToString(n) + "\n\n"
  }

  function Render(evs: seq<Event>): string
    decreases |evs|
  {
    if evs == [] then "" else Frame(evs[0]) + Render(evs[1..])
  }

  lemma {:induction false} RenderAppend(a: seq<Event>, b: seq<Event>)
    ensures Render(a + b) == Render(a) + Render(b)
    decreases |a|
  {
    if a != [] {
      assert (a + b)[1..] == a[1..] + b;
      RenderAppend(a[1..], b);
    } else {
      assert a + b == b;
    }
  }

  function DataEvents(q: seq<string>): (evs: seq<Event>)
    ensures |evs| == |q|
    ensures forall i :: 0 <= i < |q| ==> evs[i] == Data(q[i])
  {
    if q == [] then [] else [Data(q[0])] + DataEvents(q[1..])
  }

  /** The data payloads among some events, in order. */
  function Payloads(evs: seq<Event>): seq<string>
    decreases |evs|
  {
    if evs == [] then []
    else if evs[0].Data? then [evs[0].payload] + Payloads(evs[1..])
    else Payloads(evs[1..])
  }

  lemma {:induction false} PayloadsAppend(a: seq<Event>, b: seq<Event>)
    ensures Payloads(a + b) == Payloads(a) + Payloads(b)
    decreases |a|
  {
    if a != [] {
      assert (a + b)[1..] == a[1..] + b;
      PayloadsAppend(a[1..], b);
    } else {
      assert a + b == b;
    }
  }

  lemma {:induction false} PayloadsOfDataEvents(q: seq<string>)
    ensures Payloads(DataEvents(q)) == q
    decreases |q|
  {
    if q != [] {
      assert DataEvents(q)[1..] == DataEvents(q[1..]);
      PayloadsOfDataEvents(q[1..]);
    }
  }

  // ---- The handler ------------------------------------------------------

  /** One trip round the handler loop: `running` is `_isRunning` read at the
      loop head; `arrivals` are the entries other threads add while the handler
      waits; `writable` is `CanWrite` read at the bottom. */
  datatype Turn = Turn(running: bool, arrivals: seq<string>, writable: bool)

  /** Emitted events, the channel afterwards, and the keepalive counter. */
  datatype Served = Served(events: seq<Event>, channel: Channel, counter: nat)

  /** One wait and what follows it: the arrivals are added (each setting the
      event); then either the wake-up branch or the timeout branch runs. */
  function Wait(ch: Channel, arrivals: seq<string>, counter: nat): (r: Served)
    ensures Payloads(r.events) + r.channel.queue == ch.queue + arrivals
    ensures forall i :: 0 <= i < |r.events| ==> !r.events[i].Open?
  {
    var ch1 := AddAll(ch, arrivals);
    if ch1.signaled then
      PayloadsOfDataEvents(ch1.queue);
      Served(DataEvents(ch1.queue), ch1.(queue := [], signaled := false), 0)
    else
      Served([Keepalive(counter + 1)], ch1, counter + 1)
  }

  /** The `while (_isRunning)` loop. A set event wakes the handler, which
      drains the queue, resets the event and the counter; otherwise the wait
      times out and a numbered keepalive goes out. */
  function Loop(ch: Channel, turns: seq<Turn>, counter: nat): (r: Served)
    ensures forall i :: 0 <= i < |r.events| ==> !r.events[i].Open?
    decreases |turns|
  {
    if turns == [] || !turns[0].running then Served([], ch, counter)
    else
      var step := Wait(ch, turns[0].arrivals, counter);
      if !turns[0].writable then step
      else
        var rest := Loop(step.channel, turns[1..], step.counter);
        Served(step.events + rest.events, rest.channel, rest.counter)
  }

  /** A subscriber connects: the open event, then every entry already queued
      (the initial drain does not reset the wake-up event), then the loop. */
  function Serve(ch: Channel, turns: seq<Turn>): (r: Served)
    ensures |r.events| >= 1 + |ch.queue|
    ensures r.events[0] == Open
    ensures r.events[1..1 + |ch.queue|] == DataEvents(ch.queue)
    ensures forall i :: 0 < i < |r.events| ==> !r.events[i].Open?
  {
    var rest := Loop(ch.(queue := []), turns, 0);
    var r := Served([Open] + DataEvents(ch.queue) + rest.events, rest.channel, rest.counter);
    assert r.events[1..1 + |ch.queue|] == DataEvents(ch.queue);
    r
  }

  predicate HasPrefix(s: string, p: string) {
    |p| <= |s| && s[..|p|] == p
  }

  /** The text written to the response. */
  function StreamText(ch: Channel, turns: seq<Turn>): string {
    Render(Serve(ch, turns).events)
  }

  /** The stream opens with exactly the open event, and the entries queued
      before the connection follow it as data frames, oldest first. */
  lemma StreamOpens(ch: Channel, turns: seq<Turn>)
    ensures HasPrefix(StreamText(ch, turns), OpenFrame + Render(DataEvents(ch.queue)))
  {
    var rest := Loop(ch.(queue := []), turns, 0);
    RenderAppend([Open] + DataEvents(ch.queue), rest.events);
    RenderAppend([Open], DataEvents(ch.queue));
    assert Render([Open]) == OpenFrame;
    var pre := OpenFrame + Render(DataEvents(ch.queue));
    assert StreamText(ch, turns) == pre + Render(rest.events);
    assert StreamText(ch, turns)[..|pre|] == pre;
  }

  // ---- Delivery: nothing lost, duplicated or reordered ----------------------

  /** How many turns the loop consumes before it exits. */
  function Processed(turns: seq<Turn>): (k: nat)
    ensures k <= |turns|
    decreases |turns|
  {
    if turns == [] || !turns[0].running then 0
    else if !turns[0].writable then 1
    else 1 + Processed(turns[1..])
  }

  function Arrived(turns: seq<Turn>): seq<string>
    decreases |turns|
  {
    if turns == [] then [] else turns[0].arrivals + Arrived(turns[1..])
  }

  /** Whatever the loop has emitted plus whatever is still queued is exactly the
      queue it started with followed by everything that arrived in the turns it
      consumed, in order. */
  lemma Regroup<T>(ps: seq<T>, pr: seq<T>, rq: seq<T>, sq: seq<T>, q0: seq<T>, arr: seq<T>, more: seq<T>)
    requires pr + rq == sq + more
    requires ps + sq == q0 + arr
    ensures (ps + pr) + rq == q0 + (arr + more)
  {
    calc {
      (ps + pr) + rq;
      ps + (pr + rq);
      ps + (sq + more);
      (ps + sq) + more;
    }
  }

  lemma ArrivedPrefix(turns: seq<Turn>, k: nat)
    requires k < |turns|
    ensures Arrived(turns[..1 + k]) == turns[0].arrivals + Arrived(turns[1..][..k])
  {
    assert turns[..1 + k][1..] == turns[1..][..k];
  }

  lemma {:induction false} LoopConserves(ch: Channel, turns: seq<Turn>, counter: nat)
    ensures Payloads(Loop(ch, turns, counter).events) + Loop(ch, turns, counter).channel.queue
         == ch.queue + Arrived(turns[..Processed(turns)])
    decreases |turns|
  {
    var r := Loop(ch, turns, counter);
    if turns == [] || !turns[0].running {
      assert turns[..0] == [];
      assert ch.queue + [] == ch.queue;
    } else {
      var step := Wait(ch, turns[0].arrivals, counter);
      if !turns[0].writable {
        assert turns[..1] == [turns[0]];
        assert Arrived(turns[..1]) == turns[0].arrivals + [];
      } else {
        var rest := Loop(step.channel, turns[1..], step.counter);
        LoopConserves(step.channel, turns[1..], step.counter);
        PayloadsAppend(step.events, rest.events);
        var k := Processed(turns[1..]);
        ArrivedPrefix(turns, k);
        Regroup(Payloads(step.events), Payloads(rest.events), rest.channel.queue,
                step.channel.queue, ch.queue, turns[0].arrivals, Arrived(turns[1..][..k]));
      }
    }
  }

  /** While the stream is open and the subscriber is the only one, every entry
      queued before it connected or added afterwards is written to it as a data
      frame, exactly once and in the order it was queued; the queue ends empty. */
  lemma DeliversEverythingInOrder(ch: Channel, turns: seq<Turn>)
    ensures Payloads(Serve(ch, turns).events) == ch.queue + Arrived(turns[..Processed(turns)])
    ensures Serve(ch, turns).channel.queue == []
  {
    var start := ch.(queue := []);
    var rest := Loop(start, turns, 0);
    LoopConserves(start, turns, 0);
    LoopDrains(start, turns, 0);
    PayloadsAppend([Open] + DataEvents(ch.queue), rest.events);
    PayloadsAppend([Open], DataEvents(ch.queue));
    PayloadsOfDataEvents(ch.queue);
    assert Payloads([Open]) == [];
    assert rest.events + [] == rest.events;
    assert [] + Arrived(turns[..Processed(turns)]) == Arrived(turns[..Processed(turns)]);
  }

  /** At the loop head the queue is empty once it has been drained. */
  lemma {:induction false} LoopDrains(ch: Channel, turns: seq<Turn>, counter: nat)
    requires ch.queue == []
    ensures Loop(ch, turns, counter).channel.queue == []
    decreases |turns|
  {
    if turns != [] && turns[0].running {
      var step := Wait(ch, turns[0].arrivals, counter);
      assert step.channel.queue == [];
      if turns[0].writable {
        LoopDrains(step.channel, turns[1..], step.counter);
      }
    }
  }

  // ---- Keepalive numbering --------------------------------------------------

  /** Keepalives are numbered exactly: each is one more than the keepalive
      written just before it, and the first after any other event is 1;
      `last` is the number of the immediately preceding keepalive, 0 when the
      preceding event is not one. */
  predicate WellNumbered(evs: seq<Event>, last: nat)
    decreases |evs|
  {
    evs == [] ||
    match evs[0]
    case Keepalive(n) => n == last + 1 && WellNumbered(evs[1..], n)
    case _ => WellNumbered(evs[1..], 0)
  }

  /** The `last` argument that follows `evs` when it starts from `last`. */
  function LastNumber(evs: seq<Event>, last: nat): nat {
    if evs == [] then last
    else if evs[|evs| - 1].Keepalive? then evs[|evs| - 1].count
    else 0
  }

  lemma {:induction false} WellNumberedAppend(a: seq<Event>, b: seq<Event>, last: nat)
    requires WellNumbered(a, last)
    requires WellNumbered(b, LastNumber(a, last))
    ensures WellNumbered(a + b, last)
    decreases |a|
  {
    if a == [] {
      assert a + b == b;
    } else {
      assert (a + b)[1..] == a[1..] + b;
      var next := if a[0].Keepalive? then a[0].count else 0;
      assert LastNumber(a[1..], next) == LastNumber(a, last);
      WellNumberedAppend(a[1..], b, next);
    }
  }

  lemma {:induction false} DataEventsWellNumbered(q: seq<string>, last: nat)
    ensures WellNumbered(DataEvents(q), last)
    decreases |q|
  {
    if q != [] {
      assert DataEvents(q)[1..] == DataEvents(q[1..]);
      DataEventsWellNumbered(q[1..], 0);
    }
  }

  /** The loop-head condition: a set wake-up event with nothing queued can
      only be left over from before the first turn, when the counter is 0. */
  predicate CounterReady(ch: Channel, counter: nat) {
    ch.signaled && ch.queue == [] ==> counter == 0
  }

  /** One wait writes correctly numbered events, leaves the counter at the
      number of the last keepalive it wrote, and keeps the loop-head condition. */
  lemma WaitWellNumbered(ch: Channel, arrivals: seq<string>, counter: nat)
    requires CounterReady(ch, counter)
    ensures var w := Wait(ch, arrivals, counter);
      WellNumbered(w.events, counter) && w.counter == LastNumber(w.events, counter)
      && CounterReady(w.channel, w.counter)
  {
    var ch1 := AddAll(ch, arrivals);
    if ch1.signaled {
      DataEventsWellNumbered(ch1.queue, counter);
      if ch1.queue == [] {
        assert counter == 0;
      }
    } else {
      assert WellNumbered([Keepalive(counter + 1)][1..], counter + 1);
    }
  }

  /** The counter is the number of the last keepalive written, and every
      keepalive the loop writes continues or restarts that count exactly. */
  lemma {:induction false} LoopWellNumbered(ch: Channel, turns: seq<Turn>, counter: nat)
    requires CounterReady(ch, counter)
    ensures WellNumbered(Loop(ch, turns, counter).events, counter)
    decreases |turns|
  {
    if turns != [] && turns[0].running {
      var step := Wait(ch, turns[0].arrivals, counter);
      WaitWellNumbered(ch, turns[0].arrivals, counter);
      if turns[0].writable {
        var rest := Loop(step.channel, turns[1..], step.counter);
        assert Loop(ch, turns, counter).events == step.events + rest.events;
        LoopWellNumbered(step.channel, turns[1..], step.counter);
        WellNumberedAppend(step.events, rest.events, counter);
      }
    }
  }

  /** Over a whole connection, keepalives count exactly 1, 2, 3, ... and start
      again from 1 after the open event and after every data event. A wake-up
      that finds nothing queued also resets the counter, but one only happens
      before the first turn, when the counter is still 0. */
  lemma ServeWellNumbered(ch: Channel, turns: seq<Turn>)
    ensures WellNumbered(Serve(ch, turns).events, 0)
  {
    var rest := Loop(ch.(queue := []), turns, 0);
    LoopWellNumbered(ch.(queue := []), turns, 0);
    DataEventsWellNumbered(ch.queue, 0);
    var pre := [Open] + DataEvents(ch.queue);
    assert pre[1..] == DataEvents(ch.queue);
    assert WellNumbered(pre, 0);
    assert LastNumber(pre, 0) == 0;
    WellNumberedAppend(pre, rest.events, 0);
  }

  function Keepalives(from: nat, n: nat): (evs: seq<Event>)
    ensures |evs| == n
    ensures forall i :: 0 <= i < n ==> evs[i] == Keepalive(from + i)
    decreases n
  {
    if n == 0 then [] else [Keepalive(from)] + Keepalives(from + 1, n - 1)
  }

  /** A turn in which nothing arrives and the connection stays open. */
  predicate Idle(t: Turn) {
    t.running && t.arrivals == [] && t.writable
  }

  /** With the wake-up event clear, `n` idle turns write keepalives numbered
      on from the counter: the k-th idle timeout after a batch says k. */
  lemma {:induction false} IdleTurnsCount(ch: Channel, turns: seq<Turn>, counter: nat)
    requires !ch.signaled
    requires forall i :: 0 <= i < |turns| ==> Idle(turns[i])
    ensures Loop(ch, turns, counter).events == Keepalives(counter + 1, |turns|)
    decreases |turns|
  {
    if turns != [] {
      assert Idle(turns[0]);
      IdleTurnsCount(ch, turns[1..], counter + 1);
    }
  }

  // ---- Reading the stream back ------------------------------------------------

  /** Length of the first line: the index of the first '\n', or |s|. */
  function LineLength(s: string): (k: nat)
    ensures k <= |s|
    ensures forall i :: 0 <= i < k ==> s[i] != '\n'
    ensures k < |s| ==> s[k] == '\n'
  {
    if s == [] || s[0] == '\n' then 0 else 1 + LineLength(s[1..])
  }

  /** Splits a field value off `s`: the text up to a line end that is followed
      by the blank line closing the event. */
  function ValueThenBlank(s: string): Option<(string, string)> {
    var k := LineLength(s);
    if k + 1 < |s| && s[k + 1] == '\n' then Some((s[..k], s[k + 2..])) else None
  }

  /** A reader for exactly the frames this handler writes. */
  function ParseFrames(text: string): Option<seq<Event>>
    decreases |text|
  {
    if text == [] then Some([])
    else if HasPrefix(text, OpenFrame) then
      match ParseFrames(text[|OpenFrame|..])
      case Some(rest) => Some([Open] + rest)
      case None => None
    else if HasPrefix(text, KeepaliveHead) then
      match ValueThenBlank(text[|KeepaliveHead|..])
      case Some((digits, tail)) =>
        (match (ParseNat(digits), ParseFrames(tail))
         case (Some(n), Some(rest)) => Some([Keepalive(n)] + rest)
         case _ => None)
      case None => None
    else if HasPrefix(text, DataField) then
      match ValueThenBlank(text[|DataField|..])
      case Some((payload, tail)) =>
        (match ParseFrames(tail)
         case Some(rest) => Some([Data(payload)] + rest)
         case None => None)
      case None => None
    else None
  }

  predicate SingleLine(p: string) {
    forall i :: 0 <= i < |p| ==> p[i] != '\n'
  }

  /** Payloads are compact JSON, so they hold no raw line break. */
  predicate Writable(evs: seq<Event>) {
    forall i :: 0 <= i < |evs| && evs[i].Data? ==> SingleLine(evs[i].payload)
  }

  lemma ValueThenBlankSplits(v: string, tail: string)
    requires SingleLine(v)
    ensures ValueThenBlank(v + "\n\n" + tail) == Some((v, tail))
  {
    var s := v + "\n\n" + tail;
    var k := LineLength(s);
    assert s[|v|] == '\n';
    assert k == |v|;
    assert s[..k] == v;
    assert s[k + 2..] == tail;
  }

  lemma ParseOpen(tail: string, rest: seq<Event>)
    requires ParseFrames(tail) == Some(rest)
    ensures ParseFrames(Frame(Open) + tail) == Some([Open] + rest)
  {
    var text := Frame(Open) + tail;
    assert text[..|OpenFrame|] == OpenFrame;
    assert text[|OpenFrame|..] == tail;
  }

  lemma ParseKeepalive(n: nat, tail: string, rest: seq<Event>)
    requires ParseFrames(tail) == Some(rest)
    ensures ParseFrames(Frame(Keepalive(n)) + tail) == Some([Keepalive(n)] + rest)
  {
    var digits := NatToString(n);
    var text := Frame(Keepalive(n)) + tail;
    assert !HasPrefix(text, OpenFrame) by {
      assert text[7] == 'k' && OpenFrame[7] == 'o';
    }
    assert text[..|KeepaliveHead|] == KeepaliveHead;
    assert text[|KeepaliveHead|..] == digits + "\n\n" + tail;
    assert SingleLine(digits) by {
      forall i | 0 <= i < |digits|
        ensures digits[i] != '\n'
      {
        assert IsDigit(digits[i]);
      }
    }
    ValueThenBlankSplits(digits, tail);
    NatRoundTrip(n);
  }

  lemma ParseData(p: string, tail: string, rest: seq<Event>)
    requires SingleLine(p)
    requires ParseFrames(tail) == Some(rest)
    ensures ParseFrames(Frame(Data(p)) + tail) == Some([Data(p)] + rest)
  {
    var text := Frame(Data(p)) + tail;
    assert text[0] == 'd';
    assert !HasPrefix(text, OpenFrame) by {
      if |OpenFrame| <= |text| {
        assert text[..|OpenFrame|][0] != OpenFrame[0];
      }
    }
    assert !HasPrefix(text, KeepaliveHead) by {
      if |KeepaliveHead| <= |text| {
        assert text[..|KeepaliveHead|][0] != KeepaliveHead[0];
      }
    }
    assert text[..|DataField|] == DataField;
    assert text[|DataField|..] == p + "\n\n" + tail;
    ValueThenBlankSplits(p, tail);
  }

  /** The framing is unambiguous: reading the written text back yields the
      events that were written. */
  lemma {:induction false} ParseRender(evs: seq<Event>)
    requires Writable(evs)
    ensures ParseFrames(Render(evs)) == Some(evs)
    decreases |evs|
  {
    if evs != [] {
      var tail := Render(evs[1..]);
      assert Writable(evs[1..]) by {
        forall i | 0 <= i < |evs[1..]| && evs[1..][i].Data?
          ensures SingleLine(evs[1..][i].payload)
        {
          assert evs[1..][i] == evs[i + 1];
        }
      }
      ParseRender(evs[1..]);
      assert Render(evs) == Frame(evs[0]) + tail;
      assert evs == [evs[0]] + evs[1..];
      match evs[0]
      case Open => ParseOpen(tail, evs[1..]);
      case Keepalive(n) => ParseKeepalive(n, tail, evs[1..]);
      case Data(p) =>
        assert SingleLine(evs[0].payload);
        ParseData(p, tail, evs[1..]);
    }
  }
}
