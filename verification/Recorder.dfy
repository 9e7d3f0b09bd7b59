/** The buffered metric recorder: producers that never block, one goroutine that writes
    batches, and a shutdown that drains the channel. */
module Recorder {

  /** An event, named by the call that recorded it. */
  type Event = nat

  datatype Config = Config(capacity: nat, batchSize: nat)

  /** The largest batch handed to the writer. */
  function Most(c: Config): nat {
    if c.batchSize == 0 then 1 else c.batchSize
  }

  function Flatten(batches: seq<seq<Event>>): seq<Event> {
    if batches == [] then [] else Flatten(batches[..|batches| - 1]) + batches[|batches| - 1]
  }

  /** What the goroutine has taken off the channel: the current batch, and the batches
      handed to the writer. */
  datatype Output = Output(batch: seq<Event>, written: seq<seq<Event>>)

  function Flush(o: Output): Output {
    if o.batch == [] then o else Output([], o.written + [o.batch])
  }

  function Append(c: Config, o: Output, e: Event): Output {
    var longer := o.(batch := o.batch + [e]);
    if |longer.batch| >= c.batchSize then Flush(longer) else longer
  }

  ghost predicate OutputFits(c: Config, o: Output) {
    && |o.batch| < Most(c)
    && forall b | b in o.written :: 0 < |b| <= Most(c)
  }

  function Taken(o: Output): seq<Event> {
    Flatten(o.written) + o.batch
  }

  lemma FlushKeeps(c: Config, o: Output)
    requires |o.batch| <= Most(c) && forall b | b in o.written :: 0 < |b| <= Most(c)
    ensures OutputFits(c, Flush(o)) && Taken(Flush(o)) == Taken(o) && Flush(o).batch == []
  {
    if o.batch != [] {
      var longer := o.written + [o.batch];
      assert longer[..|o.written|] == o.written;
    }
  }

  /** Taking an event appends it to what was taken, whether or not the batch is full. */
  lemma AppendTakes(c: Config, o: Output, e: Event)
    requires OutputFits(c, o)
    ensures OutputFits(c, Append(c, o, e)) && Taken(Append(c, o, e)) == Taken(o) + [e]
  {
    FlushKeeps(c, o.(batch := o.batch + [e]));
  }

  /** First in, first out: what was sent is what was taken, then what is buffered. */
  ghost predicate Fifo(c: Config, accepted: seq<Event>, o: Output, buffer: seq<Event>) {
    accepted == Taken(o) + buffer && OutputFits(c, o) && |buffer| <= c.capacity
  }

  lemma SendFifo(c: Config, accepted: seq<Event>, o: Output, buffer: seq<Event>, e: Event)
    requires Fifo(c, accepted, o, buffer) && |buffer| < c.capacity
    ensures Fifo(c, accepted + [e], o, buffer + [e])
  {
    assert (Taken(o) + buffer) + [e] == Taken(o) + (buffer + [e]);
  }

  lemma TakeFifo(c: Config, accepted: seq<Event>, o: Output, buffer: seq<Event>)
    requires Fifo(c, accepted, o, buffer) && buffer != []
    ensures Fifo(c, accepted, Append(c, o, buffer[0]), buffer[1..])
  {
    AppendTakes(c, o, buffer[0]);
    assert (Taken(o) + [buffer[0]]) + buffer[1..] == Taken(o) + buffer;
  }

  lemma HandOverFifo(c: Config, accepted: seq<Event>, o: Output, e: Event)
    requires Fifo(c, accepted, o, [])
    ensures Fifo(c, accepted + [e], Append(c, o, e), [])
  {
    AppendTakes(c, o, e);
    assert Taken(o) + [] == Taken(o);
  }

  // ----- the recorder, in place

  class BufferedRecorder {
    const config: Config
    var events: seq<Event>
    var output: Output
    var dropped: nat
    var closed: bool
    var stopped: bool
    var finished: bool
    /** Calls between the closed check and the end of the send attempt. */
    var underway: nat
    /** Every event sent, in order. */
    ghost var accepted: seq<Event>

    ghost predicate Valid()
      reads this
    {
      && Fifo(config, accepted, output, events)
      && (stopped ==> closed)
    }

    constructor (config: Config)
      ensures Valid() && this.config == config && accepted == [] && !closed && underway == 0
    {
      this.config := config;
      events, output, dropped := [], Output([], []), 0;
      closed, stopped, finished, underway, accepted := false, false, false, 0, [];
    }

    /** The closed check of RecordMetric. */
    method BeginRecord() returns (goes: bool)
      modifies this`underway
      ensures goes == !closed && underway == old(underway) + if goes then 1 else 0
    {
      goes := !closed;
      if goes {
        underway := underway + 1;
      }
    }

    /** The send that never blocks: enqueued if there is room, counted as dropped if not. */
    method EndRecord(e: Event) returns (sent: bool)
      requires Valid() && underway > 0
      modifies this`events, this`dropped, this`underway, this`accepted
      ensures Valid() && underway == old(underway) - 1
      ensures sent <==> |old(events)| < config.capacity
      ensures accepted == old(accepted) + if sent then [e] else []
      ensures events == old(events) + if sent then [e] else []
      ensures dropped == old(dropped) + if sent then 0 else 1
    {
      underway := underway - 1;
      sent := |events| < config.capacity;
      if sent {
        SendFifo(config, accepted, output, events, e);
        events := events + [e];
        accepted := accepted + [e];
      } else {
        dropped := dropped + 1;
      }
    }

    method Close()
      requires Valid()
      modifies this`closed, this`stopped
      ensures Valid() && closed && stopped
    {
      closed := true;
      stopped := true;
    }

    method FlushBatch()
      requires Valid()
      modifies this`output
      ensures Valid() && output == Flush(old(output)) && output.batch == []
    {
      FlushKeeps(config, output);
      if |output.batch| > 0 {
        output := Output([], output.written + [output.batch]);
      }
    }

    method Receive()
      requires Valid() && events != []
      modifies this`events, this`output
      ensures Valid() && events == old(events)[1..] && output == Append(config, old(output), old(events)[0])
    {
      TakeFifo(config, accepted, output, events);
      var e := events[0];
      events := events[1..];
      output := output.(batch := output.batch + [e]);
      if |output.batch| >= config.batchSize {
        if |output.batch| > 0 {
          output := Output([], output.written + [output.batch]);
        }
      }
    }

    /** Producers that passed the closed check in time finish in any number. */
    method Producers()
      requires Valid()
      modifies this`events, this`dropped, this`underway, this`accepted
      ensures Valid() && old(accepted) <= accepted && 2 * underway + |events| <= 2 * old(underway) + |old(events)|
    {
      var sends: nat := *;
      while sends > 0 && underway > 0
        invariant Valid() && old(accepted) <= accepted
        invariant 2 * underway + |events| <= 2 * old(underway) + |old(events)|
      {
        var e: Event := *;
        var sent := EndRecord(e);
        sends := sends - 1;
      }
    }

    /** The stop branch, with producers still finishing beside it. It ends, with
        everything sent before the channel was last seen empty handed to the writer. */
    method Drain()
      requires Valid() && stopped
      modifies this`events, this`output, this`dropped, this`underway, this`accepted, this`finished
      ensures Valid() && finished && output.batch == []
      ensures old(accepted) <= Flatten(output.written) <= accepted
    {
      while events != []
        invariant Valid() && old(accepted) <= accepted
        decreases 2 * underway + |events|
      {
        Receive();
        Producers();
      }
      assert accepted == Taken(output);
      FlushBatch();
      assert Taken(output) == Flatten(output.written);
      finished := true;
    }
  }

  // ----- every interleaving

  datatype Attempt = Passed | Sent | Lost

  datatype Phase = Running | Draining | Done

  datatype World = World(
    buffer: seq<Event>, output: Output, dropped: nat, closed: bool, stopped: bool, phase: Phase,
    calls: seq<Attempt>, accepted: seq<Event>, atStop: nat, atDone: nat)

  datatype Action =
    | Enter
    | Send(call: nat)
    | HandOver(call: nat)
    | Drop(call: nat)
    | Take
    | Tick
    | SetClosed
    | CloseStop
    | SeeStop
    | Finish

  predicate Enabled(c: Config, w: World, a: Action) {
    match a
    case Enter => !w.closed
    case Send(p) => p < |w.calls| && w.calls[p] == Passed && |w.buffer| < c.capacity
    case HandOver(p) => p < |w.calls| && w.calls[p] == Passed && w.buffer == [] && w.phase == Running
    case Drop(p) => p < |w.calls| && w.calls[p] == Passed && |w.buffer| >= c.capacity
    case Take => w.buffer != [] && w.phase != Done
    case Tick => w.phase == Running
    case SetClosed => true
    case CloseStop => w.closed && !w.stopped
    case SeeStop => w.stopped && w.phase == Running
    case Finish => w.phase == Draining && w.buffer == []
  }

  function Next(c: Config, w: World, a: Action): World
    requires Enabled(c, w, a)
  {
    match a
    case Enter => w.(calls := w.calls + [Passed])
    case Send(p) => w.(calls := w.calls[p := Sent], buffer := w.buffer + [p], accepted := w.accepted + [p])
    case HandOver(p) => w.(calls := w.calls[p := Sent], output := Append(c, w.output, p), accepted := w.accepted + [p])
    case Drop(p) => w.(calls := w.calls[p := Lost], dropped := w.dropped + 1)
    case Take => w.(buffer := w.buffer[1..], output := Append(c, w.output, w.buffer[0]))
    case Tick => w.(output := Flush(w.output))
    case SetClosed => w.(closed := true)
    case CloseStop => w.(stopped := true, atStop := |w.accepted|)
    case SeeStop => w.(phase := Draining)
    case Finish => w.(phase := Done, output := Flush(w.output), atDone := |w.accepted|)
  }

  const START := World([], Output([], []), 0, false, false, Running, [], [], 0, 0)

  ghost predicate Step(c: Config, w: World, a: Action, v: World) {
    Enabled(c, w, a) && v == Next(c, w, a)
  }

  ghost predicate Run(c: Config, ws: seq<World>, actions: seq<Action>) {
    && |ws| == |actions| + 1 && ws[0] == START
    && forall i, j | 0 <= i < j < |ws| && j == i + 1 :: Step(c, ws[i], actions[i], ws[j])
  }

  ghost predicate InOrder(c: Config, w: World) {
    Fifo(c, w.accepted, w.output, w.buffer)
  }

  lemma OrderStep(c: Config, w: World, a: Action)
    requires InOrder(c, w) && Enabled(c, w, a)
    ensures InOrder(c, Next(c, w, a))
  {
    match a
    case Send(p) => SendFifo(c, w.accepted, w.output, w.buffer, p);
    case HandOver(p) => HandOverFifo(c, w.accepted, w.output, p);
    case Take => TakeFifo(c, w.accepted, w.output, w.buffer);
    case Tick => FlushKeeps(c, w.output);
    case Finish => FlushKeeps(c, w.output);
    case _ =>
  }

  function CountLost(calls: seq<Attempt>): nat {
    if calls == [] then 0 else CountLost(calls[..|calls| - 1]) + if calls[|calls| - 1] == Lost then 1 else 0
  }

  lemma {:induction false} LoseOne(calls: seq<Attempt>, p: nat, now: Attempt)
    requires p < |calls| && calls[p] == Passed && now != Passed
    ensures CountLost(calls[p := now]) == CountLost(calls) + if now == Lost then 1 else 0
  {
    var n := |calls| - 1;
    if p < n {
      LoseOne(calls[..n], p, now);
      assert calls[p := now][..n] == calls[..n][p := now];
    } else {
      assert calls[p := now][..n] == calls[..n];
    }
  }

  /** A call is among the accepted, once, exactly if it sent; the others that finished
      are the dropped ones. */
  ghost predicate Tallies(calls: seq<Attempt>, accepted: seq<Event>, dropped: nat) {
    && (forall p | p in accepted :: p < |calls| && calls[p] == Sent)
    && (forall p: nat | p < |calls| && calls[p] == Sent :: p in accepted)
    && (forall i, j | 0 <= i < j < |accepted| :: accepted[i] != accepted[j])
    && dropped == CountLost(calls)
  }

  lemma SendTallies(calls: seq<Attempt>, accepted: seq<Event>, dropped: nat, p: nat)
    requires Tallies(calls, accepted, dropped) && p < |calls| && calls[p] == Passed
    ensures Tallies(calls[p := Sent], accepted + [p], dropped)
  {
    LoseOne(calls, p, Sent);
    assert p !in accepted;
  }

  ghost predicate Accounted(w: World) {
    Tallies(w.calls, w.accepted, w.dropped)
  }

  lemma AccountedStep(c: Config, w: World, a: Action)
    requires Accounted(w) && Enabled(c, w, a)
    ensures Accounted(Next(c, w, a))
  {
    match a
    case Enter => assert (w.calls + [Passed])[..|w.calls|] == w.calls;
    case Send(p) => SendTallies(w.calls, w.accepted, w.dropped, p);
    case HandOver(p) => SendTallies(w.calls, w.accepted, w.dropped, p);
    case Drop(p) => LoseOne(w.calls, p, Lost);
    case _ =>
  }

  /** The shutdown: what was sent when the stop channel closed is handed over once the
      goroutine is done, and the output does not change after that. */
  ghost predicate Shutdown(w: World) {
    && (w.stopped ==> w.closed && w.atStop <= |w.accepted|)
    && (w.phase != Running ==> w.stopped)
    && (w.phase == Done ==>
          && w.atStop <= w.atDone <= |w.accepted|
          && w.output.batch == [] && Flatten(w.output.written) == w.accepted[..w.atDone])
  }

  lemma ShutdownStep(c: Config, w: World, a: Action)
    requires InOrder(c, w) && Shutdown(w) && Enabled(c, w, a)
    ensures Shutdown(Next(c, w, a))
  {
    if a.Finish? {
      FlushKeeps(c, w.output);
      assert w.accepted[..|w.accepted|] == w.accepted;
    }
  }

  /** In every interleaving. */
  lemma {:induction false} RecorderConserves(c: Config, ws: seq<World>, actions: seq<Action>, k: nat)
    requires Run(c, ws, actions) && k < |ws|
    ensures InOrder(c, ws[k]) && Accounted(ws[k]) && Shutdown(ws[k])
  {
    if k > 0 {
      RecorderConserves(c, ws, actions, k - 1);
      assert Step(c, ws[k - 1], actions[k - 1], ws[k]);
      OrderStep(c, ws[k - 1], actions[k - 1]);
      AccountedStep(c, ws[k - 1], actions[k - 1]);
      ShutdownStep(c, ws[k - 1], actions[k - 1]);
    }
  }

  /** A call that finished its send attempt is in exactly one place. */
  lemma ExactlyOnePlace(c: Config, ws: seq<World>, actions: seq<Action>, k: nat, p: nat)
    requires Run(c, ws, actions) && k < |ws| && p < |ws[k].calls| && ws[k].calls[p] != Passed
    ensures var w := ws[k];
            var handed, current, buffered := p in Flatten(w.output.written), p in w.output.batch, p in w.buffer;
            && (w.calls[p] == Lost <==> !handed && !current && !buffered)
            && !(handed && current) && !(handed && buffered) && !(current && buffered)
  {
    RecorderConserves(c, ws, actions, k);
    var w := ws[k];
    var f, b := |Flatten(w.output.written)|, |w.output.batch|;
    assert forall i | 0 <= i < f :: w.accepted[i] == Flatten(w.output.written)[i];
    assert forall i | 0 <= i < b :: w.accepted[f + i] == w.output.batch[i];
    assert forall i | 0 <= i < |w.buffer| :: w.accepted[f + b + i] == w.buffer[i];
    assert p in w.accepted <==> w.calls[p] == Sent;
    assert p in w.accepted <==> p in Flatten(w.output.written) || p in w.output.batch || p in w.buffer;
  }

  /** After the goroutine is done nothing more is handed over: an event that was not is
      one sent after the drain saw the channel empty. */
  lemma {:induction false} DoneForever(c: Config, ws: seq<World>, actions: seq<Action>, i: nat, k: nat)
    requires Run(c, ws, actions) && i <= k < |ws| && ws[i].phase == Done
    ensures ws[k].phase == Done && ws[k].output == ws[i].output && ws[k].atDone == ws[i].atDone <= |ws[k].accepted|
    ensures ws[k].buffer == ws[k].accepted[ws[k].atDone..]
  {
    RecorderConserves(c, ws, actions, k);
    if i < k {
      DoneForever(c, ws, actions, i, k - 1);
      assert Step(c, ws[k - 1], actions[k - 1], ws[k]);
    }
  }
}
