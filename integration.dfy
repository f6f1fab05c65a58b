/**
 * Server and client together: the frames the server writes are read back by the client's
 * line loop one delivery per frame, and the events of one speaker's turn leave the client
 * with one finished message holding that speaker's full text.
 */
module Integration {
  import opened Wrappers
  import opened Text
  import opened Types
  import Orchestrator
  import opened ClientApi
  import opened UseChat

  /** One frame's name and data as the server writes them. */
  datatype Wire = Wire(event: string, data: string)

  /** A frame the client can read back: a name, and no newline in name or data (the
      serialiser writes JSON on one line). */
  predicate Clean(w: Wire)
  {
    w.event != [] && '\n' !in w.event && '\n' !in w.data
  }

  predicate AllClean(ws: seq<Wire>)
  {
    forall k :: 0 <= k < |ws| ==> Clean(ws[k])
  }

  /** The text of a run of frames, in order. */
  function FramesText(ws: seq<Wire>): string
  {
    if ws == [] then "" else Orchestrator.Frame(ws[0].event, ws[0].data) + FramesText(ws[1..])
  }

  /** The three complete lines of one frame. */
  function FrameLinesOf(w: Wire): seq<string>
  {
    [EventPrefix + w.event, DataPrefix + w.data, ""]
  }

  function AllFrameLines(ws: seq<Wire>): seq<string>
  {
    if ws == [] then [] else FrameLinesOf(ws[0]) + AllFrameLines(ws[1..])
  }

  /** What one frame should deliver: its data under its name, when the data parses. */
  function DeliveryOf<J>(w: Wire, parse: string -> Option<J>): seq<Delivery<J>>
  {
    if parse(w.data).Some? then [Delivery(w.event, parse(w.data).value)] else []
  }

  /** What a run of frames should deliver: each frame whose data parses, in order. */
  function Expected<J>(ws: seq<Wire>, parse: string -> Option<J>): seq<Delivery<J>>
  {
    if ws == [] then [] else DeliveryOf(ws[0], parse) + Expected(ws[1..], parse)
  }

  /** A newline-free line in front of more text splits off as one line. */
  lemma LineThenRest(a: string, rest: string)
    requires '\n' !in a
    ensures Split(a + "\n" + rest) == [a] + Split(rest)
  {
    SplitNoNewline(a);
    SplitAtNewline(a, rest);
  }

  /** Two lines and an empty one in front of more text split off as three lines. */
  lemma ThreeLines(a: string, b: string, rest: string)
    requires '\n' !in a && '\n' !in b
    ensures Split(a + "\n" + b + "\n" + "\n" + rest) == [a, b, ""] + Split(rest)
  {
    var r2 := "\n" + rest;
    var r1 := b + "\n" + r2;
    assert a + "\n" + b + "\n" + "\n" + rest == a + "\n" + r1;
    LineThenRest(a, r1);
    LineThenRest(b, r2);
    assert "" + "\n" + rest == r2;
    LineThenRest("", rest);
  }

  /** A frame in front of more text is its `event:` line, its `data:` line and an empty
      line, each ended by a newline. */
  lemma FrameAsLines(event: string, data: string, rest: string)
    ensures Orchestrator.Frame(event, data) + rest
            == (EventPrefix + event) + "\n" + (DataPrefix + data) + "\n" + "\n" + rest
  {
  }

  /** A run of frames splits into three lines per frame and an empty rest. */
  lemma {:induction false} FramesTextLines(ws: seq<Wire>)
    requires AllClean(ws)
    ensures Split(FramesText(ws)) == AllFrameLines(ws) + [""]
  {
    if ws == [] {
      SplitNoNewline("");
    } else {
      var w := ws[0];
      AllCleanTail(ws);
      FramesTextLines(ws[1..]);
      var a := EventPrefix + w.event;
      var b := DataPrefix + w.data;
      assert '\n' !in a && '\n' !in b;
      var rest := FramesText(ws[1..]);
      FrameAsLines(w.event, w.data, rest);
      ThreeLines(a, b, rest);
    }
  }

  /** Three frame lines deliver the frame's data under its name (when the data parses) and
      leave no name pending. */
  lemma OneFrameDelivers<J>(st: LineState<J>, w: Wire, parse: string -> Option<J>)
    requires Clean(w)
    ensures Lines(st, FrameLinesOf(w), parse) == LineState("", st.delivered + DeliveryOf(w, parse))
  {
    var lines := FrameLinesOf(w);
    EventThenData(st, w.event, w.data, parse);
    assert lines == [EventPrefix + w.event, DataPrefix + w.data] + [""];
    LinesAppend(st, [EventPrefix + w.event, DataPrefix + w.data], [""], parse);
    assert Ignored("");
    IgnoredLinesChangeNothing(Lines(st, [EventPrefix + w.event, DataPrefix + w.data], parse), [""], parse);
  }

  /** The rest of a clean run is clean. */
  lemma AllCleanTail(ws: seq<Wire>)
    requires ws != [] && AllClean(ws)
    ensures Clean(ws[0]) && AllClean(ws[1..])
  {
    var tail := ws[1..];
    forall k | 0 <= k < |tail| ensures Clean(tail[k]) {
      assert tail[k] == ws[k + 1];
    }
  }

  /** A frame's lines in front of more lines: the frame is delivered first, then the
      rest runs from a state with no name pending. */
  lemma FrameThenRest<J>(st: LineState<J>, w: Wire, rest: seq<string>, parse: string -> Option<J>)
    requires Clean(w)
    ensures Lines(st, FrameLinesOf(w) + rest, parse)
            == Lines(LineState("", st.delivered + DeliveryOf(w, parse)), rest, parse)
  {
    LinesAppend(st, FrameLinesOf(w), rest, parse);
    OneFrameDelivers(st, w, parse);
  }

  /** The lines of a run of frames deliver what `Expected` says, in order. */
  lemma {:induction false} FrameLinesDeliver<J>(st: LineState<J>, ws: seq<Wire>, parse: string -> Option<J>)
    requires AllClean(ws) && st.currentEvent == ""
    ensures Lines(st, AllFrameLines(ws), parse) == LineState("", st.delivered + Expected(ws, parse))
    decreases |ws|
  {
    if ws == [] {
      assert st.delivered + [] == st.delivered;
    } else {
      var w := ws[0];
      var tail := ws[1..];
      AllCleanTail(ws);
      var first := DeliveryOf(w, parse);
      var mid := LineState("", st.delivered + first);
      assert AllFrameLines(ws) == FrameLinesOf(w) + AllFrameLines(tail);
      FrameThenRest(st, w, AllFrameLines(tail), parse);
      FrameLinesDeliver(mid, tail, parse);
      assert Expected(ws, parse) == first + Expected(tail, parse);
      assert mid.delivered + Expected(tail, parse) == st.delivered + Expected(ws, parse);
    }
  }

  /** The round trip of the frame format: one frame read as one piece gives exactly one
      delivery of its data under its name (none when the data does not parse), and leaves
      the buffer empty. */
  lemma FrameRoundTrip<J>(event: string, data: string, parse: string -> Option<J>)
    requires event != [] && '\n' !in event && '\n' !in data
    ensures FeedAll([Orchestrator.Frame(event, data)], parse)
            == Reader("", LineState("", if parse(data).Some? then [Delivery(event, parse(data).value)] else []))
  {
    var ws := [Wire(event, data)];
    assert ws[1..] == [];
    assert FramesText(ws) == Orchestrator.Frame(event, data);
    FramesArriveWhole(ws, parse);
  }

  /** A whole run of frames read as one piece gives every delivery, in order. */
  lemma FramesArriveWhole<J>(ws: seq<Wire>, parse: string -> Option<J>)
    requires AllClean(ws)
    ensures FeedAll([FramesText(ws)], parse) == Reader("", LineState("", Expected(ws, parse)))
  {
    var pieces := [FramesText(ws)];
    assert pieces[..0] == [];
    assert "" + FramesText(ws) == FramesText(ws);
    FramesTextLines(ws);
    assert Complete(AllFrameLines(ws) + [""]) == AllFrameLines(ws);
    FrameLinesDeliver(LineState("", []), ws, parse);
  }

  /** Deliveries of two runs of frames. */
  lemma {:induction false} ExpectedAppend<J>(a: seq<Wire>, b: seq<Wire>, parse: string -> Option<J>)
    ensures Expected(a + b, parse) == Expected(a, parse) + Expected(b, parse)
  {
    if a == [] {
      assert a + b == b;
    } else {
      assert (a + b)[1..] == a[1..] + b;
      ExpectedAppend(a[1..], b, parse);
    }
  }

  /** The frames of several writes, one run per read. */
  function Batches(batches: seq<seq<Wire>>): seq<string>
    ensures |Batches(batches)| == |batches|
  {
    if batches == [] then [] else Batches(batches[..|batches| - 1]) + [FramesText(batches[|batches| - 1])]
  }

  function Flatten(batches: seq<seq<Wire>>): seq<Wire>
  {
    if batches == [] then [] else Flatten(batches[..|batches| - 1]) + batches[|batches| - 1]
  }

  /** When every read ends on a frame boundary, nothing is lost however the frames are
      grouped into reads: the buffer is empty after each read, so clearing the pending name
      between reads does no harm. */
  lemma {:induction false} FramesArriveInBatches<J>(batches: seq<seq<Wire>>, parse: string -> Option<J>)
    requires forall i :: 0 <= i < |batches| ==> AllClean(batches[i])
    ensures FeedAll(Batches(batches), parse) == Reader("", LineState("", Expected(Flatten(batches), parse)))
  {
    if batches != [] {
      var prev := batches[..|batches| - 1];
      var last := batches[|batches| - 1];
      FramesArriveInBatches(prev, parse);
      assert Batches(batches)[..|batches| - 1] == Batches(prev);
      var before := FeedAll(Batches(prev), parse);
      FramesTextLines(last);
      assert "" + FramesText(last) == FramesText(last);
      assert Complete(AllFrameLines(last) + [""]) == AllFrameLines(last);
      FrameLinesDeliver(before.line, last, parse);
      ExpectedAppend(Flatten(prev), last, parse);
    }
  }

  /** With the pending name kept across reads, the frames arrive whole however the text is
      cut into reads. */
  lemma FramesArriveAnyChunking<J>(ws: seq<Wire>, pieces: seq<string>, parse: string -> Option<J>)
    requires AllClean(ws) && Concat(pieces) == FramesText(ws)
    ensures FeedAllCarrying(pieces, parse).line == LineState("", Expected(ws, parse))
  {
    var whole := [FramesText(ws)];
    CarryingIgnoresChunking(pieces, parse);
    CarryingRunsAllLines(whole, parse);
    assert whole[..0] == [];
    assert "" + FramesText(ws) == FramesText(ws);
    FramesTextLines(ws);
    assert Processed(whole, parse) == AllFrameLines(ws) by {
      assert Processed(whole[..0], parse) == [];
      assert Complete(AllFrameLines(ws) + [""]) == AllFrameLines(ws);
    }
    FrameLinesDeliver(LineState("", []), ws, parse);
  }

  /** What the server writes for a run of events: each event's name with its serialised
      payload. */
  function WireOf(events: seq<Event>, encode: Event -> string): (r: seq<Wire>)
    ensures |r| == |events|
  {
    seq(|events|, i requires 0 <= i < |events| => Wire(EventName(events[i]), encode(events[i])))
  }

  /** Every event of the stream, by name, in order. */
  function Arrivals(events: seq<Event>): (r: seq<Delivery<Event>>)
    ensures |r| == |events|
  {
    seq(|events|, i requires 0 <= i < |events| => Delivery(EventName(events[i]), events[i]))
  }

  /** The frames of events whose serialisation holds no newline are clean. */
  lemma WireOfClean(events: seq<Event>, encode: Event -> string)
    requires forall k :: 0 <= k < |events| ==> '\n' !in encode(events[k])
    ensures AllClean(WireOf(events, encode))
  {
    var ws := WireOf(events, encode);
    forall k | 0 <= k < |ws| ensures Clean(ws[k]) {
      var name := EventName(events[k]);
      assert ws[k] == Wire(name, encode(events[k]));
      assert '\n' !in name;
    }
  }

  /** When the parser reads back what the serialiser wrote, each frame delivers its event. */
  lemma {:induction false} ExpectedOfWire(events: seq<Event>, encode: Event -> string, parse: string -> Option<Event>)
    requires forall k :: 0 <= k < |events| ==> parse(encode(events[k])) == Some(events[k])
    ensures Expected(WireOf(events, encode), parse) == Arrivals(events)
  {
    if events != [] {
      var ws := WireOf(events, encode);
      var tail := events[1..];
      assert forall k :: 0 <= k < |tail| ==> parse(encode(tail[k])) == Some(tail[k]) by {
        forall k | 0 <= k < |tail| ensures parse(encode(tail[k])) == Some(tail[k]) {
          assert tail[k] == events[k + 1];
        }
      }
      ExpectedOfWire(tail, encode, parse);
      WireOfCons(events, encode);
      ArrivalsCons(events);
      assert DeliveryOf(ws[0], parse) == [Delivery(EventName(events[0]), events[0])];
    }
  }

  /** The frames of a non-empty run: the first event's frame, then the others'. */
  lemma WireOfCons(events: seq<Event>, encode: Event -> string)
    requires events != []
    ensures WireOf(events, encode)[0] == Wire(EventName(events[0]), encode(events[0]))
    ensures WireOf(events, encode)[1..] == WireOf(events[1..], encode)
  {
    var ws := WireOf(events, encode);
    var tail := events[1..];
    forall k | 0 <= k < |tail| ensures ws[1..][k] == WireOf(tail, encode)[k] {
      assert tail[k] == events[k + 1];
    }
  }

  /** The arrivals of a non-empty run: the first event, then the others. */
  lemma ArrivalsCons(events: seq<Event>)
    requires events != []
    ensures Arrivals(events) == [Delivery(EventName(events[0]), events[0])] + Arrivals(events[1..])
  {
    var tail := events[1..];
    var r := [Delivery(EventName(events[0]), events[0])] + Arrivals(tail);
    forall k | 0 <= k < |events| ensures Arrivals(events)[k] == r[k] {
      if k > 0 {
        assert tail[k - 1] == events[k];
      }
    }
  }

  /** When the serialiser writes one line and the parser reads back what it wrote, the
      client's reader receives every event of the stream, by name and in order, when the
      stream arrives in one read; the reader that keeps the pending name across reads
      receives them however the stream is split into reads. */
  lemma EventsArrive(events: seq<Event>, encode: Event -> string, parse: string -> Option<Event>)
    requires forall k :: 0 <= k < |events| ==> '\n' !in encode(events[k]) && parse(encode(events[k])) == Some(events[k])
    ensures AllClean(WireOf(events, encode))
    ensures Expected(WireOf(events, encode), parse) == Arrivals(events)
    ensures FeedAll([FramesText(WireOf(events, encode))], parse) == Reader("", LineState("", Arrivals(events)))
    ensures forall pieces :: Concat(pieces) == FramesText(WireOf(events, encode)) ==>
              FeedAllCarrying(pieces, parse).line == LineState("", Arrivals(events))
  {
    WireOfClean(events, encode);
    ExpectedOfWire(events, encode, parse);
    FramesArriveWhole(WireOf(events, encode), parse);
    forall pieces | Concat(pieces) == FramesText(WireOf(events, encode))
      ensures FeedAllCarrying(pieces, parse).line == LineState("", Arrivals(events))
    {
      FramesArriveAnyChunking(WireOf(events, encode), pieces, parse);
    }
  }

  /** The client's state while a turn's chunks stream in: the earlier messages, then the
      placeholder showing the text so far. */
  lemma {:induction false} ChunksOnClient(st: ClientState, prefix: seq<ChatMessage>, m: string, chunks: seq<string>)
    requires st.messages == prefix + [ChatMessage(m, "", true)] && Quiet(prefix, m)
    requires BufferOf(st.buffers, m) == ""
    ensures var r := ReduceAll(st, Orchestrator.ChunkEvents(m, chunks));
            && r.messages == prefix + [ChatMessage(m, Concat(chunks), true)]
            && BufferOf(r.buffers, m) == Concat(chunks)
            && r.speaker == st.speaker && r.record == st.record && r.isLoading == st.isLoading
  {
    if chunks != [] {
      var init := chunks[..|chunks| - 1];
      var t := chunks[|chunks| - 1];
      ChunksOnClient(st, prefix, m, init);
      var events := Orchestrator.ChunkEvents(m, chunks);
      assert events[..|events| - 1] == Orchestrator.ChunkEvents(m, init);
      var mid := ReduceAll(st, Orchestrator.ChunkEvents(m, init));
      ConcatSnoc(init, t);
      SettleSnoc(prefix, ChatMessage(m, Concat(init), true), m, Concat(chunks), true);
      SettleQuiet(prefix, m, Concat(chunks), true);
    }
  }

  /** The client reading a speaker's whole turn: exactly one message is added, it is no
      longer streaming and it holds the full text of the turn (the concatenated chunks, or
      the error text when the stream failed); the earlier messages stay. The speaker is
      cleared only by a completed turn. */
  lemma TurnOnClient(st: ClientState, m: string, reply: Orchestrator.Reply)
    requires m != [] && Quiet(st.messages, m)
    ensures var r := ReduceAll(st, Orchestrator.Segment(m, reply));
            && r.messages == st.messages + [ChatMessage(m, if reply.failure.None? then Concat(reply.chunks)
                                                           else ErrorPrefix + reply.failure.value, false)]
            && r.speaker == (if reply.failure.None? then None else Some(m))
            && r.record == st.record && r.isLoading == st.isLoading
  {
    var seg := Orchestrator.Segment(m, reply);
    var startEvents := [ModelStart(m)];
    var chunkEvents := Orchestrator.ChunkEvents(m, reply.chunks);
    var closing := Orchestrator.Closing(m, reply);
    assert seg == (startEvents + chunkEvents) + [closing];
    ReduceAllAppend(st, startEvents + chunkEvents, [closing]);
    ReduceAllAppend(st, startEvents, chunkEvents);
    var none: seq<Event> := [];
    assert startEvents[..0] == none;
    var started := ReduceAll(st, startEvents);
    assert started == Reduce(st, ModelStart(m));
    ChunksOnClient(started, st.messages, m, reply.chunks);
    var streamed := ReduceAll(started, chunkEvents);
    assert ReduceAll(streamed, [closing]) == Reduce(streamed, closing) by {
      assert [closing][..0] == none;
    }
    var content := if reply.failure.None? then Concat(reply.chunks) else ErrorPrefix + reply.failure.value;
    SettleSnoc(st.messages, ChatMessage(m, Concat(reply.chunks), true), m, content, false);
    SettleQuiet(st.messages, m, content, false);
  }
}
