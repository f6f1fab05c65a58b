/**
 * The client's reading of the server's event stream: decoded text arrives in pieces, is
 * cut into lines at `\n`, and each `data:` line is delivered with the name given by the
 * `event:` line before it. The unfinished last line waits in a buffer for the next piece;
 * the pending event name does not survive a piece boundary. The JSON parser is an oracle
 * `parse` that yields a value or fails.
 */
module ClientApi {
  import opened Wrappers
  import opened Text

  const EventPrefix: string := "event: "
  const DataPrefix: string := "data: "

  /** One call of the event callback: the event name and the parsed data. */
  datatype Delivery<J> = Delivery(event: string, data: J)

  /** What the line loop carries: the pending event name and the deliveries so far. */
  datatype LineState<J> = LineState(currentEvent: string, delivered: seq<Delivery<J>>)

  /** What the read loop carries between pieces: the unfinished line and the line state. */
  datatype Reader<J> = Reader(buffer: string, line: LineState<J>)

  /** The effect of one complete line. */
  function LineStep<J>(st: LineState<J>, line: string, parse: string -> Option<J>): LineState<J>
  {
    if StartsWith(line, EventPrefix) then st.(currentEvent := line[|EventPrefix|..])
    else if StartsWith(line, DataPrefix) && st.currentEvent != "" then
      var parsed := parse(line[|DataPrefix|..]);
      LineState("", st.delivered + if parsed.Some? then [Delivery(st.currentEvent, parsed.value)] else [])
    else st
  }

  /** The line loop over `lines`, in order. */
  function Lines<J>(st: LineState<J>, lines: seq<string>, parse: string -> Option<J>): LineState<J>
  {
    if lines == [] then st
    else LineStep(Lines(st, lines[..|lines| - 1], parse), lines[|lines| - 1], parse)
  }

  /** The complete lines of a split: all but the last piece, which is unfinished. */
  function Complete(lines: seq<string>): seq<string>
    requires |lines| >= 1
  {
    lines[..|lines| - 1]
  }

  /** One decoded piece: append it to the buffer, run the line loop over the complete lines
      with the pending event name cleared, and keep the rest as the new buffer. */
  function Feed<J>(r: Reader<J>, piece: string, parse: string -> Option<J>): Reader<J>
  {
    var lines := Split(r.buffer + piece);
    Reader(lines[|lines| - 1], Lines(r.line.(currentEvent := ""), Complete(lines), parse))
  }

  /** The reader after all of `pieces`. */
  function FeedAll<J>(pieces: seq<string>, parse: string -> Option<J>): Reader<J>
  {
    if pieces == [] then Reader("", LineState("", []))
    else Feed(FeedAll(pieces[..|pieces| - 1], parse), pieces[|pieces| - 1], parse)
  }

  /** The complete lines handed to the line loop, over all of `pieces`, in order. */
  function Processed<J>(pieces: seq<string>, parse: string -> Option<J>): seq<string>
  {
    if pieces == [] then []
    else
      var prev := pieces[..|pieces| - 1];
      Processed(prev, parse) + Complete(Split(FeedAll(prev, parse).buffer + pieces[|pieces| - 1]))
  }

  /** The buffer never holds a newline, and no line handed to the line loop holds one. */
  lemma {:induction false} FeedAllClean<J>(pieces: seq<string>, parse: string -> Option<J>)
    ensures '\n' !in FeedAll(pieces, parse).buffer
    ensures forall k :: 0 <= k < |Processed(pieces, parse)| ==> '\n' !in Processed(pieces, parse)[k]
  {
    if pieces != [] {
      var prev := pieces[..|pieces| - 1];
      FeedAllClean(prev, parse);
      var p0 := Processed(prev, parse);
      var lines := Split(FeedAll(prev, parse).buffer + pieces[|pieces| - 1]);
      var p := Processed(pieces, parse);
      assert p == p0 + Complete(lines);
      forall k | 0 <= k < |p| ensures '\n' !in p[k] {
        if k < |p0| {
          assert p[k] == p0[k];
        } else {
          assert p[k] == Complete(lines)[k - |p0|] == lines[k - |p0|];
        }
      }
    }
  }

  /** The text account: the processed lines `p` joined with newlines, then a newline and
      the buffer, are `text` (the buffer alone while no line is complete). */
  predicate Accounted(p: seq<string>, buffer: string, text: string)
  {
    && (p == [] ==> buffer == text)
    && (p != [] ==> Join(p, "\n") + "\n" + buffer == text)
  }

  /** One piece keeps the text account. */
  lemma FeedText<J>(before: Reader<J>, p0: seq<string>, text: string, piece: string, parse: string -> Option<J>)
    requires Accounted(p0, before.buffer, text)
    ensures Accounted(p0 + Complete(Split(before.buffer + piece)), Feed(before, piece, parse).buffer, text + piece)
  {
    var lines := Split(before.buffer + piece);
    JoinSplit(before.buffer + piece);
    var done := Complete(lines);
    var last := lines[|lines| - 1];
    assert lines == done + [last];
    AccountStep(p0, before.buffer, piece, text, done, last);
  }

  /** The text account holds after every piece. */
  lemma {:induction false} FeedAllText<J>(pieces: seq<string>, parse: string -> Option<J>)
    ensures Accounted(Processed(pieces, parse), FeedAll(pieces, parse).buffer, Concat(pieces))
  {
    if pieces != [] {
      var prev := pieces[..|pieces| - 1];
      FeedAllText(prev, parse);
      FeedText(FeedAll(prev, parse), Processed(prev, parse), Concat(prev), pieces[|pieces| - 1], parse);
    }
  }

  /** The whole account of the read loop: no newline in the buffer or in a processed line,
      and the processed lines with the buffer are all the text read so far. */
  lemma FeedAllAccounts<J>(pieces: seq<string>, parse: string -> Option<J>)
    ensures var r := FeedAll(pieces, parse);
            var p := Processed(pieces, parse);
            && '\n' !in r.buffer
            && (forall k :: 0 <= k < |p| ==> '\n' !in p[k])
            && (p == [] ==> r.buffer == Concat(pieces))
            && (p != [] ==> Join(p, "\n") + "\n" + r.buffer == Concat(pieces))
  {
    FeedAllClean(pieces, parse);
    FeedAllText(pieces, parse);
  }

  /** One piece in the text account: the previous account, and the split of the buffer with
      the piece into complete lines and a rest, give the new account. */
  lemma AccountStep(p0: seq<string>, buffer: string, piece: string, text: string, done: seq<string>, last: string)
    requires Accounted(p0, buffer, text)
    requires Join(done + [last], "\n") == buffer + piece
    ensures Accounted(p0 + done, last, text + piece)
  {
    if done == [] {
      assert done + [last] == [last];
      assert p0 + done == p0;
    } else {
      JoinAppend(done, last, "\n");
      if p0 != [] {
        JoinConcat(p0, done, "\n");
        assert text + piece == Join(p0, "\n") + "\n" + (Join(done, "\n") + "\n" + last);
      } else {
        assert p0 + done == done;
      }
    }
  }

  /** Joining two non-empty lists puts the separator between their joins. */
  lemma {:induction false} JoinConcat(a: seq<string>, b: seq<string>, sep: string)
    requires a != [] && b != []
    ensures Join(a + b, sep) == Join(a, sep) + sep + Join(b, sep)
  {
    if |b| == 1 {
      assert b == [b[0]];
      JoinAppend(a, b[0], sep);
    } else {
      var init := b[..|b| - 1];
      assert b == init + [b[|b| - 1]];
      assert a + b == (a + init) + [b[|b| - 1]];
      JoinConcat(a, init, sep);
      JoinAppend(a + init, b[|b| - 1], sep);
      JoinAppend(init, b[|b| - 1], sep);
    }
  }

  /** The lines of all the text read are the processed lines and then the buffer: the loop
      loses no line and invents none. */
  lemma LinesOfText<J>(pieces: seq<string>, parse: string -> Option<J>)
    ensures Split(Concat(pieces)) == Processed(pieces, parse) + [FeedAll(pieces, parse).buffer]
  {
    FeedAllAccounts(pieces, parse);
    var p := Processed(pieces, parse);
    var b := FeedAll(pieces, parse).buffer;
    if p == [] {
      SplitNoNewline(b);
    } else {
      JoinAppend(p, b, "\n");
      SplitJoin(p + [b]);
    }
  }

  /** Running the line loop over two batches is running it over their concatenation. */
  lemma {:induction false} LinesAppend<J>(st: LineState<J>, a: seq<string>, b: seq<string>, parse: string -> Option<J>)
    ensures Lines(st, a + b, parse) == Lines(Lines(st, a, parse), b, parse)
  {
    if b == [] {
      assert a + b == a;
    } else {
      assert (a + b)[..|a + b| - 1] == a + b[..|b| - 1];
      LinesAppend(st, a, b[..|b| - 1], parse);
    }
  }

  /** Deliveries are only ever appended, in line order: earlier ones stay as they were. */
  lemma {:induction false} LinesExtend<J>(st: LineState<J>, lines: seq<string>, parse: string -> Option<J>)
    ensures var after := Lines(st, lines, parse).delivered;
            |after| >= |st.delivered| && after[..|st.delivered|] == st.delivered
  {
    if lines != [] {
      LinesExtend(st, lines[..|lines| - 1], parse);
      var mid := Lines(st, lines[..|lines| - 1], parse);
      assert mid.delivered[..|st.delivered|] == st.delivered;
      var after := LineStep(mid, lines[|lines| - 1], parse).delivered;
      assert after[..|mid.delivered|] == mid.delivered;
      assert after[..|st.delivered|] == mid.delivered[..|st.delivered|];
    }
  }

  /** A line that starts with neither prefix: blank lines, comments, other fields. */
  predicate Ignored(line: string)
  {
    !StartsWith(line, EventPrefix) && !StartsWith(line, DataPrefix)
  }

  /** Lines with neither prefix change nothing: no delivery and the same pending name. */
  lemma {:induction false} IgnoredLinesChangeNothing<J>(st: LineState<J>, lines: seq<string>, parse: string -> Option<J>)
    requires forall k :: 0 <= k < |lines| ==> Ignored(lines[k])
    ensures Lines(st, lines, parse) == st
  {
    if lines != [] {
      IgnoredLinesChangeNothing(st, lines[..|lines| - 1], parse);
      assert Ignored(lines[|lines| - 1]);
    }
  }

  /** An `event:` line followed by a `data:` line delivers the data under that name when it
      parses, and clears the pending name either way. */
  lemma EventThenData<J>(st: LineState<J>, event: string, data: string, parse: string -> Option<J>)
    requires event != []
    ensures var after := Lines(st, [EventPrefix + event, DataPrefix + data], parse);
            && after.currentEvent == ""
            && after.delivered == st.delivered + if parse(data).Some? then [Delivery(event, parse(data).value)] else []
  {
    var e := EventPrefix + event;
    var d := DataPrefix + data;
    assert [e, d][..1] == [e];
    var none: seq<string> := [];
    assert [e][..0] == none;
    var mid := LineStep(st, e, parse);
    assert Lines(st, [e], parse) == mid;
    assert Lines(st, [e, d], parse) == LineStep(mid, d, parse);
    assert StartsWith(e, EventPrefix) && e[|EventPrefix|..] == event;
    assert !StartsWith(d, EventPrefix) by {
      assert d[0] == 'd';
    }
    assert StartsWith(d, DataPrefix) && d[|DataPrefix|..] == data;
  }

  /** A `data:` line with no pending name is dropped. */
  lemma DataWithoutEventDropped<J>(st: LineState<J>, data: string, parse: string -> Option<J>)
    requires st.currentEvent == ""
    ensures Lines(st, [DataPrefix + data], parse) == st
  {
    var d := DataPrefix + data;
    var none: seq<string> := [];
    assert [d][..0] == none;
    assert !StartsWith(d, EventPrefix) by {
      assert d[0] == 'd';
    }
  }

  /** A last piece holding no newline completes no line, so it delivers nothing: what is left
      in the buffer when the stream ends is never processed. */
  lemma UnterminatedTailDeliversNothing<J>(pieces: seq<string>, tail: string, parse: string -> Option<J>)
    requires '\n' !in tail
    ensures FeedAll(pieces + [tail], parse).line.delivered == FeedAll(pieces, parse).line.delivered
    ensures FeedAll(pieces + [tail], parse).buffer == FeedAll(pieces, parse).buffer + tail
  {
    var r := FeedAll(pieces, parse);
    FeedAllAccounts(pieces, parse);
    assert '\n' !in r.buffer + tail;
    SplitNoNewline(r.buffer + tail);
    assert (pieces + [tail])[..|pieces|] == pieces;
  }

  /** How the request ends, besides the pieces it read. */
  datatype Response = Response(ok: bool, status: nat, hasBody: bool)
  datatype StreamEnd = Done | ReadError(message: string) | Aborted

  /** Which final callback runs: `onComplete`, `onError` with a message, or neither (an
      abort). */
  datatype Outcome = Completed | Failed(message: string) | Cancelled

  const HttpErrorPrefix: string := "HTTP error: "
  const NoBodyError: string := "No response body"

  /** The request's reading of the stream. `pieces` are the decoded reads; `end` says how the
      reading stopped. */
  method ReadStream<J>(response: Response, pieces: seq<string>, end: StreamEnd, parse: string -> Option<J>)
    returns (delivered: seq<Delivery<J>>, outcome: Outcome)
    ensures !response.ok ==> delivered == [] && outcome == Failed(HttpErrorPrefix + NatToString(response.status))
    ensures response.ok && !response.hasBody ==> delivered == [] && outcome == Failed(NoBodyError)
    ensures response.ok && response.hasBody ==>
              && delivered == FeedAll(pieces, parse).line.delivered
              && outcome == match end
                            case Done => Completed
                            case ReadError(m) => Failed(m)
                            case Aborted => Cancelled
  {
    delivered := [];
    if !response.ok {
      return [], Failed(HttpErrorPrefix + NatToString(response.status));
    }
    if !response.hasBody {
      return [], Failed(NoBodyError);
    }
    var buffer := "";
    var i := 0;
    while i < |pieces|
      invariant 0 <= i <= |pieces|
      invariant FeedAll(pieces[..i], parse) == Reader(buffer, LineState(FeedAll(pieces[..i], parse).line.currentEvent, delivered))
    {
      ghost var before := FeedAll(pieces[..i], parse);
      buffer := buffer + pieces[i];
      var lines := Split(buffer);
      buffer := lines[|lines| - 1];
      var currentEvent := "";
      var j := 0;
      while j < |lines| - 1
        invariant 0 <= j <= |lines| - 1
        invariant Lines(LineState("", before.line.delivered), lines[..j], parse) == LineState(currentEvent, delivered)
      {
        var line := lines[j];
        assert lines[..j + 1][..j] == lines[..j];
        if StartsWith(line, EventPrefix) {
          currentEvent := line[|EventPrefix|..];
        } else if StartsWith(line, DataPrefix) && currentEvent != "" {
          var parsed := parse(line[|DataPrefix|..]);
          if parsed.Some? {
            delivered := delivered + [Delivery(currentEvent, parsed.value)];
          }
          currentEvent := "";
        }
        j := j + 1;
      }
      assert lines[..|lines| - 1] == Complete(lines);
      assert pieces[..i + 1][..i] == pieces[..i];
      i := i + 1;
    }
    assert pieces[..|pieces|] == pieces;
    outcome := match end
               case Done => Completed
               case ReadError(m) => Failed(m)
               case Aborted => Cancelled;
  }

  /** The reading with the pending event name kept across pieces, as it is kept across the
      lines of one piece. */
  function FeedCarrying<J>(r: Reader<J>, piece: string, parse: string -> Option<J>): Reader<J>
  {
    var lines := Split(r.buffer + piece);
    Reader(lines[|lines| - 1], Lines(r.line, Complete(lines), parse))
  }

  function FeedAllCarrying<J>(pieces: seq<string>, parse: string -> Option<J>): Reader<J>
  {
    if pieces == [] then Reader("", LineState("", []))
    else FeedCarrying(FeedAllCarrying(pieces[..|pieces| - 1], parse), pieces[|pieces| - 1], parse)
  }

  /** Carrying the name, the reader holds the same buffer as the original one, and its line
      state is the line loop run once over every processed line. */
  lemma {:induction false} CarryingRunsAllLines<J>(pieces: seq<string>, parse: string -> Option<J>)
    ensures FeedAllCarrying(pieces, parse).buffer == FeedAll(pieces, parse).buffer
    ensures FeedAllCarrying(pieces, parse).line == Lines(LineState("", []), Processed(pieces, parse), parse)
  {
    if pieces != [] {
      var prev := pieces[..|pieces| - 1];
      CarryingRunsAllLines(prev, parse);
      var lines := Split(FeedAll(prev, parse).buffer + pieces[|pieces| - 1]);
      LinesAppend(LineState("", []), Processed(prev, parse), Complete(lines), parse);
    }
  }

  /** Carrying the name, what is delivered depends only on the text, not on how it was cut
      into pieces. */
  lemma CarryingIgnoresChunking<J>(pieces: seq<string>, parse: string -> Option<J>)
    ensures FeedAllCarrying(pieces, parse) == FeedAllCarrying([Concat(pieces)], parse)
  {
    var whole := [Concat(pieces)];
    CarryingRunsAllLines(pieces, parse);
    CarryingRunsAllLines(whole, parse);
    LinesOfText(pieces, parse);
    LinesOfText(whole, parse);
    assert Concat(whole) == Concat(pieces) by {
      assert whole[..0] == [];
    }
    var s := Split(Concat(pieces));
    assert Processed(whole, parse) == Processed(pieces, parse) by {
      assert Processed(whole, parse) + [FeedAll(whole, parse).buffer] == s;
      assert Processed(pieces, parse) + [FeedAll(pieces, parse).buffer] == s;
      assert Processed(whole, parse) == s[..|s| - 1];
      assert Processed(pieces, parse) == s[..|s| - 1];
    }
  }

  /** The `event:` line and its `data:` line arriving in two pieces. */
  function SplitFrame(event: string, data: string): seq<string>
  {
    [EventPrefix + event + "\n", DataPrefix + data + "\n\n"]
  }

  /** The lines of the two pieces of a split frame: the `event:` line and an empty rest,
      then the `data:` line, the empty line and an empty rest. */
  lemma SplitFrameLines(event: string, data: string)
    requires '\n' !in event && '\n' !in data
    ensures Split("" + SplitFrame(event, data)[0]) == [EventPrefix + event, ""]
    ensures Split("" + SplitFrame(event, data)[1]) == [DataPrefix + data, "", ""]
  {
    var e := EventPrefix + event;
    var d := DataPrefix + data;
    var pieces := SplitFrame(event, data);
    assert '\n' !in e && '\n' !in d;
    SplitNoNewline(e);
    SplitNoNewline(d);
    SplitNoNewline("");
    SplitAtNewline(e, "");
    assert "" + pieces[0] == e + "\n" + "";
    SplitAtNewline("", "");
    SplitAtNewline(d, "\n");
    assert "" + pieces[1] == d + "\n" + "\n";
  }

  /** The `event:` line of the first piece names the event and delivers nothing. */
  lemma EventLineOnly<J>(event: string, parse: string -> Option<J>)
    ensures Lines(LineState("", []), [EventPrefix + event], parse) == LineState(event, [])
  {
    var e := EventPrefix + event;
    var none: seq<string> := [];
    assert [e][..0] == none;
    assert StartsWith(e, EventPrefix) && e[|EventPrefix|..] == event;
  }

  /** The `data:` line and the empty line of the second piece: the data is delivered under
      the pending name, and nothing without one. */
  lemma DataLineThenEmpty<J>(st: LineState<J>, data: string, parse: string -> Option<J>)
    requires st.delivered == [] && parse(data).Some?
    ensures st.currentEvent == "" ==> Lines(st, [DataPrefix + data, ""], parse) == st
    ensures st.currentEvent != "" ==>
              Lines(st, [DataPrefix + data, ""], parse) == LineState("", [Delivery(st.currentEvent, parse(data).value)])
  {
    var d := DataPrefix + data;
    var none: seq<string> := [];
    assert [d, ""][..1] == [d];
    assert [d][..0] == none;
    assert !StartsWith(d, EventPrefix) by {
      assert d[0] == 'd';
    }
    assert StartsWith(d, DataPrefix) && d[|DataPrefix|..] == data;
    var mid := LineStep(st, d, parse);
    assert Lines(st, [d], parse) == mid;
    assert Lines(st, [d, ""], parse) == LineStep(mid, "", parse);
    assert Ignored("");
  }

  /** An `event:` line that ends one piece loses its `data:` line at the start of the next:
      the name is cleared at the piece boundary and the data is dropped. Keeping the name
      across pieces delivers it. */
  lemma SplitFrameDropped<J>(event: string, data: string, parse: string -> Option<J>)
    requires event != [] && '\n' !in event && '\n' !in data
    requires parse(data).Some?
    ensures FeedAll(SplitFrame(event, data), parse).line.delivered == []
    ensures FeedAllCarrying(SplitFrame(event, data), parse).line.delivered == [Delivery(event, parse(data).value)]
  {
    var e := EventPrefix + event;
    var d := DataPrefix + data;
    var pieces := SplitFrame(event, data);
    SplitFrameLines(event, data);
    EventLineOnly(event, parse);
    assert pieces[..1][..0] == [];
    assert pieces[..|pieces| - 1] == pieces[..1];
    assert Complete([e, ""]) == [e];
    assert Complete([d, "", ""]) == [d, ""];
    var init: Reader<J> := Reader("", LineState("", []));
    assert pieces[..1] == [pieces[0]];
    assert FeedAll(pieces[..1][..0], parse) == init;
    assert FeedAllCarrying(pieces[..1][..0], parse) == init;
    var first := FeedAll(pieces[..1], parse);
    assert first == Feed(init, pieces[0], parse);
    assert Split(init.buffer + pieces[0]) == [e, ""];
    assert Lines(init.line.(currentEvent := ""), [e], parse) == LineState(event, []);
    assert first == Reader("", LineState(event, []));
    var firstC := FeedAllCarrying(pieces[..1], parse);
    assert firstC == FeedCarrying(init, pieces[0], parse);
    assert firstC == Reader("", LineState(event, []));
    DataLineThenEmpty(LineState("", []), data, parse);
    DataLineThenEmpty(LineState(event, []), data, parse);
    assert FeedAll(pieces, parse) == Feed(first, pieces[1], parse);
    assert FeedAllCarrying(pieces, parse) == FeedCarrying(firstC, pieces[1], parse);
  }
}
