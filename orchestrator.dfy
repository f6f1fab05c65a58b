/**
 * The round engine: the user's turn, then every participant in order, each streaming
 * its reply as events, then one recorder call that updates the discussion record, then
 * `round_done`. The event sink is the sequence of events written so far; a model
 * backend is an oracle that, given the model id, the system prompt and the user
 * content, returns the finite list of chunks it streams and whether it then fails.
 */
module Orchestrator {
  import opened Wrappers
  import opened Text
  import opened Types
  import opened SystemPrompt
  import opened RecorderPrompt

  /** What a backend call streams: its chunks in order, then `Some(message)` when the
      call or the stream throws after them, `None` when it completes. */
  datatype Reply = Reply(chunks: seq<string>, failure: Option<string>)

  /** The environment of a round.
      `adapters` maps each model id that has an adapter to its display name;
      `call(id, systemPrompt, userContent)` is the backend of model `id`;
      `recorderId` is the model the recorder runs on;
      `serialize` is the JSON rendering of a record and `parse` the parse of the
      recorder's reply (`None` when parsing throws). A backend is a function of its
      inputs, so two calls with the same inputs stream the same reply. */
  datatype Config = Config(
    adapters: map<string, string>,
    call: (string, string, string) -> Reply,
    recorderId: string,
    serialize: DiscussionRecord -> string,
    parse: string -> Option<DiscussionRecord>)

  const UserSpeaker: string := "user"

  // ---------------------------------------------------------------- wire format

  /** One push-protocol frame as the server writes it. */
  function Frame(event: string, data: string): string
  {
    "event: " + event + "\ndata: " + data + "\n\n"
  }

  /** A frame whose name and data hold no newline is four lines: the `event:` line, the
      `data:` line and two empty lines. */
  lemma {:induction false} FrameLines(event: string, data: string)
    requires '\n' !in event && '\n' !in data
    ensures Split(Frame(event, data)) == ["event: " + event, "data: " + data, "", ""]
  {
    var a := "event: " + event;
    var b := "data: " + data;
    assert '\n' !in a by {
      forall k | 0 <= k < |a| ensures a[k] != '\n' {
        if k >= 7 { assert a[k] == event[k - 7]; }
      }
    }
    assert '\n' !in b by {
      forall k | 0 <= k < |b| ensures b[k] != '\n' {
        if k >= 6 { assert b[k] == data[k - 6]; }
      }
    }
    assert Frame(event, data) == a + "\n" + (b + "\n" + ("" + "\n" + ""));
    SplitAtNewline(a, b + "\n" + ("" + "\n" + ""));
    SplitAtNewline(b, "" + "\n" + "");
    SplitAtNewline("", "");
    SplitNoNewline(a);
    SplitNoNewline(b);
  }

  // ---------------------------------------------------------------- prompts of a round

  function RecentRoundLines(round: RoundSummary): (r: seq<string>)
    ensures |r| == |round.messages|
  {
    seq(|round.messages|, i requires 0 <= i < |round.messages| =>
      round.messages[i].speaker + ": " + round.messages[i].summary)
  }

  /** The block of one earlier round: its header line, then one `speaker: summary` line
      per message. */
  function RecentRoundBlock(round: RoundSummary): string
  {
    "Round " + NatToString(round.roundNumber) + ":\n" + Join(RecentRoundLines(round), "\n")
  }

  function RecentRoundBlocks(rounds: seq<RoundSummary>): (r: seq<string>)
    ensures |r| == |rounds|
  {
    seq(|rounds|, i requires 0 <= i < |rounds| => RecentRoundBlock(rounds[i]))
  }

  /** The summary of the record's window of rounds, blocks separated by a blank line. */
  function FormatRecentRounds(record: DiscussionRecord): string
  {
    Join(RecentRoundBlocks(record.recentRounds), "\n\n")
  }

  lemma JoinEmpty(parts: seq<string>, sep: string)
    requires parts != [] && parts[0] != ""
    ensures Join(parts, sep) != ""
  {
    if |parts| > 1 {
      assert (parts[0] + sep + Join(parts[1..], sep))[0] == parts[0][0];
    }
  }

  /** The summary is empty exactly when the window holds no round, so the context prompt
      has its recent-rounds section exactly when there are earlier rounds; each block
      opens with its `Round n:` header. */
  lemma FormatRecentRoundsShape(record: DiscussionRecord)
    ensures FormatRecentRounds(record) == "" <==> record.recentRounds == []
    ensures forall k :: 0 <= k < |record.recentRounds| ==>
              StartsWith(RecentRoundBlocks(record.recentRounds)[k],
                         "Round " + NatToString(record.recentRounds[k].roundNumber) + ":\n")
    ensures RecentSection(FormatRecentRounds(record)) == "" <==> record.recentRounds == []
  {
    var blocks := RecentRoundBlocks(record.recentRounds);
    if record.recentRounds != [] {
      var h := "Round " + NatToString(record.recentRounds[0].roundNumber) + ":\n";
      assert blocks[0] == h + Join(RecentRoundLines(record.recentRounds[0]), "\n");
      assert blocks[0][0] == h[0];
      JoinEmpty(blocks, "\n\n");
    }
    forall k | 0 <= k < |record.recentRounds|
      ensures StartsWith(blocks[k], "Round " + NatToString(record.recentRounds[k].roundNumber) + ":\n")
    {
      var h := "Round " + NatToString(record.recentRounds[k].roundNumber) + ":\n";
      assert blocks[k][..|h|] == h;
    }
    ContextSections("", [], [], FormatRecentRounds(record));
  }

  /** The context every participant of the round receives before the transcript. */
  function ContextPrompt(record: DiscussionRecord): string
  {
    BuildContextPrompt(record.outline.topic, record.outline.keyDecisions, record.outline.openQuestions,
                       FormatRecentRounds(record))
  }

  function TranscriptEntry(m: RoundMessage): string
  {
    "**" + m.speaker + "**: " + m.content
  }

  function TranscriptEntries(msgs: seq<RoundMessage>): (r: seq<string>)
    ensures |r| == |msgs|
  {
    seq(|msgs|, i requires 0 <= i < |msgs| => TranscriptEntry(msgs[i]))
  }

  /** The transcript of the round so far: one `**speaker**: content` entry per message,
      separated by blank lines. */
  function FormatCurrentRound(msgs: seq<RoundMessage>): string
  {
    Join(TranscriptEntries(msgs), "\n\n")
  }

  /** Each message added to the round extends the transcript the next participant sees:
      the earlier transcript stays a prefix and the new entry follows a blank line. */
  lemma FormatCurrentRoundAppend(msgs: seq<RoundMessage>, m: RoundMessage)
    requires msgs != []
    ensures FormatCurrentRound(msgs + [m]) == FormatCurrentRound(msgs) + "\n\n" + TranscriptEntry(m)
    ensures StartsWith(FormatCurrentRound(msgs + [m]), FormatCurrentRound(msgs))
  {
    assert TranscriptEntries(msgs + [m]) == TranscriptEntries(msgs) + [TranscriptEntry(m)];
    JoinAppend(TranscriptEntries(msgs), TranscriptEntry(m), "\n\n");
    var a := FormatCurrentRound(msgs);
    assert (a + "\n\n" + TranscriptEntry(m))[..|a|] == a;
  }

  // ---------------------------------------------------------------- the participants' turns

  /** The messages and the events of a round so far. */
  datatype RoundState = RoundState(messages: seq<RoundMessage>, events: seq<Event>)

  /** One `model_chunk` event per chunk, in order. */
  function ChunkEvents(model: string, chunks: seq<string>): (r: seq<Event>)
    ensures |r| == |chunks|
  {
    if chunks == [] then [] else ChunkEvents(model, chunks[..|chunks| - 1]) + [ModelChunk(model, chunks[|chunks| - 1])]
  }

  /** The event that closes a turn: `model_done` with the concatenated chunks when the
      stream completed, otherwise a single `error` naming the model. */
  function Closing(m: string, reply: Reply): Event
  {
    if reply.failure.None? then ModelDone(m, Concat(reply.chunks)) else Error(Some(m), reply.failure.value)
  }

  /** The events of `m`'s turn: `model_start`, the chunks, the closing event. */
  function Segment(m: string, reply: Reply): (r: seq<Event>)
    ensures |r| == |reply.chunks| + 2
  {
    [ModelStart(m)] + ChunkEvents(m, reply.chunks) + [Closing(m, reply)]
  }

  /** The turn of `m` once its backend has streamed `reply`: the turn's events, and one
      round message `{m, fullText}` only when the stream completed. */
  function Visit(st: RoundState, m: string, reply: Reply): RoundState
  {
    if reply.failure.None? then RoundState(st.messages + [RoundMessage(m, Concat(reply.chunks))], st.events + Segment(m, reply))
    else RoundState(st.messages, st.events + Segment(m, reply))
  }

  /** The turn of `modelId`: nothing for an id without an adapter; otherwise its backend
      is called with its discussant prompt and the context followed by the transcript of
      the round so far. */
  function TurnOf(cfg: Config, injection: Option<string>, context: string, st: RoundState, modelId: string): RoundState
  {
    if modelId !in cfg.adapters then st
    else Visit(st, modelId, cfg.call(modelId, DiscussantPrompt(cfg.adapters[modelId], injection),
                                     TurnInput(context, st)))
  }

  /** The turns of `participants`, taken strictly in list order. */
  function Turns(cfg: Config, injection: Option<string>, context: string, st: RoundState,
                 participants: seq<string>): RoundState
  {
    if participants == [] then st
    else TurnOf(cfg, injection, context, Turns(cfg, injection, context, st, participants[..|participants| - 1]),
                participants[|participants| - 1])
  }

  /** The texts of a run of chunk events. */
  function ChunkTexts(events: seq<Event>): seq<string>
  {
    if events == [] then []
    else ChunkTexts(events[..|events| - 1]) + (if events[|events| - 1].ModelChunk? then [events[|events| - 1].text] else [])
  }

  lemma {:induction false} ChunkTextsOfChunkEvents(model: string, chunks: seq<string>)
    ensures ChunkTexts(ChunkEvents(model, chunks)) == chunks
    ensures forall i :: 0 <= i < |chunks| ==> ChunkEvents(model, chunks)[i] == ModelChunk(model, chunks[i])
  {
    if chunks != [] {
      var init := chunks[..|chunks| - 1];
      ChunkTextsOfChunkEvents(model, init);
      assert ChunkEvents(model, chunks)[..|chunks| - 1] == ChunkEvents(model, init);
      assert init + [chunks[|chunks| - 1]] == chunks;
    }
  }

  /** The events of one participant's turn: `model_start`, only chunks of that model, and
      one closing event: `model_done` whose full text is the concatenation of the chunk
      texts, or an `error` for that model. */
  predicate TurnSegment(seg: seq<Event>, m: string)
  {
    && |seg| >= 2
    && seg[0] == ModelStart(m)
    && (forall i :: 0 < i < |seg| - 1 ==> seg[i].ModelChunk? && seg[i].model == m)
    && (|| seg[|seg| - 1] == ModelDone(m, Concat(ChunkTexts(seg[1..|seg| - 1])))
        || (seg[|seg| - 1].Error? && seg[|seg| - 1].errorModel == Some(m)))
  }

  /** A participant's events form a well-formed turn whatever its backend streams, it
      closes with `model_done` exactly when the stream completed, and none of them is
      `round_done`. */
  lemma SegmentShape(m: string, reply: Reply)
    ensures TurnSegment(Segment(m, reply), m)
    ensures Segment(m, reply)[|Segment(m, reply)| - 1].ModelDone? <==> reply.failure.None?
    ensures NoRoundDone(Segment(m, reply))
  {
    var seg := Segment(m, reply);
    var chunkEvs := ChunkEvents(m, reply.chunks);
    assert seg[1..|seg| - 1] == chunkEvs;
    ChunkTextsOfChunkEvents(m, reply.chunks);
    forall i | 0 < i < |seg| - 1 ensures seg[i] == chunkEvs[i - 1] {
    }
  }

  /** A participant without an adapter changes nothing. A participant with one adds a
      well-formed segment of events, and it adds one round message, `{id, fullText}`,
      exactly when that segment closes with `model_done(id, fullText)`; an error adds
      none. */
  lemma TurnShape(cfg: Config, injection: Option<string>, context: string, st: RoundState, m: string)
    ensures m !in cfg.adapters ==> TurnOf(cfg, injection, context, st, m) == st
    ensures m in cfg.adapters ==>
              var after := TurnOf(cfg, injection, context, st, m);
              var seg := after.events[|st.events|..];
              && |st.events| <= |after.events| && after.events[..|st.events|] == st.events
              && TurnSegment(seg, m)
              && (seg[|seg| - 1].ModelDone? ==> after.messages == st.messages + [RoundMessage(m, seg[|seg| - 1].fullText)])
              && (seg[|seg| - 1].Error? ==> after.messages == st.messages)
  {
    if m in cfg.adapters {
      var reply := cfg.call(m, DiscussantPrompt(cfg.adapters[m], injection), TurnInput(context, st));
      var after := Visit(st, m, reply);
      assert after.events[|st.events|..] == Segment(m, reply);
      SegmentShape(m, reply);
    }
  }

  /** The turns only ever append: earlier messages and events stay as they were. */
  lemma {:induction false} TurnsExtend(cfg: Config, injection: Option<string>, context: string, st: RoundState,
                                       participants: seq<string>)
    ensures var after := Turns(cfg, injection, context, st, participants);
            && |st.messages| <= |after.messages| && after.messages[..|st.messages|] == st.messages
            && |st.events| <= |after.events| && after.events[..|st.events|] == st.events
  {
    if participants != [] {
      var init := participants[..|participants| - 1];
      var mid := Turns(cfg, injection, context, st, init);
      TurnsExtend(cfg, injection, context, st, init);
      var after := TurnOf(cfg, injection, context, mid, participants[|participants| - 1]);
      assert after.messages[..|mid.messages|] == mid.messages;
      assert after.events[..|mid.events|] == mid.events;
      assert after.messages[..|st.messages|] == mid.messages[..|st.messages|];
      assert after.events[..|st.events|] == mid.events[..|st.events|];
    }
  }

  /** The models whose turns were opened, in the order of their `model_start` events. */
  function Starts(events: seq<Event>): seq<string>
  {
    if events == [] then []
    else Starts(events[..|events| - 1]) + (if events[|events| - 1].ModelStart? then [events[|events| - 1].model] else [])
  }

  lemma {:induction false} StartsAppend(a: seq<Event>, b: seq<Event>)
    ensures Starts(a + b) == Starts(a) + Starts(b)
  {
    if b != [] {
      StartsAppend(a, b[..|b| - 1]);
      assert (a + b)[..|a + b| - 1] == a + b[..|b| - 1];
    } else {
      assert a + b == a;
    }
  }

  lemma {:induction false} StartsOfChunks(model: string, chunks: seq<string>)
    ensures Starts(ChunkEvents(model, chunks)) == []
  {
    if chunks != [] {
      StartsOfChunks(model, chunks[..|chunks| - 1]);
      StartsAppend(ChunkEvents(model, chunks[..|chunks| - 1]), [ModelChunk(model, chunks[|chunks| - 1])]);
    }
  }

  /** The round messages a run of events announces, one per `model_done`, in order. */
  function DoneMessages(events: seq<Event>): seq<RoundMessage>
  {
    if events == [] then []
    else DoneMessages(events[..|events| - 1])
         + (if events[|events| - 1].ModelDone? then [RoundMessage(events[|events| - 1].model, events[|events| - 1].fullText)] else [])
  }

  lemma {:induction false} DoneMessagesAppend(a: seq<Event>, b: seq<Event>)
    ensures DoneMessages(a + b) == DoneMessages(a) + DoneMessages(b)
  {
    if b != [] {
      DoneMessagesAppend(a, b[..|b| - 1]);
      assert (a + b)[..|a + b| - 1] == a + b[..|b| - 1];
    } else {
      assert a + b == a;
    }
  }

  lemma {:induction false} DoneMessagesOfChunks(model: string, chunks: seq<string>)
    ensures DoneMessages(ChunkEvents(model, chunks)) == []
  {
    if chunks != [] {
      DoneMessagesOfChunks(model, chunks[..|chunks| - 1]);
      DoneMessagesAppend(ChunkEvents(model, chunks[..|chunks| - 1]), [ModelChunk(model, chunks[|chunks| - 1])]);
    }
  }

  /** One turn opens exactly one model, and it announces the round message the turn adds,
      if any. */
  lemma SegmentAnnounces(st: RoundState, m: string, reply: Reply)
    ensures Starts(Segment(m, reply)) == [m]
    ensures Visit(st, m, reply).messages == st.messages + DoneMessages(Segment(m, reply))
  {
    var chunkEvs := ChunkEvents(m, reply.chunks);
    var last := Closing(m, reply);
    StartsAppend([ModelStart(m)] + chunkEvs, [last]);
    StartsAppend([ModelStart(m)], chunkEvs);
    StartsOfChunks(m, reply.chunks);
    DoneMessagesAppend([ModelStart(m)] + chunkEvs, [last]);
    DoneMessagesAppend([ModelStart(m)], chunkEvs);
    DoneMessagesOfChunks(m, reply.chunks);
    assert [ModelStart(m)][..0] == [] && [last][..0] == [];
  }

  /** The participants that have an adapter, in order. */
  function WithAdapter(participants: seq<string>, adapters: map<string, string>): seq<string>
  {
    if participants == [] then []
    else WithAdapter(participants[..|participants| - 1], adapters)
         + (if participants[|participants| - 1] in adapters then [participants[|participants| - 1]] else [])
  }

  /** Participants are visited strictly in list order: the `model_start` events name
      exactly the participants that have an adapter, in order; the others leave no trace. */
  lemma {:induction false} TurnsStartInOrder(cfg: Config, injection: Option<string>, context: string, st: RoundState,
                                             participants: seq<string>)
    ensures Starts(Turns(cfg, injection, context, st, participants).events)
            == Starts(st.events) + WithAdapter(participants, cfg.adapters)
  {
    if participants != [] {
      var init := participants[..|participants| - 1];
      var m := participants[|participants| - 1];
      var mid := Turns(cfg, injection, context, st, init);
      TurnsStartInOrder(cfg, injection, context, st, init);
      if m in cfg.adapters {
        var reply := cfg.call(m, DiscussantPrompt(cfg.adapters[m], injection), TurnInput(context, mid));
        SegmentAnnounces(mid, m, reply);
        StartsAppend(mid.events, Segment(m, reply));
      }
    }
  }

  /** One visit keeps the account of `TurnsMessagesAreDone`: the messages past `base` are
      those the `model_done` events past the first `n` announce. */
  lemma VisitMessagesAreDone(base: seq<RoundMessage>, n: nat, mid: RoundState, m: string, reply: Reply)
    requires n <= |mid.events| && mid.messages == base + DoneMessages(mid.events[n..])
    ensures n <= |Visit(mid, m, reply).events|
    ensures Visit(mid, m, reply).messages == base + DoneMessages(Visit(mid, m, reply).events[n..])
  {
    var after := Visit(mid, m, reply);
    var a := mid.events[n..];
    var seg := Segment(m, reply);
    assert after.events == mid.events + seg;
    assert after.events[n..] == a + seg;
    SegmentAnnounces(mid, m, reply);
    DoneMessagesAppend(a, seg);
  }

  /** The messages of a round after the ones it started with are exactly those its
      `model_done` events announce, in order, so a participant that failed has none. */
  lemma {:induction false} TurnsMessagesAreDone(cfg: Config, injection: Option<string>, context: string, st: RoundState,
                                                participants: seq<string>)
    ensures |st.events| <= |Turns(cfg, injection, context, st, participants).events|
    ensures Turns(cfg, injection, context, st, participants).messages
            == st.messages + DoneMessages(Turns(cfg, injection, context, st, participants).events[|st.events|..])
  {
    if participants == [] {
      assert st.events[|st.events|..] == [];
    } else {
      var init := participants[..|participants| - 1];
      var m := participants[|participants| - 1];
      var mid := Turns(cfg, injection, context, st, init);
      TurnsMessagesAreDone(cfg, injection, context, st, init);
      if m in cfg.adapters {
        var reply := cfg.call(m, DiscussantPrompt(cfg.adapters[m], injection), TurnInput(context, mid));
        VisitMessagesAreDone(st.messages, |st.events|, mid, m, reply);
        assert Visit(mid, m, reply) == Turns(cfg, injection, context, st, participants);
      } else {
        assert mid == Turns(cfg, injection, context, st, participants);
      }
    }
  }

  predicate NoRoundDone(events: seq<Event>)
  {
    forall i :: 0 <= i < |events| ==> !events[i].RoundDone?
  }

  lemma NoRoundDoneAppend(a: seq<Event>, b: seq<Event>)
    requires NoRoundDone(a) && NoRoundDone(b)
    ensures NoRoundDone(a + b)
  {
    forall i | 0 <= i < |a + b| ensures !(a + b)[i].RoundDone? {
      if i >= |a| {
        assert (a + b)[i] == b[i - |a|];
      }
    }
  }

  /** No turn writes `round_done`. */
  lemma {:induction false} TurnsHaveNoRoundDone(cfg: Config, injection: Option<string>, context: string, st: RoundState,
                                                participants: seq<string>)
    requires NoRoundDone(st.events)
    ensures NoRoundDone(Turns(cfg, injection, context, st, participants).events)
  {
    if participants != [] {
      var init := participants[..|participants| - 1];
      var m := participants[|participants| - 1];
      var mid := Turns(cfg, injection, context, st, init);
      TurnsHaveNoRoundDone(cfg, injection, context, st, init);
      if m in cfg.adapters {
        var reply := cfg.call(m, DiscussantPrompt(cfg.adapters[m], injection), TurnInput(context, mid));
        SegmentShape(m, reply);
        NoRoundDoneAppend(mid.events, Segment(m, reply));
        assert Visit(mid, m, reply).events == mid.events + Segment(m, reply);
      }
    }
  }

  /** The user content a participant's backend receives: the context, then the transcript
      of the round so far. */
  function TurnInput(context: string, st: RoundState): string
  {
    context + FormatCurrentRound(st.messages)
  }

  /** The round message `m` stands in `input` as its transcript entry. */
  predicate Heard(input: string, m: RoundMessage)
  {
    exists i :: 0 <= i <= |input| && OccursAt(TranscriptEntry(m), input, i)
  }

  lemma OccursInLonger(w: string, s: string, t: string, i: int)
    requires OccursAt(w, s, i)
    ensures OccursAt(w, s + t, i)
  {
    assert (s + t)[i..i + |w|] == s[i..i + |w|];
  }

  /** Every message of the round so far stands in the input of the next participant as its
      `**speaker**: content` entry, its content in full. */
  lemma {:induction false} TranscriptHoldsAll(context: string, msgs: seq<RoundMessage>)
    ensures forall m :: m in msgs ==> Heard(context + FormatCurrentRound(msgs), m)
  {
    if msgs != [] {
      var init := msgs[..|msgs| - 1];
      var last := msgs[|msgs| - 1];
      assert msgs == init + [last];
      var e := TranscriptEntry(last);
      if init == [] {
        assert FormatCurrentRound(msgs) == e;
        assert (context + e)[|context|..|context| + |e|] == e;
        assert OccursAt(e, context + FormatCurrentRound(msgs), |context|);
      } else {
        var before := context + FormatCurrentRound(init);
        TranscriptHoldsAll(context, init);
        FormatCurrentRoundAppend(init, last);
        assert context + FormatCurrentRound(msgs) == before + ("\n\n" + e);
        forall m | m in init ensures Heard(context + FormatCurrentRound(msgs), m) {
          var i :| OccursAt(TranscriptEntry(m), before, i);
          OccursInLonger(TranscriptEntry(m), before, "\n\n" + e, i);
        }
        var whole := before + "\n\n" + e;
        assert whole == context + FormatCurrentRound(msgs);
        assert whole[|whole| - |e|..] == e;
        assert OccursAt(e, whole, |whole| - |e|);
        assert Heard(whole, last);
        forall m | m in msgs ensures Heard(whole, m) {
          if m != last {
            assert m in init;
          }
        }
      }
    }
  }

  /** Every `model_done` of a run of events announces one of its round messages. */
  lemma {:induction false} DoneMessagesHoldDone(events: seq<Event>)
    ensures forall i :: 0 <= i < |events| && events[i].ModelDone? ==>
              RoundMessage(events[i].model, events[i].fullText) in DoneMessages(events)
  {
    if events != [] {
      var init := events[..|events| - 1];
      DoneMessagesHoldDone(init);
      forall i | 0 <= i < |init| && init[i].ModelDone?
        ensures RoundMessage(events[i].model, events[i].fullText) in DoneMessages(events)
      {
        assert events[i] == init[i];
      }
    }
  }

  /** The participant after the ones that have spoken, `next`, takes its turn on the
      state they left, and its backend's input holds the full text of every earlier
      message: the messages the round started with (the user's) and every reply a
      `model_done` has announced in this round so far. */
  lemma EarlierSpeakersHeard(cfg: Config, injection: Option<string>, context: string, st: RoundState,
                             participants: seq<string>, next: string)
    ensures Turns(cfg, injection, context, st, participants + [next])
            == TurnOf(cfg, injection, context, Turns(cfg, injection, context, st, participants), next)
    ensures forall m :: m in st.messages ==>
              Heard(TurnInput(context, Turns(cfg, injection, context, st, participants)), m)
    ensures forall i :: |st.events| <= i < |Turns(cfg, injection, context, st, participants).events|
                        && Turns(cfg, injection, context, st, participants).events[i].ModelDone? ==>
              Heard(TurnInput(context, Turns(cfg, injection, context, st, participants)),
                    RoundMessage(Turns(cfg, injection, context, st, participants).events[i].model,
                                 Turns(cfg, injection, context, st, participants).events[i].fullText))
  {
    assert (participants + [next])[..|participants|] == participants;
    var before := Turns(cfg, injection, context, st, participants);
    TurnsMessagesAreDone(cfg, injection, context, st, participants);
    HeardAfter(context, st.messages, |st.events|, before);
  }

  /** `EarlierSpeakersHeard` for any state whose messages are `base` followed by the ones
      its events past the first `n` announce. */
  lemma HeardAfter(context: string, base: seq<RoundMessage>, n: nat, before: RoundState)
    requires n <= |before.events| && before.messages == base + DoneMessages(before.events[n..])
    ensures forall m :: m in base ==> Heard(TurnInput(context, before), m)
    ensures forall i :: n <= i < |before.events| && before.events[i].ModelDone? ==>
              Heard(TurnInput(context, before), RoundMessage(before.events[i].model, before.events[i].fullText))
  {
    var later := before.events[n..];
    TranscriptHoldsAll(context, before.messages);
    DoneMessagesHoldDone(later);
    forall i | n <= i < |before.events| && before.events[i].ModelDone?
      ensures RoundMessage(before.events[i].model, before.events[i].fullText) in before.messages
    {
      assert later[i - n] == before.events[i];
    }
  }

  /** The input starts with the context, which ends with the latest-messages header, and the
      transcript follows right after it. */
  lemma ParticipantInputFrame(record: DiscussionRecord, st: RoundState)
    ensures StartsWith(TurnInput(ContextPrompt(record), st), ContextPrompt(record))
    ensures OccursAt(FormatCurrentRound(st.messages), TurnInput(ContextPrompt(record), st), |ContextPrompt(record)|)
    ensures EndsWith(ContextPrompt(record), LatestHeader)
  {
    var c := ContextPrompt(record);
    var t := FormatCurrentRound(st.messages);
    assert (c + t)[..|c|] == c;
    assert (c + t)[|c|..|c| + |t|] == t;
    ContextFrame(record.outline.topic, record.outline.keyDecisions, record.outline.openQuestions,
                 FormatRecentRounds(record));
  }

  // ---------------------------------------------------------------- the recorder

  const JsonAssistantPrompt: string := "你是一个 JSON 输出助手，只输出有效的 JSON。"

  const SummaryLimit: nat := 200
  const Ellipsis: string := "..."
  /** How many rounds the fallback keeps (`slice(-5)`). */
  const FallbackWindow: nat := 5

  /** The transcript handed to the recorder: `speaker: content` entries separated by
      blank lines. */
  function RoundMessagesText(msgs: seq<RoundMessage>): string
  {
    Join(seq(|msgs|, i requires 0 <= i < |msgs| => msgs[i].speaker + ": " + msgs[i].content), "\n\n")
  }

  /** The recorder's prompt for the round, with the default window. */
  function RecorderInput(cfg: Config, record: DiscussionRecord, msgs: seq<RoundMessage>): string
  {
    GetRecorderPrompt(cfg.serialize(record), RoundMessagesText(msgs), DefaultRecentRoundsLimit)
  }

  /** The summary of one message in the fallback: the first 200 characters, with `...`
      after them when the content is longer. */
  function Truncate(s: string): string
  {
    if |s| > SummaryLimit then s[..SummaryLimit] + Ellipsis else s
  }

  /** A content of at most 200 characters is its own summary; a longer one is cut to its
      first 200 characters followed by `...`; so a summary never exceeds 203 characters. */
  lemma TruncateSpec(s: string)
    ensures |Truncate(s)| <= SummaryLimit + |Ellipsis|
    ensures |s| <= SummaryLimit ==> Truncate(s) == s
    ensures |s| > SummaryLimit ==> |Truncate(s)| == SummaryLimit + |Ellipsis|
                                   && Truncate(s)[..SummaryLimit] == s[..SummaryLimit]
                                   && EndsWith(Truncate(s), Ellipsis)
  {
    if |s| > SummaryLimit {
      var r := s[..SummaryLimit] + Ellipsis;
      assert r[..SummaryLimit] == s[..SummaryLimit];
      assert r[|r| - |Ellipsis|..] == Ellipsis;
    }
  }

  /** The speakers of the round other than the user, in order. */
  function ModelSpeakers(msgs: seq<RoundMessage>): seq<string>
  {
    if msgs == [] then []
    else ModelSpeakers(msgs[..|msgs| - 1])
         + (if msgs[|msgs| - 1].speaker != UserSpeaker then [msgs[|msgs| - 1].speaker] else [])
  }

  lemma {:induction false} ModelSpeakersMembers(msgs: seq<RoundMessage>)
    ensures forall s :: s in ModelSpeakers(msgs) <==> s != UserSpeaker && exists i :: 0 <= i < |msgs| && msgs[i].speaker == s
  {
    if msgs != [] {
      var init := msgs[..|msgs| - 1];
      ModelSpeakersMembers(init);
      forall s ensures s in ModelSpeakers(msgs) <==> s != UserSpeaker && exists i :: 0 <= i < |msgs| && msgs[i].speaker == s {
        if s != UserSpeaker && exists i :: 0 <= i < |msgs| && msgs[i].speaker == s {
          var i :| 0 <= i < |msgs| && msgs[i].speaker == s;
          if i < |init| { assert init[i].speaker == s; }
        }
        if s in ModelSpeakers(init) {
          var i :| 0 <= i < |init| && init[i].speaker == s;
          assert msgs[i].speaker == s;
        }
      }
    }
  }

  function SummaryMessages(msgs: seq<RoundMessage>): (r: seq<MessageSummary>)
    ensures |r| == |msgs|
  {
    seq(|msgs|, i requires 0 <= i < |msgs| => MessageSummary(msgs[i].speaker, Truncate(msgs[i].content), []))
  }

  /** The summary the fallback makes of the round. */
  function FallbackRound(msgs: seq<RoundMessage>, roundNumber: nat): RoundSummary
  {
    RoundSummary(roundNumber, ModelSpeakers(msgs), SummaryMessages(msgs), None)
  }

  /** The last `n` elements (`slice(-n)`): the whole list when it is no longer. */
  function LastN<T>(s: seq<T>, n: nat): seq<T>
  {
    if |s| <= n then s else s[|s| - n..]
  }

  /** The record the fallback builds when the recorder fails: the same outline, and the
      new round appended to the window with only the last five kept. */
  function FallbackRecord(record: DiscussionRecord, msgs: seq<RoundMessage>, roundNumber: nat): DiscussionRecord
  {
    record.(recentRounds := LastN(record.recentRounds + [FallbackRound(msgs, roundNumber)], FallbackWindow))
  }

  /** The window part of the fallback: at most five rounds, the new one last, before it
      the tail of the old window that still fits. */
  lemma FallbackWindowSpec(window: seq<RoundSummary>, nr: RoundSummary)
    ensures 1 <= |LastN(window + [nr], FallbackWindow)| <= FallbackWindow
    ensures |LastN(window + [nr], FallbackWindow)|
            == (if |window| < FallbackWindow then |window| + 1 else FallbackWindow)
    ensures var rounds := LastN(window + [nr], FallbackWindow);
            && rounds[|rounds| - 1] == nr
            && rounds[..|rounds| - 1] == window[|window| - (|rounds| - 1)..]
  {
    var all := window + [nr];
    var rounds := LastN(all, FallbackWindow);
    if |all| > FallbackWindow {
      assert rounds == all[|all| - FallbackWindow..];
      assert rounds[..|rounds| - 1] == window[|window| - (|rounds| - 1)..];
    } else {
      assert rounds[..|rounds| - 1] == window;
    }
  }

  /** The new round of the fallback: the non-user speakers and one truncated summary per
      message, with no key points. */
  lemma FallbackRoundSpec(msgs: seq<RoundMessage>, roundNumber: nat)
    ensures FallbackRound(msgs, roundNumber).roundNumber == roundNumber
    ensures FallbackRound(msgs, roundNumber).participants == ModelSpeakers(msgs)
    ensures FallbackRound(msgs, roundNumber).controlCommand.None?
    ensures |FallbackRound(msgs, roundNumber).messages| == |msgs|
    ensures forall i :: 0 <= i < |msgs| ==>
              && FallbackRound(msgs, roundNumber).messages[i].speaker == msgs[i].speaker
              && FallbackRound(msgs, roundNumber).messages[i].summary == Truncate(msgs[i].content)
              && |FallbackRound(msgs, roundNumber).messages[i].summary| <= SummaryLimit + |Ellipsis|
              && FallbackRound(msgs, roundNumber).messages[i].keyPoints == []
  {
    var summaries := SummaryMessages(msgs);
    forall i | 0 <= i < |msgs|
      ensures summaries[i].speaker == msgs[i].speaker && summaries[i].summary == Truncate(msgs[i].content)
      ensures |summaries[i].summary| <= SummaryLimit + |Ellipsis| && summaries[i].keyPoints == []
    {
      TruncateSpec(msgs[i].content);
    }
  }

  /** The fallback keeps the outline, keeps at most five rounds, ends with the new round,
      and keeps every earlier round of the old window that still fits, in order. */
  lemma FallbackRecordSpec(record: DiscussionRecord, msgs: seq<RoundMessage>, roundNumber: nat)
    ensures var r := FallbackRecord(record, msgs, roundNumber);
            var rounds := r.recentRounds;
            && r.outline == record.outline
            && 1 <= |rounds| <= FallbackWindow
            && |rounds| == (if |record.recentRounds| < FallbackWindow then |record.recentRounds| + 1 else FallbackWindow)
            && rounds[|rounds| - 1] == FallbackRound(msgs, roundNumber)
            && rounds[..|rounds| - 1] == record.recentRounds[|record.recentRounds| - (|rounds| - 1)..]
  {
    FallbackWindowSpec(record.recentRounds, FallbackRound(msgs, roundNumber));
  }

  /** Rounds listed with strictly increasing numbers. */
  predicate Ascending(rounds: seq<RoundSummary>)
  {
    forall i, j :: 0 <= i < j < |rounds| ==> rounds[i].roundNumber < rounds[j].roundNumber
  }

  /** When the new round's number exceeds every number in the window, the fallback keeps
      the window in ascending order. */
  lemma FallbackKeepsAscending(record: DiscussionRecord, msgs: seq<RoundMessage>, roundNumber: nat)
    requires Ascending(record.recentRounds)
    requires forall i :: 0 <= i < |record.recentRounds| ==> record.recentRounds[i].roundNumber < roundNumber
    ensures Ascending(FallbackRecord(record, msgs, roundNumber).recentRounds)
  {
    var all := record.recentRounds + [FallbackRound(msgs, roundNumber)];
    assert Ascending(all);
  }

  /** The record after the round: the recorder's reply parsed as a record when the call
      streams to the end and the reply parses, otherwise the fallback. */
  function UpdatedRecord(cfg: Config, record: DiscussionRecord, msgs: seq<RoundMessage>, roundNumber: nat): DiscussionRecord
  {
    var reply := cfg.call(cfg.recorderId, JsonAssistantPrompt, RecorderInput(cfg, record, msgs));
    var parsed := if reply.failure.None? then cfg.parse(Concat(reply.chunks)) else None;
    if parsed.Some? then parsed.value else FallbackRecord(record, msgs, roundNumber)
  }

  /** `updateRecord`: accumulates the recorder's reply chunk by chunk, then parses it; any
      failure of the call, the stream or the parse falls back to the deterministic summary. */
  method UpdateRecord(cfg: Config, record: DiscussionRecord, msgs: seq<RoundMessage>, roundNumber: nat)
    returns (updated: DiscussionRecord)
    ensures updated == UpdatedRecord(cfg, record, msgs, roundNumber)
    ensures var reply := cfg.call(cfg.recorderId, JsonAssistantPrompt, RecorderInput(cfg, record, msgs));
            if reply.failure.None? && cfg.parse(Concat(reply.chunks)).Some?
            then updated == cfg.parse(Concat(reply.chunks)).value
            else updated == FallbackRecord(record, msgs, roundNumber)
  {
    var prompt := RecorderInput(cfg, record, msgs);
    var reply := cfg.call(cfg.recorderId, JsonAssistantPrompt, prompt);
    var responseText := "";
    var j := 0;
    while j < |reply.chunks|
      invariant 0 <= j <= |reply.chunks|
      invariant responseText == Concat(reply.chunks[..j])
    {
      assert reply.chunks[..j + 1][..j] == reply.chunks[..j];
      responseText := responseText + reply.chunks[j];
      j := j + 1;
    }
    assert reply.chunks[..j] == reply.chunks;
    if reply.failure.Some? {
      updated := FallbackRecord(record, msgs, roundNumber);
    } else {
      var parsed := cfg.parse(responseText);
      if parsed.Some? {
        updated := parsed.value;
      } else {
        updated := FallbackRecord(record, msgs, roundNumber);
      }
    }
  }

  // ---------------------------------------------------------------- the round

  /** One pass of `executeRound`'s loop: nothing for an id without an adapter; otherwise
      `model_start`, the backend's chunks as they arrive, and then `model_done` with the
      accumulated text and a new round message, or an `error` naming the model. */
  method TakeTurn(cfg: Config, injection: Option<string>, contextPrompt: string,
                  messages0: seq<RoundMessage>, events0: seq<Event>, modelId: string)
    returns (messages: seq<RoundMessage>, events: seq<Event>)
    ensures RoundState(messages, events) == TurnOf(cfg, injection, contextPrompt, RoundState(messages0, events0), modelId)
  {
    messages, events := messages0, events0;
    if modelId in cfg.adapters {
      events := events + [ModelStart(modelId)];
      var systemPrompt := DiscussantPrompt(cfg.adapters[modelId], injection);
      var reply := cfg.call(modelId, systemPrompt, contextPrompt + FormatCurrentRound(messages));
      var fullText := "";
      var j := 0;
      while j < |reply.chunks|
        invariant 0 <= j <= |reply.chunks|
        invariant fullText == Concat(reply.chunks[..j])
        invariant events == events0 + [ModelStart(modelId)] + ChunkEvents(modelId, reply.chunks[..j])
      {
        assert reply.chunks[..j + 1][..j] == reply.chunks[..j];
        fullText := fullText + reply.chunks[j];
        events := events + [ModelChunk(modelId, reply.chunks[j])];
        j := j + 1;
      }
      assert reply.chunks[..j] == reply.chunks;
      if reply.failure.None? {
        messages := messages + [RoundMessage(modelId, fullText)];
        events := events + [ModelDone(modelId, fullText)];
      } else {
        events := events + [Error(Some(modelId), reply.failure.value)];
      }
      assert events == events0 + Segment(modelId, reply);
    }
  }

  /** `executeRound`: the round messages start with the user's, each participant takes its
      turn in order, streaming its events, then the record is updated once and
      `round_done` closes the events. */
  method ExecuteRound(cfg: Config, userMessage: string, command: ParsedCommand, participants: seq<string>,
                      record: DiscussionRecord, currentRound: nat)
    returns (messages: seq<RoundMessage>, updatedRecord: DiscussionRecord, events: seq<Event>)
    ensures var st := Turns(cfg, command.promptInjection, ContextPrompt(record),
                            RoundState([RoundMessage(UserSpeaker, userMessage)], []), participants);
            && messages == st.messages
            && updatedRecord == UpdatedRecord(cfg, record, st.messages, currentRound)
            && events == st.events + [RoundDone(currentRound, updatedRecord)]
  {
    messages := [RoundMessage(UserSpeaker, userMessage)];
    events := [];
    var contextPrompt := ContextPrompt(record);
    ghost var start := RoundState(messages, events);
    var i := 0;
    while i < |participants|
      invariant 0 <= i <= |participants|
      invariant RoundState(messages, events) == Turns(cfg, command.promptInjection, contextPrompt, start, participants[..i])
    {
      assert participants[..i + 1][..i] == participants[..i];
      messages, events := TakeTurn(cfg, command.promptInjection, contextPrompt, messages, events, participants[i]);
      i := i + 1;
    }
    assert participants[..i] == participants;
    updatedRecord := UpdateRecord(cfg, record, messages, currentRound);
    events := events + [RoundDone(currentRound, updatedRecord)];
  }

  /** What a round promises as a whole: its first message is the user's, its
      `model_start` events follow the participants with an adapter in order, its model
      messages are exactly those of its `model_done` events, and `round_done` (carrying
      the round number and the updated record) is its last event and its only one. */
  lemma RoundSpec(cfg: Config, userMessage: string, injection: Option<string>, participants: seq<string>,
                  record: DiscussionRecord, currentRound: nat)
    ensures var st := Turns(cfg, injection, ContextPrompt(record),
                            RoundState([RoundMessage(UserSpeaker, userMessage)], []), participants);
            var updated := UpdatedRecord(cfg, record, st.messages, currentRound);
            var events := st.events + [RoundDone(currentRound, updated)];
            && |st.messages| >= 1 && st.messages[0] == RoundMessage(UserSpeaker, userMessage)
            && Starts(events) == WithAdapter(participants, cfg.adapters)
            && st.messages[1..] == DoneMessages(events)
            && events[|events| - 1] == RoundDone(currentRound, updated)
            && forall i :: 0 <= i < |events| - 1 ==> !events[i].RoundDone?
  {
    var st0 := RoundState([RoundMessage(UserSpeaker, userMessage)], []);
    var st := Turns(cfg, injection, ContextPrompt(record), st0, participants);
    var updated := UpdatedRecord(cfg, record, st.messages, currentRound);
    var done := RoundDone(currentRound, updated);
    TurnsStartInOrder(cfg, injection, ContextPrompt(record), st0, participants);
    TurnsMessagesAreDone(cfg, injection, ContextPrompt(record), st0, participants);
    assert st.events[0..] == st.events;
    StartsAppend(st.events, [done]);
    DoneMessagesAppend(st.events, [done]);
    assert [done][..0] == [];
    TurnsHaveNoRoundDone(cfg, injection, ContextPrompt(record), st0, participants);
  }
}
