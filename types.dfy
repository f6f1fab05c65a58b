/**
 * The data model shared by the server and the client: the discussion record with its
 * outline and sliding window of round summaries, the raw round messages, parsed
 * commands, sessions, the client's chat messages, and the events of the push protocol.
 * Timestamps are not modelled.
 */
module Types {
  import opened Wrappers

  datatype Outline = Outline(
    topic: string,
    keyDecisions: seq<string>,
    openQuestions: seq<string>,
    directionChanges: seq<string>)

  /** One message of a round summary. */
  datatype MessageSummary = MessageSummary(speaker: string, summary: string, keyPoints: seq<string>)

  datatype RoundSummary = RoundSummary(
    roundNumber: nat,
    participants: seq<string>,
    messages: seq<MessageSummary>,
    controlCommand: Option<string>)

  datatype DiscussionRecord = DiscussionRecord(outline: Outline, recentRounds: seq<RoundSummary>)

  /** A raw utterance of a round: the user's turn or one participant's full text. */
  datatype RoundMessage = RoundMessage(speaker: string, content: string)

  datatype CommandType = All | Deep | Challenge | Summary | Skip | Direct | Normal

  datatype ParsedCommand = ParsedCommand(
    kind: CommandType,
    content: string,
    targetModel: Option<string>,
    promptInjection: Option<string>)

  datatype Session = Session(
    id: string,
    title: string,
    createdAt: string,
    record: DiscussionRecord,
    currentRound: nat)

  /** A message as the client shows it (its generated id and timestamp are not modelled). */
  datatype ChatMessage = ChatMessage(speaker: string, content: string, isStreaming: bool)

  /** The events of one round, in the order the server writes them. */
  datatype Event =
    | ModelStart(model: string)
    | ModelChunk(model: string, text: string)
    | ModelDone(model: string, fullText: string)
    | Error(errorModel: Option<string>, error: string)
    | RoundDone(roundId: nat, record: DiscussionRecord)

  /** The `event:` name the server writes for an event. */
  function EventName(e: Event): (r: string)
    ensures r != [] && forall i :: 0 <= i < |r| ==> ('a' <= r[i] <= 'z' || r[i] == '_')
  {
    match e
    case ModelStart(_) => "model_start"
    case ModelChunk(_, _) => "model_chunk"
    case ModelDone(_, _) => "model_done"
    case Error(_, _) => "error"
    case RoundDone(_, _) => "round_done"
  }
}
