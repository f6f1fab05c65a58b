/**
 * The client's chat state: the message list, the record, the loading flag, the current
 * speaker and the per-model stream buffers, and how each pushed event changes them.
 * The per-event changes are a pure reducer; the hook holding the state is a class whose
 * callbacks apply it.
 */
module UseChat {
  import opened Wrappers
  import opened Text
  import opened Types

  const UserId: string := "user"
  const ErrorPrefix: string := "⚠️ 错误: "

  /** The hook's state. `buffers` is the per-send dictionary of stream buffers. */
  datatype ClientState = ClientState(
    messages: seq<ChatMessage>,
    record: Option<DiscussionRecord>,
    isLoading: bool,
    speaker: Option<string>,
    buffers: map<string, string>)

  /** The message is `model`'s and still streaming: the ones an update of `model` touches. */
  predicate StreamingOf(msg: ChatMessage, model: string)
  {
    msg.speaker == model && msg.isStreaming
  }

  /** Every streaming message of `model` gets `content` and the streaming flag `streaming`;
      every other message stays as it is. */
  function Settle(msgs: seq<ChatMessage>, model: string, content: string, streaming: bool): (r: seq<ChatMessage>)
    ensures |r| == |msgs|
  {
    seq(|msgs|, i requires 0 <= i < |msgs| =>
      if StreamingOf(msgs[i], model) then msgs[i].(content := content, isStreaming := streaming) else msgs[i])
  }

  /** No message of `model` is streaming. */
  predicate Quiet(msgs: seq<ChatMessage>, model: string)
  {
    forall i :: 0 <= i < |msgs| ==> !StreamingOf(msgs[i], model)
  }

  /** The buffer of `model`, empty when it has none. */
  function BufferOf(buffers: map<string, string>, model: string): string
  {
    if model in buffers then buffers[model] else ""
  }

  /** The effect of one pushed event. */
  function Reduce(st: ClientState, e: Event): ClientState
  {
    match e
    case ModelStart(m) =>
      st.(speaker := Some(m), buffers := st.buffers[m := ""], messages := st.messages + [ChatMessage(m, "", true)])
    case ModelChunk(m, t) =>
      var b := BufferOf(st.buffers, m) + t;
      st.(buffers := st.buffers[m := b], messages := Settle(st.messages, m, b, true))
    case ModelDone(m, f) =>
      st.(messages := Settle(st.messages, m, f, false), speaker := None)
    case RoundDone(_, r) =>
      st.(record := Some(r))
    case Error(model, err) =>
      if model.Some? && model.value != "" then st.(messages := Settle(st.messages, model.value, ErrorPrefix + err, false))
      else st
  }

  /** The events of `events`, in order. */
  function ReduceAll(st: ClientState, events: seq<Event>): ClientState
  {
    if events == [] then st else Reduce(ReduceAll(st, events[..|events| - 1]), events[|events| - 1])
  }

  lemma {:induction false} ReduceAllAppend(st: ClientState, a: seq<Event>, b: seq<Event>)
    ensures ReduceAll(st, a + b) == ReduceAll(ReduceAll(st, a), b)
  {
    if b == [] {
      assert a + b == a;
    } else {
      assert (a + b)[..|a + b| - 1] == a + b[..|b| - 1];
      ReduceAllAppend(st, a, b[..|b| - 1]);
    }
  }

  /** Settling leaves every message that is not a streaming one of `model` untouched, and
      only content and flag of the others change; a settle that turns streaming off leaves
      no streaming message of `model`. */
  lemma SettleSpec(msgs: seq<ChatMessage>, model: string, content: string, streaming: bool)
    ensures var r := Settle(msgs, model, content, streaming);
            && (forall i :: 0 <= i < |msgs| && !StreamingOf(msgs[i], model) ==> r[i] == msgs[i])
            && (forall i :: 0 <= i < |msgs| && StreamingOf(msgs[i], model) ==>
                  r[i].speaker == model && r[i].content == content && r[i].isStreaming == streaming)
            && (!streaming ==> Quiet(r, model))
  {
  }

  /** With nothing of `model` streaming, settling it changes nothing. */
  lemma SettleQuiet(msgs: seq<ChatMessage>, model: string, content: string, streaming: bool)
    requires Quiet(msgs, model)
    ensures Settle(msgs, model, content, streaming) == msgs
  {
  }

  /** A later settle of the same model overrides an earlier one that kept it streaming:
      the chunks' running contents are replaced by the final text. */
  lemma SettleOverride(msgs: seq<ChatMessage>, model: string, a: string, b: string, streaming: bool)
    ensures Settle(Settle(msgs, model, a, true), model, b, streaming) == Settle(msgs, model, b, streaming)
  {
  }

  /** Settling a list with one more message settles the list, then that message. */
  lemma SettleSnoc(msgs: seq<ChatMessage>, m: ChatMessage, model: string, content: string, streaming: bool)
    ensures Settle(msgs + [m], model, content, streaming)
            == Settle(msgs, model, content, streaming) + Settle([m], model, content, streaming)
  {
  }

  /** Only `model_start` adds a message, exactly one; every other event keeps the number of
      messages; `round_done` touches nothing but the record, and an error without a model
      changes nothing at all. No error clears the current speaker. */
  lemma ReduceShape(st: ClientState, e: Event)
    ensures var r := Reduce(st, e);
            && |r.messages| == |st.messages| + (if e.ModelStart? then 1 else 0)
            && (e.RoundDone? ==> r == st.(record := Some(e.record)))
            && (e.Error? && (e.errorModel.None? || e.errorModel.value == "") ==> r == st)
            && (e.Error? ==> r.speaker == st.speaker)
            && (!e.RoundDone? ==> r.record == st.record)
            && r.isLoading == st.isLoading
  {
  }

  /** A `model_start` puts an empty streaming placeholder for the model at the end, makes it
      the speaker and empties its buffer; the earlier messages stay. */
  lemma StartAppendsPlaceholder(st: ClientState, m: string)
    ensures var r := Reduce(st, ModelStart(m));
            && r.messages[..|st.messages|] == st.messages
            && r.messages[|st.messages|] == ChatMessage(m, "", true)
            && r.speaker == Some(m) && BufferOf(r.buffers, m) == ""
  {
  }

  /** A chunk grows the model's buffer by its text, and every streaming message of the model
      then shows the whole buffer. */
  lemma ChunkShowsBuffer(st: ClientState, m: string, t: string)
    ensures var r := Reduce(st, ModelChunk(m, t));
            && BufferOf(r.buffers, m) == BufferOf(st.buffers, m) + t
            && (forall i :: 0 <= i < |r.messages| && StreamingOf(st.messages[i], m) ==>
                  r.messages[i].content == BufferOf(r.buffers, m) && r.messages[i].isStreaming)
            && (forall i :: 0 <= i < |r.messages| && !StreamingOf(st.messages[i], m) ==> r.messages[i] == st.messages[i])
  {
  }

  /** After `model_done` or an error naming the model, nothing of that model is streaming. */
  lemma ClosedAfterDoneOrError(st: ClientState, e: Event)
    requires e.ModelDone? || (e.Error? && e.errorModel.Some? && e.errorModel.value != "")
    ensures Quiet(Reduce(st, e).messages, if e.ModelDone? then e.model else e.errorModel.value)
  {
    if e.ModelDone? {
      SettleSpec(st.messages, e.model, e.fullText, false);
    } else {
      SettleSpec(st.messages, e.errorModel.value, ErrorPrefix + e.error, false);
    }
  }

  /** The state of a hook before the first message. */
  const Initial: ClientState := ClientState([], None, false, None, map[])

  /** The hook. `sessionId` is the session it sends to (`None` when no session is chosen). */
  class ChatHook {
    var sessionId: Option<string>
    var messages: seq<ChatMessage>
    var record: Option<DiscussionRecord>
    var isLoading: bool
    var currentSpeaker: Option<string>
    var streaming: map<string, string>

    function State(): ClientState
      reads this
    {
      ClientState(messages, record, isLoading, currentSpeaker, streaming)
    }

    constructor(sessionId: Option<string>)
      ensures this.sessionId == sessionId && State() == Initial
    {
      this.sessionId := sessionId;
      messages := [];
      record := None;
      isLoading := false;
      currentSpeaker := None;
      streaming := map[];
    }

    /** `send`: nothing without a session or with blank text; otherwise loading starts, the
        text is appended as the user's message as typed, and the stream buffers start empty. */
    method Send(text: string) returns (sent: bool)
      modifies this
      ensures sent <==> sessionId.Some? && sessionId.value != "" && Trim(text) != ""
      ensures !sent ==> State() == old(State())
      ensures sent ==> State() == old(State()).(isLoading := true, buffers := map[],
                                                messages := old(messages) + [ChatMessage(UserId, text, false)])
      ensures sessionId == old(sessionId)
    {
      if sessionId.None? || sessionId.value == "" || Trim(text) == "" {
        return false;
      }
      isLoading := true;
      messages := messages + [ChatMessage(UserId, text, false)];
      streaming := map[];
      sent := true;
    }

    /** The event callback. */
    method OnEvent(e: Event)
      modifies this
      ensures State() == Reduce(old(State()), e)
      ensures sessionId == old(sessionId)
    {
      match e {
        case ModelStart(m) =>
          currentSpeaker := Some(m);
          streaming := streaming[m := ""];
          messages := messages + [ChatMessage(m, "", true)];
        case ModelChunk(m, t) =>
          var b := BufferOf(streaming, m) + t;
          streaming := streaming[m := b];
          messages := Settle(messages, m, b, true);
        case ModelDone(m, f) =>
          messages := Settle(messages, m, f, false);
          currentSpeaker := None;
        case RoundDone(_, r) =>
          record := Some(r);
        case Error(model, err) =>
          if model.Some? && model.value != "" {
            messages := Settle(messages, model.value, ErrorPrefix + err, false);
          }
      }
    }

    /** The error callback: loading ends and nobody is speaking. */
    method OnError()
      modifies this
      ensures State() == old(State()).(isLoading := false, speaker := None)
      ensures sessionId == old(sessionId)
    {
      isLoading := false;
      currentSpeaker := None;
    }

    /** The completion callback: the same as the error callback. */
    method OnComplete()
      modifies this
      ensures State() == old(State()).(isLoading := false, speaker := None)
      ensures sessionId == old(sessionId)
    {
      isLoading := false;
      currentSpeaker := None;
    }

    /** `clearMessages`: no messages and no record; loading and speaker stay. */
    method ClearMessages()
      modifies this
      ensures State() == old(State()).(messages := [], record := None)
      ensures sessionId == old(sessionId)
    {
      messages := [];
      record := None;
    }
  }
}
