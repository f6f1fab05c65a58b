/**
 * The session table and the Markdown transcript of each session. The sessions file is
 * the `sessions` list and each session's Markdown file is an entry of `markdown`
 * (present exactly when the file exists); reading and writing the files is not modelled.
 */
module Storage {
  import opened Wrappers
  import opened Text
  import opened Types
  import opened RecorderPrompt

  // ---------------------------------------------------------------- list operations

  /** The index of the first session with id `id`, or -1 (`findIndex`). */
  function FirstIndex(sessions: seq<Session>, id: string): (r: int)
    ensures -1 <= r < |sessions|
    ensures r == -1 <==> forall k :: 0 <= k < |sessions| ==> sessions[k].id != id
    ensures r >= 0 ==> sessions[r].id == id && forall k :: 0 <= k < r ==> sessions[k].id != id
  {
    if sessions == [] then -1
    else if sessions[0].id == id then 0
    else
      var r := FirstIndex(sessions[1..], id);
      if r == -1 then -1 else r + 1
  }

  /** The first session with id `id` (`find`). */
  function Find(sessions: seq<Session>, id: string): (r: Option<Session>)
    ensures r.None? <==> forall k :: 0 <= k < |sessions| ==> sessions[k].id != id
    ensures r.Some? ==> exists k :: 0 <= k < |sessions| && sessions[k] == r.value && r.value.id == id
                                    && forall j :: 0 <= j < k ==> sessions[j].id != id
  {
    var k := FirstIndex(sessions, id);
    if k == -1 then None else Some(sessions[k])
  }

  /** The list with its first session of id `session.id` replaced by `session`. */
  function ReplaceFirst(sessions: seq<Session>, session: Session): seq<Session>
  {
    var k := FirstIndex(sessions, session.id);
    if k == -1 then sessions else sessions[k := session]
  }

  /** Replacing keeps the length and every other entry; only the first entry with the id
      changes, to the given session; with no such entry nothing changes. A session found
      afterwards under that id is the given one. */
  lemma ReplaceFirstSpec(sessions: seq<Session>, session: Session)
    ensures |ReplaceFirst(sessions, session)| == |sessions|
    ensures var k := FirstIndex(sessions, session.id);
            forall j :: 0 <= j < |sessions| && j != k ==> ReplaceFirst(sessions, session)[j] == sessions[j]
    ensures var k := FirstIndex(sessions, session.id);
            k >= 0 ==> ReplaceFirst(sessions, session)[k] == session
    ensures (forall j :: 0 <= j < |sessions| ==> sessions[j].id != session.id) ==> ReplaceFirst(sessions, session) == sessions
    ensures Find(sessions, session.id).Some? ==> Find(ReplaceFirst(sessions, session), session.id) == Some(session)
  {
    var k := FirstIndex(sessions, session.id);
    if k >= 0 {
      var r := sessions[k := session];
      assert r[k].id == session.id;
      assert forall j :: 0 <= j < k ==> r[j] == sessions[j];
      assert FirstIndex(r, session.id) == k;
    }
  }

  /** The list without any session of id `id`, in order (`filter`). */
  function RemoveId(sessions: seq<Session>, id: string): seq<Session>
  {
    if sessions == [] then []
    else (if sessions[0].id != id then [sessions[0]] else []) + RemoveId(sessions[1..], id)
  }

  /** A session is kept exactly when it is in the list and has another id. */
  lemma {:induction false} RemoveIdMembers(sessions: seq<Session>, id: string)
    ensures forall s :: s in RemoveId(sessions, id) <==> s in sessions && s.id != id
  {
    if sessions != [] {
      RemoveIdMembers(sessions[1..], id);
      assert sessions == [sessions[0]] + sessions[1..];
    }
  }

  /** Deleting never lengthens the list, and changes nothing when no session has the id. */
  lemma {:induction false} RemoveIdLength(sessions: seq<Session>, id: string)
    ensures |RemoveId(sessions, id)| <= |sessions|
    ensures (forall k :: 0 <= k < |sessions| ==> sessions[k].id != id) ==> RemoveId(sessions, id) == sessions
  {
    if sessions != [] {
      var tail := sessions[1..];
      RemoveIdLength(tail, id);
      if forall k :: 0 <= k < |sessions| ==> sessions[k].id != id {
        forall k | 0 <= k < |tail| ensures tail[k].id != id {
          assert tail[k] == sessions[k + 1];
        }
        assert [sessions[0]] + tail == sessions;
      }
    }
  }

  /** Deleting from a concatenation deletes from each part, so the kept sessions stay in
      their order and keep their multiplicity. */
  lemma {:induction false} RemoveIdAppend(a: seq<Session>, b: seq<Session>, id: string)
    ensures RemoveId(a + b, id) == RemoveId(a, id) + RemoveId(b, id)
  {
    if a == [] {
      assert a + b == b;
    } else {
      assert (a + b)[1..] == a[1..] + b;
      RemoveIdAppend(a[1..], b, id);
    }
  }

  /** Deleting keeps exactly the sessions with another id, in their order: the deletion
      from any split of the list is the deletion from its front followed by the one from
      its back, and one session is kept exactly when its id differs. It never lengthens
      the list, is a no-op when the id is absent, and leaves no session of that id. */
  lemma RemoveIdSpec(sessions: seq<Session>, id: string)
    ensures forall k :: 0 <= k <= |sessions| ==>
              RemoveId(sessions, id) == RemoveId(sessions[..k], id) + RemoveId(sessions[k..], id)
    ensures forall s: Session :: RemoveId([s], id) == if s.id != id then [s] else []
    ensures forall s :: s in RemoveId(sessions, id) <==> s in sessions && s.id != id
    ensures |RemoveId(sessions, id)| <= |sessions|
    ensures (forall k :: 0 <= k < |sessions| ==> sessions[k].id != id) ==> RemoveId(sessions, id) == sessions
    ensures Find(RemoveId(sessions, id), id).None?
  {
    forall k | 0 <= k <= |sessions|
      ensures RemoveId(sessions, id) == RemoveId(sessions[..k], id) + RemoveId(sessions[k..], id)
    {
      assert sessions == sessions[..k] + sessions[k..];
      RemoveIdAppend(sessions[..k], sessions[k..], id);
    }
    forall s: Session ensures RemoveId([s], id) == if s.id != id then [s] else [] {
      assert [s][1..] == [];
    }
    RemoveIdMembers(sessions, id);
    RemoveIdLength(sessions, id);
    var r := RemoveId(sessions, id);
    forall k | 0 <= k < |r| ensures r[k].id != id {
      assert r[k] in r;
    }
  }

  /** Deleting twice is deleting once. */
  lemma {:induction false} RemoveIdIdempotent(sessions: seq<Session>, id: string)
    ensures RemoveId(RemoveId(sessions, id), id) == RemoveId(sessions, id)
  {
    var r := RemoveId(sessions, id);
    RemoveIdSpec(sessions, id);
    assert forall k :: 0 <= k < |r| ==> r[k].id != id by {
      forall k | 0 <= k < |r| ensures r[k].id != id {
        assert r[k] in r;
      }
    }
    RemoveIdSpec(r, id);
  }

  // ---------------------------------------------------------------- Markdown text

  const UserLabel: string := "👤 用户"
  const ModelLabelPrefix: string := "🤖 "
  const SummaryPrefix: string := "> 📝 **本轮摘要**："
  const KeyPointSeparator: string := "；"
  const Footer: string := "\n---\n"

  /** The first lines of a session's Markdown file; `createdAtText` is the creation time
      as the server's locale renders it. */
  function MarkdownHeader(title: string, createdAtText: string): string
  {
    "# 讨论：" + title + "\n\n创建时间：" + createdAtText + "\n\n---\n\n"
  }

  function RoundHeader(roundNumber: nat): string
  {
    "\n## Round " + NatToString(roundNumber) + "\n\n"
  }

  /** The bold label of a speaker: the user, or the upper-cased model id. */
  function SpeakerLabel(speaker: string): string
  {
    if speaker == "user" then UserLabel else ModelLabelPrefix + ToUpper(speaker)
  }

  function MessageBlock(m: RoundMessage): string
  {
    "**" + SpeakerLabel(m.speaker) + "**\n\n" + m.content + "\n\n"
  }

  function MessageBlocks(msgs: seq<RoundMessage>): (r: seq<string>)
    ensures |r| == |msgs|
  {
    seq(|msgs|, i requires 0 <= i < |msgs| => MessageBlock(msgs[i]))
  }

  /** The blocks of the messages, in order. */
  function MessagesMarkdown(msgs: seq<RoundMessage>): string
  {
    Concat(MessageBlocks(msgs))
  }

  /** The text of a list of messages is the text of its first part followed by the text of
      the rest, so every message's block stands in order. */
  lemma MessagesMarkdownAppend(a: seq<RoundMessage>, b: seq<RoundMessage>)
    ensures MessagesMarkdown(a + b) == MessagesMarkdown(a) + MessagesMarkdown(b)
  {
    assert MessageBlocks(a + b) == MessageBlocks(a) + MessageBlocks(b);
    ConcatAppend(MessageBlocks(a), MessageBlocks(b));
  }

  lemma MessageBlocksStep(msgs: seq<RoundMessage>, i: nat)
    requires i < |msgs|
    ensures MessageBlocks(msgs[..i + 1]) == MessageBlocks(msgs[..i]) + [MessageBlock(msgs[i])]
  {
  }

  /** One more message adds its block at the end. */
  lemma MessagesMarkdownStep(msgs: seq<RoundMessage>, i: nat)
    requires i < |msgs|
    ensures MessagesMarkdown(msgs[..i + 1]) == MessagesMarkdown(msgs[..i]) + MessageBlock(msgs[i])
  {
    MessageBlocksStep(msgs, i);
    ConcatSnoc(MessageBlocks(msgs[..i]), MessageBlock(msgs[i]));
  }

  /** The first round of the window with that number. */
  function FindRound(rounds: seq<RoundSummary>, roundNumber: nat): (r: Option<RoundSummary>)
    ensures r.None? <==> forall k :: 0 <= k < |rounds| ==> rounds[k].roundNumber != roundNumber
    ensures r.Some? ==> r.value in rounds && r.value.roundNumber == roundNumber
  {
    if rounds == [] then None
    else if rounds[0].roundNumber == roundNumber then Some(rounds[0])
    else FindRound(rounds[1..], roundNumber)
  }

  /** All key points of a round's messages, in order. */
  function KeyPoints(msgs: seq<MessageSummary>): seq<string>
  {
    if msgs == [] then [] else KeyPoints(msgs[..|msgs| - 1]) + msgs[|msgs| - 1].keyPoints
  }

  function Summaries(msgs: seq<MessageSummary>): (r: seq<string>)
    ensures |r| == |msgs|
  {
    seq(|msgs|, i requires 0 <= i < |msgs| => msgs[i].summary)
  }

  /** The text of the summary line: the key points when there are any, otherwise the
      messages' summaries. */
  function SummaryBody(round: RoundSummary): string
  {
    var points := KeyPoints(round.messages);
    if |points| > 0 then Join(points, KeyPointSeparator) else Join(Summaries(round.messages), " ")
  }

  /** The summary line of the round, when the record has a round with its number. */
  function SummaryLine(record: DiscussionRecord, roundNumber: nat): string
  {
    match FindRound(record.recentRounds, roundNumber)
    case None => ""
    case Some(round) => SummaryPrefix + SummaryBody(round) + "\n"
  }

  /** The block appended to the Markdown file after a round. */
  function RoundBlock(roundNumber: nat, msgs: seq<RoundMessage>, record: DiscussionRecord): string
  {
    RoundHeader(roundNumber) + MessagesMarkdown(msgs) + SummaryLine(record, roundNumber) + Footer
  }

  /** Every message contributes one block, so the messages' text stands at the start of the
      block list, followed by the rest; a message list with no key points anywhere in the
      round falls back to the summaries. */
  lemma {:induction false} KeyPointsEmpty(msgs: seq<MessageSummary>)
    ensures KeyPoints(msgs) == [] <==> forall k :: 0 <= k < |msgs| ==> msgs[k].keyPoints == []
  {
    if msgs != [] {
      KeyPointsEmpty(msgs[..|msgs| - 1]);
      assert forall k :: 0 <= k < |msgs| - 1 ==> msgs[..|msgs| - 1][k] == msgs[k];
    }
  }

  /** The block opens with the round header and closes with the rule; it holds a summary
      line exactly when the record has a round with that number, whose body is the key
      points joined with `；` when any message has some, otherwise the summaries joined
      with spaces. */
  lemma RoundBlockShape(roundNumber: nat, msgs: seq<RoundMessage>, record: DiscussionRecord)
    ensures StartsWith(RoundBlock(roundNumber, msgs, record), RoundHeader(roundNumber) + MessagesMarkdown(msgs))
    ensures EndsWith(RoundBlock(roundNumber, msgs, record), Footer)
    ensures SummaryLine(record, roundNumber) != "" <==>
              exists k :: 0 <= k < |record.recentRounds| && record.recentRounds[k].roundNumber == roundNumber
    ensures FindRound(record.recentRounds, roundNumber).Some? ==>
              var round := FindRound(record.recentRounds, roundNumber).value;
              && SummaryLine(record, roundNumber) == SummaryPrefix + SummaryBody(round) + "\n"
              && ((exists k :: 0 <= k < |round.messages| && round.messages[k].keyPoints != []) ==>
                    SummaryBody(round) == Join(KeyPoints(round.messages), KeyPointSeparator))
              && ((forall k :: 0 <= k < |round.messages| ==> round.messages[k].keyPoints == []) ==>
                    SummaryBody(round) == Join(Summaries(round.messages), " "))
  {
    var b := RoundBlock(roundNumber, msgs, record);
    var h := RoundHeader(roundNumber) + MessagesMarkdown(msgs);
    assert b == h + (SummaryLine(record, roundNumber) + Footer);
    assert b[..|h|] == h;
    assert b[|b| - |Footer|..] == Footer;
    match FindRound(record.recentRounds, roundNumber)
    case None =>
    case Some(round) =>
      KeyPointsEmpty(round.messages);
      assert |SummaryLine(record, roundNumber)| > 0;
  }

  /** `appendRoundToMarkdown`'s text: the header, then one block per message built up in
      order, then the summary line and the closing rule. */
  method RoundMarkdown(roundNumber: nat, msgs: seq<RoundMessage>, record: DiscussionRecord) returns (content: string)
    ensures content == RoundBlock(roundNumber, msgs, record)
  {
    var header := RoundHeader(roundNumber);
    content := header;
    var i := 0;
    assert MessageBlocks(msgs[..0]) == [];
    while i < |msgs|
      invariant 0 <= i <= |msgs|
      invariant content == header + MessagesMarkdown(msgs[..i])
    {
      var m := msgs[i];
      var speaker := SpeakerLabel(m.speaker);
      var block := "**" + speaker + "**\n\n" + m.content + "\n\n";
      assert block == MessageBlock(msgs[i]);
      MessagesMarkdownStep(msgs, i);
      content := content + block;
      i := i + 1;
    }
    assert msgs[..i] == msgs;
    assert content == header + MessagesMarkdown(msgs);
    var current := FindRound(record.recentRounds, roundNumber);
    var summary := "";
    if current.Some? {
      summary := SummaryPrefix;
      var points := KeyPoints(current.value.messages);
      if |points| > 0 {
        summary := summary + Join(points, KeyPointSeparator);
      } else {
        summary := summary + Join(Summaries(current.value.messages), " ");
      }
      summary := summary + "\n";
    }
    assert summary == SummaryLine(record, roundNumber);
    content := content + summary;
    content := content + Footer;
  }

  // ---------------------------------------------------------------- the store

  class SessionStore {
    /** The sessions, in creation order. */
    var sessions: seq<Session>
    /** The Markdown text of each session that has a Markdown file. */
    var markdown: map<string, string>

    constructor()
      ensures sessions == [] && markdown == map[]
    {
      sessions := [];
      markdown := map[];
    }

    /** `createSession`: a new session with a fresh id, round 0 and the empty record for
        its title, appended at the end; its Markdown file starts with the header. The id
        and the two renderings of the creation time are inputs. */
    method CreateSession(title: string, id: string, createdAt: string, createdAtText: string) returns (session: Session)
      modifies this
      ensures session == Session(id, title, createdAt, CreateEmptyRecord(title), 0)
      ensures sessions == old(sessions) + [session]
      ensures markdown == old(markdown)[id := MarkdownHeader(title, createdAtText)]
    {
      session := Session(id, title, createdAt, CreateEmptyRecord(title), 0);
      sessions := sessions + [session];
      markdown := markdown[id := MarkdownHeader(title, createdAtText)];
    }

    /** `getSession`: the first session with that id. */
    function GetSession(id: string): (r: Option<Session>)
      reads this
      ensures r.None? <==> forall k :: 0 <= k < |sessions| ==> sessions[k].id != id
      ensures r.Some? ==> r.value.id == id && r.value in sessions
    {
      Find(sessions, id)
    }

    /** The index of the first session with that id, or -1. */
    method FindIndex(id: string) returns (index: int)
      ensures index == FirstIndex(sessions, id)
    {
      index := 0;
      while index < |sessions|
        invariant 0 <= index <= |sessions|
        invariant forall k :: 0 <= k < index ==> sessions[k].id != id
      {
        if sessions[index].id == id {
          return;
        }
        index := index + 1;
      }
      index := -1;
    }

    /** `updateSession`: the first session with the same id is replaced; without one,
        nothing changes. */
    method UpdateSession(session: Session)
      modifies this
      ensures sessions == ReplaceFirst(old(sessions), session)
      ensures markdown == old(markdown)
    {
      var index := FindIndex(session.id);
      if index != -1 {
        sessions := sessions[index := session];
      }
    }

    /** `deleteSession`: every session with that id goes, the others stay in order, and
        the session's Markdown file is removed. */
    method DeleteSession(id: string)
      modifies this
      ensures sessions == RemoveId(old(sessions), id)
      ensures markdown == old(markdown) - {id}
    {
      sessions := RemoveId(sessions, id);
      markdown := markdown - {id};
    }

    /** `appendRoundToMarkdown`: the round's block is appended to the session's Markdown
        file when that file exists. */
    method AppendRoundToMarkdown(sessionId: string, roundNumber: nat, msgs: seq<RoundMessage>, record: DiscussionRecord)
      modifies this
      ensures sessions == old(sessions)
      ensures markdown == if sessionId in old(markdown)
                          then old(markdown)[sessionId := old(markdown)[sessionId] + RoundBlock(roundNumber, msgs, record)]
                          else old(markdown)
    {
      if sessionId in markdown {
        var content := RoundMarkdown(roundNumber, msgs, record);
        markdown := markdown[sessionId := markdown[sessionId] + content];
      }
    }

    /** `getMarkdownContent`: the session's Markdown text, or empty without a file. */
    function GetMarkdownContent(sessionId: string): (r: string)
      reads this
      ensures sessionId in markdown ==> r == markdown[sessionId]
      ensures sessionId !in markdown ==> r == ""
    {
      if sessionId in markdown then markdown[sessionId] else ""
    }
  }
}
