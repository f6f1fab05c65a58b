/**
 * The recorder's instruction prompt, a template around the serialised record and the
 * round transcript, and the empty discussion record a session starts with.
 */
module RecorderPrompt {
  import opened Text
  import opened Types

  /** The window size the prompt asks the recorder to keep when no other is given. */
  const DefaultRecentRoundsLimit: nat := 5

  const Intro: string := "你是本次头脑风暴的记录员。你的任务是在每轮讨论结束后更新讨论记录。\n\n当前讨论记录：\n"
  const TranscriptHeader: string := "\n\n本轮所有发言：\n"
  const RulesHeader: string :=
    "\n\n请根据本轮讨论更新记录，输出更新后的完整 JSON。规则：\n" +
    "1. outline.topic: 如果是新话题则更新，否则保持\n" +
    "2. outline.keyDecisions: 记录已形成共识的结论\n" +
    "3. outline.openQuestions: 记录尚未解决或有争议的问题\n" +
    "4. outline.directionChanges: 记录讨论方向的重大转变\n"

  /** Rule 5: keep the most recent `limit` rounds. */
  function KeepRule(limit: nat): string
  {
    "5. recentRounds: 保留最近 " + NatToString(limit) + " 轮，新增本轮摘要\n"
  }

  /** Rule 6: fold the oldest round into the outline beyond `limit` rounds. */
  function FoldRule(limit: nat): string
  {
    "6. 如果 recentRounds 超出 " + NatToString(limit) + " 轮，将最早的一轮要点合并进 outline\n"
  }

  const Closing: string :=
    "7. 每条发言摘要控制在 1-3 句话，提取核心观点\n\n" +
    "请只输出有效的 JSON，不要有其他内容，不要用 markdown 代码块包裹。"

  /** The recorder prompt. `recordJson` is the record as the serialiser wrote it. */
  function GetRecorderPrompt(recordJson: string, roundMessages: string, limit: nat): string
  {
    Intro + recordJson + TranscriptHeader + roundMessages + RulesHeader + KeepRule(limit) + FoldRule(limit) + Closing
  }

  /** Where each piece of an eight-piece concatenation stands. */
  lemma PiecesAt(a: string, b: string, c: string, d: string, e: string, f: string, g: string, h: string)
    ensures var p := a + b + c + d + e + f + g + h;
            && StartsWith(p, a)
            && OccursAt(b, p, |a|)
            && OccursAt(c + d, p, |a| + |b|)
            && OccursAt(d, p, |a| + |b| + |c|)
            && OccursAt(f, p, |a| + |b| + |c| + |d| + |e|)
            && OccursAt(g, p, |a| + |b| + |c| + |d| + |e| + |f|)
            && EndsWith(p, h)
  {
    var p := a + b + c + d + e + f + g + h;
    var i := |a| + |b| + |c| + |d| + |e|;
    assert p[..|a|] == a;
    assert p[|a|..|a| + |b|] == b;
    assert p[|a| + |b|..|a| + |b| + |c| + |d|] == c + d;
    assert p[|a| + |b| + |c|..|a| + |b| + |c| + |d|] == d;
    assert p[i..i + |f|] == f;
    assert p[i + |f|..i + |f| + |g|] == g;
    assert p[|p| - |h|..] == h;
  }

  /** The serialised record and the transcript stand verbatim in the prompt, each right
      after its header, and the window size appears in rules 5 and 6. */
  lemma RecorderPromptEmbeds(recordJson: string, roundMessages: string, limit: nat)
    ensures var p := GetRecorderPrompt(recordJson, roundMessages, limit);
            var t := |Intro| + |recordJson| + |TranscriptHeader|;
            && StartsWith(p, Intro)
            && OccursAt(recordJson, p, |Intro|)
            && OccursAt(TranscriptHeader + roundMessages, p, |Intro| + |recordJson|)
            && OccursAt(roundMessages, p, t)
            && OccursAt(KeepRule(limit), p, t + |roundMessages| + |RulesHeader|)
            && OccursAt(FoldRule(limit), p, t + |roundMessages| + |RulesHeader| + |KeepRule(limit)|)
            && EndsWith(p, Closing)
  {
    PiecesAt(Intro, recordJson, TranscriptHeader, roundMessages, RulesHeader, KeepRule(limit), FoldRule(limit), Closing);
  }

  /** The prompt with the default window names five rounds in both rules. */
  lemma DefaultLimitRules()
    ensures KeepRule(DefaultRecentRoundsLimit) == "5. recentRounds: 保留最近 5 轮，新增本轮摘要\n"
    ensures FoldRule(DefaultRecentRoundsLimit) == "6. 如果 recentRounds 超出 5 轮，将最早的一轮要点合并进 outline\n"
  {
  }

  /** The topic a record starts with when none is given. */
  const DefaultTopic: string := ""

  /** The initial record of a discussion about `topic` (by default, no topic). */
  function CreateEmptyRecord(topic: string := DefaultTopic): (r: DiscussionRecord)
    ensures r.outline.topic == topic
    ensures r.outline.keyDecisions == [] && r.outline.openQuestions == [] && r.outline.directionChanges == []
    ensures r.recentRounds == []
  {
    DiscussionRecord(Outline(topic, [], [], []), [])
  }

  /** Without a topic, the record starts with the empty one. */
  lemma DefaultRecordHasNoTopic()
    ensures CreateEmptyRecord().outline.topic == ""
    ensures CreateEmptyRecord() == CreateEmptyRecord("")
  {
  }
}
