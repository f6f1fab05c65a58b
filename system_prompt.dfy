/**
 * The discussant system prompt, the prompt injections of the control commands and the
 * context prompt every participant receives before the round transcript.
 */
module SystemPrompt {
  import opened Wrappers
  import opened Text
  import opened Types

  const Rules: string :=
    "，正在参与一场多 AI 模型的头脑风暴讨论。\n\n规则：\n" +
    "1. 直接给出你的想法和观点，不要客套寒暄\n" +
    "2. 如果你同意之前的观点，简要说明并补充新的角度，不要重复\n" +
    "3. 如果你有不同意见，明确指出并说明理由\n" +
    "4. 保持回复简洁有力，每次发言控制在 200-400 字\n" +
    "5. 聚焦在可落地的具体建议上"

  /** The discussant prompt before any injection: it names the participant. */
  function BasePrompt(displayName: string): string
  {
    "你是 " + displayName + Rules
  }

  /** The system prompt of a participant: the base prompt, then the injection after a
      blank line when there is a non-empty one. */
  function DiscussantPrompt(displayName: string, injection: Option<string>): string
  {
    if injection.Some? && injection.value != "" then BasePrompt(displayName) + "\n\n" + injection.value
    else BasePrompt(displayName)
  }

  /** The prompt always opens with the base prompt, and it is exactly the base prompt
      if and only if there is no non-empty injection; otherwise the injection ends it. */
  lemma DiscussantPromptShape(displayName: string, injection: Option<string>)
    ensures StartsWith(DiscussantPrompt(displayName, injection), BasePrompt(displayName))
    ensures DiscussantPrompt(displayName, injection) == BasePrompt(displayName)
            <==> injection.None? || injection.value == ""
    ensures injection.Some? ==> EndsWith(DiscussantPrompt(displayName, injection), injection.value)
  {
    var b := BasePrompt(displayName);
    if injection.Some? && injection.value != "" {
      var p := b + "\n\n" + injection.value;
      assert p[..|b|] == b;
      assert |p| > |b|;
      assert p[|p| - |injection.value|..] == injection.value;
    } else if injection.Some? {
      assert DiscussantPrompt(displayName, injection)[|b|..] == [];
    }
  }

  const AllInjection: string := "这是一个全新的讨论话题，请围绕它展开讨论，不要受之前讨论的限制。"
  const DeepInjection: string := "请深入分析以下观点，从多个维度（技术可行性、成本、时间、风险等）给出详细思考。"
  const ChallengeInjection: string := "请从批判性角度审视以下想法，找出潜在的问题、风险、漏洞和不切实际的假设。请直言不讳。"
  const SummaryInjection: string := "请输出完整的讨论记录摘要。"

  /** The table of prompt injections, looked up by command type. */
  function InjectionFor(kind: CommandType): Option<string>
  {
    match kind
    case All => Some(AllInjection)
    case Deep => Some(DeepInjection)
    case Challenge => Some(ChallengeInjection)
    case Summary => Some(SummaryInjection)
    case _ => None
  }

  /** Only `all`, `deep`, `challenge` and `summary` have an injection, and each is non-empty,
      so each of them changes the discussant prompt. */
  lemma InjectionKeys(kind: CommandType)
    ensures InjectionFor(kind).Some? <==> kind in {All, Deep, Challenge, Summary}
    ensures InjectionFor(kind).Some? ==> InjectionFor(kind).value != ""
    ensures forall name :: InjectionFor(kind).Some? ==>
              DiscussantPrompt(name, InjectionFor(kind)) != BasePrompt(name)
  {
    forall name | InjectionFor(kind).Some?
      ensures DiscussantPrompt(name, InjectionFor(kind)) != BasePrompt(name)
    {
      DiscussantPromptShape(name, InjectionFor(kind));
    }
  }

  const OutlineHeader: string := "## 讨论大纲\n当前讨论主题："
  const DecisionsHeader: string := "已达成结论：\n"
  const QuestionsHeader: string := "待解决问题：\n"
  const RecentHeader: string := "## 近期讨论摘要\n"
  const LatestHeader: string := "## 本轮最新发言\n"

  function BulletLines(items: seq<string>): (r: seq<string>)
    ensures |r| == |items|
  {
    seq(|items|, i requires 0 <= i < |items| => "- " + items[i])
  }

  /** The `- item` lines of a list, one per item, joined with newlines. */
  function Bullets(items: seq<string>): string
  {
    Join(BulletLines(items), "\n")
  }

  /** A section with its header that is present only for a non-empty list. */
  function ListSection(header: string, items: seq<string>): string
  {
    if |items| > 0 then header + Bullets(items) + "\n\n" else ""
  }

  function RecentSection(recentRoundsSummary: string): string
  {
    if recentRoundsSummary != "" then RecentHeader + recentRoundsSummary + "\n\n" else ""
  }

  function Opening(topic: string): string
  {
    OutlineHeader + topic + "\n\n"
  }

  /** The context prompt, section by section. */
  function BuildContextPrompt(topic: string, keyDecisions: seq<string>, openQuestions: seq<string>,
                              recentRoundsSummary: string): string
  {
    Opening(topic) + ListSection(DecisionsHeader, keyDecisions) + ListSection(QuestionsHeader, openQuestions)
    + RecentSection(recentRoundsSummary) + LatestHeader
  }

  /** The context always opens with the outline header and the topic followed by a blank line,
      and always ends with the latest-turns header, so a transcript appended to it follows
      that header directly. */
  lemma ContextFrame(topic: string, keyDecisions: seq<string>, openQuestions: seq<string>, recent: string)
    ensures StartsWith(BuildContextPrompt(topic, keyDecisions, openQuestions, recent), Opening(topic))
    ensures EndsWith(BuildContextPrompt(topic, keyDecisions, openQuestions, recent), LatestHeader)
  {
    var middle := ListSection(DecisionsHeader, keyDecisions) + ListSection(QuestionsHeader, openQuestions)
                  + RecentSection(recent);
    var p := BuildContextPrompt(topic, keyDecisions, openQuestions, recent);
    assert p == Opening(topic) + middle + LatestHeader;
    Framed(Opening(topic), middle, LatestHeader);
  }

  /** Each optional section is empty exactly when its input is empty; when present it
      starts with its header, and with no list and no summary the context is just the
      opening followed by the latest-turns header. */
  lemma ContextSections(topic: string, keyDecisions: seq<string>, openQuestions: seq<string>, recent: string)
    ensures ListSection(DecisionsHeader, keyDecisions) == "" <==> keyDecisions == []
    ensures ListSection(QuestionsHeader, openQuestions) == "" <==> openQuestions == []
    ensures RecentSection(recent) == "" <==> recent == ""
    ensures keyDecisions != [] ==> StartsWith(ListSection(DecisionsHeader, keyDecisions), DecisionsHeader)
    ensures openQuestions != [] ==> StartsWith(ListSection(QuestionsHeader, openQuestions), QuestionsHeader)
    ensures keyDecisions == [] && openQuestions == [] && recent == "" ==>
              BuildContextPrompt(topic, keyDecisions, openQuestions, recent) == Opening(topic) + LatestHeader
  {
    if keyDecisions != [] {
      var s := ListSection(DecisionsHeader, keyDecisions);
      assert s[..|DecisionsHeader|] == DecisionsHeader;
    }
    if openQuestions != [] {
      var s := ListSection(QuestionsHeader, openQuestions);
      assert s[..|QuestionsHeader|] == QuestionsHeader;
    }
  }

  /** An item list renders as one `- item` line per item, in order, as long as no item
      contains a newline itself. */
  lemma BulletsLines(items: seq<string>)
    requires items != []
    requires forall k :: 0 <= k < |items| ==> '\n' !in items[k]
    ensures |Split(Bullets(items))| == |items|
    ensures forall k :: 0 <= k < |items| ==> Split(Bullets(items))[k] == "- " + items[k]
  {
    var lines := BulletLines(items);
    forall k | 0 <= k < |lines| ensures '\n' !in lines[k] {
      assert lines[k] == "- " + items[k];
      assert '\n' !in items[k];
    }
    SplitJoin(lines);
  }
}
