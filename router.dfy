/**
 * Command routing: classifying a user message into one of seven control commands, and
 * turning a command and the default speaking order into the round's speaker list.
 */
module Router {
  import opened Wrappers
  import opened Text
  import opened Types
  import opened SystemPrompt

  const AllMarker: string := "@all "
  const DeepMarker: string := "@深入"
  const ChallengeMarker: string := "@挑战"
  const SummaryMarker: string := "@总结"
  const SkipMarker: string := "@跳过"

  /** The models that can be addressed directly. */
  const DirectModels: seq<string> := ["glm", "kimi", "qwen"]

  /** Removes a leading `新话题：` or `新话题:` label and the white space after it. */
  function StripNewTopic(s: string): string
  {
    if |s| >= 4 && s[..3] == "新话题" && (s[3] == '：' || s[3] == ':') then TrimStart(s[4..]) else s
  }

  /** `@name` (case-insensitive) followed by at least one white-space character. */
  predicate Addresses(m: string, name: string)
  {
    && |m| > |name| + 1 && m[0] == '@'
    && (forall i :: 0 <= i < |name| ==> LowerChar(m[i + 1]) == name[i])
    && IsSpace(m[|name| + 1])
  }

  /** The text after the white-space run that follows `@name`, up to the end of its line. */
  function AddressedContent(m: string, name: string): string
    requires |name| + 1 <= |m|
  {
    FirstLine(TrimStart(m[|name| + 1..]))
  }

  /** The match of `^@(glm|kimi|qwen)\s+(.*)` with the `i` flag: the lower-cased model id
      and the captured rest of the line. */
  function DirectMatch(m: string): Option<(string, string)>
  {
    if Addresses(m, "glm") then Some(("glm", AddressedContent(m, "glm")))
    else if Addresses(m, "kimi") then Some(("kimi", AddressedContent(m, "kimi")))
    else if Addresses(m, "qwen") then Some(("qwen", AddressedContent(m, "qwen")))
    else None
  }

  /** The command of a message; the checks run in a fixed order and the first match wins. */
  function ParseCommand(m: string): (r: ParsedCommand)
    ensures r.promptInjection == InjectionFor(r.kind)
    ensures r.targetModel.Some? <==> r.kind in {Skip, Direct}
    ensures r.kind in {Summary, Skip} ==> r.content == ""
    ensures r.kind == Normal ==> r.content == m
  {
    if StartsWith(m, AllMarker) then
      ParsedCommand(All, StripNewTopic(m[5..]), None, InjectionFor(All))
    else if StartsWith(m, DeepMarker) then
      ParsedCommand(Deep, Trim(m[3..]), None, InjectionFor(Deep))
    else if StartsWith(m, ChallengeMarker) then
      ParsedCommand(Challenge, Trim(m[3..]), None, InjectionFor(Challenge))
    else if Trim(m) == SummaryMarker then
      ParsedCommand(Summary, "", None, InjectionFor(Summary))
    else if StartsWith(m, SkipMarker) then
      ParsedCommand(Skip, "", Some(ToLower(Trim(m[3..]))), None)
    else if DirectMatch(m).Some? then
      ParsedCommand(Direct, DirectMatch(m).value.1, Some(DirectMatch(m).value.0), None)
    else
      ParsedCommand(Normal, m, None, None)
  }

  /** A message that starts with `@` and a second character other than a marker's
      does not trim to the summary marker. */
  lemma NotSummary(m: string)
    requires |m| >= 2 && m[0] == '@' && m[1] != '总'
    ensures Trim(m) != SummaryMarker
  {
    TrimKeepsNonSpaceStart(m);
    var t := Trim(m);
    if |t| >= 2 {
      assert t[1] == m[1];
    }
  }

  /** Two strings that differ in their second character are not prefixes of each other. */
  lemma NotPrefix(m: string, p: string)
    requires |m| >= 2 && |p| >= 2 && m[1] != p[1]
    ensures !StartsWith(m, p)
  {
    if |p| <= |m| {
      assert m[..|p|][1] == m[1];
    }
  }

  /** `@all X` is a new topic whose content is X without a leading new-topic label. */
  lemma ParseAll(x: string)
    ensures ParseCommand(AllMarker + x) == ParsedCommand(All, StripNewTopic(x), None, Some(AllInjection))
  {
    var m := AllMarker + x;
    assert m[..5] == AllMarker;
    assert m[5..] == x;
  }

  /** `@深入X` asks for depth on the trimmed X. */
  lemma ParseDeep(x: string)
    ensures ParseCommand(DeepMarker + x) == ParsedCommand(Deep, Trim(x), None, Some(DeepInjection))
  {
    var m := DeepMarker + x;
    assert m[1] == '深';
    NotPrefix(m, AllMarker);
    assert m[..3] == DeepMarker;
    assert m[3..] == x;
  }

  /** `@挑战X` asks for a critical review of the trimmed X. */
  lemma ParseChallenge(x: string)
    ensures ParseCommand(ChallengeMarker + x) == ParsedCommand(Challenge, Trim(x), None, Some(ChallengeInjection))
  {
    var m := ChallengeMarker + x;
    assert m[1] == '挑';
    NotPrefix(m, AllMarker);
    NotPrefix(m, DeepMarker);
    assert m[..3] == ChallengeMarker;
    assert m[3..] == x;
  }

  /** A message that starts with another command's marker does not trim to the summary
      marker. */
  lemma MarkedNotSummary(m: string, marker: string)
    requires StartsWith(m, marker) && |marker| >= 2 && marker[0] == '@' && marker[1] != '总'
    ensures Trim(m) != SummaryMarker
  {
    assert m[0] == marker[0] && m[1] == marker[1] by {
      assert m[..|marker|] == marker;
    }
    NotSummary(m);
  }

  /** A message is a summary request exactly when it trims to the summary marker. */
  lemma ParseSummaryIff(m: string)
    ensures ParseCommand(m).kind == Summary <==> Trim(m) == SummaryMarker
    ensures ParseCommand(m).kind == Summary ==> ParseCommand(m) == ParsedCommand(Summary, "", None, Some(SummaryInjection))
  {
    if StartsWith(m, AllMarker) {
      assert AllMarker[0] == '@' && AllMarker[1] == 'a';
      MarkedNotSummary(m, AllMarker);
    } else if StartsWith(m, DeepMarker) {
      assert DeepMarker[0] == '@' && DeepMarker[1] == '深';
      MarkedNotSummary(m, DeepMarker);
    } else if StartsWith(m, ChallengeMarker) {
      assert ChallengeMarker[0] == '@' && ChallengeMarker[1] == '挑';
      MarkedNotSummary(m, ChallengeMarker);
    }
  }

  /** `@总结 x`, with something other than white space after the marker, is an ordinary message. */
  lemma SummaryWithArgumentIsNormal(x: string)
    requires x != [] && !IsSpace(x[|x| - 1])
    ensures ParseCommand(SummaryMarker + " " + x) == ParsedCommand(Normal, SummaryMarker + " " + x, None, None)
  {
    var m := SummaryMarker + " " + x;
    assert m[0] == '@' && m[1] == '总' && m[|m| - 1] == x[|x| - 1];
    LongerAfterSummaryMarkerIsNormal(m);
  }

  lemma LongerAfterSummaryMarkerIsNormal(m: string)
    requires |m| > 3 && m[0] == '@' && m[1] == '总' && !IsSpace(m[|m| - 1])
    ensures ParseCommand(m) == ParsedCommand(Normal, m, None, None)
  {
    TrimOfTrimmed(m);
    NotPrefix(m, AllMarker);
    NotPrefix(m, DeepMarker);
    NotPrefix(m, ChallengeMarker);
    NotPrefix(m, SkipMarker);
    NotAddressed(m);
    ParseFallsThrough(m);
  }

  /** A message that no check recognises is an ordinary message, verbatim. */
  lemma ParseFallsThrough(m: string)
    requires !StartsWith(m, AllMarker) && !StartsWith(m, DeepMarker) && !StartsWith(m, ChallengeMarker)
    requires Trim(m) != SummaryMarker && !StartsWith(m, SkipMarker) && DirectMatch(m).None?
    ensures ParseCommand(m) == ParsedCommand(Normal, m, None, None)
  {
  }

  /** A message whose second character is no letter of a model name matches no direct address. */
  lemma NotAddressed(m: string)
    requires |m| >= 2 && LowerChar(m[1]) !in {'g', 'k', 'q'}
    ensures DirectMatch(m).None?
  {
    assert !Addresses(m, "glm") by { assert "glm"[0] == 'g'; }
    assert !Addresses(m, "kimi") by { assert "kimi"[0] == 'k'; }
    assert !Addresses(m, "qwen") by { assert "qwen"[0] == 'q'; }
  }

  /** `@跳过X` skips the model named by X, trimmed and lower-cased. */
  lemma ParseSkip(x: string)
    ensures ParseCommand(SkipMarker + x) == ParsedCommand(Skip, "", Some(ToLower(Trim(x))), None)
  {
    var m := SkipMarker + x;
    assert m[1] == '跳';
    NotPrefix(m, AllMarker);
    NotPrefix(m, DeepMarker);
    NotPrefix(m, ChallengeMarker);
    NotSummary(m);
    assert m[..3] == SkipMarker;
    assert m[3..] == x;
  }

  /** What addressing `name` promises: the lower-cased letters after `@` are the name, and
      the content is one line that starts with no white space. */
  lemma AddressedMeaning(m: string, name: string)
    requires Addresses(m, name)
    ensures ToLower(m[1..|name| + 1]) == name
    ensures var content := AddressedContent(m, name);
            && (forall i :: 0 <= i < |content| ==> !IsLineTerminator(content[i]))
            && (content == [] || !IsSpace(content[0]))
  {
    var lowered := ToLower(m[1..|name| + 1]);
    forall i | 0 <= i < |name| ensures lowered[i] == name[i] {
      assert m[1..|name| + 1][i] == m[i + 1];
    }
    var t := TrimStart(m[|name| + 1..]);
    var content := FirstLine(t);
    if content != [] {
      assert content[0] == t[0];
    }
  }

  /** What a direct match promises: the id is one of the addressable models, the message
      addresses it, and the content is the rest of the first line after the white space run. */
  lemma DirectMatchMeaning(m: string)
    requires DirectMatch(m).Some?
    ensures DirectMatch(m).value.0 in DirectModels
    ensures var (id, content) := DirectMatch(m).value;
            && Addresses(m, id) && ToLower(m[1..|id| + 1]) == id
            && content == FirstLine(TrimStart(m[|id| + 1..]))
    ensures forall i :: 0 <= i < |DirectMatch(m).value.1| ==> !IsLineTerminator(DirectMatch(m).value.1[i])
    ensures DirectMatch(m).value.1 == [] || !IsSpace(DirectMatch(m).value.1[0])
  {
    if Addresses(m, "glm") {
      AddressedMeaning(m, "glm");
    } else if Addresses(m, "kimi") {
      AddressedMeaning(m, "kimi");
    } else {
      AddressedMeaning(m, "qwen");
    }
  }

  /** A message that addresses no model directly does not match. */
  lemma DirectMatchNone(m: string)
    requires forall k :: 0 <= k < |DirectModels| ==> !Addresses(m, DirectModels[k])
    ensures DirectMatch(m).None?
  {
    assert !Addresses(m, DirectModels[0]) && !Addresses(m, DirectModels[1]) && !Addresses(m, DirectModels[2]);
  }

  /** The second character of a direct address is a letter of a model name, in either case. */
  lemma AddressesSecondChar(m: string, name: string)
    requires name in DirectModels && Addresses(m, name)
    ensures m[1] in {'g', 'G', 'k', 'K', 'q', 'Q'}
  {
    assert LowerChar(m[1]) == name[0];
  }

  /** A message that matches the direct pattern starts with no other command's marker. */
  lemma DirectNotMarked(m: string)
    requires DirectMatch(m).Some?
    ensures !StartsWith(m, AllMarker) && !StartsWith(m, DeepMarker) && !StartsWith(m, ChallengeMarker)
    ensures Trim(m) != SummaryMarker && !StartsWith(m, SkipMarker)
  {
    if Addresses(m, "glm") {
      AddressesSecondChar(m, "glm");
    } else if Addresses(m, "kimi") {
      AddressesSecondChar(m, "kimi");
    } else {
      AddressesSecondChar(m, "qwen");
    }
    assert m[0] == '@' && m[1] in {'g', 'G', 'k', 'K', 'q', 'Q'};
    NotPrefix(m, AllMarker);
    NotPrefix(m, DeepMarker);
    NotPrefix(m, ChallengeMarker);
    NotPrefix(m, SkipMarker);
    NotSummary(m);
  }

  /** A message is routed directly exactly when it matches the direct pattern; the target
      is the lower-cased id and the content is the captured rest of the line. */
  lemma ParseDirectIff(m: string)
    ensures ParseCommand(m).kind == Direct <==> DirectMatch(m).Some?
    ensures DirectMatch(m).Some? ==>
              ParseCommand(m) == ParsedCommand(Direct, DirectMatch(m).value.1, Some(DirectMatch(m).value.0), None)
  {
    if DirectMatch(m).Some? {
      DirectNotMarked(m);
    }
  }

  /** `@Qwen` and a single-line text: a direct turn for `qwen` on that text. */
  lemma ParseDirectQwen(rest: string)
    requires rest != [] && !IsSpace(rest[0])
    requires forall i :: 0 <= i < |rest| ==> !IsLineTerminator(rest[i])
    ensures ParseCommand("@Qwen " + rest) == ParsedCommand(Direct, rest, Some("qwen"), None)
  {
    var m := "@Qwen " + rest;
    assert m[1] == 'Q' && m[2] == 'w' && m[3] == 'e' && m[4] == 'n' && m[5] == ' ';
    assert LowerChar(m[1]) == 'q';
    assert !Addresses(m, "glm") by { assert "glm"[0] == 'g'; }
    assert !Addresses(m, "kimi") by { assert "kimi"[0] == 'k'; }
    assert Addresses(m, "qwen");
    assert AddressedContent(m, "qwen") == rest by {
      assert m[5..] == " " + rest;
      assert TrimStart(" " + rest) == rest by {
        assert (" " + rest)[1..] == rest;
      }
      FirstLineOfLine(rest);
    }
    assert DirectMatch(m) == Some(("qwen", rest));
    ParseDirectIff(m);
  }

  /** The concrete case `@Qwen explain X`. */
  lemma ParseDirectExample(m: string)
    requires m == "@Qwen explain X"
    ensures ParseCommand(m) == ParsedCommand(Direct, "explain X", Some("qwen"), None)
  {
    var rest := "explain X";
    assert m == "@Qwen " + rest;
    assert rest[0] == 'e';
    ParseDirectQwen(rest);
  }

  /** The participant list after removing every occurrence of a target, in order. */
  function Without(order: seq<string>, target: Option<string>): seq<string>
  {
    if order == [] then []
    else if Some(order[0]) == target then Without(order[1..], target)
    else [order[0]] + Without(order[1..], target)
  }

  /** The speakers of a round. */
  function GetParticipants(command: ParsedCommand, defaultOrder: seq<string>): (r: seq<string>)
    ensures command.kind == Summary ==> r == []
    ensures command.kind in {All, Deep, Challenge, Normal} ==> r == defaultOrder
  {
    match command.kind
    case Summary => []
    case Skip => Without(defaultOrder, command.targetModel)
    case Direct =>
      if command.targetModel.Some? && command.targetModel.value != "" then [command.targetModel.value]
      else defaultOrder
    case _ => defaultOrder
  }

  function Count(s: seq<string>, x: string): nat
  {
    if s == [] then 0 else (if s[0] == x then 1 else 0) + Count(s[1..], x)
  }

  /** Removing a target keeps exactly the other entries, each as often as before. */
  lemma {:induction false} WithoutMembers(order: seq<string>, target: Option<string>)
    ensures forall x :: x in Without(order, target) <==> x in order && Some(x) != target
    ensures forall x :: Some(x) != target ==> Count(Without(order, target), x) == Count(order, x)
    ensures target.Some? ==> |Without(order, target)| == |order| - Count(order, target.value)
  {
    if order != [] {
      WithoutMembers(order[1..], target);
      assert order == [order[0]] + order[1..];
      if Some(order[0]) != target {
        assert Without(order, target)[1..] == Without(order[1..], target);
      }
    }
  }

  /** Removing a target distributes over concatenation: the kept entries stay in their order. */
  lemma {:induction false} WithoutAppend(a: seq<string>, b: seq<string>, target: Option<string>)
    ensures Without(a + b, target) == Without(a, target) + Without(b, target)
  {
    if a == [] {
      assert a + b == b;
    } else {
      assert (a + b)[0] == a[0];
      assert (a + b)[1..] == a[1..] + b;
      WithoutAppend(a[1..], b, target);
    }
  }

  /** Removing a target that is absent changes nothing. */
  lemma {:induction false} WithoutAbsent(order: seq<string>, target: Option<string>)
    requires target.None? || target.value !in order
    ensures Without(order, target) == order
  {
    if order != [] {
      WithoutAbsent(order[1..], target);
      assert order == [order[0]] + order[1..];
    }
  }

  /** What skipping promises: the target never speaks, everyone else keeps their turns
      in order, and an absent target leaves the default order as it is. */
  lemma SkipParticipants(command: ParsedCommand, defaultOrder: seq<string>)
    requires command.kind == Skip
    ensures forall x :: x in GetParticipants(command, defaultOrder)
              <==> x in defaultOrder && Some(x) != command.targetModel
    ensures command.targetModel.None? || command.targetModel.value !in defaultOrder ==>
              GetParticipants(command, defaultOrder) == defaultOrder
  {
    WithoutMembers(defaultOrder, command.targetModel);
    if command.targetModel.None? || command.targetModel.value !in defaultOrder {
      WithoutAbsent(defaultOrder, command.targetModel);
    }
  }

  /** A direct command names its single speaker, even one outside the default order;
      without a target it falls back to the default order. */
  lemma DirectParticipants(command: ParsedCommand, defaultOrder: seq<string>)
    requires command.kind == Direct
    ensures command.targetModel.Some? && command.targetModel.value != "" ==>
              GetParticipants(command, defaultOrder) == [command.targetModel.value]
    ensures command.targetModel.None? || command.targetModel.value == "" ==>
              GetParticipants(command, defaultOrder) == defaultOrder
  {
  }

  /** The concrete case `@跳过qwen` over `glm, kimi, qwen`: `glm` and `kimi` speak. */
  lemma SkipExample(m: string, order: seq<string>)
    requires m == SkipMarker + " qwen" && order == ["glm", "kimi", "qwen"]
    ensures GetParticipants(ParseCommand(m), order) == ["glm", "kimi"]
  {
    var x := " qwen";
    ParseSkip(x);
    TrimQwen(x);
    LowerQwen("qwen");
    WithoutQwen(order);
  }

  lemma TrimQwen(x: string)
    requires x == " qwen"
    ensures Trim(x) == "qwen"
  {
    assert x[1..] == "qwen";
    assert TrimStart(x) == "qwen";
    TrimOfTrimmed("qwen");
  }

  lemma LowerQwen(x: string)
    requires x == "qwen"
    ensures ToLower(x) == "qwen"
  {
  }

  lemma WithoutQwen(order: seq<string>)
    requires order == ["glm", "kimi", "qwen"]
    ensures Without(order, Some("qwen")) == ["glm", "kimi"]
  {
    var t := Some("qwen");
    assert "glm" != "qwen" by { assert "glm"[0] != "qwen"[0]; }
    assert "kimi" != "qwen" by { assert "kimi"[0] != "qwen"[0]; }
    assert order[1..][1..][1..] == [];
    assert Without(order[1..][1..], t) == [];
    assert Without(order[1..], t) == ["kimi"];
  }
}
