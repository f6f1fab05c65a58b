/**
 * The normalisation of an environment variable's raw value: trim it, strip one pair of
 * matching surrounding quotes, cut an inline ` # comment`, and treat an empty result as
 * unset; and the variant that fails when the value is unset.
 */
module Env {
  import opened Wrappers
  import opened Text

  /** The first index at or after `i` that is not white space (`|v|` if none). */
  function RunEnd(v: string, i: nat): (r: nat)
    requires i <= |v|
    ensures i <= r <= |v|
    ensures forall k :: i <= k < r ==> IsSpace(v[k])
    ensures r == |v| || !IsSpace(v[r])
    decreases |v| - i
  {
    if i == |v| || !IsSpace(v[i]) then i else RunEnd(v, i + 1)
  }

  /** The regular expression `\s+#` matches at index `i`: white space from `i` up to a `#`. */
  predicate CommentAt(v: string, i: int)
  {
    0 <= i < |v| && IsSpace(v[i]) && exists j :: i < j < |v| && v[j] == '#' && forall k :: i <= k < j ==> IsSpace(v[k])
  }

  lemma CommentAtRunEnd(v: string, i: nat)
    requires i < |v|
    ensures CommentAt(v, i) <==> IsSpace(v[i]) && RunEnd(v, i) < |v| && v[RunEnd(v, i)] == '#'
  {
    if CommentAt(v, i) {
      var j :| i < j < |v| && v[j] == '#' && forall k :: i <= k < j ==> IsSpace(v[k]);
      var e := RunEnd(v, i);
      assert e == j;
    }
  }

  /** The index `search(/\s+#/)` returns: the leftmost match at or after `from`, or -1. */
  function SearchComment(v: string, from: nat): (r: int)
    requires from <= |v|
    ensures r == -1 || (from <= r < |v| && CommentAt(v, r))
    ensures forall k :: from <= k < (if r == -1 then |v| else r) ==> !CommentAt(v, k)
    decreases |v| - from
  {
    if from == |v| then -1
    else
      CommentAtRunEnd(v, from);
      if IsSpace(v[from]) && RunEnd(v, from) < |v| && v[RunEnd(v, from)] == '#' then from
      else SearchComment(v, from + 1)
  }

  /** The value is wrapped in a pair of the same quote character. */
  predicate Quoted(v: string)
  {
    (StartsWith(v, "\"") && EndsWith(v, "\"")) || (StartsWith(v, "'") && EndsWith(v, "'"))
  }

  /** `slice(1, -1)`: without the first and the last character; empty for one character. */
  function Inner(v: string): string
  {
    if |v| >= 2 then v[1..|v| - 1] else ""
  }

  /** `getEnv`: the normalised value of a variable whose raw value is `raw` (`None` when
      the variable is unset). */
  function GetEnv(raw: Option<string>): Option<string>
  {
    if raw.None? || raw.value == "" then None
    else
      var value := CutComment(Unquote(Trim(raw.value)));
      if value == "" then None else Some(value)
  }

  /** One pair of matching quotes removed, and the inside trimmed again. */
  function Unquote(trimmed: string): string
  {
    if Quoted(trimmed) then Trim(Inner(trimmed)) else trimmed
  }

  /** The value cut before the leftmost inline comment and trimmed again. */
  function CutComment(unquoted: string): string
  {
    var hashIndex := SearchComment(unquoted, 0);
    if hashIndex != -1 then Trim(unquoted[..hashIndex]) else unquoted
  }

  /** No inline comment anywhere: `\s+#` does not match the value. */
  predicate NoComment(v: string)
  {
    forall i :: 0 <= i < |v| ==> !CommentAt(v, i)
  }

  /** A comment match inside a slice is a match in the whole string. */
  lemma CommentInSlice(v: string, a: nat, b: nat, i: nat)
    requires a <= b <= |v|
    ensures CommentAt(v[a..b], i) ==> CommentAt(v, a + i)
  {
    var w := v[a..b];
    if CommentAt(w, i) {
      var j :| i < j < |w| && w[j] == '#' && forall k :: i <= k < j ==> IsSpace(w[k]);
      assert v[a + j] == '#';
      forall k | a + i <= k < a + j ensures IsSpace(v[k]) {
        assert v[k] == w[k - a];
      }
    }
  }

  /** A slice of a string with no comment has none. */
  lemma NoCommentSlice(v: string, a: nat, b: nat)
    requires a <= b <= |v| && NoComment(v)
    ensures NoComment(v[a..b])
  {
    forall i | 0 <= i < b - a ensures !CommentAt(v[a..b], i) {
      CommentInSlice(v, a, b, i);
    }
  }

  /** A suffix of a string with no comment has none. */
  lemma NoCommentSuffix(v: string, a: nat)
    requires a <= |v| && NoComment(v)
    ensures NoComment(v[a..])
  {
    NoCommentSlice(v, a, |v|);
    assert v[a..|v|] == v[a..];
  }

  /** A prefix of a string with no comment has none. */
  lemma NoCommentPrefix(v: string, b: nat)
    requires b <= |v| && NoComment(v)
    ensures NoComment(v[..b])
  {
    NoCommentSlice(v, 0, b);
    assert v[0..b] == v[..b];
  }

  /** Trimming a string with no comment leaves none. */
  lemma NoCommentTrim(v: string)
    requires NoComment(v)
    ensures NoComment(Trim(v))
  {
    var s := TrimStart(v);
    NoCommentSuffix(v, |v| - |s|);
    NoCommentPrefix(s, |TrimEnd(s)|);
  }

  /** The prefix before the leftmost match holds no match. */
  lemma NoCommentBefore(v: string, h: nat)
    requires h <= |v| && forall k :: 0 <= k < h ==> !CommentAt(v, k)
    ensures NoComment(v[..h])
  {
    assert v[..h] == v[0..h];
    forall i | 0 <= i < h ensures !CommentAt(v[..h], i) {
      CommentInSlice(v, 0, h, i);
    }
  }

  /** A value that is set is never empty, has no white space at either end and no inline
      comment; an unset or empty raw value gives none. */
  lemma GetEnvSpec(raw: Option<string>)
    ensures raw.None? || raw.value == "" ==> GetEnv(raw).None?
    ensures GetEnv(raw).Some? ==>
              var v := GetEnv(raw).value;
              && v != [] && !IsSpace(v[0]) && !IsSpace(v[|v| - 1])
              && NoComment(v)
  {
    if raw.Some? && raw.value != "" {
      CutCommentSpec(Unquote(Trim(raw.value)));
    }
  }

  /** Cutting at the leftmost comment of a trimmed value leaves a trimmed value with no
      comment. */
  lemma CutCommentSpec(u: string)
    requires u == [] || (!IsSpace(u[0]) && !IsSpace(u[|u| - 1]))
    ensures var value := CutComment(u);
            && (value == [] || (!IsSpace(value[0]) && !IsSpace(value[|value| - 1])))
            && NoComment(value)
  {
    var h := SearchComment(u, 0);
    if h != -1 {
      NoCommentBefore(u, h);
      NoCommentTrim(u[..h]);
    }
  }

  /** A lone quote is a matching pair of quotes around nothing, so it is unset. */
  lemma LoneQuoteIsUnset(raw: string)
    requires raw == "\""
    ensures GetEnv(Some(raw)).None?
  {
    assert !IsSpace(raw[0]);
    TrimOfTrimmed(raw);
    assert Quoted(raw) by {
      assert raw[..1] == raw && raw[|raw| - 1..] == raw;
    }
    TrimOfTrimmed(Inner(raw));
    assert SearchComment([], 0) == -1;
  }

  /** A quoted value is taken without its quotes and trimmed again. */
  lemma QuotesStripped(inner: string)
    requires inner != [] && !IsSpace(inner[0]) && !IsSpace(inner[|inner| - 1])
    requires forall k :: 0 <= k < |inner| ==> !IsSpace(inner[k])
    ensures GetEnv(Some("\"" + inner + "\"")) == Some(inner)
  {
    var q := "\"" + inner + "\"";
    assert !IsSpace(q[0]) && !IsSpace(q[|q| - 1]);
    TrimOfTrimmed(q);
    assert Quoted(q) by {
      assert q[..1] == "\"";
      assert q[|q| - 1..] == "\"";
    }
    assert Inner(q) == inner;
    TrimOfTrimmed(inner);
    NoSpaceNoComment(inner);
  }

  /** A value without any white space has no comment to cut, so a `#` inside it stays. */
  lemma NoSpaceNoComment(v: string)
    requires forall k :: 0 <= k < |v| ==> !IsSpace(v[k])
    ensures SearchComment(v, 0) == -1
  {
  }

  /** A raw value with no white space and no leading quote is kept as it is, `#` included. */
  lemma HashWithoutSpaceKept(raw: string)
    requires raw != [] && raw[0] != '"' && raw[0] != '\''
    requires forall k :: 0 <= k < |raw| ==> !IsSpace(raw[k])
    ensures GetEnv(Some(raw)) == Some(raw)
  {
    TrimOfTrimmed(raw);
    assert !Quoted(raw) by {
      assert raw[..1] == [raw[0]];
    }
    NoSpaceNoComment(raw);
  }

  /** `value #note` is read as `value`: the comment and the white space before it go. */
  lemma CommentCut(value: string, comment: string)
    requires value != [] && forall k :: 0 <= k < |value| ==> !IsSpace(value[k])
    requires value[0] != '"' && value[0] != '\''
    ensures GetEnv(Some(value + " #" + comment)) == Some(value)
  {
    var raw := value + " #" + comment;
    assert raw[0] == value[0];
    TrimKeepsNonSpaceStart(raw);
    var trimmed := Trim(raw);
    assert TrimStart(raw) == raw;
    assert |trimmed| >= |value| + 2 by {
      assert raw[|value| + 1] == '#';
    }
    assert trimmed[..|value| + 2] == value + " #" by {
      assert raw[..|value| + 2] == value + " #";
    }
    assert trimmed[0] == value[0];
    assert !Quoted(trimmed) by {
      assert trimmed[..1] == [trimmed[0]];
    }
    assert trimmed[|value|] == ' ' && trimmed[|value| + 1] == '#';
    assert CommentAt(trimmed, |value|);
    var h := SearchComment(trimmed, 0);
    forall k | 0 <= k < |value| ensures !CommentAt(trimmed, k) {
      assert trimmed[k] == value[k];
    }
    assert h == |value|;
    assert trimmed[..h] == value;
    TrimOfTrimmed(value);
  }

  const MissingMessagePrefix: string := "Missing/invalid env var "
  const MissingMessageSuffix: string := ". Check server/.env (avoid inline comments like `KEY=... # comment`)."

  /** `requireEnv`: the value of `getEnv`, or the error naming the variable when it is unset. */
  function RequireEnv(name: string, raw: Option<string>): (r: Result<string, string>)
    ensures r.Failure? <==> GetEnv(raw).None?
    ensures r.Success? ==> GetEnv(raw) == Some(r.value)
    ensures r.Failure? ==> r.error == MissingMessagePrefix + name + MissingMessageSuffix
  {
    match GetEnv(raw)
    case None => Failure(MissingMessagePrefix + name + MissingMessageSuffix)
    case Some(v) => Success(v)
  }
}
