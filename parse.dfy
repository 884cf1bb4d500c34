/** `parse_with_claude`: the language model's reply text is stripped of a
    Markdown code fence and decoded as JSON; any failure on the way becomes a
    fixed "please rephrase" result. */
module Parse {
  import opened Wrappers
  import opened PyStr
  import opened Json
  import opened PyFormat
  import opened Prompt

  const JsonFence: string := "```json"
  const Fence: string := "```"

  /** The question put to the user when the reply could not be fetched or decoded. */
  const RephraseQuestion: string := "Sorry, I couldn't parse that. Could you rephrase?"

  /** What came back from the HTTP call: the text of the first content block,
      or the message of the exception raised while building or posting the
      request or reading `result["content"][0]["text"]`. A `Reply(text)`
      needs a request, and the request is only built from the corrected
      template (`ParseMessage`). */
  datatype Reply = Reply(text: string) | RequestFailed(message: string)

  /** The fence-stripping step applied to the reply before `json.loads`: a
      ```` ```json ```` fence takes precedence over a bare ```` ``` ```` one;
      without any fence the text is passed on untouched. */
  function StripFences(content: string): string
  {
    if Contains(content, JsonFence) then
      Strip(Before(SplitSecond(content, JsonFence), Fence))
    else if Contains(content, Fence) then
      Strip(Before(SplitSecond(content, Fence), Fence))
    else
      content
  }

  /** A ```` ```json ```` fence is also a ```` ``` ```` fence. */
  lemma JsonFenceIsFence(content: string)
    requires Contains(content, JsonFence)
    ensures Contains(content, Fence)
  {
    ContainsPiece(content, JsonFence, 0, 3);
    assert JsonFence[0..3] == Fence;
  }

  /** Without any fence the reply reaches the decoder unchanged, whitespace
      included. */
  lemma NoFenceUnchanged(content: string)
    requires !Contains(content, Fence)
    ensures StripFences(content) == content
  {
    if Contains(content, JsonFence) {
      JsonFenceIsFence(content);
    }
  }

  /** With a bare fence and no ```` ```json ````, the result is the text between
      the first fence and the next one (or the end), trimmed. */
  lemma BareFenceBody(content: string)
    requires Contains(content, Fence) && !Contains(content, JsonFence)
    ensures StripFences(content) == Strip(Before(After(content, Fence), Fence))
  {
    BeforeIdempotent(After(content, Fence), Fence);
  }

  /** Cutting a string at its first `p` after first cutting it at a later
      point changes nothing, provided the first `p` ends before that point. */
  lemma BeforeOfPrefix(r: string, q: nat, p: string)
    requires |p| > 0 && q <= |r| && Contains(r, p) && FirstIndex(r, p) + |p| <= q
    ensures Before(r[..q], p) == Before(r, p)
  {
    var i := FirstIndex(r, p);
    assert r[..q][i..i + |p|] == r[i..i + |p|];
    assert Occurs(r[..q], p, i);
    forall j | 0 <= j < i && Occurs(r[..q], p, j) ensures false {
      OccursInPrefix(r, r[..q], p, j);
    }
  }

  /** Cutting a string just where its first `p` starts leaves no `p`. */
  lemma BeforeOfCut(r: string, p: string)
    requires |p| > 0 && Contains(r, p)
    ensures Before(r[..FirstIndex(r, p)], p) == r[..FirstIndex(r, p)] == Before(r, p)
  {
    var q := FirstIndex(r, p);
    forall j | Occurs(r[..q], p, j) ensures false {
      OccursInPrefix(r, r[..q], p, j);
    }
  }

  /** Two fences whose starts lie one or two apart form ```` ````json ````. */
  lemma BacktickRun(r: string, p: nat, q: nat)
    requires Occurs(r, Fence, p) && Occurs(r, JsonFence, q) && p < q < p + 3
    ensures Occurs(r, "````json", q - 1)
  {
    assert r[q - 1] == '`' by {
      assert r[p..p + 3][q - 1 - p] == r[q - 1];
    }
    assert r[q - 1..q + 7] == [r[q - 1]] + r[q..q + 7];
    assert "````json" == ['`'] + JsonFence;
  }

  /** In the text `r` after the first ```` ```json ````: there is no further
      ```` ```json ````, or the first ```` ``` ```` of `r` is the start of that
      ```` ```json ```` or ends before it. (The first ```` ``` ```` never starts
      after the first ```` ```json ````.) */
  predicate FencesApart(r: string)
  {
    || !Contains(r, JsonFence)
    || (&& Contains(r, Fence)
        && var p, q := FirstIndex(r, Fence), FirstIndex(r, JsonFence);
           p == q || p + 3 <= q)
  }

  /** Text without ```` ````json ```` always has its fences apart. */
  lemma FirstFenceEndsEarly(r: string)
    requires !Contains(r, "````json")
    ensures FencesApart(r)
  {
    if Contains(r, JsonFence) {
      var q := FirstIndex(r, JsonFence);
      assert r[q..q + 3] == Fence by {
        assert r[q..q + 3] == r[q..q + 7][..3];
      }
      assert Occurs(r, Fence, q);
      var p := FirstIndex(r, Fence);
      if p < q < p + 3 {
        BacktickRun(r, p, q);
        assert false;
      }
    }
  }

  /** The ```` ```json ```` branch follows the simple reading, "the text
      after the first ```` ```json ```` up to the next ```` ``` ```` (or the
      end), trimmed", exactly when the fences of the text after the first
      ```` ```json ```` lie apart. Python's `split("```json")[1]` stops at the
      next ```` ```json ````, which can begin one or two characters after a
      ```` ``` ```` inside a run of backticks; `OverlappingFence` shows such
      an input. */
  lemma JsonFenceBody(content: string)
    requires Contains(content, JsonFence)
    ensures StripFences(content) == Strip(Before(After(content, JsonFence), Fence))
            <==> FencesApart(After(content, JsonFence))
  {
    var r := After(content, JsonFence);
    assert SplitSecond(content, JsonFence) == Before(r, JsonFence);
    if Contains(r, JsonFence) {
      var q := FirstIndex(r, JsonFence);
      assert Before(r, JsonFence) == r[..q];
      assert r[q..q + 3] == Fence by {
        assert r[q..q + 3] == r[q..q + 7][..3];
      }
      assert Occurs(r, Fence, q);
      var p := FirstIndex(r, Fence);
      if p == q {
        BeforeOfCut(r, Fence);
      } else if p + 3 <= q {
        BeforeOfPrefix(r, q, Fence);
      } else {
        JsonFenceDiverges(r, p, q);
      }
    }
  }

  /** When the first ```` ```json ```` of `r` starts one or two characters
      after its first ```` ``` ````, the code keeps that backtick run, so its
      result is longer than the simple reading's. */
  lemma JsonFenceDiverges(r: string, p: nat, q: nat)
    requires Contains(r, JsonFence) && Contains(r, Fence)
    requires p == FirstIndex(r, Fence) && q == FirstIndex(r, JsonFence)
    requires p < q < p + 3
    ensures |Strip(Before(Before(r, JsonFence), Fence))| > |Strip(Before(r, Fence))|
  {
    var t := r[..q];
    assert Before(r, JsonFence) == t;
    forall j | Occurs(t, Fence, j) ensures Occurs(r, Fence, j) && j + 3 <= q {
      OccursInPrefix(r, t, Fence, j);
    }
    assert Before(t, Fence) == t;
    assert Before(r, Fence) == t[..p];
    assert t[p] == '`' by { assert r[p..p + 3][0] == r[p]; }
    assert t[|t| - 1] == '`' by { assert r[p..p + 3][q - 1 - p] == r[q - 1]; }
    StripShorterPrefix(t, t[..p], p);
  }

  /** An input on which the two descriptions part: the text after the first
      ```` ```json ```` is ```` ````jsonX ````; its first ```` ``` ```` starts
      at once, yet `split("```json")[1]` is the single backtick before the
      second ```` ```json ````. */
  lemma OverlappingFence()
    ensures StripFences("```json````jsonX") == "`"
    ensures Strip(Before(After("```json````jsonX", JsonFence), Fence)) == ""
    ensures !FencesApart(After("```json````jsonX", JsonFence))
  {
    var content := "```json````jsonX";
    OverlappingFenceSplit();
    assert Contains(content, JsonFence);
    assert SplitSecond(content, JsonFence) == "`";
    assert Find("`", Fence) == None;
    assert Before("`", Fence) == "`";
    StripTrimmed("`");
    StripTrimmed("");
    JsonFenceBody(content);
  }

  lemma OverlappingFenceSplit()
    ensures Contains("```json````jsonX", JsonFence)
    ensures After("```json````jsonX", JsonFence) == "````jsonX"
    ensures Before("````jsonX", JsonFence) == "`"
    ensures Before("````jsonX", Fence) == ""
  {
    FindAtStart("```json````jsonX", JsonFence);
    assert "```json````jsonX"[7..] == "````jsonX";
    FindInRun();
    FindAtStart("````jsonX", Fence);
  }

  lemma FindAtStart(s: string, p: string)
    requires |p| <= |s| && s[..|p|] == p
    ensures Find(s, p) == Some(0)
  {
  }

  lemma FindInRun()
    ensures Find("````jsonX", JsonFence) == Some(1)
  {
    var r := "````jsonX";
    assert r[..7] != JsonFence by { assert r[3] != JsonFence[3]; }
    FindAtStart(r[1..], JsonFence);
  }

  /** Whenever a fence is present the result holds no fence and no
      surrounding whitespace. */
  lemma FencedResultClean(content: string)
    requires Contains(content, Fence)
    ensures var r := StripFences(content);
            && !Contains(r, Fence)
            && (r == [] || (!IsSpace(r[0]) && !IsSpace(r[|r| - 1])))
  {
    var s := if Contains(content, JsonFence) then SplitSecond(content, JsonFence)
             else SplitSecond(content, Fence);
    assert StripFences(content) == Strip(Before(s, Fence));
    CutAndStripLacksFence(s);
  }

  /** Cutting at the first fence and stripping leaves no fence. */
  lemma CutAndStripLacksFence(s: string)
    ensures !Contains(Strip(Before(s, Fence)), Fence)
  {
    BeforeHasNoOccurrence(s, Fence);
    StripLacks(Before(s, Fence), Fence);
  }

  /** Stripping fences twice is the same as stripping them once. */
  lemma StripFencesIdempotent(content: string)
    ensures StripFences(StripFences(content)) == StripFences(content)
  {
    if Contains(content, Fence) {
      FencedResultClean(content);
      NoFenceUnchanged(StripFences(content));
    } else {
      NoFenceUnchanged(content);
    }
  }

  /** The dictionary returned from the `except` branch. */
  function Fallback(message: string): Value
  {
    Obj(map[
      "category" := Str("unknown"),
      "error" := Str(message),
      "needs_clarification" := Bool(true),
      "clarification_question" := Str(RephraseQuestion)])
  }

  /** `parse_with_claude`, given the outcome of the HTTP call. */
  function ParseWithModel(reply: Reply, lib: Library): Value
  {
    match reply
    case RequestFailed(message) => Fallback(message)
    case Reply(text) =>
      match lib.loads(StripFences(text))
      case Decoded(v) => v
      case DecodeError(message) => Fallback(message)
  }

  /** Either the decoder's value for the stripped reply comes back, or the
      fallback: category "unknown", clarification needed, fixed question. */
  lemma ParseResult(reply: Reply, lib: Library)
    ensures var v := ParseWithModel(reply, lib);
            || (reply.Reply? && lib.loads(StripFences(reply.text)) == Decoded(v))
            || (&& v.Obj?
                && v.fields["category"] == Str("unknown")
                && v.fields["needs_clarification"] == Bool(true)
                && v.fields["clarification_question"] == Str(RephraseQuestion))
  {
  }

  /** `parse_with_claude(message_text)` from the prompt template on:
      `RequestText` builds the request (line 70) inside the `try`, `post` is
      the HTTP exchange that answers it, and a formatting error is caught
      like any other exception, its message being `formatError`. */
  function ParseMessage(template: string, date: string, message: string,
                        post: string -> Reply, formatError: string, lib: Library): Value
  {
    match RequestText(template, date, message)
    case None => ParseWithModel(RequestFailed(formatError), lib)
    case Some(request) => ParseWithModel(post(request), lib)
  }

  /** As written, every message gets the fallback: nothing is posted and the
      model's reply plays no part. */
  lemma ParseMessageAsWritten(date: string, message: string, post: string -> Reply,
                              formatError: string, lib: Library)
    ensures ParseMessage(Template, date, message, post, formatError, lib) == Fallback(formatError)
  {
    TemplateRaises(date, message);
  }

  /** A template that formats to `prompt` posts that prompt, a blank line and
      the message, and the result is parsed from the reply. */
  lemma ParseMessageFormats(template: string, date: string, message: string, prompt: string,
                            post: string -> Reply, formatError: string, lib: Library)
    requires Format(template, DateKey, date) == Some(prompt)
    ensures ParseMessage(template, date, message, post, formatError, lib)
            == ParseWithModel(post(prompt + "\n\nMessage: " + message), lib)
  {
  }

  /** With the braces doubled, the request posted is the intended prompt, a
      blank line and the message, and the result is parsed from its reply. */
  lemma ParseMessageCorrected(date: string, message: string, post: string -> Reply,
                              formatError: string, lib: Library)
    ensures ParseMessage(CorrectedTemplate, date, message, post, formatError, lib)
            == ParseWithModel(post(IntendedPrompt(date) + "\n\nMessage: " + message), lib)
  {
    CorrectedTemplateFormats(date);
    ParseMessageFormats(CorrectedTemplate, date, message, IntendedPrompt(date), post, formatError, lib);
  }
}
