/**
 * The two fail-closed text rules of `src/agent/agent.js` that sit around a
 * foreign model call: how `evaluateCommand` reads the safety model's reply,
 * and how `ExtractCommandLLM` cuts the JSON payload out of the extraction
 * model's reply. The replies themselves are inputs.
 */
module Safety {
  import opened Text

  /** A foreign model's reply text, or the error its call threw (including a reply with no content). */
  datatype ModelReply = Answer(text: string) | Failed

  /** What `JSON.parse` made of the payload; `Unparsable` is the thrown SyntaxError. */
  datatype Json = JString(s: string) | JArray(items: seq<Json>) | JOther | Unparsable

  const SAFE_TOKEN := "SAFE"
  const OPEN_TAG := "<answer>"
  const CLOSE_TAG := "</answer>"
  const SLASH := "/"

  lemma TrimEndKeepsWordPrefix(u: string, w: string)
    requires w != [] && !IsSpace(w[|w| - 1])
    ensures StartsWith(TrimEnd(u), w) <==> StartsWith(u, w)
  {
    TrimEndShape(u);
    var v := TrimEnd(u);
    if StartsWith(u, w) {
      assert u[|w| - 1] == w[|w| - 1];
      assert v[..|w|] == u[..|w|];
    }
  }

  /** The verdict of `evaluateCommand`: the trimmed reply must start with SAFE; a failed call is a denial. */
  function Verdict(reply: ModelReply): bool {
    reply.Answer? && StartsWith(Trim(reply.text), SAFE_TOKEN)
  }

  /** Only the first word counts: trailing whitespace plays no part, and a failed call is never SAFE. */
  lemma VerdictReadsFirstWord(reply: ModelReply)
    ensures reply.Failed? ==> !Verdict(reply)
    ensures reply.Answer? ==> (Verdict(reply) <==> StartsWith(TrimStart(reply.text), SAFE_TOKEN))
  {
    if reply.Answer? {
      TrimEndKeepsWordPrefix(TrimStart(reply.text), SAFE_TOKEN);
    }
  }

  /** An answer whose first word is UNSAFE is a denial, although it contains SAFE. */
  lemma UnsafeIsDenied(text: string)
    requires StartsWith(TrimStart(text), "UNSAFE")
    ensures !Verdict(Answer(text))
  {
    VerdictReadsFirstWord(Answer(text));
    var t := TrimStart(text);
    assert t[0] == 'U';
    assert !StartsWith(t, SAFE_TOKEN) by {
      if |SAFE_TOKEN| <= |t| { assert t[..|SAFE_TOKEN|][0] == t[0]; }
    }
  }

  lemma {:induction false} TrimStartSkipsSpace(ws: string, x: string)
    requires AllSpace(ws) && x != [] && !IsSpace(x[0])
    ensures TrimStart(ws + x) == x
  {
    if ws != [] {
      assert (ws + x)[1..] == ws[1..] + x;
      TrimStartSkipsSpace(ws[1..], x);
    }
  }

  /** Leading whitespace and any rationale after the token leave a SAFE answer allowed. */
  lemma SafeWithRationale(ws: string, rationale: string)
    requires AllSpace(ws)
    ensures Verdict(Answer(ws + SAFE_TOKEN + rationale))
  {
    assert ws + SAFE_TOKEN + rationale == ws + (SAFE_TOKEN + rationale);
    TrimStartSkipsSpace(ws, SAFE_TOKEN + rationale);
    VerdictReadsFirstWord(Answer(ws + SAFE_TOKEN + rationale));
  }

  /**
   * The JSON text of the extraction reply: from eight characters past the
   * first `<answer>` (so index 7 when there is none) to the first
   * `</answer>`, trimmed; nothing without a closing tag.
   */
  function AnswerPayload(content: string): (payload: Option<string>)
    // `indexOf('<answer>') + 8` is never -1: only the closing tag decides
    ensures payload.None? <==> IndexOf(content, CLOSE_TAG) == -1
  {
    var start := IndexOf(content, OPEN_TAG) + |OPEN_TAG|;
    var end := IndexOf(content, CLOSE_TAG);
    if start != -1 && end != -1 then Some(Trim(Substring(content, start, end))) else None
  }

  /**
   * A reply laid out as instructed yields the trimmed text between the tags,
   * whatever the payload holds, as long as the first closing tag is the one
   * after it.
   */
  lemma WellTaggedAnswer(body: string, post: string)
    requires IndexOf(OPEN_TAG + body + CLOSE_TAG + post, CLOSE_TAG) == |OPEN_TAG| + |body|
    ensures AnswerPayload(OPEN_TAG + body + CLOSE_TAG + post) == Some(Trim(body))
  {
    var content := OPEN_TAG + body + CLOSE_TAG + post;
    assert MatchAt(content, OPEN_TAG, 0) by { assert content[..|OPEN_TAG|] == OPEN_TAG; }
    IndexOfFirst(content, OPEN_TAG);
    assert IndexOf(content, OPEN_TAG) == 0;
    assert content[|OPEN_TAG|..|OPEN_TAG| + |body|] == body;
  }

  /**
   * Without an opening tag the payload is read from index 7, the value of
   * `-1 + 8`, up to the first closing tag; when that tag starts before
   * index 7, `substring` swaps its bounds and the text from the tag to
   * index 7 is read instead.
   */
  lemma MissingOpenTagReadsFromSeven(content: string)
    requires IndexOf(content, OPEN_TAG) == -1 && IndexOf(content, CLOSE_TAG) != -1
    ensures var e := IndexOf(content, CLOSE_TAG);
      && (e >= |OPEN_TAG| - 1 ==> AnswerPayload(content) == Some(Trim(content[|OPEN_TAG| - 1..e])))
      && (e < |OPEN_TAG| - 1 ==> AnswerPayload(content) == Some(Trim(content[e..|OPEN_TAG| - 1])))
  {
    var e := IndexOf(content, CLOSE_TAG);
    assert MatchAt(content, CLOSE_TAG, e);
    assert |content| >= e + |CLOSE_TAG|;
  }

  /** An element of the parsed list that is sent for a verdict: a string starting with '/'. */
  predicate IsSlashCommand(item: Json) {
    item.JString? && StartsWith(item.s, SLASH)
  }
}
