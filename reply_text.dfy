/**
 * How every Claude call site turns a Messages API reply into a value: take the
 * first content block's text (or "" when that block is not text), delete the
 * code-fence markers "```json\n" and "\n```" everywhere, fall back to "{}" when
 * nothing is left, and `JSON.parse` the rest.
 */
module ReplyText {
  import opened JsRuntime

  /** One block of a reply's `content` array. */
  datatype ContentBlock = TextBlock(text: string) | OtherBlock

  datatype Reply = Reply(content: seq<ContentBlock>)

  /** What `anthropic.messages.create` does: throw, or resolve with a reply. */
  datatype ClaudeCall = ClaudeThrows(message: string) | ClaudeReplied(reply: Reply)

  /** `JSON.parse`, which the model takes as a parameter: a value, or a SyntaxError's message. */
  type Parser = string -> Result<Json>

  const EMPTY_CONTENT_ERROR := ReadError("undefined", "type")

  /**
   * `content[0]`, then `block.type === 'text' ? block.text : ''`; with no
   * blocks, reading `type` of `undefined` throws.
   */
  function FirstBlockText(reply: Reply): (r: Result<string>)
    ensures r.Err? <==> reply.content == []
    ensures r.Ok? && r.value != "" ==> reply.content[0] == TextBlock(r.value)
  {
    if reply.content == [] then Err(EMPTY_CONTENT_ERROR)
    else match reply.content[0]
      case TextBlock(t) => Ok(t)
      case OtherBlock => Ok("")
  }

  const OPEN_FENCE := "```json\n"
  const CLOSE_FENCE := "\n```"

  /**
   * `s.replace(/```json\n|\n```/g, '')`: scanning left to right, a marker that
   * starts at the current position is deleted (the opening one is tried first)
   * and the scan resumes after it; otherwise the character is kept.
   */
  function StripFences(s: string): (r: string)
    ensures |r| <= |s|
    decreases |s|
  {
    if s == [] then []
    else if StartsWith(s, OPEN_FENCE) then StripFences(s[|OPEN_FENCE|..])
    else if StartsWith(s, CLOSE_FENCE) then StripFences(s[|CLOSE_FENCE|..])
    else [s[0]] + StripFences(s[1..])
  }

  /** `content.replace(...) || '{}'` */
  function CleanContent(content: string): (r: string)
    ensures r != ""
    ensures StripFences(content) != "" ==> r == StripFences(content)
  {
    var c := StripFences(content);
    if c == "" then "{}" else c
  }

  /** First-block text, fence stripping, "{}" fallback and parse, in that order. */
  function ParseReply(call: ClaudeCall, parse: Parser): (r: Result<Json>)
    ensures call.ClaudeThrows? ==> r == Err(call.message)
    ensures call.ClaudeReplied? && call.reply.content == [] ==> r == Err(EMPTY_CONTENT_ERROR)
    ensures call.ClaudeReplied? && FirstBlockText(call.reply).Ok? ==>
              r == parse(CleanContent(FirstBlockText(call.reply).value))
  {
    match call
    case ClaudeThrows(m) => Err(m)
    case ClaudeReplied(reply) =>
      var text :- FirstBlockText(reply);
      parse(CleanContent(text))
  }

  predicate NoBacktick(s: string) {
    forall k :: 0 <= k < |s| ==> s[k] != '`'
  }

  /** Text without a backtick has no fence marker in it and is left alone. */
  lemma {:induction false} StripFencesNoBacktick(s: string)
    requires NoBacktick(s)
    ensures StripFences(s) == s
    decreases |s|
  {
    if s != [] {
      assert !StartsWith(s, OPEN_FENCE) by { assert s[0] != OPEN_FENCE[0]; }
      if |s| >= |CLOSE_FENCE| {
        assert !StartsWith(s, CLOSE_FENCE) by { assert s[1] != CLOSE_FENCE[1]; }
      }
      StripFencesNoBacktick(s[1..]);
      assert [s[0]] + s[1..] == s;
    }
  }

  /** A backtick-free body followed by the closing marker loses exactly the marker. */
  lemma {:induction false} StripFencesBeforeClose(x: string)
    requires NoBacktick(x)
    ensures StripFences(x + CLOSE_FENCE) == x
    decreases |x|
  {
    var s := x + CLOSE_FENCE;
    if x == [] {
      assert s == CLOSE_FENCE;
      assert StartsWith(s, CLOSE_FENCE);
      assert s[|CLOSE_FENCE|..] == [];
    } else {
      assert s[0] == x[0];
      assert !StartsWith(s, OPEN_FENCE) by { assert s[0] != OPEN_FENCE[0]; }
      assert s[1] != '`' by {
        if |x| > 1 { assert s[1] == x[1]; } else { assert s[1] == CLOSE_FENCE[0]; }
      }
      assert !StartsWith(s, CLOSE_FENCE) by { assert s[1] != CLOSE_FENCE[1]; }
      assert s[1..] == x[1..] + CLOSE_FENCE;
      StripFencesBeforeClose(x[1..]);
      assert [x[0]] + x[1..] == x;
    }
  }

  /** Round trip: wrapping a backtick-free body in a json code fence and cleaning it gives the body back. */
  lemma FenceRoundTrip(body: string)
    requires NoBacktick(body)
    ensures StripFences(OPEN_FENCE + body + CLOSE_FENCE) == body
    ensures CleanContent(OPEN_FENCE + body + CLOSE_FENCE) == (if body == "" then "{}" else body)
  {
    var s := OPEN_FENCE + body + CLOSE_FENCE;
    assert StartsWith(s, OPEN_FENCE) by { assert s[..|OPEN_FENCE|] == OPEN_FENCE; }
    assert s[|OPEN_FENCE|..] == body + CLOSE_FENCE;
    StripFencesBeforeClose(body);
  }

  /**
   * The markers are deleted leftmost first and never overlap: in "\n```json\n{}"
   * the closing marker at position 0 wins over the opening one at position 1.
   */
  lemma LeftmostMarkerWins()
    ensures StripFences("\n```json\n{}") == "json\n{}"
  {
    var s := "\n```json\n{}";
    assert StartsWith(s, CLOSE_FENCE) by { assert s[..4] == CLOSE_FENCE; }
    assert !StartsWith(s, OPEN_FENCE) by { assert s[0] != OPEN_FENCE[0]; }
    assert s[4..] == "json\n{}";
    StripFencesNoBacktick("json\n{}");
  }
}
