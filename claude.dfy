/** The part of `generateComponent` in claude.js that runs after the model has
    replied: picking the tool call out of the reply and validating its input. The
    request to the model itself is not part of this model; its reply is the input. */
module Claude {
  import opened Js

  /** A content block of the reply; `input` is the tool-input record of a
      `tool_use` block (a missing key reads as `undefined`). */
  datatype Block = Block(kind: string, input: map<string, Value>)

  /** What `generateComponent` returns. */
  datatype Composition = Composition(componentCode: string, durationInFrames: real, fps: Value, title: Value)

  /** The errors `generateComponent` throws after the call. */
  datatype Failure =
    | NoToolCall
    | BadComponentCode(got: Value)
    | BadDuration(got: Value)

  datatype Outcome = Generated(composition: Composition) | Rejected(failure: Failure)

  /** `record.key`, `undefined` when absent. */
  function Field(input: map<string, Value>, key: string): Value {
    if key in input then input[key] else Undefined
  }

  predicate IsToolUse(b: Block) {
    b.kind == "tool_use"
  }

  /** `content.find((block) => block.type === 'tool_use')` */
  function FindToolUse(content: seq<Block>): (r: Option<Block>)
    ensures r.None? <==> forall i :: 0 <= i < |content| ==> !IsToolUse(content[i])
    ensures r.Some? ==> exists i :: (0 <= i < |content| && content[i] == r.value && IsToolUse(content[i])
      && forall j :: 0 <= j < i ==> !IsToolUse(content[j]))
  {
    Find(content, IsToolUse)
  }

  /** Accepted component code: a string with at least one character that is not
      white space. */
  predicate CodeAcceptable(v: Value) {
    v.Str? && exists i :: 0 <= i < |v.s| && !IsWhitespace(v.s[i])
  }

  /** Accepted duration: a non-zero number (negative and fractional ones pass). */
  predicate DurationAcceptable(v: Value) {
    v.Number? && v.n != 0.0
  }

  /** The source's test `!code || typeof code !== 'string' || code.trim().length === 0`
      rejects exactly the values that are not acceptable code. */
  lemma CodeTestIff(code: Value)
    ensures (!Truthy(code) || TypeOf(code) != "string" || |Trim(code.s)| == 0) <==> !CodeAcceptable(code)
  {
    if code.Str? {
      TrimEmptyIff(code.s);
    }
  }

  /** The checks of a tool-input record, in the source's order: `component_code`
      first, then `duration_in_frames`; `fps` is never checked and defaults to 30
      when falsy; the code, the duration and the title are passed through unchanged. */
  function CheckInput(input: map<string, Value>): (r: Outcome)
    ensures var code := Field(input, "component_code");
      var duration := Field(input, "duration_in_frames");
      var fps := Field(input, "fps");
      && (r == Rejected(BadComponentCode(code)) <==> !CodeAcceptable(code))
      && (r == Rejected(BadDuration(duration)) <==> CodeAcceptable(code) && !DurationAcceptable(duration))
      && (r.Generated? <==> CodeAcceptable(code) && DurationAcceptable(duration))
      && (r.Generated? ==> r.composition == Composition(code.s, duration.n,
            if Truthy(fps) then fps else Number(30.0), Field(input, "title")))
  {
    var code := Field(input, "component_code");
    var duration := Field(input, "duration_in_frames");
    var fps := Field(input, "fps");
    var title := Field(input, "title");
    CodeTestIff(code);
    if !Truthy(code) || TypeOf(code) != "string" || |Trim(code.s)| == 0 then
      Rejected(BadComponentCode(code))
    else if !Truthy(duration) || TypeOf(duration) != "number" then
      Rejected(BadDuration(duration))
    else
      Generated(Composition(code.s, duration.n, Or(fps, Number(30.0)), title))
  }

  /** The post-call part of `generateComponent`: the first `tool_use` block must
      exist, and its input is then checked. */
  function ValidateToolOutput(content: seq<Block>): (r: Outcome)
    ensures r == Rejected(NoToolCall) <==> FindToolUse(content).None?
    ensures FindToolUse(content).Some? ==> r == CheckInput(FindToolUse(content).value.input)
  {
    match FindToolUse(content)
    case None => Rejected(NoToolCall)
    case Some(toolUse) => CheckInput(toolUse.input)
  }
}
