/** Parsing a tool-use response of the Anthropic API (pythoneer/llm.py). */
module Llm {
  import opened Common

  /** A decoded JSON value. A list or dict also carries its `str()`, as
      `Value.Other` does for the scalars it stands for: the f-string of an
      error message prints it. */
  datatype Json =
    | Leaf(v: Value)
    | Array(items: seq<Json>, text: string)
    | Object(fields: map<string, Json>, text: string)

  /** `str(j)` */
  function JsonText(j: Json): string {
    match j
    case Leaf(v) => Text(v)
    case Array(_, t) => t
    case Object(_, t) => t
  }

  /** `j[i]` for a non-negative int index. */
  function Index(j: Json, i: nat): (r: Result<Json>)
    ensures r.Success? <==> (j.Array? && i < |j.items|) || (j.Leaf? && j.v.Str? && i < |j.v.s|)
    ensures r.Success? && j.Array? ==> r.value == j.items[i]
  {
    match j
    case Array(items, _) => if i < |items| then Success(items[i]) else Failure(IndexError("list index out of range"))
    case Object(_, _) => Failure(KeyError(Int(i)))
    case Leaf(Str(s)) => if i < |s| then Success(Leaf(Str([s[i]]))) else Failure(IndexError("string index out of range"))
    case Leaf(v) => Failure(TypeError("'" + TypeName(v) + "' object is not subscriptable"))
  }

  /** `j[key]` for a string key. */
  function Field(j: Json, key: string): (r: Result<Json>)
    ensures r.Success? <==> j.Object? && key in j.fields
    ensures r.Success? ==> r.value == j.fields[key]
    ensures j.Object? && key !in j.fields ==> r == Failure(KeyError(Str(key)))
  {
    match j
    case Object(fields, _) => if key in fields then Success(fields[key]) else Failure(KeyError(Str(key)))
    case Array(_, _) => Failure(TypeError("list indices must be integers or slices, not str"))
    case Leaf(Str(_)) => Failure(TypeError("string indices must be integers, not 'str'"))
    case Leaf(v) => Failure(TypeError("'" + TypeName(v) + "' object is not subscriptable"))
  }

  /** The parts of a tool-use response the agent uses. */
  datatype ToolUseResponse = ToolUseResponse(thought: Json, toolId: Json, toolName: Json, toolArguments: Json)

  function UnexpectedStopReason(stopReason: Json): string {
    "Unexpected stop reason: " + JsonText(stopReason) + ". Expected 'tool_use'."
  }

  const ToolUse: Json := Leaf(Str("tool_use"))

  /** The thought from block 0's "text", the tool call from block 1's "id",
      "name" and "input"; each lookup fails as Python's does, in this order. */
  function ParseToolUseResponse(response: map<string, Json>): Result<ToolUseResponse> {
    if "stop_reason" !in response then Failure(KeyError(Str("stop_reason")))
    else if response["stop_reason"] != ToolUse then Failure(ValueError(UnexpectedStopReason(response["stop_reason"])))
    else if "content" !in response then Failure(KeyError(Str("content")))
    else
      var content := response["content"];
      var thoughtBlock :- Index(content, 0);
      var thought :- Field(thoughtBlock, "text");
      var toolUseBlock :- Index(content, 1);
      var toolId :- Field(toolUseBlock, "id");
      var toolName :- Field(toolUseBlock, "name");
      var toolArguments :- Field(toolUseBlock, "input");
      Success(ToolUseResponse(thought, toolId, toolName, toolArguments))
  }

  /** A response the parser accepts: stop reason "tool_use" and a content list
      whose first block has a text and whose second has an id, name and input. */
  predicate WellShaped(response: map<string, Json>) {
    && "stop_reason" in response && response["stop_reason"] == ToolUse
    && "content" in response && response["content"].Array?
    && var items := response["content"].items;
    && |items| >= 2
    && items[0].Object? && "text" in items[0].fields
    && items[1].Object? && "id" in items[1].fields && "name" in items[1].fields && "input" in items[1].fields
  }

  /** Parsing succeeds exactly on well-shaped responses, and then reads the
      four values from blocks 0 and 1. */
  lemma ParseSucceedsIffWellShaped(response: map<string, Json>)
    ensures ParseToolUseResponse(response).Success? <==> WellShaped(response)
    ensures ParseToolUseResponse(response).Success? ==>
              var items := response["content"].items;
              ParseToolUseResponse(response).value ==
                ToolUseResponse(items[0].fields["text"], items[1].fields["id"], items[1].fields["name"], items[1].fields["input"])
  {
    if ParseToolUseResponse(response).Success? {
      var content := response["content"];
      assert Index(content, 0).Success? && Field(Index(content, 0).value, "text").Success?;
      assert Index(content, 1).Success?;
    }
  }

  /** A stop reason other than "tool_use" is a ValueError naming it; a missing
      one is a key miss. */
  lemma WrongStopReasonRejected(response: map<string, Json>)
    ensures "stop_reason" !in response ==> ParseToolUseResponse(response) == Failure(KeyError(Str("stop_reason")))
    ensures "stop_reason" in response && response["stop_reason"] != ToolUse ==>
              ParseToolUseResponse(response) == Failure(ValueError(UnexpectedStopReason(response["stop_reason"])))
  {
  }

  /** A content list with fewer than two blocks fails: an empty list at block 0,
      a one-block list at block 1 (once block 0 has its text). */
  lemma FewerThanTwoBlocksFail(response: map<string, Json>)
    requires "stop_reason" in response && response["stop_reason"] == ToolUse
    requires "content" in response && response["content"].Array? && |response["content"].items| < 2
    ensures ParseToolUseResponse(response).Failure?
    ensures response["content"].items == [] ==>
              ParseToolUseResponse(response) == Failure(IndexError("list index out of range"))
    ensures |response["content"].items| == 1 && response["content"].items[0].Object?
            && "text" in response["content"].items[0].fields ==>
              ParseToolUseResponse(response) == Failure(IndexError("list index out of range"))
  {
  }

  /** Blocks after the second are never looked at. */
  lemma LaterBlocksIgnored(response: map<string, Json>, extra: seq<Json>)
    requires "content" in response && response["content"].Array? && |response["content"].items| >= 2
    ensures var content := response["content"];
            var longer := response["content" := Array(content.items[..2] + extra, content.text)];
            ParseToolUseResponse(longer) == ParseToolUseResponse(response)
  {
    var content := response["content"];
    var longer := response["content" := Array(content.items[..2] + extra, content.text)];
    assert longer["content"].items[0] == content.items[0];
    assert longer["content"].items[1] == content.items[1];
  }

  /** The API's tool-use response for `r`: a text block, a tool-use block and
      any further blocks. */
  function Render(r: ToolUseResponse, more: seq<Json>, textOf: string, thoughtText: string, callText: string): map<string, Json> {
    map[
      "stop_reason" := ToolUse,
      "content" := Array(
        [ Object(map["type" := Leaf(Str("text")), "text" := r.thought], thoughtText),
          Object(map["type" := Leaf(Str("tool_use")), "id" := r.toolId, "name" := r.toolName, "input" := r.toolArguments], callText) ]
        + more, textOf)
    ]
  }

  /** Parsing a rendered response gives back what was rendered. */
  lemma ParseRender(r: ToolUseResponse, more: seq<Json>, textOf: string, thoughtText: string, callText: string)
    ensures ParseToolUseResponse(Render(r, more, textOf, thoughtText, callText)) == Success(r)
  {
    var response := Render(r, more, textOf, thoughtText, callText);
    var items := response["content"].items;
    assert items[0].fields["text"] == r.thought;
    assert items[1].fields["id"] == r.toolId && items[1].fields["name"] == r.toolName;
    assert items[1].fields["input"] == r.toolArguments;
  }
}
