/** The tool-result message sent back to the language model
    (pythoneer/messages.py). */
module Messages {
  import opened Common

  /** One block of a message's `content` list. */
  datatype ContentBlock =
      /** `{"type": "tool_result", "tool_use_id": ..., "content": ...}` */
    | ToolResult(toolUseId: string, content: string)
      /** `{"type": "text", "text": ...}` */
    | Text(text: string)
  {
    /** The block's "type" entry. */
    function Type(): string {
      match this
      case ToolResult(_, _) => "tool_result"
      case Text(_) => "text"
    }
  }

  /** `{"role": ..., "content": [...]}` */
  datatype JsonMessage = JsonMessage(role: string, content: seq<ContentBlock>)

  /** A tool result from the user: the id of the tool-use request it answers,
      the full and the summarised observation, and an optional review comment. */
  datatype UserMessage = UserMessage(
    toolId: string,
    observation: string,
    summarisedObservation: string,
    reviewComment: Option<string>)
  {
    /** The role every user message carries. */
    static const Role: string := "user"

    /** Python's truth value of the review comment: neither None nor "". */
    predicate HasReviewComment() {
      reviewComment.Some? && reviewComment.value != ""
    }

    /** The message in the form the language model is given. */
    function ReturnJsonMessage(summarised: bool := false, includeReviewComment: bool := true): (m: JsonMessage)
      ensures m.role == "user"
      ensures 1 <= |m.content| <= 2
      ensures m.content[0].ToolResult? && m.content[0].toolUseId == toolId
      ensures m.content[0].content == if summarised then summarisedObservation else observation
      ensures |m.content| == 2 <==> HasReviewComment() && includeReviewComment
      ensures |m.content| == 2 ==> m.content[1] == Text(reviewComment.value)
    {
      var toolResultContent := if summarised then summarisedObservation else observation;
      var content := [ToolResult(toolId, toolResultContent)];
      var content := if HasReviewComment() && includeReviewComment then content + [Text(reviewComment.value)] else content;
      JsonMessage(Role, content)
    }
  }

  /** The `summarised` flag only chooses the tool result's content: the role,
      the tool id and the review-comment block are the same either way. */
  lemma SummarisedChangesOnlyToolResult(u: UserMessage, includeReviewComment: bool)
    ensures var full := u.ReturnJsonMessage(false, includeReviewComment);
            var short := u.ReturnJsonMessage(true, includeReviewComment);
            && full.role == short.role
            && |full.content| == |short.content|
            && full.content[1..] == short.content[1..]
            && full.content[0] == short.content[0].(content := u.observation)
  {
  }

  /** Leaving the review comment out gives the message of the same result
      without a comment, and so does an empty comment. */
  lemma OmittedCommentIsNoComment(u: UserMessage, summarised: bool)
    ensures u.ReturnJsonMessage(summarised, false) == u.(reviewComment := None).ReturnJsonMessage(summarised, true)
    ensures u.(reviewComment := Some("")).ReturnJsonMessage(summarised, true) == u.ReturnJsonMessage(summarised, false)
  {
  }

  /** The message keeps everything the model needs: the tool id, the chosen
      observation, whether there is a (non-empty) review comment and, when
      there is one, the comment itself can be read back. */
  lemma MessageDeterminesResult(u: UserMessage, v: UserMessage, summarised: bool)
    requires u.ReturnJsonMessage(summarised, true) == v.ReturnJsonMessage(summarised, true)
    ensures u.toolId == v.toolId
    ensures summarised ==> u.summarisedObservation == v.summarisedObservation
    ensures !summarised ==> u.observation == v.observation
    ensures u.HasReviewComment() == v.HasReviewComment()
    ensures u.HasReviewComment() ==> u.reviewComment == v.reviewComment
  {
    var mu := u.ReturnJsonMessage(summarised, true);
    assert |mu.content| == 2 <==> u.HasReviewComment();
    if u.HasReviewComment() {
      assert mu.content[1] == Text(u.reviewComment.value);
    }
  }
}
