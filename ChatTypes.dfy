/** Values shared by the chat endpoint and the traced completion:
    chat messages and the provider's token-usage record. */
module ChatTypes {
  import opened Wrappers

  /** A `{role, content}` chat turn; `content` is None when it is `null`.
      `extra` holds any other properties a caller put on the object; they
      travel with the object unchanged. */
  datatype Message = Message(role: string, content: Option<string>, extra: map<string, string>)

  /** The provider's `usage` object; a count the provider left out is None. */
  datatype Usage = Usage(promptTokens: Option<nat>, completionTokens: Option<nat>, totalTokens: Option<nat>)

  /** The three token counts read as `usage?.prompt_tokens`,
      `usage?.completion_tokens` and `usage?.total_tokens`. */
  datatype TokenCounts = TokenCounts(prompt: Option<nat>, completion: Option<nat>, total: Option<nat>)

  /** Optional chaining on a possibly missing usage record: every count is
      absent when the record is, and otherwise is the record's own field,
      itself absent when the provider left it out. */
  function TokensOf(usage: Option<Usage>): (t: TokenCounts)
    ensures usage.None? ==> t.prompt.None? && t.completion.None? && t.total.None?
    ensures usage.Some? ==>
      && t.prompt == usage.value.promptTokens
      && t.completion == usage.value.completionTokens
      && t.total == usage.value.totalTokens
  {
    match usage
    case None => TokenCounts(None, None, None)
    case Some(u) => TokenCounts(u.promptTokens, u.completionTokens, u.totalTokens)
  }
}
