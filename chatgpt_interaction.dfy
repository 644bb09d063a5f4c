/**
 * The reply pipeline for a plain text message: access check, history
 * update, prompt, backend call, and delivery of the reply in parts.
 */
module ChatgptInteraction {
  import opened Wrappers
  import opened Text
  import opened Chunking
  import opened History
  import opened Utils

  const NotAllowedReply := "Sorry, you are not allowed to use this bot."

  /**
   * Handles a text message `text` from `user` in `chat`.
   * `allowList` is what reading the allow-list file gives at this moment and
   * `backend` the text-completion service (the first choice's text, or the
   * error it raises). Returns the messages sent back in order, the request
   * made to the backend, if any, and the error that escapes the handler, if any.
   */
  method GenerateResponse(
    st: State, chat: int, user: int, text: string,
    allowList: AllowListFile, parseInt: IntParser,
    backend: CompletionRequest -> Result<string, string>)
    returns (replies: seq<string>, request: Option<CompletionRequest>, raised: Option<string>)
    modifies st
    // a user who is not let in gets one fixed reply and nothing changes
    ensures !IsAllowedUser(user, allowList, parseInt) ==>
              && replies == [NotAllowedReply] && request.None? && raised.None?
              && st.chatHistory == old(st.chatHistory)
              && st.userPreferences == old(st.userPreferences)
    ensures IsAllowedUser(user, allowList, parseInt) ==>
              var prefs := PrefsOf(old(st.userPreferences), st.Defaults(), user);
              var asked := HistoryOf(old(st.chatHistory), chat) + [text];
              // the user's record is created if needed; the request uses its
              // max_tokens and temperature with the global n and stop
              && st.userPreferences == old(st.userPreferences)[user := prefs]
              && request == Some(CompletionRequest(st.config.modelId, Prompt(asked),
                                                   prefs.maxTokens, st.config.n,
                                                   st.config.stop, prefs.temperature))
              && match backend(request.value)
                 // the backend failed: the user's text stays in the history, nothing is sent
                 case Err(e) =>
                   && raised == Some(e) && replies == []
                   && st.chatHistory == old(st.chatHistory)[chat := asked]
                 // the stripped completion is sent in parts and then recorded
                 case Ok(completion) =>
                   && raised.None?
                   && replies == Chunk(Strip(completion), MaxMessageLength)
                   && st.chatHistory == old(st.chatHistory)[chat := asked + [Strip(completion)]]
  {
    if IsAllowedUser(user, allowList, parseInt) {
      var preferences := st.Preferences(user);
      if chat !in st.chatHistory {
        st.chatHistory := st.chatHistory[chat := []];
      }
      st.chatHistory := st.chatHistory[chat := st.chatHistory[chat] + [text]];
      var prompt := Prompt(st.chatHistory[chat]);
      var req := CompletionRequest(st.config.modelId, prompt, preferences.maxTokens,
                                   st.config.n, st.config.stop, preferences.temperature);
      request := Some(req);
      match backend(req)
      case Err(e) =>
        replies, raised := [], Some(e);
      case Ok(completion) =>
        var message := Strip(completion);
        var parts := Chunk(message, MaxMessageLength);
        replies := [];
        for idx := 0 to |parts|
          invariant replies == parts[..idx]
        {
          replies := replies + [parts[idx]];
        }
        st.chatHistory := st.chatHistory[chat := st.chatHistory[chat] + [message]];
        raised := None;
    } else {
      replies, request, raised := [NotAllowedReply], None, None;
    }
  }
}
