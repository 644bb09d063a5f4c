/**
 * The older single-file variant of the bot: its own conversation history,
 * no access check, no preferences, and a fixed request.
 */
module TelegramBot {
  import opened Wrappers
  import opened Text
  import opened History
  import Utils

  /** The variant's module-level state: its own chat_history and the model id. */
  class LegacyState {
    var chatHistory: Store
    const modelId: Option<string>

    constructor (modelId: Option<string>)
      ensures this.modelId == modelId && chatHistory == map[]
    {
      this.modelId := modelId;
      chatHistory := map[];
    }
  }

  /** The request generate_text makes: the prompt with fixed parameters. */
  function FixedRequest(modelId: Option<string>, history: seq<string>): Utils.CompletionRequest {
    Utils.CompletionRequest(modelId, Prompt(history), 60, 1, None, 0.5)
  }

  /**
   * generate_text: the stripped completion for the history's prompt, or the
   * backend's error.
   */
  function GenerateText(
    modelId: Option<string>, history: seq<string>,
    backend: Utils.CompletionRequest -> Result<string, string>): (r: Result<string, string>)
    ensures r.Err? <==> backend(FixedRequest(modelId, history)).Err?
    ensures r.Ok? ==> r.value == Strip(backend(FixedRequest(modelId, history)).value)
    ensures r.Ok? ==> r.value == [] || (!IsSpace(r.value[0]) && !IsSpace(r.value[|r.value| - 1]))
  {
    match backend(FixedRequest(modelId, history))
    case Err(e) => Err(e)
    case Ok(text) => StripEdges(text); Ok(Strip(text))
  }

  /**
   * Handles a text message: the text is appended to the chat's history, the
   * response is sent as one message and appended after it. When the backend
   * fails the error escapes, nothing is sent and the text stays appended.
   */
  method GenerateResponse(
    st: LegacyState, chat: int, text: string,
    backend: Utils.CompletionRequest -> Result<string, string>)
    returns (replies: seq<string>, request: Utils.CompletionRequest, raised: Option<string>)
    modifies st`chatHistory
    ensures var asked := HistoryOf(old(st.chatHistory), chat) + [text];
            && request == FixedRequest(st.modelId, asked)
            && match GenerateText(st.modelId, asked, backend)
               case Err(e) =>
                 && raised == Some(e) && replies == []
                 && st.chatHistory == old(st.chatHistory)[chat := asked]
               case Ok(response) =>
                 && raised.None? && replies == [response]
                 && st.chatHistory == old(st.chatHistory)[chat := asked + [response]]
  {
    if chat !in st.chatHistory {
      st.chatHistory := st.chatHistory[chat := []];
    }
    st.chatHistory := st.chatHistory[chat := st.chatHistory[chat] + [text]];
    request := FixedRequest(st.modelId, st.chatHistory[chat]);
    var response := GenerateText(st.modelId, st.chatHistory[chat], backend);
    match response
    case Err(e) =>
      replies, raised := [], Some(e);
    case Ok(message) =>
      replies := [message];
      st.chatHistory := st.chatHistory[chat := st.chatHistory[chat] + [message]];
      raised := None;
  }

  /** /new: the chat's history becomes empty, whatever it was. */
  method NewConversation(st: LegacyState, chat: int) returns (reply: string)
    modifies st`chatHistory
    ensures st.chatHistory == old(st.chatHistory)[chat := []]
    ensures reply == NewConversationReply
  {
    st.chatHistory := st.chatHistory[chat := []];
    reply := NewConversationReply;
  }

  /** /stop: resets a chat that has an entry; a chat without one gets none. */
  method StopConversation(st: LegacyState, chat: int) returns (reply: string)
    modifies st`chatHistory
    ensures chat in old(st.chatHistory) ==>
              st.chatHistory == old(st.chatHistory)[chat := []] && reply == ContextDeletedReply
    ensures chat !in old(st.chatHistory) ==>
              st.chatHistory == old(st.chatHistory) && reply == NoContextReply
  {
    if chat in st.chatHistory {
      st.chatHistory := st.chatHistory[chat := []];
      reply := ContextDeletedReply;
    } else {
      reply := NoContextReply;
    }
  }
}
