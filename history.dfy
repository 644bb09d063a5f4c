/**
 * The per-chat conversation history: a map from chat id to the list of
 * messages exchanged so far, and the prompt built from its most recent entries.
 */
module History {
  import opened Text

  /** Chat id -> messages, oldest first (user texts and stripped completions). */
  type Store = map<int, seq<string>>

  /** How many of the most recent entries make up a prompt (the slice [-5:]). */
  const WindowSize: nat := 5

  // replies of the /new and /stop commands
  const NewConversationReply := "Starting a new conversation. Send me a message and I'll try to respond."
  const ContextDeletedReply := "Conversation context has been deleted."
  const NoContextReply := "There is no conversation context to delete."

  /** The history of a chat; a chat without an entry has none. */
  function HistoryOf(store: Store, chat: int): seq<string> {
    if chat in store then store[chat] else []
  }

  /** Python's h[start:] for a possibly negative start index. */
  function SliceFrom<T>(h: seq<T>, start: int): seq<T> {
    var i := if start < 0 then (if start + |h| < 0 then 0 else start + |h|)
             else if start > |h| then |h| else start;
    h[i..]
  }

  /** The entries a prompt is built from: h[-5:]. */
  function Window(h: seq<string>): seq<string> {
    SliceFrom(h, -(WindowSize as int))
  }

  /** The prompt: the window joined by newlines. */
  function Prompt(h: seq<string>): string {
    Join("\n", Window(h))
  }

  /** The window is the last min(5, |h|) entries of h, oldest first. */
  lemma WindowIsLastEntries(h: seq<string>)
    ensures |Window(h)| == if |h| < WindowSize then |h| else WindowSize
    ensures forall k :: 0 <= k < |Window(h)| ==> Window(h)[k] == h[|h| - |Window(h)| + k]
  {
  }

  /**
   * Appending an entry slides the window: the new entry comes in at the end
   * and, once the window is full, the oldest entry drops out.
   */
  lemma WindowSlides(h: seq<string>, m: string)
    ensures Window(h + [m]) ==
            (if |h| < WindowSize then Window(h) else Window(h)[1..]) + [m]
  {
    WindowIsLastEntries(h);
    WindowIsLastEntries(h + [m]);
  }

  /** A prompt built right after appending a message ends with that message. */
  lemma PromptEndsWithLatest(h: seq<string>, m: string)
    ensures var p := Prompt(h + [m]);
            |m| <= |p| && p[|p| - |m|..] == m
  {
    var w := Window(h + [m]);
    WindowSlides(h, m);
    JoinEndsWithLast("\n", w);
  }
}
