/**
 * The slash-command handlers: /new, /stop, /settings and /help.
 */
module Commands {
  import opened Wrappers
  import opened History
  import opened Utils

  /** /new: the chat's history becomes empty, whatever it was. */
  method NewConversation(st: State, chat: int) returns (reply: string)
    modifies st`chatHistory
    ensures st.chatHistory == old(st.chatHistory)[chat := []]
    ensures reply == NewConversationReply
  {
    st.chatHistory := st.chatHistory[chat := []];
    reply := NewConversationReply;
  }

  /**
   * /stop: a chat that has an entry, even an empty one, is reset; a chat
   * without one is left without one.
   */
  method StopConversation(st: State, chat: int) returns (reply: string)
    modifies st`chatHistory
    ensures chat in old(st.chatHistory) ==>
              st.chatHistory == old(st.chatHistory)[chat := []] && reply == ContextDeletedReply
    ensures chat !in old(st.chatHistory) ==>
              st.chatHistory == old(st.chatHistory) && reply == NoContextReply
  {
    if chat in st.chatHistory {
      st.chatHistory := st.chatHistory[chat := []];
      reply := ContextDeletedReply;
    } else {
      reply := NoContextReply;
    }
  }

  // ----- /settings -----

  /** The five keys /settings recognises. */
  datatype SettingKey = MaxTokens | Temperature | TopP | PresencePenalty | FrequencyPenalty

  /** A field's value: max_tokens is an int, the others are floats. */
  datatype SettingValue = IntValue(i: int) | RealValue(r: real)

  function KeyName(k: SettingKey): string {
    match k
    case MaxTokens => "max_tokens"
    case Temperature => "temperature"
    case TopP => "top_p"
    case PresencePenalty => "presence_penalty"
    case FrequencyPenalty => "frequency_penalty"
  }

  /** The key a /settings argument names, if any. */
  function KeyOf(name: string): (k: Option<SettingKey>)
    ensures k.Some? ==> KeyName(k.value) == name
    ensures k.None? ==> forall key: SettingKey :: KeyName(key) != name
  {
    if name == "max_tokens" then Some(MaxTokens)
    else if name == "temperature" then Some(Temperature)
    else if name == "top_p" then Some(TopP)
    else if name == "presence_penalty" then Some(PresencePenalty)
    else if name == "frequency_penalty" then Some(FrequencyPenalty)
    else None
  }

  /** Every key is recognised by its own name. */
  lemma KeyRoundTrip(k: SettingKey)
    ensures KeyOf(KeyName(k)) == Some(k)
  {
  }

  /** The field of a record that a key names. */
  function Field(p: Prefs, k: SettingKey): SettingValue {
    match k
    case MaxTokens => IntValue(p.maxTokens)
    case Temperature => RealValue(p.temperature)
    case TopP => RealValue(p.topP)
    case PresencePenalty => RealValue(p.presencePenalty)
    case FrequencyPenalty => RealValue(p.frequencyPenalty)
  }

  /** Parses a raw value with int() for max_tokens and float() for the other keys. */
  function ParseValue(k: SettingKey, raw: string, parseInt: IntParser, parseFloat: FloatParser): Result<SettingValue, string> {
    if k == MaxTokens then
      match parseInt(raw)
      case Ok(i) => Ok(IntValue(i))
      case Err(e) => Err(e)
    else
      match parseFloat(raw)
      case Ok(r) => Ok(RealValue(r))
      case Err(e) => Err(e)
  }

  /** The record with one field replaced; the value must have that field's type. */
  function WithField(p: Prefs, k: SettingKey, v: SettingValue): (q: Prefs)
    requires (k == MaxTokens) == v.IntValue?
    ensures Field(q, k) == v
    ensures forall other: SettingKey :: other != k ==> Field(q, other) == Field(p, other)
  {
    match k
    case MaxTokens => p.(maxTokens := v.i)
    case Temperature => p.(temperature := v.r)
    case TopP => p.(topP := v.r)
    case PresencePenalty => p.(presencePenalty := v.r)
    case FrequencyPenalty => p.(frequencyPenalty := v.r)
  }

  /** A parsed value has the type of the field it is for. */
  lemma ParseValueTyped(k: SettingKey, raw: string, parseInt: IntParser, parseFloat: FloatParser)
    ensures ParseValue(k, raw, parseInt, parseFloat).Ok? ==>
              (k == MaxTokens) == ParseValue(k, raw, parseInt, parseFloat).value.IntValue?
  {
  }

  const InvalidKeyReply := "Invalid setting key. Available settings: max_tokens, temperature, top_p, presence_penalty, frequency_penalty."

  /** The text of the IndexError raised by args[1] when only a key is given. */
  const MissingValueError := "list index out of range"

  function ErrorReply(e: string): string {
    "Error updating settings: " + e
  }

  function UpdatedReply(key: string, value: string): string {
    "Updated " + key + " to " + value + "."
  }

  /** The usage notes that close the /settings listing. */
  const SettingsUsage :=
    "To update a setting, use the following format:\n"
    + "/settings <key> <value>\n\n"
    + "Available settings keys:\n"
    + "max_tokens - Maximum length of the generated response (range: 1-2048)\n"
    + "temperature - Controls response creativity (range: 0.0-1.0)\n"
    + "top_p - Controls nucleus sampling (range: 0.0-1.0)\n"
    + "presence_penalty - Penalizes tokens based on presence in the prompt (range: 0.0-1.0)\n"
    + "frequency_penalty - Penalizes tokens based on frequency (range: 0.0-1.0)"

  /**
   * The listing sent by /settings without arguments; `showInt` and `showReal`
   * are Python's formatting of an int and of a float.
   */
  function SettingsListing(p: Prefs, showInt: int -> string, showReal: real -> string): string {
    "Current settings:\n"
    + "max_tokens: " + showInt(p.maxTokens) + " \n"
    + "temperature: " + showReal(p.temperature) + " \n"
    + "top_p: " + showReal(p.topP) + " \n"
    + "presence_penalty: " + showReal(p.presencePenalty) + " \n"
    + "frequency_penalty: " + showReal(p.frequencyPenalty) + " \n\n"
    + SettingsUsage
  }

  /**
   * /settings [key value]. Without arguments, lists the user's record (creating
   * it if needed). With a recognised key and a value that parses, sets that one
   * field, with no range check. A missing value, an unknown key or a value that
   * does not parse changes nothing.
   */
  method SettingsCommand(
    st: State, user: int, args: seq<string>,
    parseInt: IntParser, parseFloat: FloatParser,
    showInt: int -> string, showReal: real -> string)
    returns (reply: string)
    modifies st`userPreferences
    ensures |args| == 0 ==>
              var p := PrefsOf(old(st.userPreferences), st.Defaults(), user);
              && st.userPreferences == old(st.userPreferences)[user := p]
              && reply == SettingsListing(p, showInt, showReal)
    ensures |args| == 1 ==>
              st.userPreferences == old(st.userPreferences) && reply == ErrorReply(MissingValueError)
    ensures |args| >= 2 && KeyOf(args[0]).None? ==>
              st.userPreferences == old(st.userPreferences) && reply == InvalidKeyReply
    ensures |args| >= 2 && KeyOf(args[0]).Some? ==>
              var key := KeyOf(args[0]).value;
              match ParseValue(key, args[1], parseInt, parseFloat)
              case Err(e) =>
                st.userPreferences == old(st.userPreferences) && reply == ErrorReply(e)
              case Ok(v) =>
                var p := PrefsOf(old(st.userPreferences), st.Defaults(), user);
                && (key == MaxTokens) == v.IntValue?
                && st.userPreferences == old(st.userPreferences)[user := WithField(p, key, v)]
                && reply == UpdatedReply(args[0], args[1])
  {
    if |args| > 0 {
      if |args| < 2 {
        reply := ErrorReply(MissingValueError);
        return;
      }
      var key, value := args[0], args[1];
      var k := KeyOf(key);
      if k.None? {
        reply := InvalidKeyReply;
        return;
      }
      // the value is parsed before the user's record is looked up
      var parsed := ParseValue(k.value, value, parseInt, parseFloat);
      if parsed.Err? {
        reply := ErrorReply(parsed.error);
        return;
      }
      ParseValueTyped(k.value, value, parseInt, parseFloat);
      var current := st.Preferences(user);
      st.userPreferences := st.userPreferences[user := WithField(current, k.value, parsed.value)];
      reply := UpdatedReply(key, value);
    } else {
      var preferences := st.Preferences(user);
      reply := SettingsListing(preferences, showInt, showReal);
    }
  }

  // ----- /help -----

  const FullHelp :=
    "Available commands:\n"
    + "/new - Start a new conversation\n"
    + "/stop - Stop the current conversation and delete context\n"
    + "/image - Generate an image using DALL-E. Usage: /image <your prompt>\n"
    + "/settings - Show or update user preferences\n"
    + "/help - Show this help message\n"

  const UnknownCommandHelp := "Sorry, that command is not recognized. Please type /help for a list of available commands."

  const NewHelp := "Start a new conversation by typing /new"
  const StopHelp := "Stop the current conversation and delete context by typing /stop"
  const ImageHelp := "Generate an image using DALL-E. Usage: /image <your prompt>"
  const SettingsHelp := "Show or update user preferences by typing /settings, or /settings <key> <value> to update a setting."
  const HelpHelp := "Show the available commands by typing /help"

  /** The help text of each command /help knows about. */
  const CommandHelp: map<string, string> := map[
    "/new" := NewHelp,
    "/stop" := StopHelp,
    "/image" := ImageHelp,
    "/settings" := SettingsHelp,
    "/help" := HelpHelp
  ]

  /** The text /help replies with, chosen by its first argument. */
  function HelpText(args: seq<string>): (text: string)
    ensures |args| == 0 ==> text == FullHelp
    ensures |args| > 0 && args[0] in CommandHelp ==> text == CommandHelp[args[0]]
    ensures |args| > 0 && args[0] !in CommandHelp ==> text == UnknownCommandHelp
  {
    if |args| > 0 then
      var command := args[0];
      if command == "/new" then NewHelp
      else if command == "/stop" then StopHelp
      else if command == "/image" then ImageHelp
      else if command == "/settings" then SettingsHelp
      else if command == "/help" then HelpHelp
      else UnknownCommandHelp
    else
      FullHelp
  }
}
