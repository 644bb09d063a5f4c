/**
 * Process configuration, per-user generation preferences and the access gate,
 * together with the bot's in-memory state.
 */
module Utils {
  import opened Wrappers
  import opened Text
  import History

  /** Python's int() on a string: the value, or the text of the ValueError it raises. */
  type IntParser = string -> Result<int, string>

  /** Python's float() on a string: the value, or the text of the ValueError it raises. */
  type FloatParser = string -> Result<real, string>

  /** Environment variables, as read from the two dotenv files and the process. */
  type Env = map<string, string>

  /** The process-wide settings read once at start-up. */
  datatype Config = Config(
    modelId: Option<string>,
    maxTokens: int,
    n: int,
    stop: Option<string>,
    temperature: real,
    topP: real,
    presencePenalty: real,
    frequencyPenalty: real)

  /** One user's generation preferences. */
  datatype Prefs = Prefs(
    maxTokens: int,
    temperature: real,
    topP: real,
    presencePenalty: real,
    frequencyPenalty: real)

  /** The parameters of one text-completion request to the backend. */
  datatype CompletionRequest = CompletionRequest(
    engine: Option<string>,
    prompt: string,
    maxTokens: int,
    n: int,
    stop: Option<string>,
    temperature: real)

  function Lookup(env: Env, name: string): Option<string> {
    if name in env then Some(env[name]) else None
  }

  /** The configured stop sequence: the literal text "null" means none. */
  function NormalizeStop(raw: Option<string>): (stop: Option<string>)
    ensures stop.None? <==> raw.None? || raw.value == "null"
    ensures stop.Some? ==> stop == raw
  {
    if raw == Some("null") then None else raw
  }

  /** int(os.environ.get(name, default)). */
  function IntSetting(env: Env, name: string, default: int, parseInt: IntParser): Result<int, string> {
    if name in env then parseInt(env[name]) else Ok(default)
  }

  /** float(os.environ.get(name, default)). */
  function RealSetting(env: Env, name: string, default: real, parseFloat: FloatParser): Result<real, string> {
    if name in env then parseFloat(env[name]) else Ok(default)
  }

  /** v is what the variable name parses to, or the default when it is unset. */
  predicate IntSettingIs(env: Env, name: string, default: int, parseInt: IntParser, v: int) {
    if name in env then parseInt(env[name]) == Ok(v) else v == default
  }

  predicate RealSettingIs(env: Env, name: string, default: real, parseFloat: FloatParser, v: real) {
    if name in env then parseFloat(env[name]) == Ok(v) else v == default
  }

  /**
   * Reads the configuration in the order the module does at import time;
   * the first setting that does not parse stops start-up with its error.
   */
  function LoadConfig(env: Env, parseInt: IntParser, parseFloat: FloatParser): (r: Result<Config, string>)
    ensures r.Ok? ==> r.value.modelId == Lookup(env, "OPENAI_MODEL_ID")
    ensures r.Ok? ==> r.value.stop == NormalizeStop(Lookup(env, "STOP"))
    ensures r.Ok? ==> IntSettingIs(env, "MAX_TOKENS", 2048, parseInt, r.value.maxTokens)
    ensures r.Ok? ==> IntSettingIs(env, "N", 1, parseInt, r.value.n)
    ensures r.Ok? ==> RealSettingIs(env, "TEMPERATURE", 0.5, parseFloat, r.value.temperature)
    ensures r.Ok? ==> RealSettingIs(env, "TOP_P", 1.0, parseFloat, r.value.topP)
    ensures r.Ok? ==> RealSettingIs(env, "PRESENCE_PENALTY", 0.0, parseFloat, r.value.presencePenalty)
    ensures r.Ok? ==> RealSettingIs(env, "FREQUENCY_PENALTY", 0.0, parseFloat, r.value.frequencyPenalty)
    ensures r.Err? <==>
              || ("MAX_TOKENS" in env && parseInt(env["MAX_TOKENS"]).Err?)
              || ("N" in env && parseInt(env["N"]).Err?)
              || ("TEMPERATURE" in env && parseFloat(env["TEMPERATURE"]).Err?)
              || ("TOP_P" in env && parseFloat(env["TOP_P"]).Err?)
              || ("PRESENCE_PENALTY" in env && parseFloat(env["PRESENCE_PENALTY"]).Err?)
              || ("FREQUENCY_PENALTY" in env && parseFloat(env["FREQUENCY_PENALTY"]).Err?)
  {
    var modelId := Lookup(env, "OPENAI_MODEL_ID");
    var maxTokens :- IntSetting(env, "MAX_TOKENS", 2048, parseInt);
    var n :- IntSetting(env, "N", 1, parseInt);
    var stop := NormalizeStop(Lookup(env, "STOP"));
    var temperature :- RealSetting(env, "TEMPERATURE", 0.5, parseFloat);
    var topP :- RealSetting(env, "TOP_P", 1.0, parseFloat);
    var presencePenalty :- RealSetting(env, "PRESENCE_PENALTY", 0.0, parseFloat);
    var frequencyPenalty :- RealSetting(env, "FREQUENCY_PENALTY", 0.0, parseFloat);
    Ok(Config(modelId, maxTokens, n, stop, temperature, topP, presencePenalty, frequencyPenalty))
  }

  /** With nothing set, the configuration is the documented defaults. */
  lemma DefaultConfig(parseInt: IntParser, parseFloat: FloatParser)
    ensures LoadConfig(map[], parseInt, parseFloat) == Ok(Config(None, 2048, 1, None, 0.5, 1.0, 0.0, 0.0))
  {
  }

  /** The record a user gets on first access. */
  function DefaultPrefs(c: Config): Prefs {
    Prefs(c.maxTokens, c.temperature, c.topP, c.presencePenalty, c.frequencyPenalty)
  }

  /** What indexing the preference map returns: the stored record, or the defaults for an unseen user. */
  function PrefsOf(store: map<int, Prefs>, defaults: Prefs, user: int): Prefs {
    if user in store then store[user] else defaults
  }

  // ----- access gate -----

  /** The outcome of reading the allow-list file: its lines (with their line ends), or an error. */
  datatype AllowListFile = NotFound | Unreadable(reason: string) | Lines(lines: seq<string>)

  /** [int(line.strip()) for line in lines], or None when some line does not parse. */
  function ParseIds(lines: seq<string>, parseInt: IntParser): Option<seq<int>> {
    if |lines| == 0 then Some([])
    else
      match parseInt(Strip(lines[0]))
      case Err(_) => None
      case Ok(id) =>
        match ParseIds(lines[1..], parseInt)
        case None => None
        case Some(ids) => Some([id] + ids)
  }

  /** Whether a user may use the bot, given what reading the allow-list file produced. */
  function IsAllowedUser(user: int, file: AllowListFile, parseInt: IntParser): bool {
    match file
    case NotFound => false
    case Unreadable(_) => false
    case Lines(lines) =>
      match ParseIds(lines, parseInt)
      case None => false
      case Some(ids) => if |ids| == 0 then true else user in ids
  }

  /** Parsing succeeds exactly when every line parses, and then yields the parsed ids in order. */
  lemma {:induction false} ParseIdsSpec(lines: seq<string>, parseInt: IntParser)
    ensures ParseIds(lines, parseInt).None? <==>
            exists i :: 0 <= i < |lines| && parseInt(Strip(lines[i])).Err?
    ensures ParseIds(lines, parseInt).Some? ==>
            && |ParseIds(lines, parseInt).value| == |lines|
            && forall i :: 0 <= i < |lines| ==>
                 parseInt(Strip(lines[i])) == Ok(ParseIds(lines, parseInt).value[i])
  {
    if |lines| > 0 {
      ParseIdsSpec(lines[1..], parseInt);
      var tail := lines[1..];
      if parseInt(Strip(lines[0])).Ok? {
        if ParseIds(tail, parseInt).None? {
          var i :| 0 <= i < |tail| && parseInt(Strip(tail[i])).Err?;
          assert lines[i + 1] == tail[i];
        } else {
          forall i | 0 <= i < |lines| ensures parseInt(Strip(lines[i])).Ok? {
            if i > 0 { assert lines[i] == tail[i - 1]; }
          }
        }
      }
    }
  }

  /** An empty allow-list file lets everybody in. */
  lemma EmptyListAllowsAll(user: int, parseInt: IntParser)
    ensures IsAllowedUser(user, Lines([]), parseInt)
  {
  }

  /** With a non-empty list whose lines all parse, exactly the listed ids are let in. */
  lemma AllowedIffListed(user: int, lines: seq<string>, parseInt: IntParser)
    requires |lines| > 0
    requires forall i :: 0 <= i < |lines| ==> parseInt(Strip(lines[i])).Ok?
    ensures IsAllowedUser(user, Lines(lines), parseInt) <==>
            exists i :: 0 <= i < |lines| && parseInt(Strip(lines[i])) == Ok(user)
  {
    ParseIdsSpec(lines, parseInt);
    var ids := ParseIds(lines, parseInt).value;
    if user in ids {
      var i :| 0 <= i < |ids| && ids[i] == user;
      assert parseInt(Strip(lines[i])) == Ok(user);
    }
  }

  /** A missing or unreadable file shuts everybody out. */
  lemma MissingFileDeniesAll(user: int, reason: string, parseInt: IntParser)
    ensures !IsAllowedUser(user, NotFound, parseInt)
    ensures !IsAllowedUser(user, Unreadable(reason), parseInt)
  {
  }

  /** A single line that does not parse shuts everybody out. */
  lemma BadLineDeniesAll(user: int, lines: seq<string>, i: nat, parseInt: IntParser)
    requires i < |lines| && parseInt(Strip(lines[i])).Err?
    ensures !IsAllowedUser(user, Lines(lines), parseInt)
  {
    ParseIdsSpec(lines, parseInt);
  }

  /** A blank line does not parse (int("") raises), so it too shuts everybody out. */
  lemma BlankLineDeniesAll(user: int, lines: seq<string>, i: nat, parseInt: IntParser)
    requires parseInt("").Err?
    requires i < |lines| && AllSpace(lines[i])
    ensures !IsAllowedUser(user, Lines(lines), parseInt)
  {
    StripAllSpace(lines[i]);
    BadLineDeniesAll(user, lines, i, parseInt);
  }

  // ----- in-memory state -----

  /**
   * The module-level state shared by the handlers: chat_history and
   * user_preferences, plus the configuration read at start-up.
   */
  class State {
    var chatHistory: History.Store
    var userPreferences: map<int, Prefs>
    const config: Config

    constructor (config: Config)
      ensures this.config == config
      ensures chatHistory == map[] && userPreferences == map[]
    {
      this.config := config;
      chatHistory := map[];
      userPreferences := map[];
    }

    /** The record an unseen user starts with. */
    function Defaults(): Prefs {
      DefaultPrefs(config)
    }

    /**
     * user_preferences[user]: returns the stored record, first inserting the
     * defaults when the user has none (the defaultdict's lazy insertion).
     */
    method Preferences(user: int) returns (p: Prefs)
      modifies this`userPreferences
      ensures p == PrefsOf(old(userPreferences), Defaults(), user)
      ensures userPreferences == old(userPreferences)[user := p]
      ensures user in old(userPreferences) ==> userPreferences == old(userPreferences)
    {
      if user !in userPreferences {
        userPreferences := userPreferences[user := Defaults()];
      }
      p := userPreferences[user];
    }
  }
}
