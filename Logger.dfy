/** The console logger: configuration read from the build environment, the
    level and category filter, the console method per level, and the layout
    of a log line. The data is printed with a circular-safe `JSON.stringify`,
    which is a parameter here. */
module Logger {
  import opened Common
  import opened JsValues

  datatype Level = Debug | Info | Warn | Error

  function LevelName(level: Level): string
  {
    match level
    case Debug => "debug"
    case Info => "info"
    case Warn => "warn"
    case Error => "error"
  }

  /** `['debug', 'info', 'warn', 'error']`. */
  const Levels: seq<string> := ["debug", "info", "warn", "error"]

  const DefaultCategories: seq<string> := ["clerk", "api", "render", "state", "general"]

  /** `Array.prototype.indexOf`: the first index, or -1. */
  function IndexOf(s: seq<string>, x: string): (r: int)
    ensures -1 <= r < |s|
    ensures r == -1 <==> x !in s
    ensures r >= 0 ==> s[r] == x && forall k :: 0 <= k < r ==> s[k] != x
  {
    if s == [] then -1
    else if s[0] == x then 0
    else
      var rest := IndexOf(s[1..], x);
      if rest == -1 then -1 else rest + 1
  }

  /** The position of a level in `Levels`. */
  function Rank(level: Level): (r: nat)
    ensures r < 4 && IndexOf(Levels, LevelName(level)) == r
  {
    match level
    case Debug => 0
    case Info => 1
    case Warn => 2
    case Error => 3
  }

  /** Where the enabled categories come from: the default array, or the raw
      `VITE_LOG_CATEGORIES` string (the cast does not split it). */
  datatype Categories = CategoryList(names: seq<string>) | CategoryText(text: string)

  datatype Config = Config(enabled: bool, logLevel: string, categories: Categories)

  /** The three constants, from `DEV` and the three `VITE_` variables. */
  function Configure(dev: bool, enableLogging: Option<string>, logLevel: Option<string>, categories: Option<string>): (r: Config)
    ensures r.enabled <==> dev || enableLogging == Some("true")
    ensures r.logLevel == if logLevel.Some? && logLevel.value != "" then logLevel.value else "debug"
    ensures r.categories == if categories.Some? && categories.value != "" then CategoryText(categories.value) else CategoryList(DefaultCategories)
  {
    Config(dev || enableLogging == Some("true"),
           if logLevel.Some? && logLevel.value != "" then logLevel.value else "debug",
           if categories.Some? && categories.value != "" then CategoryText(categories.value) else CategoryList(DefaultCategories))
  }

  /** `hay.includes(needle)`: `needle` occurs in `hay` at some position. */
  predicate Substring(needle: string, hay: string)
    decreases |hay|
  {
    StartsWith(hay, needle) || (hay != [] && Substring(needle, hay[1..]))
  }

  predicate OccursAt(needle: string, hay: string, i: int)
  {
    0 <= i && i + |needle| <= |hay| && hay[i..i + |needle|] == needle
  }

  /** The recursive search agrees with "occurs at some position". */
  lemma {:induction false} SubstringAt(needle: string, hay: string)
    ensures Substring(needle, hay) <==> exists i :: OccursAt(needle, hay, i)
    decreases |hay|
  {
    if StartsWith(hay, needle) {
      assert OccursAt(needle, hay, 0);
    } else if hay != [] {
      SubstringAt(needle, hay[1..]);
      if Substring(needle, hay[1..]) {
        var j :| OccursAt(needle, hay[1..], j);
        assert hay[1..][j..j + |needle|] == hay[j + 1..j + 1 + |needle|];
        assert OccursAt(needle, hay, j + 1);
      }
      if exists i :: OccursAt(needle, hay, i) {
        var i :| OccursAt(needle, hay, i);
        if i != 0 {
          assert hay[1..][i - 1..i - 1 + |needle|] == hay[i..i + |needle|];
          assert OccursAt(needle, hay[1..], i - 1);
        }
      }
    }
  }

  lemma FirstCharDiffers(s: string, prefix: string)
    requires s != [] && prefix != [] && s[0] != prefix[0]
    ensures !StartsWith(s, prefix)
  {
  }

  lemma {:induction false} LongerIsNoSubstring(needle: string, hay: string)
    requires |needle| > |hay|
    ensures !Substring(needle, hay)
    decreases |hay|
  {
    if hay != [] {
      LongerIsNoSubstring(needle, hay[1..]);
    }
  }

  /** `LOG_CATEGORIES.includes(category)`: array membership, or substring search on a string. */
  predicate Includes(categories: Categories, category: string)
  {
    match categories
    case CategoryList(names) => category in names
    case CategoryText(text) => Substring(category, text)
  }

  function ShouldLog(config: Config, level: Level, category: string): (r: bool)
    ensures !config.enabled ==> !r
    ensures !Includes(config.categories, category) ==> !r
    ensures config.enabled && Includes(config.categories, category) ==>
      (r <==> IndexOf(Levels, LevelName(level)) >= IndexOf(Levels, config.logLevel))
  {
    if !config.enabled then false
    else if !Includes(config.categories, category) then false
    else IndexOf(Levels, LevelName(level)) >= IndexOf(Levels, config.logLevel)
  }

  /** A level that passes lets every higher level pass. */
  lemma ShouldLogMonotone(config: Config, a: Level, b: Level, category: string)
    requires Rank(a) <= Rank(b) && ShouldLog(config, a, category)
    ensures ShouldLog(config, b, category)
  {
  }

  /** With the threshold set to a known level, exactly that level and the ones above pass. */
  lemma ThresholdIsInclusive(config: Config, threshold: Level, level: Level, category: string)
    requires config.enabled && Includes(config.categories, category) && config.logLevel == LevelName(threshold)
    ensures ShouldLog(config, level, category) <==> Rank(level) >= Rank(threshold)
  {
  }

  /** A threshold that is not one of the four levels lets every level pass. */
  lemma UnknownThresholdPassesAll(config: Config, level: Level, category: string)
    requires config.enabled && Includes(config.categories, category) && config.logLevel !in Levels
    ensures ShouldLog(config, level, category)
  {
  }

  /** A category string from the environment enables every category it
      contains as a substring: "clerk,api" enables "api", and so does "rapid". */
  lemma CategoryTextIsSubstringSearch()
    ensures Includes(CategoryText("clerk,api"), "api")
    ensures Includes(CategoryText("rapid"), "api")
    ensures !Includes(CategoryText("clerk,api"), "state")
  {
    assert StartsWith("api", "api");
    assert StartsWith("apid", "api");
    LongerIsNoSubstring("state", ",api");
    FirstCharDiffers("clerk,api", "state");
    FirstCharDiffers("lerk,api", "state");
    FirstCharDiffers("erk,api", "state");
    FirstCharDiffers("rk,api", "state");
    FirstCharDiffers("k,api", "state");
    assert "clerk,api"[1..] == "lerk,api" && "lerk,api"[1..] == "erk,api" && "erk,api"[1..] == "rk,api";
    assert "rk,api"[1..] == "k,api" && "k,api"[1..] == ",api";
  }

  /** With no environment set, everything from debug up is logged in every default category. */
  lemma DefaultsLogEverything(level: Level, category: string)
    requires category in DefaultCategories
    ensures ShouldLog(Configure(true, None, None, None), level, category)
  {
  }

  /** `getConsoleMethod`: each level maps to the console method of its name. */
  function ConsoleMethod(level: Level): (r: string)
    ensures r == LevelName(level)
    ensures r in Levels
  {
    match level
    case Debug => "debug"
    case Info => "info"
    case Warn => "warn"
    case Error => "error"
  }

  /** `toUpperCase` on ASCII letters. */
  function UpperAscii(s: string): (r: string)
    ensures |r| == |s|
    ensures forall k :: 0 <= k < |s| ==> r[k] == if 'a' <= s[k] <= 'z' then (s[k] as int - 32) as char else s[k]
  {
    if s == [] then []
    else [if 'a' <= s[0] <= 'z' then (s[0] as int - 32) as char else s[0]] + UpperAscii(s[1..])
  }

  datatype LogEntry = LogEntry(timestamp: string, level: Level, category: string, message: string, data: JsValue)

  /** `formatLogEntry`; `stringify` stands for the circular-safe stringifier. */
  function FormatLogEntry(entry: LogEntry, stringify: JsValue -> string): string
  {
    "%c" + entry.timestamp + " %c[" + UpperAscii(LevelName(entry.level)) + "] %c[" + entry.category + "] %c" + entry.message
    + (if Truthy(entry.data) then "\n" + stringify(entry.data) else "")
  }

  /** The level label is the upper-cased level name. */
  lemma LevelLabels()
    ensures UpperAscii("debug") == "DEBUG" && UpperAscii("info") == "INFO"
    ensures UpperAscii("warn") == "WARN" && UpperAscii("error") == "ERROR"
  {
    UpperLabel("debug", "DEBUG");
    UpperLabel("info", "INFO");
    UpperLabel("warn", "WARN");
    UpperLabel("error", "ERROR");
  }

  /** A lower-case ASCII word and its upper-case spelling. */
  lemma UpperLabel(word: string, upper: string)
    requires |word| == |upper|
    requires forall k :: 0 <= k < |word| ==> 'a' <= word[k] <= 'z' && upper[k] == (word[k] as int - 32) as char
    ensures UpperAscii(word) == upper
  {
  }

  /** The data goes on its own line after the message only when it is
      truthy; otherwise the line ends with the message. */
  lemma FormatAppendsDataLine(entry: LogEntry, stringify: JsValue -> string)
    ensures Truthy(entry.data) ==>
      FormatLogEntry(entry, stringify) == FormatLogEntry(entry.(data := Undefined), stringify) + "\n" + stringify(entry.data)
    ensures !Truthy(entry.data) ==> FormatLogEntry(entry, stringify) == FormatLogEntry(entry.(data := Undefined), stringify)
    ensures EndsWith(FormatLogEntry(entry.(data := Undefined), stringify), entry.message)
    ensures StartsWith(FormatLogEntry(entry, stringify), "%c" + entry.timestamp + " %c[")
  {
    var head := "%c" + entry.timestamp + " %c[";
    var line := FormatLogEntry(entry.(data := Undefined), stringify);
    assert line == head + (UpperAscii(LevelName(entry.level)) + "] %c[" + entry.category + "] %c") + entry.message;
    assert line[|line| - |entry.message|..] == entry.message;
    assert FormatLogEntry(entry, stringify)[..|head|] == head;
  }
}
