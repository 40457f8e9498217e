/**
 * What the metrics config file means: the five typed settings parsed from
 * its lines, and the default content written when the file is generated.
 */
module ConfigContent {
  import opened Wrappers
  import opened ConfigLines

  const ENABLED_KEY := "enabled"
  const SERVER_UUID_KEY := "server-uuid"
  const LOG_ERRORS_KEY := "log-errors"
  const LOG_SENT_DATA_KEY := "log-sent-data"
  const LOG_RESPONSE_STATUS_TEXT_KEY := "log-response-status-text"

  /** The in-memory snapshot of the config: the five fields of MetricsConfig. */
  datatype Settings = Settings(
    serverUuid: Option<string>,  // None stands for Java's null
    enabled: bool,
    logErrors: bool,
    logSentData: bool,
    logResponseStatusText: bool)

  /** `value.map("true"::equals).orElse(absent)`. */
  function Flag(value: Option<string>, absent: bool): bool {
    match value
    case Some(v) => v == "true"
    case None => absent
  }

  /** The settings `readConfig` assigns from the lines of the file. */
  function Parse(lines: seq<string>): Settings {
    Settings(
      GetConfigValue(SERVER_UUID_KEY, lines),
      Flag(GetConfigValue(ENABLED_KEY, lines), true),
      Flag(GetConfigValue(LOG_ERRORS_KEY, lines), false),
      Flag(GetConfigValue(LOG_SENT_DATA_KEY, lines), false),
      Flag(GetConfigValue(LOG_RESPONSE_STATUS_TEXT_KEY, lines), false))
  }

  /** Java's `String.valueOf(boolean)`. */
  function BoolToString(b: bool): string {
    if b then "true" else "false"
  }

  /**
   * The explanatory comment block at the head of a generated file; each line
   * is written as the `# ` marker followed by its text.
   */
  const COMMENT_LINES: seq<string> := [
    "# " + "bStats collects some basic information for plugin authors, like how many people use",
    "# " + "their plugin and their total player count. It's recommend to keep bStats enabled, but",
    "# " + "if you're not comfortable with this, you can turn this setting off. There is no",
    "# " + "performance penalty associated with having metrics enabled, and data sent to bStats",
    "# " + "can't identify your server."]

  /** The five setting lines of a generated file. */
  function DefaultSettingLines(defaultEnabled: bool, uuid: string): seq<string> {
    [ ENABLED_KEY + "=" + BoolToString(defaultEnabled),
      SERVER_UUID_KEY + "=" + uuid,
      LOG_ERRORS_KEY + "=false",
      LOG_SENT_DATA_KEY + "=false",
      LOG_RESPONSE_STATUS_TEXT_KEY + "=false" ]
  }

  /** The lines `writeConfig` writes for the given default and uuid. */
  function DefaultContent(defaultEnabled: bool, uuid: string): seq<string> {
    COMMENT_LINES + DefaultSettingLines(defaultEnabled, uuid)
  }

  /**
   * A boolean setting is `absent` when no line holds it, and otherwise true
   * exactly when its first line reads `key=true`.
   */
  lemma FlagSetting(key: string, lines: seq<string>, absent: bool)
    ensures NoSettingLine(key, lines) ==> Flag(GetConfigValue(key, lines), absent) == absent
    ensures forall i :: FirstSettingLine(key, lines, i) ==>
              (Flag(GetConfigValue(key, lines), absent) <==> lines[i] == key + "=true")
  {
    GetConfigValueSpec(key, lines);
    forall i | FirstSettingLine(key, lines, i)
      ensures Flag(GetConfigValue(key, lines), absent) <==> lines[i] == key + "=true"
    {
      var prefix := key + "=";
      assert lines[i] == prefix + lines[i][|prefix|..];
      assert key + "=true" == prefix + "true";
    }
  }

  /**
   * `enabled` is true when no line starts with `enabled=`; otherwise it is
   * true exactly when the first such line is `enabled=true`, so `TRUE`,
   * `maybe` or an empty value give false.
   */
  lemma ParseEnabled(lines: seq<string>)
    ensures NoSettingLine(ENABLED_KEY, lines) ==> Parse(lines).enabled
    ensures forall i :: FirstSettingLine(ENABLED_KEY, lines, i) ==>
              (Parse(lines).enabled <==> lines[i] == "enabled=true")
  {
    FlagSetting(ENABLED_KEY, lines, true);
    assert ENABLED_KEY + "=true" == "enabled=true";
  }

  /** `log-errors` is false when absent and otherwise true exactly for `log-errors=true`. */
  lemma ParseLogErrors(lines: seq<string>)
    ensures NoSettingLine(LOG_ERRORS_KEY, lines) ==> !Parse(lines).logErrors
    ensures forall i :: FirstSettingLine(LOG_ERRORS_KEY, lines, i) ==>
              (Parse(lines).logErrors <==> lines[i] == "log-errors=true")
  {
    FlagSetting(LOG_ERRORS_KEY, lines, false);
    assert LOG_ERRORS_KEY + "=true" == "log-errors=true";
  }

  /** `log-sent-data` is false when absent and otherwise true exactly for `log-sent-data=true`. */
  lemma ParseLogSentData(lines: seq<string>)
    ensures NoSettingLine(LOG_SENT_DATA_KEY, lines) ==> !Parse(lines).logSentData
    ensures forall i :: FirstSettingLine(LOG_SENT_DATA_KEY, lines, i) ==>
              (Parse(lines).logSentData <==> lines[i] == "log-sent-data=true")
  {
    FlagSetting(LOG_SENT_DATA_KEY, lines, false);
    assert LOG_SENT_DATA_KEY + "=true" == "log-sent-data=true";
  }

  /**
   * `log-response-status-text` is false when absent and otherwise true
   * exactly for `log-response-status-text=true`.
   */
  lemma ParseLogResponseStatusText(lines: seq<string>)
    ensures NoSettingLine(LOG_RESPONSE_STATUS_TEXT_KEY, lines) ==> !Parse(lines).logResponseStatusText
    ensures forall i :: FirstSettingLine(LOG_RESPONSE_STATUS_TEXT_KEY, lines, i) ==>
              (Parse(lines).logResponseStatusText <==> lines[i] == "log-response-status-text=true")
  {
    FlagSetting(LOG_RESPONSE_STATUS_TEXT_KEY, lines, false);
    assert LOG_RESPONSE_STATUS_TEXT_KEY + "=true" == "log-response-status-text=true";
  }

  /**
   * The uuid is null exactly when no line starts with `server-uuid=`, and
   * otherwise the untrimmed rest of the first such line, possibly empty.
   */
  lemma ParseServerUuid(lines: seq<string>)
    ensures Parse(lines).serverUuid.None? <==> NoSettingLine(SERVER_UUID_KEY, lines)
    ensures forall i :: FirstSettingLine(SERVER_UUID_KEY, lines, i) ==>
              Parse(lines).serverUuid == Some(lines[i][|SERVER_UUID_KEY| + 1..])
  {
    GetConfigValueSpec(SERVER_UUID_KEY, lines);
  }

  /** None of the comment lines holds a value for a key that does not start with `#`. */
  lemma CommentsHoldNoSetting(key: string)
    requires key == [] || key[0] != '#'
    ensures NoSettingLine(key, COMMENT_LINES)
  {
    assert (key + "=")[0] != '#';
    forall i | 0 <= i < |COMMENT_LINES| ensures COMMENT_LINES[i][0] == '#' {
      assert COMMENT_LINES[i] == "# " + COMMENT_LINES[i][2..];
    }
  }

  /** Lookup in the default content skips the comments. */
  lemma LookupInDefaultContent(key: string, defaultEnabled: bool, uuid: string)
    requires key == [] || key[0] != '#'
    ensures GetConfigValue(key, DefaultContent(defaultEnabled, uuid)) ==
            GetConfigValue(key, DefaultSettingLines(defaultEnabled, uuid))
  {
    CommentsHoldNoSetting(key);
    GetConfigValueSpec(key, COMMENT_LINES);
    LookupOfConcat(key, COMMENT_LINES, DefaultSettingLines(defaultEnabled, uuid));
  }

  /** A line `key=value` found first in the default content yields `value`. */
  lemma LookupDefaultLine(key: string, defaultEnabled: bool, uuid: string, j: int, value: string)
    requires key == [] || key[0] != '#'
    requires FirstSettingLine(key, DefaultSettingLines(defaultEnabled, uuid), j)
    requires DefaultSettingLines(defaultEnabled, uuid)[j] == key + "=" + value
    ensures GetConfigValue(key, DefaultContent(defaultEnabled, uuid)) == Some(value)
  {
    LookupInDefaultContent(key, defaultEnabled, uuid);
    LookupAt(key, DefaultSettingLines(defaultEnabled, uuid), j, value);
  }

  // Each setting line of the default content is the first line for its key.

  lemma DefaultEnabledLine(defaultEnabled: bool, uuid: string)
    ensures GetConfigValue(ENABLED_KEY, DefaultContent(defaultEnabled, uuid)) == Some(BoolToString(defaultEnabled))
  {
    LookupDefaultLine(ENABLED_KEY, defaultEnabled, uuid, 0, BoolToString(defaultEnabled));
  }

  lemma DefaultServerUuidLine(defaultEnabled: bool, uuid: string)
    ensures GetConfigValue(SERVER_UUID_KEY, DefaultContent(defaultEnabled, uuid)) == Some(uuid)
  {
    var lines := DefaultSettingLines(defaultEnabled, uuid);
    assert lines[0][0] == 'e';
    LookupDefaultLine(SERVER_UUID_KEY, defaultEnabled, uuid, 1, uuid);
  }

  lemma DefaultLogErrorsLine(defaultEnabled: bool, uuid: string)
    ensures GetConfigValue(LOG_ERRORS_KEY, DefaultContent(defaultEnabled, uuid)) == Some("false")
  {
    var lines := DefaultSettingLines(defaultEnabled, uuid);
    assert lines[0][0] == 'e' && lines[1][0] == 's';
    LookupDefaultLine(LOG_ERRORS_KEY, defaultEnabled, uuid, 2, "false");
  }

  lemma DefaultLogSentDataLine(defaultEnabled: bool, uuid: string)
    ensures GetConfigValue(LOG_SENT_DATA_KEY, DefaultContent(defaultEnabled, uuid)) == Some("false")
  {
    var lines := DefaultSettingLines(defaultEnabled, uuid);
    assert lines[0][0] == 'e' && lines[1][0] == 's' && lines[2][4] == 'e';
    LookupDefaultLine(LOG_SENT_DATA_KEY, defaultEnabled, uuid, 3, "false");
  }

  lemma DefaultLogResponseStatusTextLine(defaultEnabled: bool, uuid: string)
    ensures GetConfigValue(LOG_RESPONSE_STATUS_TEXT_KEY, DefaultContent(defaultEnabled, uuid)) == Some("false")
  {
    var lines := DefaultSettingLines(defaultEnabled, uuid);
    assert lines[0][0] == 'e' && lines[1][0] == 's';
    assert lines[2][4] == 'e' && lines[3][4] == 's' && lines[4][4] == 'r';
    LookupDefaultLine(LOG_RESPONSE_STATUS_TEXT_KEY, defaultEnabled, uuid, 4, "false");
  }

  /**
   * Round trip: reading back the default content gives the default enabled
   * flag, the uuid that was written and three false log flags.
   */
  lemma DefaultContentRoundTrip(defaultEnabled: bool, uuid: string)
    ensures Parse(DefaultContent(defaultEnabled, uuid)) ==
            Settings(Some(uuid), defaultEnabled, false, false, false)
  {
    DefaultEnabledLine(defaultEnabled, uuid);
    DefaultServerUuidLine(defaultEnabled, uuid);
    DefaultLogErrorsLine(defaultEnabled, uuid);
    DefaultLogSentDataLine(defaultEnabled, uuid);
    DefaultLogResponseStatusTextLine(defaultEnabled, uuid);
  }

  /**
   * A file seeded with `enabled=false`, `server-uuid=abc-123` and
   * `log-errors=true` parses to exactly those values, with the two missing
   * log flags false.
   */
  lemma ParseSeededFile()
    ensures Parse(["enabled=false", "server-uuid=abc-123", "log-errors=true"]) ==
            Settings(Some("abc-123"), false, true, false, false)
  {
    var lines := ["enabled=false", "server-uuid=abc-123", "log-errors=true"];
    LookupAt(ENABLED_KEY, lines, 0, "false");
    MismatchAt(SERVER_UUID_KEY, lines[0], 0);
    LookupAt(SERVER_UUID_KEY, lines, 1, "abc-123");
    MismatchAt(LOG_ERRORS_KEY, lines[0], 0);
    MismatchAt(LOG_ERRORS_KEY, lines[1], 0);
    LookupAt(LOG_ERRORS_KEY, lines, 2, "true");
    MismatchAt(LOG_SENT_DATA_KEY, lines[0], 0);
    MismatchAt(LOG_SENT_DATA_KEY, lines[1], 0);
    MismatchAt(LOG_SENT_DATA_KEY, lines[2], 4);
    GetConfigValueSpec(LOG_SENT_DATA_KEY, lines);
    MismatchAt(LOG_RESPONSE_STATUS_TEXT_KEY, lines[0], 0);
    MismatchAt(LOG_RESPONSE_STATUS_TEXT_KEY, lines[1], 0);
    MismatchAt(LOG_RESPONSE_STATUS_TEXT_KEY, lines[2], 4);
    GetConfigValueSpec(LOG_RESPONSE_STATUS_TEXT_KEY, lines);
  }

  /** A value other than the literal `true`, such as `maybe` or `TRUE`, reads as false. */
  lemma ParseUnrecognisedValues()
    ensures !Parse(["log-errors=maybe"]).logErrors
    ensures !Parse(["enabled=TRUE"]).enabled
  {
    LookupAt(LOG_ERRORS_KEY, ["log-errors=maybe"], 0, "maybe");
    LookupAt(ENABLED_KEY, ["enabled=TRUE"], 0, "TRUE");
  }

  /** A `server-uuid=` line with nothing after it gives a present but empty uuid. */
  lemma ParseEmptyUuid()
    ensures Parse(["server-uuid="]).serverUuid == Some("")
  {
    LookupAt(SERVER_UUID_KEY, ["server-uuid="], 0, "");
  }
}
