/**
 * The bStats config store: a MetricsConfig object owns the state of one
 * config file and, once constructed, an immutable snapshot of its settings.
 */
module MetricsConfigStore {
  import opened Wrappers
  import opened ConfigLines
  import opened ConfigContent

  /** The file holds a line that starts with `server-uuid=`. */
  ghost predicate HasUuidLine(file: Option<seq<string>>) {
    file.Some? && !NoSettingLine(SERVER_UUID_KEY, file.value)
  }

  class MetricsConfig {
    /** The config file on disk, one entry per line; None while it does not exist. */
    var file: Option<seq<string>>
    /** The `enabled` value written whenever the file is generated. */
    const defaultEnabled: bool

    var serverUuid: Option<string>
    var enabled: bool
    var logErrors: bool
    var logSentData: bool
    var logResponseStatusText: bool

    /** How many times the file has been written. */
    ghost var writes: nat

    /** The five settings fields as one value. */
    ghost function Snapshot(): Settings
      reads this
    {
      Settings(serverUuid, enabled, logErrors, logSentData, logResponseStatusText)
    }

    /** After setup: the file exists, the fields are what it parses to, and the uuid is present. */
    ghost predicate Valid()
      reads this
    {
      file.Some? && Snapshot() == Parse(file.value) && serverUuid.Some?
    }

    /**
     * Opens the store over a file in state `file`. `uuids(n)` is the uuid
     * the n-th call to the random uuid source would return.
     */
    constructor (file: Option<seq<string>>, defaultEnabled: bool, uuids: nat -> string)
      ensures Valid() && this.defaultEnabled == defaultEnabled
      ensures writes <= 1
      ensures HasUuidLine(file) ==> this.file == file && writes == 0
      ensures !HasUuidLine(file) ==>
                this.file == Some(DefaultContent(defaultEnabled, uuids(0))) && writes == 1 &&
                Snapshot() == Settings(Some(uuids(0)), defaultEnabled, false, false, false)
    {
      this.file := file;
      this.defaultEnabled := defaultEnabled;
      serverUuid, enabled, logErrors, logSentData, logResponseStatusText := None, false, false, false, false;
      writes := 0;
      new;
      SetupConfig(uuids);
    }

    /**
     * Writes the defaults when the file is absent, reads it, and when no
     * uuid was found rewrites the defaults with a fresh uuid and reads once
     * more. Only one of the two writes can ever happen.
     */
    method SetupConfig(uuids: nat -> string)
      modifies this
      ensures Valid()
      ensures writes <= old(writes) + 1
      ensures HasUuidLine(old(file)) ==> file == old(file) && writes == old(writes)
      ensures !HasUuidLine(old(file)) ==>
                file == Some(DefaultContent(defaultEnabled, uuids(0))) && writes == old(writes) + 1 &&
                Snapshot() == Settings(Some(uuids(0)), defaultEnabled, false, false, false)
    {
      var draws := 0;  // calls made so far to the uuid source
      if file.None? {
        WriteConfig(uuids(draws));
        DefaultContentRoundTrip(defaultEnabled, uuids(draws));
        draws := draws + 1;
      }
      ReadConfig();
      ParseServerUuid(file.value);
      if serverUuid.None? {
        // A malformed file without uuid: recreate it.
        WriteConfig(uuids(draws));
        DefaultContentRoundTrip(defaultEnabled, uuids(draws));
        draws := draws + 1;
        ReadConfig();
      }
    }

    /** Overwrites the file with the default content for `uuid`. */
    method WriteConfig(uuid: string)
      modifies this`file, this`writes
      ensures file == Some(DefaultContent(defaultEnabled, uuid))
      ensures writes == old(writes) + 1
    {
      var content: seq<string> := [];
      content := content + [COMMENT_LINES[0]];
      content := content + [COMMENT_LINES[1]];
      content := content + [COMMENT_LINES[2]];
      content := content + [COMMENT_LINES[3]];
      content := content + [COMMENT_LINES[4]];
      content := content + [ENABLED_KEY + "=" + BoolToString(defaultEnabled)];
      content := content + [SERVER_UUID_KEY + "=" + uuid];
      content := content + [LOG_ERRORS_KEY + "=false"];
      content := content + [LOG_SENT_DATA_KEY + "=false"];
      content := content + [LOG_RESPONSE_STATUS_TEXT_KEY + "=false"];
      assert content[..5] == COMMENT_LINES && content[5..] == DefaultSettingLines(defaultEnabled, uuid);
      assert content == content[..5] + content[5..];
      WriteFile(content);
    }

    /** Replaces the file's content by `lines`, creating the file if needed. */
    method WriteFile(lines: seq<string>)
      modifies this`file, this`writes
      ensures file == Some(lines)
      ensures writes == old(writes) + 1
    {
      // Opening the writer creates a missing file and truncates an existing one.
      file := Some([]);
      for i := 0 to |lines|
        invariant file == Some(lines[..i])
        invariant writes == old(writes)
      {
        assert lines[..i + 1] == lines[..i] + [lines[i]];
        file := Some(file.value + [lines[i]]);
      }
      assert lines[..|lines|] == lines;
      writes := writes + 1;
    }

    /** Sets the five fields from the lines of the (existing) file. */
    method ReadConfig()
      requires file.Some?
      modifies this`serverUuid, this`enabled, this`logErrors, this`logSentData, this`logResponseStatusText
      ensures Snapshot() == Parse(file.value)
    {
      var lines := file.value;
      enabled := Flag(GetConfigValue(ENABLED_KEY, lines), true);
      serverUuid := GetConfigValue(SERVER_UUID_KEY, lines);
      logErrors := Flag(GetConfigValue(LOG_ERRORS_KEY, lines), false);
      logSentData := Flag(GetConfigValue(LOG_SENT_DATA_KEY, lines), false);
      logResponseStatusText := Flag(GetConfigValue(LOG_RESPONSE_STATUS_TEXT_KEY, lines), false);
    }

    /** The uuid, never null after setup: the rest of the file's first `server-uuid=` line. */
    function ServerUuid(): (r: string)
      reads this
      requires Valid()
      ensures Parse(file.value).serverUuid == Some(r)
      ensures forall i :: FirstSettingLine(SERVER_UUID_KEY, file.value, i) ==> r == file.value[i][|SERVER_UUID_KEY| + 1..]
    {
      ParseServerUuid(file.value);
      serverUuid.value
    }

    /** The `enabled` setting as the file held it when it was read. */
    function IsEnabled(): (r: bool)
      reads this
      requires Valid()
      ensures r == Parse(file.value).enabled
    {
      enabled
    }

    /** The `log-errors` setting as the file held it when it was read. */
    function IsLogErrorsEnabled(): (r: bool)
      reads this
      requires Valid()
      ensures r == Parse(file.value).logErrors
    {
      logErrors
    }

    /** The `log-sent-data` setting as the file held it when it was read. */
    function IsLogSentDataEnabled(): (r: bool)
      reads this
      requires Valid()
      ensures r == Parse(file.value).logSentData
    {
      logSentData
    }

    /** The `log-response-status-text` setting as the file held it when it was read. */
    function IsLogResponseStatusTextEnabled(): (r: bool)
      reads this
      requires Valid()
      ensures r == Parse(file.value).logResponseStatusText
    {
      logResponseStatusText
    }
  }

  /**
   * Opening a store over the file an earlier store left behind writes
   * nothing and gives the same snapshot, whatever its default.
   */
  method ReopenKeepsSnapshot(file: Option<seq<string>>, defaultEnabled: bool, reopenDefault: bool,
                             uuids: nat -> string, moreUuids: nat -> string)
    returns (first: MetricsConfig, second: MetricsConfig)
    ensures first.Valid() && second.Valid()
    ensures second.file == first.file && second.writes == 0
    ensures second.Snapshot() == first.Snapshot()
  {
    first := new MetricsConfig(file, defaultEnabled, uuids);
    ParseServerUuid(first.file.value);
    second := new MetricsConfig(first.file, reopenDefault, moreUuids);
  }
}
