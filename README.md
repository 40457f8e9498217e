# bStats MetricsConfig in Dafny

This project models `MetricsConfig`, the settings store that bStats uses on platforms without a config
system of their own. The store owns one plain-text file of `key=value` lines. On construction it
writes a default file if there is none, then reads the file into five fields. If no `server-uuid`
line is found, it rewrites the defaults with a fresh uuid and reads the file again. After that the
fields are only read, through five getters.

Modules:

- `Wrappers` (`wrappers.dfy`): `Option`, which stands for Java's `null` and `Optional`.
- `ConfigLines` (`config_lines.dfy`): the lookup of a key in a list of lines (`getConfigValue`).
  It includes the literal `replaceFirst` that strips the `key=` prefix.
- `ConfigContent` (`config_content.dfy`): the `Settings` snapshot, `Parse` (what `readConfig`
  assigns), the default content that `writeConfig` produces, and the defaulting and round-trip lemmas.
- `MetricsConfigStore` (`metrics_config.dfy`): the `MetricsConfig` class. It has the file state
  `file: Option<seq<string>>` (None while the file does not exist), the five fields, and the
  constructor, `SetupConfig`, `WriteConfig`, `WriteFile`, `ReadConfig` and the getters, as methods
  and functions.

The random uuid source is a parameter `uuids: nat -> string`: `uuids(n)` is what the n-th call
to `UUID.randomUUID()` during setup returns. A ghost field `writes` counts writes of the file.

The code guarantees only that the uuid is present after setup, not that it is non-empty. An existing
line `server-uuid=` parses to the empty string and is kept without repair (`ParseEmptyUuid`).
`setupConfig` has two calls that write the file, but at most one of them runs. A file that setup
has just written always holds a uuid line, so the repair write never follows the first write
(`SetupConfig`).

## Model

| member | source | states |
|---|---|---|
| `ConfigLines.GetConfigValueSpec` | base/src/main/java/org/bstats/config/MetricsConfig.java:115-120 | The result is None exactly when no line starts with `key=`. Otherwise it is the first such line with its leading `key=` removed. |
| `ConfigLines.LookupOfConcat` | base/src/main/java/org/bstats/config/MetricsConfig.java:116-119 | First match wins. Lines after a block that already holds the key never change the result, and a block without the key is skipped. |
| `ConfigLines.FirstSettingLineExists` | base/src/main/java/org/bstats/config/MetricsConfig.java:116-119 | If any line holds the key, there is a first such line, so the first-line statements cover every present key. |
| `ConfigLines.LookupAt` | base/src/main/java/org/bstats/config/MetricsConfig.java:117-119 | If the first line for `key` is `key=value`, the lookup gives `value`. |
| `ConfigLines.ReplaceFirstLiteralAt` | base/src/main/java/org/bstats/config/MetricsConfig.java:118 | The literal `replaceFirst` replaces the leftmost occurrence of the pattern and keeps everything before and after it. |
| `ConfigLines.ReplaceFirstLiteralAbsent` | base/src/main/java/org/bstats/config/MetricsConfig.java:118 | If the pattern does not occur, `replaceFirst` returns the string unchanged. |
| `ConfigLines.StripLeadingPrefix` | base/src/main/java/org/bstats/config/MetricsConfig.java:117-118 | On a line that starts with `key=`, replacing the first `key=` by the empty string removes exactly that leading prefix. |
| `ConfigContent.FlagSetting` | base/src/main/java/org/bstats/config/MetricsConfig.java:101-105 | A boolean setting takes its default when the key is absent. Otherwise it is true exactly when its first line is `key=true`. |
| `ConfigContent.ParseEnabled` | base/src/main/java/org/bstats/config/MetricsConfig.java:101 | `enabled` is true when no `enabled=` line exists. Otherwise it is true exactly when the first one is `enabled=true`, so `TRUE` or `maybe` give false. |
| `ConfigContent.ParseServerUuid` | base/src/main/java/org/bstats/config/MetricsConfig.java:102 | The uuid is null exactly when no line starts with `server-uuid=`. Otherwise it is the untrimmed rest of the first such line. |
| `ConfigContent.ParseLogErrors` | base/src/main/java/org/bstats/config/MetricsConfig.java:103 | `log-errors` is false when absent. Otherwise it is true exactly when its first line is `log-errors=true`. |
| `ConfigContent.ParseLogSentData` | base/src/main/java/org/bstats/config/MetricsConfig.java:104 | `log-sent-data` is false when absent. Otherwise it is true exactly when its first line is `log-sent-data=true`. |
| `ConfigContent.ParseLogResponseStatusText` | base/src/main/java/org/bstats/config/MetricsConfig.java:105 | `log-response-status-text` is false when absent. Otherwise it is true exactly when its first line is `log-response-status-text=true`. |
| `ConfigContent.ParseSeededFile` | base/src/main/java/org/bstats/config/MetricsConfig.java:101-105 | A file with `enabled=false`, `server-uuid=abc-123` and `log-errors=true` gives exactly those values. The two missing log flags are false. |
| `ConfigContent.ParseUnrecognisedValues` | base/src/main/java/org/bstats/config/MetricsConfig.java:101-103 | `log-errors=maybe` gives a false `logErrors`, and `enabled=TRUE` gives a false `enabled`. |
| `ConfigContent.ParseEmptyUuid` | base/src/main/java/org/bstats/config/MetricsConfig.java:102 | A `server-uuid=` line with nothing after it gives a present uuid that is the empty string. |
| `ConfigContent.CommentsHoldNoSetting` | base/src/main/java/org/bstats/config/MetricsConfig.java:79-83 | None of the five `#` comment lines of the default content holds a value for a key that does not start with `#`. |
| `ConfigContent.LookupInDefaultContent` | base/src/main/java/org/bstats/config/MetricsConfig.java:79-88 | A lookup in the default content gives the same result as a lookup in its five setting lines alone. |
| `ConfigContent.DefaultContentRoundTrip` | base/src/main/java/org/bstats/config/MetricsConfig.java:77-106 | Reading back the content written for default `d` and uuid `u` gives `enabled == d`, `serverUUID == u` and three false log flags. |
| `MetricsConfigStore.MetricsConfig.constructor` | base/src/main/java/org/bstats/config/MetricsConfig.java:32-37 | After construction the store is valid: the uuid is non-null and the fields are what the file parses to, after at most one write. A file that has a uuid line is kept unchanged. Any other file, absent ones included, becomes the default content for `uuids(0)`. |
| `MetricsConfigStore.MetricsConfig.SetupConfig` | base/src/main/java/org/bstats/config/MetricsConfig.java:62-72 | Afterwards the uuid is non-null and at most one write has happened. If the file already had a `server-uuid=` line, it is not written and the fields reflect its content. Otherwise its whole content is replaced by the defaults with a fresh uuid, discarding prior settings, and `enabled == defaultEnabled`. |
| `MetricsConfigStore.MetricsConfig.WriteConfig` | base/src/main/java/org/bstats/config/MetricsConfig.java:77-90 | The file afterwards holds exactly the five comment lines, then `enabled=<default>`, `server-uuid=<uuid>` and three `=false` log lines. It counts one write and changes no setting field. |
| `MetricsConfigStore.MetricsConfig.WriteFile` | base/src/main/java/org/bstats/config/MetricsConfig.java:146-160 | Whether the file existed or not, it holds exactly the given lines, in order, afterwards. |
| `MetricsConfigStore.MetricsConfig.ReadConfig` | base/src/main/java/org/bstats/config/MetricsConfig.java:95-106 | The five fields become the settings the file's lines parse to, and the file is unchanged. |
| `MetricsConfigStore.MetricsConfig.ServerUuid` | base/src/main/java/org/bstats/config/MetricsConfig.java:39-41 | On a set-up store it returns a non-null string: the rest of the file's first `server-uuid=` line. |
| `MetricsConfigStore.MetricsConfig.IsEnabled` | base/src/main/java/org/bstats/config/MetricsConfig.java:43-45 | Returns the `enabled` setting of the file as it was read, without reading the file again. |
| `MetricsConfigStore.MetricsConfig.IsLogErrorsEnabled` | base/src/main/java/org/bstats/config/MetricsConfig.java:47-49 | Returns the `log-errors` setting of the file as it was read. |
| `MetricsConfigStore.MetricsConfig.IsLogSentDataEnabled` | base/src/main/java/org/bstats/config/MetricsConfig.java:51-53 | Returns the `log-sent-data` setting of the file as it was read. |
| `MetricsConfigStore.MetricsConfig.IsLogResponseStatusTextEnabled` | base/src/main/java/org/bstats/config/MetricsConfig.java:55-57 | Returns the `log-response-status-text` setting of the file as it was read. |
| `MetricsConfigStore.ReopenKeepsSnapshot` | base/src/main/java/org/bstats/config/MetricsConfig.java:63-67 | Opening a second store on the file a first store left behind writes nothing. It gives the same snapshot whatever default the second store was given. |

## Left out

- File system I/O (`File.exists`, `mkdirs`, `createNewFile`, readers and writers, line splitting, encoding) is not modelled. The file is the abstract state `file`: a read returns its lines and a write replaces them.
- `IOException` is not modelled. Every read and write succeeds, so construction never fails.
- `UUID.randomUUID()` is not modelled. Its values come from the parameter `uuids`, and its canonical 8-4-4-4-12 hex format is not stated.
- ReadConfig: the `AssertionError` thrown when the file is missing at read time becomes the precondition `file.Some?`. Setup always meets it, because the file exists after a write.
- ConfigLines.ReplaceFirstLiteral: `Pattern.quote` and regular expressions are not modelled. The quoted pattern is a literal match, and the replacement is the empty string.
- Concurrent writers racing on the same file are not modelled. The code does not handle them.
- The two `ExamplePlugin.java` files are not part of this model. They only call platform classes that are absent here.
