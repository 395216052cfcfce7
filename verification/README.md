# li9hu/log — logger initialisation, modelled in Dafny

The `log` package sets up a process-wide zap logger from a `LogConf` record. It
chooses console and/or rotating-file output, JSON or console encoding, coloured
level labels, and the minimum level. It then installs the logger as zap's global
logger. The package also has a custom time encoder that renders an instant as
`YYYY-MM-DD-HH:MM:SS`.

This model is a set of pure functions from a `LogConf` value to an abstract
logger plan. The zap encoder, the write syncers and lumberjack's rotating
writer are datatypes. Each one records the fields the package sets or chooses
for the library; fixed library defaults are listed under "## Left out". The time encoder is a string function over the instant's integer
fields.

- `wrappers.dfy`: module `Wrappers`, the `Option` datatype.
- `decimal.dfy`: module `Decimal`. Go's `%0<width>d` for a non-negative operand
  (`ZeroPad`), and the digit reader `ReadDecimal` that inverts it.
- `timestamp.dfy`: module `Timestamp`. The time encoder (`Encode`) and its
  inverse (`Parse`).
- `log.dfy`: module `Log`. `LogConf`, zapcore's levels, the plan datatypes,
  `SetUp`, `setLogs` split into its decisions, and installation of the global
  logger.

## Model

| member | source | states |
|---|---|---|
| Log.SetUp | log.go:23-43 | No logger is built exactly when console and file output are both disabled. Otherwise the built logger filters at the level the `Level` name selects. Stderr is a sink exactly when the console is enabled. The rotating file is a sink exactly when file output is enabled. The encoder is JSON exactly when `FormatJson` is set. Labels are coloured exactly in the console-only, plain-text, colour-on case. |
| Log.Install | log.go:23-86 | With both outputs disabled, the global logger is left as it was, whatever the other fields hold. Otherwise the global logger becomes the logger `SetUp` builds. |
| Log.ParseLevel | log.go:27-41 | "info", "debug", "warn", "err" and "panic" select Info, Debug, Warn, Error and DPanic. Every other string selects Info. The lookup is total and never selects Panic or Fatal. |
| Log.LevelName | log.go:28-38 | Every level except Panic and Fatal has exactly one configuration name, and the lookup table maps that name back to the level. |
| Log.LevelNameRoundTrip | log.go:28-40 | A level's name parses back to that level. Any string that selects something other than Info is the name of the level it selects. |
| Log.EncoderConfigFor | log.go:46-50 | The time encoder is always the custom timestamp. The level label is the coloured capital one exactly when file output is off, the console is on, the format is not JSON and colour is requested. |
| Log.ColorIgnored | log.go:48-50 | Outside that one combination, flipping the colour flag leaves the whole logger plan unchanged. |
| Log.NewEncoder | log.go:52-57 | The encoder is JSON exactly when `FormatJson` is true, and console otherwise. It uses the adjusted encoder configuration. |
| Log.Hook | log.go:62-66 | The rotating file's Filename, MaxSize and MaxBackups are the configuration's Filename, MaxFileSize and MaxFileBackup, unchanged. Age-based rotation, local-time backup names and compression stay off. |
| Log.WriteSyncerFor | log.go:59-78 | Stderr is a sink exactly when the console is on or the file is off. The rotating file is a sink exactly when the file is on. No other sink appears. Both enabled gives a multi-writer over stderr and then the file. |
| Log.FileSettingsIgnored | log.go:60-66 | Without file output, the file name and rotation limits do not affect the plan. |
| Log.BothOutputs | log.go:68-70 | With both outputs on, the sinks are exactly stderr and the rotating file built from the configuration. |
| Log.SetLogs | log.go:80-85 | The core combines the chosen encoder, the chosen write syncer and the given level. The logger records caller information. |
| Decimal.ZeroPad | log.go:90 | `%0Nd` of a natural is `max(N, digit count)` characters, all decimal digits. It reads back as the value. |
| Decimal.NumDigitsFits | log.go:90 | For a positive width N, a value prints in at most N digits exactly when it is below 10^N. |
| Decimal.ZeroPadFits | log.go:90 | A value below 10^N renders as exactly N zero-padded digits. |
| Decimal.ReadDigits | log.go:90 | Reading the N padded digits of a value below 10^N gives the value back. |
| Decimal.DigitsOfRead | log.go:90 | Re-padding the value of any digit string to the string's own length gives the string back, leading zeros included. |
| Timestamp.Encode | log.go:89-91 | For year 0..9999 and in-range month, day, hour, minute and second, the timestamp is 19 characters. It has '-' at positions 4, 7 and 10, ':' at 13 and 16, and digits everywhere else. Its digit groups read back as year, month, day, hour, minute and second. |
| Timestamp.NoSubSecond | log.go:90 | The rendered timestamp does not depend on the instant's nanoseconds. |
| Timestamp.ParseEncode | log.go:89-91 | Parsing a rendered timestamp gives back the instant truncated to whole seconds. |
| Timestamp.EncodeParse | log.go:89-91 | Every string that parses as a timestamp is exactly the encoder's output for the parsed instant. |

## Left out

- The bytes that zap's JSON and console encoders and the coloured level encoder produce. That is third-party library behaviour, so encoders are tags.
- `zapcore.NewMultiWriteSyncer` fan-out and `zapcore.AddSync`. These are library behaviour. The multi-writer is the list of its sinks.
- The fields of `zap.NewProductionEncoderConfig()` that the package does not change: the key names, `EncodeDuration`, `EncodeCaller` and `LineEnding`. They are fixed zap defaults, so the encoder configuration records only the level and time encoders.
- `zap.AddCaller`. It is recorded as a flag on the logger, not modelled as caller capture.
- lumberjack's size-based rotation and backup eviction. That is file I/O in an external library. Only the parameters passed to it are modelled.
- `os.Stderr` and all writing. This is I/O, and stderr is a tag.
- `zap.ReplaceGlobals` as concurrent global mutation. `Install` models it as a function from the previous global logger to the next one.
- The numeric order of zap levels and level-filter enabling. Both are defined inside zap, so levels are a plain enum.
- `time.Time` and time zones. The encoder takes the calendar fields and the nanoseconds as integers.
- Timestamp.Encode: requires the year to be in 0..9999. It does not model `%04d` for negative or five-digit years, which Go renders with a sign or wider. `Decimal.ZeroPad` does model the widening for non-negative values.
