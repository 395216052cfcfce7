/**
  The logger initializer: a `LogConf` record is mapped to an abstract plan of
  the zap logger that `SetUp` builds and installs as the global logger. The
  zap and lumberjack objects are replaced by tags that record the fields this
  package sets or chooses; the values it leaves at the libraries' defaults are
  recorded only where they are part of the configuration's meaning.
*/
module Log {
  import opened Wrappers

  /** The declarative configuration of the logger. */
  datatype LogConf = LogConf(
    consoleEnable: bool,
    color: bool,
    fileEnable: bool,
    formatJson: bool,
    level: string,
    filename: string,
    maxFileSize: int,
    maxFileBackup: int)

  /** zapcore's severity levels, least severe first. */
  datatype Level = Debug | Info | Warn | Error | DPanic | Panic | Fatal

  /** How the severity label is written: zap's production default, or the capitalised ANSI-coloured one. */
  datatype LevelEncoding = LowercaseLevel | CapitalColorLevel

  /** How the timestamp is written: zap's production default, or this package's `timeEncoder`. */
  datatype TimeEncoding = EpochTime | CustomTimestamp

  datatype EncoderConfig = EncoderConfig(levelEncoding: LevelEncoding, timeEncoding: TimeEncoding)

  datatype EncoderKind = Json | Console

  datatype Encoder = Encoder(kind: EncoderKind, config: EncoderConfig)

  /**
    The parameters handed to lumberjack's rotating file writer. Age-based
    rotation (MaxAge), local-time backup names (LocalTime) and compression are
    left at lumberjack's zero values.
  */
  datatype RotatingFile = RotatingFile(filename: string, maxSize: int, maxBackups: int,
                                       maxAge: int, localTime: bool, compress: bool)

  /** A byte sink wrapped by `zapcore.AddSync`. */
  datatype Sink = Stderr | File(hook: RotatingFile)

  /** A write syncer: one sink, or `zapcore.NewMultiWriteSyncer` over several. */
  datatype WriteSyncer = Single(sink: Sink) | Multi(sinks: seq<Sink>)

  datatype Core = Core(encoder: Encoder, writer: WriteSyncer, level: Level)

  /** A logger handle built by `zap.New` over one core. */
  datatype Logger = Logger(core: Core, addCaller: bool)

  /** The process-wide logger: zap's no-op default until a logger is installed. */
  datatype GlobalLogger = Nop | Installed(logger: Logger)

  /** The level names the configuration recognises, with the level each selects. */
  const LevelNames: map<string, Level> :=
    map["info" := Info, "debug" := Debug, "warn" := Warn, "err" := Error, "panic" := DPanic]

  /** Every destination a write syncer writes each record to. */
  function Sinks(w: WriteSyncer): (r: seq<Sink>) {
    match w
    case Single(s) => [s]
    case Multi(ss) => ss
  }

  /**
    The level switch of `SetUp`: exact, case-sensitive names; anything else
    (the empty string, "Info", "error") selects Info. "panic" selects DPanic,
    so Panic and Fatal are never chosen.
  */
  function ParseLevel(s: string): (r: Level)
    ensures s in LevelNames ==> r == LevelNames[s]
    ensures s !in LevelNames ==> r == Info
    ensures r != Panic && r != Fatal
  {
    match s
    case "info" => Info
    case "debug" => Debug
    case "warn" => Warn
    case "err" => Error
    case "panic" => DPanic
    case _ => Info
  }

  /** The configuration name that selects a level, for the levels a configuration can select. */
  function LevelName(l: Level): (r: Option<string>)
    ensures r.Some? <==> l != Panic && l != Fatal
    ensures r.Some? ==> r.value in LevelNames && LevelNames[r.value] == l
    ensures forall s :: s in LevelNames && LevelNames[s] == l ==> r == Some(s)
  {
    match l
    case Info => Some("info")
    case Debug => Some("debug")
    case Warn => Some("warn")
    case Error => Some("err")
    case DPanic => Some("panic")
    case _ => None
  }

  /** The coloured label is used exactly for plain-text output to the console alone. */
  predicate ColorApplies(c: LogConf) {
    !c.fileEnable && c.consoleEnable && !c.formatJson && c.color
  }

  /** `zap.NewProductionEncoderConfig()` with this package's time encoder and, in one case, coloured labels. */
  function EncoderConfigFor(c: LogConf): (ec: EncoderConfig)
    ensures ec.timeEncoding == CustomTimestamp
    ensures ec.levelEncoding == CapitalColorLevel <==> ColorApplies(c)
  {
    var production := EncoderConfig(LowercaseLevel, EpochTime);
    var timed := production.(timeEncoding := CustomTimestamp);
    if !c.fileEnable && c.consoleEnable && !c.formatJson && c.color
    then timed.(levelEncoding := CapitalColorLevel)
    else timed
  }

  function NewEncoder(c: LogConf): (e: Encoder)
    ensures e.kind == Json <==> c.formatJson
    ensures e.config == EncoderConfigFor(c)
  {
    if c.formatJson then Encoder(Json, EncoderConfigFor(c)) else Encoder(Console, EncoderConfigFor(c))
  }

  /** The lumberjack writer built from the configuration's file settings. */
  function Hook(c: LogConf): (h: RotatingFile)
    ensures h.filename == c.filename && h.maxSize == c.maxFileSize && h.maxBackups == c.maxFileBackup
    ensures h.maxAge == 0 && !h.localTime && !h.compress
  {
    RotatingFile(c.filename, c.maxFileSize, c.maxFileBackup, 0, false, false)
  }

  /**
    The write syncer of `setLogs`. It is total: with the file disabled it is
    stderr, whether or not the console is enabled.
  */
  function WriteSyncerFor(c: LogConf): (w: WriteSyncer)
    ensures Stderr in Sinks(w) <==> c.consoleEnable || !c.fileEnable
    ensures File(Hook(c)) in Sinks(w) <==> c.fileEnable
    ensures forall s :: s in Sinks(w) ==> s == Stderr || s == File(Hook(c))
    ensures w.Multi? <==> c.consoleEnable && c.fileEnable
    ensures w.Multi? ==> Sinks(w) == [Stderr, File(Hook(c))]
  {
    if c.fileEnable then
      if c.consoleEnable then Multi([Stderr, File(Hook(c))])
      else Single(File(Hook(c)))
    else Single(Stderr)
  }

  /** `setLogs`: the logger built for a configuration and an already resolved level. */
  function SetLogs(c: LogConf, level: Level): (lg: Logger)
    ensures lg.core.level == level
    ensures lg.core.encoder == NewEncoder(c)
    ensures lg.core.writer == WriteSyncerFor(c)
    ensures lg.addCaller
  {
    Logger(Core(NewEncoder(c), WriteSyncerFor(c), level), true)
  }

  /** Whether `SetUp` gets past its early exit. */
  predicate OutputEnabled(c: LogConf) {
    c.consoleEnable || c.fileEnable
  }

  /** `SetUp`: no logger at all when neither output is enabled, otherwise the logger `setLogs` builds. */
  function SetUp(c: LogConf): (r: Option<Logger>)
    ensures r.None? <==> !c.consoleEnable && !c.fileEnable
    ensures r.Some? ==> r.value.core.level == ParseLevel(c.level)
    ensures r.Some? ==> (Stderr in Sinks(r.value.core.writer) <==> c.consoleEnable)
    ensures r.Some? ==> (File(Hook(c)) in Sinks(r.value.core.writer) <==> c.fileEnable)
    ensures r.Some? ==> forall s :: s in Sinks(r.value.core.writer) ==> s == Stderr || s == File(Hook(c))
    ensures r.Some? ==> (r.value.core.encoder.kind == Json <==> c.formatJson)
    ensures r.Some? ==> (r.value.core.encoder.config.levelEncoding == CapitalColorLevel <==> ColorApplies(c))
  {
    if !OutputEnabled(c) then None
    else Some(SetLogs(c, ParseLevel(c.level)))
  }

  /** `SetUp` followed by `zap.ReplaceGlobals`: the global logger after the call. */
  function Install(global: GlobalLogger, c: LogConf): (g: GlobalLogger)
    ensures !OutputEnabled(c) ==> g == global
    ensures OutputEnabled(c) ==> g.Installed? && Some(g.logger) == SetUp(c)
  {
    match SetUp(c)
    case None => global
    case Some(lg) => Installed(lg)
  }

  /** Each selectable level is selected by its name, and only levels with a name are selected. */
  lemma LevelNameRoundTrip(l: Level, s: string)
    ensures LevelName(l).Some? ==> ParseLevel(LevelName(l).value) == l
    ensures ParseLevel(s) != Info ==> LevelName(ParseLevel(s)) == Some(s)
  {
  }

  /** Outside the one combination where it applies, the colour flag changes nothing in the plan. */
  lemma ColorIgnored(c: LogConf, color: bool)
    requires c.fileEnable || !c.consoleEnable || c.formatJson
    ensures SetUp(c) == SetUp(c.(color := color))
  {
  }

  /** Without file output, the file name and rotation settings change nothing in the plan. */
  lemma FileSettingsIgnored(c: LogConf, filename: string, maxSize: int, maxBackups: int)
    requires !c.fileEnable
    ensures SetUp(c) == SetUp(c.(filename := filename, maxFileSize := maxSize, maxFileBackup := maxBackups))
  {
  }

  /** With both outputs enabled, every record goes to stderr and to the rotating file built from the configuration. */
  lemma BothOutputs(c: LogConf)
    requires c.consoleEnable && c.fileEnable
    ensures SetUp(c).Some?
    ensures Sinks(SetUp(c).value.core.writer) == [Stderr, File(RotatingFile(c.filename, c.maxFileSize, c.maxFileBackup, 0, false, false))]
  {
  }
}
