/**
 * The SQL logger of the MySQL layer (internal/database/mysql/logger.go):
 * the defaults filled into its configuration, the log-level switch, the
 * masking switch, and the choice Trace makes between an error line, a
 * slow-query line, an info line and nothing.
 *
 * Output (the stdout, file and rotating writers) and the masking regular
 * expression itself are outside the model: the regular expression is a
 * function parameter.
 */
module MysqlLogger {
  import opened Wrappers

  /** gorm's logger.LogLevel values. */
  const Silent: int := 1
  const ErrorLevel: int := 2
  const WarnLevel: int := 3
  const InfoLevel: int := 4

  /** defaultMysqlLog */
  const DefaultLogFile: string := "mysql.log"

  /** A LogConfig as a value; durations are whole nanoseconds. */
  datatype Config = Config(
    logLevel: int,
    slowThreshold: int,
    ignoreRecordNotFoundError: bool,
    logFile: string,
    rotate: bool,
    maxSize: int,
    maxBackups: int,
    maxAge: int,
    compress: bool,
    enableMasking: bool)

  /** The configuration applyDefaults leaves behind. */
  function Defaulted(c: Config): Config
  {
    var c1 := if c.logFile == "" then c.(logFile := DefaultLogFile) else c;
    if !c1.rotate then c1
    else c1.(maxSize := if c1.maxSize == 0 then 100 else c1.maxSize,
             maxBackups := if c1.maxBackups == 0 then 7 else c1.maxBackups,
             maxAge := if c1.maxAge == 0 then 30 else c1.maxAge,
             compress := true)
  }

  /**
   * The log file is named "mysql.log" exactly when it had no name; with
   * rotation, zero limits become 100 MB, 7 backups and 30 days, non-zero
   * limits are kept and compression is switched on; without rotation nothing
   * else changes. Filling in the defaults twice changes nothing more.
   */
  lemma DefaultedSpec(c: Config)
    ensures var d := Defaulted(c);
      && d.logFile != ""
      && (d.logFile == DefaultLogFile <==> c.logFile == "" || c.logFile == DefaultLogFile)
      && (c.logFile != "" ==> d.logFile == c.logFile)
      && (c.rotate ==>
            && d.compress
            && d.maxSize == (if c.maxSize == 0 then 100 else c.maxSize)
            && d.maxBackups == (if c.maxBackups == 0 then 7 else c.maxBackups)
            && d.maxAge == (if c.maxAge == 0 then 30 else c.maxAge))
      && (!c.rotate ==> d == c.(logFile := d.logFile))
      && d.(logFile := c.logFile, maxSize := c.maxSize, maxBackups := c.maxBackups,
            maxAge := c.maxAge, compress := c.compress) == c
      && Defaulted(d) == d
  {
  }

  /** The configuration record applyDefaults works on in place. */
  class LogConfig {
    var logLevel: int
    var slowThreshold: int
    var ignoreRecordNotFoundError: bool
    var logFile: string
    var rotate: bool
    var maxSize: int
    var maxBackups: int
    var maxAge: int
    var compress: bool
    var enableMasking: bool

    function Value(): Config
      reads this
    {
      Config(logLevel, slowThreshold, ignoreRecordNotFoundError, logFile, rotate,
             maxSize, maxBackups, maxAge, compress, enableMasking)
    }

    constructor (c: Config)
      ensures Value() == c
    {
      logLevel, slowThreshold, ignoreRecordNotFoundError := c.logLevel, c.slowThreshold, c.ignoreRecordNotFoundError;
      logFile, rotate, maxSize, maxBackups := c.logFile, c.rotate, c.maxSize, c.maxBackups;
      maxAge, compress, enableMasking := c.maxAge, c.compress, c.enableMasking;
    }

    /** applyDefaults */
    method ApplyDefaults()
      modifies this
      ensures Value() == Defaulted(old(Value()))
    {
      if logFile == "" {
        logFile := DefaultLogFile;
      }
      if rotate {
        if maxSize == 0 {
          maxSize := 100;
        }
        if maxBackups == 0 {
          maxBackups := 7;
        }
        if maxAge == 0 {
          maxAge := 30;
        }
        if !compress {
          compress := true;
        }
      }
    }
  }

  /** maskSQL: the statement rewritten by the masking expression when masking is on, untouched otherwise. */
  function MaskSQL(enableMasking: bool, mask: string -> string, sql: string): (r: string)
    ensures !enableMasking ==> r == sql
    ensures enableMasking ==> r == mask(sql)
  {
    if enableMasking then mask(sql) else sql
  }

  /** The error passed to Trace: none, gorm's record-not-found (possibly wrapped), or another. */
  datatype TraceError = NoError | RecordNotFound | OtherError

  /** The line Trace writes, if any. */
  datatype Branch = NoLine | ErrorLine | SlowLine | InfoLine

  /** The first case of Trace's switch: an error worth reporting at this level. */
  predicate ReportsError(c: Config, err: TraceError)
  {
    err != NoError && c.logLevel >= ErrorLevel && (err != RecordNotFound || !c.ignoreRecordNotFoundError)
  }

  /** The second case: a query slower than a non-zero threshold, at warning level or above. */
  predicate ReportsSlow(c: Config, elapsed: int)
  {
    c.slowThreshold != 0 && elapsed > c.slowThreshold && c.logLevel >= WarnLevel
  }

  /** The branch Trace takes, given the time the query took. */
  function TraceBranch(c: Config, elapsed: int, err: TraceError): Branch
  {
    if c.logLevel <= Silent then NoLine
    else if ReportsError(c, err) then ErrorLine
    else if ReportsSlow(c, elapsed) then SlowLine
    else if c.logLevel == InfoLevel then InfoLine
    else NoLine
  }

  /**
   * Trace's branches in priority order: a reportable error wins over a slow
   * query, which wins over the info line; a silent logger writes nothing.
   */
  lemma TraceBranchSpec(c: Config, elapsed: int, err: TraceError)
    ensures c.logLevel <= Silent ==> TraceBranch(c, elapsed, err) == NoLine
    ensures TraceBranch(c, elapsed, err) == ErrorLine <==> c.logLevel > Silent && ReportsError(c, err)
    ensures TraceBranch(c, elapsed, err) == SlowLine <==>
      c.logLevel > Silent && !ReportsError(c, err) && ReportsSlow(c, elapsed)
    ensures TraceBranch(c, elapsed, err) == InfoLine <==>
      c.logLevel == InfoLevel && !ReportsError(c, err) && !ReportsSlow(c, elapsed)
  {
  }

  /** Raising the level never silences a line: at Info every query is logged. */
  lemma TraceLevelMonotone(c: Config, elapsed: int, err: TraceError, level: int)
    requires TraceBranch(c, elapsed, err) != NoLine
    requires c.logLevel <= level <= InfoLevel
    ensures TraceBranch(c.(logLevel := level), elapsed, err) != NoLine
    ensures TraceBranch(c.(logLevel := InfoLevel), elapsed, err) != NoLine
  {
  }

  /** At Error level only reportable errors are logged; a success or an ignored not-found writes nothing. */
  lemma ErrorLevelLogsOnlyErrors(c: Config, elapsed: int, err: TraceError)
    requires c.logLevel == ErrorLevel
    ensures TraceBranch(c, elapsed, err) != NoLine <==> ReportsError(c, err)
  {
  }

  /** What fc returns: the statement and the number of rows it affected. */
  datatype Statement = Statement(sql: string, rows: int)

  /** The fields of a written trace line that the model keeps. */
  datatype Entry = Entry(branch: Branch, elapsed: int, rows: int, sql: string)

  /** The logger gorm calls: its configuration and the writers (left out). */
  class FileLogger {
    var cfg: Config

    /** NewLogger, without the writers: the configuration with its defaults filled in. */
    constructor (config: Config)
      ensures cfg == Defaulted(config)
    {
      cfg := Defaulted(config);
    }

    /** LogMode: sets the level only and returns the logger itself. */
    method LogMode(level: int) returns (self: FileLogger)
      modifies this
      ensures self == this && cfg == old(cfg).(logLevel := level)
    {
      cfg := cfg.(logLevel := level);
      return this;
    }

    /**
     * Trace: fc is called once when a line is written and never otherwise;
     * the line carries the rows fc reports and the statement after masking.
     */
    method Trace(elapsed: int, fc: Statement, err: TraceError, mask: string -> string)
      returns (fcCalls: nat, line: Option<Entry>)
      ensures fcCalls <= 1
      ensures fcCalls == 1 <==> TraceBranch(cfg, elapsed, err) != NoLine
      ensures line.Some? <==> fcCalls == 1
      ensures line.Some? ==>
        && line.value.branch == TraceBranch(cfg, elapsed, err)
        && line.value.rows == fc.rows && line.value.sql == MaskSQL(cfg.enableMasking, mask, fc.sql)
        && line.value.elapsed == elapsed
    {
      fcCalls, line := 0, None;
      if cfg.logLevel <= Silent {
        return;
      }
      var branch := NoLine;
      if err != NoError && cfg.logLevel >= ErrorLevel && (err != RecordNotFound || !cfg.ignoreRecordNotFoundError) {
        branch := ErrorLine;
      } else if cfg.slowThreshold != 0 && elapsed > cfg.slowThreshold && cfg.logLevel >= WarnLevel {
        branch := SlowLine;
      } else if cfg.logLevel == InfoLevel {
        branch := InfoLine;
      }
      if branch != NoLine {
        var st := fc;
        fcCalls := fcCalls + 1;
        line := Some(Entry(branch, elapsed, st.rows, MaskSQL(cfg.enableMasking, mask, st.sql)));
      }
    }
  }
}
