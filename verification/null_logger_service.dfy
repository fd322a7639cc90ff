/**
 * Src/Genesis.Logging/NullLoggerService.cs: the service that does nothing.
 * None of its types has state, so each is a datatype with a single value,
 * and "the one shared instance" is that value.
 */
module NullLogging {

  import opened LogLevels
  import opened LogEntries
  import opened ClrTypes
  import DefaultLogging

  /** `Disposable.Empty`: the handle returned by subscribing; disposing it does nothing. */
  datatype EmptyDisposable = EmptyDisposable

  /** The subject behind `Entries`: it never ticks. */
  datatype NullSubject = NullSubject
  {
    function Subscribe(): EmptyDisposable {
      EmptyDisposable
    }

    /** `OnNext`, `OnCompleted` and `OnError` have empty bodies: the subject is what it was. */
    function OnNext(value: LogEntry): NullSubject {
      this
    }

    /**
     * What a subscriber is handed when `pushed` has been pushed onto this
     * subject: nothing, whatever was pushed.
     */
    function Observed(pushed: seq<LogEntry>): (r: seq<LogEntry>)
      ensures |r| == 0
    {
      []
    }
  }

  /** The logger every `GetLogger` of the null service hands out. */
  datatype NullLogger = NullLogger
  {
    function Name(): string {
      "Null Logger"
    }

    predicate IsDebugEnabled() {
      false
    }

    predicate IsInfoEnabled() {
      false
    }

    predicate IsPerfEnabled() {
      false
    }

    predicate IsWarnEnabled() {
      false
    }

    predicate IsErrorEnabled() {
      false
    }
  }

  datatype NullLoggerService = NullLoggerService
  {
    function Entries(): NullSubject {
      NullSubject
    }

    /** The `Threshold` getter always reads None. */
    function Threshold(): LogLevel {
      None
    }

    /** The `Threshold` setter has an empty body: the service is what it was. */
    function SetThreshold(value: LogLevel): NullLoggerService {
      this
    }

    predicate IsDebugEnabled() {
      false
    }

    predicate IsInfoEnabled() {
      false
    }

    predicate IsPerfEnabled() {
      false
    }

    predicate IsWarnEnabled() {
      false
    }

    predicate IsErrorEnabled() {
      false
    }

    function GetLogger(name: string): NullLogger {
      NullLogger
    }

    function GetLoggerForType(forType: ClrType): NullLogger {
      NullLogger
    }
  }

  /**
   * Both overloads hand out the one shared logger, named "Null Logger",
   * whatever they are asked for.
   */
  lemma SharedLogger(s: NullLoggerService, n1: string, n2: string, t: ClrType)
    ensures s.GetLogger(n1) == s.GetLogger(n2) == s.GetLoggerForType(t)
    ensures s.GetLogger(n1).Name() == "Null Logger"
  {
  }

  /**
   * Nothing the null service offers has an effect or reports anything:
   * setting the threshold leaves it None, pushing leaves the subject as it
   * was, subscribing yields the empty disposable, and no predicate of the
   * service or of its logger is true.
   */
  lemma Inert(s: NullLoggerService, level: LogLevel, e: LogEntry, name: string)
    ensures s.SetThreshold(level) == s && s.SetThreshold(level).Threshold() == None
    ensures s.Entries().OnNext(e) == s.Entries()
    ensures s.Entries().Subscribe() == EmptyDisposable
    ensures !s.IsDebugEnabled() && !s.IsInfoEnabled() && !s.IsPerfEnabled()
    ensures !s.IsWarnEnabled() && !s.IsErrorEnabled()
    ensures var l := s.GetLogger(name);
      !l.IsDebugEnabled() && !l.IsInfoEnabled() && !l.IsPerfEnabled() &&
      !l.IsWarnEnabled() && !l.IsErrorEnabled()
  {
  }

  /**
   * The null service answers every enablement query as a default service
   * whose threshold is None, and its `Entries` hands out what that service's
   * `Entries` would for entries of real levels: nothing.
   */
  lemma {:induction false} AgreesWithThresholdNone(s: NullLoggerService, h: seq<DefaultLogging.Emission>)
    requires forall k :: 0 <= k < |h| ==> h[k].threshold == None && h[k].entry.level != None
    ensures s.IsDebugEnabled() == Enabled(s.Threshold(), Debug)
    ensures s.IsInfoEnabled() == Enabled(s.Threshold(), Info)
    ensures s.IsPerfEnabled() == Enabled(s.Threshold(), Perf)
    ensures s.IsWarnEnabled() == Enabled(s.Threshold(), Warn)
    ensures s.IsErrorEnabled() == Enabled(s.Threshold(), Error)
    ensures s.Entries().Observed(DefaultLogging.EntriesOf(h)) == DefaultLogging.Delivered(h)
  {
    DefaultLogging.DeliveredUnderNone(h);
  }
}
