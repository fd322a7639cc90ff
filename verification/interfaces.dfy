/**
 * The two interfaces of the library, ILogger (Src/Genesis.Logging/ILogger.cs)
 * and ILoggerService (Src/Genesis.Logging/ILoggerService.cs), as sums over
 * the two implementations the library ships. Each member dispatches to the
 * implementation it holds.
 */
module Interfaces {

  import opened LogLevels
  import opened LogEntries
  import opened ClrTypes
  import opened DefaultLogging
  import opened NullLogging

  /** An `ILogger`: a handle of a DefaultLoggerService, or the NullLogger. */
  datatype AnyLogger = Handle(handle: Logger) | NullHandle(nullLogger: NullLogger)
  {
    /** The objects a call on this logger may read or change. */
    function Frame(): set<object> {
      if Handle? then {handle.owner} else {}
    }

    ghost predicate Valid()
      reads Frame()
    {
      Handle? ==> handle.owner.Valid()
    }

    function Name(): string {
      match this
      case Handle(l) => l.name
      case NullHandle(n) => n.Name()
    }
  }

  /**
   * `ILogger.Log`. Through a handle the entry is pushed onto the owner's
   * subject; through the NullLogger nothing at all changes.
   */
  method Log(logger: AnyLogger, level: LogLevel, message: string, timestamp: Timestamp, threadId: Int32)
    requires logger.Valid()
    modifies logger.Frame()
    ensures logger.Valid()
    ensures logger.Handle? ==>
              Emitted(logger.handle.owner, LogEntry(timestamp, logger.Name(), level, threadId, message))
  {
    match logger
    case Handle(l) => l.Log(level, message, timestamp, threadId);
    case NullHandle(_) =>
  }

  /** An `ILoggerService`: a DefaultLoggerService or a NullLoggerService. */
  datatype AnyService = Default(service: DefaultLoggerService) | NullService(nullService: NullLoggerService)
  {
    function Frame(): set<object> {
      if Default? then {service} else {}
    }

    ghost predicate Valid()
      reads Frame()
    {
      Default? ==> service.Valid()
    }
  }

  /** `ILoggerService.GetLogger(string)`. */
  method GetLogger(s: AnyService, name: string) returns (logger: AnyLogger)
    requires s.Valid()
    modifies s.Frame()
    ensures s.Valid()
    ensures s.Default? ==>
              name in s.service.loggers && logger == Handle(s.service.loggers[name]) && logger.Name() == name &&
              logger.handle.owner == s.service && Registered(s.service, name, logger.handle)
    ensures s.NullService? ==> logger == NullHandle(NullLogger)
  {
    match s
    case Default(svc) =>
      var l := svc.GetLogger(name);
      logger := Handle(l);
    case NullService(n) =>
      logger := NullHandle(n.GetLogger(name));
  }

  /** `ILoggerService.GetLogger(Type)`. */
  method GetLoggerForType(s: AnyService, forType: ClrType) returns (logger: AnyLogger)
    requires s.Valid()
    modifies s.Frame()
    ensures s.Valid()
    ensures s.Default? ==>
              LoggerName(forType) in s.service.loggers &&
              logger == Handle(s.service.loggers[LoggerName(forType)]) &&
              logger.Name() == LoggerName(forType) &&
              logger.handle.owner == s.service && Registered(s.service, LoggerName(forType), logger.handle)
    ensures s.NullService? ==> logger == NullHandle(NullLogger)
  {
    match s
    case Default(svc) =>
      var l := svc.GetLoggerForType(forType);
      logger := Handle(l);
    case NullService(n) =>
      logger := NullHandle(n.GetLoggerForType(forType));
  }
}
