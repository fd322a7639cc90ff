/**
 * Src/Genesis.Logging/LoggerService.cs: the ambient "current service". The C#
 * class is static; its one static field is here the field of a single
 * `LoggerService` object, whose constructor plays the static initialiser.
 */
module Ambient {

  import opened Wrappers
  import opened ClrTypes
  import opened DefaultLogging
  import opened NullLogging
  import opened Interfaces

  /** The exception `Current` throws when the slot holds null. */
  datatype InvalidOperation = InvalidOperation(message: string)

  const UnassignedMessage: string :=
    "You must assign an ILoggerService to LoggerService.Current before it can be retrieved."

  class LoggerService {
    /** The static field; `Null` is a C# null. */
    var current: Option<AnyService>

    function ServiceFrame(): set<object>
      reads this
    {
      if current.Some? then current.value.Frame() else {}
    }

    ghost predicate Valid()
      reads this, ServiceFrame()
    {
      current.Some? ==> current.value.Valid()
    }

    /** The static initialiser: the slot starts out holding a NullLoggerService. */
    constructor ()
      ensures Valid()
      ensures current == Some(NullService(NullLoggerService))
    {
      current := Some(NullService(NullLoggerService));
    }

    /** The `Current` getter: the service in the slot, or the exception when it holds null. */
    function Current(): (r: Result<AnyService, InvalidOperation>)
      reads this
      ensures r.Success? <==> current.Some?
      ensures r.Success? ==> r.value == current.value
      ensures r.Failure? ==> r.error.message == UnassignedMessage
    {
      if current.Null? then Failure(InvalidOperation(UnassignedMessage)) else Success(current.value)
    }

    /** The `Current` setter: any value, null included, is stored as is. */
    method SetCurrent(value: Option<AnyService>)
      modifies this`current
      ensures current == value
      ensures value.Some? ==> Current() == Success(value.value)
      ensures value.Null? ==> Current() == Failure(InvalidOperation(UnassignedMessage))
    {
      current := value;
    }

    /** `LoggerService.GetLogger(string)`: `Current.GetLogger(name)`, failing exactly when `Current` fails. */
    method GetLogger(name: string) returns (r: Result<AnyLogger, InvalidOperation>)
      requires Valid()
      modifies ServiceFrame()
      ensures Valid() && current == old(current)
      ensures r.Failure? <==> Current().Failure?
      ensures r.Failure? ==> r.error == Current().error
      ensures r.Success? && current.value.Default? ==>
                name in current.value.service.loggers &&
                r.value == Handle(current.value.service.loggers[name]) && r.value.Name() == name &&
                Registered(current.value.service, name, r.value.handle)
      ensures r.Success? && current.value.NullService? ==> r.value == NullHandle(NullLogger)
    {
      var c := Current();
      if c.Failure? {
        return Failure(c.error);
      }
      var logger := Interfaces.GetLogger(c.value, name);
      r := Success(logger);
    }

    /** `LoggerService.GetLogger(Type)`: `Current.GetLogger(forType)`, failing exactly when `Current` fails. */
    method GetLoggerForType(forType: ClrType) returns (r: Result<AnyLogger, InvalidOperation>)
      requires Valid()
      modifies ServiceFrame()
      ensures Valid() && current == old(current)
      ensures r.Failure? <==> Current().Failure?
      ensures r.Failure? ==> r.error == Current().error
      ensures r.Success? && current.value.Default? ==>
                LoggerName(forType) in current.value.service.loggers &&
                r.value == Handle(current.value.service.loggers[LoggerName(forType)]) &&
                r.value.Name() == LoggerName(forType) &&
                Registered(current.value.service, LoggerName(forType), r.value.handle)
      ensures r.Success? && current.value.NullService? ==> r.value == NullHandle(NullLogger)
    {
      var c := Current();
      if c.Failure? {
        return Failure(c.error);
      }
      var logger := Interfaces.GetLoggerForType(c.value, forType);
      r := Success(logger);
    }
  }
}
