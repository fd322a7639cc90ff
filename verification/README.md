# Genesis.Logging, modelled in Dafny

Genesis.Logging is a small logging facade. Components obtain named loggers from a
logger service and log leveled messages. A host subscribes to the service's
`Entries` stream, which delivers an entry only if its level is at or above the
service's threshold at the moment the entry is logged. The model covers:

- the ordered `LogLevel` enum (`log_level.dfy`);
- the immutable `LogEntry` record (`log_entry.dfy`);
- `DefaultLoggerService` with its nested `Logger` handle (`default_logger_service.dfy`). A class holds
  the threshold, the name-to-logger registry and, for each subscriber of
  `Entries`, the list of entries it has received. A ghost history records every
  push onto the internal subject together with the threshold in force when it
  happened. The class invariant says each subscriber has received exactly the
  filtered pushes made since it subscribed;
- the null object `NullLoggerService` with its `NullSubject` and `NullLogger` (`null_logger_service.dfy`);
- the one-shot `PerformanceBlock` (`performance_block.dfy`);
- the ambient `LoggerService.Current` slot and its `GetLogger` pass-throughs (`logger_service.dfy`);
- the `ILogger` / `ILoggerService` interfaces, as sums over the two shipped
  implementations (`interfaces.dfy`);
- a stand-in for `System.Type`: a definition name plus type arguments (`clr_types.dfy`);
- `Option`, whose `Null` is a C# null, and `Result`, whose `Failure` is a thrown exception (`wrappers.dfy`).

`scenarios.dfy` holds verified clients that restate the repository's unit tests
and prove their expected outcomes from the contracts alone. These include the threshold walk-through of
`DefaultLoggerServiceFixture.threshold_determines_which_log_entries_tick`, the
re-read of the threshold by an existing handle, dispose-once, and the ambient
slot's fallback, its error and its repeated lookups returning the same handle.

Points where the code may surprise a reader; the model follows the code:

- `GetLogger` does not reject empty names (DefaultLoggerService.cs:66-79 only
  looks the name up and registers it).
- Nothing stops an entry from being logged at level `None` (DefaultLoggerService.cs:106-110),
  and such an entry passes even a `None` threshold, because the filter at
  DefaultLoggerService.cs:52 is `Level >= Threshold` (`DeliveredUnderNone` therefore assumes real levels).
- `LogLevel` has no `Verbose` member. `DefaultLoggerService.cs:34` and
  `ILogger.cs:19` refer to one, but `LogLevel.cs` does not declare it. The
  model follows the enum's declaration, so Debug (ordinal 0, the enum's zero
  value) is the least level and a new service's threshold.
- The tests construct `new LoggerService()`, which is a static class. They are
  read as exercising `DefaultLoggerService`.

## Model

| member | source | states |
|---|---|---|
| `LogLevels.Ordinal` | Src/Genesis.Logging/LogLevel.cs:6-37 | each member's declared ordinal lies in 0..5; only Debug has ordinal 0 and only None has ordinal 5 |
| `LogLevels.FromOrdinal` | Src/Genesis.Logging/LogLevel.cs:6-37 | an int names a declared member exactly when it lies in 0..5, and that member's ordinal is the int |
| `LogLevels.OrdinalRoundTrip` | Src/Genesis.Logging/LogLevel.cs:6-37 | level to ordinal and back gives the level; a declared ordinal to level and back gives the ordinal |
| `LogLevels.OrdinalInjective` | Src/Genesis.Logging/LogLevel.cs:6-37 | distinct members have distinct ordinals |
| `LogLevels.LeTotalOrder` | Src/Genesis.Logging/LogLevel.cs:11-36 | comparison by ordinal is reflexive, antisymmetric, transitive and total; `<` is `<=` without equality |
| `LogLevels.Bounds` | Src/Genesis.Logging/LogLevel.cs:11-36 | every level is at most None and at least Debug, and only None is at or above None |
| `LogLevels.DeclarationOrder` | Src/Genesis.Logging/LogLevel.cs:11-36 | Debug < Info < Perf < Warn < Error < None |
| `LogLevels.DefaultIsLeast` | Src/Genesis.Logging/LogLevel.cs:11 | the enum's zero value is Debug, and every level passes a threshold left at that value |
| `LogLevels.DisabledIffBelowThreshold` | Src/Genesis.Logging/DefaultLoggerService.cs:37-49 | a level is disabled exactly when it is strictly below the threshold |
| `LogLevels.ErrorEnabledUnlessNone` | Src/Genesis.Logging/DefaultLoggerService.cs:49 | Error is enabled for every threshold except None, Error itself included |
| `LogLevels.NoneDisablesAll` | Src/Genesis.Logging/LogLevel.cs:33-36 | threshold None lets through no level but None |
| `LogLevels.EnabledAntitone` | Src/Genesis.Logging/DefaultLoggerService.cs:37-49 | raising the threshold never enables a level that was disabled |
| `LogEntries.AccessorsReturnConstructorArguments` | Src/Genesis.Logging/LogEntry.cs:34-66 | each accessor returns exactly the constructor argument of its field |
| `LogEntries.ValueEquality` | Src/Genesis.Logging/LogEntry.cs:8-14 | two entries are equal exactly when all five readonly fields are |
| `ClrTypes.ClrType.GetGenericTypeDefinition` | Src/Genesis.Logging/DefaultLoggerService.cs:57-60 | the definition of a constructed generic type is not itself constructed and keeps the definition's name |
| `DefaultLogging.Delivered` | Src/Genesis.Logging/DefaultLoggerService.cs:52 | the `Entries` filter over a run of pushes yields at most as many entries as were pushed |
| `DefaultLogging.DeliveredSplit` | Src/Genesis.Logging/DefaultLoggerService.cs:52 | filtering two runs in sequence is the concatenation of filtering each: delivery keeps push order |
| `DefaultLogging.DeliveredAppend` | Src/Genesis.Logging/DefaultLoggerService.cs:106-110 | one more push adds its entry at the end exactly when the entry's level is at or above the threshold of that moment |
| `DefaultLogging.DeliveredMembership` | Src/Genesis.Logging/DefaultLoggerService.cs:52 | an entry reaches a subscriber iff it was pushed at a moment when its level was at or above the threshold |
| `DefaultLogging.DeliveredAllPass` | Src/Genesis.Logging.UnitTests/DefaultLoggerServiceFixture.cs:127-153 | while every push meets its threshold, a subscriber receives every entry in log order |
| `DefaultLogging.DeliveredUnderNone` | Src/Genesis.Logging/DefaultLoggerService.cs:52 | under threshold None no entry of a real level is delivered |
| `DefaultLogging.LoggerName` | Src/Genesis.Logging/DefaultLoggerService.cs:55-63 | the lookup name for a type is its definition's full name, whatever its type arguments |
| `DefaultLogging.TypeArgumentsIgnored` | Src/Genesis.Logging/DefaultLoggerService.cs:57-62 | `Container<int>`, `Container<string>` and the definition `Container<>` share one logger name |
| `DefaultLogging.DefaultLoggerService.constructor` | Src/Genesis.Logging/DefaultLoggerService.cs:15-24 | a new service has threshold Debug, an empty registry, no subscribers and no pushes |
| `DefaultLogging.DefaultLoggerService.SetThreshold` | Src/Genesis.Logging/DefaultLoggerService.cs:27-31 | the threshold reads back as the value assigned, any level accepted, and nothing else changes |
| `DefaultLogging.DefaultLoggerService.Subscribe` | Src/Genesis.Logging/DefaultLoggerService.cs:52 | a new subscriber starts with nothing received and sees only later pushes |
| `DefaultLogging.DefaultLoggerService.Publish` | Src/Genesis.Logging/DefaultLoggerService.cs:109 | the push is recorded unconditionally; each subscriber gets the entry appended iff its level is at or above the current threshold; the invariant is kept |
| `DefaultLogging.DefaultLoggerService.GetLogger` | Src/Genesis.Logging/DefaultLoggerService.cs:66-79 | returns a logger named `name` owned by this service; a second call returns the same instance; only an absent name is added and no other entry changes |
| `DefaultLogging.DefaultLoggerService.GetLoggerForType` | Src/Genesis.Logging/DefaultLoggerService.cs:55-63 | the same as `GetLogger` on the type's normalised full name |
| `DefaultLogging.Logger.constructor` | Src/Genesis.Logging/DefaultLoggerService.cs:86-90 | a handle holds its owner and name |
| `DefaultLogging.Logger.Log` | Src/Genesis.Logging/DefaultLoggerService.cs:106-110 | pushes one entry carrying the handle's name, the given level, message, time and thread id onto the owner's subject |
| `DefaultLogging.PredicatesFollowThreshold` | Src/Genesis.Logging/DefaultLoggerService.cs:37-49 | each service predicate is true exactly when its level is not below the current threshold; Error is true unless the threshold is None |
| `DefaultLogging.HandleAgreesWithOwner` | Src/Genesis.Logging/DefaultLoggerService.cs:94-104 | a handle's predicates are the owner's current ones, so a later threshold change shows at once |
| `NullLogging.NullSubject.Observed` | Src/Genesis.Logging/NullLoggerService.cs:12-15 | a subscriber of the null `Entries` receives nothing, whatever is pushed |
| `NullLogging.SharedLogger` | Src/Genesis.Logging/NullLoggerService.cs:60-71 | both overloads return the one shared instance, named "Null Logger", for every argument |
| `NullLogging.Inert` | Src/Genesis.Logging/NullLoggerService.cs:20-120 | setting the threshold leaves it None, pushing and subscribing have no effect, and every predicate of the service and its logger is false |
| `NullLogging.AgreesWithThresholdNone` | Src/Genesis.Logging/NullLoggerService.cs:15-49 | the null service answers as a default service at threshold None and delivers what that service would for real levels: nothing |
| `Interfaces.Log` | Src/Genesis.Logging/ILogger.cs:64-73 | through a handle, one entry is pushed onto the owner's subject; through the null logger nothing at all changes |
| `Interfaces.GetLogger` | Src/Genesis.Logging/ILoggerService.cs:83-92 | a default service returns its registered handle for the name, with `DefaultLoggerService.GetLogger`'s whole effect (`Registered`: same instance for a present name, only an absent name added, threshold and subscribers untouched); the null service returns the shared null logger |
| `Interfaces.GetLoggerForType` | Src/Genesis.Logging/ILoggerService.cs:67-81 | the same for a type, under its normalised name, again with `Registered` |
| `PerfBlocks.Decimal` | Src/Genesis.Logging/PerformanceBlock.cs:53 | the millisecond count is rendered as a non-empty string of decimal digits with no leading zero |
| `PerfBlocks.DecimalRoundTrip` | Src/Genesis.Logging/PerformanceBlock.cs:53 | reading the rendered milliseconds back gives the count |
| `PerfBlocks.PerfMessage` | Src/Genesis.Logging/PerformanceBlock.cs:53 | the Perf text starts with the message then " [", carries the elapsed text next, and ends with the milliseconds then "ms)]" |
| `PerfBlocks.PerfMessageRecoverable` | Src/Genesis.Logging/PerformanceBlock.cs:53 | message, elapsed text and milliseconds can all be read back from the Perf text |
| `PerfBlocks.PerformanceBlock.constructor` | Src/Genesis.Logging/PerformanceBlock.cs:32-40 | a block with an owner starts live (flag 1) and logs nothing |
| `PerfBlocks.PerformanceBlock.Empty` | Src/Genesis.Logging/PerformanceBlock.cs:16 | the empty block has no owner and starts disposed (flag 0) |
| `PerfBlocks.PerformanceBlock.Dispose` | Src/Genesis.Logging/PerformanceBlock.cs:45-54 | the first dispose of a live block sets the flag to 0 and pushes exactly one Perf entry through the owner; a later dispose, or one of the empty block, changes nothing |
| `Ambient.LoggerService.constructor` | Src/Genesis.Logging/LoggerService.cs:18 | the slot starts out holding a NullLoggerService |
| `Ambient.LoggerService.Current` | Src/Genesis.Logging/LoggerService.cs:23-35 | returns the service in the slot, and fails with the invalid-operation message exactly when the slot holds null |
| `Ambient.LoggerService.SetCurrent` | Src/Genesis.Logging/LoggerService.cs:36 | `Current` then returns the assigned service, or fails if null was assigned |
| `Ambient.LoggerService.GetLogger` | Src/Genesis.Logging/LoggerService.cs:53-54 | returns `Current.GetLogger(name)` and fails exactly when `Current` fails, with its error; on a default service the result and the registry change are those of `DefaultLoggerService.GetLogger` (`Registered`) |
| `Ambient.LoggerService.GetLoggerForType` | Src/Genesis.Logging/LoggerService.cs:70-71 | returns `Current.GetLogger(forType)` and fails exactly when `Current` fails, with its error; on a default service the result and the registry change are those of `DefaultLoggerService.GetLoggerForType` (`Registered`) |

## Left out

- `IsVerboseEnabled` (DefaultLoggerService.cs:34, 94, ILogger.cs:19): `LogLevel.cs` declares no `Verbose`, so there is no level for it to test.
- Concurrency: the atomicity of `Interlocked.CompareExchange` in `Dispose`, the tolerated race in `GetLogger` that can register two handles for one name, and the visibility of threshold writes across threads. Every operation is modelled as running alone.
- Real time and thread identity: `DateTime.UtcNow`, `Environment.CurrentManagedThreadId`, the `Stopwatch`, and the invariant-culture rendering of a `TimeSpan` are parameters. The timestamp is a tick count, the elapsed time is a string, and the milliseconds are a natural number.
- Rx internals: unsubscribing, `OnCompleted` and `OnError` of the default service's subject are not modelled. Each subscription to `Entries` is a list of received entries.
- Struct copy semantics: `PerformanceBlock` is a C# struct, so a copy carries its own `disposed` flag. The model is one block object.
- Null arguments: the model has no null strings or types, so the exceptions for a null name, a null type or a block constructed with a null owner are not modelled. `PerformanceBlock.Empty` has an empty message where C# has null.
- Enum values outside 0..5: C# can cast any int to `LogLevel`; `FromOrdinal` returns `Null` for such ints, and no operation takes one.
- The `FullName` of a constructed generic type is not modelled, because `GetLogger(Type)` reads the name only after normalising to the generic definition.
- The `Is*Enabled` members of the two interfaces are not modelled as dispatchers; each implementation's predicates are modelled directly.
- Host-defined services and loggers: `LoggerService.Current` accepts any `ILoggerService` (LoggerService.cs:36), but `AnyService` and `AnyLogger` are sums over the two shipped implementations, so a host's own implementation cannot be assigned in the model.
- The `LoggerExtensions` helpers that the tests call (per-level `Debug`, `Info`, `Perf`, … with formatting and exception rendering) are not part of this model; the scenarios call `Log` and `PerformanceBlock` directly.
