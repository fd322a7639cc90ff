/**
 * The immutable record of Src/Genesis.Logging/LogEntry.cs. A datatype value
 * cannot be changed after it is built, which is what the readonly fields of
 * the C# struct promise.
 */
module LogEntries {

  import opened LogLevels

  /** A 32-bit signed C# `int`, the type of the managed thread id. */
  newtype Int32 = x: int | -0x8000_0000 <= x < 0x8000_0000

  /** A `DateTime` is represented by its tick count. */
  type Timestamp = nat

  datatype LogEntry = LogEntry(
    timestamp: Timestamp,
    name: string,
    level: LogLevel,
    threadId: Int32,
    message: string)

  /** Every accessor returns exactly what the constructor was given. */
  lemma AccessorsReturnConstructorArguments(
    timestamp: Timestamp, name: string, level: LogLevel, threadId: Int32, message: string)
    ensures var e := LogEntry(timestamp, name, level, threadId, message);
      e.timestamp == timestamp && e.name == name && e.level == level &&
      e.threadId == threadId && e.message == message
  {
  }

  /** Two entries are equal exactly when all five fields are. */
  lemma ValueEquality(a: LogEntry, b: LogEntry)
    ensures a == b <==>
      a.timestamp == b.timestamp && a.name == b.name && a.level == b.level &&
      a.threadId == b.threadId && a.message == b.message
  {
  }
}
