/**
 * Clients of the model that replay the unit tests of
 * Src/Genesis.Logging.UnitTests: what a caller can conclude from the
 * contracts alone. The clock and the thread id are arbitrary parameters.
 */
module Scenarios {

  import opened Wrappers
  import opened LogLevels
  import opened LogEntries
  import opened DefaultLogging
  import opened NullLogging
  import opened Interfaces
  import opened PerfBlocks
  import opened Ambient

  /**
   * DefaultLoggerServiceFixture.threshold_determines_which_log_entries_tick,
   * in steps that hand the service on to each other: seven of the twelve
   * calls reach the subscriber, in order, the fifth being the Perf block's.
   */
  method ThresholdDeterminesWhichEntriesTick(t: Timestamp, tid: Int32)
  {
    var sut := new DefaultLoggerService();
    var logger := sut.GetLogger("Fixture");
    var id := sut.Subscribe();
    var e1 := LogEntry(t, "Fixture", Debug, tid, "Expected 1");
    var e2 := LogEntry(t, "Fixture", Info, tid, "Expected 2");

    assert sut.received[id] == [];
    ThresholdDebug(sut, logger, id, t, tid);
    ThresholdInfo(sut, logger, id, t, tid);
    ThresholdPerf(sut, logger, id, t, tid);
    ThresholdErrorAndNone(sut, logger, id, t, tid);

    var perf := PerfMessage("Expected 5", "00:00:00.0010000", 1);
    assert perf[..12] == "Expected 5 [";
    assert sut.received[id] == [e1, e2,
      LogEntry(t, "Fixture", Info, tid, "Expected 3"), LogEntry(t, "Fixture", Warn, tid, "Expected 4"),
      LogEntry(t, "Fixture", Perf, tid, perf),
      LogEntry(t, "Fixture", Warn, tid, "Expected 6"), LogEntry(t, "Fixture", Error, tid, "Expected 7")];
  }

  /** The opening step of the same test: under the default threshold Debug and Info both pass. */
  method ThresholdDebug(sut: DefaultLoggerService, logger: Logger, id: nat, t: Timestamp, tid: Int32)
    requires sut.Valid() && logger.owner == sut && logger.name == "Fixture"
    requires id < |sut.received| && sut.threshold == Debug
    modifies sut
    ensures sut.Valid() && id < |sut.received|
    ensures sut.received[id] == old(sut.received[id]) +
              [LogEntry(t, "Fixture", Debug, tid, "Expected 1"), LogEntry(t, "Fixture", Info, tid, "Expected 2")]
  {
    logger.Log(Debug, "Expected 1", t, tid);
    logger.Log(Info, "Expected 2", t, tid);
  }

  /** The Info step of the same test: Debug is now dropped, Info and Warn pass. */
  method ThresholdInfo(sut: DefaultLoggerService, logger: Logger, id: nat, t: Timestamp, tid: Int32)
    requires sut.Valid() && logger.owner == sut && logger.name == "Fixture"
    requires id < |sut.received|
    modifies sut
    ensures sut.Valid() && id < |sut.received| && sut.threshold == Info
    ensures sut.received[id] == old(sut.received[id]) +
              [LogEntry(t, "Fixture", Info, tid, "Expected 3"), LogEntry(t, "Fixture", Warn, tid, "Expected 4")]
  {
    sut.SetThreshold(Info);
    logger.Log(Debug, "NOT expected", t, tid);
    logger.Log(Info, "Expected 3", t, tid);
    logger.Log(Warn, "Expected 4", t, tid);
  }

  /** The Perf step of the same test: a block is gated like any other entry. */
  method ThresholdPerf(sut: DefaultLoggerService, logger: Logger, id: nat, t: Timestamp, tid: Int32)
    requires sut.Valid() && logger.owner == sut && logger.name == "Fixture"
    requires id < |sut.received|
    modifies sut
    ensures sut.Valid() && id < |sut.received| && sut.threshold == Warn
    ensures sut.received[id] == old(sut.received[id]) +
              [LogEntry(t, "Fixture", Perf, tid, PerfMessage("Expected 5", "00:00:00.0010000", 1))]
  {
    sut.SetThreshold(Perf);
    logger.Log(Info, "NOT expected", t, tid);
    var live := new PerformanceBlock(Handle(logger), "Expected 5");
    live.Dispose(t, tid, "00:00:00.0010000", 1);
    sut.SetThreshold(Warn);
    var gated := new PerformanceBlock(Handle(logger), "NOT expected");
    gated.Dispose(t, tid, "00:00:00.0010000", 1);
  }

  /** The Warn, Error and None steps of the same test. */
  method ThresholdErrorAndNone(sut: DefaultLoggerService, logger: Logger, id: nat, t: Timestamp, tid: Int32)
    requires sut.Valid() && logger.owner == sut && logger.name == "Fixture"
    requires id < |sut.received| && sut.threshold == Warn
    modifies sut
    ensures sut.Valid() && id < |sut.received|
    ensures sut.received[id] == old(sut.received[id]) +
              [LogEntry(t, "Fixture", Warn, tid, "Expected 6"), LogEntry(t, "Fixture", Error, tid, "Expected 7")]
  {
    logger.Log(Warn, "Expected 6", t, tid);
    sut.SetThreshold(Error);
    logger.Log(Warn, "NOT expected", t, tid);
    logger.Log(Error, "Expected 7", t, tid);
    sut.SetThreshold(LogLevel.None);
    logger.Log(Error, "NOT expected", t, tid);
  }

  /** LoggerFixture.is_debug_enabled_returns_correct_value: the handle sees the new threshold at once. */
  method HandleSeesThresholdChange()
  {
    var service := new DefaultLoggerService();
    var sut := service.GetLogger("Captain Winters");
    assert sut.name == "Captain Winters";
    assert sut.IsDebugEnabled();
    service.SetThreshold(Info);
    assert !sut.IsDebugEnabled();
    assert sut.IsErrorEnabled();
    service.SetThreshold(LogLevel.None);
    assert !sut.IsErrorEnabled();
  }

  /** DefaultLoggerServiceFixture.get_logger_by_name_returns_the_same_logger_for_the_same_name. */
  method SameNameSameLogger()
  {
    var sut := new DefaultLoggerService();
    var logger1 := sut.GetLogger("Name");
    var other := sut.GetLogger("Other");
    var logger2 := sut.GetLogger("Name");
    assert logger1 == logger2;
    assert logger1 != other;
  }

  /** LoggerFixture.perf_logs_only_once_disposable_is_disposed, and a second Dispose. */
  method PerfLogsOnlyOnceDisposed(t: Timestamp, tid: Int32)
  {
    var service := new DefaultLoggerService();
    var sut := service.GetLogger("Fixture");
    var id := service.Subscribe();
    var block := new PerformanceBlock(Handle(sut), "Here is the message.");
    assert service.received[id] == [];
    block.Dispose(t, tid, "00:00:00", 0);
    assert |service.received[id]| == 1;
    block.Dispose(t, tid, "00:00:00", 0);
    assert |service.received[id]| == 1;
    var empty := new PerformanceBlock.Empty();
    empty.Dispose(t, tid, "00:00:00", 0);
    assert |service.received[id]| == 1;
  }

  /** The ambient slot: the null service at first, an error once cleared. */
  method AmbientSlot()
  {
    var ambient := new LoggerService();
    var first := ambient.GetLogger("Anything");
    assert first == Success(NullHandle(NullLogger));
    var service := new DefaultLoggerService();
    ambient.SetCurrent(Some(Default(service)));
    var second := ambient.GetLogger("Name");
    assert second.Success? && second.value.Name() == "Name";
    var again := ambient.GetLogger("Name");
    assert again == second;
    assert service.threshold == Debug;
    ambient.SetCurrent(Null);
    var third := ambient.GetLogger("Name");
    assert third == Failure(InvalidOperation(UnassignedMessage));
  }
}
