/**
 * Src/Genesis.Logging/DefaultLoggerService.cs: the service that owns the
 * threshold, the name-to-logger registry and the subject every entry is
 * pushed onto, together with its nested `Logger` handle.
 *
 * The Rx subject is represented by what it does for this library: every
 * `OnNext` is recorded (ghost) in `published`, with the threshold in force at
 * that moment, and every subscriber of the public `Entries` view is a list
 * `received[i]` of the entries it has been handed so far.
 */
module DefaultLogging {

  import opened LogLevels
  import opened LogEntries
  import opened ClrTypes

  /** One push onto the subject: the entry and the threshold at emission time. */
  datatype Emission = Emission(entry: LogEntry, threshold: LogLevel)

  /** The `Entries` filter `x.Level >= Threshold`, read when `x` is pushed. */
  predicate Passes(em: Emission) {
    Enabled(em.threshold, em.entry.level)
  }

  /** What a subscriber of `Entries` is handed, in order, for a run of pushes. */
  function Delivered(h: seq<Emission>): (r: seq<LogEntry>)
    ensures |r| <= |h|
  {
    if h == [] then []
    else (if Passes(h[0]) then [h[0].entry] else []) + Delivered(h[1..])
  }

  /** The entries of a run of pushes, unfiltered. */
  function EntriesOf(h: seq<Emission>): (r: seq<LogEntry>)
    ensures |r| == |h|
    ensures forall k :: 0 <= k < |h| ==> r[k] == h[k].entry
  {
    seq(|h|, k requires 0 <= k < |h| => h[k].entry)
  }

  /** Filtering one run after another is filtering each: delivery keeps push order. */
  lemma {:induction false} DeliveredSplit(h1: seq<Emission>, h2: seq<Emission>)
    ensures Delivered(h1 + h2) == Delivered(h1) + Delivered(h2)
  {
    if h1 == [] {
      assert h1 + h2 == h2;
    } else {
      var h := h1 + h2;
      var first := if Passes(h1[0]) then [h1[0].entry] else [];
      assert h[0] == h1[0];
      assert h[1..] == h1[1..] + h2;
      DeliveredSplit(h1[1..], h2);
      calc {
        Delivered(h);
        first + Delivered(h1[1..] + h2);
        first + (Delivered(h1[1..]) + Delivered(h2));
        (first + Delivered(h1[1..])) + Delivered(h2);
        Delivered(h1) + Delivered(h2);
      }
    }
  }

  /** One more push adds the entry at the end exactly when it passes the threshold of its moment. */
  lemma DeliveredAppend(h: seq<Emission>, em: Emission)
    ensures Delivered(h + [em]) == Delivered(h) + (if Passes(em) then [em.entry] else [])
  {
    DeliveredSplit(h, [em]);
    assert Delivered([em]) == (if Passes(em) then [em.entry] else []) + Delivered([]);
  }

  /** An entry reaches a subscriber iff it was pushed at a moment when its level was at or above the threshold. */
  lemma {:induction false} DeliveredMembership(h: seq<Emission>, e: LogEntry)
    ensures e in Delivered(h) <==> exists k :: 0 <= k < |h| && h[k].entry == e && Passes(h[k])
  {
    if h != [] {
      DeliveredMembership(h[1..], e);
      if e in Delivered(h[1..]) {
        var k :| 0 <= k < |h[1..]| && h[1..][k].entry == e && Passes(h[1..][k]);
        assert h[k + 1] == h[1..][k];
      }
      if exists k :: 0 <= k < |h| && h[k].entry == e && Passes(h[k]) {
        var k :| 0 <= k < |h| && h[k].entry == e && Passes(h[k]);
        if k > 0 {
          assert h[1..][k - 1] == h[k];
        }
      }
    }
  }

  /** While every push meets its threshold (e.g. threshold Debug throughout), a subscriber sees everything. */
  lemma {:induction false} DeliveredAllPass(h: seq<Emission>)
    requires forall k :: 0 <= k < |h| ==> Passes(h[k])
    ensures Delivered(h) == EntriesOf(h)
  {
    if h != [] {
      DeliveredAllPass(h[1..]);
      assert EntriesOf(h) == [h[0].entry] + EntriesOf(h[1..]);
    }
  }

  /** While the threshold is None, only entries logged at level None itself get through. */
  lemma {:induction false} DeliveredUnderNone(h: seq<Emission>)
    requires forall k :: 0 <= k < |h| ==> h[k].threshold == None && h[k].entry.level != None
    ensures Delivered(h) == []
  {
    if h != [] {
      DeliveredUnderNone(h[1..]);
    }
  }

  /**
   * The name `GetLogger(Type)` looks up: the full name of the type, after a
   * constructed generic type has been replaced by its generic definition.
   */
  function LoggerName(forType: ClrType): (name: string)
    ensures name == forType.definitionFullName
  {
    var t := if forType.IsConstructedGenericType() then forType.GetGenericTypeDefinition() else forType;
    t.FullName()
  }

  /** `Container<int>`, `Container<string>` and `Container<>` share one logger name. */
  lemma TypeArgumentsIgnored(t1: ClrType, t2: ClrType)
    requires t1.definitionFullName == t2.definitionFullName
    ensures LoggerName(t1) == LoggerName(t2)
    ensures t1.IsConstructedGenericType() ==> LoggerName(t1) == LoggerName(t1.GetGenericTypeDefinition())
  {
  }

  /**
   * The effect of one `GetLogger(name)` on `svc` that returned `logger`: a
   * present name gives back the registered instance and leaves the registry
   * as it was; an absent name gets a new handle added under it and no other
   * entry changes. The threshold, the subscribers and the pushes are untouched.
   */
  twostate predicate Registered(svc: DefaultLoggerService, name: string, new logger: Logger)
    reads svc
  {
    && svc.threshold == old(svc.threshold)
    && svc.received == old(svc.received)
    && svc.published == old(svc.published)
    && svc.subscribedAt == old(svc.subscribedAt)
    && logger.name == name && logger.owner == svc
    && (name in old(svc.loggers) ==> logger == old(svc.loggers)[name] && svc.loggers == old(svc.loggers))
    && (name !in old(svc.loggers) ==> fresh(logger) && svc.loggers == old(svc.loggers)[name := logger])
  }

  /**
   * The effect of one `entries.OnNext(entry)` on `svc`: the push is recorded
   * with the threshold of the moment, every subscriber gets the entry appended
   * iff it passes that threshold, and nothing else changes.
   */
  twostate predicate Emitted(svc: DefaultLoggerService, entry: LogEntry)
    reads svc
  {
    && svc.threshold == old(svc.threshold)
    && svc.loggers == old(svc.loggers)
    && svc.subscribedAt == old(svc.subscribedAt)
    && svc.published == old(svc.published) + [Emission(entry, svc.threshold)]
    && |svc.received| == |old(svc.received)|
    && forall i :: 0 <= i < |svc.received| ==>
         svc.received[i] == old(svc.received[i]) + (if Enabled(svc.threshold, entry.level) then [entry] else [])
  }

  class DefaultLoggerService {
    var threshold: LogLevel
    var loggers: map<string, Logger>
    /** `received[i]`: what the i-th subscriber of `Entries` has been handed so far. */
    var received: seq<seq<LogEntry>>
    /** Every push onto the subject, unfiltered. */
    ghost var published: seq<Emission>
    /** `subscribedAt[i]`: how many pushes preceded the i-th subscription. */
    ghost var subscribedAt: seq<nat>

    /**
     * Each subscriber has been handed exactly the filtered pushes since it
     * subscribed, and each registered logger carries its key as name and this
     * service as owner.
     */
    ghost predicate Valid()
      reads this
    {
      && |subscribedAt| == |received|
      && (forall i :: 0 <= i < |received| ==>
            subscribedAt[i] <= |published| && received[i] == Delivered(published[subscribedAt[i]..]))
      && (forall n :: n in loggers ==> loggers[n].name == n && loggers[n].owner == this)
    }

    constructor ()
      ensures Valid()
      ensures threshold == DefaultLevel
      ensures loggers == map[] && received == [] && published == []
    {
      threshold := DefaultLevel;
      loggers := map[];
      received := [];
      published := [];
      subscribedAt := [];
    }

    /** The `Threshold` setter: a plain assignment, any level accepted. */
    method SetThreshold(value: LogLevel)
      requires Valid()
      modifies this`threshold
      ensures Valid()
      ensures threshold == value
    {
      threshold := value;
    }

    predicate IsDebugEnabled()
      reads this
    {
      Enabled(threshold, Debug)
    }

    predicate IsInfoEnabled()
      reads this
    {
      Enabled(threshold, Info)
    }

    predicate IsPerfEnabled()
      reads this
    {
      Enabled(threshold, Perf)
    }

    predicate IsWarnEnabled()
      reads this
    {
      Enabled(threshold, Warn)
    }

    predicate IsErrorEnabled()
      reads this
    {
      Enabled(threshold, Error)
    }

    /**
     * Subscribing to `Entries`: a new subscriber that has been handed nothing
     * and will see only what is pushed from now on.
     */
    method Subscribe() returns (id: nat)
      requires Valid()
      modifies this`received, this`subscribedAt
      ensures Valid()
      ensures id == |old(received)|
      ensures received == old(received) + [[]]
      ensures subscribedAt == old(subscribedAt) + [|published|]
    {
      id := |received|;
      received := received + [[]];
      subscribedAt := subscribedAt + [|published|];
      assert published[|published|..] == [];
    }

    /**
     * `entries.OnNext(entry)`: the push itself is unconditional; each
     * subscriber of the filtered view is handed the entry iff its level is at
     * or above the threshold now in force.
     */
    method Publish(entry: LogEntry)
      requires Valid()
      modifies this`received, this`published
      ensures Valid()
      ensures Emitted(this, entry)
    {
      var pass := Enabled(threshold, entry.level);
      ghost var em := Emission(entry, threshold);
      ghost var before := published;
      var subscribers := received;
      received := seq(|subscribers|, i requires 0 <= i < |subscribers| =>
                        subscribers[i] + (if pass then [entry] else []));
      published := published + [em];
      forall i | 0 <= i < |received|
        ensures received[i] == Delivered(published[subscribedAt[i]..])
      {
        assert published[subscribedAt[i]..] == before[subscribedAt[i]..] + [em];
        DeliveredAppend(before[subscribedAt[i]..], em);
        assert received[i] == subscribers[i] + (if Passes(em) then [em.entry] else []);
      }
    }

    /**
     * `GetLogger(string)`: the registered logger for `name`, or a new one,
     * registered under `name`. Entries for other names are untouched and
     * nothing is ever removed.
     */
    method GetLogger(name: string) returns (logger: Logger)
      requires Valid()
      modifies this`loggers
      ensures Valid()
      ensures logger.name == name && logger.owner == this
      ensures name in loggers && loggers[name] == logger
      ensures name in old(loggers) ==> logger == old(loggers)[name] && loggers == old(loggers)
      ensures name !in old(loggers) ==> fresh(logger) && loggers == old(loggers)[name := logger]
      ensures Registered(this, name, logger)
    {
      if name in loggers {
        logger := loggers[name];
      } else {
        logger := new Logger(this, name);
        loggers := loggers[name := logger];
      }
    }

    /** `GetLogger(Type)`: `GetLogger(string)` on the type's normalised full name. */
    method GetLoggerForType(forType: ClrType) returns (logger: Logger)
      requires Valid()
      modifies this`loggers
      ensures Valid()
      ensures logger.name == LoggerName(forType) && logger.owner == this
      ensures LoggerName(forType) in loggers && loggers[LoggerName(forType)] == logger
      ensures LoggerName(forType) in old(loggers) ==>
                logger == old(loggers)[LoggerName(forType)] && loggers == old(loggers)
      ensures LoggerName(forType) !in old(loggers) ==>
                fresh(logger) && loggers == old(loggers)[LoggerName(forType) := logger]
      ensures Registered(this, LoggerName(forType), logger)
    {
      var t := if forType.IsConstructedGenericType() then forType.GetGenericTypeDefinition() else forType;
      logger := GetLogger(t.FullName());
    }
  }

  /** The nested `Logger`: a name and an owner, and no state of its own. */
  class Logger {
    const owner: DefaultLoggerService
    const name: string

    constructor (owner: DefaultLoggerService, name: string)
      ensures this.owner == owner && this.name == name
    {
      this.owner := owner;
      this.name := name;
    }

    predicate IsDebugEnabled()
      reads owner
    {
      owner.IsDebugEnabled()
    }

    predicate IsInfoEnabled()
      reads owner
    {
      owner.IsInfoEnabled()
    }

    predicate IsPerfEnabled()
      reads owner
    {
      owner.IsPerfEnabled()
    }

    predicate IsWarnEnabled()
      reads owner
    {
      owner.IsWarnEnabled()
    }

    predicate IsErrorEnabled()
      reads owner
    {
      owner.IsErrorEnabled()
    }

    /**
     * Builds the entry from this logger's name and the caller's level and
     * message, stamped with `timestamp` and `threadId` (the clock and the
     * current thread), and pushes it onto the owner's subject.
     */
    method Log(level: LogLevel, message: string, timestamp: Timestamp, threadId: Int32)
      requires owner.Valid()
      modifies owner`received, owner`published
      ensures owner.Valid()
      ensures Emitted(owner, LogEntry(timestamp, name, level, threadId, message))
    {
      var entry := LogEntry(timestamp, name, level, threadId, message);
      owner.Publish(entry);
    }
  }

  /**
   * Each predicate of the service is open exactly when its level is not below
   * the current threshold; Error is open for every threshold but None.
   */
  lemma PredicatesFollowThreshold(svc: DefaultLoggerService)
    ensures svc.IsDebugEnabled() <==> !Lt(Debug, svc.threshold)
    ensures svc.IsInfoEnabled() <==> !Lt(Info, svc.threshold)
    ensures svc.IsPerfEnabled() <==> !Lt(Perf, svc.threshold)
    ensures svc.IsWarnEnabled() <==> !Lt(Warn, svc.threshold)
    ensures svc.IsErrorEnabled() <==> svc.threshold != None
  {
    DisabledIffBelowThreshold(svc.threshold, Debug);
    DisabledIffBelowThreshold(svc.threshold, Info);
    DisabledIffBelowThreshold(svc.threshold, Perf);
    DisabledIffBelowThreshold(svc.threshold, Warn);
    ErrorEnabledUnlessNone(svc.threshold);
  }

  /**
   * A handle caches nothing: each of its predicates is the owner's, read
   * against whatever the owner's threshold is now.
   */
  lemma HandleAgreesWithOwner(logger: Logger)
    ensures logger.IsDebugEnabled() == logger.owner.IsDebugEnabled()
    ensures logger.IsInfoEnabled() == logger.owner.IsInfoEnabled()
    ensures logger.IsPerfEnabled() == logger.owner.IsPerfEnabled()
    ensures logger.IsWarnEnabled() == logger.owner.IsWarnEnabled()
    ensures logger.IsErrorEnabled() == logger.owner.IsErrorEnabled()
  {
  }
}
