/**
 * Src/Genesis.Logging/PerformanceBlock.cs: a one-shot timer. A block built
 * with an owner is live (`disposed == 1`); the first `Dispose` flips the flag
 * to 0 and logs one Perf entry through the owner; every later `Dispose`, and
 * any `Dispose` of the `Empty` block (born with `disposed == 0`), does nothing.
 *
 * The stopwatch is not modelled: the rendered elapsed time and the elapsed
 * milliseconds it would report are parameters of `Dispose`.
 */
module PerfBlocks {

  import opened Wrappers
  import opened LogLevels
  import opened LogEntries
  import opened DefaultLogging
  import opened Interfaces

  /** The invariant-culture rendering of a decimal digit. */
  function Digit(d: nat): (c: char)
    requires d < 10
    ensures '0' <= c <= '9' && c as int - '0' as int == d
  {
    ('0' as int + d) as char
  }

  predicate IsDigits(s: string) {
    forall i :: 0 <= i < |s| ==> '0' <= s[i] <= '9'
  }

  /** The invariant-culture rendering of a non-negative integer (`{2}` in the format). */
  function Decimal(n: nat): (s: string)
    ensures |s| >= 1 && IsDigits(s)
    ensures n > 0 ==> s[0] != '0'
  {
    if n < 10 then [Digit(n)] else Decimal(n / 10) + [Digit(n % 10)]
  }

  /** The number a string of decimal digits denotes. */
  function DecimalValue(s: string): nat
    requires IsDigits(s)
  {
    if s == [] then 0 else DecimalValue(s[..|s| - 1]) * 10 + (s[|s| - 1] as int - '0' as int)
  }

  /** Reading back the rendered milliseconds gives the number rendered. */
  lemma {:induction false} DecimalRoundTrip(n: nat)
    ensures DecimalValue(Decimal(n)) == n
  {
    if n >= 10 {
      DecimalRoundTrip(n / 10);
      var s := Decimal(n);
      assert s[..|s| - 1] == Decimal(n / 10);
    }
  }

  /**
   * The text of the Perf entry, `"{0} [{1} ({2}ms)]"` filled with the block's
   * message, the elapsed time and the elapsed milliseconds.
   */
  function PerfMessage(message: string, elapsed: string, elapsedMilliseconds: nat): (m: string)
    ensures |m| == |message| + |elapsed| + |Decimal(elapsedMilliseconds)| + 8
    ensures m[..|message| + 2] == message + " ["
    ensures m[|message| + 2..|message| + 2 + |elapsed|] == elapsed
    ensures m[|m| - |Decimal(elapsedMilliseconds)| - 4..] == Decimal(elapsedMilliseconds) + "ms)]"
  {
    message + " [" + elapsed + " (" + Decimal(elapsedMilliseconds) + "ms)]"
  }

  /** The message, the elapsed text and the milliseconds can all be read back from the entry's text. */
  lemma PerfMessageRecoverable(message: string, elapsed: string, ms: nat)
    ensures var m := PerfMessage(message, elapsed, ms);
      m[..|message|] == message &&
      m[|message| + 2..|message| + 2 + |elapsed|] == elapsed &&
      IsDigits(m[|message| + |elapsed| + 4..|m| - 4]) &&
      DecimalValue(m[|message| + |elapsed| + 4..|m| - 4]) == ms
  {
    var m := PerfMessage(message, elapsed, ms);
    assert m == message + " [" + elapsed + " (" + Decimal(ms) + "ms)]";
    assert m[..|message|] == message;
    assert m[|message| + |elapsed| + 4..|m| - 4] == Decimal(ms);
    DecimalRoundTrip(ms);
  }

  class PerformanceBlock {
    /** The owning logger; `Null` in the `Empty` block. */
    const owner: Option<AnyLogger>
    const message: string
    /** 1 while live, 0 once disposed. */
    var disposed: int

    ghost predicate Valid()
      reads this
    {
      && (disposed == 0 || disposed == 1)
      && (disposed == 1 ==> owner.Some?)
    }

    /** The objects the owner's `Log` may change. */
    function LoggerFrame(): set<object> {
      if owner.Some? then owner.value.Frame() else {}
    }

    ghost predicate LoggerValid()
      reads LoggerFrame()
    {
      owner.Some? ==> owner.value.Valid()
    }

    /** A live block; the stopwatch would start here. Nothing is logged. */
    constructor (owner: AnyLogger, message: string)
      ensures Valid()
      ensures this.owner == Some(owner) && this.message == message
      ensures disposed == 1
    {
      this.owner := Some(owner);
      this.message := message;
      disposed := 1;
    }

    /** `PerformanceBlock.Empty`, the default value of the struct: already disposed. */
    constructor Empty()
      ensures Valid()
      ensures owner == Null && message == ""
      ensures disposed == 0
    {
      owner := Null;
      message := "";
      disposed := 0;
    }

    /**
     * `Interlocked.CompareExchange(ref disposed, 0, 1)`, done sequentially: the
     * caller that finds 1 swaps in 0 and logs one Perf entry through the owner;
     * a caller that finds 0 returns without any effect.
     */
    method Dispose(timestamp: Timestamp, threadId: Int32, elapsed: string, elapsedMilliseconds: nat)
      requires Valid() && LoggerValid()
      modifies this`disposed, LoggerFrame()
      ensures Valid() && LoggerValid()
      ensures disposed == 0
      ensures old(disposed) == 1 && owner.Some? && owner.value.Handle? ==>
                Emitted(owner.value.handle.owner,
                        LogEntry(timestamp, owner.value.Name(), Perf, threadId,
                                 PerfMessage(message, elapsed, elapsedMilliseconds)))
      ensures old(disposed) != 1 ==> unchanged(LoggerFrame())
    {
      var original := disposed;
      if original == 1 {
        disposed := 0;
      }
      if original != 1 {
        return;
      }
      Log(owner.value, Perf, PerfMessage(message, elapsed, elapsedMilliseconds), timestamp, threadId);
    }
  }
}
