/**
 * The severity levels of Src/Genesis.Logging/LogLevel.cs. The enum declares
 * Debug = 0 … None = 5, and every gating decision in the library compares
 * levels by those ordinals.
 */
module LogLevels {

  import opened Wrappers

  datatype LogLevel = Debug | Info | Perf | Warn | Error | None

  /** The declared ordinal of each enum member. */
  function Ordinal(l: LogLevel): (n: nat)
    ensures n <= 5
    ensures n == 0 <==> l == Debug
    ensures n == 5 <==> l == None
  {
    match l
    case Debug => 0
    case Info => 1
    case Perf => 2
    case Warn => 3
    case Error => 4
    case None => 5
  }

  /** The enum member with ordinal `n`, if one is declared (a C# cast from int). */
  function FromOrdinal(n: int): (r: Option<LogLevel>)
    ensures r.Some? <==> 0 <= n <= 5
    ensures r.Some? ==> Ordinal(r.value) == n
  {
    if n == 0 then Some(Debug)
    else if n == 1 then Some(Info)
    else if n == 2 then Some(Perf)
    else if n == 3 then Some(Warn)
    else if n == 4 then Some(Error)
    else if n == 5 then Some(None)
    else Null
  }

  /** `a <= b` on the enum, i.e. on the ordinals. */
  predicate Le(a: LogLevel, b: LogLevel) {
    Ordinal(a) <= Ordinal(b)
  }

  /** `a < b` on the enum. */
  predicate Lt(a: LogLevel, b: LogLevel) {
    Ordinal(a) < Ordinal(b)
  }

  /** The zero value of the enum: what an unassigned `LogLevel` field holds. */
  const DefaultLevel: LogLevel := Debug

  /** A message at `level` passes a gate set at `threshold` (`threshold <= level`). */
  predicate Enabled(threshold: LogLevel, level: LogLevel) {
    Le(threshold, level)
  }

  /** Casting a level to its ordinal and back gives the level again, and vice versa. */
  lemma OrdinalRoundTrip(l: LogLevel, n: int)
    ensures FromOrdinal(Ordinal(l)) == Some(l)
    ensures FromOrdinal(n).Some? ==> Ordinal(FromOrdinal(n).value) == n
  {
  }

  /** Distinct members have distinct ordinals. */
  lemma OrdinalInjective(a: LogLevel, b: LogLevel)
    ensures Ordinal(a) == Ordinal(b) <==> a == b
  {
  }

  /** `Le` is a total order: reflexive, antisymmetric, transitive and total. */
  lemma LeTotalOrder(a: LogLevel, b: LogLevel, c: LogLevel)
    ensures Le(a, a)
    ensures Le(a, b) && Le(b, a) ==> a == b
    ensures Le(a, b) && Le(b, c) ==> Le(a, c)
    ensures Le(a, b) || Le(b, a)
    ensures Lt(a, b) <==> Le(a, b) && a != b
  {
    OrdinalInjective(a, b);
  }

  /** None is the greatest level and Debug the least. */
  lemma Bounds(l: LogLevel)
    ensures Le(l, None) && Le(Debug, l)
    ensures Le(None, l) ==> l == None
    ensures Le(l, Debug) ==> l == Debug
  {
  }

  /** The ascending order of the declaration. */
  lemma DeclarationOrder()
    ensures Lt(Debug, Info) && Lt(Info, Perf) && Lt(Perf, Warn) && Lt(Warn, Error) && Lt(Error, None)
  {
  }

  /** The enum's zero value is Debug, its least member, so every level passes a default gate. */
  lemma DefaultIsLeast(l: LogLevel)
    ensures Ordinal(DefaultLevel) == 0
    ensures Enabled(DefaultLevel, l)
  {
  }

  /**
   * A level is disabled exactly when the threshold is strictly above it: with
   * threshold t, the gate for x is closed iff x < t.
   */
  lemma DisabledIffBelowThreshold(t: LogLevel, x: LogLevel)
    ensures !Enabled(t, x) <==> Lt(x, t)
  {
  }

  /** Error passes every threshold except None. */
  lemma ErrorEnabledUnlessNone(t: LogLevel)
    ensures Enabled(t, Error) <==> t != None
  {
  }

  /** Threshold None closes the gate of every level but None itself. */
  lemma NoneDisablesAll(l: LogLevel)
    ensures Enabled(None, l) <==> l == None
  {
  }

  /** Raising the threshold can only close gates. */
  lemma EnabledAntitone(t1: LogLevel, t2: LogLevel, x: LogLevel)
    requires Le(t1, t2)
    ensures Enabled(t2, x) ==> Enabled(t1, x)
  {
  }
}
