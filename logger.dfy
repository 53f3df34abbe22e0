/**
 * The batch scripts' logger: five levels in a fixed order, and a logger
 * whose method for each level either writes (styled with the logger's name)
 * or does nothing, according to a minimum level. What the writing methods
 * print is not part of this model: a writing method is represented by the
 * level and name it writes with.
 */
module Logger {
  import Wrappers

  datatype LogLevel = Debug | Info | Warn | Error | None

  /** `logLevelOrder`: from the most verbose level to silence. */
  const LogLevelOrder: seq<LogLevel> := [Debug, Info, Warn, Error, None]

  /** `logLevelOrder.indexOf(level)`: every level is listed, exactly once. */
  function Rank(level: LogLevel): (r: nat)
    ensures r < |LogLevelOrder| && LogLevelOrder[r] == level
  {
    match level
    case Debug => 0
    case Info => 1
    case Warn => 2
    case Error => 3
    case None => 4
  }

  /** `isAtLeast`: `value` comes no earlier than `min` in the order. */
  predicate IsAtLeast(value: LogLevel, min: LogLevel) {
    Rank(value) >= Rank(min)
  }

  /** The order of levels is a total order. */
  lemma IsAtLeastTotalOrder(a: LogLevel, b: LogLevel, c: LogLevel)
    ensures IsAtLeast(a, a)
    ensures IsAtLeast(a, b) && IsAtLeast(b, a) ==> a == b
    ensures IsAtLeast(a, b) && IsAtLeast(b, c) ==> IsAtLeast(a, c)
    ensures IsAtLeast(a, b) || IsAtLeast(b, a)
  {
    RankInjective(a, b);
  }

  /** No two levels share a position. */
  lemma RankInjective(a: LogLevel, b: LogLevel)
    ensures Rank(a) == Rank(b) ==> a == b
  {
    assert LogLevelOrder[Rank(a)] == a && LogLevelOrder[Rank(b)] == b;
  }

  /** A method of a logger: one that writes, styled with the logger's name, or `noopLog`. */
  datatype LogMethod = Noop | Writes(level: LogLevel, name: string)

  datatype Logger = Logger(debug: LogMethod, info: LogMethod, warn: LogMethod, error: LogMethod, none: LogMethod)

  /** The method a logger has for a level. */
  function MethodFor(logger: Logger, level: LogLevel): LogMethod {
    match level
    case Debug => logger.debug
    case Info => logger.info
    case Warn => logger.warn
    case Error => logger.error
    case None => logger.none
  }

  /** `options?.level ?? LogLevel.INFO`. */
  function MinLevel(level: Wrappers.Option<LogLevel>): (min: LogLevel)
    ensures level.None? ==> min == Info
    ensures level.Some? ==> min == level.value
  {
    if level.Some? then level.value else Info
  }

  /** The method for a level that can write: it writes when the level is at least the minimum. */
  function Gated(level: LogLevel, min: LogLevel, name: string): LogMethod {
    if IsAtLeast(level, min) then Writes(level, name) else Noop
  }

  /**
   * `getLogger`: debug, info, warn and error write, with the logger's name,
   * exactly when their level is at least the minimum (info by default);
   * `none` never writes.
   */
  function GetLogger(name: string, level: Wrappers.Option<LogLevel>): (logger: Logger)
    ensures forall l: LogLevel :: l != None ==>
              (MethodFor(logger, l) == Writes(l, name) <==> IsAtLeast(l, MinLevel(level)))
    ensures forall l: LogLevel :: l != None ==>
              (MethodFor(logger, l) == Noop <==> !IsAtLeast(l, MinLevel(level)))
    ensures logger.none == Noop
  {
    var min := MinLevel(level);
    Logger(Gated(Debug, min, name), Gated(Info, min, name), Gated(Warn, min, name), Gated(Error, min, name), Noop)
  }

  /** By default debug output is off and info, warnings and errors are written. */
  lemma DefaultLogger(name: string)
    ensures var logger := GetLogger(name, Wrappers.None);
      && logger.debug == Noop
      && logger.info == Writes(Info, name)
      && logger.warn == Writes(Warn, name)
      && logger.error == Writes(Error, name)
  {
    var logger := GetLogger(name, Wrappers.None);
    assert MethodFor(logger, Debug) == logger.debug;
    assert MethodFor(logger, Info) == logger.info;
    assert MethodFor(logger, Warn) == logger.warn;
    assert MethodFor(logger, Error) == logger.error;
  }

  /** A minimum of `none` silences every method. */
  lemma SilentLogger(name: string)
    ensures forall l: LogLevel :: MethodFor(GetLogger(name, Wrappers.Some(None)), l) == Noop
  {
    var logger := GetLogger(name, Wrappers.Some(None));
    forall l: LogLevel ensures MethodFor(logger, l) == Noop {
      if l != None {
        assert !IsAtLeast(l, None);
      }
    }
  }

  /**
   * Enabling is monotone: a level written at some minimum is written at every
   * lower minimum, and above it every higher level is written too.
   */
  lemma GatingMonotone(name: string, min: LogLevel, lower: LogLevel, level: LogLevel, higher: LogLevel)
    requires IsAtLeast(min, lower) && IsAtLeast(higher, level) && higher != None
    requires MethodFor(GetLogger(name, Wrappers.Some(min)), level).Writes?
    ensures MethodFor(GetLogger(name, Wrappers.Some(lower)), level).Writes?
    ensures MethodFor(GetLogger(name, Wrappers.Some(min)), higher).Writes?
  {
    var logger := GetLogger(name, Wrappers.Some(min));
    assert level != None;
    assert IsAtLeast(level, min);
    IsAtLeastTotalOrder(level, min, lower);
    IsAtLeastTotalOrder(higher, level, min);
    assert IsAtLeast(level, lower);
    assert IsAtLeast(higher, min);
  }
}
