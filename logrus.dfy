/**
 * The parts of the logging library that the hook consumes. They are not
 * reimplemented: a level is the library's uint32 severity with its canonical
 * name, an entry carries what the hook reads, and a formatter is an opaque
 * reference.
 */
module Logrus {
  import opened Strconv

  /** logrus.Level is a uint32. */
  type Level = x: int | 0 <= x < 0x1_0000_0000

  const PanicLevel: Level := 0
  const FatalLevel: Level := 1
  const ErrorLevel: Level := 2
  const WarnLevel: Level := 3
  const InfoLevel: Level := 4
  const DebugLevel: Level := 5
  const TraceLevel: Level := 6

  /** Level.String(): the canonical name, and "unknown" outside the seven defined levels. */
  function LevelName(level: Level): string {
    match level
    case 0 => "panic"
    case 1 => "fatal"
    case 2 => "error"
    case 3 => "warning"
    case 4 => "info"
    case 5 => "debug"
    case 6 => "trace"
    case _ => "unknown"
  }

  /**
   * One log event: its time as Unix nanoseconds (what Time.UnixNano returns),
   * its level, its message and its fields, each field value already rendered
   * as text.
   */
  datatype Entry = Entry(time: Int64, level: Level, message: string, data: map<string, string>)

  /** logrus.Formatter, an interface the hook never calls into here. */
  class Formatter {
    constructor () { }
  }
}
