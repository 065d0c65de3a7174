/**
 * The record the event monitor hands to the logger, and the names under
 * which the logger reports each kind of event.
 *
 * Timestamps are whole seconds since the Unix epoch (what
 * FDateTime::ToUnixTimestamp gives); durations are whole seconds.
 */
module MetricsModel {
  import opened Optional
  import opened Text

  /** The kinds of event the plugin reports; `Unknown` is the plugin's UKNOWN. */
  datatype LogEventType = Unknown | Build | Cook | Package | Shader

  /**
   * A default-constructed FDateTime holds tick 0, 0001-01-01 00:00:00 UTC,
   * which lies this many seconds before the Unix epoch.
   */
  const DefaultDateTime: int := -62135596800

  /** Metadata about one event interval. */
  datatype EventMetaData = EventMetaData(
    eventType: LogEventType,
    startTime: int,
    finishTime: int,
    duration: int,
    success: bool)

  /** A value-initialised EventMetaData: zeroed kind, default dates, duration 0, not successful. */
  function NewEventMetaData(): (r: EventMetaData)
    ensures r.duration == 0 && !r.success
    ensures r.startTime == r.finishTime == DefaultDateTime
  {
    EventMetaData(Unknown, DefaultDateTime, DefaultDateTime, 0, false)
  }

  /** Lower-case letters and underscores only. */
  predicate NameWord(s: string) {
    forall i :: 0 <= i < |s| ==> 'a' <= s[i] <= 'z' || s[i] == '_'
  }

  /** The measurement name of each kind of event. */
  function LogEventTypeToString(t: LogEventType): (r: string)
    ensures |r| > 6 && r[|r| - 6..] == "_event"
  {
    match t
    case Build => "build_event"
    case Cook => "cook_event"
    case Package => "package_event"
    case Shader => "shader_event"
    case Unknown => "uknown_event"
  }

  /** A measurement name holds none of the line protocol's delimiters (space, comma) nor an escape character. */
  lemma LogEventTypeNamePlain(t: LogEventType)
    ensures Plain(LogEventTypeToString(t))
  {
    match t
    case Build => WordPlain("build_event");
    case Cook => WordPlain("cook_event");
    case Package => WordPlain("package_event");
    case Shader => WordPlain("shader_event");
    case Unknown => WordPlain("uknown_event");
  }

  lemma WordPlain(s: string)
    requires NameWord(s)
    ensures Plain(s)
  {
  }

  /** Reads a measurement name back into the kind of event it names. */
  function ParseLogEventType(s: string): Option<LogEventType> {
    if s == "build_event" then Some(Build)
    else if s == "cook_event" then Some(Cook)
    else if s == "package_event" then Some(Package)
    else if s == "shader_event" then Some(Shader)
    else if s == "uknown_event" then Some(Unknown)
    else None
  }

  /** Every kind of event is recovered from its measurement name, so no two kinds share one. */
  lemma LogEventTypeNameRoundTrip(t: LogEventType)
    ensures ParseLogEventType(LogEventTypeToString(t)) == Some(t)
  {
  }

  lemma LogEventTypeNameInjective(a: LogEventType, b: LogEventType)
    ensures LogEventTypeToString(a) == LogEventTypeToString(b) ==> a == b
  {
    LogEventTypeNameRoundTrip(a);
    LogEventTypeNameRoundTrip(b);
  }
}
