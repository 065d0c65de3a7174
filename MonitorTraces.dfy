/**
 * Whole runs of the event monitor: what it logs in response to a sequence of
 * editor stimuli (analytics events, shader compilation starts, editor
 * ticks), each carrying the clock reading at which it arrives.
 *
 * Proved over every run: each record it logs is well formed (the duration
 * is finish minus start, and an interval the monitor timed itself never
 * ends before it starts), and it never logs more intervals of one kind than
 * it saw starts of that kind.
 */
module MonitorTraces {
  import opened Optional
  import opened Text
  import opened MetricsModel
  import opened MetricsLoggerEventMonitor

  /** What reaches the monitor: an analytics event, the shader compiler's start notification, or an editor tick. */
  datatype Stimulus =
    | AnalyticsEvent(name: string, attrs: seq<Attribute>, json: bool, time: int)
    | ShaderCompilation(time: int)
    | EditorTick(time: int, isCompiling: bool)

  /** The monitor's response to one stimulus, with the table the constructor registers. */
  function Apply(s: MonitorState, x: Stimulus, parseInt: string -> int): Step {
    match x
    case AnalyticsEvent(name, attrs, _, time) => ProcessEventStep(DefaultHandlers(), s, name, attrs, time, parseInt)
    case ShaderCompilation(time) => ShaderStartStep(s, time)
    case EditorTick(time, isCompiling) => TickStep(s, time, isCompiling)
  }

  /** The monitor's response to a sequence of stimuli: the final state and everything logged, in order. */
  function Run(s: MonitorState, xs: seq<Stimulus>, parseInt: string -> int): Step
    decreases |xs|
  {
    if xs == [] then Step(s, [])
    else
      var first := Apply(s, xs[0], parseInt);
      var rest := Run(first.next, xs[1..], parseInt);
      Step(rest.next, first.logged + rest.logged)
  }

  // ---------------------------------------------------------------------------
  // Well-formed records under a clock that does not run backwards
  // ---------------------------------------------------------------------------

  function TimeOf(x: Stimulus): int {
    match x
    case AnalyticsEvent(_, _, _, time) => time
    case ShaderCompilation(time) => time
    case EditorTick(time, _) => time
  }

  /** The stimuli arrive at times no earlier than `t`, in non-decreasing order. */
  predicate ClockFrom(xs: seq<Stimulus>, t: int)
    decreases |xs|
  {
    xs == [] || (t <= TimeOf(xs[0]) && ClockFrom(xs[1..], TimeOf(xs[0])))
  }

  /** Each open interval is of its slot's kind. */
  predicate KindsConsistent(s: MonitorState) {
    && (s.cook.inProgress ==> s.cook.pending.eventType == Cook)
    && (s.package.inProgress ==> s.package.pending.eventType == Package)
    && (s.shader.inProgress ==> s.shader.pending.eventType == Shader)
  }

  /** Each open interval is of its slot's kind and started no later than `t`. */
  predicate Consistent(s: MonitorState, t: int) {
    && KindsConsistent(s)
    && (s.cook.inProgress ==> s.cook.pending.startTime <= t)
    && (s.package.inProgress ==> s.package.pending.startTime <= t)
    && (s.shader.inProgress ==> s.shader.pending.startTime <= t)
  }

  /** A record as the logger should receive it: a known kind, and a duration that is finish minus start. */
  predicate WellFormedRecord(r: EventMetaData) {
    && r.eventType != Unknown
    && r.duration == r.finishTime - r.startTime
    && (r.eventType != Build ==> r.startTime <= r.finishTime)
  }

  predicate AllWellFormed(rs: seq<EventMetaData>) {
    forall i :: 0 <= i < |rs| ==> WellFormedRecord(rs[i])
  }

  /** One stimulus at time `t'` >= `t` keeps the state consistent and logs only well-formed records. */
  lemma ApplyWellFormed(s: MonitorState, t: int, x: Stimulus, parseInt: string -> int)
    requires Consistent(s, t) && t <= TimeOf(x)
    ensures Consistent(Apply(s, x, parseInt).next, TimeOf(x))
    ensures AllWellFormed(Apply(s, x, parseInt).logged)
  {
    match x
    case AnalyticsEvent(name, attrs, _, time) =>
      var h := FindHandler(DefaultHandlers(), name);
      if h == Some(Recompile) {
        var r := RecompileRecord(attrs, time, parseInt);
        assert r.Some? ==> WellFormedRecord(r.value);
      }
    case ShaderCompilation(time) =>
    case EditorTick(time, isCompiling) =>
  }

  /** Over any run whose clock does not run backwards, every record logged is well formed. */
  lemma {:induction false} RunLogsWellFormedRecords(s: MonitorState, t: int, xs: seq<Stimulus>, parseInt: string -> int)
    requires Consistent(s, t) && ClockFrom(xs, t)
    ensures AllWellFormed(Run(s, xs, parseInt).logged)
    decreases |xs|
  {
    if xs != [] {
      var first := Apply(s, xs[0], parseInt);
      ApplyWellFormed(s, t, xs[0], parseInt);
      RunLogsWellFormedRecords(first.next, TimeOf(xs[0]), xs[1..], parseInt);
      var rest := Run(first.next, xs[1..], parseInt);
      assert Run(s, xs, parseInt).logged == first.logged + rest.logged;
      forall i | 0 <= i < |first.logged + rest.logged|
        ensures WellFormedRecord((first.logged + rest.logged)[i])
      {
        if i >= |first.logged| {
          assert (first.logged + rest.logged)[i] == rest.logged[i - |first.logged|];
        }
      }
    }
  }

  /** In particular, from the state the constructor leaves, for any run whose clock starts at `t`. */
  lemma InitialRunLogsWellFormedRecords(t: int, xs: seq<Stimulus>, parseInt: string -> int)
    requires ClockFrom(xs, t)
    ensures AllWellFormed(Run(InitialState(), xs, parseInt).logged)
  {
    RunLogsWellFormedRecords(InitialState(), t, xs, parseInt);
  }

  // ---------------------------------------------------------------------------
  // At most one record per start
  // ---------------------------------------------------------------------------

  /** The kinds the monitor times itself. */
  predicate Timed(kind: LogEventType) {
    kind == Cook || kind == Package || kind == Shader
  }

  /** The number of records of one kind. */
  function CountKind(rs: seq<EventMetaData>, kind: LogEventType): nat
    decreases |rs|
  {
    if rs == [] then 0 else (if rs[0].eventType == kind then 1 else 0) + CountKind(rs[1..], kind)
  }

  lemma {:induction false} CountKindConcat(a: seq<EventMetaData>, b: seq<EventMetaData>, kind: LogEventType)
    ensures CountKind(a + b, kind) == CountKind(a, kind) + CountKind(b, kind)
    decreases |a|
  {
    if a != [] {
      assert (a + b)[0] == a[0] && (a + b)[1..] == a[1..] + b;
      CountKindConcat(a[1..], b, kind);
    } else {
      assert a + b == b;
    }
  }

  /** Whether the interval of a timed kind is open: 1 or 0. */
  function Open(s: MonitorState, kind: LogEventType): nat {
    if (kind == Cook && s.cook.inProgress) || (kind == Package && s.package.inProgress)
       || (kind == Shader && s.shader.inProgress) then 1 else 0
  }

  /** Whether a stimulus is a start of the given kind. */
  predicate IsStartOf(x: Stimulus, kind: LogEventType) {
    match x
    case AnalyticsEvent(name, _, _, _) =>
      (kind == Cook && FindHandler(DefaultHandlers(), name) == Some(CookStart))
      || (kind == Package && FindHandler(DefaultHandlers(), name) == Some(PackageStart))
    case ShaderCompilation(_) => kind == Shader
    case EditorTick(_, _) => false
  }

  function CountStarts(xs: seq<Stimulus>, kind: LogEventType): nat
    decreases |xs|
  {
    if xs == [] then 0 else (if IsStartOf(xs[0], kind) then 1 else 0) + CountStarts(xs[1..], kind)
  }

  /** One stimulus logs at most one record of a timed kind, and only by closing an open interval. */
  lemma ApplyCount(s: MonitorState, x: Stimulus, kind: LogEventType, parseInt: string -> int)
    requires KindsConsistent(s) && Timed(kind)
    ensures KindsConsistent(Apply(s, x, parseInt).next)
    ensures CountKind(Apply(s, x, parseInt).logged, kind) + Open(Apply(s, x, parseInt).next, kind)
      <= (if IsStartOf(x, kind) then 1 else 0) + Open(s, kind)
  {
    var step := Apply(s, x, parseInt);
    match x
    case AnalyticsEvent(name, attrs, _, time) =>
      var h := FindHandler(DefaultHandlers(), name);
      if h == Some(Recompile) {
        var r := RecompileRecord(attrs, time, parseInt);
        assert step.logged == ToSeq(r);
        if r.Some? {
          assert step.logged == [r.value] && CountKind([r.value][1..], kind) == 0;
        }
      } else if h.Some? && h.value in {CookStop, CookFailed, PackageStop, PackageFailed} {
        if |step.logged| == 1 {
          assert CountKind(step.logged[1..], kind) == 0;
        }
      }
    case ShaderCompilation(time) =>
    case EditorTick(time, isCompiling) =>
      if |step.logged| == 1 {
        assert CountKind(step.logged[1..], kind) == 0;
      }
  }

  /** Over any run, the records of a timed kind plus the one still open never exceed the starts seen plus the one open before. */
  lemma {:induction false} RunCount(s: MonitorState, xs: seq<Stimulus>, kind: LogEventType, parseInt: string -> int)
    requires KindsConsistent(s) && Timed(kind)
    ensures KindsConsistent(Run(s, xs, parseInt).next)
    ensures CountKind(Run(s, xs, parseInt).logged, kind) + Open(Run(s, xs, parseInt).next, kind)
      <= CountStarts(xs, kind) + Open(s, kind)
    decreases |xs|
  {
    if xs != [] {
      var first := Apply(s, xs[0], parseInt);
      ApplyCount(s, xs[0], kind, parseInt);
      RunCount(first.next, xs[1..], kind, parseInt);
      var rest := Run(first.next, xs[1..], parseInt);
      CountKindConcat(first.logged, rest.logged, kind);
    }
  }

  /** From the state the constructor leaves, every cook, package or shader record answers a start of its kind. */
  lemma RunLogsAtMostOnePerStart(xs: seq<Stimulus>, kind: LogEventType, parseInt: string -> int)
    requires Timed(kind)
    ensures CountKind(Run(InitialState(), xs, parseInt).logged, kind) <= CountStarts(xs, kind)
  {
    RunCount(InitialState(), xs, kind, parseInt);
  }

  /** In particular, no shader record is logged unless shader compilation was seen to start. */
  lemma NoShaderRecordWithoutStart(xs: seq<Stimulus>, parseInt: string -> int)
    requires CountStarts(xs, Shader) == 0
    ensures CountKind(Run(InitialState(), xs, parseInt).logged, Shader) == 0
  {
    RunLogsAtMostOnePerStart(xs, Shader, parseInt);
  }

  /**
   * As written, the shader flag is left uninitialised, and so is the kind of
   * the pending shader record. If the flag's storage reads true, the first
   * tick while the compiler is idle logs a record, of whatever kind that
   * storage holds, that no shader start preceded. It starts at the default
   * date, so it lasts over sixty-two billion seconds.
   */
  lemma SpuriousShaderRecordAsWritten(leftover: LogEventType, now: int, parseInt: string -> int)
    requires now >= 0
    ensures
      var xs := [EditorTick(now, false)];
      var run := Run(InitialStateAsWritten(true, leftover), xs, parseInt);
      && CountStarts(xs, Shader) == 0
      && |run.logged| == 1
      && run.logged[0].eventType == leftover
      && run.logged[0].startTime == DefaultDateTime
      && run.logged[0].duration >= 62135596800
      && (leftover == Shader ==> CountKind(run.logged, Shader) == 1)
  {
    var xs := [EditorTick(now, false)];
    var run := Run(InitialStateAsWritten(true, leftover), xs, parseInt);
    var first := TickStep(InitialStateAsWritten(true, leftover), now, false);
    assert xs[1..] == [];
    assert Run(first.next, xs[1..], parseInt).logged == [];
    assert run.logged == first.logged + [];
    assert CountKind(run.logged[1..], Shader) == 0;
  }

  // ---------------------------------------------------------------------------
  // Worked runs
  // ---------------------------------------------------------------------------

  /** A cook that starts at 100 and completes at 142 is logged once, as a 42-second success. */
  lemma CookRunExample(parseInt: string -> int)
    ensures Run(InitialState(), [AnalyticsEvent(CookStartEvent, [], false, 100), AnalyticsEvent(CookStopEvent, [], false, 142)], parseInt).logged
      == [EventMetaData(Cook, 100, 142, 42, true)]
  {
    DefaultHandlersRoute(CookStartEvent);
    DefaultHandlersRoute(CookStopEvent);
    var xs := [AnalyticsEvent(CookStartEvent, [], false, 100), AnalyticsEvent(CookStopEvent, [], false, 142)];
    var s1 := Apply(InitialState(), xs[0], parseInt);
    assert s1 == Step(InitialState().(cook := Slot(Started(Cook, 100), true)), []);
    var s2 := Apply(s1.next, xs[1], parseInt);
    assert s2.logged == [EventMetaData(Cook, 100, 142, 42, true)];
    assert xs[1..] == [xs[1]] && xs[1..][1..] == [];
    assert Run(s1.next, xs[1..], parseInt).logged == s2.logged;
  }

  /** A recompile at 500 reporting a 30-second successful build is logged with start 470. */
  lemma RecompileRunExample(parseInt: string -> int)
    requires parseInt("30") == 30
    ensures
      var attrs := [Attribute("Duration", "30"), Attribute("Result", "Succeeded")];
      Run(InitialState(), [AnalyticsEvent(RecompileEvent, attrs, false, 500)], parseInt).logged
        == [EventMetaData(Build, 470, 500, 30, true)]
  {
    DefaultHandlersRoute(RecompileEvent);
    var attrs := [Attribute("Duration", "30"), Attribute("Result", "Succeeded")];
    assert LastValue(attrs, DurationAttribute) == Some("30") by {
      assert !EqualsIgnoreCase(attrs[1].name, DurationAttribute) by {
        assert |Fold(attrs[1].name)| == 6;
      }
      assert attrs[..1] == [attrs[0]];
    }
    assert LastValue(attrs, ResultAttribute) == Some("Succeeded");
  }

  /** An event name that no handler is registered under leaves the monitor as it was. */
  lemma UnknownEventIgnored(s: MonitorState, name: string, attrs: seq<Attribute>, json: bool, time: int, parseInt: string -> int)
    requires FindHandler(DefaultHandlers(), name).None?
    ensures Apply(s, AnalyticsEvent(name, attrs, json, time), parseInt) == Step(s, [])
  {
  }
}
