/**
 * The event monitor: routes named editor analytics events through a
 * name-to-handler table, pairs start and stop events of cooking and
 * packaging into completed intervals, detects the end of shader compilation
 * by polling on every editor tick, and reports each completed interval (and
 * each recompile) to the metrics logger.
 *
 * The pure part states each handler as a step on a `MonitorState`; the class
 * keeps the plugin's fields and is proved to take exactly those steps. The
 * clock (FDateTime::UtcNow) is the `now` argument of each handler, and the
 * logger is the ghost sequence `logged` of records passed to
 * IMetricsLogger::Log.
 */
module MetricsLoggerEventMonitor {
  import opened Optional
  import opened Text
  import opened MetricsModel

  /** One analytics event attribute. */
  datatype Attribute = Attribute(name: string, value: string)

  const RecompileEvent: string := "Editor.Modules.Recompile"
  const CookStartEvent: string := "Editor.Cook.Start"
  const CookStopEvent: string := "Editor.Cook.Completed"
  const CookFailedEvent: string := "Editor.Cook.Failed"
  const PackageStartEvent: string := "Editor.Package.Start"
  const PackageStopEvent: string := "Editor.Package.Completed"
  const PackageFailedEvent: string := "Editor.Package.Failed"

  const DurationAttribute: string := "Duration"
  const ResultAttribute: string := "Result"
  const SucceededResult: string := "Succeeded"

  /** The handlers the constructor registers, one per event name. */
  datatype Handler = Recompile | CookStart | CookStop | CookFailed | PackageStart | PackageStop | PackageFailed

  /**
   * A TMap keyed by FString. Its keys hash and compare without regard to
   * ASCII case, so the table is kept under the folded form of each name.
   */
  type HandlerTable = map<string, Handler>

  /** TMap::Add. */
  function AddHandler(table: HandlerTable, name: string, handler: Handler): HandlerTable {
    table[Fold(name) := handler]
  }

  /** TMap::Find. */
  function FindHandler(table: HandlerTable, name: string): Option<Handler> {
    if Fold(name) in table then Some(table[Fold(name)]) else None
  }

  /** The table the constructor fills. */
  function DefaultHandlers(): HandlerTable {
    map[
      Fold(RecompileEvent) := Recompile,
      Fold(CookStartEvent) := CookStart,
      Fold(CookStopEvent) := CookStop,
      Fold(CookFailedEvent) := CookFailed,
      Fold(PackageStartEvent) := PackageStart,
      Fold(PackageStopEvent) := PackageStop,
      Fold(PackageFailedEvent) := PackageFailed]
  }

  /** Each of the seven names reaches its own handler, whatever its case; every other name reaches none. */
  lemma DefaultHandlersRoute(name: string)
    ensures FindHandler(DefaultHandlers(), name) == Some(Recompile) <==> EqualsIgnoreCase(name, RecompileEvent)
    ensures FindHandler(DefaultHandlers(), name) == Some(CookStart) <==> EqualsIgnoreCase(name, CookStartEvent)
    ensures FindHandler(DefaultHandlers(), name) == Some(CookStop) <==> EqualsIgnoreCase(name, CookStopEvent)
    ensures FindHandler(DefaultHandlers(), name) == Some(CookFailed) <==> EqualsIgnoreCase(name, CookFailedEvent)
    ensures FindHandler(DefaultHandlers(), name) == Some(PackageStart) <==> EqualsIgnoreCase(name, PackageStartEvent)
    ensures FindHandler(DefaultHandlers(), name) == Some(PackageStop) <==> EqualsIgnoreCase(name, PackageStopEvent)
    ensures FindHandler(DefaultHandlers(), name) == Some(PackageFailed) <==> EqualsIgnoreCase(name, PackageFailedEvent)
  {
    // The folded names are pairwise distinct: by length, or at index 7.
    assert Fold(RecompileEvent)[7] == 'm' && Fold(PackageStopEvent)[7] == 'p';
    assert Fold(CookStopEvent)[7] == 'c' && Fold(PackageFailedEvent)[7] == 'p';
  }

  // ---------------------------------------------------------------------------
  // The state machine, as values
  // ---------------------------------------------------------------------------

  /** The state kept for one kind of interval: the pending record and whether an interval is open. */
  datatype Slot = Slot(pending: EventMetaData, inProgress: bool)

  /** One slot per tracked kind: cooking, packaging, shader compilation. */
  datatype MonitorState = MonitorState(cook: Slot, package: Slot, shader: Slot)

  /** What one call does: the next state and the records it passes to the logger, in order. */
  datatype Step = Step(next: MonitorState, logged: seq<EventMetaData>)

  datatype SlotStep = SlotStep(slot: Slot, logged: seq<EventMetaData>)

  /** The state the constructor leaves, with the shader flag initialised to false like the other two. */
  function InitialState(): MonitorState {
    var idle := Slot(NewEventMetaData(), false);
    MonitorState(idle, idle, idle)
  }

  /**
   * The state the constructor leaves as written: `shaderCompileInProgress`
   * has no initialiser, so it holds whatever its storage held, and the kind
   * of the default-initialised shader record is likewise left over.
   */
  function InitialStateAsWritten(shaderFlag: bool, leftover: LogEventType): MonitorState {
    var idle := Slot(NewEventMetaData(), false);
    MonitorState(idle, idle, Slot(NewEventMetaData().(eventType := leftover), shaderFlag))
  }

  /** A fresh pending record of the given kind started at `now`. */
  function Started(kind: LogEventType, now: int): EventMetaData {
    NewEventMetaData().(startTime := now, eventType := kind)
  }

  /** Closes the open interval of a slot at `now` and logs its record. */
  function Complete(slot: Slot, now: int, success: bool): SlotStep {
    var record := slot.pending.(finishTime := now, duration := now - slot.pending.startTime, success := success);
    SlotStep(Slot(record, false), [record])
  }

  /** OnCookStart / OnPackageStart: opens an interval unless one is already open. */
  function GuardedStart(slot: Slot, kind: LogEventType, now: int): (r: Slot)
    ensures slot.inProgress ==> r == slot
    ensures !slot.inProgress ==>
      && r.inProgress && r.pending.eventType == kind && r.pending.startTime == now
      && r.pending.duration == 0 && !r.pending.success
  {
    if slot.inProgress then slot else Slot(Started(kind, now), true)
  }

  /** LogCookEvent / LogPackageEvent: closes the open interval, if there is one, and logs exactly one record. */
  function GuardedFinish(slot: Slot, now: int, success: bool): (r: SlotStep)
    ensures !slot.inProgress ==> r == SlotStep(slot, [])
    ensures slot.inProgress ==>
      && !r.slot.inProgress
      && |r.logged| == 1
      && r.logged[0] == r.slot.pending
      && r.logged[0].eventType == slot.pending.eventType
      && r.logged[0].startTime == slot.pending.startTime
      && r.logged[0].finishTime == now
      && r.logged[0].duration == r.logged[0].finishTime - r.logged[0].startTime
      && r.logged[0].success == success
  {
    if slot.inProgress then Complete(slot, now, success) else SlotStep(slot, [])
  }

  // Recompile

  /** The value of the last attribute whose name equals `name` (up to case), if any. */
  function LastValue(attrs: seq<Attribute>, name: string): (r: Option<string>)
    ensures r.None? <==> forall i :: 0 <= i < |attrs| ==> !EqualsIgnoreCase(attrs[i].name, name)
    ensures r.Some? ==> exists i :: (0 <= i < |attrs| && EqualsIgnoreCase(attrs[i].name, name) && attrs[i].value == r.value
      && forall j :: i < j < |attrs| ==> !EqualsIgnoreCase(attrs[j].name, name))
    decreases |attrs|
  {
    if attrs == [] then None
    else if EqualsIgnoreCase(attrs[|attrs| - 1].name, name) then Some(attrs[|attrs| - 1].value)
    else
      var r := LastValue(attrs[..|attrs| - 1], name);
      assert forall i :: 0 <= i < |attrs| - 1 ==> attrs[..|attrs| - 1][i] == attrs[i];
      r
  }

  /** The duration text OnRecompile ends up with: the last Duration attribute's value, or empty. */
  function DurationText(attrs: seq<Attribute>): string {
    match LastValue(attrs, DurationAttribute)
    case Some(v) => v
    case None => ""
  }

  /** The success flag OnRecompile ends up with: the last Result attribute says Succeeded. */
  function ResultSucceeded(attrs: seq<Attribute>): bool {
    match LastValue(attrs, ResultAttribute)
    case Some(v) => EqualsIgnoreCase(v, SucceededResult)
    case None => false
  }

  /** Extending the attributes by one: the new last attribute wins if its name matches. */
  lemma LastValueExtend(attrs: seq<Attribute>, i: nat, name: string)
    requires i < |attrs|
    ensures LastValue(attrs[..i + 1], name)
      == if EqualsIgnoreCase(attrs[i].name, name) then Some(attrs[i].value) else LastValue(attrs[..i], name)
  {
    assert attrs[..i + 1][..i] == attrs[..i];
  }

  /** One attribute updates at most one of OnRecompile's two variables, as its if/else-if does. */
  lemma RecompileScanStep(attrs: seq<Attribute>, i: nat)
    requires i < |attrs|
    ensures EqualsIgnoreCase(attrs[i].name, DurationAttribute) ==>
      && DurationText(attrs[..i + 1]) == attrs[i].value
      && ResultSucceeded(attrs[..i + 1]) == ResultSucceeded(attrs[..i])
    ensures !EqualsIgnoreCase(attrs[i].name, DurationAttribute) && EqualsIgnoreCase(attrs[i].name, ResultAttribute) ==>
      && DurationText(attrs[..i + 1]) == DurationText(attrs[..i])
      && ResultSucceeded(attrs[..i + 1]) == EqualsIgnoreCase(attrs[i].value, SucceededResult)
    ensures !EqualsIgnoreCase(attrs[i].name, DurationAttribute) && !EqualsIgnoreCase(attrs[i].name, ResultAttribute) ==>
      && DurationText(attrs[..i + 1]) == DurationText(attrs[..i])
      && ResultSucceeded(attrs[..i + 1]) == ResultSucceeded(attrs[..i])
  {
    LastValueExtend(attrs, i, DurationAttribute);
    LastValueExtend(attrs, i, ResultAttribute);
    if EqualsIgnoreCase(attrs[i].name, DurationAttribute) {
      assert |Fold(attrs[i].name)| == 8;
      assert !EqualsIgnoreCase(attrs[i].name, ResultAttribute);
    }
  }

  /** A recompile counts as successful exactly when the last Result attribute says Succeeded, in any case. */
  lemma ResultSucceededMeans(attrs: seq<Attribute>)
    ensures ResultSucceeded(attrs) <==> exists i :: (0 <= i < |attrs| && EqualsIgnoreCase(attrs[i].name, ResultAttribute)
      && EqualsIgnoreCase(attrs[i].value, SucceededResult)
      && forall j :: i < j < |attrs| ==> !EqualsIgnoreCase(attrs[j].name, ResultAttribute))
  {
  }

  /** The BUILD record a recompile event yields: only when a non-empty duration was reported. */
  function RecompileRecord(attrs: seq<Attribute>, now: int, parseInt: string -> int): (r: Option<EventMetaData>)
    ensures r.Some? <==> LastValue(attrs, DurationAttribute).Some? && LastValue(attrs, DurationAttribute).value != ""
    ensures r.Some? ==>
      && r.value.eventType == Build
      && r.value.finishTime == now
      && r.value.duration == parseInt(LastValue(attrs, DurationAttribute).value)
      && r.value.finishTime - r.value.startTime == r.value.duration
      && (r.value.startTime <= r.value.finishTime <==> r.value.duration >= 0)
      && r.value.success == ResultSucceeded(attrs)
  {
    var duration := DurationText(attrs);
    if duration == "" then None
    else
      var finish := now;
      var seconds := parseInt(duration);
      Some(EventMetaData(Build, finish - seconds, finish, seconds, ResultSucceeded(attrs)))
  }

  /** RecompileRecord in terms of the two values OnRecompile's scan computes. */
  lemma RecompileRecordFrom(attrs: seq<Attribute>, now: int, parseInt: string -> int)
    ensures DurationText(attrs) == "" ==> RecompileRecord(attrs, now, parseInt) == None
    ensures DurationText(attrs) != "" ==>
      RecompileRecord(attrs, now, parseInt) == Some(EventMetaData(Build, now - parseInt(DurationText(attrs)), now, parseInt(DurationText(attrs)), ResultSucceeded(attrs)))
  {
  }

  // Handlers

  /** What each handler does to the state and the log. */
  function HandlerStep(h: Handler, s: MonitorState, attrs: seq<Attribute>, now: int, parseInt: string -> int): (r: Step)
    ensures r.next.shader == s.shader
    ensures h == Recompile ==> r.next == s
    ensures h in {CookStart, CookStop, CookFailed} ==> r.next.package == s.package
    ensures h in {PackageStart, PackageStop, PackageFailed} ==> r.next.cook == s.cook
    ensures h in {CookStart, PackageStart} ==> r.logged == []
  {
    match h
    case Recompile => Step(s, ToSeq(RecompileRecord(attrs, now, parseInt)))
    case CookStart => Step(s.(cook := GuardedStart(s.cook, Cook, now)), [])
    case CookStop => var f := GuardedFinish(s.cook, now, true); Step(s.(cook := f.slot), f.logged)
    case CookFailed => var f := GuardedFinish(s.cook, now, false); Step(s.(cook := f.slot), f.logged)
    case PackageStart => Step(s.(package := GuardedStart(s.package, Package, now)), [])
    case PackageStop => var f := GuardedFinish(s.package, now, true); Step(s.(package := f.slot), f.logged)
    case PackageFailed => var f := GuardedFinish(s.package, now, false); Step(s.(package := f.slot), f.logged)
  }

  /** ProcessEvent: a name the table does not hold changes nothing and logs nothing. */
  function ProcessEventStep(table: HandlerTable, s: MonitorState, name: string, attrs: seq<Attribute>, now: int,
                            parseInt: string -> int): (r: Step)
    ensures FindHandler(table, name).None? ==> r == Step(s, [])
    ensures r.next.shader == s.shader
  {
    match FindHandler(table, name)
    case None => Step(s, [])
    case Some(h) => HandlerStep(h, s, attrs, now, parseInt)
  }

  /** OnShaderStart: always opens a new interval, discarding any open one. */
  function ShaderStartStep(s: MonitorState, now: int): (r: Step)
    ensures r.logged == [] && r.next.cook == s.cook && r.next.package == s.package
    ensures r.next.shader.inProgress && r.next.shader.pending.eventType == Shader && r.next.shader.pending.startTime == now
  {
    Step(s.(shader := Slot(Started(Shader, now), true)), [])
  }

  /** Tick: on the falling edge of the compiler's activity, closes the shader interval as a success. */
  function TickStep(s: MonitorState, now: int, isCompiling: bool): (r: Step)
    ensures r.next.cook == s.cook && r.next.package == s.package
    ensures |r.logged| == (if s.shader.inProgress && !isCompiling then 1 else 0)
    ensures |r.logged| == 0 ==> r.next == s
    ensures |r.logged| == 1 ==>
      && !r.next.shader.inProgress
      && r.next.shader.pending == r.logged[0]
      && r.logged[0].eventType == s.shader.pending.eventType
      && r.logged[0].startTime == s.shader.pending.startTime
      && r.logged[0].finishTime == now
      && r.logged[0].duration == r.logged[0].finishTime - r.logged[0].startTime
      && r.logged[0].success
  {
    if s.shader.inProgress && !isCompiling then
      var f := Complete(s.shader, now, true);
      Step(s.(shader := f.slot), f.logged)
    else Step(s, [])
  }

  /** Once a tick has closed the shader interval, further ticks log nothing until the next start. */
  lemma TickFiresOncePerStart(s: MonitorState, t1: int, c1: bool, t2: int, c2: bool)
    requires |TickStep(s, t1, c1).logged| == 1
    ensures TickStep(TickStep(s, t1, c1).next, t2, c2) == Step(TickStep(s, t1, c1).next, [])
  {
  }

  /** A second start before the stop is swallowed: the interval logged is measured from the first start. */
  lemma DuplicateStartKeepsFirst(s: MonitorState, t0: int, t1: int, t2: int, success: bool, parseInt: string -> int)
    requires !s.cook.inProgress
    ensures
      var s1 := HandlerStep(CookStart, s, [], t0, parseInt).next;
      var s2 := HandlerStep(CookStart, s1, [], t1, parseInt).next;
      && s2 == s1
      && HandlerStep(if success then CookStop else CookFailed, s2, [], t2, parseInt).logged
         == [EventMetaData(Cook, t0, t2, t2 - t0, success)]
  {
  }

  // ---------------------------------------------------------------------------
  // The monitor object
  // ---------------------------------------------------------------------------

  class EventMonitor {
    /** FCString::Atoi, the string-to-integer conversion the host supplies. */
    const parseInt: string -> int
    const eventHandlers: HandlerTable

    var currentCookEvent: EventMetaData
    var cookInProgress: bool
    var currentPackageEvent: EventMetaData
    var packageInProgress: bool
    var shaderCompileInProgress: bool
    var currentShaderEvent: EventMetaData

    /** The records passed to the logger so far, oldest first. */
    ghost var logged: seq<EventMetaData>

    function State(): MonitorState
      reads this
    {
      MonitorState(
        Slot(currentCookEvent, cookInProgress),
        Slot(currentPackageEvent, packageInProgress),
        Slot(currentShaderEvent, shaderCompileInProgress))
    }

    constructor(parseInt: string -> int)
      ensures this.parseInt == parseInt
      ensures eventHandlers == DefaultHandlers()
      ensures State() == InitialState() && logged == []
    {
      this.parseInt := parseInt;
      var handlers: HandlerTable := map[];
      handlers := AddHandler(handlers, RecompileEvent, Recompile);
      handlers := AddHandler(handlers, CookStartEvent, CookStart);
      handlers := AddHandler(handlers, CookStopEvent, CookStop);
      handlers := AddHandler(handlers, CookFailedEvent, CookFailed);
      handlers := AddHandler(handlers, PackageStartEvent, PackageStart);
      handlers := AddHandler(handlers, PackageStopEvent, PackageStop);
      handlers := AddHandler(handlers, PackageFailedEvent, PackageFailed);
      eventHandlers := handlers;
      currentCookEvent := NewEventMetaData();
      cookInProgress := false;
      currentPackageEvent := NewEventMetaData();
      packageInProgress := false;
      shaderCompileInProgress := false;
      currentShaderEvent := NewEventMetaData();
      logged := [];
    }

    method ProcessEvent(eventName: string, attrs: seq<Attribute>, bJson: bool, now: int)
      modifies this`currentCookEvent, this`cookInProgress, this`currentPackageEvent, this`packageInProgress, this`logged
      ensures var step := ProcessEventStep(eventHandlers, old(State()), eventName, attrs, now, parseInt);
        State() == step.next && logged == old(logged) + step.logged
    {
      var handler := FindHandler(eventHandlers, eventName);
      if handler.Some? {
        match handler.value
        case Recompile => OnRecompile(eventName, attrs, bJson, now);
        case CookStart => OnCookStart(eventName, attrs, bJson, now);
        case CookStop => OnCookStop(eventName, attrs, bJson, now);
        case CookFailed => OnCookFailed(eventName, attrs, bJson, now);
        case PackageStart => OnPackageStart(eventName, attrs, bJson, now);
        case PackageStop => OnPackageStop(eventName, attrs, bJson, now);
        case PackageFailed => OnPackageFailed(eventName, attrs, bJson, now);
      }
    }

    /** Polled every editor tick; `isCompiling` is the shader compiling manager's answer. */
    method Tick(now: int, isCompiling: bool)
      modifies this`shaderCompileInProgress, this`currentShaderEvent, this`logged
      ensures var step := TickStep(old(State()), now, isCompiling);
        State() == step.next && logged == old(logged) + step.logged
    {
      if shaderCompileInProgress && !isCompiling {
        LogShaderEvent(now);
      }
    }

    method OnRecompile(eventName: string, attrs: seq<Attribute>, bJson: bool, now: int)
      modifies this`logged
      ensures logged == old(logged) + ToSeq(RecompileRecord(attrs, now, parseInt))
    {
      var duration := "";
      var success := false;
      for i := 0 to |attrs|
        invariant duration == DurationText(attrs[..i])
        invariant success == ResultSucceeded(attrs[..i])
        invariant logged == old(logged)
      {
        RecompileScanStep(attrs, i);
        if EqualsIgnoreCase(attrs[i].name, DurationAttribute) {
          duration := attrs[i].value;
        } else if EqualsIgnoreCase(attrs[i].name, ResultAttribute) {
          success := EqualsIgnoreCase(attrs[i].value, SucceededResult);
        }
      }
      assert attrs[..|attrs|] == attrs;
      RecompileRecordFrom(attrs, now, parseInt);
      if duration != "" {
        var finishTime := now;
        var seconds := parseInt(duration);
        var eventData := EventMetaData(Build, finishTime - seconds, finishTime, seconds, success);
        logged := logged + [eventData];
      }
    }

    method OnCookStart(eventName: string, attrs: seq<Attribute>, bJson: bool, now: int)
      modifies this`currentCookEvent, this`cookInProgress
      ensures State() == HandlerStep(CookStart, old(State()), attrs, now, parseInt).next
    {
      if !cookInProgress {
        currentCookEvent := NewEventMetaData();
        currentCookEvent := currentCookEvent.(startTime := now);
        currentCookEvent := currentCookEvent.(eventType := Cook);
        cookInProgress := true;
      }
    }

    method OnCookStop(eventName: string, attrs: seq<Attribute>, bJson: bool, now: int)
      modifies this`currentCookEvent, this`cookInProgress, this`logged
      ensures var step := HandlerStep(CookStop, old(State()), attrs, now, parseInt);
        State() == step.next && logged == old(logged) + step.logged
    {
      LogCookEvent(attrs, true, now);
    }

    method OnCookFailed(eventName: string, attrs: seq<Attribute>, bJson: bool, now: int)
      modifies this`currentCookEvent, this`cookInProgress, this`logged
      ensures var step := HandlerStep(CookFailed, old(State()), attrs, now, parseInt);
        State() == step.next && logged == old(logged) + step.logged
    {
      LogCookEvent(attrs, false, now);
    }

    method LogCookEvent(attrs: seq<Attribute>, success: bool, now: int)
      modifies this`currentCookEvent, this`cookInProgress, this`logged
      ensures var f := GuardedFinish(old(State()).cook, now, success);
        Slot(currentCookEvent, cookInProgress) == f.slot && logged == old(logged) + f.logged
    {
      if cookInProgress {
        currentCookEvent := currentCookEvent.(finishTime := now);
        currentCookEvent := currentCookEvent.(duration := currentCookEvent.finishTime - currentCookEvent.startTime);
        currentCookEvent := currentCookEvent.(success := success);
        logged := logged + [currentCookEvent];
        cookInProgress := false;
      }
    }

    method OnPackageStart(eventName: string, attrs: seq<Attribute>, bJson: bool, now: int)
      modifies this`currentPackageEvent, this`packageInProgress
      ensures State() == HandlerStep(PackageStart, old(State()), attrs, now, parseInt).next
    {
      if !packageInProgress {
        packageInProgress := true;
        currentPackageEvent := NewEventMetaData();
        currentPackageEvent := currentPackageEvent.(startTime := now);
        currentPackageEvent := currentPackageEvent.(eventType := Package);
      }
    }

    method OnPackageStop(eventName: string, attrs: seq<Attribute>, bJson: bool, now: int)
      modifies this`currentPackageEvent, this`packageInProgress, this`logged
      ensures var step := HandlerStep(PackageStop, old(State()), attrs, now, parseInt);
        State() == step.next && logged == old(logged) + step.logged
    {
      LogPackageEvent(attrs, true, now);
    }

    method OnPackageFailed(eventName: string, attrs: seq<Attribute>, bJson: bool, now: int)
      modifies this`currentPackageEvent, this`packageInProgress, this`logged
      ensures var step := HandlerStep(PackageFailed, old(State()), attrs, now, parseInt);
        State() == step.next && logged == old(logged) + step.logged
    {
      LogPackageEvent(attrs, false, now);
    }

    method LogPackageEvent(attrs: seq<Attribute>, success: bool, now: int)
      modifies this`currentPackageEvent, this`packageInProgress, this`logged
      ensures var f := GuardedFinish(old(State()).package, now, success);
        Slot(currentPackageEvent, packageInProgress) == f.slot && logged == old(logged) + f.logged
    {
      if packageInProgress {
        packageInProgress := false;
        currentPackageEvent := currentPackageEvent.(finishTime := now);
        currentPackageEvent := currentPackageEvent.(duration := currentPackageEvent.finishTime - currentPackageEvent.startTime);
        currentPackageEvent := currentPackageEvent.(success := success);
        logged := logged + [currentPackageEvent];
      }
    }

    /** Called when a batch of global shaders starts compiling. */
    method OnShaderStart(now: int)
      modifies this`currentShaderEvent, this`shaderCompileInProgress
      ensures State() == ShaderStartStep(old(State()), now).next
    {
      currentShaderEvent := NewEventMetaData();
      currentShaderEvent := currentShaderEvent.(startTime := now);
      currentShaderEvent := currentShaderEvent.(eventType := Shader);
      shaderCompileInProgress := true;
    }

    method LogShaderEvent(now: int)
      modifies this`currentShaderEvent, this`shaderCompileInProgress, this`logged
      ensures var f := Complete(old(State()).shader, now, true);
        Slot(currentShaderEvent, shaderCompileInProgress) == f.slot && logged == old(logged) + f.logged
    {
      shaderCompileInProgress := false;
      currentShaderEvent := currentShaderEvent.(finishTime := now);
      currentShaderEvent := currentShaderEvent.(duration := currentShaderEvent.finishTime - currentShaderEvent.startTime);
      currentShaderEvent := currentShaderEvent.(success := true);
      logged := logged + [currentShaderEvent];
    }
  }
}
