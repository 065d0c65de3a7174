/**
 * The InfluxDB logger: encodes an event record as one point of the InfluxDB
 * line protocol (`measurement,tags fields timestamp`) and turns it into an
 * HTTP write request for the configured backend version.
 *
 * The HTTP module is modelled by the requests the logger issues: each issued
 * request is appended to the ghost sequence `sent`. Delivery and the
 * completion callback are not part of the model.
 */
module InfluxDBLogger {
  import opened Optional
  import opened Text
  import opened MetricsModel

  datatype InfluxDBVersion = V1 | V2

  /** The editor's logging settings, read-only to the logger. */
  datatype Settings = Settings(
    influxVersion: InfluxDBVersion,
    logUser: bool,
    enableLogging: bool,
    influxURL: string,
    influxUser: string,
    influxPassword: string,
    influxDatabase: string,
    influxToken: string,
    influxOrganisation: string,
    influxBucket: string)

  /** Host metadata gathered once when a logger is created; the values are opaque strings. */
  datatype HostMetadata = HostMetadata(
    extensionVersion: string,
    projectName: string,
    unrealVersion: string,
    cpuModel: string,
    coreCount: string,
    ramSize: string,
    gpuModel: string,
    userName: string,
    machineName: string)

  /** One HTTP request as the logger configures it. */
  datatype HttpRequest = HttpRequest(verb: string, url: string, headers: map<string, string>, content: string)

  const ContentType: string := "text/plain; charset=utf-8"

  // ---------------------------------------------------------------------------
  // Escaping of spaces
  // ---------------------------------------------------------------------------

  /** Every space is preceded by a backslash, so no space in it can end a section of a line. */
  predicate SpacesEscaped(s: string) {
    forall i :: 0 <= i < |s| && s[i] == ' ' ==> 0 < i && s[i - 1] == '\\'
  }

  lemma SpacesEscapedConcat(a: string, b: string)
    requires SpacesEscaped(a) && SpacesEscaped(b)
    ensures SpacesEscaped(a + b)
  {
    forall i | 0 <= i < |a + b| && (a + b)[i] == ' '
      ensures 0 < i && (a + b)[i - 1] == '\\'
    {
      if i >= |a| {
        assert b[i - |a|] == ' ';
      }
    }
  }

  lemma PlainConcat(a: string, b: string)
    requires Plain(a) && Plain(b)
    ensures Plain(a + b)
  {
    forall i | 0 <= i < |a + b|
      ensures (a + b)[i] != ' ' && (a + b)[i] != ',' && (a + b)[i] != '\\'
    {
      if i >= |a| {
        assert (a + b)[i] == b[i - |a|];
      }
    }
  }

  /** The escape of one character: a space becomes a backslash followed by a space. */
  function EscapeChar(c: char): string {
    if c == ' ' then ['\\', ' '] else [c]
  }

  /** FString::Replace(" ", "\\ "): every space becomes a backslash followed by a space. */
  function EscapeSpaces(s: string): (r: string)
    ensures SpacesEscaped(r)
    ensures |r| == 0 <==> |s| == 0
    ensures |s| > 0 ==> (r[|r| - 1] == '\\' <==> s[|s| - 1] == '\\')
    ensures (forall i :: 0 <= i < |s| ==> s[i] != ' ') ==> r == s
    decreases |s|
  {
    if s == [] then []
    else
      var head := EscapeChar(s[0]);
      var rest := EscapeSpaces(s[1..]);
      SpacesEscapedConcat(head, rest);
      head + rest
  }

  /** Turns each backslash-space pair back into a space; every other character is kept. */
  function UnescapeSpaces(s: string): string
    decreases |s|
  {
    if s == [] then []
    else if |s| >= 2 && s[0] == '\\' && s[1] == ' ' then " " + UnescapeSpaces(s[2..])
    else [s[0]] + UnescapeSpaces(s[1..])
  }

  /** Unescaping an escaped character in front of an escaped rest gives the character back. */
  lemma UnescapeEscapedChar(c: char, rest: string)
    requires SpacesEscaped(rest)
    ensures UnescapeSpaces(EscapeChar(c) + rest) == [c] + UnescapeSpaces(rest)
  {
    var e := EscapeChar(c) + rest;
    if c == ' ' {
      assert e[0] == '\\' && e[1] == ' ' && e[2..] == rest;
    } else {
      // An escaped rest never starts with a space, so a leading backslash is kept.
      assert |rest| > 0 ==> rest[0] != ' ';
      assert e[0] == c && e[1..] == rest;
    }
  }

  /** Escaping loses nothing: unescaping recovers the original value, backslashes included. */
  lemma {:induction false} EscapeSpacesRoundTrip(s: string)
    ensures UnescapeSpaces(EscapeSpaces(s)) == s
    decreases |s|
  {
    if s != [] {
      EscapeSpacesRoundTrip(s[1..]);
      UnescapeEscapedChar(s[0], EscapeSpaces(s[1..]));
      assert s == [s[0]] + s[1..];
    }
  }

  function RemoveBackslashes(s: string): (r: string)
    decreases |s|
  {
    if s == [] then [] else (if s[0] == '\\' then [] else [s[0]]) + RemoveBackslashes(s[1..])
  }

  lemma {:induction false} RemoveBackslashesConcat(a: string, b: string)
    ensures RemoveBackslashes(a + b) == RemoveBackslashes(a) + RemoveBackslashes(b)
    decreases |a|
  {
    if a == [] {
      assert a + b == b;
    } else {
      assert (a + b)[0] == a[0] && (a + b)[1..] == a[1..] + b;
      RemoveBackslashesConcat(a[1..], b);
    }
  }

  lemma RemoveBackslashesOfEscapedChar(c: char)
    requires c != '\\'
    ensures RemoveBackslashes(EscapeChar(c)) == [c]
  {
    var e := EscapeChar(c);
    if c == ' ' {
      assert e[1..] == [' '] && e[1..][1..] == [];
      assert RemoveBackslashes(e[1..]) == [' '] + RemoveBackslashes([]);
      assert RemoveBackslashes(e) == [] + RemoveBackslashes(e[1..]);
    } else {
      assert e[1..] == [];
      assert RemoveBackslashes(e) == [c] + RemoveBackslashes([]);
    }
  }

  /** For a value without backslashes, deleting every backslash of the escaped form recovers it. */
  lemma {:induction false} EscapeThenRemoveBackslashes(s: string)
    requires forall i :: 0 <= i < |s| ==> s[i] != '\\'
    ensures RemoveBackslashes(EscapeSpaces(s)) == s
    decreases |s|
  {
    if s != [] {
      EscapeThenRemoveBackslashes(s[1..]);
      RemoveBackslashesConcat(EscapeChar(s[0]), EscapeSpaces(s[1..]));
      RemoveBackslashesOfEscapedChar(s[0]);
      assert s == [s[0]] + s[1..];
    }
  }

  // ---------------------------------------------------------------------------
  // Line protocol
  // ---------------------------------------------------------------------------

  /** The tag set built once by the logger's constructor, every value space-escaped. */
  function BuildTagString(host: HostMetadata): string {
    "project_name=" + EscapeSpaces(host.projectName)
    + ",cpu_model=" + EscapeSpaces(host.cpuModel)
    + ",cpu_core_count=" + EscapeSpaces(host.coreCount)
    + ",gpu_model=" + EscapeSpaces(host.gpuModel)
    + ",ram_size=" + EscapeSpaces(host.ramSize)
    + ",machine_name=" + EscapeSpaces(host.machineName)
    + ",unreal_version=" + EscapeSpaces(host.unrealVersion)
    + ",extension_version=" + EscapeSpaces(host.extensionVersion)
  }

  /** The literal parts of the tag string hold no space. */
  lemma TagKeysEscaped()
    ensures SpacesEscaped("project_name=") && SpacesEscaped(",cpu_model=") && SpacesEscaped(",cpu_core_count=")
    ensures SpacesEscaped(",gpu_model=") && SpacesEscaped(",ram_size=") && SpacesEscaped(",machine_name=")
    ensures SpacesEscaped(",unreal_version=") && SpacesEscaped(",extension_version=")
  {
  }

  /** The tag string contains no unescaped space, whatever the host reports. */
  lemma TagStringEscaped(host: HostMetadata)
    ensures SpacesEscaped(BuildTagString(host))
  {
    TagKeysEscaped();
    var e1, e2, e3, e4 := EscapeSpaces(host.projectName), EscapeSpaces(host.cpuModel), EscapeSpaces(host.coreCount), EscapeSpaces(host.gpuModel);
    var e5, e6, e7, e8 := EscapeSpaces(host.ramSize), EscapeSpaces(host.machineName), EscapeSpaces(host.unrealVersion), EscapeSpaces(host.extensionVersion);
    SpacesEscapedConcat("project_name=", e1);
    var a1 := "project_name=" + e1;
    SpacesEscapedConcat(a1, ",cpu_model=");
    SpacesEscapedConcat(a1 + ",cpu_model=", e2);
    var a2 := a1 + ",cpu_model=" + e2;
    SpacesEscapedConcat(a2, ",cpu_core_count=");
    SpacesEscapedConcat(a2 + ",cpu_core_count=", e3);
    var a3 := a2 + ",cpu_core_count=" + e3;
    SpacesEscapedConcat(a3, ",gpu_model=");
    SpacesEscapedConcat(a3 + ",gpu_model=", e4);
    var a4 := a3 + ",gpu_model=" + e4;
    SpacesEscapedConcat(a4, ",ram_size=");
    SpacesEscapedConcat(a4 + ",ram_size=", e5);
    var a5 := a4 + ",ram_size=" + e5;
    SpacesEscapedConcat(a5, ",machine_name=");
    SpacesEscapedConcat(a5 + ",machine_name=", e6);
    var a6 := a5 + ",machine_name=" + e6;
    SpacesEscapedConcat(a6, ",unreal_version=");
    SpacesEscapedConcat(a6 + ",unreal_version=", e7);
    var a7 := a6 + ",unreal_version=" + e7;
    SpacesEscapedConcat(a7, ",extension_version=");
    SpacesEscapedConcat(a7 + ",extension_version=", e8);
  }

  function SuccessLiteral(success: bool): string {
    if success then "True" else "False"
  }

  /** `%.2f` of a whole number of seconds. */
  function FormatDuration(seconds: int): string {
    IntToString(seconds) + ".00"
  }

  /** The user tag value: the escaped user name when user logging is on, "N/A" otherwise. */
  function UserTag(username: string, settings: Settings): string {
    if settings.logUser then username else "N/A"
  }

  /** The first section of a line: measurement name and tag set. */
  function MeasurementAndTags(data: EventMetaData, tagString: string, username: string, settings: Settings): string {
    LogEventTypeToString(data.eventType) + "," + tagString
    + ",success=" + SuccessLiteral(data.success)
    + ",user=" + UserTag(username, settings)
  }

  /** The second section of a line: the field set. */
  function FieldSet(data: EventMetaData): string {
    "event_start=" + IntToString(data.startTime)
    + ",event_finish=" + IntToString(data.finishTime)
    + ",event_duration=" + FormatDuration(data.duration)
  }

  /** The whole point; its timestamp section is the start time. */
  function ToLineProtocol(data: EventMetaData, tagString: string, username: string, settings: Settings): string {
    MeasurementAndTags(data, tagString, username, settings) + " " + FieldSet(data) + " " + IntToString(data.startTime)
  }

  /** A space that separates two sections of a line: one that no backslash escapes. */
  predicate BareSpaceAt(line: string, i: int)
    requires 0 <= i < |line|
  {
    line[i] == ' ' && (i == 0 || line[i - 1] != '\\')
  }

  /** What a line-protocol reader takes as the measurement: everything before the first comma. */
  function Measurement(line: string): string
    decreases |line|
  {
    if line == [] || line[0] == ',' then [] else [line[0]] + Measurement(line[1..])
  }

  lemma {:induction false} MeasurementBeforeComma(line: string, name: string)
    requires forall i :: 0 <= i < |name| ==> name[i] != ','
    requires |name| < |line| && line[..|name|] == name && line[|name|] == ','
    ensures Measurement(line) == name
    decreases |name|
  {
    if name != [] {
      assert line[1..][..|name| - 1] == name[1..];
      MeasurementBeforeComma(line[1..], name[1..]);
      assert name == [name[0]] + name[1..];
    }
  }

  /** Three sections whose own spaces are escaped, joined by two spaces, have exactly those two bare spaces. */
  lemma ThreeSections(h: string, f: string, t: string)
    requires SpacesEscaped(h) && SpacesEscaped(f) && SpacesEscaped(t)
    requires |h| > 0 && h[|h| - 1] != '\\'
    requires |f| > 0 && f[|f| - 1] != '\\'
    ensures var line := h + " " + f + " " + t;
      forall i :: 0 <= i < |line| ==> (BareSpaceAt(line, i) <==> i == |h| || i == |h| + 1 + |f|)
  {
    var line := h + " " + f + " " + t;
    var p1, p2 := |h|, |h| + 1 + |f|;
    forall i | 0 <= i < |line|
      ensures BareSpaceAt(line, i) <==> i == p1 || i == p2
    {
      if i < p1 {
        assert line[i] == h[i];
        if i > 0 { assert line[i - 1] == h[i - 1]; }
      } else if i == p1 {
        assert line[i - 1] == h[|h| - 1];
      } else if i < p2 {
        assert line[i] == f[i - p1 - 1];
        if i - p1 - 1 > 0 { assert line[i - 1] == f[i - p1 - 2]; }
      } else if i == p2 {
        assert line[i - 1] == f[|f| - 1];
      } else {
        assert line[i] == t[i - p2 - 1];
        if i - p2 - 1 > 0 { assert line[i - 1] == t[i - p2 - 2]; }
      }
    }
  }

  /** The first section has no unescaped space and does not end in a backslash. */
  lemma HeadEscaped(data: EventMetaData, tagString: string, username: string, settings: Settings)
    requires SpacesEscaped(tagString) && SpacesEscaped(username)
    requires username == [] || username[|username| - 1] != '\\'
    ensures var head := MeasurementAndTags(data, tagString, username, settings);
      SpacesEscaped(head) && |head| > 0 && head[|head| - 1] != '\\'
  {
    var name := LogEventTypeToString(data.eventType);
    var userTag := UserTag(username, settings);
    LogEventTypeNamePlain(data.eventType);
    var a := name + ",";
    SpacesEscapedConcat(name, ",");
    SpacesEscapedConcat(a, tagString);
    a := a + tagString;
    SpacesEscapedConcat(a, ",success=");
    a := a + ",success=";
    SpacesEscapedConcat(a, SuccessLiteral(data.success));
    a := a + SuccessLiteral(data.success);
    SpacesEscapedConcat(a, ",user=");
    a := a + ",user=";
    SpacesEscapedConcat(a, userTag);
    assert a[|a| - 1] == '=';
    a := a + userTag;
    assert a == MeasurementAndTags(data, tagString, username, settings);
  }

  /** A string without any space has no unescaped space. */
  lemma PlainEscaped(s: string)
    requires Plain(s)
    ensures SpacesEscaped(s)
  {
  }

  /** The field set holds no space and ends in a digit. */
  lemma FieldSetEscaped(data: EventMetaData)
    ensures SpacesEscaped(FieldSet(data)) && FieldSet(data)[|FieldSet(data)| - 1] == '0'
  {
    var s1, s2, d := IntToString(data.startTime), IntToString(data.finishTime), IntToString(data.duration);
    PlainEscaped(s1);
    PlainEscaped(s2);
    PlainConcat(d, ".00");
    PlainEscaped(FormatDuration(data.duration));
    assert SpacesEscaped("event_start=") && SpacesEscaped(",event_finish=") && SpacesEscaped(",event_duration=");
    SpacesEscapedConcat("event_start=", s1);
    var a1 := "event_start=" + s1;
    SpacesEscapedConcat(a1, ",event_finish=");
    SpacesEscapedConcat(a1 + ",event_finish=", s2);
    var a2 := a1 + ",event_finish=" + s2;
    SpacesEscapedConcat(a2, ",event_duration=");
    SpacesEscapedConcat(a2 + ",event_duration=", FormatDuration(data.duration));
  }

  /** The line has exactly two unescaped spaces when its first section has none and does not end in a backslash. */
  lemma LineBareSpaces(data: EventMetaData, tagString: string, username: string, settings: Settings)
    requires SpacesEscaped(tagString) && SpacesEscaped(username)
    requires username == [] || username[|username| - 1] != '\\'
    ensures
      var line := ToLineProtocol(data, tagString, username, settings);
      var p1 := |MeasurementAndTags(data, tagString, username, settings)|;
      var p2 := p1 + 1 + |FieldSet(data)|;
      && p2 < |line|
      && (forall i :: 0 <= i < |line| ==> (BareSpaceAt(line, i) <==> i == p1 || i == p2))
  {
    HeadEscaped(data, tagString, username, settings);
    FieldSetEscaped(data);
    PlainEscaped(IntToString(data.startTime));
    ThreeSections(MeasurementAndTags(data, tagString, username, settings), FieldSet(data), IntToString(data.startTime));
  }

  lemma PrefixOfConcat(a: string, b: string, k: nat)
    requires k <= |a|
    ensures (a + b)[..k] == a[..k]
  {
  }

  /** A reader recovers the event's kind from the measurement. */
  lemma LineMeasurement(data: EventMetaData, tagString: string, username: string, settings: Settings)
    ensures ParseLogEventType(Measurement(ToLineProtocol(data, tagString, username, settings))) == Some(data.eventType)
  {
    var name := LogEventTypeToString(data.eventType);
    var head := MeasurementAndTags(data, tagString, username, settings);
    var line := ToLineProtocol(data, tagString, username, settings);
    var k := |name| + 1;
    var x1 := name + ",";
    var x2 := x1 + tagString;
    var x3 := x2 + ",success=";
    var x4 := x3 + SuccessLiteral(data.success);
    var x5 := x4 + ",user=";
    assert head == x5 + UserTag(username, settings);
    PrefixOfConcat(x1, tagString, k);
    PrefixOfConcat(x2, ",success=", k);
    PrefixOfConcat(x3, SuccessLiteral(data.success), k);
    PrefixOfConcat(x4, ",user=", k);
    PrefixOfConcat(x5, UserTag(username, settings), k);
    assert head[..k] == x1;
    PrefixOfConcat(head, " ", k);
    PrefixOfConcat(head + " ", FieldSet(data), k);
    PrefixOfConcat(head + " " + FieldSet(data), " ", k);
    PrefixOfConcat(head + " " + FieldSet(data) + " ", IntToString(data.startTime), k);
    assert line[..k] == x1;
    assert line[..|name|] == name && line[|name|] == ',' by {
      assert line[..k][..|name|] == name;
      assert line[..k][|name|] == ',';
    }
    LogEventTypeNamePlain(data.eventType);
    MeasurementBeforeComma(line, name);
    LogEventTypeNameRoundTrip(data.eventType);
  }

  /** A reader recovers the start time from the timestamp section. */
  lemma LineTimestamp(data: EventMetaData, tagString: string, username: string, settings: Settings)
    ensures
      var line := ToLineProtocol(data, tagString, username, settings);
      var p2 := |MeasurementAndTags(data, tagString, username, settings)| + 1 + |FieldSet(data)|;
      && p2 < |line|
      && ParseDecimal(line[p2 + 1..]) == Some(data.startTime)
  {
    var line := ToLineProtocol(data, tagString, username, settings);
    var p2 := |MeasurementAndTags(data, tagString, username, settings)| + 1 + |FieldSet(data)|;
    assert line[p2 + 1..] == IntToString(data.startTime);
    IntToStringRoundTrip(data.startTime);
  }

  /**
   * A line read back: it has exactly two unescaped spaces, so a reader sees
   * exactly the three sections the logger meant; the measurement names the
   * event's kind and the timestamp section is the start time. The one input
   * that could break this is a user name ending in a backslash, which would
   * escape the space after it.
   */
  lemma LineSections(host: HostMetadata, data: EventMetaData, settings: Settings)
    requires settings.logUser ==> host.userName == [] || host.userName[|host.userName| - 1] != '\\'
    ensures
      var tags, user := BuildTagString(host), EscapeSpaces(host.userName);
      var line := ToLineProtocol(data, tags, user, settings);
      var p1 := |MeasurementAndTags(data, tags, user, settings)|;
      var p2 := p1 + 1 + |FieldSet(data)|;
      && p2 < |line|
      && (forall i :: 0 <= i < |line| ==> (BareSpaceAt(line, i) <==> i == p1 || i == p2))
      && ParseLogEventType(Measurement(line)) == Some(data.eventType)
      && ParseDecimal(line[p2 + 1..]) == Some(data.startTime)
  {
    var tags, user := BuildTagString(host), EscapeSpaces(host.userName);
    TagStringEscaped(host);
    // Only the user tag's last character can end the first section.
    var shown := if settings.logUser then user else "";
    LineBareSpaces(data, tags, shown, settings);
    assert MeasurementAndTags(data, tags, shown, settings) == MeasurementAndTags(data, tags, user, settings);
    assert ToLineProtocol(data, tags, shown, settings) == ToLineProtocol(data, tags, user, settings);
    LineMeasurement(data, tags, user, settings);
    LineTimestamp(data, tags, user, settings);
  }

  /** With user logging off the user tag is "N/A", and the user name has no effect on the line. */
  lemma UserHiddenWhenNotLogged(data: EventMetaData, tagString: string, user1: string, user2: string, settings: Settings)
    requires !settings.logUser
    ensures ToLineProtocol(data, tagString, user1, settings) == ToLineProtocol(data, tagString, user2, settings)
    ensures var head := MeasurementAndTags(data, tagString, user1, settings);
      |head| >= 9 && head[|head| - 9..] == ",user=N/A"
  {
  }

  /** The success tag carries the capitalised literal, True exactly for a successful event. */
  lemma SuccessTag(data: EventMetaData, tagString: string, username: string, settings: Settings)
    ensures var head := MeasurementAndTags(data, tagString, username, settings);
      var k := |LogEventTypeToString(data.eventType)| + 1 + |tagString|;
      && k + 9 <= |head|
      && head[k..k + 9] == ",success="
      && (head[k + 9..k + 13] == "True" <==> data.success)
  {
    var head := MeasurementAndTags(data, tagString, username, settings);
    var k := |LogEventTypeToString(data.eventType)| + 1 + |tagString|;
    var rest := SuccessLiteral(data.success) + ",user=" + UserTag(username, settings);
    assert head == (LogEventTypeToString(data.eventType) + "," + tagString) + ",success=" + rest;
    assert head[k + 9..] == rest;
    assert head[k + 9..k + 13] == rest[..4];
    if !data.success {
      assert rest[..4] == "Fals";
    }
  }

  // ---------------------------------------------------------------------------
  // Requests
  // ---------------------------------------------------------------------------

  /** The settings the selected backend version needs are all present. */
  predicate ConfigurationComplete(settings: Settings) {
    match settings.influxVersion
    case V1 =>
      settings.influxURL != "" && settings.influxDatabase != "" && settings.influxUser != "" && settings.influxPassword != ""
    case V2 =>
      settings.influxURL != "" && settings.influxToken != "" && settings.influxOrganisation != "" && settings.influxBucket != ""
  }

  function WriteUrlV1(settings: Settings): string {
    settings.influxURL + "/write?db=" + settings.influxDatabase + "&u=" + settings.influxUser
    + "&p=" + settings.influxPassword + "&precision=s"
  }

  function WriteUrlV2(settings: Settings): string {
    settings.influxURL + "/api/v2/write?bucket=" + settings.influxBucket + "&org=" + settings.influxOrganisation + "&precision=s"
  }

  /** The request SendLog configures: a POST of the content as plain text, with an Authorization header when one is given. */
  function SendLogRequest(writeUrl: string, content: string, authorization: string): HttpRequest {
    var headers := map["Content-Type" := ContentType];
    HttpRequest("POST", writeUrl, if authorization != "" then headers["Authorization" := authorization] else headers, content)
  }

  function LogV1Request(settings: Settings, content: string): Option<HttpRequest> {
    if settings.influxURL == "" || settings.influxDatabase == "" || settings.influxUser == "" || settings.influxPassword == ""
    then None
    else Some(SendLogRequest(WriteUrlV1(settings), content, ""))
  }

  function LogV2Request(settings: Settings, content: string): Option<HttpRequest> {
    if settings.influxURL == "" || settings.influxToken == "" || settings.influxOrganisation == "" || settings.influxBucket == ""
    then None
    else Some(SendLogRequest(WriteUrlV2(settings), content, settings.influxToken))
  }

  /** The request Log issues for an encoded line, if any. */
  function LogRequest(settings: Settings, line: string): (r: Option<HttpRequest>)
    ensures r.Some? <==> settings.enableLogging && ConfigurationComplete(settings)
    ensures r.Some? ==> r.value.verb == "POST" && r.value.content == line
    ensures r.Some? ==> "Content-Type" in r.value.headers && r.value.headers["Content-Type"] == ContentType
    ensures r.Some? ==> r.value.headers.Keys <= {"Content-Type", "Authorization"}
    ensures r.Some? ==> ("Authorization" in r.value.headers <==> settings.influxVersion == V2)
    ensures r.Some? && settings.influxVersion == V2 ==> r.value.headers["Authorization"] == settings.influxToken
    ensures r.Some? ==> r.value.url == if settings.influxVersion == V1 then WriteUrlV1(settings) else WriteUrlV2(settings)
  {
    if !settings.enableLogging then None
    else if settings.influxVersion == V1 then LogV1Request(settings, line)
    else LogV2Request(settings, line)
  }

  /** Both write URLs start with the configured base URL and ask for second precision. */
  lemma WriteUrlShape(settings: Settings)
    ensures var u := settings.influxURL;
      && WriteUrlV1(settings)[..|u| + 10] == u + "/write?db="
      && WriteUrlV2(settings)[..|u| + 21] == u + "/api/v2/write?bucket="
      && WriteUrlV1(settings)[|WriteUrlV1(settings)| - 12..] == "&precision=s"
      && WriteUrlV2(settings)[|WriteUrlV2(settings)| - 12..] == "&precision=s"
  {
  }

  // ---------------------------------------------------------------------------
  // The logger object
  // ---------------------------------------------------------------------------

  class InfluxDBLogger {
    /** The user name, space-escaped once when the logger is created. */
    const username: string
    /** The tag set, built once when the logger is created. */
    const tagString: string
    /** The requests issued so far, oldest first. */
    ghost var sent: seq<HttpRequest>

    constructor(host: HostMetadata)
      ensures username == EscapeSpaces(host.userName)
      ensures tagString == BuildTagString(host)
      ensures sent == []
    {
      username := EscapeSpaces(host.userName);
      tagString := BuildTagString(host);
      sent := [];
    }

    /** Encodes one record and issues the write request the settings call for, if any. */
    method Log(data: EventMetaData, settings: Settings)
      modifies this`sent
      ensures sent == old(sent) + ToSeq(LogRequest(settings, ToLineProtocol(data, tagString, username, settings)))
    {
      if !settings.enableLogging {
        return;
      }
      var lineProtocolData := ToLineProtocol(data, tagString, username, settings);
      if settings.influxVersion == V1 {
        LogV1(lineProtocolData, settings);
      } else {
        LogV2(lineProtocolData, settings);
      }
    }

    method LogV1(content: string, settings: Settings)
      modifies this`sent
      ensures sent == old(sent) + ToSeq(LogV1Request(settings, content))
    {
      if settings.influxURL == "" || settings.influxDatabase == "" || settings.influxUser == "" || settings.influxPassword == "" {
        return;
      }
      var writeUrl := WriteUrlV1(settings);
      SendLog(writeUrl, content, "");
    }

    method LogV2(content: string, settings: Settings)
      modifies this`sent
      ensures sent == old(sent) + ToSeq(LogV2Request(settings, content))
    {
      if settings.influxURL == "" || settings.influxToken == "" || settings.influxOrganisation == "" || settings.influxBucket == "" {
        return;
      }
      var writeUrl := WriteUrlV2(settings);
      SendLog(writeUrl, content, settings.influxToken);
    }

    /** Configures a fresh request setter by setter and issues it. */
    method SendLog(writeUrl: string, content: string, authorization: string)
      modifies this`sent
      ensures sent == old(sent) + [SendLogRequest(writeUrl, content, authorization)]
    {
      var request := HttpRequest("GET", "", map[], "");
      request := request.(url := writeUrl);
      request := request.(verb := "POST");
      request := request.(headers := request.headers["Content-Type" := ContentType]);
      request := request.(content := content);
      if authorization != "" {
        request := request.(headers := request.headers["Authorization" := authorization]);
      }
      sent := sent + [request];
    }
  }
}
