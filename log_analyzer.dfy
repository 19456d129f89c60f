// The statistics pass of the log analyser over parsed log entries, and the
// truncation rules of its text export
// (src/smartestiroid/utils/log_analyzer.py).
module LogAnalyzer {
  import opened Wrappers
  import opened Text
  import opened JsonValues

  // ---------------------------------------------------------------------
  // Log entries (LogEntry)
  // ---------------------------------------------------------------------

  datatype LogEntry = LogEntry(
    timestamp: string,
    level: string,
    category: string,
    event: string,
    message: Option<Json>,
    data: Option<Json>)

  /** `LogEntry.from_json` on a decoded object. */
  function FromJson(obj: Object): LogEntry
  {
    LogEntry(GetText(obj, "ts", ""), GetText(obj, "lvl", "INFO"), GetText(obj, "cat", "UNKNOWN"),
             GetText(obj, "evt", "UNKNOWN"), GetOpt(obj, "msg"), GetOpt(obj, "data"))
  }

  /** The object the structured logger writes for an entry. */
  function ToObject(e: LogEntry): Object
  {
    map["ts" := JStr(e.timestamp), "lvl" := JStr(e.level), "cat" := JStr(e.category), "evt" := JStr(e.event)]
    + (if e.message.Some? then map["msg" := e.message.value] else map[])
    + (if e.data.Some? then map["data" := e.data.value] else map[])
  }

  /** Missing fields read as an empty time, level INFO and category and event UNKNOWN. */
  lemma FromJsonDefaults(obj: Object)
    requires forall k :: k in obj ==> k !in {"ts", "lvl", "cat", "evt", "msg", "data"}
    ensures FromJson(obj) == LogEntry("", "INFO", "UNKNOWN", "UNKNOWN", None, None)
  {
    assert "ts" !in obj && "lvl" !in obj && "cat" !in obj;
    assert "evt" !in obj && "msg" !in obj && "data" !in obj;
  }

  /** Reading back a written entry gives the entry (a null message or data reads as absent). */
  lemma FromJsonInvertsToObject(e: LogEntry)
    requires e.message != Some(JNull) && e.data != Some(JNull)
    ensures FromJson(ToObject(e)) == e
  {
    var obj := ToObject(e);
    assert "ts" in obj && obj["ts"] == JStr(e.timestamp);
    assert "lvl" in obj && obj["lvl"] == JStr(e.level);
    assert "cat" in obj && obj["cat"] == JStr(e.category);
    assert "evt" in obj && obj["evt"] == JStr(e.event);
  }

  /** `time_only`: the clock part of the timestamp. */
  function TimeOnly(e: LogEntry): string
  {
    TimeOfDay(e.timestamp)
  }

  /** Taking the clock part of a clock part changes nothing. */
  lemma TimeOfDayIdempotent(ts: string)
    ensures TimeOfDay(TimeOfDay(ts)) == TimeOfDay(ts)
    ensures |TimeOfDay(ts)| <= |ts|
  {
  }

  // ---------------------------------------------------------------------
  // What the statistics pass looks at
  // ---------------------------------------------------------------------

  predicate IsLlmStart(e: LogEntry) { e.category == "LLM" && e.event == "START" }

  predicate IsTool(e: LogEntry) { e.category == "TOOL" }

  predicate IsError(e: LogEntry) { e.level == "ERROR" }

  predicate IsWarning(e: LogEntry) { e.level == "WARN" }

  predicate IsInconsistency(e: LogEntry)
  {
    Contains(e.event, "不整合") || Contains(e.event, "INCONSISTENCY")
  }

  predicate IsTestStart(e: LogEntry) { e.category == "TEST" && e.event == "START" }

  predicate IsTestEnd(e: LogEntry) { e.category == "TEST" && e.event == "END" }

  predicate IsEnd(e: LogEntry)
  {
    IsTestEnd(e) || (e.category == "SESSION" && e.event == "END")
  }

  /** The entry's data when it is a non-empty object. */
  function DataObject(e: LogEntry): Option<Object>
  {
    if e.data.Some? && e.data.value.JObject? && e.data.value.fields != map[]
    then Some(e.data.value.fields) else None
  }

  /** Test data that is present but not an object: reading a field of it fails. */
  predicate BadTestData(e: LogEntry)
  {
    (IsTestStart(e) || IsTestEnd(e)) && e.data.Some? && Truthy(e.data.value) && !e.data.value.JObject?
  }

  predicate HasScreenshot(e: LogEntry)
  {
    e.category == "SCREEN" && DataObject(e).Some? && "image_path" in DataObject(e).value
  }

  /** `d.get(key, default)` */
  function GetOr(d: Object, key: string, default: Json): Json
  {
    if key in d then d[key] else default
  }

  datatype PromptRecord = PromptRecord(timestamp: string, callMethod: Json, modelName: Json, prompt: Json,
                                       promptLength: Option<nat>)

  datatype ScreenshotRecord = ScreenshotRecord(timestamp: string, imagePath: Option<Json>,
                                               imageFilename: Option<Json>, labelValue: Option<Json>)

  /** `d.get("prompt") or d.get("system_prompt") or ""` */
  function PromptValue(d: Object): Json
  {
    if "prompt" in d && Truthy(d["prompt"]) then d["prompt"]
    else if "system_prompt" in d && Truthy(d["system_prompt"]) then d["system_prompt"]
    else JStr("")
  }

  /** The prompt record of an LLM start whose data is an object. */
  function PromptOf(e: LogEntry, d: Object): PromptRecord
  {
    var p := PromptValue(d);
    PromptRecord(TimeOnly(e), GetOr(d, "method", JStr("unknown")), GetOr(d, "model", JStr("unknown")), p,
                 if p.JStr? then Some(|p.s|) else None)
  }

  function ScreenshotOf(e: LogEntry, d: Object): ScreenshotRecord
  {
    ScreenshotRecord(TimeOnly(e), GetOpt(d, "image_path"), GetOpt(d, "image_filename"), GetOpt(d, "label"))
  }

  // ---------------------------------------------------------------------
  // Specification of the pass
  // ---------------------------------------------------------------------

  /** The kinds of entry the pass counts or looks up. */
  datatype Kind = LlmStart | Tool | ScreenshotEntry | ErrorLevel | WarnLevel | Inconsistency | TestStart | TestEnd

  predicate Is(k: Kind, e: LogEntry)
  {
    match k
    case LlmStart => IsLlmStart(e)
    case Tool => IsTool(e)
    case ScreenshotEntry => HasScreenshot(e)
    case ErrorLevel => IsError(e)
    case WarnLevel => IsWarning(e)
    case Inconsistency => IsInconsistency(e)
    case TestStart => IsTestStart(e)
    case TestEnd => IsTestEnd(e)
  }

  /** The entries of kind `k`, in order. */
  function Filter(es: seq<LogEntry>, k: Kind): (r: seq<LogEntry>)
    ensures |r| <= |es|
  {
    if es == [] then []
    else Filter(es[..|es| - 1], k) + (if Is(k, es[|es| - 1]) then [es[|es| - 1]] else [])
  }

  /** Filtering keeps exactly the entries of kind `k`: each one kept is of that kind and was read. */
  lemma {:induction false} FilterSound(es: seq<LogEntry>, k: Kind)
    ensures forall x :: x in Filter(es, k) <==> x in es && Is(k, x)
  {
    if es != [] {
      FilterSound(es[..|es| - 1], k);
      assert es == es[..|es| - 1] + [es[|es| - 1]];
    }
  }

  /** The prompt records of the LLM starts that carry object data. */
  function Prompts(es: seq<LogEntry>): seq<PromptRecord>
  {
    if es == [] then []
    else
      var e := es[|es| - 1];
      Prompts(es[..|es| - 1]) + (if IsLlmStart(e) && DataObject(e).Some? then [PromptOf(e, DataObject(e).value)] else [])
  }

  function Screenshots(es: seq<LogEntry>): seq<ScreenshotRecord>
  {
    if es == [] then []
    else
      var e := es[|es| - 1];
      Screenshots(es[..|es| - 1]) + (if HasScreenshot(e) then [ScreenshotOf(e, DataObject(e).value)] else [])
  }

  /** Every screenshot record comes from a SCREEN entry with an image path. */
  lemma {:induction false} ScreenshotsCounted(es: seq<LogEntry>)
    ensures |Screenshots(es)| == |Filter(es, ScreenshotEntry)|
  {
    if es != [] {
      ScreenshotsCounted(es[..|es| - 1]);
    }
  }

  /** A prompt is recorded for at most every LLM start. */
  lemma {:induction false} PromptsAtMostCalls(es: seq<LogEntry>)
    ensures |Prompts(es)| <= |Filter(es, LlmStart)|
  {
    if es != [] {
      PromptsAtMostCalls(es[..|es| - 1]);
    }
  }

  /**
   * The recorded start time: the time of a TEST/START entry, kept unless it
   * is still empty.
   */
  function StartTime(es: seq<LogEntry>): Option<string>
  {
    if es == [] then None
    else
      var prev := StartTime(es[..|es| - 1]);
      var e := es[|es| - 1];
      if IsTestStart(e) && (prev.None? || prev.value == "") then Some(e.timestamp) else prev
  }

  /** There is a start time exactly when there is a TEST/START entry, and it is the time of one. */
  lemma {:induction false} StartTimeFromStart(es: seq<LogEntry>)
    ensures StartTime(es).None? <==> forall i :: 0 <= i < |es| ==> !IsTestStart(es[i])
    ensures StartTime(es).Some? ==> exists i :: 0 <= i < |es| && IsTestStart(es[i]) && es[i].timestamp == StartTime(es).value
  {
    if es != [] {
      var init := es[..|es| - 1];
      StartTimeFromStart(init);
      assert forall i :: 0 <= i < |init| ==> init[i] == es[i];
    }
  }

  /** A non-empty start time, once recorded, is never overwritten. */
  lemma {:induction false} StartTimeStable(es: seq<LogEntry>, n: nat)
    requires n <= |es| && StartTime(es[..n]).Some? && StartTime(es[..n]).value != ""
    ensures StartTime(es) == StartTime(es[..n])
    decreases |es| - n
  {
    if n < |es| {
      assert es[..n + 1][..n] == es[..n];
      StartTimeStable(es, n + 1);
    } else {
      assert es[..n] == es;
    }
  }

  /** The time of the last TEST/END or SESSION/END entry. */
  function EndTime(es: seq<LogEntry>): Option<string>
  {
    if es == [] then None
    else if IsEnd(es[|es| - 1]) then Some(es[|es| - 1].timestamp)
    else EndTime(es[..|es| - 1])
  }

  /** The end time is absent exactly without an end entry, and otherwise the time of the last one. */
  lemma {:induction false} EndTimeIsLast(es: seq<LogEntry>)
    ensures EndTime(es).None? <==> forall i :: 0 <= i < |es| ==> !IsEnd(es[i])
    ensures EndTime(es).Some? ==> exists i :: 0 <= i < |es| && IsEnd(es[i]) && es[i].timestamp == EndTime(es).value &&
                                              forall k :: i < k < |es| ==> !IsEnd(es[k])
  {
    if es != [] && !IsEnd(es[|es| - 1]) {
      var pre := es[..|es| - 1];
      assert EndTime(es) == EndTime(pre);
      EndTimeIsLast(pre);
      assert forall i :: 0 <= i < |pre| ==> pre[i] == es[i];
      if EndTime(pre).Some? {
        var i :| 0 <= i < |pre| && IsEnd(pre[i]) && pre[i].timestamp == EndTime(pre).value &&
                 forall k :: i < k < |pre| ==> !IsEnd(pre[k]);
        forall k | i < k < |es|
          ensures !IsEnd(es[k])
        {
          if k < |pre| {
            assert !IsEnd(pre[k]);
          }
        }
      }
    }
  }

  /** The object data of the last entry satisfying `p` whose data is a non-empty object. */
  function LastData(es: seq<LogEntry>, kind: Kind): Option<Object>
  {
    if es == [] then None
    else if Is(kind, es[|es| - 1]) && DataObject(es[|es| - 1]).Some? then DataObject(es[|es| - 1])
    else LastData(es[..|es| - 1], kind)
  }

  /** The data found is that of the last entry of the kind with object data; there is none exactly without one. */
  lemma {:induction false} LastDataIsLast(es: seq<LogEntry>, kind: Kind)
    ensures LastData(es, kind).Some? ==>
      exists i :: 0 <= i < |es| && Is(kind, es[i]) && DataObject(es[i]) == LastData(es, kind) &&
                  forall k :: i < k < |es| ==> !(Is(kind, es[k]) && DataObject(es[k]).Some?)
    ensures LastData(es, kind).None? ==> forall i :: 0 <= i < |es| ==> !(Is(kind, es[i]) && DataObject(es[i]).Some?)
  {
    if es != [] && !(Is(kind, es[|es| - 1]) && DataObject(es[|es| - 1]).Some?) {
      var pre := es[..|es| - 1];
      assert LastData(es, kind) == LastData(pre, kind);
      LastDataIsLast(pre, kind);
      assert forall i :: 0 <= i < |pre| ==> pre[i] == es[i];
      if LastData(pre, kind).Some? {
        var i :| 0 <= i < |pre| && Is(kind, pre[i]) && DataObject(pre[i]) == LastData(pre, kind) &&
                 forall k :: i < k < |pre| ==> !(Is(kind, pre[k]) && DataObject(pre[k]).Some?);
        forall k | i < k < |es|
          ensures !(Is(kind, es[k]) && DataObject(es[k]).Some?)
        {
          if k < |pre| {
            assert !(Is(kind, pre[k]) && DataObject(pre[k]).Some?);
          }
        }
      }
    }
  }

  /** A field of the last matching data, `None` when there is none. */
  function FieldOfLast(es: seq<LogEntry>, kind: Kind, key: string): Option<Json>
  {
    match LastData(es, kind)
    case None => None
    case Some(d) => GetOpt(d, key)
  }

  /** Each specification function extended by one entry. */
  lemma FilterExtends(es: seq<LogEntry>, e: LogEntry, k: Kind)
    ensures Filter(es + [e], k) == Filter(es, k) + (if Is(k, e) then [e] else [])
  {
    assert (es + [e])[..|es|] == es;
  }

  lemma RecordsExtend(es: seq<LogEntry>, e: LogEntry)
    ensures Prompts(es + [e]) == Prompts(es) + (if IsLlmStart(e) && DataObject(e).Some? then [PromptOf(e, DataObject(e).value)] else [])
    ensures Screenshots(es + [e]) == Screenshots(es) + (if HasScreenshot(e) then [ScreenshotOf(e, DataObject(e).value)] else [])
  {
    assert (es + [e])[..|es|] == es;
  }

  lemma TimesExtend(es: seq<LogEntry>, e: LogEntry)
    ensures StartTime(es + [e]) == (if IsTestStart(e) && (StartTime(es).None? || StartTime(es).value == "") then Some(e.timestamp) else StartTime(es))
    ensures EndTime(es + [e]) == (if IsEnd(e) then Some(e.timestamp) else EndTime(es))
  {
    assert (es + [e])[..|es|] == es;
  }

  lemma LastDataExtends(es: seq<LogEntry>, e: LogEntry, k: Kind)
    ensures LastData(es + [e], k) == (if Is(k, e) && DataObject(e).Some? then DataObject(e) else LastData(es, k))
  {
    assert (es + [e])[..|es|] == es;
  }

  // ---------------------------------------------------------------------
  // The pass (_analyze)
  // ---------------------------------------------------------------------

  /** The counters and the lists they count. */
  datatype Counts = Counts(
    llmCalls: nat,
    toolCalls: nat,
    errors: nat,
    warnings: nat,
    inconsistencies: nat,
    screenshots: nat,
    llmPrompts: seq<PromptRecord>,
    errorEntries: seq<LogEntry>,
    warningEntries: seq<LogEntry>,
    screenshotEntries: seq<ScreenshotRecord>)

  /** What the pass learns about the test and its times. */
  datatype TestInfo = TestInfo(
    testId: Option<Json>,
    testTitle: Option<Json>,
    testResult: Option<Json>,
    startTime: Option<string>,
    endTime: Option<string>)

  datatype AnalysisResult = AnalysisResult(totalLogs: nat, timeline: seq<LogEntry>, counts: Counts, test: TestInfo)

  /** The counts after reading `es`: each counter agrees with the list it counts. */
  predicate CountsOf(c: Counts, es: seq<LogEntry>)
  {
    c.llmCalls == |Filter(es, LlmStart)| && c.llmPrompts == Prompts(es) &&
    c.toolCalls == |Filter(es, Tool)| &&
    c.errors == |c.errorEntries| && c.errorEntries == Filter(es, ErrorLevel) &&
    c.warnings == |c.warningEntries| && c.warningEntries == Filter(es, WarnLevel) &&
    c.inconsistencies == |Filter(es, Inconsistency)| &&
    c.screenshots == |c.screenshotEntries| && c.screenshotEntries == Screenshots(es)
  }

  predicate TestInfoOf(t: TestInfo, es: seq<LogEntry>)
  {
    t.testId == FieldOfLast(es, TestStart, "test_id") &&
    t.testTitle == FieldOfLast(es, TestStart, "title") &&
    t.testResult == FieldOfLast(es, TestEnd, "status") &&
    t.startTime == StartTime(es) && t.endTime == EndTime(es)
  }

  /** The counting part of one iteration of the pass. */
  method CountEntry(c: Counts, e: LogEntry, ghost es: seq<LogEntry>) returns (c': Counts)
    requires CountsOf(c, es)
    ensures CountsOf(c', es + [e])
  {
    var llmCalls, llmPrompts := CountLlm(c.llmCalls, c.llmPrompts, e, es);
    var toolCalls := CountKind(c.toolCalls, Tool, e, es);
    var screenshots, screenshotEntries := CountScreenshot(c.screenshots, c.screenshotEntries, e, es);
    var errors, errorEntries := CollectKind(c.errors, c.errorEntries, ErrorLevel, e, es);
    var warnings, warningEntries := CollectKind(c.warnings, c.warningEntries, WarnLevel, e, es);
    var inconsistencies := CountKind(c.inconsistencies, Inconsistency, e, es);
    c' := Counts(llmCalls, toolCalls, errors, warnings, inconsistencies, screenshots,
                 llmPrompts, errorEntries, warningEntries, screenshotEntries);
  }

  /** An LLM/START entry adds a call, and a prompt record when it has object data. */
  method CountLlm(calls: nat, prompts: seq<PromptRecord>, e: LogEntry, ghost es: seq<LogEntry>)
    returns (calls': nat, prompts': seq<PromptRecord>)
    requires calls == |Filter(es, LlmStart)| && prompts == Prompts(es)
    ensures calls' == |Filter(es + [e], LlmStart)| && prompts' == Prompts(es + [e])
  {
    FilterExtends(es, e, LlmStart);
    RecordsExtend(es, e);
    calls', prompts' := calls, prompts;
    if IsLlmStart(e) {
      calls' := calls + 1;
      if DataObject(e).Some? {
        prompts' := prompts + [PromptOf(e, DataObject(e).value)];
      }
    }
  }

  /** A counter of the entries of one kind. */
  method CountKind(n: nat, k: Kind, e: LogEntry, ghost es: seq<LogEntry>) returns (n': nat)
    requires n == |Filter(es, k)|
    ensures n' == |Filter(es + [e], k)|
  {
    FilterExtends(es, e, k);
    n' := n;
    if Is(k, e) {
      n' := n + 1;
    }
  }

  /** A counter and the list of the entries of one kind. */
  method CollectKind(n: nat, list: seq<LogEntry>, k: Kind, e: LogEntry, ghost es: seq<LogEntry>)
    returns (n': nat, list': seq<LogEntry>)
    requires n == |list| && list == Filter(es, k)
    ensures n' == |list'| && list' == Filter(es + [e], k)
  {
    FilterExtends(es, e, k);
    n', list' := n, list;
    if Is(k, e) {
      n', list' := n + 1, list + [e];
    }
  }

  /** A SCREEN entry with an image path adds a screenshot record. */
  method CountScreenshot(n: nat, shots: seq<ScreenshotRecord>, e: LogEntry, ghost es: seq<LogEntry>)
    returns (n': nat, shots': seq<ScreenshotRecord>)
    requires n == |shots| && shots == Screenshots(es)
    ensures n' == |shots'| && shots' == Screenshots(es + [e])
  {
    RecordsExtend(es, e);
    n', shots' := n, shots;
    if HasScreenshot(e) {
      n', shots' := n + 1, shots + [ScreenshotOf(e, DataObject(e).value)];
    }
  }

  /** The test-information part of one iteration of the pass. */
  method TrackTest(t: TestInfo, e: LogEntry, ghost es: seq<LogEntry>) returns (t': TestInfo)
    requires TestInfoOf(t, es)
    ensures TestInfoOf(t', es + [e])
  {
    var id, title := TrackStartData(t.testId, t.testTitle, e, es);
    var result := TrackEndData(t.testResult, e, es);
    var start, end := TrackTimes(t.startTime, t.endTime, e, es);
    t' := TestInfo(id, title, result, start, end);
  }

  /** TEST/START data gives the test's id and title. */
  method TrackStartData(id: Option<Json>, title: Option<Json>, e: LogEntry, ghost es: seq<LogEntry>)
    returns (id': Option<Json>, title': Option<Json>)
    requires id == FieldOfLast(es, TestStart, "test_id") && title == FieldOfLast(es, TestStart, "title")
    ensures id' == FieldOfLast(es + [e], TestStart, "test_id") && title' == FieldOfLast(es + [e], TestStart, "title")
  {
    LastDataExtends(es, e, TestStart);
    id', title' := id, title;
    if IsTestStart(e) && DataObject(e).Some? {
      id', title' := GetOpt(DataObject(e).value, "test_id"), GetOpt(DataObject(e).value, "title");
    }
  }

  /** TEST/END data gives the test's status. */
  method TrackEndData(result: Option<Json>, e: LogEntry, ghost es: seq<LogEntry>) returns (result': Option<Json>)
    requires result == FieldOfLast(es, TestEnd, "status")
    ensures result' == FieldOfLast(es + [e], TestEnd, "status")
  {
    LastDataExtends(es, e, TestEnd);
    result' := result;
    if IsTestEnd(e) && DataObject(e).Some? {
      result' := GetOpt(DataObject(e).value, "status");
    }
  }

  /** The start stamp is taken from TEST/START while none is set; the end stamp from every end entry. */
  method TrackTimes(start: Option<string>, end: Option<string>, e: LogEntry, ghost es: seq<LogEntry>)
    returns (start': Option<string>, end': Option<string>)
    requires start == StartTime(es) && end == EndTime(es)
    ensures start' == StartTime(es + [e]) && end' == EndTime(es + [e])
  {
    TimesExtend(es, e);
    start', end' := start, end;
    if IsTestStart(e) && (start'.None? || start'.value == "") {
      start' := Some(e.timestamp);
    }
    if IsEnd(e) {
      end' := Some(e.timestamp);
    }
  }

  const BAD_TEST_DATA := "AttributeError: test data is not an object"

  /**
   * One pass over the entries.  Every counter agrees with the list it
   * counts, and reading a field of test data that is not an object fails.
   */
  method Analyze(entries: seq<LogEntry>) returns (r: Result<AnalysisResult>)
    ensures r.Failure? <==> exists i :: 0 <= i < |entries| && BadTestData(entries[i])
    ensures r.Success? ==> r.value.totalLogs == |entries| && r.value.timeline == entries
    ensures r.Success? ==> CountsOf(r.value.counts, entries) && TestInfoOf(r.value.test, entries)
  {
    var c := Counts(0, 0, 0, 0, 0, 0, [], [], [], []);
    var t := TestInfo(None, None, None, None, None);
    for i := 0 to |entries|
      invariant forall k :: 0 <= k < i ==> !BadTestData(entries[k])
      invariant CountsOf(c, entries[..i]) && TestInfoOf(t, entries[..i])
    {
      var e := entries[i];
      if BadTestData(e) {
        return Failure(BAD_TEST_DATA);
      }
      c := CountEntry(c, e, entries[..i]);
      t := TrackTest(t, e, entries[..i]);
      assert entries[..i + 1] == entries[..i] + [e];
    }
    assert entries[..|entries|] == entries;
    return Success(AnalysisResult(|entries|, entries, c, t));
  }

  // ---------------------------------------------------------------------
  // Truncation in the export text (export_for_llm_analysis)
  // ---------------------------------------------------------------------

  /** The text of an entry's message, empty when there is none. */
  function MessageText(e: LogEntry): string
  {
    if e.message.Some? && e.message.value.JStr? then e.message.value.s else ""
  }

  /** A timeline message longer than 80 characters becomes its first 77 and "...". */
  function ShortMessage(msg: string): (r: string)
    ensures |r| <= 80
    ensures |msg| <= 80 ==> r == msg
    ensures |msg| > 80 ==> StartsWith(r, msg[..77]) && r[77..] == "..."
  {
    if |msg| > 80 then msg[..77] + "..." else msg
  }

  /** Shortening a shortened message changes nothing. */
  lemma ShortMessageIdempotent(msg: string)
    ensures ShortMessage(ShortMessage(msg)) == ShortMessage(msg)
  {
  }

  const TRUNCATED_MARK := "\n... (truncated)"

  /** A prompt longer than 2000 characters keeps its first 2000 and a truncation mark. */
  function TruncatedPrompt(p: string): (r: string)
    ensures |p| <= 2000 ==> r == p
    ensures |p| > 2000 ==> |r| == 2000 + |TRUNCATED_MARK| && StartsWith(r, p[..2000]) && r[2000..] == TRUNCATED_MARK
  {
    if |p| > 2000 then p[..2000] + TRUNCATED_MARK else p
  }
}
