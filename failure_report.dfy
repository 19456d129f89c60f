// Failed-test extraction from a structured JSONL run log, and the
// pattern-matching analysis used when no language model is consulted
// (src/smartestiroid/utils/failure_report_generator.py).
//
// The log is given as its raw lines together with what the JSON decoder
// makes of each stripped line; reading the file and decoding JSON are
// outside the model.
module FailureReport {
  import opened Wrappers
  import opened Text
  import opened JsonValues

  // ---------------------------------------------------------------------
  // Loading the log (_load_log)
  // ---------------------------------------------------------------------

  /** What `json.loads` makes of a stripped line. */
  datatype Decoded = NotJson | Decoded(value: Json)

  /** One line of the log file and the decoding of its stripped text. */
  datatype RawLine = RawLine(text: string, decoded: Decoded)

  /** A kept log entry: the decoded object and its 1-based line number. */
  datatype Entry = Entry(fields: Object, lineNum: int)

  /** Storing the line number into a decoded value that is not an object fails. */
  const NOT_AN_OBJECT := "TypeError: decoded log line is not an object"

  /** How the loader treats one line. */
  datatype LineKind = Skipped | Kept(fields: Object) | Breaks

  /**
   * A line whose `strip()` is empty (see `Text.StripEmptyIffBlank`) or that is not JSON is skipped; a decoded object is
   * kept; any other decoded value cannot take a line number.
   */
  function Classify(line: RawLine): LineKind
  {
    if IsBlank(line.text) then Skipped
    else match line.decoded
      case NotJson => Skipped
      case Decoded(v) => if v.JObject? then Kept(v.fields) else Breaks
  }

  function Kinds(lines: seq<RawLine>): (r: seq<LineKind>)
    ensures |r| == |lines| && forall i :: 0 <= i < |lines| ==> r[i] == Classify(lines[i])
  {
    seq(|lines|, i requires 0 <= i < |lines| => Classify(lines[i]))
  }

  /** The entries kept from lines of the given kinds, numbered from 1. */
  function Load(kinds: seq<LineKind>): Result<seq<Entry>>
  {
    if kinds == [] then Success([])
    else
      match Load(kinds[..|kinds| - 1])
      case Failure(e) => Failure(e)
      case Success(es) =>
        match kinds[|kinds| - 1]
        case Kept(fields) => Success(es + [Entry(fields, |kinds|)])
        case Breaks => Failure(NOT_AN_OBJECT)
        case Skipped => Success(es)
  }

  function LoadedEntries(lines: seq<RawLine>): Result<seq<Entry>>
  {
    Load(Kinds(lines))
  }

  /** Line numbers strictly increase along the entries. */
  predicate Increasing(es: seq<Entry>)
  {
    forall j, k :: 0 <= j < k < |es| ==> es[j].lineNum < es[k].lineNum
  }

  /** Loading fails exactly when some line decodes to a non-object. */
  lemma {:induction false} LoadFailsIff(kinds: seq<LineKind>)
    ensures Load(kinds).Failure? <==> exists i :: 0 <= i < |kinds| && kinds[i].Breaks?
  {
    if kinds != [] {
      var init := kinds[..|kinds| - 1];
      LoadFailsIff(init);
      assert forall j :: 0 <= j < |init| ==> init[j] == kinds[j];
    }
  }

  /** A failure on a prefix of the lines is the failure of the whole log. */
  lemma {:induction false} LoadFailureSticks(kinds: seq<LineKind>, n: nat)
    requires n <= |kinds| && Load(kinds[..n]).Failure?
    ensures Load(kinds) == Load(kinds[..n])
    decreases |kinds| - n
  {
    if n < |kinds| {
      assert kinds[..n + 1][..n] == kinds[..n];
      LoadFailureSticks(kinds, n + 1);
    } else {
      assert kinds[..n] == kinds;
    }
  }

  /**
   * Every entry carries the 1-based number of a kept line and that line's
   * decoded object, in file order.
   */
  lemma {:induction false} LoadedEntriesNumbered(kinds: seq<LineKind>)
    ensures Load(kinds).Success? ==>
      var es := Load(kinds).value;
      Increasing(es) &&
      forall j :: 0 <= j < |es| ==>
        1 <= es[j].lineNum <= |kinds| && kinds[es[j].lineNum - 1] == Kept(es[j].fields)
  {
    if kinds != [] && Load(kinds).Success? {
      var init := kinds[..|kinds| - 1];
      LoadedEntriesNumbered(init);
      var es := Load(init).value;
      forall j | 0 <= j < |es|
        ensures kinds[es[j].lineNum - 1] == init[es[j].lineNum - 1]
      {
      }
    }
  }

  /** Every kept line appears among the entries. */
  lemma {:induction false} LoadedEntriesComplete(kinds: seq<LineKind>)
    ensures Load(kinds).Success? ==>
      var es := Load(kinds).value;
      forall i :: 0 <= i < |kinds| && kinds[i].Kept? ==>
        exists j :: 0 <= j < |es| && es[j].lineNum == i + 1
  {
    if kinds != [] && Load(kinds).Success? {
      var init := kinds[..|kinds| - 1];
      var last := kinds[|kinds| - 1];
      LoadedEntriesComplete(init);
      assert kinds[..|kinds| - 1] == init;
      assert Load(init).Success?;
      var es := Load(init).value;
      var es' := Load(kinds).value;
      assert kinds[..|kinds| - 1] == init;
      assert es' == if last.Kept? then es + [Entry(last.fields, |kinds|)] else es;
      forall i | 0 <= i < |kinds| && kinds[i].Kept?
        ensures exists j :: 0 <= j < |es'| && es'[j].lineNum == i + 1
      {
        if i == |kinds| - 1 {
          assert es'[|es|].lineNum == i + 1;
        } else {
          assert init[i] == kinds[i];
          var j :| 0 <= j < |es| && es[j].lineNum == i + 1;
          assert es'[j] == es[j];
        }
      }
      assert Load(kinds).value == es';
      assert forall i :: 0 <= i < |kinds| && kinds[i].Kept? ==>
        exists j :: 0 <= j < |es'| && es'[j].lineNum == i + 1;
    }
  }

  /** `_load_log`: the loop over the numbered lines of the file. */
  method LoadLog(lines: seq<RawLine>) returns (r: Result<seq<Entry>>)
    ensures r == LoadedEntries(lines)
  {
    var entries: seq<Entry> := [];
    var kinds := Kinds(lines);
    for n := 0 to |lines|
      invariant Load(kinds[..n]) == Success(entries)
    {
      var line := lines[n];
      assert kinds[..n + 1] == kinds[..n] + [Classify(line)];
      LoadSnoc(kinds[..n], Classify(line));
      if !IsBlank(line.text) {
        match line.decoded
        case NotJson =>
        case Decoded(v) =>
          if !v.JObject? {
            LoadFailureSticks(kinds, n + 1);
            return Failure(NOT_AN_OBJECT);
          }
          entries := entries + [Entry(v.fields, n + 1)];
      }
    }
    assert kinds[..|lines|] == kinds;
    return Success(entries);
  }

  // ---------------------------------------------------------------------
  // The record of one failed test (FailedTestInfo)
  // ---------------------------------------------------------------------

  datatype ErrorType = InvalidContextError | TimeoutError | NoSuchElementError | UnknownError

  datatype Screenshot = Screenshot(path: string, filename: string, labelText: Option<string>, timestamp: string)

  datatype FailedTest = FailedTest(
    testId: string,
    title: string,
    steps: string,
    expected: string,
    failedStep: Option<string>,
    errorMessage: Option<string>,
    errorType: Option<ErrorType>,
    failureTimestamp: Option<string>,
    verificationPhase1: Option<Object>,
    verificationPhase2: Option<Object>,
    lastScreenType: Option<Json>,
    lastScreenXml: Option<string>,
    screenshots: seq<Screenshot>,
    progressSummary: Option<Json>,
    completedSteps: seq<string>,
    logStartLine: int,
    logEndLine: int)

  /** The record counts as failed when its error message is a non-empty text. */
  predicate HasError(t: FailedTest)
  {
    t.errorMessage.Some? && t.errorMessage.value != ""
  }

  function Cat(e: Entry): string { GetText(e.fields, "cat", "") }

  function Evt(e: Entry): string { GetText(e.fields, "evt", "") }

  /** `entry.get("data", {}) or {}` for an object-valued field. */
  function Data(e: Entry): Object
  {
    if "data" in e.fields && e.fields["data"].JObject? then e.fields["data"].fields else map[]
  }

  predicate IsTestStart(e: Entry)
  {
    Cat(e) == "TEST" && Evt(e) == "START" && "test_id" in Data(e)
  }

  predicate IsStepFail(e: Entry) { Cat(e) == "STEP" && Evt(e) == "FAIL" }

  predicate IsTestFail(e: Entry) { Cat(e) == "TEST" && Evt(e) == "FAIL" }

  predicate IsSessionEnd(e: Entry) { Cat(e) == "SESSION" && Evt(e) == "END" }

  function TestIdOf(e: Entry): string { GetText(Data(e), "test_id", "") }

  /** The record a TEST/START entry opens. */
  function NewTest(e: Entry): FailedTest
  {
    var d := Data(e);
    FailedTest(TestIdOf(e), GetText(d, "title", ""), GetText(d, "steps", ""), GetText(d, "expected", ""),
               None, None, None, None, None, None, None, None, [], None, [], e.lineNum, 0)
  }

  /** Error classification of a failed step, first matching rule wins. */
  function ClassifyError(error: string): ErrorType
  {
    if Contains(error, "InvalidContextError") then InvalidContextError
    else if Contains(error, "TimeoutError") || Contains(Lower(error), "timeout") then TimeoutError
    else if Contains(error, "NoSuchElement") then NoSuchElementError
    else UnknownError
  }

  /** The error text of a failed step. */
  function StepError(e: Entry): string { GetText(Data(e), "error", "") }

  /** The error text of a failed test: the data's `error`, else the entry's `msg`. */
  function TestFailError(e: Entry): string
  {
    if "error" in Data(e) then GetText(Data(e), "error", "") else GetText(e.fields, "msg", "")
  }

  const HIERARCHY_OPEN := "<hierarchy"
  const HIERARCHY_CLOSE := "</hierarchy>"

  /** The first position at or after `from` where `p` occurs in `s`. */
  function FirstOccurrence(s: string, p: string, from: nat): (r: Option<nat>)
    ensures r.Some? ==> from <= r.value && OccursAt(s, p, r.value)
    ensures r.Some? ==> forall k :: from <= k < r.value ==> !OccursAt(s, p, k)
    ensures r.None? ==> forall k :: from <= k ==> !OccursAt(s, p, k)
    decreases |s| - from
  {
    if from + |p| > |s| then None
    else if OccursAt(s, p, from) then Some(from)
    else FirstOccurrence(s, p, from + 1)
  }

  /** The leftmost shortest match of `open.*?close`, dot matching newlines. */
  function ShortestMatch(s: string, open: string, close: string): Option<string>
  {
    match FirstOccurrence(s, open, 0)
    case None => None
    case Some(i) =>
      match FirstOccurrence(s, close, i + |open|)
      case None => None
      case Some(k) => Some(s[i..k + |close|])
  }

  /** The search for `<hierarchy.*?</hierarchy>`. */
  function HierarchyXml(prompt: string): Option<string>
  {
    ShortestMatch(prompt, HIERARCHY_OPEN, HIERARCHY_CLOSE)
  }

  /** A match begins with `open`, ends with `close` and holds no earlier `close`. */
  lemma ShortestMatchShape(s: string, open: string, close: string)
    requires ShortestMatch(s, open, close).Some?
    ensures var x := ShortestMatch(s, open, close).value;
      StartsWith(x, open) &&
      |x| >= |open| + |close| &&
      OccursAt(x, close, |x| - |close|) &&
      forall k :: |open| <= k < |x| - |close| ==> !OccursAt(x, close, k)
  {
    var i := FirstOccurrence(s, open, 0).value;
    var k := FirstOccurrence(s, close, i + |open|).value;
    OccursInSlice(s, open, i, i, k + |close|);
    OccursInSlice(s, close, k, i, k + |close|);
    NoEarlierClose(s, open, close, i, k);
  }

  /**
   * A match begins with `<hierarchy`, ends with `</hierarchy>` and holds no
   * earlier closing tag.
   */
  lemma HierarchyXmlIsShortest(prompt: string)
    requires HierarchyXml(prompt).Some?
    ensures var x := HierarchyXml(prompt).value;
      StartsWith(x, HIERARCHY_OPEN) &&
      |x| >= |HIERARCHY_OPEN| + |HIERARCHY_CLOSE| &&
      OccursAt(x, HIERARCHY_CLOSE, |x| - |HIERARCHY_CLOSE|) &&
      forall k :: |HIERARCHY_OPEN| <= k < |x| - |HIERARCHY_CLOSE| ==> !OccursAt(x, HIERARCHY_CLOSE, k)
  {
    ShortestMatchShape(prompt, HIERARCHY_OPEN, HIERARCHY_CLOSE);
  }

  /** An occurrence inside a slice is an occurrence in the slice, shifted by its start. */
  lemma OccursInSlice(s: string, p: string, i: nat, lo: nat, hi: nat)
    requires lo <= i && i + |p| <= hi <= |s| && OccursAt(s, p, i)
    ensures OccursAt(s[lo..hi], p, i - lo)
  {
    var u := s[lo..hi][i - lo..i - lo + |p|];
    forall m | 0 <= m < |p|
      ensures u[m] == p[m]
    {
      assert u[m] == s[i + m];
      assert p[m] == s[i..i + |p|][m];
    }
  }

  /** Between `open` at `i` and the first `close` `k` after it, the slice holds no `close`. */
  lemma NoEarlierClose(s: string, open: string, close: string, i: nat, k: nat)
    requires i + |open| <= k && k + |close| <= |s|
    requires forall m :: i + |open| <= m < k ==> !OccursAt(s, close, m)
    ensures var x := s[i..k + |close|];
      forall j :: |open| <= j < |x| - |close| ==> !OccursAt(x, close, j)
  {
    var x := s[i..k + |close|];
    forall j | |open| <= j < |x| - |close|
      ensures !OccursAt(x, close, j)
    {
      assert !OccursAt(s, close, i + j);
      var there := s[i + j..i + j + |close|];
      var here := x[j..j + |close|];
      assert forall t :: 0 <= t < |there| ==> there[t] == here[t];
      assert there == here;
    }
  }

  /** A match is found where the first `<hierarchy` of the prompt occurs. */
  lemma HierarchyXmlIsLeftmost(prompt: string)
    requires HierarchyXml(prompt).Some?
    ensures exists i :: OccursAt(prompt, HierarchyXml(prompt).value, i) &&
                        forall k :: 0 <= k < i ==> !OccursAt(prompt, HIERARCHY_OPEN, k)
  {
    var i := FirstOccurrence(prompt, HIERARCHY_OPEN, 0).value;
    assert OccursAt(prompt, HierarchyXml(prompt).value, i);
  }

  /** There is no match exactly when no closing tag follows any opening tag. */
  lemma HierarchyXmlNoneIff(prompt: string)
    ensures HierarchyXml(prompt).None? <==>
      forall i, k :: OccursAt(prompt, HIERARCHY_OPEN, i) && OccursAt(prompt, HIERARCHY_CLOSE, k) ==>
        k < i + |HIERARCHY_OPEN|
  {
    match FirstOccurrence(prompt, HIERARCHY_OPEN, 0)
    case None =>
    case Some(i0) =>
      forall i, k | OccursAt(prompt, HIERARCHY_OPEN, i) && OccursAt(prompt, HIERARCHY_CLOSE, k) && HierarchyXml(prompt).None?
        ensures k < i + |HIERARCHY_OPEN|
      {
        assert i0 <= i;
      }
  }

  /** A verification phase number as Python's `== 1` / `== 2` sees it (`True == 1`). */
  predicate IsPhase(v: Option<Json>, n: int)
  {
    v.Some? && (v.value == JInt(n) || (n == 1 && v.value == JBool(true)))
  }

  /**
   * What one entry does to the current record.  Each rule is keyed by a
   * distinct category/event pair, so at most one applies.  The record's
   * identity (test, start line) never changes, and the error message is
   * written only by a failed step or, while still empty, by a failed test.
   */
  function Apply(t: FailedTest, e: Entry): (r: FailedTest)
    ensures r.testId == t.testId && r.logStartLine == t.logStartLine && r.logEndLine == t.logEndLine
    ensures IsStepFail(e) ==> r.errorMessage == Some(StepError(e)) &&
                              r.errorType == Some(ClassifyError(StepError(e)))
    ensures IsTestFail(e) && HasError(t) ==> r.errorMessage == t.errorMessage
    ensures IsTestFail(e) && !HasError(t) ==> r.errorMessage == Some(TestFailError(e))
    ensures !IsStepFail(e) && !IsTestFail(e) ==> r.errorMessage == t.errorMessage
    ensures |t.screenshots| <= |r.screenshots| <= |t.screenshots| + 1
  {
    var d := Data(e);
    var cat := Cat(e);
    var evt := Evt(e);
    if cat == "SCREEN" && evt == "COMPLETE" then
      t.(lastScreenType := GetOpt(d, "screen_type"))
    else if cat == "SCREEN" && evt == "UPDATE" then
      if "image_path" in d then
        t.(screenshots := t.screenshots + [Screenshot(GetText(d, "image_path", ""), GetText(d, "image_filename", ""),
                                                      GetOptText(d, "label"), GetText(e.fields, "ts", ""))])
      else t
    else if cat == "LLM" && evt == "START" then
      match HierarchyXml(GetText(d, "user_prompt", ""))
      case Some(x) => t.(lastScreenXml := Some(x))
      case None => t
    else if cat == "LLM" && evt == "VERIFY_RESPONSE" then
      if IsPhase(GetOpt(d, "phase"), 1) then t.(verificationPhase1 := Some(d))
      else if IsPhase(GetOpt(d, "phase"), 2) then t.(verificationPhase2 := Some(d))
      else t
    else if cat == "OBJECTIVE" && evt == "UPDATE" then
      if "summary" in d && Truthy(d["summary"]) then t.(progressSummary := Some(d["summary"])) else t
    else if cat == "STEP" && evt == "COMPLETE" then
      if "success" in d && Truthy(d["success"]) && GetText(d, "step", "") != "" then
        t.(completedSteps := t.completedSteps + [GetText(d, "step", "")])
      else t
    else if cat == "STEP" && evt == "FAIL" then
      t.(failedStep := Some(GetText(d, "step", "")),
         errorMessage := Some(StepError(e)),
         errorType := Some(ClassifyError(StepError(e))))
    else if cat == "TEST" && evt == "FAIL" then
      var stamped := t.(failureTimestamp := Some(GetText(e.fields, "ts", "")));
      if HasError(t) then stamped else stamped.(errorMessage := Some(TestFailError(e)))
    else t
  }

  // ---------------------------------------------------------------------
  // The extraction pass (_extract_failed_tests)
  // ---------------------------------------------------------------------

  /** The loop state: the record being filled and the failed records so far. */
  datatype Scan = Scan(current: Option<FailedTest>, failed: seq<FailedTest>)

  /** One iteration of the extraction loop. */
  function Step(s: Scan, e: Entry): Scan
  {
    ApplyEntry(OpenOnStart(s, e), e)
  }

  /** A TEST/START entry keeps the open record when it failed, ending it on the line before, and opens a new one. */
  function OpenOnStart(s: Scan, e: Entry): Scan
  {
    if IsTestStart(e) then
      Scan(Some(NewTest(e)),
           if s.current.Some? && HasError(s.current.value)
           then s.failed + [s.current.value.(logEndLine := e.lineNum - 1)]
           else s.failed)
    else s
  }

  /** The open record takes in the entry; a SESSION/END closes it on its own line when it failed. */
  function ApplyEntry(s: Scan, e: Entry): Scan
  {
    if s.current.None? then s
    else
      var t := Apply(s.current.value, e);
      if IsSessionEnd(e) && HasError(t) then Scan(None, s.failed + [t.(logEndLine := e.lineNum)])
      else Scan(Some(t), s.failed)
  }

  /** The loop state after `es`, starting from `s`. */
  function ScanFrom(s: Scan, es: seq<Entry>): Scan
  {
    if es == [] then s else Step(ScanFrom(s, es[..|es| - 1]), es[|es| - 1])
  }

  function ScanAll(es: seq<Entry>): Scan
  {
    ScanFrom(Scan(None, []), es)
  }

  /** After the loop, a still-open failed record is kept with the given end line. */
  function Flush(s: Scan, endLine: int): seq<FailedTest>
  {
    if s.current.Some? && HasError(s.current.value)
    then s.failed + [s.current.value.(logEndLine := endLine)]
    else s.failed
  }

  /** The line number of the last entry read, 0 for an empty log. */
  function LastLine(es: seq<Entry>): int
  {
    if es == [] then 0 else es[|es| - 1].lineNum
  }

  /**
   * The extraction as written: the final flush takes the NUMBER OF ENTRIES
   * as the end line, which is not a line number once any line was skipped.
   */
  function ExtractedTestsAsWritten(es: seq<Entry>): seq<FailedTest>
  {
    Flush(ScanAll(es), |es|)
  }

  /** The extraction with the final flush ending at the last line read. */
  function ExtractedTests(es: seq<Entry>): seq<FailedTest>
  {
    Flush(ScanAll(es), LastLine(es))
  }

  /** The extraction loop, with the corrected final end line. */
  method ExtractFailedTests(entries: seq<Entry>) returns (failed: seq<FailedTest>)
    ensures failed == ExtractedTests(entries)
  {
    var current: Option<FailedTest> := None;
    failed := [];
    for i := 0 to |entries|
      invariant Scan(current, failed) == ScanAll(entries[..i])
    {
      assert entries[..i + 1][..i] == entries[..i];
      var e := entries[i];
      ghost var before := Scan(current, failed);
      if IsTestStart(e) {
        if current.Some? && HasError(current.value) {
          failed := failed + [current.value.(logEndLine := e.lineNum - 1)];
        }
        current := Some(NewTest(e));
      }
      assert Scan(current, failed) == OpenOnStart(before, e);
      if current.Some? {
        var t := Apply(current.value, e);
        if IsSessionEnd(e) && HasError(t) {
          failed := failed + [t.(logEndLine := e.lineNum)];
          current := None;
        } else {
          current := Some(t);
        }
      }
    }
    assert entries[..|entries|] == entries;
    if current.Some? && HasError(current.value) {
      failed := failed + [current.value.(logEndLine := LastLine(entries))];
    }
  }

  lemma {:induction false} ScanFromAppend(s: Scan, a: seq<Entry>, b: seq<Entry>)
    ensures ScanFrom(s, a + b) == ScanFrom(ScanFrom(s, a), b)
    decreases |b|
  {
    if b == [] {
      assert a + b == a;
    } else {
      assert (a + b)[..|a + b| - 1] == a + b[..|b| - 1];
      ScanFromAppend(s, a, b[..|b| - 1]);
    }
  }

  /** Entries before the first test start leave no trace. */
  lemma {:induction false} NoStartNoState(es: seq<Entry>)
    requires forall j :: 0 <= j < |es| ==> !IsTestStart(es[j])
    ensures ScanAll(es) == Scan(None, [])
  {
    if es != [] {
      NoStartNoState(es[..|es| - 1]);
    }
  }

  /** Extraction ignores everything before the first test start. */
  lemma EntriesBeforeFirstStartIgnored(pre: seq<Entry>, rest: seq<Entry>)
    requires forall j :: 0 <= j < |pre| ==> !IsTestStart(pre[j])
    ensures ScanAll(pre + rest) == ScanAll(rest)
  {
    NoStartNoState(pre);
    ScanFromAppend(Scan(None, []), pre, rest);
  }

  /** `t` was opened by a TEST/START entry of `es` carrying its id and line. */
  predicate FromStart(t: FailedTest, es: seq<Entry>)
  {
    exists j :: 0 <= j < |es| && IsTestStart(es[j]) && es[j].lineNum == t.logStartLine && TestIdOf(es[j]) == t.testId
  }

  lemma FromStartGrows(t: FailedTest, es: seq<Entry>, n: nat)
    requires n <= |es| && FromStart(t, es[..n])
    ensures FromStart(t, es)
  {
    var j :| 0 <= j < n && IsTestStart(es[..n][j]) && es[..n][j].lineNum == t.logStartLine && TestIdOf(es[..n][j]) == t.testId;
    assert es[j] == es[..n][j];
  }

  /** What holds of the loop state after `es`. */
  predicate ScanOk(s: Scan, es: seq<Entry>)
  {
    ScanOkAt(s, es, LastLine(es))
  }

  /** Every kept record failed, has a well-formed range and was opened in `es`; the open record starts by `line`. */
  predicate ScanOkAt(s: Scan, es: seq<Entry>, line: int)
  {
    (forall t | t in s.failed :: HasError(t) && t.logStartLine <= t.logEndLine && FromStart(t, es)) &&
    (s.current.Some? ==> s.current.value.logStartLine <= line && FromStart(s.current.value, es))
  }

  /** `FromStart` only looks at the id and the start line. */
  lemma FromStartSameOrigin(t: FailedTest, u: FailedTest, es: seq<Entry>)
    requires FromStart(t, es) && u.testId == t.testId && u.logStartLine == t.logStartLine
    ensures FromStart(u, es)
  {
    var j :| 0 <= j < |es| && IsTestStart(es[j]) && es[j].lineNum == t.logStartLine && TestIdOf(es[j]) == t.testId;
    assert IsTestStart(es[j]) && es[j].lineNum == u.logStartLine && TestIdOf(es[j]) == u.testId;
  }

  /** The state after the entries before the last one, seen from the whole of `es`. */
  lemma ScanOkLifts(s: Scan, es: seq<Entry>)
    requires es != [] && Increasing(es) && ScanOk(s, es[..|es| - 1])
    ensures ScanOkAt(s, es, es[|es| - 1].lineNum - 1)
  {
    var init := es[..|es| - 1];
    forall t | t in s.failed
      ensures FromStart(t, es)
    {
      FromStartGrows(t, es, |es| - 1);
    }
    if s.current.Some? {
      FromStartGrows(s.current.value, es, |es| - 1);
      assert init != [];
      assert LastLine(init) == es[|es| - 2].lineNum < es[|es| - 1].lineNum;
    }
  }

  lemma OpenOnStartOk(s: Scan, es: seq<Entry>)
    requires es != [] && ScanOkAt(s, es, es[|es| - 1].lineNum - 1)
    ensures ScanOkAt(OpenOnStart(s, es[|es| - 1]), es, es[|es| - 1].lineNum)
  {
    var e := es[|es| - 1];
    if IsTestStart(e) {
      assert FromStart(NewTest(e), es);
      if s.current.Some? && HasError(s.current.value) {
        var t := s.current.value;
        FromStartSameOrigin(t, t.(logEndLine := e.lineNum - 1), es);
      }
    }
  }

  lemma ApplyEntryOk(s: Scan, es: seq<Entry>)
    requires es != [] && ScanOkAt(s, es, es[|es| - 1].lineNum)
    ensures ScanOk(ApplyEntry(s, es[|es| - 1]), es)
  {
    var e := es[|es| - 1];
    if s.current.Some? {
      var t := Apply(s.current.value, e);
      FromStartSameOrigin(s.current.value, t, es);
      if IsSessionEnd(e) && HasError(t) {
        FromStartSameOrigin(t, t.(logEndLine := e.lineNum), es);
      }
    }
  }

  lemma {:induction false} ScanAllOk(es: seq<Entry>)
    requires Increasing(es)
    ensures ScanOk(ScanAll(es), es)
  {
    if es != [] {
      var init := es[..|es| - 1];
      assert Increasing(init);
      ScanAllOk(init);
      ScanOkLifts(ScanAll(init), es);
      OpenOnStartOk(ScanAll(init), es);
      ApplyEntryOk(OpenOnStart(ScanAll(init), es[|es| - 1]), es);
    }
  }

  /** Only tests with a non-empty error message are reported. */
  lemma OnlyFailuresReported(es: seq<Entry>)
    requires Increasing(es)
    ensures forall t | t in ExtractedTests(es) :: HasError(t)
  {
    ScanAllOk(es);
  }

  /**
   * Every reported test was opened by a TEST/START entry with its id and
   * line, and its line range is well formed.
   */
  lemma ReportedRangesWellFormed(es: seq<Entry>)
    requires Increasing(es)
    ensures forall t | t in ExtractedTests(es) ::
              t.logStartLine <= t.logEndLine && FromStart(t, es)
  {
    ScanAllOk(es);
    var s := ScanAll(es);
    if s.current.Some? && HasError(s.current.value) {
      assert ExtractedTests(es) == s.failed + [s.current.value.(logEndLine := LastLine(es))];
    }
  }

  /** From the raw log to the report: every reported line range is well formed. */
  lemma LoadedLogRangesWellFormed(lines: seq<RawLine>)
    requires LoadedEntries(lines).Success?
    ensures forall t | t in ExtractedTests(LoadedEntries(lines).value) ::
              HasError(t) && t.logStartLine <= t.logEndLine
  {
    LoadedEntriesNumbered(Kinds(lines));
    ReportedRangesWellFormed(LoadedEntries(lines).value);
    OnlyFailuresReported(LoadedEntries(lines).value);
  }

  /** With no skipped line the written and corrected extractions agree. */
  lemma AsWrittenAgreesWithoutSkippedLines(es: seq<Entry>)
    requires forall j :: 0 <= j < |es| ==> es[j].lineNum == j + 1
    ensures ExtractedTestsAsWritten(es) == ExtractedTests(es)
  {
  }

  const SAMPLE_START: Object :=
    map["cat" := JStr("TEST"), "evt" := JStr("START"), "data" := JObject(map["test_id" := JStr("T1")])]
  const SAMPLE_FAIL: Object :=
    map["cat" := JStr("STEP"), "evt" := JStr("FAIL"), "data" := JObject(map["error" := JStr("E")])]

  /** Two blank lines, a test start and a failed step. */
  const SAMPLE_LOG: seq<RawLine> :=
    [RawLine("", NotJson), RawLine("", NotJson),
     RawLine("x", Decoded(JObject(SAMPLE_START))), RawLine("x", Decoded(JObject(SAMPLE_FAIL)))]

  lemma LoadSnoc(kinds: seq<LineKind>, k: LineKind)
    ensures Load(kinds + [k]) ==
      match Load(kinds)
      case Failure(e) => Failure(e)
      case Success(es) =>
        match k
        case Kept(fields) => Success(es + [Entry(fields, |kinds| + 1)])
        case Breaks => Failure(NOT_AN_OBJECT)
        case Skipped => Success(es)
  {
    assert (kinds + [k])[..|kinds|] == kinds;
  }

  lemma ClassifySample(obj: Object)
    ensures Classify(RawLine("x", Decoded(JObject(obj)))) == Kept(obj)
  {
    assert !IsSpace("x"[0]);
  }

  lemma KindsSnoc(lines: seq<RawLine>, line: RawLine)
    ensures Kinds(lines + [line]) == Kinds(lines) + [Classify(line)]
  {
    var l := lines + [line];
    assert forall i :: 0 <= i < |lines| ==> l[i] == lines[i];
  }

  /** Two blank lines followed by two object lines. */
  lemma BlankBlankObjects(o1: Object, o2: Object)
    ensures Kinds([RawLine("", NotJson), RawLine("", NotJson),
                   RawLine("x", Decoded(JObject(o1))), RawLine("x", Decoded(JObject(o2)))])
            == [Skipped, Skipped, Kept(o1), Kept(o2)]
  {
    var blank := RawLine("", NotJson);
    var first := RawLine("x", Decoded(JObject(o1)));
    var second := RawLine("x", Decoded(JObject(o2)));
    ClassifySample(o1);
    ClassifySample(o2);
    assert Classify(blank) == Skipped;
    KindsSnoc([], blank);
    KindsSnoc([blank], blank);
    KindsSnoc([blank, blank], first);
    KindsSnoc([blank, blank, first], second);
    assert [blank] == [] + [blank];
    assert [blank, blank] == [blank] + [blank];
    assert [blank, blank, first] == [blank, blank] + [first];
    assert [blank, blank, first, second] == [blank, blank, first] + [second];
  }

  lemma SampleKinds()
    ensures Kinds(SAMPLE_LOG) == [Skipped, Skipped, Kept(SAMPLE_START), Kept(SAMPLE_FAIL)]
  {
    BlankBlankObjects(SAMPLE_START, SAMPLE_FAIL);
  }

  lemma SampleLogLoads()
    ensures LoadedEntries(SAMPLE_LOG) == Success([Entry(SAMPLE_START, 3), Entry(SAMPLE_FAIL, 4)])
  {
    SampleKinds();
    var k1 := [Skipped];
    var k2 := k1 + [Skipped];
    var k3 := k2 + [Kept(SAMPLE_START)];
    var k4 := k3 + [Kept(SAMPLE_FAIL)];
    LoadSnoc([], Skipped);
    assert [] + [Skipped] == k1;
    assert Load(k1) == Success([]);
    LoadSnoc(k1, Skipped);
    assert Load(k2) == Success([]);
    LoadSnoc(k2, Kept(SAMPLE_START));
    assert |k2| == 2 && [] + [Entry(SAMPLE_START, 3)] == [Entry(SAMPLE_START, 3)];
    assert Load(k3) == Success([Entry(SAMPLE_START, 3)]);
    LoadSnoc(k3, Kept(SAMPLE_FAIL));
    assert |k3| == 3;
    assert [Entry(SAMPLE_START, 3)] + [Entry(SAMPLE_FAIL, 4)] == [Entry(SAMPLE_START, 3), Entry(SAMPLE_FAIL, 4)];
    assert Load(k4) == Success([Entry(SAMPLE_START, 3), Entry(SAMPLE_FAIL, 4)]);
    assert k4 == [Skipped, Skipped, Kept(SAMPLE_START), Kept(SAMPLE_FAIL)];
  }

  lemma SampleLogScans()
    ensures var e1 := Entry(SAMPLE_START, 3);
      var e2 := Entry(SAMPLE_FAIL, 4);
      ScanAll([e1, e2]) == Scan(Some(Apply(NewTest(e1), e2)), []) && HasError(Apply(NewTest(e1), e2))
  {
    var e1 := Entry(SAMPLE_START, 3);
    var e2 := Entry(SAMPLE_FAIL, 4);
    assert Data(e1) == map["test_id" := JStr("T1")];
    assert Data(e2) == map["error" := JStr("E")];
    assert IsTestStart(e1) && !IsSessionEnd(e1);
    assert IsStepFail(e2) && !IsTestStart(e2) && !IsSessionEnd(e2);
    assert StepError(e2) == "E";
    assert [e1, e2][..1] == [e1];
    assert [e1][..0] == [];
    assert ScanFrom(Scan(None, []), [e1][..0]) == Scan(None, []);
    assert Step(Scan(None, []), e1) == Scan(Some(Apply(NewTest(e1), e1)), []);
    assert ScanAll([e1]) == Scan(Some(Apply(NewTest(e1), e1)), []);
    assert Apply(NewTest(e1), e1) == NewTest(e1);
  }

  /**
   * The written extraction reports the test of the sample log as starting
   * on line 3 and ending on line 2.
   */
  lemma AsWrittenEndsBeforeStart()
    ensures LoadedEntries(SAMPLE_LOG).Success?
    ensures var reported := ExtractedTestsAsWritten(LoadedEntries(SAMPLE_LOG).value);
      |reported| == 1 && reported[0].logStartLine == 3 && reported[0].logEndLine == 2
  {
    SampleLogLoads();
    SampleLogScans();
  }

  /** The corrected extraction ends the same test on line 4, the last line read. */
  lemma CorrectedEndsAtLastLine()
    ensures LoadedEntries(SAMPLE_LOG).Success?
    ensures var reported := ExtractedTests(LoadedEntries(SAMPLE_LOG).value);
      |reported| == 1 && reported[0].logStartLine == 3 && reported[0].logEndLine == 4
  {
    SampleLogLoads();
    SampleLogScans();
  }

  // ---------------------------------------------------------------------
  // Pattern-matching analysis (_fallback_analysis)
  // ---------------------------------------------------------------------

  datatype Category =
    | AppiumConnectionError | ElementNotFound | VerificationFailed | Timeout
    | LlmJudgmentError | AppCrash | SessionError | Unknown

  datatype Confidence = High | Medium | Low

  datatype Analysis = Analysis(category: Category, summary: string, rootCauses: seq<string>,
                               recommendations: seq<string>, confidence: Confidence)

  /** The bounds the analysis schema puts on its lists. */
  predicate WellFormed(a: Analysis)
  {
    1 <= |a.rootCauses| <= 3 && 1 <= |a.recommendations| <= 3
  }

  predicate ConnectionLost(error: string)
  {
    Contains(error, "cannot be proxied") || Contains(error, "instrumentation process")
  }

  predicate ElementMissing(error: string)
  {
    Contains(error, "NoSuchElement") || Contains(Lower(error), "not found")
  }

  /**
   * Classification of a failure without a model: connection loss first,
   * then a missing element, then a timeout, otherwise unknown; only a
   * connection loss is reported with high confidence.
   */
  function FallbackAnalysis(errorMessage: Option<string>): (a: Analysis)
    ensures WellFormed(a)
    ensures var error := if errorMessage.Some? then errorMessage.value else "";
      (a.category == AppiumConnectionError <==> ConnectionLost(error)) &&
      (a.category == ElementNotFound <==> !ConnectionLost(error) && ElementMissing(error)) &&
      (a.category == Timeout <==>
         !ConnectionLost(error) && !ElementMissing(error) && Contains(Lower(error), "timeout")) &&
      (a.category == Unknown <==>
         !ConnectionLost(error) && !ElementMissing(error) && !Contains(Lower(error), "timeout"))
    ensures a.confidence == High <==> a.category == AppiumConnectionError
    ensures a.confidence == Low <==> a.category == Unknown
  {
    var error := if errorMessage.Some? then errorMessage.value else "";
    if ConnectionLost(error) then
      Analysis(AppiumConnectionError, "Appiumサーバーとの通信が断絶しました",
               ["UiAutomator2のinstrumentationプロセスがクラッシュ", "Android端末との接続が不安定"],
               ["Android端末/エミュレータを再起動する", "Appiumサーバーを再起動する", "adb devicesで接続状態を確認する"],
               High)
    else if ElementMissing(error) then
      Analysis(ElementNotFound, "画面上で指定した要素が見つかりませんでした",
               ["要素のセレクターが正しくない", "画面遷移が完了していない", "要素が画面外にある"],
               ["要素のXPathやresource-idを確認する", "待機時間を増やす", "スクロールで要素を表示する"],
               Medium)
    else if Contains(Lower(error), "timeout") then
      Analysis(Timeout, "操作がタイムアウトしました", ["処理に時間がかかりすぎた"], ["タイムアウト値を増やす"], Medium)
    else
      Analysis(Unknown, "テストが失敗しました（詳細はログを確認）", ["詳細なログ確認が必要"],
               ["詳細ログを確認して原因を特定する"], Low)
  }

  /** `p` occurs in `s` at `i`, so the lower-cased `p` occurs in the lower-cased `s`. */
  lemma ContainsLower(s: string, p: string, i: int)
    requires OccursAt(s, p, i)
    ensures Contains(Lower(s), Lower(p))
  {
    assert Lower(s)[i..i + |p|] == Lower(p);
    assert OccursAt(Lower(s), Lower(p), i);
  }

  /** "timeouterror" contains "timeout". */
  lemma TimeoutInTimeoutError(s: string)
    requires Contains(Lower(s), "timeouterror")
    ensures Contains(Lower(s), "timeout")
  {
    var i :| 0 <= i <= |Lower(s)| - 12 && OccursAt(Lower(s), "timeouterror", i);
    assert Lower(s)[i..i + 7] == Lower(s)[i..i + 12][..7];
    assert OccursAt(Lower(s), "timeout", i);
  }

  /** A step classified as a timeout mentions "timeout" in some letter case. */
  lemma TimeoutStepMentionsTimeout(error: string)
    requires ClassifyError(error) == TimeoutError
    ensures Contains(Lower(error), "timeout")
  {
    if !Contains(Lower(error), "timeout") {
      NamedTimeoutMentionsTimeout(error);
    }
  }

  lemma LowerTimeoutError()
    ensures Lower("TimeoutError") == "timeouterror"
  {
  }

  /** A message naming `TimeoutError` mentions "timeout" once lower-cased. */
  lemma NamedTimeoutMentionsTimeout(error: string)
    requires Contains(error, "TimeoutError")
    ensures Contains(Lower(error), "timeout")
  {
    var i :| 0 <= i <= |error| - 12 && OccursAt(error, "TimeoutError", i);
    ContainsLower(error, "TimeoutError", i);
    LowerTimeoutError();
    TimeoutInTimeoutError(error);
  }

  /**
   * The step classification and the fallback analysis agree: a timeout
   * step is never analysed as unknown, and a missing-element step is
   * analysed as a connection loss or a missing element.
   */
  lemma ErrorTypeAgreesWithFallback(error: string)
    ensures ClassifyError(error) == TimeoutError ==> FallbackAnalysis(Some(error)).category != Unknown
    ensures ClassifyError(error) == NoSuchElementError ==>
              FallbackAnalysis(Some(error)).category in {AppiumConnectionError, ElementNotFound}
    ensures ClassifyError(error) == UnknownError ==> FallbackAnalysis(Some(error)).category != Timeout
  {
    if ClassifyError(error) == TimeoutError {
      TimeoutStepMentionsTimeout(error);
    }
  }

  // ---------------------------------------------------------------------
  // Display rules of a report section (_build_test_section)
  // ---------------------------------------------------------------------

  /** A failed step is shown as its first 50 characters and "..." when longer. */
  function StepDisplay(step: string): (r: string)
    ensures |step| <= 50 ==> r == step
    ensures |step| > 50 ==> |r| == 53 && StartsWith(r, step[..50]) && r[50..] == "..."
  {
    if |step| > 50 then step[..50] + "..." else step
  }

  /** Shortening a shown step again changes nothing. */
  lemma StepDisplayIdempotent(step: string)
    ensures StepDisplay(StepDisplay(step)) == StepDisplay(step)
  {
    if |step| > 50 {
      var r := StepDisplay(step);
      assert r[..50] == step[..50];
    }
  }

  /** `screenshots[-3:]`: the last three screenshots, or all of them when fewer. */
  function LastScreenshots(ss: seq<Screenshot>): (r: seq<Screenshot>)
    ensures |r| == if |ss| < 3 then |ss| else 3
    ensures r == ss[|ss| - |r|..]
  {
    if |ss| < 3 then ss else ss[|ss| - 3..]
  }

  /** A screenshot link shows its label, or "Screenshot" when it has none. */
  function ShownLabel(labelText: Option<string>): (r: string)
    ensures r != ""
    ensures labelText.Some? && labelText.value != "" ==> r == labelText.value
  {
    if labelText.Some? && labelText.value != "" then labelText.value else "Screenshot"
  }

  /** The failure time cell: shown only for a non-empty timestamp, as its clock part. */
  function FailureTime(t: FailedTest): (r: Option<string>)
    ensures r.Some? <==> t.failureTimestamp.Some? && t.failureTimestamp.value != ""
    ensures r.Some? && |t.failureTimestamp.value| >= 19 ==> r.value == t.failureTimestamp.value[11..19]
    ensures r.Some? && |t.failureTimestamp.value| < 19 ==> r.value == t.failureTimestamp.value
  {
    if t.failureTimestamp.Some? && t.failureTimestamp.value != "" then Some(TimeOfDay(t.failureTimestamp.value))
    else None
  }
}
