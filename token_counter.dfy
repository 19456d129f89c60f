// Token accounting for language-model calls: the pricing-key classifier of
// model names, the per-session counters with their invocation history, and
// the history of sessions shared by every counter.  Costs are floating
// point and are not modelled; only the integer token counts are.
module TokenCounter {
  import opened Wrappers
  import opened Text

  /** The keys of the pricing table. */
  const PRICING_KEYS: set<string> := {
    "gpt-5.1", "gpt-5", "gpt-5-mini", "gpt-5-nano", "gpt-5.1-chat-latest", "gpt-5-chat-latest",
    "gpt-5.1-codex", "gpt-5-codex", "gpt-5-pro",
    "gpt-4.1", "gpt-4.1-mini", "gpt-4.1-nano",
    "o1", "o1-pro", "o3", "o3-pro", "o3-deep-research", "o4-mini", "o4-mini-deep-research", "o3-mini", "o1-mini",
    "gpt-4o", "gpt-4o-mini", "gpt-4o-2024-05-13",
    "gpt-realtime", "gpt-realtime-mini",
    "gpt-4", "gpt-4-32k", "gpt-4-turbo",
    "gpt-3.5-turbo", "gpt-3.5-turbo-16k",
    "default"
  }

  /**
   * The substring tests of `_normalize_model_name`, in the order they are
   * tried; each pattern is also the key it maps to.
   */
  const MODEL_PATTERNS: seq<string> := [
    "gpt-5-pro", "gpt-5-nano", "gpt-5-mini", "gpt-5-chat-latest", "gpt-5-codex", "gpt-5",
    "gpt-4.1-nano", "gpt-4.1-mini", "gpt-4.1",
    "o4-mini-deep-research", "o4-mini", "o3-deep-research", "o3-pro", "o3-mini", "o3",
    "o1-pro", "o1-mini", "o1",
    "gpt-4o-mini", "gpt-4o-2024-05-13", "gpt-4o",
    "gpt-realtime-mini", "gpt-realtime",
    "gpt-4-turbo", "gpt-4-32k", "gpt-4",
    "gpt-3.5-turbo-16k", "gpt-3.5-turbo"
  ]

  const DEFAULT_KEY: string := "default"

  /** The first of `patterns`, from position `from` on, that occurs in `s`; "default" when none does. */
  function FirstMatch(s: string, patterns: seq<string>, from: nat): (r: string)
    requires from <= |patterns|
    requires DEFAULT_KEY !in patterns
    ensures r == DEFAULT_KEY <==> forall k :: from <= k < |patterns| ==> !Contains(s, patterns[k])
    ensures r != DEFAULT_KEY ==>
      exists k :: (from <= k < |patterns| && r == patterns[k] && Contains(s, r)
                   && forall j :: from <= j < k ==> !Contains(s, patterns[j]))
    decreases |patterns| - from
  {
    if from == |patterns| then DEFAULT_KEY
    else if Contains(s, patterns[from]) then patterns[from]
    else FirstMatch(s, patterns, from + 1)
  }

  /** The name as the classifier sees it: lower-cased, then stripped of surrounding whitespace. */
  function Canonical(name: string): string
  {
    Strip(Lower(name))
  }

  /**
   * `_normalize_model_name`: an exact pricing key is returned as it is;
   * otherwise the first pattern the name contains, or "default".
   */
  function NormalizeModelName(name: string): string
  {
    ClassifyCanonical(Canonical(name))
  }

  /** The classification of a name already lower-cased and stripped. */
  function ClassifyCanonical(lower: string): string
  {
    PatternsAreNotDefault();
    if lower in PRICING_KEYS then lower else FirstMatch(lower, MODEL_PATTERNS, 0)
  }

  /** Every pattern is itself a key of the pricing table. */
  lemma PatternsArePricingKeys()
    ensures forall j :: 0 <= j < |MODEL_PATTERNS| ==> MODEL_PATTERNS[j] in PRICING_KEYS
  {
  }

  /** Every result of the classifier is a key of the pricing table. */
  lemma NormalizeGivesPricingKey(name: string)
    ensures NormalizeModelName(name) in PRICING_KEYS
  {
    CanonicalGivesPricingKey(Canonical(name));
  }

  lemma CanonicalGivesPricingKey(lower: string)
    ensures ClassifyCanonical(lower) in PRICING_KEYS
  {
    PatternsAreNotDefault();
    if lower !in PRICING_KEYS {
      var r := FirstMatch(lower, MODEL_PATTERNS, 0);
      if r != DEFAULT_KEY {
        PatternsArePricingKeys();
        var k :| 0 <= k < |MODEL_PATTERNS| && r == MODEL_PATTERNS[k];
        assert MODEL_PATTERNS[k] in PRICING_KEYS;
      }
    }
  }

  /** A name that contains pattern `i` is classified by pattern `i` or by one tried before it. */
  lemma {:induction false} FirstMatchNoLaterThan(s: string, patterns: seq<string>, from: nat, i: nat)
    requires from <= i < |patterns| && Contains(s, patterns[i])
    requires DEFAULT_KEY !in patterns
    ensures FirstMatch(s, patterns, from) in patterns[from..i + 1]
    decreases i - from
  {
    if Contains(s, patterns[from]) {
      assert patterns[from..i + 1][0] == patterns[from];
    } else {
      FirstMatchNoLaterThan(s, patterns, from + 1, i);
      assert patterns[from..i + 1] == [patterns[from]] + patterns[from + 1..i + 1];
    }
  }

  lemma PatternsAreNotDefault()
    ensures DEFAULT_KEY !in MODEL_PATTERNS
  {
  }

  /** `p in s` needs `s` at least as long as `p`. */
  lemma ContainsNeedsLength(s: string, p: string)
    ensures Contains(s, p) ==> |p| <= |s|
  {
  }

  /** "gpt-5-pro" is tested before "gpt-5": a pro name is never priced as plain gpt-5. */
  lemma ProNameNotPlainGpt5(name: string)
    requires Contains(Canonical(name), "gpt-5-pro")
    ensures NormalizeModelName(name) != "gpt-5"
  {
    var lower := Canonical(name);
    ContainsNeedsLength(lower, "gpt-5-pro");
    ProMatch(lower);
  }

  lemma ProMatch(lower: string)
    requires Contains(lower, "gpt-5-pro")
    ensures FirstMatch(lower, MODEL_PATTERNS, 0) == "gpt-5-pro"
  {
    assert MODEL_PATTERNS[0] == "gpt-5-pro";
  }

  /** The patterns tried before "o4-mini" and before "gpt-4". */
  lemma EarlyPatterns()
    ensures "o4-mini" !in MODEL_PATTERNS[0..10]
    ensures "gpt-4" !in MODEL_PATTERNS[0..21]
  {
    assert MODEL_PATTERNS[..10] == ["gpt-5-pro", "gpt-5-nano", "gpt-5-mini", "gpt-5-chat-latest", "gpt-5-codex",
                                    "gpt-5", "gpt-4.1-nano", "gpt-4.1-mini", "gpt-4.1", "o4-mini-deep-research"];
    assert MODEL_PATTERNS[..21] == MODEL_PATTERNS[..10]
      + ["o4-mini", "o3-deep-research", "o3-pro", "o3-mini", "o3", "o1-pro", "o1-mini", "o1",
         "gpt-4o-mini", "gpt-4o-2024-05-13", "gpt-4o"];
  }

  lemma DeepResearchMatch(lower: string)
    requires Contains(lower, "o4-mini-deep-research")
    ensures FirstMatch(lower, MODEL_PATTERNS, 0) != "o4-mini"
  {
    PatternsAreNotDefault();
    assert MODEL_PATTERNS[9] == "o4-mini-deep-research";
    FirstMatchNoLaterThan(lower, MODEL_PATTERNS, 0, 9);
    EarlyPatterns();
  }

  lemma Gpt4oMatch(lower: string)
    requires Contains(lower, "gpt-4o")
    ensures FirstMatch(lower, MODEL_PATTERNS, 0) != "gpt-4"
  {
    PatternsAreNotDefault();
    assert MODEL_PATTERNS[20] == "gpt-4o";
    FirstMatchNoLaterThan(lower, MODEL_PATTERNS, 0, 20);
    EarlyPatterns();
  }

  /** "o4-mini-deep-research" is tested before "o4-mini". */
  lemma DeepResearchNotPlainO4Mini(name: string)
    requires Contains(Canonical(name), "o4-mini-deep-research")
    ensures NormalizeModelName(name) != "o4-mini"
  {
    var lower := Canonical(name);
    ContainsNeedsLength(lower, "o4-mini-deep-research");
    DeepResearchMatch(lower);
  }

  /** The gpt-4o family is tested before "gpt-4". */
  lemma Gpt4oNotPlainGpt4(name: string)
    requires Contains(Canonical(name), "gpt-4o")
    ensures NormalizeModelName(name) != "gpt-4"
  {
    var lower := Canonical(name);
    ContainsNeedsLength(lower, "gpt-4o");
    Gpt4oMatch(lower);
  }

  // ---------------------------------------------------------------------
  // The response of a model call
  // ---------------------------------------------------------------------

  /** `prompt_tokens_details` of `token_usage`: absent, present as None, or a dict of counts. */
  datatype PromptDetails =
    | DetailsAbsent
    | DetailsNull
    | DetailsDict(counts: map<string, Option<int>>)

  /**
   * `token_usage`: every key besides `prompt_tokens_details`, with its
   * integer count or None for a JSON null, and `prompt_tokens_details`.
   */
  datatype TokenUsage = TokenUsage(counts: map<string, Option<int>>, promptDetails: PromptDetails)

  /**
   * `llm_output`: its `token_usage` entry when that holds a dict, and
   * whether the dict has any other key; a `token_usage` key holding None
   * counts as another key, so `{"token_usage": None}` is truthy and reaches
   * the token_usage error.
   */
  datatype LlmOutput = LlmOutput(tokenUsage: Option<TokenUsage>, otherKeys: bool)

  datatype LlmResult = LlmResult(llmOutput: Option<LlmOutput>)

  predicate TruthyOutput(o: Option<LlmOutput>)
  {
    o.Some? && (o.value.tokenUsage.Some? || o.value.otherKeys)
  }

  predicate TruthyUsage(u: Option<TokenUsage>)
  {
    u.Some? && (u.value.counts != map[] || !u.value.promptDetails.DetailsAbsent?)
  }

  /** `d.get(key, 0)`, None when the key holds None. */
  function GetCount(d: map<string, Option<int>>, key: string): Option<int>
  {
    if key in d then d[key] else Some(0)
  }

  function PromptTokens(u: TokenUsage): Option<int>
  {
    GetCount(u.counts, "prompt_tokens")
  }

  function CompletionTokens(u: TokenUsage): Option<int>
  {
    GetCount(u.counts, "completion_tokens")
  }

  /** `token_usage.get('prompt_tokens_details', {}).get('cached_tokens', 0)`, for details that are not None. */
  function CachedTokens(u: TokenUsage): Option<int>
  {
    match u.promptDetails
    case DetailsDict(d) => GetCount(d, "cached_tokens")
    case _ => Some(0)
  }

  /** Every count `on_llm_end` adds is a number. */
  predicate Countable(u: TokenUsage)
  {
    !u.promptDetails.DetailsNull? && PromptTokens(u).Some? && CachedTokens(u).Some? && CompletionTokens(u).Some?
  }

  /** A None count that `on_llm_end` reaches after it has already added the prompt tokens. */
  predicate PartlyCounted(u: TokenUsage)
  {
    !u.promptDetails.DetailsNull? && PromptTokens(u).Some? && (CachedTokens(u).None? || CompletionTokens(u).None?)
  }

  /** A response on which `on_llm_end` raises after some counter has grown. */
  predicate CountersAhead(r: LlmResult)
  {
    TruthyOutput(r.llmOutput) && TruthyUsage(r.llmOutput.value.tokenUsage)
    && PartlyCounted(r.llmOutput.value.tokenUsage.value)
  }

  /** Python's messages for `None.get(...)`, `int += None` and `int + None`. */
  const NONE_GET_ERROR: string := "'NoneType' object has no attribute 'get'"
  const AUGMENTED_ADD_ERROR: string := "unsupported operand type(s) for +=: 'int' and 'NoneType'"
  const ADD_ERROR: string := "unsupported operand type(s) for +: 'int' and 'NoneType'"

  /** One entry of `invocation_history` (its cost fields are left out). */
  datatype InvocationRecord = InvocationRecord(
    invocationId: int, timestamp: int, model: string,
    inputTokens: int, cachedTokens: int, outputTokens: int, totalTokens: int)

  function SumInput(h: seq<InvocationRecord>): int
  {
    if h == [] then 0 else SumInput(h[..|h| - 1]) + h[|h| - 1].inputTokens
  }

  function SumCached(h: seq<InvocationRecord>): int
  {
    if h == [] then 0 else SumCached(h[..|h| - 1]) + h[|h| - 1].cachedTokens
  }

  function SumOutput(h: seq<InvocationRecord>): int
  {
    if h == [] then 0 else SumOutput(h[..|h| - 1]) + h[|h| - 1].outputTokens
  }

  function SumTotal(h: seq<InvocationRecord>): int
  {
    if h == [] then 0 else SumTotal(h[..|h| - 1]) + h[|h| - 1].totalTokens
  }

  predicate RecordTotalsOk(h: seq<InvocationRecord>)
  {
    forall k :: 0 <= k < |h| ==> h[k].totalTokens == h[k].inputTokens + h[k].outputTokens
  }

  /** Over records whose totals are input + output, the summed totals are the summed inputs plus outputs. */
  lemma {:induction false} SumTotalSplits(h: seq<InvocationRecord>)
    requires RecordTotalsOk(h)
    ensures SumTotal(h) == SumInput(h) + SumOutput(h)
  {
    if h != [] {
      SumTotalSplits(h[..|h| - 1]);
    }
  }

  /** The integer part of `get_invocations_summary`. */
  datatype InvocationsSummary = InvocationsSummary(
    totalInvocations: nat, totalInputTokens: int, totalCachedTokens: int, totalOutputTokens: int, totalTokens: int)

  function Summarize(h: seq<InvocationRecord>): (r: InvocationsSummary)
    ensures r.totalInvocations == |h|
    ensures r.totalTokens == r.totalInputTokens + r.totalOutputTokens
    ensures h == [] ==> r == InvocationsSummary(0, 0, 0, 0, 0)
  {
    if h == [] then InvocationsSummary(0, 0, 0, 0, 0)
    else InvocationsSummary(|h|, SumInput(h), SumCached(h), SumOutput(h), SumInput(h) + SumOutput(h))
  }

  /** One entry of the global history. */
  datatype SessionRecord = SessionRecord(
    sessionLabel: string, timestamp: int,
    totalInvocations: nat, totalInputTokens: int, totalCachedTokens: int, totalOutputTokens: int, totalTokens: int,
    invocations: seq<InvocationRecord>)

  /** The class-level `_global_history`, shared by every counter. */
  class GlobalHistory {
    var sessions: seq<SessionRecord>

    constructor ()
      ensures sessions == []
    {
      sessions := [];
    }

    /** `reset_global_history` */
    method Reset()
      modifies this
      ensures sessions == []
    {
      sessions := [];
    }
  }

  function SessionsInvocations(s: seq<SessionRecord>): int
  {
    if s == [] then 0 else SessionsInvocations(s[..|s| - 1]) + s[|s| - 1].totalInvocations
  }

  function SessionsInput(s: seq<SessionRecord>): int
  {
    if s == [] then 0 else SessionsInput(s[..|s| - 1]) + s[|s| - 1].totalInputTokens
  }

  function SessionsCached(s: seq<SessionRecord>): int
  {
    if s == [] then 0 else SessionsCached(s[..|s| - 1]) + s[|s| - 1].totalCachedTokens
  }

  function SessionsOutput(s: seq<SessionRecord>): int
  {
    if s == [] then 0 else SessionsOutput(s[..|s| - 1]) + s[|s| - 1].totalOutputTokens
  }

  /** The integer part of `get_global_summary`. */
  datatype GlobalSummary = GlobalSummary(
    totalSessions: nat, totalInvocations: int, totalInputTokens: int, totalCachedTokens: int,
    totalOutputTokens: int, totalTokens: int)

  function SummarizeSessions(s: seq<SessionRecord>): (r: GlobalSummary)
    ensures r.totalSessions == |s|
    ensures r.totalTokens == r.totalInputTokens + r.totalOutputTokens
  {
    if s == [] then GlobalSummary(0, 0, 0, 0, 0, 0)
    else GlobalSummary(|s|, SessionsInvocations(s), SessionsInput(s), SessionsCached(s), SessionsOutput(s),
                       SessionsInput(s) + SessionsOutput(s))
  }

  /** Saving a session adds its totals to the global summary and nothing else. */
  lemma SaveAddsToGlobalSummary(s: seq<SessionRecord>, rec: SessionRecord)
    ensures var before := SummarizeSessions(s);
      var after := SummarizeSessions(s + [rec]);
      after.totalSessions == before.totalSessions + 1
      && after.totalInvocations == before.totalInvocations + rec.totalInvocations
      && after.totalInputTokens == before.totalInputTokens + rec.totalInputTokens
      && after.totalCachedTokens == before.totalCachedTokens + rec.totalCachedTokens
      && after.totalOutputTokens == before.totalOutputTokens + rec.totalOutputTokens
  {
    assert (s + [rec])[..|s|] == s;
    if s == [] {
      assert SessionsInvocations([rec]) == rec.totalInvocations;
      assert SessionsInput([rec]) == rec.totalInputTokens;
      assert SessionsCached([rec]) == rec.totalCachedTokens;
      assert SessionsOutput([rec]) == rec.totalOutputTokens;
    }
  }

  /** The label of a saved session: the given one, or "Session n" numbered after the saved ones. */
  function SessionLabel(given: Option<string>, saved: nat): (r: string)
    ensures given.Some? && given.value != [] ==> r == given.value
    ensures !(given.Some? && given.value != []) ==> StartsWith(r, "Session ") && r[8..] == NatToString(saved + 1)
  {
    if given.Some? && given.value != "" then given.value else "Session " + NatToString(saved + 1)
  }

  // ---------------------------------------------------------------------
  // The counter
  // ---------------------------------------------------------------------

  /** `TiktokenCountCallback` */
  class TokenCountCallback {
    var model: string
    var inputTokens: int
    var cachedTokens: int
    var outputTokens: int
    var history: seq<InvocationRecord>
    var currentInvocationId: int
    const global: GlobalHistory

    /**
     * The counters are the sums over the session's history, every record's
     * total is its input plus output, and records carry non-decreasing ids
     * no greater than the current one.
     */
    ghost predicate Valid()
      reads this
    {
      inputTokens == SumInput(history) && cachedTokens == SumCached(history) && outputTokens == SumOutput(history)
      && RecordTotalsOk(history)
      && (forall i, j :: 0 <= i < j < |history| ==> history[i].invocationId <= history[j].invocationId)
      && (forall k :: 0 <= k < |history| ==> history[k].invocationId <= currentInvocationId)
    }

    constructor (model: string, global: GlobalHistory)
      ensures Valid()
      ensures this.model == model && this.global == global
      ensures inputTokens == 0 && cachedTokens == 0 && outputTokens == 0 && history == [] && currentInvocationId == 0
    {
      this.model := model;
      this.global := global;
      inputTokens := 0;
      cachedTokens := 0;
      outputTokens := 0;
      history := [];
      currentInvocationId := 0;
    }

    /** `total_tokens` */
    function TotalTokens(): int
      reads this
    {
      inputTokens + outputTokens
    }

    /** With the counters valid, `total_tokens` is the sum of the recorded totals. */
    lemma TotalTokensIsHistoryTotal()
      requires Valid()
      ensures TotalTokens() == SumTotal(history)
    {
      SumTotalSplits(history);
    }

    /** `on_llm_start`: a new invocation id. */
    method OnLlmStart()
      modifies this
      ensures currentInvocationId == old(currentInvocationId) + 1
      ensures inputTokens == old(inputTokens) && cachedTokens == old(cachedTokens) && outputTokens == old(outputTokens)
      ensures history == old(history) && model == old(model)
      ensures old(Valid()) ==> Valid()
    {
      currentInvocationId := currentInvocationId + 1;
    }

    /**
     * `on_llm_end`: a response without `llm_output` or `token_usage` is a
     * ValueError; otherwise the prompt, cached and completion counts (0 when
     * absent) are added to the counters and one record with the current id
     * is appended.  A `prompt_tokens_details` of None fails on `.get`, and a
     * count of None fails where it is added; the counters added before that
     * keep their new values, and no record is appended.
     */
    method OnLlmEnd(response: LlmResult, now: int) returns (error: Option<string>)
      modifies this
      ensures !TruthyOutput(response.llmOutput) ==> error == Some("APIレスポンスにllm_outputが含まれていません") && unchanged(this)
      ensures TruthyOutput(response.llmOutput) && !TruthyUsage(response.llmOutput.value.tokenUsage) ==>
        error == Some("APIレスポンスにtoken_usageが含まれていません") && unchanged(this)
      ensures TruthyOutput(response.llmOutput) && TruthyUsage(response.llmOutput.value.tokenUsage) ==>
        var u := response.llmOutput.value.tokenUsage.value;
        currentInvocationId == old(currentInvocationId) && model == old(model)
        && (u.promptDetails.DetailsNull? ==> error == Some(NONE_GET_ERROR) && unchanged(this))
        && (!u.promptDetails.DetailsNull? && PromptTokens(u).None? ==> error == Some(AUGMENTED_ADD_ERROR) && unchanged(this))
        && (PartlyCounted(u) ==>
              error == Some(if CachedTokens(u).None? then ADD_ERROR else AUGMENTED_ADD_ERROR)
              && inputTokens == old(inputTokens) + PromptTokens(u).value
              && cachedTokens == (if CachedTokens(u).None? then old(cachedTokens) else old(cachedTokens) + CachedTokens(u).value)
              && outputTokens == old(outputTokens) && history == old(history))
        && (Countable(u) ==>
              var p := PromptTokens(u).value;
              var cached := CachedTokens(u).value;
              var c := CompletionTokens(u).value;
              error == None
              && inputTokens == old(inputTokens) + p && cachedTokens == old(cachedTokens) + cached
              && outputTokens == old(outputTokens) + c
              && history == old(history) + [InvocationRecord(currentInvocationId, now, model, p, cached, c, p + c)])
      ensures old(Valid()) && !CountersAhead(response) ==> Valid()
    {
      if !TruthyOutput(response.llmOutput) {
        return Some("APIレスポンスにllm_outputが含まれていません");
      }
      var usage := response.llmOutput.value.tokenUsage;
      if !TruthyUsage(usage) {
        return Some("APIレスポンスにtoken_usageが含まれていません");
      }
      var u := usage.value;
      var promptTokens := PromptTokens(u);
      var completionTokens := CompletionTokens(u);
      if u.promptDetails.DetailsNull? {
        return Some(NONE_GET_ERROR);
      }
      var cached := CachedTokens(u);
      if promptTokens.None? {
        return Some(AUGMENTED_ADD_ERROR);
      }
      inputTokens := inputTokens + promptTokens.value;
      if cached.None? {
        return Some(ADD_ERROR);
      }
      cachedTokens := cachedTokens + cached.value;
      if completionTokens.None? {
        return Some(AUGMENTED_ADD_ERROR);
      }
      outputTokens := outputTokens + completionTokens.value;
      var rec := InvocationRecord(currentInvocationId, now, model, promptTokens.value, cached.value,
                                  completionTokens.value, promptTokens.value + completionTokens.value);
      history := history + [rec];
      assert history[..|history| - 1] == old(history);
      return None;
    }

    /** `reset_counters`: the session starts over; the global history is another object and stays as it is. */
    method ResetCounters()
      modifies this
      ensures inputTokens == 0 && cachedTokens == 0 && outputTokens == 0 && history == [] && currentInvocationId == 0
      ensures model == old(model)
      ensures Valid()
    {
      inputTokens := 0;
      cachedTokens := 0;
      outputTokens := 0;
      history := [];
      currentInvocationId := 0;
    }

    /** `get_invocation_by_id`: the first record with that id, or None. */
    method GetInvocationById(id: int) returns (r: Option<InvocationRecord>)
      ensures r.None? <==> forall k :: 0 <= k < |history| ==> history[k].invocationId != id
      ensures r.Some? ==> exists k :: (0 <= k < |history| && history[k] == r.value
                                       && r.value.invocationId == id
                                       && forall j :: 0 <= j < k ==> history[j].invocationId != id)
    {
      var i := 0;
      while i < |history|
        invariant 0 <= i <= |history|
        invariant forall j :: 0 <= j < i ==> history[j].invocationId != id
      {
        if history[i].invocationId == id {
          return Some(history[i]);
        }
        i := i + 1;
      }
      return None;
    }

    /** `get_latest_invocation` */
    function LatestInvocation(): (r: Option<InvocationRecord>)
      reads this
      ensures r.None? <==> history == []
      ensures r.Some? ==> r.value == history[|history| - 1]
    {
      if history == [] then None else Some(history[|history| - 1])
    }

    /** `get_invocations_summary`, integer part: with the counters valid, its totals are the counters. */
    function GetInvocationsSummary(): (r: InvocationsSummary)
      reads this
      ensures r.totalInvocations == |history|
      ensures Valid() && history != [] ==>
        r.totalInputTokens == inputTokens && r.totalCachedTokens == cachedTokens
        && r.totalOutputTokens == outputTokens && r.totalTokens == TotalTokens()
    {
      Summarize(history)
    }

    /**
     * `save_session_to_global`: nothing for an empty session; otherwise one
     * session record with the session's totals and a copy of its history.
     */
    method SaveSessionToGlobal(given: Option<string>, now: int)
      modifies global
      ensures history == [] ==> global.sessions == old(global.sessions)
      ensures history != [] ==>
        var s := Summarize(history);
        global.sessions == old(global.sessions)
          + [SessionRecord(SessionLabel(given, |old(global.sessions)|), now, s.totalInvocations, s.totalInputTokens,
                           s.totalCachedTokens, s.totalOutputTokens, s.totalTokens, history)]
    {
      if history == [] {
        return;
      }
      var s := Summarize(history);
      var rec := SessionRecord(SessionLabel(given, |global.sessions|), now, s.totalInvocations, s.totalInputTokens,
                               s.totalCachedTokens, s.totalOutputTokens, s.totalTokens, history);
      global.sessions := global.sessions + [rec];
    }
  }
}
