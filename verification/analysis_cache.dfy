/** `analyze_stock`: the ten-minute response cache keyed by the upper-cased
    symbol, in front of the fetch tool, the analysis agent and the report writer.
    The cache is an object whose map the call updates in place; the clock, the
    provider and both LLM stages are inputs. */
module AnalysisCache {
  import opened Wrappers
  import opened Strings
  import opened MarketData
  import opened FetchTool
  import opened Report

  /** CACHE_EXPIRY, in seconds. */
  const CacheExpiry: real := 600.0

  /** A cached answer: the time the computing call started, the report, and the
      parsed tool data. */
  datatype Entry = Entry(createdAt: real, report: string, data: Snapshot)

  /** How one LLM stage (the analysis agent's run, the writer chain's run) ends. */
  datatype StageOutcome = Completed(text: string) | StageRaise(message: string)

  /** What the outside world answers while one fresh report is computed: the
      provider's answers to the tool's attempts and the tool's clock, both LLM
      stages, and the day the writer chain reads for its date. */
  datatype Upstream = Upstream(attempts: seq<Attempt>, clock: Clock, agent: StageOutcome, writer: StageOutcome, today: Date)

  predicate ValidUpstream(up: Upstream) {
    ValidScript(up.attempts) && ValidClock(up.clock) && ValidDate(up.today)
  }

  /** An HTTP error response: status code and detail text. */
  datatype HttpError = HttpError(status: nat, detail: string)

  /** The 500 error `analyze_stock` raises for any failure inside its `try`. */
  const FailurePrefix := "Error analyzing stock: "

  function AnalysisFailure(message: string): (e: HttpError)
    ensures e.status == 500
    ensures e.detail == FailurePrefix + message
  {
    HttpError(500, FailurePrefix + message)
  }

  /** Message of the JSONDecodeError `json.loads` raises on the tool's plain-text messages. */
  const JsonDecodeError := "Expecting value: line 1 column 1 (char 0)"

  /** Whether a JSON decoder can start reading a value at the front of `t`:
      an object, array, string or number, a literal, or Python's `NaN` and
      `Infinity` extensions. */
  predicate StartsJsonValue(t: string) {
    |t| > 0 &&
    (t[0] in "{[\"-0123456789" || StartsWith(t, "true") || StartsWith(t, "false") || StartsWith(t, "null") ||
     StartsWith(t, "NaN") || StartsWith(t, "Infinity"))
  }

  /** The text `json.loads` refuses at its very first character, which is what
      "line 1 column 1 (char 0)" reports. */
  predicate RejectedAtStart(t: string) {
    |t| > 0 && t[0] !in " \t\n\r" && !StartsJsonValue(t)
  }

  /** `json.loads` of the tool's result: only the snapshot is JSON. Each of the
      tool's plain-text messages is refused at its first character. */
  function ParseToolOutput(o: ToolOutput): (r: Result<Snapshot, string>)
    ensures r.Ok? <==> o.Data?
    ensures r.Ok? ==> r.value == o.snapshot
    ensures r.Err? ==> r.error == JsonDecodeError && RejectedAtStart(Message(o))
  {
    if o.Data? then Ok(o.snapshot)
    else
      LetterStartIsRejected(Message(o));
      Err(JsonDecodeError)
  }

  lemma LetterStartIsRejected(t: string)
    requires |t| >= 2 && ((t[0] == 'N' && t[1] == 'o') || t[0] == 'E' || t[0] == 'F')
    ensures RejectedAtStart(t)
  {
    assert t[0] !in "{[\"-0123456789";
  }

  /** The `try` block: fetch and parse the data, run the agent and the writer, and
      post-process the report. Succeeds exactly when the tool produced data and
      both stages completed; the report then carries no date placeholder. */
  function Compute(symbol: string, up: Upstream): (r: Result<(string, Snapshot), string>)
    requires ValidUpstream(up)
    ensures r.Ok? <==> Fetch(symbol, up.attempts, up.clock).Data? && up.agent.Completed? && up.writer.Completed?
    ensures r.Ok? ==> r.value.1 == Fetch(symbol, up.attempts, up.clock).snapshot
    ensures r.Ok? ==> r.value.0 == PostProcess(up.writer.text, LongDate(up.today))
    ensures r.Ok? ==> NoPlaceholder(r.value.0)
    ensures !Fetch(symbol, up.attempts, up.clock).Data? ==> r == Err(JsonDecodeError)
    ensures Fetch(symbol, up.attempts, up.clock).Data? && up.agent.StageRaise? ==> r == Err(up.agent.message)
    ensures Fetch(symbol, up.attempts, up.clock).Data? && up.agent.Completed? && up.writer.StageRaise? ==>
              r == Err(up.writer.message)
  {
    match ParseToolOutput(Fetch(symbol, up.attempts, up.clock))
    case Err(m) => Err(m)
    case Ok(data) =>
      match up.agent
      case StageRaise(m) => Err(m)
      case Completed(_) =>
        match up.writer
        case StageRaise(m) => Err(m)
        case Completed(text) =>
          Ok((PostProcess(text, LongDate(up.today)), data))
  }

  /** Whether `e` may be served at time `now`: strictly younger than the expiry. */
  predicate Unexpired(e: Entry, now: real) {
    now - e.createdAt < CacheExpiry
  }

  /** What one call does: the new cache contents, the answer, and whether the
      fetch-and-write work ran. */
  datatype Outcome = Outcome(entries: map<string, Entry>, result: Result<(string, Snapshot), HttpError>, computed: bool)

  /** One call of `analyze_stock(symbol, force_refresh)` started at time `now`,
      as a function of the cache contents before it. */
  function AnalyzeOutcome(entries: map<string, Entry>, symbol: string, forceRefresh: bool, now: real, up: Upstream): Outcome
    requires ValidUpstream(up)
  {
    var key := Upper(symbol);
    var kept := if forceRefresh && key in entries then entries - {key} else entries;
    if !forceRefresh && key in kept && Unexpired(kept[key], now) then
      Outcome(kept, Ok((kept[key].report, kept[key].data)), false)
    else
      match Compute(symbol, up)
      case Ok(pair) => Outcome(kept[key := Entry(now, pair.0, pair.1)], Ok(pair), true)
      case Err(m) => Outcome(kept, Err(AnalysisFailure(m)), true)
  }

  /** Keys are upper-case and no cached report carries a date placeholder. */
  ghost predicate CacheInvariant(entries: map<string, Entry>) {
    forall k :: k in entries ==> Upper(k) == k && NoPlaceholder(entries[k].report)
  }

  /** The work is skipped exactly when the call is not forced and an unexpired
      entry exists; the entry is then served as it is and the cache is untouched. */
  lemma CacheHitIffUnexpired(entries: map<string, Entry>, symbol: string, forceRefresh: bool, now: real, up: Upstream)
    requires ValidUpstream(up)
    ensures var key := Upper(symbol);
            var o := AnalyzeOutcome(entries, symbol, forceRefresh, now, up);
            !o.computed <==> !forceRefresh && key in entries && Unexpired(entries[key], now)
    ensures var key := Upper(symbol);
            var o := AnalyzeOutcome(entries, symbol, forceRefresh, now, up);
            !o.computed ==> o.entries == entries && o.result == Ok((entries[key].report, entries[key].data))
  {
  }

  /** A computed call stores, on success, the start time, the post-processed
      report and the parsed data under the key, and answers with exactly what it
      stored; on failure it stores nothing, leaving the entry deleted if forced,
      and answers with a 500 error. */
  lemma ComputedCallStoresOnlySuccess(entries: map<string, Entry>, symbol: string, forceRefresh: bool, now: real, up: Upstream)
    requires ValidUpstream(up)
    requires AnalyzeOutcome(entries, symbol, forceRefresh, now, up).computed
    ensures var key := Upper(symbol);
            var o := AnalyzeOutcome(entries, symbol, forceRefresh, now, up);
            match Compute(symbol, up)
            case Ok(pair) =>
              key in o.entries && o.entries[key] == Entry(now, pair.0, pair.1) &&
              o.result == Ok((o.entries[key].report, o.entries[key].data))
            case Err(m) =>
              o.result == Err(AnalysisFailure(m)) && o.result.error.status == 500 &&
              o.entries == (if forceRefresh then entries - {key} else entries)
  {
  }

  /** A forced call never answers from the cache: the work always runs. */
  lemma ForcedCallAlwaysComputes(entries: map<string, Entry>, symbol: string, now: real, up: Upstream)
    requires ValidUpstream(up)
    ensures AnalyzeOutcome(entries, symbol, true, now, up).computed
    ensures Upper(symbol) in entries && Compute(symbol, up).Err? ==>
              Upper(symbol) !in AnalyzeOutcome(entries, symbol, true, now, up).entries
  {
  }

  /** Entries under every other key are left exactly as they were. */
  lemma OtherKeysUnchanged(entries: map<string, Entry>, symbol: string, forceRefresh: bool, now: real, up: Upstream, k: string)
    requires ValidUpstream(up) && k != Upper(symbol)
    ensures var o := AnalyzeOutcome(entries, symbol, forceRefresh, now, up);
            (k in o.entries <==> k in entries) && (k in entries ==> o.entries[k] == entries[k])
  {
  }

  /** Symbols that differ only in letter case share one entry: a hit for one is
      the same hit for the other. */
  lemma CaseInsensitiveHit(entries: map<string, Entry>, a: string, b: string, now: real, upA: Upstream, upB: Upstream)
    requires ValidUpstream(upA) && ValidUpstream(upB) && Upper(a) == Upper(b)
    requires !AnalyzeOutcome(entries, a, false, now, upA).computed
    ensures AnalyzeOutcome(entries, b, false, now, upB) == AnalyzeOutcome(entries, a, false, now, upA)
  {
  }

  /** Asking again within ten minutes of a successful computation, without
      forcing, gives the same report and data and runs no work. */
  lemma RepeatWithinExpiryIsServed(entries: map<string, Entry>, a: string, b: string, t1: real, t2: real,
                                   up1: Upstream, up2: Upstream)
    requires ValidUpstream(up1) && ValidUpstream(up2) && Upper(a) == Upper(b)
    requires t1 <= t2 < t1 + CacheExpiry
    requires var o := AnalyzeOutcome(entries, a, false, t1, up1); o.computed && o.result.Ok?
    ensures var o1 := AnalyzeOutcome(entries, a, false, t1, up1);
            var o2 := AnalyzeOutcome(o1.entries, b, false, t2, up2);
            !o2.computed && o2.result == o1.result && o2.entries == o1.entries
  {
  }

  /** Every call keeps the cache invariant, and every report it answers with is
      free of date placeholders. */
  lemma AnalyzeKeepsInvariant(entries: map<string, Entry>, symbol: string, forceRefresh: bool, now: real, up: Upstream)
    requires ValidUpstream(up) && CacheInvariant(entries)
    ensures var o := AnalyzeOutcome(entries, symbol, forceRefresh, now, up);
            CacheInvariant(o.entries) && (o.result.Ok? ==> NoPlaceholder(o.result.value.0))
  {
    UpperIdempotent(symbol);
  }

  /** The module-level `analysis_cache` dictionary with the `analyze_stock`
      function that reads and writes it. `computations` counts the calls that ran
      the fetch, agent and writer work. */
  class Cache {
    var entries: map<string, Entry>
    ghost var computations: nat

    ghost predicate Valid()
      reads this
    {
      CacheInvariant(entries)
    }

    constructor ()
      ensures Valid() && entries == map[] && computations == 0
    {
      entries := map[];
      computations := 0;
    }

    /** `analyze_stock(symbol, force_refresh)`, started at time `now`. */
    method AnalyzeStock(symbol: string, forceRefresh: bool, now: real, up: Upstream)
      returns (r: Result<(string, Snapshot), HttpError>)
      requires Valid() && ValidUpstream(up)
      modifies this
      ensures Valid()
      ensures var o := AnalyzeOutcome(old(entries), symbol, forceRefresh, now, up);
              entries == o.entries && r == o.result &&
              computations == old(computations) + (if o.computed then 1 else 0)
    {
      AnalyzeKeepsInvariant(entries, symbol, forceRefresh, now, up);
      var key := Upper(symbol);
      var currentTime := now;

      if forceRefresh && key in entries {
        entries := entries - {key};
      }

      if !forceRefresh && key in entries {
        var cached := entries[key];
        if currentTime - cached.createdAt < CacheExpiry {
          return Ok((cached.report, cached.data));
        }
      }

      computations := computations + 1;
      var raw: ToolOutput;
      ghost var tried: nat;
      raw, tried := Run(symbol, up.attempts, up.clock);
      var parsed := ParseToolOutput(raw);
      if parsed.Err? {
        assert Compute(symbol, up) == Err(parsed.error);
        return Err(AnalysisFailure(parsed.error));
      }
      if up.agent.StageRaise? {
        assert Compute(symbol, up) == Err(up.agent.message);
        return Err(AnalysisFailure(up.agent.message));
      }
      if up.writer.StageRaise? {
        assert Compute(symbol, up) == Err(up.writer.message);
        return Err(AnalysisFailure(up.writer.message));
      }
      var currentDate := LongDate(up.today);
      var report := PostProcess(up.writer.text, currentDate);
      assert Compute(symbol, up) == Ok((report, parsed.value));
      entries := entries[key := Entry(currentTime, report, parsed.value)];
      return Ok((report, parsed.value));
    }
  }
}
