/**
 * The research worker (app/agents/researcher.py). `Think` filters the
 * messages of its channel down to research tasks; `ResearcherAgent.Act` runs
 * a task -- RUNNING, then COMPLETED with a result or FAILED with an error --
 * and publishes exactly one TASK_RESULT correlated with the triggering
 * message.
 *
 * The language-model and search calls are replaced by an oracle outcome: the
 * three calls either all return (the model's query text, the search results,
 * the summary) or one of them raises with an error text.
 */
module Researcher {
  import opened Wrappers
  import opened Domain
  import opened Bus
  import opened Supervisor

  /** The channels the researcher listens on: its own task channel and no other. */
  function ResearcherInputChannels(): (cs: seq<string>)
    ensures |cs| == 1 && cs[0] == ResearcherTasksChannel
    ensures SupervisorControlChannel !in cs && TaskResultsChannel !in cs && CoderTasksChannel !in cs
  {
    ChannelsDistinct();
    [ResearcherTasksChannel]
  }

  /** One search hit; the optional float score is not modelled. */
  datatype SearchResult = SearchResult(title: string, url: string, content: string)

  /** What the external calls of one run produce. */
  datatype ResearchOutcome =
    | Succeeded(queryText: string, results: seq<SearchResult>, summary: string)
    | Raised(message: string)

  /**
   * `think`'s result: no task (`None`), a task to run, or the validation
   * error `Task.model_validate` raises, which is not caught.
   */
  datatype Thought = Skip | Accept(task: Task) | Raise(error: string)

  // ---------------------------------------------------------------- think

  /**
   * `think`: skip anything but TASK_CREATED, skip a payload whose "task"
   * entry is missing or None, validate the entry into a Task (a failure
   * propagates), and accept it unchanged only when its kind is "research".
   * `freshId` is the id validation gives a task dictionary without one.
   */
  function Think(message: SwarmMessage, freshId: Uuid): (th: Thought)
    ensures message.messageType != TaskCreated ==> th == Skip
    ensures "task" !in message.payload || message.payload["task"] == VNone ==> th == Skip
    ensures th.Accept? <==>
      && message.messageType == TaskCreated
      && "task" in message.payload && message.payload["task"] != VNone
      && ValidateTask(message.payload["task"], freshId).Ok?
      && ValidateTask(message.payload["task"], freshId).value.kind == "research"
    ensures th.Accept? ==> Ok(th.task) == ValidateTask(message.payload["task"], freshId)
    ensures th.Raise? <==>
      && message.messageType == TaskCreated
      && "task" in message.payload && message.payload["task"] != VNone
      && ValidateTask(message.payload["task"], freshId).Err?
  {
    if message.messageType != TaskCreated then Skip
    else
      var taskData := if "task" in message.payload then message.payload["task"] else VNone;
      if taskData == VNone then Skip
      else
        match ValidateTask(taskData, freshId)
        case Err(e) => Raise(e)
        case Ok(task) => if task.kind != "research" then Skip else Accept(task)
  }

  // ---------------------------------------------------------------- the search query

  /** The characters `str.strip()` removes: those for which `str.isspace` holds. */
  const Whitespace: set<char> := {
    '\U{9}', '\U{A}', '\U{B}', '\U{C}', '\U{D}', '\U{1C}', '\U{1D}', '\U{1E}',
    '\U{1F}', '\U{20}', '\U{85}', '\U{A0}', '\U{1680}', '\U{2000}', '\U{2001}', '\U{2002}',
    '\U{2003}', '\U{2004}', '\U{2005}', '\U{2006}', '\U{2007}', '\U{2008}', '\U{2009}', '\U{200A}',
    '\U{2028}', '\U{2029}', '\U{202F}', '\U{205F}', '\U{3000}'}

  /**
   * The index of the first character of `s` at or after `i` that is not in
   * `chars`, or `|s|` when there is none: where `lstrip` cuts.
   */
  function SkipForward(s: string, chars: set<char>, i: nat): (j: nat)
    requires i <= |s|
    ensures i <= j <= |s|
    ensures forall k :: i <= k < j ==> s[k] in chars
    ensures j < |s| ==> s[j] !in chars
    decreases |s| - i
  {
    if i < |s| && s[i] in chars then SkipForward(s, chars, i + 1) else i
  }

  /**
   * The index just past the last character of `s[lo..hi]` that is not in
   * `chars`, or `lo` when there is none: where `rstrip` cuts.
   */
  function SkipBackward(s: string, chars: set<char>, lo: nat, hi: nat): (j: nat)
    requires lo <= hi <= |s|
    ensures lo <= j <= hi
    ensures forall k :: j <= k < hi ==> s[k] in chars
    ensures j > lo ==> s[j - 1] !in chars
    decreases hi - lo
  {
    if hi > lo && s[hi - 1] in chars then SkipBackward(s, chars, lo, hi - 1) else hi
  }

  /**
   * `s.strip(chars)`: the slice `s[start..start + |r|]` left when every
   * leading and trailing character in `chars` is removed; what is left
   * neither starts nor ends with one of them.
   */
  function Strip(s: string, chars: set<char>): (r: string)
    ensures |r| <= |s|
    ensures r == [] || (r[0] !in chars && r[|r| - 1] !in chars)
    ensures var start := SkipForward(s, chars, 0);
      && start + |r| <= |s|
      && r == s[start..start + |r|]
      && (forall i :: 0 <= i < start ==> s[i] in chars)
      && (forall i :: start + |r| <= i < |s| ==> s[i] in chars)
  {
    var start := SkipForward(s, chars, 0);
    s[start..SkipBackward(s, chars, start, |s|)]
  }

  /** `r` is the piece of `s` that begins at `start`. */
  ghost predicate SliceAt(r: string, s: string, start: nat) {
    start + |r| <= |s| && r == s[start..start + |r|]
  }

  /** `r` is a contiguous piece of `s`. */
  ghost predicate IsSlice(r: string, s: string) {
    exists start: nat :: SliceAt(r, s, start)
  }

  lemma StripIsSlice(s: string, chars: set<char>)
    ensures IsSlice(Strip(s, chars), s)
  {
    assert SliceAt(Strip(s, chars), s, SkipForward(s, chars, 0));
  }

  lemma {:induction false} SliceOfSlice(r: string, m: string, s: string)
    requires IsSlice(r, m) && IsSlice(m, s)
    ensures IsSlice(r, s)
  {
    var i: nat :| SliceAt(r, m, i);
    var j: nat :| SliceAt(m, s, j);
    assert forall k :: 0 <= k < |r| ==> r[k] == m[i + k] == s[j + i + k];
    assert SliceAt(r, s, j + i);
  }

  /** Text that neither starts nor ends with one of `chars` is left as it is. */
  lemma StripKeepsTrimmed(s: string, chars: set<char>)
    requires s != [] ==> s[0] !in chars && s[|s| - 1] !in chars
    ensures Strip(s, chars) == s
  {
  }

  /** Stripping twice with the same characters is stripping once. */
  lemma StripIdempotent(s: string, chars: set<char>)
    ensures Strip(Strip(s, chars), chars) == Strip(s, chars)
  {
    StripKeepsTrimmed(Strip(s, chars), chars);
  }

  /**
   * `_generate_search_query`'s cleanup of the model's text: strip whitespace,
   * then double quotes, then single quotes.
   */
  function SearchQuery(text: string): (q: string)
    ensures |q| <= |text|
    ensures q == [] || (q[0] != '\'' && q[|q| - 1] != '\'')
  {
    Strip(Strip(Strip(text, Whitespace), {'"'}), {'\''})
  }

  /** The search query is a contiguous piece of the model's text. */
  lemma SearchQueryIsSlice(text: string)
    ensures IsSlice(SearchQuery(text), text)
  {
    var a := Strip(text, Whitespace);
    var b := Strip(a, {'"'});
    StripIsSlice(text, Whitespace);
    StripIsSlice(a, {'"'});
    StripIsSlice(b, {'\''});
    SliceOfSlice(b, a, text);
    SliceOfSlice(SearchQuery(text), b, text);
  }

  /** Text already free of surrounding whitespace and quotes is used as the query unchanged. */
  lemma SearchQueryKeepsCleanText(text: string)
    requires text != [] ==> text[0] !in Whitespace && text[|text| - 1] !in Whitespace
    requires text != [] ==> text[0] !in {'"', '\''} && text[|text| - 1] !in {'"', '\''}
    ensures SearchQuery(text) == text
  {
    StripKeepsTrimmed(text, Whitespace);
    StripKeepsTrimmed(text, {'"'});
    StripKeepsTrimmed(text, {'\''});
  }

  // ---------------------------------------------------------------- the result

  /** `s[:n]` */
  function Truncate(s: string, n: nat): (r: string)
    ensures |r| == if |s| <= n then |s| else n
    ensures r == s[..|r|]
  {
    if |s| <= n then s else s[..n]
  }

  const SourceContentLimit: nat := 500

  /**
   * `v` describes the hit `r`: a dictionary of exactly title, url and content,
   * with the hit's title and url, and a prefix of its content of at most 500
   * characters that is the whole content when that is shorter.
   */
  predicate DescribesHit(v: Value, r: SearchResult) {
    && v.VDict? && v.entries.Keys == {"title", "url", "content"}
    && v.entries["title"] == VStr(r.title) && v.entries["url"] == VStr(r.url)
    && var c := v.entries["content"];
    && c.VStr? && |c.s| <= SourceContentLimit
    && |c.s| <= |r.content| && c.s == r.content[..|c.s|]
    && (|r.content| <= SourceContentLimit ==> c.s == r.content)
  }

  /** One entry of "sources": the hit's title and url, and its content cut to 500 characters. */
  function SourceEntry(r: SearchResult): (v: Value)
    ensures DescribesHit(v, r)
  {
    VDict(map[
      "title" := VStr(r.title),
      "url" := VStr(r.url),
      "content" := VStr(Truncate(r.content, SourceContentLimit))])
  }

  /** The "sources" list: one entry per search hit, in the hits' order. */
  function Sources(results: seq<SearchResult>): (vs: seq<Value>)
    ensures |vs| == |results|
    ensures forall i :: 0 <= i < |results| ==> vs[i] == SourceEntry(results[i])
  {
    if results == [] then [] else [SourceEntry(results[0])] + Sources(results[1..])
  }

  /** The result payload of a successful run. */
  function SuccessPayload(query: string, results: seq<SearchResult>, summary: string): (p: Payload)
    ensures p.Keys == {"search_query", "sources", "summary"}
  {
    map["search_query" := VStr(query), "sources" := VList(Sources(results)), "summary" := VStr(summary)]
  }

  /** The success payload's values: the query, the summary and one entry describing each hit, in order. */
  lemma SuccessPayloadContents(query: string, results: seq<SearchResult>, summary: string)
    ensures var r := SuccessPayload(query, results, summary);
      && r["search_query"] == VStr(query) && r["summary"] == VStr(summary)
      && r["sources"].VList? && |r["sources"].items| == |results|
      && forall i :: 0 <= i < |results| ==> DescribesHit(r["sources"].items[i], results[i])
  {
    var sources := Sources(results);
    forall i | 0 <= i < |results|
      ensures DescribesHit(sources[i], results[i])
    {
      assert sources[i] == SourceEntry(results[i]);
    }
  }

  /**
   * The task as `act` leaves it: RUNNING first, then COMPLETED with the
   * result payload when the calls succeed, or FAILED with the exception text.
   * Only the status and one of result/error change.
   */
  function Execute(task: Task, outcome: ResearchOutcome): (t: Task)
    ensures t.status.IsTerminal()
    ensures t.status == Completed <==> outcome.Succeeded?
    ensures t.status == Failed <==> outcome.Raised?
    ensures outcome.Succeeded? ==>
      && t.result == Some(SuccessPayload(SearchQuery(outcome.queryText), outcome.results, outcome.summary))
      && t.error == task.error
    ensures outcome.Raised? ==> t.error == Some(outcome.message) && t.result == task.result
    ensures t.id == task.id && t.missionId == task.missionId && t.parentId == task.parentId
    ensures t.kind == task.kind && t.payload == task.payload && t.assignedAgent == task.assignedAgent
  {
    var running := task.(status := Running);
    match outcome
    case Succeeded(text, results, summary) =>
      running.(status := Completed, result := Some(SuccessPayload(SearchQuery(text), results, summary)))
    case Raised(e) =>
      running.(status := Failed, error := Some(e))
  }

  /** `task.result if task.result else {"error": task.error}`: an empty or absent result falls back. */
  function ReportPayload(task: Task): (p: Payload)
    ensures task.result.Some? && task.result.value != map[] ==> p == task.result.value
    ensures task.result == None || task.result == Some(map[]) ==> p == map["error" := StrOrNone(task.error)]
  {
    if task.result.Some? && task.result.value != map[] then task.result.value
    else map["error" := StrOrNone(task.error)]
  }

  /** The TASK_RESULT message for a finished task, answering `trigger`. */
  function ResultMessage(agentId: string, trigger: SwarmMessage, task: Task, id: Uuid): (m: SwarmMessage)
    ensures m.messageType == TaskResult && m.channel == TaskResultsChannel
    ensures m.taskId == Some(task.id) && m.missionId == task.missionId
    ensures m.sourceAgent == Some(agentId) && m.targetAgent == Some("supervisor")
    ensures m.correlationId == Some(trigger.id) && m.id == id
    ensures m.payload == ReportPayload(task)
  {
    SwarmMessage(id, task.missionId,
      taskId := Some(task.id),
      sourceAgent := Some(agentId),
      targetAgent := Some("supervisor"),
      channel := TaskResultsChannel,
      messageType := TaskResult,
      payload := ReportPayload(task),
      correlationId := Some(trigger.id))
  }

  /** A successful run reports its result payload with the three keys. */
  lemma SuccessReportsResult(task: Task, text: string, results: seq<SearchResult>, summary: string)
    ensures ReportPayload(Execute(task, Succeeded(text, results, summary)))
         == SuccessPayload(SearchQuery(text), results, summary)
  {
    var p := SuccessPayload(SearchQuery(text), results, summary);
    var t := Execute(task, Succeeded(text, results, summary));
    assert t.result == Some(p);
    assert p != map[] by { assert "summary" in p; }
  }

  /**
   * A completed run's result carries the cleaned query, the summary, and one
   * source per search hit in order -- each with the hit's title and url and at
   * most the first 500 characters of its content -- and that result is what
   * the run reports.
   */
  lemma SuccessResultContents(task: Task, text: string, results: seq<SearchResult>, summary: string)
    ensures var t := Execute(task, Succeeded(text, results, summary));
      && t.result.Some? && ReportPayload(t) == t.result.value
      && var r := t.result.value;
      && r["search_query"] == VStr(SearchQuery(text)) && r["summary"] == VStr(summary)
      && r["sources"].VList? && |r["sources"].items| == |results|
      && forall i :: 0 <= i < |results| ==> DescribesHit(r["sources"].items[i], results[i])
  {
    SuccessReportsResult(task, text, results, summary);
    SuccessPayloadContents(SearchQuery(text), results, summary);
  }

  /** A failed run of a task that had no result reports exactly `{"error": message}`. */
  lemma FreshFailureReportsError(task: Task, message: string)
    requires task.result == None
    ensures ReportPayload(Execute(task, Raised(message))) == map["error" := VStr(message)]
  {
  }

  /**
   * A failed run of a task that already carried a non-empty result reports
   * that earlier result, not the error: the fallback looks only at `result`.
   */
  lemma StaleResultHidesFailure(task: Task, message: string)
    requires task.result.Some? && task.result.value != map[]
    ensures ReportPayload(Execute(task, Raised(message))) == task.result.value
  {
  }

  // ---------------------------------------------------------------- the agent

  class ResearcherAgent {
    const agentId: string
    const bus: EventBus

    constructor (agentId: string, bus: EventBus)
      ensures this.agentId == agentId && this.bus == bus
    {
      this.agentId := agentId;
      this.bus := bus;
    }

    /**
     * The act phase. Nothing happens unless the thought is a task; for a task,
     * the run's outcome decides its final state and exactly one TASK_RESULT is
     * published on the results channel. `finished` is the thought's task as
     * `act` leaves it.
     */
    method Act(message: SwarmMessage, thought: Thought, outcome: ResearchOutcome, resultId: Uuid)
      returns (finished: Option<Task>)
      modifies bus
      ensures !thought.Accept? ==> finished == None && bus.published == old(bus.published)
      ensures thought.Accept? ==>
        && finished == Some(Execute(thought.task, outcome))
        && bus.published == old(bus.published)
             + [Publication(TaskResultsChannel, ResultMessage(agentId, message, finished.value, resultId))]
    {
      if !thought.Accept? {
        return None;
      }
      var task := thought.task;
      task := task.(status := Running);
      match outcome {
        case Succeeded(text, results, summary) =>
          task := task.(status := Completed);
          task := task.(result := Some(SuccessPayload(SearchQuery(text), results, summary)));
        case Raised(e) =>
          task := task.(status := Failed);
          task := task.(error := Some(e));
      }
      bus.Publish(TaskResultsChannel, ResultMessage(agentId, message, task, resultId));
      finished := Some(task);
    }

    /**
     * `handle_message`: think, then act. A validation error raised by `think`
     * propagates (`raised` holds its text) and nothing is published.
     */
    method HandleMessage(message: SwarmMessage, freshId: Uuid, outcome: ResearchOutcome, resultId: Uuid)
      returns (raised: Option<string>)
      modifies bus
      ensures var th := Think(message, freshId);
        && (th.Raise? ==> raised == Some(th.error) && bus.published == old(bus.published))
        && (th.Skip? ==> raised == None && bus.published == old(bus.published))
        && (th.Accept? ==>
              && raised == None
              && bus.published == old(bus.published)
                   + [Publication(TaskResultsChannel, ResultMessage(agentId, message, Execute(th.task, outcome), resultId))])
    {
      var thought := Think(message, freshId);
      if thought.Raise? {
        return Some(thought.error);
      }
      var _ := Act(message, thought, outcome, resultId);
      raised := None;
    }
  }
}
