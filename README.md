# agents-swarm task orchestration, in Dafny

This project models the task-orchestration core of the agents-swarm service.
A supervisor agent and a research worker exchange messages over named
channels. They agree on tasks through a shared in-memory blackboard.

- `Domain` (app/domain/models.py) holds the `TaskStatus` and `SwarmMessageType`
  enumerations and the `Task` and `SwarmMessage` records, with their
  defaults. It also holds the dictionary form of a Task that travels in a
  message payload (`model_dump`) and its validation back into a Task
  (`model_validate`).
- `Bus` is the publishing side of the event bus. Every publish appends one
  (channel, message) pair to a log.
- `Blackboard` (`InMemoryBlackboard` in app/main.py) is a map from task id to
  task. Create and update both overwrite the entry. Lookup gives the task or
  nothing.
- `Supervisor` (app/agents/supervisor.py) covers three steps. Mission intake
  stores a root task, a research child and an implementation-plan child.
  Routing announces each child on the channel of its assigned agent. Result
  intake marks a stored task COMPLETED with the result payload. `Decide` is
  the decision on one message as a function of the task map. The class
  methods `Think`, `Act` and `HandleMessage` perform it on the blackboard and
  the bus.
- `Researcher` (app/agents/researcher.py) covers the worker. `Think` filters
  the messages down to research tasks. `Act` runs a task to COMPLETED or
  FAILED and publishes exactly one TASK_RESULT, correlated with the
  triggering message. The module also covers the cleanup of the search
  query (`str.strip`) and the 500-character cut of each source.
- `Mission` (`create_mission` in app/main.py) turns a goal into one
  MISSION_CREATED message.
- `Scenarios` traces the protocol end to end. A mission yields two
  announcements. The researcher accepts only the research one. Its result
  closes the stored task.

Ids (uuid4) are parameters chosen by the caller. The language-model and
search calls are replaced by an oracle `ResearchOutcome`. It holds either the
model's query text, the search hits and the summary, or the text of the
exception one of those calls raised. Publishing is an append to
`EventBus.published`.

## Model

| member | source | states |
|---|---|---|
| `Domain.TaskStatusHasSixValues` | app/domain/models.py:11-17 | TaskStatus has exactly the six members PENDING, RUNNING, COMPLETED, FAILED, CANCELLED, TIMEOUT |
| `Domain.MessageTypeHasSixKinds` | app/domain/models.py:26-32 | SwarmMessageType has exactly six members |
| `Domain.ParseStatus` | app/domain/models.py:11-17 | the status named by a string is the unique member whose value is that string |
| `Domain.StatusNameRoundTrip` | app/domain/models.py:11-17 | `StatusName` gives each member its own upper-case name as value; parsing the value gives the member back, and no two members share a value |
| `Domain.TaskDefaults` | app/domain/models.py:35-44 | a Task built from id, mission_id, kind and payload alone is PENDING, with no parent, agent, result or error |
| `Domain.MessageDefaults` | app/domain/models.py:57-67 | a message built from its required fields alone has no task id, source, target or correlation id |
| `Domain.DumpTask` | app/agents/supervisor.py:117 | `model_dump` gives a dictionary keyed by exactly the Task's field names |
| `Domain.ValidateTask` | app/agents/researcher.py:44 | validation succeeds only on a dictionary with mission_id, kind and payload, and takes those fields from it; a missing id is drawn fresh, a missing status is PENDING |
| `Domain.TaskRoundTrip` | app/agents/researcher.py:44 | validating a dumped Task gives back the same Task |
| `Blackboard.Store` | app/main.py:29-33 | storing a task adds its id, maps it to the task and keeps every other entry; entries stay keyed by their own task's id |
| `Blackboard.Lookup` | app/main.py:35-36 | lookup gives the stored task exactly when the id is present, and nothing otherwise |
| `Blackboard.LookupAfterStore` | app/main.py:29-36 | after a task is created or updated, looking up its id gives that task |
| `Blackboard.StoreLeavesOthers` | app/main.py:32-33 | storing a task leaves the lookup of every other id unchanged |
| `Blackboard.StoreOverwrites` | app/main.py:29-30 | creating a task whose id is present replaces the entry without growing the store (no duplicate check) |
| `Blackboard.StoreNewGrows` | app/main.py:29-30 | creating a task under a new id adds exactly one entry |
| `Blackboard.StoreThree` | app/main.py:29-30 | three creates with distinct ids: each task is found under its id, every other entry is kept, and three new ids add exactly three entries |
| `Blackboard.InMemoryBlackboard.constructor` | app/main.py:26-27 | a new blackboard is empty |
| `Blackboard.InMemoryBlackboard.CreateTask` | app/main.py:29-30 | the map afterwards is the old map with the task stored under its id |
| `Blackboard.InMemoryBlackboard.UpdateTask` | app/main.py:32-33 | the map afterwards is the old map with the task stored under its id (last write wins) |
| `Blackboard.InMemoryBlackboard.GetTask` | app/main.py:35-36 | returns the lookup of the id and changes nothing |
| `Bus.EventBus.Publish` | app/core/event_bus.py:16-18 | a publish appends exactly one (channel, message) pair to the log |
| `Supervisor.ChannelsDistinct` | app/agents/supervisor.py:17-20 | the four channel names are pairwise distinct |
| `Supervisor.SupervisorInputChannels` | app/agents/supervisor.py:51-53 | the supervisor listens on the control channel, then the results channel, and on neither worker channel |
| `Researcher.ResearcherInputChannels` | app/agents/researcher.py:27-29 | the researcher listens on its task channel alone, not on the control, results or coder channel |
| `Scenarios.RoutesReachListeners` | app/agents/supervisor.py:104-109 | a research task is announced where only the researcher listens, a task with no worker agent where the supervisor listens, a coder task where neither listens; results travel where only the supervisor listens |
| `Supervisor.RouteChannel` | app/agents/supervisor.py:104-109 | "researcher" goes to the researcher channel, "coder" to the coder channel, anything else (absent included) to the control channel, each in both directions |
| `Supervisor.Announce` | app/agents/supervisor.py:110-118 | a TASK_CREATED on the task's routed channel, with the given message id, the task's mission and id, the agent as source, the task's agent as target, `{task: dump}` as payload and no correlation id |
| `Supervisor.Announcements` | app/agents/supervisor.py:103-119 | routing publishes exactly one message per new task |
| `Supervisor.AnnouncementAt` | app/agents/supervisor.py:103-119 | the k-th publication is the announcement of the k-th task, with the k-th message id |
| `Supervisor.GoalOf` | app/agents/supervisor.py:57 | the payload's goal when it has one, the empty string otherwise |
| `Supervisor.MissionTasks` | app/agents/supervisor.py:59-83 | mission intake builds three tasks |
| `Supervisor.CompleteTask` | app/agents/supervisor.py:92-93 | the task becomes COMPLETED with the payload as result, every other field kept |
| `Supervisor.Decide` | app/agents/supervisor.py:55-98 | only MISSION_CREATED announces tasks; entries stay keyed by their own id |
| `Supervisor.MissionIntake` | app/agents/supervisor.py:56-86 | a root (mission_root, no parent, no agent, PENDING), a research child for "researcher" and a plan child for "coder" are stored, children under the root with `{goal: goal-or-""}`; exactly [research, plan] is announced; fresh ids add exactly three entries |
| `Supervisor.ResultIntake` | app/agents/supervisor.py:87-96 | a TASK_RESULT for a stored id makes that task COMPLETED with the payload as result, whatever it holds, touches no other entry and announces nothing |
| `Supervisor.IgnoredMessage` | app/agents/supervisor.py:87-98 | a TASK_RESULT with an unknown or absent id, and any other type, changes nothing and announces nothing |
| `Supervisor.SupervisorAgent.Think` | app/agents/supervisor.py:55-98 | the blackboard afterwards and the decision are those `Decide` gives on the old blackboard |
| `Supervisor.SupervisorAgent.Act` | app/agents/supervisor.py:100-119 | the publication log grows by exactly the announcements of the new tasks, in list order |
| `Supervisor.SupervisorAgent.HandleMessage` | app/agents/base.py:41-52 | think then act: the blackboard follows `Decide` and the log grows by its announcements |
| `Researcher.Think` | app/agents/researcher.py:31-55 | skips a non-TASK_CREATED message and a missing or None "task" entry; accepts exactly a validated task of kind "research", unchanged; a validation error propagates |
| `Researcher.SkipForward` | app/agents/researcher.py:129 | the first index from the given one whose character is not stripped (the end when none is): everything skipped is a stripped character |
| `Researcher.SkipBackward` | app/agents/researcher.py:129 | the index just past the last unstripped character of the range (its start when none is): everything after it in the range is a stripped character |
| `Researcher.Strip` | app/agents/researcher.py:129 | the result is the contiguous piece left after removing every leading and trailing stripped character, and it neither starts nor ends with one |
| `Researcher.StripIdempotent` | app/agents/researcher.py:129 | stripping twice equals stripping once |
| `Researcher.StripKeepsTrimmed` | app/agents/researcher.py:129 | text whose ends are not stripped characters is unchanged |
| `Researcher.SearchQuery` | app/agents/researcher.py:122-129 | the query is no longer than the model's text and neither starts nor ends with a single quote |
| `Researcher.SearchQueryIsSlice` | app/agents/researcher.py:129 | the query is a contiguous piece of the model's text |
| `Researcher.SearchQueryKeepsCleanText` | app/agents/researcher.py:129 | text with no surrounding whitespace or quotes is the query unchanged |
| `Researcher.Truncate` | app/agents/researcher.py:81 | the first min(len, n) characters of the content |
| `Researcher.Sources` | app/agents/researcher.py:77-84 | one source entry per search hit, in order |
| `Researcher.SourceEntry` | app/agents/researcher.py:78-82 | an entry has exactly title, url and content: the hit's title and url, and a prefix of its content of at most 500 characters, the whole content when shorter |
| `Researcher.SuccessPayload` | app/agents/researcher.py:75-86 | the success result has exactly the keys search_query, sources and summary |
| `Researcher.SuccessPayloadContents` | app/agents/researcher.py:75-86 | the success payload maps search_query to the query, summary to the summary, and sources to one entry per hit, in order, each describing its hit |
| `Researcher.SuccessResultContents` | app/agents/researcher.py:75-86 | a completed task's result holds the stripped query, the summary and one source per hit in order, each with the hit's title and url and at most 500 characters of its content; that result is what the run reports |
| `Researcher.Execute` | app/agents/researcher.py:60-100 | the final status is terminal: COMPLETED with the result payload exactly on success, FAILED with the exception text exactly on failure; identity fields unchanged |
| `Researcher.ReportPayload` | app/agents/researcher.py:117 | a non-empty result is reported as is; an absent or empty one falls back to `{error: task.error}` |
| `Researcher.ResultMessage` | app/agents/researcher.py:110-119 | TASK_RESULT on the results channel, for the task's id and mission, from the agent to "supervisor", correlated with the triggering message's id |
| `Researcher.SuccessReportsResult` | app/agents/researcher.py:75-117 | a successful run reports its three-key result payload |
| `Researcher.FreshFailureReportsError` | app/agents/researcher.py:98-117 | a failed run of a task without a result reports exactly `{error: msg}` |
| `Researcher.StaleResultHidesFailure` | app/agents/researcher.py:98-117 | a failed run of a task that arrived with a non-empty result reports that result, not the error |
| `Researcher.ResearcherAgent.Act` | app/agents/researcher.py:57-120 | a thought that is not a task publishes nothing; a task ends as `Execute` leaves it and exactly one result message is published on the results channel |
| `Researcher.ResearcherAgent.HandleMessage` | app/agents/base.py:41-52 | think then act: a validation error propagates with nothing published, a skip publishes nothing, an accepted task publishes its one result |
| `Mission.MissionMessage` | app/main.py:114-122 | MISSION_CREATED on the control channel, no task id, no source, target "supervisor", payload `{goal: goal}`, in the new mission |
| `Mission.CreateMission` | app/main.py:110-132 | exactly one message is published, and the returned id is the mission id it carries |
| `Scenarios.AnnouncementValidates` | app/agents/supervisor.py:110-119 | every announcement's "task" entry validates back to the announced task |
| `Scenarios.MissionAnnouncesTwoTasks` | app/agents/supervisor.py:55-119 | a new mission adds three entries and announces two PENDING tasks carrying the goal: research on the researcher channel, then the plan on the coder channel |
| `Scenarios.ThinkOnAnnouncement` | app/agents/researcher.py:31-55 | the researcher accepts an announced task, unchanged, exactly when its kind is "research", and skips it otherwise |
| `Scenarios.ResearcherTakesOnlyResearch` | app/agents/researcher.py:31-55 | the researcher accepts the research announcement as stored and skips the plan announcement |
| `Scenarios.ResultClosesTask` | app/agents/supervisor.py:87-96 | the researcher's reply answers the announcement and completes the stored task with the reported payload, touching nothing else |
| `Scenarios.FailureRecordedAsCompletion` | app/agents/supervisor.py:92-93 | a failed research run is stored as COMPLETED with `{error: msg}` as its result; the supervisor never sets FAILED |

## Left out

- Subscription, delivery, fan-out and the Redis transport (app/core/event_bus.py) are not modelled. They are network I/O. Publishing is an append to a log.
- JSON encoding on the wire (`model_dump_json`, `model_validate_json`) is not modelled. A message arrives exactly as it was published.
- Concurrency is not modelled: `run`, `_listen_channel` and `asyncio.gather` in app/agents/base.py. Only the think-then-act order of `handle_message` is kept.
- The language-model and search clients (app/core/llm.py, app/core/search.py) are outside the model. They are foreign calls, replaced by the `ResearchOutcome` oracle. The search score (a float) and the prompt texts are left out.
- Timestamps (`created_at`, `updated_at`), uuid4 randomness and logging are not modelled. Ids are parameters.
- `AgentState` and `AgentLifecycleStatus` are left out. No logic uses them.
- The HTTP wiring of app/main.py is left out: `lifespan`, environment variables, `AppState`, `MissionRequest` and `MissionResponse`.
- The supervisor's `isinstance` guard (app/agents/supervisor.py:101-102) is left out: its `think` always returns a decision, and Dafny's types rule out any other thought. The researcher's guard is modelled: `ResearcherAgent.Act` publishes nothing unless the thought is an accepted task.
- Domain.ValidateTask: covers the shapes `model_dump` produces, plus missing or None optional fields. Pydantic's lax coercions (a UUID given as a string, for example) are rejected in the model, and the error texts are not pydantic's.
- Tasks are values, not shared objects. In the source, the task the supervisor completes is the very object stored in the map. Writing the updated value back gives the same final map, so the aliasing is not observable here.
- Researcher.ResearcherAgent.Act: the intermediate RUNNING status is set and then overwritten inside the same call, so only the final task is stated. `Execute` starts from the RUNNING task.

## Where the intended behaviour and the code differ

The model follows the code in each case.

- Creating a task under an id that is already present is meant to fail. `create_task` overwrites the entry instead (`Blackboard.StoreOverwrites`).
- A payload that cannot be parsed into a Task is meant to count as "no task". `Task.model_validate` raises out of the researcher's `think`, uncaught (`Researcher.Thought.Raise`, `Researcher.ResearcherAgent.HandleMessage`).
- An error while handling one message is meant to be logged, with the listening loop going on. `handle_message` catches nothing, so the error propagates to the loop.
- A failed run is meant to report its error. The report falls back to `{error: ...}` only when the task's result is absent or empty (app/agents/researcher.py:117), so a failed run of a task that arrived with a non-empty result reports that stale result and hides the error (`Researcher.StaleResultHidesFailure`).
