/**
 * The supervisor agent (app/agents/supervisor.py): mission intake splits a
 * goal into a root task and two worker tasks, routing publishes each worker
 * task on its role's channel, and result intake marks a stored task
 * COMPLETED with the result message's payload.
 *
 * `Decide` is the whole decision on one message as a function of the task
 * map; `SupervisorAgent.Think` performs it on the blackboard step by step and
 * `SupervisorAgent.Act` publishes the announcements `Announcements` lists.
 */
module Supervisor {
  import opened Wrappers
  import opened Domain
  import opened Bus
  import opened Blackboard

  const SupervisorControlChannel: string := "swarm:supervisor:control"
  const TaskResultsChannel: string := "swarm:tasks:results"
  const ResearcherTasksChannel: string := "swarm:workers:researcher:tasks"
  const CoderTasksChannel: string := "swarm:workers:coder:tasks"

  /** The four well-known channel names are pairwise distinct. */
  lemma ChannelsDistinct()
    ensures SupervisorControlChannel != TaskResultsChannel
    ensures SupervisorControlChannel != ResearcherTasksChannel
    ensures SupervisorControlChannel != CoderTasksChannel
    ensures TaskResultsChannel != ResearcherTasksChannel
    ensures TaskResultsChannel != CoderTasksChannel
    ensures ResearcherTasksChannel != CoderTasksChannel
  {
  }

  /**
   * The channels the supervisor listens on, in subscription order: its
   * control channel and the results channel, and neither worker channel.
   */
  function SupervisorInputChannels(): (cs: seq<string>)
    ensures |cs| == 2 && cs[0] == SupervisorControlChannel && cs[1] == TaskResultsChannel
    ensures ResearcherTasksChannel !in cs && CoderTasksChannel !in cs
  {
    ChannelsDistinct();
    [SupervisorControlChannel, TaskResultsChannel]
  }

  /** What `think` hands to `act`: tasks to announce and the task just completed, if any. */
  datatype Decision = Decision(newTasks: seq<Task>, completedTask: Option<Task> := None)

  /** The task map after a message and the decision taken on it. */
  datatype Step = Step(tasks: map<Uuid, Task>, decision: Decision)

  // ---------------------------------------------------------------- routing

  /** The channel a task is announced on, chosen from its assigned agent. */
  function RouteChannel(assignedAgent: Option<string>): (channel: string)
    ensures channel == ResearcherTasksChannel <==> assignedAgent == Some("researcher")
    ensures channel == CoderTasksChannel <==> assignedAgent == Some("coder")
    ensures channel == SupervisorControlChannel <==>
      assignedAgent != Some("researcher") && assignedAgent != Some("coder")
  {
    ChannelsDistinct();
    if assignedAgent == Some("researcher") then ResearcherTasksChannel
    else if assignedAgent == Some("coder") then CoderTasksChannel
    else SupervisorControlChannel
  }

  /**
   * The TASK_CREATED publication announcing `task`, with message id `id`: on
   * the task's routed channel, from the supervisor to the task's agent, in the
   * task's mission, carrying the task's dictionary form under "task".
   */
  function Announce(agentId: string, task: Task, id: Uuid): (p: Publication)
    ensures p.channel == RouteChannel(task.assignedAgent) && p.message.channel == p.channel
    ensures p.message.id == id && p.message.messageType == TaskCreated
    ensures p.message.missionId == task.missionId && p.message.taskId == Some(task.id)
    ensures p.message.sourceAgent == Some(agentId) && p.message.targetAgent == task.assignedAgent
    ensures p.message.payload == map["task" := DumpTask(task)] && p.message.correlationId == None
  {
    var channel := RouteChannel(task.assignedAgent);
    Publication(channel, SwarmMessage(
      id, task.missionId,
      taskId := Some(task.id),
      sourceAgent := Some(agentId),
      targetAgent := task.assignedAgent,
      channel := channel,
      messageType := TaskCreated,
      payload := map["task" := DumpTask(task)]))
  }

  /** The publications of `act`'s loop over `tasks`, the i-th with message id `ids[i]`. */
  function Announcements(agentId: string, tasks: seq<Task>, ids: seq<Uuid>): (ps: seq<Publication>)
    requires |ids| == |tasks|
    ensures |ps| == |tasks|
  {
    if tasks == [] then []
    else Announcements(agentId, tasks[..|tasks| - 1], ids[..|ids| - 1])
         + [Announce(agentId, tasks[|tasks| - 1], ids[|ids| - 1])]
  }

  /** The k-th announcement is the one for the k-th task, with the k-th message id. */
  lemma {:induction false} AnnouncementAt(agentId: string, tasks: seq<Task>, ids: seq<Uuid>, k: nat)
    requires |ids| == |tasks| && k < |tasks|
    ensures Announcements(agentId, tasks, ids)[k] == Announce(agentId, tasks[k], ids[k])
  {
    if k < |tasks| - 1 {
      AnnouncementAt(agentId, tasks[..|tasks| - 1], ids[..|ids| - 1], k);
    }
  }

  /** A log holding the first i announcements, extended by the next one, holds the first i + 1. */
  lemma AnnouncementsStep(agentId: string, tasks: seq<Task>, ids: seq<Uuid>, i: nat, before: seq<Publication>, log: seq<Publication>)
    requires |ids| == |tasks| && i < |tasks|
    requires log == before + Announcements(agentId, tasks[..i], ids[..i]) + [Announce(agentId, tasks[i], ids[i])]
    ensures log == before + Announcements(agentId, tasks[..i + 1], ids[..i + 1])
  {
    assert tasks[..i + 1][..i] == tasks[..i];
    assert ids[..i + 1][..i] == ids[..i];
    var earlier := Announcements(agentId, tasks[..i], ids[..i]);
    assert Announcements(agentId, tasks[..i + 1], ids[..i + 1]) == earlier + [Announce(agentId, tasks[i], ids[i])];
  }

  // ---------------------------------------------------------------- decisions

  /** `message.payload.get("goal", "")`: the goal when the payload has one, the empty string otherwise. */
  function GoalOf(payload: Payload): (g: Value)
    ensures "goal" in payload ==> g == payload["goal"]
    ensures "goal" !in payload ==> g == VStr("")
  {
    if "goal" in payload then payload["goal"] else VStr("")
  }

  /** Mission intake's three tasks in creation order: the root, the research child, the plan child. */
  function MissionTasks(message: SwarmMessage, rootId: Uuid, researchId: Uuid, coderId: Uuid): (ts: seq<Task>)
    ensures |ts| == 3
  {
    var goal := map["goal" := GoalOf(message.payload)];
    [ Task(rootId, message.missionId, parentId := None, kind := "mission_root",
           payload := goal, status := Pending),
      Task(researchId, message.missionId, parentId := Some(rootId), kind := "research",
           payload := goal, status := Pending, assignedAgent := Some("researcher")),
      Task(coderId, message.missionId, parentId := Some(rootId), kind := "implementation_plan",
           payload := goal, status := Pending, assignedAgent := Some("coder")) ]
  }

  /** Result intake's rewrite of a stored task: COMPLETED, with the message payload as result. */
  function CompleteTask(task: Task, payload: Payload): (t: Task)
    ensures t.status == Completed && t.result == Some(payload)
    ensures t.id == task.id && t.missionId == task.missionId && t.parentId == task.parentId
    ensures t.kind == task.kind && t.payload == task.payload
    ensures t.assignedAgent == task.assignedAgent && t.error == task.error
  {
    task.(status := Completed, result := Some(payload))
  }

  /** The message is a TASK_RESULT naming a task id. */
  predicate IsResultFor(message: SwarmMessage) {
    message.messageType == TaskResult && message.taskId.Some?
  }

  /**
   * The supervisor's decision on one message, given the stored tasks; the
   * ids are the fresh ids mission intake gives its three tasks.
   */
  function Decide(tasks: map<Uuid, Task>, message: SwarmMessage, rootId: Uuid, researchId: Uuid, coderId: Uuid): (s: Step)
    ensures message.messageType != MissionCreated ==> s.decision.newTasks == []
    ensures KeysMatch(tasks) ==> KeysMatch(s.tasks)
  {
    if message.messageType == MissionCreated then
      var ts := MissionTasks(message, rootId, researchId, coderId);
      Step(Store(Store(Store(tasks, ts[0]), ts[1]), ts[2]), Decision([ts[1], ts[2]]))
    else if IsResultFor(message) then
      match Lookup(tasks, message.taskId.value)
      case None => Step(tasks, Decision([]))
      case Some(task) =>
        var done := CompleteTask(task, message.payload);
        Step(Store(tasks, done), Decision([], Some(done)))
    else
      Step(tasks, Decision([]))
  }

  /**
   * Mission intake stores three tasks -- a root with no parent and no agent,
   * a research child for "researcher" and an implementation-plan child for
   * "coder", all PENDING, in the message's mission, with the goal (or "") as
   * payload -- and announces exactly the two children, research first. With
   * fresh distinct ids the store grows by exactly three entries.
   */
  lemma MissionIntake(tasks: map<Uuid, Task>, message: SwarmMessage, rootId: Uuid, researchId: Uuid, coderId: Uuid)
    requires message.messageType == MissionCreated
    requires rootId != researchId && rootId != coderId && researchId != coderId
    ensures var s := Decide(tasks, message, rootId, researchId, coderId);
      var goal := map["goal" := GoalOf(message.payload)];
      && s.tasks.Keys == tasks.Keys + {rootId, researchId, coderId}
      && (forall id :: id in tasks && id !in {rootId, researchId, coderId} ==> s.tasks[id] == tasks[id])
      && s.tasks[rootId] == Task(rootId, message.missionId, kind := "mission_root", payload := goal)
      && s.decision == Decision([s.tasks[researchId], s.tasks[coderId]], None)
      && s.tasks[researchId] == Task(researchId, message.missionId, Some(rootId), "research", goal,
                                     Pending, Some("researcher"), None, None)
      && s.tasks[coderId] == Task(coderId, message.missionId, Some(rootId), "implementation_plan", goal,
                                  Pending, Some("coder"), None, None)
      && (rootId !in tasks && researchId !in tasks && coderId !in tasks ==> |s.tasks| == |tasks| + 3)
  {
    var ts := MissionTasks(message, rootId, researchId, coderId);
    StoreThree(tasks, ts[0], ts[1], ts[2]);
    var stored := Store(Store(Store(tasks, ts[0]), ts[1]), ts[2]);
    assert Decide(tasks, message, rootId, researchId, coderId) == Step(stored, Decision([ts[1], ts[2]]));
  }

  /**
   * Result intake for a stored task: that task, and only that task, becomes
   * COMPLETED with the message payload as result -- whatever the payload says,
   * an "error" entry included -- and nothing is announced.
   */
  lemma ResultIntake(tasks: map<Uuid, Task>, message: SwarmMessage, rootId: Uuid, researchId: Uuid, coderId: Uuid)
    requires KeysMatch(tasks)
    requires IsResultFor(message) && message.taskId.value in tasks
    ensures var s := Decide(tasks, message, rootId, researchId, coderId);
      var id := message.taskId.value;
      && s.tasks.Keys == tasks.Keys
      && s.tasks[id] == tasks[id].(status := Completed, result := Some(message.payload))
      && (forall other :: other in tasks && other != id ==> s.tasks[other] == tasks[other])
      && s.decision == Decision([], Some(s.tasks[id]))
  {
  }

  /**
   * Every other message changes nothing: a TASK_RESULT for an unknown id or
   * with no id, and every type other than MISSION_CREATED and TASK_RESULT.
   */
  lemma IgnoredMessage(tasks: map<Uuid, Task>, message: SwarmMessage, rootId: Uuid, researchId: Uuid, coderId: Uuid)
    requires message.messageType != MissionCreated
    requires !(IsResultFor(message) && message.taskId.value in tasks)
    ensures Decide(tasks, message, rootId, researchId, coderId) == Step(tasks, Decision([], None))
  {
  }

  // ---------------------------------------------------------------- the agent

  class SupervisorAgent {
    const agentId: string
    const bus: EventBus
    const blackboard: InMemoryBlackboard

    constructor (agentId: string, bus: EventBus, blackboard: InMemoryBlackboard)
      ensures this.agentId == agentId && this.bus == bus && this.blackboard == blackboard
    {
      this.agentId := agentId;
      this.bus := bus;
      this.blackboard := blackboard;
    }

    /** The interpret phase: applies `Decide` to the blackboard and returns the decision. */
    method Think(message: SwarmMessage, rootId: Uuid, researchId: Uuid, coderId: Uuid) returns (d: Decision)
      requires blackboard.Valid()
      modifies blackboard
      ensures blackboard.Valid()
      ensures Step(blackboard.tasks, d) == Decide(old(blackboard.tasks), message, rootId, researchId, coderId)
    {
      if message.messageType == MissionCreated {
        var ts := MissionTasks(message, rootId, researchId, coderId);
        blackboard.CreateTask(ts[0]);
        blackboard.CreateTask(ts[1]);
        blackboard.CreateTask(ts[2]);
        return Decision([ts[1], ts[2]]);
      }
      if message.messageType == TaskResult && message.taskId.Some? {
        var found := blackboard.GetTask(message.taskId.value);
        if found.None? {
          return Decision([]);
        }
        var task := CompleteTask(found.value, message.payload);
        blackboard.UpdateTask(task);
        return Decision([], Some(task));
      }
      return Decision([]);
    }

    /** The act phase: publishes one TASK_CREATED per new task, in order, on its routed channel. */
    method Act(message: SwarmMessage, thought: Decision, messageIds: seq<Uuid>)
      requires |messageIds| == |thought.newTasks|
      modifies bus
      ensures bus.published == old(bus.published) + Announcements(agentId, thought.newTasks, messageIds)
    {
      var tasks := thought.newTasks;
      var i := 0;
      while i < |tasks|
        invariant 0 <= i <= |tasks|
        invariant bus.published == old(bus.published) + Announcements(agentId, tasks[..i], messageIds[..i])
      {
        var announcement := Announce(agentId, tasks[i], messageIds[i]);
        bus.Publish(announcement.channel, announcement.message);
        AnnouncementsStep(agentId, tasks, messageIds, i, old(bus.published), bus.published);
        i := i + 1;
      }
      assert tasks[..i] == tasks && messageIds[..i] == messageIds;
    }

    /** `handle_message`: think, then act on the thought. */
    method HandleMessage(message: SwarmMessage, rootId: Uuid, researchId: Uuid, coderId: Uuid, messageIds: seq<Uuid>)
      requires blackboard.Valid()
      requires message.messageType == MissionCreated ==> |messageIds| == 2
      requires message.messageType != MissionCreated ==> messageIds == []
      modifies blackboard, bus
      ensures blackboard.Valid()
      ensures var s := Decide(old(blackboard.tasks), message, rootId, researchId, coderId);
        && blackboard.tasks == s.tasks
        && bus.published == old(bus.published) + Announcements(agentId, s.decision.newTasks, messageIds)
    {
      var thought := Think(message, rootId, researchId, coderId);
      Act(message, thought, messageIds);
    }
  }
}
