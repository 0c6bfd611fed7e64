/**
 * The protocol end to end: a mission message through the supervisor's
 * intake and routing, the announcements through the researcher's filter, and
 * the researcher's result back through the supervisor's result intake.
 */
module Scenarios {
  import opened Wrappers
  import opened Domain
  import opened Bus
  import opened Blackboard
  import opened Supervisor
  import opened Researcher
  import opened Mission

  /** `p` announces task `t`, PENDING in mission `missionId` with goal `goal`, in a payload that validates to `t`. */
  ghost predicate AnnouncesPendingTask(p: Publication, t: Task, missionId: Uuid, goal: string, freshId: Uuid) {
    && p.message.messageType == TaskCreated
    && p.message.missionId == missionId
    && "task" in p.message.payload
    && ValidateTask(p.message.payload["task"], freshId) == Ok(t)
    && t.status == Pending
    && t.payload == map["goal" := VStr(goal)]
  }

  /**
   * A new mission with goal `goal` adds exactly three entries to the store
   * and announces exactly two tasks: the stored research task on the
   * researcher channel, then the stored plan task on the coder channel. Each
   * announcement's payload validates back to the PENDING task carrying the goal.
   */
  lemma MissionAnnouncesTwoTasks(
    tasks: map<Uuid, Task>, agentId: string, goal: string, missionId: Uuid, messageId: Uuid,
    rootId: Uuid, researchId: Uuid, coderId: Uuid, announceIds: seq<Uuid>, freshId: Uuid)
    requires rootId != researchId && rootId != coderId && researchId != coderId
    requires rootId !in tasks && researchId !in tasks && coderId !in tasks
    requires |announceIds| == 2
    ensures var s := Decide(tasks, MissionMessage(missionId, messageId, goal), rootId, researchId, coderId);
      var ps := Announcements(agentId, s.decision.newTasks, announceIds);
      && |s.tasks| == |tasks| + 3
      && researchId in s.tasks && coderId in s.tasks
      && s.decision.newTasks == [s.tasks[researchId], s.tasks[coderId]]
      && |ps| == 2
      && ps[0].channel == ResearcherTasksChannel
      && ps[1].channel == CoderTasksChannel
      && AnnouncesPendingTask(ps[0], s.tasks[researchId], missionId, goal, freshId)
      && AnnouncesPendingTask(ps[1], s.tasks[coderId], missionId, goal, freshId)
  {
    var m := MissionMessage(missionId, messageId, goal);
    MissionIntake(tasks, m, rootId, researchId, coderId);
    var s := Decide(tasks, m, rootId, researchId, coderId);
    AnnouncementValidates(agentId, s.decision.newTasks, announceIds, 0, freshId);
    AnnouncementValidates(agentId, s.decision.newTasks, announceIds, 1, freshId);
  }

  /** Every announcement's "task" entry validates back to the announced task. */
  lemma AnnouncementValidates(agentId: string, tasks: seq<Task>, ids: seq<Uuid>, k: nat, freshId: Uuid)
    requires |ids| == |tasks| && k < |tasks|
    ensures var p := Announcements(agentId, tasks, ids)[k];
      && p.channel == RouteChannel(tasks[k].assignedAgent)
      && p.message.messageType == TaskCreated
      && p.message.missionId == tasks[k].missionId
      && "task" in p.message.payload
      && ValidateTask(p.message.payload["task"], freshId) == Ok(tasks[k])
  {
    AnnouncementAt(agentId, tasks, ids, k);
    TaskRoundTrip(tasks[k], freshId);
  }

  /**
   * The researcher accepts an announced task, exactly as announced, when its
   * kind is "research", and skips it otherwise.
   */
  lemma ThinkOnAnnouncement(agentId: string, task: Task, id: Uuid, freshId: Uuid)
    ensures task.kind == "research" ==> Researcher.Think(Announce(agentId, task, id).message, freshId) == Accept(task)
    ensures task.kind != "research" ==> Researcher.Think(Announce(agentId, task, id).message, freshId) == Skip
  {
    TaskRoundTrip(task, freshId);
  }

  /**
   * Of the two announcements, the researcher accepts the research task exactly
   * as stored and skips the plan task.
   */
  lemma ResearcherTakesOnlyResearch(
    tasks: map<Uuid, Task>, agentId: string, message: SwarmMessage,
    rootId: Uuid, researchId: Uuid, coderId: Uuid, announceIds: seq<Uuid>, freshId: Uuid)
    requires message.messageType == MissionCreated
    requires rootId != researchId && rootId != coderId && researchId != coderId
    requires |announceIds| == 2
    ensures var s := Decide(tasks, message, rootId, researchId, coderId);
      var ps := Announcements(agentId, s.decision.newTasks, announceIds);
      && Researcher.Think(ps[0].message, freshId) == Accept(s.tasks[researchId])
      && Researcher.Think(ps[1].message, freshId) == Skip
  {
    MissionIntake(tasks, message, rootId, researchId, coderId);
    var s := Decide(tasks, message, rootId, researchId, coderId);
    var nt := s.decision.newTasks;
    assert nt[0] == s.tasks[researchId] && nt[0].kind == "research";
    assert nt[1].kind == "implementation_plan";
    AnnouncementAt(agentId, nt, announceIds, 0);
    AnnouncementAt(agentId, nt, announceIds, 1);
    ThinkOnAnnouncement(agentId, nt[0], announceIds[0], freshId);
    ThinkOnAnnouncement(agentId, nt[1], announceIds[1], freshId);
  }

  /**
   * The researcher's result for an accepted task, fed to the supervisor,
   * answers the announcement (its correlation id is the announcement's id)
   * and marks the stored task COMPLETED with the reported payload as result;
   * no other entry changes.
   */
  lemma ResultClosesTask(
    tasks: map<Uuid, Task>, announcement: SwarmMessage, freshId: Uuid, agentId: string,
    outcome: ResearchOutcome, resultId: Uuid, rootId: Uuid, researchId: Uuid, coderId: Uuid)
    requires KeysMatch(tasks)
    requires Researcher.Think(announcement, freshId).Accept?
    requires Researcher.Think(announcement, freshId).task.id in tasks
    ensures var task := Researcher.Think(announcement, freshId).task;
      var reply := ResultMessage(agentId, announcement, Execute(task, outcome), resultId);
      var s := Decide(tasks, reply, rootId, researchId, coderId);
      && reply.correlationId == Some(announcement.id)
      && s.tasks.Keys == tasks.Keys
      && s.tasks[task.id] == tasks[task.id].(status := Completed, result := Some(ReportPayload(Execute(task, outcome))))
      && (forall id :: id in tasks && id != task.id ==> s.tasks[id] == tasks[id])
  {
    var task := Researcher.Think(announcement, freshId).task;
    var reply := ResultMessage(agentId, announcement, Execute(task, outcome), resultId);
    ResultIntake(tasks, reply, rootId, researchId, coderId);
  }

  /**
   * A failed research run is recorded by the supervisor as COMPLETED, with
   * `{"error": message}` as the result: the supervisor never marks a task
   * FAILED.
   */
  lemma FailureRecordedAsCompletion(
    tasks: map<Uuid, Task>, announcement: SwarmMessage, freshId: Uuid, agentId: string,
    message: string, resultId: Uuid, rootId: Uuid, researchId: Uuid, coderId: Uuid)
    requires KeysMatch(tasks)
    requires Researcher.Think(announcement, freshId).Accept?
    requires Researcher.Think(announcement, freshId).task.id in tasks
    requires Researcher.Think(announcement, freshId).task.result == None
    ensures var task := Researcher.Think(announcement, freshId).task;
      var reply := ResultMessage(agentId, announcement, Execute(task, Raised(message)), resultId);
      var stored := Decide(tasks, reply, rootId, researchId, coderId).tasks[task.id];
      && stored.status == Completed
      && stored.result == Some(map["error" := VStr(message)])
  {
    var task := Researcher.Think(announcement, freshId).task;
    ResultClosesTask(tasks, announcement, freshId, agentId, Raised(message), resultId, rootId, researchId, coderId);
    FreshFailureReportsError(task, message);
  }

  /**
   * Routing lands on the listeners: a research task's announcement on the
   * researcher's channel only, a task with no worker agent back on the
   * supervisor's; a coder task on a channel neither of these two agents
   * hears; and the researcher's results on a channel only the supervisor hears.
   */
  lemma RoutesReachListeners(agent: Option<string>)
    ensures agent == Some("researcher") ==>
      RouteChannel(agent) in ResearcherInputChannels() && RouteChannel(agent) !in SupervisorInputChannels()
    ensures agent != Some("researcher") && agent != Some("coder") ==>
      RouteChannel(agent) in SupervisorInputChannels() && RouteChannel(agent) !in ResearcherInputChannels()
    ensures agent == Some("coder") ==>
      RouteChannel(agent) !in SupervisorInputChannels() && RouteChannel(agent) !in ResearcherInputChannels()
    ensures TaskResultsChannel in SupervisorInputChannels() && TaskResultsChannel !in ResearcherInputChannels()
  {
  }
}
