/**
 * Mission ingress (`create_mission` in app/main.py): a goal becomes one
 * MISSION_CREATED message on the supervisor's control channel, and the new
 * mission's id is returned. The HTTP layer around it is not modelled.
 */
module Mission {
  import opened Wrappers
  import opened Domain
  import opened Bus
  import opened Supervisor

  /** The message `create_mission` publishes for `goal`. */
  function MissionMessage(missionId: Uuid, messageId: Uuid, goal: string): (m: SwarmMessage)
    ensures m.messageType == MissionCreated && m.channel == SupervisorControlChannel
    ensures m.missionId == missionId && m.id == messageId
    ensures m.taskId == None && m.sourceAgent == None && m.targetAgent == Some("supervisor")
    ensures m.payload == map["goal" := VStr(goal)] && m.correlationId == None
  {
    SwarmMessage(messageId, missionId,
      taskId := None,
      sourceAgent := None,
      targetAgent := Some("supervisor"),
      channel := SupervisorControlChannel,
      messageType := MissionCreated,
      payload := map["goal" := VStr(goal)])
  }

  /**
   * Publishes exactly one MISSION_CREATED message on the control channel and
   * returns the mission id that message carries. `missionId` and `messageId`
   * are the fresh ids uuid4 would draw.
   */
  method CreateMission(bus: EventBus, goal: string, missionId: Uuid, messageId: Uuid) returns (r: Uuid)
    modifies bus
    ensures r == missionId
    ensures bus.published == old(bus.published) + [Publication(SupervisorControlChannel, MissionMessage(missionId, messageId, goal))]
    ensures bus.published[|bus.published| - 1].message.missionId == r
  {
    bus.Publish(SupervisorControlChannel, MissionMessage(missionId, messageId, goal));
    r := missionId;
  }
}
