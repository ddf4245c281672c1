/** The records of the contact center that both source files read and write:
    agents and their users, visitor conversations ("agent users"), service
    records and cached agent statuses. Only the fields the core touches are
    kept. */
module Entities {
  import opened Wrappers
  import opened JavaText
  import opened Int32

  /** Lower-case renderings of the `MainContext` enum constants used here
      (`AgentUserStatusEnum.INSERVICE`, `CallType.IN`/`OUT`, `MediaType.TEXT`). */
  const INSERVICE: string := "inservice"
  const CALLTYPE_IN: string := "in"
  const CALLTYPE_OUT: string := "out"
  const MEDIA_TEXT: string := "text"

  /** An agent's user account; `organs` lists the ids of the user's organs in
      the order the user's organ map yields them. */
  datatype User = User(uname: JString, organs: seq<string>)

  /** A skill group (an organ flagged as a skill). */
  datatype Organ = Organ(id: string)

  /** A cached agent status entry. */
  datatype AgentStatus = AgentStatus(agentno: string, username: JString)

  /** A visitor conversation ("agent user"): who the visitor is, which agent
      serves it, its lifecycle status and the chatbot's cumulative counters. */
  datatype AgentUser = AgentUser(
    id: string,
    userid: JString,
    orgi: JString,
    agentno: JString,
    agentname: JString,
    skill: JString,
    status: JString,
    channel: JString,
    appid: JString,
    chatbotround: int32,
    chatbotlogicerror: int32)

  /** A service record: the agent serving it and the transfer bookkeeping. */
  datatype AgentService = AgentService(agentno: JString, agentusername: JString, transmemo: JString, trans: bool)

  /** A repository or cache lookup by a key that may be null: nothing is
      found for a null key or an absent one. */
  function Find<V>(m: map<string, V>, key: JString): Option<V> {
    if key.Some? && key.value in m then Some(m[key.value]) else None
  }
}
