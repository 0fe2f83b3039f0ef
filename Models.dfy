/**
 * The domain records of the routing engine: teams, seniority tiers, the agent
 * and chat-session records, the session status and the admission result.
 *
 * Agents and sessions are values here. The source mutates them in place and
 * then always writes them back through the store, so a store that holds values
 * and is updated by key describes the same sequential behaviour.
 */
module Models {

  datatype Option<T> = None | Some(value: T)

  /** Identities (Guids in the source) are abstract; only equality is used. */
  type AgentId = nat
  type ChatId = nat

  /** An instant on the clock, in ticks. */
  type Instant = int

  /** The four teams; TeamA is the day team, TeamC the night team. */
  datatype Teams = TeamA | TeamB | TeamC | Overflow

  /** The seniority tiers an agent can hold. */
  datatype Seniority = Junior | Mid | Senior | TeamLead

  datatype ChatStatus = Queued | Assigned | Active | Inactive | Closed | Rejected

  /** An agent: id, team and seniority never change; the flag and the load do. */
  datatype Agent = Agent(
    id: AgentId,
    team: Teams,
    seniority: Seniority,
    shiftStart: Instant,
    shiftEnd: Instant,
    accepting: bool,
    load: int)

  /** A chat session; id and creation time never change. */
  datatype ChatSession = ChatSession(
    id: ChatId,
    createdAt: Instant,
    status: ChatStatus,
    assignedAgent: Option<AgentId>,
    assignedTeam: Option<Teams>,
    lastPollAt: Option<Instant>)

  /** What admission reports for one request. */
  datatype CreateChatResult = CreateChatResult(
    accepted: bool,
    chatId: ChatId,
    status: string,
    team: Option<Teams>)

  /** An agent as the object initialiser builds it: accepting, with no load. */
  function NewAgent(id: AgentId, team: Teams, seniority: Seniority, shiftStart: Instant, shiftEnd: Instant): (a: Agent)
    ensures a.id == id && a.team == team && a.seniority == seniority
    ensures a.shiftStart == shiftStart && a.shiftEnd == shiftEnd
    ensures a.accepting && a.load == 0
  {
    Agent(id, team, seniority, shiftStart, shiftEnd, true, 0)
  }

  /** A session as the object initialiser builds it: Queued, nothing bound, never polled. */
  function NewSession(id: ChatId, createdAt: Instant): (s: ChatSession)
    ensures s.id == id && s.createdAt == createdAt
    ensures s.status == Queued
    ensures s.assignedAgent == None && s.assignedTeam == None && s.lastPollAt == None
  {
    ChatSession(id, createdAt, Queued, None, None, None)
  }

  /** The parts of an agent that no operation may change after construction. */
  predicate SameAgentIdentity(a: Agent, b: Agent)
  {
    a.id == b.id && a.team == b.team && a.seniority == b.seniority &&
    a.shiftStart == b.shiftStart && a.shiftEnd == b.shiftEnd
  }

  /** The parts of a session that no operation may change after creation. */
  predicate SameSessionIdentity(s: ChatSession, t: ChatSession)
  {
    s.id == t.id && s.createdAt == t.createdAt
  }
}
