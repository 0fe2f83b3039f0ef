/**
 * The consistency the engine keeps between agents and sessions: every agent's
 * load lies between zero and its tier allowance and equals the number of
 * sessions bound to it that are Assigned or Active; bound agents exist; and a
 * session's agent binding agrees with its status.
 */
module EngineInvariant {
  import opened Models
  import opened SessionCounts
  import opened CapacityCalculator

  ghost predicate LoadsWithinAllowance(agents: map<AgentId, Agent>)
  {
    forall a :: a in agents ==> 0 <= agents[a].load <= MaxConcurrentForAgent(agents[a].seniority)
  }

  ghost predicate LoadsMatchBindings(agents: map<AgentId, Agent>, chats: map<ChatId, ChatSession>)
  {
    forall a :: a in agents ==> agents[a].load == Count(chats, BoundTo(a))
  }

  ghost predicate BindingsKnown(agents: map<AgentId, Agent>, chats: map<ChatId, ChatSession>)
  {
    forall k :: k in chats && chats[k].assignedAgent.Some? ==> chats[k].assignedAgent.value in agents
  }

  /** Queued and Rejected sessions have no agent; Assigned and Active ones have one. */
  predicate BindingAgreesWithStatus(s: ChatSession)
  {
    && (s.status == Queued || s.status == Rejected ==> s.assignedAgent.None?)
    && (HoldsCapacity(s) ==> s.assignedAgent.Some?)
  }

  ghost predicate BindingsAgreeWithStatus(chats: map<ChatId, ChatSession>)
  {
    forall k :: k in chats ==> BindingAgreesWithStatus(chats[k])
  }

  ghost predicate SystemInv(agents: map<AgentId, Agent>, chats: map<ChatId, ChatSession>)
  {
    && LoadsWithinAllowance(agents)
    && LoadsMatchBindings(agents, chats)
    && BindingsKnown(agents, chats)
    && BindingsAgreeWithStatus(chats)
  }

  /** A freshly seeded roster with no sessions is consistent. */
  lemma InitialStateIsConsistent(agents: map<AgentId, Agent>)
    requires forall a :: a in agents ==> agents[a].load == 0
    ensures SystemInv(agents, map[])
  {
    forall a | a in agents
      ensures agents[a].load == Count(map[], BoundTo(a))
    {
      CountEmpty(BoundTo(a));
    }
  }

  /** Adding a new session that holds no agent keeps the engine consistent. */
  lemma AddUnboundSessionKeepsInv(agents: map<AgentId, Agent>, chats: map<ChatId, ChatSession>, k: ChatId, v: ChatSession)
    requires SystemInv(agents, chats)
    requires k !in chats
    requires v.assignedAgent.None? && (v.status == Queued || v.status == Rejected)
    ensures SystemInv(agents, chats[k := v])
  {
    forall a | a in agents
      ensures agents[a].load == Count(chats[k := v], BoundTo(a))
    {
      CountUnchanged(chats, k, v, BoundTo(a));
    }
  }

  /**
   * Rewriting a session without changing whether, and to whom, it holds a slot,
   * and keeping its binding consistent with its status, preserves the invariant.
   */
  lemma RewriteSessionKeepsInv(agents: map<AgentId, Agent>, chats: map<ChatId, ChatSession>, k: ChatId, v: ChatSession)
    requires SystemInv(agents, chats)
    requires k in chats
    requires HoldsCapacity(v) == HoldsCapacity(chats[k])
    requires v.assignedAgent == chats[k].assignedAgent
    requires BindingAgreesWithStatus(v)
    ensures SystemInv(agents, chats[k := v])
  {
    forall a | a in agents
      ensures agents[a].load == Count(chats[k := v], BoundTo(a))
    {
      CountUnchanged(chats, k, v, BoundTo(a));
    }
  }

  /** Changing agents in ways that keep their loads and tiers preserves the invariant. */
  lemma RewriteAgentsKeepsInv(agents: map<AgentId, Agent>, agents': map<AgentId, Agent>, chats: map<ChatId, ChatSession>)
    requires SystemInv(agents, chats)
    requires agents'.Keys == agents.Keys
    requires forall a :: a in agents ==> agents'[a].load == agents[a].load && agents'[a].seniority == agents[a].seniority
    ensures SystemInv(agents', chats)
  {
  }

  /**
   * Binding a Queued session to an agent below its allowance, and raising that
   * agent's load by one, keeps the engine consistent.
   */
  lemma BindSessionKeepsInv(agents: map<AgentId, Agent>, chats: map<ChatId, ChatSession>, k: ChatId, a: AgentId)
    requires SystemInv(agents, chats)
    requires k in chats && chats[k].status == Queued
    requires a in agents && agents[a].load < MaxConcurrentForAgent(agents[a].seniority)
    ensures SystemInv(agents[a := agents[a].(load := agents[a].load + 1)],
                      chats[k := chats[k].(status := Assigned, assignedAgent := Some(a))])
  {
    var agents' := agents[a := agents[a].(load := agents[a].load + 1)];
    var v := chats[k].(status := Assigned, assignedAgent := Some(a));
    forall b | b in agents'
      ensures agents'[b].load == Count(chats[k := v], BoundTo(b))
    {
      CountUpdate(chats, k, v, BoundTo(b));
    }
  }

  /**
   * From one state to a later one no agent disappears and no agent's id,
   * team, seniority or shift times change.
   */
  ghost predicate AgentsKeepIdentity(before: map<AgentId, Agent>, after: map<AgentId, Agent>)
  {
    forall a :: a in before ==> a in after && SameAgentIdentity(before[a], after[a])
  }

  /**
   * From one state to a later one no session disappears, ids and creation
   * times stay, and a session bound to an agent stays bound to that agent.
   */
  ghost predicate SessionsKeepHistory(before: map<ChatId, ChatSession>, after: map<ChatId, ChatSession>)
  {
    forall k :: k in before ==>
      && k in after
      && SameSessionIdentity(before[k], after[k])
      && (before[k].assignedAgent.Some? ==> after[k].assignedAgent == before[k].assignedAgent)
  }

  /** Both histories compose along a run of operations. */
  lemma HistoryComposes(a0: map<AgentId, Agent>, a1: map<AgentId, Agent>, a2: map<AgentId, Agent>,
                        c0: map<ChatId, ChatSession>, c1: map<ChatId, ChatSession>, c2: map<ChatId, ChatSession>)
    requires AgentsKeepIdentity(a0, a1) && AgentsKeepIdentity(a1, a2)
    requires SessionsKeepHistory(c0, c1) && SessionsKeepHistory(c1, c2)
    ensures AgentsKeepIdentity(a0, a2) && SessionsKeepHistory(c0, c2)
  {
  }

  /** Storing a session under a fresh id keeps the history of every existing one. */
  lemma AddFreshKeepsHistory(chats: map<ChatId, ChatSession>, k: ChatId, v: ChatSession)
    requires k !in chats
    ensures SessionsKeepHistory(chats, chats[k := v])
    ensures forall j :: j in chats ==> chats[k := v][j] == chats[j]
  {
  }
}
