/**
 * One tick of the shift monitor: every agent still accepting new chats once
 * its shift end has been reached stops accepting. Nothing else changes.
 */
module ShiftMonitorWorker {
  import opened Models
  import opened EngineInvariant
  import opened InMemoryAgentStore

  /** The shift check on one agent; the end instant itself is past the shift. */
  function Expire(a: Agent, now: Instant): (b: Agent)
    ensures b == a.(accepting := b.accepting)
    ensures b.accepting <==> a.accepting && now < a.shiftEnd
  {
    if a.accepting && now >= a.shiftEnd then a.(accepting := false) else a
  }

  /** The tick's effect on the whole agent map. */
  function ExpireAll(m: map<AgentId, Agent>, now: Instant): (r: map<AgentId, Agent>)
    ensures r.Keys == m.Keys
    ensures forall k :: k in m ==> r[k] == Expire(m[k], now)
  {
    map k | k in m :: Expire(m[k], now)
  }

  /** A second tick at the same instant changes nothing. */
  lemma ExpireAllIdempotent(m: map<AgentId, Agent>, now: Instant)
    ensures ExpireAll(ExpireAll(m, now), now) == ExpireAll(m, now)
  {
  }

  /** The shift start is never consulted. */
  lemma ExpireIgnoresShiftStart(a: Agent, now: Instant, start: Instant)
    ensures Expire(a.(shiftStart := start), now) == Expire(a, now).(shiftStart := start)
  {
  }

  /** Loads and tiers are untouched, so the engine stays consistent. */
  lemma ExpireAllKeepsInv(agents: map<AgentId, Agent>, chats: map<ChatId, ChatSession>, now: Instant)
    requires SystemInv(agents, chats)
    ensures SystemInv(ExpireAll(agents, now), chats)
  {
    RewriteAgentsKeepsInv(agents, ExpireAll(agents, now), chats);
  }

  /** Only the accepting flag changes, and never from off to on. */
  lemma ExpireAllKeepsIdentity(m: map<AgentId, Agent>, now: Instant)
    ensures AgentsKeepIdentity(m, ExpireAll(m, now))
    ensures forall k :: k in m ==> ExpireAll(m, now)[k].load == m[k].load
    ensures forall k :: k in m && ExpireAll(m, now)[k].accepting ==> m[k].accepting
  {
  }

  /** The agent map part-way through a tick: the first `i` agents in store order have been checked. */
  ghost predicate ExpiredUpTo(m0: map<AgentId, Agent>, order: seq<AgentId>, i: nat, now: Instant, m: map<AgentId, Agent>)
  {
    && m.Keys == m0.Keys
    && forall j :: 0 <= j < |order| ==> order[j] in m0 && m[order[j]] == if j < i then Expire(m0[order[j]], now) else m0[order[j]]
  }

  /** Checking an agent that the source switches off. */
  lemma ExpiredStep(m0: map<AgentId, Agent>, order: seq<AgentId>, i: nat, now: Instant, m: map<AgentId, Agent>)
    requires ExpiredUpTo(m0, order, i, now, m)
    requires i < |order|
    requires forall j, j' :: 0 <= j < j' < |order| ==> order[j] != order[j']
    ensures ExpiredUpTo(m0, order, i + 1, now, m[order[i] := Expire(m0[order[i]], now)])
  {
  }

  /** Checking an agent that the source leaves alone. */
  lemma ExpiredSkip(m0: map<AgentId, Agent>, order: seq<AgentId>, i: nat, now: Instant, m: map<AgentId, Agent>)
    requires ExpiredUpTo(m0, order, i, now, m)
    requires i < |order|
    requires forall j, j' :: 0 <= j < j' < |order| ==> order[j] != order[j']
    requires !(m0[order[i]].accepting && now >= m0[order[i]].shiftEnd)
    ensures ExpiredUpTo(m0, order, i + 1, now, m)
  {
  }

  lemma ExpiredDone(m0: map<AgentId, Agent>, order: seq<AgentId>, now: Instant, m: map<AgentId, Agent>)
    requires ExpiredUpTo(m0, order, |order|, now, m)
    requires forall k :: k in m0 ==> k in order
    ensures m == ExpireAll(m0, now)
  {
    forall k | k in m0
      ensures m[k] == Expire(m0[k], now)
    {
      var j :| 0 <= j < |order| && order[j] == k;
    }
  }

  class ShiftMonitor {
    const agents: AgentStore

    constructor (agents: AgentStore)
      ensures this.agents == agents
    {
      this.agents := agents;
    }

    method Tick(now: Instant)
      requires agents.Valid()
      modifies agents
      ensures agents.Valid()
      ensures agents.order == old(agents.order)
      ensures agents.agents == ExpireAll(old(agents.agents), now)
    {
      ghost var m0, order := agents.agents, agents.order;
      var snapshot := agents.All();
      var i := 0;
      while i < |snapshot|
        invariant i <= |snapshot| == |order|
        invariant agents.Valid()
        invariant agents.order == order
        invariant ExpiredUpTo(m0, order, i, now, agents.agents)
      {
        var agent := snapshot[i];
        if agent.accepting && now >= agent.shiftEnd {
          ExpiredStep(m0, order, i, now, agents.agents);
          agents.Upsert(agent.(accepting := false));
        } else {
          ExpiredSkip(m0, order, i, now, agents.agents);
        }
        i := i + 1;
      }
      ExpiredDone(m0, order, now, agents.agents);
    }
  }
}
