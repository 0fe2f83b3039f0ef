/**
 * One tick of the inactivity monitor: every session that is not finished and
 * has not been seen for strictly longer than the threshold becomes Inactive,
 * keeping its agent binding; if it held a slot, its agent's load drops by one
 * unless it is already zero.
 */
module InactivityMonitorWorker {
  import opened Models
  import opened SessionCounts
  import opened CapacityCalculator
  import opened EngineInvariant
  import opened InMemoryAgentStore
  import opened InMemoryChatStore

  /** Not Closed, Rejected or Inactive, and silent for longer than `inactiveAfter`. */
  predicate Reclaimable(s: ChatSession, now: Instant, inactiveAfter: int)
  {
    !IsFinished(s) && IsStale(s, now, inactiveAfter)
  }

  /** The monitor's effect on one session: only the status may change, and only to Inactive. */
  function Reclaim(s: ChatSession, now: Instant, inactiveAfter: int): (r: ChatSession)
    ensures r == s.(status := r.status)
    ensures r.status == Inactive <==> s.status == Inactive || Reclaimable(s, now, inactiveAfter)
    ensures r.status != s.status ==> Reclaimable(s, now, inactiveAfter)
  {
    if Reclaimable(s, now, inactiveAfter) then s.(status := Inactive) else s
  }

  function ReclaimAll(m: map<ChatId, ChatSession>, now: Instant, inactiveAfter: int): (r: map<ChatId, ChatSession>)
    ensures r.Keys == m.Keys
    ensures forall k :: k in m ==> r[k] == Reclaim(m[k], now, inactiveAfter)
  {
    map k | k in m :: Reclaim(m[k], now, inactiveAfter)
  }

  /**
   * A load after `stale` guarded decrements: each one lowers it by one only
   * while it is positive.
   */
  function Drain(load: int, stale: nat): (r: int)
    ensures load <= 0 ==> r == load
    ensures load > 0 ==> 0 <= r <= load && (r == 0 || r == load - stale)
  {
    if load <= 0 then load else if load - stale < 0 then 0 else load - stale
  }

  lemma DrainStep(load: int, stale: nat)
    ensures Drain(load, stale + 1) == if Drain(load, stale) > 0 then Drain(load, stale) - 1 else Drain(load, stale)
  {
  }

  /** Each agent's load after the tick, from the sessions as they were before it. */
  ghost function ReleaseAll(agents: map<AgentId, Agent>, chats: map<ChatId, ChatSession>, now: Instant, inactiveAfter: int)
    : (r: map<AgentId, Agent>)
    ensures r.Keys == agents.Keys
  {
    map a | a in agents :: agents[a].(load := Drain(agents[a].load, Count(chats, StaleBoundTo(a, now, inactiveAfter))))
  }

  /** A session reclaimed by the tick is not reclaimed again at the same instant. */
  lemma ReclaimIdempotent(s: ChatSession, now: Instant, inactiveAfter: int)
    ensures Reclaim(Reclaim(s, now, inactiveAfter), now, inactiveAfter) == Reclaim(s, now, inactiveAfter)
  {
  }

  /** After a tick no stale session holds a slot, so a second tick at the same instant releases nothing. */
  lemma NothingStaleAfterTick(m: map<ChatId, ChatSession>, a: AgentId, now: Instant, inactiveAfter: int)
    ensures Count(ReclaimAll(m, now, inactiveAfter), StaleBoundTo(a, now, inactiveAfter)) == 0
  {
    assert Matching(ReclaimAll(m, now, inactiveAfter), StaleBoundTo(a, now, inactiveAfter)) == {};
  }

  /** A second tick at the same instant changes nothing. */
  lemma TickIdempotent(agents: map<AgentId, Agent>, chats: map<ChatId, ChatSession>, now: Instant, inactiveAfter: int)
    ensures var chats' := ReclaimAll(chats, now, inactiveAfter);
            && ReclaimAll(chats', now, inactiveAfter) == chats'
            && var agents' := ReleaseAll(agents, chats, now, inactiveAfter);
               ReleaseAll(agents', chats', now, inactiveAfter) == agents'
  {
    var chats' := ReclaimAll(chats, now, inactiveAfter);
    var agents' := ReleaseAll(agents, chats, now, inactiveAfter);
    forall a | a in agents'
      ensures Count(chats', StaleBoundTo(a, now, inactiveAfter)) == 0
    {
      NothingStaleAfterTick(chats, a, now, inactiveAfter);
    }
  }

  /**
   * The tick keeps the engine consistent: every session it reclaims from an
   * agent is exactly one it subtracts from that agent's load.
   */
  lemma TickKeepsInv(agents: map<AgentId, Agent>, chats: map<ChatId, ChatSession>, now: Instant, inactiveAfter: int)
    requires SystemInv(agents, chats)
    ensures SystemInv(ReleaseAll(agents, chats, now, inactiveAfter), ReclaimAll(chats, now, inactiveAfter))
  {
    var agents', chats' := ReleaseAll(agents, chats, now, inactiveAfter), ReclaimAll(chats, now, inactiveAfter);
    forall a | a in agents'
      ensures 0 <= agents'[a].load <= MaxConcurrentForAgent(agents'[a].seniority)
      ensures agents'[a].load == Count(chats', BoundTo(a))
    {
      ReleaseOneAgent(agents[a], a, chats, now, inactiveAfter);
    }
    assert LoadsWithinAllowance(agents');
    assert LoadsMatchBindings(agents', chats');
    ReclaimKeepsBindings(agents, agents', chats, now, inactiveAfter);
  }

  /** Reclaiming only moves sessions to Inactive, which keeps every binding and agrees with any binding. */
  lemma ReclaimKeepsBindings(agents: map<AgentId, Agent>, agents': map<AgentId, Agent>, chats: map<ChatId, ChatSession>,
                             now: Instant, inactiveAfter: int)
    requires BindingsKnown(agents, chats) && BindingsAgreeWithStatus(chats)
    requires agents'.Keys == agents.Keys
    ensures BindingsKnown(agents', ReclaimAll(chats, now, inactiveAfter))
    ensures BindingsAgreeWithStatus(ReclaimAll(chats, now, inactiveAfter))
  {
    var chats' := ReclaimAll(chats, now, inactiveAfter);
    forall k | k in chats'
      ensures chats'[k].assignedAgent == chats[k].assignedAgent
      ensures BindingAgreesWithStatus(chats'[k])
    {
      assert BindingAgreesWithStatus(chats[k]);
    }
  }

  /** For one agent: its drained load is the number of its slot-holding sessions that stay. */
  lemma ReleaseOneAgent(x: Agent, a: AgentId, chats: map<ChatId, ChatSession>, now: Instant, inactiveAfter: int)
    requires 0 <= x.load <= MaxConcurrentForAgent(x.seniority)
    requires x.load == Count(chats, BoundTo(a))
    ensures var n := Drain(x.load, Count(chats, StaleBoundTo(a, now, inactiveAfter)));
            && 0 <= n <= MaxConcurrentForAgent(x.seniority)
            && n == Count(ReclaimAll(chats, now, inactiveAfter), BoundTo(a))
  {
    var chats' := ReclaimAll(chats, now, inactiveAfter);
    var bound, stale := BoundTo(a), StaleBoundTo(a, now, inactiveAfter);
    assert Matching(chats, stale) <= Matching(chats, bound);
    assert Matching(chats', bound) == Matching(chats, bound) - Matching(chats, stale);
    CountRemoveSubset(chats, chats', bound, stale);
  }

  /**
   * The tick keeps every session's id, creation time and binding, and every
   * agent's identity; it never raises a load.
   */
  lemma TickKeepsHistory(agents: map<AgentId, Agent>, chats: map<ChatId, ChatSession>, now: Instant, inactiveAfter: int)
    ensures SessionsKeepHistory(chats, ReclaimAll(chats, now, inactiveAfter))
    ensures AgentsKeepIdentity(agents, ReleaseAll(agents, chats, now, inactiveAfter))
    ensures forall a :: a in agents ==> ReleaseAll(agents, chats, now, inactiveAfter)[a].load <= agents[a].load ||
                                        agents[a].load <= 0
  {
    var r := ReleaseAll(agents, chats, now, inactiveAfter);
    forall a | a in agents
      ensures a in r && SameAgentIdentity(agents[a], r[a])
    {
    }
  }

  /** Sessions part-way through the tick: the first `i` in store order have been checked. */
  ghost predicate ReclaimedUpTo(m0: map<ChatId, ChatSession>, order: seq<ChatId>, i: nat, now: Instant, inactiveAfter: int,
                                m: map<ChatId, ChatSession>)
  {
    && m.Keys == m0.Keys
    && forall j :: 0 <= j < |order| ==>
         order[j] in m0 && m[order[j]] == if j < i then Reclaim(m0[order[j]], now, inactiveAfter) else m0[order[j]]
  }

  /** Agents part-way through the tick: loads drained by the slot-holding stale sessions in `seen`. */
  ghost predicate ReleasedUpTo(agents0: map<AgentId, Agent>, seen: seq<ChatSession>, now: Instant, inactiveAfter: int,
                               agents: map<AgentId, Agent>)
  {
    && agents.Keys == agents0.Keys
    && forall a :: a in agents0 ==>
         agents[a] == agents0[a].(load := Drain(agents0[a].load, CountSeq(seen, StaleBoundTo(a, now, inactiveAfter))))
  }

  lemma ReclaimedStep(m0: map<ChatId, ChatSession>, order: seq<ChatId>, i: nat, now: Instant, inactiveAfter: int,
                      m: map<ChatId, ChatSession>)
    requires ReclaimedUpTo(m0, order, i, now, inactiveAfter, m)
    requires i < |order|
    requires forall j, j' :: 0 <= j < j' < |order| ==> order[j] != order[j']
    ensures ReclaimedUpTo(m0, order, i + 1, now, inactiveAfter, m[order[i] := Reclaim(m0[order[i]], now, inactiveAfter)])
  {
  }

  lemma ReclaimedDone(m0: map<ChatId, ChatSession>, order: seq<ChatId>, now: Instant, inactiveAfter: int,
                      m: map<ChatId, ChatSession>)
    requires ReclaimedUpTo(m0, order, |order|, now, inactiveAfter, m)
    requires forall k :: k in m0 ==> k in order
    ensures m == ReclaimAll(m0, now, inactiveAfter)
  {
    forall k | k in m0
      ensures m[k] == Reclaim(m0[k], now, inactiveAfter)
    {
      var j :| 0 <= j < |order| && order[j] == k;
    }
  }

  /** A session that holds no slot of any agent, or is not stale, releases nothing. */
  lemma ReleasedSkip(agents0: map<AgentId, Agent>, seen: seq<ChatSession>, c: ChatSession, now: Instant, inactiveAfter: int,
                     agents: map<AgentId, Agent>)
    requires ReleasedUpTo(agents0, seen, now, inactiveAfter, agents)
    requires forall a :: a in agents0 ==> !Matches(StaleBoundTo(a, now, inactiveAfter), c)
    ensures ReleasedUpTo(agents0, seen + [c], now, inactiveAfter, agents)
  {
    forall a | a in agents0
      ensures CountSeq(seen + [c], StaleBoundTo(a, now, inactiveAfter)) == CountSeq(seen, StaleBoundTo(a, now, inactiveAfter))
    {
      CountSeqSnoc(seen, c, StaleBoundTo(a, now, inactiveAfter));
    }
  }

  /** A stale session holding a slot of agent `b` lowers `b`'s load by one while positive. */
  lemma ReleasedOne(agents0: map<AgentId, Agent>, seen: seq<ChatSession>, c: ChatSession, now: Instant, inactiveAfter: int,
                    agents: map<AgentId, Agent>, b: AgentId)
    requires ReleasedUpTo(agents0, seen, now, inactiveAfter, agents)
    requires Matches(StaleBoundTo(b, now, inactiveAfter), c) && b in agents
    ensures ReleasedUpTo(agents0, seen + [c], now, inactiveAfter,
                         agents[b := agents[b].(load := if agents[b].load > 0 then agents[b].load - 1 else agents[b].load)])
  {
    forall a | a in agents0
      ensures CountSeq(seen + [c], StaleBoundTo(a, now, inactiveAfter)) ==
              CountSeq(seen, StaleBoundTo(a, now, inactiveAfter)) + (if a == b then 1 else 0)
    {
      CountSeqSnoc(seen, c, StaleBoundTo(a, now, inactiveAfter));
    }
    DrainStep(agents0[b].load, CountSeq(seen, StaleBoundTo(b, now, inactiveAfter)));
  }

  lemma ReleasedDone(agents0: map<AgentId, Agent>, all: seq<ChatSession>, chats0: map<ChatId, ChatSession>,
                     now: Instant, inactiveAfter: int, agents: map<AgentId, Agent>)
    requires ReleasedUpTo(agents0, all, now, inactiveAfter, agents)
    requires DistinctIds(all)
    requires forall j :: 0 <= j < |all| ==> all[j].id in chats0 && chats0[all[j].id] == all[j]
    requires chats0.Keys == IdsOf(all)
    ensures agents == ReleaseAll(agents0, chats0, now, inactiveAfter)
  {
    forall a | a in agents0
      ensures CountSeq(all, StaleBoundTo(a, now, inactiveAfter)) == Count(chats0, StaleBoundTo(a, now, inactiveAfter))
    {
      CountSeqIsCount(all, chats0, StaleBoundTo(a, now, inactiveAfter));
    }
  }

  /** The agent map after the loop body for session `c`: its agent loses one slot while its load is positive. */
  function ReleaseFor(m: map<AgentId, Agent>, c: ChatSession, now: Instant, inactiveAfter: int): (r: map<AgentId, Agent>)
    ensures r.Keys == m.Keys
  {
    if Reclaimable(c, now, inactiveAfter) && HoldsCapacity(c) && c.assignedAgent.Some?
       && c.assignedAgent.value in m && m[c.assignedAgent.value].load > 0
    then m[c.assignedAgent.value := m[c.assignedAgent.value].(load := m[c.assignedAgent.value].load - 1)]
    else m
  }

  lemma ReleasedStep(agents0: map<AgentId, Agent>, seen: seq<ChatSession>, c: ChatSession, now: Instant, inactiveAfter: int,
                     agents: map<AgentId, Agent>)
    requires ReleasedUpTo(agents0, seen, now, inactiveAfter, agents)
    ensures ReleasedUpTo(agents0, seen + [c], now, inactiveAfter, ReleaseFor(agents, c, now, inactiveAfter))
  {
    if HoldsCapacity(c) && c.assignedAgent.Some? && c.assignedAgent.value in agents && IsStale(c, now, inactiveAfter) {
      ReleasedOne(agents0, seen, c, now, inactiveAfter, agents, c.assignedAgent.value);
      assert ReleaseFor(agents, c, now, inactiveAfter) ==
             agents[c.assignedAgent.value := agents[c.assignedAgent.value].(load :=
               if agents[c.assignedAgent.value].load > 0 then agents[c.assignedAgent.value].load - 1
               else agents[c.assignedAgent.value].load)];
    } else {
      ReleasedSkip(agents0, seen, c, now, inactiveAfter, agents);
    }
  }

  /** `all` enumerates the store `m` in key order `order`: one entry per key, each as stored. */
  ghost predicate Enumerates(all: seq<ChatSession>, order: seq<ChatId>, m: map<ChatId, ChatSession>)
  {
    && |all| == |order|
    && (forall j, j' :: 0 <= j < j' < |order| ==> order[j] != order[j'])
    && (forall j :: 0 <= j < |all| ==> all[j].id == order[j] && order[j] in m && m[order[j]] == all[j])
    && (forall k :: k in m ==> k in order)
  }

  /** The tick after its first `i` sessions, in both maps. */
  ghost predicate TickUpTo(chats0: map<ChatId, ChatSession>, agents0: map<AgentId, Agent>, order: seq<ChatId>,
                           all: seq<ChatSession>, i: nat, now: Instant, inactiveAfter: int,
                           chats: map<ChatId, ChatSession>, agents: map<AgentId, Agent>)
  {
    && i <= |all|
    && ReclaimedUpTo(chats0, order, i, now, inactiveAfter, chats)
    && ReleasedUpTo(agents0, all[..i], now, inactiveAfter, agents)
  }

  /** Before the first session nothing has been checked. */
  lemma TickStarts(chats0: map<ChatId, ChatSession>, agents0: map<AgentId, Agent>, order: seq<ChatId>, all: seq<ChatSession>,
                   now: Instant, inactiveAfter: int)
    requires Enumerates(all, order, chats0)
    ensures TickUpTo(chats0, agents0, order, all, 0, now, inactiveAfter, chats0, agents0)
  {
    assert all[..0] == [];
  }

  /** The next session of the enumeration is still stored as it was. */
  lemma TickNext(chats0: map<ChatId, ChatSession>, agents0: map<AgentId, Agent>, order: seq<ChatId>, all: seq<ChatSession>,
                 i: nat, now: Instant, inactiveAfter: int,
                 chats: map<ChatId, ChatSession>, agents: map<AgentId, Agent>)
    requires Enumerates(all, order, chats0)
    requires TickUpTo(chats0, agents0, order, all, i, now, inactiveAfter, chats, agents)
    requires i < |all|
    ensures all[i].id in chats && chats[all[i].id] == all[i]
  {
  }

  /** One session of the tick: the checked prefix of the store and of the enumeration grows by one. */
  lemma TickStep(chats0: map<ChatId, ChatSession>, agents0: map<AgentId, Agent>, order: seq<ChatId>, all: seq<ChatSession>,
                 i: nat, now: Instant, inactiveAfter: int,
                 chats: map<ChatId, ChatSession>, agents: map<AgentId, Agent>,
                 chats': map<ChatId, ChatSession>, agents': map<AgentId, Agent>)
    requires Enumerates(all, order, chats0)
    requires TickUpTo(chats0, agents0, order, all, i, now, inactiveAfter, chats, agents)
    requires i < |all|
    requires chats' == chats[all[i].id := Reclaim(all[i], now, inactiveAfter)]
    requires agents' == ReleaseFor(agents, all[i], now, inactiveAfter)
    ensures TickUpTo(chats0, agents0, order, all, i + 1, now, inactiveAfter, chats', agents')
  {
    assert all[..i + 1] == all[..i] + [all[i]];
    ReclaimedStep(chats0, order, i, now, inactiveAfter, chats);
    ReleasedStep(agents0, all[..i], all[i], now, inactiveAfter, agents);
  }

  /** Once every session has been checked, the tick has had its whole effect. */
  lemma TickDone(chats0: map<ChatId, ChatSession>, agents0: map<AgentId, Agent>, order: seq<ChatId>, all: seq<ChatSession>,
                 i: nat, now: Instant, inactiveAfter: int, chats: map<ChatId, ChatSession>, agents: map<AgentId, Agent>)
    requires Enumerates(all, order, chats0)
    requires TickUpTo(chats0, agents0, order, all, i, now, inactiveAfter, chats, agents)
    requires i >= |all|
    ensures chats == ReclaimAll(chats0, now, inactiveAfter)
    ensures agents == ReleaseAll(agents0, chats0, now, inactiveAfter)
  {
    ReclaimedDone(chats0, order, now, inactiveAfter, chats);
    assert all[..i] == all;
    forall k | k in chats0
      ensures k in IdsOf(all)
    {
      var j :| 0 <= j < |order| && order[j] == k;
      assert all[j] in all;
    }
    assert chats0.Keys == IdsOf(all);
    ReleasedDone(agents0, all, chats0, now, inactiveAfter, agents);
  }

  class InactivityMonitor {
    const chats: ChatStore
    const agents: AgentStore

    ghost predicate Valid()
      reads this, chats, agents
    {
      chats.Valid() && agents.Valid()
    }

    constructor (chats: ChatStore, agents: AgentStore)
      ensures this.chats == chats && this.agents == agents
    {
      this.chats := chats;
      this.agents := agents;
    }

    /**
     * The loop body for one session: a stale session that is not finished
     * becomes Inactive, and if it held a slot of an agent whose load is
     * positive, that load drops by one.
     */
    method InspectChat(chat: ChatSession, now: Instant, inactiveAfter: int)
      requires Valid()
      requires chat.id in chats.chats && chats.chats[chat.id] == chat
      modifies chats, agents
      ensures Valid()
      ensures chats.order == old(chats.order) && agents.order == old(agents.order)
      ensures chats.chats == old(chats.chats)[chat.id := Reclaim(chat, now, inactiveAfter)]
      ensures agents.agents == ReleaseFor(old(agents.agents), chat, now, inactiveAfter)
    {
      ghost var m0 := agents.agents;
      if chat.status == Closed || chat.status == Rejected || chat.status == Inactive {
        assert chats.chats == chats.chats[chat.id := chat];
        assert ReleaseFor(m0, chat, now, inactiveAfter) == m0;
        return;
      }
      var lastSeen := if chat.lastPollAt.Some? then chat.lastPollAt.value else chat.createdAt;
      if now - lastSeen <= inactiveAfter {
        assert chats.chats == chats.chats[chat.id := chat];
        assert ReleaseFor(m0, chat, now, inactiveAfter) == m0;
        return;
      }
      if chat.status == Assigned || chat.status == Active {
        if chat.assignedAgent.Some? {
          var agentId := chat.assignedAgent.value;
          var agent := agents.Get(agentId);
          if agent.Some? && agent.value.load > 0 {
            var a := agent.value;
            assert ReleaseFor(m0, chat, now, inactiveAfter) == m0[agentId := a.(load := a.load - 1)];
            agents.Upsert(a.(load := a.load - 1));
          } else {
            assert ReleaseFor(m0, chat, now, inactiveAfter) == m0;
          }
        } else {
          assert ReleaseFor(m0, chat, now, inactiveAfter) == m0;
        }
      } else {
        assert ReleaseFor(m0, chat, now, inactiveAfter) == m0;
      }
      chats.Update(chat.(status := Inactive));
    }

    /** One tick at instant `now` with the configured threshold. */
    method MarkInactiveChats(now: Instant, inactiveAfter: int)
      requires Valid()
      modifies chats, agents
      ensures Valid()
      ensures chats.order == old(chats.order) && agents.order == old(agents.order)
      ensures chats.chats == ReclaimAll(old(chats.chats), now, inactiveAfter)
      ensures agents.agents == ReleaseAll(old(agents.agents), old(chats.chats), now, inactiveAfter)
    {
      ghost var chats0, agents0, order := chats.chats, agents.agents, chats.order;
      var all := chats.All();
      TickStarts(chats0, agents0, order, all, now, inactiveAfter);
      var i := 0;
      while i < |all|
        invariant Valid()
        invariant chats.order == order && agents.order == old(agents.order)
        invariant TickUpTo(chats0, agents0, order, all, i, now, inactiveAfter, chats.chats, agents.agents)
      {
        ghost var chats1, agents1 := chats.chats, agents.agents;
        TickNext(chats0, agents0, order, all, i, now, inactiveAfter, chats1, agents1);
        InspectChat(all[i], now, inactiveAfter);
        TickStep(chats0, agents0, order, all, i, now, inactiveAfter, chats1, agents1, chats.chats, agents.agents);
        i := i + 1;
      }
      TickDone(chats0, agents0, order, all, i, now, inactiveAfter, chats.chats, agents.agents);
    }
  }
}
