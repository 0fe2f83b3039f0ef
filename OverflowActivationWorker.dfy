/**
 * One tick of the overflow activation worker. It recomputes, exactly as
 * admission does, whether the main team's backlog has reached its ceiling;
 * overflow is switched on when that is so during business hours, and every
 * overflow agent's accepting flag is overwritten with that decision.
 */
module OverflowActivationWorker {
  import opened Models
  import opened Seqs
  import opened CapacityCalculator
  import opened ShiftMonitorWorker
  import opened EngineInvariant
  import opened InMemoryAgentStore
  import opened InMemoryChatStore
  import opened ChatAdmissionService

  /**
   * Business hours and the main backlog at or above its ceiling. The switch
   * can only come on while the day team is the main team.
   */
  predicate EnableOverflow(cfg: Settings, now: Instant, agents: seq<Agent>, chats: seq<ChatSession>)
    ensures EnableOverflow(cfg, now, agents, chats) ==> InOffice(cfg, now) && MainTeam(cfg, now) == TeamA
    ensures !InOffice(cfg, now) ==> !EnableOverflow(cfg, now, agents, chats)
  {
    var mainTeam := MainTeam(cfg, now);
    InOffice(cfg, now) && Backlog(chats, mainTeam) >= MainCeiling(cfg, agents, mainTeam)
  }

  /** On the same state, the switch is on exactly when admission would find no room in the main lane. */
  lemma EnableIffMainFull(cfg: Settings, now: Instant, agents: seq<Agent>, chats: seq<ChatSession>)
    ensures EnableOverflow(cfg, now, agents, chats) <==> InOffice(cfg, now) && !MainHasRoom(cfg, now, agents, chats)
    ensures EnableOverflow(cfg, now, agents, chats) ==>
              TargetTeam(cfg, now, agents, chats) != Some(MainTeam(cfg, now))
  {
    MainLaneIffRoom(cfg, now, agents, chats);
  }

  /** The pressure-trigger setting is read but plays no part in the decision. */
  lemma EnableIgnoresPressureSetting(cfg: Settings, now: Instant, agents: seq<Agent>, chats: seq<ChatSession>, b: bool)
    ensures EnableOverflow(cfg.(usePressureForOverflowTrigger := b), now, agents, chats) == EnableOverflow(cfg, now, agents, chats)
  {
  }

  /** One agent after the tick: an overflow agent's flag is set to `enable`; any other agent is as it was. */
  function SetOverflowFlag(a: Agent, enable: bool): (b: Agent)
    ensures b == a.(accepting := b.accepting)
    ensures a.team == Overflow ==> b.accepting == enable
    ensures a.team != Overflow ==> b == a
  {
    if a.team == Overflow then a.(accepting := enable) else a
  }

  /** The tick's effect on the agent map. */
  function SetOverflowFlags(m: map<AgentId, Agent>, enable: bool): (r: map<AgentId, Agent>)
    ensures r.Keys == m.Keys
    ensures forall k :: k in m ==> r[k] == SetOverflowFlag(m[k], enable)
  {
    map k | k in m :: SetOverflowFlag(m[k], enable)
  }

  /** The decision the tick takes on a store with key order `order`, agent map `m` and session snapshot `chats`. */
  predicate Decision(cfg: Settings, now: Instant, order: seq<AgentId>, m: map<AgentId, Agent>, chats: seq<ChatSession>)
    requires forall i :: 0 <= i < |order| ==> order[i] in m
  {
    EnableOverflow(cfg, now, Snapshot(order, m), chats)
  }

  /** Outside business hours (and not forced) every overflow agent ends up not accepting. */
  lemma OutsideOfficeOverflowOff(cfg: Settings, now: Instant, agents: seq<Agent>, chats: seq<ChatSession>, m: map<AgentId, Agent>)
    requires !InOffice(cfg, now)
    ensures forall k :: k in m && m[k].team == Overflow ==>
              !SetOverflowFlags(m, EnableOverflow(cfg, now, agents, chats))[k].accepting
  {
  }

  /**
   * Filtering a team other than Overflow gives the same list before and after
   * the overflow flags are rewritten, position by position.
   */
  lemma {:induction false} TeamMembersIgnoreOverflowFlags(s: seq<Agent>, t: seq<Agent>, team: Teams)
    requires team != Overflow
    requires |s| == |t|
    requires forall i :: 0 <= i < |s| ==> t[i].team == s[i].team && (s[i].team != Overflow ==> t[i] == s[i])
    ensures TeamMembers(t, team) == TeamMembers(s, team)
  {
    if |s| > 0 {
      TeamMembersIgnoreOverflowFlags(s[1..], t[1..], team);
    }
  }

  /** Rewriting the overflow flags never changes the decision: the main team is never Overflow. */
  lemma DecisionIgnoresOverflowFlags(cfg: Settings, now: Instant, order: seq<AgentId>, m: map<AgentId, Agent>,
                                     chats: seq<ChatSession>, enable: bool)
    requires forall i :: 0 <= i < |order| ==> order[i] in m
    ensures Decision(cfg, now, order, SetOverflowFlags(m, enable), chats) == Decision(cfg, now, order, m, chats)
  {
    var s, t := Snapshot(order, m), Snapshot(order, SetOverflowFlags(m, enable));
    TeamMembersIgnoreOverflowFlags(s, t, MainTeam(cfg, now));
  }

  /** A second tick on the state the first one left changes nothing. */
  lemma TickIdempotent(cfg: Settings, now: Instant, order: seq<AgentId>, m: map<AgentId, Agent>, chats: seq<ChatSession>)
    requires forall i :: 0 <= i < |order| ==> order[i] in m
    ensures var m1 := SetOverflowFlags(m, Decision(cfg, now, order, m, chats));
            SetOverflowFlags(m1, Decision(cfg, now, order, m1, chats)) == m1
  {
    var e := Decision(cfg, now, order, m, chats);
    DecisionIgnoresOverflowFlags(cfg, now, order, m, chats, e);
    var m1 := SetOverflowFlags(m, e);
    assert SetOverflowFlags(m1, e) == m1;
  }

  /** Loads and tiers are untouched, so the engine stays consistent. */
  lemma TickKeepsInv(agents: map<AgentId, Agent>, chats: map<ChatId, ChatSession>, enable: bool)
    requires SystemInv(agents, chats)
    ensures SystemInv(SetOverflowFlags(agents, enable), chats)
  {
    RewriteAgentsKeepsInv(agents, SetOverflowFlags(agents, enable), chats);
  }

  /** Only the accepting flag of overflow agents changes; loads and identities stay. */
  lemma TickKeepsIdentity(m: map<AgentId, Agent>, enable: bool)
    ensures AgentsKeepIdentity(m, SetOverflowFlags(m, enable))
    ensures forall k :: k in m ==> SetOverflowFlags(m, enable)[k].load == m[k].load
  {
  }

  /**
   * The flag is overwritten whatever the shift: an overflow agent whose shift
   * has ended, switched off by the shift monitor, is switched back on when
   * overflow is enabled.
   */
  lemma ActivationUndoesShiftExpiry(m: map<AgentId, Agent>, k: AgentId, now: Instant)
    requires k in m && m[k].team == Overflow && now >= m[k].shiftEnd
    ensures !ExpireAll(m, now)[k].accepting
    ensures SetOverflowFlags(ExpireAll(m, now), true)[k].accepting
  {
  }

  class OverflowActivator {
    const chats: ChatStore
    const agents: AgentStore
    const cfg: Settings

    constructor (chats: ChatStore, agents: AgentStore, cfg: Settings)
      ensures this.chats == chats && this.agents == agents && this.cfg == cfg
    {
      this.chats := chats;
      this.agents := agents;
      this.cfg := cfg;
    }

    /** The saturation decision, computed as the worker computes it. It changes nothing. */
    method ComputeEnable(now: Instant) returns (enable: bool)
      requires chats.Valid() && agents.Valid()
      ensures enable == EnableOverflow(cfg, now, agents.All(), chats.All())
    {
      var forceOffice := cfg.forceOfficeHours;
      var inOffice := forceOffice || cfg.office.IsWithinOfficeHours(now);
      var mainTeam := MainTeam(cfg, now);
      var agentsSnapshot := agents.All();
      var chatsSnapshot := chats.All();
      var mainCapacity := TeamCapacity(TeamMembers(agentsSnapshot, mainTeam));
      var maxMainQueue := MaxQueueSize(mainCapacity);
      if cfg.mainMaxQueueOverride.Some? && cfg.mainMaxQueueOverride.value > 0 {
        maxMainQueue := cfg.mainMaxQueueOverride.value;
      }
      var mainBacklog := Backlog(chatsSnapshot, mainTeam);
      var usePressure := cfg.usePressureForOverflowTrigger;
      enable := inOffice && mainBacklog >= maxMainQueue;
    }

    /** One tick at `now`: every overflow agent's flag becomes the decision; nothing else changes. */
    method Tick(now: Instant)
      requires chats.Valid() && agents.Valid()
      modifies agents
      ensures agents.Valid()
      ensures agents.order == old(agents.order)
      ensures agents.agents == SetOverflowFlags(old(agents.agents), EnableOverflow(cfg, now, old(agents.All()), chats.All()))
    {
      ghost var e0 := EnableOverflow(cfg, now, agents.All(), chats.All());
      var enable := ComputeEnable(now);
      assert enable == e0;
      var snapshot := agents.All();
      var overflowAgents := TeamMembers(snapshot, Overflow);
      ghost var m0 := agents.agents;
      ghost var done: set<AgentId> := {};
      OverflowAgentsAreStored(m0, agents.order, snapshot);
      var i := 0;
      while i < |overflowAgents|
        invariant i <= |overflowAgents|
        invariant agents.Valid() && agents.order == old(agents.order)
        invariant Flagged(m0, done, enable, agents.agents)
        invariant Covered(overflowAgents, i, done)
        invariant StoredOverflow(m0, overflowAgents)
      {
        var agent := overflowAgents[i];
        assert agent.id in m0 && m0[agent.id] == agent && agent.team == Overflow;
        FlagStep(m0, done, enable, agents.agents, agent);
        CoveredStep(overflowAgents, i, done);
        agents.Upsert(agent.(accepting := enable));
        done := done + {agent.id};
        i := i + 1;
      }
      TickCoversOverflow(m0, agents.order, snapshot, done, enable, agents.agents);
      assert e0 == EnableOverflow(cfg, now, old(agents.All()), chats.All());
    }
  }

  /** Loop progress: exactly the agents in `done` have had their flag rewritten. */
  ghost predicate Flagged(m0: map<AgentId, Agent>, done: set<AgentId>, enable: bool, m: map<AgentId, Agent>)
  {
    && m.Keys == m0.Keys
    && forall k :: k in m0 ==> m[k] == if k in done then SetOverflowFlag(m0[k], enable) else m0[k]
  }

  /** The first `i` agents of `ov` have their ids in `done`. */
  ghost predicate Covered(ov: seq<Agent>, i: nat, done: set<AgentId>)
  {
    i <= |ov| && forall j :: 0 <= j < i ==> ov[j].id in done
  }

  lemma CoveredStep(ov: seq<Agent>, i: nat, done: set<AgentId>)
    requires Covered(ov, i, done) && i < |ov|
    ensures Covered(ov, i + 1, done + {ov[i].id})
  {
  }

  /** Rewriting one stored overflow agent extends `done` by its id. */
  lemma FlagStep(m0: map<AgentId, Agent>, done: set<AgentId>, enable: bool, m: map<AgentId, Agent>, a: Agent)
    requires Flagged(m0, done, enable, m)
    requires a.id in m0 && m0[a.id] == a && a.team == Overflow
    ensures Flagged(m0, done + {a.id}, enable, m[a.id := a.(accepting := enable)])
  {
  }

  /** Every agent of `ov` is an overflow agent stored in `m` under its id. */
  ghost predicate StoredOverflow(m: map<AgentId, Agent>, ov: seq<Agent>)
  {
    forall j :: 0 <= j < |ov| ==> ov[j].id in m && m[ov[j].id] == ov[j] && ov[j].team == Overflow
  }

  /** Every overflow agent of a snapshot of the store is stored under its id. */
  lemma OverflowAgentsAreStored(m: map<AgentId, Agent>, order: seq<AgentId>, snapshot: seq<Agent>)
    requires forall i :: 0 <= i < |order| ==> order[i] in m
    requires forall k :: k in m ==> m[k].id == k
    requires snapshot == Snapshot(order, m)
    ensures StoredOverflow(m, TeamMembers(snapshot, Overflow))
  {
    var ov := TeamMembers(snapshot, Overflow);
    forall j | 0 <= j < |ov|
      ensures ov[j].id in m && m[ov[j].id] == ov[j] && ov[j].team == Overflow
    {
      FilterMembers(snapshot, (a: Agent) => a.team == Overflow, ov[j]);
    }
  }

  /** After the loop every overflow agent of the store has been rewritten. */
  lemma TickCoversOverflow(m0: map<AgentId, Agent>, order: seq<AgentId>, snapshot: seq<Agent>, done: set<AgentId>,
                           enable: bool, m: map<AgentId, Agent>)
    requires forall i :: 0 <= i < |order| ==> order[i] in m0
    requires forall k :: k in m0 ==> k in order
    requires snapshot == Snapshot(order, m0)
    requires Flagged(m0, done, enable, m)
    requires Covered(TeamMembers(snapshot, Overflow), |TeamMembers(snapshot, Overflow)|, done)
    requires forall k :: k in m0 ==> m0[k].id == k
    ensures m == SetOverflowFlags(m0, enable)
  {
    var ov := TeamMembers(snapshot, Overflow);
    forall k | k in m0 && m0[k].team == Overflow
      ensures k in done
    {
      var i :| 0 <= i < |order| && order[i] == k;
      assert snapshot[i] == m0[k];
      FilterMembers(snapshot, (a: Agent) => a.team == Overflow, m0[k]);
      var j :| 0 <= j < |ov| && ov[j] == m0[k];
    }
  }
}
