/**
 * Admission of a new chat. The decision is a pure function of the
 * configuration, the instant and the two store snapshots: the main team's
 * lane while its backlog is below its ceiling, else the overflow lane while
 * overflow is enabled and has room, else rejection. The service object then
 * records the session and pushes its id onto the chosen lane's queue.
 */
module ChatAdmissionService {
  import opened Models
  import opened Seqs
  import opened CapacityCalculator
  import opened OfficeHoursService
  import opened TeamRoutingService
  import opened SessionCounts
  import opened EngineInvariant
  import opened InMemoryAgentStore
  import opened InMemoryChatStore
  import opened Queues

  /** The configuration values admission and overflow activation read. */
  datatype Settings = Settings(
    office: OfficeHours,
    forceOfficeHours: bool,
    mainMaxQueueOverride: Option<int>,
    usePressureForOverflowTrigger: bool)

  /**
   * Business hours are in effect, or forced for testing. Forcing always wins;
   * without it an empty window is never in office.
   */
  predicate InOffice(cfg: Settings, now: Instant)
    ensures cfg.forceOfficeHours ==> InOffice(cfg, now)
    ensures !cfg.forceOfficeHours && cfg.office.start >= cfg.office.end ==> !InOffice(cfg, now)
  {
    cfg.forceOfficeHours || cfg.office.IsWithinOfficeHours(now)
  }

  /**
   * The main team at `now`: the day team exactly when admission considers
   * itself in office, otherwise the night team; never TeamB or Overflow.
   */
  function MainTeam(cfg: Settings, now: Instant): (r: Teams)
    ensures r == TeamA <==> InOffice(cfg, now)
    ensures r == TeamA || r == TeamC
  {
    SelectMainTeam(cfg.office, now, cfg.forceOfficeHours)
  }

  /** The agents of `team`, whatever their flag. */
  function TeamMembers(agents: seq<Agent>, team: Teams): seq<Agent>
  {
    Filter(agents, (a: Agent) => a.team == team)
  }

  /** The accepting agents of the overflow team. */
  function AcceptingOverflowAgents(agents: seq<Agent>): seq<Agent>
  {
    Filter(agents, (a: Agent) => a.team == Overflow && a.accepting)
  }

  /** The test-only override takes effect only when it is set and positive. */
  predicate OverrideApplies(cfg: Settings)
  {
    cfg.mainMaxQueueOverride.Some? && cfg.mainMaxQueueOverride.value > 0
  }

  /**
   * The backlog ceiling of `team`: floor(1.5 c) for the capacity c of all its
   * agents, accepting or not, unless the override applies.
   */
  function MainCeiling(cfg: Settings, agents: seq<Agent>, team: Teams): (r: int)
    ensures OverrideApplies(cfg) ==> r == cfg.mainMaxQueueOverride.value && r > 0
    ensures !OverrideApplies(cfg) ==>
              var c := TeamCapacity(TeamMembers(agents, team));
              2 * r <= 3 * c < 2 * r + 2 && c <= r
  {
    if OverrideApplies(cfg) then cfg.mainMaxQueueOverride.value
    else MaxQueueSize(TeamCapacity(TeamMembers(agents, team)))
  }

  /** The sessions of `team` that still occupy its capacity: Queued, Assigned or Active. */
  function Backlog(chats: seq<ChatSession>, team: Teams): (r: nat)
    ensures r <= |chats|
    ensures (forall i :: 0 <= i < |chats| ==> chats[i].assignedTeam != Some(team) || !InBacklog(chats[i])) ==> r == 0
  {
    CountSeqNoneMatch(chats, BacklogOf(team));
    CountSeq(chats, BacklogOf(team))
  }

  /**
   * The main team's backlog is below its ceiling. A main team without
   * capacity has no room unless the override applies.
   */
  predicate MainHasRoom(cfg: Settings, now: Instant, agents: seq<Agent>, chats: seq<ChatSession>)
    ensures MainHasRoom(cfg, now, agents, chats) ==> MainCeiling(cfg, agents, MainTeam(cfg, now)) > 0
    ensures !OverrideApplies(cfg) && TeamCapacity(TeamMembers(agents, MainTeam(cfg, now))) == 0 ==>
              !MainHasRoom(cfg, now, agents, chats)
  {
    var team := MainTeam(cfg, now);
    Backlog(chats, team) < MainCeiling(cfg, agents, team)
  }

  /** Some overflow agent is accepting (the overflow worker's switch is on). */
  predicate AnyOverflowAccepting(agents: seq<Agent>)
  {
    exists i :: 0 <= i < |agents| && agents[i].team == Overflow && agents[i].accepting
  }

  /** Overflow is open only in office hours, so only while the day team is the main team. */
  predicate OverflowEnabled(cfg: Settings, now: Instant, agents: seq<Agent>)
    ensures OverflowEnabled(cfg, now, agents) ==> MainTeam(cfg, now) == TeamA
    ensures OverflowEnabled(cfg, now, agents) ==> exists a :: a in agents && a.team == Overflow && a.accepting
  {
    InOffice(cfg, now) && AnyOverflowAccepting(agents)
  }

  /** The overflow ceiling: floor(1.5 c) of the accepting overflow agents' capacity c; it never uses the override. */
  function OverflowCeiling(agents: seq<Agent>): (r: int)
    ensures var c := TeamCapacity(AcceptingOverflowAgents(agents));
            2 * r <= 3 * c < 2 * r + 2 && c <= r
  {
    MaxQueueSize(TeamCapacity(AcceptingOverflowAgents(agents)))
  }

  /** Overflow is enabled and its backlog is below its ceiling; this needs an accepting overflow agent with capacity. */
  predicate OverflowHasRoom(cfg: Settings, now: Instant, agents: seq<Agent>, chats: seq<ChatSession>)
    ensures OverflowHasRoom(cfg, now, agents, chats) ==>
              OverflowEnabled(cfg, now, agents) && TeamCapacity(AcceptingOverflowAgents(agents)) > 0
  {
    OverflowEnabled(cfg, now, agents) && Backlog(chats, Overflow) < OverflowCeiling(agents)
  }

  /** The lane a new chat is admitted to, or None for a rejection. */
  function TargetTeam(cfg: Settings, now: Instant, agents: seq<Agent>, chats: seq<ChatSession>): (r: Option<Teams>)
    ensures r != Some(TeamB)
  {
    if MainHasRoom(cfg, now, agents, chats) then Some(MainTeam(cfg, now))
    else if OverflowHasRoom(cfg, now, agents, chats) then Some(Overflow)
    else None
  }

  /** The main lane is chosen exactly when the main team's backlog is below its ceiling. */
  lemma MainLaneIffRoom(cfg: Settings, now: Instant, agents: seq<Agent>, chats: seq<ChatSession>)
    ensures TargetTeam(cfg, now, agents, chats) == Some(MainTeam(cfg, now)) <==>
              Backlog(chats, MainTeam(cfg, now)) < MainCeiling(cfg, agents, MainTeam(cfg, now))
  {
  }

  /**
   * The overflow lane is chosen exactly when the main lane has no room, it is
   * business hours, some overflow agent is accepting, and the overflow
   * backlog is below floor(1.5 c) for the accepting overflow agents' capacity.
   */
  lemma OverflowLaneConditions(cfg: Settings, now: Instant, agents: seq<Agent>, chats: seq<ChatSession>)
    ensures TargetTeam(cfg, now, agents, chats) == Some(Overflow) <==>
              && !MainHasRoom(cfg, now, agents, chats)
              && InOffice(cfg, now)
              && (exists a :: a in agents && a.team == Overflow && a.accepting)
              && var c := TeamCapacity(AcceptingOverflowAgents(agents));
                 2 * Backlog(chats, Overflow) < 3 * c - 1
  {
    var c := TeamCapacity(AcceptingOverflowAgents(agents));
    assert 2 * MaxQueueSize(c) <= 3 * c < 2 * MaxQueueSize(c) + 2;
    if AnyOverflowAccepting(agents) {
      var i :| 0 <= i < |agents| && agents[i].team == Overflow && agents[i].accepting;
      assert agents[i] in agents;
    }
  }

  /** A chat is rejected exactly when neither lane has room. */
  lemma RejectIffNoLane(cfg: Settings, now: Instant, agents: seq<Agent>, chats: seq<ChatSession>)
    ensures TargetTeam(cfg, now, agents, chats).None? <==>
              !MainHasRoom(cfg, now, agents, chats) && !OverflowHasRoom(cfg, now, agents, chats)
  {
  }

  /**
   * Main admission is monotone in the backlog: with the same roster, a
   * backlog no larger than one the main lane admits is admitted too.
   */
  lemma MainAdmissionMonotone(cfg: Settings, now: Instant, agents: seq<Agent>, chats: seq<ChatSession>, chats': seq<ChatSession>)
    requires TargetTeam(cfg, now, agents, chats) == Some(MainTeam(cfg, now))
    requires Backlog(chats', MainTeam(cfg, now)) <= Backlog(chats, MainTeam(cfg, now))
    ensures TargetTeam(cfg, now, agents, chats') == Some(MainTeam(cfg, now))
  {
    MainLaneIffRoom(cfg, now, agents, chats);
    MainLaneIffRoom(cfg, now, agents, chats');
  }

  /** The session recorded for a rejected request: Rejected, no team. */
  function RejectedSession(id: ChatId, now: Instant): (s: ChatSession)
    ensures s.id == id && s.createdAt == now && s.status == Rejected
    ensures s.assignedAgent.None? && s.assignedTeam.None? && s.lastPollAt.None?
  {
    NewSession(id, now).(status := Rejected)
  }

  /** The session recorded for an admitted request: Queued for `team`. */
  function QueuedSession(id: ChatId, now: Instant, team: Teams): (s: ChatSession)
    ensures s.id == id && s.createdAt == now && s.status == Queued
    ensures s.assignedAgent.None? && s.assignedTeam == Some(team) && s.lastPollAt.None?
  {
    NewSession(id, now).(assignedTeam := Some(team))
  }

  /** A bounded push: `id` is appended when there is room; `ok` is what the queue reports. */
  predicate PushEffect(before: seq<ChatId>, after: seq<ChatId>, capacity: nat, mode: FullMode, id: ChatId, ok: bool)
  {
    && after == (if |before| < capacity then before + [id] else before)
    && (ok <==> |before| < capacity || mode == DropWrite)
  }

  /**
   * What an admitted request to lane `team` records and reports: accepted,
   * a Queued session of that team; refused by the queue, the same session
   * turned Rejected and a non-accepted result.
   */
  predicate Recorded(team: Teams, id: ChatId, now: Instant, r: CreateChatResult, s: ChatSession)
  {
    if r.accepted then
      r == CreateChatResult(true, id, "OK", Some(team)) && s == QueuedSession(id, now, team)
    else
      r == CreateChatResult(false, id, "Rejected", None) && s == QueuedSession(id, now, team).(status := Rejected)
  }

  /** Writing a key twice leaves only the second value. */
  lemma OverwriteTwice(m: map<ChatId, ChatSession>, k: ChatId, v: ChatSession, w: ChatSession)
    ensures m[k := v][k := w] == m[k := w]
  {
  }

  class AdmissionService {
    const chats: ChatStore
    const agents: AgentStore
    const mainQueue: ChatQueue
    const overflowQueue: ChatQueue
    const cfg: Settings

    ghost predicate Valid()
      reads this, chats, agents, mainQueue, overflowQueue
    {
      chats.Valid() && agents.Valid() && mainQueue.Valid() && overflowQueue.Valid() && mainQueue != overflowQueue
    }

    constructor (chats: ChatStore, agents: AgentStore, mainQueue: ChatQueue, overflowQueue: ChatQueue, cfg: Settings)
      ensures this.chats == chats && this.agents == agents
      ensures this.mainQueue == mainQueue && this.overflowQueue == overflowQueue && this.cfg == cfg
    {
      this.chats := chats;
      this.agents := agents;
      this.mainQueue := mainQueue;
      this.overflowQueue := overflowQueue;
      this.cfg := cfg;
    }

    /**
     * Admits or rejects one new chat at instant `now`, under the fresh id
     * `id`. Exactly one session is added and no other session and no agent is
     * touched. A rejected request records a Rejected session without a team.
     * An admitted one records a Queued session of the chosen team and pushes
     * its id onto that lane's queue; if the queue refuses the id, the session
     * becomes Rejected (keeping its team) and the request is not accepted.
     */
    method CreateChat(now: Instant, id: ChatId) returns (r: CreateChatResult)
      requires Valid()
      requires id !in chats.chats
      modifies chats, mainQueue, overflowQueue
      ensures Valid()
      ensures r.chatId == id && id in chats.chats
      ensures chats.chats == old(chats.chats)[id := chats.chats[id]]
      ensures chats.order == old(chats.order) + [id]
      ensures Outcome(TargetTeam(cfg, now, agents.All(), old(chats.All())), id, now, r, chats.chats[id],
                      old(mainQueue.items), old(overflowQueue.items))
      ensures mainQueue.fullMode == DropWrite && overflowQueue.fullMode == DropWrite ==>
                (r.accepted <==> TargetTeam(cfg, now, agents.All(), old(chats.All())).Some?)
      ensures SystemInv(agents.agents, old(chats.chats)) ==> SystemInv(agents.agents, chats.chats)
    {
      var target := ChooseLane(now);
      if target.None? {
        var rejected := chats.Add(RejectedSession(id, now));
        if SystemInv(agents.agents, old(chats.chats)) {
          AddUnboundSessionKeepsInv(agents.agents, old(chats.chats), id, rejected);
        }
        return CreateChatResult(false, rejected.id, "Rejected", None);
      }
      r := AdmitTo(target.value, now, id);
    }

    /**
     * The outcome of one request whose decision was `target`: a rejection
     * records a Rejected session without a team and leaves both queues; an
     * admission pushes onto the lane's queue and records what `Recorded` says.
     */
    ghost predicate Outcome(target: Option<Teams>, id: ChatId, now: Instant, r: CreateChatResult, s: ChatSession,
                            mainBefore: seq<ChatId>, overflowBefore: seq<ChatId>)
      reads this, mainQueue, overflowQueue
    {
      match target
      case None =>
        && r == CreateChatResult(false, id, "Rejected", None)
        && s == RejectedSession(id, now)
        && mainQueue.items == mainBefore && overflowQueue.items == overflowBefore
      case Some(team) =>
        LanePushed(team, id, r.accepted, mainBefore, overflowBefore) && Recorded(team, id, now, r, s)
    }

    /**
     * The push of `id` onto the queue of lane `team` had its bounded-FIFO
     * effect, reported `ok`, and left the other queue as it was.
     */
    ghost predicate LanePushed(team: Teams, id: ChatId, ok: bool, mainBefore: seq<ChatId>, overflowBefore: seq<ChatId>)
      reads this, mainQueue, overflowQueue
    {
      if team == Overflow then
        mainQueue.items == mainBefore &&
        PushEffect(overflowBefore, overflowQueue.items, overflowQueue.capacity, overflowQueue.fullMode, id, ok)
      else
        overflowQueue.items == overflowBefore &&
        PushEffect(mainBefore, mainQueue.items, mainQueue.capacity, mainQueue.fullMode, id, ok)
    }

    /** Pushes `id` onto the queue of lane `team`. */
    method PushToLane(team: Teams, id: ChatId) returns (ok: bool)
      requires Valid()
      modifies mainQueue, overflowQueue
      ensures Valid()
      ensures LanePushed(team, id, ok, old(mainQueue.items), old(overflowQueue.items))
    {
      if team == Overflow {
        ok := overflowQueue.TryEnqueue(id);
      } else {
        ok := mainQueue.TryEnqueue(id);
      }
    }

    /**
     * The admission decision, computed as the service computes it from the
     * two snapshots. It changes nothing.
     */
    method ChooseLane(now: Instant) returns (target: Option<Teams>)
      requires Valid()
      ensures target == TargetTeam(cfg, now, agents.All(), chats.All())
    {
      var forceOffice := cfg.forceOfficeHours;
      var inOffice := forceOffice || cfg.office.IsWithinOfficeHours(now);
      var mainTeam := SelectMainTeam(cfg.office, now, forceOffice);

      var agentsSnapshot := agents.All();
      var chatsSnapshot := chats.All();

      var mainCapacity := TeamCapacity(TeamMembers(agentsSnapshot, mainTeam));
      var maxMainQueue := MaxQueueSize(mainCapacity);
      if cfg.mainMaxQueueOverride.Some? && cfg.mainMaxQueueOverride.value > 0 {
        maxMainQueue := cfg.mainMaxQueueOverride.value;
      }
      var mainBacklog := Backlog(chatsSnapshot, mainTeam);
      var mainHasRoom := mainBacklog < maxMainQueue;

      var overflowEnabled := inOffice && AnyOverflowAccepting(agentsSnapshot);
      var overflowCapacity := TeamCapacity(AcceptingOverflowAgents(agentsSnapshot));
      var maxOverflowQueue := MaxQueueSize(overflowCapacity);
      var overflowBacklog := Backlog(chatsSnapshot, Overflow);
      var overflowHasRoom := overflowEnabled && overflowBacklog < maxOverflowQueue;

      if mainHasRoom {
        target := Some(mainTeam);
      } else if overflowHasRoom {
        target := Some(Overflow);
      } else {
        target := None;
      }
    }

    /**
     * Records a Queued session of `team` and pushes its id onto that lane's
     * queue; a refused push turns the session Rejected.
     */
    method AdmitTo(team: Teams, now: Instant, id: ChatId) returns (r: CreateChatResult)
      requires Valid()
      requires id !in chats.chats
      modifies chats, mainQueue, overflowQueue
      ensures Valid()
      ensures r.chatId == id && id in chats.chats
      ensures chats.chats == old(chats.chats)[id := chats.chats[id]]
      ensures chats.order == old(chats.order) + [id]
      ensures LanePushed(team, id, r.accepted, old(mainQueue.items), old(overflowQueue.items))
      ensures Recorded(team, id, now, r, chats.chats[id])
      ensures SystemInv(agents.agents, old(chats.chats)) ==> SystemInv(agents.agents, chats.chats)
    {
      var chat := chats.Add(QueuedSession(id, now, team));
      var enqueued := PushToLane(team, chat.id);
      if !enqueued {
        var refused := chat.(status := Rejected);
        chats.Update(refused);
        OverwriteTwice(old(chats.chats), id, chat, refused);
        if SystemInv(agents.agents, old(chats.chats)) {
          AddUnboundSessionKeepsInv(agents.agents, old(chats.chats), id, refused);
        }
        return CreateChatResult(false, chat.id, "Rejected", None);
      }
      if SystemInv(agents.agents, old(chats.chats)) {
        AddUnboundSessionKeepsInv(agents.agents, old(chats.chats), id, chat);
      }
      r := CreateChatResult(true, chat.id, "OK", Some(team));
    }
  }
}
