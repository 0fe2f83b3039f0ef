/**
 * Tiered round-robin selection. Tiers are tried in the order Junior, Mid,
 * Senior, TeamLead; within the first tier that has an agent with room, a
 * rotating index kept per (team, tier) chooses among the agents available now.
 *
 * `PickNext` is the selection as a function of the agent snapshot and the
 * index map; the assigner object holds the index map and its method is proved
 * to compute exactly `PickNext`.
 */
module RoundRobinAssigner {
  import opened Models
  import opened Seqs
  import opened CapacityCalculator

  type RrKey = (Teams, Seniority)

  /** The tier preference order. */
  const Preference: seq<Seniority> := [Junior, Mid, Senior, TeamLead]

  /** The accepting agents of `team`. */
  function TeamAgents(agents: seq<Agent>, team: Teams): seq<Agent>
  {
    Filter(agents, (a: Agent) => a.team == team && a.accepting)
  }

  /** The agents of tier `tier` among `teamAgents`. */
  function Candidates(teamAgents: seq<Agent>, tier: Seniority): seq<Agent>
  {
    Filter(teamAgents, (a: Agent) => a.seniority == tier)
  }

  /** An agent has room while its load is below its tier allowance. */
  predicate HasRoom(a: Agent)
  {
    a.load < MaxConcurrentForAgent(a.seniority)
  }

  /** The agents among `candidates` that have room. */
  function AvailableAmong(candidates: seq<Agent>): seq<Agent>
  {
    Filter(candidates, (a: Agent) => HasRoom(a))
  }

  /** The accepting agents of `team` and `tier` that have room, in snapshot order. */
  function Available(agents: seq<Agent>, team: Teams, tier: Seniority): seq<Agent>
  {
    AvailableAmong(Candidates(TeamAgents(agents, team), tier))
  }

  /** The available agents are exactly the snapshot's accepting agents of that team and tier with room. */
  lemma AvailableMembers(agents: seq<Agent>, team: Teams, tier: Seniority, a: Agent)
    ensures a in Available(agents, team, tier) <==>
              a in agents && a.team == team && a.accepting && a.seniority == tier && HasRoom(a)
  {
    var teamAgents := TeamAgents(agents, team);
    FilterMembers(agents, (a: Agent) => a.team == team && a.accepting, a);
    FilterMembers(teamAgents, (a: Agent) => a.seniority == tier, a);
    FilterMembers(Candidates(teamAgents, tier), (a: Agent) => HasRoom(a), a);
  }

  /** The stored rotation index of `key`; an absent key reads as 0. */
  function IndexOf(rr: map<RrKey, nat>, key: RrKey): nat
  {
    if key in rr then rr[key] else 0
  }

  /** The position in `Preference`, from `from` on, of the first tier with an available agent. */
  function FirstAvailableTier(agents: seq<Agent>, team: Teams, from: nat): (r: Option<nat>)
    requires from <= |Preference|
    ensures r.Some? ==> from <= r.value < |Preference| && Available(agents, team, Preference[r.value]) != []
    ensures forall t :: from <= t < (if r.Some? then r.value else |Preference|) ==>
              Available(agents, team, Preference[t]) == []
    decreases |Preference| - from
  {
    if from == |Preference| then None
    else if Available(agents, team, Preference[from]) != [] then Some(from)
    else FirstAvailableTier(agents, team, from + 1)
  }

  /** The agent chosen (if any) and the index map afterwards. */
  datatype Pick = Pick(agent: Option<Agent>, index: map<RrKey, nat>)

  /**
   * One selection: in the first tier with an available agent, the agent at the
   * stored index modulo the number available; the index advances by one
   * modulo that number.
   */
  function PickNext(agents: seq<Agent>, team: Teams, rr: map<RrKey, nat>): (r: Pick)
    ensures r.agent.Some? <==> FirstAvailableTier(agents, team, 0).Some?
    ensures r.agent.None? ==> r.index == rr
  {
    match FirstAvailableTier(agents, team, 0)
    case None => Pick(None, rr)
    case Some(t) =>
      var tier := Preference[t];
      var available := Available(agents, team, tier);
      var idx := IndexOf(rr, (team, tier));
      Pick(Some(available[idx % |available|]), rr[(team, tier) := (idx + 1) % |available|])
  }

  /** A picked agent is in the snapshot, of the requested team, accepting, and below its allowance. */
  lemma PickIsEligible(agents: seq<Agent>, team: Teams, rr: map<RrKey, nat>)
    requires PickNext(agents, team, rr).agent.Some?
    ensures var a := PickNext(agents, team, rr).agent.value;
            a in agents && a.team == team && a.accepting && HasRoom(a)
  {
    var t := FirstAvailableTier(agents, team, 0).value;
    var av := Available(agents, team, Preference[t]);
    var idx := IndexOf(rr, (team, Preference[t]));
    assert av[idx % |av|] in av;
    AvailableMembers(agents, team, Preference[t], av[idx % |av|]);
  }

  /** Nothing is picked exactly when no tier has an available agent; then the index map is unchanged. */
  lemma PickNoneIffNoneAvailable(agents: seq<Agent>, team: Teams, rr: map<RrKey, nat>)
    ensures PickNext(agents, team, rr).agent.None? <==>
              forall t :: 0 <= t < |Preference| ==> Available(agents, team, Preference[t]) == []
    ensures PickNext(agents, team, rr).agent.None? ==> PickNext(agents, team, rr).index == rr
  {
    var first := FirstAvailableTier(agents, team, 0);
    if first.Some? {
      assert Available(agents, team, Preference[first.value]) != [];
    }
  }

  /**
   * Only the chosen (team, tier) entry of the index map changes, and it is left
   * below the number of agents available in that tier.
   */
  lemma PickTouchesOneIndex(agents: seq<Agent>, team: Teams, rr: map<RrKey, nat>)
    requires PickNext(agents, team, rr).agent.Some?
    ensures var p := PickNext(agents, team, rr);
            var tier := p.agent.value.seniority;
            && (team, tier) in p.index
            && p.index[(team, tier)] < |Available(agents, team, tier)|
            && p.index.Keys == rr.Keys + {(team, tier)}
            && forall k :: k in rr && k != (team, tier) ==> p.index[k] == rr[k]
  {
    var t := FirstAvailableTier(agents, team, 0).value;
    var av := Available(agents, team, Preference[t]);
    var idx := IndexOf(rr, (team, Preference[t]));
    assert av[idx % |av|] in av;
    AvailableMembers(agents, team, Preference[t], av[idx % |av|]);
  }

  /** With no accepting agent in the team, nothing is picked. */
  lemma NoTeamAgentsNoPick(agents: seq<Agent>, team: Teams, rr: map<RrKey, nat>)
    requires TeamAgents(agents, team) == []
    ensures PickNext(agents, team, rr) == Pick(None, rr)
  {
    PickNoneIffNoneAvailable(agents, team, rr);
  }

  /**
   * The picked agent is of the first tier, in preference order, that has an
   * available agent; no earlier tier has one.
   */
  lemma PickPrefersEarlierTiers(agents: seq<Agent>, team: Teams, rr: map<RrKey, nat>)
    requires PickNext(agents, team, rr).agent.Some?
    ensures exists t :: 0 <= t < |Preference| &&
              PickNext(agents, team, rr).agent.value.seniority == Preference[t] &&
              forall t' :: 0 <= t' < t ==> Available(agents, team, Preference[t']) == []
  {
    var t := FirstAvailableTier(agents, team, 0).value;
    var av := Available(agents, team, Preference[t]);
    var idx := IndexOf(rr, (team, Preference[t]));
    assert av[idx % |av|] in av;
    AvailableMembers(agents, team, Preference[t], av[idx % |av|]);
  }

  /**
   * The rotation: with stored index idx and n agents available in the chosen
   * tier, the pick is the agent at idx mod n and the stored index becomes
   * (idx + 1) mod n.
   */
  lemma PickRotates(agents: seq<Agent>, team: Teams, rr: map<RrKey, nat>, t: nat)
    requires FirstAvailableTier(agents, team, 0) == Some(t)
    ensures var av := Available(agents, team, Preference[t]);
            var key := (team, Preference[t]);
            var idx := IndexOf(rr, key);
            && PickNext(agents, team, rr).agent == Some(av[idx % |av|])
            && PickNext(agents, team, rr).index == rr[key := (idx + 1) % |av|]
  {
  }

  /** The picks made by `k` selections in a row against the same snapshot. */
  function PickRepeatedly(agents: seq<Agent>, team: Teams, rr: map<RrKey, nat>, k: nat): (r: seq<Option<Agent>>)
    ensures |r| == k
    decreases k
  {
    if k == 0 then []
    else
      var p := PickNext(agents, team, rr);
      [p.agent] + PickRepeatedly(agents, team, p.index, k - 1)
  }

  /**
   * Against an unchanging snapshot whose first available tier has n agents,
   * consecutive selections starting from stored index i < n return the agents
   * at positions i, i + 1, ... for as long as those stay below n.
   */
  lemma {:induction false} PicksCycle(agents: seq<Agent>, team: Teams, rr: map<RrKey, nat>, k: nat, t: nat)
    requires FirstAvailableTier(agents, team, 0) == Some(t)
    requires IndexOf(rr, (team, Preference[t])) + k <= |Available(agents, team, Preference[t])|
    ensures var av := Available(agents, team, Preference[t]);
            var i := IndexOf(rr, (team, Preference[t]));
            forall j :: 0 <= j < k ==> PickRepeatedly(agents, team, rr, k)[j] == Some(av[i + j])
    decreases k
  {
    var av := Available(agents, team, Preference[t]);
    var key := (team, Preference[t]);
    var i := IndexOf(rr, key);
    if k > 0 {
      PickRotates(agents, team, rr, t);
      SmallMod(i, |av|);
      var rr' := PickNext(agents, team, rr).index;
      var picks := PickRepeatedly(agents, team, rr, k);
      var rest := PickRepeatedly(agents, team, rr', k - 1);
      assert picks == [Some(av[i])] + rest;
      if k > 1 {
        SmallMod(i + 1, |av|);
        assert IndexOf(rr', key) == i + 1;
        PicksCycle(agents, team, rr', k - 1, t);
      }
      forall j | 0 <= j < k
        ensures picks[j] == Some(av[i + j])
      {
        if j > 0 {
          assert picks[j] == rest[j - 1];
        }
      }
    }
  }

  lemma SmallMod(i: int, n: int)
    requires 0 <= i < n
    ensures i % n == i
  {
  }

  /**
   * Fairness: with no stored index and n agents available in the first
   * available tier, n selections in a row return exactly those n agents, each
   * once, in snapshot order.
   */
  lemma RoundRobinVisitsEachOnce(agents: seq<Agent>, team: Teams, rr: map<RrKey, nat>, t: nat)
    requires FirstAvailableTier(agents, team, 0) == Some(t)
    requires (team, Preference[t]) !in rr
    ensures var av := Available(agents, team, Preference[t]);
            PickRepeatedly(agents, team, rr, |av|) == seq(|av|, j requires 0 <= j < |av| => Some(av[j]))
  {
    PicksCycle(agents, team, rr, |Available(agents, team, Preference[t])|, t);
  }

  /** When tier `t` is the first with an available agent, the pick is made there. */
  lemma PickAtFirstTier(agents: seq<Agent>, team: Teams, rr: map<RrKey, nat>, t: nat)
    requires t < |Preference| && FirstAvailableTier(agents, team, t) == FirstAvailableTier(agents, team, 0)
    requires Available(agents, team, Preference[t]) != []
    ensures var av := Available(agents, team, Preference[t]);
            var idx := IndexOf(rr, (team, Preference[t]));
            PickNext(agents, team, rr) == Pick(Some(av[idx % |av|]), rr[(team, Preference[t]) := (idx + 1) % |av|])
  {
    assert FirstAvailableTier(agents, team, t) == Some(t);
  }

  /** The assigner object: the rotation index map behind its lock. */
  class Assigner {
    var rrIndex: map<RrKey, nat>

    constructor ()
      ensures rrIndex == map[]
    {
      rrIndex := map[];
    }

    /** Picks the next agent of `team` from the snapshot and advances the rotation. */
    method TryPickNextAgent(agents: seq<Agent>, team: Teams) returns (pick: Option<Agent>)
      modifies this
      ensures Pick(pick, rrIndex) == PickNext(agents, team, old(rrIndex))
    {
      var teamAgents := TeamAgents(agents, team);
      if |teamAgents| == 0 {
        NoTeamAgentsNoPick(agents, team, rrIndex);
        return None;
      }
      var t := 0;
      while t < |Preference|
        invariant 0 <= t <= |Preference|
        invariant rrIndex == old(rrIndex)
        invariant FirstAvailableTier(agents, team, t) == FirstAvailableTier(agents, team, 0)
      {
        var seniority := Preference[t];
        var candidates := Candidates(teamAgents, seniority);
        if |candidates| == 0 {
          assert Available(agents, team, seniority) == [];
          t := t + 1;
          continue;
        }
        var available := AvailableAmong(candidates);
        if |available| == 0 {
          t := t + 1;
          continue;
        }
        var key := (team, seniority);
        var idx := IndexOf(rrIndex, key);
        PickAtFirstTier(agents, team, rrIndex, t);
        // The source's inner loop returns on its first iteration (i = 0).
        pick := Some(available[idx % |available|]);
        rrIndex := rrIndex[key := (idx + 1) % |available|];
        return;
      }
      PickNoneIffNoneAvailable(agents, team, rrIndex);
      pick := None;
    }
  }
}
