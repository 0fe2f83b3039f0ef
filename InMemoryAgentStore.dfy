/**
 * The agent store: a keyed container with insert-or-replace and no removal.
 * `order` lists the keys in the order `All` enumerates them (first insertion
 * first); the source's dictionary leaves that order unspecified.
 */
module InMemoryAgentStore {
  import opened Models

  /** The agents of `m` listed in key order `order`. */
  function Snapshot(order: seq<AgentId>, m: map<AgentId, Agent>): (r: seq<Agent>)
    requires forall i :: 0 <= i < |order| ==> order[i] in m
    ensures |r| == |order|
    ensures forall i :: 0 <= i < |r| ==> r[i] == m[order[i]]
  {
    seq(|order|, i requires 0 <= i < |order| => m[order[i]])
  }

  class AgentStore {
    var agents: map<AgentId, Agent>
    var order: seq<AgentId>

    ghost predicate Valid()
      reads this
    {
      && (forall i, j :: 0 <= i < j < |order| ==> order[i] != order[j])
      && (forall i :: 0 <= i < |order| ==> order[i] in agents)
      && (forall k :: k in agents ==> k in order)
      && (forall k :: k in agents ==> agents[k].id == k)
      && |order| == |agents|
    }

    constructor ()
      ensures Valid() && agents == map[] && order == []
    {
      agents := map[];
      order := [];
    }

    /** Inserts `agent` under its id, replacing what was there; other ids keep their agents. */
    method Upsert(agent: Agent)
      requires Valid()
      modifies this
      ensures Valid()
      ensures agents == old(agents)[agent.id := agent]
      ensures order == if agent.id in old(agents) then old(order) else old(order) + [agent.id]
    {
      if agent.id !in agents {
        order := order + [agent.id];
      }
      agents := agents[agent.id := agent];
    }

    /** The stored agents, one per id, in enumeration order. */
    function All(): (r: seq<Agent>)
      requires Valid()
      reads this
      ensures |r| == |agents|
      ensures forall i :: 0 <= i < |r| ==> r[i].id == order[i] && r[i].id in agents && agents[r[i].id] == r[i]
    {
      Snapshot(order, agents)
    }

    /** `All` yields exactly the stored values, one per id. */
    lemma AllIsExactlyStored()
      requires Valid()
      ensures forall k :: k in agents ==> agents[k] in All()
      ensures forall x :: x in All() ==> x.id in agents && agents[x.id] == x
      ensures forall i, j :: 0 <= i < j < |All()| ==> All()[i].id != All()[j].id
    {
      var r := All();
      forall k | k in agents
        ensures agents[k] in r
      {
        var i :| 0 <= i < |order| && order[i] == k;
        assert r[i] == agents[k];
      }
    }

    /** The agent stored under `id`, or None when there is none. */
    method Get(id: AgentId) returns (r: Option<Agent>)
      requires Valid()
      ensures r.Some? <==> id in agents
      ensures r.Some? ==> r.value == agents[id] && r.value.id == id
    {
      if id in agents {
        r := Some(agents[id]);
      } else {
        r := None;
      }
    }
  }
}
