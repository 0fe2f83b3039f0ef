/**
 * One dispatcher pass: the Queued sessions of a team, oldest first, are offered
 * in turn to the round-robin assigner; each pick raises the agent's load by one
 * and binds the session to it as Assigned. A tick dispatches TeamA, TeamB,
 * TeamC and then Overflow.
 */
module ChatDispatcherWorker {
  import opened Models
  import opened Seqs
  import opened CapacityCalculator
  import opened SessionCounts
  import opened EngineInvariant
  import opened RoundRobinAssigner
  import opened InMemoryAgentStore
  import opened InMemoryChatStore

  predicate IsQueuedFor(team: Teams, c: ChatSession)
  {
    c.status == Queued && c.assignedTeam == Some(team)
  }

  /** The sessions the pass considers, in enumeration order. */
  function QueuedOf(chats: seq<ChatSession>, team: Teams): seq<ChatSession>
  {
    Filter(chats, (c: ChatSession) => IsQueuedFor(team, c))
  }

  lemma QueuedOfMembers(chats: seq<ChatSession>, team: Teams, c: ChatSession)
    ensures c in QueuedOf(chats, team) <==> c in chats && IsQueuedFor(team, c)
  {
    FilterMembers(chats, (c: ChatSession) => IsQueuedFor(team, c), c);
  }

  lemma {:induction false} FilterKeepsDistinctIds(s: seq<ChatSession>, p: ChatSession -> bool)
    requires DistinctIds(s)
    ensures DistinctIds(Filter(s, p))
  {
    if |s| > 0 {
      var rest := Filter(s[1..], p);
      FilterKeepsDistinctIds(s[1..], p);
      if p(s[0]) {
        assert Filter(s, p) == [s[0]] + rest;
        forall j | 0 <= j < |rest|
          ensures rest[j].id != s[0].id
        {
          FilterMembers(s[1..], p, rest[j]);
          var m :| 0 <= m < |s[1..]| && s[1..][m] == rest[j];
          assert s[m + 1] == rest[j];
        }
      } else {
        assert Filter(s, p) == rest;
      }
    }
  }

  predicate SortedByCreation(s: seq<ChatSession>)
  {
    forall i, j :: 0 <= i < j < |s| ==> s[i].createdAt <= s[j].createdAt
  }

  /** Inserts `x` before the first element that is not older than it. */
  function InsertByCreation(x: ChatSession, s: seq<ChatSession>): (r: seq<ChatSession>)
    ensures |r| == |s| + 1
  {
    if |s| == 0 || x.createdAt <= s[0].createdAt then [x] + s
    else [s[0]] + InsertByCreation(x, s[1..])
  }

  /** A stable insertion sort on the creation time, the ordering of the pass. */
  function SortByCreation(s: seq<ChatSession>): (r: seq<ChatSession>)
    ensures |r| == |s|
  {
    if |s| == 0 then [] else InsertByCreation(s[0], SortByCreation(s[1..]))
  }

  lemma {:induction false} InsertPermutes(x: ChatSession, s: seq<ChatSession>)
    ensures multiset(InsertByCreation(x, s)) == multiset(s) + multiset{x}
  {
    if |s| == 0 || x.createdAt <= s[0].createdAt {
    } else {
      InsertPermutes(x, s[1..]);
      assert s == [s[0]] + s[1..];
    }
  }

  lemma {:induction false} InsertKeepsSorted(x: ChatSession, s: seq<ChatSession>)
    requires SortedByCreation(s)
    ensures SortedByCreation(InsertByCreation(x, s))
  {
    if |s| == 0 || x.createdAt <= s[0].createdAt {
    } else {
      var rest := InsertByCreation(x, s[1..]);
      InsertKeepsSorted(x, s[1..]);
      InsertPermutes(x, s[1..]);
      forall j | 0 <= j < |rest|
        ensures s[0].createdAt <= rest[j].createdAt
      {
        assert rest[j] in multiset(s[1..]) + multiset{x};
      }
    }
  }

  lemma {:induction false} InsertKeepsDistinctIds(x: ChatSession, s: seq<ChatSession>)
    requires DistinctIds(s)
    requires forall c :: c in s ==> c.id != x.id
    ensures DistinctIds(InsertByCreation(x, s))
  {
    if |s| == 0 || x.createdAt <= s[0].createdAt {
    } else {
      var rest := InsertByCreation(x, s[1..]);
      InsertKeepsDistinctIds(x, s[1..]);
      InsertPermutes(x, s[1..]);
      forall j | 0 <= j < |rest|
        ensures s[0].id != rest[j].id
      {
        assert rest[j] in multiset(s[1..]) + multiset{x};
      }
    }
  }

  /** The pass's ordering: sorted by creation time and a permutation of its input. */
  lemma {:induction false} SortByCreationCorrect(s: seq<ChatSession>)
    ensures SortedByCreation(SortByCreation(s))
    ensures multiset(SortByCreation(s)) == multiset(s)
  {
    if |s| > 0 {
      var rest := SortByCreation(s[1..]);
      SortByCreationCorrect(s[1..]);
      InsertKeepsSorted(s[0], rest);
      InsertPermutes(s[0], rest);
      assert SortByCreation(s) == InsertByCreation(s[0], rest);
      assert s == [s[0]] + s[1..];
      assert multiset(s) == multiset(s[1..]) + multiset{s[0]};
    }
  }

  /** The sessions of `s` created at time `t`, in their order in `s`. */
  function CreatedAt(s: seq<ChatSession>, t: int): (r: seq<ChatSession>)
    ensures |r| <= |s|
  {
    if |s| == 0 then []
    else (if s[0].createdAt == t then [s[0]] else []) + CreatedAt(s[1..], t)
  }

  /** Inserting puts `x` ahead of every session of its own creation time. */
  lemma {:induction false} InsertIsStable(x: ChatSession, s: seq<ChatSession>, t: int)
    ensures CreatedAt(InsertByCreation(x, s), t) == CreatedAt([x], t) + CreatedAt(s, t)
  {
    if |s| == 0 || x.createdAt <= s[0].createdAt {
      var r := InsertByCreation(x, s);
      assert r[1..] == s;
    } else {
      var r := InsertByCreation(x, s);
      InsertIsStable(x, s[1..], t);
      assert r[1..] == InsertByCreation(x, s[1..]);
    }
  }

  /** The sort is stable: sessions created at the same time keep their order. */
  lemma {:induction false} SortByCreationStable(s: seq<ChatSession>, t: int)
    ensures CreatedAt(SortByCreation(s), t) == CreatedAt(s, t)
  {
    if |s| > 0 {
      SortByCreationStable(s[1..], t);
      InsertIsStable(s[0], SortByCreation(s[1..]), t);
      assert [s[0]][1..] == [];
    }
  }

  /** Sorting keeps the ids distinct. */
  lemma {:induction false} SortKeepsDistinctIds(s: seq<ChatSession>)
    requires DistinctIds(s)
    ensures DistinctIds(SortByCreation(s))
  {
    if |s| > 0 {
      var rest := SortByCreation(s[1..]);
      SortKeepsDistinctIds(s[1..]);
      SortByCreationCorrect(s[1..]);
      forall c | c in rest
        ensures c.id != s[0].id
      {
        assert c in multiset(s[1..]);
        var j :| 0 <= j < |s[1..]| && s[1..][j] == c;
        assert s[j + 1] == c;
      }
      InsertKeepsDistinctIds(s[0], rest);
    }
  }

  /** `q` holds each of the team's Queued sessions of `m` exactly once, as stored, oldest first. */
  ghost predicate PassFacts(q: seq<ChatSession>, team: Teams, m: map<ChatId, ChatSession>)
  {
    && (forall k :: k in m ==> m[k].id == k)
    && SortedByCreation(q) && DistinctIds(q)
    && (forall j :: 0 <= j < |q| ==> q[j].id in m && m[q[j].id] == q[j] && IsQueuedFor(team, q[j]))
    && (forall k :: k in m && IsQueuedFor(team, m[k]) ==> m[k] in q)
  }

  /**
   * The list a pass walks: the team's Queued sessions, each as stored, sorted
   * by creation time, each exactly once.
   */
  lemma PassList(m: map<ChatId, ChatSession>, all: seq<ChatSession>, team: Teams)
    requires forall x :: x in all ==> x.id in m && m[x.id] == x
    requires forall k :: k in m ==> m[k] in all && m[k].id == k
    requires DistinctIds(all)
    ensures PassFacts(SortByCreation(QueuedOf(all, team)), team, m)
  {
    var f := QueuedOf(all, team);
    var q := SortByCreation(f);
    FilterKeepsDistinctIds(all, (c: ChatSession) => IsQueuedFor(team, c));
    SortByCreationCorrect(f);
    SortKeepsDistinctIds(f);
    forall j | 0 <= j < |q|
      ensures q[j].id in m && m[q[j].id] == q[j] && IsQueuedFor(team, q[j])
    {
      assert q[j] in multiset(f);
      QueuedOfMembers(all, team, q[j]);
    }
    forall k | k in m && IsQueuedFor(team, m[k])
      ensures m[k] in q
    {
      QueuedOfMembers(all, team, m[k]);
      assert m[k] in multiset(f);
    }
  }

  /** No tier of the team has an agent the assigner could pick. */
  ghost predicate TeamSaturated(agents: seq<Agent>, team: Teams)
  {
    forall t :: 0 <= t < |Preference| ==> Available(agents, team, Preference[t]) == []
  }

  /** An agent as a pass leaves it: only its load may have grown. */
  predicate LoadOnlyGrew(before: Agent, after: Agent)
  {
    after == before.(load := after.load) && before.load <= after.load
  }

  /** `after` is the Queued session `before` bound to an accepting agent of `team`. */
  ghost predicate BoundByPass(before: ChatSession, after: ChatSession, team: Teams, agents: map<AgentId, Agent>)
  {
    && IsQueuedFor(team, before)
    && after.assignedAgent.Some?
    && after == before.(status := Assigned, assignedAgent := after.assignedAgent)
    && after.assignedAgent.value in agents
    && agents[after.assignedAgent.value].team == team
    && agents[after.assignedAgent.value].accepting
  }

  /** The agent map after `a` takes one more session. */
  function WithOneMoreChat(agents: map<AgentId, Agent>, a: AgentId): map<AgentId, Agent>
    requires a in agents
  {
    agents[a := agents[a].(load := agents[a].load + 1)]
  }

  /** The session once the pass has bound it to agent `a`. */
  function BindTo(c: ChatSession, a: AgentId): (r: ChatSession)
    ensures SameSessionIdentity(c, r) && r.assignedTeam == c.assignedTeam && r.lastPollAt == c.lastPollAt
    ensures r.status == Assigned && r.assignedAgent == Some(a)
  {
    c.(assignedAgent := Some(a), status := Assigned)
  }

  /**
   * What holds part-way through a pass that has bound the first `cut`
   * sessions of `q`, starting from `agents0` and `chats0`.
   */
  ghost predicate PassInv(q: seq<ChatSession>, team: Teams, cut: nat,
                          agents0: map<AgentId, Agent>, chats0: map<ChatId, ChatSession>,
                          agents: map<AgentId, Agent>, chats: map<ChatId, ChatSession>)
  {
    && cut <= |q|
    && AgentsOnlyGrew(agents0, agents)
    && OtherTeamsKept(team, agents0, agents)
    && SessionsProgress(q, team, cut, chats0, chats, agents)
    && (SystemInv(agents0, chats0) ==> SystemInv(agents, chats))
  }

  /** Same agents; only loads grew, and none grew past its allowance. */
  ghost predicate AgentsOnlyGrew(agents0: map<AgentId, Agent>, agents: map<AgentId, Agent>)
  {
    && agents.Keys == agents0.Keys
    && (forall a :: a in agents0 ==> LoadOnlyGrew(agents0[a], agents[a]))
    && (forall a :: a in agents0 && agents0[a].load <= MaxConcurrentForAgent(agents0[a].seniority) ==>
          agents[a].load <= MaxConcurrentForAgent(agents[a].seniority))
  }

  /** The first `cut` sessions of `q` are bound, the rest and all others are as they were. */
  ghost predicate SessionsProgress(q: seq<ChatSession>, team: Teams, cut: nat,
                                   chats0: map<ChatId, ChatSession>, chats: map<ChatId, ChatSession>,
                                   agents: map<AgentId, Agent>)
  {
    && cut <= |q|
    && chats.Keys == chats0.Keys
    && (forall j :: 0 <= j < cut ==> q[j].id in chats && BoundByPass(q[j], chats[q[j].id], team, agents))
    && (forall j :: cut <= j < |q| ==> q[j].id in chats && chats[q[j].id] == q[j])
    && (forall k :: k in chats0 && chats0[k] !in q ==> chats[k] == chats0[k])
  }

  lemma PassStarts(q: seq<ChatSession>, team: Teams, agents0: map<AgentId, Agent>, chats0: map<ChatId, ChatSession>)
    requires PassFacts(q, team, chats0)
    ensures PassInv(q, team, 0, agents0, chats0, agents0, chats0)
  {
  }

  lemma AgentsGrowByOne(agents0: map<AgentId, Agent>, agents: map<AgentId, Agent>, b: AgentId)
    requires AgentsOnlyGrew(agents0, agents)
    requires b in agents && agents[b].load < MaxConcurrentForAgent(agents[b].seniority)
    ensures AgentsOnlyGrew(agents0, WithOneMoreChat(agents, b))
  {
  }

  lemma SessionsBindNext(q: seq<ChatSession>, team: Teams, cut: nat,
                         chats0: map<ChatId, ChatSession>, chats: map<ChatId, ChatSession>,
                         agents: map<AgentId, Agent>, b: AgentId)
    requires PassFacts(q, team, chats0)
    requires SessionsProgress(q, team, cut, chats0, chats, agents)
    requires cut < |q|
    requires b in agents && agents[b].team == team && agents[b].accepting
    ensures SessionsProgress(q, team, cut + 1, chats0, chats[q[cut].id := BindTo(q[cut], b)], WithOneMoreChat(agents, b))
  {
    var agents', chats' := WithOneMoreChat(agents, b), chats[q[cut].id := BindTo(q[cut], b)];
    forall j | 0 <= j < cut + 1
      ensures q[j].id in chats' && BoundByPass(q[j], chats'[q[j].id], team, agents')
    {
      if j < cut {
        assert q[j].id != q[cut].id;
      }
    }
    forall j | cut + 1 <= j < |q|
      ensures q[j].id in chats' && chats'[q[j].id] == q[j]
    {
      assert q[j].id != q[cut].id;
    }
    forall k | k in chats0 && chats0[k] !in q
      ensures chats'[k] == chats0[k]
    {
      assert k != q[cut].id;
    }
  }

  /** Binding the next session of the list to an eligible agent keeps the pass invariant. */
  lemma PassBindsNext(q: seq<ChatSession>, team: Teams, cut: nat,
                      agents0: map<AgentId, Agent>, chats0: map<ChatId, ChatSession>,
                      agents: map<AgentId, Agent>, chats: map<ChatId, ChatSession>, b: AgentId)
    requires PassFacts(q, team, chats0)
    requires PassInv(q, team, cut, agents0, chats0, agents, chats)
    requires cut < |q|
    requires b in agents && agents[b].team == team && agents[b].accepting
    requires agents[b].load < MaxConcurrentForAgent(agents[b].seniority)
    ensures PassInv(q, team, cut + 1, agents0, chats0, WithOneMoreChat(agents, b), chats[q[cut].id := BindTo(q[cut], b)])
  {
    AgentsGrowByOne(agents0, agents, b);
    SessionsBindNext(q, team, cut, chats0, chats, agents, b);
    if SystemInv(agents0, chats0) {
      BindSessionKeepsInv(agents, chats, q[cut].id, b);
    }
  }

  /** A session the pass changed is one of the first `cut` of the list, now bound. */
  lemma ChangedWasBound(q: seq<ChatSession>, team: Teams, cut: nat,
                        agents0: map<AgentId, Agent>, chats0: map<ChatId, ChatSession>,
                        agents: map<AgentId, Agent>, chats: map<ChatId, ChatSession>, k: ChatId)
    returns (j: nat)
    requires PassFacts(q, team, chats0)
    requires PassInv(q, team, cut, agents0, chats0, agents, chats)
    requires k in chats0 && chats[k] != chats0[k]
    ensures j < cut && q[j] == chats0[k] && BoundByPass(chats0[k], chats[k], team, agents)
  {
    assert chats0[k] in q;
    j :| 0 <= j < |q| && q[j] == chats0[k];
    assert q[j].id == k;
  }

  /** A session of the team still waiting after the pass sits at or after position `cut`, untouched. */
  lemma WaitingIsUntouched(q: seq<ChatSession>, team: Teams, cut: nat,
                           agents0: map<AgentId, Agent>, chats0: map<ChatId, ChatSession>,
                           agents: map<AgentId, Agent>, chats: map<ChatId, ChatSession>, k: ChatId)
    returns (j: nat)
    requires PassFacts(q, team, chats0)
    requires PassInv(q, team, cut, agents0, chats0, agents, chats)
    requires k in chats && IsQueuedFor(team, chats[k])
    ensures cut <= j < |q| && q[j] == chats0[k] && chats[k] == chats0[k]
  {
    if chats[k] != chats0[k] {
      var i := ChangedWasBound(q, team, cut, agents0, chats0, agents, chats, k);
    }
    assert chats0[k] in q;
    j :| 0 <= j < |q| && q[j] == chats0[k];
    assert q[j].id == k;
  }

  /** A finished pass: what is bound is never newer than what waits, and a waiting session means saturation. */
  lemma PassEnds(q: seq<ChatSession>, team: Teams, cut: nat,
                 agents0: map<AgentId, Agent>, chats0: map<ChatId, ChatSession>,
                 agents: map<AgentId, Agent>, chats: map<ChatId, ChatSession>)
    requires PassFacts(q, team, chats0)
    requires PassInv(q, team, cut, agents0, chats0, agents, chats)
    ensures forall k :: k in chats0 ==> chats[k] == chats0[k] || BoundByPass(chats0[k], chats[k], team, agents)
    ensures forall k :: k in chats && IsQueuedFor(team, chats[k]) ==> cut < |q|
    ensures forall k1, k2 ::
              (k1 in chats0 && k2 in chats0 && chats[k1] != chats0[k1] && IsQueuedFor(team, chats[k2])) ==>
              chats0[k1].createdAt <= chats[k2].createdAt
  {
    forall k | k in chats0 && chats[k] != chats0[k]
      ensures BoundByPass(chats0[k], chats[k], team, agents)
    {
      var j := ChangedWasBound(q, team, cut, agents0, chats0, agents, chats, k);
    }
    forall k | k in chats && IsQueuedFor(team, chats[k])
      ensures cut < |q|
    {
      var j := WaitingIsUntouched(q, team, cut, agents0, chats0, agents, chats, k);
    }
    forall k1, k2 | k1 in chats0 && k2 in chats0 && chats[k1] != chats0[k1] && IsQueuedFor(team, chats[k2])
      ensures chats0[k1].createdAt <= chats[k2].createdAt
    {
      var j1 := ChangedWasBound(q, team, cut, agents0, chats0, agents, chats, k1);
      var j2 := WaitingIsUntouched(q, team, cut, agents0, chats0, agents, chats, k2);
    }
  }

  /**
   * What any sequence of passes does: keys stay, only loads grow and stay
   * within allowance, a changed session went from Queued to Assigned with an
   * accepting agent of its own team, and consistency is kept.
   */
  ghost predicate DispatchEffect(agents0: map<AgentId, Agent>, chats0: map<ChatId, ChatSession>,
                                 agents: map<AgentId, Agent>, chats: map<ChatId, ChatSession>)
  {
    && AgentsOnlyGrew(agents0, agents)
    && chats.Keys == chats0.Keys
    && (forall k :: k in chats0 ==>
          chats[k] == chats0[k] ||
          (chats0[k].assignedTeam.Some? && BoundByPass(chats0[k], chats[k], chats0[k].assignedTeam.value, agents)))
    && (SystemInv(agents0, chats0) ==> SystemInv(agents, chats))
  }

  /** Two passes in a row have the effect of one: a session bound by the first is left alone by the second. */
  lemma DispatchEffectComposes(agents0: map<AgentId, Agent>, chats0: map<ChatId, ChatSession>,
                               agents1: map<AgentId, Agent>, chats1: map<ChatId, ChatSession>,
                               agents2: map<AgentId, Agent>, chats2: map<ChatId, ChatSession>)
    requires DispatchEffect(agents0, chats0, agents1, chats1)
    requires DispatchEffect(agents1, chats1, agents2, chats2)
    ensures DispatchEffect(agents0, chats0, agents2, chats2)
  {
    forall k | k in chats0
      ensures chats2[k] == chats0[k] ||
              (chats0[k].assignedTeam.Some? && BoundByPass(chats0[k], chats2[k], chats0[k].assignedTeam.value, agents2))
    {
      if chats1[k] != chats0[k] {
        assert chats1[k].status == Assigned;
        assert chats2[k] == chats1[k];
        assert chats1[k].assignedAgent.value in agents1;
      }
    }
  }

  /**
   * Dispatch from a consistent state keeps every agent's identity and every
   * session's history: only Queued sessions, which have no agent, get bound.
   */
  lemma DispatchKeepsHistory(agents0: map<AgentId, Agent>, chats0: map<ChatId, ChatSession>,
                             agents: map<AgentId, Agent>, chats: map<ChatId, ChatSession>)
    requires SystemInv(agents0, chats0)
    requires DispatchEffect(agents0, chats0, agents, chats)
    ensures AgentsKeepIdentity(agents0, agents)
    ensures SessionsKeepHistory(chats0, chats)
  {
    forall k | k in chats0
      ensures chats0[k].assignedAgent.Some? ==> chats[k].assignedAgent == chats0[k].assignedAgent
    {
      assert BindingAgreesWithStatus(chats0[k]);
    }
  }

  lemma WithOneMoreChatOf(m: map<AgentId, Agent>, a: Agent)
    requires a.id in m && m[a.id] == a
    ensures WithOneMoreChat(m, a.id) == m[a.id := a.(load := a.load + 1)]
  {
  }

  /** The state a pass threads from one offer to the next: both stores and the assigner's index map. */
  datatype PassState = PassState(agents: map<AgentId, Agent>, chats: map<ChatId, ChatSession>, rr: map<RrKey, nat>)

  /** Every key listed in `order` is stored in `m`. */
  ghost predicate Listed(order: seq<AgentId>, m: map<AgentId, Agent>)
  {
    forall i :: 0 <= i < |order| ==> order[i] in m
  }

  /**
   * One offer of session `c`: the assigner picks on the live roster; a picked
   * agent is stored with one more chat and `c` is stored bound to it; the
   * index map becomes the assigner's new one either way.
   */
  function OfferStep(order: seq<AgentId>, team: Teams, s: PassState, c: ChatSession): (r: PassState)
    requires Listed(order, s.agents)
    ensures Listed(order, r.agents) && r.agents.Keys >= s.agents.Keys
    ensures r.rr == PickNext(Snapshot(order, s.agents), team, s.rr).index
    ensures PickNext(Snapshot(order, s.agents), team, s.rr).agent.None? ==> r.agents == s.agents && r.chats == s.chats
  {
    var p := PickNext(Snapshot(order, s.agents), team, s.rr);
    match p.agent
    case None => PassState(s.agents, s.chats, p.index)
    case Some(a) => PassState(s.agents[a.id := a.(load := a.load + 1)], s.chats[c.id := BindTo(c, a.id)], p.index)
  }

  /** The state after offering each session of `q` in turn, starting from `s`. */
  function PassResult(order: seq<AgentId>, team: Teams, s: PassState, q: seq<ChatSession>): (r: PassState)
    requires Listed(order, s.agents)
    ensures Listed(order, r.agents) && r.agents.Keys >= s.agents.Keys
    decreases |q|
  {
    if |q| == 0 then s else PassResult(order, team, OfferStep(order, team, s, q[0]), q[1..])
  }

  /**
   * A pass that reaches `target` from `s` over `q[i..]` reaches it from the
   * state after offering `q[i]` over `q[i + 1..]`.
   */
  lemma PassResultStep(order: seq<AgentId>, team: Teams, s: PassState, s': PassState,
                       q: seq<ChatSession>, i: nat, target: PassState)
    requires Listed(order, s.agents)
    requires i < |q|
    requires PassResult(order, team, s, q[i..]) == target
    requires s' == OfferStep(order, team, s, q[i])
    ensures Listed(order, s'.agents)
    ensures PassResult(order, team, s', q[i + 1..]) == target
  {
    assert q[i..][0] == q[i];
    assert q[i..][1..] == q[i + 1..];
  }

  /**
   * When no agent of the team can be picked, a whole pass changes neither
   * store: every offer is refused, only the index map may be rewritten.
   */
  lemma {:induction false} SaturatedPassChangesNothing(order: seq<AgentId>, team: Teams, s: PassState, q: seq<ChatSession>)
    requires Listed(order, s.agents)
    requires TeamSaturated(Snapshot(order, s.agents), team)
    ensures PassResult(order, team, s, q).agents == s.agents
    ensures PassResult(order, team, s, q).chats == s.chats
    decreases |q|
  {
    if |q| > 0 {
      PickNoneIffNoneAvailable(Snapshot(order, s.agents), team, s.rr);
      var s' := OfferStep(order, team, s, q[0]);
      assert s'.agents == s.agents;
      SaturatedPassChangesNothing(order, team, s', q[1..]);
    }
  }

  /** The agents of teams other than `team` are as they were. */
  ghost predicate OtherTeamsKept(team: Teams, agents0: map<AgentId, Agent>, agents: map<AgentId, Agent>)
  {
    forall a :: a in agents0 && agents0[a].team != team ==> a in agents && agents[a] == agents0[a]
  }

  /**
   * What one pass for `team` guarantees about the state it leaves, beyond
   * `DispatchEffect`: agents of other teams are untouched; every changed
   * session was a Queued session of `team`, now bound to one of its accepting
   * agents; a session of the team left waiting means no agent of the team can
   * be picked; and every session bound by the pass is no newer than any
   * session of the team left waiting.
   */
  ghost predicate TeamPass(team: Teams, order: seq<AgentId>,
                           agents0: map<AgentId, Agent>, chats0: map<ChatId, ChatSession>,
                           agents: map<AgentId, Agent>, chats: map<ChatId, ChatSession>)
  {
    && Listed(order, agents)
    && AgentsOnlyGrew(agents0, agents)
    && OtherTeamsKept(team, agents0, agents)
    && chats.Keys == chats0.Keys
    && (forall k :: k in chats0 ==> chats[k] == chats0[k] || BoundByPass(chats0[k], chats[k], team, agents))
    && (forall k :: k in chats && IsQueuedFor(team, chats[k]) ==> TeamSaturated(Snapshot(order, agents), team))
    && (forall k1, k2 ::
          (k1 in chats0 && k2 in chats0 && chats[k1] != chats0[k1] && IsQueuedFor(team, chats[k2])) ==>
          chats0[k1].createdAt <= chats[k2].createdAt)
  }

  /**
   * Where dispatch of `team` stands after a tick that started from `agents0`
   * and `chats0`: a session of the team still waiting means no agent of the
   * team can be picked, and a session of the team that the tick bound is no
   * newer than any session of the team still waiting.
   */
  ghost predicate Dispatched(team: Teams, order: seq<AgentId>,
                             chats0: map<ChatId, ChatSession>,
                             agents: map<AgentId, Agent>, chats: map<ChatId, ChatSession>)
  {
    && Listed(order, agents)
    && (forall k :: k in chats && IsQueuedFor(team, chats[k]) ==> TeamSaturated(Snapshot(order, agents), team))
    && (forall k1, k2 ::
          (k1 in chats0 && k2 in chats0 && k1 in chats && k2 in chats &&
           chats[k1] != chats0[k1] && IsQueuedFor(team, chats0[k1]) && IsQueuedFor(team, chats[k2])) ==>
          chats0[k1].createdAt <= chats[k2].createdAt)
  }

  /** Nothing of `team` has been touched yet: its Queued sessions and its agents are as they were. */
  ghost predicate Untouched(team: Teams, agents0: map<AgentId, Agent>, chats0: map<ChatId, ChatSession>,
                            agents: map<AgentId, Agent>, chats: map<ChatId, ChatSession>)
  {
    && (forall k :: k in chats0 && IsQueuedFor(team, chats0[k]) ==> k in chats && chats[k] == chats0[k])
    && (forall a :: a in agents0 && agents0[a].team == team ==> a in agents && agents[a] == agents0[a])
  }

  /** A pass for another team leaves `team` untouched. */
  lemma UntouchedByOtherPass(team: Teams, other: Teams, order: seq<AgentId>,
                             agents0: map<AgentId, Agent>, chats0: map<ChatId, ChatSession>,
                             agents1: map<AgentId, Agent>, chats1: map<ChatId, ChatSession>,
                             agents2: map<AgentId, Agent>, chats2: map<ChatId, ChatSession>)
    requires team != other
    requires Untouched(team, agents0, chats0, agents1, chats1)
    requires TeamPass(other, order, agents1, chats1, agents2, chats2)
    ensures Untouched(team, agents0, chats0, agents2, chats2)
  {
    forall k | k in chats0 && IsQueuedFor(team, chats0[k])
      ensures k in chats2 && chats2[k] == chats0[k]
    {
      assert !IsQueuedFor(other, chats1[k]);
    }
  }

  /**
   * Two rosters listed in the same order, whose agents of `team` agree and
   * whose other agents stay outside `team`, offer the same available agents.
   */
  lemma SameTeamSameAvailable(order: seq<AgentId>, m1: map<AgentId, Agent>, m2: map<AgentId, Agent>, team: Teams)
    requires Listed(order, m1) && Listed(order, m2)
    requires forall a :: a in m1 ==> a in m2 && m2[a].team == m1[a].team
    requires forall a :: a in m1 && m1[a].team == team ==> m2[a] == m1[a]
    ensures forall tier :: Available(Snapshot(order, m1), team, tier) == Available(Snapshot(order, m2), team, tier)
  {
    var s1, s2 := Snapshot(order, m1), Snapshot(order, m2);
    FilterAgree(s1, s2, (a: Agent) => a.team == team && a.accepting);
  }

  /** A pass for another team keeps what is settled for `team`. */
  lemma DispatchedKept(team: Teams, other: Teams, order: seq<AgentId>, chats0: map<ChatId, ChatSession>,
                       agents1: map<AgentId, Agent>, chats1: map<ChatId, ChatSession>,
                       agents2: map<AgentId, Agent>, chats2: map<ChatId, ChatSession>)
    requires team != other
    requires chats1.Keys == chats0.Keys
    requires Dispatched(team, order, chats0, agents1, chats1)
    requires TeamPass(other, order, agents1, chats1, agents2, chats2)
    ensures Dispatched(team, order, chats0, agents2, chats2)
  {
    SameTeamSameAvailable(order, agents1, agents2, team);
    forall k | k in chats2 && IsQueuedFor(team, chats2[k])
      ensures k in chats1 && chats1[k] == chats2[k]
    {
    }
    forall k1, k2 | k1 in chats0 && k2 in chats0 && k1 in chats2 && k2 in chats2 &&
                    chats2[k1] != chats0[k1] && IsQueuedFor(team, chats0[k1]) && IsQueuedFor(team, chats2[k2])
      ensures chats0[k1].createdAt <= chats2[k2].createdAt
    {
    }
  }

  /** The pass for `team`, reached with `team` untouched, settles it. */
  lemma PassSettles(team: Teams, order: seq<AgentId>,
                    agents0: map<AgentId, Agent>, chats0: map<ChatId, ChatSession>,
                    agents1: map<AgentId, Agent>, chats1: map<ChatId, ChatSession>,
                    agents2: map<AgentId, Agent>, chats2: map<ChatId, ChatSession>)
    requires chats1.Keys == chats0.Keys
    requires Untouched(team, agents0, chats0, agents1, chats1)
    requires TeamPass(team, order, agents1, chats1, agents2, chats2)
    ensures Dispatched(team, order, chats0, agents2, chats2)
  {
  }

  /** The first of four passes: its team stays settled through the three that follow. */
  lemma FirstOfFourSettles(order: seq<AgentId>, t1: Teams, t2: Teams, t3: Teams, t4: Teams,
                           a0: map<AgentId, Agent>, c0: map<ChatId, ChatSession>,
                           a1: map<AgentId, Agent>, c1: map<ChatId, ChatSession>,
                           a2: map<AgentId, Agent>, c2: map<ChatId, ChatSession>,
                           a3: map<AgentId, Agent>, c3: map<ChatId, ChatSession>,
                           a4: map<AgentId, Agent>, c4: map<ChatId, ChatSession>)
    requires t1 != t2 && t1 != t3 && t1 != t4
    requires TeamPass(t1, order, a0, c0, a1, c1)
    requires TeamPass(t2, order, a1, c1, a2, c2)
    requires TeamPass(t3, order, a2, c2, a3, c3)
    requires TeamPass(t4, order, a3, c3, a4, c4)
    ensures Dispatched(t1, order, c0, a4, c4)
  {
    PassSettles(t1, order, a0, c0, a0, c0, a1, c1);
    DispatchedKept(t1, t2, order, c0, a1, c1, a2, c2);
    DispatchedKept(t1, t3, order, c0, a2, c2, a3, c3);
    DispatchedKept(t1, t4, order, c0, a3, c3, a4, c4);
  }

  /** The last of four passes settles its team, which the three before it left untouched. */
  lemma LastOfFourSettles(order: seq<AgentId>, t1: Teams, t2: Teams, t3: Teams, t4: Teams,
                          a0: map<AgentId, Agent>, c0: map<ChatId, ChatSession>,
                          a1: map<AgentId, Agent>, c1: map<ChatId, ChatSession>,
                          a2: map<AgentId, Agent>, c2: map<ChatId, ChatSession>,
                          a3: map<AgentId, Agent>, c3: map<ChatId, ChatSession>,
                          a4: map<AgentId, Agent>, c4: map<ChatId, ChatSession>)
    requires t4 != t1 && t4 != t2 && t4 != t3
    requires TeamPass(t1, order, a0, c0, a1, c1)
    requires TeamPass(t2, order, a1, c1, a2, c2)
    requires TeamPass(t3, order, a2, c2, a3, c3)
    requires TeamPass(t4, order, a3, c3, a4, c4)
    ensures Dispatched(t4, order, c0, a4, c4)
  {
    UntouchedByOtherPass(t4, t1, order, a0, c0, a0, c0, a1, c1);
    UntouchedByOtherPass(t4, t2, order, a0, c0, a1, c1, a2, c2);
    UntouchedByOtherPass(t4, t3, order, a0, c0, a2, c2, a3, c3);
    PassSettles(t4, order, a0, c0, a3, c3, a4, c4);
  }

  /** A middle pass of three: untouched before it, settled by it, kept after it. */
  lemma MiddlePassSettles(order: seq<AgentId>, t1: Teams, t2: Teams, t3: Teams,
                          a0: map<AgentId, Agent>, c0: map<ChatId, ChatSession>,
                          a1: map<AgentId, Agent>, c1: map<ChatId, ChatSession>,
                          a2: map<AgentId, Agent>, c2: map<ChatId, ChatSession>,
                          a3: map<AgentId, Agent>, c3: map<ChatId, ChatSession>)
    requires t2 != t1 && t2 != t3
    requires Untouched(t2, a0, c0, a1, c1) && c1.Keys == c0.Keys
    requires TeamPass(t2, order, a1, c1, a2, c2)
    requires TeamPass(t3, order, a2, c2, a3, c3)
    ensures Dispatched(t2, order, c0, a3, c3)
  {
    PassSettles(t2, order, a0, c0, a1, c1, a2, c2);
    DispatchedKept(t2, t3, order, c0, a2, c2, a3, c3);
  }

  /** One pass per team, for four distinct teams in turn, settles each of them. */
  lemma FourPassesSettle(order: seq<AgentId>, t1: Teams, t2: Teams, t3: Teams, t4: Teams,
                         a0: map<AgentId, Agent>, c0: map<ChatId, ChatSession>,
                         a1: map<AgentId, Agent>, c1: map<ChatId, ChatSession>,
                         a2: map<AgentId, Agent>, c2: map<ChatId, ChatSession>,
                         a3: map<AgentId, Agent>, c3: map<ChatId, ChatSession>,
                         a4: map<AgentId, Agent>, c4: map<ChatId, ChatSession>)
    requires t1 != t2 && t1 != t3 && t1 != t4 && t2 != t3 && t2 != t4 && t3 != t4
    requires TeamPass(t1, order, a0, c0, a1, c1)
    requires TeamPass(t2, order, a1, c1, a2, c2)
    requires TeamPass(t3, order, a2, c2, a3, c3)
    requires TeamPass(t4, order, a3, c3, a4, c4)
    ensures Dispatched(t1, order, c0, a4, c4) && Dispatched(t2, order, c0, a4, c4)
    ensures Dispatched(t3, order, c0, a4, c4) && Dispatched(t4, order, c0, a4, c4)
  {
    FirstOfFourSettles(order, t1, t2, t3, t4, a0, c0, a1, c1, a2, c2, a3, c3, a4, c4);
    LastOfFourSettles(order, t1, t2, t3, t4, a0, c0, a1, c1, a2, c2, a3, c3, a4, c4);
    SecondOfFourSettles(order, t1, t2, t3, t4, a0, c0, a1, c1, a2, c2, a3, c3, a4, c4);
    ThirdOfFourSettles(order, t1, t2, t3, t4, a0, c0, a1, c1, a2, c2, a3, c3, a4, c4);
  }

  /** The second of four passes: untouched by the first, settled by itself, kept by the last two. */
  lemma SecondOfFourSettles(order: seq<AgentId>, t1: Teams, t2: Teams, t3: Teams, t4: Teams,
                          a0: map<AgentId, Agent>, c0: map<ChatId, ChatSession>,
                          a1: map<AgentId, Agent>, c1: map<ChatId, ChatSession>,
                          a2: map<AgentId, Agent>, c2: map<ChatId, ChatSession>,
                          a3: map<AgentId, Agent>, c3: map<ChatId, ChatSession>,
                          a4: map<AgentId, Agent>, c4: map<ChatId, ChatSession>)
    requires t1 != t2 && t1 != t3 && t1 != t4 && t2 != t3 && t2 != t4 && t3 != t4
    requires TeamPass(t1, order, a0, c0, a1, c1)
    requires TeamPass(t2, order, a1, c1, a2, c2)
    requires TeamPass(t3, order, a2, c2, a3, c3)
    requires TeamPass(t4, order, a3, c3, a4, c4)
    ensures Dispatched(t2, order, c0, a4, c4)
  {
    UntouchedByOtherPass(t2, t1, order, a0, c0, a0, c0, a1, c1);
    MiddlePassSettles(order, t1, t2, t3, a0, c0, a1, c1, a2, c2, a3, c3);
    DispatchedKept(t2, t4, order, c0, a3, c3, a4, c4);
  }

  /** The third of four passes: untouched by the first two, settled by itself, kept by the last. */
  lemma ThirdOfFourSettles(order: seq<AgentId>, t1: Teams, t2: Teams, t3: Teams, t4: Teams,
                          a0: map<AgentId, Agent>, c0: map<ChatId, ChatSession>,
                          a1: map<AgentId, Agent>, c1: map<ChatId, ChatSession>,
                          a2: map<AgentId, Agent>, c2: map<ChatId, ChatSession>,
                          a3: map<AgentId, Agent>, c3: map<ChatId, ChatSession>,
                          a4: map<AgentId, Agent>, c4: map<ChatId, ChatSession>)
    requires t1 != t2 && t1 != t3 && t1 != t4 && t2 != t3 && t2 != t4 && t3 != t4
    requires TeamPass(t1, order, a0, c0, a1, c1)
    requires TeamPass(t2, order, a1, c1, a2, c2)
    requires TeamPass(t3, order, a2, c2, a3, c3)
    requires TeamPass(t4, order, a3, c3, a4, c4)
    ensures Dispatched(t3, order, c0, a4, c4)
  {
    UntouchedByOtherPass(t3, t1, order, a0, c0, a0, c0, a1, c1);
    UntouchedByOtherPass(t3, t2, order, a0, c0, a1, c1, a2, c2);
    MiddlePassSettles(order, t2, t3, t4, a0, c0, a2, c2, a3, c3, a4, c4);
  }

  /**
   * Part-way through offering `q` from `agents0`/`chats0`: the first `i`
   * sessions have been offered, the first `cut` of them bound, the team is
   * saturated since the first refusal, and offering the rest from `s` ends
   * in `target`.
   */
  ghost predicate Offering(q: seq<ChatSession>, team: Teams, order: seq<AgentId>,
                           agents0: map<AgentId, Agent>, chats0: map<ChatId, ChatSession>,
                           target: PassState, i: nat, cut: nat, s: PassState)
  {
    && cut <= i <= |q|
    && Listed(order, s.agents)
    && PassInv(q, team, cut, agents0, chats0, s.agents, s.chats)
    && (cut < i ==> TeamSaturated(Snapshot(order, s.agents), team))
    && PassResult(order, team, s, q[i..]) == target
  }

  /** A state that changed as `AssignOne` promises is the one `OfferStep` computes. */
  lemma OfferStepMatches(order: seq<AgentId>, team: Teams, s: PassState, c: ChatSession, s': PassState, bound: Option<AgentId>)
    requires Listed(order, s.agents)
    requires forall k :: k in s.agents ==> s.agents[k].id == k
    requires var p := PickNext(Snapshot(order, s.agents), team, s.rr);
             && s'.rr == p.index
             && (p.agent.None? <==> bound.None?)
             && (p.agent.Some? ==> bound == Some(p.agent.value.id))
    requires bound.None? ==> s'.agents == s.agents && s'.chats == s.chats
    requires bound.Some? ==>
               && bound.value in s.agents
               && s'.agents == WithOneMoreChat(s.agents, bound.value)
               && s'.chats == s.chats[c.id := BindTo(c, bound.value)]
    ensures s' == OfferStep(order, team, s, c)
  {
    var roster := Snapshot(order, s.agents);
    var p := PickNext(roster, team, s.rr);
    if bound.Some? {
      PickIsEligible(roster, team, s.rr);
      var a := p.agent.value;
      var j :| 0 <= j < |roster| && roster[j] == a;
      assert s.agents[order[j]] == a && order[j] == a.id;
      WithOneMoreChatOf(s.agents, a);
      assert OfferStep(order, team, s, c) ==
             PassState(s.agents[a.id := a.(load := a.load + 1)], s.chats[c.id := BindTo(c, a.id)], p.index);
    } else {
      assert OfferStep(order, team, s, c) == PassState(s.agents, s.chats, p.index);
    }
  }

  /** The pass invariant and saturation after offering `q[i]` carry `Offering` one session on. */
  lemma OfferingAdvances(q: seq<ChatSession>, team: Teams, order: seq<AgentId>,
                         agents0: map<AgentId, Agent>, chats0: map<ChatId, ChatSession>,
                         target: PassState, i: nat, cut': nat, s: PassState, s': PassState)
    requires i < |q| && Listed(order, s.agents)
    requires PassResult(order, team, s, q[i..]) == target
    requires s' == OfferStep(order, team, s, q[i])
    requires cut' <= i + 1
    requires PassInv(q, team, cut', agents0, chats0, s'.agents, s'.chats)
    requires cut' < i + 1 ==> TeamSaturated(Snapshot(order, s'.agents), team)
    ensures Offering(q, team, order, agents0, chats0, target, i + 1, cut', s')
  {
    PassResultStep(order, team, s, s', q, i, target);
  }

  class Dispatcher {
    const chats: ChatStore
    const agents: AgentStore
    const assigner: Assigner

    ghost predicate Valid()
      reads this, chats, agents
    {
      chats.Valid() && agents.Valid()
    }

    constructor (chats: ChatStore, agents: AgentStore, assigner: Assigner)
      ensures this.chats == chats && this.agents == agents && this.assigner == assigner
    {
      this.chats := chats;
      this.agents := agents;
      this.assigner := assigner;
    }

    /** Raises `agent`'s load by one and stores `chat` bound to it. */
    method Bind(chat: ChatSession, agent: Agent)
      requires Valid()
      requires agent.id in agents.agents && agents.agents[agent.id] == agent
      requires chat.id in chats.chats
      modifies chats, agents
      ensures Valid()
      ensures chats.order == old(chats.order) && agents.order == old(agents.order)
      ensures agents.agents == old(agents.agents)[agent.id := agent.(load := agent.load + 1)]
      ensures chats.chats == old(chats.chats)[chat.id := BindTo(chat, agent.id)]
    {
      agents.Upsert(agent.(load := agent.load + 1));
      chats.Update(BindTo(chat, agent.id));
    }

    /**
     * The body of the pass for one session: ask the assigner for an agent; on a
     * pick, raise its load by one and bind the session to it as Assigned.
     */
    method AssignOne(chat: ChatSession, team: Teams) returns (bound: Option<AgentId>)
      requires Valid()
      requires chat.id in chats.chats && chats.chats[chat.id] == chat && chat.status == Queued
      modifies chats, agents, assigner
      ensures Valid()
      ensures chats.order == old(chats.order) && agents.order == old(agents.order)
      ensures var p := PickNext(old(agents.All()), team, old(assigner.rrIndex));
              && assigner.rrIndex == p.index
              && (p.agent.None? <==> bound.None?)
              && (p.agent.Some? ==> bound == Some(p.agent.value.id))
      ensures bound.None? ==>
                && agents.agents == old(agents.agents) && chats.chats == old(chats.chats)
                && TeamSaturated(old(agents.All()), team)
      ensures bound.Some? ==>
                var a := bound.value;
                && a in old(agents.agents)
                && old(agents.agents[a]).team == team && old(agents.agents[a]).accepting
                && old(agents.agents[a]).load < MaxConcurrentForAgent(old(agents.agents[a]).seniority)
                && agents.agents == WithOneMoreChat(old(agents.agents), a)
                && chats.chats == old(chats.chats)[chat.id := BindTo(chat, a)]
      ensures PassState(agents.agents, chats.chats, assigner.rrIndex) ==
              OfferStep(agents.order, team, PassState(old(agents.agents), old(chats.chats), old(assigner.rrIndex)), chat)
    {
      var snapshot := agents.All();
      ghost var rr, before := assigner.rrIndex, agents.agents;
      var pick := assigner.TryPickNextAgent(snapshot, team);
      if pick.Some? {
        PickIsEligible(snapshot, team, rr);
        agents.AllIsExactlyStored();
        var agent := pick.value;
        assert agent.id in before && before[agent.id] == agent;
        WithOneMoreChatOf(before, agent);
        Bind(chat, agent);
        bound := Some(agent.id);
      } else {
        PickNoneIffNoneAvailable(snapshot, team, rr);
        bound := None;
      }
      OfferStepMatches(agents.order, team, PassState(before, old(chats.chats), rr), chat,
                       PassState(agents.agents, chats.chats, assigner.rrIndex), bound);
    }
  
    /**
     * Offers `queued[i]`, the next session of a pass that has bound the first
     * `cut` sessions: on a pick that session is bound and `cut` grows by one,
     * on a refusal nothing changes and the team is saturated.
     */
    method OfferNext(queued: seq<ChatSession>, team: Teams, i: nat, ghost cut: nat,
                     ghost agents0: map<AgentId, Agent>, ghost chats0: map<ChatId, ChatSession>)
      returns (ghost cut': nat)
      requires Valid()
      requires PassFacts(queued, team, chats0)
      requires cut <= i < |queued|
      requires PassInv(queued, team, cut, agents0, chats0, agents.agents, chats.chats)
      requires cut < i ==> TeamSaturated(agents.All(), team)
      modifies chats, agents, assigner
      ensures Valid()
      ensures chats.order == old(chats.order) && agents.order == old(agents.order)
      ensures cut' <= i + 1
      ensures PassInv(queued, team, cut', agents0, chats0, agents.agents, chats.chats)
      ensures cut' < i + 1 ==> TeamSaturated(agents.All(), team)
      ensures PassState(agents.agents, chats.chats, assigner.rrIndex) ==
              OfferStep(agents.order, team, PassState(old(agents.agents), old(chats.chats), old(assigner.rrIndex)), queued[i])
    {
      if cut < i {
        PickNoneIffNoneAvailable(agents.All(), team, assigner.rrIndex);
      }
      var bound := AssignOne(queued[i], team);
      cut' := cut;
      if bound.Some? {
        assert cut == i;
        PassBindsNext(queued, team, cut, agents0, chats0, old(agents.agents), old(chats.chats), bound.value);
        cut' := cut + 1;
      }
    }

    /**
     * Offers the sessions of `queued` to the assigner in turn. The first `cut`
     * of them end bound; after the first refusal every later offer is refused
     * too, because a refusal changes nothing. The new state is `PassResult`.
     */
    method OfferInTurn(queued: seq<ChatSession>, team: Teams) returns (ghost cut: nat)
      requires Valid()
      requires PassFacts(queued, team, chats.chats)
      modifies chats, agents, assigner
      ensures Valid()
      ensures chats.order == old(chats.order) && agents.order == old(agents.order)
      ensures PassInv(queued, team, cut, old(agents.agents), old(chats.chats), agents.agents, chats.chats)
      ensures cut < |queued| ==> TeamSaturated(agents.All(), team)
      ensures PassState(agents.agents, chats.chats, assigner.rrIndex) ==
              PassResult(agents.order, team, PassState(old(agents.agents), old(chats.chats), old(assigner.rrIndex)), queued)
    {
      ghost var agents0, chats0 := agents.agents, chats.chats;
      ghost var target := PassResult(agents.order, team, PassState(agents0, chats0, assigner.rrIndex), queued);
      PassStarts(queued, team, agents0, chats0);
      var i := 0;
      cut := 0;
      while i < |queued|
        invariant Valid()
        invariant chats.order == old(chats.order) && agents.order == old(agents.order)
        invariant i <= |queued|
        invariant Offering(queued, team, agents.order, agents0, chats0, target, i, cut,
                           PassState(agents.agents, chats.chats, assigner.rrIndex))
      {
        ghost var st := PassState(agents.agents, chats.chats, assigner.rrIndex);
        cut := OfferNext(queued, team, i, cut, agents0, chats0);
        OfferingAdvances(queued, team, agents.order, agents0, chats0, target, i, cut, st,
                         PassState(agents.agents, chats.chats, assigner.rrIndex));
        i := i + 1;
      }
      assert queued[i..] == [];
    }

    /**
     * One pass over the team's Queued sessions, oldest first. The new state
     * is exactly `PassResult` of that list: each session offered in turn to
     * the assigner on the live roster. It meets `TeamPass`: sessions are only
     * bound to accepting agents of the team, other teams' agents are left
     * alone, the bound sessions are never newer than one left waiting, and a
     * session is left waiting only when the team is saturated.
     */
    method DispatchTeam(team: Teams)
      requires Valid()
      modifies chats, agents, assigner
      ensures Valid()
      ensures chats.order == old(chats.order) && agents.order == old(agents.order)
      ensures PassState(agents.agents, chats.chats, assigner.rrIndex) ==
              PassResult(agents.order, team, PassState(old(agents.agents), old(chats.chats), old(assigner.rrIndex)),
                         SortByCreation(QueuedOf(old(chats.All()), team)))
      ensures TeamPass(team, agents.order, old(agents.agents), old(chats.chats), agents.agents, chats.chats)
      ensures DispatchEffect(old(agents.agents), old(chats.chats), agents.agents, chats.chats)
    {
      ghost var agents0, chats0 := agents.agents, chats.chats;
      var all := chats.All();
      var queued := SortByCreation(QueuedOf(all, team));
      chats.AllIsExactlyStored();
      PassList(chats.chats, all, team);
      ghost var cut := OfferInTurn(queued, team);
      PassEnds(queued, team, cut, agents0, chats0, agents.agents, chats.chats);
    }

    /**
     * One dispatcher tick: TeamA, TeamB, TeamC, then Overflow. Afterwards, for
     * every team, a session still waiting means no agent of that team can be
     * picked, and the sessions the tick bound are no newer than those left
     * waiting.
     */
    method Tick()
      requires Valid()
      modifies chats, agents, assigner
      ensures Valid()
      ensures chats.order == old(chats.order) && agents.order == old(agents.order)
      ensures DispatchEffect(old(agents.agents), old(chats.chats), agents.agents, chats.chats)
      ensures Dispatched(TeamA, agents.order, old(chats.chats), agents.agents, chats.chats)
      ensures Dispatched(TeamB, agents.order, old(chats.chats), agents.agents, chats.chats)
      ensures Dispatched(TeamC, agents.order, old(chats.chats), agents.agents, chats.chats)
      ensures Dispatched(Overflow, agents.order, old(chats.chats), agents.agents, chats.chats)
    {
      ghost var agents0, chats0 := agents.agents, chats.chats;
      DispatchTeam(TeamA);
      ghost var agents1, chats1 := agents.agents, chats.chats;
      DispatchTeam(TeamB);
      DispatchEffectComposes(agents0, chats0, agents1, chats1, agents.agents, chats.chats);
      ghost var agents2, chats2 := agents.agents, chats.chats;
      DispatchTeam(TeamC);
      DispatchEffectComposes(agents0, chats0, agents2, chats2, agents.agents, chats.chats);
      ghost var agents3, chats3 := agents.agents, chats.chats;
      DispatchTeam(Overflow);
      DispatchEffectComposes(agents0, chats0, agents3, chats3, agents.agents, chats.chats);
      FourPassesSettle(agents.order, TeamA, TeamB, TeamC, Overflow, agents0, chats0, agents1, chats1,
                       agents2, chats2, agents3, chats3, agents.agents, chats.chats);
    }
}
}
