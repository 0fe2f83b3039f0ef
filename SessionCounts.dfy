/**
 * Counting sessions in the session map: the backlog of a team (the sessions
 * that still occupy its capacity) and the sessions bound to an agent that hold
 * one of its slots. The predicates on one session are the shared vocabulary of
 * admission, dispatch and the inactivity monitor.
 */
module SessionCounts {
  import opened Models

  /** A session holds a slot of its agent while it is Assigned or Active. */
  predicate HoldsCapacity(s: ChatSession)
  {
    s.status == Assigned || s.status == Active
  }

  /** A session is in its team's backlog while it is Queued, Assigned or Active. */
  predicate InBacklog(s: ChatSession)
  {
    s.status == Queued || s.status == Assigned || s.status == Active
  }

  /** Closed, Rejected and Inactive sessions are skipped by the inactivity monitor. */
  predicate IsFinished(s: ChatSession)
  {
    s.status == Closed || s.status == Rejected || s.status == Inactive
  }

  /** The last sign of life: the last poll if any, else the creation time. */
  function LastSeen(s: ChatSession): (t: Instant)
    ensures s.lastPollAt.None? ==> t == s.createdAt
    ensures s.lastPollAt.Some? ==> t == s.lastPollAt.value
  {
    match s.lastPollAt
    case Some(p) => p
    case None => s.createdAt
  }

  /**
   * Stale: strictly more than `inactiveAfter` ticks since the session was last
   * seen. With a non-negative threshold a stale session was last seen strictly
   * before `now`, so one seen at `now` is never stale.
   */
  predicate IsStale(s: ChatSession, now: Instant, inactiveAfter: int)
    ensures inactiveAfter >= 0 && IsStale(s, now, inactiveAfter) ==> LastSeen(s) < now
  {
    now - LastSeen(s) > inactiveAfter
  }

  /** The kinds of session the engine counts. */
  datatype SessionFilter =
    | BoundTo(agent: AgentId)
    | BacklogOf(team: Teams)
    | StaleBoundTo(agent: AgentId, now: Instant, inactiveAfter: int)

  predicate Matches(f: SessionFilter, s: ChatSession)
  {
    match f
    case BoundTo(a) => HoldsCapacity(s) && s.assignedAgent == Some(a)
    case BacklogOf(t) => s.assignedTeam == Some(t) && InBacklog(s)
    case StaleBoundTo(a, now, after) => HoldsCapacity(s) && s.assignedAgent == Some(a) && IsStale(s, now, after)
  }

  function Matching(m: map<ChatId, ChatSession>, f: SessionFilter): set<ChatId>
  {
    set k | k in m && Matches(f, m[k])
  }

  /** The number of stored sessions of kind `f`. */
  function Count(m: map<ChatId, ChatSession>, f: SessionFilter): (n: nat)
    ensures n <= |m|
  {
    assert Matching(m, f) <= m.Keys;
    SubsetCard(Matching(m, f), m.Keys);
    |Matching(m, f)|
  }

  lemma SubsetCard<T>(a: set<T>, b: set<T>)
    requires a <= b
    ensures |a| <= |b|
  {
    assert b == a + (b - a);
  }

  /** Nothing is counted in an empty store. */
  lemma CountEmpty(f: SessionFilter)
    ensures Count(map[], f) == 0
  {
    assert Matching(map[], f) == {};
  }

  /** Writing one entry changes a count by what leaves and what enters at that key. */
  lemma CountUpdate(m: map<ChatId, ChatSession>, k: ChatId, v: ChatSession, f: SessionFilter)
    ensures Count(m[k := v], f)
         == Count(m, f) - (if k in m && Matches(f, m[k]) then 1 else 0) + (if Matches(f, v) then 1 else 0)
  {
    MatchingUpdate(m, k, v, f);
    CardWithout(Matching(m, f), k);
    CardWithout(Matching(m[k := v], f), k);
  }

  /** Away from the written key, the matching keys are the same. */
  lemma MatchingUpdate(m: map<ChatId, ChatSession>, k: ChatId, v: ChatSession, f: SessionFilter)
    ensures Matching(m[k := v], f) - {k} == Matching(m, f) - {k}
    ensures k in Matching(m, f) <==> k in m && Matches(f, m[k])
    ensures k in Matching(m[k := v], f) <==> Matches(f, v)
  {
  }

  lemma CardWithout<T>(s: set<T>, k: T)
    ensures |s| == |s - {k}| + (if k in s then 1 else 0)
  {
    if k in s {
      assert s == (s - {k}) + {k};
    } else {
      assert s == s - {k};
    }
  }

  /** A write at a key whose old and new sessions are both not of kind `f` leaves the count. */
  lemma CountUnchanged(m: map<ChatId, ChatSession>, k: ChatId, v: ChatSession, f: SessionFilter)
    requires k in m ==> (Matches(f, m[k]) <==> Matches(f, v))
    requires k !in m ==> !Matches(f, v)
    ensures Count(m[k := v], f) == Count(m, f)
  {
    CountUpdate(m, k, v, f);
  }

  /** Removing a counted subset lowers the count by that subset's size. */
  lemma CountRemoveSubset(m: map<ChatId, ChatSession>, m': map<ChatId, ChatSession>, f: SessionFilter, g: SessionFilter)
    requires Matching(m, g) <= Matching(m, f)
    requires Matching(m', f) == Matching(m, f) - Matching(m, g)
    ensures Count(m', f) == Count(m, f) - Count(m, g)
  {
    var a, b := Matching(m, f), Matching(m, g);
    assert a == (a - b) + b;
  }

  predicate DistinctIds(s: seq<ChatSession>)
  {
    forall i, j :: 0 <= i < j < |s| ==> s[i].id != s[j].id
  }

  function IdsOf(s: seq<ChatSession>): set<ChatId>
  {
    set c | c in s :: c.id
  }

  /** The number of sessions of kind `f` in an enumeration, counted from its end. */
  function CountSeq(s: seq<ChatSession>, f: SessionFilter): (n: nat)
    ensures n <= |s|
  {
    if |s| == 0 then 0
    else CountSeq(s[..|s| - 1], f) + (if Matches(f, s[|s| - 1]) then 1 else 0)
  }

  /** A snapshot with no session of kind `f` counts zero. */
  lemma {:induction false} CountSeqNoneMatch(s: seq<ChatSession>, f: SessionFilter)
    ensures (forall i :: 0 <= i < |s| ==> !Matches(f, s[i])) ==> CountSeq(s, f) == 0
  {
    if |s| > 0 && forall i :: 0 <= i < |s| ==> !Matches(f, s[i]) {
      CountSeqNoneMatch(s[..|s| - 1], f);
    }
  }

  lemma CountSeqSnoc(s: seq<ChatSession>, c: ChatSession, f: SessionFilter)
    ensures CountSeq(s + [c], f) == CountSeq(s, f) + (if Matches(f, c) then 1 else 0)
  {
    assert (s + [c])[..|s|] == s;
  }

  /** Counting an enumeration of the store, one entry per id, gives the store's count. */
  lemma {:induction false} CountSeqIsCount(s: seq<ChatSession>, m: map<ChatId, ChatSession>, f: SessionFilter)
    requires DistinctIds(s)
    requires forall j :: 0 <= j < |s| ==> s[j].id in m && m[s[j].id] == s[j]
    requires m.Keys == IdsOf(s)
    ensures CountSeq(s, f) == Count(m, f)
  {
    if |s| == 0 {
      assert m == map[];
      CountEmpty(f);
    } else {
      var s', x := s[..|s| - 1], s[|s| - 1];
      var m' := m - {x.id};
      DropLast(s, m);
      CountSeqIsCount(s', m', f);
      CountUpdate(m', x.id, x, f);
    }
  }

  /** Without its last entry, an enumeration enumerates the store without that entry's id. */
  lemma DropLast(s: seq<ChatSession>, m: map<ChatId, ChatSession>)
    requires |s| > 0 && DistinctIds(s)
    requires forall j :: 0 <= j < |s| ==> s[j].id in m && m[s[j].id] == s[j]
    requires m.Keys == IdsOf(s)
    ensures var s', x := s[..|s| - 1], s[|s| - 1];
            && DistinctIds(s')
            && (forall j :: 0 <= j < |s'| ==> s'[j].id in m - {x.id} && (m - {x.id})[s'[j].id] == s'[j])
            && (m - {x.id}).Keys == IdsOf(s')
            && x.id !in m - {x.id}
            && m == (m - {x.id})[x.id := x]
  {
    var s', x := s[..|s| - 1], s[|s| - 1];
    var m' := m - {x.id};
    forall k | k in IdsOf(s)
      ensures k == x.id || k in IdsOf(s')
    {
      var c :| c in s && c.id == k;
      var j :| 0 <= j < |s| && s[j] == c;
      if j < |s'| {
        assert s'[j] == c;
      }
    }
    forall k | k in IdsOf(s')
      ensures k in IdsOf(s) && k != x.id
    {
      var c :| c in s' && c.id == k;
      var j :| 0 <= j < |s'| && s'[j] == c;
      assert s[j] == c;
    }
  }
}
