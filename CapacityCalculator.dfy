/**
 * The capacity policy: how many chats an agent of a tier may hold, the summed
 * allowance of a team's accepting agents, and the backlog ceiling floor(1.5 c).
 *
 * The source works with `decimal`, which is exact: a multiplier is a whole
 * number of tenths, so 10 * multiplier is computed as an integer here.
 */
module CapacityCalculator {
  import opened Models
  import opened Seqs

  /** The tier multiplier, in tenths (0.4, 0.6, 0.8, 0.5). */
  function MultiplierTenths(s: Seniority): nat
  {
    match s
    case Junior => 4
    case Mid => 6
    case Senior => 8
    case TeamLead => 5
  }

  /** floor(10 * multiplier): the number of chats an agent of tier `s` may hold. */
  function MaxConcurrentForAgent(s: Seniority): (r: nat)
    ensures s == Junior ==> r == 4
    ensures s == Mid ==> r == 6
    ensures s == Senior ==> r == 8
    ensures s == TeamLead ==> r == 5
    ensures 4 <= r <= 8
  {
    // 10 * (m / 10) with m in tenths is (10 * m) / 10 tenths of a chat, floored.
    (10 * MultiplierTenths(s)) / 10
  }

  /** The summed allowance of the accepting agents of `agents`. */
  function TeamCapacity(agents: seq<Agent>): (r: nat)
    ensures r <= 8 * |agents|
    ensures (forall i :: 0 <= i < |agents| ==> !agents[i].accepting) ==> r == 0
  {
    if |agents| == 0 then 0
    else
      (if agents[0].accepting then MaxConcurrentForAgent(agents[0].seniority) else 0)
      + TeamCapacity(agents[1..])
  }

  /** floor(c * 1.5); Dafny's division by a positive divisor floors. */
  function MaxQueueSize(teamCapacity: int): (r: int)
    ensures 2 * r <= 3 * teamCapacity < 2 * r + 2
  {
    (3 * teamCapacity) / 2
  }

  /** Capacity adds up over concatenated rosters. */
  lemma {:induction false} TeamCapacityAppend(s: seq<Agent>, t: seq<Agent>)
    ensures TeamCapacity(s + t) == TeamCapacity(s) + TeamCapacity(t)
  {
    if |s| == 0 {
      assert s + t == t;
    } else {
      assert (s + t)[1..] == s[1..] + t;
      TeamCapacityAppend(s[1..], t);
    }
  }

  /** Agents that are not accepting contribute nothing, whatever their load. */
  lemma {:induction false} TeamCapacityCountsAcceptingOnly(agents: seq<Agent>)
    ensures TeamCapacity(agents) == TeamCapacity(Filter(agents, (a: Agent) => a.accepting))
  {
    if |agents| > 0 {
      TeamCapacityCountsAcceptingOnly(agents[1..]);
      var p := (a: Agent) => a.accepting;
      var head := if p(agents[0]) then [agents[0]] else [];
      assert Filter(agents, p) == head + Filter(agents[1..], p);
      TeamCapacityAppend(head, Filter(agents[1..], p));
    }
  }

  /**
   * Capacity reads only the accepting flag and the tier: two rosters that agree
   * on those, position by position, have the same capacity (loads are ignored).
   */
  lemma {:induction false} TeamCapacityIgnoresLoad(s: seq<Agent>, t: seq<Agent>)
    requires |s| == |t|
    requires forall i :: 0 <= i < |s| ==> s[i].accepting == t[i].accepting && s[i].seniority == t[i].seniority
    ensures TeamCapacity(s) == TeamCapacity(t)
  {
    if |s| > 0 {
      TeamCapacityIgnoresLoad(s[1..], t[1..]);
    }
  }

  /** The ceiling is floor(1.5 c) = (3 c) / 2, as in the worked examples. */
  lemma MaxQueueSizeExamples()
    ensures MaxQueueSize(4) == 6 && MaxQueueSize(11) == 16 && MaxQueueSize(21) == 31
    ensures MaxQueueSize(12) == 18 && MaxQueueSize(0) == 0
  {
  }

  /** A larger capacity never lowers the ceiling, and the ceiling is never below the capacity. */
  lemma MaxQueueSizeMonotone(c: int, d: int)
    requires 0 <= c <= d
    ensures c <= MaxQueueSize(c) <= MaxQueueSize(d)
  {
  }
}
