/**
 * The roster the application seeds at start-up, and what the capacity rules
 * and the admission decision make of it: team A (a team lead, two mids and a
 * junior), team B (a senior, a mid and two juniors), team C (two mids) and six
 * overflow juniors that start switched off. Every shift runs from one hour
 * before the seeding instant to seven hours after it.
 */
module Scenarios {
  import opened Models
  import opened Seqs
  import opened CapacityCalculator
  import opened ChatAdmissionService
  import opened OverflowActivationWorker

  const Hour: int := 36_000_000_000

  function Seeded(id: AgentId, team: Teams, seniority: Seniority, now: Instant, accepting: bool): (a: Agent)
    ensures a.id == id && a.team == team && a.seniority == seniority && a.accepting == accepting && a.load == 0
    ensures a.shiftStart == now - Hour && a.shiftEnd == now + 7 * Hour
  {
    NewAgent(id, team, seniority, now - Hour, now + 7 * Hour).(accepting := accepting)
  }

  function RosterA(now: Instant): seq<Agent>
  {
    [Seeded(0, TeamA, TeamLead, now, true), Seeded(1, TeamA, Mid, now, true),
     Seeded(2, TeamA, Mid, now, true), Seeded(3, TeamA, Junior, now, true)]
  }

  function RosterB(now: Instant): seq<Agent>
  {
    [Seeded(4, TeamB, Senior, now, true), Seeded(5, TeamB, Mid, now, true),
     Seeded(6, TeamB, Junior, now, true), Seeded(7, TeamB, Junior, now, true)]
  }

  function RosterC(now: Instant): seq<Agent>
  {
    [Seeded(8, TeamC, Mid, now, true), Seeded(9, TeamC, Mid, now, true)]
  }

  function RosterOverflow(now: Instant, accepting: bool): seq<Agent>
  {
    seq(6, i requires 0 <= i < 6 => Seeded(10 + i, Overflow, Junior, now, accepting))
  }

  /** The seeded roster, in seeding order; `overflowOn` is the overflow agents' flag. */
  function SeedRoster(now: Instant, overflowOn: bool): (r: seq<Agent>)
    ensures |r| == 16
    ensures forall i :: 0 <= i < |r| ==> r[i].id == i && r[i].load == 0
    ensures forall i :: 0 <= i < |r| ==> (r[i].team == Overflow <==> i >= 10)
    ensures forall i :: 10 <= i < |r| ==> r[i].accepting == overflowOn
  {
    RosterA(now) + RosterB(now) + RosterC(now) + RosterOverflow(now, overflowOn)
  }

  /** A block whose agents share one team is all of that team's members in it, and nobody else's. */
  lemma BlockMembers(s: seq<Agent>, team: Teams)
    requires |s| > 0 && forall i :: 0 <= i < |s| ==> s[i].team == s[0].team
    ensures TeamMembers(s, team) == if s[0].team == team then s else []
  {
    var p := (x: Agent) => x.team == team;
    if s[0].team == team { FilterAll(s, p); } else { FilterNone(s, p); }
  }

  /** A team's members in the seeded roster, block by block. */
  lemma SeedTeamSplit(now: Instant, overflowOn: bool, team: Teams)
    ensures TeamMembers(SeedRoster(now, overflowOn), team) ==
              TeamMembers(RosterA(now), team) + TeamMembers(RosterB(now), team) +
              TeamMembers(RosterC(now), team) + TeamMembers(RosterOverflow(now, overflowOn), team)
  {
    var a, b, c, o := RosterA(now), RosterB(now), RosterC(now), RosterOverflow(now, overflowOn);
    var p := (x: Agent) => x.team == team;
    FilterAppend(a + b + c, o, p);
    FilterAppend(a + b, c, p);
    FilterAppend(a, b, p);
  }

  /** Each team's members in the seeded roster are its own block. */
  lemma SeedTeams(now: Instant, overflowOn: bool)
    ensures TeamMembers(SeedRoster(now, overflowOn), TeamA) == RosterA(now)
    ensures TeamMembers(SeedRoster(now, overflowOn), TeamB) == RosterB(now)
    ensures TeamMembers(SeedRoster(now, overflowOn), TeamC) == RosterC(now)
    ensures TeamMembers(SeedRoster(now, overflowOn), Overflow) == RosterOverflow(now, overflowOn)
  {
    var a, b, c, o := RosterA(now), RosterB(now), RosterC(now), RosterOverflow(now, overflowOn);
    forall team: Teams
      ensures TeamMembers(SeedRoster(now, overflowOn), team) ==
                (if team == TeamA then a else []) + (if team == TeamB then b else []) +
                (if team == TeamC then c else []) + (if team == Overflow then o else [])
    {
      SeedTeamSplit(now, overflowOn, team);
      BlockMembers(a, team);
      BlockMembers(b, team);
      BlockMembers(c, team);
      BlockMembers(o, team);
    }
  }

  /** The accepting overflow agents of the seeded roster are the overflow block's accepting agents. */
  lemma AcceptingOverflowOf(now: Instant, overflowOn: bool)
    ensures AcceptingOverflowAgents(SeedRoster(now, overflowOn)) ==
              Filter(RosterOverflow(now, overflowOn), (x: Agent) => x.team == Overflow && x.accepting)
    ensures overflowOn ==> AcceptingOverflowAgents(SeedRoster(now, overflowOn)) == RosterOverflow(now, overflowOn)
  {
    var a, b, c, o := RosterA(now), RosterB(now), RosterC(now), RosterOverflow(now, overflowOn);
    var p := (x: Agent) => x.team == Overflow && x.accepting;
    FilterNone(a, p);
    FilterNone(b, p);
    FilterNone(c, p);
    FilterAppend(a, b, p);
    FilterAppend(a + b, c, p);
    FilterAppend(a + b + c, o, p);
    if overflowOn {
      FilterAll(o, p);
    }
  }

  /** The capacity of a roster block, one agent at a time from the back. */
  lemma BlockCapacities(now: Instant)
    ensures TeamCapacity(RosterA(now)) == 21
    ensures TeamCapacity(RosterB(now)) == 22
    ensures TeamCapacity(RosterC(now)) == 12
    ensures TeamCapacity(RosterOverflow(now, true)) == 24
  {
    var a := RosterA(now);
    assert TeamCapacity(a[3..]) == 4;
    assert TeamCapacity(a[2..]) == 10;
    assert TeamCapacity(a[1..]) == 16;
    var b := RosterB(now);
    assert TeamCapacity(b[3..]) == 4;
    assert TeamCapacity(b[2..]) == 8;
    assert TeamCapacity(b[1..]) == 14;
    var c := RosterC(now);
    assert TeamCapacity(c[1..]) == 6;
    var o := RosterOverflow(now, true);
    assert TeamCapacity(o[5..]) == 4;
    assert TeamCapacity(o[4..]) == 8;
    assert TeamCapacity(o[3..]) == 12;
    assert TeamCapacity(o[2..]) == 16;
    assert TeamCapacity(o[1..]) == 20;
  }

  /**
   * Team A's capacity is 21 and its ceiling 31; team B's 22 and 33; team C's
   * 12 and 18. The overflow team contributes nothing while switched off and
   * 24 (ceiling 36) once switched on.
   */
  lemma SeedCapacities(now: Instant)
    ensures TeamCapacity(TeamMembers(SeedRoster(now, true), TeamA)) == 21 && MaxQueueSize(21) == 31
    ensures TeamCapacity(TeamMembers(SeedRoster(now, true), TeamB)) == 22 && MaxQueueSize(22) == 33
    ensures TeamCapacity(TeamMembers(SeedRoster(now, true), TeamC)) == 12 && MaxQueueSize(12) == 18
    ensures TeamCapacity(AcceptingOverflowAgents(SeedRoster(now, false))) == 0
    ensures TeamCapacity(AcceptingOverflowAgents(SeedRoster(now, true))) == 24 && MaxQueueSize(24) == 36
  {
    SeedTeams(now, true);
    BlockCapacities(now);
    AcceptingOverflowOf(now, true);
    AcceptingOverflowOf(now, false);
    FilterNone(RosterOverflow(now, false), (x: Agent) => x.team == Overflow && x.accepting);
  }

  /**
   * Business hours on the seeded roster without the override: team A takes
   * chats until its backlog reaches 31; from then on requests are rejected
   * while the overflow agents are off, and the activation worker's decision
   * is on; once they are on, requests go to overflow until its backlog
   * reaches 36, and are rejected after that.
   */
  lemma DaytimeAdmission(cfg: Settings, now: Instant, t: Instant, chats: seq<ChatSession>)
    requires InOffice(cfg, t) && !OverrideApplies(cfg)
    ensures Backlog(chats, TeamA) < 31 ==>
              TargetTeam(cfg, t, SeedRoster(now, false), chats) == Some(TeamA) &&
              !EnableOverflow(cfg, t, SeedRoster(now, false), chats)
    ensures Backlog(chats, TeamA) >= 31 ==>
              TargetTeam(cfg, t, SeedRoster(now, false), chats) == None &&
              EnableOverflow(cfg, t, SeedRoster(now, false), chats)
    ensures Backlog(chats, TeamA) >= 31 ==>
              TargetTeam(cfg, t, SeedRoster(now, true), chats) ==
                if Backlog(chats, Overflow) < 36 then Some(Overflow) else None
  {
    SeedTeams(now, false);
    SeedTeams(now, true);
    BlockCapacities(now);
    AcceptingOverflowOf(now, true);
    var on, off := SeedRoster(now, true), SeedRoster(now, false);
    assert on[10].team == Overflow && on[10].accepting;
    assert !AnyOverflowAccepting(off);
  }

  /**
   * Outside business hours (not forced) team C is the main team, with
   * ceiling 18, and the overflow lane is never taken.
   */
  lemma NightAdmission(cfg: Settings, now: Instant, t: Instant, chats: seq<ChatSession>, overflowOn: bool)
    requires !InOffice(cfg, t) && !OverrideApplies(cfg)
    ensures TargetTeam(cfg, t, SeedRoster(now, overflowOn), chats) ==
              if Backlog(chats, TeamC) < 18 then Some(TeamC) else None
  {
    SeedTeams(now, overflowOn);
    BlockCapacities(now);
  }
}
