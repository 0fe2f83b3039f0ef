/**
 * The three client endpoints on chats: create (delegating to admission),
 * read one session, and poll. Polling is the client's heartbeat: it stamps
 * the session with the poll time, and the first poll after assignment makes
 * the chat Active. The HTTP response bodies are reduced to a status and the
 * session they are built from.
 */
module ChatsController {
  import opened Models
  import opened SessionCounts
  import opened EngineInvariant
  import opened InMemoryChatStore
  import opened Queues
  import opened ChatAdmissionService

  /** The response statuses the endpoints produce. */
  datatype HttpStatus = Ok | NotFound | TooManyRequests

  /** A session after one poll at `now`. */
  function PollSession(c: ChatSession, now: Instant): (p: ChatSession)
    ensures p.lastPollAt == Some(now)
    ensures c.status == Assigned ==> p.status == Active
    ensures c.status != Assigned ==> p.status == c.status
    ensures p.id == c.id && p.createdAt == c.createdAt
    ensures p.assignedAgent == c.assignedAgent && p.assignedTeam == c.assignedTeam
  {
    var polled := c.(lastPollAt := Some(now));
    if polled.status == Assigned then polled.(status := Active) else polled
  }

  /** A second poll only moves the poll time: the status settles after one poll. */
  lemma PollTwice(c: ChatSession, t1: Instant, t2: Instant)
    ensures PollSession(PollSession(c, t1), t2) == PollSession(c, t2)
  {
  }

  /** Polling never brings back a chat that is queued, finished or rejected. */
  lemma PollDoesNotRevive(c: ChatSession, now: Instant)
    ensures c.status != Assigned ==> PollSession(c, now).status == c.status
    ensures IsFinished(PollSession(c, now)) <==> IsFinished(c)
    ensures HoldsCapacity(PollSession(c, now)) <==> HoldsCapacity(c)
    ensures InBacklog(PollSession(c, now)) <==> InBacklog(c)
  {
  }

  /** Right after a poll a session is not stale for any non-negative timeout. */
  lemma PolledIsFresh(c: ChatSession, now: Instant, inactiveAfter: int)
    requires inactiveAfter >= 0
    ensures !IsStale(PollSession(c, now), now, inactiveAfter)
  {
  }

  /**
   * Polling one stored session keeps the engine consistent and leaves every
   * agent's load count and every team's backlog as they were.
   */
  lemma PollKeepsInv(agents: map<AgentId, Agent>, chats: map<ChatId, ChatSession>, k: ChatId, now: Instant)
    requires SystemInv(agents, chats)
    requires k in chats
    ensures SystemInv(agents, chats[k := PollSession(chats[k], now)])
    ensures forall t :: Count(chats[k := PollSession(chats[k], now)], BacklogOf(t)) == Count(chats, BacklogOf(t))
  {
    var p := PollSession(chats[k], now);
    RewriteSessionKeepsInv(agents, chats, k, p);
    forall t
      ensures Count(chats[k := p], BacklogOf(t)) == Count(chats, BacklogOf(t))
    {
      CountUnchanged(chats, k, p, BacklogOf(t));
    }
  }

  /** Polling keeps every session's id, creation time and binding. */
  lemma PollKeepsHistory(chats: map<ChatId, ChatSession>, k: ChatId, now: Instant)
    requires k in chats
    ensures SessionsKeepHistory(chats, chats[k := PollSession(chats[k], now)])
  {
  }

  class Controller {
    const chats: ChatStore
    const admission: AdmissionService

    /** The controller reads the same session store admission writes to. */
    ghost predicate Valid()
      reads this, chats, admission, admission.chats, admission.agents, admission.mainQueue, admission.overflowQueue
    {
      chats == admission.chats && admission.Valid()
    }

    constructor (chats: ChatStore, admission: AdmissionService)
      ensures this.chats == chats && this.admission == admission
    {
      this.chats := chats;
      this.admission := admission;
    }

    /**
     * POST: asks admission for a new chat under the fresh id `id`. The result
     * is admission's: the lane `TargetTeam` chooses on the state before the
     * request, the session recorded under `id`, and the push onto that lane's
     * queue. A refused request answers 429; an accepted one answers 200 and
     * always carries the team it was routed to. No agent changes.
     */
    method Create(now: Instant, id: ChatId) returns (status: HttpStatus, r: CreateChatResult)
      requires Valid()
      requires id !in chats.chats
      modifies admission.chats, admission.mainQueue, admission.overflowQueue
      ensures Valid()
      ensures r.chatId == id && id in chats.chats
      ensures chats.chats == old(chats.chats)[id := chats.chats[id]]
      ensures chats.order == old(chats.order) + [id]
      ensures admission.agents.agents == old(admission.agents.agents)
      ensures admission.Outcome(TargetTeam(admission.cfg, now, admission.agents.All(), old(chats.All())),
                                id, now, r, chats.chats[id],
                                old(admission.mainQueue.items), old(admission.overflowQueue.items))
      ensures admission.mainQueue.fullMode == DropWrite && admission.overflowQueue.fullMode == DropWrite ==>
                (r.accepted <==> TargetTeam(admission.cfg, now, admission.agents.All(), old(chats.All())).Some?)
      ensures SystemInv(admission.agents.agents, old(chats.chats)) ==> SystemInv(admission.agents.agents, chats.chats)
      ensures status == TooManyRequests <==> !r.accepted
      ensures status == Ok <==> r.accepted
      ensures r.accepted ==> r.team.Some? && r.team != Some(TeamB)
    {
      r := admission.CreateChat(now, id);
      if !r.accepted {
        status := TooManyRequests;
      } else {
        status := Ok;
      }
    }

    /** GET by id: the stored session, or 404 when the id is unknown. Nothing changes. */
    method Get(id: ChatId) returns (status: HttpStatus, view: Option<ChatSession>)
      requires Valid()
      ensures status == NotFound <==> id !in chats.chats
      ensures status == Ok <==> id in chats.chats
      ensures view.Some? <==> id in chats.chats
      ensures view.Some? ==> view.value == chats.chats[id] && view.value.id == id
    {
      view := chats.TryGet(id);
      if view.None? {
        return NotFound, None;
      }
      status := Ok;
    }

    /**
     * GET poll: 404 and no change when the id is unknown; otherwise the
     * session at `id` becomes its polled form, and no other session changes.
     */
    method Poll(id: ChatId, now: Instant) returns (status: HttpStatus, view: Option<ChatSession>)
      requires Valid()
      modifies chats
      ensures Valid()
      ensures chats.order == old(chats.order)
      ensures status == NotFound <==> id !in old(chats.chats)
      ensures id !in old(chats.chats) ==> view == None && chats.chats == old(chats.chats)
      ensures id in old(chats.chats) ==>
                && status == Ok
                && view == Some(PollSession(old(chats.chats)[id], now))
                && chats.chats == old(chats.chats)[id := PollSession(old(chats.chats)[id], now)]
    {
      var found := chats.TryGet(id);
      if found.None? {
        return NotFound, None;
      }
      var chat := found.value;
      chat := chat.(lastPollAt := Some(now));
      if chat.status == Assigned {
        chat := chat.(status := Active);
      }
      chats.Update(chat);
      status, view := Ok, Some(chat);
    }
  }
}
