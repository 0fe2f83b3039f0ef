/**
 * The session store: a keyed container with insert-or-replace on both `Add`
 * and `Update`, point lookup and full enumeration. `order` lists the keys in
 * the order `All` enumerates them (first insertion first); the source's
 * dictionary leaves that order unspecified.
 */
module InMemoryChatStore {
  import opened Models

  class ChatStore {
    var chats: map<ChatId, ChatSession>
    var order: seq<ChatId>

    ghost predicate Valid()
      reads this
    {
      && (forall i, j :: 0 <= i < j < |order| ==> order[i] != order[j])
      && (forall i :: 0 <= i < |order| ==> order[i] in chats)
      && (forall k :: k in chats ==> k in order)
      && (forall k :: k in chats ==> chats[k].id == k)
      && |order| == |chats|
    }

    constructor ()
      ensures Valid() && chats == map[] && order == []
    {
      chats := map[];
      order := [];
    }

    /** Stores `chat` under its id and hands it back. */
    method Add(chat: ChatSession) returns (r: ChatSession)
      requires Valid()
      modifies this
      ensures Valid()
      ensures r == chat
      ensures chats == old(chats)[chat.id := chat]
      ensures chat.id in chats && chats[chat.id] == chat
      ensures order == if chat.id in old(chats) then old(order) else old(order) + [chat.id]
    {
      Put(chat);
      r := chat;
    }

    /** Replaces the entry at `chat.id` (inserting it when absent); other entries are untouched. */
    method Update(chat: ChatSession)
      requires Valid()
      modifies this
      ensures Valid()
      ensures chats == old(chats)[chat.id := chat]
      ensures order == if chat.id in old(chats) then old(order) else old(order) + [chat.id]
    {
      Put(chat);
    }

    /** The indexer assignment shared by Add and Update. */
    method Put(chat: ChatSession)
      requires Valid()
      modifies this
      ensures Valid()
      ensures chats == old(chats)[chat.id := chat]
      ensures order == if chat.id in old(chats) then old(order) else old(order) + [chat.id]
    {
      if chat.id !in chats {
        order := order + [chat.id];
      }
      chats := chats[chat.id := chat];
    }

    /** The session stored under `id`, or None (and no change) when there is none. */
    method TryGet(id: ChatId) returns (r: Option<ChatSession>)
      requires Valid()
      ensures r.Some? <==> id in chats
      ensures r.Some? ==> r.value == chats[id] && r.value.id == id
    {
      if id in chats {
        r := Some(chats[id]);
      } else {
        r := None;
      }
    }

    /** The stored sessions, one per id, in enumeration order. */
    function All(): (r: seq<ChatSession>)
      requires Valid()
      reads this
      ensures |r| == |chats|
      ensures forall i :: 0 <= i < |r| ==> r[i].id == order[i] && r[i].id in chats && chats[r[i].id] == r[i]
    {
      var o, m := order, chats;
      var r := seq(|o|, i requires 0 <= i < |o| => m[o[i]]);
      r
    }

    /** `All` yields exactly the stored values, one per id. */
    lemma AllIsExactlyStored()
      requires Valid()
      ensures forall k :: k in chats ==> chats[k] in All()
      ensures forall x :: x in All() ==> x.id in chats && chats[x.id] == x
      ensures forall i, j :: 0 <= i < j < |All()| ==> All()[i].id != All()[j].id
    {
      var r := All();
      forall k | k in chats
        ensures chats[k] in r
      {
        var i :| 0 <= i < |order| && order[i] == k;
        assert r[i] == chats[k];
      }
    }
  }
}
