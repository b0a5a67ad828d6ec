/**
 * The chat screen's client state (src/pages/Chat.jsx) as an object: the
 * React state it keeps (presence set, typing indicator, group history,
 * unread counts) and the private-message handler registry held in a ref.
 * Each inbound event kind is one method; each applies the pure updaters of
 * ChatUpdates and changes only the fields it names.
 */
module ChatSession {
  import opened ChatUpdates

  /**
   * Builds the merged presence set after the bulk online-user fetch: a copy
   * of the previous set, every fetched key added one at a time, then self.
   */
  method MergeOnlineUsers(prev: set<string>, fetched: seq<string>, self: string) returns (merged: set<string>)
    ensures prev <= merged
    ensures self in merged
    ensures forall i :: 0 <= i < |fetched| ==> fetched[i] in merged
    ensures forall u :: u in merged ==> u in prev || u in fetched || u == self
  {
    merged := prev;
    var i := 0;
    while i < |fetched|
      invariant 0 <= i <= |fetched|
      invariant prev <= merged
      invariant forall j :: 0 <= j < i ==> fetched[j] in merged
      invariant forall u :: u in merged ==> u in prev || u in fetched[..i]
    {
      merged := merged + {fetched[i]};
      i := i + 1;
    }
    assert fetched[..i] == fetched;
    merged := merged + {self};
  }

  class ChatClient {
    /** The signed-in user's name. */
    const username: string
    var onlineUsers: set<string>
    /** The user shown as typing; "" when nobody is. */
    var isTyping: string
    var messages: seq<ChatMessage>
    var unreadMessages: map<string, nat>
    var privateMessageHandlers: map<string, HandlerId>

    /** Every history entry carries a non-empty id and timestamp. */
    ghost predicate Valid()
      reads this
    {
      forall i :: 0 <= i < |messages| ==> Keyed(messages[i])
    }

    constructor (username: string)
      ensures this.username == username
      ensures onlineUsers == {} && isTyping == "" && messages == []
      ensures unreadMessages == map[] && privateMessageHandlers == map[]
      ensures Valid()
    {
      this.username := username;
      onlineUsers := {};
      isTyping := "";
      messages := [];
      unreadMessages := map[];
      privateMessageHandlers := map[];
    }

    /** Installs the handler for a conversation, replacing any earlier one. */
    method RegisterPrivateMessageHandler(otherUser: string, handler: HandlerId)
      requires Valid()
      modifies this`privateMessageHandlers
      ensures Valid()
      ensures privateMessageHandlers == old(privateMessageHandlers)[otherUser := handler]
    {
      privateMessageHandlers := privateMessageHandlers[otherUser := handler];
    }

    /** Removes only that conversation's handler. */
    method UnregisterPrivateMessageHandler(otherUser: string)
      requires Valid()
      modifies this`privateMessageHandlers
      ensures Valid()
      ensures privateMessageHandlers == old(privateMessageHandlers) - {otherUser}
      ensures otherUser !in privateMessageHandlers
    {
      privateMessageHandlers := privateMessageHandlers - {otherUser};
    }

    /** The step before the connection opens: self joins the presence set. */
    method OnConnect()
      requires Valid()
      modifies this`onlineUsers
      ensures Valid()
      ensures onlineUsers == JoinSelf(old(onlineUsers), username)
    {
      onlineUsers := JoinSelf(onlineUsers, username);
    }

    /**
     * A group-channel event: presence follows JOIN/LEAVE; a TYPING event
     * only sets the indicator; every other event, JOIN and LEAVE included,
     * is appended to history with its missing timestamp/id defaulted.
     */
    method OnGroupMessage(m: ChatMessage, now: string, freshId: string)
      requires Valid()
      requires now != "" && freshId != ""
      modifies this`onlineUsers, this`isTyping, this`messages
      ensures Valid()
      ensures onlineUsers == UpdatePresence(old(onlineUsers), m)
      ensures m.kind == TYPING ==> isTyping == m.sender && messages == old(messages)
      ensures m.kind != TYPING ==> isTyping == old(isTyping)
      ensures m.kind != TYPING ==> messages == AppendHistory(old(messages), m, now, freshId)
    {
      onlineUsers := UpdatePresence(onlineUsers, m);
      if m.kind == TYPING {
        isTyping := m.sender;
        return;
      }
      AppendKeepsKeyed(messages, m, now, freshId);
      messages := AppendHistory(messages, m, now, freshId);
    }

    /** The expiry of the typing indicator, as an explicit event. */
    method OnTypingTimeout()
      requires Valid()
      modifies this`isTyping
      ensures Valid()
      ensures isTyping == ""
    {
      isTyping := "";
    }

    /**
     * A private-queue message: delivered to the partner's handler if one is
     * registered, otherwise counted as unread when addressed to self.
     */
    method OnPrivateMessage(pm: PrivateMessage) returns (d: Delivery)
      requires Valid()
      modifies this`unreadMessages
      ensures Valid()
      ensures d == RoutePrivate(privateMessageHandlers, username, pm)
      ensures unreadMessages == UnreadAfter(old(unreadMessages), d)
    {
      d := RoutePrivate(privateMessageHandlers, username, pm);
      unreadMessages := UnreadAfter(unreadMessages, d);
    }

    /** The bulk online-user fetch, merged into the live presence set. */
    method OnOnlineUsersFetched(fetched: seq<string>)
      requires Valid()
      modifies this`onlineUsers
      ensures Valid()
      ensures old(onlineUsers) <= onlineUsers
      ensures username in onlineUsers
      ensures forall i :: 0 <= i < |fetched| ==> fetched[i] in onlineUsers
      ensures forall u :: u in onlineUsers ==> u in old(onlineUsers) || u in fetched || u == username
    {
      onlineUsers := MergeOnlineUsers(onlineUsers, fetched, username);
    }
  }
}
