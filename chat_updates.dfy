/**
 * The state updaters of the chat screen (src/pages/Chat.jsx), as pure
 * functions on the values the screen keeps: the presence set, the group
 * message history and the unread-count map, plus the routing decision taken
 * for an inbound private message.
 *
 * Inbound frames arrive already parsed; the current time and the generated
 * message id that the screen takes from `Date.now()`/`Math.random()` are
 * parameters.
 */
module ChatUpdates {
  import opened Common

  const JOIN := "JOIN"
  const LEAVE := "LEAVE"
  const TYPING := "TYPING"

  /** A group-channel event. `timestamp` and `id` are None when the server omits them. */
  datatype ChatMessage = ChatMessage(
    kind: string,
    sender: string,
    content: string,
    timestamp: Option<string>,
    id: Option<string>)

  /** A frame of the per-user private queue. */
  datatype PrivateMessage = PrivateMessage(
    sender: string,
    recipient: string,
    content: string,
    timestamp: Option<string>)

  /** The identity of a registered private-message callback. */
  type HandlerId = nat

  /** Where an inbound private message went. */
  datatype Delivery =
    | ToHandler(handler: HandlerId, message: PrivateMessage)
    | MarkedUnread(partner: string)
    | Dropped

  // ---------------------------------------------------------------- presence

  /**
   * The presence updater: a JOIN adds its sender, a LEAVE removes it, every
   * other kind leaves the set as it was. The source's updater forgets to
   * return the new set (so React would store `undefined`); this is the
   * evidently intended updater, returning it.
   */
  function UpdatePresence(users: set<string>, m: ChatMessage): (r: set<string>)
    ensures m.kind == JOIN ==> m.sender in r
    ensures m.kind == LEAVE ==> m.sender !in r
    ensures m.kind != JOIN && m.kind != LEAVE ==> r == users
    ensures forall u :: u != m.sender ==> (u in r <==> u in users)
  {
    if m.kind == JOIN then users + {m.sender}
    else if m.kind == LEAVE then users - {m.sender}
    else users
  }

  /** The presence set after a run of group events, applied in arrival order. */
  function ReplayPresence(users: set<string>, events: seq<ChatMessage>): (r: set<string>)
    decreases |events|
  {
    if events == [] then users
    else ReplayPresence(UpdatePresence(users, events[0]), events[1..])
  }

  /** What one event says about `u`: Some(true) for its JOIN, Some(false) for its LEAVE. */
  function PresenceEffect(u: string, m: ChatMessage): (effect: Option<bool>)
  {
    if m.sender == u && m.kind == JOIN then Some(true)
    else if m.sender == u && m.kind == LEAVE then Some(false)
    else None
  }

  /** The effect on `u` of the last JOIN or LEAVE of `u` in `events`, if any. */
  function LastPresenceEffect(u: string, events: seq<ChatMessage>): (effect: Option<bool>)
    decreases |events|
  {
    if events == [] then None
    else
      var later := LastPresenceEffect(u, events[1..]);
      if later.Some? then later else PresenceEffect(u, events[0])
  }

  /**
   * Presence reflects only the last JOIN/LEAVE seen for a user; a user with
   * no such event keeps the membership it had before the run.
   */
  lemma {:induction false} PresenceFollowsLastEvent(users: set<string>, events: seq<ChatMessage>, u: string)
    ensures u in ReplayPresence(users, events) <==>
            (match LastPresenceEffect(u, events)
             case Some(joined) => joined
             case None => u in users)
    decreases |events|
  {
    if events != [] {
      PresenceFollowsLastEvent(UpdatePresence(users, events[0]), events[1..], u);
    }
  }

  /**
   * The connect step: the signed-in user marks itself online before the
   * connection is opened; an empty username stops the step before it
   * changes anything.
   */
  function JoinSelf(users: set<string>, self: string): (r: set<string>)
    ensures users <= r
    ensures self != "" ==> self in r
    ensures forall u :: u in r ==> u in users || u == self
    ensures self == "" ==> r == users
  {
    if self == "" then users else users + {self}
  }

  // ----------------------------------------------------------------- history

  /** JavaScript's `v || fallback` for an optional string field: "" counts as absent. */
  function OrDefault(v: Option<string>, fallback: string): (r: string)
    ensures v.Some? && v.value != "" ==> r == v.value
    ensures v.None? || v.value == "" ==> r == fallback
  {
    if v.Some? && v.value != "" then v.value else fallback
  }

  /**
   * The entry appended to history for a group event: every field of the
   * event is kept, and only an absent (or empty) timestamp or id is filled
   * with the supplied default.
   */
  function Stamp(m: ChatMessage, now: string, freshId: string): (e: ChatMessage)
    ensures e.kind == m.kind && e.sender == m.sender && e.content == m.content
    ensures m.timestamp.Some? && m.timestamp.value != "" ==> e.timestamp == m.timestamp
    ensures m.timestamp.None? || m.timestamp.value == "" ==> e.timestamp == Some(now)
    ensures m.id.Some? && m.id.value != "" ==> e.id == m.id
    ensures m.id.None? || m.id.value == "" ==> e.id == Some(freshId)
  {
    m.(timestamp := Some(OrDefault(m.timestamp, now)), id := Some(OrDefault(m.id, freshId)))
  }

  /**
   * The history updater: the stamped event goes at the end and every earlier
   * entry stays where it was. The source passes this updater to the setter
   * of the input text instead of the history; the history is what is meant.
   */
  function AppendHistory(history: seq<ChatMessage>, m: ChatMessage, now: string, freshId: string): (r: seq<ChatMessage>)
    ensures |r| == |history| + 1
    ensures r[..|history|] == history
    ensures r[|history|] == Stamp(m, now, freshId)
  {
    history + [Stamp(m, now, freshId)]
  }

  /** A history entry that can be rendered under a stable key. */
  predicate Keyed(e: ChatMessage)
  {
    e.id.Some? && e.id.value != "" && e.timestamp.Some? && e.timestamp.value != ""
  }

  /** Appending keeps every entry keyed, as long as the supplied defaults are non-empty. */
  lemma AppendKeepsKeyed(history: seq<ChatMessage>, m: ChatMessage, now: string, freshId: string)
    requires forall i :: 0 <= i < |history| ==> Keyed(history[i])
    requires now != "" && freshId != ""
    ensures forall i :: 0 <= i < |history| + 1 ==> Keyed(AppendHistory(history, m, now, freshId)[i])
  {
  }

  // ---------------------------------------------------------- private queue

  /** The conversation partner: the recipient of one's own messages, otherwise the sender. */
  function Partner(self: string, pm: PrivateMessage): (p: string)
    ensures pm.sender == self ==> p == pm.recipient
    ensures pm.sender != self ==> p == pm.sender
    ensures p == self ==> pm.sender == self && pm.recipient == self
  {
    if pm.sender == self then pm.recipient else pm.sender
  }

  /**
   * Routing of a private message: to the handler registered for the partner
   * if there is one; otherwise it counts as unread when it is addressed to
   * self, and is dropped when it is not.
   */
  function RoutePrivate(handlers: map<string, HandlerId>, self: string, pm: PrivateMessage): (d: Delivery)
    ensures Partner(self, pm) in handlers ==> d == ToHandler(handlers[Partner(self, pm)], pm)
    ensures Partner(self, pm) !in handlers && pm.recipient == self ==> d == MarkedUnread(Partner(self, pm))
    ensures Partner(self, pm) !in handlers && pm.recipient != self ==> d == Dropped
  {
    var other := Partner(self, pm);
    if other in handlers then ToHandler(handlers[other], pm)
    else if pm.recipient == self then MarkedUnread(other)
    else Dropped
  }

  /** `unread.get(p) || 0`. */
  function UnreadCount(unread: map<string, nat>, p: string): (count: nat)
  {
    if p in unread then unread[p] else 0
  }

  /**
   * The unread updater: the partner's count goes up by one from its old
   * value (0 when absent) and every other entry is unchanged. The source
   * returns the old count instead of the new map; the map is what is meant.
   */
  function IncrementUnread(unread: map<string, nat>, p: string): (r: map<string, nat>)
    ensures p in r && r[p] == UnreadCount(unread, p) + 1
    ensures forall q :: q != p ==> (q in r <==> q in unread)
    ensures forall q :: q != p && q in unread ==> r[q] == unread[q]
  {
    unread[p := UnreadCount(unread, p) + 1]
  }

  /** The unread map after a delivery decision: only MarkedUnread touches it. */
  function UnreadAfter(unread: map<string, nat>, d: Delivery): (r: map<string, nat>)
    ensures d.MarkedUnread? ==> r == IncrementUnread(unread, d.partner)
    ensures !d.MarkedUnread? ==> r == unread
  {
    if d.MarkedUnread? then IncrementUnread(unread, d.partner) else unread
  }

  /** The unread map after a run of private messages, with the registry held fixed. */
  function ReplayPrivate(handlers: map<string, HandlerId>, self: string, unread: map<string, nat>,
                         pms: seq<PrivateMessage>): (r: map<string, nat>)
    decreases |pms|
  {
    if pms == [] then unread
    else ReplayPrivate(handlers, self, UnreadAfter(unread, RoutePrivate(handlers, self, pms[0])), pms[1..])
  }

  /** How many messages of `pms` are counted as unread for `p`. */
  function CountedFor(handlers: map<string, HandlerId>, self: string, p: string, pms: seq<PrivateMessage>): (count: nat)
    decreases |pms|
  {
    if pms == [] then 0
    else (if RoutePrivate(handlers, self, pms[0]) == MarkedUnread(p) then 1 else 0)
         + CountedFor(handlers, self, p, pms[1..])
  }

  /** A partner's unread count rises by exactly one per message counted for it. */
  lemma {:induction false} UnreadCountsEachMessage(handlers: map<string, HandlerId>, self: string,
                                                   unread: map<string, nat>, pms: seq<PrivateMessage>, p: string)
    ensures UnreadCount(ReplayPrivate(handlers, self, unread, pms), p)
            == UnreadCount(unread, p) + CountedFor(handlers, self, p, pms)
    decreases |pms|
  {
    if pms != [] {
      var next := UnreadAfter(unread, RoutePrivate(handlers, self, pms[0]));
      UnreadCountsEachMessage(handlers, self, next, pms[1..], p);
    }
  }

  /** Nothing is ever counted for a partner that has a handler registered. */
  lemma {:induction false} HandledPartnerNeverCounted(handlers: map<string, HandlerId>, self: string,
                                                      p: string, pms: seq<PrivateMessage>)
    requires p in handlers
    ensures CountedFor(handlers, self, p, pms) == 0
    decreases |pms|
  {
    if pms != [] {
      HandledPartnerNeverCounted(handlers, self, p, pms[1..]);
    }
  }

  /** How many messages of `pms` are addressed to self in the conversation with `p`. */
  function AddressedToSelfFrom(self: string, p: string, pms: seq<PrivateMessage>): (count: nat)
    decreases |pms|
  {
    if pms == [] then 0
    else (if pms[0].recipient == self && Partner(self, pms[0]) == p then 1 else 0)
         + AddressedToSelfFrom(self, p, pms[1..])
  }

  /**
   * While no handler is registered for `p`, in any interleaving of partners
   * exactly the messages addressed to self in the conversation with `p` are
   * counted for `p`.
   */
  lemma {:induction false} UnhandledPartnerCountsAddressed(handlers: map<string, HandlerId>, self: string,
                                                           p: string, pms: seq<PrivateMessage>)
    requires p !in handlers
    ensures CountedFor(handlers, self, p, pms) == AddressedToSelfFrom(self, p, pms)
    decreases |pms|
  {
    if pms != [] {
      UnhandledPartnerCountsAddressed(handlers, self, p, pms[1..]);
    }
  }

  /**
   * While no handler is registered for `p`, every message that `p` sends to
   * self is counted, including messages self sends to itself when `p` is
   * self: the count rises by the number of messages.
   */
  lemma {:induction false} UnhandledPartnerCountsAll(handlers: map<string, HandlerId>, self: string,
                                                     p: string, pms: seq<PrivateMessage>)
    requires p !in handlers
    requires forall i :: 0 <= i < |pms| ==> pms[i].sender == p && pms[i].recipient == self
    ensures CountedFor(handlers, self, p, pms) == |pms|
    decreases |pms|
  {
    if pms != [] {
      assert RoutePrivate(handlers, self, pms[0]) == MarkedUnread(p);
      UnhandledPartnerCountsAll(handlers, self, p, pms[1..]);
    }
  }
}
