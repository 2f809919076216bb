/*
 * The subscriber-tracking middlewares. BroadcastMiddleware runs on every
 * update: it hands the storage to the handler, and for private chats with
 * a known sender it registers or refreshes the subscriber first.
 * BroadcastChatMemberMiddleware reacts only to my_chat_member updates that
 * flip the bot's membership in a private chat.
 *
 * The handler is an oracle; what the model records is the handler data
 * it was called with. A storage error raised on the way propagates, and
 * then the handler is not called.
 */
module Middleware {
  import opened Common
  import opened Models
  import opened Storage

  /** The sending user as Telegram describes it. */
  datatype User = User(id: int, fullName: string, username: Option<string>, languageCode: Option<string>)

  datatype Chat = Chat(id: int, chatType: string)

  /** ChatMemberStatus. */
  datatype MemberStatus = Creator | Administrator | MemberStatus | Restricted | Left | Banned

  /** An update: a my_chat_member change, or any other event (message, callback, ...). */
  datatype Event =
    | ChatMemberUpdated(chat: Chat, from: User, oldStatus: MemberStatus, newStatus: MemberStatus)
    | OtherEvent

  /** What the middlewares put into the handler data. */
  datatype Slot = StorageSlot(storage: RedisStorage) | SubscriberSlot(subscriber: Option<Subscriber>) | Opaque

  /** The statuses that count as being subscribed. */
  predicate IsMember(status: MemberStatus) {
    status == MemberStatus || status == Administrator
  }

  /** The subscriber state a my_chat_member status maps to. */
  function StateFor(status: MemberStatus): (s: SubscriberState)
    ensures s == Member <==> IsMember(status)
  {
    if IsMember(status) then Member else Kicked
  }

  /** A subscriber record built from a user, with the given state. */
  function FromUser(user: User, state: SubscriberState, now: string): Subscriber {
    NewSubscriber(user.id, user.fullName, user.username, user.languageCode, now).(state := state)
  }

  /**
   * A known subscriber after an interaction: the user's current name,
   * username and language, and MEMBER again if it was KICKED.
   */
  function Refreshed(s: Subscriber, user: User): Subscriber {
    s.(fullName := user.fullName, username := user.username, languageCode := user.languageCode, state := Member)
  }

  /**
   * Refreshing keeps the id and the subscription time, always leaves an
   * active subscriber, and a second refresh with the same user changes
   * nothing, so a repeated interaction writes nothing.
   */
  lemma RefreshedSettles(s: Subscriber, user: User)
    ensures var r := Refreshed(s, user);
      r.id == s.id && r.subscribedAt == s.subscribedAt && IsActive(r)
      && r.fullName == user.fullName && r.username == user.username && r.languageCode == user.languageCode
      && Refreshed(r, user) == r
    ensures Refreshed(s, user) == s <==>
      s.fullName == user.fullName && s.username == user.username
      && s.languageCode == user.languageCode && s.state == Member
  {
  }

  /** True for private chats with a known sender: the only updates that touch storage. */
  predicate Tracked(chat: Option<Chat>, user: Option<User>) {
    chat.Some? && chat.value.chatType == "private" && user.Some?
  }

  class BroadcastMiddleware {
    const storage: RedisStorage
    const storageKey: string
    const subscriberKey: string
    ghost var handled: seq<map<string, Slot>>   // the data each handler call received

    constructor (storage: RedisStorage, storageKey: string, subscriberKey: string)
      ensures this.storage == storage && this.storageKey == storageKey && this.subscriberKey == subscriberKey
      ensures handled == []
    {
      this.storage := storage;
      this.storageKey := storageKey;
      this.subscriberKey := subscriberKey;
      handled := [];
    }

    /**
     * __call__: the storage is always injected; only a tracked update reads
     * or writes storage; the handler runs exactly once with the subscriber
     * (None for untracked updates) under subscriberKey.
     */
    method Call(event: Event, chat: Option<Chat>, user: Option<User>, data: map<string, Slot>, now: string)
      returns (r: Reply<map<string, Slot>>)
      requires storage.Valid()
      modifies this, storage
      ensures storage.Valid()
      ensures r.Ok? ==> handled == old(handled) + [r.value]
      ensures r.Failed? ==> handled == old(handled) && Tracked(chat, user)
      ensures !Tracked(chat, user) ==>
        r == Ok(data[storageKey := StorageSlot(storage)][subscriberKey := SubscriberSlot(None)])
        && unchanged(storage)
      ensures r.Ok? && Tracked(chat, user) ==>
        exists s :: r.value == data[storageKey := StorageSlot(storage)][subscriberKey := SubscriberSlot(Some(s))]
                    && s.id in storage.Subscribers() && storage.Subscribers()[s.id] == s
    {
      var injected := data[storageKey := StorageSlot(storage)];
      var subscriber: Option<Subscriber> := None;
      if chat.Some? && chat.value.chatType == "private" && user.Some? {
        if event.ChatMemberUpdated? {
          var got := HandleChatMemberUpdate(event, now);
          if got.Failed? {
            return Failed;
          }
          subscriber := Some(got.value);
        } else {
          var got := GetOrUpdateSubscriber(user.value, now);
          if got.Failed? {
            return Failed;
          }
          subscriber := Some(got.value);
        }
      }
      r := Ok(injected[subscriberKey := SubscriberSlot(subscriber)]);
      handled := handled + [r.value];
    }

    /**
     * _get_or_update_subscriber: a known subscriber is refreshed and
     * written back only if that changed something; an unknown user is
     * added as a new MEMBER.
     */
    method GetOrUpdateSubscriber(user: User, now: string) returns (r: Reply<Subscriber>)
      requires storage.Valid()
      modifies storage
      ensures storage.Valid()
      ensures r.Failed? ==> storage.Subscribers() == old(storage.Subscribers())
      ensures r.Ok? ==> r.value.id == user.id && storage.Subscribers() == old(storage.Subscribers())[user.id := r.value]
      ensures r.Ok? && user.id in old(storage.Subscribers()) ==>
        var known := old(storage.Subscribers())[user.id];
        r.value == Refreshed(known, user)
        && storage.calls == old(storage.calls) + (if Refreshed(known, user) == known then 1 else 2)
      ensures r.Ok? && user.id !in old(storage.Subscribers()) ==> r.value == FromUser(user, Member, now)
    {
      var got := storage.GetSubscriber(user.id);
      if got.Failed? {
        return Failed;
      }
      if got.value.Some? {
        var existing := got.value.value;
        var changed := false;
        if existing.fullName != user.fullName {
          existing := existing.(fullName := user.fullName);
          changed := true;
        }
        if existing.username != user.username {
          existing := existing.(username := user.username);
          changed := true;
        }
        if existing.languageCode != user.languageCode {
          existing := existing.(languageCode := user.languageCode);
          changed := true;
        }
        if existing.state == Kicked {
          existing := existing.(state := Member);
          changed := true;
        }
        assert existing == Refreshed(got.value.value, user);
        assert changed <==> existing != got.value.value;
        if changed {
          var written := storage.UpdateSubscriber(existing);
          if written.Failed? {
            return Failed;
          }
        }
        return Ok(existing);
      }
      var subscriber := FromUser(user, Member, now);
      var added := storage.AddSubscriber(subscriber);
      if added.Failed? {
        return Failed;
      }
      r := Ok(subscriber);
    }

    /**
     * _handle_chat_member_update: MEMBER or ADMINISTRATOR means MEMBER,
     * any other status KICKED; the record (created if absent) always gets
     * the new state and the user's current fields and is always written.
     */
    method HandleChatMemberUpdate(update: Event, now: string) returns (r: Reply<Subscriber>)
      requires update.ChatMemberUpdated? && storage.Valid()
      modifies storage
      ensures storage.Valid()
      ensures r.Failed? ==> storage.Subscribers() == old(storage.Subscribers())
      ensures r.Ok? ==>
        var user := update.from;
        var state := StateFor(update.newStatus);
        && r.value.id == user.id
        && storage.Subscribers() == old(storage.Subscribers())[user.id := r.value]
        && r.value == if user.id in old(storage.Subscribers())
                      then old(storage.Subscribers())[user.id].(state := state, fullName := user.fullName,
                             username := user.username, languageCode := user.languageCode)
                      else FromUser(user, state, now)
    {
      var user := update.from;
      var newState := StateFor(update.newStatus);
      var got := storage.GetSubscriber(user.id);
      if got.Failed? {
        return Failed;
      }
      var subscriber;
      if got.value.Some? {
        subscriber := got.value.value.(state := newState, fullName := user.fullName,
                                       username := user.username, languageCode := user.languageCode);
        var written := storage.UpdateSubscriber(subscriber);
        if written.Failed? {
          return Failed;
        }
      } else {
        subscriber := FromUser(user, newState, now);
        var added := storage.AddSubscriber(subscriber);
        if added.Failed? {
          return Failed;
        }
      }
      r := Ok(subscriber);
    }
  }

  /** What the subscription callbacks were told. */
  datatype Notice = Subscribed(subscriber: Subscriber) | Unsubscribed(subscriber: Subscriber)

  /** A my_chat_member change in a private chat that flips membership. */
  predicate Flips(event: Event) {
    event.ChatMemberUpdated? && event.chat.chatType == "private"
    && IsMember(event.oldStatus) != IsMember(event.newStatus)
  }

  /** The record a flip stores: the user's fields over the known (or a fresh) record, and the new state. */
  function Flipped(known: Option<Subscriber>, user: User, isMember: bool, now: string): (s: Subscriber)
    ensures s.id == (if known.Some? then known.value.id else user.id)
    ensures IsActive(s) <==> isMember
  {
    var base := if known.Some? then known.value else NewSubscriber(user.id, user.fullName, user.username, user.languageCode, now);
    base.(fullName := user.fullName, username := user.username, languageCode := user.languageCode,
          state := if isMember then Member else Kicked)
  }

  class BroadcastChatMemberMiddleware {
    const storage: RedisStorage
    const hasOnSubscribe: bool
    const hasOnUnsubscribe: bool
    ghost var handled: seq<map<string, Slot>>
    ghost var notices: seq<Notice>

    constructor (storage: RedisStorage, hasOnSubscribe: bool, hasOnUnsubscribe: bool)
      ensures this.storage == storage && this.hasOnSubscribe == hasOnSubscribe
      ensures this.hasOnUnsubscribe == hasOnUnsubscribe
      ensures handled == [] && notices == []
    {
      this.storage := storage;
      this.hasOnSubscribe := hasOnSubscribe;
      this.hasOnUnsubscribe := hasOnUnsubscribe;
      handled := [];
      notices := [];
    }

    /**
     * __call__: storage is touched only when the update flips membership;
     * then the record is stored with the new state and exactly the callback
     * for that direction (if set) hears of it; the handler runs once.
     */
    method Call(event: Event, data: map<string, Slot>, now: string) returns (r: Reply<map<string, Slot>>)
      requires storage.Valid()
      modifies this, storage
      ensures storage.Valid()
      ensures r.Ok? ==> handled == old(handled) + [r.value]
      ensures r.Failed? ==> handled == old(handled) && notices == old(notices) && Flips(event)
      ensures !Flips(event) ==> r == Ok(data) && unchanged(storage) && notices == old(notices)
      ensures r.Ok? && Flips(event) ==>
        var user := event.from;
        var known := if user.id in old(storage.Subscribers()) then Some(old(storage.Subscribers())[user.id]) else None;
        var s := Flipped(known, user, IsMember(event.newStatus), now);
        && r.value == data["subscriber" := SubscriberSlot(Some(s))]
        && storage.Subscribers() == old(storage.Subscribers())[user.id := s]
        && notices == old(notices) + (if IsMember(event.newStatus)
                                      then (if hasOnSubscribe then [Subscribed(s)] else [])
                                      else (if hasOnUnsubscribe then [Unsubscribed(s)] else []))
    {
      if !event.ChatMemberUpdated? || event.chat.chatType != "private" {
        r := Ok(data);
        handled := handled + [data];
        return;
      }
      var user := event.from;
      var wasMember := IsMember(event.oldStatus);
      var isMember := IsMember(event.newStatus);
      if wasMember == isMember {
        r := Ok(data);
        handled := handled + [data];
        return;
      }
      var got := storage.GetSubscriber(user.id);
      if got.Failed? {
        return Failed;
      }
      var subscriber := if got.value.None?
        then NewSubscriber(user.id, user.fullName, user.username, user.languageCode, now)
        else got.value.value;
      subscriber := subscriber.(fullName := user.fullName, username := user.username,
                                languageCode := user.languageCode);
      if isMember {
        subscriber := subscriber.(state := Member);
        var written := storage.UpdateSubscriber(subscriber);
        if written.Failed? {
          return Failed;
        }
        if hasOnSubscribe {
          notices := notices + [Subscribed(subscriber)];
        }
      } else {
        subscriber := subscriber.(state := Kicked);
        var written := storage.UpdateSubscriber(subscriber);
        if written.Failed? {
          return Failed;
        }
        if hasOnUnsubscribe {
          notices := notices + [Unsubscribed(subscriber)];
        }
      }
      r := Ok(data["subscriber" := SubscriberSlot(Some(subscriber))]);
      handled := handled + [r.value];
    }
  }
}
