/**
 * The sequential core of `ChatConsumer` (chat/consumers.py): the group a
 * socket joins, who is let in, the history replayed on connect, and the
 * payloads of a received message on its way to every socket of the room.
 *
 * `username` gives a user's name; timestamps are the stored values (both
 * the replay and the live event render them with the same `isoformat`).
 */
module ChatConsumers {
  import opened Wrappers
  import opened ChatModels

  /** The number of messages replayed on connect. */
  const ReplayLimit: nat := 50
  const ReceiveFailed: string := "Failed to process message"
  /** The event type that routes a group message to `chat_message`. */
  const ChatMessageType: string := "chat_message"

  /** The dictionary `get_previous_messages` builds for one message. */
  datatype StoredMessage = StoredMessage(id: nat, content: string, username: string, timestamp: nat)

  /** A text frame sent to the browser. */
  datatype Frame =
    | MessageFrame(messageId: nat, message: string, user: string, timestamp: nat)
    | ErrorFrame(error: string)

  /** The event `receive` sends to the room's group. */
  datatype GroupEvent = GroupEvent(
    kind: string, messageId: nat, message: string, userId: UserId, username: string, timestamp: nat)

  datatype ConnectOutcome =
    | Closed(group: string)                          // not a participant: no history
    | Accepted(group: string, frames: seq<Frame>)    // the replay, oldest first

  datatype ReceiveOutcome =
    | Broadcast(group: string, event: GroupEvent)
    | Reply(frame: Frame)

  function ToStored(m: Message, username: UserId -> string): StoredMessage {
    StoredMessage(m.id, m.content, username(m.user), m.timestamp)
  }

  /** The frame `connect` sends for one replayed message. */
  function ReplayFrame(s: StoredMessage): (f: Frame)
    ensures f.MessageFrame? && f.messageId == s.id && f.message == s.content
    ensures f.user == s.username && f.timestamp == s.timestamp
  {
    MessageFrame(s.id, s.content, s.username, s.timestamp)
  }

  /** The event `receive` builds from the saved message and its sender. */
  function EventFor(m: Message, username: UserId -> string): (e: GroupEvent)
    ensures e.kind == ChatMessageType && e.messageId == m.id && e.message == m.content
    ensures e.userId == m.user && e.username == username(m.user) && e.timestamp == m.timestamp
  {
    GroupEvent(ChatMessageType, m.id, m.content, m.user, username(m.user), m.timestamp)
  }

  /** `chat_message`: the frame forwarded to each socket of the group. */
  function ChatMessage(e: GroupEvent): (f: Frame)
    ensures f.MessageFrame? && f.messageId == e.messageId && f.message == e.message
    ensures f.user == e.username && f.timestamp == e.timestamp
  {
    MessageFrame(e.messageId, e.message, e.username, e.timestamp)
  }

  /** A message seen live and the same message replayed later reach the browser as the same frame. */
  lemma LiveFrameMatchesReplay(m: Message, username: UserId -> string)
    ensures ChatMessage(EventFor(m, username)) == ReplayFrame(ToStored(m, username))
  {
  }

  /** The sequence read backwards. */
  function Reverse<T>(s: seq<T>): (r: seq<T>)
    ensures |r| == |s|
    ensures forall i :: 0 <= i < |s| ==> r[i] == s[|s| - 1 - i]
  {
    seq(|s|, i requires 0 <= i < |s| => s[|s| - 1 - i])
  }

  /** `order_by('-timestamp')[:limit]` over a room's messages in table order: newest first, at most `limit`. */
  function NewestFirst(ms: seq<Message>, limit: nat): (r: seq<Message>)
    ensures |r| == if |ms| <= limit then |ms| else limit
  {
    var n := if |ms| <= limit then |ms| else limit;
    Reverse(ms)[..n]
  }

  /** The replay window: the last `limit` messages (all of them when there are fewer), in table order. */
  function Window(ms: seq<Message>, limit: nat): (w: seq<Message>)
    ensures |w| <= limit && |w| <= |ms|
    ensures |ms| <= limit ==> w == ms
    ensures |ms| > limit ==> |w| == limit
    ensures w == ms[|ms| - |w|..]
  {
    if |ms| <= limit then ms else ms[|ms| - limit..]
  }

  /** The window, read in order, is the newest-first prefix read backwards. */
  lemma WindowIsNewestReversed(ms: seq<Message>, limit: nat)
    ensures Window(ms, limit) == Reverse(NewestFirst(ms, limit))
  {
    var w := Window(ms, limit);
    var r := Reverse(NewestFirst(ms, limit));
    assert |w| == |r|;
    forall k | 0 <= k < |w| ensures w[k] == r[k] {
      assert w[k] == ms[|ms| - |w| + k];
    }
  }

  /** In a chronological table the window is chronological and no message left out is newer than one replayed. */
  lemma {:induction false} WindowIsMostRecent(ms: seq<Message>, limit: nat)
    requires Chronological(ms)
    ensures Chronological(Window(ms, limit))
    ensures forall i, j :: 0 <= i < |ms| - |Window(ms, limit)| <= j < |ms| ==> ms[i].timestamp <= ms[j].timestamp
  {
    var w := Window(ms, limit);
    forall i, j | 0 <= i < j < |w| ensures w[i].timestamp <= w[j].timestamp {
      assert w[i] == ms[|ms| - |w| + i] && w[j] == ms[|ms| - |w| + j];
    }
  }

  /** A new message ends the window and pushes the oldest one out once the window is full. */
  lemma WindowSlides(ms: seq<Message>, m: Message, limit: nat)
    requires limit >= 1
    ensures Window(ms + [m], limit) == Window(ms, limit - 1) + [m]
  {
    var w := Window(ms + [m], limit);
    var v := Window(ms, limit - 1) + [m];
    assert |w| == |v|;
    forall k | 0 <= k < |w| ensures w[k] == v[k] {
      assert w[k] == (ms + [m])[|ms| + 1 - |w| + k];
    }
  }

  /** After a message is saved, the next replay of its room ends with it. */
  lemma NewMessageReplayedLast(ms: seq<Message>, m: Message, room: nat, limit: nat)
    requires m.room == Some(room) && limit >= 1
    ensures Window(InRoom(ms + [m], room), limit) == Window(InRoom(ms, room), limit - 1) + [m]
  {
    InRoomAppend(ms, m, room);
    WindowSlides(InRoom(ms, room), m, limit);
  }

  /** The stored form of every message of a window, in order. */
  function StoredAll(w: seq<Message>, username: UserId -> string): (r: seq<StoredMessage>)
    ensures |r| == |w|
    ensures forall k :: 0 <= k < |w| ==> r[k] == ToStored(w[k], username)
  {
    seq(|w|, k requires 0 <= k < |w| => ToStored(w[k], username))
  }

  /** `get_previous_messages`: the newest `limit` messages of the room, handed back oldest first. */
  method PreviousMessages(db: ChatStore, roomId: nat, limit: nat, username: UserId -> string)
    returns (result: seq<StoredMessage>)
    requires db.Valid()
    ensures |result| <= limit
    ensures result == StoredAll(Window(InRoom(db.messages, roomId), limit), username)
  {
    var newest := NewestFirst(InRoom(db.messages, roomId), limit);
    result := [];
    var i := |newest|;
    while i > 0
      invariant 0 <= i <= |newest|
      invariant |result| == |newest| - i
      invariant forall k :: 0 <= k < |result| ==> result[k] == ToStored(newest[|newest| - 1 - k], username)
    {
      i := i - 1;
      result := result + [ToStored(newest[i], username)];
    }
    WindowIsNewestReversed(InRoom(db.messages, roomId), limit);
  }

  /**
   * `connect`: the socket joins group "chat_<room id>"; a user who is not a
   * participant of an existing room is closed without any history, anyone
   * else gets the last 50 messages, oldest first.
   */
  method Connect(db: ChatStore, user: UserId, roomId: nat, username: UserId -> string)
    returns (out: ConnectOutcome)
    requires db.Valid()
    ensures out.group == GroupNameOf(roomId)
    ensures out.Closed? <==> !db.Participates(user, roomId)
    ensures out.Accepted? ==>
      var w := Window(InRoom(db.messages, roomId), ReplayLimit);
      |out.frames| == |w| <= ReplayLimit
      && forall k :: 0 <= k < |w| ==> out.frames[k] == ReplayFrame(ToStored(w[k], username))
  {
    var group := GroupNameOf(roomId);
    if !db.Participates(user, roomId) {
      return Closed(group);
    }
    var previous := PreviousMessages(db, roomId, ReplayLimit, username);
    var frames: seq<Frame> := [];
    for i := 0 to |previous|
      invariant |frames| == i
      invariant forall k :: 0 <= k < i ==> frames[k] == ReplayFrame(previous[k])
    {
      frames := frames + [ReplayFrame(previous[i])];
    }
    out := Accepted(group, frames);
  }

  /**
   * `receive` followed by `save_message`. `message` is the text under the
   * "message" key of the incoming JSON, None when the frame is not JSON or
   * has no such text; `now` is the clock, which never runs backwards.
   */
  method Receive(db: ChatStore, user: UserId, roomId: nat, message: Option<string>, now: nat,
                 username: UserId -> string)
    returns (out: ReceiveOutcome)
    requires db.Valid()
    requires forall i :: 0 <= i < |db.messages| ==> db.messages[i].timestamp <= now
    modifies db
    ensures db.Valid()
    ensures db.rooms == old(db.rooms) && db.nextRoomId == old(db.nextRoomId)
    ensures message.None? || roomId !in db.rooms ==>
      out == Reply(ErrorFrame(ReceiveFailed))
      && db.messages == old(db.messages) && db.nextMessageId == old(db.nextMessageId)
    ensures message.Some? && roomId in db.rooms ==>
      var m := NewMessage(old(db.nextMessageId), message.value, now, user, roomId);
      db.messages == old(db.messages) + [m]
      && (forall i :: 0 <= i < |old(db.messages)| ==> old(db.messages)[i].id != m.id)
      && out == Broadcast(GroupNameOf(roomId), EventFor(m, username))
  {
    if message.None? || roomId !in db.rooms {
      return Reply(ErrorFrame(ReceiveFailed));
    }
    var m := NewMessage(db.nextMessageId, message.value, now, user, roomId);
    db.messages := db.messages + [m];
    db.nextMessageId := db.nextMessageId + 1;
    out := Broadcast(GroupNameOf(roomId), EventFor(m, username));
  }
}
