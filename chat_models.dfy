/**
 * The chat app's records (chat/models.py) and the two tables the chat views
 * and the WebSocket consumer work on.
 */
module ChatModels {
  import opened Wrappers
  import opened Text
  import SocialModels

  type UserId = SocialModels.UserId

  /** `ROOM_TYPES`: a room is private or a group, private by default. */
  datatype RoomType = Private | Group

  const DefaultRoomType: RoomType := Private

  /** The stored value of `type`; it fits the column's seven characters. */
  function TypeValue(t: RoomType): (v: string)
    ensures |v| <= 7
  {
    match t
    case Private => "private"
    case Group => "group"
  }

  /** The choice a stored value names; anything else is not a valid choice. */
  function TypeFromValue(v: string): (t: Option<RoomType>)
    ensures t.Some? <==> v == "private" || v == "group"
  {
    if v == "private" then Some(Private)
    else if v == "group" then Some(Group)
    else None
  }

  /** Storing a type and reading it back are inverse to each other. */
  lemma TypeValueRoundTrip(t: RoomType, v: string)
    ensures TypeFromValue(TypeValue(t)) == Some(t)
    ensures TypeFromValue(v).Some? ==> TypeValue(TypeFromValue(v).value) == v
  {
  }

  /** The WebSocket group of room `id`: "chat_" followed by the id in decimal. */
  function GroupNameOf(id: nat): (g: string)
    ensures StartsWith(g, "chat_") && |g| > 5
    ensures AllDigits(g[5..])
  {
    "chat_" + Decimal(id)
  }

  /** Different rooms never share a group, so a broadcast reaches one room only. */
  lemma GroupNameInjective(a: nat, b: nat)
    requires GroupNameOf(a) == GroupNameOf(b)
    ensures a == b
  {
    assert GroupNameOf(a)[5..] == Decimal(a);
    assert GroupNameOf(b)[5..] == Decimal(b);
    DecimalInjective(a, b);
  }

  /** The id the group name was built from can be read back from it. */
  lemma GroupNameNamesRoom(id: nat)
    ensures ParseDecimal(GroupNameOf(id)[5..]) == id
  {
    assert GroupNameOf(id)[5..] == Decimal(id);
    DecimalRoundTrip(id);
  }

  class ChatRoom {
    const id: nat
    var name: string
    var kind: RoomType
    var participants: set<UserId>

    /** A new room has no participants yet. */
    constructor (id: nat, name: string, kind: RoomType)
      ensures this.id == id && this.name == name && this.kind == kind
      ensures participants == {}
    {
      this.id := id;
      this.name := name;
      this.kind := kind;
      participants := {};
    }

    /** `add_participant`: u is a member afterwards; adding a member again changes nothing. */
    method AddParticipant(u: UserId)
      modifies this
      ensures participants == old(participants) + {u}
      ensures u in participants
      ensures name == old(name) && kind == old(kind)
    {
      participants := participants + {u};
    }

    /** `remove_participant`: u is no member afterwards; the others stay. */
    method RemoveParticipant(u: UserId)
      modifies this
      ensures participants == old(participants) - {u}
      ensures u !in participants
      ensures name == old(name) && kind == old(kind)
    {
      participants := participants - {u};
    }

    /** `group_name`. */
    function GroupName(): (g: string)
    {
      GroupNameOf(id)
    }
  }

  /** A chat message; `room` may be empty, `isRead` starts false. */
  datatype Message = Message(
    id: nat,
    content: string,
    timestamp: nat,
    user: UserId,
    room: Option<nat>,
    isRead: bool)

  /** The row `Message.objects.create` inserts. */
  function NewMessage(id: nat, content: string, timestamp: nat, user: UserId, room: nat): (m: Message)
    ensures !m.isRead
    ensures m.room == Some(room) && m.user == user && m.content == content
    ensures m.id == id && m.timestamp == timestamp
  {
    Message(id, content, timestamp, user, Some(room), false)
  }

  /** The table's default order: ascending timestamps. */
  ghost predicate Chronological(ms: seq<Message>) {
    forall i, j :: 0 <= i < j < |ms| ==> ms[i].timestamp <= ms[j].timestamp
  }

  /** The messages of one room, in table order. */
  function InRoom(ms: seq<Message>, room: nat): (r: seq<Message>)
    ensures |r| <= |ms|
    ensures forall m :: m in r <==> m in ms && m.room == Some(room)
  {
    if ms == [] then []
    else (if ms[0].room == Some(room) then [ms[0]] else []) + InRoom(ms[1..], room)
  }

  /** Taking one room's messages keeps their order. */
  lemma {:induction false} InRoomChronological(ms: seq<Message>, room: nat)
    requires Chronological(ms)
    ensures Chronological(InRoom(ms, room))
  {
    if ms != [] {
      InRoomChronological(ms[1..], room);
      var rest := InRoom(ms[1..], room);
      if ms[0].room == Some(room) {
        forall j | 0 <= j < |rest|
          ensures ms[0].timestamp <= rest[j].timestamp
        {
          assert rest[j] in ms[1..];
        }
      }
    }
  }

  /** A new message lands at the end of its room's list and leaves other rooms' lists as they were. */
  lemma {:induction false} InRoomAppend(ms: seq<Message>, m: Message, room: nat)
    ensures InRoom(ms + [m], room) == InRoom(ms, room) + (if m.room == Some(room) then [m] else [])
  {
    if ms == [] {
      assert InRoom([m], room) == (if m.room == Some(room) then [m] else []) + InRoom([], room);
    } else {
      assert (ms + [m])[1..] == ms[1..] + [m];
      InRoomAppend(ms[1..], m, room);
    }
  }

  /**
   * The two chat tables: rooms keyed by their auto-increment id, messages
   * in insertion order, which is the order of their timestamps.
   */
  class ChatStore {
    var rooms: map<nat, ChatRoom>
    var nextRoomId: nat
    var messages: seq<Message>
    var nextMessageId: nat

    ghost predicate Valid()
      reads this
    {
      (forall r :: r in rooms ==> rooms[r].id == r && r < nextRoomId)
      && Chronological(messages)
      && (forall i :: 0 <= i < |messages| ==> messages[i].id < nextMessageId)
    }

    constructor ()
      ensures Valid() && rooms == map[] && messages == []
    {
      rooms := map[];
      nextRoomId := 0;
      messages := [];
      nextMessageId := 0;
    }

    /** The room exists and u is one of its participants. */
    predicate Participates(u: UserId, room: nat)
      reads this, rooms.Values
    {
      room in rooms && u in rooms[room].participants
    }

    /** The ids of the rooms u participates in. */
    ghost function MemberRooms(u: UserId): set<nat>
      reads this, rooms.Values
    {
      set r | r in rooms && u in rooms[r].participants
    }
  }
}
