/**
 * The chat page handlers of chat/views.py over the chat tables: opening a
 * room marks its messages read, the room list and the badge count unread
 * messages, and the two create handlers reuse or build rooms.
 *
 * The caller is the logged-in user. Whether a user exists and whom the
 * caller's profile lists as friends come from the social network's tables
 * and are passed in as `users` and `callerFriends`.
 */
module ChatViews {
  import opened Wrappers
  import opened ChatModels

  /** What a handler answers. */
  datatype Page =
    | NotFound                                   // Http404
    | Redirect(to: string, arg: Option<nat>)     // a named URL, with its room argument
    | RoomPage(name: string, roomId: nat, kind: RoomType, messages: seq<Message>, others: set<UserId>)
    | RoomList(rooms: seq<RoomListing>)
    | GroupForm(friends: set<UserId>)
    | Count(unreadCount: nat)                    // {'unread_count': …}
    | ServerError                                // an exception the view does not catch

  /** One entry of the room list, with the unread count the view attaches. */
  datatype RoomListing = RoomListing(roomId: nat, unreadCount: nat)

  const RoomsUrl: string := "chat_rooms"
  const RoomUrl: string := "room"
  const FriendsUrl: string := "list_friends"
  const CreateGroupUrl: string := "create_group_chat"

  /** A message counts as unread for u when someone else wrote it and nobody has opened it yet. */
  predicate UnreadFor(m: Message, u: UserId) {
    m.user != u && !m.isRead
  }

  /** The unread count of one room for u. */
  function UnreadIn(ms: seq<Message>, room: nat, u: UserId): (n: nat)
    ensures n <= |ms|
    ensures n == 0 <==> forall m :: m in ms && m.room == Some(room) ==> !UnreadFor(m, u)
  {
    if ms == [] then 0
    else (if ms[0].room == Some(room) && UnreadFor(ms[0], u) then 1 else 0) + UnreadIn(ms[1..], room, u)
  }

  /** The badge count: unread messages for u over every room in `rooms`. */
  function UnreadTotal(ms: seq<Message>, rooms: set<nat>, u: UserId): (n: nat)
    ensures n <= |ms|
    ensures rooms == {} ==> n == 0
  {
    if ms == [] then 0
    else
      var here := if ms[0].room.Some? && ms[0].room.value in rooms && UnreadFor(ms[0], u) then 1 else 0;
      here + UnreadTotal(ms[1..], rooms, u)
  }

  /** The sum of the per-room counts of a room list. */
  function SumUnread(listing: seq<RoomListing>): nat {
    if listing == [] then 0 else listing[0].unreadCount + SumUnread(listing[1..])
  }

  /** The badge count splits into one room's count and the count over the remaining rooms. */
  lemma {:induction false} UnreadSplit(ms: seq<Message>, r: nat, rooms: set<nat>, u: UserId)
    requires r in rooms
    ensures UnreadTotal(ms, rooms, u) == UnreadIn(ms, r, u) + UnreadTotal(ms, rooms - {r}, u)
  {
    if ms != [] {
      UnreadSplit(ms[1..], r, rooms, u);
    }
  }

  /**
   * The badge (unread_message_count) equals the sum of the counts the room
   * list shows, when the list names each of the user's rooms once.
   */
  lemma {:induction false} BadgeIsSumOfRoomCounts(ms: seq<Message>, listing: seq<RoomListing>, u: UserId)
    requires forall i, j :: 0 <= i < j < |listing| ==> listing[i].roomId != listing[j].roomId
    requires forall i :: 0 <= i < |listing| ==> listing[i].unreadCount == UnreadIn(ms, listing[i].roomId, u)
    ensures UnreadTotal(ms, set i | 0 <= i < |listing| :: listing[i].roomId, u) == SumUnread(listing)
  {
    var rooms := set i | 0 <= i < |listing| :: listing[i].roomId;
    if listing == [] {
      assert rooms == {};
    } else {
      var rest := listing[1..];
      var restRooms := set i | 0 <= i < |rest| :: rest[i].roomId;
      assert restRooms == rooms - {listing[0].roomId} by {
        forall x | x in rooms - {listing[0].roomId} ensures x in restRooms {
          var i :| 0 <= i < |listing| && listing[i].roomId == x;
          assert i != 0 && rest[i - 1].roomId == x;
        }
        forall x | x in restRooms ensures x in rooms - {listing[0].roomId} {
          var i :| 0 <= i < |rest| && rest[i].roomId == x;
          assert listing[i + 1].roomId == x;
        }
      }
      assert listing[0].roomId in rooms by { assert listing[0].roomId == listing[0].roomId; }
      UnreadSplit(ms, listing[0].roomId, rooms, u);
      BadgeIsSumOfRoomCounts(ms, rest, u);
    }
  }

  /** One message after u opened `room`: another user's message there is read. */
  function MarkOne(m: Message, room: nat, u: UserId): Message {
    if m.room == Some(room) && m.user != u then m.(isRead := true) else m
  }

  /** The table after the bulk update of `room`. */
  function MarkRoomRead(ms: seq<Message>, room: nat, u: UserId): (r: seq<Message>)
    ensures |r| == |ms|
  {
    seq(|ms|, i requires 0 <= i < |ms| => MarkOne(ms[i], room, u))
  }

  /** After opening a room nothing in it is unread for the caller. */
  lemma {:induction false} MarkRoomReadClearsRoom(ms: seq<Message>, room: nat, u: UserId)
    ensures UnreadIn(MarkRoomRead(ms, room, u), room, u) == 0
  {
    var r := MarkRoomRead(ms, room, u);
    forall m | m in r && m.room == Some(room)
      ensures !UnreadFor(m, u)
    {
      var i :| 0 <= i < |r| && r[i] == m;
    }
  }

  /** Opening one room leaves every other room's unread count as it was. */
  lemma {:induction false} MarkRoomReadKeepsOtherRooms(ms: seq<Message>, room: nat, other: nat, u: UserId)
    requires other != room
    ensures UnreadIn(MarkRoomRead(ms, room, u), other, u) == UnreadIn(ms, other, u)
  {
    if ms != [] {
      assert MarkRoomRead(ms, room, u)[1..] == MarkRoomRead(ms[1..], room, u);
      MarkRoomReadKeepsOtherRooms(ms[1..], room, other, u);
    }
  }

  /** The update writes only the read flag: ids, contents, authors, rooms and times stay. */
  lemma MarkRoomReadKeepsRows(ms: seq<Message>, room: nat, u: UserId, i: nat)
    requires i < |ms|
    ensures MarkRoomRead(ms, room, u)[i] == ms[i].(isRead := MarkRoomRead(ms, room, u)[i].isRead)
    ensures ms[i].user == u ==> MarkRoomRead(ms, room, u)[i] == ms[i]
    ensures ms[i].isRead ==> MarkRoomRead(ms, room, u)[i].isRead
  {
  }

  /** `room`: a participant sees the room's messages, oldest first, after the others' are marked read. */
  method Room(db: ChatStore, caller: UserId, roomId: nat) returns (page: Page)
    requires db.Valid()
    modifies db
    ensures db.Valid()
    ensures db.rooms == old(db.rooms) && db.nextRoomId == old(db.nextRoomId)
    ensures db.nextMessageId == old(db.nextMessageId)
    ensures roomId !in db.rooms ==> page == NotFound && db.messages == old(db.messages)
    ensures roomId in db.rooms && caller !in db.rooms[roomId].participants ==>
      page == Redirect(RoomsUrl, None) && db.messages == old(db.messages)
    ensures db.Participates(caller, roomId) ==>
      db.messages == MarkRoomRead(old(db.messages), roomId, caller)
      && page == RoomPage(db.rooms[roomId].name, roomId, db.rooms[roomId].kind,
                          InRoom(db.messages, roomId), db.rooms[roomId].participants - {caller})
  {
    if roomId !in db.rooms {
      return NotFound;
    }
    var room := db.rooms[roomId];
    if caller !in room.participants {
      return Redirect(RoomsUrl, None);
    }
    var i := 0;
    while i < |db.messages|
      invariant 0 <= i <= |db.messages| == |old(db.messages)|
      invariant forall j :: 0 <= j < i ==> db.messages[j] == MarkOne(old(db.messages)[j], roomId, caller)
      invariant forall j :: i <= j < |db.messages| ==> db.messages[j] == old(db.messages)[j]
      invariant db.rooms == old(db.rooms) && db.nextMessageId == old(db.nextMessageId)
      invariant db.nextRoomId == old(db.nextRoomId)
    {
      db.messages := db.messages[i := MarkOne(db.messages[i], roomId, caller)];
      i := i + 1;
    }
    assert db.messages == MarkRoomRead(old(db.messages), roomId, caller);
    page := RoomPage(room.name, roomId, room.kind, InRoom(db.messages, roomId), room.participants - {caller});
  }

  /**
   * The rooms below `n` that u participates in, newest (largest id) first.
   * Room ids are issued in creation order, so this is the order of
   * `-created_at`.
   */
  function RoomsBelow(db: ChatStore, u: UserId, n: nat): (ids: seq<nat>)
    reads db, db.rooms.Values
    ensures forall i :: 0 <= i < |ids| ==> ids[i] < n && db.Participates(u, ids[i])
    ensures forall r: nat :: r < n && db.Participates(u, r) ==> r in ids
    ensures forall i, j :: 0 <= i < j < |ids| ==> ids[i] > ids[j]
  {
    if n == 0 then []
    else (if db.Participates(u, n - 1) then [n - 1] else []) + RoomsBelow(db, u, n - 1)
  }

  /** Counting down from the id counter reaches every room u participates in. */
  lemma MemberRoomsListed(db: ChatStore, u: UserId)
    requires db.Valid()
    ensures (set i | 0 <= i < |RoomsBelow(db, u, db.nextRoomId)| :: RoomsBelow(db, u, db.nextRoomId)[i])
      == db.MemberRooms(u)
  {
    var ids := RoomsBelow(db, u, db.nextRoomId);
    forall r | r in db.MemberRooms(u) ensures r in (set i | 0 <= i < |ids| :: ids[i]) {
      assert r < db.nextRoomId && db.Participates(u, r);
      var k :| 0 <= k < |ids| && ids[k] == r;
    }
  }

  /** `chat_rooms`: u's rooms, newest first, each with its unread count. */
  method ChatRooms(db: ChatStore, u: UserId) returns (page: Page)
    requires db.Valid()
    ensures page.RoomList?
    ensures |page.rooms| == |RoomsBelow(db, u, db.nextRoomId)|
    ensures forall i :: 0 <= i < |page.rooms| ==>
      page.rooms[i] == RoomListing(RoomsBelow(db, u, db.nextRoomId)[i], UnreadIn(db.messages, page.rooms[i].roomId, u))
    ensures (set i | 0 <= i < |page.rooms| :: page.rooms[i].roomId) == db.MemberRooms(u)
    ensures forall i, j :: 0 <= i < j < |page.rooms| ==> page.rooms[i].roomId > page.rooms[j].roomId
    ensures SumUnread(page.rooms) == UnreadTotal(db.messages, db.MemberRooms(u), u)
  {
    var ids := RoomsBelow(db, u, db.nextRoomId);
    var listing: seq<RoomListing> := [];
    for i := 0 to |ids|
      invariant |listing| == i
      invariant forall k :: 0 <= k < i ==> listing[k] == RoomListing(ids[k], UnreadIn(db.messages, ids[k], u))
    {
      listing := listing + [RoomListing(ids[i], UnreadIn(db.messages, ids[i], u))];
    }
    MemberRoomsListed(db, u);
    assert (set i | 0 <= i < |listing| :: listing[i].roomId) == (set i | 0 <= i < |ids| :: ids[i]) by {
      forall i | 0 <= i < |ids| ensures listing[i].roomId == ids[i] { }
    }
    BadgeIsSumOfRoomCounts(db.messages, listing, u);
    page := RoomList(listing);
  }

  /** `unread_message_count`: unread messages for u over all of u's rooms. */
  method UnreadMessageCount(db: ChatStore, u: UserId) returns (page: Page)
    requires db.Valid()
    ensures page == Count(UnreadTotal(db.messages, db.MemberRooms(u), u))
  {
    var rooms := set r | r in db.rooms && u in db.rooms[r].participants;
    page := Count(UnreadTotal(db.messages, rooms, u));
  }

  /** Room r is a private room with both a and b among its participants. */
  predicate SharedPrivate(db: ChatStore, r: nat, a: UserId, b: UserId)
    reads db, db.rooms.Values
  {
    r in db.rooms && db.rooms[r].kind == Private
    && a in db.rooms[r].participants && b in db.rooms[r].participants
  }

  /** `existing_rooms.first()`: the private room with a and b that has the smallest id, from `from` on. */
  function FirstSharedPrivate(db: ChatStore, a: UserId, b: UserId, from: nat): (r: Option<nat>)
    reads db, db.rooms.Values
    decreases db.nextRoomId - from
    ensures r.Some? ==> from <= r.value < db.nextRoomId && SharedPrivate(db, r.value, a, b)
    ensures r.Some? ==> forall k :: from <= k < r.value ==> !SharedPrivate(db, k, a, b)
    ensures r.None? ==> forall k :: from <= k < db.nextRoomId ==> !SharedPrivate(db, k, a, b)
  {
    if from >= db.nextRoomId then None
    else if SharedPrivate(db, from, a, b) then Some(from)
    else FirstSharedPrivate(db, a, b, from + 1)
  }

  /**
   * The room reused for a and b: the first shared private room, when it has
   * exactly two participants; for two different users those are a and b.
   */
  function ReusableRoom(db: ChatStore, a: UserId, b: UserId): (r: Option<nat>)
    reads db, db.rooms.Values
    ensures r.Some? ==>
      SharedPrivate(db, r.value, a, b) && |db.rooms[r.value].participants| == 2
      && (a != b ==> db.rooms[r.value].participants == {a, b})
    ensures r.Some? <==>
      FirstSharedPrivate(db, a, b, 0).Some? && |db.rooms[FirstSharedPrivate(db, a, b, 0).value].participants| == 2
  {
    var first := FirstSharedPrivate(db, a, b, 0);
    if first.Some? && |db.rooms[first.value].participants| == 2 then
      if a != b then
        TwoMembers(db.rooms[first.value].participants, a, b);
        first
      else first
    else None
  }

  /** A subset is never larger than its superset. */
  lemma {:induction false} SubsetSize(s: set<UserId>, t: set<UserId>)
    requires s <= t
    ensures |s| <= |t|
    decreases |s|
  {
    if s != {} {
      var x :| x in s;
      SubsetSize(s - {x}, t - {x});
    }
  }

  /** A two-element set holding two different users a and b is exactly {a, b}. */
  lemma TwoMembers(s: set<UserId>, a: UserId, b: UserId)
    requires |s| == 2 && a in s && b in s && a != b
    ensures s == {a, b}
  {
    if s != {a, b} {
      assert {a, b} <= s;
      assert !(s <= {a, b});
      var c :| c in s && c !in {a, b};
      SubsetSize({a, b, c}, s);
    }
  }

  /** The name given to a new private room: both usernames, caller first. */
  function PrivateRoomName(a: string, b: string): (name: string)
    ensures |name| == |"Chat between "| + |a| + |" and "| + |b|
    ensures name[..|"Chat between "|] == "Chat between "
    ensures name[|"Chat between "|..|"Chat between "| + |a|] == a
    ensures name[|"Chat between "| + |a|..|"Chat between "| + |a| + |" and "|] == " and "
    ensures name[|name| - |b|..] == b
  {
    "Chat between " + a + " and " + b
  }

  /**
   * `create_private_chat`: only with an existing friend; the first private
   * room holding both is reused when it has exactly the two of them,
   * otherwise a new private room with exactly the two is created, named
   * after both. `username` gives each user's username.
   */
  method CreatePrivateChat(db: ChatStore, caller: UserId, friendId: UserId,
                           users: set<UserId>, callerFriends: set<UserId>, username: UserId -> string)
    returns (page: Page)
    requires db.Valid()
    modifies db
    ensures db.Valid()
    ensures db.messages == old(db.messages) && db.nextMessageId == old(db.nextMessageId)
    ensures friendId !in users ==> page == NotFound && db.rooms == old(db.rooms)
    ensures friendId in users && friendId !in callerFriends ==>
      page == Redirect(FriendsUrl, None) && db.rooms == old(db.rooms)
    ensures friendId in users && friendId in callerFriends && old(ReusableRoom(db, caller, friendId)).Some? ==>
      page == Redirect(RoomUrl, old(ReusableRoom(db, caller, friendId))) && db.rooms == old(db.rooms)
    ensures friendId in users && friendId in callerFriends && old(ReusableRoom(db, caller, friendId)).None? ==>
      var id := old(db.nextRoomId);
      page == Redirect(RoomUrl, Some(id))
      && id !in old(db.rooms) && db.rooms.Keys == old(db.rooms).Keys + {id}
      && (forall r :: r in old(db.rooms) ==> db.rooms[r] == old(db.rooms)[r])
      && fresh(db.rooms[id]) && db.rooms[id].kind == Private
      && db.rooms[id].name == PrivateRoomName(username(caller), username(friendId))
      && db.rooms[id].participants == {caller, friendId}
  {
    if friendId !in users {
      return NotFound;
    }
    if friendId !in callerFriends {
      return Redirect(FriendsUrl, None);
    }
    var existing := ReusableRoom(db, caller, friendId);
    if existing.Some? {
      return Redirect(RoomUrl, existing);
    }
    var id := db.nextRoomId;
    var room := new ChatRoom(id, PrivateRoomName(username(caller), username(friendId)), Private);
    room.AddParticipant(caller);
    room.AddParticipant(friendId);
    db.rooms := db.rooms[id := room];
    db.nextRoomId := id + 1;
    page := Redirect(RoomUrl, Some(id));
  }

  /**
   * How `create_group_chat` as written treats a POST without a group name:
   * the branch reports through `messages`, a name chat/views.py never
   * imports, so the request fails with a NameError instead of redirecting.
   */
  function MissingNameAsWritten(name: Option<string>): (r: Option<Page>)
    ensures r.Some? <==> name.None? || name.value == ""
    ensures r.Some? ==> r.value == ServerError
  {
    if name.None? || name.value == "" then Some(ServerError) else None
  }

  /** No request without a name ever gets the redirect back to the form. */
  lemma MissingNameNeverRedirects()
    ensures MissingNameAsWritten(None) == Some(ServerError)
    ensures MissingNameAsWritten(Some("")) == Some(ServerError)
    ensures forall name :: MissingNameAsWritten(name) != Some(Redirect(CreateGroupUrl, None))
  {
  }

  /** The intended answer: a request without a name is sent back to the form and creates no room. */
  function MissingNameIntended(name: Option<string>): (r: Option<Page>)
    ensures r.Some? <==> name.None? || name.value == ""
    ensures r.Some? ==> r.value == Redirect(CreateGroupUrl, None)
  {
    if name.None? || name.value == "" then Some(Redirect(CreateGroupUrl, None)) else None
  }

  /** Listed ids that name an existing user who is the caller's friend. */
  function Eligible(ids: seq<UserId>, users: set<UserId>, callerFriends: set<UserId>): (s: set<UserId>)
    ensures forall x :: x in s <==> x in ids && x in users && x in callerFriends
  {
    set x | x in ids && x in users && x in callerFriends
  }

  /** `participants_added`: one per listed position that names an eligible user. */
  function CountEligible(ids: seq<UserId>, users: set<UserId>, callerFriends: set<UserId>): (n: nat)
    ensures n <= |ids|
  {
    if ids == [] then 0
    else (if ids[0] in users && ids[0] in callerFriends then 1 else 0) + CountEligible(ids[1..], users, callerFriends)
  }

  /** Without repeated ids, the counter equals the number of participants added. */
  lemma {:induction false} CountEligibleDistinct(ids: seq<UserId>, users: set<UserId>, callerFriends: set<UserId>)
    requires forall i, j :: 0 <= i < j < |ids| ==> ids[i] != ids[j]
    ensures CountEligible(ids, users, callerFriends) == |Eligible(ids, users, callerFriends)|
  {
    if ids != [] {
      CountEligibleDistinct(ids[1..], users, callerFriends);
      var restSet := Eligible(ids[1..], users, callerFriends);
      assert ids[0] !in ids[1..];
      if ids[0] in users && ids[0] in callerFriends {
        assert Eligible(ids, users, callerFriends) == restSet + {ids[0]};
      } else {
        assert Eligible(ids, users, callerFriends) == restSet;
      }
    }
  }

  /**
   * `create_group_chat`. A GET shows the caller's friends; a POST with a
   * name creates a group room holding the caller and every listed id that
   * is an existing friend, and also returns the counter the view logs.
   * A POST without a name gets the intended redirect (MissingNameIntended).
   */
  method CreateGroupChat(db: ChatStore, caller: UserId, isPost: bool, name: Option<string>,
                         participantIds: seq<UserId>, users: set<UserId>, callerFriends: set<UserId>)
    returns (page: Page, added: nat)
    requires db.Valid()
    modifies db
    ensures db.Valid()
    ensures db.messages == old(db.messages) && db.nextMessageId == old(db.nextMessageId)
    ensures !isPost ==> page == GroupForm(callerFriends) && db.rooms == old(db.rooms)
    ensures isPost && MissingNameIntended(name).Some? ==>
      page == MissingNameIntended(name).value && db.rooms == old(db.rooms)
    ensures isPost && MissingNameIntended(name).None? ==>
      var id := old(db.nextRoomId);
      page == Redirect(RoomUrl, Some(id))
      && id !in old(db.rooms) && db.rooms.Keys == old(db.rooms).Keys + {id}
      && (forall r :: r in old(db.rooms) ==> db.rooms[r] == old(db.rooms)[r])
      && fresh(db.rooms[id]) && db.rooms[id].kind == Group && db.rooms[id].name == name.value
      && db.rooms[id].participants == {caller} + Eligible(participantIds, users, callerFriends)
      && added == CountEligible(participantIds, users, callerFriends)
  {
    added := 0;
    if !isPost {
      return GroupForm(callerFriends), added;
    }
    var refused := MissingNameIntended(name);
    if refused.Some? {
      return refused.value, added;
    }
    var id := db.nextRoomId;
    var room := new ChatRoom(id, name.value, Group);
    room.AddParticipant(caller);
    for i := 0 to |participantIds|
      invariant room.participants == {caller} + Eligible(participantIds[..i], users, callerFriends)
      invariant added + CountEligible(participantIds[i..], users, callerFriends)
        == CountEligible(participantIds, users, callerFriends)
      invariant room.name == name.value && room.kind == Group
      modifies room
    {
      var p := participantIds[i];
      assert participantIds[i..] == [p] + participantIds[i + 1..];
      assert participantIds[..i + 1] == participantIds[..i] + [p];
      if p in users && p in callerFriends {
        room.AddParticipant(p);
        added := added + 1;
      }
    }
    assert participantIds[..|participantIds|] == participantIds;
    db.rooms := db.rooms[id := room];
    db.nextRoomId := id + 1;
    page := Redirect(RoomUrl, Some(id));
  }
}
