/**
 * The social network's records (social_network/models.py).
 *
 * Users are plain ids. Every user gets exactly one Profile when the user is
 * created (the post_save receiver in models.py), so a profile is identified
 * here by the id of its user.
 */
module SocialModels {
  import opened Wrappers

  type UserId = nat
  type PostId = nat

  /** The default stored in Post.image when no image is uploaded. */
  const DefaultPostImage: string := "default_post.jpg"

  /**
   * A user's profile. `friends` is a one-way relation (`symmetrical=False`):
   * adding b to a's friends says nothing about b's friends.
   */
  class Profile {
    const user: UserId
    var bio: Option<string>
    var friends: set<UserId>

    constructor (user: UserId)
      ensures this.user == user && bio == None && friends == {}
    {
      this.user := user;
      bio := None;
      friends := {};
    }

    /** `add_friend`: p becomes a friend of this profile; nothing else changes. */
    method AddFriend(p: UserId)
      modifies this
      ensures friends == old(friends) + {p}
      ensures p in friends
      ensures bio == old(bio)
    {
      friends := friends + {p};
    }

    /** `remove_friend`: only p leaves this profile's friends. */
    method RemoveFriend(p: UserId)
      modifies this
      ensures friends == old(friends) - {p}
      ensures p !in friends
      ensures bio == old(bio)
    {
      friends := friends - {p};
    }

    /** `is_friend`: membership in this profile's own friends. */
    predicate IsFriend(p: UserId)
      reads this
    {
      p in friends
    }
  }

  /**
   * Adding a friend to one profile leaves the other profile's friends as
   * they were: friendship in one direction does not imply the other.
   */
  method AddFriendIsOneWay(a: Profile, b: Profile)
    requires a != b
    modifies a
    ensures a.IsFriend(b.user)
    ensures b.friends == old(b.friends)
    ensures b.IsFriend(a.user) == old(b.IsFriend(a.user))
  {
    a.AddFriend(b.user);
  }

  /** A value of the nested video record as its serializer sees it. */
  datatype Field = Null | Text(text: string) | Texts(items: seq<string>)

  /**
   * The nested video record a post refers to (ai/models.py VideoPrompt),
   * seen as its named attributes, since the serializer writes it by name.
   */
  class VideoRecord {
    var attrs: map<string, Field>

    constructor (attrs: map<string, Field>)
      ensures this.attrs == attrs
    {
      this.attrs := attrs;
    }

    /** `setattr(record, name, value)`. */
    method SetAttr(name: string, value: Field)
      modifies this
      ensures attrs == old(attrs)[name := value]
    {
      attrs := attrs[name := value];
    }
  }

  /** A post; `likes` is the set of users who like it. */
  class Post {
    const id: PostId
    const author: UserId
    var title: string
    var content: string
    var image: string
    var likes: set<UserId>
    var videoUrl: VideoRecord?

    constructor (id: PostId, author: UserId, title: string, content: string, image: Option<string>)
      ensures this.id == id && this.author == author
      ensures this.title == title && this.content == content
      ensures this.image == (if image.Some? then image.value else DefaultPostImage)
      ensures likes == {} && videoUrl == null
    {
      this.id := id;
      this.author := author;
      this.title := title;
      this.content := content;
      this.image := if image.Some? then image.value else DefaultPostImage;
      likes := {};
      videoUrl := null;
    }

    /** `total_likes`: the number of distinct users who like the post. */
    function TotalLikes(): nat
      reads this
    {
      |likes|
    }
  }

  /** Adds u to s when absent and removes it when present. */
  function Toggle(s: set<UserId>, u: UserId): (r: set<UserId>)
    ensures u in r <==> u !in s
    ensures forall v :: v != u ==> (v in r <==> v in s)
  {
    if u in s then s - {u} else s + {u}
  }

  /** Toggling twice restores the original set of likes. */
  lemma ToggleTwice(s: set<UserId>, u: UserId)
    ensures Toggle(Toggle(s, u), u) == s
  {
  }

  /** A toggle changes the number of likes by exactly one, in the direction of the toggle. */
  lemma ToggleCount(s: set<UserId>, u: UserId)
    ensures u !in s ==> |Toggle(s, u)| == |s| + 1
    ensures u in s ==> |Toggle(s, u)| == |s| - 1
  {
  }

  /** A friend request; `isAccepted` defaults to false. */
  datatype FriendRequest = FriendRequest(fromUser: UserId, toUser: UserId, isAccepted: bool)

  /**
   * A notification row; `read` defaults to false. The target's content
   * type is a foreign key, so the row holds the id of a ContentType row.
   */
  datatype Notification = Notification(
    recipient: UserId,
    actor: UserId,
    verb: string,
    targetContentType: Option<nat>,
    targetObjectId: Option<nat>,
    read: bool)

  /** A comment row. */
  datatype Comment = Comment(post: PostId, author: UserId, content: string)
}
