/**
 * The state-changing handlers of social_network/views/fbv.py over the
 * social network's tables: the friend-request table, every profile's
 * one-way `friends` set, every post's `likes` set, the notification table
 * and the notifications the signals have enqueued.
 *
 * The caller of every handler is the logged-in user, who has a profile.
 */
module SocialViews {
  import opened Wrappers
  import opened SocialModels
  import opened SocialSignals
  import opened SocialForms
  import opened SocialSerializers

  const ProfileNotFound: string := "Profile not found"
  const CannotAddSelf: string := "You cannot add yourself as a friend"
  const AlreadySent: string := "Friend request already sent"
  const RequestSent: string := "Friend request sent successfully"
  const RequestAccepted: string := "Friend request accepted successfully"
  const RequestMissing: string := "Friend request does not exist"
  const RequestRejected: string := "Friend request rejected"
  const RequestNotFound: string := "Friend request not found"
  const NotFriends: string := "You are not friends with this user"
  const FriendRemoved: string := "Friend removed successfully"
  const OnlyEditOwn: string := "You can only edit your own posts."
  const OnlyDeleteOwn: string := "You can only delete your own posts."

  /** The named URLs and templates the handlers redirect to or render. */
  const Home: string := "home"
  const PostDetail: string := "post_detail"
  const EditTemplate: string := "edit_post.html"
  const CommentTemplate: string := "posts/create_comment.html"

  /** What a handler answers. */
  datatype Response =
    | Json(status: nat, key: string, text: string)  // a one-entry JSON object
    | Flag(status: nat, success: bool)               // {'success': …}
    | Liked(liked: bool, totalLikes: nat)            // the like toggle's JSON
    | Api(status: nat)                               // serializer data or errors
    | Redirect(to: string)
    | Render(template: string)
    | NotFound                                       // Http404

  /** The fields of a submitted PostForm. */
  datatype PostFormData = PostFormData(title: string, content: string, image: Option<string>)

  /** Adds the friendship in both directions; every other profile keeps its friends. */
  function Befriend(f: map<UserId, set<UserId>>, a: UserId, b: UserId): (r: map<UserId, set<UserId>>)
    requires a in f && b in f
    ensures r.Keys == f.Keys
    ensures b in r[a] && a in r[b]
    ensures r[a] == f[a] + {b} && r[b] == f[b] + {a}
    ensures forall u :: u in f && u != a && u != b ==> r[u] == f[u]
  {
    f[a := f[a] + {b}][b := f[b] + {a}]
  }

  /** Removes the friendship in both directions; every other profile keeps its friends. */
  function Unfriend(f: map<UserId, set<UserId>>, a: UserId, b: UserId): (r: map<UserId, set<UserId>>)
    requires a in f && b in f
    ensures r.Keys == f.Keys
    ensures b !in r[a] && a !in r[b]
    ensures r[a] == f[a] - {b} && r[b] == f[b] - {a}
    ensures forall u :: u in f && u != a && u != b ==> r[u] == f[u]
  {
    f[a := f[a] - {b}][b := f[b] - {a}]
  }

  /** Friendship is mutual when every friend lists the profile back. */
  ghost predicate Mutual(f: map<UserId, set<UserId>>) {
    forall u, v :: u in f && v in f[u] ==> v in f && u in f[v]
  }

  /** Accepting a request and removing the friend again restores two strangers' friend sets. */
  lemma {:induction false} UnfriendUndoesBefriend(f: map<UserId, set<UserId>>, a: UserId, b: UserId)
    requires a in f && b in f
    requires b !in f[a] && a !in f[b]
    ensures Unfriend(Befriend(f, a, b), a, b) == f
  {
    var r := Unfriend(Befriend(f, a, b), a, b);
    assert r.Keys == f.Keys;
    forall u | u in f
      ensures r[u] == f[u]
    {
      if u == a || u == b {
        assert r[u] <= f[u];
      }
    }
  }

  /** Both handlers keep friendship mutual when it was mutual before. */
  lemma {:induction false} BefriendUnfriendKeepMutual(f: map<UserId, set<UserId>>, a: UserId, b: UserId)
    requires a in f && b in f
    requires Mutual(f)
    ensures Mutual(Befriend(f, a, b))
    ensures Mutual(Unfriend(f, a, b))
  {
    var g := Befriend(f, a, b);
    forall u, v | u in g && v in g[u]
      ensures v in g && u in g[v]
    {
      if v in f[u] {
        assert v in f && u in f[v];
      }
    }
    var h := Unfriend(f, a, b);
    forall u, v | u in h && v in h[u]
      ensures v in h && u in h[v]
    {
      assert v in f[u];
      assert u in f[v];
    }
  }

  /**
   * How add_comment treats one call: whether a comment row is saved and
   * whether the comment-added signal is sent.
   */
  datatype CommentStep = CommentStep(saved: bool, signalled: bool)

  /**
   * The order of statements in add_comment as written: a valid POST saves
   * and returns before the signal, so the signal is sent exactly on the
   * requests that save nothing (every GET and every invalid POST).
   */
  function CommentStepAsWritten(isPost: bool, formValid: bool): (r: CommentStep)
    ensures r.saved <==> isPost && formValid
    ensures r.signalled <==> !r.saved
  {
    if isPost && formValid then CommentStep(true, false) else CommentStep(false, true)
  }

  /** Merely opening the comment page notifies the author of a comment that does not exist. */
  lemma OpeningCommentPageNotifies()
    ensures CommentStepAsWritten(false, true) == CommentStep(false, true)
    ensures exists isPost, formValid ::
      CommentStepAsWritten(isPost, formValid).signalled && !CommentStepAsWritten(isPost, formValid).saved
  {
    assert CommentStepAsWritten(false, false).signalled;
  }

  /** The intended behaviour: the author is notified of exactly the comments that are saved. */
  function CommentStepIntended(isPost: bool, formValid: bool): (r: CommentStep)
    ensures r.saved <==> isPost && formValid
    ensures r.signalled <==> r.saved
  {
    CommentStep(isPost && formValid, isPost && formValid)
  }

  class Network {
    var profiles: map<UserId, Profile>
    var posts: map<PostId, Post>
    var requests: map<nat, FriendRequest>
    var nextRequestId: nat
    var notifications: map<nat, Notification>
    var comments: seq<Comment>
    /** The notification records the signals have enqueued, oldest first. */
    var outbox: seq<NotificationRecord>

    /**
     * Keys name their rows, request ids come from a counter, a request
     * joins two different existing profiles, and the table holds at most
     * one request per (from_user, to_user) pair.
     */
    ghost predicate Valid()
      reads this`profiles, this`posts, this`requests, this`nextRequestId
    {
      (forall u :: u in profiles ==> profiles[u].user == u)
      && (forall p :: p in posts ==> posts[p].id == p)
      && (forall id :: id in requests ==> id < nextRequestId)
      && (forall id :: id in requests ==>
            requests[id].fromUser in profiles && requests[id].toUser in profiles
            && requests[id].fromUser != requests[id].toUser)
      && (forall i, j ::
            i in requests && j in requests && requests[i].fromUser == requests[j].fromUser
            && requests[i].toUser == requests[j].toUser
            ==> i == j)
    }

    constructor ()
      ensures Valid()
      ensures profiles == map[] && posts == map[] && requests == map[]
      ensures notifications == map[] && comments == [] && outbox == []
    {
      profiles := map[];
      posts := map[];
      requests := map[];
      nextRequestId := 0;
      notifications := map[];
      comments := [];
      outbox := [];
    }

    /** Every profile's friend set, by user. */
    ghost function Friends(): map<UserId, set<UserId>>
      reads this`profiles, profiles.Values
    {
      map u | u in profiles :: profiles[u].friends
    }

    /** Every profile's bio, by user. */
    ghost function Bios(): map<UserId, Option<string>>
      reads this`profiles, profiles.Values
    {
      map u | u in profiles :: profiles[u].bio
    }

    /** What a post shows besides its likes: title, content, image and video record, by post. */
    ghost function Contents(): map<PostId, (string, string, string, VideoRecord?)>
      reads this`posts, posts.Values
    {
      map p | p in posts :: (posts[p].title, posts[p].content, posts[p].image, posts[p].videoUrl)
    }

    /** The (from_user, to_user) pairs of the pending requests. */
    ghost function Pairs(): set<(UserId, UserId)>
      reads this`requests
    {
      set id | id in requests :: (requests[id].fromUser, requests[id].toUser)
    }

    /** A request from `from` to `to` exists. */
    predicate HasRequest(from: UserId, to: UserId)
      reads this
    {
      exists id :: id in requests && requests[id].fromUser == from && requests[id].toUser == to
    }

    /** Request `rid` exists and is addressed to `caller`. */
    predicate Addressed(rid: nat, caller: UserId)
      reads this
    {
      rid in requests && requests[rid].toUser == caller
    }

    /** `send_friend_request`. */
    method SendFriendRequest(caller: UserId, target: UserId) returns (resp: Response)
      requires Valid() && caller in profiles
      modifies this
      ensures Valid()
      ensures profiles == old(profiles) && posts == old(posts)
      ensures notifications == old(notifications) && comments == old(comments)
      ensures target !in profiles ==> resp == Json(404, "message", ProfileNotFound)
      ensures target in profiles && target == caller ==> resp == Json(400, "message", CannotAddSelf)
      ensures target in profiles && target != caller && old(HasRequest(caller, target)) ==>
        resp == Json(400, "message", AlreadySent)
      ensures resp != Json(201, "message", RequestSent) ==>
        requests == old(requests) && outbox == old(outbox) && nextRequestId == old(nextRequestId)
      ensures resp == Json(201, "message", RequestSent) <==>
        target in profiles && target != caller && !old(HasRequest(caller, target))
      ensures resp == Json(201, "message", RequestSent) ==>
        requests == old(requests)[old(nextRequestId) := FriendRequest(caller, target, false)]
        && old(nextRequestId) !in old(requests)
        && Pairs() == old(Pairs()) + {(caller, target)}
        && outbox == old(outbox) + [NotificationFor(FriendRequestSent(caller, target))]
    {
      if target !in profiles {
        return Json(404, "message", ProfileNotFound);
      }
      if target == caller {
        return Json(400, "message", CannotAddSelf);
      }
      if HasRequest(caller, target) {
        return Json(400, "message", AlreadySent);
      }
      var id := nextRequestId;
      ghost var before := Pairs();
      requests := requests[id := FriendRequest(caller, target, false)];
      nextRequestId := nextRequestId + 1;
      outbox := outbox + [NotificationFor(FriendRequestSent(caller, target))];
      assert Pairs() == before + {(caller, target)} by {
        forall x | x in Pairs() ensures x in before + {(caller, target)} {
          var i :| i in requests && x == (requests[i].fromUser, requests[i].toUser);
          if i != id { assert i in old(requests); }
        }
        forall x | x in before ensures x in Pairs() {
          var i :| i in old(requests) && x == (old(requests)[i].fromUser, old(requests)[i].toUser);
          assert i != id && i in requests;
        }
        assert id in requests;
      }
      resp := Json(201, "message", RequestSent);
    }

    /** `add_friend` on both profiles: a and b become friends of each other, every other profile keeps its friends. */
    method Link(a: UserId, b: UserId)
      requires Valid() && a in profiles && b in profiles
      modifies profiles[a], profiles[b]
      ensures Friends() == Befriend(old(Friends()), a, b)
      ensures Bios() == old(Bios())
    {
      ghost var before := Friends();
      var pa, pb := profiles[a], profiles[b];
      pa.AddFriend(b);
      pb.AddFriend(a);
      assert Friends() == Befriend(before, a, b) by {
        forall u | u in profiles ensures Friends()[u] == Befriend(before, a, b)[u] {
          if u != a && u != b {
            assert profiles[u] != pa && profiles[u] != pb;
          }
        }
      }
    }

    /** `remove_friend` on both profiles: a and b stop being friends, every other profile keeps its friends. */
    method Unlink(a: UserId, b: UserId)
      requires Valid() && a in profiles && b in profiles
      modifies profiles[a], profiles[b]
      ensures Friends() == Unfriend(old(Friends()), a, b)
      ensures Bios() == old(Bios())
    {
      ghost var before := Friends();
      var pa, pb := profiles[a], profiles[b];
      pa.RemoveFriend(b);
      pb.RemoveFriend(a);
      assert Friends() == Unfriend(before, a, b) by {
        forall u | u in profiles ensures Friends()[u] == Unfriend(before, a, b)[u] {
          if u != a && u != b {
            assert profiles[u] != pa && profiles[u] != pb;
          }
        }
      }
    }

    /** `accept_friend_request`: both directions of the friendship, then the request is deleted. */
    method AcceptFriendRequest(caller: UserId, rid: nat) returns (resp: Response)
      requires Valid() && caller in profiles
      modifies this, ProfilesOf(RequestParties(rid))
      ensures Valid()
      ensures profiles == old(profiles) && posts == old(posts) && nextRequestId == old(nextRequestId)
      ensures Bios() == old(Bios())
      ensures notifications == old(notifications) && comments == old(comments)
      ensures old(Addressed(rid, caller)) ==>
        resp == Json(200, "message", RequestAccepted)
        && Friends() == Befriend(old(Friends()), caller, old(requests[rid].fromUser))
        && requests == old(requests) - {rid}
        && outbox == old(outbox) + [NotificationFor(FriendRequestAccepted(old(requests[rid].fromUser), caller))]
      ensures !old(Addressed(rid, caller)) ==>
        resp == Json(404, "error", RequestMissing)
        && Friends() == old(Friends()) && requests == old(requests) && outbox == old(outbox)
    {
      if !Addressed(rid, caller) {
        return Json(404, "error", RequestMissing);
      }
      var from := requests[rid].fromUser;
      Link(caller, from);
      outbox := outbox + [NotificationFor(FriendRequestAccepted(from, caller))];
      requests := requests - {rid};
      resp := Json(200, "message", RequestAccepted);
    }

    /** `reject_friend_request`: only the named request addressed to the caller goes. */
    method RejectFriendRequest(caller: UserId, rid: nat) returns (resp: Response)
      requires Valid() && caller in profiles
      modifies this
      ensures Valid()
      ensures profiles == old(profiles) && posts == old(posts) && outbox == old(outbox)
      ensures nextRequestId == old(nextRequestId)
      ensures notifications == old(notifications) && comments == old(comments)
      ensures old(Addressed(rid, caller)) ==>
        resp == Json(200, "message", RequestRejected) && requests == old(requests) - {rid}
      ensures !old(Addressed(rid, caller)) ==>
        resp == Json(404, "message", RequestNotFound) && requests == old(requests)
    {
      if !Addressed(rid, caller) {
        return Json(404, "message", RequestNotFound);
      }
      requests := requests - {rid};
      resp := Json(200, "message", RequestRejected);
    }

    /**
     * `remove_friend`: only a friend of the caller can be removed; both
     * directions go, and so do the requests between the two either way.
     */
    method RemoveFriend(caller: UserId, target: UserId) returns (resp: Response)
      requires Valid() && caller in profiles
      modifies this, ProfilesOf({caller, target})
      ensures Valid()
      ensures profiles == old(profiles) && posts == old(posts) && outbox == old(outbox)
      ensures nextRequestId == old(nextRequestId)
      ensures Bios() == old(Bios())
      ensures notifications == old(notifications) && comments == old(comments)
      ensures target !in profiles ==>
        resp == Json(404, "message", ProfileNotFound) && Friends() == old(Friends()) && requests == old(requests)
      ensures target in profiles && target !in old(Friends())[caller] ==>
        resp == Json(400, "message", NotFriends) && Friends() == old(Friends()) && requests == old(requests)
      ensures target in profiles && target in old(Friends())[caller] ==>
        resp == Json(200, "message", FriendRemoved)
        && Friends() == Unfriend(old(Friends()), caller, target)
        && requests == DropBetween(old(requests), caller, target)
        && !HasRequest(caller, target) && !HasRequest(target, caller)
    {
      if target !in profiles {
        return Json(404, "message", ProfileNotFound);
      }
      var me := profiles[caller];
      var them := profiles[target];
      if !me.IsFriend(target) {
        return Json(400, "message", NotFriends);
      }
      Unlink(caller, target);
      requests := DropBetween(requests, caller, target);
      resp := Json(200, "message", FriendRemoved);
    }

    /** Every post's likes, by post. */
    ghost function Likes(): map<PostId, set<UserId>>
      reads this`posts, posts.Values
    {
      map p | p in posts :: posts[p].likes
    }

    /** The like toggle on one post: the caller's like is removed when present and added otherwise; nothing else of any post changes. */
    method ToggleLike(caller: UserId, postId: PostId) returns (liked: bool)
      requires Valid() && postId in posts
      modifies posts[postId]
      ensures liked <==> caller !in old(Likes())[postId]
      ensures Likes() == old(Likes())[postId := Toggle(old(Likes())[postId], caller)]
      ensures Contents() == old(Contents())
    {
      var post := posts[postId];
      ghost var before := Likes();
      if caller in post.likes {
        post.likes := post.likes - {caller};
        liked := false;
      } else {
        post.likes := post.likes + {caller};
        liked := true;
      }
      assert Likes() == before[postId := Toggle(before[postId], caller)] by {
        forall p | p in posts && p != postId ensures posts[p] != post {
          assert posts[p].id == p;
        }
      }
    }

    /** `like_post`: toggles the caller's like; only a like (not an unlike) notifies the author. */
    method LikePost(caller: UserId, postId: PostId) returns (resp: Response)
      requires Valid()
      modifies this, PostObject(postId)
      ensures Valid()
      ensures profiles == old(profiles) && posts == old(posts) && requests == old(requests)
      ensures notifications == old(notifications) && comments == old(comments)
      ensures postId !in posts ==> resp == NotFound && Likes() == old(Likes()) && outbox == old(outbox)
      ensures postId in posts ==>
        resp.Liked?
        && (resp.liked <==> caller !in old(Likes())[postId])
        && Likes() == old(Likes())[postId := Toggle(old(Likes())[postId], caller)]
        && resp.totalLikes == |Likes()[postId]|
        && outbox == old(outbox)
             + (if resp.liked then [NotificationFor(PostLiked(postId, posts[postId].author, caller))] else [])
      ensures Contents() == old(Contents())
    {
      if postId !in posts {
        return NotFound;
      }
      var post := posts[postId];
      var liked := ToggleLike(caller, postId);
      if liked {
        outbox := outbox + [NotificationFor(PostLiked(postId, post.author, caller))];
      }
      resp := Liked(liked, post.TotalLikes());
    }

    /** The profile objects of the given users. */
    function ProfilesOf(users: set<UserId>): set<object>
      reads this`profiles
    {
      set u | u in users && u in profiles :: profiles[u]
    }

    /** The two users of request `rid`, if it exists. */
    function RequestParties(rid: nat): set<UserId>
      reads this`requests
    {
      if rid in requests then {requests[rid].fromUser, requests[rid].toUser} else {}
    }

    /** The post with the given id, if it exists. */
    function PostObject(postId: PostId): set<object>
      reads this`posts
    {
      if postId in posts then {posts[postId]} else {}
    }

    /** The objects a post update may write: the post and its nested video record. */
    function PostFrame(postId: PostId): set<object?>
      reads this, posts.Values
    {
      if postId in posts then {posts[postId], posts[postId].videoUrl} else {}
    }

    /** `post_detail` with PUT: only the author may update, through the serializer merge. */
    method UpdatePostApi(caller: UserId, postId: PostId, dataValid: bool, data: PostUpdate) returns (resp: Response)
      requires Valid()
      modifies this, PostFrame(postId)
      ensures Valid()
      ensures profiles == old(profiles) && posts == old(posts) && requests == old(requests)
      ensures notifications == old(notifications) && comments == old(comments) && outbox == old(outbox)
      ensures postId !in posts ==> resp == Api(404)
      ensures postId in posts && posts[postId].author != caller ==> resp == Json(403, "error", OnlyEditOwn)
      ensures postId in posts && posts[postId].author == caller && !dataValid ==> resp == Api(400)
      ensures postId in posts && posts[postId].author == caller && dataValid ==>
        resp == Api(200)
        && posts[postId].title == Merge(data.title, old(posts[postId].title))
        && posts[postId].content == Merge(data.content, old(posts[postId].content))
        && posts[postId].image == Merge(data.image, old(posts[postId].image))
      ensures postId in posts && posts[postId].author == caller && dataValid && !HasNested(data.videoUrl) ==>
        posts[postId].videoUrl == old(posts[postId].videoUrl)
        && (old(posts[postId].videoUrl) != null ==> posts[postId].videoUrl.attrs == old(posts[postId].videoUrl.attrs))
      ensures postId in posts && posts[postId].author == caller && dataValid && HasNested(data.videoUrl)
              && old(posts[postId].videoUrl) != null ==>
        posts[postId].videoUrl == old(posts[postId].videoUrl)
        && posts[postId].videoUrl.attrs == old(posts[postId].videoUrl.attrs) + data.videoUrl.value
      ensures postId in posts && posts[postId].author == caller && dataValid && HasNested(data.videoUrl)
              && old(posts[postId].videoUrl) == null ==>
        posts[postId].videoUrl != null && fresh(posts[postId].videoUrl)
        && posts[postId].videoUrl.attrs == data.videoUrl.value
      ensures resp != Api(200) ==> postId in posts ==>
        posts[postId].title == old(posts[postId].title)
        && posts[postId].content == old(posts[postId].content)
        && posts[postId].image == old(posts[postId].image)
        && posts[postId].videoUrl == old(posts[postId].videoUrl)
        && (old(posts[postId].videoUrl) != null ==> posts[postId].videoUrl.attrs == old(posts[postId].videoUrl.attrs))
      ensures postId in posts ==> posts[postId].likes == old(posts[postId].likes)
    {
      if postId !in posts {
        return Api(404);
      }
      var post := posts[postId];
      if post.author != caller {
        return Json(403, "error", OnlyEditOwn);
      }
      if !dataValid {
        return Api(400);
      }
      var saved := Update(post, data);
      resp := Api(200);
    }

    /** `post_detail` with DELETE: only the author may delete; the post's comments go with it. */
    method DeletePostApi(caller: UserId, postId: PostId) returns (resp: Response)
      requires Valid()
      modifies this
      ensures Valid()
      ensures profiles == old(profiles) && requests == old(requests)
      ensures notifications == old(notifications) && outbox == old(outbox)
      ensures postId !in old(posts) ==> resp == Api(404) && posts == old(posts) && comments == old(comments)
      ensures postId in old(posts) && old(posts[postId].author) != caller ==>
        resp == Json(403, "error", OnlyDeleteOwn) && posts == old(posts) && comments == old(comments)
      ensures postId in old(posts) && old(posts[postId].author) == caller ==>
        resp == Api(204) && posts == old(posts) - {postId}
        && comments == DropComments(old(comments), postId)
    {
      if postId !in posts {
        return Api(404);
      }
      if posts[postId].author != caller {
        return Json(403, "error", OnlyDeleteOwn);
      }
      DeletePostRows(postId);
      resp := Api(204);
    }

    /** Deletes a post row; its comments go by cascade. */
    method DeletePostRows(postId: PostId)
      requires Valid()
      modifies this
      ensures Valid()
      ensures posts == old(posts) - {postId} && comments == DropComments(old(comments), postId)
      ensures profiles == old(profiles) && requests == old(requests) && nextRequestId == old(nextRequestId)
      ensures notifications == old(notifications) && outbox == old(outbox)
    {
      posts := posts - {postId};
      comments := DropComments(comments, postId);
    }

    /** `edit_post`: the author's valid PostForm overwrites the post; nobody else changes it. */
    method EditPost(caller: UserId, postId: PostId, isPost: bool, fieldsValid: bool, form: PostFormData)
      returns (resp: Response)
      requires Valid()
      modifies posts.Values
      ensures Valid()
      ensures postId !in posts ==> resp == NotFound
      ensures postId in posts && posts[postId].author != caller ==> resp == Redirect(Home)
      ensures postId in posts && posts[postId].author == caller ==>
        (resp == Redirect(Home) <==> isPost && PostFormValid(fieldsValid, form))
        && (resp != Redirect(Home) ==> resp == Render(EditTemplate))
      ensures postId in posts && resp == Redirect(Home) && posts[postId].author == caller ==>
        posts[postId].title == form.title && posts[postId].content == form.content
        && posts[postId].image == Merge(form.image, old(posts[postId].image))
      ensures postId in posts && !(resp == Redirect(Home) && posts[postId].author == caller) ==>
        posts[postId].title == old(posts[postId].title)
        && posts[postId].content == old(posts[postId].content)
        && posts[postId].image == old(posts[postId].image)
      ensures forall p :: p in posts ==> posts[p].likes == old(posts[p].likes) && posts[p].videoUrl == old(posts[p].videoUrl)
      ensures forall p :: p in posts && p != postId ==>
        posts[p].title == old(posts[p].title) && posts[p].content == old(posts[p].content)
        && posts[p].image == old(posts[p].image)
    {
      if postId !in posts {
        return NotFound;
      }
      var post := posts[postId];
      if post.author != caller {
        return Redirect(Home);
      }
      if isPost && PostFormValid(fieldsValid, form) {
        post.title := form.title;
        post.content := form.content;
        post.image := Merge(form.image, post.image);
        return Redirect(Home);
      }
      resp := Render(EditTemplate);
    }

    /** `delete_post`: only the author's POST deletes; every other request is redirected home. */
    method DeletePost(caller: UserId, postId: PostId, isPost: bool) returns (resp: Response)
      requires Valid()
      modifies this
      ensures Valid()
      ensures profiles == old(profiles) && requests == old(requests)
      ensures notifications == old(notifications) && outbox == old(outbox)
      ensures postId !in old(posts) ==> resp == NotFound
      ensures postId in old(posts) ==> resp == Redirect(Home)
      ensures postId in old(posts) && old(posts[postId].author) == caller && isPost ==>
        posts == old(posts) - {postId} && comments == DropComments(old(comments), postId)
      ensures !(postId in old(posts) && old(posts[postId].author) == caller && isPost) ==>
        posts == old(posts) && comments == old(comments)
    {
      if postId !in posts {
        return NotFound;
      }
      if posts[postId].author != caller {
        return Redirect(Home);
      }
      if isPost {
        DeletePostRows(postId);
      }
      resp := Redirect(Home);
    }

    /** `mark_notification_as_read`: only the recipient can mark a notification. */
    method MarkNotificationAsRead(caller: UserId, nid: nat) returns (resp: Response)
      requires Valid()
      modifies this
      ensures Valid()
      ensures profiles == old(profiles) && posts == old(posts) && requests == old(requests)
      ensures comments == old(comments) && outbox == old(outbox)
      ensures notifications.Keys == old(notifications).Keys
      ensures old(nid in notifications && notifications[nid].recipient == caller) ==>
        resp == Flag(200, true)
        && notifications == old(notifications)[nid := old(notifications[nid]).(read := true)]
      ensures !old(nid in notifications && notifications[nid].recipient == caller) ==>
        resp == Flag(404, false) && notifications == old(notifications)
    {
      if nid !in notifications || notifications[nid].recipient != caller {
        return Flag(404, false);
      }
      notifications := notifications[nid := notifications[nid].(read := true)];
      resp := Flag(200, true);
    }

    /**
     * `add_comment`, with the comment-added signal sent for exactly the
     * comment that is saved (see CommentStepAsWritten for the order of the
     * original statements).
     */
    method AddComment(caller: UserId, postId: PostId, isPost: bool, fieldsValid: bool, content: string)
      returns (resp: Response)
      requires Valid()
      modifies this
      ensures Valid()
      ensures profiles == old(profiles) && posts == old(posts) && requests == old(requests)
      ensures notifications == old(notifications)
      ensures postId !in posts ==> resp == NotFound && comments == old(comments) && outbox == old(outbox)
      ensures postId in posts ==>
        var step := CommentStepIntended(isPost, CommentFormValid(fieldsValid, content));
        (step.saved ==> resp == Redirect(PostDetail) && comments == old(comments) + [Comment(postId, caller, content)])
        && (!step.saved ==> resp == Render(CommentTemplate) && comments == old(comments))
        && (step.signalled ==> outbox == old(outbox) + [NotificationFor(CommentAdded(postId, posts[postId].author, caller))])
        && (!step.signalled ==> outbox == old(outbox))
    {
      if postId !in posts {
        return NotFound;
      }
      var post := posts[postId];
      var step := CommentStepIntended(isPost, CommentFormValid(fieldsValid, content));
      if step.saved {
        comments := comments + [Comment(postId, caller, content)];
      }
      if step.signalled {
        outbox := outbox + [NotificationFor(CommentAdded(postId, post.author, caller))];
      }
      resp := if step.saved then Redirect(PostDetail) else Render(CommentTemplate);
    }
  }

  /** A PostForm is valid when its fields are and its `clean` accepts them. */
  predicate PostFormValid(fieldsValid: bool, form: PostFormData) {
    fieldsValid && CleanPost(map["title" := form.title, "content" := form.content]).Accepted?
  }

  /** A CommentForm is valid when its field is and its `clean` accepts it. */
  predicate CommentFormValid(fieldsValid: bool, content: string) {
    fieldsValid && CleanComment(map["content" := content]).Accepted?
  }

  /** A request joins a and b, in either direction. */
  predicate Between(r: FriendRequest, a: UserId, b: UserId) {
    (r.fromUser == a && r.toUser == b) || (r.fromUser == b && r.toUser == a)
  }

  /** The requests that survive removing the friendship between a and b. */
  function DropBetween(reqs: map<nat, FriendRequest>, a: UserId, b: UserId): (r: map<nat, FriendRequest>)
    ensures forall id :: id in r <==> id in reqs && !Between(reqs[id], a, b)
    ensures forall id :: id in r ==> r[id] == reqs[id]
  {
    map id | id in reqs && !Between(reqs[id], a, b) :: reqs[id]
  }

  /** The comments that survive deleting post `p` (the foreign key cascades). */
  function DropComments(cs: seq<Comment>, p: PostId): (r: seq<Comment>)
    ensures forall c :: c in r <==> c in cs && c.post != p
    ensures |r| <= |cs|
  {
    if cs == [] then []
    else (if cs[0].post == p then [] else [cs[0]]) + DropComments(cs[1..], p)
  }

  /** Every comment of another post survives as many times as it was there; none of post p's does. */
  lemma {:induction false} DropCommentsCounts(cs: seq<Comment>, p: PostId)
    ensures forall c :: multiset(DropComments(cs, p))[c] == if c.post == p then 0 else multiset(cs)[c]
  {
    if cs != [] {
      DropCommentsCounts(cs[1..], p);
      assert cs == [cs[0]] + cs[1..];
    }
  }

  /** The surviving comments keep their order: the cascade works piece by piece over the table. */
  lemma {:induction false} DropCommentsAppend(xs: seq<Comment>, ys: seq<Comment>, p: PostId)
    ensures DropComments(xs + ys, p) == DropComments(xs, p) + DropComments(ys, p)
  {
    if xs != [] {
      assert (xs + ys)[1..] == xs[1..] + ys;
      DropCommentsAppend(xs[1..], ys, p);
    } else {
      assert xs + ys == ys;
    }
  }
}
