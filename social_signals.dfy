/**
 * The four notification receivers of social_network/signals.py, seen as a
 * mapping from an event to the notification record they enqueue, and the
 * row the queued task then inserts.
 */
module SocialSignals {
  import opened Wrappers
  import opened SocialModels
  import opened Text

  /** What a view announces through one of the four custom signals. */
  datatype Event =
    | FriendRequestSent(fromUser: UserId, toUser: UserId)
    | FriendRequestAccepted(fromUser: UserId, toUser: UserId)
    | PostLiked(postId: PostId, postAuthor: UserId, user: UserId)
    | CommentAdded(postId: PostId, postAuthor: UserId, user: UserId)

  /** The arguments given to the notification task. */
  datatype NotificationRecord = NotificationRecord(
    recipient: UserId,
    actor: UserId,
    verb: string,
    targetContentType: Option<string>,
    targetObjectId: Option<nat>)

  const SentVerb: string := "sent you a friend request"
  const AcceptedVerb: string := "accepted your friend request"
  const LikedVerb: string := "liked your post"
  const CommentedVerb: string := "commented on your post"

  /** `post._meta.model_name` */
  const PostModelName: string := "post"

  predicate IsPostEvent(e: Event) {
    e.PostLiked? || e.CommentAdded?
  }

  /**
   * The record each receiver enqueues. Friend-request records leave the
   * target at its None default; post records target the post.
   */
  function NotificationFor(e: Event): (r: NotificationRecord)
    ensures r.targetObjectId.Some? <==> IsPostEvent(e)
    ensures r.targetContentType.Some? <==> IsPostEvent(e)
    ensures IsPostEvent(e) ==> r.recipient == e.postAuthor && r.actor == e.user
  {
    match e
    case FriendRequestSent(f, t) => NotificationRecord(t, f, SentVerb, None, None)
    case FriendRequestAccepted(f, t) => NotificationRecord(f, t, AcceptedVerb, None, None)
    case PostLiked(p, a, u) => NotificationRecord(a, u, LikedVerb, Some(PostModelName), Some(p))
    case CommentAdded(p, a, u) => NotificationRecord(a, u, CommentedVerb, Some(PostModelName), Some(p))
  }

  /** A sent request notifies its addressee, naming the sender as actor. */
  lemma SentNotifiesAddressee(f: UserId, t: UserId)
    ensures NotificationFor(FriendRequestSent(f, t)).recipient == t
    ensures NotificationFor(FriendRequestSent(f, t)).actor == f
    ensures NotificationFor(FriendRequestSent(f, t)).verb == SentVerb
  {
  }

  /**
   * Accepting swaps the roles of the request's notification: the acceptance
   * goes back to whoever was notified as actor of the request.
   */
  lemma AcceptedSwapsRoles(f: UserId, t: UserId)
    ensures NotificationFor(FriendRequestAccepted(f, t)).recipient == NotificationFor(FriendRequestSent(f, t)).actor
    ensures NotificationFor(FriendRequestAccepted(f, t)).actor == NotificationFor(FriendRequestSent(f, t)).recipient
    ensures NotificationFor(FriendRequestAccepted(f, t)).verb == AcceptedVerb
  {
  }

  /** The verb tells which receiver produced a record. */
  lemma VerbIdentifiesEvent(e1: Event, e2: Event)
    requires NotificationFor(e1).verb == NotificationFor(e2).verb
    ensures e1.FriendRequestSent? == e2.FriendRequestSent?
    ensures e1.FriendRequestAccepted? == e2.FriendRequestAccepted?
    ensures e1.PostLiked? == e2.PostLiked?
    ensures e1.CommentAdded? == e2.CommentAdded?
  {
    assert SentVerb[0] == 's' && AcceptedVerb[0] == 'a';
    assert LikedVerb[0] == 'l' && CommentedVerb[0] == 'c';
  }

  /**
   * The insert `create_notification` performs as written: the record's
   * content type goes into the integer foreign-key column
   * `target_content_type_id`, so the insert fails (no row) unless that
   * value is absent or reads as a number.
   */
  function InsertAsWritten(rec: NotificationRecord): (n: Option<Notification>)
    ensures n.None? <==> rec.targetContentType.Some? && !IsNumeral(rec.targetContentType.value)
    ensures n.Some? ==> !n.value.read && n.value.targetObjectId == rec.targetObjectId
    ensures n.Some? ==> n.value.recipient == rec.recipient && n.value.actor == rec.actor && n.value.verb == rec.verb
  {
    match rec.targetContentType
    case None => Some(Notification(rec.recipient, rec.actor, rec.verb, None, rec.targetObjectId, false))
    case Some(ct) =>
      if IsNumeral(ct) then
        Some(Notification(rec.recipient, rec.actor, rec.verb, Some(ParseDecimal(ct)), rec.targetObjectId, false))
      else None
  }

  /** A string the integer column accepts: one or more decimal digits. */
  predicate IsNumeral(s: string) {
    |s| > 0 && AllDigits(s)
  }

  /**
   * As written, every like and comment notification is lost: the model
   * name "post" is not a number. Friend-request notifications are stored.
   */
  lemma PostEventsNeverStored(e: Event)
    ensures InsertAsWritten(NotificationFor(e)).None? <==> IsPostEvent(e)
  {
  }

  /**
   * The row the queued task is meant to insert; a new notification is
   * unread. `contentTypeId` is the ContentType table's id for a model
   * name, which the insert needs in place of the name itself.
   */
  function NewNotification(rec: NotificationRecord, contentTypeId: string -> nat): (n: Notification)
    ensures !n.read
    ensures n.recipient == rec.recipient && n.actor == rec.actor && n.verb == rec.verb
    ensures n.targetObjectId == rec.targetObjectId
    ensures n.targetContentType.Some? <==> rec.targetContentType.Some?
    ensures rec.targetContentType.Some? ==> n.targetContentType.value == contentTypeId(rec.targetContentType.value)
  {
    var ct := match rec.targetContentType
      case None => None
      case Some(name) => Some(contentTypeId(name));
    Notification(rec.recipient, rec.actor, rec.verb, ct, rec.targetObjectId, false)
  }

  /**
   * With the content type resolved, a like or comment notification
   * points at the post: the Post content type and the post's id.
   */
  lemma PostEventTargetsPost(e: Event, contentTypeId: string -> nat)
    requires IsPostEvent(e)
    ensures NewNotification(NotificationFor(e), contentTypeId).targetContentType == Some(contentTypeId(PostModelName))
    ensures NewNotification(NotificationFor(e), contentTypeId).targetObjectId == Some(e.postId)
    ensures NewNotification(NotificationFor(e), contentTypeId).recipient == e.postAuthor
  {
  }

  /** For friend-request records the intended row is the one inserted as written. */
  lemma FriendEventsAgree(e: Event, contentTypeId: string -> nat)
    requires !IsPostEvent(e)
    ensures InsertAsWritten(NotificationFor(e)) == Some(NewNotification(NotificationFor(e), contentTypeId))
  {
  }
}
