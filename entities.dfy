/**
 Values exchanged by the inbox handlers of the Smithereen federation engine:
 actors, posts, the target of an Add activity, the composite keys of newsfeed
 entries and notifications, and the outcome of handling one delivery.

 Java references that may be null are modelled as `Option`.
 */
module Entities {

  datatype Option<T> = None | Some(value: T)

  /**
   An ActivityPub identity URI (java.net.URI). Equality on this type stands
   for URI.equals, which compares the scheme and host without regard to case;
   the model never looks inside a URI.
   */
  type Uri(==, !new)

  /** A local database id (Post.id, User.id). */
  type LocalId = int

  /** The acting (signed) actor of a delivery. `wallUrl` is what getWallURL() returns. */
  datatype Actor = Actor(id: LocalId, apId: Option<Uri>, wallUrl: Option<Uri>)

  /** The owner of a post, seen through its activityPubID (which may be null). */
  datatype Owner = Owner(apId: Option<Uri>)

  /**
   A post as parsed from an activity or as stored. `owner` is the post's
   owner (a null reference is None); `replyRoot` is the first element of its
   reply chain (the top-level post), present for replies.
   */
  datatype Post = Post(
    id: LocalId,
    apId: Uri,
    owner: Option<Owner>,
    inReplyTo: Option<Uri>,
    replyRoot: Option<Uri>,
    content: string)

  /** An embedded object: an (abbreviated) ActivityPubCollection, or anything else. */
  datatype ApObject = Collection(apId: Option<Uri>) | OtherObject

  /** A LinkOrObject reference: a bare link, an embedded object, or both. */
  datatype LinkOrObject = LinkOrObject(link: Option<Uri>, obj: Option<ApObject>)

  /** The part of an Add activity the handler reads. */
  datatype AddActivity = AddActivity(target: Option<LinkOrObject>)

  /** NewsfeedEntry.Type; only RETOOT is used by the modelled handlers. */
  datatype FeedType = Retoot | OtherFeedType(name: string)

  /** Composite identity of a newsfeed entry: (type, author id, object id). */
  datatype FeedKey = FeedKey(kind: FeedType, authorId: LocalId, objectId: LocalId)

  /** Notification.ObjectType; only POST is used by the modelled handlers. */
  datatype NotifObjectType = PostObject | OtherObjectType(name: string)

  /** Notification.Type; only RETOOT is used by the modelled handlers. */
  datatype NotifType = RetootNotif | OtherNotifType(name: string)

  /** Composite identity of a notification: (object type, object id, type, actor id). */
  datatype NotifKey = NotifKey(objectType: NotifObjectType, objectId: LocalId, kind: NotifType, actorId: LocalId)

  /**
   How handling a delivery ends: normally, with BadRequestException (400),
   with ObjectNotFoundException (404), or with an unchecked exception such
   as a NullPointerException (500).
   */
  datatype Outcome = Accepted | BadRequest(msg: string) | NotFound | InternalError

  /** A value, or the exception that interrupted computing it. */
  datatype Result<T> = Ok(value: T) | Fail(outcome: Outcome)
}
