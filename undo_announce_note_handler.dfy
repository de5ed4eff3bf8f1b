/**
 UndoAnnounceNoteHandler: an inbound Undo wrapping an Announce of a Note,
 i.e. a remote actor retracting a re-share (sections 7.11 and 7.12 of the
 ActivityPub W3C Recommendation).

 The handler checks nothing and cannot reject: it deletes the RETOOT
 newsfeed entry of the actor for the post, then the RETOOT notification of
 the post by the actor. Deleting a row that is not there does nothing.
 */
module UndoAnnounceNoteHandler {
  import opened Entities
  import opened Storage

  /** The newsfeed entry an Announce of `post` by `actor` left. */
  function RetootEntry(actor: Actor, post: Post): (k: FeedKey) {
    FeedKey(Retoot, actor.id, post.id)
  }

  /** The notification an Announce of `post` by `actor` left. */
  function RetootNotification(actor: Actor, post: Post): (k: NotifKey) {
    NotifKey(PostObject, post.id, RetootNotif, actor.id)
  }

  /**
   The stores after the retraction: exactly the re-share entry and the
   re-share notification are gone; every other row, and the posts, stay.
   */
  function UndoAnnounce(s: State, actor: Actor, post: Post): (t: State)
    ensures RetootEntry(actor, post) !in t.feed
    ensures RetootNotification(actor, post) !in t.notifs
    ensures forall k :: k in t.feed <==> k in s.feed && k != RetootEntry(actor, post)
    ensures forall k :: k in t.notifs <==> k in s.notifs && k != RetootNotification(actor, post)
    ensures t.posts == s.posts && t.nextId == s.nextId
    ensures Valid(s) ==> Valid(t)
  {
    s.(feed := s.feed - {RetootEntry(actor, post)}, notifs := s.notifs - {RetootNotification(actor, post)})
  }

  /** A newsfeed entry that differs from the retracted one in type, post or author survives. */
  lemma UndoAnnounceKeepsOtherEntries(s: State, actor: Actor, post: Post, e: FeedKey)
    requires e in s.feed && (e.kind != Retoot || e.authorId != actor.id || e.objectId != post.id)
    ensures e in UndoAnnounce(s, actor, post).feed
  {
  }

  /** A notification that differs from the retracted one in object type, post, type or actor survives. */
  lemma UndoAnnounceKeepsOtherNotifications(s: State, actor: Actor, post: Post, n: NotifKey)
    requires n in s.notifs
    requires n.objectType != PostObject || n.objectId != post.id || n.kind != RetootNotif || n.actorId != actor.id
    ensures n in UndoAnnounce(s, actor, post).notifs
  {
  }

  /** Retracting a re-share that left no rows changes nothing. */
  lemma UndoAnnounceOfAbsentIsNoOp(s: State, actor: Actor, post: Post)
    requires RetootEntry(actor, post) !in s.feed
    requires RetootNotification(actor, post) !in s.notifs
    ensures UndoAnnounce(s, actor, post) == s
  {
  }

  /** Handling the same Undo twice leaves the stores as handling it once. */
  lemma UndoAnnounceIdempotent(s: State, actor: Actor, post: Post)
    ensures UndoAnnounce(UndoAnnounce(s, actor, post), actor, post) == UndoAnnounce(s, actor, post)
  {
  }

  /** UndoAnnounceNoteHandler.handle: two keyed deletions, feed first, then notifications. */
  method Handle(context: HandlerContext, actor: Actor, post: Post)
    modifies context
    ensures context.Snapshot() == UndoAnnounce(old(context.Snapshot()), actor, post)
  {
    context.DeleteFriendsFeedEntry(actor, post.id, Retoot);
    context.DeleteNotification(PostObject, post.id, RetootNotif, actor.id);
  }
}
