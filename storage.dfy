/**
 The persistent stores the inbox handlers write through their context: the
 post table behind the object link resolver (keyed by identity URI), the
 newsfeed entries and the notifications (both sets of composite keys, so a
 row is either live once or absent).

 `State` is the value of all three stores; `HandlerContext` is the object
 whose fields the collaborators update in place.
 */
module Storage {
  import opened Entities

  datatype State = State(
    posts: map<Uri, Post>,
    nextId: LocalId,
    feed: set<FeedKey>,
    notifs: set<NotifKey>)

  /** How handling one delivery ended, and the stores afterwards. */
  datatype Step = Step(outcome: Outcome, after: State)

  /**
   The resolver's invariant: every stored post sits under its own identity
   URI, carries an already assigned local id, and no two identity URIs share
   a local id (at most one local row per identity URI).
   */
  ghost predicate Valid(s: State) {
    && s.nextId >= 1
    && (forall u :: u in s.posts ==> s.posts[u].apId == u && 1 <= s.posts[u].id < s.nextId)
    && (forall u, v :: u in s.posts && v in s.posts && s.posts[u].id == s.posts[v].id ==> u == v)
  }

  /**
   storeOrUpdateRemoteObject on a post: the first store of an identity URI
   creates a row with a fresh local id; a later one overwrites the content
   fields and keeps the local id. Nothing else changes.
   */
  function Upsert(s: State, p: Post): (t: State)
    requires Valid(s)
    ensures Valid(t)
    ensures t.posts.Keys == s.posts.Keys + {p.apId}
    ensures t.posts[p.apId] == p.(id := t.posts[p.apId].id)
    ensures p.apId in s.posts ==> t.posts[p.apId].id == s.posts[p.apId].id && t.nextId == s.nextId
    ensures p.apId !in s.posts ==> forall u :: u in s.posts ==> s.posts[u].id != t.posts[p.apId].id
    ensures forall u :: u in s.posts && u != p.apId ==> t.posts[u] == s.posts[u]
    ensures t.feed == s.feed && t.notifs == s.notifs
  {
    if p.apId in s.posts then
      s.(posts := s.posts[p.apId := p.(id := s.posts[p.apId].id)])
    else
      s.(posts := s.posts[p.apId := p.(id := s.nextId)], nextId := s.nextId + 1)
  }

  /** Upserting the same post again leaves the stores as they are. */
  lemma UpsertIdempotent(s: State, p: Post)
    requires Valid(s)
    ensures Upsert(Upsert(s, p), p) == Upsert(s, p)
  {
  }

  /** The stores reachable from an ActivityHandlerContext. */
  class HandlerContext {
    var posts: map<Uri, Post>
    var nextId: LocalId
    var feed: set<FeedKey>
    var notifs: set<NotifKey>

    function Snapshot(): (s: State)
      reads this
    {
      State(posts, nextId, feed, notifs)
    }

    ghost predicate Consistent()
      reads this
    {
      Valid(Snapshot())
    }

    constructor ()
      ensures Consistent()
      ensures posts == map[] && feed == {} && notifs == {}
    {
      posts, nextId, feed, notifs := map[], 1, {}, {};
    }

    /** ObjectLinkResolver.storeOrUpdateRemoteObject; returns the post as stored. */
    method StoreOrUpdateRemoteObject(p: Post) returns (stored: Post)
      requires Consistent()
      modifies this
      ensures Consistent()
      ensures Snapshot() == Upsert(old(Snapshot()), p)
      ensures stored == posts[p.apId]
    {
      var t := Upsert(Snapshot(), p);
      posts, nextId := t.posts, t.nextId;
      stored := posts[p.apId];
    }

    /** NotificationUtils.putNotificationsForPost: idempotent insert of the derived keys. */
    method PutNotificationsForPost(keys: set<NotifKey>)
      modifies this
      ensures Snapshot() == old(Snapshot()).(notifs := old(notifs) + keys)
    {
      notifs := notifs + keys;
    }

    /** NewsfeedController.deleteFriendsFeedEntry: idempotent delete of one keyed entry. */
    method DeleteFriendsFeedEntry(author: Actor, objectId: LocalId, kind: FeedType)
      modifies this
      ensures Snapshot() == old(Snapshot()).(feed := old(feed) - {FeedKey(kind, author.id, objectId)})
    {
      feed := feed - {FeedKey(kind, author.id, objectId)};
    }

    /** NotificationsStorage.deleteNotification: idempotent delete of one keyed row. */
    method DeleteNotification(objectType: NotifObjectType, objectId: LocalId, kind: NotifType, actorId: LocalId)
      modifies this
      ensures Snapshot() == old(Snapshot()).(notifs := old(notifs) - {NotifKey(objectType, objectId, kind, actorId)})
    {
      notifs := notifs - {NotifKey(objectType, objectId, kind, actorId)};
    }
  }
}
