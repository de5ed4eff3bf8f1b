/**
 AddNoteHandler: an inbound Add activity whose object is a Note, i.e. a
 remote actor adding a post to its own wall (section 7.8 of the ActivityPub
 W3C Recommendation).

 The handler first runs its guards, each of which ends the delivery with an
 exception before anything is written, and only then upserts the post and
 puts its notifications. The guards are the function CheckAdd; the effects
 are the method Handle on the handler context.
 */
module AddNoteHandler {
  import opened Entities
  import opened Storage

  const MissingTargetMsg := "Add.target is required (either wall collection ID or abbreviated collection object)"
  const WallMismatchMsg := "Add.target doesn't match actor's wall collection"
  const OwnerMismatchMsg := "Post's target collection doesn't match actor's wall collection"
  const ReplyRootMismatchMsg := "Reply must have target set to top-level post owner's wall"

  /**
   The collaborators of the effect section whose source is not part of this
   model: WallController.loadAndPreprocessRemotePostMentions, which returns
   the post as it is after its mentions are resolved, and the notifications
   NotificationUtils.putNotificationsForPost derives from a stored post.
   */
  datatype Collaborators = Collaborators(
    preprocessMentions: Post -> Post,
    notificationsFor: Post -> set<NotifKey>)

  /** Preprocessing mentions changes neither a post's identity URI nor its owner. */
  ghost predicate KeepsIdentity(c: Collaborators) {
    forall p :: c.preprocessMentions(p).apId == p.apId && c.preprocessMentions(p).owner == p.owner
  }

  /**
   The target reference designates the collection whose identity is `id`:
   through its link when it has one, otherwise through an embedded
   collection object carrying that (possibly absent) identity.
   */
  predicate Designates(t: LinkOrObject, id: Option<Uri>) {
    || (t.link.Some? && t.link == id)
    || (t.link.None? && t.obj == Some(Collection(id)))
  }

  /**
   The identity URI of the target collection. A null target dereferences
   null (an unchecked exception); a target with neither a link nor an
   embedded collection is a bad request.
   */
  function TargetCollectionId(target: Option<LinkOrObject>): (r: Result<Option<Uri>>)
    ensures target.None? ==> r == Fail(InternalError)
    ensures target.Some? ==> (r.Ok? <==> target.value.link.Some? || (target.value.obj.Some? && target.value.obj.value.Collection?))
    ensures target.Some? && r.Fail? ==> r.outcome == BadRequest(MissingTargetMsg)
    ensures target.Some? && target.value.link.Some? ==> r == Ok(target.value.link)
    ensures r.Ok? ==> target.Some? && Designates(target.value, r.value)
  {
    if target.None? then Fail(InternalError)
    else if target.value.link.Some? then Ok(target.value.link)
    else match target.value.obj
      case Some(Collection(id)) => Ok(id)
      case _ => Fail(BadRequest(MissingTargetMsg))
  }

  /**
   A reply is anchored on its own owner's wall: the top-level post of its
   reply chain is stored, and it and the reply have the same non-null owner
   with a non-null activityPubID.
   */
  ghost predicate ReplyRootAgrees(post: Post, posts: map<Uri, Post>) {
    && post.replyRoot.Some?
    && post.replyRoot.value in posts
    && post.owner.Some? && post.owner.value.apId.Some?
    && posts[post.replyRoot.value].owner == post.owner
  }

  /**
   When an Add(Note) may be applied: it targets the actor's own wall (nulls
   compare equal, as with Objects.equals), the post is owned by the actor, and
   a reply stays on the wall of its thread's top-level post.
   */
  ghost predicate AddPermitted(actor: Actor, activity: AddActivity, post: Post, posts: map<Uri, Post>) {
    && activity.target.Some?
    && Designates(activity.target.value, actor.wallUrl)
    && post.owner == Some(Owner(actor.apId))
    && (post.inReplyTo.Some? ==> ReplyRootAgrees(post, posts))
  }

  /**
   The guard section of handle: the outcome of the first failing guard, or
   Accepted. `posts` is the store that getPostOrThrow looks the top-level
   post up in. Dereferencing a null owner, or calling equals on a null
   activityPubID, is an unchecked exception.
   */
  function CheckAdd(actor: Actor, activity: AddActivity, post: Post, posts: map<Uri, Post>): (r: Outcome)
    ensures r == Accepted <==> AddPermitted(actor, activity, post, posts)
    ensures r == NotFound ==> post.inReplyTo.Some? && (post.replyRoot.None? || post.replyRoot.value !in posts)
    ensures r == InternalError ==>
              || activity.target.None?
              || post.owner.None?
              || (&& post.inReplyTo.Some? && post.replyRoot.Some? && post.replyRoot.value in posts
                  && (post.owner.value.apId.None? || posts[post.replyRoot.value].owner.None?))
    ensures r.BadRequest? ==> r.msg in {MissingTargetMsg, WallMismatchMsg, OwnerMismatchMsg, ReplyRootMismatchMsg}
  {
    match TargetCollectionId(activity.target)
    case Fail(e) => e
    case Ok(targetId) =>
      if actor.wallUrl != targetId then BadRequest(WallMismatchMsg)
      else if post.owner.None? then InternalError
      else if post.owner.value.apId != actor.apId then BadRequest(OwnerMismatchMsg)
      else if post.inReplyTo.None? then Accepted
      else if post.replyRoot.None? || post.replyRoot.value !in posts then NotFound
      else
        var topLevel := posts[post.replyRoot.value];
        if post.owner.value.apId.None? || topLevel.owner.None? then InternalError
        else if post.owner.value.apId != topLevel.owner.value.apId then BadRequest(ReplyRootMismatchMsg)
        else Accepted
  }

  /** An unusable target decides the outcome, whoever acts and whatever the post and the store hold. */
  lemma TargetGuardFirst(actor: Actor, activity: AddActivity, post: Post, posts: map<Uri, Post>)
    requires TargetCollectionId(activity.target).Fail?
    ensures CheckAdd(actor, activity, post, posts) == TargetCollectionId(activity.target).outcome
    ensures activity.target.None? ==> CheckAdd(actor, activity, post, posts) == InternalError
    ensures activity.target.Some? ==> CheckAdd(actor, activity, post, posts) == BadRequest(MissingTargetMsg)
  {
  }

  /** A target other than the actor's wall is a bad request, whatever the post and the store hold. */
  lemma WallGuardSecond(actor: Actor, activity: AddActivity, post: Post, posts: map<Uri, Post>)
    requires activity.target.Some?
    requires !Designates(activity.target.value, actor.wallUrl)
    requires TargetCollectionId(activity.target).Ok?
    ensures CheckAdd(actor, activity, post, posts) == BadRequest(WallMismatchMsg)
  {
  }

  /**
   On the right wall, a post without an owner is an unchecked exception and a
   post owned by someone else is a bad request, whatever the store holds.
   */
  lemma OwnerGuardThird(actor: Actor, activity: AddActivity, post: Post, posts: map<Uri, Post>)
    requires activity.target.Some? && Designates(activity.target.value, actor.wallUrl)
    ensures post.owner.None? ==> CheckAdd(actor, activity, post, posts) == InternalError
    ensures post.owner.Some? && post.owner.value.apId != actor.apId
            ==> CheckAdd(actor, activity, post, posts) == BadRequest(OwnerMismatchMsg)
  {
  }

  /**
   Once the first three guards pass, a reply whose top-level post is not
   stored is not found; a stored top-level post without an owner, or a reply
   owner without an activityPubID, is an unchecked exception; and a top-level
   post owned by someone else is a bad request.
   */
  lemma ReplyGuardLast(actor: Actor, activity: AddActivity, post: Post, posts: map<Uri, Post>)
    requires activity.target.Some? && Designates(activity.target.value, actor.wallUrl)
    requires post.owner == Some(Owner(actor.apId)) && post.inReplyTo.Some?
    ensures post.replyRoot.None? || post.replyRoot.value !in posts ==> CheckAdd(actor, activity, post, posts) == NotFound
    ensures post.replyRoot.Some? && post.replyRoot.value in posts
            && (actor.apId.None? || posts[post.replyRoot.value].owner.None?)
            ==> CheckAdd(actor, activity, post, posts) == InternalError
    ensures post.replyRoot.Some? && post.replyRoot.value in posts && actor.apId.Some?
            && posts[post.replyRoot.value].owner.Some?
            && posts[post.replyRoot.value].owner.value.apId != actor.apId
            ==> CheckAdd(actor, activity, post, posts) == BadRequest(ReplyRootMismatchMsg)
  {
  }

  /** A post that is not a reply is judged without looking at the store. */
  lemma NonReplyNeverLooksUp(actor: Actor, activity: AddActivity, post: Post, s1: map<Uri, Post>, s2: map<Uri, Post>)
    requires post.inReplyTo.None?
    ensures CheckAdd(actor, activity, post, s1) == CheckAdd(actor, activity, post, s2)
    ensures CheckAdd(actor, activity, post, s1) != NotFound
  {
  }

  /**
   The effect section of handle, given the post as mention preprocessing
   left it: the post is upserted under its identity URI and the notifications
   derived from the post as stored are put.
   */
  function AddNoteEffects(s: State, preprocessed: Post, notificationsFor: Post -> set<NotifKey>): (t: State)
    requires Valid(s)
    ensures Valid(t)
    ensures t.posts.Keys == s.posts.Keys + {preprocessed.apId}
    ensures t.posts[preprocessed.apId] == preprocessed.(id := t.posts[preprocessed.apId].id)
    ensures preprocessed.apId in s.posts ==> t.posts[preprocessed.apId].id == s.posts[preprocessed.apId].id
    ensures forall u :: u in s.posts && u != preprocessed.apId ==> t.posts[u] == s.posts[u]
    ensures t.notifs == s.notifs + notificationsFor(t.posts[preprocessed.apId])
    ensures t.feed == s.feed
  {
    var stored := Upsert(s, preprocessed);
    stored.(notifs := stored.notifs + notificationsFor(stored.posts[preprocessed.apId]))
  }

  /** Handling one Add(Note): validate fully, then mutate; a rejection writes nothing. */
  function AddNote(s: State, actor: Actor, activity: AddActivity, post: Post, c: Collaborators): (r: Step)
    requires Valid(s)
    ensures Valid(r.after)
    ensures r.outcome == CheckAdd(actor, activity, post, s.posts)
    ensures r.outcome != Accepted ==> r.after == s
    ensures r.outcome == Accepted ==> r.after == AddNoteEffects(s, c.preprocessMentions(post), c.notificationsFor)
  {
    var outcome := CheckAdd(actor, activity, post, s.posts);
    if outcome == Accepted then Step(outcome, AddNoteEffects(s, c.preprocessMentions(post), c.notificationsFor))
    else Step(outcome, s)
  }

  /** Applying the effects of the same accepted Add twice equals applying them once. */
  lemma AddNoteEffectsIdempotent(s: State, preprocessed: Post, notificationsFor: Post -> set<NotifKey>)
    requires Valid(s)
    ensures var t := AddNoteEffects(s, preprocessed, notificationsFor);
            AddNoteEffects(t, preprocessed, notificationsFor) == t
  {
    var t := AddNoteEffects(s, preprocessed, notificationsFor);
    var u := Upsert(t, preprocessed);
    assert u.posts == t.posts;
  }

  /**
   The guards' verdict on an accepted Add survives any change to the store
   that keeps the owner of the reply's top-level post.
   */
  lemma CheckAddStable(actor: Actor, activity: AddActivity, post: Post, s: map<Uri, Post>, t: map<Uri, Post>)
    requires CheckAdd(actor, activity, post, s) == Accepted
    requires post.inReplyTo.Some? ==> post.replyRoot.value in t && t[post.replyRoot.value].owner == s[post.replyRoot.value].owner
    ensures CheckAdd(actor, activity, post, t) == Accepted
  {
    assert AddPermitted(actor, activity, post, s);
  }

  /**
   Delivering the same Add(Note) again ends the same way and changes nothing:
   the post keeps its single row and local id, and no notification is added.
   */
  lemma AddNoteRedelivered(s: State, actor: Actor, activity: AddActivity, post: Post, c: Collaborators)
    requires Valid(s) && KeepsIdentity(c)
    ensures var first := AddNote(s, actor, activity, post, c);
            AddNote(first.after, actor, activity, post, c) == first
  {
    var first := AddNote(s, actor, activity, post, c);
    if first.outcome == Accepted {
      var pre := c.preprocessMentions(post);
      var t := first.after;
      assert pre.apId == post.apId && pre.owner == post.owner;
      if post.inReplyTo.Some? {
        assert AddPermitted(actor, activity, post, s.posts);
        var root := post.replyRoot.value;
        assert t.posts[root].owner == s.posts[root].owner;
      }
      CheckAddStable(actor, activity, post, s.posts, t.posts);
      AddNoteEffectsIdempotent(s, pre, c.notificationsFor);
    }
  }

  /** AddNoteHandler.handle. */
  method Handle(context: HandlerContext, actor: Actor, activity: AddActivity, post: Post, c: Collaborators)
    returns (r: Outcome)
    requires context.Consistent()
    modifies context
    ensures context.Consistent()
    ensures Step(r, context.Snapshot()) == AddNote(old(context.Snapshot()), actor, activity, post, c)
  {
    r := CheckAdd(actor, activity, post, context.posts);
    if r != Accepted {
      return;
    }
    var preprocessed := c.preprocessMentions(post);
    var stored := context.StoreOrUpdateRemoteObject(preprocessed);
    context.PutNotificationsForPost(c.notificationsFor(stored));
  }
}
