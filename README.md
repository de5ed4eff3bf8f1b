# Smithereen inbox handlers: Add(Note) and Undo(Announce(Note))

This project models two inbound federation handlers of the Smithereen
social-networking server and proves what they guarantee.

- **AddNoteHandler** handles a remote actor's `Add` of a `Note` to its own
  wall (section 7.8 of the ActivityPub W3C Recommendation). It first works
  out the identity URI of the target collection. That URI is the bare link
  when there is one. Otherwise it is the identity of an embedded,
  abbreviated collection object. It then runs three guards in a fixed order:
  the target is the actor's wall, the post is owned by the actor, and a
  reply's top-level post has the same owner as the reply. Only when every
  guard passes does it upsert the post through the object link resolver
  and put the post's notifications.
- **UndoAnnounceNoteHandler** handles an `Undo` of an `Announce` of a `Note`,
  which retracts a re-share (sections 7.11 and 7.12 of the same
  Recommendation). It checks nothing. It deletes the actor's RETOOT newsfeed
  entry for the post, then the post's RETOOT notification by the actor.

The stores are modelled as values:

- posts: a map from identity URI to post, plus the next free local id;
- newsfeed entries: a set of `(type, author id, object id)` keys;
- notifications: a set of `(object type, object id, type, actor id)` keys.

`Storage.HandlerContext` is the object whose fields the collaborators update
in place. Each handler is a method that takes that context and modifies it. Each method is proved
equal to a specification function on the store values (`AddNoteHandler.AddNote`,
`UndoAnnounceNoteHandler.UndoAnnounce`), and the lemmas are about those
functions.

A handler ends in one of four ways (`Entities.Outcome`):

- normally;
- `BadRequestException`, which the web layer answers with 400
  (src/main/java/smithereen/Main.java:256-263);
- `ObjectNotFoundException`, answered with 404
  (src/main/java/smithereen/Main.java:252-255);
- an unchecked exception such as a null dereference, answered with 500
  (src/main/java/smithereen/Main.java:264-270).

Java references that may be null are `Option` values. This covers the
actor's wall URL, the activityPub ids, a post's owner, the Add's target and
an embedded collection's id.

Identity URIs are an abstract type (`Entities.Uri`). Equality on that type
stands for `java.net.URI.equals`, which is what the guards call (directly or
through `Objects.equals`). So two URIs that differ only in the case of the
scheme or host count as the same URI, as they do in the program.

The model follows the code as written, including these cases:

- A null `Add.target` is dereferenced at AddNoteHandler.java:21. The result is
  an internal error (500), not a 400 response.
- The wall check uses null-safe equality. An actor without a wall URL passes
  it with an embedded collection that has no id.
- A post without an owner is dereferenced at AddNoteHandler.java:30. The
  result is an internal error.
- At AddNoteHandler.java:34 the reply's owner id and the top-level post's
  owner are dereferenced. When the reply's owner id is null (line 30 allows
  this only if the actor's id is null too), or the top-level post has no
  owner, the result is an internal error.
- The top-level post is looked up once, in the local post store, through
  `getPostOrThrow`. The model does not resolve it through a chain of
  fetches.

## Model

| member | source | states |
|---|---|---|
| `AddNoteHandler.TargetCollectionId` | src/main/java/smithereen/activitypub/handlers/AddNoteHandler.java:20-26 | the target id is the link when one is present (the link wins over an embedded object); otherwise the embedded collection's id; with neither it is BadRequest with the source's message; a null target is an internal error; a returned id is one the target designates |
| `AddNoteHandler.CheckAdd` | src/main/java/smithereen/activitypub/handlers/AddNoteHandler.java:20-36 | the guards accept exactly when the Add is permitted: the target designates the actor's wall (null-safe), the post has an owner whose id is the actor's, and a reply's stored top-level post has the same owner with a non-null id; NotFound only for a reply whose top-level post is missing; internal error only for a null target, a null post owner, or a reply with a stored top-level post where the reply's owner id or the top-level post's owner is null; every bad request carries one of the four source messages |
| `AddNoteHandler.TargetGuardFirst` | src/main/java/smithereen/activitypub/handlers/AddNoteHandler.java:20-26 | an unusable target decides the outcome whatever the actor, post and store: a null target is an internal error, a target with neither a link nor a collection is BadRequest with the line-26 message |
| `AddNoteHandler.WallGuardSecond` | src/main/java/smithereen/activitypub/handlers/AddNoteHandler.java:28-29 | a target that is not the actor's wall is BadRequest("Add.target doesn't match actor's wall collection") whatever the post and store |
| `AddNoteHandler.OwnerGuardThird` | src/main/java/smithereen/activitypub/handlers/AddNoteHandler.java:30-31 | on the actor's wall, a post without an owner is an internal error and a post whose owner id is not the actor's is BadRequest with the owner message, whatever the store holds |
| `AddNoteHandler.ReplyGuardLast` | src/main/java/smithereen/activitypub/handlers/AddNoteHandler.java:32-36 | after the first three guards, a reply whose top-level post is not stored is NotFound; a stored top-level post without an owner, or a null reply owner id, is an internal error; a top-level post with a different owner id is BadRequest with the reply message |
| `AddNoteHandler.NonReplyNeverLooksUp` | src/main/java/smithereen/activitypub/handlers/AddNoteHandler.java:32 | a non-reply is judged identically against any store and is never NotFound |
| `AddNoteHandler.AddNoteEffects` | src/main/java/smithereen/activitypub/handlers/AddNoteHandler.java:39-40 | given the post as mention preprocessing left it, the effects keep the store consistent, leave exactly one row for its URI holding that post, keep an existing local id, leave other posts and the newsfeed unchanged, and add the notifications derived from the stored post |
| `AddNoteHandler.AddNote` | src/main/java/smithereen/activitypub/handlers/AddNoteHandler.java:28-40 | the outcome is the guards' verdict; any rejection leaves every store unchanged; only an accepted Add applies the effects, to the post after mention preprocessing |
| `AddNoteHandler.AddNoteEffectsIdempotent` | src/main/java/smithereen/activitypub/handlers/AddNoteHandler.java:39-40 | applying the upsert and notification insert of the same post twice equals applying them once |
| `AddNoteHandler.CheckAddStable` | src/main/java/smithereen/activitypub/handlers/AddNoteHandler.java:32-36 | an accepted Add stays accepted against any store in which the reply's top-level post is still stored with the same owner |
| `AddNoteHandler.AddNoteRedelivered` | src/main/java/smithereen/activitypub/handlers/AddNoteHandler.java:19-41 | handling the same Add(Note) delivery a second time, against the stores the first left, ends with the same verdict and the same stores, provided mention preprocessing keeps the post's identity URI and owner |
| `AddNoteHandler.Handle` | src/main/java/smithereen/activitypub/handlers/AddNoteHandler.java:19-41 | the handler method returns the guards' verdict and leaves the context exactly as AddNote prescribes: guards first, then mention preprocessing, then upsert, then notifications |
| `Storage.Upsert` | src/main/java/smithereen/activitypub/handlers/AddNoteHandler.java:39 | storeOrUpdateRemoteObject keeps at most one row per identity URI with distinct local ids, overwrites the content of an existing row keeping its id, gives a new row an id no other row has, and touches nothing else |
| `Storage.UpsertIdempotent` | src/main/java/smithereen/activitypub/handlers/AddNoteHandler.java:39 | upserting the same post twice equals upserting it once |
| `Storage.HandlerContext.StoreOrUpdateRemoteObject` | src/main/java/smithereen/activitypub/handlers/AddNoteHandler.java:39 | the resolver call updates the context as Upsert prescribes and returns the post as stored |
| `Storage.HandlerContext.PutNotificationsForPost` | src/main/java/smithereen/activitypub/handlers/AddNoteHandler.java:40 | the notification insert adds the given keys and changes nothing else |
| `Storage.HandlerContext.DeleteFriendsFeedEntry` | src/main/java/smithereen/activitypub/handlers/UndoAnnounceNoteHandler.java:19 | the newsfeed delete removes the one entry keyed (type, author id, object id) and changes nothing else |
| `Storage.HandlerContext.DeleteNotification` | src/main/java/smithereen/activitypub/handlers/UndoAnnounceNoteHandler.java:20 | the notification delete removes the one row keyed (object type, object id, type, actor id) and changes nothing else |
| `UndoAnnounceNoteHandler.UndoAnnounce` | src/main/java/smithereen/activitypub/handlers/UndoAnnounceNoteHandler.java:19-20 | afterwards no (actor, post.id, RETOOT) entry and no (POST, post.id, RETOOT, actor.id) notification remains; every other entry and notification is kept, nothing is added, posts are untouched, and store consistency is preserved |
| `UndoAnnounceNoteHandler.UndoAnnounceKeepsOtherEntries` | src/main/java/smithereen/activitypub/handlers/UndoAnnounceNoteHandler.java:19 | a newsfeed entry that differs in type, post id or author survives the retraction |
| `UndoAnnounceNoteHandler.UndoAnnounceKeepsOtherNotifications` | src/main/java/smithereen/activitypub/handlers/UndoAnnounceNoteHandler.java:20 | a notification that differs in object type, post id, type or actor survives the retraction |
| `UndoAnnounceNoteHandler.UndoAnnounceOfAbsentIsNoOp` | src/main/java/smithereen/activitypub/handlers/UndoAnnounceNoteHandler.java:18-21 | retracting a re-share that left no rows changes nothing |
| `UndoAnnounceNoteHandler.UndoAnnounceIdempotent` | src/main/java/smithereen/activitypub/handlers/UndoAnnounceNoteHandler.java:19-20 | handling the same Undo twice equals handling it once |
| `UndoAnnounceNoteHandler.Handle` | src/main/java/smithereen/activitypub/handlers/UndoAnnounceNoteHandler.java:18-21 | the handler method, feed delete then notification delete, leaves the context exactly as UndoAnnounce prescribes |
| `Deliveries.Deliver` | src/main/java/smithereen/activitypub/handlers/UndoAnnounceNoteHandler.java:18-21 | scaffolding for the replay lemmas, which applies AddNote or UndoAnnounce by the delivery's shape (the real dispatch is left out): handling any delivery keeps the stores consistent, an Undo(Announce(Note)) is never rejected, and a rejected delivery changes nothing |
| `Deliveries.Replay` | src/main/java/smithereen/activitypub/handlers/AddNoteHandler.java:39 | handling any log of deliveries one by one keeps the post store consistent: one row per identity URI and distinct local ids |
| `Deliveries.ReplayUndos` | src/main/java/smithereen/activitypub/handlers/UndoAnnounceNoteHandler.java:19-20 | a log of Undo deliveries removes exactly the re-share entries and notifications some delivery in it names, and nothing else |
| `Deliveries.ReplayUndosTwice` | src/main/java/smithereen/activitypub/handlers/UndoAnnounceNoteHandler.java:19-20 | delivering a whole log of Undos again changes nothing |
| `Deliveries.ReplayUndosInAnyOrder` | src/main/java/smithereen/activitypub/handlers/UndoAnnounceNoteHandler.java:19-20 | any reordering of a log of Undos (same multiset) ends in the same stores |
| `Deliveries.ReplyBeforeItsRootIsRefused` | src/main/java/smithereen/activitypub/handlers/AddNoteHandler.java:32-33 | for every consistent store, owner, and top-level post not yet stored with a reply by the same owner: the reply delivered first is NotFound and changes nothing, so that log ends as the top-level post alone would; in thread order both are accepted and both URIs are stored |

## Left out

- The activity dispatch table (`ActivityPubRoutes.registerActivityHandlers`, src/main/java/smithereen/Main.java:86) is not part of this model. `Deliveries.Deliver` simply picks the handler by the delivery's shape.
- `loadAndPreprocessRemotePostMentions` (AddNoteHandler.java:38) fetches remote actors. Its source is not part of this model. It is a parameter (`Collaborators.preprocessMentions`) that returns the post as preprocessing left it, and that post is what gets stored. It is assumed to write none of the modelled stores. The redelivery and ordering lemmas also assume it keeps the post's identity URI and owner (`KeepsIdentity`).
- `NotificationUtils.putNotificationsForPost` is not part of this model. The notifications it derives from the stored post are a parameter (`Collaborators.notificationsFor`), and the model assumes the insert is a keyed set insert.
- `storeOrUpdateRemoteObject` is not part of this model. The model assumes it is the keyed upsert described above: a new row gets the next local id, and an existing row keeps its id.
- `deleteFriendsFeedEntry` and `NotificationsStorage.deleteNotification` are not part of this model. They are assumed to be keyed deletes.
- `Post.getReplyChainElement` is not part of this model. The first element of the reply chain is a field of the post (`replyRoot`). When a reply has none, the model treats the lookup as not found.
- `WallController.getPostOrThrow` is modelled as a lookup of the local post store by identity URI. Any remote fetch or caching it may perform is left out.
- The post store is keyed by the same URI equality the guards use (`URI.equals`). If the storage layer matches identity URIs by exact string, two URIs differing only in the case of the scheme or host would be two rows there and one row in the model.
- Other state changes are left out: SQL failures (`SQLException`), network fetches and caching, and concurrent deliveries. The model handles one delivery at a time, and each collaborator write either happens completely or not at all.
- Some handler arguments are not modelled. The Undo handler never reads its `Undo` and `Announce` activity objects or its context beyond the two stores. The Add handler reads only the `target` of its activity.
- The Announce handler, which creates the re-share rows, is not part of this model. So the case where an Undo arrives before its Announce is not modelled.
- The web layer's response bodies are not modelled. The model keeps the exception kind and the Add handler's own messages.
