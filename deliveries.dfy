/**
 Sequences of deliveries to the two handlers. Senders may deliver the same
 activity more than once and in any order; these lemmas say what the stores
 look like after a whole log of deliveries has been handled one by one.
 */
module Deliveries {
  import opened Entities
  import opened Storage
  import AddNoteHandler
  import UndoAnnounceNoteHandler

  datatype Delivery =
    | AddNoteDelivery(actor: Actor, activity: AddActivity, post: Post)
    | UndoAnnounceNoteDelivery(actor: Actor, post: Post)

  /** Handling one delivery with the handler its shape selects. */
  function Deliver(s: State, d: Delivery, c: AddNoteHandler.Collaborators): (r: Step)
    requires Valid(s)
    ensures Valid(r.after)
    ensures d.UndoAnnounceNoteDelivery? ==> r.outcome == Accepted
    ensures r.outcome != Accepted ==> r.after == s
  {
    match d
    case AddNoteDelivery(actor, activity, post) => AddNoteHandler.AddNote(s, actor, activity, post, c)
    case UndoAnnounceNoteDelivery(actor, post) => Step(Accepted, UndoAnnounceNoteHandler.UndoAnnounce(s, actor, post))
  }

  /** Handling a log of deliveries in order; rejected ones leave no trace. */
  function Replay(s: State, ds: seq<Delivery>, c: AddNoteHandler.Collaborators): (t: State)
    requires Valid(s)
    ensures Valid(t)
    decreases |ds|
  {
    if ds == [] then s else Replay(Deliver(s, ds[0], c).after, ds[1..], c)
  }

  predicate AllUndos(ds: seq<Delivery>) {
    forall i :: 0 <= i < |ds| ==> ds[i].UndoAnnounceNoteDelivery?
  }

  /** The re-share entries some Undo in the log retracts. */
  function RetractedEntries(ds: seq<Delivery>): (ks: set<FeedKey>) {
    set d | d in ds && d.UndoAnnounceNoteDelivery? :: UndoAnnounceNoteHandler.RetootEntry(d.actor, d.post)
  }

  /** The re-share notifications some Undo in the log retracts. */
  function RetractedNotifications(ds: seq<Delivery>): (ks: set<NotifKey>) {
    set d | d in ds && d.UndoAnnounceNoteDelivery? :: UndoAnnounceNoteHandler.RetootNotification(d.actor, d.post)
  }

  /**
   A log of Undo(Announce(Note)) deliveries removes exactly the rows that
   some delivery in it names, and nothing else.
   */
  lemma {:induction false} ReplayUndos(s: State, ds: seq<Delivery>, c: AddNoteHandler.Collaborators)
    requires Valid(s) && AllUndos(ds)
    ensures Replay(s, ds, c)
            == s.(feed := s.feed - RetractedEntries(ds), notifs := s.notifs - RetractedNotifications(ds))
    decreases |ds|
  {
    if ds != [] {
      var d := ds[0];
      var s' := Deliver(s, d, c).after;
      assert AllUndos(ds[1..]) by {
        forall i | 0 <= i < |ds[1..]| ensures ds[1..][i].UndoAnnounceNoteDelivery? {
          assert ds[1..][i] == ds[i + 1];
        }
      }
      ReplayUndos(s', ds[1..], c);
      assert ds == [d] + ds[1..];
      assert RetractedEntries(ds)
        == {UndoAnnounceNoteHandler.RetootEntry(d.actor, d.post)} + RetractedEntries(ds[1..]);
      assert RetractedNotifications(ds)
        == {UndoAnnounceNoteHandler.RetootNotification(d.actor, d.post)} + RetractedNotifications(ds[1..]);
    }
  }

  /** Delivering a whole log of Undos a second time changes nothing. */
  lemma ReplayUndosTwice(s: State, ds: seq<Delivery>, c: AddNoteHandler.Collaborators)
    requires Valid(s) && AllUndos(ds)
    ensures Replay(Replay(s, ds, c), ds, c) == Replay(s, ds, c)
  {
    ReplayUndos(s, ds, c);
    ReplayUndos(Replay(s, ds, c), ds, c);
  }

  /** The order in which a log of Undos arrives does not matter. */
  lemma ReplayUndosInAnyOrder(s: State, ds: seq<Delivery>, es: seq<Delivery>, c: AddNoteHandler.Collaborators)
    requires Valid(s) && AllUndos(ds)
    requires multiset(ds) == multiset(es)
    ensures AllUndos(es)
    ensures Replay(s, ds, c) == Replay(s, es, c)
  {
    forall i | 0 <= i < |es| ensures es[i].UndoAnnounceNoteDelivery? {
      assert es[i] in multiset(es);
      var j :| 0 <= j < |ds| && ds[j] == es[i];
    }
    forall d ensures d in ds <==> d in es {
      assert d in ds <==> d in multiset(ds);
      assert d in es <==> d in multiset(es);
    }
    ReplayUndos(s, ds, c);
    ReplayUndos(s, es, c);
  }

  /** A log of two deliveries is the second handled after the first. */
  lemma ReplayTwo(s: State, d1: Delivery, d2: Delivery, c: AddNoteHandler.Collaborators)
    requires Valid(s)
    ensures Replay(s, [d1, d2], c) == Deliver(Deliver(s, d1, c).after, d2, c).after
  {
    var s1 := Deliver(s, d1, c).after;
    var s2 := Deliver(s1, d2, c).after;
    assert [d1, d2][1..] == [d2];
    assert [d2][1..] == [];
    assert Replay(s1, [d2], c) == Replay(s2, [], c) == s2;
  }

  /**
   Add(Note) deliveries depend on order: a reply that arrives before the
   top-level post of its thread is not found and leaves nothing behind, so
   the log ends with the top-level post alone, while the same two deliveries
   in thread order store both posts.
   */
  lemma ReplyBeforeItsRootIsRefused(
    s: State, owner: Actor, activity: AddActivity, root: Post, reply: Post, c: AddNoteHandler.Collaborators)
    requires Valid(s) && AddNoteHandler.KeepsIdentity(c)
    requires activity.target.Some? && AddNoteHandler.Designates(activity.target.value, owner.wallUrl)
    requires owner.apId.Some? && root.owner == Some(Owner(owner.apId)) && reply.owner == root.owner
    requires root.inReplyTo.None? && root.apId !in s.posts
    requires reply.inReplyTo.Some? && reply.replyRoot == Some(root.apId)
    ensures var addReply, addRoot := AddNoteDelivery(owner, activity, reply), AddNoteDelivery(owner, activity, root);
            && Deliver(s, addReply, c) == Step(NotFound, s)
            && Deliver(s, addRoot, c).outcome == Accepted
            && Replay(s, [addReply, addRoot], c) == Deliver(s, addRoot, c).after
            && Deliver(Deliver(s, addRoot, c).after, addReply, c).outcome == Accepted
            && Replay(s, [addRoot, addReply], c).posts.Keys == s.posts.Keys + {root.apId, reply.apId}
  {
    var addReply, addRoot := AddNoteDelivery(owner, activity, reply), AddNoteDelivery(owner, activity, root);
    // the reply first: its top-level post is not stored yet
    AddNoteHandler.ReplyGuardLast(owner, activity, reply, s.posts);
    var afterRoot := Deliver(s, addRoot, c).after;
    ReplayTwo(s, addReply, addRoot, c);
    // thread order: the top-level post is stored with its owner, so the reply is accepted
    assert Deliver(s, addRoot, c).outcome == Accepted by {
      assert AddNoteHandler.AddPermitted(owner, activity, root, s.posts);
    }
    var pre := c.preprocessMentions(root);
    assert pre.apId == root.apId && pre.owner == root.owner;
    assert afterRoot.posts[root.apId].owner == root.owner;
    assert Deliver(afterRoot, addReply, c).outcome == Accepted by {
      assert AddNoteHandler.AddPermitted(owner, activity, reply, afterRoot.posts);
    }
    assert c.preprocessMentions(reply).apId == reply.apId;
    ReplayTwo(s, addRoot, addReply, c);
  }
}
