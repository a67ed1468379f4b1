/** The dashboard header (src/components/dashboard/header.tsx): the
    notification list the bell shows, its unread badge and the click that
    marks a notification read. */
module Header {
  import opened Seqs
  import opened Types
  import opened DataContext

  function ForUser(id: string): Notification -> bool {
    (n: Notification) => n.userId == id
  }

  function Unread(): Notification -> bool {
    (n: Notification) => !n.read
  }

  /** `unreadCount`. */
  function UnreadCount(ns: seq<Notification>): (k: nat)
    ensures k <= |ns|
    ensures k == 0 <==> forall i :: 0 <= i < |ns| ==> ns[i].read
  {
    CountZero(ns, Unread());
    Count(ns, Unread())
  }

  /** The badge shows exactly when something is unread. */
  predicate ShowBadge(ns: seq<Notification>) {
    UnreadCount(ns) > 0
  }

  /** What the effect sets the list to: the user's own notifications; with
      no user the effect leaves the list as it was. */
  function Synced(current: seq<Notification>, all: seq<Notification>, user: Option<User>): (r: seq<Notification>)
    ensures user.None? ==> r == current
    ensures user.Some? ==> forall i :: 0 <= i < |r| ==> r[i].userId == user.value.id
    ensures user.Some? ==> (forall n :: n in r <==> n in all && n.userId == user.value.id) && IsSubseq(r, all)
  {
    if user.Some? then
      FilterMembers(all, ForUser(user.value.id));
      FilterExact(all, ForUser(user.value.id));
      Filter(all, ForUser(user.value.id))
    else current
  }

  /** Marking a notification read never raises the unread count, and
      lowers it when some notification with that id was unread. */
  lemma {:induction false} MarkReadLowersUnread(ns: seq<Notification>, id: string)
    ensures UnreadCount(Updated(ns, NotificationKey, id, MarkRead, ())) <= UnreadCount(ns)
    ensures (exists i :: 0 <= i < |ns| && ns[i].id == id && !ns[i].read) ==>
      UnreadCount(Updated(ns, NotificationKey, id, MarkRead, ())) < UnreadCount(ns)
    decreases |ns|
  {
    if ns != [] {
      var r := Updated(ns, NotificationKey, id, MarkRead, ());
      MarkReadLowersUnread(ns[1..], id);
      assert r[1..] == Updated(ns[1..], NotificationKey, id, MarkRead, ());
      assert r == [r[0]] + r[1..];
      FilterAppend([r[0]], r[1..], Unread());
      assert ns == [ns[0]] + ns[1..];
      FilterAppend([ns[0]], ns[1..], Unread());
      if exists i :: 0 <= i < |ns| && ns[i].id == id && !ns[i].read {
        var i :| 0 <= i < |ns| && ns[i].id == id && !ns[i].read;
        if i > 0 {
          assert ns[1..][i - 1] == ns[i];
        }
      }
    }
  }

  /** The header's list over the shared store. It starts as every
      notification and is replaced by the user's own whenever the effect
      runs with a user. */
  class Header {
    const store: DataStore
    var userNotifications: seq<Notification>

    constructor (store: DataStore)
      ensures this.store == store && userNotifications == store.notifications
    {
      this.store := store;
      userNotifications := store.notifications;
    }

    /** The effect on `[notifications, user]`. */
    method Sync(user: Option<User>)
      modifies this`userNotifications
      ensures userNotifications == Synced(old(userNotifications), store.notifications, user)
    {
      if user.Some? {
        userNotifications := Filter(store.notifications, ForUser(user.value.id));
      }
    }

    /** Clicking a notification marks it read in the store; the list itself
        follows on the next effect run. */
    method Click(n: Notification)
      modifies store`notifications
      ensures store.notifications == Updated(old(store.notifications), NotificationKey, n.id, MarkRead, ())
    {
      store.MarkNotificationAsRead(n.id);
    }
  }
}
