/**
 * The notification bell of components/ui/notification-center.tsx: a feed of
 * notifications that the user marks read one at a time or all at once,
 * deletes, and that grows at the front when the backend pushes an insert;
 * the unread badge; the relative-time label; the per-type icon and colour.
 *
 * Timestamps are epoch milliseconds; "now" is a parameter.
 */
module NotificationCenter {
  import opened Common

  datatype Notification = Notification(
    id: string,
    message: string,
    kind: string,        // 'view' | 'commitment' | 'compliance' | 'general', or anything a push delivers
    isRead: bool,
    createdAt: int,      // epoch milliseconds
    relatedId: Option<string>)

  // ---------------------------------------------------------------------------
  // Derived values

  /** `notifications.filter(n => !n.is_read).length` */
  function UnreadCount(ns: seq<Notification>): (n: nat)
    ensures n <= |ns|
    ensures n == 0 <==> forall i :: 0 <= i < |ns| ==> ns[i].isRead
  {
    if ns == [] then 0
    else UnreadCount(ns[..|ns| - 1]) + (if ns[|ns| - 1].isRead then 0 else 1)
  }

  /** The number of unread entries that carry the given id. */
  function UnreadWithId(ns: seq<Notification>, id: string): (n: nat)
    ensures n <= UnreadCount(ns)
  {
    if ns == [] then 0
    else UnreadWithId(ns[..|ns| - 1], id) + (if !ns[|ns| - 1].isRead && ns[|ns| - 1].id == id then 1 else 0)
  }

  /** The number of entries that carry the given id. */
  function WithId(ns: seq<Notification>, id: string): (n: nat)
    ensures n <= |ns|
    ensures n == 0 <==> forall i :: 0 <= i < |ns| ==> ns[i].id != id
  {
    if ns == [] then 0
    else WithId(ns[..|ns| - 1], id) + (if ns[|ns| - 1].id == id then 1 else 0)
  }

  datatype Badge = NoBadge | BadgeLabel(text: string)

  /**
   * The red badge on the bell: absent when nothing is unread, "9+" above
   * nine, otherwise the count itself.
   */
  function BadgeFor(unread: nat): (b: Badge)
    ensures b.NoBadge? <==> unread == 0
    ensures unread > 9 ==> b == BadgeLabel("9+")
    ensures 0 < unread <= 9 ==> b.BadgeLabel? && |b.text| == 1 && IsDigits(b.text) && DigitsValue(b.text) == unread
  {
    if unread == 0 then NoBadge
    else if unread > 9 then BadgeLabel("9+")
    else
      NatToStringValue(unread);
      BadgeLabel(NatToString(unread))
  }

  /** "Mark read" is offered on an entry exactly when it is unread. */
  predicate OffersMarkRead(n: Notification)
  {
    !n.isRead
  }

  /** "Mark all as read" is offered exactly when some entry is unread. */
  predicate OffersMarkAllRead(ns: seq<Notification>)
    ensures OffersMarkAllRead(ns) <==> exists i :: 0 <= i < |ns| && OffersMarkRead(ns[i])
  {
    UnreadCount(ns) > 0
  }

  // ---------------------------------------------------------------------------
  // Relative time

  datatype TimeAgo = JustNow | MinutesAgo(minutes: nat) | HoursAgo(hours: nat) | DaysAgo(days: nat)

  /** `Math.floor((now - date) / 1000)`; negative for a date in the future. */
  function ElapsedSeconds(createdAt: int, now: int): (s: int)
    ensures s * 1000 <= now - createdAt < (s + 1) * 1000
    ensures s <= 0 <==> now - createdAt < 1000
  {
    (now - createdAt) / 1000  // Euclidean division floors for a positive divisor
  }

  /** The bucket `formatTimeAgo` picks for an elapsed number of seconds. */
  function TimeAgoBucket(seconds: int): (t: TimeAgo)
    ensures seconds < 60 <==> t.JustNow?
    ensures t.MinutesAgo? ==> 1 <= t.minutes <= 59 && t.minutes * 60 <= seconds < (t.minutes + 1) * 60
    ensures t.HoursAgo? ==> 1 <= t.hours <= 23 && t.hours * 3600 <= seconds < (t.hours + 1) * 3600
    ensures t.DaysAgo? ==> 1 <= t.days && t.days * 86400 <= seconds < (t.days + 1) * 86400
    ensures 60 <= seconds < 3600 <==> t.MinutesAgo?
    ensures 3600 <= seconds < 86400 <==> t.HoursAgo?
    ensures 86400 <= seconds <==> t.DaysAgo?
  {
    if seconds < 60 then JustNow
    else if seconds < 3600 then MinutesAgo(seconds / 60)
    else if seconds < 86400 then HoursAgo(seconds / 3600)
    else DaysAgo(seconds / 86400)
  }

  function RenderTimeAgo(t: TimeAgo): string
  {
    match t
    case JustNow => "Just now"
    case MinutesAgo(m) => NatToString(m) + "m ago"
    case HoursAgo(h) => NatToString(h) + "h ago"
    case DaysAgo(d) => NatToString(d) + "d ago"
  }

  /** `formatTimeAgo(created_at)` evaluated at time `now`. */
  function FormatTimeAgo(createdAt: int, now: int): (shown: string)
    ensures var s := ElapsedSeconds(createdAt, now);
            && (s < 60 ==> shown == "Just now")
            && (60 <= s < 3600 ==> shown == NatToString(s / 60) + "m ago")
            && (3600 <= s < 86400 ==> shown == NatToString(s / 3600) + "h ago")
            && (86400 <= s ==> shown == NatToString(s / 86400) + "d ago")
    ensures createdAt >= now ==> shown == "Just now"
  {
    RenderTimeAgo(TimeAgoBucket(ElapsedSeconds(createdAt, now)))
  }

  // ---------------------------------------------------------------------------
  // Icon and colour per notification type

  datatype Glyph = Eyes | MoneyBag | WarningSign | Loudspeaker

  const KnownKinds: set<string> := {"view", "commitment", "compliance"}

  function Icon(kind: string): (g: Glyph)
    ensures kind !in KnownKinds <==> g == Loudspeaker
  {
    match kind
    case "view" => Eyes
    case "commitment" => MoneyBag
    case "compliance" => WarningSign
    case _ => Loudspeaker
  }

  function Color(kind: string): (c: string)
    ensures kind !in KnownKinds <==> c == "text-gray-600"
  {
    match kind
    case "view" => "text-blue-600"
    case "commitment" => "text-green-600"
    case "compliance" => "text-red-600"
    case _ => "text-gray-600"
  }

  /** Each known type has its own icon and its own colour. */
  lemma KnownKindsAreTold(k1: string, k2: string)
    requires k1 in KnownKinds && k2 in KnownKinds && k1 != k2
    ensures Icon(k1) != Icon(k2) && Color(k1) != Color(k2)
  {
  }

  // ---------------------------------------------------------------------------
  // Transitions on the list, as pure functions

  /** One entry of the map: read when it has the id, and otherwise unchanged. */
  function MarkOne(n: Notification, id: string): (m: Notification)
    ensures m.isRead <==> n.isRead || n.id == id
    ensures m.(isRead := n.isRead) == n
  {
    if n.id == id then n.(isRead := true) else n
  }

  /** `prev.map(n => n.id === id ? { ...n, is_read: true } : n)` */
  function MarkRead(ns: seq<Notification>, id: string): (r: seq<Notification>)
    ensures |r| == |ns|
    ensures forall i :: 0 <= i < |ns| && ns[i].id == id ==> r[i] == ns[i].(isRead := true)
    ensures forall i :: 0 <= i < |ns| && ns[i].id != id ==> r[i] == ns[i]
  {
    if ns == [] then []
    else MarkRead(ns[..|ns| - 1], id) + [MarkOne(ns[|ns| - 1], id)]
  }

  /** `prev.map(n => ({ ...n, is_read: true }))` */
  function MarkAllRead(ns: seq<Notification>): (r: seq<Notification>)
    ensures |r| == |ns|
    ensures forall i :: 0 <= i < |ns| ==> r[i] == ns[i].(isRead := true)
  {
    if ns == [] then []
    else MarkAllRead(ns[..|ns| - 1]) + [ns[|ns| - 1].(isRead := true)]
  }

  /** `prev.filter(n => n.id !== id)` */
  function RemoveId(ns: seq<Notification>, id: string): (r: seq<Notification>)
    ensures |r| == |ns| - WithId(ns, id)
    ensures forall i :: 0 <= i < |r| ==> r[i].id != id
    ensures forall i :: 0 <= i < |ns| && ns[i].id != id ==> ns[i] in r
    ensures forall n :: n in r ==> n in ns
  {
    if ns == [] then []
    else RemoveId(ns[..|ns| - 1], id) + (if ns[|ns| - 1].id == id then [] else [ns[|ns| - 1]])
  }

  /** `[newNotification, ...prev]` */
  function Prepend(n: Notification, ns: seq<Notification>): (r: seq<Notification>)
    ensures |r| == |ns| + 1 && r[0] == n && r[1..] == ns
  {
    [n] + ns
  }

  // ---------------------------------------------------------------------------
  // Properties of the transitions

  /** Marking one id read removes exactly that id's unread entries from the count. */
  lemma {:induction false} MarkReadUnreadCount(ns: seq<Notification>, id: string)
    ensures UnreadCount(MarkRead(ns, id)) == UnreadCount(ns) - UnreadWithId(ns, id)
  {
    if ns != [] {
      var init := ns[..|ns| - 1];
      MarkReadUnreadCount(init, id);
      assert MarkRead(ns, id)[..|ns| - 1] == MarkRead(init, id);
    }
  }

  /** `markAsRead` never makes the unread count grow, and never unmarks a read entry. */
  lemma MarkReadMonotone(ns: seq<Notification>, id: string)
    ensures UnreadCount(MarkRead(ns, id)) <= UnreadCount(ns)
    ensures forall i :: 0 <= i < |ns| && ns[i].isRead ==> MarkRead(ns, id)[i].isRead
  {
    MarkReadUnreadCount(ns, id);
  }

  /** Marking the same id twice is the same as marking it once. */
  lemma MarkReadIdempotent(ns: seq<Notification>, id: string)
    ensures MarkRead(MarkRead(ns, id), id) == MarkRead(ns, id)
  {
  }

  /** After "mark all as read" nothing is unread. */
  lemma MarkAllReadClears(ns: seq<Notification>)
    ensures UnreadCount(MarkAllRead(ns)) == 0
    ensures forall i :: 0 <= i < |ns| ==> MarkAllRead(ns)[i].id == ns[i].id && MarkAllRead(ns)[i].message == ns[i].message
  {
  }

  /**
   * With nothing unread, mapping every entry to read changes nothing: the
   * early return of the real-mode `markAllAsRead` is the same transition.
   */
  lemma MarkAllReadWhenNoneUnread(ns: seq<Notification>)
    requires UnreadCount(ns) == 0
    ensures MarkAllRead(ns) == ns
  {
    forall i | 0 <= i < |ns| ensures MarkAllRead(ns)[i] == ns[i] {
      assert ns[i].isRead;
    }
  }

  /** Deleting keeps the survivors in their relative order: the filter distributes over concatenation. */
  lemma {:induction false} RemoveIdAppend(a: seq<Notification>, b: seq<Notification>, id: string)
    ensures RemoveId(a + b, id) == RemoveId(a, id) + RemoveId(b, id)
    decreases |b|
  {
    if b == [] {
      assert a + b == a;
    } else {
      var init := b[..|b| - 1];
      assert (a + b)[..|a + b| - 1] == a + init;
      RemoveIdAppend(a, init, id);
    }
  }

  /** Deleting an id that no entry carries is a no-op. */
  lemma {:induction false} RemoveAbsentId(ns: seq<Notification>, id: string)
    requires forall i :: 0 <= i < |ns| ==> ns[i].id != id
    ensures RemoveId(ns, id) == ns
  {
    if ns != [] {
      RemoveAbsentId(ns[..|ns| - 1], id);
    }
  }

  /** A pushed notification adds one to the unread count exactly when it is unread. */
  lemma {:induction false} PrependUnreadCount(n: Notification, ns: seq<Notification>)
    ensures UnreadCount(Prepend(n, ns)) == UnreadCount(ns) + (if n.isRead then 0 else 1)
    decreases |ns|
  {
    if ns != [] {
      var init := ns[..|ns| - 1];
      PrependUnreadCount(n, init);
      assert Prepend(n, ns)[..|ns|] == Prepend(n, init);
    }
  }

  // ---------------------------------------------------------------------------
  // The component's state

  datatype FetchOutcome = Fetched(rows: Option<seq<Notification>>) | FetchFailed

  const MinuteMs := 60 * 1000
  const HourMs := 60 * MinuteMs
  const DayMs := 24 * HourMs

  /** The three notifications shown when no backend is configured. */
  function DemoNotifications(now: int): seq<Notification>
  {
    [ Notification("demo-1", "Demo Investor viewed your company profile", "view", false, now - 30 * MinuteMs, None),
      Notification("demo-2", "New investment commitment of $50,000", "commitment", false, now - 2 * HourMs, None),
      Notification("demo-3", "Compliance documents require review", "compliance", true, now - DayMs, None) ]
  }

  /** What the demo feed shows: two unread, badge "2", and its three time labels. */
  lemma DemoFeed(now: int)
    ensures UnreadCount(DemoNotifications(now)) == 2
    ensures BadgeFor(UnreadCount(DemoNotifications(now))) == BadgeLabel("2")
    ensures FormatTimeAgo(DemoNotifications(now)[0].createdAt, now) == "30m ago"
    ensures FormatTimeAgo(DemoNotifications(now)[1].createdAt, now) == "2h ago"
    ensures FormatTimeAgo(DemoNotifications(now)[2].createdAt, now) == "1d ago"
  {
    var d := DemoNotifications(now);
    assert d[..2][..1] == d[..1] && d[..1][..0] == [];
    assert ElapsedSeconds(d[0].createdAt, now) == 1800;
    assert ElapsedSeconds(d[1].createdAt, now) == 7200;
    assert ElapsedSeconds(d[2].createdAt, now) == 86400;
    assert NatToString(30) == "30" by { assert NatToString(3) == "3"; }
  }

  class NotificationFeed {
    var notifications: seq<Notification>
    var isDemo: bool

    constructor ()
      ensures notifications == [] && !isDemo
    {
      notifications := [];
      isDemo := false;
    }

    function Unread(): nat
      reads this
    {
      UnreadCount(notifications)
    }

    function Badge(): Badge
      reads this
    {
      BadgeFor(Unread())
    }

    /** `fetchNotifications` without a configured backend: the demo list. */
    method LoadDemo(now: int)
      modifies this
      ensures isDemo && notifications == DemoNotifications(now)
      ensures Unread() == 2
    {
      isDemo := true;
      notifications := DemoNotifications(now);
      DemoFeed(now);
    }

    /**
     * `fetchNotifications` with a backend: the fetched rows (`data || []`),
     * or, when the query fails, the empty list and demo mode.
     */
    method Load(outcome: FetchOutcome)
      modifies this
      ensures outcome.FetchFailed? ==> isDemo && notifications == []
      ensures outcome.Fetched? ==> isDemo == old(isDemo)
      ensures outcome.Fetched? && outcome.rows.Some? ==> notifications == outcome.rows.value
      ensures outcome.Fetched? && outcome.rows.None? ==> notifications == []
    {
      match outcome
      case FetchFailed =>
        isDemo := true;
        notifications := [];
      case Fetched(rows) =>
        notifications := if rows.Some? then rows.value else [];
    }

    /** `markAsRead(id)`; in real mode the backend update is taken to succeed. */
    method MarkAsRead(id: string)
      modifies this
      ensures notifications == MarkRead(old(notifications), id)
      ensures isDemo == old(isDemo)
      ensures Unread() == old(Unread()) - UnreadWithId(old(notifications), id)
    {
      MarkReadUnreadCount(notifications, id);
      notifications := MarkRead(notifications, id);
    }

    /** `markAllAsRead()`; in real mode it returns early when nothing is unread. */
    method MarkAllAsRead()
      modifies this
      ensures notifications == MarkAllRead(old(notifications))
      ensures isDemo == old(isDemo)
      ensures Unread() == 0
      ensures old(Unread()) == 0 ==> notifications == old(notifications)
    {
      MarkAllReadClears(notifications);
      if isDemo {
        notifications := MarkAllRead(notifications);
        return;
      }
      if UnreadCount(notifications) == 0 {
        MarkAllReadWhenNoneUnread(notifications);
        return;
      }
      notifications := MarkAllRead(notifications);
    }

    /** `deleteNotification(id)`; in real mode the backend delete is taken to succeed. */
    method DeleteNotification(id: string)
      modifies this
      ensures notifications == RemoveId(old(notifications), id)
      ensures isDemo == old(isDemo)
    {
      notifications := RemoveId(notifications, id);
    }

    /** The realtime INSERT handler: the new row goes first, nothing is de-duplicated. */
    method ReceiveInsert(n: Notification)
      modifies this
      ensures notifications == Prepend(n, old(notifications))
      ensures isDemo == old(isDemo)
      ensures Unread() == old(Unread()) + (if n.isRead then 0 else 1)
    {
      PrependUnreadCount(n, notifications);
      notifications := Prepend(n, notifications);
    }
  }
}
