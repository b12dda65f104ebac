/** The notification list kept in the client's component state and the
    operations that replace it with a new list (App.tsx, "Notification
    functions"). Every operation is a map or a filter over the list; the most
    recent notification is at the front. */
module NotificationStore {
  import opened Wrappers
  import opened Domain
  import Text

  /** `Math.max(0, ...notifications.map(n => n.id))`. */
  function MaxId(ns: seq<Notification>): (m: int)
    ensures m >= 0
    ensures forall i :: 0 <= i < |ns| ==> ns[i].id <= m
    ensures m == 0 || exists i :: 0 <= i < |ns| && ns[i].id == m
  {
    if ns == [] then 0
    else
      var rest := MaxId(ns[1..]);
      if ns[0].id > rest then ns[0].id else rest
  }

  /** The id `createNotification` gives the next record. */
  function NextId(ns: seq<Notification>): (id: int)
    ensures id >= 1
    ensures forall i :: 0 <= i < |ns| ==> ns[i].id < id
  {
    MaxId(ns) + 1
  }

  function Stamp(d: Draft, id: int, createdAt: int): (n: Notification)
    ensures n.id == id && n.createdAt == createdAt
    ensures n.title == d.title && n.message == d.message && n.kind == d.kind
    ensures n.priority == d.priority && n.read == d.read && n.taskId == d.taskId
    ensures n.propertyId == d.propertyId && n.scheduledFor == d.scheduledFor
    ensures n.actionUrl == d.actionUrl
  {
    Notification(id, d.title, d.message, d.kind, d.priority, d.read, d.taskId, d.propertyId,
                 createdAt, d.scheduledFor, d.actionUrl)
  }

  /** `createNotification` on its own: the draft, stamped with an id above every
      existing id and the creation time, goes to the front of the list. */
  function Create(ns: seq<Notification>, d: Draft, now: int): (r: seq<Notification>)
    ensures |r| == |ns| + 1
    ensures r[1..] == ns
    ensures r[0] == Stamp(d, NextId(ns), now)
    ensures forall i :: 0 <= i < |ns| ==> ns[i].id < r[0].id
  {
    [Stamp(d, NextId(ns), now)] + ns
  }

  /** `markNotificationAsRead`. */
  function MarkRead(ns: seq<Notification>, id: int): (r: seq<Notification>)
    ensures |r| == |ns|
    ensures forall i :: 0 <= i < |ns| && ns[i].id == id ==> r[i] == ns[i].(read := true)
    ensures forall i :: 0 <= i < |ns| && ns[i].id != id ==> r[i] == ns[i]
  {
    if ns == [] then []
    else [if ns[0].id == id then ns[0].(read := true) else ns[0]] + MarkRead(ns[1..], id)
  }

  /** `markAllNotificationsAsRead`. */
  function MarkAllRead(ns: seq<Notification>): (r: seq<Notification>)
    ensures |r| == |ns|
    ensures forall i :: 0 <= i < |ns| ==> r[i] == ns[i].(read := true)
  {
    if ns == [] then [] else [ns[0].(read := true)] + MarkAllRead(ns[1..])
  }

  /** `deleteNotification`: keeps, in order, the records whose id differs. */
  function Delete(ns: seq<Notification>, id: int): (r: seq<Notification>)
    ensures |r| <= |ns|
    ensures forall n :: n in r <==> n in ns && n.id != id
  {
    if ns == [] then []
    else if ns[0].id == id then Delete(ns[1..], id)
    else [ns[0]] + Delete(ns[1..], id)
  }

  /** `clearAllNotifications`. */
  function ClearAll(ns: seq<Notification>): (r: seq<Notification>)
    ensures |r| == 0
  {
    []
  }

  /** `notifications.filter(n => !n.read)`. */
  function Unread(ns: seq<Notification>): (r: seq<Notification>)
    ensures forall n :: n in r <==> n in ns && !n.read
  {
    if ns == [] then []
    else if !ns[0].read then [ns[0]] + Unread(ns[1..])
    else Unread(ns[1..])
  }

  /** `getUnreadNotificationCount`. */
  function UnreadCount(ns: seq<Notification>): (c: nat)
  {
    |Unread(ns)|
  }

  /** The number of records carrying `id` that are still unread. */
  function UnreadWithId(ns: seq<Notification>, id: int): nat {
    if ns == [] then 0
    else (if ns[0].id == id && !ns[0].read then 1 else 0) + UnreadWithId(ns[1..], id)
  }

  predicate HasId(ns: seq<Notification>, id: int) {
    exists i :: 0 <= i < |ns| && ns[i].id == id
  }

  /** Ids are distinct: what `createNotification` maintains when called once per render. */
  predicate DistinctIds(ns: seq<Notification>) {
    forall i, j :: 0 <= i < j < |ns| ==> ns[i].id != ns[j].id
  }

  lemma CreateKeepsIdsDistinct(ns: seq<Notification>, d: Draft, now: int)
    requires DistinctIds(ns)
    ensures DistinctIds(Create(ns, d, now))
  {
    var r := Create(ns, d, now);
    forall i, j | 0 <= i < j < |r| ensures r[i].id != r[j].id {
      if i == 0 {
        assert r[j] == ns[j - 1];
      } else {
        assert r[i] == ns[i - 1] && r[j] == ns[j - 1];
      }
    }
  }

  lemma {:induction false} UnreadCountBounded(ns: seq<Notification>)
    ensures UnreadCount(ns) <= |ns|
    ensures UnreadCount(ns) == |ns| <==> forall i :: 0 <= i < |ns| ==> !ns[i].read
  {
    if ns != [] {
      UnreadCountBounded(ns[1..]);
      assert forall i :: 1 <= i < |ns| ==> ns[i] == ns[1..][i - 1];
    }
  }

  lemma {:induction false} CreateUnreadCount(ns: seq<Notification>, d: Draft, now: int)
    ensures UnreadCount(Create(ns, d, now)) == UnreadCount(ns) + (if d.read then 0 else 1)
  {
    var r := Create(ns, d, now);
    assert r[1..] == ns;
  }

  /** Marking one id read lowers the badge by exactly the unread records with that id. */
  lemma {:induction false} MarkReadUnreadCount(ns: seq<Notification>, id: int)
    ensures UnreadCount(MarkRead(ns, id)) == UnreadCount(ns) - UnreadWithId(ns, id)
  {
    if ns != [] {
      MarkReadUnreadCount(ns[1..], id);
      var r := MarkRead(ns, id);
      assert r[1..] == MarkRead(ns[1..], id);
    }
  }

  /** Deleting one id lowers the badge by exactly the unread records with that id. */
  lemma {:induction false} DeleteUnreadCount(ns: seq<Notification>, id: int)
    ensures UnreadCount(Delete(ns, id)) == UnreadCount(ns) - UnreadWithId(ns, id)
  {
    if ns != [] {
      DeleteUnreadCount(ns[1..], id);
    }
  }

  lemma {:induction false} UnreadWithUnknownId(ns: seq<Notification>, id: int)
    requires !HasId(ns, id)
    ensures UnreadWithId(ns, id) == 0
  {
    if ns != [] {
      assert !HasId(ns[1..], id) by {
        forall i | 0 <= i < |ns[1..]| ensures ns[1..][i].id != id {
          assert ns[1..][i] == ns[i + 1];
        }
      }
      UnreadWithUnknownId(ns[1..], id);
    }
  }

  /** An unknown id is a no-op for both `markNotificationAsRead` and `deleteNotification`. */
  lemma {:induction false} UnknownIdIsNoOp(ns: seq<Notification>, id: int)
    requires !HasId(ns, id)
    ensures MarkRead(ns, id) == ns
    ensures Delete(ns, id) == ns
  {
    if ns != [] {
      assert ns[0].id != id;
      assert !HasId(ns[1..], id) by {
        forall i | 0 <= i < |ns[1..]| ensures ns[1..][i].id != id {
          assert ns[1..][i] == ns[i + 1];
        }
      }
      UnknownIdIsNoOp(ns[1..], id);
      assert ns == [ns[0]] + ns[1..];
    }
  }

  /** `filter` keeps order: deleting from a concatenation deletes from each
      part, and a single record survives iff its id differs. */
  lemma {:induction false} DeleteAppend(a: seq<Notification>, b: seq<Notification>, id: int)
    ensures Delete(a + b, id) == Delete(a, id) + Delete(b, id)
    ensures forall n :: Delete([n], id) == if n.id == id then [] else [n]
  {
    if a != [] {
      assert (a + b)[1..] == a[1..] + b by {}
      DeleteAppend(a[1..], b, id);
    } else {
      assert a + b == b by {}
    }
    forall n ensures Delete([n], id) == if n.id == id then [] else [n] {
    }
  }

  /** After `delete(id)` no record carries `id`, and exactly the records
      carrying it are gone (their order is `DeleteAppend`). */
  lemma {:induction false} DeleteRemovesExactly(ns: seq<Notification>, id: int)
    ensures !HasId(Delete(ns, id), id)
    ensures |Delete(ns, id)| == |ns| - CountId(ns, id)
  {
    var r := Delete(ns, id);
    if ns != [] {
      DeleteRemovesExactly(ns[1..], id);
    }
    forall i | 0 <= i < |r| ensures r[i].id != id {
      assert r[i] in r;
    }
  }

  function CountId(ns: seq<Notification>, id: int): nat {
    if ns == [] then 0 else (if ns[0].id == id then 1 else 0) + CountId(ns[1..], id)
  }

  lemma {:induction false} MarkAllReadClearsBadge(ns: seq<Notification>)
    ensures UnreadCount(MarkAllRead(ns)) == 0
  {
    NoUnreadWhenAllRead(MarkAllRead(ns));
  }

  lemma {:induction false} NoUnreadWhenAllRead(ns: seq<Notification>)
    requires forall i :: 0 <= i < |ns| ==> ns[i].read
    ensures Unread(ns) == []
  {
    if ns != [] {
      assert ns[0].read;
      assert forall i :: 0 <= i < |ns[1..]| ==> ns[1..][i] == ns[i + 1];
      NoUnreadWhenAllRead(ns[1..]);
    }
  }

  lemma ClearAllClearsBadge(ns: seq<Notification>)
    ensures UnreadCount(ClearAll(ns)) == 0
  {
  }

  /** Marking read twice is marking read once. */
  lemma MarkReadIdempotent(ns: seq<Notification>, id: int)
    ensures MarkRead(MarkRead(ns, id), id) == MarkRead(ns, id)
  {
  }

  /** The native notification built by `showBrowserNotification`, reduced to
      the choices the client makes: the coalescing tag, whether it stays until
      the user acts, and whether it closes itself after five seconds. */
  datatype NativeOptions = NativeOptions(tag: string, requireInteraction: bool, autoCloseMs: Option<int>)

  function BrowserOptions(n: Notification): (o: NativeOptions)
    ensures |o.tag| > |"homegenie-"| && o.tag[..|"homegenie-"|] == "homegenie-"
    ensures Text.ParseInt(o.tag[|"homegenie-"|..]) == n.id
    ensures o.requireInteraction <==> n.priority == High
    ensures o.autoCloseMs.Some? <==> !o.requireInteraction
    ensures o.autoCloseMs.Some? ==> o.autoCloseMs.value == 5000
  {
    var tag := "homegenie-" + Text.IntToString(n.id);
    assert tag[|"homegenie-"|..] == Text.IntToString(n.id);
    Text.IntToStringRoundTrip(n.id);
    NativeOptions(tag, n.priority == High, if n.priority != High then Some(5000) else None)
  }

  /** The platform replaces a shown notification by a new one with the same
      tag: two notifications coalesce exactly when their ids are equal. */
  lemma TagsCoalesceIffSameId(m: Notification, n: Notification)
    ensures BrowserOptions(m).tag == BrowserOptions(n).tag <==> m.id == n.id
  {
    var p := "homegenie-";
    if BrowserOptions(m).tag == BrowserOptions(n).tag {
      assert BrowserOptions(m).tag[|p|..] == BrowserOptions(n).tag[|p|..];
    }
  }

  /** `createNotification` shows a native notification only when push is on
      and the platform granted permission; quiet hours are not consulted. */
  function ShowsNative(settings: NotificationSettings, permissionGranted: bool): (b: bool)
    ensures b ==> settings.pushNotifications
    ensures b ==> permissionGranted
    ensures settings.pushNotifications && permissionGranted ==> b
  {
    settings.pushNotifications && permissionGranted
  }

  /** Quiet hours and the per-channel switches other than push leave the
      decision unchanged: a notification created at three in the morning
      inside the configured quiet window still pops up natively. */
  lemma ShowsNativeIgnoresQuietHours(settings: NotificationSettings, other: NotificationSettings, permissionGranted: bool)
    requires other.pushNotifications == settings.pushNotifications
    ensures ShowsNative(other, permissionGranted) == ShowsNative(settings, permissionGranted)
  {
  }

  /** Newest first: no notification precedes a newer one. */
  predicate NewestFirstOrder(s: seq<Notification>) {
    forall k, l :: 0 <= k < l < |s| ==> s[k].createdAt >= s[l].createdAt
  }

  /** The notifications created at time `c`, in list order. */
  function SameTime(s: seq<Notification>, c: int): (r: seq<Notification>)
    ensures |r| <= |s|
  {
    if s == [] then [] else (if s[0].createdAt == c then [s[0]] else []) + SameTime(s[1..], c)
  }

  /** `t` lists the notifications of every creation time in the order `s`
      lists them: what a stable sort keeps. */
  ghost predicate SameTies(s: seq<Notification>, t: seq<Notification>) {
    forall c :: SameTime(s, c) == SameTime(t, c)
  }

  lemma {:induction false} SameTimeAppend(x: seq<Notification>, y: seq<Notification>, c: int)
    ensures SameTime(x + y, c) == SameTime(x, c) + SameTime(y, c)
  {
    if x == [] {
      assert x + y == y;
    } else {
      var head := if x[0].createdAt == c then [x[0]] else [];
      assert (x + y)[0] == x[0];
      assert (x + y)[1..] == x[1..] + y;
      calc {
        SameTime(x + y, c);
        head + SameTime(x[1..] + y, c);
        { SameTimeAppend(x[1..], y, c); }
        head + (SameTime(x[1..], c) + SameTime(y, c));
        (head + SameTime(x[1..], c)) + SameTime(y, c);
        SameTime(x, c) + SameTime(y, c);
      }
    }
  }

  /** Exchanging two neighbours created at different times keeps the order
      within every creation time. */
  lemma SameTimeSwap(s: seq<Notification>, j: int, c: int)
    requires 0 < j < |s| && s[j - 1].createdAt != s[j].createdAt
    ensures SameTime(s[j - 1 := s[j]][j := s[j - 1]], c) == SameTime(s, c)
  {
    var pre, post := s[..j - 1], s[j + 1..];
    assert s == pre + [s[j - 1], s[j]] + post;
    assert s[j - 1 := s[j]][j := s[j - 1]] == pre + [s[j], s[j - 1]] + post;
    SameTimeAppend(pre + [s[j - 1], s[j]], post, c);
    SameTimeAppend(pre, [s[j - 1], s[j]], c);
    SameTimeAppend(pre + [s[j], s[j - 1]], post, c);
    SameTimeAppend(pre, [s[j], s[j - 1]], c);
    SameTimeAppend([s[j - 1]], [s[j]], c);
    SameTimeAppend([s[j]], [s[j - 1]], c);
    assert [s[j - 1], s[j]] == [s[j - 1]] + [s[j]];
    assert [s[j], s[j - 1]] == [s[j]] + [s[j - 1]];
  }

  /** The notification panel sorts the state array in place, newest first
      (`notifications.sort` with the comparator `b.createdAt - a.createdAt`):
      an insertion sort that only swaps strictly out-of-order neighbours, so
      that, like `Array.prototype.sort`, it is stable. */
  method SortNewestFirst(a: array<Notification>)
    modifies a
    ensures NewestFirstOrder(a[..])
    ensures multiset(a[..]) == multiset(old(a[..]))
    ensures SameTies(a[..], old(a[..]))
  {
    if a.Length == 0 {
      return;
    }
    var i := 1;
    while i < a.Length
      invariant 1 <= i <= a.Length
      invariant NewestFirstOrder(a[..i])
      invariant multiset(a[..]) == multiset(old(a[..]))
      invariant SameTies(a[..], old(a[..]))
    {
      InsertDown(a, i);
      i := i + 1;
    }
    assert a[..] == a[..a.Length];
  }

  /** One insertion step: the notification at `i` moves left past every
      strictly older one, so that the first `i + 1` are newest first. */
  method InsertDown(a: array<Notification>, i: int)
    requires 0 < i < a.Length
    requires NewestFirstOrder(a[..i])
    modifies a
    ensures NewestFirstOrder(a[..i + 1])
    ensures multiset(a[..]) == multiset(old(a[..]))
    ensures SameTies(a[..], old(a[..]))
    ensures a[i + 1..] == old(a[i + 1..])
  {
    var j := i;
    while j > 0 && a[j - 1].createdAt < a[j].createdAt
      invariant 0 <= j <= i
      invariant forall k, l :: 0 <= k < l <= i && k != j && l != j ==> a[k].createdAt >= a[l].createdAt
      invariant forall l :: j < l <= i ==> a[j].createdAt > a[l].createdAt
      invariant multiset(a[..]) == multiset(old(a[..]))
      invariant SameTies(a[..], old(a[..]))
      invariant forall k :: i < k < a.Length ==> a[k] == old(a[k])
    {
      SwapDown(a, j);
      j := j - 1;
    }
    assert a[i + 1..] == old(a[i + 1..]);
  }

  /** Exchanges the notification at `j` with its strictly older left neighbour. */
  method SwapDown(a: array<Notification>, j: int)
    requires 0 < j < a.Length && a[j - 1].createdAt < a[j].createdAt
    modifies a
    ensures a[j - 1] == old(a[j]) && a[j] == old(a[j - 1])
    ensures forall k :: 0 <= k < a.Length && k != j - 1 && k != j ==> a[k] == old(a[k])
    ensures multiset(a[..]) == multiset(old(a[..]))
    ensures SameTies(a[..], old(a[..]))
  {
    a[j - 1], a[j] := a[j], a[j - 1];
    assert a[..] == old(a[..])[j - 1 := old(a[j])][j := old(a[j - 1])];
    forall c ensures SameTime(a[..], c) == SameTime(old(a[..]), c) {
      SameTimeSwap(old(a[..]), j, c);
    }
  }
}
