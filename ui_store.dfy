/**
 * The UI store: a global loading overlay flag and message, the sidebar's
 * open state persisted under one `localStorage` key, and the list of shown
 * notifications. Notifications are objects and the list finds them by
 * identity, so they are modelled as instances of a class.
 */
module UiStore {
  import opened Wrappers
  import opened Storage

  const SidebarKey: string := "sidebarOpen"
  const DefaultLoadingMessage: string := "로딩 중..."

  /** `NotificationPayload` */
  class Notification {
    const kind: string
    const message: string
    const caption: Option<string>
    const timeout: Option<int>

    constructor (kind: string, message: string, caption: Option<string>, timeout: Option<int>)
      ensures this.kind == kind && this.message == message && this.caption == caption && this.timeout == timeout
    {
      this.kind := kind;
      this.message := message;
      this.caption := caption;
      this.timeout := timeout;
    }
  }

  /** `String(b)` for a boolean. */
  function BoolText(b: bool): (t: string)
    ensures t == "true" <==> b
    ensures t == "true" || t == "false"
  {
    if b then "true" else "false"
  }

  /** The sidebar state `initSidebar` leaves: unchanged with nothing stored, else whether the stored text is 'true'. */
  function InitialSidebar(saved: Option<string>, current: bool): (open: bool)
    ensures saved.None? ==> open == current
    ensures saved.Some? ==> (open <==> saved.value == "true")
  {
    if saved.Some? then saved.value == "true" else current
  }

  /** What `toggleSidebar` and `setSidebarOpen` store is read back as the same state. */
  lemma SidebarRoundTrip(open: bool, current: bool)
    ensures InitialSidebar(Some(BoolText(open)), current) == open
  {
  }

  /** `list.indexOf(n)`: the first position holding this very object, or -1. */
  function IndexOf(ns: seq<Notification>, n: Notification): (i: int)
    ensures -1 <= i < |ns|
    ensures i == -1 <==> n !in ns
    ensures 0 <= i ==> ns[i] == n && forall j :: 0 <= j < i ==> ns[j] != n
  {
    if |ns| == 0 then -1
    else if ns[0] == n then 0
    else
      var k := IndexOf(ns[1..], n);
      if k == -1 then -1 else k + 1
  }

  /** The list with the first occurrence of `n` spliced out, or unchanged when `n` is absent. */
  function WithoutFirst(ns: seq<Notification>, n: Notification): seq<Notification> {
    var i := IndexOf(ns, n);
    if i < 0 then ns else ns[..i] + ns[i + 1..]
  }

  /** Removing takes out exactly one occurrence of a present notification and nothing else. */
  lemma WithoutFirstRemovesOne(ns: seq<Notification>, n: Notification)
    ensures n !in ns ==> WithoutFirst(ns, n) == ns
    ensures n in ns ==> |WithoutFirst(ns, n)| == |ns| - 1
    ensures multiset(WithoutFirst(ns, n)) == multiset(ns) - multiset{n}
  {
    var i := IndexOf(ns, n);
    if i >= 0 {
      assert ns == ns[..i] + [n] + ns[i + 1..];
      assert multiset(ns) == multiset(ns[..i]) + multiset{n} + multiset(ns[i + 1..]);
    } else {
      assert multiset(ns)[n] == 0;
    }
  }

  /** Adding a notification that was not shown and then removing it gives the list back. */
  lemma AddThenRemove(ns: seq<Notification>, n: Notification)
    requires n !in ns
    ensures WithoutFirst(ns + [n], n) == ns
  {
    assert IndexOf(ns + [n], n) == |ns| by {
      assert (ns + [n])[|ns|] == n;
      assert forall j :: 0 <= j < |ns| ==> (ns + [n])[j] == ns[j];
    }
    assert (ns + [n])[..|ns|] == ns;
  }

  class Store {
    var isLoading: bool
    var loadingMessage: string
    var sidebarOpen: bool
    var notifications: seq<Notification>
    const storage: LocalStorage

    constructor (storage: LocalStorage)
      ensures !isLoading && loadingMessage == "" && sidebarOpen && notifications == [] && this.storage == storage
    {
      isLoading := false;
      loadingMessage := "";
      sidebarOpen := true;
      notifications := [];
      this.storage := storage;
    }

    /** `showLoading(message = '로딩 중...')` */
    method ShowLoading(message: string := DefaultLoadingMessage)
      modifies this`isLoading, this`loadingMessage
      ensures isLoading && loadingMessage == message
    {
      isLoading := true;
      loadingMessage := message;
    }

    /** `hideLoading()` */
    method HideLoading()
      modifies this`isLoading, this`loadingMessage
      ensures !isLoading && loadingMessage == ""
    {
      isLoading := false;
      loadingMessage := "";
    }

    /** `toggleSidebar()`: flips the state and stores the new one. */
    method ToggleSidebar()
      modifies this`sidebarOpen, storage
      ensures sidebarOpen == !old(sidebarOpen)
      ensures storage.items == old(storage.items)[SidebarKey := BoolText(sidebarOpen)]
    {
      sidebarOpen := !sidebarOpen;
      storage.SetItem(SidebarKey, BoolText(sidebarOpen));
    }

    /** `setSidebarOpen(open)` */
    method SetSidebarOpen(open: bool)
      modifies this`sidebarOpen, storage
      ensures sidebarOpen == open
      ensures storage.items == old(storage.items)[SidebarKey := BoolText(open)]
    {
      sidebarOpen := open;
      storage.SetItem(SidebarKey, BoolText(open));
    }

    /** `initSidebar()` */
    method InitSidebar()
      modifies this`sidebarOpen
      ensures sidebarOpen == InitialSidebar(Lookup(storage.items, SidebarKey), old(sidebarOpen))
    {
      var saved := storage.GetItem(SidebarKey);
      if saved.Some? {
        sidebarOpen := saved.value == "true";
      }
    }

    /** `addNotification(n)`: appended at the end; the auto-remove timer is not modelled. */
    method AddNotification(n: Notification)
      modifies this`notifications
      ensures notifications == old(notifications) + [n]
    {
      notifications := notifications + [n];
    }

    /** `removeNotification(n)`: splices out the first occurrence, if any. */
    method RemoveNotification(n: Notification)
      modifies this`notifications
      ensures notifications == WithoutFirst(old(notifications), n)
    {
      var index := IndexOf(notifications, n);
      if index > -1 {
        notifications := notifications[..index] + notifications[index + 1..];
      }
    }

    /** `clearNotifications()` */
    method ClearNotifications()
      modifies this`notifications
      ensures notifications == []
    {
      notifications := [];
    }
  }
}
