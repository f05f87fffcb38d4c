/** The notifications page: a local copy of the notification list that the page changes
    after each successful backend update, the tab filter over it, the unread counter and the
    icon of each entry. Toasts are kept as the list of those shown. */
module NotificationsPage {
  import opened Records
  import opened Sequences
  import opened Backend

  /** The icons an entry can show (shape and colour). */
  datatype Icon = OrangeTriangle | YellowCircle | GreenCheck | RedCircle | BlueInfo

  /** `getNotificationIcon(type, category)`: the category decides first, then the type. */
  function IconFor(kind: string, category: string): (r: Icon)
  {
    if category == "alert" then OrangeTriangle
    else if category == "maintenance" then YellowCircle
    else if kind == "success" then GreenCheck
    else if kind == "warning" then OrangeTriangle
    else if kind == "error" then RedCircle
    else BlueInfo
  }

  /** Each icon, characterised by the entries that get it: alerts and warnings outside
      maintenance share the orange triangle, and the blue info icon is the default. */
  lemma IconCases(kind: string, category: string)
    ensures IconFor(kind, category) == OrangeTriangle
            <==> category == "alert" || (category != "maintenance" && kind == "warning")
    ensures IconFor(kind, category) == YellowCircle <==> category == "maintenance"
    ensures IconFor(kind, category) == GreenCheck
            <==> category != "alert" && category != "maintenance" && kind == "success"
    ensures IconFor(kind, category) == RedCircle
            <==> category != "alert" && category != "maintenance" && kind == "error"
    ensures IconFor(kind, category) == BlueInfo
            <==> category != "alert" && category != "maintenance"
                 && kind != "success" && kind != "warning" && kind != "error"
  {
  }

  /** Whether tab `tab` shows entry `n`. */
  predicate Shows(tab: string, n: Notification)
  {
    if tab == "unread" then !n.read
    else if tab == "alerts" then n.category == "alert"
    else if tab == "maintenance" then n.category == "maintenance"
    else if tab == "reports" then n.category == "report"
    else true
  }

  /** `filteredNotifications`. */
  function Filtered(ns: seq<Notification>, tab: string): seq<Notification>
  {
    Filter(ns, n => Shows(tab, n))
  }

  /** Each tab keeps exactly its entries: the unread ones, or those of category "alert",
      "maintenance" or "report"; any other tab keeps the whole list. */
  lemma FilteredExactly(ns: seq<Notification>, tab: string, n: Notification)
    ensures tab == "unread" ==> (n in Filtered(ns, tab) <==> n in ns && !n.read)
    ensures tab == "alerts" ==> (n in Filtered(ns, tab) <==> n in ns && n.category == "alert")
    ensures tab == "maintenance" ==>
              (n in Filtered(ns, tab) <==> n in ns && n.category == "maintenance")
    ensures tab == "reports" ==> (n in Filtered(ns, tab) <==> n in ns && n.category == "report")
    ensures tab !in {"unread", "alerts", "maintenance", "reports"} ==> Filtered(ns, tab) == ns
  {
    FilterMembers(ns, m => Shows(tab, m), n);
    if tab !in {"unread", "alerts", "maintenance", "reports"} {
      FilterAll(ns, m => Shows(tab, m));
    }
  }

  /** Every tab shows entries of the list, in the list's order. */
  lemma FilteredInOrder(ns: seq<Notification>, tab: string)
    ensures IsSubsequence(Filtered(ns, tab), ns)
  {
    FilterIsSubsequence(ns, m => Shows(tab, m));
  }

  /** `unreadCount`. */
  function UnreadCount(ns: seq<Notification>): nat
  {
    Count(ns, Unread)
  }

  /** "Marcar todas como lidas" is disabled exactly when every entry is read. */
  lemma MarkAllDisabledIff(ns: seq<Notification>)
    ensures UnreadCount(ns) == 0 <==> forall i :: 0 <= i < |ns| ==> ns[i].read
  {
    if UnreadCount(ns) == 0 {
      forall i | 0 <= i < |ns| ensures ns[i].read {
        if !ns[i].read {
          FilterMembers(ns, Unread, ns[i]);
        }
      }
    } else {
      var u := Filter(ns, Unread);
      FilterMembers(ns, Unread, u[0]);
    }
  }

  predicate HasId(id: nat, n: Notification) { n.id == id }

  /** The list after `markAsRead(id)`. */
  function MarkRead(ns: seq<Notification>, id: nat): seq<Notification>
  {
    SetRead(ns, n => HasId(id, n))
  }

  /** Marking one entry read touches only the entries with that id, keeps the order, and
      doing it twice is doing it once. */
  lemma MarkReadEffect(ns: seq<Notification>, id: nat)
    ensures |MarkRead(ns, id)| == |ns|
    ensures forall i :: 0 <= i < |ns| ==>
              MarkRead(ns, id)[i] == if ns[i].id == id then ns[i].(read := true) else ns[i]
    ensures MarkRead(MarkRead(ns, id), id) == MarkRead(ns, id)
  {
    var once := MarkRead(ns, id);
    var twice := MarkRead(once, id);
    forall i | 0 <= i < |ns| ensures twice[i] == once[i] {
      if ns[i].id == id {
        assert once[i] == ns[i].(read := true);
        assert twice[i] == once[i].(read := true);
      }
    }
  }

  /** After "mark all as read" nothing is unread, and the entries keep their order and
      everything but the flag. */
  lemma MarkAllEffect(ns: seq<Notification>)
    ensures |SetRead(ns, AnyRow)| == |ns|
    ensures forall i :: 0 <= i < |ns| ==> SetRead(ns, AnyRow)[i] == ns[i].(read := true)
    ensures UnreadCount(SetRead(ns, AnyRow)) == 0
  {
    var r := SetRead(ns, AnyRow);
    MarkAllDisabledIff(r);
  }

  /** Deleting removes every entry with the id and keeps the others, in order. */
  lemma DeleteEffect(ns: seq<Notification>, id: nat, n: Notification)
    ensures n in WithoutId(ns, id) <==> n in ns && n.id != id
    ensures IsSubsequence(WithoutId(ns, id), ns)
  {
    FilterMembers(ns, (m: Notification) => m.id != id, n);
    FilterIsSubsequence(ns, (m: Notification) => m.id != id);
  }

  class Page {
    var notifications: seq<Notification>
    var isLoading: bool
    var filter: string
    var toasts: seq<Toast>

    constructor ()
      ensures notifications == [] && isLoading && filter == "all" && toasts == []
    {
      notifications, isLoading, filter, toasts := [], true, "all", [];
    }

    /** `fetchNotifications`: the table's rows newest first (rows are stored in creation
        order); an error or an exception leaves the list as it was. */
    method Fetch(store: Store, outcome: Outcome)
      modifies this`notifications, this`isLoading
      ensures notifications == if outcome.Answered? then Reverse(store.notifications)
                               else old(notifications)
      ensures !isLoading
    {
      if outcome.Answered? {
        notifications := Reverse(store.notifications);
      }
      isLoading := false;
    }

    /** `markAsRead`: the backend row, then the local entry; on an error neither changes. */
    method MarkAsRead(store: Store, id: nat, outcome: Outcome)
      requires store.Valid()
      modifies this`notifications, store`notifications
      ensures store.Valid()
      ensures notifications == if outcome.Answered? then MarkRead(old(notifications), id)
                               else old(notifications)
      ensures store.notifications == if outcome.Answered? then MarkRead(old(store.notifications), id)
                                     else old(store.notifications)
    {
      store.UpdateRead(n => HasId(id, n), outcome);
      if outcome.Answered? {
        notifications := MarkRead(notifications, id);
      }
    }

    /** `deleteNotification`: the backend row, then the local entries, then a toast; on an
        error only the error toast. */
    method DeleteNotification(store: Store, id: nat, outcome: Outcome)
      requires store.Valid()
      modifies this`notifications, this`toasts, store`notifications
      ensures store.Valid()
      ensures notifications == if outcome.Answered? then WithoutId(old(notifications), id)
                               else old(notifications)
      ensures store.notifications == if outcome.Answered? then WithoutId(old(store.notifications), id)
                                     else old(store.notifications)
      ensures toasts == old(toasts) + [if outcome.Answered? then
        Toast("Notificação excluída", "A notificação foi excluída com sucesso.", false)
        else Toast("Erro", "Erro ao excluir notificação.", true)]
    {
      store.DeleteNotification(id, outcome);
      if outcome.Answered? {
        notifications := WithoutId(notifications, id);
        toasts := toasts + [Toast("Notificação excluída", "A notificação foi excluída com sucesso.", false)];
      } else {
        toasts := toasts + [Toast("Erro", "Erro ao excluir notificação.", true)];
      }
    }

    /** `markAllAsRead`: the backend marks every unread row of the table (no user filter),
        the page marks every local entry; on an error nothing changes and no toast shows. */
    method MarkAllAsRead(store: Store, outcome: Outcome)
      requires store.Valid()
      modifies this`notifications, this`toasts, store`notifications
      ensures store.Valid()
      ensures notifications == if outcome.Answered? then SetRead(old(notifications), AnyRow)
                               else old(notifications)
      ensures store.notifications == if outcome.Answered? then SetRead(old(store.notifications), Unread)
                                     else old(store.notifications)
      ensures toasts == old(toasts) + if outcome.Answered? then
        [Toast("Notificações marcadas como lidas", "Todas as notificações foram marcadas como lidas.", false)]
        else []
    {
      store.UpdateRead(Unread, outcome);
      if outcome.Answered? {
        notifications := SetRead(notifications, AnyRow);
        toasts := toasts + [Toast("Notificações marcadas como lidas",
                                  "Todas as notificações foram marcadas como lidas.", false)];
      }
    }

    method SetFilter(tab: string)
      modifies this`filter
      ensures filter == tab
    {
      filter := tab;
    }
  }
}
