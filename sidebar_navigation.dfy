/**
 * The desktop sidebar (app/soapbox/components/sidebar-navigation.tsx): the
 * "More" menu built from the account and the instance's features, the messages
 * link, and the dropdown's presence.
 */
module SidebarNavigation {
  import opened Wrappers
  import opened ChatCounts

  datatype Account = Account(locked: bool, staff: bool)

  /** The instance features the sidebar consults. */
  datatype Features = Features(
    bookmarks: bool,
    lists: bool,
    publicTimeline: bool,
    federating: bool,
    chats: bool,
    directTimeline: bool,
    conversations: bool)

  /**
   * A menu entry; `Separator` is the `null` entry. The local-timeline entry
   * shows the instance title and the users icon on a federating instance,
   * "All" and the world icon otherwise.
   */
  datatype MenuItem =
    | FollowRequests(count: nat)
    | Bookmarks
    | Lists
    | Developers
    | Dashboard(count: nat)
    | Separator
    | LocalTimeline(federating: bool)
    | Fediverse

  /** The fixed position of each kind of entry in the menu. */
  function Rank(item: MenuItem): nat {
    match item
    case FollowRequests(_) => 0
    case Bookmarks => 1
    case Lists => 2
    case Developers => 3
    case Dashboard(_) => 4
    case Separator => 5
    case LocalTimeline(_) => 6
    case Fediverse => 7
  }

  /** The condition under which the menu, and so the "More" dropdown, is non-empty. */
  predicate MenuNonEmpty(account: Option<Account>, features: Features, isDeveloper: bool, followRequestsCount: nat) {
    || features.publicTimeline
    || (account.Some? && (account.value.locked || followRequestsCount > 0 || features.bookmarks
                          || features.lists || isDeveloper || account.value.staff))
  }

  /** A single entry when `cond` holds, nothing otherwise. */
  function Opt(cond: bool, item: MenuItem): seq<MenuItem> {
    if cond then [item] else []
  }

  /** The entries `makeMenu` pushes while an account is signed in. */
  function AccountEntries(account: Account, features: Features, isDeveloper: bool,
                          followRequestsCount: nat, dashboardCount: nat): seq<MenuItem> {
    Opt(account.locked || followRequestsCount > 0, FollowRequests(followRequestsCount))
    + Opt(features.bookmarks, Bookmarks)
    + Opt(features.lists, Lists)
    + Opt(isDeveloper, Developers)
    + Opt(account.staff, Dashboard(dashboardCount))
    + Opt(features.publicTimeline, Separator)
  }

  /** The menu `makeMenu` returns. */
  function Menu(account: Option<Account>, features: Features, isDeveloper: bool,
                followRequestsCount: nat, dashboardCount: nat): seq<MenuItem> {
    (if account.Some? then AccountEntries(account.value, features, isDeveloper, followRequestsCount, dashboardCount) else [])
    + Opt(features.publicTimeline, LocalTimeline(features.federating))
    + Opt(features.publicTimeline && features.federating, Fediverse)
  }

  /** `makeMenu`: the entries pushed one by one onto an empty menu. */
  method MakeMenu(account: Option<Account>, features: Features, isDeveloper: bool,
                  followRequestsCount: nat, dashboardCount: nat) returns (menu: seq<MenuItem>)
    ensures menu == Menu(account, features, isDeveloper, followRequestsCount, dashboardCount)
  {
    menu := [];

    if account.Some? {
      var a := account.value;
      if a.locked || followRequestsCount > 0 {
        menu := menu + [FollowRequests(followRequestsCount)];
      }
      assert menu == Opt(a.locked || followRequestsCount > 0, FollowRequests(followRequestsCount));
      ghost var m1 := menu;
      if features.bookmarks {
        menu := menu + [Bookmarks];
      }
      assert menu == m1 + Opt(features.bookmarks, Bookmarks);
      ghost var m2 := menu;
      if features.lists {
        menu := menu + [Lists];
      }
      assert menu == m2 + Opt(features.lists, Lists);
      ghost var m3 := menu;
      if isDeveloper {
        menu := menu + [Developers];
      }
      assert menu == m3 + Opt(isDeveloper, Developers);
      ghost var m4 := menu;
      if a.staff {
        menu := menu + [Dashboard(dashboardCount)];
      }
      assert menu == m4 + Opt(a.staff, Dashboard(dashboardCount));
      ghost var m5 := menu;
      if features.publicTimeline {
        menu := menu + [Separator];
      }
      assert menu == m5 + Opt(features.publicTimeline, Separator);
    }
    ghost var head := menu;
    assert head == if account.Some? then AccountEntries(account.value, features, isDeveloper, followRequestsCount, dashboardCount) else [];

    if features.publicTimeline {
      menu := menu + [LocalTimeline(features.federating)];
    }
    assert menu == head + Opt(features.publicTimeline, LocalTimeline(features.federating));
    ghost var m6 := menu;

    if features.publicTimeline && features.federating {
      menu := menu + [Fediverse];
    }
    assert menu == m6 + Opt(features.publicTimeline && features.federating, Fediverse);
  }

  predicate Ordered(menu: seq<MenuItem>) {
    forall i, j :: 0 <= i < j < |menu| ==> Rank(menu[i]) < Rank(menu[j])
  }

  lemma OrderedConcat(a: seq<MenuItem>, b: seq<MenuItem>)
    requires Ordered(a) && Ordered(b)
    requires forall i, j :: 0 <= i < |a| && 0 <= j < |b| ==> Rank(a[i]) < Rank(b[j])
    ensures Ordered(a + b)
  {
    forall i, j | 0 <= i < j < |a + b| ensures Rank((a + b)[i]) < Rank((a + b)[j]) {
      if j < |a| {
      } else if i >= |a| {
        assert (a + b)[i] == b[i - |a|] && (a + b)[j] == b[j - |a|];
      } else {
        assert (a + b)[j] == b[j - |a|];
      }
    }
  }

  /** Every entry of the menu ranks strictly between `lo` and `hi`. */
  predicate RanksWithin(s: seq<MenuItem>, lo: int, hi: int) {
    forall i :: 0 <= i < |s| ==> lo < Rank(s[i]) < hi
  }

  lemma OrderedAppendOpt(a: seq<MenuItem>, cond: bool, item: MenuItem)
    requires Ordered(a) && RanksWithin(a, -1, Rank(item))
    ensures Ordered(a + Opt(cond, item)) && RanksWithin(a + Opt(cond, item), -1, Rank(item) + 1)
  {
    OrderedConcat(a, Opt(cond, item));
  }

  /** The signed-in entries appear in the fixed order and all rank before the timelines. */
  lemma AccountEntriesOrdered(a: Account, features: Features, isDeveloper: bool,
                              followRequestsCount: nat, dashboardCount: nat)
    ensures var e := AccountEntries(a, features, isDeveloper, followRequestsCount, dashboardCount);
            Ordered(e) && RanksWithin(e, -1, 6)
  {
    var e1 := Opt(a.locked || followRequestsCount > 0, FollowRequests(followRequestsCount));
    var e2 := e1 + Opt(features.bookmarks, Bookmarks);
    var e3 := e2 + Opt(features.lists, Lists);
    var e4 := e3 + Opt(isDeveloper, Developers);
    var e5 := e4 + Opt(a.staff, Dashboard(dashboardCount));
    assert Ordered(e5) && RanksWithin(e5, -1, 5) by {
      assert Ordered(e4) && RanksWithin(e4, -1, 4) by {
        assert Ordered(e3) && RanksWithin(e3, -1, 3) by {
          assert Ordered(e2) && RanksWithin(e2, -1, 2) by {
            OrderedAppendOpt(e1, features.bookmarks, Bookmarks);
          }
          OrderedAppendOpt(e2, features.lists, Lists);
        }
        OrderedAppendOpt(e3, isDeveloper, Developers);
      }
      OrderedAppendOpt(e4, a.staff, Dashboard(dashboardCount));
    }
    OrderedAppendOpt(e5, features.publicTimeline, Separator);
  }

  /** Entries appear in the fixed order, each kind at most once. */
  lemma MenuOrdered(account: Option<Account>, features: Features, isDeveloper: bool,
                    followRequestsCount: nat, dashboardCount: nat)
    ensures Ordered(Menu(account, features, isDeveloper, followRequestsCount, dashboardCount))
  {
    var head := if account.Some? then AccountEntries(account.value, features, isDeveloper, followRequestsCount, dashboardCount) else [];
    if account.Some? {
      AccountEntriesOrdered(account.value, features, isDeveloper, followRequestsCount, dashboardCount);
    }
    var m1 := head + Opt(features.publicTimeline, LocalTimeline(features.federating));
    OrderedAppendOpt(head, features.publicTimeline, LocalTimeline(features.federating));
    OrderedAppendOpt(m1, features.publicTimeline && features.federating, Fediverse);
  }

  lemma InOpt(a: seq<MenuItem>, cond: bool, item: MenuItem, x: MenuItem)
    ensures x in a + Opt(cond, item) <==> x in a || (cond && x == item)
  {
  }

  /** Which entries the signed-in part of the menu holds. */
  lemma AccountEntriesMembership(a: Account, features: Features, isDeveloper: bool,
                                 followRequestsCount: nat, dashboardCount: nat, x: MenuItem)
    ensures x in AccountEntries(a, features, isDeveloper, followRequestsCount, dashboardCount) <==>
      || (x == FollowRequests(followRequestsCount) && (a.locked || followRequestsCount > 0))
      || (x == Bookmarks && features.bookmarks)
      || (x == Lists && features.lists)
      || (x == Developers && isDeveloper)
      || (x == Dashboard(dashboardCount) && a.staff)
      || (x == Separator && features.publicTimeline)
  {
    var e1 := Opt(a.locked || followRequestsCount > 0, FollowRequests(followRequestsCount));
    var e2 := e1 + Opt(features.bookmarks, Bookmarks);
    InOpt(e1, features.bookmarks, Bookmarks, x);
    var e3 := e2 + Opt(features.lists, Lists);
    InOpt(e2, features.lists, Lists, x);
    var e4 := e3 + Opt(isDeveloper, Developers);
    InOpt(e3, isDeveloper, Developers, x);
    var e5 := e4 + Opt(a.staff, Dashboard(dashboardCount));
    InOpt(e4, a.staff, Dashboard(dashboardCount), x);
    InOpt(e5, features.publicTimeline, Separator, x);
    assert e5 + Opt(features.publicTimeline, Separator) == AccountEntries(a, features, isDeveloper, followRequestsCount, dashboardCount);
  }

  /** Which entries the menu holds, in terms of the account, the features and the counts. */
  lemma MenuMembership(account: Option<Account>, features: Features, isDeveloper: bool,
                       followRequestsCount: nat, dashboardCount: nat, x: MenuItem)
    ensures x in Menu(account, features, isDeveloper, followRequestsCount, dashboardCount) <==>
      || (account.Some? && x == FollowRequests(followRequestsCount) && (account.value.locked || followRequestsCount > 0))
      || (account.Some? && x == Bookmarks && features.bookmarks)
      || (account.Some? && x == Lists && features.lists)
      || (account.Some? && x == Developers && isDeveloper)
      || (account.Some? && x == Dashboard(dashboardCount) && account.value.staff)
      || (account.Some? && x == Separator && features.publicTimeline)
      || (x == LocalTimeline(features.federating) && features.publicTimeline)
      || (x == Fediverse && features.publicTimeline && features.federating)
  {
    var head := if account.Some? then AccountEntries(account.value, features, isDeveloper, followRequestsCount, dashboardCount) else [];
    if account.Some? {
      AccountEntriesMembership(account.value, features, isDeveloper, followRequestsCount, dashboardCount, x);
    }
    var m1 := head + Opt(features.publicTimeline, LocalTimeline(features.federating));
    InOpt(head, features.publicTimeline, LocalTimeline(features.federating), x);
    InOpt(m1, features.publicTimeline && features.federating, Fediverse, x);
  }

  /** Entries carry the counts and the federating flag they were built from. */
  lemma MenuPayloads(account: Option<Account>, features: Features, isDeveloper: bool,
                     followRequestsCount: nat, dashboardCount: nat)
    ensures var menu := Menu(account, features, isDeveloper, followRequestsCount, dashboardCount);
      forall i :: 0 <= i < |menu| ==>
        && (menu[i].FollowRequests? ==> menu[i].count == followRequestsCount)
        && (menu[i].Dashboard? ==> menu[i].count == dashboardCount)
        && (menu[i].LocalTimeline? ==> menu[i].federating == features.federating)
  {
    var menu := Menu(account, features, isDeveloper, followRequestsCount, dashboardCount);
    forall i | 0 <= i < |menu|
      ensures && (menu[i].FollowRequests? ==> menu[i].count == followRequestsCount)
              && (menu[i].Dashboard? ==> menu[i].count == dashboardCount)
              && (menu[i].LocalTimeline? ==> menu[i].federating == features.federating)
    {
      MenuMembership(account, features, isDeveloper, followRequestsCount, dashboardCount, menu[i]);
    }
  }

  /** The separator is always immediately followed by the local-timeline entry. */
  lemma SeparatorBeforeLocalTimeline(account: Option<Account>, features: Features, isDeveloper: bool,
                                     followRequestsCount: nat, dashboardCount: nat, i: nat)
    requires var menu := Menu(account, features, isDeveloper, followRequestsCount, dashboardCount);
             i < |menu| && menu[i] == Separator
    ensures var menu := Menu(account, features, isDeveloper, followRequestsCount, dashboardCount);
            i + 1 < |menu| && menu[i + 1] == LocalTimeline(features.federating)
  {
    var menu := Menu(account, features, isDeveloper, followRequestsCount, dashboardCount);
    var a := account.value;
    var head := AccountEntries(a, features, isDeveloper, followRequestsCount, dashboardCount);
    MenuOrdered(account, features, isDeveloper, followRequestsCount, dashboardCount);
    assert account.Some? && features.publicTimeline by {
      MenuMembership(account, features, isDeveloper, followRequestsCount, dashboardCount, Separator);
    }
    assert head[|head| - 1] == Separator;
    assert menu[|head|] == LocalTimeline(features.federating);
    assert menu[|head| - 1] == Separator;
  }

  /** Signed out, the menu holds the timeline entries only. */
  lemma SignedOutMenu(features: Features, isDeveloper: bool, followRequestsCount: nat, dashboardCount: nat)
    ensures var menu := Menu(None, features, isDeveloper, followRequestsCount, dashboardCount);
            forall i :: 0 <= i < |menu| ==> menu[i].LocalTimeline? || menu[i].Fediverse?
  {
  }

  /** The "More" dropdown is rendered iff the menu is non-empty. */
  lemma MoreDropdownShown(account: Option<Account>, features: Features, isDeveloper: bool,
                          followRequestsCount: nat, dashboardCount: nat)
    ensures |Menu(account, features, isDeveloper, followRequestsCount, dashboardCount)| > 0
            <==> MenuNonEmpty(account, features, isDeveloper, followRequestsCount)
  {
    var menu := Menu(account, features, isDeveloper, followRequestsCount, dashboardCount);
    if |menu| > 0 {
      MenuMembership(account, features, isDeveloper, followRequestsCount, dashboardCount, menu[0]);
    }
    if features.publicTimeline {
      MenuMembership(account, features, isDeveloper, followRequestsCount, dashboardCount, LocalTimeline(features.federating));
    } else if account.Some? {
      var a := account.value;
      var entry :=
        if a.locked || followRequestsCount > 0 then FollowRequests(followRequestsCount)
        else if features.bookmarks then Bookmarks
        else if features.lists then Lists
        else if isDeveloper then Developers
        else Dashboard(dashboardCount);
      MenuMembership(account, features, isDeveloper, followRequestsCount, dashboardCount, entry);
    }
  }

  /** The destination of the messages link. */
  datatype MessagesLink = ChatsLink(count: int) | DirectMessagesLink

  /** `renderMessagesLink`: chats win over direct messages; neither gives no link. */
  function RenderMessagesLink(features: Features, chatsCount: int): (r: Option<MessagesLink>)
    ensures r == Some(ChatsLink(chatsCount)) <==> features.chats
    ensures r == Some(DirectMessagesLink) <==> !features.chats && (features.directTimeline || features.conversations)
    ensures r.None? <==> !features.chats && !features.directTimeline && !features.conversations
  {
    if features.chats then Some(ChatsLink(chatsCount))
    else if features.directTimeline || features.conversations then Some(DirectMessagesLink)
    else None
  }

  /** The chats link's badge: each chat with unread messages counts once, however many it holds. */
  lemma ChatsBadgeCountsChats(features: Features, chats: seq<Chat>)
    requires features.chats && NonNegative(chats)
    ensures RenderMessagesLink(features, CappedUnreadChats(chats)) == Some(ChatsLink(|UnreadIndices(chats)|))
    ensures |UnreadIndices(chats)| <= |chats|
  {
    CappedCountsUnreadChats(chats);
  }
}
