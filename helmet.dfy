/**
 * The document-title and favicon counter (app/soapbox/components/helmet.tsx):
 * the notification total, whether it shows, the "(n) " title prefix and the
 * favicon badge decision.
 */
module Helmet {
  import opened Wrappers
  import opened ChatCounts

  /**
   * `getNotifTotals`: unread notifications (0 when falsy), plus the capped chat
   * count, plus open reports, plus accounts awaiting approval.
   */
  function NotifTotals(notificationsUnread: Option<int>, chats: seq<Chat>, openReports: nat, awaitingApproval: nat): (r: int)
    ensures r <= notificationsUnread.GetOr(0) + |chats| + openReports + awaitingApproval
    ensures notificationsUnread.GetOr(0) >= 0 && NonNegative(chats) ==>
              r >= openReports + awaitingApproval && r >= notificationsUnread.GetOr(0)
  {
    notificationsUnread.GetOr(0) + CappedUnreadChats(chats) + openReports + awaitingApproval
  }

  /** The total counts the unread chats, each once, however many messages it holds. */
  lemma NotifTotalsCountsChats(notificationsUnread: Option<int>, chats: seq<Chat>, openReports: nat, awaitingApproval: nat)
    requires NonNegative(chats)
    ensures NotifTotals(notificationsUnread, chats, openReports, awaitingApproval)
            == notificationsUnread.GetOr(0) + |UnreadIndices(chats)| + openReports + awaitingApproval
  {
    CappedCountsUnreadChats(chats);
  }

  /** `hasUnreadNotifications`: `!(unreadCount < 1 || demetricator)`. */
  function HasUnreadNotifications(unreadCount: int, demetricator: bool): (r: bool)
    ensures r <==> unreadCount >= 1 && !demetricator
  {
    !(unreadCount < 1 || demetricator)
  }

  function Digit(d: nat): char
    requires d < 10
  {
    "0123456789"[d]
  }

  function DigitValue(c: char): nat {
    if '0' <= c <= '9' then (c as int - '0' as int) as nat else 0
  }

  predicate IsDigits(s: string) {
    forall i :: 0 <= i < |s| ==> '0' <= s[i] <= '9'
  }

  /** The decimal rendering of a number in a template literal. */
  function Decimal(n: nat): (s: string)
    ensures |s| > 0 && IsDigits(s)
    ensures n > 0 ==> s[0] != '0'
  {
    if n < 10 then [Digit(n)] else Decimal(n / 10) + [Digit(n % 10)]
  }

  /** Reads a string of decimal digits back as a number. */
  function ParseDecimal(s: string): nat {
    if s == [] then 0 else ParseDecimal(s[..|s| - 1]) * 10 + DigitValue(s[|s| - 1])
  }

  lemma DigitValueOfDigit(d: nat)
    requires d < 10
    ensures DigitValue(Digit(d)) == d
  {
  }

  lemma {:induction false} DecimalRoundTrip(n: nat)
    ensures ParseDecimal(Decimal(n)) == n
  {
    var s := Decimal(n);
    if n < 10 {
      DigitValueOfDigit(n);
      assert s[..0] == [];
    } else {
      var q, d := n / 10, n % 10;
      DecimalRoundTrip(q);
      DigitValueOfDigit(d);
      assert s == Decimal(q) + [Digit(d)];
      assert s[..|s| - 1] == Decimal(q);
      assert ParseDecimal(s) == ParseDecimal(Decimal(q)) * 10 + DigitValue(Digit(d));
      assert n == q * 10 + d;
    }
  }

  /** `addCounter(string)`. */
  function AddCounter(unreadCount: int, demetricator: bool, title: string): string {
    if HasUnreadNotifications(unreadCount, demetricator) then "(" + Decimal(unreadCount) + ") " + title
    else title
  }

  /**
   * With unread notifications the title gets a "(n) " prefix from which n reads
   * back; otherwise the title is untouched.
   */
  lemma AddCounterPrefix(unreadCount: int, demetricator: bool, title: string)
    ensures !HasUnreadNotifications(unreadCount, demetricator) ==> AddCounter(unreadCount, demetricator, title) == title
    ensures HasUnreadNotifications(unreadCount, demetricator) ==>
              exists digits: string :: IsDigits(digits) && |digits| > 0 && ParseDecimal(digits) == unreadCount
                && AddCounter(unreadCount, demetricator, title) == "(" + digits + ") " + title
  {
    if HasUnreadNotifications(unreadCount, demetricator) {
      DecimalRoundTrip(unreadCount);
      var digits := Decimal(unreadCount);
      assert AddCounter(unreadCount, demetricator, title) == "(" + digits + ") " + title;
    }
  }

  datatype FaviconBadge = DrawBadge | ClearBadge

  /** `updateFaviconBadge`: draw the badge when there are unread notifications, clear it otherwise. */
  function UpdateFaviconBadge(unreadCount: int, demetricator: bool): (b: FaviconBadge)
    ensures b == DrawBadge <==> unreadCount >= 1 && !demetricator
  {
    if HasUnreadNotifications(unreadCount, demetricator) then DrawBadge else ClearBadge
  }
}
