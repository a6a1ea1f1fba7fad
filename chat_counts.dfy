/**
 * The capped unread-chat count. app/soapbox/components/helmet.tsx:12 and
 * app/soapbox/components/sidebar-navigation.tsx:21 fold the chat list with the
 * same step: add `Math.min(unread, 1)`, a missing unread counting as 0.
 */
module ChatCounts {
  import opened Wrappers

  datatype Chat = Chat(unread: Option<int>)

  /** One chat's share of the total: `Math.min(unread || 0, 1)`. */
  function Contribution(chat: Chat): (r: int)
    ensures r <= 1
    ensures chat.unread.None? ==> r == 0
    ensures chat.unread.Some? && chat.unread.value >= 0 ==> (r == 1 <==> chat.unread.value >= 1) && r >= 0
  {
    var u := chat.unread.GetOr(0);
    if u < 1 then u else 1
  }

  /** No chat reports a negative unread count. */
  predicate NonNegative(chats: seq<Chat>) {
    forall i :: 0 <= i < |chats| ==> chats[i].unread.GetOr(0) >= 0
  }

  /** `chats.reduce((acc, curr) => acc + Math.min(unread, 1), 0)`, folding from the left. */
  function CappedUnreadChats(chats: seq<Chat>): (r: int)
    ensures r <= |chats|
    ensures NonNegative(chats) ==> r >= 0
  {
    if chats == [] then 0
    else CappedUnreadChats(chats[..|chats| - 1]) + Contribution(chats[|chats| - 1])
  }

  /** Indices of the chats with at least one unread message. */
  function UnreadIndices(chats: seq<Chat>): set<nat> {
    set i: nat | i < |chats| && chats[i].unread.GetOr(0) >= 1
  }

  lemma NonNegativePrefix(chats: seq<Chat>, n: nat)
    requires NonNegative(chats) && n <= |chats|
    ensures NonNegative(chats[..n])
  {
    forall i | 0 <= i < n ensures chats[..n][i].unread.GetOr(0) >= 0 {
      assert chats[..n][i] == chats[i];
    }
  }

  /** The last chat adds its own index to the unread indices of the others, or nothing. */
  lemma UnreadIndicesSnoc(chats: seq<Chat>)
    requires chats != []
    ensures var n := |chats| - 1;
            UnreadIndices(chats) == UnreadIndices(chats[..n]) + (if chats[n].unread.GetOr(0) >= 1 then {n} else {})
  {
    var n := |chats| - 1;
    var init := chats[..n];
    forall i: nat | i < n ensures init[i] == chats[i] {
    }
  }

  /** With non-negative counts, the fold counts each chat with unread messages exactly once. */
  lemma {:induction false} CappedCountsUnreadChats(chats: seq<Chat>)
    requires NonNegative(chats)
    ensures CappedUnreadChats(chats) == |UnreadIndices(chats)|
  {
    if chats != [] {
      var n := |chats| - 1;
      var init := chats[..n];
      NonNegativePrefix(chats, n);
      CappedCountsUnreadChats(init);
      UnreadIndicesSnoc(chats);
      assert n !in UnreadIndices(init);
    }
  }
}
