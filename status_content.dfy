/**
 * The text of a status (app/soapbox/components/status_content.tsx): the pass
 * that marks up the links of the rendered HTML, the mention and hashtag click
 * handlers, the click-versus-drag test on the content, and the one-way
 * collapse of tall content.
 */
module StatusContent {
  import opened Wrappers

  datatype Mention = Mention(url: string, acct: string)

  /** The click listener the pass attaches to a link. */
  datatype Listener =
    | MentionListener(mention: Mention)
    | HashtagListener(hashtag: string)
    | PlainLinkListener

  /**
   * The parts of an `<a>` element the pass reads and writes: its resolved href,
   * its text, the text of its previous sibling (absent when it has none), its
   * class list, the three attributes it sets and its click listeners.
   */
  datatype Anchor = Anchor(
    href: string,
    text: string,
    previousText: Option<string>,
    classes: set<string>,
    rel: Option<string>,
    target: Option<string>,
    title: Option<string>,
    listeners: seq<Listener>)

  const StatusLinkClass: string := "status-link"
  const LinkRel: string := "nofollow noopener"
  const LinkTarget: string := "_blank"

  /** `mentions.find(mention => href === mention.url)`. */
  function FindMention(mentions: seq<Mention>, href: string): (r: Option<Mention>)
    ensures r.None? <==> forall i :: 0 <= i < |mentions| ==> mentions[i].url != href
    ensures r.Some? ==> exists i :: 0 <= i < |mentions| && mentions[i] == r.value && r.value.url == href
                                    && forall j :: 0 <= j < i ==> mentions[j].url != href
  {
    if mentions == [] then None
    else if mentions[0].url == href then Some(mentions[0])
    else
      var r := FindMention(mentions[1..], href);
      assert forall i :: 1 <= i < |mentions| ==> mentions[i] == mentions[1..][i - 1];
      r
  }

  /** The link's text starts with '#', or its previous sibling's text ends with '#'. */
  predicate LooksLikeHashtag(a: Anchor) {
    || (|a.text| > 0 && a.text[0] == '#')
    || (a.previousText.Some? && |a.previousText.value| > 0
        && a.previousText.value[|a.previousText.value| - 1] == '#')
  }

  /** What the pass treats a link as. */
  datatype LinkKind = MentionLink(mention: Mention) | HashtagLink | PlainLink

  /** Mentions win over hashtags, hashtags over plain links. */
  function Classify(mentions: seq<Mention>, a: Anchor): (k: LinkKind)
    ensures k.MentionLink? <==> exists i :: 0 <= i < |mentions| && mentions[i].url == a.href
    ensures k.HashtagLink? <==> (forall i :: 0 <= i < |mentions| ==> mentions[i].url != a.href) && LooksLikeHashtag(a)
    ensures k.MentionLink? ==> FindMention(mentions, a.href) == Some(k.mention)
  {
    match FindMention(mentions, a.href)
    case Some(m) => MentionLink(m)
    case None => if LooksLikeHashtag(a) then HashtagLink else PlainLink
  }

  /** What the `forEach` body does to one link. */
  function ProcessLink(mentions: seq<Mention>, a: Anchor): Anchor
  {
    if StatusLinkClass in a.classes then a
    else
      var marked := a.(classes := a.classes + {StatusLinkClass}, rel := Some(LinkRel), target := Some(LinkTarget));
      match FindMention(mentions, a.href)
      case Some(m) => marked.(listeners := a.listeners + [MentionListener(m)], title := Some(m.acct))
      case None =>
        if LooksLikeHashtag(a) then marked.(listeners := a.listeners + [HashtagListener(a.text)])
        else marked.(listeners := a.listeners + [PlainLinkListener], title := Some(a.href))
  }

  /**
   * A link already marked is left exactly as it is. Any other link is marked,
   * set to open in a new tab without referrer, and gets exactly one listener and
   * the title its kind calls for.
   */
  lemma ProcessLinkMeans(mentions: seq<Mention>, a: Anchor)
    ensures StatusLinkClass in a.classes ==> ProcessLink(mentions, a) == a
    ensures var r := ProcessLink(mentions, a);
      StatusLinkClass !in a.classes ==>
        && r.classes == a.classes + {StatusLinkClass}
        && r.rel == Some(LinkRel) && r.target == Some(LinkTarget)
        && r.href == a.href && r.text == a.text && r.previousText == a.previousText
        && |r.listeners| == |a.listeners| + 1 && r.listeners[..|a.listeners|] == a.listeners
        && match Classify(mentions, a)
           case MentionLink(m) => r.listeners[|a.listeners|] == MentionListener(m) && r.title == Some(m.acct)
           case HashtagLink => r.listeners[|a.listeners|] == HashtagListener(a.text) && r.title == a.title
           case PlainLink => r.listeners[|a.listeners|] == PlainLinkListener && r.title == Some(a.href)
  {
  }

  /** A second pass over a link changes nothing: no listener is attached twice. */
  lemma ProcessLinkIdempotent(mentions: seq<Mention>, a: Anchor)
    ensures ProcessLink(mentions, ProcessLink(mentions, a)) == ProcessLink(mentions, a)
    ensures StatusLinkClass in ProcessLink(mentions, a).classes
  {
  }

  /**
   * `updateStatusLinks`: the pass over the `<a>` elements of the content node,
   * updating each in place. An unmounted node has no links (the empty array).
   */
  method UpdateStatusLinks(links: array<Anchor>, mentions: seq<Mention>)
    modifies links
    ensures forall i :: 0 <= i < links.Length ==> links[i] == ProcessLink(mentions, old(links[i]))
  {
    ghost var original := links[..];
    var k := 0;
    while k < links.Length
      invariant 0 <= k <= links.Length
      invariant forall i :: 0 <= i < k ==> links[i] == ProcessLink(mentions, original[i])
      invariant forall i :: k <= i < links.Length ==> links[i] == original[i]
    {
      links[k] := ProcessLink(mentions, links[k]);
      k := k + 1;
    }
  }

  /** ASCII case folding; `toLowerCase` beyond ASCII is not modelled. */
  function LowerChar(c: char): char {
    if 'A' <= c <= 'Z' then (c as int + 32) as char else c
  }

  /** `toLowerCase` on ASCII: each capital becomes its small letter, nothing else moves. */
  function Lower(s: string): (r: string)
    ensures |r| == |s|
    ensures forall i :: 0 <= i < |r| ==> !('A' <= r[i] <= 'Z')
    ensures forall i :: 0 <= i < |s| && 'A' <= s[i] <= 'Z' ==> r[i] as int == s[i] as int + 32
    ensures forall i :: 0 <= i < |s| && !('A' <= s[i] <= 'Z') ==> r[i] == s[i]
  {
    seq(|s|, i requires 0 <= i < |s| => LowerChar(s[i]))
  }

  /** Lower-casing twice is lower-casing once. */
  lemma LowerIdempotent(s: string)
    ensures Lower(Lower(s)) == Lower(s)
  {
    var once := Lower(s);
    assert forall i :: 0 <= i < |once| ==> Lower(once)[i] == once[i];
  }

  /** `hashtag.replace(/^#/, '').toLowerCase()`. */
  function NormalizeHashtag(hashtag: string): (r: string)
    ensures |hashtag| > 0 && hashtag[0] == '#' ==> r == Lower(hashtag[1..])
    ensures !(|hashtag| > 0 && hashtag[0] == '#') ==> r == Lower(hashtag)
    ensures forall i :: 0 <= i < |r| ==> !('A' <= r[i] <= 'Z')
  {
    var bare := if |hashtag| > 0 && hashtag[0] == '#' then hashtag[1..] else hashtag;
    Lower(bare)
  }

  /** The click as the handlers see it. */
  datatype Click = Click(button: int, ctrlKey: bool, metaKey: bool)

  /** The guard of both handlers: the main button, with neither ctrl nor meta held. */
  predicate IsPlainPrimaryClick(e: Click) {
    e.button == 0 && !(e.ctrlKey || e.metaKey)
  }

  /** What a handler does: stop the browser's default and navigate in the app, or let it through. */
  datatype ClickOutcome = Navigate(path: string) | PassThrough

  /** `onMentionClick`. */
  function OnMentionClick(mention: Mention, e: Click): (r: ClickOutcome)
    ensures r.Navigate? <==> e.button == 0 && !e.ctrlKey && !e.metaKey
    ensures r.Navigate? ==> r.path == "/@" + mention.acct
  {
    if IsPlainPrimaryClick(e) then Navigate("/@" + mention.acct) else PassThrough
  }

  /** `onHashtagClick`. */
  function OnHashtagClick(hashtag: string, e: Click): (r: ClickOutcome)
    ensures r.Navigate? <==> e.button == 0 && !e.ctrlKey && !e.metaKey
    ensures r.Navigate? ==> r.path == "/tags/" + NormalizeHashtag(hashtag)
  {
    var tag := NormalizeHashtag(hashtag);
    if IsPlainPrimaryClick(e) then Navigate("/tags/" + tag) else PassThrough
  }

  /** The content's height limit, 20px * 32 + 2px of padding. */
  const MaxHeight: int := 642

  /** One run of `maybeSetCollapsed` on a mounted node of the given height. */
  function CollapseStep(collapsed: bool, collapsable: bool, hasOnClick: bool, spoilerText: string, height: int): bool {
    if collapsable && hasOnClick && !collapsed && |spoilerText| == 0 && height > MaxHeight then true
    else collapsed
  }

  /** The collapsed flag after one run per observed height, starting from `collapsed`. */
  function CollapseAfter(collapsed: bool, collapsable: bool, hasOnClick: bool, spoilerText: string, heights: seq<int>): bool
  {
    if heights == [] then collapsed
    else CollapseStep(CollapseAfter(collapsed, collapsable, hasOnClick, spoilerText, heights[..|heights| - 1]),
                      collapsable, hasOnClick, spoilerText, heights[|heights| - 1])
  }

  /**
   * Collapse is one-way: over any number of renders, content ends collapsed iff it
   * started so, or it may collapse and some render measured it taller than the limit.
   */
  lemma {:induction false} CollapseAfterMeans(collapsed: bool, collapsable: bool, hasOnClick: bool, spoilerText: string, heights: seq<int>)
    ensures CollapseAfter(collapsed, collapsable, hasOnClick, spoilerText, heights) <==>
              collapsed
              || (collapsable && hasOnClick && |spoilerText| == 0 && exists i :: 0 <= i < |heights| && heights[i] > MaxHeight)
  {
    if heights != [] {
      var init := heights[..|heights| - 1];
      CollapseAfterMeans(collapsed, collapsable, hasOnClick, spoilerText, init);
      assert forall i :: 0 <= i < |init| ==> init[i] == heights[i];
      if exists i :: 0 <= i < |heights| && heights[i] > MaxHeight {
        var i :| 0 <= i < |heights| && heights[i] > MaxHeight;
        if i < |init| {
          assert init[i] > MaxHeight;
        }
      }
    }
  }

  /** A point where the pointer went down. */
  datatype Point = Point(x: int, y: int)

  /** A mouse-up on the content, with the element under the pointer and its parent. */
  datatype MouseUp = MouseUp(
    x: int, y: int, click: Click,
    targetName: string, parentName: Option<string>)

  function Abs(n: int): nat {
    if n < 0 then -n else n
  }

  /** The target, or its parent, is a button or a link: those handle their own clicks. */
  predicate OnInteractiveElement(e: MouseUp) {
    || e.targetName == "button" || e.targetName == "a"
    || (e.parentName.Some? && (e.parentName.value == "button" || e.parentName.value == "a"))
  }

  /** A press and release less than 5 pixels apart (Manhattan distance) is a click, not a drag. */
  predicate IsClickNotDrag(start: Point, e: MouseUp) {
    Abs(e.x - start.x) + Abs(e.y - start.y) < 5
  }

  /** The content of one status as rendered: its props, `collapsed` state and `startXY` ref. */
  class StatusContentView {
    const collapsable: bool
    const hasOnClick: bool
    const spoilerText: string
    var collapsed: bool
    var startXY: Option<Point>

    constructor (collapsable: bool, hasOnClick: bool, spoilerText: string)
      ensures this.collapsable == collapsable && this.hasOnClick == hasOnClick && this.spoilerText == spoilerText
      ensures !collapsed && startXY.None?
    {
      this.collapsable := collapsable;
      this.hasOnClick := hasOnClick;
      this.spoilerText := spoilerText;
      collapsed := false;
      startXY := None;
    }

    /** `maybeSetCollapsed`, run after a render with the node's measured height (none when unmounted). */
    method MaybeSetCollapsed(height: Option<int>)
      modifies this`collapsed
      ensures old(collapsed) ==> collapsed
      ensures height.None? ==> collapsed == old(collapsed)
      ensures height.Some? ==> collapsed == CollapseStep(old(collapsed), collapsable, hasOnClick, spoilerText, height.value)
    {
      if height.None? {
        return;
      }
      if collapsable && hasOnClick && !collapsed && |spoilerText| == 0 {
        if height.value > MaxHeight {
          collapsed := true;
        }
      }
    }

    /** `handleMouseDown`. */
    method HandleMouseDown(x: int, y: int)
      modifies this`startXY
      ensures startXY == Some(Point(x, y))
    {
      startXY := Some(Point(x, y));
    }

    /** `handleMouseUp`: returns whether `onClick` fires. */
    method HandleMouseUp(e: MouseUp) returns (fired: bool)
      modifies this`startXY
      ensures fired <==>
        && old(startXY).Some?
        && !OnInteractiveElement(e)
        && IsClickNotDrag(old(startXY).value, e)
        && IsPlainPrimaryClick(e.click)
        && hasOnClick
      // an early return keeps the start point; otherwise it is cleared
      ensures startXY == if old(startXY).None? || OnInteractiveElement(e) then old(startXY) else None
    {
      fired := false;
      if startXY.None? {
        return;
      }
      var start := startXY.value;
      var deltaX, deltaY := Abs(e.x - start.x), Abs(e.y - start.y);
      if OnInteractiveElement(e) {
        return;
      }
      if deltaX + deltaY < 5 && IsPlainPrimaryClick(e.click) && hasOnClick {
        fired := true;
      }
      startXY := None;
    }
  }

  /** The pieces the component renders. */
  datatype Part = ContentPart | ReadMorePart | PollPart(poll: string)

  /**
   * What the component renders; nothing at all for empty content. `poll` is the
   * status's poll id when it is a non-empty string.
   */
  function Rendered(content: string, hasOnClick: bool, collapsed: bool, poll: Option<string>): (r: Option<seq<Part>>)
    ensures r.None? <==> |content| == 0
    ensures r.Some? ==> |r.value| > 0 && r.value[0] == ContentPart
    ensures r.Some? ==> (ReadMorePart in r.value <==> hasOnClick && collapsed)
    ensures r.Some? ==> (forall p :: p in r.value && p.PollPart? ==> poll == Some(p.poll))
    ensures r.Some? && poll.Some? ==> PollPart(poll.value) in r.value
  {
    if |content| == 0 then None
    else if hasOnClick then
      Some([ContentPart] + (if collapsed then [ReadMorePart] else []) + (if poll.Some? then [PollPart(poll.value)] else []))
    else
      Some([ContentPart] + (if poll.Some? then [PollPart(poll.value)] else []))
  }
}
