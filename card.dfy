/**
 * The link-preview card (app/soapbox/features/status/components/card.tsx):
 * word-boundary truncation of its title and description, and the small
 * decision rules for its layout and its embed button.
 */
module Card {
  import opened Wrappers

  /**
   * A UTF-16 code unit. JavaScript's `length`, `indexOf` and `substring` count
   * these, so a character outside the Basic Multilingual Plane (an emoji, say)
   * is two of them.
   */
  newtype CodeUnit = x: int | 0 <= x < 0x1_0000

  /** A JavaScript string, as its code units. */
  type Text = seq<CodeUnit>

  const Space: CodeUnit := 0x20
  /** U+2026 HORIZONTAL ELLIPSIS. */
  const Ellipsis: CodeUnit := 0x2026

  /** JavaScript clamps a negative `fromIndex` of `indexOf` to 0. */
  function Start(from: int): nat {
    if from < 0 then 0 else from
  }

  /** `s.indexOf(c, from)` for a one-unit search string: the first index at or after `from`, or -1. */
  function IndexOf(s: Text, c: CodeUnit, from: int): (r: int)
    ensures -1 <= r < |s|
    ensures r == -1 <==> forall i :: Start(from) <= i < |s| ==> s[i] != c
    ensures r != -1 ==> Start(from) <= r && s[r] == c && forall i :: Start(from) <= i < r ==> s[i] != c
    decreases |s| - from
  {
    if from < 0 then IndexOf(s, c, 0)
    else if from >= |s| then -1
    else if s[from] == c then from
    else IndexOf(s, c, from + 1)
  }

  /** True when no space occurs at or after index `len`: `trim` then keeps the text. */
  predicate NoSpaceFrom(text: Text, len: int) {
    forall i :: Start(len) <= i < |text| ==> text[i] != Space
  }

  /** `trim(text, len)`: cut at the first space at or after `len`, marking the cut with an ellipsis. */
  function Trim(text: Text, len: int): (r: Text)
    ensures NoSpaceFrom(text, len) <==> r == text
    ensures |r| <= |text|
  {
    var cut := IndexOf(text, Space, len);
    if cut == -1 then text
    else text[..cut] + (if |text| > len then [Ellipsis] else [])
  }

  /**
   * When a space occurs at or after `len`, the result is the text up to the first
   * such space followed by the ellipsis: the `text.length > len` test never fails
   * there, the kept prefix is at least `len` long, and the result is no longer than the text.
   */
  lemma TrimCuts(text: Text, len: int, cut: nat)
    requires Start(len) <= cut < |text| && text[cut] == Space
    requires forall i :: Start(len) <= i < cut ==> text[i] != Space
    ensures |text| > len
    ensures Trim(text, len) == text[..cut] + [Ellipsis]
    ensures cut >= len && |Trim(text, len)| == cut + 1 <= |text|
  {
    assert IndexOf(text, Space, len) == cut;
  }

  /** Text no longer than `len` is never cut. */
  lemma ShortTextUnchanged(text: Text, len: int)
    requires |text| <= len
    ensures Trim(text, len) == text
  {
  }

  /** Truncating twice with the same limit is the same as truncating once. */
  lemma TrimIdempotent(text: Text, len: int)
    ensures Trim(Trim(text, len), len) == Trim(text, len)
  {
    var r := Trim(text, len);
    if r != text {
      var cut := IndexOf(text, Space, len);
      TrimCuts(text, len, cut);
      assert forall i :: Start(len) <= i < |r| ==> r[i] != Space by {
        forall i | Start(len) <= i < |r| ensures r[i] != Space {
          if i < cut { assert r[i] == text[i]; } else { assert r[i] == Ellipsis; }
        }
      }
    }
  }

  /** `card.type !== 'link'`. */
  predicate Interactive(cardType: string) {
    cardType != "link"
  }

  /** The `horizontal` layout: the caller's boolean when given, otherwise interactive or embedded. */
  function Horizontal(given: Option<bool>, cardType: string, embedded: bool): (h: bool)
    ensures given.Some? ==> h == given.value
    ensures given.None? ==> (h <==> cardType != "link" || embedded)
  {
    match given
    case Some(b) => b
    case None => Interactive(cardType) || embedded
  }

  /** What a click on the embed button does. */
  datatype EmbedClick = EmbedClick(opensMedia: bool, embedded: bool)

  /** `handleEmbedClick`: a photo opens in the media viewer; any other type embeds in place. */
  function HandleEmbedClick(cardType: string, embedded: bool): (r: EmbedClick)
    ensures r.opensMedia <==> cardType == "photo"
    ensures r.opensMedia ==> r.embedded == embedded
    ensures !r.opensMedia ==> r.embedded
  {
    if cardType == "photo" then EmbedClick(true, embedded)
    else EmbedClick(false, true)
  }

  /** The card's defaults: titles are cut at 120 code units, descriptions at 200. */
  const MaxTitle: int := 120
  const MaxDescription: int := 200

  /** Only empty text truncates to the empty string, so a card shows its title exactly when it has one. */
  lemma TrimEmptyIffEmpty(text: Text, len: int)
    ensures Trim(text, len) == [] <==> text == []
  {
    if !NoSpaceFrom(text, len) {
      var cut := IndexOf(text, Space, len);
      TrimCuts(text, len, cut);
    }
  }

  /** `trimmedTitle` under the default limit. */
  function TrimmedTitle(title: Text): (r: Text)
    ensures |title| <= MaxTitle ==> r == title
    ensures r == [] <==> title == []
    ensures |r| <= |title|
  {
    TrimEmptyIffEmpty(title, MaxTitle);
    Trim(title, MaxTitle)
  }

  /** `trimmedDescription` under the default limit. */
  function TrimmedDescription(description: Text): (r: Text)
    ensures |description| <= MaxDescription ==> r == description
    ensures r == [] <==> description == []
    ensures |r| <= |description|
  {
    TrimEmptyIffEmpty(description, MaxDescription);
    Trim(description, MaxDescription)
  }

  /** The first `len` code units (or all, for shorter text) always survive truncation. */
  lemma TrimKeepsLeadingText(text: Text, len: nat)
    ensures var k := if len < |text| then len else |text|;
            |Trim(text, len)| >= k && Trim(text, len)[..k] == text[..k]
  {
    if !NoSpaceFrom(text, len) {
      var cut := IndexOf(text, Space, len);
      TrimCuts(text, len, cut);
    }
  }

  /**
   * Lengths count code units, not characters: 61 emoji (each a surrogate pair)
   * followed by " abc" is 126 units long, its first space at or after 120 is at
   * 122, so under the default title limit it is cut there although it holds
   * only 65 characters.
   */
  lemma AstralTextIsCut()
    ensures var emoji := seq(122, i requires 0 <= i < 122 => if i % 2 == 0 then 0xD83D as CodeUnit else 0xDE42 as CodeUnit);
            var title := emoji + [Space, 0x61, 0x62, 0x63];
            |title| == 126 && TrimmedTitle(title) == emoji + [Ellipsis]
  {
    var emoji := seq(122, i requires 0 <= i < 122 => if i % 2 == 0 then 0xD83D as CodeUnit else 0xDE42 as CodeUnit);
    var title := emoji + [Space, 0x61, 0x62, 0x63];
    assert title[122] == Space;
    assert forall i :: 120 <= i < 122 ==> title[i] != Space;
    TrimCuts(title, MaxTitle, 122);
    assert title[..122] == emoji;
  }
}
