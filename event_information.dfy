/**
 * The information tab of an event status (app/soapbox/features/event/event-information.tsx):
 * how the location, date, links and quoted post are shown, and when the page
 * shows the missing-status indicator.
 */
module EventInformation {
  import opened Wrappers

  /** A string prop is truthy when present and non-empty. */
  predicate Truthy(s: Option<string>) {
    s.Some? && s.value != ""
  }

  /** `.filter(text => text)`: the truthy parts, in order. */
  function TruthyParts(parts: seq<Option<string>>): (r: seq<string>)
    ensures forall i :: 0 <= i < |r| ==> r[i] != ""
    ensures |r| <= |parts|
    ensures |r| == 0 <==> forall i :: 0 <= i < |parts| ==> !Truthy(parts[i])
    ensures forall i :: 0 <= i < |parts| && Truthy(parts[i]) ==> parts[i].value in r
  {
    if parts == [] then []
    else
      var rest := TruthyParts(parts[1..]);
      assert forall i :: 1 <= i < |parts| ==> parts[i] == parts[1..][i - 1];
      if Truthy(parts[0]) then [parts[0].value] + rest else rest
  }

  /** `Array.prototype.join(sep)`. */
  function Join(parts: seq<string>, sep: string): (r: string)
    ensures |parts| > 0 ==> parts[0] <= r
  {
    if parts == [] then ""
    else if |parts| == 1 then parts[0]
    else parts[0] + sep + Join(parts[1..], sep)
  }

  predicate EndsWith(s: string, suffix: string) {
    |suffix| <= |s| && s[|s| - |suffix|..] == suffix
  }

  /** The joined string ends with the last part. */
  lemma {:induction false} JoinEndsWithLast(parts: seq<string>, sep: string)
    requires |parts| > 0
    ensures EndsWith(Join(parts, sep), parts[|parts| - 1])
  {
    if |parts| > 1 {
      JoinEndsWithLast(parts[1..], sep);
      var tail := Join(parts[1..], sep);
      assert Join(parts, sep) == (parts[0] + sep) + tail;
    }
  }

  /** The address line: postal code, locality and country, the falsy ones skipped, joined by ", ". */
  function AddressLine(postalCode: Option<string>, locality: Option<string>, country: Option<string>): string {
    Join(TruthyParts([postalCode, locality, country]), ", ")
  }

  /** A part's contribution to the address: its value when truthy, nothing otherwise. */
  function Keep(part: Option<string>): seq<string> {
    if Truthy(part) then [part.value] else []
  }

  /** Filtering a part in front of others keeps it first iff it is truthy. */
  lemma TruthyPartsCons(part: Option<string>, rest: seq<Option<string>>)
    ensures TruthyParts([part] + rest) == Keep(part) + TruthyParts(rest)
  {
    assert ([part] + rest)[1..] == rest;
  }

  /** The address parts kept are exactly the truthy ones, in the order postal code, locality, country. */
  lemma AddressPartsInOrder(postalCode: Option<string>, locality: Option<string>, country: Option<string>)
    ensures TruthyParts([postalCode, locality, country]) == Keep(postalCode) + Keep(locality) + Keep(country)
  {
    var empty: seq<Option<string>> := [];
    var last := [country] + empty;
    var rest := [locality] + last;
    assert [postalCode] + rest == [postalCode, locality, country];
    calc {
      TruthyParts([postalCode] + rest);
      { TruthyPartsCons(postalCode, rest); }
      Keep(postalCode) + TruthyParts(rest);
      { TruthyPartsCons(locality, last); }
      Keep(postalCode) + (Keep(locality) + TruthyParts(last));
      { TruthyPartsCons(country, empty); }
      Keep(postalCode) + (Keep(locality) + (Keep(country) + TruthyParts(empty)));
      { assert TruthyParts(empty) == []; }
      Keep(postalCode) + (Keep(locality) + Keep(country));
      Keep(postalCode) + Keep(locality) + Keep(country);
    }
  }

  /**
   * The address line is empty iff every part is missing or empty; otherwise it
   * starts with the first truthy part and ends with the last, so a skipped part
   * never leaves a stray separator at either end.
   */
  lemma AddressLineShape(postalCode: Option<string>, locality: Option<string>, country: Option<string>)
    ensures var parts := TruthyParts([postalCode, locality, country]);
            var line := AddressLine(postalCode, locality, country);
            && (line == "" <==> !Truthy(postalCode) && !Truthy(locality) && !Truthy(country))
            && (|parts| > 0 ==> parts[0] <= line && EndsWith(line, parts[|parts| - 1]))
  {
    var all: seq<Option<string>> := [postalCode, locality, country];
    var parts := TruthyParts(all);
    assert all[0] == postalCode && all[1] == locality && all[2] == country;
    if |parts| > 0 {
      JoinEndsWithLast(parts, ", ");
      assert parts[0] != "" && parts[0] <= Join(parts, ", ");
    }
  }

  predicate StartsWith(s: string, prefix: string) {
    |prefix| <= |s| && s[..|prefix|] == prefix
  }

  /** The prefix `/^https?:\/\//` matches: "http://", "https://" or nothing. */
  function SchemePrefix(url: string): (p: string)
    ensures p == "" || p == "http://" || p == "https://"
    ensures StartsWith(url, p)
  {
    if StartsWith(url, "http://") then "http://"
    else if StartsWith(url, "https://") then "https://"
    else ""
  }

  /** `url.replace(/^https?:\/\//, '')`: the text shown for an external link. */
  function StripScheme(url: string): (r: string)
    ensures SchemePrefix(url) + r == url
  {
    url[|SchemePrefix(url)|..]
  }

  /** Exactly one leading scheme is removed; a URL without one is unchanged. */
  lemma StripSchemeCases(url: string, rest: string)
    ensures StripScheme("http://" + rest) == rest
    ensures StripScheme("https://" + rest) == rest
    ensures !StartsWith(url, "http://") && !StartsWith(url, "https://") ==> StripScheme(url) == url
  {
    assert ("http://" + rest)[..7] == "http://";
    var s := "https://" + rest;
    assert s[..8] == "https://";
    assert s[4] == 's';
  }

  /** The characters `String.prototype.trim` removes: white space and line terminators (ECMA-262). */
  predicate IsWhitespace(c: char) {
    || c == '\t' || c == '\n' || c == '\U{000B}' || c == '\U{000C}' || c == '\r' || c == ' '
    || c == '\U{00A0}' || c == '\U{1680}' || ('\U{2000}' <= c <= '\U{200A}')
    || c == '\U{2028}' || c == '\U{2029}' || c == '\U{202F}' || c == '\U{205F}'
    || c == '\U{3000}' || c == '\U{FEFF}'
  }

  function TrimStart(s: string): (r: string)
    ensures |r| <= |s| && r == s[|s| - |r|..]
    ensures |r| > 0 ==> !IsWhitespace(r[0])
    ensures forall i :: 0 <= i < |s| - |r| ==> IsWhitespace(s[i])
  {
    if s == [] || !IsWhitespace(s[0]) then s else TrimStart(s[1..])
  }

  function TrimEnd(s: string): (r: string)
    ensures |r| <= |s| && r == s[..|r|]
    ensures |r| > 0 ==> !IsWhitespace(r[|r| - 1])
    ensures forall i :: |r| <= i < |s| ==> IsWhitespace(s[i])
  {
    if s == [] || !IsWhitespace(s[|s| - 1]) then s else TrimEnd(s[..|s| - 1])
  }

  /** `s.trim()`. */
  function Trim(s: string): string {
    TrimEnd(TrimStart(s))
  }

  /** A trimmed string is empty iff the string is all whitespace. */
  lemma TrimEmptyIffBlank(s: string)
    ensures Trim(s) == "" <==> forall i :: 0 <= i < |s| ==> IsWhitespace(s[i])
  {
    var t := TrimStart(s);
    if Trim(s) == "" {
      assert |t| == 0;
    }
    if Trim(s) != "" {
      var r := Trim(s);
      assert r[0] == t[0] && t[0] == s[|s| - |t|];
    }
  }

  /** `!!street?.trim()`: the street line is shown iff the street has a non-blank character. */
  function ShowsStreet(street: Option<string>): (shown: bool)
    ensures shown <==> street.Some? && exists i :: 0 <= i < |street.value| && !IsWhitespace(street.value[i])
  {
    if street.None? then false
    else
      TrimEmptyIffBlank(street.value);
      Trim(street.value) != ""
  }

  /** `!!status.contentHtml.trim()`: the description section is shown iff the content has a non-blank character. */
  function ShowsDescription(contentHtml: string): (shown: bool)
    ensures shown <==> exists i :: 0 <= i < |contentHtml| && !IsWhitespace(contentHtml[i])
  {
    TrimEmptyIffBlank(contentHtml);
    Trim(contentHtml) != ""
  }

  /** The date section: the start, and the end only when the event has one. */
  datatype DateLine = DateLine(start: string, end: Option<string>)

  /** `renderEventDate`. */
  function EventDate(startTime: Option<string>, endTime: Option<string>): (r: Option<DateLine>)
    ensures r.None? <==> !Truthy(startTime)
    ensures r.Some? ==> r.value.start == startTime.value
    ensures r.Some? ==> (r.value.end.Some? <==> Truthy(endTime)) && (r.value.end.Some? ==> r.value.end == endTime)
  {
    if !Truthy(startTime) then None
    else Some(DateLine(startTime.value, if Truthy(endTime) then endTime else None))
  }

  /** `status.quote && status.pleroma.get('quote_visible', true)`. */
  function ShowsQuote(quote: Option<string>, quoteVisible: Option<bool>): (shown: bool)
    ensures shown <==> Truthy(quote) && quoteVisible != Some(false)
  {
    Truthy(quote) && quoteVisible.GetOr(true)
  }

  /** The location's latitude, as the location record holds it. */
  type Latitude = Option<real>

  /**
   * `{latitude && (…)}` as written: a latitude of 0 is falsy, so an event on the
   * equator gets no "show on map" link (and React renders the 0 itself).
   */
  function ShowsMapLinkAsWritten(latitude: Latitude): bool {
    latitude.Some? && latitude.value != 0.0
  }

  /** The as-written rule hides the link for a latitude of 0 although the location has one. */
  lemma EquatorHidesMapLink()
    ensures !ShowsMapLinkAsWritten(Some(0.0)) && ShowsMapLink(Some(0.0))
  {
  }

  /** The two rules differ on exactly one input: the equator. */
  lemma MapLinkRulesDifferOnlyAtEquator(latitude: Latitude)
    ensures ShowsMapLinkAsWritten(latitude) != ShowsMapLink(latitude) <==> latitude == Some(0.0)
  {
  }

  /** The evidently intended rule: the link is shown iff the location has a latitude. */
  function ShowsMapLink(latitude: Latitude): (shown: bool)
    ensures shown <==> latitude.Some?
    ensures ShowsMapLinkAsWritten(latitude) ==> shown
  {
    latitude.Some?
  }

  /** An event's place, as the location section reads it. */
  datatype Location = Location(
    name: string, street: Option<string>,
    postalCode: Option<string>, locality: Option<string>, country: Option<string>,
    latitude: Latitude)

  /** The lines of the location section. */
  datatype LocationLines = LocationLines(name: string, street: Option<string>, address: string, mapLink: bool)

  /** `renderEventLocation`, with the corrected map-link rule. */
  function LocationSection(location: Option<Location>): (r: Option<LocationLines>)
    ensures r.Some? <==> location.Some?
    ensures r.Some? ==> r.value.name == location.value.name
    ensures r.Some? ==> r.value.address == AddressLine(location.value.postalCode, location.value.locality, location.value.country)
    ensures r.Some? ==> (r.value.street.Some? <==> ShowsStreet(location.value.street))
    ensures r.Some? && r.value.street.Some? ==> r.value.street == location.value.street
    ensures r.Some? ==> (r.value.mapLink <==> location.value.latitude.Some?)
  {
    match location
    case None => None
    case Some(l) =>
      Some(LocationLines(
        l.name,
        if ShowsStreet(l.street) then l.street else None,
        AddressLine(l.postalCode, l.locality, l.country),
        ShowsMapLink(l.latitude)))
  }

  /** `renderEventLocation` as written: the map link hangs on the latitude's truthiness. */
  function LocationSectionAsWritten(location: Option<Location>): (r: Option<LocationLines>)
    ensures r.Some? <==> location.Some?
    ensures r.Some? ==> r.value.name == location.value.name
    ensures r.Some? ==> r.value.address == AddressLine(location.value.postalCode, location.value.locality, location.value.country)
    ensures r.Some? ==> (r.value.street.Some? <==> ShowsStreet(location.value.street))
    ensures r.Some? && r.value.street.Some? ==> r.value.street == location.value.street
    ensures r.Some? ==> (r.value.mapLink <==> ShowsMapLinkAsWritten(location.value.latitude))
  {
    match location
    case None => None
    case Some(l) =>
      Some(LocationLines(
        l.name,
        if ShowsStreet(l.street) then l.street else None,
        AddressLine(l.postalCode, l.locality, l.country),
        ShowsMapLinkAsWritten(l.latitude)))
  }

  /** The two sections agree everywhere except on a location at the equator, which loses its map link. */
  lemma LocationSectionsDifferOnlyAtEquator(location: Option<Location>)
    ensures LocationSectionAsWritten(location) != LocationSection(location)
            <==> location.Some? && location.value.latitude == Some(0.0)
    ensures LocationSectionAsWritten(location) != LocationSection(location)
            ==> LocationSectionAsWritten(location) == Some(LocationSection(location).value.(mapLink := false))
  {
    if location.Some? {
      MapLinkRulesDifferOnlyAtEquator(location.value.latitude);
    }
  }

  /** `renderLinks`: no section without links; each link shown without its scheme. */
  function LinkLabels(urls: seq<string>): (r: Option<seq<string>>)
    ensures r.None? <==> |urls| == 0
    ensures r.Some? ==> |r.value| == |urls| && forall i :: 0 <= i < |urls| ==> SchemePrefix(urls[i]) + r.value[i] == urls[i]
  {
    if |urls| == 0 then None
    else Some(seq(|urls|, i requires 0 <= i < |urls| => StripScheme(urls[i])))
  }

  /** The top-level choice of the page. */
  datatype Page = MissingIndicator | Blank | EventPage

  /** `!status && isLoaded` shows the indicator; no status yet renders nothing. */
  function PageFor(hasStatus: bool, isLoaded: bool): (p: Page)
    ensures p == MissingIndicator <==> !hasStatus && isLoaded
    ensures p == Blank <==> !hasStatus && !isLoaded
    ensures p == EventPage <==> hasStatus
  {
    if !hasStatus && isLoaded then MissingIndicator
    else if !hasStatus then Blank
    else EventPage
  }

  /**
   * The page's `isLoaded` and `showMedia` state. The initial media visibility
   * comes from `defaultMediaVisibility`, which is not part of this model, so it
   * is a parameter.
   */
  class EventInformationView {
    var isLoaded: bool
    var showMedia: bool

    /** `isLoaded` starts as whether the status is already in the store. */
    constructor (hasStatus: bool, defaultShowMedia: bool)
      ensures isLoaded == hasStatus && showMedia == defaultShowMedia
    {
      isLoaded := hasStatus;
      showMedia := defaultShowMedia;
    }

    /**
     * Either callback of the `fetchStatus` promise: resolved and rejected both
     * mark the page loaded, so from then on a status still missing from the
     * store shows the indicator instead of a blank page.
     */
    method FetchSettled()
      modifies this`isLoaded
      ensures isLoaded
      ensures PageFor(false, isLoaded) == MissingIndicator
    {
      isLoaded := true;
    }

    /** The synchronous part of the effect on a new status id: media visibility is reset. */
    method StatusIdChanged(defaultShowMedia: bool)
      modifies this`showMedia
      ensures showMedia == defaultShowMedia
    {
      showMedia := defaultShowMedia;
    }

    /** `handleToggleMediaVisibility`. */
    method ToggleMediaVisibility()
      modifies this`showMedia
      ensures showMedia == !old(showMedia)
    {
      showMedia := !showMedia;
    }
  }
}
