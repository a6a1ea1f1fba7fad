# Soapbox front-end core, modelled in Dafny

This project models the logic inside seven files of the Soapbox web client and
proves properties of it. The rest of those files is React view code.

- **Quote-list pagination** (`StatusQuotes`). The thunks `fetchStatusQuotes` and `expandStatusQuotes` work on a
  status's quote list, which the Redux store keeps under `quotes:<statusId>`.
  The store is a class with two fields: the lists the thunks read, and an effect log.
  The log records every `dispatch` and every GET, in order.
  The HTTP outcome is a parameter: `Ok(data, links)`, `Err(error)`, or `OkThenThrow(data, links, stage, error)` for a throw in `getLinks`, the import or the SUCCESS dispatch.
- **Remote-timeline stream lifecycle** (`RemoteTimeline`). The page keeps one streaming connection in its
  `stream` ref. A class holds that slot, an event log (fetches, opens, closes) and a
  counter for fresh connection handles. Its invariant is that the slot holds exactly the live handles,
  so at most one connection is open and no handle is closed twice. The module also covers the timeline
  id strings and the pinned-host notice.
- **Link-card truncation** (`Card`). Word-boundary `trim` with an ellipsis, `indexOf` included. Also the
  `horizontal`/`interactive` defaults and the embed-click branch.
- **Title counter and favicon badge** (`Helmet`). The unread total, the "has unread" rule, the `(n) `
  title prefix and the badge decision. The capped chat count it shares with the sidebar is
  defined once, in `ChatCounts`.
- **Sidebar menu** (`SidebarNavigation`). `makeMenu` builds the menu by successive pushes, in a method
  proved equal to a specification function. The lemmas cover order, membership, the separator rule
  and the "More" dropdown rule. The module also covers the messages-link precedence.
- **Status content** (`StatusContent`). The in-place pass over the content's links: it marks each link,
  classifies it as a mention, a hashtag or a plain link, and attaches listeners. The module also covers
  hashtag normalisation, the mention/hashtag click guards, the click-versus-drag test, and the one-way
  collapse of tall content.
- **Event information** (`EventInformation`). The address line, the link labels with the scheme stripped,
  and the section-visibility rules. Also the `isLoaded`/`showMedia` state and the missing-status indicator.

`Wrappers` holds the `Option` type the other modules share.

## Model

| member | source | states |
|---|---|---|
| StatusQuotes.ListKeyInjective | app/soapbox/actions/status_quotes.ts:34 | Distinct status ids give distinct `quotes:<id>` keys, so two lists never share state. |
| StatusQuotes.NextLink | app/soapbox/actions/status_quotes.ts:44-50 | The cursor is the uri of the first link whose rel is `next`. It is null exactly when no link has that rel. |
| StatusQuotes.FetchEffects | app/soapbox/actions/status_quotes.ts:32-59 | A loading list gets the no-op and nothing else. Otherwise: FETCH_REQUEST, then one GET to `/api/v1/pleroma/statuses/<id>/quotes` at index 1, and no other GET. On success it dispatches import, then SUCCESS with the data and the next cursor. If the GET rejects, it dispatches exactly one FAIL with the error, last, with no import and no SUCCESS. If the success callback throws, the FAIL follows what was dispatched before the throw. A throw in `getLinks` leaves nothing before it, one in the import dispatch leaves the import, and one in the SUCCESS dispatch leaves import and SUCCESS. Every quotes action carries the caller's status id. |
| StatusQuotes.ExpandEffects | app/soapbox/actions/status_quotes.ts:61-90 | A null cursor or a loading list gives the no-op and nothing else. Otherwise: EXPAND_REQUEST, then one GET, to exactly the stored cursor, and no other GET. The success, failure and throw outcomes are as for fetch, with the EXPAND actions, and every quotes action carries the status id. |
| StatusQuotes.FetchOutcomeOrder | app/soapbox/actions/status_quotes.ts:43-58 | Over every outcome, FAIL is dispatched iff the guard passed and the response is not a clean success. The FAIL is always last, and a SUCCESS always comes right after the import of the same statuses. |
| StatusQuotes.ExpandOutcomeOrder | app/soapbox/actions/status_quotes.ts:74-89 | The same for expand: EXPAND_FAIL iff past the guard and not a clean success, always last, and EXPAND_SUCCESS right after the import. |
| StatusQuotes.ReentrantFetchIssuesOneRequest | app/soapbox/actions/status_quotes.ts:34-43 | Assume the list is marked loading once the first REQUEST has been applied (the reducer is not shown). Then a second fetch started before the first settles issues no GET: two calls make exactly one request. |
| StatusQuotes.LastPageStoresNullCursor | app/soapbox/actions/status_quotes.ts:44-51 | A response with no `rel="next"` link makes SUCCESS carry a null cursor. |
| StatusQuotes.QuoteStore.Get | app/soapbox/actions/status_quotes.ts:43 | The GET is recorded in the log, and it settles with the given response. |
| StatusQuotes.QuoteStore.Settled | app/soapbox/actions/status_quotes.ts:43-58 | The `.then(...).catch(...)` callbacks append exactly the outcome's dispatches: import then SUCCESS, or FAIL alone, or FAIL after what the success callback dispatched before it threw. |
| StatusQuotes.QuoteStore.FetchStatusQuotes | app/soapbox/actions/status_quotes.ts:32-59 | The thunk leaves the lists unchanged. It appends exactly `FetchEffects` to the log. |
| StatusQuotes.QuoteStore.ExpandStatusQuotes | app/soapbox/actions/status_quotes.ts:61-90 | The thunk leaves the lists unchanged. It appends exactly `ExpandEffects` to the log. |
| RemoteTimeline.TimelineIdInjective | app/soapbox/features/remote-timeline/index.tsx:90 | For hosts without `:`, distinct (onlyMedia, instance) pairs give distinct `remote[:media]:<instance>` ids, as `TimelineId` builds them. |
| RemoteTimeline.TimelineIdCollidesWithPort | app/soapbox/features/remote-timeline/index.tsx:90 | If a host may contain `:`, ids collide: host `media:8080` on the plain timeline and host `8080` on the media timeline get the same id. |
| RemoteTimeline.ScrollKeyInjective | app/soapbox/features/remote-timeline/index.tsx:89 | Distinct instances give distinct `remote_<instance>_timeline` scroll keys, as `ScrollKey` builds them. |
| RemoteTimeline.ShowsNotice | app/soapbox/features/remote-timeline/index.tsx:74 | The close/notice row is shown iff no pinned host (line 40) equals the instance. |
| RemoteTimeline.CloseKeepsLifecycle | app/soapbox/features/remote-timeline/index.tsx:42-46 | Closing the slot's handle keeps the lifecycle invariant with the slot cleared, and leaves no live handle. |
| RemoteTimeline.FetchKeepsLifecycle | app/soapbox/features/remote-timeline/index.tsx:58 | A timeline fetch keeps the lifecycle invariant. |
| RemoteTimeline.OpenKeepsLifecycle | app/soapbox/features/remote-timeline/index.tsx:59 | Opening a fresh handle into an empty slot keeps the invariant. |
| RemoteTimeline.OpenedInstanceIffOpened | app/soapbox/features/remote-timeline/index.tsx:59 | A handle has an instance in the log exactly when the log holds its `Opened` event. |
| RemoteTimeline.RemoteTimelineView.constructor | app/soapbox/features/remote-timeline/index.tsx:35 | The slot starts null, with nothing opened. |
| RemoteTimeline.RemoteTimelineView.Disconnect | app/soapbox/features/remote-timeline/index.tsx:42-46 | An empty slot: nothing happens. A filled slot: its handle is closed exactly once, and the slot itself is untouched. |
| RemoteTimeline.RemoteTimelineView.Connect | app/soapbox/features/remote-timeline/index.tsx:59 | A fresh handle is opened for the current instance and onlyMedia. |
| RemoteTimeline.RemoteTimelineView.LoadMore | app/soapbox/features/remote-timeline/index.tsx:52-54 | One fetch with the caller's maxId and the current instance and onlyMedia. The invariant is kept. |
| RemoteTimeline.RemoteTimelineView.Mount | app/soapbox/features/remote-timeline/index.tsx:56-60 | The prior handle, if any, is closed first. Then comes the first-page fetch with no maxId, then the new handle is opened and stored. Afterwards that handle is the only live one, and it was opened for the current instance. |
| RemoteTimeline.RemoteTimelineView.Unmount | app/soapbox/features/remote-timeline/index.tsx:61-64 | The current handle is closed and the slot is cleared. No handle is left live. |
| RemoteTimeline.RemoteTimelineView.SetOnlyMedia | app/soapbox/features/remote-timeline/index.tsx:56-65 | The same value changes nothing else. A new value closes the current handle, fetches the first page, and opens one fresh handle for the current instance and the new value. That handle is stored, it is the only live one, and the handle counter moves by one. The invariant is kept. |
| RemoteTimeline.RemoteTimelineView.SetInstance | app/soapbox/features/remote-timeline/index.tsx:32-65 | A new `instance` route parameter changes the instance only. The effect depends on `onlyMedia` alone, so the live handle still belongs to the instance it was opened for. |
| Card.IndexOf | app/soapbox/features/status/components/card.tsx:15 | On UTF-16 code units, `indexOf(' ', len)` with a negative start clamped to 0. The result is -1 iff no match exists at or after the start. Otherwise it is the first match there. |
| Card.Trim | app/soapbox/features/status/components/card.tsx:14-22 | Lengths and positions count UTF-16 code units. The text is returned unchanged iff no space occurs at or after `len`. The result is never longer than the text. |
| Card.TrimCuts | app/soapbox/features/status/components/card.tsx:15-21 | When the first space at or after `len` is at `cut`, the result is `text[..cut] + '…'`. The ellipsis is always added, because `length > len`. Also `cut >= len`. |
| Card.ShortTextUnchanged | app/soapbox/features/status/components/card.tsx:15-19 | Text no longer than `len` is returned unchanged. |
| Card.TrimIdempotent | app/soapbox/features/status/components/card.tsx:14-22 | `trim(trim(t, n), n) == trim(t, n)`. |
| Card.TrimKeepsLeadingText | app/soapbox/features/status/components/card.tsx:21 | The first `len` UTF-16 code units (all of a shorter text) always survive the cut. |
| Card.AstralTextIsCut | app/soapbox/features/status/components/card.tsx:14-22 | A title of 61 astral emoji and " abc" is 126 code units long, so it is cut after the emoji and given an ellipsis, although it has only 65 code points. |
| Card.TrimEmptyIffEmpty | app/soapbox/features/status/components/card.tsx:139 | Only empty text trims to empty, so the title block is shown iff the card has a title. |
| Card.TrimmedTitle | app/soapbox/features/status/components/card.tsx:55 | The title under the default limit of 120 code units (line 38). It is unchanged when at most 120 units long, empty iff the title is empty, and never longer. |
| Card.TrimmedDescription | app/soapbox/features/status/components/card.tsx:56 | The same for the description, under the default limit of 200 code units (line 39). |
| Card.Horizontal | app/soapbox/features/status/components/card.tsx:117-118 | The caller's boolean when given. Otherwise the card is horizontal iff it is interactive (`Card.Interactive`: the type is not `link`) or it is embedded. |
| Card.HandleEmbedClick | app/soapbox/features/status/components/card.tsx:74-82 | A photo opens the media viewer and leaves `embedded` as it was. Any other type sets `embedded`. |
| ChatCounts.Contribution | app/soapbox/components/helmet.tsx:12 | A chat adds at most 1, and a missing unread count adds 0. For a non-negative count it adds 1 iff that count is at least 1. |
| ChatCounts.CappedUnreadChats | app/soapbox/components/helmet.tsx:12 | The fold is at most the number of chats, and it is non-negative for non-negative counts. |
| ChatCounts.CappedCountsUnreadChats | app/soapbox/components/helmet.tsx:12 | With non-negative counts, the fold equals the number of chats with an unread message. |
| Helmet.NotifTotals | app/soapbox/components/helmet.tsx:10-16 | The total is bounded above by notifications + chats + reports + approvals. With non-negative inputs it is at least reports + approvals and at least the notifications. |
| Helmet.NotifTotalsCountsChats | app/soapbox/components/helmet.tsx:11-15 | The total is notifications (0 when falsy) + unread chats, each counted once + open reports + awaiting approvals. |
| Helmet.HasUnreadNotifications | app/soapbox/components/helmet.tsx:23 | True iff `unreadCount >= 1` and demetricator is off. |
| Helmet.Decimal | app/soapbox/components/helmet.tsx:26 | The count in the template literal is rendered as non-empty decimal digits, with no leading zero. |
| Helmet.DecimalRoundTrip | app/soapbox/components/helmet.tsx:26 | Parsing the rendered digits gives back the count. |
| Helmet.AddCounterPrefix | app/soapbox/components/helmet.tsx:25-27 | `AddCounter`: with unread notifications the title becomes `(digits) title`, where the digits read back as the count. Otherwise the title is returned unchanged. |
| Helmet.UpdateFaviconBadge | app/soapbox/components/helmet.tsx:29-35 | The badge is drawn iff there are unread notifications, and cleared otherwise. |
| SidebarNavigation.MakeMenu | app/soapbox/components/sidebar-navigation.tsx:27-95 | The pushes build exactly the menu that the function `SidebarNavigation.Menu` specifies. |
| SidebarNavigation.AccountEntriesOrdered | app/soapbox/components/sidebar-navigation.tsx:30-76 | The signed-in entries come in the fixed order, each kind at most once. |
| SidebarNavigation.MenuOrdered | app/soapbox/components/sidebar-navigation.tsx:31-92 | The order is follow requests, bookmarks, lists, developers, dashboard, separator, local, fediverse, each kind at most once. |
| SidebarNavigation.AccountEntriesMembership | app/soapbox/components/sidebar-navigation.tsx:30-76 | Each signed-in entry is present iff its condition holds. |
| SidebarNavigation.MenuMembership | app/soapbox/components/sidebar-navigation.tsx:27-95 | Each entry is present iff its condition holds. Follow requests iff an account is locked or has requests. Separator iff an account and publicTimeline. Local iff publicTimeline. Fediverse iff publicTimeline and federating. |
| SidebarNavigation.MenuPayloads | app/soapbox/components/sidebar-navigation.tsx:36-82 | The follow-requests entry carries its count, the dashboard entry its count, and the local entry the federating flag. |
| SidebarNavigation.SeparatorBeforeLocalTimeline | app/soapbox/components/sidebar-navigation.tsx:73-84 | A separator is always immediately followed by the local-timeline entry. |
| SidebarNavigation.SignedOutMenu | app/soapbox/components/sidebar-navigation.tsx:30-92 | Without an account, only the local-timeline and fediverse entries can appear. |
| SidebarNavigation.MoreDropdownShown | app/soapbox/components/sidebar-navigation.tsx:165 | The menu is non-empty iff one of the entry conditions holds, which is exactly when "More" is rendered. |
| SidebarNavigation.RenderMessagesLink | app/soapbox/components/sidebar-navigation.tsx:100-123 | Chats wins: a chats link with the count iff chats is on. Otherwise a messages link iff directTimeline or conversations. Otherwise no link. |
| SidebarNavigation.ChatsBadgeCountsChats | app/soapbox/components/sidebar-navigation.tsx:21 | The chats badge counts each chat with unread messages once, and never exceeds the number of chats. |
| StatusContent.FindMention | app/soapbox/components/status_content.tsx:94 | The first mention whose url equals the href. None iff there is no such mention. |
| StatusContent.Classify | app/soapbox/components/status_content.tsx:94-105 | A mention iff some mention url equals the href. Otherwise a hashtag iff the text starts with `#` or the previous sibling ends with `#`. Otherwise a plain link. A mention link carries the first mention whose url equals the href. |
| StatusContent.ProcessLinkMeans | app/soapbox/components/status_content.tsx:86-105 | What `ProcessLink` does to one link. An already-marked link is left as it is. Otherwise it gains `status-link`, rel `nofollow noopener`, target `_blank` and exactly one listener: a mention gets title = acct, a hashtag keeps its title, and a plain link gets title = href. |
| StatusContent.ProcessLinkIdempotent | app/soapbox/components/status_content.tsx:87 | After one pass a link is marked, and a second pass changes nothing. |
| StatusContent.UpdateStatusLinks | app/soapbox/components/status_content.tsx:80-107 | Every link of the node is replaced by its processed form. |
| StatusContent.Lower | app/soapbox/components/status_content.tsx:66 | On ASCII, no capital letter remains. Each capital becomes the letter 32 code points above it, and every other character is unchanged. |
| StatusContent.LowerIdempotent | app/soapbox/components/status_content.tsx:66 | Lower-casing an already lower-cased string changes nothing. |
| StatusContent.NormalizeHashtag | app/soapbox/components/status_content.tsx:66 | One leading `#`, if present, is removed, and the rest is lower-cased, leaving no upper-case ASCII letter. |
| StatusContent.OnMentionClick | app/soapbox/components/status_content.tsx:57-63 | Navigates iff button 0 with neither ctrl nor meta, and then to `/@<acct>`. |
| StatusContent.OnHashtagClick | app/soapbox/components/status_content.tsx:65-73 | Navigates iff button 0 with neither ctrl nor meta, and then to `/tags/<normalised tag>`. |
| StatusContent.CollapseAfterMeans | app/soapbox/components/status_content.tsx:109-117 | Over any renders, content ends collapsed iff it started so, or it is collapsable, has onClick, has no spoiler and some render measured more than 642 (line 18). |
| StatusContent.StatusContentView.constructor | app/soapbox/components/status_content.tsx:49-52 | Not collapsed, and no start point. |
| StatusContent.StatusContentView.MaybeSetCollapsed | app/soapbox/components/status_content.tsx:109-117 | Collapse never turns off. An unmounted node changes nothing. Otherwise the new flag is one collapse step. |
| StatusContent.StatusContentView.HandleMouseDown | app/soapbox/components/status_content.tsx:134-136 | The pointer position is stored. |
| StatusContent.StatusContentView.HandleMouseUp | app/soapbox/components/status_content.tsx:138-155 | onClick fires iff all of these hold: there was a mousedown, neither target nor parent is a button or link, `|dx|+|dy| < 5`, button 0 without ctrl/meta, and onClick exists. The start point is cleared except on the two early returns. |
| StatusContent.Rendered | app/soapbox/components/status_content.tsx:167-233 | Empty content renders nothing. Otherwise the content comes first. "Read more" appears iff onClick and collapsed. A poll part appears iff the status has that poll. |
| EventInformation.TruthyParts | app/soapbox/features/event/event-information.tsx:75 | The filter keeps only non-empty parts and every truthy part. It is empty iff no part is truthy. |
| EventInformation.AddressPartsInOrder | app/soapbox/features/event/event-information.tsx:75 | The kept parts are exactly the truthy postal code, locality and country, in that order. |
| EventInformation.JoinEndsWithLast | app/soapbox/features/event/event-information.tsx:75 | A join ends with its last part. |
| EventInformation.AddressLineShape | app/soapbox/features/event/event-information.tsx:75 | `AddressLine`: the line is empty iff no part is truthy. Otherwise it starts with the first kept part and ends with the last, so no separator dangles at either end. |
| EventInformation.SchemePrefix | app/soapbox/features/event/event-information.tsx:125 | The regex prefix matched is `http://`, `https://` or nothing, and the URL starts with it. |
| EventInformation.StripScheme | app/soapbox/features/event/event-information.tsx:125 | The removed prefix followed by the label is the URL. |
| EventInformation.StripSchemeCases | app/soapbox/features/event/event-information.tsx:125 | Exactly one leading `http://` or `https://` is removed. Other URLs are unchanged. |
| EventInformation.TrimEmptyIffBlank | app/soapbox/features/event/event-information.tsx:71 | `EventInformation.Trim`, the model of `trim()`, gives the empty string iff every character is ECMAScript white space. |
| EventInformation.ShowsStreet | app/soapbox/features/event/event-information.tsx:71 | The street line is shown iff the street has a non-blank character. |
| EventInformation.ShowsDescription | app/soapbox/features/event/event-information.tsx:141 | The description is shown iff the content has a non-blank character. |
| EventInformation.EventDate | app/soapbox/features/event/event-information.tsx:91-105 | There is no date section without a start time. The end is shown iff it is present. |
| EventInformation.ShowsQuote | app/soapbox/features/event/event-information.tsx:159 | The quote is shown iff set and `quote_visible` is not false (absent counts as true). |
| EventInformation.EquatorHidesMapLink | app/soapbox/features/event/event-information.tsx:76 | As written (`ShowsMapLinkAsWritten`), latitude 0 hides the map link, although the location has a latitude. |
| EventInformation.MapLinkRulesDifferOnlyAtEquator | app/soapbox/features/event/event-information.tsx:76 | The as-written and corrected rules differ exactly at latitude 0. |
| EventInformation.ShowsMapLink | app/soapbox/features/event/event-information.tsx:76 | The map link is shown iff the latitude is present. |
| EventInformation.LocationSectionAsWritten | app/soapbox/features/event/event-information.tsx:58-86 | A section exists iff there is a location. It carries the location's name and its address line, its street line follows the street rule, and its map link follows the latitude's truthiness, as written. |
| EventInformation.LocationSectionsDifferOnlyAtEquator | app/soapbox/features/event/event-information.tsx:76 | The as-written and corrected sections are equal except for a location at latitude 0. There the as-written one is the corrected one without its map link. |
| EventInformation.LocationSection | app/soapbox/features/event/event-information.tsx:58-86 | A section exists iff there is a location. It carries the location's name and its address line, its street line follows the street rule, and its map link follows the corrected latitude rule. |
| EventInformation.LinkLabels | app/soapbox/features/event/event-information.tsx:112-131 | There is no section without links. Otherwise there is one label per link, each being the URL with its scheme removed. |
| EventInformation.PageFor | app/soapbox/features/event/event-information.tsx:133-137 | The missing indicator appears iff loaded with no status. Not loaded with no status renders nothing. |
| EventInformation.EventInformationView.constructor | app/soapbox/features/event/event-information.tsx:33-34 | `isLoaded` starts as whether the status is in the store. `showMedia` starts at the default visibility. |
| EventInformation.EventInformationView.FetchSettled | app/soapbox/features/event/event-information.tsx:37-41 | Success and failure both set `isLoaded`. From then on a status still missing from the store shows the missing indicator (lines 133-137), not a blank page. |
| EventInformation.EventInformationView.StatusIdChanged | app/soapbox/features/event/event-information.tsx:43 | Media visibility is reset to the default. |
| EventInformation.EventInformationView.ToggleMediaVisibility | app/soapbox/features/event/event-information.tsx:46-48 | Media visibility is flipped. |

## Left out

- The `status_lists` reducer is not part of this model. That REQUEST marks a list as loading is a hypothesis of `ReentrantFetchIssuesOneRequest`, not a fact. Merging and deduplicating pages or pushed entries is not in these files and is not modelled.
- StatusQuotes.FetchEffects: a throw in the FAIL dispatch itself, which would reject the thunk's promise, is not modelled. A throw part-way through `importFetchedStatuses`, after some of its own dispatches, is recorded as one import dispatch followed by FAIL.
- StatusQuotes.ExpandEffects: the same two cases are left out as for fetch, with the EXPAND actions.
- `api`, `getLinks` and `importFetchedStatuses` are foreign calls. The GET's outcome is a parameter. The parsed `Link` header is a list of (uri, rel) pairs. The statuses are opaque strings.
- Promise timing and interleavings of concurrent thunks are not modelled. Each thunk runs to completion against one outcome: the GET rejects, or it resolves and the success callback completes or throws at one stage. The `noOp` thunk's own promise is not modelled.
- `connectRemoteStream` and `expandRemoteTimeline` are recorded as events, not executed. A handle is a fresh number, and invoking its disconnect closure is a `Closed` event.
- RemoteTimeline.RemoteTimelineView.SetInstance: the effect re-runs only when `onlyMedia` changes (index.tsx:65). A new `instance` therefore reopens nothing, and the live connection stays the one opened for the previous host. The model states that staleness as it is and does not correct it. The pinned-host notice and the column heading re-read the new instance, but rendering is not modelled.
- A missing `instance` route parameter (`undefined` in the strings) is not modelled. The instance is always a string.
- The card's `getRatio`, height and width arithmetic is floating point and is not modelled. Neither is the `setRef` width cache.
- The card's effect that resets `embedded` when the card url changes (card.tsx:51-53) is not modelled.
- Card.Trim: the caller supplies the title and description already encoded as UTF-16 code units, because JavaScript's `length` and `indexOf` count those units. Decoding from code points is not modelled. The cut cannot split a well-formed surrogate pair, because it always lands on a space.
- Card.Trim: `len` is an integer. A fractional or NaN limit, which `indexOf` would convert, is not modelled.
- Helmet.NotifTotals: a chat's unread count is an optional integer, and an absent one counts as 0. `Math.min(get('unread', 0), 1)` (helmet.tsx:12) and `Math.min(unread || 0, 1)` (sidebar-navigation.tsx:21) agree on an absent key and on `null`, where both add 0. They differ on NaN and on a key that is present but holds `undefined`. There helmet.tsx adds NaN, which makes the whole total NaN, while sidebar-navigation.tsx adds 0. Neither case is modelled.
- Helmet.Decimal: counts are unbounded integers, while in JavaScript they are doubles. Those lose integer precision above 2^53, and the template literal switches to exponent notation from 1e21 on. The same holds for `Helmet.AddCounterPrefix` and `Helmet.NotifTotals`.
- FaviconService is a foreign call. The badge decision is a value, not a drawing.
- The messages link and the notification/profile/settings links are rendered only with an account (sidebar-navigation.tsx:140-163). The model states the link rule, not that guard.
- StatusContent.Lower: JavaScript's `toLowerCase` folds every Unicode capital, and it can change the length, as 'İ' (U+0130) becomes two code units. The model folds only 'A'..'Z' and keeps the length.
- StatusContent.NormalizeHashtag: `toLowerCase` is modelled for ASCII letters only.
- The DOM is modelled as values. An unmounted content node is a link array of length 0. The DOM `href` is taken as already resolved. `textContent` is a string.
- `maybeSetOnlyEmoji`, `isRtl`, `addGreentext`, translation and `parsedHtml` rely on helpers that are not part of this model, so they are not modelled.
- `defaultMediaVisibility` is not part of this model. It is a parameter of `EventInformationView`.
- `handleShowMap`, `handleCloseClick` and the modal and router calls are UI navigation and are not modelled.
- EventInformation.LocationSection: this section uses the corrected map-link rule (see Findings). At latitude 0 it shows the link, where the code as written shows none. `EventInformation.LocationSectionAsWritten` keeps the rule as written. The bare `0` that React renders in its place is not modelled.
- EventInformation.Truthy: a string prop is truthy iff present and non-empty. A latitude's `NaN` is not modelled.
- JSX, CSS classes, React hooks' scheduling, focus handling and the context files (modal, landing page, cards, chats search and the rest) are not part of this model.

## Findings

| source | as written | input that shows it | evidently intended | confidence | as-written member | corrected member |
|---|---|---|---|---|---|---|
| app/soapbox/features/event/event-information.tsx:76 | `event.location.get('latitude') && (…)` tests the latitude for truthiness. | A location at latitude 0 (on the equator): `0` is falsy, so no "Show on map" link is rendered, and React renders the bare `0` instead. | Show the map link whenever the location has a latitude. | medium; not executed | EventInformation.EquatorHidesMapLink | EventInformation.ShowsMapLink |
