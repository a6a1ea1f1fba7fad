/**
 * The two pagination thunks of a status's quote list (app/soapbox/actions/status_quotes.ts).
 *
 * The Redux store is a map from list key (`quotes:<statusId>`) to the list's
 * `{isLoading, next}` record, which the thunks only read. Everything a thunk does
 * is recorded, in order, in an effect log: each `dispatch` and each GET issued.
 * The HTTP collaborator is a parameter: the response the GET resolves or
 * rejects with. The reducer that applies the dispatched actions is not part of
 * this model.
 */
module StatusQuotes {
  import opened Wrappers

  /** One entry of a response's Web Linking header (RFC 8288, section 3). */
  datatype Link = Link(uri: string, rel: string)

  /**
   * Where the success callback throws: in `getLinks`, in the import dispatch, or
   * in the SUCCESS dispatch (a reducer that throws). The `.catch` after `.then`
   * catches each of these, so FAIL follows whatever was dispatched before.
   */
  datatype Stage = InGetLinks | InImport | InSuccess

  /**
   * How the GET and its success callback settle: the GET resolves with the status
   * JSON and parsed links and the callback completes, the GET rejects, or the GET
   * resolves and the callback throws `error` at `stage`.
   */
  datatype Response =
    | Ok(data: seq<string>, links: seq<Link>)
    | Err(error: string)
    | OkThenThrow(data: seq<string>, links: seq<Link>, stage: Stage, error: string)

  /** The actions the thunks dispatch. `NoOp` is the `noOp` thunk dispatched by a guard. */
  datatype Action =
    | FetchRequest(statusId: string)
    | FetchSuccess(statusId: string, statuses: seq<string>, next: Option<string>)
    | FetchFail(statusId: string, error: string)
    | ExpandRequest(statusId: string)
    | ExpandSuccess(statusId: string, statuses: seq<string>, next: Option<string>)
    | ExpandFail(statusId: string, error: string)
    | ImportStatuses(statuses: seq<string>)
    | NoOp
  {
    /** True for the six STATUS_QUOTES_* actions, all of which carry a status id. */
    predicate IsQuotesAction() {
      !ImportStatuses? && !NoOp?
    }
  }

  /** One observable side effect of a thunk. */
  datatype Effect = Dispatched(action: Action) | Requested(url: string)

  /** The part of a `status_lists` entry the thunks read. */
  datatype QuoteList = QuoteList(isLoading: bool, next: Option<string>)

  type Lists = map<string, QuoteList>

  const KeyPrefix: string := "quotes:"

  function ListKey(statusId: string): string {
    KeyPrefix + statusId
  }

  function QuotesUrl(statusId: string): string {
    "/api/v1/pleroma/statuses/" + statusId + "/quotes"
  }

  /** `getIn([key, 'isLoading'])`: a missing list is not loading. */
  predicate IsLoading(lists: Lists, key: string) {
    key in lists && lists[key].isLoading
  }

  /** `getIn([key, 'next'], null)`: a missing list has no cursor. */
  function StoredNext(lists: Lists, key: string): Option<string> {
    if key in lists then lists[key].next else None
  }

  /** Distinct status ids name distinct lists. */
  lemma ListKeyInjective(a: string, b: string)
    requires ListKey(a) == ListKey(b)
    ensures a == b
  {
    assert a == ListKey(a)[|KeyPrefix|..];
    assert b == ListKey(b)[|KeyPrefix|..];
  }

  /** `refs.find(link => link.rel === 'next')`, then `next ? next.uri : null`. */
  function NextLink(links: seq<Link>): (r: Option<string>)
    ensures r.None? <==> forall i :: 0 <= i < |links| ==> links[i].rel != "next"
    ensures r.Some? ==> exists i :: 0 <= i < |links| && links[i].rel == "next" && links[i].uri == r.value
                                    && forall j :: 0 <= j < i ==> links[j].rel != "next"
  {
    if links == [] then None
    else if links[0].rel == "next" then Some(links[0].uri)
    else
      var r := NextLink(links[1..]);
      assert forall i :: 1 <= i < |links| ==> links[i] == links[1..][i - 1];
      r
  }

  /** The actions and the request after the guard has passed: REQUEST, the GET, then the outcome. */
  function Settle(expand: bool, statusId: string, url: string, response: Response): seq<Effect> {
    var request := if expand then ExpandRequest(statusId) else FetchRequest(statusId);
    [Dispatched(request), Requested(url)] + Outcome(expand, statusId, response)
  }

  /** The dispatches after the GET has settled with `response`. */
  function Outcome(expand: bool, statusId: string, response: Response): seq<Effect> {
    match response
    case Ok(data, links) =>
      [Dispatched(ImportStatuses(data)), Dispatched(SuccessAction(expand, statusId, data, links))]
    case Err(e) =>
      [Dispatched(FailAction(expand, statusId, e))]
    case OkThenThrow(data, links, stage, e) =>
      (if stage == InGetLinks then [] else [Dispatched(ImportStatuses(data))])
      + (if stage == InSuccess then [Dispatched(SuccessAction(expand, statusId, data, links))] else [])
      + [Dispatched(FailAction(expand, statusId, e))]
  }

  function SuccessAction(expand: bool, statusId: string, data: seq<string>, links: seq<Link>): Action {
    var next := NextLink(links);
    if expand then ExpandSuccess(statusId, data, next) else FetchSuccess(statusId, data, next)
  }

  function FailAction(expand: bool, statusId: string, error: string): Action {
    if expand then ExpandFail(statusId, error) else FetchFail(statusId, error)
  }

  /** Number of GETs among `effects`. */
  function RequestCount(effects: seq<Effect>): nat {
    if effects == [] then 0
    else (if effects[0].Requested? then 1 else 0) + RequestCount(effects[1..])
  }

  lemma {:induction false} RequestCountAppend(a: seq<Effect>, b: seq<Effect>)
    ensures RequestCount(a + b) == RequestCount(a) + RequestCount(b)
  {
    if a == [] {
      assert a + b == b;
    } else {
      assert (a + b)[1..] == a[1..] + b;
      RequestCountAppend(a[1..], b);
    }
  }

  /** A log holding only dispatches issues no GET. */
  lemma {:induction false} NoRequestAmongDispatches(effects: seq<Effect>)
    requires forall i :: 0 <= i < |effects| ==> effects[i].Dispatched?
    ensures RequestCount(effects) == 0
  {
    if effects != [] {
      NoRequestAmongDispatches(effects[1..]);
    }
  }

  /** Everything `fetchStatusQuotes(statusId)` does against `lists` when the GET settles with `response`. */
  function FetchEffects(lists: Lists, statusId: string, response: Response): (r: seq<Effect>)
    // the loading guard: a loading list gets the no-op thunk and nothing else
    ensures IsLoading(lists, ListKey(statusId)) <==> r == [Dispatched(NoOp)]
    // at most one GET, to the quotes endpoint, right after REQUEST
    ensures forall i :: 0 <= i < |r| && r[i].Requested? ==>
              i == 1 && r[i].url == QuotesUrl(statusId) && r[0] == Dispatched(FetchRequest(statusId))
    ensures !IsLoading(lists, ListKey(statusId)) ==> |r| > 1 && r[1] == Requested(QuotesUrl(statusId))
    // every quotes action carries the id the thunk was called with
    ensures forall i :: 0 <= i < |r| && r[i].Dispatched? && r[i].action.IsQuotesAction() ==>
              r[i].action.statusId == statusId
    // success: import, then SUCCESS with the data and the `next` cursor, last
    ensures !IsLoading(lists, ListKey(statusId)) && response.Ok? ==>
              |r| == 4 && r[2] == Dispatched(ImportStatuses(response.data))
              && r[3] == Dispatched(FetchSuccess(statusId, response.data, NextLink(response.links)))
    // failure: exactly one FAIL with the error, no import and no SUCCESS
    ensures !IsLoading(lists, ListKey(statusId)) && response.Err? ==>
              |r| == 3 && r[2] == Dispatched(FetchFail(statusId, response.error))
              && forall i :: 0 <= i < |r| && r[i].Dispatched? ==>
                   !r[i].action.ImportStatuses? && !r[i].action.FetchSuccess? && (r[i].action.FetchFail? ==> i == |r| - 1)
    // a throw in the success callback: what was dispatched before it stays, then FAIL
    ensures !IsLoading(lists, ListKey(statusId)) && response.OkThenThrow? ==>
              && |r| == (match response.stage case InGetLinks => 3 case InImport => 4 case InSuccess => 5)
              && r[|r| - 1] == Dispatched(FetchFail(statusId, response.error))
              && (!response.stage.InGetLinks? ==> r[2] == Dispatched(ImportStatuses(response.data)))
              && (response.stage.InSuccess? ==>
                    r[3] == Dispatched(FetchSuccess(statusId, response.data, NextLink(response.links))))
  {
    if IsLoading(lists, ListKey(statusId)) then [Dispatched(NoOp)]
    else Settle(false, statusId, QuotesUrl(statusId), response)
  }

  /** Whether `expandStatusQuotes` gets past its guard: a stored cursor and a list that is not loading. */
  predicate CanExpand(lists: Lists, statusId: string) {
    StoredNext(lists, ListKey(statusId)).Some? && !IsLoading(lists, ListKey(statusId))
  }

  /** Everything `expandStatusQuotes(statusId)` does against `lists` when the GET settles with `response`. */
  function ExpandEffects(lists: Lists, statusId: string, response: Response): (r: seq<Effect>)
    // no cursor, or a loading list: the no-op thunk and nothing else
    ensures !CanExpand(lists, statusId) <==> r == [Dispatched(NoOp)]
    ensures CanExpand(lists, statusId) ==> |r| > 1 && r[1] == Requested(StoredNext(lists, ListKey(statusId)).value)
    // the only GET targets exactly the stored cursor, right after EXPAND_REQUEST
    ensures forall i :: 0 <= i < |r| && r[i].Requested? ==>
              i == 1 && Some(r[i].url) == StoredNext(lists, ListKey(statusId))
              && r[0] == Dispatched(ExpandRequest(statusId))
    ensures forall i :: 0 <= i < |r| && r[i].Dispatched? && r[i].action.IsQuotesAction() ==>
              r[i].action.statusId == statusId
    ensures CanExpand(lists, statusId) && response.Ok? ==>
              |r| == 4 && r[2] == Dispatched(ImportStatuses(response.data))
              && r[3] == Dispatched(ExpandSuccess(statusId, response.data, NextLink(response.links)))
    ensures CanExpand(lists, statusId) && response.Err? ==>
              |r| == 3 && r[2] == Dispatched(ExpandFail(statusId, response.error))
              && forall i :: 0 <= i < |r| && r[i].Dispatched? ==>
                   !r[i].action.ImportStatuses? && !r[i].action.ExpandSuccess? && (r[i].action.ExpandFail? ==> i == |r| - 1)
    ensures CanExpand(lists, statusId) && response.OkThenThrow? ==>
              && |r| == (match response.stage case InGetLinks => 3 case InImport => 4 case InSuccess => 5)
              && r[|r| - 1] == Dispatched(ExpandFail(statusId, response.error))
              && (!response.stage.InGetLinks? ==> r[2] == Dispatched(ImportStatuses(response.data)))
              && (response.stage.InSuccess? ==>
                    r[3] == Dispatched(ExpandSuccess(statusId, response.data, NextLink(response.links))))
  {
    var key := ListKey(statusId);
    match StoredNext(lists, key)
    case None => [Dispatched(NoOp)]
    case Some(url) =>
      if IsLoading(lists, key) then [Dispatched(NoOp)]
      else Settle(true, statusId, url, response)
  }

  /**
   * Re-entrancy. The reducer is not part of this model, so that it marks the list
   * as loading on REQUEST is a hypothesis (`loadingAfter`), not a fact: under it, a
   * second fetch started before the first settles issues no second GET.
   */
  lemma {:induction false} ReentrantFetchIssuesOneRequest(lists: Lists, loadingAfter: Lists, statusId: string,
                                                          first: Response, second: Response)
    requires !IsLoading(lists, ListKey(statusId))
    requires IsLoading(loadingAfter, ListKey(statusId))
    ensures RequestCount(FetchEffects(lists, statusId, first) + FetchEffects(loadingAfter, statusId, second)) == 1
  {
    var a := FetchEffects(lists, statusId, first);
    var b := FetchEffects(loadingAfter, statusId, second);
    RequestCountAppend(a, b);
    assert RequestCount(b) == 0 by {
      assert b == [Dispatched(NoOp)];
      assert b[1..] == [];
    }
    assert RequestCount(a) == 1 by {
      assert a == a[..2] + a[2..];
      RequestCountAppend(a[..2], a[2..]);
      assert a[..2][1..][1..] == [];
      NoRequestAmongDispatches(a[2..]);
    }
  }

  /**
   * Across all three outcomes: FAIL is dispatched exactly when the thunk got past
   * its guard and the GET or its success callback failed, and then it is last;
   * a SUCCESS always comes right after the import of the same statuses.
   */
  lemma FetchOutcomeOrder(lists: Lists, statusId: string, response: Response)
    ensures var r := FetchEffects(lists, statusId, response);
            (exists i :: 0 <= i < |r| && r[i].Dispatched? && r[i].action.FetchFail?)
            <==> !IsLoading(lists, ListKey(statusId)) && !response.Ok?
    ensures var r := FetchEffects(lists, statusId, response);
            forall i :: 0 <= i < |r| && r[i].Dispatched? && r[i].action.FetchFail? ==> i == |r| - 1
    ensures var r := FetchEffects(lists, statusId, response);
            forall i :: 0 <= i < |r| && r[i].Dispatched? && r[i].action.FetchSuccess? ==>
              i == 3 && r[2] == Dispatched(ImportStatuses(r[i].action.statuses))
  {
    var r := FetchEffects(lists, statusId, response);
    if !IsLoading(lists, ListKey(statusId)) && !response.Ok? {
      assert r[|r| - 1].action.FetchFail?;
    }
  }

  lemma ExpandOutcomeOrder(lists: Lists, statusId: string, response: Response)
    ensures var r := ExpandEffects(lists, statusId, response);
            (exists i :: 0 <= i < |r| && r[i].Dispatched? && r[i].action.ExpandFail?)
            <==> CanExpand(lists, statusId) && !response.Ok?
    ensures var r := ExpandEffects(lists, statusId, response);
            forall i :: 0 <= i < |r| && r[i].Dispatched? && r[i].action.ExpandFail? ==> i == |r| - 1
    ensures var r := ExpandEffects(lists, statusId, response);
            forall i :: 0 <= i < |r| && r[i].Dispatched? && r[i].action.ExpandSuccess? ==>
              i == 3 && r[2] == Dispatched(ImportStatuses(r[i].action.statuses))
  {
    var r := ExpandEffects(lists, statusId, response);
    if CanExpand(lists, statusId) && !response.Ok? {
      assert r[|r| - 1].action.ExpandFail?;
    }
  }

  /** A page whose links hold no `rel="next"` ends the list: the success carries a null cursor. */
  lemma LastPageStoresNullCursor(lists: Lists, statusId: string, data: seq<string>, links: seq<Link>)
    requires !IsLoading(lists, ListKey(statusId))
    requires forall i :: 0 <= i < |links| ==> links[i].rel != "next"
    ensures Dispatched(FetchSuccess(statusId, data, None)) in FetchEffects(lists, statusId, Ok(data, links))
  {
    var r := FetchEffects(lists, statusId, Ok(data, links));
    assert r[3] == Dispatched(FetchSuccess(statusId, data, None));
  }

  /** The Redux store as the two thunks see it: the lists they read and the effects they produce. */
  class QuoteStore {
    var lists: Lists
    var log: seq<Effect>

    constructor (lists: Lists)
      ensures this.lists == lists && log == []
    {
      this.lists := lists;
      log := [];
    }

    method Dispatch(action: Action)
      modifies this`log
      ensures log == old(log) + [Dispatched(action)]
    {
      log := log + [Dispatched(action)];
    }

    /** `api(getState).get(url)`: the request is recorded; its outcome is the caller's `response`. */
    method Get(url: string, response: Response) returns (settled: Response)
      modifies this`log
      ensures log == old(log) + [Requested(url)] && settled == response
    {
      log := log + [Requested(url)];
      settled := response;
    }

    /**
     * The `.then(...).catch(...)` callbacks once the GET has settled: import and
     * SUCCESS, or FAIL, or FAIL after whatever the success callback dispatched
     * before it threw.
     */
    method Settled(expand: bool, statusId: string, response: Response)
      modifies this`log
      ensures log == old(log) + Outcome(expand, statusId, response)
    {
      match response {
        case Ok(data, links) =>
          Dispatch(ImportStatuses(data));
          Dispatch(SuccessAction(expand, statusId, data, links));
        case Err(error) =>
          Dispatch(FailAction(expand, statusId, error));
        case OkThenThrow(data, links, stage, error) =>
          if stage != InGetLinks {
            Dispatch(ImportStatuses(data));
          }
          if stage == InSuccess {
            Dispatch(SuccessAction(expand, statusId, data, links));
          }
          Dispatch(FailAction(expand, statusId, error));
      }
    }

    method FetchStatusQuotes(statusId: string, response: Response)
      modifies this`log
      ensures lists == old(lists)
      ensures log == old(log) + FetchEffects(lists, statusId, response)
    {
      if IsLoading(lists, ListKey(statusId)) {
        Dispatch(NoOp);
        return;
      }
      Dispatch(FetchRequest(statusId));
      var settled := Get(QuotesUrl(statusId), response);
      Settled(false, statusId, settled);
    }

    method ExpandStatusQuotes(statusId: string, response: Response)
      modifies this`log
      ensures lists == old(lists)
      ensures log == old(log) + ExpandEffects(lists, statusId, response)
    {
      var url := StoredNext(lists, ListKey(statusId));
      if url.None? || IsLoading(lists, ListKey(statusId)) {
        Dispatch(NoOp);
        return;
      }
      Dispatch(ExpandRequest(statusId));
      var settled := Get(url.value, response);
      Settled(true, statusId, settled);
    }
  }
}
