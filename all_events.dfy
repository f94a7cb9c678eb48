/**
 * GET /api/all-events (public/server.js): two sub-requests joined with
 * `Promise.all`, the Mobilize items followed by the Google items, sorted in
 * place by date. The join is fail-fast: one rejected sub-request turns the
 * whole reply into a 500 with no items.
 */
module AllEvents {
  import opened Wrappers
  import opened Events
  import opened EventSort
  import Text

  /** How one axios sub-request settled: the `data.items` of its reply (if present), or a rejection message. */
  datatype SubResult = Resolved(items: Option<seq<Event>>) | Rejected(message: string)

  /** The aggregate reply: 200 `{items}` or 500 `{error, details}`. */
  datatype AllEventsReply = Combined(items: seq<Event>) | Failed(error: string, details: string)

  const CombinedError := "Failed to fetch combined events"

  /** The message axios rejects with when a reply's status is not 2xx. */
  function StatusRejection(status: int): string
  {
    "Request failed with status code " + Text.IntText(status)
  }

  /** How axios settles a call to one of the proxy endpoints. */
  function Settle(reply: EndpointReply): (r: SubResult)
    ensures reply.Items? <==> r.Resolved?
    ensures reply.Items? ==> r.items == Some(reply.items)
    ensures reply.ServerError? ==> r == Rejected(StatusRejection(500))
  {
    match reply
    case Items(items) => Resolved(Some(items))
    case ServerError(_, _) => Rejected(StatusRejection(StatusOf(reply)))
  }

  /** What a settled sub-request adds to the list: its items, or nothing when `data.items` is missing. */
  function Received(r: SubResult): (s: seq<Event>)
    ensures r.Resolved? && r.items.Some? ==> s == r.items.value
    ensures r.Rejected? || r.items.None? ==> s == []
  {
    if r.Resolved? && r.items.Some? then r.items.value else []
  }

  /**
   * The rejection `Promise.all` reports: the only one, or, when both reject,
   * whichever settled first (`mobilizeFirst`, a scheduling fact given as input).
   */
  function FirstRejection(mobilize: SubResult, google: SubResult, mobilizeFirst: bool): (r: Option<string>)
    ensures r.None? <==> mobilize.Resolved? && google.Resolved?
    ensures r.Some? ==> (mobilize.Rejected? && r.value == mobilize.message) || (google.Rejected? && r.value == google.message)
    ensures mobilize.Rejected? && google.Resolved? ==> r == Some(mobilize.message)
    ensures mobilize.Resolved? && google.Rejected? ==> r == Some(google.message)
  {
    if mobilize.Rejected? && (google.Resolved? || mobilizeFirst) then Some(mobilize.message)
    else if google.Rejected? then Some(google.message)
    else None
  }

  /** The sub-results' items can be ordered by the comparator (no Invalid Date among them). */
  predicate SortableItems(mobilize: SubResult, google: SubResult)
  {
    forall e :: e in Received(mobilize) + Received(google) ==> Sortable(e)
  }

  /** The reply the endpoint sends, as a function of the two settled sub-requests. */
  function AllEventsOf(mobilize: SubResult, google: SubResult, mobilizeFirst: bool): (r: AllEventsReply)
    requires mobilize.Resolved? && google.Resolved? ==> SortableItems(mobilize, google)
    ensures r.Combined? <==> mobilize.Resolved? && google.Resolved?
    ensures r.Failed? ==> r.error == CombinedError && Some(r.details) == FirstRejection(mobilize, google, mobilizeFirst)
    ensures r.Combined? ==> |r.items| == |Received(mobilize)| + |Received(google)|
  {
    match FirstRejection(mobilize, google, mobilizeFirst)
    case Some(message) => Failed(CombinedError, message)
    case None =>
      var merged: seq<SortableEvent> := Received(mobilize) + Received(google);
      Combined(SortByDate(merged))
  }

  /** The handler: concatenation, then `Array.prototype.sort` on a fresh array. */
  method AllEvents(mobilize: SubResult, google: SubResult, mobilizeFirst: bool) returns (reply: AllEventsReply)
    requires mobilize.Resolved? && google.Resolved? ==> SortableItems(mobilize, google)
    ensures reply == AllEventsOf(mobilize, google, mobilizeFirst)
    ensures reply.Combined? <==> mobilize.Resolved? && google.Resolved?
    ensures reply.Failed? ==>
      reply.error == CombinedError && Some(reply.details) == FirstRejection(mobilize, google, mobilizeFirst)
  {
    var rejection := FirstRejection(mobilize, google, mobilizeFirst);
    if rejection.Some? {
      return Failed(CombinedError, rejection.value);
    }
    var allEvents: seq<Event> := [];
    if mobilize.Resolved? && mobilize.items.Some? {
      allEvents := allEvents + mobilize.items.value;
    }
    if google.Resolved? && google.items.Some? {
      allEvents := allEvents + google.items.value;
    }
    assert allEvents == Received(mobilize) + Received(google);
    var sortable: seq<SortableEvent> := allEvents;
    var a := new SortableEvent[|sortable|](i requires 0 <= i < |sortable| => sortable[i]);
    assert a[..] == sortable;
    SortInPlace(a);
    reply := Combined(a[..]);
  }

  // ------------------------------------------------------------------ lemmas

  /** Fail-fast: one rejected sub-request makes the reply a 500 with that rejection, whatever the other returned. */
  lemma FailFast(mobilize: SubResult, google: SubResult, mobilizeFirst: bool)
    requires mobilize.Rejected? || google.Rejected?
    ensures AllEventsOf(mobilize, google, mobilizeFirst).Failed?
    ensures mobilize.Rejected? && google.Resolved? ==>
      AllEventsOf(mobilize, google, mobilizeFirst) == Failed(CombinedError, mobilize.message)
    ensures mobilize.Resolved? && google.Rejected? ==>
      AllEventsOf(mobilize, google, mobilizeFirst) == Failed(CombinedError, google.message)
  {
  }

  /** The items are the Mobilize items and the Google items, each exactly once, and nothing else. */
  lemma CombinedIsPermutation(mobilize: SubResult, google: SubResult, mobilizeFirst: bool)
    requires mobilize.Resolved? && google.Resolved? && SortableItems(mobilize, google)
    ensures var r := AllEventsOf(mobilize, google, mobilizeFirst);
      && r.Combined?
      && multiset(r.items) == multiset(Received(mobilize)) + multiset(Received(google))
      && |r.items| == |Received(mobilize)| + |Received(google)|
  {
    var merged: seq<SortableEvent> := Received(mobilize) + Received(google);
    SortByDatePermutation(merged);
  }

  /** The items are in non-decreasing date order, a missing date counting as 1970-01-01. */
  lemma CombinedIsSorted(mobilize: SubResult, google: SubResult, mobilizeFirst: bool)
    requires mobilize.Resolved? && google.Resolved? && SortableItems(mobilize, google)
    ensures var r := AllEventsOf(mobilize, google, mobilizeFirst);
      && r.Combined?
      && forall i, j :: 0 <= i < j < |r.items| ==> DateKey(r.items[i]) <= DateKey(r.items[j])
  {
    var merged: seq<SortableEvent> := Received(mobilize) + Received(google);
    SortByDateSorted(merged);
  }

  /**
   * Ties keep concatenation order: among the events of any one date, the
   * Mobilize ones come first, in Mobilize order, then the Google ones.
   */
  lemma CombinedTiesKeepOrder(mobilize: SubResult, google: SubResult, mobilizeFirst: bool, k: int)
    requires mobilize.Resolved? && google.Resolved? && SortableItems(mobilize, google)
    ensures var r := AllEventsOf(mobilize, google, mobilizeFirst);
      var m: seq<SortableEvent> := Received(mobilize);
      var g: seq<SortableEvent> := Received(google);
      && r.Combined?
      && WithDate(r.items, k) == WithDate(m, k) + WithDate(g, k)
  {
    var m: seq<SortableEvent> := Received(mobilize);
    var g: seq<SortableEvent> := Received(google);
    SortByDateStable(m + g, k);
    WithDateAppend(m, g, k);
  }

  /** Whatever stable sort the engine runs, the items are the same. */
  lemma CombinedIsTheStableSort(mobilize: SubResult, google: SubResult, mobilizeFirst: bool, r: seq<SortableEvent>)
    requires mobilize.Resolved? && google.Resolved? && SortableItems(mobilize, google)
    requires SortedByDate(r)
    requires forall k :: WithDate(r, k) == WithDate(Received(mobilize) + Received(google), k)
    ensures AllEventsOf(mobilize, google, mobilizeFirst) == Combined(r)
  {
    StableSortIsSortByDate(Received(mobilize) + Received(google), r);
  }

  // ---------------------------------------------------------- whole pipeline

  /** The axios message for a 500 reads as the library writes it. */
  lemma ServerErrorMessage()
    ensures StatusRejection(500) == "Request failed with status code 500"
  {
    assert Text.NatText(500) == "500";
  }

  /**
   * With the Google key missing, the aggregate always fails with the 500
   * rejection, whatever Mobilize returned and whichever settled first.
   */
  lemma GoogleKeyMissingFailsAll(mobilize: Upstream<MobilizeEvent>, apiKey: Option<string>,
                                 google: Upstream<GoogleItem>, mobilizeFirst: bool)
    requires !NonEmpty(apiKey)
    ensures AllEventsOf(Settle(MobilizeEventsReply(mobilize)), Settle(GoogleCalendarReply(apiKey, google)), mobilizeFirst)
      == Failed(CombinedError, "Request failed with status code 500")
  {
    ServerErrorMessage();
  }

  /** When both proxies answer 200, the aggregate holds exactly the mapped Mobilize events and Google items. */
  lemma PipelineKeepsEveryEvent(mobilize: seq<MobilizeEvent>, apiKey: Option<string>,
                                google: seq<GoogleItem>, mobilizeFirst: bool)
    requires NonEmpty(apiKey)
    requires MobilizeEventsReply(Fetched(Some(mobilize))).Items?
    requires SortableItems(Settle(MobilizeEventsReply(Fetched(Some(mobilize)))),
                           Settle(GoogleCalendarReply(apiKey, Fetched(Some(google)))))
    ensures var r := AllEventsOf(Settle(MobilizeEventsReply(Fetched(Some(mobilize)))),
                                 Settle(GoogleCalendarReply(apiKey, Fetched(Some(google)))), mobilizeFirst);
      && r.Combined? && |r.items| == |mobilize| + |google|
      && multiset(r.items) == multiset(NormalizeAllMobilize(mobilize).value) + multiset(NormalizeAllGoogle(google))
  {
    var m := Settle(MobilizeEventsReply(Fetched(Some(mobilize))));
    var g := Settle(GoogleCalendarReply(apiKey, Fetched(Some(google))));
    CombinedIsPermutation(m, g, mobilizeFirst);
  }
}
