/**
 * The event records of the Express backend (public/server.js): the raw
 * shapes the Mobilize and Google Calendar APIs return, the flat record both
 * proxies emit, the two mappers, and the two per-source endpoints as
 * functions of the upstream reply.
 */
module Events {
  import opened Wrappers

  /**
   * A piece of date text as `new Date(text)` reads it: the instant it denotes,
   * in milliseconds since 1970-01-01T00:00:00Z, or an Invalid Date (NaN).
   * Text naming an instant outside the range a Date can hold is an Invalid
   * Date too, so a valid instant is always in range. The text itself is not
   * kept; a missing or empty string is `None` where it is used.
   */
  datatype DateText = Valid(ms: TimeValue) | Invalid

  /** The largest distance from the epoch, in milliseconds, a JavaScript Date can hold. */
  const MaxTimeMs: int := 8_640_000_000_000_000

  /** A time value a valid Date can hold. */
  type TimeValue = ms: int | -MaxTimeMs <= ms <= MaxTimeMs

  /** The RangeError message of `toISOString` on an Invalid Date. */
  const InvalidTimeValue := "Invalid time value"

  /** Mobilize ids are numbers, Google ids are strings. */
  datatype EventId = NumericId(n: int) | TextId(s: string)

  /** The `source` tag of a flat record. */
  datatype Source = Mobilize | Google

  /** The flat record both proxies emit (`event_type` is `eventType`). */
  datatype Event = Event(
    id: Option<EventId>,
    summary: Option<string>,
    description: Option<string>,
    date: Option<DateText>,
    endDate: Option<DateText>,
    image: Option<string>,
    org: Option<string>,
    url: Option<string>,
    eventType: Option<string>,
    source: Source)

  // ---------------------------------------------------------------- Mobilize

  /** One occurrence of a Mobilize event; times are epoch seconds. */
  datatype Timeslot = Timeslot(startDate: Option<int>, endDate: Option<int>)

  datatype Sponsor = Sponsor(name: Option<string>)

  datatype MobilizeEvent = MobilizeEvent(
    id: Option<EventId>,
    title: Option<string>,
    description: Option<string>,
    timeslots: Option<seq<Timeslot>>,
    featuredImageUrl: Option<string>,
    sponsor: Option<Sponsor>,
    browserUrl: Option<string>,
    eventType: Option<string>)

  /** `(event.timeslots && event.timeslots[0]) || {}`: the first timeslot, or one with no times. */
  function FirstTimeslot(e: MobilizeEvent): (t: Timeslot)
    ensures e.timeslots.Some? && |e.timeslots.value| > 0 ==> t == e.timeslots.value[0]
    ensures e.timeslots.None? || |e.timeslots.value| == 0 ==> t == Timeslot(None, None)
  {
    if e.timeslots.Some? && |e.timeslots.value| > 0 then e.timeslots.value[0] else Timeslot(None, None)
  }

  /**
   * `seconds ? new Date(seconds * 1000).toISOString() : null`: absent and zero
   * give null, an instant a Date cannot hold throws RangeError (None here).
   */
  function IsoFromSeconds(seconds: Option<int>): (r: Option<Option<DateText>>)
    ensures seconds.None? || seconds == Some(0) ==> r == Some(None)
    ensures seconds.Some? && seconds.value != 0 ==>
      (r.Some? <==> -MaxTimeMs <= seconds.value * 1000 <= MaxTimeMs)
    ensures r.Some? && r.value.Some? ==>
      seconds.Some? && seconds.value != 0 && r.value.value == Valid(seconds.value * 1000)
    ensures seconds.Some? && seconds.value != 0 && -MaxTimeMs <= seconds.value * 1000 <= MaxTimeMs ==>
      r == Some(Some(Valid(seconds.value * 1000)))
  {
    match seconds
    case None => Some(None)
    case Some(s) =>
      if s == 0 then Some(None)
      else if -MaxTimeMs <= s * 1000 <= MaxTimeMs then Some(Some(Valid(s * 1000)))
      else None
  }

  /** The flat record of one Mobilize event; None when formatting one of its times throws. */
  function NormalizeMobilize(e: MobilizeEvent): (r: Option<Event>)
    ensures r.Some? <==> IsoFromSeconds(FirstTimeslot(e).startDate).Some? && IsoFromSeconds(FirstTimeslot(e).endDate).Some?
    ensures r.Some? ==>
      && r.value.source == Mobilize
      && r.value.id == e.id && r.value.summary == e.title && r.value.description == e.description
      && r.value.image == e.featuredImageUrl && r.value.url == e.browserUrl && r.value.eventType == e.eventType
      && r.value.org == (if e.sponsor.Some? then e.sponsor.value.name else None)
      && Some(r.value.date) == IsoFromSeconds(FirstTimeslot(e).startDate)
      && Some(r.value.endDate) == IsoFromSeconds(FirstTimeslot(e).endDate)
  {
    var slot := FirstTimeslot(e);
    match (IsoFromSeconds(slot.startDate), IsoFromSeconds(slot.endDate))
    case (Some(date), Some(endDate)) =>
      Some(Event(
        id := e.id,
        summary := e.title,
        description := e.description,
        date := date,
        endDate := endDate,
        image := e.featuredImageUrl,
        org := if e.sponsor.Some? then e.sponsor.value.name else None,
        url := e.browserUrl,
        eventType := e.eventType,
        source := Mobilize))
    case _ => None
  }

  /** `.map` over the Mobilize events; None when one of the mapped events throws. */
  function NormalizeAllMobilize(es: seq<MobilizeEvent>): (r: Option<seq<Event>>)
    ensures r.Some? <==> forall i :: 0 <= i < |es| ==> NormalizeMobilize(es[i]).Some?
    ensures r.Some? ==> |r.value| == |es|
    ensures r.Some? ==> forall i :: 0 <= i < |es| ==> Some(r.value[i]) == NormalizeMobilize(es[i])
    decreases |es|
  {
    if es == [] then Some([])
    else
      var first := NormalizeMobilize(es[0]);
      var rest := NormalizeAllMobilize(es[1..]);
      if first.Some? && rest.Some? then Some([first.value] + rest.value)
      else
        assert first.Some? ==> exists i :: 1 <= i < |es| && NormalizeMobilize(es[i]).None? by {
          if first.Some? {
            var j :| 0 <= j < |es[1..]| && NormalizeMobilize(es[1..][j]).None?;
            assert NormalizeMobilize(es[j + 1]).None?;
          }
        }
        None
  }

  // ------------------------------------------------------------------ Google

  /** Google's `start`/`end` objects: a `dateTime` for timed events, a `date` for all-day ones. */
  datatype GoogleTime = GoogleTime(dateTime: Option<DateText>, date: Option<DateText>)

  datatype GoogleItem = GoogleItem(
    id: Option<string>,
    summary: Option<string>,
    description: Option<string>,
    start: Option<GoogleTime>,
    end: Option<GoogleTime>,
    htmlLink: Option<string>)

  /** `t?.dateTime || t?.date`. */
  function PreferDateTime(t: Option<GoogleTime>): (r: Option<DateText>)
    ensures t.Some? && t.value.dateTime.Some? ==> r == t.value.dateTime
    ensures t.Some? && t.value.dateTime.None? ==> r == t.value.date
    ensures t.None? ==> r.None?
  {
    match t
    case None => None
    case Some(g) => if g.dateTime.Some? then g.dateTime else g.date
  }

  const GoogleOrg := "Connect Utah Today"
  const GoogleEventType := "community"

  /** The flat record of one Google Calendar item. */
  function NormalizeGoogle(item: GoogleItem): (r: Event)
    ensures r.source == Google && r.image.None?
    ensures r.org == Some(GoogleOrg) && r.eventType == Some(GoogleEventType)
    ensures r.id == (if item.id.Some? then Some(TextId(item.id.value)) else None)
    ensures r.summary == item.summary && r.url == item.htmlLink
    ensures r.description.Some? && (r.description.value == "" <==> item.description.None? || item.description.value == "")
    ensures item.description.Some? ==> r.description == item.description
    ensures r.date == PreferDateTime(item.start) && r.endDate == PreferDateTime(item.end)
  {
    Event(
      id := if item.id.Some? then Some(TextId(item.id.value)) else None,
      summary := item.summary,
      description := Some(item.description.GetOr("")),
      date := PreferDateTime(item.start),
      endDate := PreferDateTime(item.end),
      image := None,
      org := Some(GoogleOrg),
      url := item.htmlLink,
      eventType := Some(GoogleEventType),
      source := Google)
  }

  /** `.map` over the Google items. */
  function NormalizeAllGoogle(items: seq<GoogleItem>): (r: seq<Event>)
    ensures |r| == |items|
    ensures forall i :: 0 <= i < |items| ==> r[i] == NormalizeGoogle(items[i])
  {
    seq(|items|, i requires 0 <= i < |items| => NormalizeGoogle(items[i]))
  }

  // --------------------------------------------------------------- endpoints

  /** What an axios call to the upstream API produced: the JSON list field (`data` or `items`), or a rejection. */
  datatype Upstream<T> = Fetched(list: Option<seq<T>>) | FetchFailed(message: string)

  /** A proxy endpoint's reply: 200 `{items}` or 500 `{error, details?}`. */
  datatype EndpointReply = Items(items: seq<Event>) | ServerError(error: string, details: Option<string>)

  function StatusOf(r: EndpointReply): int
  {
    if r.Items? then 200 else 500
  }

  const MobilizeError := "Failed to fetch Mobilize events"
  const GoogleError := "Failed to fetch Google Calendar events"
  const GoogleKeyMissing := "Google Calendar API key not configured"

  /** GET /api/mobilize-events after the upstream call. */
  function MobilizeEventsReply(upstream: Upstream<MobilizeEvent>): (r: EndpointReply)
    ensures upstream.FetchFailed? ==> r == ServerError(MobilizeError, Some(upstream.message))
    ensures upstream.Fetched? && upstream.list.None? ==> r == Items([])
    ensures r.Items? ==> forall e :: e in r.items ==> e.source == Mobilize
    ensures r.ServerError? ==> r.error == MobilizeError && r.details.Some?
    ensures upstream.Fetched? ==>
      var list := upstream.list.GetOr([]);
      && (r.Items? <==> forall i :: 0 <= i < |list| ==> NormalizeMobilize(list[i]).Some?)
      && (r.Items? ==> |r.items| == |list| && forall i :: 0 <= i < |list| ==> Some(r.items[i]) == NormalizeMobilize(list[i]))
      && (r.ServerError? ==> r.details == Some(InvalidTimeValue))
  {
    match upstream
    case FetchFailed(message) => ServerError(MobilizeError, Some(message))
    case Fetched(list) =>
      match NormalizeAllMobilize(list.GetOr([]))
      case Some(events) => Items(events)
      case None => ServerError(MobilizeError, Some(InvalidTimeValue))
  }

  /** A truthy string: a missing value (an unset `process.env` entry, an absent query parameter) and the empty string are falsy. */
  predicate NonEmpty(text: Option<string>)
  {
    text.Some? && text.value != ""
  }

  /** GET /api/google-calendar: the key check comes before any upstream call. */
  function GoogleCalendarReply(apiKey: Option<string>, upstream: Upstream<GoogleItem>): (r: EndpointReply)
    ensures !NonEmpty(apiKey) ==> r == ServerError(GoogleKeyMissing, None)
    ensures NonEmpty(apiKey) && upstream.FetchFailed? ==> r == ServerError(GoogleError, Some(upstream.message))
    ensures NonEmpty(apiKey) && upstream.Fetched? ==>
      r == Items(NormalizeAllGoogle(upstream.list.GetOr([])))
    ensures r.Items? ==> forall e :: e in r.items ==> e.source == Google
  {
    if !NonEmpty(apiKey) then ServerError(GoogleKeyMissing, None)
    else
      match upstream
      case FetchFailed(message) => ServerError(GoogleError, Some(message))
      case Fetched(list) => Items(NormalizeAllGoogle(list.GetOr([])))
  }

  // ------------------------------------------------------------------ lemmas

  /** Only the first timeslot matters: later timeslots never change the record. */
  lemma OnlyFirstTimeslotCounts(e: MobilizeEvent, first: Timeslot, later: seq<Timeslot>, other: seq<Timeslot>)
    requires e.timeslots == Some([first] + later)
    ensures NormalizeMobilize(e) == NormalizeMobilize(e.(timeslots := Some([first] + other)))
  {
    assert FirstTimeslot(e) == first;
    assert FirstTimeslot(e.(timeslots := Some([first] + other))) == first;
  }
}
