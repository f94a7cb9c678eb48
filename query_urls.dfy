/**
 * The upstream request URLs built by the proxy endpoints of public/server.js.
 * The Mobilize endpoint turns the `timeMin`/`timeMax` query bounds into epoch
 * seconds and appends one `timeslot_start` clause per truthy bound; the Google
 * Calendar endpoint appends the bounds as they are, percent-encoded.
 */
module QueryUrls {
  import opened Wrappers
  import opened Text
  import opened Events
  import opened Uri

  /** The JavaScript numbers the window conversion can produce. */
  datatype JsNumber = Undefined | NaN | Int(n: int)

  /** `if (x)`: undefined, NaN and 0 are falsy. */
  predicate Truthy(x: JsNumber)
  {
    x.Int? && x.n != 0
  }

  /**
   * `bound ? Math.floor(new Date(bound).getTime() / 1000) : undefined`.
   * An absent or empty bound gives undefined; text that is not a date (or
   * names a time outside the range a Date can hold) gives NaN.
   */
  function EpochSeconds(bound: Option<DateText>): (r: JsNumber)
    ensures bound.None? <==> r.Undefined?
    ensures bound.Some? ==> (r.Int? <==> bound.value.Valid?)
    ensures bound.Some? && bound.value.Invalid? ==> r.NaN?
    ensures r.Int? ==> r.n * 1000 <= bound.value.ms < r.n * 1000 + 1000
  {
    match bound
    case None => Undefined
    case Some(Invalid) => NaN
    case Some(Valid(ms)) => Int(ms / 1000)
  }

  const MobilizeBase := "https://api.mobilize.us/v1/events?"
  const AtOrAfterPrefix := "timeslot_start=gte_"
  const BeforePrefix := "timeslot_start=lt_"

  /** One `timeslot_start` filter of the Mobilize query. */
  datatype Filter = AtOrAfter(seconds: int) | Before(seconds: int)

  /** The filters the Mobilize endpoint asks for: a lower bound when `start` is truthy, then an upper bound when `end` is. */
  function RequestedFilters(start: JsNumber, end: JsNumber): (fs: seq<Filter>)
    ensures |fs| == (if Truthy(start) then 1 else 0) + (if Truthy(end) then 1 else 0)
    ensures Truthy(start) ==> fs[0] == AtOrAfter(start.n)
    ensures Truthy(end) ==> fs[|fs| - 1] == Before(end.n)
  {
    (if Truthy(start) then [AtOrAfter(start.n)] else []) + (if Truthy(end) then [Before(end.n)] else [])
  }

  function ClausePrefix(f: Filter): string
  {
    if f.AtOrAfter? then AtOrAfterPrefix else BeforePrefix
  }

  /** `timeslot_start=gte_${start}&` or `timeslot_start=lt_${end}&`. */
  function ClauseText(f: Filter): string
  {
    ClausePrefix(f) + IntText(f.seconds) + "&"
  }

  /** The text of a sequence of filters, each clause closed by `&`. */
  function QueryText(fs: seq<Filter>): string
    decreases |fs|
  {
    if fs == [] then "" else ClauseText(fs[0]) + QueryText(fs[1..])
  }

  /** Reads one clause (without its `&`); None for anything that is not a `timeslot_start` filter. */
  function ParseClause(c: string): Option<Filter>
  {
    if |c| >= |AtOrAfterPrefix| && c[..|AtOrAfterPrefix|] == AtOrAfterPrefix then
      match ParseInt(c[|AtOrAfterPrefix|..])
      case None => None
      case Some(n) => Some(AtOrAfter(n))
    else if |c| >= |BeforePrefix| && c[..|BeforePrefix|] == BeforePrefix then
      match ParseInt(c[|BeforePrefix|..])
      case None => None
      case Some(n) => Some(Before(n))
    else None
  }

  /** Reads a query made of `&`-terminated clauses; None when it is not one. */
  function ParseQuery(q: string): (r: Option<seq<Filter>>)
    ensures q == "" ==> r == Some([])
    decreases |q|
  {
    if q == "" then Some([])
    else
      match IndexOf(q, '&')
      case None => None
      case Some(i) =>
        match ParseClause(q[..i])
        case None => None
        case Some(f) =>
          match ParseQuery(q[i + 1..])
          case None => None
          case Some(fs) => Some([f] + fs)
  }

  /** The URL the Mobilize endpoint requests, built step by step as the handler does. */
  method MobilizeUrl(timeMin: Option<DateText>, timeMax: Option<DateText>) returns (url: string)
    ensures url == MobilizeBase + QueryText(RequestedFilters(EpochSeconds(timeMin), EpochSeconds(timeMax)))
    ensures |url| >= |MobilizeBase| && url[..|MobilizeBase|] == MobilizeBase
    ensures ParseQuery(url[|MobilizeBase|..]) == Some(RequestedFilters(EpochSeconds(timeMin), EpochSeconds(timeMax)))
  {
    var start := EpochSeconds(timeMin);
    var end := EpochSeconds(timeMax);
    url := MobilizeBase;
    ghost var query, fs := "", [];
    if Truthy(start) {
      url := url + ClauseText(AtOrAfter(start.n));
      query, fs := query + ClauseText(AtOrAfter(start.n)), fs + [AtOrAfter(start.n)];
      ClauseTextAppend([], AtOrAfter(start.n));
    }
    if Truthy(end) {
      url := url + ClauseText(Before(end.n));
      ClauseTextAppend(fs, Before(end.n));
      query, fs := query + ClauseText(Before(end.n)), fs + [Before(end.n)];
    }
    assert url == MobilizeBase + query && query == QueryText(fs);
    assert fs == RequestedFilters(start, end);
    assert url[|MobilizeBase|..] == query;
    QueryRoundTrip(fs);
  }

  // ------------------------------------------------------------------ lemmas

  lemma {:induction false} ClauseTextAppend(fs: seq<Filter>, f: Filter)
    ensures QueryText(fs + [f]) == QueryText(fs) + ClauseText(f)
    decreases |fs|
  {
    if fs == [] {
      assert [f][1..] == [];
    } else {
      assert (fs + [f])[1..] == fs[1..] + [f];
      ClauseTextAppend(fs[1..], f);
    }
  }

  /** The clause body, without its `&`, reads back as the filter. */
  lemma ClauseBodyRoundTrip(f: Filter)
    ensures ParseClause(ClausePrefix(f) + IntText(f.seconds)) == Some(f)
  {
    var prefix, digits := ClausePrefix(f), IntText(f.seconds);
    var c := prefix + digits;
    assert c[..|prefix|] == prefix && c[|prefix|..] == digits;
    IntTextRoundTrip(f.seconds);
    if f.Before? {
      assert c[..|AtOrAfterPrefix|] != AtOrAfterPrefix by {
        assert c[15] == 'l' && AtOrAfterPrefix[15] == 'g';
      }
    }
  }

  /** A clause body holds no `&`. */
  lemma ClauseBodyHasNoAmpersand(f: Filter)
    ensures '&' !in ClausePrefix(f) + IntText(f.seconds)
  {
    var digits := IntText(f.seconds);
    assert forall i :: 0 <= i < |digits| ==> digits[i] != '&';
    assert '&' !in ClausePrefix(f);
  }

  /** Text free of `&`, then `&`, splits back into its two parts at the first `&`. */
  lemma SplitAtAmpersand(body: string, rest: string)
    requires '&' !in body
    ensures var q := body + "&" + rest;
      IndexOf(q, '&') == Some(|body|) && q[..|body|] == body && q[|body| + 1..] == rest
  {
    IndexOfAfter(body, '&', rest);
    assert body + "&" + rest == body + ['&'] + rest;
  }

  /** A clause's only `&` is its last character. */
  lemma ClauseSplit(f: Filter, rest: string)
    ensures var t := ClauseText(f);
      && |t| > 0
      && IndexOf(t + rest, '&') == Some(|t| - 1)
      && (t + rest)[..|t| - 1] == ClausePrefix(f) + IntText(f.seconds)
      && (t + rest)[|t|..] == rest
  {
    ClauseBodyHasNoAmpersand(f);
    SplitAtAmpersand(ClausePrefix(f) + IntText(f.seconds), rest);
  }

  /** One step of the decoder: a clause, its `&`, and a decodable remainder. */
  lemma ParseQueryStep(q: string, i: nat)
    requires IndexOf(q, '&') == Some(i)
    ensures ParseClause(q[..i]).Some? && ParseQuery(q[i + 1..]).Some? ==>
      ParseQuery(q) == Some([ParseClause(q[..i]).value] + ParseQuery(q[i + 1..]).value)
  {
  }

  /** Decoding the query text gives back the filters: the query says exactly what was asked for. */
  lemma {:induction false} QueryRoundTrip(fs: seq<Filter>)
    ensures ParseQuery(QueryText(fs)) == Some(fs)
    decreases |fs|
  {
    if fs != [] {
      var f, tail := fs[0], fs[1..];
      var t, rest := ClauseText(f), QueryText(tail);
      var q := QueryText(fs);
      assert q == t + rest;
      ClauseSplit(f, rest);
      var i := |t| - 1;
      ClauseBodyRoundTrip(f);
      assert ParseClause(q[..i]) == Some(f);
      QueryRoundTrip(tail);
      assert ParseQuery(q[i + 1..]) == Some(tail);
      ParseQueryStep(q, i);
      HeadTail(fs);
    }
  }

  /** A bound in the first second of 1970 converts to 0 and so adds no clause, like an absent bound. */
  lemma EpochSecondZeroDropped(ms: int, other: JsNumber)
    requires 0 <= ms < 1000
    ensures RequestedFilters(EpochSeconds(Some(Valid(ms))), other) == RequestedFilters(Undefined, other)
    ensures RequestedFilters(other, EpochSeconds(Some(Valid(ms)))) == RequestedFilters(other, Undefined)
  {
  }

  /** A bound that is not a date adds no clause either. */
  lemma InvalidBoundDropped(other: JsNumber)
    ensures RequestedFilters(EpochSeconds(Some(Invalid)), other) == RequestedFilters(Undefined, other)
    ensures RequestedFilters(other, EpochSeconds(Some(Invalid))) == RequestedFilters(other, Undefined)
  {
  }

  // ------------------------------------------------------------------ Google

  const CalendarApiBase := "https://www.googleapis.com/calendar/v3/calendars/"

  /** The events collection of a calendar, its id percent-encoded. */
  function GoogleEventsPath(calendarId: string): string
  {
    CalendarApiBase + EncodeUriComponent(calendarId) + "/events"
  }

  /** The parameter for one bound, when the bound is given: its name (with `=`) and its encoded text. */
  function BoundParams(name: string, bound: Option<string>): seq<string>
  {
    if NonEmpty(bound) then [name + EncodeUriComponent(bound.value)] else []
  }

  /** The parameters the Google endpoint sends, in order: the key, each given bound, then the fixed expansion and ordering. */
  function GoogleParams(apiKey: string, timeMin: Option<string>, timeMax: Option<string>): (ps: seq<string>)
    ensures |ps| == 3 + (if NonEmpty(timeMin) then 1 else 0) + (if NonEmpty(timeMax) then 1 else 0)
    ensures ps[0] == "key=" + apiKey && ps[|ps| - 2] == SingleEvents && ps[|ps| - 1] == OrderByStart
    ensures NonEmpty(timeMin) ==> ps[1] == "timeMin=" + EncodeUriComponent(timeMin.value)
    ensures NonEmpty(timeMax) ==> ps[|ps| - 3] == "timeMax=" + EncodeUriComponent(timeMax.value)
  {
    ["key=" + apiKey] + BoundParams("timeMin=", timeMin) + BoundParams("timeMax=", timeMax)
    + [SingleEvents, OrderByStart]
  }

  /** Parameters separated by `&`. */
  function JoinParams(ps: seq<string>): string
    requires |ps| > 0
    decreases |ps|
  {
    if |ps| == 1 then ps[0] else JoinParams(ps[..|ps| - 1]) + "&" + ps[|ps| - 1]
  }

  /** A query string cut at every `&`. */
  function SplitParams(q: string): (ps: seq<string>)
    ensures |ps| > 0
    decreases |q|
  {
    match IndexOf(q, '&')
    case None => [q]
    case Some(i) => [q[..i]] + SplitParams(q[i + 1..])
  }

  /** What the handler appends for one bound: `&`, the name and the encoded bound, or nothing. */
  function BoundText(name: string, bound: Option<string>): string
  {
    if NonEmpty(bound) then "&" + name + EncodeUriComponent(bound.value) else ""
  }

  const SingleEvents := "singleEvents=true"
  const OrderByStart := "orderBy=startTime"
  /** `&singleEvents=true&orderBy=startTime`, the tail every Google request carries. */
  const FixedParams := "&" + SingleEvents + "&" + OrderByStart

  /** The URL the Google Calendar endpoint requests, built step by step as the handler does. */
  method GoogleUrl(calendarId: string, apiKey: string, timeMin: Option<string>, timeMax: Option<string>) returns (url: string)
    ensures url == GoogleEventsPath(calendarId) + "?" + JoinParams(GoogleParams(apiKey, timeMin, timeMax))
    ensures '&' !in apiKey ==>
      SplitParams(url[|GoogleEventsPath(calendarId) + "?"|..]) == GoogleParams(apiKey, timeMin, timeMax)
  {
    ghost var path := GoogleEventsPath(calendarId) + "?";
    url := GoogleEventsPath(calendarId) + "?key=" + apiKey;
    ghost var query := "key=" + apiKey;
    StartQuery(GoogleEventsPath(calendarId), apiKey);
    if NonEmpty(timeMin) {
      url := url + "&timeMin=" + EncodeUriComponent(timeMin.value);
    }
    AppendBound(url, path, query, "&timeMin=", "timeMin=", timeMin);
    query := query + BoundText("timeMin=", timeMin);
    if NonEmpty(timeMax) {
      url := url + "&timeMax=" + EncodeUriComponent(timeMax.value);
    }
    AppendBound(url, path, query, "&timeMax=", "timeMax=", timeMax);
    query := query + BoundText("timeMax=", timeMax);
    Concat(path, query, FixedParams);
    url := url + FixedParams;
    query := query + FixedParams;
    GoogleQueryText(apiKey, timeMin, timeMax);
    if '&' !in apiKey {
      GoogleParamsHaveNoAmpersand(apiKey, timeMin, timeMax);
      SplitJoin(GoogleParams(apiKey, timeMin, timeMax));
    }
  }

  lemma StartQuery(eventsPath: string, apiKey: string)
    ensures eventsPath + "?key=" + apiKey == (eventsPath + "?") + ("key=" + apiKey)
  {
    assert "?key=" == "?" + "key=";
  }

  /** Appending to `path + query` appends to the query, and the query is what follows the path. */
  lemma Concat(path: string, query: string, more: string)
    ensures path + query + more == path + (query + more)
    ensures (path + (query + more))[|path|..] == query + more
  {
  }

  /** The handler's `url += `&name=${encodeURIComponent(bound)}`` for a given bound keeps the URL the path and the query so far. */
  lemma AppendBound(url: string, path: string, query: string, sep: string, name: string, bound: Option<string>)
    requires sep == "&" + name
    requires NonEmpty(bound) ==> url == path + query + sep + EncodeUriComponent(bound.value)
    requires !NonEmpty(bound) ==> url == path + query
    ensures url == path + (query + BoundText(name, bound))
  {
  }

  /** The joined parameter list is the text the handler appends. */
  lemma GoogleQueryText(apiKey: string, timeMin: Option<string>, timeMax: Option<string>)
    ensures JoinParams(GoogleParams(apiKey, timeMin, timeMax))
      == "key=" + apiKey + BoundText("timeMin=", timeMin) + BoundText("timeMax=", timeMax) + FixedParams
  {
    var ps0 := ["key=" + apiKey];
    var ps1 := ps0 + BoundParams("timeMin=", timeMin);
    var ps2 := ps1 + BoundParams("timeMax=", timeMax);
    JoinBound(ps0, "timeMin=", timeMin);
    JoinBound(ps1, "timeMax=", timeMax);
    JoinTwo(ps2, SingleEvents, OrderByStart);
    Regroup(JoinParams(ps2), "&", SingleEvents, "&", OrderByStart);
  }

  lemma JoinBound(ps: seq<string>, name: string, bound: Option<string>)
    requires |ps| > 0
    ensures JoinParams(ps + BoundParams(name, bound)) == JoinParams(ps) + BoundText(name, bound)
  {
    var j := JoinParams(ps);
    if NonEmpty(bound) {
      var e := EncodeUriComponent(bound.value);
      JoinSnoc(ps, name + e);
      Regroup3(j, "&", name, e);
    } else {
      assert ps + BoundParams(name, bound) == ps;
      assert j + BoundText(name, bound) == j;
    }
  }

  lemma JoinTwo(ps: seq<string>, a: string, b: string)
    requires |ps| > 0
    ensures JoinParams(ps + [a, b]) == JoinParams(ps) + "&" + a + "&" + b
  {
    var p1 := ps + [a];
    var p2 := p1 + [b];
    JoinSnoc(ps, a);
    JoinSnoc(p1, b);
    assert p2 == ps + [a, b];
  }

  lemma Regroup3(j: string, x: string, y: string, z: string)
    ensures j + x + (y + z) == j + (x + y + z)
  {
  }

  lemma Regroup(j: string, w: string, x: string, y: string, z: string)
    ensures j + w + x + y + z == j + (w + x + y + z)
  {
  }

  lemma JoinSnoc(ps: seq<string>, p: string)
    requires |ps| > 0
    ensures JoinParams(ps + [p]) == JoinParams(ps) + "&" + p
  {
    assert (ps + [p])[..|ps|] == ps;
  }

  lemma GoogleParamsHaveNoAmpersand(apiKey: string, timeMin: Option<string>, timeMax: Option<string>)
    requires '&' !in apiKey
    ensures forall i :: 0 <= i < |GoogleParams(apiKey, timeMin, timeMax)| ==> '&' !in GoogleParams(apiKey, timeMin, timeMax)[i]
  {
    var ps := GoogleParams(apiKey, timeMin, timeMax);
    forall i | 0 <= i < |ps| ensures '&' !in ps[i] {
      if NonEmpty(timeMin) {
        EncodeIsUriSafe(timeMin.value);
        var e := EncodeUriComponent(timeMin.value);
        assert forall j :: 0 <= j < |e| ==> e[j] != '&';
      }
      if NonEmpty(timeMax) {
        EncodeIsUriSafe(timeMax.value);
        var e := EncodeUriComponent(timeMax.value);
        assert forall j :: 0 <= j < |e| ==> e[j] != '&';
      }
    }
  }

  /** Cutting the joined parameters at every `&` gives them back, when none of them holds an `&`. */
  lemma {:induction false} SplitJoin(ps: seq<string>)
    requires |ps| > 0
    requires forall i :: 0 <= i < |ps| ==> '&' !in ps[i]
    ensures SplitParams(JoinParams(ps)) == ps
    decreases |ps|
  {
    if |ps| > 1 {
      var head, tail := ps[0], ps[1..];
      assert forall i :: 0 <= i < |tail| ==> tail[i] == ps[i + 1];
      SplitJoin(tail);
      JoinFirst(ps);
      assert '&' !in head;
      SplitAtAmpersand(head, JoinParams(tail));
      SplitStep(JoinParams(ps), |head|);
      HeadTail(ps);
    }
  }

  lemma SplitStep(q: string, i: nat)
    requires IndexOf(q, '&') == Some(i)
    ensures SplitParams(q) == [q[..i]] + SplitParams(q[i + 1..])
  {
  }

  /** Joining peels off the first parameter as well as the last. */
  lemma {:induction false} JoinFirst(ps: seq<string>)
    requires |ps| > 1
    ensures JoinParams(ps) == ps[0] + "&" + JoinParams(ps[1..])
    decreases |ps|
  {
    if |ps| > 2 {
      var init := ps[..|ps| - 1];
      JoinFirst(init);
      assert init[1..] == ps[1..][..|ps[1..]| - 1];
    } else {
      assert ps[1..] == [ps[1]];
    }
  }
}
