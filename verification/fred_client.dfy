/** The FRED adapter's pure part (backend/services/fred_client.py): the
    parameters of the two requests, the choice of the series record, and the
    conversion of raw observations into indicator points, dropping the ones
    FRED reports as missing.

    The HTTP exchange is not modelled: each response is a parameter, and a
    request is recorded as the endpoint with its parameters so that what the
    client asks for can be stated. Python's `float()` on the raw value is the
    parameter `parse`, which answers `None` where `float()` would raise. */
module FredClient {
  import opened Wrappers
  import opened Seqs
  import opened IndicatorModels

  /** The raw value FRED sends for an observation it has no number for. */
  const MissingSentinel := "."

  const SeriesEndpoint := "series"
  const ObservationsEndpoint := "series/observations"

  /** One entry of the "seriess" list of a series response. */
  datatype SeriesInfo = SeriesInfo(id: string, title: string, units: string, frequency: string)

  /** One entry of the "observations" list, value still as text. */
  datatype RawObservation = RawObservation(date: string, value: string)

  /** A request to the FRED API: the endpoint with its query parameters. */
  datatype Request = Request(endpoint: string, params: map<string, string>)

  /** What the adapter raises: an empty "seriess" list (IndexError), or a
      reported value that `float()` rejects (ValueError). */
  datatype ClientError = NoSeries | BadValue(date: string, raw: string)

  /** The requests issued, in order, and the outcome. */
  datatype Call<T> = Call(requests: seq<Request>, result: Result<T, ClientError>)

  // ---------------------------------------------------------------------
  // get_series_info

  function SeriesRequest(seriesId: string): (q: Request)
    ensures q.endpoint == SeriesEndpoint
    ensures q.params.Keys == {"series_id"} && q.params["series_id"] == seriesId
  {
    Request(SeriesEndpoint, map["series_id" := seriesId])
  }

  /** `get_series_info`: the first record of the response's "seriess" list. */
  function GetSeriesInfo(seriesId: string, seriess: seq<SeriesInfo>): (c: Call<SeriesInfo>)
    ensures c.requests == [SeriesRequest(seriesId)]
    ensures c.result.Success? <==> |seriess| > 0
    ensures c.result.Success? ==> c.result.value == seriess[0]
    ensures c.result.Failure? ==> c.result.error == NoSeries
  {
    var q := SeriesRequest(seriesId);
    if |seriess| == 0 then Call([q], Failure(NoSeries))
    else Call([q], Success(seriess[0]))
  }

  // ---------------------------------------------------------------------
  // get_observations: request parameters

  /** Python truthiness of an optional string: present and non-empty. */
  predicate Given(date: Option<string>) {
    date.Some? && date.value != ""
  }

  /** The query parameters of the observations request. */
  function ObservationParams(seriesId: string, start: Option<string>, end: Option<string>): (p: map<string, string>)
    ensures p.Keys <= {"series_id", "observation_start", "observation_end"}
    ensures "series_id" in p && p["series_id"] == seriesId
    ensures "observation_start" in p <==> Given(start)
    ensures "observation_end" in p <==> Given(end)
    ensures Given(start) ==> p["observation_start"] == start.value
    ensures Given(end) ==> p["observation_end"] == end.value
  {
    var p := map["series_id" := seriesId];
    var p := if Given(start) then p["observation_start" := start.value] else p;
    if Given(end) then p["observation_end" := end.value] else p
  }

  // ---------------------------------------------------------------------
  // get_observations: the sentinel filter

  /** An observation FRED has a number for. */
  predicate IsReported(o: RawObservation) {
    o.value != MissingSentinel
  }

  /** The observations that survive the filter, in their original order. */
  function Kept(obs: seq<RawObservation>): (k: seq<RawObservation>)
    ensures |k| <= |obs|
    ensures forall o :: o in k <==> o in obs && IsReported(o)
  {
    FilterMembers(obs, IsReported);
    Filter(obs, IsReported)
  }

  /** The point that a kept observation becomes. */
  predicate PointOf(p: IndicatorPoint, o: RawObservation, parse: string -> Option<real>) {
    p.date == o.date && p.value == parse(o.value) && p.value.Some?
  }

  /** Every reported value of `obs` parses. */
  predicate AllParse(obs: seq<RawObservation>, parse: string -> Option<real>) {
    forall o :: o in obs && IsReported(o) ==> parse(o.value).Some?
  }

  /** `points` are the conversions of `kept`, one for one and in order. */
  predicate Converts(points: seq<IndicatorPoint>, kept: seq<RawObservation>, parse: string -> Option<real>) {
    |points| == |kept| && forall i :: 0 <= i < |points| ==> PointOf(points[i], kept[i], parse)
  }

  /** `e` reports a reported value of `obs` that does not parse. */
  predicate Rejects(e: ClientError, obs: seq<RawObservation>, parse: string -> Option<real>) {
    exists o :: o in obs && IsReported(o) && parse(o.value).None? && e == BadValue(o.date, o.value)
  }

  /** The list comprehension: one point per observation whose raw value is not
      the sentinel, in order; the first reported value that does not parse
      makes the whole conversion fail. */
  function ParsePoints(obs: seq<RawObservation>, parse: string -> Option<real>): (r: Result<seq<IndicatorPoint>, ClientError>)
    ensures r.Success? <==> AllParse(obs, parse)
    ensures r.Success? ==> Converts(r.value, Kept(obs), parse)
    ensures r.Failure? ==> Rejects(r.error, obs, parse)
    decreases |obs|
  {
    if |obs| == 0 then Success([])
    else
      var o := obs[0];
      ParseStep(obs, parse);
      if !IsReported(o) then ParsePoints(obs[1..], parse)
      else match parse(o.value)
        case None => Failure(BadValue(o.date, o.value))
        case Some(v) =>
          var rest := ParsePoints(obs[1..], parse);
          if rest.Failure? then rest
          else
            ConvertsCons(IndicatorPoint(o.date, Some(v)), o, rest.value, Kept(obs[1..]), parse);
            Success([IndicatorPoint(o.date, Some(v))] + rest.value)
  }

  /** How the filter, the parse check and a rejection see the first observation. */
  lemma ParseStep(obs: seq<RawObservation>, parse: string -> Option<real>)
    requires |obs| > 0
    ensures Kept(obs) == (if IsReported(obs[0]) then [obs[0]] else []) + Kept(obs[1..])
    ensures AllParse(obs, parse) <==> (IsReported(obs[0]) ==> parse(obs[0].value).Some?) && AllParse(obs[1..], parse)
    ensures IsReported(obs[0]) && parse(obs[0].value).None? ==> Rejects(BadValue(obs[0].date, obs[0].value), obs, parse)
    ensures forall e :: Rejects(e, obs[1..], parse) ==> Rejects(e, obs, parse)
  {
    FilterCons(obs, IsReported);
    assert obs == [obs[0]] + obs[1..];
    forall e | Rejects(e, obs[1..], parse) ensures Rejects(e, obs, parse) {
      var o :| o in obs[1..] && IsReported(o) && parse(o.value).None? && e == BadValue(o.date, o.value);
      assert o in obs;
    }
  }

  lemma ConvertsCons(p: IndicatorPoint, o: RawObservation, points: seq<IndicatorPoint>,
                     kept: seq<RawObservation>, parse: string -> Option<real>)
    requires PointOf(p, o, parse) && Converts(points, kept, parse)
    ensures Converts([p] + points, [o] + kept, parse)
  {
  }

  /** `get_observations`: look the series up, then fetch and convert its
      observations; the series metadata is copied from the looked-up record. */
  function GetObservations(
    seriesId: string, start: Option<string>, end: Option<string>,
    seriess: seq<SeriesInfo>, observations: seq<RawObservation>,
    parse: string -> Option<real>): (c: Call<IndicatorSeries>)
    ensures |seriess| == 0 ==> c == Call([SeriesRequest(seriesId)], Failure(NoSeries))
    ensures |seriess| > 0 ==>
      c.requests == [SeriesRequest(seriesId), Request(ObservationsEndpoint, ObservationParams(seriesId, start, end))]
    ensures c.result.Success? <==> |seriess| > 0 && AllParse(observations, parse)
    ensures c.result.Success? ==>
      var s := c.result.value;
      && s.seriesId == seriess[0].id && s.title == seriess[0].title
      && s.units == seriess[0].units && s.frequency == seriess[0].frequency
      && Converts(s.data, Kept(observations), parse)
  {
    var lookup := GetSeriesInfo(seriesId, seriess);
    if lookup.result.Failure? then Call(lookup.requests, Failure(lookup.result.error))
    else
      var info := lookup.result.value;
      var requests := lookup.requests + [Request(ObservationsEndpoint, ObservationParams(seriesId, start, end))];
      match ParsePoints(observations, parse)
      case Failure(e) => Call(requests, Failure(e))
      case Success(points) =>
        Call(requests, Success(IndicatorSeries(info.id, info.title, info.units, info.frequency, points)))
  }

  // ---------------------------------------------------------------------
  // Properties

  /** No point comes from an observation whose raw value is the sentinel. */
  lemma NoSentinelKept(obs: seq<RawObservation>, parse: string -> Option<real>)
    requires ParsePoints(obs, parse).Success?
    ensures forall p :: p in ParsePoints(obs, parse).value ==>
      exists o :: o in obs && o.value != MissingSentinel && PointOf(p, o, parse)
  {
    var points := ParsePoints(obs, parse).value;
    forall p | p in points
      ensures exists o :: o in obs && o.value != MissingSentinel && PointOf(p, o, parse)
    {
      var i :| 0 <= i < |points| && points[i] == p;
      var o := Kept(obs)[i];
      assert o in Kept(obs);
      assert PointOf(p, o, parse);
    }
  }

  /** The points follow the kept observations one for one, and those are the
      input with the sentinel entries deleted, order unchanged. */
  lemma PointsKeepOrder(obs: seq<RawObservation>, parse: string -> Option<real>)
    requires ParsePoints(obs, parse).Success?
    ensures IsSubsequence(Kept(obs), obs)
    ensures |ParsePoints(obs, parse).value| == Count(obs, IsReported)
  {
    FilterIsSubsequence(obs, IsReported);
    FilterLength(obs, IsReported);
  }

  /** An empty observations list gives an empty data list. */
  lemma EmptyObservations(seriesId: string, start: Option<string>, end: Option<string>,
                          info: SeriesInfo, parse: string -> Option<real>)
    ensures var c := GetObservations(seriesId, start, end, [info], [], parse);
      c.result.Success? && c.result.value.seriesId == info.id && c.result.value.data == []
  {
  }

  /** The filtering test: the middle of three observations is missing, and the
      other two become the two points, in order. */
  lemma FilterScenario(parse: string -> Option<real>)
    requires parse("100.5") == Some(100.5) && parse("102.3") == Some(102.3)
    ensures var info := SeriesInfo("GDP", "Gross Domestic Product", "Billions of Dollars", "Quarterly");
      var obs := [RawObservation("2024-01-01", "100.5"), RawObservation("2024-04-01", "."),
                  RawObservation("2024-07-01", "102.3")];
      GetObservations("GDP", None, None, [info], obs, parse).result ==
        Success(IndicatorSeries("GDP", "Gross Domestic Product", "Billions of Dollars", "Quarterly",
          [IndicatorPoint("2024-01-01", Some(100.5)), IndicatorPoint("2024-07-01", Some(102.3))]))
  {
    var obs := [RawObservation("2024-01-01", "100.5"), RawObservation("2024-04-01", "."),
                RawObservation("2024-07-01", "102.3")];
    var p1 := IndicatorPoint("2024-01-01", Some(100.5));
    var p2 := IndicatorPoint("2024-07-01", Some(102.3));
    var last := [RawObservation("2024-07-01", "102.3")];
    assert obs[1..][1..] == last;
    assert last[1..] == [];
    assert IsReported(last[0]) && IsReported(obs[0]) && !IsReported(obs[1]);
    assert ParsePoints(last[1..], parse) == Success([]);
    assert ParsePoints(last, parse).Success? && ParsePoints(last, parse).value == [p2];
    assert ParsePoints(obs[1..], parse).Success? && ParsePoints(obs[1..], parse).value == [p2];
    assert ParsePoints(obs, parse).Success? && ParsePoints(obs, parse).value == [p1, p2];
  }

  /** The series lookup asks for the series by id alone. */
  lemma SeriesInfoScenario(info: SeriesInfo)
    ensures GetSeriesInfo("GDP", [info]) == Call([Request("series", map["series_id" := "GDP"])], Success(info))
  {
  }

  /** Without dates the observations request carries only the series id; an
      empty date counts as no date. */
  lemma DatesAreOptional(seriesId: string)
    ensures ObservationParams(seriesId, None, None) == map["series_id" := seriesId]
    ensures ObservationParams(seriesId, Some(""), Some("")) == map["series_id" := seriesId]
  {
  }
}
