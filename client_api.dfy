/**
 * The browser's service layer: the request paths, the validation of the
 * station list, and the validation and patching of a station's feed. Each
 * operation receives the parsed response body instead of performing the
 * request.
 */
module ClientApi {
  import opened Json
  import opened Seqs
  import AqiRoutes

  /** The reasons the service functions throw. */
  datatype ClientError =
    | EmptyData                      // the body is falsy
    | ApiError(body: Json)           // `status` is not `ok`; the message embeds the body
    | IncorrectFormat(received: string)  // station list `data` is not an array; `typeof data`
    | MissingDataField               // feed `data` is missing or not an object
    | MissingAqiField                // feed `data.aqi` is not a number

  /** JavaScript's `typeof` of a parsed JSON value. */
  function TypeOf(v: Value): string {
    match v
    case None => "undefined"
    case Some(j) =>
      match j
      case JNull => "object"
      case JBool(_) => "boolean"
      case JNum(_) => "number"
      case JStr(_) => "string"
      case JArr(_) => "object"
      case JObj(_) => "object"
  }

  // ---------------------------------------------------------------------------
  // Request paths

  const Base: string := ""

  /** The prefix under which the server mounts the router. */
  const ApiMount: string := "/api"

  const StationsPath: string := Base + "/api/nearby"

  function Digit(d: nat): char
    requires d < 10
  {
    "0123456789"[d]
  }

  function DigitValue(c: char): nat {
    if '0' <= c <= '9' then (c as int - '0' as int) as nat else 0
  }

  /** The decimal rendering of a non-negative integer, as a template literal prints it. */
  function Decimal(n: nat): (s: string)
    ensures |s| > 0
    ensures forall i :: 0 <= i < |s| ==> '0' <= s[i] <= '9'
  {
    if n < 10 then [Digit(n)] else Decimal(n / 10) + [Digit(n % 10)]
  }

  /** Reading decimal digits back. */
  function ParseDecimal(s: string): nat {
    if s == [] then 0 else ParseDecimal(s[..|s| - 1]) * 10 + DigitValue(s[|s| - 1])
  }

  lemma {:induction false} DecimalRoundTrip(n: nat)
    ensures ParseDecimal(Decimal(n)) == n
  {
    var s := Decimal(n);
    if n < 10 {
      assert s[..|s| - 1] == [];
    } else {
      DecimalRoundTrip(n / 10);
      assert s[..|s| - 1] == Decimal(n / 10);
      assert DigitValue(s[|s| - 1]) == n % 10;
    }
  }

  function AqiPath(uid: nat): string {
    Base + "/api/aqi/" + Decimal(uid)
  }

  /** The path prefix of the station feed route: the router mounted at `/api`, route `/aqi/:uid`. */
  const AqiRoutePrefix: string := ApiMount + AqiRoutes.AqiRoute

  /** The `:uid` parameter a request path binds: one non-empty segment after the prefix. */
  function RouteUid(path: string): Option<string> {
    if AqiRoutePrefix <= path && |path| > |AqiRoutePrefix| && '/' !in path[|AqiRoutePrefix|..]
    then Some(path[|AqiRoutePrefix|..])
    else None
  }

  /**
   * The feed path of a station reaches the server's `/aqi/:uid` route with the
   * station's decimal uid, so distinct stations use distinct paths and
   * distinct cache keys on the server.
   */
  lemma AqiPathReachesRoute(a: nat, b: nat)
    ensures RouteUid(AqiPath(a)) == Some(Decimal(a))
    ensures AqiPath(a) == AqiPath(b) <==> a == b
    ensures a != b ==> AqiRoutes.AqiKey(Decimal(a)) != AqiRoutes.AqiKey(Decimal(b))
    ensures AqiRoutes.AqiKey(Decimal(a)) != AqiRoutes.NearbyKey
  {
    var p := AqiPath(a);
    assert p[|AqiRoutePrefix|..] == Decimal(a);
    assert AqiRoutePrefix <= p;
    if AqiPath(a) == AqiPath(b) {
      assert AqiPath(b)[|AqiRoutePrefix|..] == Decimal(b);
      DecimalRoundTrip(a);
      DecimalRoundTrip(b);
    }
    AqiRoutes.AqiKeysDistinct(Decimal(a), Decimal(b));
    if a != b {
      DecimalRoundTrip(a);
      DecimalRoundTrip(b);
    }
  }

  /**
   * The station-list path is the router's `/nearby` route under the mount,
   * which the server caches under `nearby`; it is not a feed path, so it binds
   * no `:uid` and never reaches a station's cache key.
   */
  lemma StationsPathReachesRoute(uid: nat)
    ensures StationsPath == ApiMount + AqiRoutes.NearbyRoute
    ensures RouteUid(StationsPath) == None
    ensures StationsPath != AqiPath(uid)
  {
    assert !(AqiRoutePrefix <= StationsPath) by {
      assert StationsPath[5] == 'n' && AqiRoutePrefix[5] == 'a';
    }
    assert AqiPath(uid)[..|AqiRoutePrefix|] == AqiRoutePrefix;
  }

  // ---------------------------------------------------------------------------
  // fetchStations

  /** The list filter's callback, check by check as written. */
  predicate KeepStation(s: Json) {
    var v := Some(s);
    if !Truthy(v) || !TypeofObject(v) then false
    else if !IsNumber(Lookup(v, "uid")) then false
    else if !IsNumber(Lookup(v, "lat")) || !IsNumber(Lookup(v, "lon")) then false
    else
      var station := Lookup(v, "station");
      if !Truthy(station) || !TypeofObject(station) then false
      else IsString(Lookup(station, "name"))
  }

  /** The record shape the filter admits: an object with numeric `uid`, `lat`, `lon` and an object `station` with a string `name`. */
  predicate ValidStation(s: Json) {
    && s.JObj?
    && "uid" in s.fields && s.fields["uid"].JNum?
    && "lat" in s.fields && s.fields["lat"].JNum?
    && "lon" in s.fields && s.fields["lon"].JNum?
    && "station" in s.fields && s.fields["station"].JObj?
    && "name" in s.fields["station"].fields && s.fields["station"].fields["name"].JStr?
  }

  /** The checks admit exactly the record shape; `aqi` and every other field are not looked at. */
  lemma KeepStationIff(s: Json)
    ensures KeepStation(s) <==> ValidStation(s)
  {
  }

  function FetchStations(body: Json): (r: Result<seq<Json>, ClientError>)
    ensures !Truthy(Some(body)) ==> r == Err(EmptyData)
    ensures Truthy(Some(body)) && !FieldIs(Some(body), "status", "ok") ==> r == Err(ApiError(body))
    ensures Truthy(Some(body)) && FieldIs(Some(body), "status", "ok") && !IsArray(Lookup(Some(body), "data")) ==>
      r == Err(IncorrectFormat(TypeOf(Lookup(Some(body), "data"))))
    ensures r.Ok? <==> body.JObj? && FieldIs(Some(body), "status", "ok") && IsArray(Lookup(Some(body), "data"))
  {
    var v := Some(body);
    if !Truthy(v) then Err(EmptyData)
    else if Lookup(v, "status") != Some(JStr("ok")) then Err(ApiError(body))
    else
      var data := Lookup(v, "data");
      if !IsArray(data) then Err(IncorrectFormat(TypeOf(data)))
      else Ok(Filter(KeepStation, data.value.items))
  }

  /**
   * The returned list is an order-preserving subsequence of `data` holding
   * every valid record as often as it occurs and nothing else, and
   * validating it again returns it unchanged.
   */
  lemma FetchStationsResult(body: Json, x: Json)
    requires FetchStations(body).Ok?
    ensures var items := Lookup(Some(body), "data").value.items;
      var list := FetchStations(body).value;
      && IsSubsequence(list, items)
      && (forall i :: 0 <= i < |list| ==> ValidStation(list[i]))
      && multiset(list)[x] == (if ValidStation(x) then multiset(items)[x] else 0)
      && FetchStations(JObj(map["status" := JStr("ok"), "data" := JArr(list)])) == Ok(list)
  {
    var items := Lookup(Some(body), "data").value.items;
    var list := FetchStations(body).value;
    FilterIsSubsequence(KeepStation, items);
    FilterCount(KeepStation, items, x);
    KeepStationIff(x);
    forall i | 0 <= i < |list| ensures ValidStation(list[i]) {
      KeepStationIff(list[i]);
    }
    FilterIdempotent(KeepStation, items);
  }

  /** A valid record list with status `ok` passes validation unchanged. */
  lemma ValidListPassesValidation(list: seq<Json>)
    requires forall i :: 0 <= i < |list| ==> ValidStation(list[i])
    ensures FetchStations(JObj(map["status" := JStr("ok"), "data" := JArr(list)])) == Ok(list)
  {
    var reply := JObj(map["status" := JStr("ok"), "data" := JArr(list)]);
    forall i | 0 <= i < |list| ensures KeepStation(list[i]) {
      KeepStationIff(list[i]);
    }
    FilterKeepsAll(KeepStation, list);
    assert Lookup(Some(reply), "status") == Some(JStr("ok"));
    assert Lookup(Some(reply), "data") == Some(JArr(list));
  }

  /**
   * End to end: the body `/nearby` sends for an `ok` upstream list of
   * well-formed records with numeric `uid` passes validation unchanged.
   */
  lemma NearbyReplyPassesValidation(raw: Json, items: seq<Json>)
    requires raw.JObj? && FieldIs(Some(raw), "status", "ok") && Lookup(Some(raw), "data") == Some(JArr(items))
    requires forall i :: 0 <= i < |items| ==> AqiRoutes.WellFormedStation(items[i]) && IsNumber(Lookup(Some(items[i]), "uid"))
    ensures AqiRoutes.NearbyReply(raw).Status200?
    ensures FetchStations(AqiRoutes.NearbyReply(raw).body) == Ok(Filter(AqiRoutes.IsThaiRecord, items))
  {
    AqiRoutes.NearbyOkReply(raw, items);
    var list := Filter(AqiRoutes.IsThaiRecord, items);
    forall i | 0 <= i < |list| ensures ValidStation(list[i]) {
      FilterMembership(AqiRoutes.IsThaiRecord, items, list[i]);
      var j :| 0 <= j < |items| && items[j] == list[i];
      assert AqiRoutes.WellFormedStation(items[j]) && IsNumber(Lookup(Some(items[j]), "uid"));
    }
    ValidListPassesValidation(list);
  }

  // ---------------------------------------------------------------------------
  // fetchAqi

  /** The replacement forecast, `{daily: {pm25: []}}`. */
  const EmptyForecast: Json := JObj(map["daily" := JObj(map["pm25" := JArr([])])])

  /** `forecast && forecast.daily && Array.isArray(forecast.daily.pm25)` */
  predicate HasPm25Array(forecast: Value) {
    Truthy(forecast) && Truthy(Lookup(forecast, "daily")) && IsArray(Lookup(Lookup(forecast, "daily"), "pm25"))
  }

  /** A feed body the checks accept: an object with status `ok` and an object `data` with a numeric `aqi`. */
  predicate AcceptedFeed(body: Json) {
    && body.JObj?
    && FieldIs(Some(body), "status", "ok")
    && Lookup(Some(body), "data").Some?
    && Lookup(Some(body), "data").value.JObj?
    && IsNumber(Lookup(Lookup(Some(body), "data"), "aqi"))
  }

  /** An accepted body that already has a pm25 array and a truthy `iaqi`. */
  predicate NormalisedFeed(body: Json) {
    && AcceptedFeed(body)
    && HasPm25Array(Lookup(Lookup(Some(body), "data"), "forecast"))
    && Truthy(Lookup(Lookup(Some(body), "data"), "iaqi"))
  }

  /**
   * `fetchAqi`: reject what the checks reject, then patch `data.forecast` and
   * `data.iaqi` in the body it returns.
   */
  method FetchAqi(body: Json) returns (r: Result<Json, ClientError>)
    ensures !Truthy(Some(body)) ==> r == Err(EmptyData)
    ensures Truthy(Some(body)) && !FieldIs(Some(body), "status", "ok") ==> r == Err(ApiError(body))
    ensures (Truthy(Some(body)) && FieldIs(Some(body), "status", "ok") &&
             !(Truthy(Lookup(Some(body), "data")) && TypeofObject(Lookup(Some(body), "data"))))
      ==> r == Err(MissingDataField)
    ensures (Truthy(Some(body)) && FieldIs(Some(body), "status", "ok") &&
             Truthy(Lookup(Some(body), "data")) && TypeofObject(Lookup(Some(body), "data")) &&
             !IsNumber(Lookup(Lookup(Some(body), "data"), "aqi")))
      ==> r == Err(MissingAqiField)
    ensures r.Ok? <==> AcceptedFeed(body)
    ensures r.Ok? ==>
      var data := body.fields["data"].fields;
      && r.value.JObj? && r.value.fields.Keys == body.fields.Keys
      && (forall k :: k in body.fields && k != "data" ==> r.value.fields[k] == body.fields[k])
      && r.value.fields["data"].JObj?
      && var data' := r.value.fields["data"].fields;
      && data'.Keys == data.Keys + {"forecast", "iaqi"}
      && (forall k :: k in data && k != "forecast" && k != "iaqi" ==> data'[k] == data[k])
      && data'["forecast"] == (if HasPm25Array(Lookup(Some(JObj(data)), "forecast")) then data["forecast"] else EmptyForecast)
      && data'["iaqi"] == (if Truthy(Lookup(Some(JObj(data)), "iaqi")) then data["iaqi"] else JObj(map[]))
    ensures r.Ok? ==> NormalisedFeed(r.value)
    ensures NormalisedFeed(body) ==> r == Ok(body)
  {
    var res := Some(body);
    if !Truthy(res) {
      return Err(EmptyData);
    }
    if Lookup(res, "status") != Some(JStr("ok")) {
      return Err(ApiError(body));
    }
    var data := Lookup(res, "data");
    if !Truthy(data) || !TypeofObject(data) {
      return Err(MissingDataField);
    }
    if !IsNumber(Lookup(data, "aqi")) {
      return Err(MissingAqiField);
    }
    var fields := data.value.fields;
    if !HasPm25Array(Lookup(data, "forecast")) {
      fields := fields["forecast" := EmptyForecast];
    }
    if !Truthy(Lookup(Some(JObj(fields)), "iaqi")) {
      fields := fields["iaqi" := JObj(map[])];
    }
    r := Ok(JObj(body.fields["data" := JObj(fields)]));
    if NormalisedFeed(body) {
      assert fields == data.value.fields;
      assert body.fields["data" := JObj(fields)] == body.fields;
    }
  }
}
