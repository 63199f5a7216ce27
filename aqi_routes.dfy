/**
 * The two proxy routes, `/api/nearby` and `/api/aqi/:uid`, and the read-through
 * cache wrapper they share. The upstream HTTP call is an argument: the body
 * it would return together with the clock time at which it returns, or the
 * error it would throw. A request reads the cache at its arrival time `now`
 * (milliseconds); a fetched body is stored at the time the call returned.
 * Requests are served one at a time.
 */
module AqiRoutes {
  import opened Json
  import opened Seqs
  import opened GeoMembership
  import opened ResponseCache

  /** What the upstream call would do if it were made: return `body` at clock time `at`, or throw. */
  datatype Upstream = Fetched(body: Json, at: int) | Threw(reason: string)

  /** What a handler does: answer 200 or 502 with a JSON body, or pass an error to the error handler. */
  datatype Reply =
    | Status200(body: Json)
    | Status502(body: Json)
    | NextError(fault: Fault)

  /** The router's paths: the station list, and the station feed before its `:uid` segment. */
  const NearbyRoute: string := "/nearby"
  const AqiRoute: string := "/aqi/"

  /** The cache key of the station list. */
  const NearbyKey: string := "nearby"

  /** The cache key of one station's feed, from the route parameter. */
  function AqiKey(uid: string): string {
    "aqi-" + uid
  }

  /** The body of every 502 answer. */
  const WaqiError: Json := JObj(map["message" := JStr("WAQI error")])

  /** A cached value counts only when it is live and truthy. */
  predicate Hit(st: Store, key: string, now: int) {
    IsLive(st, key, now) && Truthy(Some(st[key].value))
  }

  /**
   * `cacheWrap(key, fn)`: read the cache at `now`; on a truthy value return
   * it; otherwise call upstream, store its body at the time the call returned
   * and return it. A throwing upstream stores nothing. The result is the new store, the outcome, and whether
   * upstream was called.
   */
  function Wrap(st: Store, key: string, now: int, upstream: Upstream): (Store, Result<Json, Fault>, bool) {
    var read := Read(st, key, now);
    if Truthy(read.0) then (read.1, Ok(read.0.value), false)
    else match upstream
      case Fetched(body, at) => (Write(read.1, key, body, at), Ok(body), true)
      case Threw(reason) => (read.1, Err(Thrown(reason)), true)
  }

  /** A hit returns the cached value without calling upstream and leaves the store as it was. */
  lemma WrapHit(st: Store, key: string, now: int, upstream: Upstream)
    requires Hit(st, key, now)
    ensures Wrap(st, key, now, upstream) == (st, Ok(st[key].value), false)
  {
  }

  /**
   * Anything but a hit, including a live but falsy value, calls upstream:
   * its body is stored under `key`, stamped with the time the call returned,
   * and returned; its error is returned and nothing is stored.
   */
  lemma WrapMiss(st: Store, key: string, now: int, upstream: Upstream)
    requires !Hit(st, key, now)
    ensures Wrap(st, key, now, upstream).2
    ensures upstream.Fetched? ==>
      Wrap(st, key, now, upstream).0 == st[key := Entry(upstream.body, upstream.at)] &&
      Wrap(st, key, now, upstream).1 == Ok(upstream.body)
    ensures upstream.Threw? ==>
      Wrap(st, key, now, upstream).1 == Err(Thrown(upstream.reason)) &&
      Wrap(st, key, now, upstream).0.Keys <= st.Keys &&
      forall k :: k in Wrap(st, key, now, upstream).0 ==> Wrap(st, key, now, upstream).0[k] == st[k]
  {
    var read := Read(st, key, now);
    if upstream.Fetched? {
      assert read.1[key := Entry(upstream.body, upstream.at)] == st[key := Entry(upstream.body, upstream.at)];
    }
  }

  /** A throwing upstream leaves every later read of every key as it would have been. */
  lemma WrapThrowIsUnobservable(st: Store, key: string, now: int, reason: string, k: string, later: int)
    requires !Hit(st, key, now) && now <= later
    ensures Read(Wrap(st, key, now, Threw(reason)).0, k, later).0 == Read(st, k, later).0
  {
    if k == key {
      ReadEvictsOnlyExpired(st, key, now, later);
    } else {
      OtherKeysUntouched(st, key, k, JNull, now);
    }
  }

  /** `cacheWrap` on one key never alters another key's entry. */
  lemma WrapOtherKeys(st: Store, key: string, now: int, upstream: Upstream, other: string)
    requires other != key
    ensures other in Wrap(st, key, now, upstream).0 <==> other in st
    ensures other in st ==> Wrap(st, key, now, upstream).0[other] == st[other]
  {
    OtherKeysUntouched(st, key, other, JNull, now);
    var read := Read(st, key, now);
    if upstream.Fetched? {
      OtherKeysUntouched(read.1, key, other, upstream.body, upstream.at);
    }
  }

  /**
   * After a miss that stored a truthy body returned at `at`, a repeat up to
   * the TTL after `at` is served from the cache, however long the call took.
   */
  lemma WrapRepeatWithinTtl(st: Store, key: string, t0: int, at: int, t1: int, body: Json, second: Upstream)
    requires !Hit(st, key, t0) && Truthy(Some(body))
    requires at <= t1 <= at + StdTtlMs
    ensures var st1 := Wrap(st, key, t0, Fetched(body, at)).0;
      Wrap(st1, key, t1, second) == (st1, Ok(body), false)
  {
    WrapMiss(st, key, t0, Fetched(body, at));
  }

  /** After a miss that stored a body returned at `at`, a call more than the TTL after `at` calls upstream again. */
  lemma WrapAfterTtl(st: Store, key: string, t0: int, at: int, t1: int, body: Json, second: Upstream)
    requires !Hit(st, key, t0) && t1 > at + StdTtlMs
    ensures Wrap(Wrap(st, key, t0, Fetched(body, at)).0, key, t1, second).2
  {
    WrapMiss(st, key, t0, Fetched(body, at));
  }

  /**
   * Expiry counts from the time upstream answered, not from the request: a
   * miss at 0 answered at 5000 still hits 600001 ms after the request.
   */
  lemma WrapExpiryCountsFromAnswer(st: Store, key: string, body: Json, second: Upstream)
    requires !Hit(st, key, 0) && Truthy(Some(body))
    ensures var st1 := Wrap(st, key, 0, Fetched(body, 5000)).0;
      !Wrap(st1, key, StdTtlMs + 1, second).2 && Wrap(st1, key, StdTtlMs + 5001, second).2
  {
    WrapRepeatWithinTtl(st, key, 0, 5000, StdTtlMs + 1, body, second);
    WrapAfterTtl(st, key, 0, 5000, StdTtlMs + 5001, body, second);
  }

  /** After a throwing upstream, the next call calls upstream again and returns its body. */
  lemma WrapRetryAfterThrow(st: Store, key: string, t0: int, t1: int, reason: string, second: Upstream)
    requires !Hit(st, key, t0)
    ensures var st1 := Wrap(st, key, t0, Threw(reason)).0;
      !Hit(st1, key, t1) && Wrap(st1, key, t1, second).2
  {
    var st1 := Wrap(st, key, t0, Threw(reason)).0;
    WrapMiss(st, key, t0, Threw(reason));
    assert IsLive(st1, key, t1) ==> IsLive(st, key, t0) && st1[key] == st[key];
    WrapMiss(st1, key, t1, second);
  }

  /** Station-feed keys are distinct for distinct route parameters and never the station-list key. */
  lemma AqiKeysDistinct(a: string, b: string)
    ensures AqiKey(a) == AqiKey(b) <==> a == b
    ensures AqiKey(a) != NearbyKey
  {
    if AqiKey(a) == AqiKey(b) {
      assert a == AqiKey(a)[4..] && b == AqiKey(b)[4..];
    }
    assert AqiKey(a)[0] == 'a' && NearbyKey[0] == 'n';
  }

  /** `body.status !== 'ok'` is false exactly when the status field is the string `ok`; it throws on `null`. */
  function StatusIsOk(body: Json): Result<bool, Fault> {
    match Member(Some(body), "status")
    case Err(e) => Err(e)
    case Ok(v) => Ok(v == Some(JStr("ok")))
  }

  lemma StatusIsOkIff(body: Json)
    ensures StatusIsOk(body).Err? <==> body == JNull
    ensures StatusIsOk(body) == Ok(true) <==> body.JObj? && FieldIs(Some(body), "status", "ok")
  {
  }

  /**
   * `nameKw.some((k) => name.includes(k))` on the station name as the
   * upstream sent it: `includes` of a string is substring search, of an array
   * element search; any other value has no `includes` and the call throws.
   */
  function NameTest(name: Value): Result<bool, Fault> {
    match name
    case Some(JStr(s)) => Ok(NameMatches(s))
    case Some(JArr(items)) => Ok(exists i :: 0 <= i < |NameKeywords| && JStr(NameKeywords[i]) in items)
    case _ => Err(TypeError)
  }

  /**
   * The `/nearby` filter callback, `isThaiStation(s.station.name, s.lat, s.lon)`,
   * on one upstream element. Reading `s.station.name` throws when `s` or
   * `s.station` is `null` or missing. A name match decides without looking at
   * the coordinates; otherwise the point is tested, and on a coordinate that
   * is not a number the point-in-polygon call is taken to throw (the fault
   * `Unmodelled`); what the library really does with such input is not modelled.
   */
  function StationTest(s: Json): Result<bool, Fault> {
    match Member(Some(s), "station")
    case Err(e) => Err(e)
    case Ok(st) =>
      match Member(st, "name")
      case Err(e) => Err(e)
      case Ok(name) =>
        match NameTest(name)
        case Err(e) => Err(e)
        case Ok(byName) =>
          var lat := Lookup(Some(s), "lat");
          var lon := Lookup(Some(s), "lon");
          if byName then Ok(true)
          else if IsNumber(lat) && IsNumber(lon) then Ok(InThailand(lat.value.n, lon.value.n))
          else Err(Unmodelled("point-in-polygon test of a non-numeric coordinate"))
  }

  /** The element shape the upstream promises: an object with numeric `lat`, `lon` and a string `station.name`. */
  predicate WellFormedStation(s: Json) {
    && s.JObj?
    && IsNumber(Lookup(Some(s), "lat"))
    && IsNumber(Lookup(Some(s), "lon"))
    && Lookup(Some(s), "station").Some?
    && Lookup(Some(s), "station").value.JObj?
    && IsString(Lookup(Lookup(Some(s), "station"), "name"))
  }

  /** `isThaiStation` applied to a well-formed element's fields. */
  predicate IsThaiRecord(s: Json) {
    WellFormedStation(s) &&
    IsThaiStation(Lookup(Lookup(Some(s), "station"), "name").value.s,
                  Lookup(Some(s), "lat").value.n, Lookup(Some(s), "lon").value.n)
  }

  lemma StationTestWellFormed(s: Json)
    requires WellFormedStation(s)
    ensures StationTest(s) == Ok(IsThaiRecord(s))
  {
    var st := Lookup(Some(s), "station");
    var name := Lookup(st, "name");
    assert Member(Some(s), "station") == Ok(st);
    assert Member(st, "name") == Ok(name);
    assert NameTest(name) == Ok(NameMatches(name.value.s));
  }

  /** `raw.data.filter(...)`: callbacks run in order and the first exception aborts the filter. */
  function SelectThai(items: seq<Json>): Result<seq<Json>, Fault> {
    if items == [] then Ok([])
    else
      match StationTest(items[0])
      case Err(e) => Err(e)
      case Ok(keep) =>
        match SelectThai(items[1..])
        case Err(e) => Err(e)
        case Ok(rest) => Ok((if keep then [items[0]] else []) + rest)
  }

  /** On well-formed elements the filter never throws and keeps exactly the Thai stations, in order. */
  lemma {:induction false} SelectThaiWellFormed(items: seq<Json>)
    requires forall i :: 0 <= i < |items| ==> WellFormedStation(items[i])
    ensures SelectThai(items) == Ok(Filter(IsThaiRecord, items))
  {
    if items != [] {
      StationTestWellFormed(items[0]);
      SelectThaiWellFormed(items[1..]);
    }
  }

  /** The filter throws exactly when some callback throws. */
  lemma {:induction false} SelectThaiOkIff(items: seq<Json>)
    ensures SelectThai(items).Ok? <==> forall i :: 0 <= i < |items| ==> StationTest(items[i]).Ok?
  {
    if items != [] {
      SelectThaiOkIff(items[1..]);
      assert forall i :: 1 <= i < |items| ==> items[i] == items[1..][i - 1];
    }
  }

  /** The callback returns `true` for `s`. */
  predicate PassesStationTest(s: Json) {
    StationTest(s) == Ok(true)
  }

  /**
   * When every callback returns, the filter's result is `Filter` with the
   * callback, so each passing element is kept as often as it occurs: it is an
   * order-preserving subsequence of the input, every kept element passes the
   * test and every passing element is kept, and filtering the result again
   * returns it unchanged.
   */
  lemma {:induction false} SelectThaiSound(items: seq<Json>)
    requires forall i :: 0 <= i < |items| ==> StationTest(items[i]).Ok?
    ensures SelectThai(items) == Ok(Filter(PassesStationTest, items))
    ensures SelectThai(items).Ok?
    ensures IsSubsequence(SelectThai(items).value, items)
    ensures forall x :: x in SelectThai(items).value ==> StationTest(x) == Ok(true)
    ensures forall x :: x in items && StationTest(x) == Ok(true) ==> x in SelectThai(items).value
    ensures SelectThai(SelectThai(items).value) == SelectThai(items)
  {
    SelectThaiOkIff(items);
    if items != [] {
      assert forall i :: 0 <= i < |items[1..]| ==> items[1..][i] == items[i + 1];
      SelectThaiSound(items[1..]);
      var rest := SelectThai(items[1..]).value;
      var list := SelectThai(items).value;
      if StationTest(items[0]) == Ok(true) {
        assert list == [items[0]] + rest;
        assert list[1..] == rest;
      } else {
        assert list == rest;
      }
    }
  }

  /** The `/nearby` answer for the (cached or fetched) upstream body. */
  function NearbyReply(raw: Json): Reply {
    match StatusIsOk(raw)
    case Err(e) => NextError(e)
    case Ok(false) => Status502(WaqiError)
    case Ok(true) =>
      match Lookup(Some(raw), "data")
      case Some(JArr(items)) =>
        (match SelectThai(items)
         case Err(e) => NextError(e)
         case Ok(list) => Status200(JObj(map["status" := JStr("ok"), "data" := JArr(list)])))
      case _ => NextError(TypeError)
  }

  /** The `/aqi/:uid` answer: the upstream body itself when its status is `ok`. */
  function AqiReply(data: Json): Reply {
    match StatusIsOk(data)
    case Err(e) => NextError(e)
    case Ok(false) => Status502(WaqiError)
    case Ok(true) => Status200(data)
  }

  /** A handler's effect: the new store, the reply, and whether upstream was called. */
  function Handle(st: Store, key: string, now: int, upstream: Upstream, respond: Json -> Reply): (Store, Reply, bool) {
    var w := Wrap(st, key, now, upstream);
    (w.0, match w.1 case Ok(body) => respond(body) case Err(e) => NextError(e), w.2)
  }

  /**
   * Every outcome of the `/aqi/:uid` answer: `next(err)` with the `TypeError`
   * of reading `status` from `null`, 502 on any other non-`ok` body, and 200
   * with the body itself otherwise.
   */
  lemma AqiReplyOutcomes(body: Json)
    ensures AqiReply(body) == NextError(TypeError) <==> body == JNull
    ensures AqiReply(body).NextError? ==> body == JNull
    ensures AqiReply(body) == Status502(WaqiError) <==> body != JNull && !(body.JObj? && FieldIs(Some(body), "status", "ok"))
    ensures AqiReply(body) == Status200(body) <==> body.JObj? && FieldIs(Some(body), "status", "ok")
  {
    StatusIsOkIff(body);
  }

  /**
   * Every outcome of the `/nearby` answer: 502 exactly on a non-null body whose
   * status is not `ok`; `next(err)` on `null`, on an `ok` body whose `data` is
   * not an array, and when a filter callback throws; otherwise 200 with the
   * filtered list.
   */
  lemma NearbyReplyOutcomes(body: Json)
    ensures NearbyReply(body) == Status502(WaqiError) <==> body != JNull && !(body.JObj? && FieldIs(Some(body), "status", "ok"))
    ensures NearbyReply(body) == NextError(TypeError) <== body == JNull
    ensures NearbyReply(body) == NextError(TypeError) <== body.JObj? && FieldIs(Some(body), "status", "ok") && !(Lookup(Some(body), "data").Some? && Lookup(Some(body), "data").value.JArr?)
    ensures NearbyReply(body).NextError? <==>
      body == JNull
      || (body.JObj? && FieldIs(Some(body), "status", "ok")
          && (!(Lookup(Some(body), "data").Some? && Lookup(Some(body), "data").value.JArr?)
              || SelectThai(Lookup(Some(body), "data").value.items).Err?))
    ensures NearbyReply(body).Status200? <==>
      body.JObj? && FieldIs(Some(body), "status", "ok")
      && Lookup(Some(body), "data").Some? && Lookup(Some(body), "data").value.JArr?
      && SelectThai(Lookup(Some(body), "data").value.items).Ok?
  {
    StatusIsOkIff(body);
  }

  /**
   * A truthy body whose status is not `ok` (an error object, but also a string
   * or an array) is cached before the check: the route answers 502 with
   * `{message: 'WAQI error'}`, and a repeat within the TTL answers the same
   * from the cache without calling upstream.
   */
  lemma NonOkBodyIsCached(st: Store, key: string, t0: int, at: int, t1: int, body: Json, second: Upstream, respond: Json -> Reply)
    requires respond == NearbyReply || respond == AqiReply
    requires !Hit(st, key, t0) && Truthy(Some(body)) && StatusIsOk(body) == Ok(false)
    requires at <= t1 <= at + StdTtlMs
    ensures var first := Handle(st, key, t0, Fetched(body, at), respond);
      && first.1 == Status502(WaqiError) && first.2
      && first.0 == st[key := Entry(body, at)]
      && Handle(first.0, key, t1, second, respond) == (first.0, Status502(WaqiError), false)
  {
    WrapMiss(st, key, t0, Fetched(body, at));
    WrapRepeatWithinTtl(st, key, t0, at, t1, body, second);
  }

  /**
   * A falsy body (`null`, `false`, `0`, `""`) is stored too, but never counts
   * as a hit: the next request calls upstream again.
   */
  lemma FalsyBodyIsRefetched(st: Store, key: string, t0: int, at: int, t1: int, body: Json, second: Upstream, respond: Json -> Reply)
    requires !Hit(st, key, t0) && !Truthy(Some(body))
    ensures var first := Handle(st, key, t0, Fetched(body, at), respond);
      && first.0 == st[key := Entry(body, at)]
      && Handle(first.0, key, t1, second, respond).2
  {
    WrapMiss(st, key, t0, Fetched(body, at));
    var st1 := Wrap(st, key, t0, Fetched(body, at)).0;
    assert !Hit(st1, key, t1);
    WrapMiss(st1, key, t1, second);
  }

  /** An upstream error goes to the error handler, and the next request calls upstream again. */
  lemma ThrowIsNotCached(st: Store, key: string, t0: int, t1: int, reason: string, body: Json, at: int, respond: Json -> Reply)
    requires !Hit(st, key, t0)
    ensures var first := Handle(st, key, t0, Threw(reason), respond);
      && first.1 == NextError(Thrown(reason))
      && Handle(first.0, key, t1, Fetched(body, at), respond).1 == respond(body)
      && Handle(first.0, key, t1, Fetched(body, at), respond).2
  {
    WrapRetryAfterThrow(st, key, t0, t1, reason, Fetched(body, at));
    var st1 := Wrap(st, key, t0, Threw(reason)).0;
    WrapMiss(st1, key, t1, Fetched(body, at));
  }

  /** On an `ok` body with well-formed stations, `/nearby` answers exactly the Thai stations, in order. */
  lemma NearbyOkReply(raw: Json, items: seq<Json>)
    requires raw.JObj? && FieldIs(Some(raw), "status", "ok") && Lookup(Some(raw), "data") == Some(JArr(items))
    requires forall i :: 0 <= i < |items| ==> WellFormedStation(items[i])
    ensures NearbyReply(raw) == Status200(JObj(map["status" := JStr("ok"), "data" := JArr(Filter(IsThaiRecord, items))]))
  {
    assert StatusIsOk(raw) == Ok(true);
    SelectThaiWellFormed(items);
  }

  /** An upstream station record with the given name and position. */
  function StationRecord(uid: real, name: string, lat: real, lon: real, aqi: string): Json {
    JObj(map[
      "uid" := JNum(uid), "lat" := JNum(lat), "lon" := JNum(lon), "aqi" := JStr(aqi),
      "station" := JObj(map["name" := JStr(name)])])
  }

  lemma StationRecordFields(uid: real, name: string, lat: real, lon: real, aqi: string)
    ensures WellFormedStation(StationRecord(uid, name, lat, lon, aqi))
    ensures IsThaiRecord(StationRecord(uid, name, lat, lon, aqi)) == IsThaiStation(name, lat, lon)
  {
    var r := StationRecord(uid, name, lat, lon, aqi);
    assert Lookup(Some(r), "lat") == Some(JNum(lat));
    assert Lookup(Some(r), "lon") == Some(JNum(lon));
    assert Lookup(Lookup(Some(r), "station"), "name") == Some(JStr(name));
  }

  lemma FilterFirstOfTwo(a: Json, b: Json)
    requires IsThaiRecord(a) && !IsThaiRecord(b)
    ensures Filter(IsThaiRecord, [a, b]) == [a]
  {
    assert [a, b][1..] == [b];
    assert [b][1..] == [];
  }

  /** A station at (13, 100) named "Bangkok Thailand" and one at (48, 2) named "Paris". */
  const Bangkok: Json := StationRecord(1.0, "Bangkok Thailand", 13.0, 100.0, "10")
  const Paris: Json := StationRecord(2.0, "Paris", 48.0, 2.0, "20")

  /**
   * The Bangkok station passes the `/nearby` filter and the Paris station does
   * not, so by NearbyOkReply an `ok` list of the two is answered with Bangkok alone.
   */
  lemma BangkokIsThaiParisIsNot()
    ensures WellFormedStation(Bangkok) && WellFormedStation(Paris)
    ensures IsThaiRecord(Bangkok) && !IsThaiRecord(Paris)
    ensures Filter(IsThaiRecord, [Bangkok, Paris]) == [Bangkok]
  {
    StationRecordFields(1.0, "Bangkok Thailand", 13.0, 100.0, "10");
    StationRecordFields(2.0, "Paris", 48.0, 2.0, "20");
    InThailandSamples();
    IsThaiStationParisNeither();
    FilterFirstOfTwo(Bangkok, Paris);
  }

  /**
   * The upstream's invalid-key answer `{status: 'error', data: 'Invalid key'}`
   * is answered with 502 and stays cached under the station's key.
   */
  lemma InvalidKeyAnswerIsCached(st: Store, uid: string, now: int, at: int)
    requires !Hit(st, AqiKey(uid), now)
    ensures var body := JObj(map["status" := JStr("error"), "data" := JStr("Invalid key")]);
      var result := Handle(st, AqiKey(uid), now, Fetched(body, at), AqiReply);
      && result.1 == Status502(WaqiError)
      && AqiKey(uid) in result.0 && result.0[AqiKey(uid)].value == body
  {
    var body := JObj(map["status" := JStr("error"), "data" := JStr("Invalid key")]);
    assert StatusIsOk(body) == Ok(false);
    NonOkBodyIsCached(st, AqiKey(uid), now, at, at, body, Fetched(body, at), AqiReply);
  }

  method CacheWrap(cache: Cache, key: string, now: int, upstream: Upstream) returns (r: Result<Json, Fault>, called: bool)
    modifies cache
    ensures (cache.entries, r, called) == Wrap(old(cache.entries), key, now, upstream)
  {
    var cached := cache.Get(key, now);
    if Truthy(cached) {
      return Ok(cached.value), false;
    }
    called := true;
    match upstream
    case Threw(reason) =>
      r := Err(Thrown(reason));
    case Fetched(body, at) =>
      cache.Set(key, body, at);
      r := Ok(body);
  }

  /** `GET /nearby` */
  method Nearby(cache: Cache, now: int, upstream: Upstream) returns (reply: Reply, called: bool)
    modifies cache
    ensures (cache.entries, reply, called) == Handle(old(cache.entries), NearbyKey, now, upstream, NearbyReply)
  {
    var raw;
    raw, called := CacheWrap(cache, NearbyKey, now, upstream);
    match raw
    case Err(e) => reply := NextError(e);
    case Ok(body) => reply := NearbyReply(body);
  }

  /** `GET /aqi/:uid` */
  method Aqi(cache: Cache, uid: string, now: int, upstream: Upstream) returns (reply: Reply, called: bool)
    modifies cache
    ensures (cache.entries, reply, called) == Handle(old(cache.entries), AqiKey(uid), now, upstream, AqiReply)
  {
    var data;
    data, called := CacheWrap(cache, AqiKey(uid), now, upstream);
    match data
    case Err(e) => reply := NextError(e);
    case Ok(body) => reply := AqiReply(body);
  }
}
