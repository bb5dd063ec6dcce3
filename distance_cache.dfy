/** The driving-distance lookup with its file-backed cache (app.py, lines
    34-44 and 62-93). The cache file and the route service are objects: the
    file holds a key/value map, and the service records every request it is
    sent and answers from a fixed function. */
module DistanceCache {
  import opened Common

  /** A coordinate in the decimal text form it takes inside the cache key. */
  type Coordinate = string

  /** A directions request: `start` and `end` are "longitude,latitude". */
  datatype Request = Request(start: string, end: string)

  /** What the route service answers: an HTTP status with the route length in
      metres when the body holds one, or a connection failure. */
  datatype Response = Http(status: int, meters: Option<real>) | ConnectionError

  /** What the cache file on disk holds. */
  datatype CacheFile = Missing | Corrupt | Stored(entries: map<string, real>)

  /** The cache key "originLat,originLon,destLat,destLon": the four
      coordinates in that order, each in its own slot, separated by three
      commas. */
  function CacheKey(originLat: Coordinate, originLon: Coordinate,
                    destLat: Coordinate, destLon: Coordinate): (k: string)
    ensures |k| == |originLat| + |originLon| + |destLat| + |destLon| + 3
    ensures k[..|originLat|] == originLat
    ensures k[|originLat|] == ','
    ensures k[|originLat| + 1..|originLat| + 1 + |originLon|] == originLon
    ensures k[|originLat| + 1 + |originLon|] == ','
    ensures k[|originLat| + |originLon| + 2..|k| - |destLon| - 1] == destLat
    ensures k[|k| - |destLon| - 1] == ','
    ensures k[|k| - |destLon|..] == destLon
  {
    originLat + "," + originLon + "," + destLat + "," + destLon
  }

  /** The request for a route: both points are sent longitude first, then a
      comma, then latitude. */
  function RouteRequest(originLat: Coordinate, originLon: Coordinate,
                        destLat: Coordinate, destLon: Coordinate): (r: Request)
    ensures |r.start| == |originLon| + 1 + |originLat| && |r.end| == |destLon| + 1 + |destLat|
    ensures r.start[..|originLon|] == originLon && r.start[|originLon|] == ','
    ensures r.start[|originLon| + 1..] == originLat
    ensures r.end[..|destLon|] == destLon && r.end[|destLon|] == ','
    ensures r.end[|destLon| + 1..] == destLat
  {
    Request(originLon + "," + originLat, destLon + "," + destLat)
  }

  /** Two comma-free strings that both start at position `p` of `k` and are
      both followed there by a comma are the same string. */
  lemma SlotBeforeComma(k: string, p: nat, x: string, y: string)
    requires ',' !in x && ',' !in y
    requires p + |x| < |k| && k[p..p + |x|] == x && k[p + |x|] == ','
    requires p + |y| < |k| && k[p..p + |y|] == y && k[p + |y|] == ','
    ensures x == y
  {
    assert |x| == |y|;
  }

  /** Coordinates without commas give distinct keys to distinct routes, so a
      cache entry is never shared by two routes. */
  lemma CacheKeyInjective(a1: Coordinate, a2: Coordinate, a3: Coordinate, a4: Coordinate,
                          b1: Coordinate, b2: Coordinate, b3: Coordinate, b4: Coordinate)
    requires ',' !in a1 && ',' !in a2 && ',' !in a3
    requires ',' !in b1 && ',' !in b2 && ',' !in b3
    requires CacheKey(a1, a2, a3, a4) == CacheKey(b1, b2, b3, b4)
    ensures a1 == b1 && a2 == b2 && a3 == b3 && a4 == b4
  {
    var k := CacheKey(a1, a2, a3, a4);
    SlotBeforeComma(k, 0, a1, b1);
    SlotBeforeComma(k, |a1| + 1, a2, b2);
    SlotBeforeComma(k, |a1| + |a2| + 2, a3, b3);
  }

  /** `round(x, 2)`: the nearest multiple of 0.01, ties to the even
      hundredth. */
  function Round2(x: real): (r: real)
    ensures (r * 100.0).Floor as real == r * 100.0
    ensures -0.005 <= r - x <= 0.005
  {
    var scaled := x * 100.0;
    var n := scaled.Floor;
    var fraction := scaled - n as real;
    var k := if fraction > 0.5 then n + 1
             else if fraction < 0.5 then n
             else if n % 2 == 0 then n else n + 1;
    k as real / 100.0
  }

  /** The distance a response yields: for status 200 with a route length,
      that length in km rounded to two decimals; nothing otherwise (a
      non-200 status, an unreadable body, or a failed connection). */
  function ResponseKm(resp: Response): (r: Option<real>)
    ensures r.Some? <==> resp.Http? && resp.status == 200 && resp.meters.Some?
    ensures r.Some? ==> (r.value * 100.0).Floor as real == r.value * 100.0
    ensures r.Some? ==> -0.005 <= r.value - resp.meters.value / 1000.0 <= 0.005
  {
    match resp
    case Http(status, meters) =>
      if status == 200 && meters.Some? then Some(Round2(meters.value / 1000.0)) else None
    case ConnectionError => None
  }

  /** The value a lookup of `key` returns against cache contents `entries`
      when the service would answer `resp`: the reference definition the
      method `Distance` is proved against. */
  function Resolved(entries: map<string, real>, key: string, resp: Response): (r: Option<real>)
    ensures r.Some? <==> key in entries || ResponseKm(resp).Some?
  {
    if key in entries then Some(entries[key]) else ResponseKm(resp)
  }

  /** The cache contents after that lookup: the old contents, plus the key
      exactly when the lookup produced a value, with that value. */
  function Updated(entries: map<string, real>, key: string, resp: Response): (m: map<string, real>)
    ensures m.Keys == entries.Keys + (if Resolved(entries, key, resp).Some? then {key} else {})
    ensures forall k :: k in entries ==> m[k] == entries[k]
    ensures key in m ==> Resolved(entries, key, resp) == Some(m[key])
  {
    if key in entries then entries
    else match ResponseKm(resp)
      case Some(km) => entries[key := km]
      case None => entries
  }

  /** A hit returns the stored value and leaves the contents as they were,
      whatever the service would have answered. */
  lemma HitReturnsStored(entries: map<string, real>, key: string, resp: Response)
    requires key in entries
    ensures Resolved(entries, key, resp) == Some(entries[key])
    ensures Updated(entries, key, resp) == entries
  {
  }

  /** A lookup touches no key but its own: every other entry keeps its
      presence and its value. */
  lemma UpdateTouchesOnlyKey(entries: map<string, real>, key: string, resp: Response, other: string)
    requires other != key
    ensures other in Updated(entries, key, resp) <==> other in entries
    ensures other in entries ==> Updated(entries, key, resp)[other] == entries[other]
  {
  }

  /** The contents change only on a miss the service answers, and then by
      adding exactly the returned value under the key. */
  lemma UpdateOnlyOnAnsweredMiss(entries: map<string, real>, key: string, resp: Response)
    ensures Updated(entries, key, resp) != entries <==> key !in entries && ResponseKm(resp).Some?
    ensures Resolved(entries, key, resp).Some? <==> key in Updated(entries, key, resp)
    ensures key in Updated(entries, key, resp) ==> Resolved(entries, key, resp) == Some(Updated(entries, key, resp)[key])
  {
  }

  /** A second lookup after a successful one is a hit returning the same
      value, whatever the service would answer the second time. */
  lemma SecondLookupHits(entries: map<string, real>, key: string, first: Response, second: Response)
    requires Resolved(entries, key, first).Some?
    ensures key in Updated(entries, key, first)
    ensures Resolved(Updated(entries, key, first), key, second) == Resolved(entries, key, first)
  {
  }

  /** The cache file. */
  class CacheStore {
    var file: CacheFile

    constructor (file: CacheFile)
      ensures this.file == file
    {
      this.file := file;
    }

    /** Reading the cache: a missing or unparsable file reads as empty. */
    function Load(): (m: map<string, real>)
      reads this
      ensures file.Stored? ==> m == file.entries
      ensures !file.Stored? ==> m == map[]
    {
      if file.Stored? then file.entries else map[]
    }

    /** Writing the cache replaces the whole file, and reading it back gives
        exactly what was written. */
    method Save(m: map<string, real>)
      modifies this
      ensures file == Stored(m)
      ensures Load() == m
    {
      file := Stored(m);
    }
  }

  /** The external directions service. */
  class RouteService {
    const answer: Request -> Response
    var sent: seq<Request>

    constructor (answer: Request -> Response)
      ensures this.answer == answer && sent == []
    {
      this.answer := answer;
      sent := [];
    }

    /** One call to the service: it is recorded and answered. */
    method Directions(req: Request) returns (resp: Response)
      modifies this
      ensures sent == old(sent) + [req]
      ensures resp == answer(req)
    {
      sent := sent + [req];
      resp := answer(req);
    }
  }

  /** The distance in km between two points: the cached value on a hit,
      which sends nothing and writes nothing; on a miss, one request to the
      service, and a rewrite of the file holding the old contents plus the
      new value only when the service answers with a distance. */
  method Distance(store: CacheStore, service: RouteService,
                  originLat: Coordinate, originLon: Coordinate,
                  destLat: Coordinate, destLon: Coordinate) returns (d: Option<real>)
    modifies store, service
    ensures var key := CacheKey(originLat, originLon, destLat, destLon);
            var req := RouteRequest(originLat, originLon, destLat, destLon);
            var before := old(store.Load());
            && d == Resolved(before, key, service.answer(req))
            && service.sent == (if key in before then old(service.sent) else old(service.sent) + [req])
            && (if d.Some? && key !in before
                then store.file == Stored(Updated(before, key, service.answer(req)))
                else store.file == old(store.file))
  {
    var cache := store.Load();
    var key := CacheKey(originLat, originLon, destLat, destLon);
    if key in cache {
      return Some(cache[key]);
    }
    var resp := service.Directions(RouteRequest(originLat, originLon, destLat, destLon));
    match resp {
      case Http(status, meters) =>
        if status == 200 && meters.Some? {
          cache := cache[key := Round2(meters.value / 1000.0)];
          store.Save(cache);
          return Some(cache[key]);
        }
        return None;
      case ConnectionError =>
        return None;
    }
  }

  /** Looking the same route up twice: once the first lookup succeeds, the
      second returns the same value and sends no request, so a route that
      was not cached costs exactly one request, longitude first, and a cached
      one costs none. */
  method DistanceTwice(store: CacheStore, service: RouteService,
                       originLat: Coordinate, originLon: Coordinate,
                       destLat: Coordinate, destLon: Coordinate) returns (d1: Option<real>, d2: Option<real>)
    modifies store, service
    ensures d1.Some? ==> d2 == d1
    ensures d1.Some? ==>
              service.sent == old(service.sent)
                + (if CacheKey(originLat, originLon, destLat, destLon) in old(store.Load()) then []
                   else [RouteRequest(originLat, originLon, destLat, destLon)])
  {
    d1 := Distance(store, service, originLat, originLon, destLat, destLon);
    ghost var afterFirst := service.sent;
    d2 := Distance(store, service, originLat, originLon, destLat, destLon);
    if d1.Some? {
      var key := CacheKey(originLat, originLon, destLat, destLon);
      assert key in store.Load();
      assert service.sent == afterFirst;
    }
  }
}
