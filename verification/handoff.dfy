/** The module-level state shared between requests (`latitude`, `longitude`, `coordArray`),
    the location handler's success continuation that updates it, and the trails handler
    that reads it. Each provider continuation runs as one atomic step whose input is the
    provider's decoded body, or the string form of the error it was rejected with. */
module Handoff {
  import opened Js
  import opened Records
  import opened Routes

  /** The coordinates `coordArray` holds after the resolutions `rs`, in order: each one
      contributes its latitude followed by its longitude. */
  function Coords(rs: seq<LocationRecord>): seq<string>
  {
    if rs == [] then []
    else Coords(rs[..|rs| - 1]) + [rs[|rs| - 1].latitude, rs[|rs| - 1].longitude]
  }

  /** `coordArray` always holds exactly two entries per successful resolution. */
  lemma {:induction false} CoordsLength(rs: seq<LocationRecord>)
    ensures |Coords(rs)| == 2 * |rs|
  {
    if rs != [] {
      CoordsLength(rs[..|rs| - 1]);
    }
  }

  /** Two entries per resolution, at positions `2i` and `2i + 1`. */
  lemma {:induction false} CoordsAt(rs: seq<LocationRecord>, i: nat)
    requires i < |rs|
    ensures |Coords(rs)| == 2 * |rs|
    ensures Coords(rs)[2 * i] == rs[i].latitude && Coords(rs)[2 * i + 1] == rs[i].longitude
  {
    var init := rs[..|rs| - 1];
    if i < |rs| - 1 {
      CoordsAt(init, i);
    } else if init != [] {
      CoordsAt(init, 0);
    }
  }

  /** Later resolutions only append: entries already in `coordArray` are never modified. */
  lemma {:induction false} CoordsExtend(rs: seq<LocationRecord>, later: seq<LocationRecord>)
    ensures Coords(rs) <= Coords(rs + later)
    decreases |later|
  {
    if later != [] {
      var all := rs + later;
      assert all[..|all| - 1] == rs + later[..|later| - 1];
      CoordsExtend(rs, later[..|later| - 1]);
    } else {
      assert rs + later == rs;
    }
  }

  /** Once one resolution has happened, the first two entries belong to it for good. */
  lemma FirstResolutionPinned(rs: seq<LocationRecord>, later: seq<LocationRecord>)
    requires rs != []
    ensures |Coords(rs + later)| >= 2
    ensures Coords(rs + later)[0] == rs[0].latitude && Coords(rs + later)[1] == rs[0].longitude
  {
    CoordsAt(rs, 0);
    CoordsExtend(rs, later);
  }

  /** How a location request resolves: a rejected geocoder request, or `new Location`. */
  function Resolve(city: string, fetched: Result<seq<GeoResult>, string>): (r: Result<LocationRecord, Failure>)
    ensures r.Ok? <==> fetched.Ok? && |fetched.value| > 0
    ensures fetched.Err? ==> r == Err(ProviderFailed(fetched.error))
    ensures fetched.Ok? ==> r == Location(city, fetched.value)
  {
    match fetched
    case Err(rejection) => Err(ProviderFailed(rejection))
    case Ok(geoData) => Location(city, geoData)
  }

  /** The response the location handler sends. */
  function LocationResponse(city: string, fetched: Result<seq<GeoResult>, string>): (resp: Response)
    ensures resp.status == 200 || resp.status == 500
    ensures resp.status == 200 <==> fetched.Ok? && |fetched.value| > 0
    ensures resp.status == 200 ==> resp.body == LocationJson(Location(city, fetched.value).value)
    ensures fetched.Ok? && fetched.value == [] ==> resp == ErrorResponse(FirstResultMissing)
    ensures fetched.Err? ==> resp == ErrorResponse(ProviderFailed(fetched.error))
  {
    match Resolve(city, fetched)
    case Ok(rec) => Response(200, LocationJson(rec))
    case Err(f) => ErrorResponse(f)
  }

  /** The response the trails handler sends: one `Trail` per provider entry, in order. */
  function TrailsResponse(fetched: Result<seq<TrailData>, string>): (resp: Response)
    ensures resp.status == 200 <==> fetched.Ok?
    ensures fetched.Ok? ==>
      resp.body.TrailsJson? && |resp.body.trails| == |fetched.value| &&
      forall i :: 0 <= i < |fetched.value| ==> resp.body.trails[i] == Trail(fetched.value[i])
    ensures fetched.Err? ==> resp == ErrorResponse(ProviderFailed(fetched.error))
  {
    match fetched
    case Err(rejection) => ErrorResponse(ProviderFailed(rejection))
    case Ok(trails) => Response(200, TrailsJson(seq(|trails|, i requires 0 <= i < |trails| => Trail(trails[i]))))
  }

  /** The server process's shared state. */
  class ServerState {
    var latitude: Option<string>   // latest resolution's latitude, undefined before any
    var longitude: Option<string>  // latest resolution's longitude, undefined before any
    var coordArray: seq<string>    // every resolution's latitude and longitude, oldest first

    /** Every successful resolution so far, oldest first. */
    ghost var resolutions: seq<LocationRecord>

    ghost predicate Valid()
      reads this
    {
      coordArray == Coords(resolutions) &&
      (resolutions == [] ==> latitude == None && longitude == None) &&
      (resolutions != [] ==>
        latitude == Some(resolutions[|resolutions| - 1].latitude) &&
        longitude == Some(resolutions[|resolutions| - 1].longitude))
    }

    /** Process start: both coordinates undefined, `coordArray` empty. */
    constructor ()
      ensures Valid() && resolutions == []
      ensures latitude == None && longitude == None && coordArray == []
    {
      latitude, longitude, coordArray := None, None, [];
      resolutions := [];
    }

    /** `locationHandler` with the geocoder's outcome as input. On success the globals take
        the new coordinates and `coordArray` grows by exactly those two; on any failure the
        error handler answers and nothing changes. */
    method LocationHandler(city: string, fetched: Result<seq<GeoResult>, string>) returns (resp: Response)
      requires Valid()
      modifies this
      ensures Valid()
      ensures resp == LocationResponse(city, fetched)
      ensures Resolve(city, fetched).Ok? ==>
        var rec := Resolve(city, fetched).value;
        resolutions == old(resolutions) + [rec] &&
        latitude == Some(rec.latitude) && longitude == Some(rec.longitude) &&
        coordArray == old(coordArray) + [rec.latitude, rec.longitude]
      ensures Resolve(city, fetched).Err? ==>
        resolutions == old(resolutions) && latitude == old(latitude) &&
        longitude == old(longitude) && coordArray == old(coordArray)
    {
      match fetched {
        case Err(rejection) =>
          resp := ErrorResponse(ProviderFailed(rejection));
        case Ok(geoData) =>
          match Location(city, geoData) {
            case Err(f) =>
              resp := ErrorResponse(f);
            case Ok(locationData) =>
              latitude := Some(locationData.latitude);
              longitude := Some(locationData.longitude);
              coordArray := coordArray + [locationData.latitude, locationData.longitude];
              resolutions := resolutions + [locationData];
              assert resolutions[..|resolutions| - 1] == old(resolutions);
              resp := Response(200, LocationJson(locationData));
          }
      }
    }

    /** The coordinates the trails handler puts in its request: `coordArray[0]` and
        `coordArray[1]`, i.e. the FIRST resolution ever, not the latest. */
    method TrailsCoordinates() returns (lat: Option<string>, lon: Option<string>)
      requires Valid()
      ensures resolutions == [] ==> lat == None && lon == None
      ensures resolutions != [] ==>
        lat == Some(resolutions[0].latitude) && lon == Some(resolutions[0].longitude)
    {
      lat := if |coordArray| > 0 then Some(coordArray[0]) else None;
      lon := if |coordArray| > 1 then Some(coordArray[1]) else None;
      if resolutions != [] {
        CoordsAt(resolutions, 0);
      }
    }

    /** `trailsHandler` with the trail provider's outcome as input: the coordinates it asked
        about and the response it sends. The state is only read. */
    method TrailsHandler(fetched: Result<seq<TrailData>, string>)
      returns (lat: Option<string>, lon: Option<string>, resp: Response)
      requires Valid()
      ensures resolutions == [] ==> lat == None && lon == None
      ensures resolutions != [] ==>
        lat == Some(resolutions[0].latitude) && lon == Some(resolutions[0].longitude)
      ensures resp == TrailsResponse(fetched)
    {
      lat, lon := TrailsCoordinates();
      resp := TrailsResponse(fetched);
    }
  }

  /** Two location requests followed by a trails request on a fresh process, whatever each
      geocoder request gives (a rejection, an empty list, results): the globals hold the latest
      successful resolution, while the trails request asks about the first successful one. */
  method SecondLocationIgnoredByTrails(
    city1: string, fetched1: Result<seq<GeoResult>, string>,
    city2: string, fetched2: Result<seq<GeoResult>, string>)
    returns (latestLat: Option<string>, latestLon: Option<string>,
             trailsLat: Option<string>, trailsLon: Option<string>)
    ensures var r2 := Resolve(city2, fetched2);
      r2.Ok? ==> latestLat == Some(r2.value.latitude) && latestLon == Some(r2.value.longitude)
    ensures var r1, r2 := Resolve(city1, fetched1), Resolve(city2, fetched2);
      r1.Ok? && r2.Err? ==> latestLat == Some(r1.value.latitude) && latestLon == Some(r1.value.longitude)
    ensures var r1 := Resolve(city1, fetched1);
      r1.Ok? ==> trailsLat == Some(r1.value.latitude) && trailsLon == Some(r1.value.longitude)
    ensures var r1, r2 := Resolve(city1, fetched1), Resolve(city2, fetched2);
      r1.Err? && r2.Ok? ==> trailsLat == Some(r2.value.latitude) && trailsLon == Some(r2.value.longitude)
    ensures Resolve(city1, fetched1).Err? && Resolve(city2, fetched2).Err? ==>
      latestLat == None && latestLon == None && trailsLat == None && trailsLon == None
  {
    var server := new ServerState();
    var _ := server.LocationHandler(city1, fetched1);
    var _ := server.LocationHandler(city2, fetched2);
    latestLat, latestLon := server.latitude, server.longitude;
    trailsLat, trailsLon := server.TrailsCoordinates();
  }
}
