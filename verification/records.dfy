/** The record builders `Location` and `Trail`, which turn decoded provider bodies into the
    JSON objects the server sends back, and the string split that `Trail` relies on. */
module Records {
  import opened Js

  /** One entry of the geocoder's result list. `lat` and `lon` are kept as the provider sent them. */
  datatype GeoResult = GeoResult(display_name: string, lat: string, lon: string)

  /** The object `new Location(city, geoData)` builds; field names are the JSON keys. */
  datatype LocationRecord = LocationRecord(
    search_query: string,
    formatted_query: string,
    latitude: string,
    longitude: string)

  /** One entry of the trail provider's `trails` list, with the fields `Trail` reads. */
  datatype TrailData = TrailData(
    name: string,
    location: string,
    length: real,
    stars: real,
    starVotes: int,
    summary: string,
    url: string,
    conditionStatus: string,
    conditionDate: string)

  /** The object `new Trail(data)` builds; `condition_time` is undefined when there is no space. */
  datatype TrailRecord = TrailRecord(
    name: string,
    location: string,
    length: real,
    stars: real,
    star_votes: int,
    summary: string,
    trail_url: string,
    conditions: string,
    condition_date: string,
    condition_time: Option<string>)

  // ---------------------------------------------------------------------------
  // String.prototype.split with a one-character separator

  /** Glues `parts` back together with `sep` between neighbours. */
  function Join(parts: seq<string>, sep: char): string
    requires |parts| >= 1
  {
    if |parts| == 1 then parts[0] else parts[0] + [sep] + Join(parts[1..], sep)
  }

  /** `s.split(sep)`: the maximal runs of `s` free of `sep`, in order, empty runs included
      (so `"".split(' ')` is `[""]`). Its inverse is `Join`. */
  function Split(s: string, sep: char): (parts: seq<string>)
    ensures |parts| >= 1
    ensures forall i :: 0 <= i < |parts| ==> sep !in parts[i]
    ensures Join(parts, sep) == s
  {
    if s == [] then [[]]
    else
      var rest := Split(s[1..], sep);
      if s[0] == sep then
        assert ([[]] + rest)[1..] == rest;
        [[]] + rest
      else
        var parts := [[s[0]] + rest[0]] + rest[1..];
        assert parts[1..] == rest[1..];
        assert s == [s[0]] + s[1..];
        parts
  }

  /** A string without the separator is a single token. */
  lemma SplitNoSeparator(s: string, sep: char)
    requires sep !in s
    ensures Split(s, sep) == [s]
  {
  }

  /** Splitting at the first separator, at index `k`: the first token is everything before it. */
  lemma {:induction false} SplitAtFirstSeparator(s: string, sep: char, k: nat)
    requires k < |s| && s[k] == sep && sep !in s[..k]
    ensures Split(s, sep) == [s[..k]] + Split(s[k + 1..], sep)
  {
    if k == 0 {
      assert s[..k] == [];
    } else {
      assert s[1..][..k - 1] == s[1..k];
      assert s[1..][k - 1 + 1..] == s[k + 1..];
      SplitAtFirstSeparator(s[1..], sep, k - 1);
      assert [s[0]] + s[1..k] == s[..k];
    }
  }

  /** Split undoes Join on separator-free tokens, so Split is the only such decomposition. */
  lemma {:induction false} SplitJoin(parts: seq<string>, sep: char)
    requires |parts| >= 1
    requires forall i :: 0 <= i < |parts| ==> sep !in parts[i]
    ensures Split(Join(parts, sep), sep) == parts
  {
    if |parts| == 1 {
      SplitNoSeparator(parts[0], sep);
    } else {
      var s := Join(parts, sep);
      var k := |parts[0]|;
      assert s == parts[0] + [sep] + Join(parts[1..], sep);
      assert s[..k] == parts[0];
      assert s[k + 1..] == Join(parts[1..], sep);
      SplitAtFirstSeparator(s, sep, k);
      SplitJoin(parts[1..], sep);
    }
  }

  /** With two or more tokens, the first two are joined by a separator at the start of the
      string, followed by either the end of the string or another separator. */
  lemma LeadingTokens(parts: seq<string>, sep: char)
    requires |parts| >= 1
    ensures |parts| >= 2 ==>
      var head := parts[0] + [sep] + parts[1];
      Join(parts, sep) == head || head + [sep] <= Join(parts, sep)
  {
  }

  // ---------------------------------------------------------------------------
  // Record builders

  /** `new Location(city, geoData)`: the query echoed back and the first geocoder result.
      With no result, reading `geoData[0].display_name` throws. */
  function Location(city: string, geoData: seq<GeoResult>): (r: Result<LocationRecord, Failure>)
    ensures r.Ok? <==> |geoData| > 0
    ensures r.Err? ==> r.error == FirstResultMissing
    ensures r.Ok? ==> r.value.search_query == city
    ensures r.Ok? ==> geoData[0] == GeoResult(r.value.formatted_query, r.value.latitude, r.value.longitude)
  {
    if |geoData| == 0 then Err(FirstResultMissing)
    else Ok(LocationRecord(city, geoData[0].display_name, geoData[0].lat, geoData[0].lon))
  }

  /** Only the first geocoder result matters: appending more results changes nothing. */
  lemma LocationIgnoresLaterResults(city: string, first: GeoResult, later: seq<GeoResult>)
    ensures Location(city, [first] + later) == Location(city, [first])
  {
  }

  /** A location record is rebuilt from its own fields: the builder loses nothing. */
  lemma LocationRoundTrip(rec: LocationRecord, later: seq<GeoResult>)
    ensures Location(rec.search_query,
                     [GeoResult(rec.formatted_query, rec.latitude, rec.longitude)] + later) == Ok(rec)
  {
  }

  /** `new Trail(data)`: renames fields and splits `conditionDate` on a space into a date
      token and, when there is a space, a time token. */
  function Trail(data: TrailData): (t: TrailRecord)
    ensures t.name == data.name && t.location == data.location && t.length == data.length
    ensures t.stars == data.stars && t.summary == data.summary
    ensures t.star_votes == data.starVotes && t.trail_url == data.url
    ensures t.conditions == data.conditionStatus
    ensures ' ' !in t.condition_date
    ensures t.condition_time.None? <==> ' ' !in data.conditionDate
    ensures t.condition_time.None? ==> t.condition_date == data.conditionDate
    ensures t.condition_time.Some? ==>
      ' ' !in t.condition_time.value &&
      var head := t.condition_date + " " + t.condition_time.value;
      data.conditionDate == head || head + " " <= data.conditionDate
  {
    var tokens := Split(data.conditionDate, ' ');
    LeadingTokens(tokens, ' ');
    TrailRecord(
      data.name,
      data.location,
      data.length,
      data.stars,
      data.starVotes,
      data.summary,
      data.url,
      data.conditionStatus,
      tokens[0],
      if |tokens| >= 2 then Some(tokens[1]) else None)
  }
}
