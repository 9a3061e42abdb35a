/** The weather cache of src/services/firebaseWeatherService.ts: one shared
    document holding the last reading of every configured location and one
    fetch timestamp; a read refills it when it is missing or more than an
    hour old. The document store is a field holding the document or
    nothing; the upstream answer for each location, the clock and the
    store's failures are inputs. */
module WeatherCache {
  import opened Wrappers
  import opened Timezone

  /** One reading as the weather API returns it (the `noaa` value of each
      parameter). */
  datatype WeatherData = WeatherData(
    time: string, airTemperature: real, humidity: real, windSpeed: real,
    windDirection: real, visibility: real, cloudCover: real)

  datatype Location = Location(name: string, lat: real, lng: real)

  /** WEATHER_LOCATIONS */
  const WeatherLocations: seq<Location> := [
    Location("San Rafael", 37.9735, -122.5311),
    Location("Novato", 38.1074, -122.5697),
    Location("Pt. Reyes", 38.0689, -122.8997),
    Location("Mt. Tam", 37.9235, -122.5965)
  ]

  /** What the weather API call for one location produced: a rejection (the
      fetch failed or the body was not JSON), or a response with its status
      and its `hours` list, None when the body has none. */
  datatype ApiOutcome = ApiRejected | ApiResponse(status: nat, hours: Option<seq<WeatherData>>)

  /** fetchWeatherFromAPI: the first hour of a successful response; null
      when the key is missing, the status is not ok, the call or the parse
      failed, or there are no hours. It never rejects. */
  function FetchWeatherFromApi(apiKey: string, outcome: ApiOutcome): (r: Option<WeatherData>)
    ensures r.Some? <==>
      apiKey != "" && outcome.ApiResponse? && 200 <= outcome.status <= 299
      && outcome.hours.Some? && |outcome.hours.value| > 0
    ensures r.Some? ==> r.value == outcome.hours.value[0]
  {
    if apiKey == "" then None
    else match outcome
      case ApiRejected => None
      case ApiResponse(status, hours) =>
        if !(200 <= status <= 299) then None
        else if hours.Some? && |hours.value| > 0 then Some(hours.value[0])
        else None
  }

  // ------------------------------------------------------------ the document

  datatype LocationEntry = LocationEntry(weatherData: Option<WeatherData>, lastUpdated: int)

  /** AllLocationsWeatherDoc. `locations` is a JavaScript object; its
      entries are kept in insertion order, the order Object.entries lists
      them in for names that are not array indices. */
  datatype AllLocationsDoc = AllLocationsDoc(locations: seq<(string, LocationEntry)>, lastFetch: int)

  function Keys<V>(entries: seq<(string, V)>): seq<string> {
    seq(|entries|, i requires 0 <= i < |entries| => entries[i].0)
  }

  /** The keys of an object's own properties are distinct. */
  predicate UniqueKeys<V>(entries: seq<(string, V)>) {
    forall i, j :: 0 <= i < j < |entries| ==> entries[i].0 != entries[j].0
  }

  /** `object[key] = value`: an existing key keeps its place and takes the
      new value; a new key goes last. */
  function Put<V>(entries: seq<(string, V)>, key: string, value: V): (r: seq<(string, V)>)
    ensures key in Keys(entries) ==> |r| == |entries|
    ensures key in Keys(entries) ==> Keys(r) == Keys(entries)
    ensures key in Keys(entries) && UniqueKeys(entries) ==>
      forall i :: 0 <= i < |r| ==> r[i] == (if entries[i].0 == key then (key, value) else entries[i])
    ensures UniqueKeys(entries) ==> UniqueKeys(r)
    ensures key !in Keys(entries) ==> r == entries + [(key, value)]
  {
    if entries == [] then [(key, value)]
    else if entries[0].0 == key then
      assert Keys(entries)[0] == key;
      [(key, value)] + entries[1..]
    else
      assert Keys(entries) == [entries[0].0] + Keys(entries[1..]);
      [entries[0]] + Put(entries[1..], key, value)
  }

  /** The result of one location's fetch. */
  datatype LocationResult = LocationResult(locationName: string, weatherData: Option<WeatherData>)

  /** The results of fetching every location, in the order of the locations. */
  function RefillResults(apiKey: string, locations: seq<Location>, fetch: Location -> ApiOutcome): seq<LocationResult> {
    seq(|locations|, i requires 0 <= i < |locations| =>
      LocationResult(locations[i].name, FetchWeatherFromApi(apiKey, fetch(locations[i]))))
  }

  /** The `forEach` that fills `locations`, one assignment per result, every
      entry stamped with the same timestamp. */
  function AssembleEntries(results: seq<LocationResult>, stamp: int): (entries: seq<(string, LocationEntry)>)
    ensures |entries| <= |results|
    ensures forall i :: 0 <= i < |results| ==> results[i].locationName in Keys(entries)
    ensures forall k :: 0 <= k < |entries| ==> entries[k].1.lastUpdated == stamp
    ensures UniqueKeys(entries)
  {
    if results == [] then []
    else
      var n := |results| - 1;
      var before := AssembleEntries(results[..n], stamp);
      var last := results[n];
      PutKeys(before, last.locationName, LocationEntry(last.weatherData, stamp));
      assert forall i :: 0 <= i < n ==> results[i] == results[..n][i];
      Put(before, last.locationName, LocationEntry(last.weatherData, stamp))
  }

  /** A Put keeps every key and adds its own. */
  lemma PutKeys<V>(entries: seq<(string, V)>, key: string, value: V)
    ensures forall x :: x in Keys(entries) ==> x in Keys(Put(entries, key, value))
    ensures key in Keys(Put(entries, key, value))
  {
    var r := Put(entries, key, value);
    if key !in Keys(entries) {
      assert Keys(r) == Keys(entries) + [key];
    }
  }

  predicate DistinctNames(results: seq<LocationResult>) {
    forall i, j :: 0 <= i < j < |results| ==> results[i].locationName != results[j].locationName
  }

  /** Each result as an entry of the object, stamped with `stamp`. */
  function Tagged(results: seq<LocationResult>, stamp: int): seq<(string, LocationEntry)> {
    seq(|results|, i requires 0 <= i < |results| =>
      (results[i].locationName, LocationEntry(results[i].weatherData, stamp)))
  }

  /** With distinct names, the object holds one entry per result, keyed and
      ordered as the results, each with its reading (null included) and the
      shared timestamp. */
  lemma {:induction false} AssembleDistinct(results: seq<LocationResult>, stamp: int)
    requires DistinctNames(results)
    ensures AssembleEntries(results, stamp) == Tagged(results, stamp)
  {
    if results != [] {
      var n := |results| - 1;
      var prefix := results[..n];
      assert DistinctNames(prefix);
      AssembleDistinct(prefix, stamp);
      var before := AssembleEntries(prefix, stamp);
      NotYetAssembled(before, prefix, results[n].locationName, stamp);
      AssembleLast(results, stamp);
      TaggedLast(results, stamp);
    }
  }

  lemma TaggedLast(results: seq<LocationResult>, stamp: int)
    requires results != []
    ensures var n := |results| - 1;
      Tagged(results, stamp)
      == Tagged(results[..n], stamp) + [(results[n].locationName, LocationEntry(results[n].weatherData, stamp))]
  {
  }

  /** The last result is assigned onto the object built from the others. */
  lemma AssembleLast(results: seq<LocationResult>, stamp: int)
    requires results != []
    ensures var last := results[|results| - 1];
      AssembleEntries(results, stamp)
      == Put(AssembleEntries(results[..|results| - 1], stamp), last.locationName, LocationEntry(last.weatherData, stamp))
  {
  }

  /** A name that no earlier result has is not yet a key. */
  lemma NotYetAssembled(before: seq<(string, LocationEntry)>, prefix: seq<LocationResult>, name: string, stamp: int)
    requires before == Tagged(prefix, stamp)
    requires forall i :: 0 <= i < |prefix| ==> prefix[i].locationName != name
    ensures name !in Keys(before)
  {
    forall k | 0 <= k < |before|
      ensures Keys(before)[k] != name
    {
      assert Keys(before)[k] == before[k].0 == prefix[k].locationName;
    }
  }

  lemma LocationNamesDistinct()
    ensures forall i, j :: 0 <= i < j < |WeatherLocations| ==> WeatherLocations[i].name != WeatherLocations[j].name
  {
    var w := WeatherLocations;
    assert w[0].name[0] == 'S' && w[1].name[0] == 'N' && w[2].name[0] == 'P' && w[3].name[0] == 'M';
  }

  /** The document a refill writes. */
  function RefillDoc(apiKey: string, fetch: Location -> ApiOutcome, stamp: int): (doc: AllLocationsDoc)
    ensures doc.lastFetch == stamp && |doc.locations| == |WeatherLocations|
    ensures forall k :: 0 <= k < |doc.locations| ==> doc.locations[k].1.lastUpdated == doc.lastFetch
  {
    LocationNamesDistinct();
    assert DistinctNames(RefillResults(apiKey, WeatherLocations, fetch));
    AssembleDistinct(RefillResults(apiKey, WeatherLocations, fetch), stamp);
    AllLocationsDoc(AssembleEntries(RefillResults(apiKey, WeatherLocations, fetch), stamp), stamp)
  }

  /** A refill's document has exactly one entry per configured location, in
      the configured order; a failed fetch is kept as a null reading; lastFetch
      and every lastUpdated are the one refill timestamp. */
  lemma RefillDocShape(apiKey: string, fetch: Location -> ApiOutcome, stamp: int)
    ensures var d := RefillDoc(apiKey, fetch, stamp);
      && d.lastFetch == stamp
      && |d.locations| == |WeatherLocations|
      && (forall i :: 0 <= i < |WeatherLocations| ==>
            d.locations[i].0 == WeatherLocations[i].name
            && d.locations[i].1.weatherData == FetchWeatherFromApi(apiKey, fetch(WeatherLocations[i]))
            && d.locations[i].1.lastUpdated == d.lastFetch)
  {
    var results := RefillResults(apiKey, WeatherLocations, fetch);
    LocationNamesDistinct();
    assert DistinctNames(results);
    AssembleDistinct(results, stamp);
  }

  datatype LocationReading = LocationReading(location: string, data: Option<WeatherData>)

  /** formatFirebaseData: one reading per entry of `locations`, in order. */
  function FormatFirebaseData(data: AllLocationsDoc): (r: seq<LocationReading>)
    ensures |r| == |data.locations|
    ensures forall i :: 0 <= i < |r| ==> r[i].location == data.locations[i].0 && r[i].data == data.locations[i].1.weatherData
  {
    seq(|data.locations|, i requires 0 <= i < |data.locations| =>
      LocationReading(data.locations[i].0, data.locations[i].1.weatherData))
  }

  /** Served straight after a refill, the readings are the configured
      locations in order, each with what its own fetch extracted. */
  lemma FormatAfterRefill(apiKey: string, fetch: Location -> ApiOutcome, stamp: int)
    ensures var r := FormatFirebaseData(RefillDoc(apiKey, fetch, stamp));
      && |r| == |WeatherLocations|
      && forall i :: 0 <= i < |WeatherLocations| ==>
           r[i] == LocationReading(WeatherLocations[i].name, FetchWeatherFromApi(apiKey, fetch(WeatherLocations[i])))
  {
    RefillDocShape(apiKey, fetch, stamp);
  }

  /** A refilled document is fresh for the hour after it was stamped and
      reads "Just now" for the first minute. */
  lemma RefillIsFresh(apiKey: string, fetch: Location -> ApiOutcome, stamp: int, now: int)
    requires stamp <= now <= stamp + OneHourMs
    ensures !IsDataStale(RefillDoc(apiKey, fetch, stamp).lastFetch, now)
    ensures now < stamp + OneMinuteMs ==> FormatRelativeTime(RefillDoc(apiKey, fetch, stamp).lastFetch, now) == "Just now"
  {
  }

  // ---------------------------------------------------------------- the store

  /** What other dashboard instances did to the shared document between
      this instance's refill and its re-read. */
  datatype StoreEvent = NoOtherWriter | OtherWrite(doc: AllLocationsDoc) | OtherDelete

  function AfterOtherWriters(store: Option<AllLocationsDoc>, event: StoreEvent): Option<AllLocationsDoc> {
    match event
    case NoOtherWriter => store
    case OtherWrite(d) => Some(d)
    case OtherDelete => None
  }

  /** Which of the store calls of one read fail: the first getDoc, the
      setDoc of the refill, the getDoc after it. */
  datatype StoreFaults = StoreFaults(readFails: bool, writeFails: bool, rereadFails: bool)

  class WeatherService {
    /** STORMGLASS_API_KEY, "" when it is not set. */
    const apiKey: string
    /** The document weather_data/all_locations, None while it does not exist. */
    var store: Option<AllLocationsDoc>
    /** Every weather API call sent, oldest first. */
    ghost var apiFetches: seq<Location>
    /** Every document this instance wrote, oldest first. */
    ghost var writes: seq<AllLocationsDoc>

    constructor (apiKey: string, store: Option<AllLocationsDoc>)
      ensures this.apiKey == apiKey && this.store == store
      ensures apiFetches == [] && writes == []
    {
      this.apiKey := apiKey;
      this.store := store;
      apiFetches := [];
      writes := [];
    }

    /** One call of fetchWeatherFromAPI; the request is sent only when the
        key is set. */
    method FetchLocation(location: Location, outcome: ApiOutcome) returns (weatherData: Option<WeatherData>)
      modifies this`apiFetches
      ensures weatherData == FetchWeatherFromApi(apiKey, outcome)
      ensures apiFetches == old(apiFetches) + (if apiKey != "" then [location] else [])
    {
      if apiKey == "" {
        return None;
      }
      apiFetches := apiFetches + [location];
      weatherData := FetchWeatherFromApi(apiKey, outcome);
    }

    /** The fetches of a refill, one per location; Promise.all keeps the
        locations' order, which a sequential loop keeps too. */
    method FetchAllLocations(fetch: Location -> ApiOutcome) returns (results: seq<LocationResult>)
      modifies this`apiFetches
      ensures results == RefillResults(apiKey, WeatherLocations, fetch)
      ensures apiFetches == old(apiFetches) + (if apiKey != "" then WeatherLocations else [])
    {
      results := [];
      var i := 0;
      while i < |WeatherLocations|
        invariant 0 <= i <= |WeatherLocations|
        invariant |results| == i
        invariant forall j :: 0 <= j < i ==>
          results[j] == LocationResult(WeatherLocations[j].name, FetchWeatherFromApi(apiKey, fetch(WeatherLocations[j])))
        invariant apiFetches == old(apiFetches) + (if apiKey != "" then WeatherLocations[..i] else [])
      {
        var location := WeatherLocations[i];
        var weatherData := FetchLocation(location, fetch(location));
        results := results + [LocationResult(location.name, weatherData)];
        assert WeatherLocations[..i + 1] == WeatherLocations[..i] + [location];
        i := i + 1;
      }
      assert WeatherLocations[..i] == WeatherLocations;
    }

    /** The document object a refill builds, filled by assigning each
        result in turn. */
    static method AssembleDoc(results: seq<LocationResult>, pstTimestamp: int) returns (doc: AllLocationsDoc)
      ensures doc == AllLocationsDoc(AssembleEntries(results, pstTimestamp), pstTimestamp)
    {
      var locations: seq<(string, LocationEntry)> := [];
      var i := 0;
      while i < |results|
        invariant 0 <= i <= |results|
        invariant locations == AssembleEntries(results[..i], pstTimestamp)
      {
        assert results[..i + 1][..i] == results[..i];
        locations := Put(locations, results[i].locationName, LocationEntry(results[i].weatherData, pstTimestamp));
        i := i + 1;
      }
      assert results[..i] == results;
      doc := AllLocationsDoc(locations, pstTimestamp);
    }

    /** updateWeatherInFirebase: fetch every location, build one document
        stamped with one timestamp, replace the stored document with it. A
        failed write is swallowed and leaves the store as it was. */
    method UpdateWeatherInFirebase(fetch: Location -> ApiOutcome, now: int, writeFails: bool)
      modifies this
      ensures apiFetches == old(apiFetches) + (if apiKey != "" then WeatherLocations else [])
      ensures store == if writeFails then old(store) else Some(RefillDoc(apiKey, fetch, now))
      ensures writes == old(writes) + if writeFails then [] else [RefillDoc(apiKey, fetch, now)]
    {
      var results := FetchAllLocations(fetch);
      var pstTimestamp := now;
      var allLocationsData := AssembleDoc(results, pstTimestamp);
      if !writeFails {
        store := Some(allLocationsData);
        writes := writes + [allLocationsData];
      }
    }

    /** getWeatherFromFirebase. A fresh document is served as it is, with no
        API call and no write. A missing or stale one is refilled once and
        read again: the new document is served if there is one, else the
        stale one, else nothing. A failed read serves nothing. */
    method GetWeatherFromFirebase(now: int, fetch: Location -> ApiOutcome, faults: StoreFaults, between: StoreEvent)
      returns (readings: seq<LocationReading>)
      modifies this
      ensures faults.readFails ==>
        readings == [] && store == old(store) && apiFetches == old(apiFetches) && writes == old(writes)
      ensures !faults.readFails && old(store).Some? && !IsDataStale(old(store).value.lastFetch, now) ==>
        readings == FormatFirebaseData(old(store).value)
        && store == old(store) && apiFetches == old(apiFetches) && writes == old(writes)
      ensures !faults.readFails && (old(store).None? || IsDataStale(old(store).value.lastFetch, now)) ==>
        var written := if faults.writeFails then old(store) else Some(RefillDoc(apiKey, fetch, now));
        && store == AfterOtherWriters(written, between)
        && apiFetches == old(apiFetches) + (if apiKey != "" then WeatherLocations else [])
        && writes == old(writes) + (if faults.writeFails then [] else [RefillDoc(apiKey, fetch, now)])
        && readings == if faults.rereadFails then []
                       else if store.Some? then FormatFirebaseData(store.value)
                       else if old(store).Some? then FormatFirebaseData(old(store).value)
                       else []
    {
      if faults.readFails {
        return [];
      }
      var docSnap := store;
      if docSnap.Some? {
        var data := docSnap.value;
        if IsDataStale(data.lastFetch, now) {
          UpdateWeatherInFirebase(fetch, now, faults.writeFails);
          store := AfterOtherWriters(store, between);
          if faults.rereadFails {
            return [];
          }
          var updatedDocSnap := store;
          if updatedDocSnap.Some? {
            return FormatFirebaseData(updatedDocSnap.value);
          }
        }
        return FormatFirebaseData(data);
      } else {
        UpdateWeatherInFirebase(fetch, now, faults.writeFails);
        store := AfterOtherWriters(store, between);
        if faults.rereadFails {
          return [];
        }
        var newDocSnap := store;
        if newDocSnap.Some? {
          return FormatFirebaseData(newDocSnap.value);
        }
      }
      return [];
    }

    /** getFormattedLastUpdateTime: the age of the stored document's fetch,
        "Never" when there is no document, "Unknown" when the read fails. */
    method GetFormattedLastUpdateTime(now: int, readFails: bool) returns (text: string)
      ensures readFails ==> text == "Unknown"
      ensures !readFails && store.None? ==> text == "Never"
      ensures !readFails && store.Some? ==>
        text == Render(ElapsedAge(now - store.value.lastFetch))
        && ParseRelativeTime(text) == Some(ElapsedAge(now - store.value.lastFetch))
    {
      if readFails {
        return "Unknown";
      }
      var docSnap := store;
      if docSnap.Some? {
        text := FormatRelativeTime(docSnap.value.lastFetch, now);
        FormatRelativeTimeReadsBack(docSnap.value.lastFetch, now);
        return;
      }
      return "Never";
    }
  }
}
