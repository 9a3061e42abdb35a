# marinfire dashboard core, modelled in Dafny

This project models the logic behind the Marin County fire dashboard. It has
three parts.

- **The scheduling client** (`CrewSenseService`). It keeps an OAuth bearer
  token and its expiry. It obtains a new token with a client-credentials
  exchange (section 4.4 of RFC 6749) when the cached one is missing or
  expired, and the expiry it records is 300 seconds early. A data request
  that gets HTTP 401 is retried once, after the token is cleared. Other
  failures become an error message. The client also builds the
  `/v1/schedule` query from the truthy parameters.
- **The weather cache** (`firebaseWeatherService`). One shared document holds
  the current reading of each of the four weather stations and one
  `lastFetch` timestamp. A read serves it while it is at most one hour old.
  When it is missing or stale, the read refills it from the weather API and
  reads it again. Alongside it sit the display conversions (Fahrenheit, mph,
  16-point compass, cloud-cover label) and the "N minutes ago" text.
- **The schedule view's helpers** (`ShiftSchedule`). These are the
  assignments of one day, the red/yellow/green staffing status, and the
  expansion of unit abbreviations (`E14` becomes `Engine 14 (Station 14)`).

Files:

- `wrappers.dfy`: `Option` and `Result`.
- `decimal.dfy`: how a JavaScript template literal prints a natural number,
  and how that text reads back.
- `timezone.dfy`: `src/utils/timezone.ts`. Instants are integer
  milliseconds. The "PST" conversions keep the instant, so they are the
  identity here.
- `weather_format.dfy`: the pure conversion helpers of
  `src/services/firebaseWeatherService.ts`.
- `weather_cache.dfy`: the cache itself, as a class `WeatherService` whose
  field `store` is the shared document. It also has ghost logs of the
  weather API calls sent and of the documents written.
- `crewsense.dfy`: `src/services/crewSenseService.ts`. Pure specification
  functions (`TokenStep`, `RequestSpec`) define what one call does. The
  class `CrewSenseService` has the token fields and a ghost log `sent` of
  every request sent, and its methods are proved to follow those functions.
- `shift_schedule.dfy`: the helpers of
  `src/components/sections/Staffing/tabs/ShiftSchedule.tsx`.

Inputs from the world become parameters:

- the clock (`now`);
- each token exchange's outcome (`ExchangeResult`);
- each data response (`FetchResult`);
- each weather API answer (`fetch: Location -> ApiOutcome`);
- each document-store failure (`StoreFaults`);
- writes by other dashboard instances between a refill and its re-read
  (`StoreEvent`).

Failures the code absorbs, which the model keeps:

- A failed refill is swallowed (src/services/firebaseWeatherService.ts:137-139). The read then serves the stale document, or `[]` when there was none.
- A 401 on the retry gets the ordinary "API request failed: 401 ..." message (src/services/crewSenseService.ts:177-189). No separate authentication error exists.
- A failed store read gives `[]` (src/services/firebaseWeatherService.ts:178-181), and the last-update text gives "Unknown" (:237-240).

## Model

| member | source | states |
|---|---|---|
| Decimal.NatToString | src/utils/timezone.ts:52 | a number in a template literal prints as at least one decimal digit, with no leading zero; it is one digit exactly below 10 |
| Decimal.ParseNatToString | src/services/crewSenseService.ts:178 | the printed digits of a status or count read back as that number |
| Decimal.NatToStringInjective | src/services/crewSenseService.ts:178 | distinct statuses print differently |
| Timezone.IsDataStale | src/utils/timezone.ts:24-36 | the staleness test: more than one hour (3 600 000 ms) between the last fetch and now; its properties are the three lemmas below |
| Timezone.StaleBoundary | src/utils/timezone.ts:24-36 | data exactly one hour old is not stale; one millisecond older is stale |
| Timezone.StaleIsMonotone | src/utils/timezone.ts:24-36 | with the conversions keeping the instant, a document stale at one time stays stale at every later time |
| Timezone.FreshForOneHour | src/utils/timezone.ts:24-36 | a timestamp stays fresh for the whole hour after it was taken |
| Timezone.ElapsedAge | src/utils/timezone.ts:48-54 | an age under one minute is "just now", future timestamps included; one minute up to one hour counts floor(diff/60000) minutes; beyond that it counts floor(diff/3600000) hours |
| Timezone.FloorMinutesThenHours | src/utils/timezone.ts:49-54 | flooring to minutes and then to hours is the same as flooring straight to hours |
| Timezone.FormatRelativeTime | src/utils/timezone.ts:45-56 | the text is the rendering of the elapsed age: "Just now", "n minute(s) ago" or "n hour(s) ago", with the plural only when n > 1 |
| Timezone.ParseRelativeTime | src/utils/timezone.ts:51-55 | a reader of the three text forms; it accepts "Just now" only as itself |
| Timezone.RenderParses | src/utils/timezone.ts:51-55 | every age's text reads back to that age, so the three forms and their counts never collide |
| Timezone.FormatRelativeTimeReadsBack | src/utils/timezone.ts:45-56 | the displayed text always reads back to the elapsed age it was made from |
| Timezone.FormatRelativeTimeSameText | src/utils/timezone.ts:45-56 | two calls show the same text if and only if they have the same elapsed age |
| Timezone.RelativeTimeExamples | src/utils/timezone.ts:51-55 | 59 999 ms and -5 ms give "Just now"; 1 min gives "1 minute ago"; 2 min give "2 minutes ago"; 1 h gives "1 hour ago"; 3 h 59 min give "3 hours ago" |
| WeatherFormat.Round | src/services/firebaseWeatherService.ts:245 | Math.round gives the integer within half a unit below and strictly less than half above, so halves round up |
| WeatherFormat.RoundMonotone | src/services/firebaseWeatherService.ts:249 | rounding never reverses an order |
| WeatherFormat.RoundUnique | src/services/firebaseWeatherService.ts:245 | any integer in that half-open window is the rounded value |
| WeatherFormat.CelsiusToFahrenheit | src/services/firebaseWeatherService.ts:244-246 | the result is the nearest integer to c*9/5 + 32, halves rounding up |
| WeatherFormat.CelsiusToFahrenheitExamples | src/services/firebaseWeatherService.ts:244-246 | 0 gives 32, 100 gives 212, -40 gives -40, 37 gives 99; -17.5 (exactly 0.5 F) gives 1 |
| WeatherFormat.CelsiusToFahrenheitMonotone | src/services/firebaseWeatherService.ts:244-246 | a warmer Celsius reading is never a colder Fahrenheit one |
| WeatherFormat.MsToMph | src/services/firebaseWeatherService.ts:248-250 | the result is the nearest integer to ms*2.237 |
| WeatherFormat.MsToMphMonotone | src/services/firebaseWeatherService.ts:248-250 | a faster wind never shows a lower mph |
| WeatherFormat.MsToMphExamples | src/services/firebaseWeatherService.ts:248-250 | 0 gives 0, 10 gives 22, 1 gives 2 |
| WeatherFormat.JsRemainder | src/services/firebaseWeatherService.ts:254 | JavaScript's `%` takes the sign of the dividend and its magnitude is below the divisor |
| WeatherFormat.CardinalIndex | src/services/firebaseWeatherService.ts:254 | round(d/22.5) % 16 always lies strictly between -16 and 16 |
| WeatherFormat.DegreesToCardinal | src/services/firebaseWeatherService.ts:252-256 | a name exists exactly when the index is not negative, and then it is the table entry at that index |
| WeatherFormat.PointContainsBearing | src/services/firebaseWeatherService.ts:252-256 | for degrees >= 0 the index is in 0..15, and the bearing lies in the 22.5-degree arc centred on that point of the turn it falls in |
| WeatherFormat.ArcNamesPoint | src/services/firebaseWeatherService.ts:252-256 | each bearing from point k minus 11.25 up to (not including) point k plus 11.25, on any non-negative turn, names point k |
| WeatherFormat.CardinalExamples | src/services/firebaseWeatherService.ts:252-256 | 0, 360, 11.2 and 348.8 give N; 11.25 gives NNE; 90 gives E; -5 and -360 give N; -30 indexes outside the table |
| WeatherFormat.CountBelowSplits | src/services/firebaseWeatherService.ts:258-264 | over ascending thresholds, the ones a cover exceeds are exactly a prefix |
| WeatherFormat.CountBelowMonotone | src/services/firebaseWeatherService.ts:258-264 | more cover never exceeds fewer thresholds |
| WeatherFormat.CloudBand | src/services/firebaseWeatherService.ts:258-264 | the band of a cover is the first threshold it does not exceed, so each threshold is included in its band; past 90 it is the last band |
| WeatherFormat.GetCloudCondition | src/services/firebaseWeatherService.ts:258-264 | the label is the band's label: Clear, Mostly Clear, Partly Cloudy, Mostly Cloudy or Overcast |
| WeatherFormat.CloudConditionMonotone | src/services/firebaseWeatherService.ts:258-264 | as cover increases, the label never gets clearer |
| WeatherFormat.CloudConditionExamples | src/services/firebaseWeatherService.ts:258-264 | 10 is Clear, 11 and 30 are Mostly Clear, 60 is Partly Cloudy, 90 is Mostly Cloudy, 91 is Overcast |
| WeatherCache.FetchWeatherFromApi | src/services/firebaseWeatherService.ts:71-101 | a reading comes back exactly when the key is set, the call and parse succeed, the status is 2xx and `hours` is non-empty; it is then `hours[0]`; every other case gives null and nothing is raised |
| WeatherCache.Put | src/services/firebaseWeatherService.ts:126-129 | assigning to an object property: an existing key keeps its place and its keys stay as they were, the entry with that key takes the new value and every other entry stays; a new key is appended last; distinct keys stay distinct |
| WeatherCache.AssembleEntries | src/services/firebaseWeatherService.ts:125-130 | the forEach of property assignments: no more entries than results, every result's name is a key, keys are distinct, and every entry carries the shared lastUpdated stamp |
| WeatherCache.AssembleDistinct | src/services/firebaseWeatherService.ts:125-130 | with distinct names, the forEach gives exactly one entry per result, in result order, holding its reading (null included) and the shared timestamp |
| WeatherCache.LocationNamesDistinct | src/services/firebaseWeatherService.ts:30-35 | the four configured station names are distinct |
| WeatherCache.RefillDoc | src/services/firebaseWeatherService.ts:104-130 | the document a refill writes: lastFetch is the refill stamp, as many entries as configured locations (their contents are RefillDocShape's), each stamped with lastFetch |
| WeatherCache.RefillDocShape | src/services/firebaseWeatherService.ts:104-130 | a refill document holds exactly one entry per configured location, in order, each with that location's extracted reading (null kept); lastFetch and every lastUpdated are the one refill timestamp |
| WeatherCache.FormatFirebaseData | src/services/firebaseWeatherService.ts:185-190 | one {location, data} per entry of `locations`, in order, with data the entry's weatherData |
| WeatherCache.FormatAfterRefill | src/services/firebaseWeatherService.ts:185-190 | read back straight after a refill, the readings are the configured stations in order, each with its own fetch result |
| WeatherCache.RefillIsFresh | src/services/firebaseWeatherService.ts:119-122 | a refilled document is not stale for the hour after its stamp, and shows "Just now" for the first minute |
| WeatherCache.WeatherService.constructor | src/services/firebaseWeatherService.ts:21 | a cache with the given API key and stored document, and empty call and write logs |
| WeatherCache.WeatherService.FetchLocation | src/services/firebaseWeatherService.ts:71-101 | one location's reading as FetchWeatherFromApi gives it; a request is logged only when the key is set |
| WeatherCache.WeatherService.FetchAllLocations | src/services/firebaseWeatherService.ts:108-116 | one result per configured location, in location order; one API call per location when the key is set, none otherwise |
| WeatherCache.WeatherService.AssembleDoc | src/services/firebaseWeatherService.ts:119-130 | the property assignments of the forEach, applied in result order, under one lastFetch |
| WeatherCache.WeatherService.UpdateWeatherInFirebase | src/services/firebaseWeatherService.ts:104-140 | the store becomes the whole refill document, and it is logged as written; a failed write is swallowed and leaves the store as it was; the API is called once per location |
| WeatherCache.WeatherService.GetWeatherFromFirebase | src/services/firebaseWeatherService.ts:143-182 | a failed read gives []; a fresh document is served with no API call and no write; a missing or stale one is refilled once and re-read, serving the new document, else the stale one, else [] |
| WeatherCache.WeatherService.GetFormattedLastUpdateTime | src/services/firebaseWeatherService.ts:226-241 | "Unknown" when the read fails, "Never" when there is no document, otherwise the relative-time text of lastFetch, which reads back to its age |
| CrewSense.OrElse | src/services/crewSenseService.ts:103-105 | `v \|\| fallback`: the value when it is present and non-empty, otherwise the fallback |
| CrewSense.LoadConfig | src/services/crewSenseService.ts:101-113 | construction fails with "CrewSense API configuration is incomplete" exactly when the client id or secret is missing or empty; otherwise it keeps them, and the base URL defaults to https://api.crewsense.com |
| CrewSense.TokenStep | src/services/crewSenseService.ts:115-152 | getAccessToken as a reference function: it sends nothing or the one token request; on failure the state is unchanged and the error is "Authentication failed"; on success the stored token is the returned one |
| CrewSense.CachedTokenIffNoExchange | src/services/crewSenseService.ts:117-119 | no exchange is sent if and only if a non-empty token and an expiry are present and now < expiry; then the cached token is returned and the state is unchanged |
| CrewSense.ExchangeOutcome | src/services/crewSenseService.ts:121-151 | otherwise one client-credentials request goes to baseUrl/oauth/access_token; success stores the token with expiry now + (expires_in - 300)*1000; failure (rejection or non-2xx) keeps both fields and raises "Authentication failed" |
| CrewSense.NewTokenServedUntilExpiry | src/services/crewSenseService.ts:143-145 | a new token is served from cache at a later time exactly when it is non-empty and the time is before now + (expires_in - 300)*1000; with expires_in <= 300 it never is |
| CrewSense.ShortLivedTokenExchangesAgain | src/services/crewSenseService.ts:143-145 | after a token with expires_in <= 300, the next call at any later time exchanges again |
| CrewSense.TextMember | src/services/crewSenseService.ts:182-183 | a member is found exactly when the body is an object whose last member under that key is a non-empty string, and then it is that string |
| CrewSense.ErrorDetail | src/services/crewSenseService.ts:179-187 | a non-empty `message` wins, else a non-empty `error`, else nothing; a non-JSON body gives nothing |
| CrewSense.ApiErrorMessage | src/services/crewSenseService.ts:178-189 | "API request failed: status statusText", followed by " - detail" exactly when there is a detail |
| CrewSense.ApiErrorMessagePrefersMessage | src/services/crewSenseService.ts:182-183 | a 500 body with both message and error shows the message |
| CrewSense.ApiErrorMessageFallsBackToError | src/services/crewSenseService.ts:182-183 | a 401 body with only error shows the error |
| CrewSense.ApiErrorMessageWithoutJson | src/services/crewSenseService.ts:179-187 | a body that does not parse adds nothing to the status line |
| CrewSense.RequestSpec | src/services/crewSenseService.ts:154-193 | makeAuthenticatedRequest as a reference function: every call sends at least one request, and a success has sent at least one data request |
| CrewSense.TokenStepSendsNoData | src/services/crewSenseService.ts:115-152 | obtaining a token never sends a data request |
| CrewSense.AtMostOneRetry | src/services/crewSenseService.ts:166-175 | one call sends at most two data requests, and at most one when it is already the retry; two only after a 401 on the first |
| CrewSense.UnauthorizedIsRetriedWithFreshToken | src/services/crewSenseService.ts:166-175 | a first 401 clears both token fields and retries once; the retry starts with a new token exchange, and its outcome is the call's outcome |
| CrewSense.FailureStatusNotRetried | src/services/crewSenseService.ts:177-189 | any other non-2xx, and a 401 on the retry, fails with the API error message after exactly one data request |
| CrewSense.FetchOrParseFailureNotRetried | src/services/crewSenseService.ts:157-196 | a rejected data fetch fails with the network error and an ok response whose body does not parse fails as invalid JSON, both after exactly one data request with the post-exchange token state kept |
| CrewSense.SuccessReturnsBody | src/services/crewSenseService.ts:155-192 | a failed token step ends the call with "Authentication failed" and no data request; a 2xx with a parsed body returns that body unchanged |
| CrewSense.SelectedParams | src/services/crewSenseService.ts:203-206 | getSchedule's appends: exactly the truthy start, end and user_id, each paired with its own value, in that order (ranked by ParamRank), each name at most once |
| CrewSense.QueryString | src/services/crewSenseService.ts:208 | URLSearchParams.toString is empty exactly when no parameter was appended |
| CrewSense.QueryStringReadsBack | src/services/crewSenseService.ts:203-208 | for plain names and values, the query text splits back into the appended pairs, in order |
| CrewSense.ScheduleEndpointOf | src/services/crewSenseService.ts:208-209 | the endpoint starts with /v1/schedule and is exactly that when no pair was appended |
| CrewSense.ScheduleEndpointShape | src/services/crewSenseService.ts:203-209 | with no truthy start, end or user_id the endpoint is exactly /v1/schedule; otherwise it is /v1/schedule? followed by a query reading back to the truthy parameters in that order |
| CrewSense.CrewSenseService.constructor | src/services/crewSenseService.ts:96-113 | a client with the given configuration, no token, no expiry and nothing sent |
| CrewSense.CrewSenseService.Create | src/services/crewSenseService.ts:101-113 | construction from the environment fails exactly when LoadConfig does, with its error; otherwise it gives a new client with that configuration and no token |
| CrewSense.CrewSenseService.GetAccessToken | src/services/crewSenseService.ts:115-152 | the fields, the result and the requests appended to the log are those of TokenStep |
| CrewSense.CrewSenseService.MakeAuthenticatedRequest | src/services/crewSenseService.ts:154-193 | the fields, the result and the requests appended to the log are those of RequestSpec, including the one retry after a first 401 |
| CrewSense.CrewSenseService.ScheduleEndpoint | src/services/crewSenseService.ts:203-209 | the successive appends build the endpoint of the truthy parameters; with none it is /v1/schedule |
| CrewSense.CrewSenseService.GetSchedule | src/services/crewSenseService.ts:198-212 | an authenticated request to the schedule endpoint, with no retry flag |
| CrewSense.CrewSenseService.GetUsers | src/services/crewSenseService.ts:214-216 | an authenticated request to /v1/users |
| CrewSense.CrewSenseService.GetWorkTypes | src/services/crewSenseService.ts:218-220 | an authenticated request to /v1/work_types |
| ShiftSchedule.GetAssignmentsForDate | src/components/sections/Staffing/tabs/ShiftSchedule.tsx:37-42 | [] when there is no schedule, no day map or no entry for the date; otherwise the date's assignment list, or [] when that list is absent |
| ShiftSchedule.AssignmentsAfterSettingDay | src/components/sections/Staffing/tabs/ShiftSchedule.tsx:37-42 | the date's own entry gives its assignments ([] when the list is absent), and other dates are unaffected |
| ShiftSchedule.GetStaffingStatus | src/components/sections/Staffing/tabs/ShiftSchedule.tsx:44-51 | red/Unstaffed iff no shifts (even with minimum 0); yellow/Under-staffed iff 0 < shifts < minimum; green/Fully staffed iff shifts >= max(1, minimum); always exactly one of the three |
| ShiftSchedule.MoreShiftsNeverWorse | src/components/sections/Staffing/tabs/ShiftSchedule.tsx:44-51 | at the same minimum, more shifts never give a worse status |
| ShiftSchedule.SpecialLookup | src/components/sections/Staffing/tabs/ShiftSchedule.tsx:81-90 | an own-property lookup finds a table entry for the key, or reports that none exists |
| ShiftSchedule.GetFullStationName | src/components/sections/Staffing/tabs/ShiftSchedule.tsx:57-91 | a leading E, R, T, B or M expands the rest of the string as a unit; otherwise a special name gives its table value; anything else comes back unchanged |
| ShiftSchedule.UnitNameShape | src/components/sections/Staffing/tabs/ShiftSchedule.tsx:59-78 | every unit expansion starts with the unit letter and is longer than its input |
| ShiftSchedule.ExpandsAsUnit | src/components/sections/Staffing/tabs/ShiftSchedule.tsx:59-78 | the prefix rules win over the special table |
| ShiftSchedule.UnchangedIff | src/components/sections/Staffing/tabs/ShiftSchedule.tsx:57-91 | a name comes back unchanged if and only if it has no unit prefix and is not a special name |
| ShiftSchedule.UnitExpansionInjective | src/components/sections/Staffing/tabs/ShiftSchedule.tsx:59-78 | two different unit abbreviations never expand to the same name |
| ShiftSchedule.SpecialNamesDistinct | src/components/sections/Staffing/tabs/ShiftSchedule.tsx:81-88 | the six special names are distinct, and none starts with a unit letter |
| ShiftSchedule.SpecialNamesReachTable | src/components/sections/Staffing/tabs/ShiftSchedule.tsx:81-90 | each listed special name maps to its expanded name |
| ShiftSchedule.EngineExamples | src/components/sections/Staffing/tabs/ShiftSchedule.tsx:59-62 | "E14" gives "Engine 14 (Station 14)"; "E" alone gives "Engine  (Station )" |
| ShiftSchedule.BattalionExample | src/components/sections/Staffing/tabs/ShiftSchedule.tsx:71-74 | "B2" gives "Battalion Chief 2" |
| ShiftSchedule.MedicExample | src/components/sections/Staffing/tabs/ShiftSchedule.tsx:75-78 | any string starting with M expands, so "Medic 19" gives "Medic edic 19 (Station edic 19)" |
| ShiftSchedule.UnchangedExamples | src/components/sections/Staffing/tabs/ShiftSchedule.tsx:57-91 | "" and the lower-case "e14" come back unchanged, because the rules are case-sensitive |
| ShiftSchedule.GetFullStationNameAsWritten | src/components/sections/Staffing/tabs/ShiftSchedule.tsx:81-90 | the object-literal lookup as written: a name inherited from Object.prototype returns that member and not a string |
| ShiftSchedule.InheritedMemberReturned | src/components/sections/Staffing/tabs/ShiftSchedule.tsx:81-90 | "constructor" and "toString" return an Object.prototype member |
| ShiftSchedule.CorrectedAgreesElsewhere | src/components/sections/Staffing/tabs/ShiftSchedule.tsx:81-90 | the corrected function agrees with the code as written on every other string, and inherited names come back unchanged |

## Left out

- React rendering, state hooks, date navigation, tabs, the header, the sidebar and every static mock array: presentation only.
- The Firestore calls (`doc`, `getDoc`, `setDoc`, `onSnapshot`) are foreign library calls. The shared document is the field `WeatherService.store`, and each call's failure is an input. `subscribeToWeatherUpdates` only passes `onSnapshot` through, so it is not modelled.
- `getLastUpdateTime` returns a JavaScript `Date` of `lastFetch`, and `formatPSTTime` and `formatFullTimestampPST` are moment-timezone formatting. As date-formatting library output they are left out. The instant itself is `AllLocationsDoc.lastFetch`.
- Weather API requests: the URL, its query (lat, lng, params, the ISO start and end) and the `Authorization` header are not modelled. Each location's answer is an input.
- `fetch`, HTTP headers and JSON parsing are foreign. The status, status text and parsed body are inputs, and a body that does not parse is `None`.
- URLSearchParams percent-encoding is left out. The model's query text equals URLSearchParams' output only for names and values made of ASCII letters, digits and `*-._`. The read-back lemma assumes only that they contain no `&` or `=`.
- `Promise.all` runs the station fetches concurrently; the model performs them in location order. The order of the results and of the stored entries is the same either way.
- Neither the refill nor the token refresh has a single-flight guard in the code, so the model has none either. Concurrent refills and concurrent exchanges are not modelled.
- Each request attempt reads the clock once. The code reads it twice, at src/services/crewSenseService.ts:117 for the check and at :145 for the new expiry; in the model both see one instant.
- The refill's timestamp is the same `now` as the staleness check. The code takes a new `Timestamp.now()` after the API calls complete.
- Floating point is treated as exact real arithmetic. Rounding errors in `c*9/5` or `d/22.5` are not modelled.
- Object property order: JavaScript lists array-index keys first. The station names are not array indices, so the model lists entries in insertion order.
- ErrorDetail: only a string `message` or `error` counts; any other truthy JSON field is treated as absent, where the code would print it through string conversion.
- A 2xx token response without `access_token` or `expires_in` is not modelled. The code would cache `undefined` or `NaN`.
- The module-level singleton `export default new CrewSenseService()` is left out. `CrewSenseService.Create` is the construction from the environment.
- Console logging is left out.
- DegreesToCardinal: the index is negative exactly when round(d/22.5) is negative and not a multiple of 16 (so -360 still gives N). The code then returns `undefined`, and the model returns `None`.
- The model assumes that the store gives a document's `locations` back in the order they were written. Firestore does not promise an order for map fields. `FormatAfterRefill` depends on this.

## Findings

| source | as written | input that shows it | evidently intended | confidence | as-written member | corrected member |
|---|---|---|---|---|---|---|
| src/components/sections/Staffing/tabs/ShiftSchedule.tsx:81-90 | `specialAssignments[abbreviation] \|\| abbreviation` looks the name up on an object literal, so names inherited from Object.prototype are found too | `"constructor"` (or `"toString"`, `"valueOf"`) returns the inherited function, not a string | only the six listed names are looked up, and every other string comes back unchanged | not executed | ShiftSchedule.GetFullStationNameAsWritten, ShiftSchedule.InheritedMemberReturned | ShiftSchedule.GetFullStationName, ShiftSchedule.CorrectedAgreesElsewhere |
