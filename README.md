# IP Location Finder: a Dafny model

IP Location Finder is a browser application. It locates an IP address or a domain name, or the visitor's own
position, and shows the result with a map. This project models its decision logic and its state in Dafny and
proves properties of that model.

The model covers:

- **Query classification** (`QuerySyntax`). The `isDomain` and `isValidIP` patterns are written out as
  predicates over characters. Each is proved equal to a reference reading of its regular expression.
- **The lookup service** (`IpService`):
  - `searchIP`: validate, trim, take the DNS path or the IP path, classify failures, translate transport
    failures.
  - `getMyLocation`: the device fix merged into the provider record, or the provider record annotated with the
    reason the device gave none.
  - `formatLocationData`: every field defaulted.

  The outside services are given as parameters: the resolver, the provider and the device outcome. Each lookup
  returns the record or the thrown message, together with the requests it issued, in order.
- **The geolocation hook** (`UseGeolocation.GeolocationHook`). A class holding the location state and the watch
  id, with ghost fields for two things the browser keeps: the watches it holds for the hook, and the requests
  the hook has issued. Beside the class are its pure helpers: error messages, coordinate formatting and accuracy
  grading.
- **The map** (`MapComponent`). One render as a function of the props: centre, zoom, popup rows, accuracy badge
  and precision circle.
- **The shell and the form** (`AppComponent.App`, `SearchContainer.SearchForm`). The application state, the two
  lookups with their loading and error handling, the mount lookup, and what is on screen. Also the form's text,
  its submit and "Meu IP" actions, and which controls are disabled.

JavaScript values that the code tests for truthiness are a `JsValue` datatype (module `Js`). `||` defaulting,
`trim` and `includes` are defined over it exactly. Numbers are unbounded reals.

Three behaviours of the code are easy to misread; the model follows the code:

- `getMyLocation` never fails with "Não foi possível obter informações do IP". That error is thrown inside the
  `try` and replaced by "Erro ao obter informações de localização", as is every other provider failure.
- `searchIP` turns a failure into the connection error only when its message contains the text `fetch`. It does
  not decide by the kind of failure. Any other message, such as a JSON parse error, propagates unchanged.
- `formatLocationData` is not idempotent. It writes the country as `country` but reads it from `country_name`,
  so a second pass replaces every country by `"-"`.

## Model

| member | source | states |
|---|---|---|
| Js.Truthy | src/services/ipService.js:167-184 | JavaScript truthiness: `undefined`, `null`, `false`, `0`, `NaN` and `""` are falsy, all else truthy |
| Js.Contains | src/services/ipService.js:55 | `includes`: the pattern occurs at some position of the string |
| Js.StringOr | src/services/ipService.js:167-177 | defaulting a string slot: the string when it is truthy, the default otherwise |
| Js.StringOrNull | src/services/ipService.js:180-181 | defaulting a string slot to null (`domain`, `resolvedIP`, and `locationError` at line 184): present exactly when truthy, and then non-empty |
| Js.NumberOr | src/services/ipService.js:178-179 | defaulting a number slot: 0 and NaN give the default |
| Js.NumberOrNull | src/services/ipService.js:183 | defaulting a number slot to null: present exactly when a non-zero number |
| Js.BoolOrFalse | src/services/ipService.js:182 | defaulting a boolean slot to false: true exactly when the slot holds `true` |
| Js.Round | src/hooks/useGeolocation.js:220 | `Math.round`: the integer within half a unit, ties going up |
| Js.Trim | src/services/ipService.js:10-14 | `trim()`: the middle of the string between two blank pieces; empty exactly when the string is blank; otherwise no white space at either end |
| Js.TrimIdempotent | src/components/SearchContainer.js:194-195 | trimming what the form already trimmed changes nothing |
| Js.MissingCharNotContained | src/services/ipService.js:55 | a message lacking one of the characters of `fetch` does not contain `fetch` |
| QuerySyntax.IsDomain | src/services/ipService.js:2-6 | `isDomain`: a label of 3 to 63 alphanumerics and hyphens starting and ending alphanumeric, one `.`, then two or more letters |
| QuerySyntax.DomainIffShape | src/services/ipService.js:2-6 | splitting at the first `.` decides the domain pattern exactly as a split at any `.` would |
| QuerySyntax.DomainHasOneDot | src/services/ipService.js:4 | a domain has exactly one `.`, so multi-label names take the IP path |
| QuerySyntax.ShortLabelNotDomain | src/services/ipService.js:4 | a first label of one or two characters is never a domain |
| QuerySyntax.DigitsAndDotsNotDomain | src/services/ipService.js:4 | digits and dots alone never form a domain |
| QuerySyntax.GoogleIsDomain | src/services/ipService.js:2-6 | `google.com` takes the DNS path |
| QuerySyntax.ThreeLabelsNotDomain | src/services/ipService.js:2-6 | `www.google.com` does not take the DNS path |
| QuerySyntax.OctetPatternIffOctet | src/services/ipService.js:158 | the IPv4 field alternatives accept exactly 1 to 3 digits of value at most 255 |
| QuerySyntax.IPv4IffShape | src/services/ipService.js:157-158 | four octets split at `.` are exactly the strings of the IPv4 pattern |
| QuerySyntax.IsValidIPv4 | src/services/ipService.js:157-158 | four `.`-separated fields, each 1 to 3 digits of value at most 255 |
| QuerySyntax.IsValidIPv6 | src/services/ipService.js:159 | eight `:`-separated groups of 1 to 4 hex digits |
| QuerySyntax.IsValidIP | src/services/ipService.js:156-162 | `isValidIP`: either of the two forms |
| QuerySyntax.IPv6IffShape | src/services/ipService.js:159 | eight hex groups split at `:` are exactly the strings of the IPv6 pattern |
| QuerySyntax.CompressedIPv6Rejected | src/services/ipService.js:159 | an address containing `::` is not accepted as IPv6 |
| QuerySyntax.IPv4NotDomain | src/services/ipService.js:156-162 | a valid IPv4 address is never classified as a domain |
| IpService.FirstAnswer | src/services/ipService.js:24-28 | `Answer[0].data` exists exactly when the response has a non-empty `Answer` |
| IpService.ResolveDomain | src/services/ipService.js:17-42 | the resolver is asked first; a thrown call or no first answer ends the path with that message or the resolution message; otherwise the provider is asked once, about `Answer[0].data`, and its thrown message, its `error` flag (the domain message) or its record with `domain` and `resolvedIP` set is the outcome |
| IpService.LookupAddress | src/services/ipService.js:43-53 | exactly one provider request, for the query itself; its thrown message, the address message for a flagged `error`, or its record unchanged is the outcome |
| IpService.TranslateError | src/services/ipService.js:54-61 | `fetch` messages become the connection error, others pass unchanged; the result never mentions `fetch` |
| IpService.SearchIP | src/services/ipService.js:9-62 | blank queries fail validation with no request; the trimmed query picks the path and the first request; at most two requests; no failure mentions `fetch`; no record carries a truthy `error` |
| IpService.SearchDomainPath | src/services/ipService.js:17-42 | each DNS-path outcome: resolver failure, no answer, provider failure, provider `error`, success with `domain` and `resolvedIP` |
| IpService.SearchAddressPath | src/services/ipService.js:43-53 | each IP-path outcome: provider failure, provider `error`, the provider's record unchanged |
| IpService.SearchTrimmed | src/services/ipService.js:10-14 | searching for a query and for its trimmed form are the same lookup |
| IpService.ClassifiedErrorsPropagate | src/services/ipService.js:54-61 | the three classified messages pass the `catch` unchanged |
| IpService.ClassifiedMessageLacksFetch | src/services/ipService.js:55 | none of the three classified messages contains `fetch`, so the `includes` test never rewrites them |
| IpService.GetLocationErrorMessage | src/services/ipService.js:142-153 | codes 1, 2, 3 and every other code map to their messages |
| IpService.LocationErrorMessagesDistinct | src/services/ipService.js:142-153 | codes 1, 2 and 3 differ from each other and from unknown codes |
| IpService.GetMyLocation | src/services/ipService.js:65-139 | the device is asked (with fixed options) before the provider; it fails exactly when the provider does, always with the generic message; success merges the fix or annotates the failure reason |
| IpService.LocationOf | src/services/ipService.js:168-171 | a location text exactly when both coordinates are non-zero numbers |
| IpService.FormatLocationData | src/services/ipService.js:165-186 | each field is its raw value when truthy and its default otherwise; `isp` prefers `org`; the location text agrees with the output coordinates |
| IpService.EmptyRecordGivesDefaults | src/services/ipService.js:165-186 | `{}` normalises to the all-default record |
| IpService.ZeroLatitudeHasNoLocation | src/services/ipService.js:169 | a latitude of 0 hides the location text |
| IpService.NormalisingTwiceLosesCountry | src/services/ipService.js:173 | a second normalisation replaces a known country by `"-"` |
| IpService.NormalisingTwiceKeepsTheRest | src/services/ipService.js:165-186 | a second normalisation keeps every other field |
| IpService.DeviceFixIsDisplayed | src/services/ipService.js:80-86 | a device fix's coordinates and non-zero accuracy reach the display record, flagged as the user's location |
| IpService.DomainIsDisplayed | src/services/ipService.js:38-42 | a record found through a domain shows the domain and the resolved address |
| IpService.ExampleRecord | src/services/ipService.js:165-186 | a worked provider record, normalised field by field |
| UseGeolocation.WithDefaults | src/hooks/useGeolocation.js:25-30 | each option key the caller gives overrides the default; the others keep it |
| UseGeolocation.NoOptionsGiveDefaults | src/hooks/useGeolocation.js:81-86 | without options: high accuracy, 10 s timeout, maximum age 5 min for one reading and 1 min for a watch |
| UseGeolocation.GetErrorMessage | src/hooks/useGeolocation.js:150-161 | codes 1, 2, 3 and every other code map to their messages |
| UseGeolocation.ErrorMessagesDistinct | src/hooks/useGeolocation.js:150-161 | equal messages mean equal codes, or two unknown codes |
| UseGeolocation.GeolocationHook.constructor | src/hooks/useGeolocation.js:4-13 | the initial state and no watch, consistent with the browser holding none |
| UseGeolocation.GeolocationHook.DetectSupport | src/hooks/useGeolocation.js:16-21 | only `supported` changes, to whether the capability exists |
| UseGeolocation.GeolocationHook.GetCurrentPosition | src/hooks/useGeolocation.js:24-44 | unsupported: error shown, loading off, rejection; otherwise loading on, error cleared, one request with merged options |
| UseGeolocation.GeolocationHook.PositionResolved | src/hooks/useGeolocation.js:45-58 | the state becomes the fix, without error or loading, and is what the promise resolves to |
| UseGeolocation.GeolocationHook.PositionRejected | src/hooks/useGeolocation.js:59-73 | coordinates cleared, the code's message and the code kept, loading off; the promise rejects with that message |
| UseGeolocation.GeolocationHook.WatchPosition | src/hooks/useGeolocation.js:80-130 | unsupported: error shown, no id, watch untouched; otherwise any held watch is cleared before the new one is registered, and the browser then holds exactly the new watch |
| UseGeolocation.GeolocationHook.WatchUpdated | src/hooks/useGeolocation.js:104-116 | a fix replaces the state, heading and speed included |
| UseGeolocation.GeolocationHook.WatchFailed | src/hooks/useGeolocation.js:117-124 | the last fix stays, with the message, the code and loading off |
| UseGeolocation.GeolocationHook.ClearWatch | src/hooks/useGeolocation.js:133-138 | a held watch is released with the browser and forgotten; otherwise nothing happens |
| UseGeolocation.GeolocationHook.Unmount | src/hooks/useGeolocation.js:141-147 | the browser holds no watch for the hook afterwards |
| UseGeolocation.GeolocationHook.IsWatching | src/hooks/useGeolocation.js:233 | true exactly when the browser holds a watch for the hook |
| UseGeolocation.FormatCoordinates | src/hooks/useGeolocation.js:177-184 | nothing unless both coordinates are truthy; otherwise both at the given precision |
| UseGeolocation.LevelOf | src/hooks/useGeolocation.js:194-214 | the grade is fixed by the intervals below 10, 50, 100 and 1000 metres |
| UseGeolocation.LevelMonotone | src/hooks/useGeolocation.js:194-214 | a larger radius never gets a better grade |
| UseGeolocation.GetAccuracyInfo | src/hooks/useGeolocation.js:187-223 | nothing for a falsy accuracy; otherwise grade, label, colour, rounded metres, metres text below 1 km and kilometres text from 1 km |
| UseGeolocation.GradesDistinguishable | src/hooks/useGeolocation.js:194-214 | distinct grades have distinct labels and colours |
| MapComponent.ValidCoordinate | src/components/MapComponent.js:159-160 | the coordinate when it is a non-zero number, else 0 |
| MapComponent.ZoomLevel | src/components/MapComponent.js:163-171 | zoom 15, 13, 11 or 9 by accuracy interval; without accuracy 13 for a device fix and 10 otherwise; always one of these five |
| MapComponent.ZoomNonIncreasing | src/components/MapComponent.js:163-171 | a less precise fix never zooms in further |
| MapComponent.FormatAccuracy | src/components/MapComponent.js:173-177 | nothing for a falsy accuracy; rounded metres below 1 km; kilometres from 1 km |
| MapComponent.FormatAccuracyAgreesWithHook | src/components/MapComponent.js:173-177 | the map writes an accuracy as the hook's `formatted` does |
| MapComponent.BadgeColor | src/components/MapComponent.js:108-113 | green below 100 m, yellow below 1 km, red beyond |
| MapComponent.PopupRow | src/components/MapComponent.js:221-233 | a city or country row unless the value is empty or `"-"` |
| MapComponent.Render | src/components/MapComponent.js:188-265 | centre, zoom, rows; the badge exactly with a truthy accuracy; the circle exactly for a device fix with one, around the marker with the accuracy as radius |
| MapComponent.CircleComesWithBadge | src/components/MapComponent.js:242-257 | a precision circle is only drawn together with a badge |
| MapComponent.GreenBadgeIffClosestZoom | src/components/MapComponent.js:108-113 | the badge is green exactly when the zoom is 15 |
| MapComponent.RecordMapCentred | src/components/ResultContainer.js:273-281 | a normalised record's map is centred on the record's coordinates |
| MapComponent.CityRowIffNamed | src/components/MapComponent.js:221-226 | the city row appears exactly when the provider named a city other than `"-"` |
| MapComponent.DeviceFixCircled | src/components/MapComponent.js:253-257 | a device fix with non-zero accuracy is drawn with a circle of that radius |
| SearchContainer.SearchForm.constructor | src/components/SearchContainer.js:190 | the form starts empty |
| SearchContainer.SearchForm.SetQuery | src/components/SearchContainer.js:241 | typing replaces the text |
| SearchContainer.SearchForm.SearchDisabled | src/components/SearchContainer.js:250 | disabled exactly while loading or while the text is blank |
| SearchContainer.SearchForm.HandleSubmit | src/components/SearchContainer.js:192-197 | a search is asked for exactly when the button is enabled, and then for the trimmed, non-empty text |
| SearchContainer.SearchForm.HandleMyIP | src/components/SearchContainer.js:199-204 | unless loading: the text is cleared and the lookup is asked for |
| SearchContainer.InputDisabled | src/components/SearchContainer.js:243 | the input, and the "Meu IP" button (line 261), are disabled exactly while loading |
| SearchContainer.SearchButtonLabel | src/components/SearchContainer.js:255 | the searching label exactly while loading |
| SearchContainer.ErrorPanel | src/components/SearchContainer.js:272-281 | the panel shows the error exactly when it is a non-empty message |
| AppComponent.App.constructor | src/App.js:62-65 | no record, no error, not loading, nothing shown |
| AppComponent.App.BeginLookup | src/App.js:69-70 | loading on and error cleared, the record untouched |
| AppComponent.App.Settle | src/App.js:72-80 | success replaces the record and shows it; failure records the error and keeps the previous record and its display; loading off |
| AppComponent.App.HandleSearch | src/App.js:68-81 | the state after `searchIP`'s outcome, with its requests appended |
| AppComponent.App.HandleMyIP | src/App.js:84-97 | the state after `getMyLocation`'s outcome, with its requests appended |
| AppComponent.App.Mount | src/App.js:100-102 | the mount effect runs once and performs the self-location lookup |
| AppComponent.App.SpinnerShown | src/App.js:147 | the spinner is shown exactly while loading |
| AppComponent.App.ShownResult | src/App.js:159 | a result card only when flagged, present and not loading, and never beside the spinner |
| AppComponent.Submit | src/App.js:139-144 | nothing while loading or on blank text; otherwise the lookup of the typed text; the page stays mounted |
| AppComponent.ClickMyIP | src/App.js:139-144 | nothing while loading; otherwise the form is cleared and the own location looked up; the page stays mounted |

## Left out

- Network, DOM and browser calls (`fetch`, `response.json()`, `navigator.geolocation`, `console.warn`) are not
  executed. Their outcomes are parameters: `dns`, `provider` and `device` for the lookups, and the position,
  error code and watch id handed to the hook's callback methods.
- React scheduling is not modelled: batched and deferred state updates, stale `useCallback` closures, and two
  lookups in flight at once. Each handler applies its updates at once, in source order. `BeginLookup` and
  `Settle` are separate so that the state in between can be reached.
- The watch cleanup effect at src/hooks/useGeolocation.js:141-147 also runs whenever the watch id changes. It then
  clears the previous id a second time, which the browser ignores. Only its run on unmount is modelled.
- UseGeolocation.GeolocationHook.WatchPosition: the browser's watch ids are assumed to be positive, as the W3C
  Geolocation API promises. An id of 0 would be falsy in `if (watchId)` and would never be cleared.
- UseGeolocation.GeolocationHook: `'geolocation' in navigator` and `navigator.geolocation` being truthy are
  treated as the same condition (`hasGeolocation`).
- `calculateDistance` (src/hooks/useGeolocation.js:164-174) is left out. It is floating-point trigonometry
  (haversine), which Dafny's reals cannot express.
- The digits written by `toFixed` are not modelled. `LocationText`, `FixedCoordinates` and
  `DistanceText.Kilometres` keep the numbers, and for `FixedCoordinates` the requested precision, instead of the
  text; the fixed six decimals of `LocationText.Coordinates` and the one decimal of `DistanceText.Kilometres` are
  implied by the constructor.
- Numbers are exact reals. Floating-point rounding and `NaN` comparisons are not modelled, except that `NaN` is
  falsy.
- MapComponent.ValidCoordinate: string coordinates handed to `parseFloat`/`isNaN` are not modelled. The props
  are numbers or missing, as the result card passes them.
- IpService.SearchIP: a `null` or `undefined` query is not modelled. The query is a string.
- IpService.FirstAnswer: an `Answer` entry without a `data` field is not modelled. The source would then ask
  the provider about the address `undefined`.
- UseGeolocation.WithDefaults: option keys other than the three used, and keys explicitly set to `undefined`,
  are not modelled.
- Provider fields the application never reads are not represented in `RawRecord`. The spreads `{ ...data, … }`
  copy them unchanged.
- Presentation is not part of this model: Navbar, Footer, LoadingSpinner, the result card's layout, the
  animations and particles, styling, the Leaflet icons and tiles, and the `mapRef` resize effect.
