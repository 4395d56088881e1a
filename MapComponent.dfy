/**
  The map of a result: where it is centred, how far it zooms in, which popup rows and
  which accuracy badge it shows, and when it draws the precision circle around a device
  fix. Tiles, icons and styling are not part of the model.
 */
module MapComponent {
  import opened Wrappers
  import opened Js
  import opened IpService
  import UseGeolocation

  /** The component's props; `accuracy` defaults to `null`, `userLocation` to `false`. */
  datatype MapProps = MapProps(
    latitude: NumValue,
    longitude: NumValue,
    city: string,
    country: string,
    ip: string,
    userLocation: bool,
    accuracy: NumValue)

  /** `validLat`/`validLng`: the coordinate when it is a non-zero number, else 0. */
  function ValidCoordinate(v: NumValue): (r: real)
    ensures Truthy(v) ==> v == Number(r)
    ensures !Truthy(v) ==> r == 0.0
  {
    if Truthy(v) then v.n else 0.0
  }

  /**
    `getZoomLevel()`: with an accuracy, 15 below 100 m, 13 below 1 km, 11 below 5 km and
    9 beyond; without one, 13 for a device fix and 10 for a provider location.
   */
  function ZoomLevel(accuracy: NumValue, userLocation: bool): (z: int)
    ensures z in {9, 10, 11, 13, 15}
    ensures Truthy(accuracy) ==> && (z == 15 <==> accuracy.n < 100.0)
                                 && (z == 13 <==> 100.0 <= accuracy.n < 1000.0)
                                 && (z == 11 <==> 1000.0 <= accuracy.n < 5000.0)
                                 && (z == 9 <==> 5000.0 <= accuracy.n)
    ensures !Truthy(accuracy) ==> z == (if userLocation then 13 else 10)
  {
    if Truthy(accuracy) then
      if accuracy.n < 100.0 then 15
      else if accuracy.n < 1000.0 then 13
      else if accuracy.n < 5000.0 then 11
      else 9
    else if userLocation then 13 else 10
  }

  /** A less precise fix never zooms in further. */
  lemma ZoomNonIncreasing(a: NumValue, b: NumValue, u: bool, v: bool)
    requires Truthy(a) && Truthy(b) && a.n <= b.n
    ensures ZoomLevel(b, v) <= ZoomLevel(a, u)
  {
  }

  /** `formatAccuracy(acc)`: nothing for a falsy accuracy, rounded metres below 1 km, kilometres from there. */
  function FormatAccuracy(acc: NumValue): (r: Option<DistanceText>)
    ensures r.Some? <==> Truthy(acc)
    ensures r.Some? ==> (r.value.Metres? <==> acc.n < 1000.0)
    ensures r.Some? && r.value.Metres? ==> r.value.m == Round(acc.n)
    ensures r.Some? && r.value.Kilometres? ==> r.value.km * 1000.0 == acc.n
  {
    if !Truthy(acc) then None
    else if acc.n < 1000.0 then Some(Metres(Round(acc.n)))
    else Some(Kilometres(acc.n / 1000.0))
  }

  /** The map writes an accuracy exactly as the geolocation hook's accuracy summary does. */
  lemma FormatAccuracyAgreesWithHook(acc: NumValue)
    ensures FormatAccuracy(acc).None? <==> UseGeolocation.GetAccuracyInfo(acc).None?
    ensures FormatAccuracy(acc).Some? ==> FormatAccuracy(acc).value == UseGeolocation.GetAccuracyInfo(acc).value.formatted
  {
  }

  const Green := "#28a745"
  const Yellow := "#ffc107"
  const Red := "#dc3545"

  /** The accuracy badge's background: green below 100 m, yellow below 1 km, red beyond. */
  function BadgeColor(accuracy: real): (c: string)
    ensures c == Green <==> accuracy < 100.0
    ensures c == Yellow <==> 100.0 <= accuracy < 1000.0
    ensures c == Red <==> 1000.0 <= accuracy
  {
    if accuracy < 100.0 then Green else if accuracy < 1000.0 then Yellow else Red
  }

  /** A popup row for a city or country: shown unless the value is empty or the placeholder `"-"`. */
  function PopupRow(value: string): (r: Option<string>)
    ensures r.Some? <==> value != "" && value != "-"
    ensures r.Some? ==> r.value == value
  {
    if value != "" && value != "-" then Some(value) else None
  }

  /** The popup's accuracy badge. */
  datatype Badge = Badge(color: string, text: DistanceText)

  /** The precision circle. */
  datatype Circle = Circle(latitude: real, longitude: real, radius: real)

  /** What the component draws. */
  datatype MapView = MapView(
    latitude: real,
    longitude: real,
    zoom: int,
    userIcon: bool,
    title: string,
    ip: string,
    cityRow: Option<string>,
    countryRow: Option<string>,
    badge: Option<Badge>,
    circle: Option<Circle>)

  /**
    One render. The map and its marker are centred on the validated coordinates; the badge
    is there exactly when the accuracy is truthy; the circle exactly when it is a device
    fix with a truthy accuracy, around the marker with the accuracy as radius.
   */
  function Render(p: MapProps): (v: MapView)
    ensures v.latitude == ValidCoordinate(p.latitude) && v.longitude == ValidCoordinate(p.longitude)
    ensures v.zoom == ZoomLevel(p.accuracy, p.userLocation)
    ensures v.userIcon == p.userLocation && v.ip == p.ip
    ensures v.cityRow == PopupRow(p.city) && v.countryRow == PopupRow(p.country)
    ensures v.badge.Some? <==> Truthy(p.accuracy)
    ensures v.badge.Some? ==> v.badge.value == Badge(BadgeColor(p.accuracy.n), FormatAccuracy(p.accuracy).value)
    ensures v.circle.Some? <==> p.userLocation && Truthy(p.accuracy)
    ensures v.circle.Some? ==> v.circle.value == Circle(v.latitude, v.longitude, p.accuracy.n)
  {
    var lat := ValidCoordinate(p.latitude);
    var lng := ValidCoordinate(p.longitude);
    MapView(
      lat, lng,
      ZoomLevel(p.accuracy, p.userLocation),
      p.userLocation,
      if p.userLocation then "\U{1F4CD} Sua Localização" else "\U{1F310} Localização do IP",
      p.ip,
      PopupRow(p.city),
      PopupRow(p.country),
      if Truthy(p.accuracy) then Some(Badge(BadgeColor(p.accuracy.n), FormatAccuracy(p.accuracy).value)) else None,
      if p.userLocation && Truthy(p.accuracy) then Some(Circle(lat, lng, p.accuracy.n)) else None)
  }

  /** A circle is only ever drawn together with an accuracy badge. */
  lemma CircleComesWithBadge(p: MapProps)
    ensures Render(p).circle.Some? ==> Render(p).badge.Some?
  {
  }

  /** The badge is green exactly when the map zooms in closest. */
  lemma GreenBadgeIffClosestZoom(p: MapProps)
    requires Render(p).badge.Some?
    ensures Render(p).badge.value.color == Green <==> Render(p).zoom == 15
  {
  }

  /** The props a result card passes for a normalised record. */
  function PropsOf(c: CanonicalRecord): MapProps
  {
    MapProps(Number(c.latitude), Number(c.longitude), c.city, c.country, c.ip, c.userLocation,
             if c.accuracy.Some? then Number(c.accuracy.value) else Null)
  }

  /** A normalised record's map is centred on the record's own coordinates, which are 0 where they were missing. */
  lemma RecordMapCentred(c: CanonicalRecord)
    ensures Render(PropsOf(c)).latitude == c.latitude
    ensures Render(PropsOf(c)).longitude == c.longitude
  {
  }

  /** A city row appears exactly when the provider named a city other than the placeholder. */
  lemma CityRowIffNamed(d: Platform.RawRecord)
    ensures Render(PropsOf(FormatLocationData(d))).cityRow.Some? <==> Truthy(d.city) && d.city != Str("-")
  {
  }

  /**
    A device fix whose accuracy survived normalisation (it is non-zero) is drawn with a
    precision circle of that radius.
   */
  lemma DeviceFixCircled(d: Platform.RawRecord)
    requires d.userLocation == Bool(true) && Truthy(d.accuracy)
    ensures Render(PropsOf(FormatLocationData(d))).circle.Some?
    ensures Render(PropsOf(FormatLocationData(d))).circle.value.radius == d.accuracy.n
  {
  }
}
