/**
  The outside world as the application sees it: the DNS-over-HTTPS resolver, the IP
  geolocation provider and the browser's geolocation capability. Nothing here is called;
  each service is represented by the outcomes it can produce, and the requests the
  application issues are recorded so that contracts can speak about their order and
  arguments.
 */
module Platform {
  import opened Wrappers
  import opened Js

  /**
    The provider's JSON response, with the application's own additions (`domain`,
    `resolvedIP`, `userLocation`, `locationError`, a device `accuracy`). Each slot can be
    missing; its type says what the provider puts there when it is present. Fields the
    application never reads are not represented.
   */
  datatype RawRecord = RawRecord(
    ip: StrValue,
    latitude: NumValue,
    longitude: NumValue,
    accuracy: NumValue,
    org: StrValue,
    isp: StrValue,
    country_name: StrValue,
    city: StrValue,
    timezone: StrValue,
    region: StrValue,
    postal: StrValue,
    error: JsValue,
    domain: StrValue,
    resolvedIP: StrValue,
    userLocation: BoolValue,
    locationError: StrValue)

  /** The record `{}`: every slot missing. */
  const EmptyRecord := RawRecord(Undefined, Undefined, Undefined, Undefined, Undefined, Undefined, Undefined,
                                 Undefined, Undefined, Undefined, Undefined, Undefined, Undefined, Undefined,
                                 Undefined, Undefined)

  /** `{ enableHighAccuracy, timeout, maximumAge }` as handed to the geolocation capability. */
  datatype PositionOptions = PositionOptions(enableHighAccuracy: bool, timeout: int, maximumAge: int)

  /** A device fix: `position.coords` and `position.timestamp`. */
  datatype Position = Position(latitude: real, longitude: real, accuracy: real, timestamp: int,
                               heading: Option<real>, speed: Option<real>)

  /** How one device geolocation request ends, including the case where the browser has no such capability. */
  datatype DeviceOutcome = Unsupported | Located(position: Position) | PositionFailed(code: int)

  /** One entry of the resolver's `Answer` array. */
  datatype DnsAnswer = DnsAnswer(data: string)

  /**
    The resolver call and `response.json()`: either one of them throws (a network failure,
    a body that is not JSON), or the body arrives with an `Answer` array or without one.
   */
  datatype DnsOutcome = DnsThrew(message: string) | DnsResponse(answer: Option<seq<DnsAnswer>>)

  /** The provider call and `response.json()`: a thrown error or the parsed record. */
  datatype ProviderOutcome = ProviderThrew(message: string) | ProviderResponse(record: RawRecord)

  /** A request the application issues to the outside world. */
  datatype Request =
    | DnsQuery(name: string)                  // https://dns.google/resolve?name=<name>
    | ProviderLookup(address: string)         // https://ipapi.co/<address>/json/
    | ProviderSelf                            // https://ipapi.co/json/
    | DeviceRequest(options: PositionOptions) // navigator.geolocation.getCurrentPosition
    | WatchRequest(options: PositionOptions)  // navigator.geolocation.watchPosition
    | ClearWatchRequest(id: int)              // navigator.geolocation.clearWatch
}
