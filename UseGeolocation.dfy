/**
  The geolocation hook: the device-location state a component sees, one-shot and
  continuous position requests, the watch the hook holds with the browser, and the pure
  helpers it hands out (error messages, coordinate and accuracy formatting).
 */
module UseGeolocation {
  import opened Wrappers
  import opened Js
  import opened Platform

  const NotSupportedMessage := "Geolocalização não é suportada por este navegador"
  /** The message of the error a one-shot request rejects with when there is no geolocation capability. */
  const NotSupportedRejection := "Geolocation not supported"

  const PermissionDeniedMessage := "Permissão de localização negada. " + "Por favor, permita o acesso à localização."
  const PositionUnavailableMessage := "Localização indisponível. Verifique se o GPS está ativado."
  const TimeoutMessage := "Timeout na obtenção da localização. Tente novamente."
  const UnknownErrorMessage := "Erro desconhecido ao obter localização."

  /** The options of a one-shot request when the caller passes none. */
  const SingleReadDefaults := PositionOptions(true, 10000, 300000)
  /** The options of a watch when the caller passes none: fixes may be one minute old instead of five. */
  const WatchDefaults := PositionOptions(true, 10000, 60000)

  /** The options object a caller passes; `None` is a key it leaves out. */
  datatype OptionsInput = OptionsInput(enableHighAccuracy: Option<bool>, timeout: Option<int>, maximumAge: Option<int>)

  /** `options = {}`. */
  const NoOptions := OptionsInput(None, None, None)

  /** `{ ...defaults, ...options }`: every key the caller gives overrides the default, every other key keeps it. */
  function WithDefaults(defaults: PositionOptions, options: OptionsInput): (r: PositionOptions)
    ensures options.enableHighAccuracy.Some? ==> r.enableHighAccuracy == options.enableHighAccuracy.value
    ensures options.enableHighAccuracy.None? ==> r.enableHighAccuracy == defaults.enableHighAccuracy
    ensures options.timeout.Some? ==> r.timeout == options.timeout.value
    ensures options.timeout.None? ==> r.timeout == defaults.timeout
    ensures options.maximumAge.Some? ==> r.maximumAge == options.maximumAge.value
    ensures options.maximumAge.None? ==> r.maximumAge == defaults.maximumAge
  {
    PositionOptions(
      if options.enableHighAccuracy.Some? then options.enableHighAccuracy.value else defaults.enableHighAccuracy,
      if options.timeout.Some? then options.timeout.value else defaults.timeout,
      if options.maximumAge.Some? then options.maximumAge.value else defaults.maximumAge)
  }

  /** Without options a request asks for a high-accuracy fix within ten seconds, at most five minutes old (one for a watch). */
  lemma NoOptionsGiveDefaults()
    ensures WithDefaults(SingleReadDefaults, NoOptions) == PositionOptions(true, 10000, 300000)
    ensures WithDefaults(WatchDefaults, NoOptions) == PositionOptions(true, 10000, 60000)
  {
  }

  /** The message shown for a `GeolocationPositionError` code. */
  function GetErrorMessage(code: int): (m: string)
    ensures code == 1 ==> m == PermissionDeniedMessage
    ensures code == 2 ==> m == PositionUnavailableMessage
    ensures code == 3 ==> m == TimeoutMessage
    ensures code !in {1, 2, 3} ==> m == UnknownErrorMessage
  {
    match code
    case 1 => PermissionDeniedMessage
    case 2 => PositionUnavailableMessage
    case 3 => TimeoutMessage
    case _ => UnknownErrorMessage
  }

  /** The three codes the platform defines, and every other code, are told apart by their messages. */
  lemma ErrorMessagesDistinct(c1: int, c2: int)
    requires GetErrorMessage(c1) == GetErrorMessage(c2)
    ensures c1 == c2 || (c1 !in {1, 2, 3} && c2 !in {1, 2, 3})
  {
  }

  /** The location state a component reads; `None` is `null` or a key the state does not have. */
  datatype LocationState = LocationState(
    latitude: Option<real>,
    longitude: Option<real>,
    accuracy: Option<real>,
    error: Option<string>,
    loading: bool,
    supported: bool,
    timestamp: Option<int>,
    code: Option<int>,
    heading: Option<real>,
    speed: Option<real>)

  const InitialLocation := LocationState(None, None, None, None, false, false, None, None, None, None)

  /** `navigator.geolocation.clearWatch(w)` when `w` is truthy, nothing otherwise. */
  function ClearCalls(w: Option<int>): seq<Request>
  {
    if w.Some? && w.value != 0 then [ClearWatchRequest(w.value)] else []
  }

  /** One instance of the hook inside a mounted component. */
  class GeolocationHook {
    /** `navigator.geolocation` is there. */
    const hasGeolocation: bool
    var location: LocationState
    var watchId: Option<int>
    /** The watches the browser holds on this hook's behalf. */
    ghost var platformWatches: set<int>
    /** The geolocation requests this hook has issued, oldest first. */
    ghost var calls: seq<Request>

    /**
      The hook's watch id is the one watch the browser holds for it, which the browser
      numbers above zero; without a geolocation capability there is none.
     */
    ghost predicate Valid()
      reads this
    {
      && platformWatches == (if watchId.Some? then {watchId.value} else {})
      && (watchId.Some? ==> watchId.value > 0)
      && (!hasGeolocation ==> watchId == None)
    }

    /** The first render. */
    constructor (hasGeolocation: bool)
      ensures this.hasGeolocation == hasGeolocation
      ensures location == InitialLocation && watchId == None
      ensures platformWatches == {} && calls == []
      ensures Valid()
    {
      this.hasGeolocation := hasGeolocation;
      location := InitialLocation;
      watchId := None;
      platformWatches := {};
      calls := [];
    }

    /** The mount effect records whether the capability exists and changes nothing else. */
    method DetectSupport()
      modifies this`location
      ensures location == old(location).(supported := hasGeolocation)
    {
      location := location.(supported := hasGeolocation);
    }

    /**
      `getCurrentPosition(options)`: without the capability the error is shown and the
      returned promise rejects; otherwise the state goes to loading and one device request
      is issued with the merged options, the promise staying pending.
     */
    method GetCurrentPosition(options: OptionsInput) returns (rejection: Option<string>)
      modifies this`location, this`calls
      ensures !hasGeolocation ==> && rejection == Some(NotSupportedRejection)
                                  && location == old(location).(error := Some(NotSupportedMessage), loading := false)
                                  && calls == old(calls)
      ensures hasGeolocation ==> && rejection == None
                                 && location == old(location).(loading := true, error := None)
                                 && calls == old(calls) + [DeviceRequest(WithDefaults(SingleReadDefaults, options))]
    {
      if !hasGeolocation {
        location := location.(error := Some(NotSupportedMessage), loading := false);
        return Some(NotSupportedRejection);
      }
      location := location.(loading := true, error := None);
      calls := calls + [DeviceRequest(WithDefaults(SingleReadDefaults, options))];
      rejection := None;
    }

    /**
      A one-shot request succeeds: the whole state is replaced by the fix, without error or
      loading, and the promise resolves with that same state.
     */
    method PositionResolved(p: Position) returns (resolved: LocationState)
      modifies this`location
      ensures location == resolved
      ensures resolved == LocationState(Some(p.latitude), Some(p.longitude), Some(p.accuracy), None,
                                        false, true, Some(p.timestamp), None, None, None)
    {
      resolved := LocationState(Some(p.latitude), Some(p.longitude), Some(p.accuracy), None,
                                false, true, Some(p.timestamp), None, None, None);
      location := resolved;
    }

    /**
      A one-shot request fails: the coordinates are cleared, the code's message is shown and
      kept with the code, and the promise rejects with that message.
     */
    method PositionRejected(code: int) returns (rejection: string)
      modifies this`location
      ensures rejection == GetErrorMessage(code)
      ensures location == LocationState(None, None, None, Some(rejection), false, true, None, Some(code), None, None)
    {
      rejection := GetErrorMessage(code);
      location := LocationState(None, None, None, Some(rejection), false, true, None, Some(code), None, None);
    }

    /**
      `watchPosition(options)`: without the capability only the error is shown and no id is
      returned. Otherwise a held watch is cleared before the new one is registered with the
      merged options, so the browser ends up holding exactly the new watch. `newId` is the
      id the browser hands out.
     */
    method WatchPosition(options: OptionsInput, newId: int) returns (id: Option<int>)
      requires Valid()
      requires hasGeolocation ==> newId > 0
      modifies this`location, this`watchId, this`platformWatches, this`calls
      ensures Valid()
      ensures !hasGeolocation ==> && id == None
                                  && location == old(location).(error := Some(NotSupportedMessage))
                                  && watchId == old(watchId) && platformWatches == old(platformWatches)
                                  && calls == old(calls)
      ensures hasGeolocation ==> && id == Some(newId) && watchId == id && platformWatches == {newId}
                                 && location == old(location).(loading := true, error := None)
                                 && calls == old(calls) + ClearCalls(old(watchId))
                                                        + [WatchRequest(WithDefaults(WatchDefaults, options))]
    {
      if !hasGeolocation {
        location := location.(error := Some(NotSupportedMessage));
        return None;
      }
      if watchId.Some? && watchId.value != 0 {
        calls := calls + [ClearWatchRequest(watchId.value)];
        platformWatches := platformWatches - {watchId.value};
      }
      location := location.(loading := true, error := None);
      calls := calls + [WatchRequest(WithDefaults(WatchDefaults, options))];
      platformWatches := platformWatches + {newId};
      watchId := Some(newId);
      id := watchId;
    }

    /** A watch delivers a fix: the whole state is replaced by it, heading and speed included. */
    method WatchUpdated(p: Position)
      modifies this`location
      ensures location == LocationState(Some(p.latitude), Some(p.longitude), Some(p.accuracy), None,
                                        false, true, Some(p.timestamp), None, p.heading, p.speed)
    {
      location := LocationState(Some(p.latitude), Some(p.longitude), Some(p.accuracy), None,
                                false, true, Some(p.timestamp), None, p.heading, p.speed);
    }

    /** A watch reports an error: the last fix stays, with the code's message and the code next to it. */
    method WatchFailed(code: int)
      modifies this`location
      ensures location == old(location).(error := Some(GetErrorMessage(code)), loading := false, code := Some(code))
    {
      location := location.(error := Some(GetErrorMessage(code)), loading := false, code := Some(code));
    }

    /** `clearWatch()`: a held watch is released with the browser and forgotten. */
    method ClearWatch()
      requires Valid()
      modifies this`watchId, this`platformWatches, this`calls
      ensures Valid()
      ensures watchId == None && platformWatches == {}
      ensures calls == old(calls) + ClearCalls(old(watchId))
    {
      if watchId.Some? && watchId.value != 0 && hasGeolocation {
        calls := calls + [ClearWatchRequest(watchId.value)];
        platformWatches := platformWatches - {watchId.value};
        watchId := None;
      }
    }

    /** The unmount cleanup releases a held watch with the browser; the hook's own state is gone with it. */
    method Unmount()
      requires Valid()
      modifies this`platformWatches, this`calls
      ensures platformWatches == {}
      ensures calls == old(calls) + ClearCalls(watchId)
    {
      if watchId.Some? && watchId.value != 0 && hasGeolocation {
        calls := calls + [ClearWatchRequest(watchId.value)];
        platformWatches := platformWatches - {watchId.value};
      }
    }

    /** `isWatching`: the browser holds a watch for this hook. */
    function IsWatching(): (w: bool)
      reads this
      ensures Valid() ==> (w <==> platformWatches != {})
    {
      watchId.Some?
    }
  }

  /** `{ latitude, longitude, formatted }` with both coordinates written to `precision` decimals. */
  datatype FixedCoordinates = FixedCoordinates(latitude: real, longitude: real, precision: int)

  /** `formatCoordinates(lat, lng, precision)`: nothing unless both coordinates are truthy. A coordinate of exactly 0 counts as missing. */
  function FormatCoordinates(lat: NumValue, lng: NumValue, precision: int := 6): (r: Option<FixedCoordinates>)
    ensures r.Some? <==> Truthy(lat) && Truthy(lng)
    ensures r.Some? ==> lat == Number(r.value.latitude) && lng == Number(r.value.longitude)
                        && r.value.precision == precision
  {
    if !Truthy(lat) || !Truthy(lng) then None else Some(FixedCoordinates(lat.n, lng.n, precision))
  }

  /** The five accuracy grades, best first. */
  datatype AccuracyLevel = Excellent | Good | Fair | Poor | VeryPoor

  /** The position of a grade, 0 for the best. */
  function Rank(l: AccuracyLevel): nat
  {
    match l
    case Excellent => 0
    case Good => 1
    case Fair => 2
    case Poor => 3
    case VeryPoor => 4
  }

  /** The grade of an accuracy radius in metres: below 10, 50, 100 and 1000 metres, or beyond. */
  function LevelOf(accuracy: real): (l: AccuracyLevel)
    ensures l == Excellent <==> accuracy < 10.0
    ensures l == Good <==> 10.0 <= accuracy < 50.0
    ensures l == Fair <==> 50.0 <= accuracy < 100.0
    ensures l == Poor <==> 100.0 <= accuracy < 1000.0
    ensures l == VeryPoor <==> 1000.0 <= accuracy
  {
    if accuracy < 10.0 then Excellent
    else if accuracy < 50.0 then Good
    else if accuracy < 100.0 then Fair
    else if accuracy < 1000.0 then Poor
    else VeryPoor
  }

  /** A larger radius never gets a better grade. */
  lemma LevelMonotone(a: real, b: real)
    requires a <= b
    ensures Rank(LevelOf(a)) <= Rank(LevelOf(b))
  {
  }

  function Description(l: AccuracyLevel): string
  {
    match l
    case Excellent => "Excelente"
    case Good => "Boa"
    case Fair => "Razoável"
    case Poor => "Baixa"
    case VeryPoor => "Muito Baixa"
  }

  function Color(l: AccuracyLevel): string
  {
    match l
    case Excellent => "#28a745"
    case Good => "#20c997"
    case Fair => "#ffc107"
    case Poor => "#fd7e14"
    case VeryPoor => "#dc3545"
  }

  /** `{ level, description, color, meters, formatted }`. */
  datatype AccuracyInfo = AccuracyInfo(level: AccuracyLevel, description: string, color: string,
                                       meters: int, formatted: DistanceText)

  /**
    `getAccuracyInfo(accuracy)`: nothing for a falsy accuracy; otherwise its grade with the
    grade's label and colour, the rounded metres, and a text in metres below one kilometre
    (the same rounded figure) or in kilometres from one kilometre up.
   */
  function GetAccuracyInfo(accuracy: NumValue): (r: Option<AccuracyInfo>)
    ensures r.Some? <==> Truthy(accuracy)
    ensures r.Some? ==> && r.value.level == LevelOf(accuracy.n)
                        && r.value.description == Description(r.value.level)
                        && r.value.color == Color(r.value.level)
                        && r.value.meters == Round(accuracy.n)
    ensures r.Some? ==> (r.value.formatted.Metres? <==> r.value.level != VeryPoor)
    ensures r.Some? && r.value.formatted.Metres? ==> r.value.formatted.m == r.value.meters
    ensures r.Some? && r.value.formatted.Kilometres? ==> r.value.formatted.km * 1000.0 == accuracy.n
  {
    if !Truthy(accuracy) then None
    else
      var a := accuracy.n;
      var level := LevelOf(a);
      Some(AccuracyInfo(level, Description(level), Color(level), Round(a),
                        if a < 1000.0 then Metres(Round(a)) else Kilometres(a / 1000.0)))
  }

  /** Distinct grades have distinct labels and distinct colours. */
  lemma GradesDistinguishable(l1: AccuracyLevel, l2: AccuracyLevel)
    requires l1 != l2
    ensures Description(l1) != Description(l2)
    ensures Color(l1) != Color(l2)
  {
  }
}
