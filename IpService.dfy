/**
  `src/services/ipService.js`: looking a query up (`searchIP`), locating the visitor
  (`getMyLocation`) and normalising a provider record for display (`formatLocationData`).

  The two lookups are asynchronous in the source; here each is a function of the outcomes
  the outside services produce, returning the record or the thrown message together with
  the requests issued, in order.
 */
module IpService {
  import opened Wrappers
  import opened Js
  import opened QuerySyntax
  import opened Platform

  const ValidationMessage := "Por favor, digite um IP ou domínio válido"
  const DomainNotResolved := "Domínio não pôde ser resolvido"
  const DomainLocationNotFound := "Localização não encontrada para este domínio"
  const AddressNotFound := "IP não encontrado ou inválido"
  const ConnectionError := "Erro de conexão. " + "Verifique sua internet e tente novamente."
  const LocationUnavailable := "Erro ao obter informações de localização"
  const GeolocationNotSupported := "Geolocalização não suportada pelo navegador"

  /** The options of the single device reading `getMyLocation` asks for. */
  const SelfLocationOptions := PositionOptions(true, 10000, 300000)

  /** What a lookup produces: the record or the error message, and the requests issued, in order. */
  datatype Lookup = Lookup(result: Result<RawRecord, string>, requests: seq<Request>)

  // ---------------------------------------------------------------------------
  // searchIP (lines 9-62)

  /** `Answer[0].data`, when the resolver's answer has a first entry. */
  function FirstAnswer(dns: DnsOutcome): (a: Option<string>)
    ensures a.Some? <==> dns.DnsResponse? && dns.answer.Some? && |dns.answer.value| > 0
    ensures a.Some? ==> a.value == dns.answer.value[0].data
  {
    match dns
    case DnsResponse(Some(answers)) => if |answers| > 0 then Some(answers[0].data) else None
    case _ => None
  }

  /**
    The domain path inside the `try`: the resolver is asked first; a failure of the call
    or an answer without a first entry ends it there; otherwise the provider is asked once,
    about `Answer[0].data`, and its `error` flag or its record decides the outcome. Thrown
    messages come out as thrown (the `catch` is applied by the caller).
   */
  function ResolveDomain(q: string, dns: string -> DnsOutcome, provider: string -> ProviderOutcome): (out: Lookup)
    ensures 1 <= |out.requests| <= 2 && out.requests[0] == DnsQuery(q)
    ensures out.result.Success? ==> !Truthy(out.result.value.error)
    ensures dns(q).DnsThrew? ==> out == Lookup(Failure(dns(q).message), [DnsQuery(q)])
    ensures dns(q).DnsResponse? && FirstAnswer(dns(q)).None? ==> out == Lookup(Failure(DomainNotResolved), [DnsQuery(q)])
    ensures FirstAnswer(dns(q)).Some? ==>
              var a := FirstAnswer(dns(q)).value;
              && out.requests == [DnsQuery(q), ProviderLookup(a)]
              && (provider(a).ProviderThrew? ==> out.result == Failure(provider(a).message))
              && (provider(a).ProviderResponse? && Truthy(provider(a).record.error) ==>
                    out.result == Failure(DomainLocationNotFound))
              && (provider(a).ProviderResponse? && !Truthy(provider(a).record.error) ==>
                    out.result == Success(provider(a).record.(domain := Str(q), resolvedIP := Str(a))))
  {
    match dns(q)
    case DnsThrew(m) => Lookup(Failure(m), [DnsQuery(q)])
    case DnsResponse(_) =>
      match FirstAnswer(dns(q))
      case None => Lookup(Failure(DomainNotResolved), [DnsQuery(q)])
      case Some(a) =>
        match provider(a)
        case ProviderThrew(m) => Lookup(Failure(m), [DnsQuery(q), ProviderLookup(a)])
        case ProviderResponse(data) =>
          if Truthy(data.error) then Lookup(Failure(DomainLocationNotFound), [DnsQuery(q), ProviderLookup(a)])
          else Lookup(Success(data.(domain := Str(q), resolvedIP := Str(a))), [DnsQuery(q), ProviderLookup(a)])
  }

  /**
    The IP path inside the `try`: the query goes to the provider as it is; a flagged
    `error` gives the address message, otherwise the provider's record comes back unchanged.
   */
  function LookupAddress(q: string, provider: string -> ProviderOutcome): (out: Lookup)
    ensures out.requests == [ProviderLookup(q)]
    ensures out.result.Success? ==> !Truthy(out.result.value.error)
    ensures provider(q).ProviderThrew? ==> out.result == Failure(provider(q).message)
    ensures provider(q).ProviderResponse? && Truthy(provider(q).record.error) ==> out.result == Failure(AddressNotFound)
    ensures provider(q).ProviderResponse? && !Truthy(provider(q).record.error) ==> out.result == Success(provider(q).record)
  {
    match provider(q)
    case ProviderThrew(m) => Lookup(Failure(m), [ProviderLookup(q)])
    case ProviderResponse(data) =>
      if Truthy(data.error) then Lookup(Failure(AddressNotFound), [ProviderLookup(q)])
      else Lookup(Success(data), [ProviderLookup(q)])
  }

  /** The `catch`: a message mentioning `fetch` becomes the connection error, any other is rethrown as it is. */
  function TranslateError(m: string): (r: string)
    ensures Contains(m, "fetch") ==> r == ConnectionError
    ensures !Contains(m, "fetch") ==> r == m
    ensures !Contains(r, "fetch")
  {
    if Contains(m, "fetch") then
      MissingCharNotContained(ConnectionError, "fetch", 'h');
      ConnectionError
    else m
  }

  /**
    `searchIP(query)`. A blank query fails with the validation message before any request;
    otherwise the trimmed query picks the path and is the only form of the query used, a
    domain is resolved before the provider is asked, at most two requests are issued, and
    no failure message mentions `fetch`. A record returned never carries a truthy `error`.
   */
  function SearchIP(query: string, dns: string -> DnsOutcome, provider: string -> ProviderOutcome): (out: Lookup)
    ensures Blank(query) ==> out == Lookup(Failure(ValidationMessage), [])
    ensures !Blank(query) ==>
              |out.requests| >= 1 &&
              out.requests[0] == (if IsDomain(Trim(query)) then DnsQuery(Trim(query)) else ProviderLookup(Trim(query)))
    ensures |out.requests| <= 2
    ensures out.result.Failure? ==> !Contains(out.result.error, "fetch")
    ensures out.result.Success? ==> !Truthy(out.result.value.error)
  {
    var q := Trim(query);
    if q == "" then
      MissingCharNotContained(ValidationMessage, "fetch", 'h');
      Lookup(Failure(ValidationMessage), [])
    else
      var attempt := if IsDomain(q) then ResolveDomain(q, dns, provider) else LookupAddress(q, provider);
      match attempt.result
      case Success(_) => attempt
      case Failure(m) => Lookup(Failure(TranslateError(m)), attempt.requests)
  }

  /**
    The domain path of `searchIP`: no usable answer fails with the resolution message; a
    provider `error` fails with the domain message; otherwise the provider was asked about
    `Answer[0].data` and the record is the provider's with `domain` and `resolvedIP`
    overridden. Transport failures come out translated.
   */
  lemma SearchDomainPath(query: string, dns: string -> DnsOutcome, provider: string -> ProviderOutcome)
    requires IsDomain(Trim(query))
    ensures var q := Trim(query);
            var out := SearchIP(query, dns, provider);
            && (dns(q).DnsThrew? ==> out == Lookup(Failure(TranslateError(dns(q).message)), [DnsQuery(q)]))
            && (dns(q).DnsResponse? && FirstAnswer(dns(q)).None? ==> out == Lookup(Failure(DomainNotResolved), [DnsQuery(q)]))
            && (FirstAnswer(dns(q)).Some? ==>
                  var a := FirstAnswer(dns(q)).value;
                  && out.requests == [DnsQuery(q), ProviderLookup(a)]
                  && (provider(a).ProviderThrew? ==> out.result == Failure(TranslateError(provider(a).message)))
                  && (provider(a).ProviderResponse? && Truthy(provider(a).record.error) ==>
                        out.result == Failure(DomainLocationNotFound))
                  && (provider(a).ProviderResponse? && !Truthy(provider(a).record.error) ==>
                        out.result == Success(provider(a).record.(domain := Str(q), resolvedIP := Str(a)))))
  {
    ClassifiedMessageLacksFetch(DomainNotResolved);
    ClassifiedMessageLacksFetch(DomainLocationNotFound);
  }

  /**
    The IP path of `searchIP`: the trimmed query is the address asked for; a provider
    `error` fails with the address message; otherwise the provider's record is returned
    unchanged.
   */
  lemma SearchAddressPath(query: string, dns: string -> DnsOutcome, provider: string -> ProviderOutcome)
    requires !Blank(query) && !IsDomain(Trim(query))
    ensures var q := Trim(query);
            var out := SearchIP(query, dns, provider);
            && out.requests == [ProviderLookup(q)]
            && (provider(q).ProviderThrew? ==> out.result == Failure(TranslateError(provider(q).message)))
            && (provider(q).ProviderResponse? && Truthy(provider(q).record.error) ==> out.result == Failure(AddressNotFound))
            && (provider(q).ProviderResponse? && !Truthy(provider(q).record.error) ==> out.result == Success(provider(q).record))
  {
    ClassifiedMessageLacksFetch(AddressNotFound);
  }

  /** Searching for a query and for its trimmed form are the same lookup. */
  lemma {:induction false} SearchTrimmed(query: string, dns: string -> DnsOutcome, provider: string -> ProviderOutcome)
    ensures SearchIP(Trim(query), dns, provider) == SearchIP(query, dns, provider)
  {
    TrimIdempotent(query);
    assert Blank(Trim(query)) <==> Blank(query);
  }

  /** The classified messages contain no `fetch`, so the `catch` rethrows them unchanged. */
  lemma ClassifiedErrorsPropagate()
    ensures TranslateError(DomainNotResolved) == DomainNotResolved
    ensures TranslateError(DomainLocationNotFound) == DomainLocationNotFound
    ensures TranslateError(AddressNotFound) == AddressNotFound
  {
    ClassifiedMessageLacksFetch(DomainNotResolved);
    ClassifiedMessageLacksFetch(DomainLocationNotFound);
    ClassifiedMessageLacksFetch(AddressNotFound);
  }

  /** None of the three classified messages contains `fetch`: none of them has the letter `h`. */
  lemma ClassifiedMessageLacksFetch(m: string)
    requires m in {DomainNotResolved, DomainLocationNotFound, AddressNotFound}
    ensures !Contains(m, "fetch")
  {
    MissingCharNotContained(m, "fetch", 'h');
  }

  // ---------------------------------------------------------------------------
  // getMyLocation (lines 65-139) and getLocationErrorMessage (lines 142-153)

  /** The fallback explanation for a device failure code: 1, 2 and 3 are told apart, every other code is unknown. */
  function GetLocationErrorMessage(code: int): (m: string)
    ensures code == 1 ==> m == "Permissão de localização negada pelo usuário"
    ensures code == 2 ==> m == "Localização indisponível"
    ensures code == 3 ==> m == "Timeout na obtenção da localização"
    ensures code !in {1, 2, 3} ==> m == "Erro desconhecido na obtenção da localização"
  {
    match code
    case 1 => "Permissão de localização negada pelo usuário"
    case 2 => "Localização indisponível"
    case 3 => "Timeout na obtenção da localização"
    case _ => "Erro desconhecido na obtenção da localização"
  }

  /** Distinct device failure codes among 1, 2 and 3, and any of them against an unknown code, give distinct messages. */
  lemma LocationErrorMessagesDistinct(c1: int, c2: int)
    requires c1 in {1, 2, 3} && c1 != c2
    ensures GetLocationErrorMessage(c1) != GetLocationErrorMessage(c2)
  {
  }

  /**
    The provider's self lookup that ends every branch of `getMyLocation`: any thrown error
    or `error` flag becomes the one generic message, otherwise `annotate` is applied.
   */
  function SelfLookup(provider: ProviderOutcome, annotate: RawRecord -> RawRecord): Result<RawRecord, string>
  {
    match provider
    case ProviderThrew(_) => Failure(LocationUnavailable)
    case ProviderResponse(data) =>
      if Truthy(data.error) then Failure(LocationUnavailable) else Success(annotate(data))
  }

  /**
    `getMyLocation()`. With a device fix the provider record carries the device's
    coordinates and accuracy and `userLocation` true; after a device failure or without the
    capability it carries `userLocation` false and the reason in `locationError`. Device
    failures never make it fail: it fails exactly when the provider does, and then always
    with the same generic message. The device is asked (with the fixed options) before the
    provider.
   */
  function GetMyLocation(device: DeviceOutcome, provider: ProviderOutcome): (out: Lookup)
    ensures out.requests == (if device.Unsupported? then [] else [DeviceRequest(SelfLocationOptions)]) + [ProviderSelf]
    ensures out.result.Failure? <==> provider.ProviderThrew? || Truthy(provider.record.error)
    ensures out.result.Failure? ==> out.result.error == LocationUnavailable
    ensures out.result.Success? ==> provider.ProviderResponse?
    ensures out.result.Success? && device.Located? ==>
              var p := device.position;
              out.result.value == provider.record.(latitude := Number(p.latitude), longitude := Number(p.longitude),
                                                   accuracy := Number(p.accuracy), userLocation := Bool(true))
    ensures out.result.Success? && device.PositionFailed? ==>
              out.result.value == provider.record.(userLocation := Bool(false),
                                                   locationError := Str(GetLocationErrorMessage(device.code)))
    ensures out.result.Success? && device.Unsupported? ==>
              out.result.value == provider.record.(userLocation := Bool(false), locationError := Str(GeolocationNotSupported))
  {
    match device
    case Unsupported =>
      var annotate := (d: RawRecord) => d.(userLocation := Bool(false), locationError := Str(GeolocationNotSupported));
      Lookup(SelfLookup(provider, annotate), [ProviderSelf])
    case Located(p) =>
      var annotate := (d: RawRecord) => d.(latitude := Number(p.latitude), longitude := Number(p.longitude),
                                           accuracy := Number(p.accuracy), userLocation := Bool(true));
      Lookup(SelfLookup(provider, annotate), [DeviceRequest(SelfLocationOptions), ProviderSelf])
    case PositionFailed(code) =>
      var annotate := (d: RawRecord) => d.(userLocation := Bool(false), locationError := Str(GetLocationErrorMessage(code)));
      Lookup(SelfLookup(provider, annotate), [DeviceRequest(SelfLocationOptions), ProviderSelf])
  }

  // ---------------------------------------------------------------------------
  // formatLocationData (lines 165-186)

  /** The `location` text: `"-"`, or both coordinates written with six decimals (the digits themselves are not modelled). */
  datatype LocationText = NoLocation | Coordinates(latitude: real, longitude: real)

  /** `lat && lng ? "<lat>, <lng>" : "-"`: coordinates exactly when both are truthy numbers. */
  function LocationOf(lat: NumValue, lng: NumValue): (t: LocationText)
    ensures t.Coordinates? <==> NumberOr(lat, 0.0) != 0.0 && NumberOr(lng, 0.0) != 0.0
    ensures t.Coordinates? ==> t == Coordinates(NumberOr(lat, 0.0), NumberOr(lng, 0.0))
  {
    if Truthy(lat) && Truthy(lng) then Coordinates(lat.n, lng.n) else NoLocation
  }

  /** The display record: every field has a value of its own type; `None` is an explicit `null`. */
  datatype CanonicalRecord = CanonicalRecord(
    ip: string,
    location: LocationText,
    isp: string,
    country: string,
    city: string,
    timezone: string,
    region: string,
    postal: string,
    latitude: real,
    longitude: real,
    domain: Option<string>,
    resolvedIP: Option<string>,
    userLocation: bool,
    accuracy: Option<real>,
    locationError: Option<string>)

  /**
    `formatLocationData(data)`, total on every record. Each field is the raw value when it
    is truthy and its default (`"-"`, `0`, `null`, `false`) otherwise; `isp` prefers `org`;
    `country` is read from `country_name`; `location` has coordinates exactly when both
    output coordinates are non-zero, and then they are those coordinates.
   */
  function FormatLocationData(data: RawRecord): (r: CanonicalRecord)
    ensures r.ip == StringOr(data.ip, "-")
    ensures r.isp == StringOr(data.org, StringOr(data.isp, "-"))
    ensures r.country == StringOr(data.country_name, "-")
    ensures r.city == StringOr(data.city, "-") && r.timezone == StringOr(data.timezone, "-")
    ensures r.region == StringOr(data.region, "-") && r.postal == StringOr(data.postal, "-")
    ensures r.latitude == NumberOr(data.latitude, 0.0) && r.longitude == NumberOr(data.longitude, 0.0)
    ensures r.domain == StringOrNull(data.domain) && r.resolvedIP == StringOrNull(data.resolvedIP)
    ensures r.userLocation == BoolOrFalse(data.userLocation)
    ensures r.accuracy == NumberOrNull(data.accuracy)
    ensures r.locationError == StringOrNull(data.locationError)
    ensures r.location.Coordinates? <==> r.latitude != 0.0 && r.longitude != 0.0
    ensures r.location.Coordinates? ==> r.location == Coordinates(r.latitude, r.longitude)
  {
    CanonicalRecord(
      ip := StringOr(data.ip, "-"),
      location := LocationOf(data.latitude, data.longitude),
      isp := StringOr(data.org, StringOr(data.isp, "-")),
      country := StringOr(data.country_name, "-"),
      city := StringOr(data.city, "-"),
      timezone := StringOr(data.timezone, "-"),
      region := StringOr(data.region, "-"),
      postal := StringOr(data.postal, "-"),
      latitude := NumberOr(data.latitude, 0.0),
      longitude := NumberOr(data.longitude, 0.0),
      domain := StringOrNull(data.domain),
      resolvedIP := StringOrNull(data.resolvedIP),
      userLocation := BoolOrFalse(data.userLocation),
      accuracy := NumberOrNull(data.accuracy),
      locationError := StringOrNull(data.locationError))
  }

  /** The record every field of which is its default, what `{}` normalises to. */
  const DefaultRecord := CanonicalRecord("-", NoLocation, "-", "-", "-", "-", "-", "-", 0.0, 0.0,
                                         None, None, false, None, None)

  lemma EmptyRecordGivesDefaults()
    ensures FormatLocationData(EmptyRecord) == DefaultRecord
  {}

  /** A latitude of exactly 0 is falsy, so the record shows no location even though a longitude is present. */
  lemma ZeroLatitudeHasNoLocation(data: RawRecord)
    requires data.latitude == Number(0.0)
    ensures FormatLocationData(data).location == NoLocation
    ensures FormatLocationData(data).latitude == 0.0
  {}

  /** The canonical record read back as a raw one (what passing it to `formatLocationData` again would see). */
  function AsRaw(c: CanonicalRecord): (d: RawRecord)
    ensures d.country_name == Undefined && d.org == Undefined
    ensures d.ip == Str(c.ip) && d.isp == Str(c.isp) && d.city == Str(c.city)
  {
    RawRecord(
      ip := Str(c.ip), latitude := Number(c.latitude), longitude := Number(c.longitude),
      accuracy := if c.accuracy.Some? then Number(c.accuracy.value) else Null,
      org := Undefined, isp := Str(c.isp), country_name := Undefined, city := Str(c.city),
      timezone := Str(c.timezone), region := Str(c.region), postal := Str(c.postal), error := Undefined,
      domain := if c.domain.Some? then Str(c.domain.value) else Null,
      resolvedIP := if c.resolvedIP.Some? then Str(c.resolvedIP.value) else Null,
      userLocation := Bool(c.userLocation),
      locationError := if c.locationError.Some? then Str(c.locationError.value) else Null)
  }

  /**
    Normalising is not idempotent: the output names the country `country` while the input
    is read from `country_name`, so a second pass replaces every known country by `"-"`.
   */
  lemma NormalisingTwiceLosesCountry(data: RawRecord)
    requires Truthy(data.country_name) && data.country_name != Str("-")
    ensures FormatLocationData(AsRaw(FormatLocationData(data))).country == "-"
    ensures FormatLocationData(AsRaw(FormatLocationData(data))).country != FormatLocationData(data).country
  {}

  /** Every other field survives a second pass. */
  lemma NormalisingTwiceKeepsTheRest(data: RawRecord)
    ensures var c := FormatLocationData(data);
            FormatLocationData(AsRaw(c)) == c.(country := "-")
  {
    var c := FormatLocationData(data);
    var c2 := FormatLocationData(AsRaw(c));
    assert c2.location == c.location;
  }

  /**
    A device fix reaches the display record: its coordinates are the record's (shown as the
    location when both are non-zero), its accuracy is the record's unless it is zero, and
    the record says it is the visitor's own location.
   */
  lemma DeviceFixIsDisplayed(p: Position, provider: ProviderOutcome)
    requires GetMyLocation(Located(p), provider).result.Success?
    ensures var c := FormatLocationData(GetMyLocation(Located(p), provider).result.value);
            && c.latitude == p.latitude && c.longitude == p.longitude
            && (p.latitude != 0.0 && p.longitude != 0.0 ==> c.location == Coordinates(p.latitude, p.longitude))
            && (p.accuracy != 0.0 ==> c.accuracy == Some(p.accuracy))
            && c.userLocation
  {}

  /** A record found through a domain displays that domain and the address it resolved to. */
  lemma DomainIsDisplayed(query: string, dns: string -> DnsOutcome, provider: string -> ProviderOutcome)
    requires IsDomain(Trim(query))
    requires FirstAnswer(dns(Trim(query))).Some? && FirstAnswer(dns(Trim(query))).value != ""
    requires SearchIP(query, dns, provider).result.Success?
    ensures var c := FormatLocationData(SearchIP(query, dns, provider).result.value);
            c.domain == Some(Trim(query)) && c.resolvedIP == FirstAnswer(dns(Trim(query)))
  {
    SearchDomainPath(query, dns, provider);
  }

  /** The worked example: a provider record normalised field by field. */
  lemma ExampleRecord()
    ensures var data := EmptyRecord.(ip := Str("1.2.3.4"), latitude := Number(10.0), longitude := Number(20.0),
                                     org := Str("ExampleISP"), country_name := Str("Wonderland"), city := Str("-"),
                                     timezone := Str("UTC"), error := Bool(false));
            FormatLocationData(data) == DefaultRecord.(ip := "1.2.3.4", location := Coordinates(10.0, 20.0),
                                                       isp := "ExampleISP", country := "Wonderland",
                                                       timezone := "UTC", latitude := 10.0, longitude := 20.0)
  {}
}
