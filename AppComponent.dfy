/**
  The application shell: the looked-up record, the loading flag, the error message and
  whether a result is shown; the two lookups the search form triggers; the self-location
  lookup on mount; and which of spinner and result is on screen.

  Each lookup is a `BeginLookup`, the service call and a `Settle`. `HandleSearch` and
  `HandleMyIP` run the three in one step; `BeginLookup` and `Settle` stay callable on their
  own so that a state between them, with `loading` set, can be reasoned about.
 */
module AppComponent {
  import opened Wrappers
  import opened Platform
  import opened IpService
  import SearchContainer

  class App {
    var ipData: Option<RawRecord>
    var loading: bool
    var error: Option<string>
    var showResult: bool
    /** The mount effect has run. */
    ghost var mounted: bool
    /** Every request issued to the outside world, oldest first. */
    ghost var requests: seq<Request>

    /** A result is only ever flagged for display when there is a record to display. */
    ghost predicate Valid()
      reads this
    {
      showResult ==> ipData.Some?
    }

    /** The first render: no record, no error, nothing loading, nothing shown. */
    constructor ()
      ensures ipData == None && !loading && error == None && !showResult
      ensures !mounted && requests == []
      ensures Valid()
    {
      ipData := None;
      loading := false;
      error := None;
      showResult := false;
      mounted := false;
      requests := [];
    }

    /** A lookup starts: the spinner comes up and a previous error is cleared. */
    method BeginLookup()
      requires Valid()
      modifies this`loading, this`error
      ensures loading && error == None
      ensures Valid()
    {
      loading := true;
      error := None;
    }

    /**
      A lookup ends: a record replaces the previous one and is flagged for display; an
      error is recorded and leaves the previous record, and whether it is shown, alone.
      Either way the spinner goes.
     */
    method Settle(outcome: Result<RawRecord, string>)
      requires Valid()
      modifies this`ipData, this`loading, this`error, this`showResult
      ensures !loading
      ensures outcome.Success? ==> ipData == Some(outcome.value) && showResult && error == old(error)
      ensures outcome.Failure? ==> && error == Some(outcome.error)
                                   && ipData == old(ipData) && showResult == old(showResult)
      ensures Valid()
    {
      if outcome.Success? {
        ipData := Some(outcome.value);
        showResult := true;
      } else {
        error := Some(outcome.error);
      }
      loading := false;
    }

    /**
      The state after a whole lookup that ended as `out`: not loading, its requests
      appended, and either its record shown with no error or its error recorded next to
      the previous record.
     */
    twostate predicate SettledBy(out: Lookup)
      reads this
    {
      && !loading
      && requests == old(requests) + out.requests
      && (out.result.Success? ==> ipData == Some(out.result.value) && showResult && error == None)
      && (out.result.Failure? ==> && error == Some(out.result.error)
                                  && ipData == old(ipData) && showResult == old(showResult))
    }

    /** `handleSearch(query)`. */
    method HandleSearch(query: string, dns: string -> DnsOutcome, provider: string -> ProviderOutcome)
      requires Valid()
      modifies this`ipData, this`loading, this`error, this`showResult, this`requests
      ensures SettledBy(SearchIP(query, dns, provider))
      ensures Valid()
    {
      BeginLookup();
      var out := SearchIP(query, dns, provider);
      requests := requests + out.requests;
      Settle(out.result);
    }

    /** `handleMyIP()`. */
    method HandleMyIP(device: DeviceOutcome, provider: ProviderOutcome)
      requires Valid()
      modifies this`ipData, this`loading, this`error, this`showResult, this`requests
      ensures SettledBy(GetMyLocation(device, provider))
      ensures Valid()
    {
      BeginLookup();
      var out := GetMyLocation(device, provider);
      requests := requests + out.requests;
      Settle(out.result);
    }

    /** The mount effect runs once and looks up the user's own location. */
    method Mount(device: DeviceOutcome, provider: ProviderOutcome)
      requires Valid() && !mounted
      modifies this
      ensures mounted
      ensures SettledBy(GetMyLocation(device, provider))
      ensures Valid()
    {
      HandleMyIP(device, provider);
      mounted := true;
    }

    /** The spinner is on screen exactly while a lookup runs. */
    function SpinnerShown(): bool
      reads this
    {
      loading
    }

    /** The result card: the record, when one is flagged for display and no lookup runs. */
    function ShownResult(): (r: Option<RawRecord>)
      reads this
      ensures r.Some? ==> !SpinnerShown() && r == ipData
      ensures Valid() ==> (r.Some? <==> showResult && !SpinnerShown())
    {
      if showResult && ipData.Some? && !loading then ipData else None
    }
  }

  /**
    Submitting the form: nothing happens while a lookup runs or when the text is blank;
    otherwise the trimmed text is looked up, which is the same lookup as for the text
    the user typed.
   */
  method Submit(form: SearchContainer.SearchForm, app: App, dns: string -> DnsOutcome,
                provider: string -> ProviderOutcome)
    requires app.Valid()
    modifies app`ipData, app`loading, app`error, app`showResult, app`requests
    ensures app.Valid() && app.mounted == old(app.mounted)
    ensures form.SearchDisabled(old(app.loading)) ==> unchanged(app)
    ensures !form.SearchDisabled(old(app.loading)) ==> app.SettledBy(SearchIP(form.query, dns, provider))
  {
    var search := form.HandleSubmit(app.loading);
    if search.Some? {
      SearchTrimmed(form.query, dns, provider);
      app.HandleSearch(search.value, dns, provider);
    }
  }

  /**
    The "Meu IP" button: nothing happens while a lookup runs; otherwise the form is
    cleared and the user's own location is looked up.
   */
  method ClickMyIP(form: SearchContainer.SearchForm, app: App, device: DeviceOutcome, provider: ProviderOutcome)
    requires app.Valid()
    modifies form, app`ipData, app`loading, app`error, app`showResult, app`requests
    ensures app.Valid() && app.mounted == old(app.mounted)
    ensures old(app.loading) ==> unchanged(app) && form.query == old(form.query)
    ensures !old(app.loading) ==> form.query == "" && app.SettledBy(GetMyLocation(device, provider))
  {
    var requested := form.HandleMyIP(app.loading);
    if requested {
      app.HandleMyIP(device, provider);
    }
  }
}
