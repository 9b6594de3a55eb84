/**
 The engine: it holds at most one connection, handles one user-interface event at a time and
 answers with a stream of events. Failures travel through one error slot, which is cleared at
 the start of each event and, when still set at the end, replaces the event the handler chose.
 */
module AppEngine {
  import opened Wrappers
  import opened Records
  import opened Storage
  import opened Tables
  import opened Query
  import opened Writes
  import opened Events

  /**
   What the surroundings answer while one event is handled: which statements raise, which
   fetch of a search raises (if any), and how an attempt to open a file ends.
   */
  datatype Environment = Environment(raising: set<Statement>, scanFailsAfter: Option<nat>, open: OpenOutcome)

  /**
   The stream a continent search produces: one result event per row the scan delivers, then
   the pending event (none) or, when the error slot was set, one error event in its place.
   */
  function ContinentSearchEvents(t: seq<Continent>, name: Text, code: Text, failsAfter: Option<nat>)
    : (r: seq<Option<Response>>)
    ensures 1 <= |r| <= |t| + 1
    ensures name.None? && code.None? ==> r == [Some(ErrorEvent(InvalidSearch))]
    ensures forall i :: 0 <= i < |r| - 1 ==> r[i].Some? && r[i].value.ContinentSearchResultEvent?
    ensures r[|r| - 1] == None || r[|r| - 1].value.ErrorEvent?
  {
    if name.None? && code.None? then [Some(ErrorEvent(InvalidSearch))]
    else
      var all := Select(t, ContinentColumn, ContinentQuery(name, code));
      ContinentResults(Truncated(all, failsAfter)) + [if ScanFails(all, failsAfter) then Some(ErrorEvent(SearchFailed)) else None]
  }

  function CountrySearchEvents(t: seq<Country>, name: Text, code: Text, failsAfter: Option<nat>)
    : (r: seq<Option<Response>>)
    ensures 1 <= |r| <= |t| + 1
    ensures name.None? && code.None? ==> r == [Some(ErrorEvent(InvalidSearch))]
    ensures forall i :: 0 <= i < |r| - 1 ==> r[i].Some? && r[i].value.CountrySearchResultEvent?
    ensures r[|r| - 1] == None || r[|r| - 1].value.ErrorEvent?
  {
    if name.None? && code.None? then [Some(ErrorEvent(InvalidSearch))]
    else
      var all := Select(t, CountryColumn, CountryQuery(name, code));
      CountryResults(Truncated(all, failsAfter)) + [if ScanFails(all, failsAfter) then Some(ErrorEvent(SearchFailed)) else None]
  }

  function RegionSearchEvents(t: seq<Region>, name: Text, code: Text, localCode: Text, failsAfter: Option<nat>)
    : (r: seq<Option<Response>>)
    ensures 1 <= |r| <= |t| + 1
    ensures name.None? && code.None? && localCode.None? ==> r == [Some(ErrorEvent(InvalidSearch))]
    ensures forall i :: 0 <= i < |r| - 1 ==> r[i].Some? && r[i].value.RegionSearchResultEvent?
    ensures r[|r| - 1] == None || r[|r| - 1].value.ErrorEvent?
  {
    if name.None? && code.None? && localCode.None? then [Some(ErrorEvent(InvalidSearch))]
    else
      var all := Select(t, RegionColumn, RegionQuery(name, code, localCode));
      RegionResults(Truncated(all, failsAfter)) + [if ScanFails(all, failsAfter) then Some(ErrorEvent(SearchFailed)) else None]
  }

  /**
   A continent search with a filter given reports only rows of the table that match every given
   filter, ends with an error event exactly when a fetch raised, and, when none raised, reports
   every matching row and ends with no event.
   */
  lemma ContinentSearchReportsMatches(t: seq<Continent>, name: Text, code: Text, failsAfter: Option<nat>)
    requires name.Some? || code.Some?
    ensures var out := ContinentSearchEvents(t, name, code, failsAfter);
      var all := Select(t, ContinentColumn, ContinentQuery(name, code));
      && (forall i :: 0 <= i < |out| - 1 ==>
            out[i].Some? && out[i].value.ContinentSearchResultEvent? &&
            out[i].value.continent in t && ContinentMatches(out[i].value.continent, name, code))
      && (out[|out| - 1] == Some(ErrorEvent(SearchFailed)) <==> ScanFails(all, failsAfter))
      && (!ScanFails(all, failsAfter) ==>
            out[|out| - 1] == None &&
            forall x :: x in t && ContinentMatches(x, name, code) ==> Some(ContinentSearchResultEvent(x)) in out)
  {
    var all := Select(t, ContinentColumn, ContinentQuery(name, code));
    var out := ContinentSearchEvents(t, name, code, failsAfter);
    forall x | x in t
      ensures Satisfies(x, ContinentColumn, ContinentQuery(name, code)) <==> ContinentMatches(x, name, code)
    {
      ContinentQueryIsExactMatch(x, name, code);
    }
    if !ScanFails(all, failsAfter) {
      forall x | x in t && ContinentMatches(x, name, code)
        ensures Some(ContinentSearchResultEvent(x)) in out
      {
        var j :| 0 <= j < |all| && all[j] == x;
        assert out[j] == Some(ContinentSearchResultEvent(x));
      }
    }
  }

  /**
   A country search with a filter given reports only rows of the table that match every given
   filter, ends with an error event exactly when a fetch raised, and, when none raised, reports
   every matching row and ends with no event.
   */
  lemma CountrySearchReportsMatches(t: seq<Country>, name: Text, code: Text, failsAfter: Option<nat>)
    requires name.Some? || code.Some?
    ensures var out := CountrySearchEvents(t, name, code, failsAfter);
      var all := Select(t, CountryColumn, CountryQuery(name, code));
      && (forall i :: 0 <= i < |out| - 1 ==>
            out[i].Some? && out[i].value.CountrySearchResultEvent? &&
            out[i].value.country in t && CountryMatches(out[i].value.country, name, code))
      && (out[|out| - 1] == Some(ErrorEvent(SearchFailed)) <==> ScanFails(all, failsAfter))
      && (!ScanFails(all, failsAfter) ==>
            out[|out| - 1] == None &&
            forall x :: x in t && CountryMatches(x, name, code) ==> Some(CountrySearchResultEvent(x)) in out)
  {
    var all := Select(t, CountryColumn, CountryQuery(name, code));
    var out := CountrySearchEvents(t, name, code, failsAfter);
    forall x | x in t
      ensures Satisfies(x, CountryColumn, CountryQuery(name, code)) <==> CountryMatches(x, name, code)
    {
      CountryQueryIsExactMatch(x, name, code);
    }
    if !ScanFails(all, failsAfter) {
      forall x | x in t && CountryMatches(x, name, code)
        ensures Some(CountrySearchResultEvent(x)) in out
      {
        var j :| 0 <= j < |all| && all[j] == x;
        assert out[j] == Some(CountrySearchResultEvent(x));
      }
    }
  }

  /**
   A region search with a filter given reports only rows of the table that match every given
   filter, ends with an error event exactly when a fetch raised, and, when none raised, reports
   every matching row and ends with no event.
   */
  lemma RegionSearchReportsMatches(t: seq<Region>, name: Text, code: Text, localCode: Text, failsAfter: Option<nat>)
    requires name.Some? || code.Some? || localCode.Some?
    ensures var out := RegionSearchEvents(t, name, code, localCode, failsAfter);
      var all := Select(t, RegionColumn, RegionQuery(name, code, localCode));
      && (forall i :: 0 <= i < |out| - 1 ==>
            out[i].Some? && out[i].value.RegionSearchResultEvent? &&
            out[i].value.region in t && RegionMatches(out[i].value.region, name, code, localCode))
      && (out[|out| - 1] == Some(ErrorEvent(SearchFailed)) <==> ScanFails(all, failsAfter))
      && (!ScanFails(all, failsAfter) ==>
            out[|out| - 1] == None &&
            forall x :: x in t && RegionMatches(x, name, code, localCode) ==> Some(RegionSearchResultEvent(x)) in out)
  {
    var all := Select(t, RegionColumn, RegionQuery(name, code, localCode));
    var out := RegionSearchEvents(t, name, code, localCode, failsAfter);
    forall x | x in t
      ensures Satisfies(x, RegionColumn, RegionQuery(name, code, localCode)) <==> RegionMatches(x, name, code, localCode)
    {
      RegionQueryIsExactMatch(x, name, code, localCode);
    }
    if !ScanFails(all, failsAfter) {
      forall x | x in t && RegionMatches(x, name, code, localCode)
        ensures Some(RegionSearchResultEvent(x)) in out
      {
        var j :| 0 <= j < |all| && all[j] == x;
        assert out[j] == Some(RegionSearchResultEvent(x));
      }
    }
  }

  /** The table after a save: the written table on success, the old one otherwise. */
  function After<R>(outcome: SaveOutcome<R>, t: seq<R>): seq<R>
  {
    if outcome.Saved? then outcome.table else t
  }

  /**
   The events a handler's work amounts to: the result events it yielded, then its pending
   event, which an error left in the slot replaces by an error event carrying the message.
   */
  function Emitted(results: seq<Option<Response>>, sendBack: Option<Response>, slot: string): seq<Option<Response>>
  {
    results + [if slot != "" then Some(ErrorEvent(slot)) else sendBack]
  }

  /** The events that manage the application and its connection rather than a table. */
  predicate LifecycleEvent(e: Event)
  {
    e.QuitInitiatedEvent? || e.OpenDatabaseEvent? || e.CloseDatabaseEvent?
  }

  /**
   The event a lifecycle event produces: quitting ends the application; opening reports the
   path or why the file could not be used; closing without a connection is an error.
   */
  function LifecycleResponse(e: Event, connected: bool, open: OpenOutcome): seq<Option<Response>>
  {
    match e
    case QuitInitiatedEvent => [Some(EndApplicationEvent)]
    case OpenDatabaseEvent(path) =>
      [Some(match open
            case ConnectRaises => DatabaseOpenFailedEvent(OpenFileFailed)
            case PragmaRaises => DatabaseOpenFailedEvent(DatabaseInvalid)
            case Opens(_, _, _) => DatabaseOpenedEvent(path))]
    case CloseDatabaseEvent => [Some(if connected then DatabaseClosedEvent else ErrorEvent(CloseNotOpen))]
    case _ => []
  }

  /**
   Each lifecycle event answers with exactly one event: opening reports success exactly when
   the file opens, and closing is an error exactly when no connection is installed.
   */
  lemma LifecycleAnswers(e: Event, connected: bool, open: OpenOutcome)
    ensures var r := LifecycleResponse(e, connected, open);
      && (LifecycleEvent(e) <==> |r| == 1)
      && (LifecycleEvent(e) ==> r[0].Some?)
      && (e.OpenDatabaseEvent? ==> (r[0].value.DatabaseOpenedEvent? <==> open.Opens?))
      && (e.CloseDatabaseEvent? ==> (r[0].value.ErrorEvent? <==> !connected))
  {
  }

  /** Event kinds by the table they concern. */
  predicate ContinentEvent(e: Event)
  {
    e.StartContinentSearchEvent? || e.LoadContinentEvent? || e.SaveNewContinentEvent? || e.SaveContinentEvent?
  }

  predicate CountryEvent(e: Event)
  {
    e.StartCountrySearchEvent? || e.LoadCountryEvent? || e.SaveNewCountryEvent? || e.SaveCountryEvent?
  }

  predicate RegionEvent(e: Event)
  {
    e.StartRegionSearchEvent? || e.LoadRegionEvent? || e.SaveNewRegionEvent? || e.SaveRegionEvent?
  }

  /**
   The events a continent event produces over `t`, when the statements in `raising` raise and
   fetch number `failsAfter` of a search raises. Other events produce none here.
   */
  function ContinentResponse(e: Event, t: seq<Continent>, raising: set<Statement>, failsAfter: Option<nat>)
    : seq<Option<Response>>
  {
    match e
    case StartContinentSearchEvent(name, code) => ContinentSearchEvents(t, name, code, failsAfter)
    case LoadContinentEvent(id) =>
      [Some(if FindTarget in raising then ErrorEvent(ContinentLoadFailed) else ContinentLoadedEvent(Find(t, ContinentKey, id)))]
    case SaveNewContinentEvent(c) =>
      var o := CreateContinent(t, c, raising);
      [Some(if o.Saved? then ContinentSavedEvent(NewContinent(t, c)) else SaveContinentFailedEvent(o.message))]
    case SaveContinentEvent(c) =>
      var o := UpdateContinent(t, c, raising);
      [Some(if o.Saved? then ContinentSavedEvent(c) else SaveContinentFailedEvent(o.message))]
    case _ => []
  }

  /**
   A continent event answers with at least one event, and with exactly one unless it is a
   search. A load that does not fail reports a continent exactly when its id is stored. An
   update is reported saved only for a stored id, with the caller's record. A creation is
   reported saved under an id no row had, with the caller's other fields.
   */
  lemma ContinentAnswers(e: Event, t: seq<Continent>, raising: set<Statement>, failsAfter: Option<nat>)
    ensures var r := ContinentResponse(e, t, raising, failsAfter);
      && (ContinentEvent(e) <==> |r| >= 1)
      && (ContinentEvent(e) && !e.StartContinentSearchEvent? ==> |r| == 1 && r[0].Some?)
      && (e.LoadContinentEvent? ==>
            r[0].value.ContinentLoadedEvent? || r[0].value == ErrorEvent(ContinentLoadFailed))
      && (e.LoadContinentEvent? && r[0].value.ContinentLoadedEvent? ==>
            (r[0].value.loadedContinent.Some? <==> Present(t, ContinentKey, Some(e.continentId))))
      && (e.SaveContinentEvent? && r[0].value.ContinentSavedEvent? ==>
            Present(t, ContinentKey, e.continent.continentId) && r[0].value.continent == e.continent)
      && (e.SaveNewContinentEvent? && r[0].value.ContinentSavedEvent? ==>
            var saved := r[0].value.continent;
            !Present(t, ContinentKey, saved.continentId) && saved.(continentId := e.continent.continentId) == e.continent)
  {
  }

  /** The events a country event produces; `continents` is consulted for the reference check. */
  function CountryResponse(e: Event, continents: seq<Continent>, t: seq<Country>, raising: set<Statement>,
                           failsAfter: Option<nat>): seq<Option<Response>>
  {
    match e
    case StartCountrySearchEvent(name, code) => CountrySearchEvents(t, name, code, failsAfter)
    case LoadCountryEvent(id) =>
      [Some(if FindTarget in raising then ErrorEvent(CountryLoadFailed) else CountryLoadedEvent(Find(t, CountryKey, id)))]
    case SaveNewCountryEvent(c) =>
      var o := CreateCountry(continents, t, c, raising);
      [Some(if o.Saved? then CountrySavedEvent(NewCountry(t, c)) else SaveCountryFailedEvent(o.message))]
    case SaveCountryEvent(c) =>
      var o := UpdateCountry(continents, t, c, raising);
      [Some(if o.Saved? then CountrySavedEvent(c) else SaveCountryFailedEvent(o.message))]
    case _ => []
  }

  /**
   The country answers, as for continents; in addition a save is reported only when the
   country's continent is stored.
   */
  lemma CountryAnswers(e: Event, continents: seq<Continent>, t: seq<Country>, raising: set<Statement>,
                       failsAfter: Option<nat>)
    ensures var r := CountryResponse(e, continents, t, raising, failsAfter);
      && (CountryEvent(e) <==> |r| >= 1)
      && (CountryEvent(e) && !e.StartCountrySearchEvent? ==> |r| == 1 && r[0].Some?)
      && (e.LoadCountryEvent? ==>
            r[0].value.CountryLoadedEvent? || r[0].value == ErrorEvent(CountryLoadFailed))
      && (e.LoadCountryEvent? && r[0].value.CountryLoadedEvent? ==>
            (r[0].value.loadedCountry.Some? <==> Present(t, CountryKey, Some(e.countryId))))
      && (e.SaveCountryEvent? && r[0].value.CountrySavedEvent? ==>
            && Present(t, CountryKey, e.country.countryId) && r[0].value.country == e.country
            && Present(continents, ContinentKey, e.country.continentId))
      && (e.SaveNewCountryEvent? && r[0].value.CountrySavedEvent? ==>
            var saved := r[0].value.country;
            && !Present(t, CountryKey, saved.countryId) && saved.(countryId := e.country.countryId) == e.country
            && Present(continents, ContinentKey, e.country.continentId))
  {
  }

  /** The events a region event produces; `continents` and `countries` are consulted for the reference checks. */
  function RegionResponse(e: Event, continents: seq<Continent>, countries: seq<Country>, t: seq<Region>,
                          raising: set<Statement>, failsAfter: Option<nat>): seq<Option<Response>>
  {
    match e
    case StartRegionSearchEvent(name, code, localCode) => RegionSearchEvents(t, name, code, localCode, failsAfter)
    case LoadRegionEvent(id) =>
      [Some(if FindTarget in raising then ErrorEvent(RegionLoadFailed) else RegionLoadedEvent(Find(t, RegionKey, id)))]
    case SaveNewRegionEvent(r) =>
      var o := CreateRegion(continents, countries, t, r, raising);
      [Some(if o.Saved? then RegionSavedEvent(NewRegion(t, r)) else SaveRegionFailedEvent(o.message))]
    case SaveRegionEvent(r) =>
      var o := UpdateRegion(continents, countries, t, r, raising);
      [Some(if o.Saved? then RegionSavedEvent(r) else SaveRegionFailedEvent(o.message))]
    case _ => []
  }

  /**
   The region answers, as for continents; in addition a save is reported only when the
   region's continent and country are stored.
   */
  lemma RegionAnswers(e: Event, continents: seq<Continent>, countries: seq<Country>, t: seq<Region>,
                      raising: set<Statement>, failsAfter: Option<nat>)
    ensures var r := RegionResponse(e, continents, countries, t, raising, failsAfter);
      && (RegionEvent(e) <==> |r| >= 1)
      && (RegionEvent(e) && !e.StartRegionSearchEvent? ==> |r| == 1 && r[0].Some?)
      && (e.LoadRegionEvent? ==>
            r[0].value.RegionLoadedEvent? || r[0].value == ErrorEvent(RegionLoadFailed))
      && (e.LoadRegionEvent? && r[0].value.RegionLoadedEvent? ==>
            (r[0].value.loadedRegion.Some? <==> Present(t, RegionKey, Some(e.regionId))))
      && (e.SaveRegionEvent? && r[0].value.RegionSavedEvent? ==>
            && Present(t, RegionKey, e.region.regionId) && r[0].value.region == e.region
            && Present(continents, ContinentKey, e.region.continentId)
            && Present(countries, CountryKey, e.region.countryId))
      && (e.SaveNewRegionEvent? && r[0].value.RegionSavedEvent? ==>
            var saved := r[0].value.region;
            && !Present(t, RegionKey, saved.regionId) && saved.(regionId := e.region.regionId) == e.region
            && Present(continents, ContinentKey, e.region.continentId)
            && Present(countries, CountryKey, e.region.countryId))
  {
  }

  /** Each table after an event: a save that went through replaces it; every other event leaves it. */
  function ContinentsAfter(e: Event, t: seq<Continent>, raising: set<Statement>): seq<Continent>
  {
    match e
    case SaveNewContinentEvent(c) => After(CreateContinent(t, c, raising), t)
    case SaveContinentEvent(c) => After(UpdateContinent(t, c, raising), t)
    case _ => t
  }

  function CountriesAfter(e: Event, continents: seq<Continent>, t: seq<Country>, raising: set<Statement>): seq<Country>
  {
    match e
    case SaveNewCountryEvent(c) => After(CreateCountry(continents, t, c, raising), t)
    case SaveCountryEvent(c) => After(UpdateCountry(continents, t, c, raising), t)
    case _ => t
  }

  function RegionsAfter(e: Event, continents: seq<Continent>, countries: seq<Country>, t: seq<Region>,
                        raising: set<Statement>): seq<Region>
  {
    match e
    case SaveNewRegionEvent(r) => After(CreateRegion(continents, countries, t, r, raising), t)
    case SaveRegionEvent(r) => After(UpdateRegion(continents, countries, t, r, raising), t)
    case _ => t
  }

  /**
   The staged record after an event: a create that got past the checks stages the record it
   writes (before the write is attempted); every other event leaves the staged record.
   */
  function Staged(e: Event, continents: seq<Continent>, countries: seq<Country>, regions: seq<Region>,
                  raising: set<Statement>, staged: Option<Row>): Option<Row>
  {
    match e
    case SaveNewContinentEvent(c) =>
      if CreateContinent(continents, c, raising).Refused? then staged else Some(ContinentRow(NewContinent(continents, c)))
    case SaveNewCountryEvent(c) =>
      if CreateCountry(continents, countries, c, raising).Refused? then staged else Some(CountryRow(NewCountry(countries, c)))
    case SaveNewRegionEvent(r) =>
      if CreateRegion(continents, countries, regions, r, raising).Refused? then staged
      else Some(RegionRow(NewRegion(regions, r)))
    case _ => staged
  }

  /**
   Only a creation changes the staged record, and the record it stages has an id no row of its
   table has and otherwise the caller's fields.
   */
  lemma StagedIsFresh(e: Event, continents: seq<Continent>, countries: seq<Country>, regions: seq<Region>,
                      raising: set<Statement>, staged: Option<Row>)
    ensures var s := Staged(e, continents, countries, regions, raising, staged);
      && (!(e.SaveNewContinentEvent? || e.SaveNewCountryEvent? || e.SaveNewRegionEvent?) ==> s == staged)
      && (e.SaveNewContinentEvent? && s != staged ==>
            && s.Some? && s.value.ContinentRow?
            && !Present(continents, ContinentKey, s.value.continent.continentId)
            && s.value.continent.(continentId := e.continent.continentId) == e.continent)
      && (e.SaveNewCountryEvent? && s != staged ==>
            && s.Some? && s.value.CountryRow?
            && !Present(countries, CountryKey, s.value.country.countryId)
            && s.value.country.(countryId := e.country.countryId) == e.country)
      && (e.SaveNewRegionEvent? && s != staged ==>
            && s.Some? && s.value.RegionRow?
            && !Present(regions, RegionKey, s.value.region.regionId)
            && s.value.region.(regionId := e.region.regionId) == e.region)
  {
  }

  class Engine {
    /** A connection is installed. */
    var connected: bool
    /** The installed connection has been closed; closing leaves it installed. */
    var closed: bool
    /** The error slot; the empty string means no error. */
    var errorEncountered: string
    /** The record most recently staged for creation. */
    var tempRow: Option<Row>
    /** The tables behind the installed connection, in storage order. */
    var continents: seq<Continent>
    var countries: seq<Country>
    var regions: seq<Region>

    /** Every table keeps its primary-key discipline. */
    ghost predicate Valid()
      reads this
    {
      WellKeyed(continents, ContinentKey) && WellKeyed(countries, CountryKey) && WellKeyed(regions, RegionKey)
    }

    /** Every stored reference names an existing row. */
    ghost predicate Intact()
      reads this
    {
      ReferencesIntact(continents, countries, regions)
    }

    /** On a closed connection every statement raises. */
    function Raising(raising: set<Statement>): set<Statement>
      reads this
    {
      if closed then AllStatements else raising
    }

    /** On a closed connection a search raises before its first row. */
    function FailsAfter(failsAfter: Option<nat>): Option<nat>
      reads this
    {
      if closed then Some(0) else failsAfter
    }

    constructor ()
      ensures Valid() && !connected && !closed
      ensures errorEncountered == "" && tempRow == None
    {
      connected, closed := false, false;
      errorEncountered := "";
      tempRow := None;
      continents, countries, regions := [], [], [];
    }

    /** Open the file at `path`; `outcome` says how the attempt ends. */
    method OpenDatabase(path: string, outcome: OpenOutcome) returns (ok: bool)
      requires Valid()
      requires outcome.Opens? ==>
        WellKeyed(outcome.continents, ContinentKey) && WellKeyed(outcome.countries, CountryKey) &&
        WellKeyed(outcome.regions, RegionKey)
      modifies this
      ensures Valid()
      ensures ok <==> outcome.Opens?
      ensures outcome.ConnectRaises? ==>
        && errorEncountered == OpenFileFailed
        && connected == old(connected) && closed == old(closed)
        && continents == old(continents) && countries == old(countries) && regions == old(regions)
      ensures outcome.PragmaRaises? ==>
        && errorEncountered == DatabaseInvalid && !connected && closed == old(closed)
        && continents == old(continents) && countries == old(countries) && regions == old(regions)
      ensures outcome.Opens? ==>
        && connected && !closed && errorEncountered == old(errorEncountered)
        && continents == outcome.continents && countries == outcome.countries && regions == outcome.regions
      ensures tempRow == old(tempRow)
    {
      match outcome
      case ConnectRaises =>
        errorEncountered := OpenFileFailed;
        return false;
      case PragmaRaises =>
        errorEncountered := DatabaseInvalid;
        connected := false;
        return false;
      case Opens(cs, ks, rs) =>
        connected, closed := true, false;
        continents, countries, regions := cs, ks, rs;
        return true;
    }

    /** Close the installed connection; with none installed, only set the error slot. */
    method CloseDatabase()
      modifies this`closed, this`errorEncountered
      ensures old(connected) ==> closed && errorEncountered == old(errorEncountered)
      ensures !old(connected) ==> closed == old(closed) && errorEncountered == CloseNotOpen
    {
      if connected {
        closed := true;
      } else {
        errorEncountered := CloseNotOpen;
      }
    }

    /** The matching continents, as many as the scan delivers before it raises. */
    method SearchContinents(name: Text, code: Text, failsAfter: Option<nat>) returns (found: seq<Continent>)
      requires connected || (name.None? && code.None?)
      modifies this`errorEncountered
      ensures name.None? && code.None? ==> found == [] && errorEncountered == InvalidSearch
      ensures name.Some? || code.Some? ==>
        var all := Select(continents, ContinentColumn, ContinentQuery(name, code));
        && found == Truncated(all, FailsAfter(failsAfter))
        && errorEncountered == if ScanFails(all, FailsAfter(failsAfter)) then SearchFailed else old(errorEncountered)
    {
      if code.None? && name.None? {
        errorEncountered := InvalidSearch;
        return [];
      }
      var failed;
      found, failed := Fetch(continents, ContinentColumn, ContinentQuery(name, code), FailsAfter(failsAfter));
      if failed {
        errorEncountered := SearchFailed;
      }
    }

    method SearchCountries(name: Text, code: Text, failsAfter: Option<nat>) returns (found: seq<Country>)
      requires connected || (name.None? && code.None?)
      modifies this`errorEncountered
      ensures name.None? && code.None? ==> found == [] && errorEncountered == InvalidSearch
      ensures name.Some? || code.Some? ==>
        var all := Select(countries, CountryColumn, CountryQuery(name, code));
        && found == Truncated(all, FailsAfter(failsAfter))
        && errorEncountered == if ScanFails(all, FailsAfter(failsAfter)) then SearchFailed else old(errorEncountered)
    {
      if code.None? && name.None? {
        errorEncountered := InvalidSearch;
        return [];
      }
      var failed;
      found, failed := Fetch(countries, CountryColumn, CountryQuery(name, code), FailsAfter(failsAfter));
      if failed {
        errorEncountered := SearchFailed;
      }
    }

    method SearchRegions(name: Text, code: Text, localCode: Text, failsAfter: Option<nat>) returns (found: seq<Region>)
      requires connected || (name.None? && code.None? && localCode.None?)
      modifies this`errorEncountered
      ensures name.None? && code.None? && localCode.None? ==> found == [] && errorEncountered == InvalidSearch
      ensures name.Some? || code.Some? || localCode.Some? ==>
        var all := Select(regions, RegionColumn, RegionQuery(name, code, localCode));
        && found == Truncated(all, FailsAfter(failsAfter))
        && errorEncountered == if ScanFails(all, FailsAfter(failsAfter)) then SearchFailed else old(errorEncountered)
    {
      if code.None? && name.None? && localCode.None? {
        errorEncountered := InvalidSearch;
        return [];
      }
      var failed;
      found, failed := Fetch(regions, RegionColumn, RegionQuery(name, code, localCode), FailsAfter(failsAfter));
      if failed {
        errorEncountered := SearchFailed;
      }
    }

    /** The continent with id `id`; if the lookup raises, nothing and an error. */
    method LoadContinent(id: int, raising: set<Statement>) returns (c: Option<Continent>)
      requires connected
      requires FindTarget in Raising(raising) || Present(continents, ContinentKey, Some(id))
      modifies this`errorEncountered
      ensures FindTarget in Raising(raising) ==> c == None && errorEncountered == ContinentLoadFailed
      ensures FindTarget !in Raising(raising) ==>
        && c.Some? && c.value in continents && c.value.continentId == Some(id)
        && c == Find(continents, ContinentKey, id)
        && errorEncountered == old(errorEncountered)
    {
      if FindTarget in Raising(raising) {
        errorEncountered := ContinentLoadFailed;
        return None;
      }
      c := Find(continents, ContinentKey, id);
    }

    method LoadCountry(id: int, raising: set<Statement>) returns (c: Option<Country>)
      requires connected
      requires FindTarget in Raising(raising) || Present(countries, CountryKey, Some(id))
      modifies this`errorEncountered
      ensures FindTarget in Raising(raising) ==> c == None && errorEncountered == CountryLoadFailed
      ensures FindTarget !in Raising(raising) ==>
        && c.Some? && c.value in countries && c.value.countryId == Some(id)
        && c == Find(countries, CountryKey, id)
        && errorEncountered == old(errorEncountered)
    {
      if FindTarget in Raising(raising) {
        errorEncountered := CountryLoadFailed;
        return None;
      }
      c := Find(countries, CountryKey, id);
    }

    method LoadRegion(id: int, raising: set<Statement>) returns (r: Option<Region>)
      requires connected
      requires FindTarget in Raising(raising) || Present(regions, RegionKey, Some(id))
      modifies this`errorEncountered
      ensures FindTarget in Raising(raising) ==> r == None && errorEncountered == RegionLoadFailed
      ensures FindTarget !in Raising(raising) ==>
        && r.Some? && r.value in regions && r.value.regionId == Some(id)
        && r == Find(regions, RegionKey, id)
        && errorEncountered == old(errorEncountered)
    {
      if FindTarget in Raising(raising) {
        errorEncountered := RegionLoadFailed;
        return None;
      }
      r := Find(regions, RegionKey, id);
    }

    /** Create (`isNew`) or overwrite a continent. */
    method SaveContinent(c: Continent, isNew: bool, raising: set<Statement>) returns (ok: bool)
      requires Valid() && connected
      modifies this
      ensures Valid()
      ensures var outcome := if isNew then CreateContinent(old(continents), c, Raising(raising))
                             else UpdateContinent(old(continents), c, Raising(raising));
        && (ok <==> outcome.Saved?)
        && continents == (if ok then outcome.table else old(continents))
        && errorEncountered == (if ok then old(errorEncountered) else outcome.message)
        && tempRow == if isNew && !outcome.Refused? then Some(ContinentRow(NewContinent(old(continents), c)))
                      else old(tempRow)
      ensures countries == old(countries) && regions == old(regions)
      ensures connected == old(connected) && closed == old(closed)
    {
      var raising := Raising(raising);
      if isNew {
        if IdScan in raising {
          errorEncountered := ContinentTableInvalid;
          return false;
        }
        var id := NextId(continents, ContinentKey);
        var row := c.(continentId := Some(id));
        tempRow := Some(ContinentRow(row));
        if Write in raising {
          errorEncountered := DuplicateContinent;
          return false;
        }
        AppendKeepsWellKeyed(continents, ContinentKey, row);
        continents := continents + [row];
      } else {
        if FindTarget in raising || !Present(continents, ContinentKey, c.continentId) {
          errorEncountered := ContinentNotFound;
          return false;
        }
        if Write in raising {
          errorEncountered := DuplicateContinent;
          return false;
        }
        UpdateContinentOverwritesInPlace(continents, c, raising);
        continents := Overwrite(continents, ContinentKey, c);
      }
      ok := true;
    }

    /** Create (`isNew`) or overwrite a country after checking its continent. */
    method SaveCountry(c: Country, isNew: bool, raising: set<Statement>) returns (ok: bool)
      requires Valid() && connected
      modifies this
      ensures Valid()
      ensures var outcome := if isNew then CreateCountry(old(continents), old(countries), c, Raising(raising))
                             else UpdateCountry(old(continents), old(countries), c, Raising(raising));
        && (ok <==> outcome.Saved?)
        && countries == (if ok then outcome.table else old(countries))
        && errorEncountered == (if ok then old(errorEncountered) else outcome.message)
        && tempRow == if isNew && !outcome.Refused? then Some(CountryRow(NewCountry(old(countries), c)))
                      else old(tempRow)
      ensures continents == old(continents) && regions == old(regions)
      ensures connected == old(connected) && closed == old(closed)
    {
      var raising := Raising(raising);
      if isNew {
        if IdScan in raising {
          errorEncountered := CountryTableInvalid;
          return false;
        }
        var id := NextId(countries, CountryKey);
        if FindContinent in raising || !Present(continents, ContinentKey, c.continentId) {
          errorEncountered := NewContinentRefMissing;
          return false;
        }
        var row := c.(countryId := Some(id));
        tempRow := Some(CountryRow(row));
        if Write in raising {
          errorEncountered := DuplicateCountry;
          return false;
        }
        AppendKeepsWellKeyed(countries, CountryKey, StoredCountry(row));
        countries := countries + [StoredCountry(row)];
      } else {
        if FindTarget in raising || !Present(countries, CountryKey, c.countryId) {
          errorEncountered := CountryNotFound;
          return false;
        }
        if FindContinent in raising || !Present(continents, ContinentKey, c.continentId) {
          errorEncountered := ContinentRefMissing;
          return false;
        }
        if Write in raising {
          errorEncountered := DuplicateCountry;
          return false;
        }
        UpdateCountryOverwritesInPlace(continents, countries, c, raising);
        countries := Overwrite(countries, CountryKey, StoredCountry(c));
      }
      ok := true;
    }

    /** Create (`isNew`) or overwrite a region after checking its continent and country. */
    method SaveRegion(r: Region, isNew: bool, raising: set<Statement>) returns (ok: bool)
      requires Valid() && connected
      modifies this
      ensures Valid()
      ensures var outcome := if isNew then CreateRegion(old(continents), old(countries), old(regions), r, Raising(raising))
                             else UpdateRegion(old(continents), old(countries), old(regions), r, Raising(raising));
        && (ok <==> outcome.Saved?)
        && regions == (if ok then outcome.table else old(regions))
        && errorEncountered == (if ok then old(errorEncountered) else outcome.message)
        && tempRow == if isNew && !outcome.Refused? then Some(RegionRow(NewRegion(old(regions), r)))
                      else old(tempRow)
      ensures continents == old(continents) && countries == old(countries)
      ensures connected == old(connected) && closed == old(closed)
    {
      var raising := Raising(raising);
      if isNew {
        if IdScan in raising {
          errorEncountered := RegionTableInvalid;
          return false;
        }
        var id := NextId(regions, RegionKey);
        if FindContinent in raising || !Present(continents, ContinentKey, r.continentId) {
          errorEncountered := NewContinentRefMissing;
          return false;
        }
        if FindCountry in raising || !Present(countries, CountryKey, r.countryId) {
          errorEncountered := NewCountryRefMissing;
          return false;
        }
        var row := r.(regionId := Some(id));
        tempRow := Some(RegionRow(row));
        if Write in raising {
          errorEncountered := DuplicateRegion;
          return false;
        }
        AppendKeepsWellKeyed(regions, RegionKey, StoredRegion(row));
        regions := regions + [StoredRegion(row)];
      } else {
        if FindTarget in raising || !Present(regions, RegionKey, r.regionId) {
          errorEncountered := RegionNotFound;
          return false;
        }
        if FindContinent in raising || !Present(continents, ContinentKey, r.continentId) {
          errorEncountered := ContinentRefMissing;
          return false;
        }
        if FindCountry in raising || !Present(countries, CountryKey, r.countryId) {
          errorEncountered := CountryRefMissing;
          return false;
        }
        if Write in raising {
          errorEncountered := DuplicateRegion;
          return false;
        }
        UpdateRegionOverwritesInPlace(continents, countries, regions, r, raising);
        regions := Overwrite(regions, RegionKey, StoredRegion(r));
      }
      ok := true;
    }

    /** Drain a continent search: one result event per row delivered, in order. */
    method ContinentResultEvents(found: seq<Continent>) returns (results: seq<Option<Response>>)
      ensures results == ContinentResults(found)
    {
      results := [];
      var k := 0;
      while k < |found|
        invariant 0 <= k <= |found|
        invariant results == ContinentResults(found[..k])
      {
        assert found[..k + 1][..k] == found[..k];
        results := results + [Some(ContinentSearchResultEvent(found[k]))];
        k := k + 1;
      }
      assert found[..k] == found;
    }

    /** Drain a country search: one result event per row delivered, in order. */
    method CountryResultEvents(found: seq<Country>) returns (results: seq<Option<Response>>)
      ensures results == CountryResults(found)
    {
      results := [];
      var k := 0;
      while k < |found|
        invariant 0 <= k <= |found|
        invariant results == CountryResults(found[..k])
      {
        assert found[..k + 1][..k] == found[..k];
        results := results + [Some(CountrySearchResultEvent(found[k]))];
        k := k + 1;
      }
      assert found[..k] == found;
    }

    /** Drain a region search: one result event per row delivered, in order. */
    method RegionResultEvents(found: seq<Region>) returns (results: seq<Option<Response>>)
      ensures results == RegionResults(found)
    {
      results := [];
      var k := 0;
      while k < |found|
        invariant 0 <= k <= |found|
        invariant results == RegionResults(found[..k])
      {
        assert found[..k + 1][..k] == found[..k];
        results := results + [Some(RegionSearchResultEvent(found[k]))];
        k := k + 1;
      }
      assert found[..k] == found;
    }

    /** What the engine demands of the event it is handed and of its surroundings. */
    ghost predicate Ready(e: Event, env: Environment)
      reads this
    {
      && (NeedsConnection(e) ==> connected)
      && (e.OpenDatabaseEvent? && env.open.Opens? ==>
            WellKeyed(env.open.continents, ContinentKey) && WellKeyed(env.open.countries, CountryKey) &&
            WellKeyed(env.open.regions, RegionKey))
      && (e.LoadContinentEvent? ==>
            FindTarget in Raising(env.raising) || Present(continents, ContinentKey, Some(e.continentId)))
      && (e.LoadCountryEvent? ==>
            FindTarget in Raising(env.raising) || Present(countries, CountryKey, Some(e.countryId)))
      && (e.LoadRegionEvent? ==>
            FindTarget in Raising(env.raising) || Present(regions, RegionKey, Some(e.regionId)))
    }

    /** The continent cases of `ProcessEvent`: the result events, the pending event and the error slot they leave. */
    method HandleContinentEvent(e: Event, env: Environment) returns (results: seq<Option<Response>>, sendBack: Option<Response>)
      requires Valid() && Ready(e, env) && ContinentEvent(e) && errorEncountered == ""
      modifies this
      ensures Valid()
      ensures old(Intact()) ==> Intact()
      ensures countries == old(countries) && regions == old(regions)
      ensures connected == old(connected) && closed == old(closed)
      ensures sendBack.Some? ==> !sendBack.value.ErrorEvent?
      ensures e.StartContinentSearchEvent? || results == []
      ensures Emitted(results, sendBack, errorEncountered) == ContinentResponse(e, old(continents), old(Raising(env.raising)), old(FailsAfter(env.scanFailsAfter)))
      ensures continents == ContinentsAfter(e, old(continents), old(Raising(env.raising)))
      ensures tempRow == old(Staged(e, continents, countries, regions, Raising(env.raising), tempRow))
    {
      ghost var raising := Raising(env.raising);
      results, sendBack := [], None;
      match e {
      case StartContinentSearchEvent(name, code) =>
        var found := SearchContinents(name, code, env.scanFailsAfter);
        results := ContinentResultEvents(found);
      case LoadContinentEvent(id) =>
        var c := LoadContinent(id, env.raising);
        sendBack := Some(ContinentLoadedEvent(c));
      case SaveNewContinentEvent(c) =>
        var ok := SaveContinent(c, true, env.raising);
        sendBack := Some(if ok then ContinentSavedEvent(tempRow.value.continent) else SaveContinentFailedEvent(errorEncountered));
        errorEncountered := "";
        if ok && old(Intact()) {
          ContinentWritesKeepReferences(old(continents), old(countries), old(regions), c, true, raising);
        }
      case SaveContinentEvent(c) =>
        var ok := SaveContinent(c, false, env.raising);
        sendBack := Some(if ok then ContinentSavedEvent(c) else SaveContinentFailedEvent(errorEncountered));
        errorEncountered := "";
        if ok && old(Intact()) {
          ContinentWritesKeepReferences(old(continents), old(countries), old(regions), c, false, raising);
        }
      }
    }

    /** The country cases of `ProcessEvent`: the result events, the pending event and the error slot they leave. */
    method HandleCountryEvent(e: Event, env: Environment) returns (results: seq<Option<Response>>, sendBack: Option<Response>)
      requires Valid() && Ready(e, env) && CountryEvent(e) && errorEncountered == ""
      modifies this
      ensures Valid()
      ensures old(Intact()) ==> Intact()
      ensures continents == old(continents) && regions == old(regions)
      ensures connected == old(connected) && closed == old(closed)
      ensures sendBack.Some? ==> !sendBack.value.ErrorEvent?
      ensures e.StartCountrySearchEvent? || results == []
      ensures Emitted(results, sendBack, errorEncountered) == CountryResponse(e, old(continents), old(countries), old(Raising(env.raising)), old(FailsAfter(env.scanFailsAfter)))
      ensures countries == CountriesAfter(e, old(continents), old(countries), old(Raising(env.raising)))
      ensures tempRow == old(Staged(e, continents, countries, regions, Raising(env.raising), tempRow))
    {
      ghost var raising := Raising(env.raising);
      results, sendBack := [], None;
      match e {
      case StartCountrySearchEvent(name, code) =>
        var found := SearchCountries(name, code, env.scanFailsAfter);
        results := CountryResultEvents(found);
      case LoadCountryEvent(id) =>
        var c := LoadCountry(id, env.raising);
        sendBack := Some(CountryLoadedEvent(c));
      case SaveNewCountryEvent(c) =>
        var ok := SaveCountry(c, true, env.raising);
        sendBack := Some(if ok then CountrySavedEvent(tempRow.value.country) else SaveCountryFailedEvent(errorEncountered));
        errorEncountered := "";
        if ok && old(Intact()) {
          CountryWritesKeepReferences(old(continents), old(countries), old(regions), c, true, raising);
        }
      case SaveCountryEvent(c) =>
        var ok := SaveCountry(c, false, env.raising);
        sendBack := Some(if ok then CountrySavedEvent(c) else SaveCountryFailedEvent(errorEncountered));
        errorEncountered := "";
        if ok && old(Intact()) {
          CountryWritesKeepReferences(old(continents), old(countries), old(regions), c, false, raising);
        }
      }
    }

    /** The region cases of `ProcessEvent`: the result events, the pending event and the error slot they leave. */
    method HandleRegionEvent(e: Event, env: Environment) returns (results: seq<Option<Response>>, sendBack: Option<Response>)
      requires Valid() && Ready(e, env) && RegionEvent(e) && errorEncountered == ""
      modifies this
      ensures Valid()
      ensures old(Intact()) ==> Intact()
      ensures continents == old(continents) && countries == old(countries)
      ensures connected == old(connected) && closed == old(closed)
      ensures sendBack.Some? ==> !sendBack.value.ErrorEvent?
      ensures e.StartRegionSearchEvent? || results == []
      ensures Emitted(results, sendBack, errorEncountered) == RegionResponse(e, old(continents), old(countries), old(regions), old(Raising(env.raising)), old(FailsAfter(env.scanFailsAfter)))
      ensures regions == RegionsAfter(e, old(continents), old(countries), old(regions), old(Raising(env.raising)))
      ensures tempRow == old(Staged(e, continents, countries, regions, Raising(env.raising), tempRow))
    {
      ghost var raising := Raising(env.raising);
      results, sendBack := [], None;
      match e {
      case StartRegionSearchEvent(name, code, localCode) =>
        var found := SearchRegions(name, code, localCode, env.scanFailsAfter);
        results := RegionResultEvents(found);
      case LoadRegionEvent(id) =>
        var r := LoadRegion(id, env.raising);
        sendBack := Some(RegionLoadedEvent(r));
      case SaveNewRegionEvent(r) =>
        var ok := SaveRegion(r, true, env.raising);
        sendBack := Some(if ok then RegionSavedEvent(tempRow.value.region) else SaveRegionFailedEvent(errorEncountered));
        errorEncountered := "";
        if ok && old(Intact()) {
          RegionWritesKeepReferences(old(continents), old(countries), old(regions), r, true, raising);
        }
      case SaveRegionEvent(r) =>
        var ok := SaveRegion(r, false, env.raising);
        sendBack := Some(if ok then RegionSavedEvent(r) else SaveRegionFailedEvent(errorEncountered));
        errorEncountered := "";
        if ok && old(Intact()) {
          RegionWritesKeepReferences(old(continents), old(countries), old(regions), r, false, raising);
        }
      }
    }

    /** The lifecycle cases of `ProcessEvent`: the pending event and the error slot they leave. */
    method HandleLifecycleEvent(e: Event, env: Environment) returns (sendBack: Option<Response>)
      requires Valid() && Ready(e, env) && LifecycleEvent(e) && errorEncountered == ""
      modifies this
      ensures Valid()
      ensures sendBack.Some? ==> !sendBack.value.ErrorEvent?
      ensures Emitted([], sendBack, errorEncountered) == LifecycleResponse(e, old(connected), env.open)
      ensures tempRow == old(tempRow)
      ensures e.OpenDatabaseEvent? && env.open.Opens? ==>
        continents == env.open.continents && countries == env.open.countries && regions == env.open.regions
      ensures !(e.OpenDatabaseEvent? && env.open.Opens?) ==>
        continents == old(continents) && countries == old(countries) && regions == old(regions)
      ensures e.OpenDatabaseEvent? ==> match env.open
        case ConnectRaises => connected == old(connected) && closed == old(closed)
        case PragmaRaises => !connected && closed == old(closed)
        case Opens(_, _, _) => connected && !closed
      ensures e.CloseDatabaseEvent? ==> connected == old(connected) && closed == (old(closed) || old(connected))
      ensures e.QuitInitiatedEvent? ==> connected == old(connected) && closed == old(closed)
    {
      if e.QuitInitiatedEvent? {
        sendBack := Some(EndApplicationEvent);
      } else if e.OpenDatabaseEvent? {
        var ok := OpenDatabase(e.path, env.open);
        sendBack := Some(if ok then DatabaseOpenedEvent(e.path) else DatabaseOpenFailedEvent(errorEncountered));
        errorEncountered := "";
      } else {
        CloseDatabase();
        sendBack := Some(DatabaseClosedEvent);
      }
    }

    /** Route an event to the handler for its kind; the slot is still to be read. */
    method Dispatch(e: Event, env: Environment) returns (results: seq<Option<Response>>, sendBack: Option<Response>)
      requires Valid() && Ready(e, env) && errorEncountered == ""
      modifies this
      ensures Valid()
      ensures !e.OpenDatabaseEvent? && old(Intact()) ==> Intact()
      ensures sendBack.Some? ==> !sendBack.value.ErrorEvent?
      ensures !(e.StartContinentSearchEvent? || e.StartCountrySearchEvent? || e.StartRegionSearchEvent?) ==> results == []
      ensures LifecycleEvent(e) ==> Emitted(results, sendBack, errorEncountered) == LifecycleResponse(e, old(connected), env.open)
      ensures ContinentEvent(e) ==> Emitted(results, sendBack, errorEncountered) == ContinentResponse(e, old(continents), old(Raising(env.raising)), old(FailsAfter(env.scanFailsAfter)))
      ensures CountryEvent(e) ==> Emitted(results, sendBack, errorEncountered) == CountryResponse(e, old(continents), old(countries), old(Raising(env.raising)), old(FailsAfter(env.scanFailsAfter)))
      ensures RegionEvent(e) ==> Emitted(results, sendBack, errorEncountered) == RegionResponse(e, old(continents), old(countries), old(regions), old(Raising(env.raising)), old(FailsAfter(env.scanFailsAfter)))
      // The new state.
      ensures continents ==
        if e.OpenDatabaseEvent? then (if env.open.Opens? then env.open.continents else old(continents))
        else ContinentsAfter(e, old(continents), old(Raising(env.raising)))
      ensures countries ==
        if e.OpenDatabaseEvent? then (if env.open.Opens? then env.open.countries else old(countries))
        else CountriesAfter(e, old(continents), old(countries), old(Raising(env.raising)))
      ensures regions ==
        if e.OpenDatabaseEvent? then (if env.open.Opens? then env.open.regions else old(regions))
        else RegionsAfter(e, old(continents), old(countries), old(regions), old(Raising(env.raising)))
      ensures tempRow == old(Staged(e, continents, countries, regions, Raising(env.raising), tempRow))
      ensures e.OpenDatabaseEvent? ==> match env.open
        case ConnectRaises => connected == old(connected) && closed == old(closed)
        case PragmaRaises => !connected && closed == old(closed)
        case Opens(_, _, _) => connected && !closed
      ensures e.CloseDatabaseEvent? ==> connected == old(connected) && closed == (old(closed) || old(connected))
      ensures !e.OpenDatabaseEvent? && !e.CloseDatabaseEvent? ==> connected == old(connected) && closed == old(closed)
    {
      results := [];
      if LifecycleEvent(e) {
        sendBack := HandleLifecycleEvent(e, env);
      } else if ContinentEvent(e) {
        results, sendBack := HandleContinentEvent(e, env);
      } else if CountryEvent(e) {
        results, sendBack := HandleCountryEvent(e, env);
      } else {
        results, sendBack := HandleRegionEvent(e, env);
      }
    }

    /**
     Handle one event from the user interface and produce the events sent back, in order. The
     last event is the pending one, or an error event when the slot is set at the end; a search
     yields its results before it.
     */
    method ProcessEvent(e: Event, env: Environment) returns (out: seq<Option<Response>>)
      requires Valid() && Ready(e, env)
      modifies this
      ensures Valid()
      ensures !e.OpenDatabaseEvent? && old(Intact()) ==> Intact()
      // The error slot: set at the end exactly when the last event is the error event carrying it.
      ensures |out| >= 1
      ensures errorEncountered != "" <==> out[|out| - 1].Some? && out[|out| - 1].value.ErrorEvent?
      ensures errorEncountered != "" ==> out[|out| - 1] == Some(ErrorEvent(errorEncountered))
      ensures !(e.StartContinentSearchEvent? || e.StartCountrySearchEvent? || e.StartRegionSearchEvent?) ==> |out| == 1
      // The events sent back.
      ensures LifecycleEvent(e) ==> out == LifecycleResponse(e, old(connected), env.open)
      ensures ContinentEvent(e) ==> out == ContinentResponse(e, old(continents), old(Raising(env.raising)), old(FailsAfter(env.scanFailsAfter)))
      ensures CountryEvent(e) ==> out == CountryResponse(e, old(continents), old(countries), old(Raising(env.raising)), old(FailsAfter(env.scanFailsAfter)))
      ensures RegionEvent(e) ==> out == RegionResponse(e, old(continents), old(countries), old(regions), old(Raising(env.raising)), old(FailsAfter(env.scanFailsAfter)))
      // The new state.
      ensures continents ==
        if e.OpenDatabaseEvent? then (if env.open.Opens? then env.open.continents else old(continents))
        else ContinentsAfter(e, old(continents), old(Raising(env.raising)))
      ensures countries ==
        if e.OpenDatabaseEvent? then (if env.open.Opens? then env.open.countries else old(countries))
        else CountriesAfter(e, old(continents), old(countries), old(Raising(env.raising)))
      ensures regions ==
        if e.OpenDatabaseEvent? then (if env.open.Opens? then env.open.regions else old(regions))
        else RegionsAfter(e, old(continents), old(countries), old(regions), old(Raising(env.raising)))
      ensures tempRow == old(Staged(e, continents, countries, regions, Raising(env.raising), tempRow))
      ensures e.OpenDatabaseEvent? ==> match env.open
        case ConnectRaises => connected == old(connected) && closed == old(closed)
        case PragmaRaises => !connected && closed == old(closed)
        case Opens(_, _, _) => connected && !closed
      ensures e.CloseDatabaseEvent? ==> connected == old(connected) && closed == (old(closed) || old(connected))
      ensures !e.OpenDatabaseEvent? && !e.CloseDatabaseEvent? ==> connected == old(connected) && closed == old(closed)
    {
      ghost var raising, failsAfter := Raising(env.raising), FailsAfter(env.scanFailsAfter);
      errorEncountered := "";
      assert Raising(env.raising) == raising && FailsAfter(env.scanFailsAfter) == failsAfter;
      var results, sendBack := Dispatch(e, env);
      ghost var emitted := Emitted(results, sendBack, errorEncountered);
      if errorEncountered != "" {
        sendBack := Some(ErrorEvent(errorEncountered));
      }
      out := results + [sendBack];
      assert out == emitted;
    }
  }
}
