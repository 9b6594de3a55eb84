/**
 The events the user interface sends to the engine and the events the engine sends back,
 with the messages the engine puts into failure and error events.
 */
module Events {
  import opened Wrappers
  import opened Records

  /** An intent from the user interface. */
  datatype Event =
    | QuitInitiatedEvent
    | OpenDatabaseEvent(path: string)
    | CloseDatabaseEvent
    | StartContinentSearchEvent(name: Text, continentCode: Text)
    | LoadContinentEvent(continentId: int)
    | SaveNewContinentEvent(continent: Continent)
    | SaveContinentEvent(continent: Continent)
    | StartCountrySearchEvent(name: Text, countryCode: Text)
    | LoadCountryEvent(countryId: int)
    | SaveNewCountryEvent(country: Country)
    | SaveCountryEvent(country: Country)
    | StartRegionSearchEvent(name: Text, regionCode: Text, localCode: Text)
    | LoadRegionEvent(regionId: int)
    | SaveNewRegionEvent(region: Region)
    | SaveRegionEvent(region: Region)

  /** A response to the user interface. */
  datatype Response =
    | EndApplicationEvent
    | DatabaseOpenedEvent(path: string)
    | DatabaseOpenFailedEvent(message: string)
    | DatabaseClosedEvent
    | ContinentSearchResultEvent(continent: Continent)
    | ContinentLoadedEvent(loadedContinent: Option<Continent>)
    | ContinentSavedEvent(continent: Continent)
    | SaveContinentFailedEvent(message: string)
    | CountrySearchResultEvent(country: Country)
    | CountryLoadedEvent(loadedCountry: Option<Country>)
    | CountrySavedEvent(country: Country)
    | SaveCountryFailedEvent(message: string)
    | RegionSearchResultEvent(region: Region)
    | RegionLoadedEvent(loadedRegion: Option<Region>)
    | RegionSavedEvent(region: Region)
    | SaveRegionFailedEvent(message: string)
    | ErrorEvent(message: string)

  /**
   Does handling this event use the connection? Without one, the engine would fail on a missing
   attribute. A search with no filter given is answered before any statement runs.
   */
  predicate NeedsConnection(e: Event)
  {
    match e
    case QuitInitiatedEvent => false
    case OpenDatabaseEvent(_) => false
    case CloseDatabaseEvent => false
    case StartContinentSearchEvent(name, code) => name.Some? || code.Some?
    case StartCountrySearchEvent(name, code) => name.Some? || code.Some?
    case StartRegionSearchEvent(name, code, localCode) => name.Some? || code.Some? || localCode.Some?
    case _ => true
  }

  /** One search-result event per row, in order. */
  function ContinentResults(rows: seq<Continent>): (out: seq<Option<Response>>)
    ensures |out| == |rows|
    ensures forall i :: 0 <= i < |rows| ==> out[i] == Some(ContinentSearchResultEvent(rows[i]))
  {
    if rows == [] then []
    else ContinentResults(rows[..|rows| - 1]) + [Some(ContinentSearchResultEvent(rows[|rows| - 1]))]
  }

  function CountryResults(rows: seq<Country>): (out: seq<Option<Response>>)
    ensures |out| == |rows|
    ensures forall i :: 0 <= i < |rows| ==> out[i] == Some(CountrySearchResultEvent(rows[i]))
  {
    if rows == [] then []
    else CountryResults(rows[..|rows| - 1]) + [Some(CountrySearchResultEvent(rows[|rows| - 1]))]
  }

  function RegionResults(rows: seq<Region>): (out: seq<Option<Response>>)
    ensures |out| == |rows|
    ensures forall i :: 0 <= i < |rows| ==> out[i] == Some(RegionSearchResultEvent(rows[i]))
  {
    if rows == [] then []
    else RegionResults(rows[..|rows| - 1]) + [Some(RegionSearchResultEvent(rows[|rows| - 1]))]
  }

  // Messages of the connection lifecycle.
  const OpenFileFailed := "File not found or Database Invalid."
  const DatabaseInvalid := "Database invalid."
  const CloseNotOpen := "Database cannot be closed if it has not been opened yet."

  // Messages of the searches.
  const InvalidSearch := "Invalid name/code specified."
  const SearchFailed := "Error encountered during search."

  // Messages of the loads.
  const ContinentLoadFailed := "Error encountered while loading a continent."
  const CountryLoadFailed := "Error encountered while loading a country."
  const RegionLoadFailed := "Error encountered while loading a region."

  // Messages of the saves.
  const ContinentTableInvalid := "Error continent table invalid."
  const CountryTableInvalid := "Error country table invalid."
  const RegionTableInvalid := "Error region table invalid."
  const ContinentNotFound := "Error finding continent provided."
  const CountryNotFound := "Error finding country provided."
  const RegionNotFound := "Error finding region provided."
  const NewContinentRefMissing := "Error: continent matching continent id provided does not exist!"
  const NewCountryRefMissing := "Error: country matching country id provided does not exist!"
  const ContinentRefMissing := "Error finding continent matching continent id provided."
  const CountryRefMissing := "Error finding country matching country id provided."
  const DuplicateContinent := "Error with saving your continent: Duplicate Continent Info."
  const DuplicateCountry := "Error with saving your country: Duplicate Country Info."
  const DuplicateRegion := "Error with saving your region: Duplicate Region Info."
}
