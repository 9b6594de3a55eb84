/**
 What each save path does to its table, as values: the checks it makes in order, the row it
 writes and the message it fails with. `raising` names the statements that raise a storage
 error instead of answering; `Write` in it is storage refusing the INSERT or UPDATE itself
 (a uniqueness violation, say).
 */
module Writes {
  import opened Wrappers
  import opened Records
  import opened Storage
  import opened Tables
  import opened Events

  datatype SaveOutcome<R> =
    | Saved(table: seq<R>)        // the table after the write
    | Refused(message: string)    // a statement before the write raised or a check failed
    | Rejected(message: string)   // the write itself raised

  /** The record a creation stages: the caller's fields under the next id, text not yet normalised. */
  function NewContinent(t: seq<Continent>, c: Continent): Continent
  {
    c.(continentId := Some(NextId(t, ContinentKey)))
  }

  function NewCountry(t: seq<Country>, c: Country): Country
  {
    c.(countryId := Some(NextId(t, CountryKey)))
  }

  function NewRegion(t: seq<Region>, r: Region): Region
  {
    r.(regionId := Some(NextId(t, RegionKey)))
  }

  /**
   Creating a continent: it goes through exactly when neither the id scan nor the INSERT
   raises, and then appends one row, keeping the others.
   */
  function CreateContinent(t: seq<Continent>, c: Continent, raising: set<Statement>): (o: SaveOutcome<Continent>)
    ensures o.Saved? <==> IdScan !in raising && Write !in raising
    ensures o.Saved? ==> |o.table| == |t| + 1 && o.table[..|t|] == t
    ensures o.Refused? ==> o.message == ContinentTableInvalid
    ensures IdScan in raising ==> o == Refused(ContinentTableInvalid)
    ensures IdScan !in raising && Write in raising ==> o == Rejected(DuplicateContinent)
    ensures o.Rejected? ==> o.message == DuplicateContinent
  {
    if IdScan in raising then Refused(ContinentTableInvalid)
    else if Write in raising then Rejected(DuplicateContinent)
    else Saved(t + [NewContinent(t, c)])
  }

  /** Updating a continent: it goes through only when its id is stored, and keeps the table's size. */
  function UpdateContinent(t: seq<Continent>, c: Continent, raising: set<Statement>): (o: SaveOutcome<Continent>)
    ensures o.Saved? <==> FindTarget !in raising && Present(t, ContinentKey, c.continentId) && Write !in raising
    ensures o.Saved? ==> |o.table| == |t|
    ensures o.Refused? ==> o.message == ContinentNotFound
    ensures FindTarget in raising || !Present(t, ContinentKey, c.continentId) ==> o == Refused(ContinentNotFound)
    ensures FindTarget !in raising && Present(t, ContinentKey, c.continentId) && Write in raising ==>
      o == Rejected(DuplicateContinent)
    ensures o.Rejected? ==> o.message == DuplicateContinent
  {
    if FindTarget in raising || !Present(t, ContinentKey, c.continentId) then Refused(ContinentNotFound)
    else if Write in raising then Rejected(DuplicateContinent)
    else Saved(Overwrite(t, ContinentKey, c))
  }

  /** Creating a country: it goes through only when its continent is stored, and appends one row. */
  function CreateCountry(continents: seq<Continent>, t: seq<Country>, c: Country, raising: set<Statement>)
    : (o: SaveOutcome<Country>)
    ensures o.Saved? <==>
      IdScan !in raising && FindContinent !in raising && Present(continents, ContinentKey, c.continentId) &&
      Write !in raising
    ensures o.Saved? ==> |o.table| == |t| + 1 && o.table[..|t|] == t
    ensures o.Refused? ==> o.message in {CountryTableInvalid, NewContinentRefMissing}
    ensures IdScan in raising ==> o == Refused(CountryTableInvalid)
    ensures IdScan !in raising && (FindContinent in raising || !Present(continents, ContinentKey, c.continentId)) ==>
      o == Refused(NewContinentRefMissing)
    ensures IdScan !in raising && FindContinent !in raising && Present(continents, ContinentKey, c.continentId) &&
            Write in raising ==>
      o == Rejected(DuplicateCountry)
    ensures o.Rejected? ==> o.message == DuplicateCountry
  {
    if IdScan in raising then Refused(CountryTableInvalid)
    else if FindContinent in raising || !Present(continents, ContinentKey, c.continentId) then Refused(NewContinentRefMissing)
    else if Write in raising then Rejected(DuplicateCountry)
    else Saved(t + [StoredCountry(NewCountry(t, c))])
  }

  /** Updating a country: it goes through only when its id and its continent are stored. */
  function UpdateCountry(continents: seq<Continent>, t: seq<Country>, c: Country, raising: set<Statement>)
    : (o: SaveOutcome<Country>)
    ensures o.Saved? <==>
      FindTarget !in raising && Present(t, CountryKey, c.countryId) &&
      FindContinent !in raising && Present(continents, ContinentKey, c.continentId) && Write !in raising
    ensures o.Saved? ==> |o.table| == |t|
    ensures o.Refused? ==> o.message in {CountryNotFound, ContinentRefMissing}
    ensures FindTarget in raising || !Present(t, CountryKey, c.countryId) ==> o == Refused(CountryNotFound)
    ensures FindTarget !in raising && Present(t, CountryKey, c.countryId) &&
            (FindContinent in raising || !Present(continents, ContinentKey, c.continentId)) ==>
      o == Refused(ContinentRefMissing)
    ensures FindTarget !in raising && Present(t, CountryKey, c.countryId) &&
            FindContinent !in raising && Present(continents, ContinentKey, c.continentId) && Write in raising ==>
      o == Rejected(DuplicateCountry)
    ensures o.Rejected? ==> o.message == DuplicateCountry
  {
    if FindTarget in raising || !Present(t, CountryKey, c.countryId) then Refused(CountryNotFound)
    else if FindContinent in raising || !Present(continents, ContinentKey, c.continentId) then Refused(ContinentRefMissing)
    else if Write in raising then Rejected(DuplicateCountry)
    else Saved(Overwrite(t, CountryKey, StoredCountry(c)))
  }

  /** Creating a region: it goes through only when its continent and its country are stored. */
  function CreateRegion(continents: seq<Continent>, countries: seq<Country>, t: seq<Region>, r: Region,
                        raising: set<Statement>): (o: SaveOutcome<Region>)
    ensures o.Saved? <==>
      IdScan !in raising && FindContinent !in raising && Present(continents, ContinentKey, r.continentId) &&
      FindCountry !in raising && Present(countries, CountryKey, r.countryId) && Write !in raising
    ensures o.Saved? ==> |o.table| == |t| + 1 && o.table[..|t|] == t
    ensures o.Refused? ==> o.message in {RegionTableInvalid, NewContinentRefMissing, NewCountryRefMissing}
    ensures IdScan in raising ==> o == Refused(RegionTableInvalid)
    ensures IdScan !in raising && (FindContinent in raising || !Present(continents, ContinentKey, r.continentId)) ==>
      o == Refused(NewContinentRefMissing)
    ensures IdScan !in raising && FindContinent !in raising && Present(continents, ContinentKey, r.continentId) &&
            (FindCountry in raising || !Present(countries, CountryKey, r.countryId)) ==>
      o == Refused(NewCountryRefMissing)
    ensures IdScan !in raising && FindContinent !in raising && Present(continents, ContinentKey, r.continentId) &&
            FindCountry !in raising && Present(countries, CountryKey, r.countryId) && Write in raising ==>
      o == Rejected(DuplicateRegion)
    ensures o.Rejected? ==> o.message == DuplicateRegion
  {
    if IdScan in raising then Refused(RegionTableInvalid)
    else if FindContinent in raising || !Present(continents, ContinentKey, r.continentId) then Refused(NewContinentRefMissing)
    else if FindCountry in raising || !Present(countries, CountryKey, r.countryId) then Refused(NewCountryRefMissing)
    else if Write in raising then Rejected(DuplicateRegion)
    else Saved(t + [StoredRegion(NewRegion(t, r))])
  }

  /** Updating a region: it goes through only when its id, its continent and its country are stored. */
  function UpdateRegion(continents: seq<Continent>, countries: seq<Country>, t: seq<Region>, r: Region,
                        raising: set<Statement>): (o: SaveOutcome<Region>)
    ensures o.Saved? <==>
      FindTarget !in raising && Present(t, RegionKey, r.regionId) &&
      FindContinent !in raising && Present(continents, ContinentKey, r.continentId) &&
      FindCountry !in raising && Present(countries, CountryKey, r.countryId) && Write !in raising
    ensures o.Saved? ==> |o.table| == |t|
    ensures o.Refused? ==> o.message in {RegionNotFound, ContinentRefMissing, CountryRefMissing}
    ensures FindTarget in raising || !Present(t, RegionKey, r.regionId) ==> o == Refused(RegionNotFound)
    ensures FindTarget !in raising && Present(t, RegionKey, r.regionId) &&
            (FindContinent in raising || !Present(continents, ContinentKey, r.continentId)) ==>
      o == Refused(ContinentRefMissing)
    ensures FindTarget !in raising && Present(t, RegionKey, r.regionId) &&
            FindContinent !in raising && Present(continents, ContinentKey, r.continentId) &&
            (FindCountry in raising || !Present(countries, CountryKey, r.countryId)) ==>
      o == Refused(CountryRefMissing)
    ensures FindTarget !in raising && Present(t, RegionKey, r.regionId) &&
            FindContinent !in raising && Present(continents, ContinentKey, r.continentId) &&
            FindCountry !in raising && Present(countries, CountryKey, r.countryId) && Write in raising ==>
      o == Rejected(DuplicateRegion)
    ensures o.Rejected? ==> o.message == DuplicateRegion
  {
    if FindTarget in raising || !Present(t, RegionKey, r.regionId) then Refused(RegionNotFound)
    else if FindContinent in raising || !Present(continents, ContinentKey, r.continentId) then Refused(ContinentRefMissing)
    else if FindCountry in raising || !Present(countries, CountryKey, r.countryId) then Refused(CountryRefMissing)
    else if Write in raising then Rejected(DuplicateRegion)
    else Saved(Overwrite(t, RegionKey, StoredRegion(r)))
  }

  /** Every country names an existing continent; every region names an existing continent and country. */
  predicate ReferencesIntact(continents: seq<Continent>, countries: seq<Country>, regions: seq<Region>)
  {
    (forall i :: 0 <= i < |countries| ==> Present(continents, ContinentKey, countries[i].continentId)) &&
    (forall i :: 0 <= i < |regions| ==>
      Present(continents, ContinentKey, regions[i].continentId) && Present(countries, CountryKey, regions[i].countryId))
  }

  /**
   A created continent is appended under a fresh id larger than every existing one (1 in an
   empty table), and loading that id gives it back.
   */
  lemma CreateContinentAppendsFreshRow(t: seq<Continent>, c: Continent, raising: set<Statement>)
    requires WellKeyed(t, ContinentKey)
    requires CreateContinent(t, c, raising).Saved?
    ensures var u, id := CreateContinent(t, c, raising).table, NextId(t, ContinentKey);
      && |u| == |t| + 1 && u[..|t|] == t
      && (forall i :: 0 <= i < |t| ==> t[i].continentId.value < id)
      && (t == [] ==> id == 1)
      && (t != [] ==> exists i :: 0 <= i < |t| && t[i].continentId == Some(id - 1))
      && Find(u, ContinentKey, id) == Some(NewContinent(t, c))
      && WellKeyed(u, ContinentKey)
  {
    var id := NextId(t, ContinentKey);
    FindAppended(t, ContinentKey, NewContinent(t, c), id);
    AppendKeepsWellKeyed(t, ContinentKey, NewContinent(t, c));
    assert (t + [NewContinent(t, c)])[..|t|] == t;
  }

  /** A created country is appended under a fresh id; loading it gives the caller's fields with empty keywords stored as NULL. */
  lemma CreateCountryAppendsFreshRow(continents: seq<Continent>, t: seq<Country>, c: Country, raising: set<Statement>)
    requires WellKeyed(t, CountryKey)
    requires CreateCountry(continents, t, c, raising).Saved?
    ensures var u, id := CreateCountry(continents, t, c, raising).table, NextId(t, CountryKey);
      && |u| == |t| + 1 && u[..|t|] == t
      && (forall i :: 0 <= i < |t| ==> t[i].countryId.value < id)
      && (t == [] ==> id == 1)
      && (t != [] ==> exists i :: 0 <= i < |t| && t[i].countryId == Some(id - 1))
      && Find(u, CountryKey, id) == Some(StoredCountry(NewCountry(t, c)))
      && WellKeyed(u, CountryKey)
  {
    var row := StoredCountry(NewCountry(t, c));
    FindAppended(t, CountryKey, row, NextId(t, CountryKey));
    AppendKeepsWellKeyed(t, CountryKey, row);
    assert (t + [row])[..|t|] == t;
  }

  /** A created region is appended under a fresh id; loading it gives the caller's fields with empty link and keywords stored as NULL. */
  lemma CreateRegionAppendsFreshRow(continents: seq<Continent>, countries: seq<Country>, t: seq<Region>, r: Region,
                                    raising: set<Statement>)
    requires WellKeyed(t, RegionKey)
    requires CreateRegion(continents, countries, t, r, raising).Saved?
    ensures var u, id := CreateRegion(continents, countries, t, r, raising).table, NextId(t, RegionKey);
      && |u| == |t| + 1 && u[..|t|] == t
      && (forall i :: 0 <= i < |t| ==> t[i].regionId.value < id)
      && (t == [] ==> id == 1)
      && (t != [] ==> exists i :: 0 <= i < |t| && t[i].regionId == Some(id - 1))
      && Find(u, RegionKey, id) == Some(StoredRegion(NewRegion(t, r)))
      && WellKeyed(u, RegionKey)
  {
    var row := StoredRegion(NewRegion(t, r));
    FindAppended(t, RegionKey, row, NextId(t, RegionKey));
    AppendKeepsWellKeyed(t, RegionKey, row);
    assert (t + [row])[..|t|] == t;
  }

  /**
   A successful update keeps the row count and every id, changes only the row with the
   caller's id, and loading that id gives back the caller's record.
   */
  lemma UpdateContinentOverwritesInPlace(t: seq<Continent>, c: Continent, raising: set<Statement>)
    requires WellKeyed(t, ContinentKey)
    requires UpdateContinent(t, c, raising).Saved?
    ensures var u := UpdateContinent(t, c, raising).table;
      && |u| == |t|
      && (forall i :: 0 <= i < |t| ==> u[i].continentId == t[i].continentId)
      && (forall i :: 0 <= i < |t| && t[i].continentId != c.continentId ==> u[i] == t[i])
      && Find(u, ContinentKey, c.continentId.value) == Some(c)
      && WellKeyed(u, ContinentKey)
  {
    FindOverwritten(t, ContinentKey, c, c.continentId.value);
  }

  /** A successful country update keeps ids and row count; loading the id gives the caller's record with empty keywords stored as NULL. */
  lemma UpdateCountryOverwritesInPlace(continents: seq<Continent>, t: seq<Country>, c: Country, raising: set<Statement>)
    requires WellKeyed(t, CountryKey)
    requires UpdateCountry(continents, t, c, raising).Saved?
    ensures var u := UpdateCountry(continents, t, c, raising).table;
      && |u| == |t|
      && (forall i :: 0 <= i < |t| ==> u[i].countryId == t[i].countryId)
      && (forall i :: 0 <= i < |t| && t[i].countryId != c.countryId ==> u[i] == t[i])
      && Find(u, CountryKey, c.countryId.value) == Some(StoredCountry(c))
      && WellKeyed(u, CountryKey)
  {
    FindOverwritten(t, CountryKey, StoredCountry(c), c.countryId.value);
  }

  /** A successful region update keeps ids and row count; loading the id gives the caller's record with empty text stored as NULL. */
  lemma UpdateRegionOverwritesInPlace(continents: seq<Continent>, countries: seq<Country>, t: seq<Region>, r: Region,
                                      raising: set<Statement>)
    requires WellKeyed(t, RegionKey)
    requires UpdateRegion(continents, countries, t, r, raising).Saved?
    ensures var u := UpdateRegion(continents, countries, t, r, raising).table;
      && |u| == |t|
      && (forall i :: 0 <= i < |t| ==> u[i].regionId == t[i].regionId)
      && (forall i :: 0 <= i < |t| && t[i].regionId != r.regionId ==> u[i] == t[i])
      && Find(u, RegionKey, r.regionId.value) == Some(StoredRegion(r))
      && WellKeyed(u, RegionKey)
  {
    FindOverwritten(t, RegionKey, StoredRegion(r), r.regionId.value);
  }

  /** Writing a continent never takes away a continent id, so no country or region loses its continent. */
  lemma ContinentWritesKeepReferences(continents: seq<Continent>, countries: seq<Country>, regions: seq<Region>,
                                      c: Continent, isNew: bool, raising: set<Statement>)
    requires ReferencesIntact(continents, countries, regions)
    requires (if isNew then CreateContinent(continents, c, raising) else UpdateContinent(continents, c, raising)).Saved?
    ensures ReferencesIntact(
      (if isNew then CreateContinent(continents, c, raising) else UpdateContinent(continents, c, raising)).table,
      countries, regions)
  {
    var u := (if isNew then CreateContinent(continents, c, raising) else UpdateContinent(continents, c, raising)).table;
    forall k: Key | Present(continents, ContinentKey, k) ensures Present(u, ContinentKey, k) {
      if isNew {
        AppendKeepsPresent(continents, ContinentKey, NewContinent(continents, c), k);
      } else {
        OverwriteKeepsPresent(continents, ContinentKey, c, k);
      }
    }
  }

  /** A country is only written when its continent exists, and country ids never disappear, so references stay intact. */
  lemma CountryWritesKeepReferences(continents: seq<Continent>, countries: seq<Country>, regions: seq<Region>,
                                    c: Country, isNew: bool, raising: set<Statement>)
    requires ReferencesIntact(continents, countries, regions)
    requires (if isNew then CreateCountry(continents, countries, c, raising)
              else UpdateCountry(continents, countries, c, raising)).Saved?
    ensures ReferencesIntact(continents,
      (if isNew then CreateCountry(continents, countries, c, raising)
       else UpdateCountry(continents, countries, c, raising)).table,
      regions)
  {
    var row := if isNew then StoredCountry(NewCountry(countries, c)) else StoredCountry(c);
    var u := (if isNew then CreateCountry(continents, countries, c, raising)
              else UpdateCountry(continents, countries, c, raising)).table;
    forall k: Key | Present(countries, CountryKey, k) ensures Present(u, CountryKey, k) {
      if isNew {
        AppendKeepsPresent(countries, CountryKey, row, k);
      } else {
        OverwriteKeepsPresent(countries, CountryKey, row, k);
      }
    }
    forall i | 0 <= i < |u| ensures Present(continents, ContinentKey, u[i].continentId) {
      if isNew {
        if i < |countries| {
          assert u[i] == countries[i];
        }
      } else {
        if countries[i].countryId != row.countryId {
          assert u[i] == countries[i];
        }
      }
    }
  }

  /** A region is only written when its continent and country exist. */
  lemma RegionWritesKeepReferences(continents: seq<Continent>, countries: seq<Country>, regions: seq<Region>,
                                   r: Region, isNew: bool, raising: set<Statement>)
    requires ReferencesIntact(continents, countries, regions)
    requires (if isNew then CreateRegion(continents, countries, regions, r, raising)
              else UpdateRegion(continents, countries, regions, r, raising)).Saved?
    ensures ReferencesIntact(continents, countries,
      (if isNew then CreateRegion(continents, countries, regions, r, raising)
       else UpdateRegion(continents, countries, regions, r, raising)).table)
  {
    var row := if isNew then StoredRegion(NewRegion(regions, r)) else StoredRegion(r);
    var u := (if isNew then CreateRegion(continents, countries, regions, r, raising)
              else UpdateRegion(continents, countries, regions, r, raising)).table;
    forall i | 0 <= i < |u|
      ensures Present(continents, ContinentKey, u[i].continentId) && Present(countries, CountryKey, u[i].countryId)
    {
      if isNew {
        if i < |regions| {
          assert u[i] == regions[i];
        }
      } else {
        if regions[i].regionId != row.regionId {
          assert u[i] == regions[i];
        }
      }
    }
  }
}
