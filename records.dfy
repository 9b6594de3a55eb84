/**
 The three record shapes of the store (continent, country, region). Every field may be
 absent, as in the named tuples of the engine, so each is an `Option`.
 */
module Records {
  import opened Wrappers

  /** A primary or foreign key column: an integer, or absent (SQL NULL). */
  type Key = Option<int>

  /** A text column: a string, or absent (SQL NULL). */
  type Text = Option<string>

  datatype Continent = Continent(continentId: Key, continentCode: Text, name: Text)

  datatype Country = Country(
    countryId: Key, countryCode: Text, name: Text,
    continentId: Key, wikipediaLink: Text, keywords: Text)

  datatype Region = Region(
    regionId: Key, regionCode: Text, localCode: Text, name: Text,
    continentId: Key, countryId: Key, wikipediaLink: Text, keywords: Text)

  /** The engine's one-row slot for the most recently created record, whichever table it went to. */
  datatype Row = ContinentRow(continent: Continent) | CountryRow(country: Country) | RegionRow(region: Region)

  /** The primary key of each table. */
  function ContinentKey(c: Continent): Key { c.continentId }
  function CountryKey(c: Country): Key { c.countryId }
  function RegionKey(r: Region): Key { r.regionId }

  /** The text the engine writes for an optional text field: empty text is written as the literal string NULL. */
  function StoredText(t: Text): (s: Text)
    ensures t == Some("") ==> s == Some("NULL")
    ensures t != Some("") ==> s == t
  {
    if t == Some("") then Some("NULL") else t
  }

  /** The country row as written: only `keywords` is normalised; `wikipediaLink` is written as given. */
  function StoredCountry(c: Country): (s: Country)
    ensures s.keywords == StoredText(c.keywords) && s.keywords != Some("")
    ensures s.(keywords := c.keywords) == c
  {
    c.(keywords := StoredText(c.keywords))
  }

  /** The region row as written: both `wikipediaLink` and `keywords` are normalised. */
  function StoredRegion(r: Region): (s: Region)
    ensures s.wikipediaLink == StoredText(r.wikipediaLink) && s.keywords == StoredText(r.keywords)
    ensures s.wikipediaLink != Some("") && s.keywords != Some("")
    ensures s.(wikipediaLink := r.wikipediaLink, keywords := r.keywords) == r
  {
    r.(wikipediaLink := StoredText(r.wikipediaLink), keywords := StoredText(r.keywords))
  }
}
