/**
 What the storage layer answers on its own account. The engine hands statements to an SQLite
 connection; any of them may raise a storage error instead of answering (a uniqueness
 violation on a write, a damaged file, a closed connection). The model does not compute these
 failures: each operation is told which of its statements raise.
 */
module Storage {
  import opened Records

  /** The statements the save and load paths execute. */
  datatype Statement =
    | IdScan          // select the ids of a table, largest first
    | FindTarget      // select the row with a given primary key
    | FindContinent   // select the continent a foreign key names
    | FindCountry     // select the country a foreign key names
    | Write           // the INSERT or UPDATE itself

  /** A closed connection raises on every statement. */
  const AllStatements: set<Statement> := {IdScan, FindTarget, FindContinent, FindCountry, Write}

  /** How an attempt to open a database file ends. */
  datatype OpenOutcome =
    | ConnectRaises   // the file cannot be opened at all
    | PragmaRaises    // the file opens but rejects the setup statements
    | Opens(continents: seq<Continent>, countries: seq<Country>, regions: seq<Region>)
}
