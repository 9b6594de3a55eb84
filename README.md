# Airport database engine, modelled in Dafny

This project models the engine of a small desktop application that browses and edits an
SQLite database of continents, countries and regions. The user interface sends the engine one
event at a time. The engine answers each with a stream of events. It opens and closes the
database, runs exact-match searches, loads a record by id, and creates or updates records.
Failures travel through one error slot on the engine. The slot is cleared when an event
arrives. If it is still set once the event has been handled, an error event replaces the
event the handler chose.

The model keeps the engine as a class with the source's state:

- whether a connection is installed, and whether it has been closed;
- the error slot;
- the staged record of the last creation;
- the three tables, as sequences of rows in storage order.

Storage faults are not computed. Each operation is told which of its statements raise a
storage error. A write that raises stands for storage refusing the row, for example on a
uniqueness violation. A search is told which fetch raises, if any. Opening a file is told how
the attempt ends. A closed connection makes every statement raise.

Files:

- `records.dfy`: the record shapes and the normalisation of text written to storage.
- `storage.dfy`: the statements that may raise, and the outcomes of opening a file.
- `tables.dfy`: key lookups, the next id, and overwriting by key.
- `query.dfy`: the WHERE clauses each search builds, and the cursor loop.
- `writes.dfy`: every save path as a function, with lemmas about the tables it produces.
- `events.dfy`: the events in both directions, and the exact messages.
- `engine.dfy`: the engine class, its per-event handlers, and `ProcessEvent`.

The model follows the code on these points:

- An empty `keywords` (and, for regions, an empty `wikipedia_link`) is written as the
  four-letter string `NULL`, not as an SQL NULL.
- A load whose lookup raises answers with an error event. The "loaded" event with nothing in
  it is replaced by the error event, because the slot is still set.
- Closing the database closes the connection but does not forget it. Every later statement on
  that connection raises, so later searches and saves fail with their storage-error messages
  instead of crashing.
- The staged record is set before the INSERT runs. A creation that storage rejects still
  replaces it.

## Model

| member | source | states |
|---|---|---|
| Records.StoredText | p2app/engine/main.py:616-617 | text written for an optional field is never empty: empty text becomes the string `NULL`, and anything else, absent text included, is written unchanged |
| Records.StoredCountry | p2app/engine/main.py:430-437 | a country is written with its keywords normalised as `StoredText` says, never empty; every other field is the caller's |
| Records.StoredRegion | p2app/engine/main.py:616-622 | a region is written with its Wikipedia link and keywords normalised as `StoredText` says, neither empty; every other field is the caller's |
| Tables.LargestId | p2app/engine/main.py:300-303 | the first id of the descending id scan: absent exactly when no row has an id, otherwise a present id no smaller than any other |
| Tables.NextId | p2app/engine/main.py:298-309 | a new row's id is one more than the largest: one less than it is an id the table holds, it is larger than every id and used by no row, and it is 1 in a table without ids |
| Tables.Find | p2app/engine/main.py:271-283 | the lookup by primary key finds a row exactly when one has that id, and the row it finds has that id |
| Tables.Overwrite | p2app/engine/main.py:327-329 | the UPDATE by id keeps the table's length and every row's id, and leaves rows with other ids unchanged |
| Tables.FindAppended | p2app/engine/main.py:309-312 | a row inserted under an unused id is the row a later lookup of that id finds |
| Tables.FindOverwritten | p2app/engine/main.py:327-329 | after the UPDATE of a present id, a lookup of that id finds the new row |
| Tables.AppendKeepsWellKeyed | p2app/engine/main.py:309-312 | inserting under the next id keeps every id present and distinct |
| Tables.OverwriteKeepsPresent | p2app/engine/main.py:327-329 | the UPDATE by id neither adds nor removes an id |
| Query.ContinentQuery | p2app/engine/main.py:245-250 | with a name or code given, the WHERE clause tests one equality per given filter, on the column that filter names, and nothing else |
| Query.CountryQuery | p2app/engine/main.py:352-357 | the same for a country search |
| Query.RegionQuery | p2app/engine/main.py:497-530 | the same for a region search over name, region code and local code |
| Query.ContinentQueryIsExactMatch | p2app/engine/main.py:245-250 | with a name or code given, the statement chosen selects exactly the continents equal on every given filter |
| Query.CountryQueryIsExactMatch | p2app/engine/main.py:352-357 | with a name or code given, the statement chosen selects exactly the countries equal on every given filter |
| Query.RegionQueryIsExactMatch | p2app/engine/main.py:497-530 | every non-empty combination of name, region code and local code reaches a statement that tests exactly those filters |
| Query.Select | p2app/engine/main.py:251-254 | the rows a statement returns are rows of the table that satisfy it, and every satisfying row is among them |
| Query.SelectIsSubMultiset | p2app/engine/main.py:251-254 | a statement returns each row at most as often as the table holds it, so no match is reported more often than it is stored |
| Query.Fetch | p2app/engine/main.py:251-260 | the cursor loop delivers the selected rows in order up to the fetch that raises, and reports a failure exactly when a fetch raised |
| Events.ContinentResults | p2app/engine/main.py:95-100 | one continent result event per delivered row, in order |
| Events.CountryResults | p2app/engine/main.py:121-126 | one country result event per delivered row, in order |
| Events.RegionResults | p2app/engine/main.py:149-154 | one region result event per delivered row, in order |
| Writes.CreateContinent | p2app/engine/main.py:296-331 | a creation saves exactly when neither the id scan nor the INSERT raises, and a save appends one row after the old ones; a failed id scan is refused with the table-invalid message, and an INSERT that raises after a good scan is rejected with the duplicate message |
| Writes.UpdateContinent | p2app/engine/main.py:313-331 | an update saves exactly when the lookup does not raise, the id is stored and the UPDATE does not raise, and a save keeps the length; a failed or empty lookup is refused with the not-found message, and an UPDATE that raises after a good lookup is rejected with the duplicate message |
| Writes.CreateCountry | p2app/engine/main.py:403-477 | a creation saves exactly when no statement raises and the country's continent is stored, and a save appends one row; a failed id scan is refused with the table-invalid message, then a missing or unreadable continent with the missing-continent message; an INSERT that raises after both checks pass is rejected with the duplicate message |
| Writes.UpdateCountry | p2app/engine/main.py:438-477 | an update saves exactly when no statement raises, the id is stored and the continent is stored, and a save keeps the length; a failed or empty lookup of the id is refused with the not-found message, then a missing or unreadable continent with the missing-continent message; an UPDATE that raises after both checks pass is rejected with the duplicate message |
| Writes.CreateRegion | p2app/engine/main.py:576-668 | a creation saves exactly when no statement raises and the region's continent and country are stored, and a save appends one row; each failed check is refused with its own message, in the order id scan (table invalid), continent, country; an INSERT that raises after every check passes is rejected with the duplicate message |
| Writes.UpdateRegion | p2app/engine/main.py:623-668 | an update saves exactly when no statement raises, the id is stored and the continent and country are stored, and a save keeps the length; each failed check is refused with its own message, in the order target id (not found), continent, country; an UPDATE that raises after every check passes is rejected with the duplicate message |
| Writes.CreateContinentAppendsFreshRow | p2app/engine/main.py:296-312 | a created continent is appended under an id one more than the largest stored id (1 in an empty table), the old rows stay, a lookup of the new id returns it, and ids stay distinct |
| Writes.CreateCountryAppendsFreshRow | p2app/engine/main.py:403-437 | a created country is appended under a fresh id, the old rows stay, a lookup returns the written row with its keywords normalised, and ids stay distinct |
| Writes.CreateRegionAppendsFreshRow | p2app/engine/main.py:576-622 | a created region is appended under a fresh id, the old rows stay, a lookup returns the written row, and ids stay distinct |
| Writes.UpdateContinentOverwritesInPlace | p2app/engine/main.py:313-329 | an update keeps length and ids, changes only the row with the continent's id, and a lookup returns the caller's continent |
| Writes.UpdateCountryOverwritesInPlace | p2app/engine/main.py:438-474 | an update keeps length and ids, changes only the row with the country's id, and a lookup returns the written country |
| Writes.UpdateRegionOverwritesInPlace | p2app/engine/main.py:623-667 | an update keeps length and ids, changes only the row with the region's id, and a lookup returns the written region |
| Writes.ContinentWritesKeepReferences | p2app/engine/main.py:296-329 | saving a continent never removes a continent id, so every country and region still names an existing continent |
| Writes.CountryWritesKeepReferences | p2app/engine/main.py:415-474 | a country is written only when its continent exists, so every stored reference stays valid |
| Writes.RegionWritesKeepReferences | p2app/engine/main.py:588-667 | a region is written only when its continent and its country exist, so every stored reference stays valid |
| AppEngine.ContinentSearchEvents | p2app/engine/main.py:90-100 | a continent search answers with at least one and at most one more event than the table has rows; with no filter, only the invalid-search error; every event but the last is a result, and the last is nothing or an error |
| AppEngine.CountrySearchEvents | p2app/engine/main.py:116-126 | the same for a country search |
| AppEngine.RegionSearchEvents | p2app/engine/main.py:144-154 | the same for a region search |
| AppEngine.LifecycleAnswers | p2app/engine/main.py:78-88 | quitting, opening and closing each answer with one event; opening reports success exactly when the file opens; closing is an error exactly when no connection is installed |
| AppEngine.ContinentAnswers | p2app/engine/main.py:90-114 | a continent event answers with at least one event, exactly one unless it is a search; a load reports a continent exactly when its id is stored, or the load-failure error; a reported update is of a stored id with the caller's record; a reported creation is under an unused id with the caller's other fields |
| AppEngine.CountryAnswers | p2app/engine/main.py:116-142 | the same for countries, and a reported save names a stored continent |
| AppEngine.RegionAnswers | p2app/engine/main.py:144-170 | the same for regions, and a reported save names a stored continent and a stored country |
| AppEngine.StagedIsFresh | p2app/engine/main.py:309 | only a creation replaces the staged record, and it stages the caller's record under an id no row of its table has (also lines 429 and 615) |
| AppEngine.ContinentSearchReportsMatches | p2app/engine/main.py:234-262 | a continent search reports only table rows matching every given filter, ends in an error event exactly when a fetch raised, and otherwise reports every match |
| AppEngine.CountrySearchReportsMatches | p2app/engine/main.py:341-369 | the same for a country search |
| AppEngine.RegionSearchReportsMatches | p2app/engine/main.py:486-542 | the same for a region search over name, region code and local code |
| AppEngine.Engine.constructor | p2app/engine/main.py:66-70 | a new engine has no connection, an empty error slot and nothing staged |
| AppEngine.Engine.OpenDatabase | p2app/engine/main.py:182-232 | opening succeeds exactly when the file opens and accepts its setup; a file that cannot be opened leaves the old connection and sets the open-failure message; a rejected setup drops the connection, keeps the closed flag and sets the invalid-database message |
| AppEngine.Engine.CloseDatabase | p2app/engine/main.py:198-204 | closing marks an installed connection closed; without one it only sets the not-open message |
| AppEngine.Engine.SearchContinents | p2app/engine/main.py:234-262 | no filter sets the invalid-search message and finds nothing, with or without a connection; otherwise the matches up to a raising fetch, with the search-failure message when one raised |
| AppEngine.Engine.SearchCountries | p2app/engine/main.py:341-369 | the same for countries |
| AppEngine.Engine.SearchRegions | p2app/engine/main.py:486-542 | the same for regions |
| AppEngine.Engine.LoadContinent | p2app/engine/main.py:264-285 | a lookup that raises gives nothing and the load-failure message; otherwise the stored continent with that id |
| AppEngine.Engine.LoadCountry | p2app/engine/main.py:371-392 | the same for countries |
| AppEngine.Engine.LoadRegion | p2app/engine/main.py:544-565 | the same for regions |
| AppEngine.Engine.SaveContinent | p2app/engine/main.py:287-338 | succeeds exactly when the create or update path saves; then the table becomes the written one, otherwise it stays and the slot holds that path's message; the staged record follows the create path |
| AppEngine.Engine.SaveCountry | p2app/engine/main.py:394-484 | the same for countries, including the continent-reference checks and their messages |
| AppEngine.Engine.SaveRegion | p2app/engine/main.py:567-676 | the same for regions, including the continent- and country-reference checks and their messages |
| AppEngine.Engine.ContinentResultEvents | p2app/engine/main.py:90-100 | draining a continent search yields one result event per row, in order |
| AppEngine.Engine.CountryResultEvents | p2app/engine/main.py:116-126 | draining a country search yields one result event per row, in order |
| AppEngine.Engine.RegionResultEvents | p2app/engine/main.py:144-154 | draining a region search yields one result event per row, in order |
| AppEngine.Engine.HandleLifecycleEvent | p2app/engine/main.py:78-88 | quit ends the application; open reports the path or the reason; close reports closure or the not-open error; the tables change only when a file opens |
| AppEngine.Engine.HandleContinentEvent | p2app/engine/main.py:90-114 | the continent events produce the search, load and save answers, keep ids distinct and references intact, and touch no other table |
| AppEngine.Engine.HandleCountryEvent | p2app/engine/main.py:116-142 | the same for the country events |
| AppEngine.Engine.HandleRegionEvent | p2app/engine/main.py:144-170 | the same for the region events |
| AppEngine.Engine.Dispatch | p2app/engine/main.py:77-170 | each event goes to the handler for its kind, and nothing but that handler's table changes |
| AppEngine.Engine.ProcessEvent | p2app/engine/main.py:72-180 | every event yields at least one event, and exactly one unless it is a search; the last is an error event exactly when the slot is still set, and it carries the slot's message; the events and the new tables, staged record and connection state are those of the event's kind; ids stay distinct, and references stay intact except when a new file is opened |

## Left out

- An opened file's tables are taken to have distinct, present primary keys: `OpenDatabase`
  requires it of its outcome. The engine never checks this; it holds only as far as the
  file's schema enforces it.
- Opening a file is reduced to its outcome. The SQLite connection, the PRAGMA statements and
  the file system are not modelled.
- The check in `_connect` that a schema-version cursor equals 0 can never succeed. Its
  `else` branch for a missing cursor can never run either. Neither is modelled.
- Cursors and their closing are not modelled. A search's cursor is the loop in `Query.Fetch`.
- A search with a filter, a load or a save with no connection installed fails on a missing
  attribute and crashes the engine. The model makes an installed connection a precondition of
  those events. A search with no filter needs no connection: it answers with the
  invalid-search error before touching storage.
- AppEngine.Engine.LoadContinent: a load of an id that no row has crashes while building the
  record from an empty result. The model requires the id to exist unless the lookup raises.
  So the "could not be loaded" messages are never produced. The same holds for
  `LoadCountry` and `LoadRegion`.
- A storage error raised by `fetchone` during a load, after the query ran, is not modelled.
  Only the query itself may raise.
- Tables.NextId: a table whose rows all lack an id would make the engine crash adding 1 to
  nothing. The model gives 1 there. A stored table always has ids, so it never arises under
  the engine's invariant.
- Tables.NextId: ids are unbounded integers. SQLite stores 64-bit ids, so a creation in a
  table whose largest id is 2^63-1 raises an overflow error while binding `tempID+1`
  (main.py lines 310-312, 433-437 and 619-621). That error is not a storage error: it escapes
  the save after the staged record was set and crashes the engine. The model does not bound
  ids and saves such a row.
- A search whose generator is abandoned leaves its cursor open. The laziness of the generator
  is not modelled: the search runs to its end or its first raising fetch.
- The trailing `yield sendBack` yields `None` after a successful search. The model keeps
  this as a `None` element at the end of the stream.
- An event of a type the engine does not know yields `None`. The model's event type has no
  such event.
- The final `return False` of `_saveRegion` (after a cursor that is `None`) cannot be
  reached, because a successful statement always gives a cursor. It is not modelled. Nor are
  the analogous returns in the other save methods.
- Which statements raise, and on which fetch, comes from outside the model as parameters.
  Real uniqueness and foreign-key enforcement by SQLite is not computed.
