/**
 Exact-match search. Each search builds a WHERE clause from the filters it was given, choosing
 between a fixed set of SQL statements; the storage layer then returns the rows that satisfy
 it in storage order, one fetch at a time.
 */
module Query {
  import opened Wrappers
  import opened Records

  datatype Column = Name | ContinentCode | CountryCode | RegionCode | LocalCode

  /** One `column = (:value)` term of a WHERE clause. */
  datatype Condition = Eq(column: Column, value: Text)

  /** The searchable columns of each table; a column the table lacks reads as NULL. */
  function ContinentColumn(c: Continent, col: Column): Text
  {
    match col
    case Name => c.name
    case ContinentCode => c.continentCode
    case _ => None
  }

  function CountryColumn(c: Country, col: Column): Text
  {
    match col
    case Name => c.name
    case CountryCode => c.countryCode
    case _ => None
  }

  function RegionColumn(r: Region, col: Column): Text
  {
    match col
    case Name => r.name
    case RegionCode => r.regionCode
    case LocalCode => r.localCode
    case _ => None
  }

  /** A row satisfies a WHERE clause when every term holds; a term comparing with NULL never holds. */
  predicate Satisfies<R>(row: R, column: (R, Column) -> Text, q: seq<Condition>)
  {
    forall k :: 0 <= k < |q| ==> Holds(row, column, q[k])
  }

  predicate Holds<R>(row: R, column: (R, Column) -> Text, c: Condition)
  {
    c.value.Some? && column(row, c.column) == c.value
  }

  /** A clause of one, two or three terms is their conjunction. */
  lemma SatisfiesTerms<R>(row: R, column: (R, Column) -> Text, q: seq<Condition>)
    ensures |q| == 1 ==> (Satisfies(row, column, q) <==> Holds(row, column, q[0]))
    ensures |q| == 2 ==> (Satisfies(row, column, q) <==> Holds(row, column, q[0]) && Holds(row, column, q[1]))
    ensures |q| == 3 ==> (Satisfies(row, column, q) <==>
      Holds(row, column, q[0]) && Holds(row, column, q[1]) && Holds(row, column, q[2]))
  {
  }

  /**
   The statement a continent search runs: by name, by code, or by both. With a filter given, it
   has one term per given filter, each comparing with a given value.
   */
  function ContinentQuery(name: Text, code: Text): (q: seq<Condition>)
    ensures name.Some? || code.Some? ==>
      && |q| == (if name.Some? then 1 else 0) + (if code.Some? then 1 else 0)
      && forall k :: 0 <= k < |q| ==> q[k].value.Some? && q[k] in [Eq(Name, name), Eq(ContinentCode, code)]
    ensures name.Some? ==> Eq(Name, name) in q
    ensures code.Some? ==> Eq(ContinentCode, code) in q
  {
    if code.None? then [Eq(Name, name)]
    else if name.None? then [Eq(ContinentCode, code)]
    else [Eq(ContinentCode, code), Eq(Name, name)]
  }

  /** The statement a country search runs: by name, by code, or by both; one term per given filter. */
  function CountryQuery(name: Text, code: Text): (q: seq<Condition>)
    ensures name.Some? || code.Some? ==>
      && |q| == (if name.Some? then 1 else 0) + (if code.Some? then 1 else 0)
      && forall k :: 0 <= k < |q| ==> q[k].value.Some? && q[k] in [Eq(Name, name), Eq(CountryCode, code)]
    ensures name.Some? ==> Eq(Name, name) in q
    ensures code.Some? ==> Eq(CountryCode, code) in q
  {
    if code.None? then [Eq(Name, name)]
    else if name.None? then [Eq(CountryCode, code)]
    else [Eq(CountryCode, code), Eq(Name, name)]
  }

  /**
   The statement a region search runs. The nesting follows the engine's own decision tree,
   including the inner tests that can never succeed where they stand.
   */
  function RegionQuery(name: Text, code: Text, localCode: Text): (q: seq<Condition>)
    ensures name.Some? || code.Some? || localCode.Some? ==>
      && |q| == (if name.Some? then 1 else 0) + (if code.Some? then 1 else 0) + (if localCode.Some? then 1 else 0)
      && forall k :: 0 <= k < |q| ==>
           q[k].value.Some? && q[k] in [Eq(Name, name), Eq(RegionCode, code), Eq(LocalCode, localCode)]
    ensures name.Some? ==> Eq(Name, name) in q
    ensures code.Some? ==> Eq(RegionCode, code) in q
    ensures localCode.Some? ==> Eq(LocalCode, localCode) in q
  {
    if code.None? then
      if localCode.None? then [Eq(Name, name)]
      else if name.None? then [Eq(LocalCode, localCode)]
      else [Eq(LocalCode, localCode), Eq(Name, name)]
    else if name.None? then
      if localCode.None? then [Eq(RegionCode, code)]
      else if code.None? then [Eq(LocalCode, localCode)]
      else [Eq(LocalCode, localCode), Eq(RegionCode, code)]
    else if localCode.None? then
      if name.None? then [Eq(RegionCode, code)]
      else if code.None? then [Eq(Name, name)]
      else [Eq(RegionCode, code), Eq(Name, name)]
    else [Eq(RegionCode, code), Eq(Name, name), Eq(LocalCode, localCode)]
  }

  /** What a search means: each filter that is given equals the row's field; absent filters are ignored. */
  predicate ContinentMatches(c: Continent, name: Text, code: Text)
  {
    (name.Some? ==> c.name == name) && (code.Some? ==> c.continentCode == code)
  }

  predicate CountryMatches(c: Country, name: Text, code: Text)
  {
    (name.Some? ==> c.name == name) && (code.Some? ==> c.countryCode == code)
  }

  predicate RegionMatches(r: Region, name: Text, code: Text, localCode: Text)
  {
    (name.Some? ==> r.name == name) && (code.Some? ==> r.regionCode == code) &&
    (localCode.Some? ==> r.localCode == localCode)
  }

  /** With at least one filter given, the continent statement selects exactly the matching rows. */
  lemma ContinentQueryIsExactMatch(c: Continent, name: Text, code: Text)
    requires name.Some? || code.Some?
    ensures Satisfies(c, ContinentColumn, ContinentQuery(name, code)) <==> ContinentMatches(c, name, code)
  {
    SatisfiesTerms(c, ContinentColumn, ContinentQuery(name, code));
  }

  /** With at least one filter given, the country statement selects exactly the matching rows. */
  lemma CountryQueryIsExactMatch(c: Country, name: Text, code: Text)
    requires name.Some? || code.Some?
    ensures Satisfies(c, CountryColumn, CountryQuery(name, code)) <==> CountryMatches(c, name, code)
  {
    SatisfiesTerms(c, CountryColumn, CountryQuery(name, code));
  }

  /** Every non-empty combination of region filters reaches a statement that tests exactly those filters. */
  lemma RegionQueryIsExactMatch(r: Region, name: Text, code: Text, localCode: Text)
    requires name.Some? || code.Some? || localCode.Some?
    ensures Satisfies(r, RegionColumn, RegionQuery(name, code, localCode)) <==> RegionMatches(r, name, code, localCode)
  {
    SatisfiesTerms(r, RegionColumn, RegionQuery(name, code, localCode));
  }

  /** The rows of `t` that satisfy `q`, in table order. */
  function Select<R>(t: seq<R>, column: (R, Column) -> Text, q: seq<Condition>): (r: seq<R>)
    ensures |r| <= |t|
    ensures forall x :: x in r ==> x in t && Satisfies(x, column, q)
    ensures forall i :: 0 <= i < |t| && Satisfies(t[i], column, q) ==> t[i] in r
    decreases |t|
  {
    if t == [] then []
    else
      var init := t[..|t| - 1];
      assert forall i :: 0 <= i < |t| - 1 ==> t[i] == init[i];
      Select(init, column, q) + (if Satisfies(t[|t| - 1], column, q) then [t[|t| - 1]] else [])
  }

  /** A selection lists each row no more often than the table holds it. */
  lemma {:induction false} SelectIsSubMultiset<R>(t: seq<R>, column: (R, Column) -> Text, q: seq<Condition>)
    ensures multiset(Select(t, column, q)) <= multiset(t)
    decreases |t|
  {
    if t != [] {
      var init := t[..|t| - 1];
      SelectIsSubMultiset(init, column, q);
      assert t == init + [t[|t| - 1]];
    }
  }

  /** Selecting from a prefix of a table gives a prefix of the selection from the whole table. */
  lemma {:induction false} SelectPrefix<R>(t: seq<R>, column: (R, Column) -> Text, q: seq<Condition>, i: nat)
    requires i <= |t|
    ensures Select(t[..i], column, q) <= Select(t, column, q)
    decreases |t|
  {
    if i < |t| {
      var init := t[..|t| - 1];
      assert init[..i] == t[..i];
      SelectPrefix(init, column, q, i);
    } else {
      assert t[..i] == t;
    }
  }

  /** A scan whose fetch number `k` (counting from 0) raises, or that never raises when `failsAfter` is None. */
  predicate ScanFails<R>(rows: seq<R>, failsAfter: Option<nat>)
  {
    failsAfter.Some? && failsAfter.value <= |rows|
  }

  /** The rows a scan delivers before it raises. */
  function Truncated<R>(rows: seq<R>, failsAfter: Option<nat>): seq<R>
  {
    if ScanFails(rows, failsAfter) then rows[..failsAfter.value] else rows
  }

  /**
   The cursor loop: fetch matching rows one at a time until the table is exhausted or a
   fetch raises. Fetch number `k` asks for the row after the `k` rows already delivered.
   */
  method Fetch<R>(t: seq<R>, column: (R, Column) -> Text, q: seq<Condition>, failsAfter: Option<nat>)
    returns (rows: seq<R>, failed: bool)
    ensures failed <==> ScanFails(Select(t, column, q), failsAfter)
    ensures rows == Truncated(Select(t, column, q), failsAfter)
  {
    rows := [];
    var i := 0;
    while i < |t| && failsAfter != Some(|rows|)
      invariant 0 <= i <= |t|
      invariant rows == Select(t[..i], column, q)
      invariant failsAfter.Some? ==> |rows| <= failsAfter.value
    {
      assert t[..i + 1][..i] == t[..i];
      if Satisfies(t[i], column, q) {
        rows := rows + [t[i]];
      }
      i := i + 1;
    }
    failed := failsAfter == Some(|rows|);
    SelectPrefix(t, column, q, i);
    if i == |t| {
      assert t[..i] == t;
    }
  }
}
