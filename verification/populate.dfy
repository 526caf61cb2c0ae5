/** The seeding script: each REST Countries record is turned into a
    `countries` row with fallbacks, and the rows are inserted 100 at a time,
    counting inserted rows and stopping at the first batch the database
    rejects. The database is an oracle that accepts or rejects a batch. */
module Populate {
  import opened JsValues

  datatype RestName = RestName(common: MaybeString)
  datatype RestFlags = RestFlags(svg: MaybeString, png: MaybeString)

  /** `capital` is an array of names in the API, but may be missing or of
      another shape. */
  datatype RestCapital = CapitalArray(names: seq<string>) | CapitalOther

  /** One record as fetched with `fields=cca3,name,flags,capital,population,region`. */
  datatype RestCountry = RestCountry(
    cca3: MaybeString,
    name: Option<RestName>,
    flags: Option<RestFlags>,
    capital: RestCapital,
    population: Option<int>,
    region: MaybeString
  )

  /** The row sent to the database. */
  datatype CountryRow = CountryRow(
    countryCode: MaybeString,
    name: string,
    flagUrl: MaybeString,
    currentCapital: MaybeString,
    currentPopulation: int,
    region: MaybeString
  )

  /** The field-by-field transform with its fallbacks. */
  function FormatCountry(c: RestCountry): (row: CountryRow)
    ensures row.countryCode == c.cca3
    ensures row.name != ""
    ensures c.name.Some? && TruthyString(c.name.value.common) ==> row.name == c.name.value.common.value
    ensures !(c.name.Some? && TruthyString(c.name.value.common)) ==> row.name == "Unknown"
    ensures row.flagUrl.None? || TruthyString(row.flagUrl)
    ensures c.flags.Some? && TruthyString(c.flags.value.svg) ==> row.flagUrl == c.flags.value.svg
    ensures c.flags.Some? && !TruthyString(c.flags.value.svg) ==> row.flagUrl == StringOrNull(c.flags.value.png)
    ensures c.flags.None? ==> row.flagUrl.None?
    ensures c.capital.CapitalArray? && c.capital.names != [] ==> row.currentCapital == Some(c.capital.names[0])
    ensures !(c.capital.CapitalArray? && c.capital.names != []) ==> row.currentCapital.None?
    ensures TruthyInt(c.population) ==> row.currentPopulation == c.population.value
    ensures !TruthyInt(c.population) ==> row.currentPopulation == 0
    ensures row.region == StringOrNull(c.region)
  {
    var name := OrDefault(if c.name.Some? then c.name.value.common else None, "Unknown");
    var flagUrl := StringOrNull(OrString(if c.flags.Some? then c.flags.value.svg else None,
                                         if c.flags.Some? then c.flags.value.png else None));
    var capital := if c.capital.CapitalArray? && |c.capital.names| > 0 then Some(c.capital.names[0]) else None;
    var population := if TruthyInt(c.population) then c.population.value else 0;
    CountryRow(c.cca3, name, flagUrl, capital, population, StringOrNull(c.region))
  }

  /** `v || null` on a string. */
  function StringOrNull(v: MaybeString): (r: MaybeString)
    ensures r.None? || TruthyString(r)
    ensures TruthyString(v) ==> r == v
    ensures !TruthyString(v) ==> r.None?
  {
    if TruthyString(v) then v else None
  }

  /** `countriesData.map(...)`. */
  function FormatAll(records: seq<RestCountry>): (rows: seq<CountryRow>)
    ensures |rows| == |records|
    ensures forall i :: 0 <= i < |records| ==> rows[i] == FormatCountry(records[i])
  {
    if records == [] then [] else [FormatCountry(records[0])] + FormatAll(records[1..])
  }

  // ---------------------------------------------------------------------
  // Batches

  const BatchSize: nat := 100

  function Min(a: int, b: int): int {
    if a <= b then a else b
  }

  /** The slices `rows.slice(i, i + 100)` for i = 0, 100, 200, ... below the length. */
  function Batches<T>(xs: seq<T>): seq<seq<T>>
    decreases |xs|
  {
    if xs == [] then [] else [xs[..Min(BatchSize, |xs|)]] + Batches(xs[Min(BatchSize, |xs|)..])
  }

  function Flatten<T>(bs: seq<seq<T>>): seq<T> {
    if bs == [] then [] else bs[0] + Flatten(bs[1..])
  }

  /** Batch `k` is the slice starting at offset `100 * k`, and there is one
      batch per offset below the length. */
  lemma BatchSlices<T>(xs: seq<T>)
    ensures forall k :: 0 <= k < |Batches(xs)| ==>
      BatchSize * k < |xs| && Batches(xs)[k] == xs[BatchSize * k .. Min(BatchSize * k + BatchSize, |xs|)]
    ensures forall k: nat :: BatchSize * k < |xs| ==> k < |Batches(xs)|
  {
    forall k | 0 <= k < |Batches(xs)|
      ensures BatchSize * k < |xs| && Batches(xs)[k] == xs[BatchSize * k .. Min(BatchSize * k + BatchSize, |xs|)]
    {
      BatchAt(xs, k);
    }
    forall k: nat | BatchSize * k < |xs|
      ensures k < |Batches(xs)|
    {
      BatchExists(xs, k);
    }
  }

  lemma {:induction false} BatchAt<T>(xs: seq<T>, k: nat)
    requires k < |Batches(xs)|
    ensures BatchSize * k < |xs| && Batches(xs)[k] == xs[BatchSize * k .. Min(BatchSize * k + BatchSize, |xs|)]
    decreases k
  {
    var m := Min(BatchSize, |xs|);
    var rest := xs[m..];
    assert Batches(xs) == [xs[..m]] + Batches(rest);
    if k > 0 {
      assert Batches(xs)[k] == Batches(rest)[k - 1];
      BatchAt(rest, k - 1);
      assert m == BatchSize;
      var lo := BatchSize * (k - 1);
      var hi := Min(lo + BatchSize, |rest|);
      assert rest[lo..hi] == xs[m + lo..m + hi];
    }
  }

  lemma {:induction false} BatchExists<T>(xs: seq<T>, k: nat)
    requires BatchSize * k < |xs|
    ensures k < |Batches(xs)|
    decreases k
  {
    var m := Min(BatchSize, |xs|);
    var rest := xs[m..];
    assert Batches(xs) == [xs[..m]] + Batches(rest);
    if k > 0 {
      BatchExists(rest, k - 1);
    }
  }

  /** Every batch holds between 1 and 100 rows, and all but the last exactly 100. */
  lemma {:induction false} BatchSizes<T>(xs: seq<T>)
    ensures forall k :: 0 <= k < |Batches(xs)| ==> 1 <= |Batches(xs)[k]| <= BatchSize
    ensures forall k :: 0 <= k < |Batches(xs)| - 1 ==> |Batches(xs)[k]| == BatchSize
    decreases |xs|
  {
    if xs != [] {
      var m := Min(BatchSize, |xs|);
      BatchSizes(xs[m..]);
      assert forall k :: 1 <= k < |Batches(xs)| ==> Batches(xs)[k] == Batches(xs[m..])[k - 1];
    }
  }

  /** Concatenating the batches gives back the rows. */
  lemma {:induction false} FlattenBatches<T>(xs: seq<T>)
    ensures Flatten(Batches(xs)) == xs
    decreases |xs|
  {
    if xs != [] {
      var m := Min(BatchSize, |xs|);
      FlattenBatches(xs[m..]);
      assert Batches(xs)[1..] == Batches(xs[m..]);
      assert xs[..m] + xs[m..] == xs;
    }
  }

  /** The index of the first batch the database rejects, from `from` on. */
  function FirstRejected(bs: seq<seq<CountryRow>>, accept: (nat, seq<CountryRow>) -> bool, from: nat := 0): (r: Option<nat>)
    requires from <= |bs|
    ensures r.Some? ==> from <= r.value < |bs| && !accept(r.value, bs[r.value])
    ensures r.Some? ==> forall k :: from <= k < r.value ==> accept(k, bs[k])
    ensures r.None? <==> forall k :: from <= k < |bs| ==> accept(k, bs[k])
    decreases |bs| - from
  {
    if from == |bs| then None
    else if !accept(from, bs[from]) then Some(from)
    else FirstRejected(bs, accept, from + 1)
  }

  /** The insert loop. `accept(k, batch)` is the database's answer to the
      `k`-th insert call. The result is the inserted count, or the 1-based
      number of the batch whose insert failed: the number the script logs
      before it re-throws the database's own error, which is not modelled;
      `attempts` counts insert calls. */
  method InsertInBatches(rows: seq<CountryRow>, accept: (nat, seq<CountryRow>) -> bool)
    returns (r: Result<nat, nat>, attempts: nat)
    ensures var failed := FirstRejected(Batches(rows), accept);
      (failed.None? ==> r == Ok(|rows|) && attempts == |Batches(rows)|) &&
      (failed.Some? ==> r == Err(failed.value + 1) && attempts == failed.value + 1)
  {
    ghost var bs := Batches(rows);
    var i := 0;
    var insertedCount := 0;
    attempts := 0;
    while i < |rows|
      invariant i == BatchSize * attempts && attempts <= |bs|
      invariant insertedCount == Min(i, |rows|)
      invariant forall k :: 0 <= k < attempts ==> accept(k, bs[k])
      invariant attempts < |bs| ==> i < |rows|
    {
      BatchExists(rows, attempts);
      BatchAt(rows, attempts);
      var batch := rows[i .. Min(i + BatchSize, |rows|)];
      var ok := accept(attempts, batch);
      attempts := attempts + 1;
      if !ok {
        r := Err(i / BatchSize + 1);
        return;
      }
      insertedCount := insertedCount + |batch|;
      i := i + BatchSize;
      if attempts < |bs| {
        BatchAt(rows, attempts);
      }
    }
    r := Ok(insertedCount);
  }

  /** `populateCountries` after the fetch: transform, then insert. */
  method PopulateCountries(records: seq<RestCountry>, accept: (nat, seq<CountryRow>) -> bool)
    returns (r: Result<nat, nat>)
    ensures r.Ok? <==> forall k :: 0 <= k < |Batches(FormatAll(records))| ==> accept(k, Batches(FormatAll(records))[k])
    ensures r.Ok? ==> r.value == |records|
  {
    var rows := FormatAll(records);
    var attempts;
    r, attempts := InsertInBatches(rows, accept);
    ghost var bs := Batches(rows);
    ghost var failed := FirstRejected(bs, accept);
    assert r.Ok? <==> failed.None?;
    assert failed.None? <==> forall k :: 0 <= k < |bs| ==> accept(k, bs[k]);
    assert bs == Batches(FormatAll(records));
  }
}
