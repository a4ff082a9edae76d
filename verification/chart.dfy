/**
 * Chart data of the scheduled-tests page: a dictionary from test name to
 * count is seeded with 0 for every catalog name, incremented once per
 * scheduled-test row under that row's "Test Name", and then read out as
 * parallel `labels` (the catalog names) and `data` (the dictionary's
 * values, in key insertion order).
 */
module Chart {
  import opened Common

  /** No name occurs twice. */
  predicate Distinct(s: seq<string>) {
    forall i, j :: 0 <= i < j < |s| ==> s[i] != s[j]
  }

  /** Number of rows naming `name`. */
  function Count(names: seq<string>, name: string): nat
  {
    if names == [] then 0
    else Count(names[..|names| - 1], name) + (if names[|names| - 1] == name then 1 else 0)
  }

  /** A name that no row carries counts 0, so a catalog test with no scheduled rows charts as 0. */
  lemma {:induction false} CountOfAbsent(names: seq<string>, name: string)
    requires name !in names
    ensures Count(names, name) == 0
  {
    if names != [] {
      CountOfAbsent(names[..|names| - 1], name);
    }
  }

  /**
   * The names of `names` without repeats, each where it first occurs: the
   * key order of a dictionary that is assigned each name in turn.
   */
  function FirstOccurrences(names: seq<string>): (keys: seq<string>)
    ensures Distinct(keys)
    ensures forall x :: x in keys <==> x in names
    ensures |keys| <= |names|
  {
    if names == [] then []
    else
      var keys := FirstOccurrences(names[..|names| - 1]);
      var last := names[|names| - 1];
      assert forall x :: x in names <==> x in names[..|names| - 1] || x == last;
      if last in keys then keys else keys + [last]
  }

  /** A catalog without repeated names keeps its own order as key order. */
  lemma {:induction false} FirstOccurrencesOfDistinct(names: seq<string>)
    requires Distinct(names)
    ensures FirstOccurrences(names) == names
  {
    if names != [] {
      var prefix := names[..|names| - 1];
      assert Distinct(prefix);
      FirstOccurrencesOfDistinct(prefix);
      assert names[|names| - 1] !in prefix;
      assert prefix + [names[|names| - 1]] == names;
    }
  }

  /** Extending the rows by `rows[j]` adds one to that name's count only. */
  lemma CountSnoc(rows: seq<string>, j: nat)
    requires j < |rows|
    ensures forall x :: Count(rows[..j + 1], x) == Count(rows[..j], x) + (if rows[j] == x then 1 else 0)
  {
    assert rows[..j + 1][..j] == rows[..j];
  }

  /** The count of each key, in key order. */
  function CountsOf(keys: seq<string>, rows: seq<string>): (data: seq<nat>)
    ensures |data| == |keys|
    ensures forall j :: 0 <= j < |keys| ==> data[j] == Count(rows, keys[j])
  {
    if keys == [] then [] else [Count(rows, keys[0])] + CountsOf(keys[1..], rows)
  }

  function Sum(s: seq<nat>): nat {
    if s == [] then 0 else s[0] + Sum(s[1..])
  }

  /** One more row adds one to the total exactly when its name is a key. */
  lemma {:induction false} CountsOfSnoc(keys: seq<string>, rows: seq<string>, x: string)
    requires Distinct(keys)
    ensures Sum(CountsOf(keys, rows + [x])) == Sum(CountsOf(keys, rows)) + (if x in keys then 1 else 0)
  {
    if keys != [] {
      assert (rows + [x])[..|rows|] == rows;
      assert Distinct(keys[1..]);
      CountsOfSnoc(keys[1..], rows, x);
      assert x in keys <==> x == keys[0] || x in keys[1..];
      assert x == keys[0] ==> x !in keys[1..];
    }
  }

  /** When every row names a key, the counts add up to the number of rows. */
  lemma {:induction false} SumOfCounts(keys: seq<string>, rows: seq<string>)
    requires Distinct(keys)
    requires forall i :: 0 <= i < |rows| ==> rows[i] in keys
    ensures Sum(CountsOf(keys, rows)) == |rows|
  {
    if rows == [] {
      ZeroCounts(keys);
    } else {
      var prefix, last := rows[..|rows| - 1], rows[|rows| - 1];
      assert forall i :: 0 <= i < |prefix| ==> prefix[i] == rows[i];
      SumOfCounts(keys, prefix);
      CountsOfSnoc(keys, prefix, last);
      assert prefix + [last] == rows;
      assert last in keys;
    }
  }

  /** With no rows, every count is 0. */
  lemma {:induction false} ZeroCounts(keys: seq<string>)
    ensures Sum(CountsOf(keys, [])) == 0
  {
    if keys != [] {
      ZeroCounts(keys[1..]);
    }
  }

  datatype ChartData = ChartData(labels: seq<string>, data: seq<nat>)

  /**
   * First loop: every catalog name is assigned 0. A repeated name is
   * assigned again and keeps its first position among the keys.
   */
  method SeedCounts(labels: seq<string>) returns (keys: seq<string>, counts: map<string, nat>)
    ensures keys == FirstOccurrences(labels)
    ensures forall x :: x in counts <==> x in labels
    ensures forall x :: x in counts ==> counts[x] == 0
  {
    counts := map[];
    keys := [];
    var i := 0;
    while i < |labels|
      invariant 0 <= i <= |labels|
      invariant keys == FirstOccurrences(labels[..i])
      invariant forall x :: x in counts <==> x in labels[..i]
      invariant forall x :: x in counts ==> counts[x] == 0
    {
      assert labels[..i + 1] == labels[..i] + [labels[i]];
      if labels[i] !in counts {
        keys := keys + [labels[i]];
      }
      counts := counts[labels[i] := 0];
      i := i + 1;
    }
    assert labels[..i] == labels;
  }

  /**
   * Second loop: each row adds one under its test name. A name that is not
   * a key raises `KeyError`; the failure carries the first such name.
   */
  method TallyRows(seeded: map<string, nat>, rows: seq<string>) returns (r: Result<map<string, nat>, string>)
    requires forall x :: x in seeded ==> seeded[x] == 0
    ensures r.Failure? <==> exists i :: 0 <= i < |rows| && rows[i] !in seeded
    ensures r.Failure? ==> exists i :: 0 <= i < |rows| && rows[i] == r.error && r.error !in seeded
                                      && forall k :: 0 <= k < i ==> rows[k] in seeded
    ensures r.Success? ==> r.value.Keys == seeded.Keys
    ensures r.Success? ==> forall x :: x in r.value ==> r.value[x] == Count(rows, x)
  {
    var counts := seeded;
    var j := 0;
    while j < |rows|
      invariant 0 <= j <= |rows|
      invariant counts.Keys == seeded.Keys
      invariant forall x :: x in counts ==> counts[x] == Count(rows[..j], x)
      invariant forall k :: 0 <= k < j ==> rows[k] in seeded
    {
      var name := rows[j];
      if name !in counts {
        assert rows[j] == name && name !in seeded;
        return Failure(name);
      }
      CountSnoc(rows, j);
      counts := counts[name := counts[name] + 1];
      j := j + 1;
    }
    assert rows[..j] == rows;
    return Success(counts);
  }

  /**
   * The chart of the scheduled-tests page: `labels` is the catalog, `data`
   * the dictionary's values in key order. When the catalog names are
   * distinct the two are parallel, and the counts add up to the number of
   * rows; a row naming a test outside the catalog is a failure.
   */
  method CountScheduledTests(catalog: seq<string>, rows: seq<string>) returns (r: Result<ChartData, string>)
    ensures r.Failure? <==> exists i :: 0 <= i < |rows| && rows[i] !in catalog
    ensures r.Failure? ==> exists i :: 0 <= i < |rows| && rows[i] == r.error && r.error !in catalog
                                      && forall k :: 0 <= k < i ==> rows[k] in catalog
    ensures r.Success? ==> r.value.labels == catalog
    ensures r.Success? ==> r.value.data == CountsOf(FirstOccurrences(catalog), rows)
    ensures r.Success? ==> Sum(r.value.data) == |rows|
    ensures r.Success? && Distinct(catalog) ==>
      |r.value.data| == |catalog| && forall j :: 0 <= j < |catalog| ==> r.value.data[j] == Count(rows, catalog[j])
    ensures r.Success? && Distinct(catalog) ==>
      forall j :: 0 <= j < |catalog| && catalog[j] !in rows ==> r.value.data[j] == 0
  {
    var labels := catalog;
    var keys, seeded := SeedCounts(labels);
    var tallied := TallyRows(seeded, rows);
    if tallied.Failure? {
      return Failure(tallied.error);
    }
    var counts := tallied.value;
    var data := seq(|keys|, k requires 0 <= k < |keys| => counts[keys[k]]);
    assert data == CountsOf(keys, rows);
    SumOfCounts(keys, rows);
    if Distinct(catalog) {
      FirstOccurrencesOfDistinct(catalog);
      forall j | 0 <= j < |catalog| && catalog[j] !in rows ensures Count(rows, catalog[j]) == 0 {
        CountOfAbsent(rows, catalog[j]);
      }
    }
    return Success(ChartData(labels, data));
  }

  /** The worked case: two rows for "CBC" and none for "Lipid Panel" chart as [2, 0]. */
  lemma TwoCbcRows()
    ensures CountsOf(FirstOccurrences(["CBC", "Lipid Panel"]), ["CBC", "CBC"]) == [2, 0]
  {
    var rows := ["CBC", "CBC"];
    FirstOccurrencesOfDistinct(["CBC", "Lipid Panel"]);
    assert rows[..1] == ["CBC"] && rows[..1][..0] == [];
    CountOfAbsent(rows, "Lipid Panel");
    assert Count(rows, "CBC") == 2;
    var data := CountsOf(["CBC", "Lipid Panel"], rows);
    assert data[0] == 2 && data[1] == 0;
  }
}
