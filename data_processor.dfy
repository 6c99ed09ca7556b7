/** The data pipeline of scraper/data_processor.py: cleaning the scraped
    records and the summary report over them. Writing JSON and CSV files is
    file I/O and is not part of this module. */
module DataProcessor {
  import opened Values

  /** A value `clean_data` removes: `None` or the empty string. */
  predicate Blank(v: Value)
  {
    v == Null || v == Str("")
  }

  /** `{k: v for k, v in item.items() if v is not None and v != ''}`. */
  function CleanItem(item: Record): (r: Record)
    ensures forall k :: k in r <==> k in item && !Blank(item[k])
    ensures forall k :: k in r ==> r[k] == item[k]
  {
    map k | k in item && !Blank(item[k]) :: item[k]
  }

  /** The list `clean_data` returns: each record cleaned, the records that
      end up empty dropped. */
  function Clean(data: seq<Record>): seq<Record>
  {
    if data == [] then []
    else
      var item := CleanItem(data[|data| - 1]);
      Clean(data[..|data| - 1]) + (if item != map[] then [item] else [])
  }

  /** `DataProcessor.clean_data`. */
  method CleanData(data: seq<Record>) returns (cleaned: seq<Record>)
    ensures cleaned == Clean(data)
  {
    cleaned := [];
    for i := 0 to |data|
      invariant cleaned == Clean(data[..i])
    {
      var item := CleanItem(data[i]);
      if item != map[] {
        cleaned := cleaned + [item];
      }
      assert data[..i + 1][..i] == data[..i];
    }
    assert data[..|data|] == data;
  }

  /** A record with no blank value is its own cleaning. */
  lemma CleanItemOfClean(item: Record)
    requires forall k :: k in item ==> !Blank(item[k])
    ensures CleanItem(item) == item
  {
  }

  lemma {:induction false} CleanConcat(a: seq<Record>, b: seq<Record>)
    ensures Clean(a + b) == Clean(a) + Clean(b)
    decreases |b|
  {
    if b == [] {
      assert a + b == a;
    } else {
      assert (a + b)[..|a + b| - 1] == a + b[..|b| - 1];
      assert (a + b)[|a + b| - 1] == b[|b| - 1];
      CleanConcat(a, b[..|b| - 1]);
    }
  }

  /** Every record `clean_data` returns is non-empty and has no blank value. */
  lemma {:induction false} CleanHasNoBlanks(data: seq<Record>)
    ensures forall i :: 0 <= i < |Clean(data)| ==> Clean(data)[i] != map[]
    ensures forall i, k :: 0 <= i < |Clean(data)| && k in Clean(data)[i] ==> !Blank(Clean(data)[i][k])
  {
    if data != [] {
      CleanHasNoBlanks(data[..|data| - 1]);
    }
  }

  /** The indices of the input records that survive cleaning, in order. */
  function Survivors(data: seq<Record>): seq<nat>
  {
    if data == [] then []
    else Survivors(data[..|data| - 1]) + (if CleanItem(data[|data| - 1]) != map[] then [|data| - 1] else [])
  }

  /** The surviving records come out as their cleaned selves, in input
      order. */
  lemma {:induction false} CleanKeepsOrder(data: seq<Record>)
    ensures |Clean(data)| == |Survivors(data)| <= |data|
    ensures forall i :: 0 <= i < |Survivors(data)| ==> Survivors(data)[i] < |data|
    ensures forall i, j :: 0 <= i < j < |Survivors(data)| ==> Survivors(data)[i] < Survivors(data)[j]
    ensures forall i :: 0 <= i < |Survivors(data)| ==> Clean(data)[i] == CleanItem(data[Survivors(data)[i]])
  {
    if data != [] {
      var prefix, n := data[..|data| - 1], |data| - 1;
      CleanKeepsOrder(prefix);
      var sp, cp := Survivors(prefix), Clean(prefix);
      var item := CleanItem(data[n]);
      assert Survivors(data) == sp + (if item != map[] then [n] else []);
      assert Clean(data) == cp + (if item != map[] then [item] else []);
      forall i | 0 <= i < |sp|
        ensures Clean(data)[i] == CleanItem(data[Survivors(data)[i]])
      {
        assert Clean(data)[i] == cp[i] && Survivors(data)[i] == sp[i];
        assert data[sp[i]] == prefix[sp[i]];
      }
    }
  }

  /** A record is dropped exactly when cleaning leaves it empty. */
  lemma {:induction false} CleanDropsOnlyEmpty(data: seq<Record>, j: nat)
    requires j < |data|
    ensures j in Survivors(data) <==> CleanItem(data[j]) != map[]
  {
    var prefix, n := data[..|data| - 1], |data| - 1;
    CleanKeepsOrder(prefix);
    var sp := Survivors(prefix);
    var last := if CleanItem(data[n]) != map[] then [n] else [];
    assert Survivors(data) == sp + last;
    assert n !in sp;
    if j < n {
      CleanDropsOnlyEmpty(prefix, j);
      assert data[j] == prefix[j];
      assert j in Survivors(data) <==> j in sp;
    }
  }

  /** Cleaning twice is cleaning once. */
  lemma {:induction false} CleanIdempotent(data: seq<Record>)
    ensures Clean(Clean(data)) == Clean(data)
  {
    if data != [] {
      var prefix, item := data[..|data| - 1], CleanItem(data[|data| - 1]);
      var tail := if item != map[] then [item] else [];
      CleanIdempotent(prefix);
      CleanConcat(Clean(prefix), tail);
      if item != map[] {
        CleanItemOfClean(item);
        assert Clean(tail) == Clean([]) + [item];
      }
    }
  }

  /** tests/test_scraper.py::test_clean_data: records with only some blank
      fields are kept. */
  lemma CleanKeepsPartialRecords()
    ensures |Clean([
              map["title" := Str("Book 1"), "price" := Num(10.99), "author" := Str("")],
              map["title" := Str(""), "price" := Null, "author" := Str("Author 2")],
              map["title" := Str("Book 3"), "price" := Num(15.99), "author" := Str("Author 3")]])| == 3
  {
    var r1 := map["title" := Str("Book 1"), "price" := Num(10.99), "author" := Str("")];
    var r2 := map["title" := Str(""), "price" := Null, "author" := Str("Author 2")];
    var r3 := map["title" := Str("Book 3"), "price" := Num(15.99), "author" := Str("Author 3")];
    assert "title" in CleanItem(r1);
    assert "author" in CleanItem(r2);
    assert "title" in CleanItem(r3);
    var data := [r1, r2, r3];
    assert data[..2] == [r1, r2] && [r1, r2][..1] == [r1] && [r1][..0] == [];
    assert Clean([r1]) == [CleanItem(r1)];
    assert Clean([r1, r2]) == [CleanItem(r1), CleanItem(r2)];
    assert Clean(data) == [CleanItem(r1), CleanItem(r2), CleanItem(r3)];
  }

  // ------------------------------------------------------------------ report

  /** What `generate_report` returns. Column order and the pandas numeric
      statistics are not modelled. */
  datatype Report =
    | NoData(error: string)
    | Summary(totalItems: nat, columns: set<string>, missingValues: map<string, nat>)

  /** The columns of `pd.DataFrame(data)`: every key of every record. */
  function Columns(data: seq<Record>): set<string>
  {
    if data == [] then {} else Columns(data[..|data| - 1]) + data[|data| - 1].Keys
  }

  /** A cell pandas counts as null: the key is absent or holds `None`. */
  predicate IsMissing(r: Record, c: string)
  {
    c !in r || r[c] == Null
  }

  /** `df[c].isnull().sum()`. */
  function MissingCount(data: seq<Record>, c: string): (n: nat)
    ensures n <= |data|
  {
    if data == [] then 0
    else MissingCount(data[..|data| - 1], c) + (if IsMissing(data[|data| - 1], c) then 1 else 0)
  }

  /** `DataProcessor.generate_report`, without `numeric_stats`. */
  function GenerateReport(data: seq<Record>): (r: Report)
    ensures data == [] <==> r.NoData?
    ensures r.NoData? ==> r.error == "No data to analyze"
    ensures r.Summary? ==>
      && r.totalItems == |data|
      && r.columns == Columns(data)
      && r.missingValues == map c | c in Columns(data) :: MissingCount(data, c)
  {
    if data == [] then NoData("No data to analyze")
    else
      var cols := Columns(data);
      Summary(|data|, cols, map c | c in cols :: MissingCount(data, c))
  }

  /** The report's columns are exactly the keys some record has. */
  lemma {:induction false} ColumnsAreKeys(data: seq<Record>, c: string)
    ensures c in Columns(data) <==> exists i :: 0 <= i < |data| && c in data[i]
  {
    if data != [] {
      var prefix := data[..|data| - 1];
      ColumnsAreKeys(prefix, c);
      if c in Columns(prefix) {
        var i :| 0 <= i < |prefix| && c in prefix[i];
        assert data[i] == prefix[i];
      }
      if exists i :: 0 <= i < |data| && c in data[i] {
        var i :| 0 <= i < |data| && c in data[i];
        if i < |prefix| { assert prefix[i] == data[i]; }
      }
    }
  }

  /** A column's missing count is zero exactly when every record has a
      non-null value there, and it equals the item count exactly when no
      record has one. */
  lemma {:induction false} MissingCountBounds(data: seq<Record>, c: string)
    ensures MissingCount(data, c) == 0 <==> forall i :: 0 <= i < |data| ==> !IsMissing(data[i], c)
    ensures MissingCount(data, c) == |data| <==> forall i :: 0 <= i < |data| ==> IsMissing(data[i], c)
  {
    if data != [] {
      var prefix := data[..|data| - 1];
      MissingCountBounds(prefix, c);
      assert forall i :: 0 <= i < |prefix| ==> prefix[i] == data[i];
    }
  }

  /** On any non-empty input the report counts every record, lists exactly
      the keys some record has, and gives each of them the number of records
      where it is absent or null: zero exactly when every record has a value
      there. */
  lemma ReportDescribesData(data: seq<Record>, c: string)
    requires data != []
    ensures var r := GenerateReport(data);
            && r.Summary?
            && r.totalItems == |data|
            && r.missingValues.Keys == r.columns
            && (c in r.columns <==> exists i :: 0 <= i < |data| && c in data[i])
            && (c in r.columns ==> r.missingValues[c] == MissingCount(data, c) <= |data|)
            && (c in r.columns ==>
                  (r.missingValues[c] == 0 <==> forall i :: 0 <= i < |data| ==> !IsMissing(data[i], c)))
  {
    ColumnsAreKeys(data, c);
    MissingCountBounds(data, c);
  }

  /** On cleaned records a column is missing exactly where the key is absent,
      and every reported column is missing from fewer records than there are
      items. */
  lemma ReportOnCleanData(raw: seq<Record>)
    requires Clean(raw) != []
    ensures var data := Clean(raw);
            var r := GenerateReport(data);
            && r.Summary?
            && r.totalItems == |data|
            && r.missingValues.Keys == r.columns
            && forall c :: c in r.columns ==> r.missingValues[c] < r.totalItems
  {
    var data := Clean(raw);
    CleanHasNoBlanks(raw);
    var r := GenerateReport(data);
    forall c | c in r.columns
      ensures r.missingValues[c] < r.totalItems
    {
      ColumnsAreKeys(data, c);
      var i :| 0 <= i < |data| && c in data[i];
      assert !IsMissing(data[i], c);
      MissingCountBounds(data, c);
    }
  }

  /** tests/test_scraper.py::test_generate_report. */
  lemma ReportOfTwoBooks()
    ensures var r := GenerateReport([
              map["title" := Str("Book 1"), "price" := Num(10.99)],
              map["title" := Str("Book 2"), "price" := Num(15.99)]]);
            r.Summary? && r.totalItems == 2 && r.columns == {"title", "price"}
  {
    var r1 := map["title" := Str("Book 1"), "price" := Num(10.99)];
    var r2 := map["title" := Str("Book 2"), "price" := Num(15.99)];
    var data := [r1, r2];
    assert data[..1] == [r1] && [r1][..0] == [];
    assert Columns([r1]) == r1.Keys;
  }
}
