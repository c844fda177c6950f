/** The three CSV reports: a header line, then one row per tally entry in
    the order the tally enumerates its keys. A row keeps the key and the
    byte count; rendering it as text is not modelled. */
module Reports {
  import opened Wrappers
  import opened Tallies

  datatype Row<K> = Row(key: K, bytes: int)

  datatype Report<K> = Report(header: string, rows: seq<Row<K>>)

  const ExtensionHeader := "Extension,GB"
  const DateHeader := "Date,GB"
  const FolderHeader := "Folder,GB"

  /** Bytes per gigabyte, the divisor of `BytesToGB`. */
  const BytesPerGB: nat := 1073741824

  /** `BytesToGB`, with exact rational division. */
  function BytesToGB(bytes: int): (gb: real)
    ensures gb * BytesPerGB as real == bytes as real
    ensures bytes >= 0 ==> gb >= 0.0
  {
    bytes as real / BytesPerGB as real
  }

  /** One row per key of `ks`, in that order. */
  function RowsOf<K>(t: Tally<K>, ks: seq<K>): seq<Row<K>>
    decreases |ks|
  {
    if ks == [] then []
    else
      var k := ks[|ks| - 1];
      RowsOf(t, ks[..|ks| - 1]) + [Row(k, Get(t, k))]
  }

  /** One row per entry of the tally, in first-insertion order. */
  function Rows<K>(t: Tally<K>): seq<Row<K>>
  {
    RowsOf(t, t.order)
  }

  /** The rows whose byte count is at least `min`, in their order. */
  function AtLeast<K>(rows: seq<Row<K>>, min: int): seq<Row<K>>
    decreases |rows|
  {
    if rows == [] then []
    else
      var last := rows[|rows| - 1];
      AtLeast(rows[..|rows| - 1], min) + (if last.bytes >= min then [last] else [])
  }

  /** The rows for the keys `ks`: every row, or only those at or above the threshold. */
  function SelectedOf<K>(t: Tally<K>, ks: seq<K>, threshold: Option<int>): seq<Row<K>>
  {
    match threshold
    case None => RowsOf(t, ks)
    case Some(min) => AtLeast(RowsOf(t, ks), min)
  }

  /** The rows a report holds. */
  function Selected<K>(t: Tally<K>, threshold: Option<int>): seq<Row<K>>
  {
    SelectedOf(t, t.order, threshold)
  }

  /** One more key adds its row at the end, unless the threshold drops it. */
  lemma SelectedOfSnoc<K>(t: Tally<K>, ks: seq<K>, k: K, threshold: Option<int>)
    ensures SelectedOf(t, ks + [k], threshold) ==
      SelectedOf(t, ks, threshold) +
      (if threshold.None? || Get(t, k) >= threshold.value then [Row(k, Get(t, k))] else [])
  {
  }

  /** The extension report: its header, then one row per extension in
      first-insertion order, each with the bytes recorded under it. */
  function ExtensionReport(t: Tally<string>): (r: Report<string>)
    ensures r.header == ExtensionHeader && |r.rows| == |t.order|
    ensures forall i :: 0 <= i < |t.order| ==> r.rows[i] == Row(t.order[i], Get(t, t.order[i]))
  {
    RowsListEveryEntry(t, t.order);
    Report(ExtensionHeader, Rows(t))
  }

  /** The date report: its header, then one row per date in first-insertion
      order, each with the bytes recorded under it. */
  function DateReport(t: Tally<nat>): (r: Report<nat>)
    ensures r.header == DateHeader && |r.rows| == |t.order|
    ensures forall i :: 0 <= i < |t.order| ==> r.rows[i] == Row(t.order[i], Get(t, t.order[i]))
  {
    RowsListEveryEntry(t, t.order);
    Report(DateHeader, Rows(t))
  }

  /** The folder report: its header, then the rows of the folders holding at
      least `minBytes` bytes, in first-insertion order. */
  function FolderReport(t: Tally<string>, minBytes: int): (r: Report<string>)
    ensures r.header == FolderHeader
    ensures forall x :: x in r.rows <==> x in Rows(t) && x.bytes >= minBytes
  {
    var rows := AtLeast(Rows(t), minBytes);
    assert forall x :: x in rows <==> x in Rows(t) && x.bytes >= minBytes by {
      forall x
        ensures x in rows <==> x in Rows(t) && x.bytes >= minBytes
      {
        AtLeastKeeps(Rows(t), minBytes, x);
      }
    }
    Report(FolderHeader, rows)
  }

  /** An unfiltered report lists the entries in first-insertion order, the
      i-th row holding the i-th key and the bytes recorded under it. */
  lemma {:induction false} RowsListEveryEntry<K>(t: Tally<K>, ks: seq<K>)
    ensures |RowsOf(t, ks)| == |ks|
    ensures forall i :: 0 <= i < |ks| ==> RowsOf(t, ks)[i] == Row(ks[i], Get(t, ks[i]))
    decreases |ks|
  {
    if ks != [] {
      RowsListEveryEntry(t, ks[..|ks| - 1]);
    }
  }

  /** A row survives the threshold exactly when its byte count reaches it. */
  lemma {:induction false} AtLeastKeeps<K>(rows: seq<Row<K>>, min: int, x: Row<K>)
    ensures x in AtLeast(rows, min) <==> x in rows && x.bytes >= min
    decreases |rows|
  {
    if rows != [] {
      var init := rows[..|rows| - 1];
      AtLeastKeeps(init, min, x);
      assert rows == init + [rows[|rows| - 1]];
    }
  }

  /** Filtering keeps the relative order of the rows: it distributes over concatenation. */
  lemma {:induction false} AtLeastAppend<K>(a: seq<Row<K>>, b: seq<Row<K>>, min: int)
    ensures AtLeast(a + b, min) == AtLeast(a, min) + AtLeast(b, min)
    decreases |b|
  {
    if b == [] {
      assert a + b == a;
    } else {
      var init := b[..|b| - 1];
      assert (a + b)[..|a + b| - 1] == a + init;
      AtLeastAppend(a, init, min);
    }
  }

  /** The folder report holds a row for key `k` exactly when `k` has an
      entry of at least `minBytes` bytes, and the row carries that entry. */
  lemma FolderReportRows(t: Tally<string>, minBytes: int, k: string, v: int)
    requires Valid(t)
    ensures Row(k, v) in FolderReport(t, minBytes).rows <==>
            k in t.bytes && v == t.bytes[k] && v >= minBytes
  {
    AtLeastKeeps(Rows(t), minBytes, Row(k, v));
    RowsListEveryEntry(t, t.order);
    if k in t.bytes {
      var i :| 0 <= i < |t.order| && t.order[i] == k;
      assert Rows(t)[i] == Row(k, t.bytes[k]);
    }
  }

  /** The report-writing loop: one row per entry in enumeration order,
      skipping entries below the threshold when there is one. */
  method EmitRows<K>(t: Tally<K>, threshold: Option<int>) returns (rows: seq<Row<K>>)
    ensures rows == Selected(t, threshold)
  {
    rows := [];
    var keys := t.order;
    var i := 0;
    while i < |keys|
      invariant 0 <= i <= |keys|
      invariant rows == SelectedOf(t, keys[..i], threshold)
    {
      var key := keys[i];
      var bytes := Get(t, key);
      SelectedOfSnoc(t, keys[..i], key, threshold);
      assert keys[..i + 1] == keys[..i] + [key];
      if threshold.None? || bytes >= threshold.value {
        rows := rows + [Row(key, bytes)];
      }
      i := i + 1;
    }
    assert keys[..i] == keys;
  }
}
