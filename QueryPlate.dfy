/** src/queryPlate.ts: `queryPlate` turns what the bid page showed for one plate into a
    result, and `main` routes every result to one of two streams of JSON files,
    `results_*.json` and `notfound_*.json`, starting a new file every 500 records. The
    file system is a map from file name to contents. */
module QueryPlate {
  import opened Wrappers
  import opened Decimal
  import opened Text

  const BatchSize := 500
  const NoData: string := "查無資料"
  const Separator: string := ",\n"

  datatype QueryResult = QueryResult(plate: string, status: string, message: string)

  /** What the page gave for a plate: an exception, or the page after the query with the
      trimmed text of the "empty" first row and the inner HTML of the fifth cell of the
      first row, each when present. */
  datatype PageLookup = Threw(error: string) | Shown(emptyRow: Option<string>, amountCell: Option<string>)

  /** `queryPlate`: the empty row means not found, then the fifth cell gives the amount,
      and otherwise the result is an error with an empty message; an exception gives an
      error with its message. */
  function QueryPlate(plate: string, lookup: PageLookup): (r: QueryResult)
    ensures r.plate == plate
    ensures r.status == "not found" <==> lookup.Shown? && lookup.emptyRow.Some?
    ensures r.status == "not found" ==> r.message == lookup.emptyRow.value
    ensures r.status == "found" <==> lookup.Shown? && lookup.emptyRow.None? && lookup.amountCell.Some?
    ensures r.status == "found" ==> r.message == "決標金額 " + lookup.amountCell.value
    ensures r.status == "error" <==> lookup.Threw? || (lookup.emptyRow.None? && lookup.amountCell.None?)
    ensures r.status == "error" ==> r.message == if lookup.Threw? then lookup.error else ""
  {
    match lookup
    case Threw(error) => QueryResult(plate, "error", error)
    case Shown(emptyRow, amountCell) =>
      if emptyRow.Some? then QueryResult(plate, "not found", emptyRow.value)
      else if amountCell.Some? then QueryResult(plate, "found", "決標金額 " + amountCell.value)
      else QueryResult(plate, "error", "")
  }

  /** `isNotFound`: the status says so, or a non-empty message mentions 查無資料. */
  predicate IsNotFound(r: QueryResult) {
    r.status == "not found" || (r.message != "" && Contains(r.message, NoData))
  }

  /** An error whose message reports no data is routed with the not-found results. */
  lemma NoDataErrorIsNotFound(plate: string, prefix: string, suffix: string)
    ensures IsNotFound(QueryPlate(plate, Threw(prefix + NoData + suffix)))
  {
    var m := prefix + NoData + suffix;
    assert m[|prefix|..|prefix| + |NoData|] == NoData;
    assert OccursAt(m, NoData, |prefix|);
  }

  /** `JSON.stringify(result, null, 2)` for strings that need no escaping. */
  function Serialize(r: QueryResult): string {
    "{\n  \"plate\": \"" + r.plate + "\",\n  \"status\": \"" + r.status
      + "\",\n  \"message\": \"" + r.message + "\"\n}"
  }

  /** The two streams of files. */
  datatype Stream = Found | NotFound

  function Prefix(s: Stream): string {
    if s == Found then "results" else "notfound"
  }

  function Infix(k: nat): string {
    if k == 1 then "_t1" else "_" + NatToString(k)
  }

  /** The name of file `k` of a stream: the first is `results_t1.json` or
      `notfound_t1.json`, later ones drop the `t`. */
  function FileName(s: Stream, k: nat): string {
    Prefix(s) + Infix(k) + ".json"
  }

  /** File names of different streams, or of different positions, differ. */
  lemma FileNameInjective(s: Stream, k: nat, t: Stream, j: nat)
    requires k >= 1 && j >= 1
    requires FileName(s, k) == FileName(t, j)
    ensures s == t && k == j
  {
    var a, b := FileName(s, k), FileName(t, j);
    assert a[0] == Prefix(s)[0] && b[0] == Prefix(t)[0];
    var p := |Prefix(s)|;
    assert Infix(k) == a[p..|a| - 5];
    assert Infix(j) == b[p..|b| - 5];
    InfixSecond(k);
    InfixSecond(j);
    if k != 1 && j != 1 {
      assert Infix(k)[1..] == NatToString(k) && Infix(j)[1..] == NatToString(j);
      NatToStringInjective(k, j);
    }
  }

  /** The second character of the infix tells the first file from the others. */
  lemma InfixSecond(k: nat)
    ensures |Infix(k)| >= 2
    ensures Infix(k)[1] == 't' <==> k == 1
  {
    if k != 1 {
      assert Infix(k)[1] == NatToString(k)[0];
    }
  }

  /** The serialised results routed to a stream, in input order. */
  function Routed(rs: seq<QueryResult>, s: Stream): (items: seq<string>)
    ensures |items| <= |rs|
  {
    if rs == [] then []
    else
      var r := rs[|rs| - 1];
      Routed(rs[..|rs| - 1], s) + (if IsNotFound(r) == (s == NotFound) then [Serialize(r)] else [])
  }

  /** Every result lands in exactly one stream. */
  lemma {:induction false} RoutedPartition(rs: seq<QueryResult>)
    ensures |Routed(rs, Found)| + |Routed(rs, NotFound)| == |rs|
  {
    if rs != [] {
      RoutedPartition(rs[..|rs| - 1]);
    }
  }

  /** The records of file `k` (from 1): the `k`-th run of up to 500 consecutive items. */
  function Batch(items: seq<string>, k: nat): (b: seq<string>)
    requires k >= 1 && BatchSize * (k - 1) <= |items|
    ensures |b| <= BatchSize
  {
    items[BatchSize * (k - 1) .. if BatchSize * k <= |items| then BatchSize * k else |items|]
  }

  /** A finished file: `[`, the records separated by `,\n`, and `\n]`. */
  function Closed(items: seq<string>, k: nat): string
    requires k >= 1 && BatchSize * (k - 1) <= |items|
  {
    "[\n" + Join(Batch(items, k), Separator) + "\n]"
  }

  /** The number of files a stream of `n` records ends with: a new one is opened each
      time 500 records fill one, so there is always one more than the full ones. */
  function FileCount(n: nat): nat {
    n / BatchSize + 1
  }

  /** A file of the output directory, by stream and position. Its name on disk is
      `FileName(stream, index)`, and different files have different names
      (`FileNameInjective`), so the directory is keyed by `Path`. */
  datatype Path = Path(stream: Stream, index: nat)

  /** Files 1 .. n of a stream. */
  function Names(s: Stream, n: nat): set<Path> {
    set k | 1 <= k <= n :: Path(s, k)
  }

  lemma NamesGrow(s: Stream, n: nat)
    requires n >= 1
    ensures Path(s, n) in Names(s, n)
    ensures Names(s, n + 1) == Names(s, n) + {Path(s, n + 1)}
  {
  }

  /** Files 1 .. idx - 1 of a stream are on disk, each closed over its batch. */
  ghost predicate ClosedBefore(files: map<Path, string>, s: Stream, idx: nat, items: seq<string>) {
    && BatchSize * (idx - 1) <= |items|
    && forall k :: 1 <= k < idx ==> Path(s, k) in files && files[Path(s, k)] == Closed(items, k)
  }

  /** Files 1 .. idx - 1 of a stream are closed and file `idx` holds the items since. */
  ghost predicate Filed(files: map<Path, string>, s: Stream, idx: nat, items: seq<string>) {
    && idx >= 1 && ClosedBefore(files, s, idx, items)
    && Path(s, idx) in files
    && files[Path(s, idx)] == "[\n" + Join(items[BatchSize * (idx - 1)..], Separator)
  }

  /** A stream in the middle of the loop: files 1 .. idx - 1 are full and closed, file
      `idx` is open and holds the `count` items written since. */
  ghost predicate Open(files: map<Path, string>, s: Stream, idx: nat, count: nat, items: seq<string>) {
    idx >= 1 && count < BatchSize && |items| == BatchSize * (idx - 1) + count && Filed(files, s, idx, items)
  }

  /** A stream at the end: every file closed, the last one possibly empty. */
  ghost predicate Finished(files: map<Path, string>, s: Stream, items: seq<string>) {
    forall k :: 1 <= k <= FileCount(|items|) ==>
      Path(s, k) in files && files[Path(s, k)] == Closed(items, k)
  }

  /** The steps of src/queryPlate.ts:90-102 and 105-117, which the code writes out once per stream: a separator
      before every record but the first of a file, the record, and on the 500th record
      the closing bracket and a fresh file. */
  method AppendRecord(files: map<Path, string>, s: Stream, index: nat, count: nat, record: string,
                      ghost items: seq<string>)
    returns (files': map<Path, string>, index': nat, count': nat)
    requires Open(files, s, index, count, items)
    requires Path(s, index + 1) !in files
    ensures Open(files', s, index', count', items + [record])
    ensures index' == if count + 1 == BatchSize then index + 1 else index
    ensures files'.Keys == files.Keys + {Path(s, index')}
    ensures forall n :: n in files && n != Path(s, index) ==> files'[n] == files[n]
  {
    var path := Path(s, index);
    var content := files[path];
    if count > 0 {
      content := content + Separator;
    }
    content := content + record;
    files' := files[path := content];
    AppendToOpen(files, s, index, items, record);
    count' := count + 1;
    index' := index;
    if count' == BatchSize {
      ghost var filled := files';
      files' := files'[path := files'[path] + "\n]"];
      index' := index' + 1;
      files' := files'[Path(s, index') := "[\n"];
      count' := 0;
      RollOver(filled, s, index, items + [record]);
    }
  }

  /** Closed files stay as they are when a later file, or one of the other stream, is
      written, and when more items follow. */
  lemma ClosedKept(f: map<Path, string>, s: Stream, idx: nat, items: seq<string>, more: seq<string>,
                   p: Path, v: string)
    requires ClosedBefore(f, s, idx, items)
    requires |items| <= |more| && more[..|items|] == items
    requires p.stream != s || p.index >= idx
    ensures ClosedBefore(f[p := v], s, idx, more)
  {
    forall k | 1 <= k < idx
      ensures Batch(more, k) == Batch(items, k)
    {
      assert more[..|items|][BatchSize * (k - 1)..BatchSize * k] == more[BatchSize * (k - 1)..BatchSize * k];
    }
  }

  /** A record written to the open file, after a separator unless it is the file's first. */
  lemma AppendToOpen(f: map<Path, string>, s: Stream, idx: nat, items: seq<string>, record: string)
    requires Filed(f, s, idx, items) && |items| < BatchSize * idx
    ensures var path := Path(s, idx);
      var sep := if |items| > BatchSize * (idx - 1) then Separator else "";
      Filed(f[path := f[path] + sep + record], s, idx, items + [record])
  {
    var path := Path(s, idx);
    var items' := items + [record];
    var sep := if |items| > BatchSize * (idx - 1) then Separator else "";
    assert items'[..|items|] == items;
    ClosedKept(f, s, idx, items, items', path, f[path] + sep + record);
    var open := items[BatchSize * (idx - 1)..];
    assert items'[BatchSize * (idx - 1)..] == open + [record];
    if |open| > 0 {
      JoinAppend(open, record, Separator);
    }
  }

  /** The 500th record closes the file and opens the next one, empty. */
  lemma RollOver(f: map<Path, string>, s: Stream, idx: nat, items: seq<string>)
    requires Filed(f, s, idx, items) && |items| == BatchSize * idx
    ensures var path := Path(s, idx);
      Filed(f[path := f[path] + "\n]"][Path(s, idx + 1) := "[\n"], s, idx + 1, items)
  {
    var path := Path(s, idx);
    var f1 := f[path := f[path] + "\n]"];
    assert items[..|items|] == items;
    ClosedKept(f, s, idx, items, items, path, f[path] + "\n]");
    ClosedKept(f1, s, idx, items, items, Path(s, idx + 1), "[\n");
    assert Batch(items, idx) == items[BatchSize * (idx - 1)..];
    assert items[BatchSize * idx..] == [];
  }

  /** Writing only to a file of the other stream leaves a stream's files alone. */
  lemma OpenKept(f1: map<Path, string>, f2: map<Path, string>, s: Stream, idx: nat, count: nat,
                 items: seq<string>, p: Path)
    requires Open(f1, s, idx, count, items) && p.stream != s
    requires forall n :: n in f1 && n != p ==> n in f2 && f2[n] == f1[n]
    ensures Open(f2, s, idx, count, items)
  {
    assert forall k :: 1 <= k <= idx ==> Path(s, k) in f1 && Path(s, k) != p;
  }

  /** After a record went to stream `s`, the other stream is as it was and the files on
      disk are those of both streams so far. */
  lemma StepKept(before: map<Path, string>, after: map<Path, string>,
                 s: Stream, idx: nat, idx': nat, t: Stream, tidx: nat, tcount: nat, titems: seq<string>)
    requires s != t && idx >= 1 && (idx' == idx || idx' == idx + 1)
    requires Open(before, t, tidx, tcount, titems)
    requires before.Keys == Names(s, idx) + Names(t, tidx)
    requires after.Keys == before.Keys + {Path(s, idx')}
    requires forall n :: n in before && n != Path(s, idx) ==> after[n] == before[n]
    ensures Open(after, t, tidx, tcount, titems)
    ensures after.Keys == Names(s, idx') + Names(t, tidx)
  {
    OpenKept(before, after, t, tidx, tcount, titems, Path(s, idx));
    NamesGrow(s, idx);
    if idx' == idx {
      assert after.Keys == before.Keys;
    } else {
      calc {
        after.Keys;
        Names(s, idx) + Names(t, tidx) + {Path(s, idx + 1)};
        Names(s, idx + 1) + Names(t, tidx);
      }
    }
  }

  /** Closing the open file of a stream finishes it, with `idx` files in all. */
  lemma CloseStream(f: map<Path, string>, s: Stream, idx: nat, count: nat, items: seq<string>)
    requires Open(f, s, idx, count, items)
    ensures FileCount(|items|) == idx
    ensures Finished(f[Path(s, idx) := f[Path(s, idx)] + "\n]"], s, items)
  {
    assert Batch(items, idx) == items[BatchSize * (idx - 1)..];
  }

  /** Both streams open, stream `s` at file `idx` and the other at file `tidx`, and no
      other file on disk. */
  ghost predicate Writing(files: map<Path, string>, s: Stream, idx: nat, count: nat, items: seq<string>,
                          tidx: nat, tcount: nat, titems: seq<string>) {
    var t := if s == Found then NotFound else Found;
    && Open(files, s, idx, count, items) && Open(files, t, tidx, tcount, titems)
    && files.Keys == Names(s, idx) + Names(t, tidx)
  }

  /** The record goes to stream `s`; the other stream is left as it is. */
  method Route(files: map<Path, string>, s: Stream, index: nat, count: nat, record: string,
               ghost items: seq<string>, ghost tidx: nat, ghost tcount: nat, ghost titems: seq<string>)
    returns (files': map<Path, string>, index': nat, count': nat)
    requires Writing(files, s, index, count, items, tidx, tcount, titems)
    ensures Writing(files', s, index', count', items + [record], tidx, tcount, titems)
    ensures var t := if s == Found then NotFound else Found;
      Writing(files', t, tidx, tcount, titems, index', count', items + [record])
  {
    var t := if s == Found then NotFound else Found;
    assert Path(s, index + 1) !in Names(s, index) + Names(t, tidx);
    files', index', count' := AppendRecord(files, s, index, count, record, items);
    StepKept(files, files', s, index, index', t, tidx, tcount, titems);
  }

  /** One pass of the loop after the query (lines 87-118): the result is serialised and
      appended to the stream `isNotFound` picks. */
  method WriteRecord(files: map<Path, string>, fileIndex: nat, recordCount: nat,
                     notFoundIndex: nat, notFoundCount: nat, result: QueryResult,
                     ghost found: seq<string>, ghost missing: seq<string>)
    returns (files': map<Path, string>, fileIndex': nat, recordCount': nat,
             notFoundIndex': nat, notFoundCount': nat, ghost found': seq<string>, ghost missing': seq<string>)
    requires Writing(files, Found, fileIndex, recordCount, found, notFoundIndex, notFoundCount, missing)
    ensures found' == found + if IsNotFound(result) then [] else [Serialize(result)]
    ensures missing' == missing + if IsNotFound(result) then [Serialize(result)] else []
    ensures Writing(files', Found, fileIndex', recordCount', found', notFoundIndex', notFoundCount', missing')
  {
    var isNotFound := result.status == "not found" || (result.message != "" && Contains(result.message, NoData));
    fileIndex', recordCount', notFoundIndex', notFoundCount' := fileIndex, recordCount, notFoundIndex, notFoundCount;
    found', missing' := found, missing;
    if isNotFound {
      files', notFoundIndex', notFoundCount' :=
        Route(files, NotFound, notFoundIndex, notFoundCount, Serialize(result), missing, fileIndex, recordCount, found);
      missing' := missing + [Serialize(result)];
    } else {
      files', fileIndex', recordCount' :=
        Route(files, Found, fileIndex, recordCount, Serialize(result), found, notFoundIndex, notFoundCount, missing);
      found' := found + [Serialize(result)];
    }
  }

  /** The first file of each stream, holding only the opening bracket. */
  lemma BothOpened()
    ensures var f := map[Path(Found, 1) := "[\n"][Path(NotFound, 1) := "[\n"];
      && Open(f, Found, 1, 0, []) && Open(f, NotFound, 1, 0, [])
      && f.Keys == Names(Found, 1) + Names(NotFound, 1)
  {
    assert Names(Found, 1) == {Path(Found, 1)};
    assert Names(NotFound, 1) == {Path(NotFound, 1)};
  }

  /** One more result extends the stream it is routed to by its serialised form. */
  lemma RoutedStep(rs: seq<QueryResult>, i: nat)
    requires i < |rs|
    ensures Routed(rs[..i + 1], Found) ==
      Routed(rs[..i], Found) + if IsNotFound(rs[i]) then [] else [Serialize(rs[i])]
    ensures Routed(rs[..i + 1], NotFound) ==
      Routed(rs[..i], NotFound) + if IsNotFound(rs[i]) then [Serialize(rs[i])] else []
  {
    assert rs[..i + 1][..i] == rs[..i];
  }

  /** Closing the open file of each stream finishes both, and the files on disk are
      exactly those of the two streams. */
  lemma CloseBoth(f: map<Path, string>, fi: nat, fc: nat, found: seq<string>,
                  ni: nat, nc: nat, missing: seq<string>)
    requires Open(f, Found, fi, fc, found) && Open(f, NotFound, ni, nc, missing)
    requires f.Keys == Names(Found, fi) + Names(NotFound, ni)
    ensures var f1 := f[Path(Found, fi) := f[Path(Found, fi)] + "\n]"];
      var f2 := f1[Path(NotFound, ni) := f1[Path(NotFound, ni)] + "\n]"];
      && Finished(f2, Found, found) && Finished(f2, NotFound, missing)
      && f2.Keys == Names(Found, FileCount(|found|)) + Names(NotFound, FileCount(|missing|))
  {
    var f1 := f[Path(Found, fi) := f[Path(Found, fi)] + "\n]"];
    CloseStream(f, Found, fi, fc, found);
    OpenKept(f, f1, NotFound, ni, nc, missing, Path(Found, fi));
    CloseStream(f1, NotFound, ni, nc, missing);
    NamesGrow(Found, fi);
    NamesGrow(NotFound, ni);
  }

  /** The sequence of results the loop produces. */
  function Results(plates: seq<string>, lookups: seq<PageLookup>): (rs: seq<QueryResult>)
    requires |lookups| == |plates|
    ensures |rs| == |plates| && forall i :: 0 <= i < |rs| ==> rs[i] == QueryPlate(plates[i], lookups[i])
  {
    seq(|plates|, i requires 0 <= i < |plates| => QueryPlate(plates[i], lookups[i]))
  }

  /** `main` over the plates and what the page showed for each: both streams end with
      all their files closed, each record in its stream's batch in input order, and no
      other file is written. */
  method WriteResults(plates: seq<string>, lookups: seq<PageLookup>) returns (files: map<Path, string>)
    requires |lookups| == |plates|
    ensures var rs := Results(plates, lookups);
      && Finished(files, Found, Routed(rs, Found))
      && Finished(files, NotFound, Routed(rs, NotFound))
      && files.Keys == Names(Found, FileCount(|Routed(rs, Found)|)) + Names(NotFound, FileCount(|Routed(rs, NotFound)|))
  {
    ghost var rs := Results(plates, lookups);
    var fileIndex := 1;
    var recordCount := 0;
    files := map[Path(Found, fileIndex) := "[\n"];
    var notFoundIndex := 1;
    var notFoundCount := 0;
    files := files[Path(NotFound, notFoundIndex) := "[\n"];
    ghost var found: seq<string> := [];
    ghost var missing: seq<string> := [];
    BothOpened();

    for i := 0 to |plates|
      invariant found == Routed(rs[..i], Found) && missing == Routed(rs[..i], NotFound)
      invariant Writing(files, Found, fileIndex, recordCount, found, notFoundIndex, notFoundCount, missing)
    {
      var result := QueryPlate(plates[i], lookups[i]);
      RoutedStep(rs, i);
      files, fileIndex, recordCount, notFoundIndex, notFoundCount, found, missing :=
        WriteRecord(files, fileIndex, recordCount, notFoundIndex, notFoundCount, result, found, missing);
    }
    assert rs[..|plates|] == rs;
    ghost var before := files;
    files := files[Path(Found, fileIndex) := files[Path(Found, fileIndex)] + "\n]"];
    files := files[Path(NotFound, notFoundIndex) := files[Path(NotFound, notFoundIndex)] + "\n]"];
    CloseBoth(before, fileIndex, recordCount, found, notFoundIndex, notFoundCount, missing);
  }
}
