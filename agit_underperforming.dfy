/**
 * parse_underperforming of the Agit importer (scripts/parse-agit-v2.py):
 * the selected month-end files of both centers parsed in turn, and the
 * first-seen dedup of the records on (center, agent id, week label).
 */
module AgitUnderperforming {
  import opened Wrappers
  import opened AgitSheets
  import opened AgitLayouts

  // ================================================================ dedup

  type Key = (string, string, string)

  /** The dedup key: center, agent English id and report week label. */
  function KeyOf(r: UnderRecord): Key {
    (r.center, r.agentId, r.weekLabel)
  }

  function KeysOf(rs: seq<UnderRecord>): set<Key> {
    set i | 0 <= i < |rs| :: KeyOf(rs[i])
  }

  /** The records whose key was not seen before them, in order. */
  function Deduped(rs: seq<UnderRecord>): seq<UnderRecord>
    decreases |rs|
  {
    if rs == [] then []
    else
      var init := rs[..|rs| - 1];
      Deduped(init) + (if KeyOf(rs[|rs| - 1]) in KeysOf(init) then [] else [rs[|rs| - 1]])
  }

  /** Position i holds the first record of its key. */
  predicate FirstOfKey(rs: seq<UnderRecord>, i: nat)
    requires i < |rs|
  {
    forall j :: 0 <= j < i ==> KeyOf(rs[j]) != KeyOf(rs[i])
  }

  lemma KeysOfStep(rs: seq<UnderRecord>)
    requires rs != []
    ensures KeysOf(rs) == KeysOf(rs[..|rs| - 1]) + {KeyOf(rs[|rs| - 1])}
  {
    var init := rs[..|rs| - 1];
    assert forall i :: 0 <= i < |init| ==> init[i] == rs[i];
    forall x | x in KeysOf(rs) ensures x in KeysOf(init) + {KeyOf(rs[|rs| - 1])} {
      var i :| 0 <= i < |rs| && KeyOf(rs[i]) == x;
      if i < |init| {
        assert KeyOf(init[i]) == x;
      }
    }
  }

  /** The dedup keeps every key of its input. */
  lemma {:induction false} DedupedKeys(rs: seq<UnderRecord>)
    ensures KeysOf(Deduped(rs)) == KeysOf(rs)
    decreases |rs|
  {
    if rs != [] {
      var init := rs[..|rs| - 1];
      var last := rs[|rs| - 1];
      DedupedKeys(init);
      KeysOfStep(rs);
      var d := Deduped(init);
      if KeyOf(last) !in KeysOf(init) {
        assert Deduped(rs) == d + [last];
        KeysOfStep(d + [last]);
        assert (d + [last])[..|d|] == d;
      } else {
        assert Deduped(rs) == d;
      }
    }
  }

  /** The dedup keeps each key once. */
  lemma {:induction false} DedupedDistinct(rs: seq<UnderRecord>)
    ensures forall i, j :: 0 <= i < j < |Deduped(rs)| ==> KeyOf(Deduped(rs)[i]) != KeyOf(Deduped(rs)[j])
    decreases |rs|
  {
    if rs != [] {
      var init := rs[..|rs| - 1];
      var last := rs[|rs| - 1];
      DedupedDistinct(init);
      if KeyOf(last) !in KeysOf(init) {
        var d := Deduped(init);
        DedupedKeys(init);
        forall i | 0 <= i < |d| ensures KeyOf(d[i]) != KeyOf(last) {
          assert KeyOf(d[i]) in KeysOf(d);
        }
      }
    }
  }

  /** `x` is the first record of its key somewhere in `rs`. */
  predicate KeptFirst(rs: seq<UnderRecord>, x: UnderRecord) {
    exists i :: 0 <= i < |rs| && rs[i] == x && FirstOfKey(rs, i)
  }

  /** Each record the dedup keeps is the first of its key in the input. */
  lemma {:induction false} DedupedFirst(rs: seq<UnderRecord>)
    ensures forall k :: 0 <= k < |Deduped(rs)| ==> KeptFirst(rs, Deduped(rs)[k])
    decreases |rs|
  {
    if rs != [] {
      var init := rs[..|rs| - 1];
      var last := rs[|rs| - 1];
      var d := Deduped(init);
      var e := Deduped(rs);
      assert e == d + (if KeyOf(last) in KeysOf(init) then [] else [last]);
      DedupedFirst(init);
      forall k | 0 <= k < |e|
        ensures KeptFirst(rs, e[k])
      {
        if k < |d| {
          assert KeptFirst(init, d[k]);
          var i :| 0 <= i < |init| && init[i] == d[k] && FirstOfKey(init, i);
          assert rs[i] == init[i] && e[k] == d[k];
          assert forall j :: 0 <= j < i ==> rs[j] == init[j];
          assert FirstOfKey(rs, i);
        } else {
          assert e[k] == last;
          forall j | 0 <= j < |rs| - 1 ensures KeyOf(rs[j]) != KeyOf(last) {
            assert rs[j] == init[j];
            assert KeyOf(init[j]) in KeysOf(init);
          }
          assert FirstOfKey(rs, |rs| - 1);
        }
      }
    }
  }

  /** The positions below `n` that hold the first record of their key, increasing. */
  ghost function FirstPositions(rs: seq<UnderRecord>, n: nat): (idx: seq<nat>)
    requires n <= |rs|
    ensures forall k :: 0 <= k < |idx| ==> idx[k] < n && FirstOfKey(rs, idx[k])
    ensures forall k :: 0 <= k < |idx| - 1 ==> idx[k] < idx[k + 1]
    ensures forall j :: 0 <= j < n && FirstOfKey(rs, j) ==> j in idx
    decreases n
  {
    if n == 0 then []
    else
      var init := FirstPositions(rs, n - 1);
      var idx := init + (if FirstOfKey(rs, n - 1) then [n - 1] else []);
      assert forall k :: 0 <= k < |init| ==> idx[k] == init[k];
      idx
  }

  /** The key of record `i` occurs before it exactly when it is not the first of its key. */
  lemma SeenBefore(rs: seq<UnderRecord>, i: nat)
    requires i < |rs|
    ensures KeyOf(rs[i]) in KeysOf(rs[..i]) <==> !FirstOfKey(rs, i)
  {
    var init := rs[..i];
    if !FirstOfKey(rs, i) {
      var j :| 0 <= j < i && KeyOf(rs[j]) == KeyOf(rs[i]);
      assert init[j] == rs[j];
    }
    if KeyOf(rs[i]) in KeysOf(init) {
      var j :| 0 <= j < |init| && KeyOf(init[j]) == KeyOf(rs[i]);
      assert init[j] == rs[j];
    }
  }

  lemma {:induction false} DedupedPositions(rs: seq<UnderRecord>, n: nat)
    requires n <= |rs|
    ensures AtPositions(Deduped(rs[..n]), rs, FirstPositions(rs, n))
    decreases n
  {
    if n > 0 {
      DedupedPositions(rs, n - 1);
      assert rs[..n][..n - 1] == rs[..n - 1];
      SeenBefore(rs, n - 1);
      if FirstOfKey(rs, n - 1) {
        AtPositionsSnoc(Deduped(rs[..n - 1]), rs, FirstPositions(rs, n - 1), n - 1);
      }
    }
  }

  /**
   * The dedup is the input with every repeated key dropped and nothing reordered:
   * with idx the increasing list of the positions holding the first record of
   * their key, the k-th kept record is rs[idx[k]].
   */
  lemma DedupedInOrder(rs: seq<UnderRecord>)
    ensures var d := Deduped(rs);
      var idx := FirstPositions(rs, |rs|);
      && (forall k :: 0 <= k < |idx| - 1 ==> idx[k] < idx[k + 1])
      && (forall j :: 0 <= j < |rs| ==> (j in idx <==> FirstOfKey(rs, j)))
      && |d| == |idx| && forall k :: 0 <= k < |d| ==> d[k] == rs[idx[k]]
  {
    DedupedPositions(rs, |rs|);
    assert rs[..|rs|] == rs;
  }

  /** A second dedup changes nothing. */
  lemma {:induction false} DedupedIdempotent(rs: seq<UnderRecord>)
    ensures Deduped(Deduped(rs)) == Deduped(rs)
  {
    DedupedDistinct(rs);
    DistinctDeduped(Deduped(rs));
  }

  /** Records of pairwise distinct keys pass the dedup unchanged. */
  lemma {:induction false} DistinctDeduped(rs: seq<UnderRecord>)
    requires forall i, j :: 0 <= i < j < |rs| ==> KeyOf(rs[i]) != KeyOf(rs[j])
    ensures Deduped(rs) == rs
    decreases |rs|
  {
    if rs != [] {
      var init := rs[..|rs| - 1];
      DistinctDeduped(init);
      forall x | x in KeysOf(init) ensures x != KeyOf(rs[|rs| - 1]) {
        var i :| 0 <= i < |init| && KeyOf(init[i]) == x;
        assert rs[i] == init[i];
      }
      assert init + [rs[|rs| - 1]] == rs;
    }
  }

  /** The loop with a `seen` set. */
  method Dedup(records: seq<UnderRecord>) returns (deduped: seq<UnderRecord>)
    ensures deduped == Deduped(records)
  {
    var seen: set<Key> := {};
    deduped := [];
    var i := 0;
    while i < |records|
      invariant 0 <= i <= |records|
      invariant seen == KeysOf(records[..i]) && deduped == Deduped(records[..i])
    {
      var key := KeyOf(records[i]);
      KeysOfStep(records[..i + 1]);
      assert records[..i + 1][..i] == records[..i];
      if key !in seen {
        seen := seen + {key};
        deduped := deduped + [records[i]];
      }
      i := i + 1;
    }
    assert records[..i] == records;
  }

  // ================================================================ both centers

  /** A selected month-end file and its sheets, or None where opening or parsing it raised. */
  datatype LoadedFile = LoadedFile(entry: FileEntry, sheets: Option<seq<(string, Grid)>>)

  /** The records of one file: its center's parser with the file's month as target; none where it raised. */
  function FileRecords(center: string, f: LoadedFile): seq<UnderRecord> {
    match f.sheets
    case None => []
    case Some(sheets) =>
      if center == "용산" then YongsanWorkbook(sheets, f.entry.name, Some(f.entry.month))
      else GwangjuWorkbook(sheets, f.entry.name, Some(f.entry.month))
  }

  /** The records of a center's files, in file order. */
  function CenterRecords(center: string, files: seq<LoadedFile>): seq<UnderRecord>
    decreases |files|
  {
    if files == [] then []
    else CenterRecords(center, files[..|files| - 1]) + FileRecords(center, files[|files| - 1])
  }

  lemma CenterRecordsStep(center: string, files: seq<LoadedFile>, i: nat)
    requires i < |files|
    ensures CenterRecords(center, files[..i + 1]) == CenterRecords(center, files[..i]) + FileRecords(center, files[i])
  {
    assert files[..i + 1][..i] == files[..i];
  }

  method ParseFile(center: string, f: LoadedFile) returns (records: seq<UnderRecord>)
    ensures records == FileRecords(center, f)
  {
    if f.sheets.None? {
      return [];
    }
    if center == "용산" {
      records := ParseYongsanXlsx(f.sheets.value, f.entry.name, Some(f.entry.month));
    } else {
      records := ParseGwangjuXlsx(f.sheets.value, f.entry.name, Some(f.entry.month));
    }
  }

  method ParseCenter(center: string, files: seq<LoadedFile>) returns (records: seq<UnderRecord>)
    ensures records == CenterRecords(center, files)
  {
    records := [];
    var i := 0;
    while i < |files|
      invariant 0 <= i <= |files|
      invariant records == CenterRecords(center, files[..i])
    {
      CenterRecordsStep(center, files, i);
      var more := ParseFile(center, files[i]);
      records := records + more;
      i := i + 1;
    }
    assert files[..i] == files;
  }

  /** Each selected file with what the workbook loader made of it (None where loading raised). */
  function Loaded(selected: seq<FileEntry>, load: FileEntry -> Option<seq<(string, Grid)>>): (r: seq<LoadedFile>)
    ensures |r| == |selected| && forall k :: 0 <= k < |r| ==> r[k].entry == selected[k] && r[k].sheets == load(selected[k])
  {
    seq(|selected|, k requires 0 <= k < |selected| => LoadedFile(selected[k], load(selected[k])))
  }

  /**
   * One center's pass: the walked file names filtered, the month-end file of
   * each month selected, and the selected files loaded and parsed in month order.
   */
  method RunCenter(center: string, names: seq<string>, load: FileEntry -> Option<seq<(string, Grid)>>)
    returns (records: seq<UnderRecord>, selected: seq<FileEntry>)
    ensures forall i, j :: 0 <= i < j < |selected| ==> selected[i].month < selected[j].month
    ensures Months(selected) == Months(ExcelFiles(center, names))
    ensures forall i :: 0 <= i < |selected| ==>
      MonthFiles(ExcelFiles(center, names), selected[i].month) != []
      && selected[i] == LastMax(MonthFiles(ExcelFiles(center, names), selected[i].month))
    ensures records == CenterRecords(center, Loaded(selected, load))
  {
    selected := SelectMonthEndFiles(ExcelFiles(center, names));
    records := ParseCenter(center, Loaded(selected, load));
  }

  /** parse_underperforming: Yongsan's selected files, then Gwangju's, deduped. */
  method ParseUnderperforming(yongsanNames: seq<string>, gwangjuNames: seq<string>, load: FileEntry -> Option<seq<(string, Grid)>>)
    returns (deduped: seq<UnderRecord>, yongsan: seq<FileEntry>, gwangju: seq<FileEntry>)
    ensures Months(yongsan) == Months(ExcelFiles("용산", yongsanNames))
    ensures Months(gwangju) == Months(ExcelFiles("광주", gwangjuNames))
    ensures forall i :: 0 <= i < |yongsan| ==>
      MonthFiles(ExcelFiles("용산", yongsanNames), yongsan[i].month) != []
      && yongsan[i] == LastMax(MonthFiles(ExcelFiles("용산", yongsanNames), yongsan[i].month))
    ensures forall i :: 0 <= i < |gwangju| ==>
      MonthFiles(ExcelFiles("광주", gwangjuNames), gwangju[i].month) != []
      && gwangju[i] == LastMax(MonthFiles(ExcelFiles("광주", gwangjuNames), gwangju[i].month))
    ensures deduped == Deduped(CenterRecords("용산", Loaded(yongsan, load)) + CenterRecords("광주", Loaded(gwangju, load)))
  {
    var all, more;
    all, yongsan := RunCenter("용산", yongsanNames, load);
    more, gwangju := RunCenter("광주", gwangjuNames, load);
    all := all + more;
    deduped := Dedup(all);
  }
}
