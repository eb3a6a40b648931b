/**
 * The batch panel (`BatchPanel`): rows imported from CSV, printed one label
 * per row with a single language probe, or saved as assets.
 */
module BatchPanel {
  import opened Wrappers
  import opened Text
  import opened Labels
  import opened Detection
  import opened Coordinator
  import opened LabelFiles
  import opened Store
  import opened EncodePanel

  /** A CSV row: its columns, and the marks the print loop leaves on it. */
  datatype Row = Row(columns: map<string, string>, printed: bool, failed: bool)

  /** `row.get(key, default)`. */
  function Column(row: Row, key: string, default: string): string
  {
    if key in row.columns then row.columns[key] else default
  }

  const DEFAULT_TYPE: string := "Standard (Plastic)"

  /** The row's asset id and EPC, stripped. */
  function RowId(row: Row): string
  {
    Strip(Column(row, "asset_id", ""))
  }

  function RowFields(row: Row): LabelFields
  {
    LabelFields(RowId(row), Strip(Column(row, "epc", "")), Column(row, "name", ""),
      Column(row, "location", ""), TagTypeLabel(Column(row, "type", DEFAULT_TYPE)))
  }

  /** `port = int(get_setting("printer_port") or "9100")`, 9100 when int() rejects it. */
  function BatchPort(portText: string): (port: int)
    ensures portText == "" ==> port == DEFAULT_PORT
    ensures ParseInt(portText).Some? ==> port == ParseInt(portText).value
    ensures portText != "" && ParseInt(portText).None? ==> port == DEFAULT_PORT
  {
    DefaultPortText();
    match ParseInt(OrElse(portText, "9100"))
    case Some(p) => p
    case None => DEFAULT_PORT
  }

  /** The default port text reads as 9100. */
  lemma DefaultPortText()
    ensures ParseInt("9100") == Some(DEFAULT_PORT)
  {
    assert NatToString(9100) == "9100" by {
      assert NatToString(9) == "9";
      assert NatToString(91) == "91";
      assert NatToString(910) == "910";
    }
    IntToStringRoundTrip(9100);
  }

  /** The language used for every row: probed once for auto on a network printer, else the setting. */
  function EffectiveLanguage(s: PrintSettings, probe: Probe): (lang: string)
    ensures s.language == AUTO && s.mode == MODE_NETWORK && s.host != "" ==> lang == IPL || lang == ZPL
    ensures !(s.language == AUTO && s.mode == MODE_NETWORK && s.host != "") ==> lang == s.language
  {
    if s.language == AUTO && s.mode == MODE_NETWORK && s.host != "" then
      if DetectLanguage(probe) == IPL then IPL else ZPL
    else s.language
  }

  /** With the effective language fixed up front, printing a row never probes the printer again. */
  lemma RowsNeverProbe(s: PrintSettings, probe: Probe, f: LabelFields, port: int, w: World)
    ensures !PrintLabel(f, s.mode, s.host, port, s.usbName, EffectiveLanguage(s, probe), w).probed
  {
  }

  /** What the loop did with one row. */
  datatype RowResult = RowSkipped | RowPrinted(report: PrintReport, backup: Backup) | RowFailed(report: PrintReport)

  /** What the outside world did while one row was printed, and the clock reading for its backup. */
  datatype RowWorld = RowWorld(env: World, backupTs: string)

  /** What a printed row comes to: a backup when the print succeeded, an error otherwise. */
  function RowOutcome(report: PrintReport, f: LabelFields, w: RowWorld): (r: RowResult)
    ensures !r.RowSkipped? && r.report == report
    ensures r.RowPrinted? <==> report.ok
    ensures r.RowPrinted? ==> r.backup == BackupFor(report.lang, f, w.backupTs, w.env.qr)
  {
    if report.ok then RowPrinted(report, BackupFor(report.lang, f, w.backupTs, w.env.qr))
    else RowFailed(report)
  }

  /** One iteration: skip a row without an id, else print it and keep a backup if the print succeeded. */
  function RowStep(row: Row, s: PrintSettings, lang: string, w: RowWorld): RowResult
  {
    if RowId(row) == "" then RowSkipped
    else RowOutcome(PrintLabel(RowFields(row), s.mode, s.host, BatchPort(s.portText), s.usbName, lang, w.env), RowFields(row), w)
  }

  /**
   * A row is skipped exactly when it has no id; any other row is printed
   * with the batch's settings and language, and its outcome follows from
   * that print alone.
   */
  lemma RowStepKinds(row: Row, s: PrintSettings, lang: string, w: RowWorld)
    ensures var r := RowStep(row, s, lang, w);
      (r.RowSkipped? <==> RowId(row) == "") &&
      (!r.RowSkipped? ==>
        r == RowOutcome(PrintLabel(RowFields(row), s.mode, s.host, BatchPort(s.portText), s.usbName, lang, w.env), RowFields(row), w))
  {
  }

  /** The result of every row, in order. */
  function Results(rows: seq<Row>, s: PrintSettings, lang: string, worlds: seq<RowWorld>): (rs: seq<RowResult>)
    requires |worlds| == |rows|
    ensures |rs| == |rows|
    decreases |rows|
  {
    if rows == [] then []
    else
      var n := |rows| - 1;
      Results(rows[..n], s, lang, worlds[..n]) + [RowStep(rows[n], s, lang, worlds[n])]
  }

  /** The results of the first i + 1 rows are those of the first i, then row i's step. */
  lemma ResultsSnoc(rows: seq<Row>, s: PrintSettings, lang: string, worlds: seq<RowWorld>, i: int)
    requires |worlds| == |rows| && 0 <= i < |rows|
    ensures Results(rows[..i + 1], s, lang, worlds[..i + 1]) ==
      Results(rows[..i], s, lang, worlds[..i]) + [RowStep(rows[i], s, lang, worlds[i])]
  {
    assert rows[..i + 1][..i] == rows[..i] && worlds[..i + 1][..i] == worlds[..i];
  }

  /** Row k's result is the step taken on row k in world k. */
  lemma {:induction false} ResultsAt(rows: seq<Row>, s: PrintSettings, lang: string, worlds: seq<RowWorld>, k: int)
    requires |worlds| == |rows| && 0 <= k < |rows|
    ensures Results(rows, s, lang, worlds)[k] == RowStep(rows[k], s, lang, worlds[k])
    decreases |rows|
  {
    hide RowStep;
    var n := |rows| - 1;
    if k < n {
      ResultsAt(rows[..n], s, lang, worlds[..n], k);
    }
  }

  /** The marks a row carries after its iteration. */
  function Marked(row: Row, r: RowResult): (m: Row)
    ensures m.columns == row.columns
    ensures m.printed == (row.printed || r.RowPrinted?)
    ensures m.failed == (row.failed || r.RowFailed?)
  {
    match r
    case RowSkipped => row
    case RowPrinted(_, _) => row.(printed := true)
    case RowFailed(_) => row.(failed := true)
  }

  function CountPrinted(rs: seq<RowResult>): nat
  {
    if rs == [] then 0 else CountPrinted(rs[..|rs| - 1]) + (if rs[|rs| - 1].RowPrinted? then 1 else 0)
  }

  function CountFailed(rs: seq<RowResult>): nat
  {
    if rs == [] then 0 else CountFailed(rs[..|rs| - 1]) + (if rs[|rs| - 1].RowFailed? then 1 else 0)
  }

  function CountSkipped(rs: seq<RowResult>): nat
  {
    if rs == [] then 0 else CountSkipped(rs[..|rs| - 1]) + (if rs[|rs| - 1].RowSkipped? then 1 else 0)
  }

  /** The backups of the printed rows, in row order. */
  function Backups(rs: seq<RowResult>): seq<Backup>
  {
    if rs == [] then []
    else Backups(rs[..|rs| - 1]) + (if rs[|rs| - 1].RowPrinted? then [rs[|rs| - 1].backup] else [])
  }

  /** Appending one result adds it to exactly the tally its kind names. */
  lemma AppendResult(rs: seq<RowResult>, r: RowResult)
    ensures CountPrinted(rs + [r]) == CountPrinted(rs) + (if r.RowPrinted? then 1 else 0)
    ensures CountFailed(rs + [r]) == CountFailed(rs) + (if r.RowFailed? then 1 else 0)
    ensures CountSkipped(rs + [r]) == CountSkipped(rs) + (if r.RowSkipped? then 1 else 0)
    ensures Backups(rs + [r]) == Backups(rs) + (if r.RowPrinted? then [r.backup] else [])
  {
    assert (rs + [r])[..|rs|] == rs;
  }

  /** No results, no tallies and no backups. */
  lemma NoResults()
    ensures CountPrinted([]) == 0 && CountFailed([]) == 0 && CountSkipped([]) == 0 && Backups([]) == []
  {
  }

  /** Every row is counted exactly once: printed, failed or skipped. */
  lemma {:induction false} CountsPartition(rs: seq<RowResult>)
    ensures CountPrinted(rs) + CountFailed(rs) + CountSkipped(rs) == |rs|
  {
    if rs != [] {
      CountsPartition(rs[..|rs| - 1]);
    }
  }

  /** One backup per printed result, each the backup that result carries. */
  lemma {:induction false} BackupsOfPrinted(rs: seq<RowResult>)
    ensures |Backups(rs)| == CountPrinted(rs)
    ensures forall b :: b in Backups(rs) ==> exists k :: 0 <= k < |rs| && rs[k].RowPrinted? && b == rs[k].backup
  {
    if rs != [] {
      var n := |rs| - 1;
      BackupsOfPrinted(rs[..n]);
      forall b | b in Backups(rs)
        ensures exists k :: 0 <= k < |rs| && rs[k].RowPrinted? && b == rs[k].backup
      {
        if b in Backups(rs[..n]) {
          var k :| 0 <= k < n && rs[..n][k].RowPrinted? && b == rs[..n][k].backup;
          assert rs[k] == rs[..n][k];
        } else {
          assert rs[n].RowPrinted? && b == rs[n].backup;
        }
      }
    }
  }

  /**
   * A batch keeps one backup per printed row, and each is that row's label
   * rendered in the language the row's print used, named
   * `<asset_id>.<ext>` with the extension of that language.
   */
  lemma BackupsFollowLanguageUsed(rows: seq<Row>, s: PrintSettings, lang: string, worlds: seq<RowWorld>)
    requires |worlds| == |rows|
    ensures var rs := Results(rows, s, lang, worlds);
      |Backups(rs)| == CountPrinted(rs) &&
      forall b :: b in Backups(rs) ==>
        exists k ::
          0 <= k < |rows| && rs[k].RowPrinted? &&
          b == BackupFor(rs[k].report.lang, RowFields(rows[k]), worlds[k].backupTs, worlds[k].env.qr) &&
          b.fileName == RowId(rows[k]) + "." + Extension(rs[k].report.lang)
  {
    var rs := Results(rows, s, lang, worlds);
    BackupsOfPrinted(rs);
    forall b | b in Backups(rs)
      ensures exists k ::
        0 <= k < |rows| && rs[k].RowPrinted? &&
        b == BackupFor(rs[k].report.lang, RowFields(rows[k]), worlds[k].backupTs, worlds[k].env.qr) &&
        b.fileName == RowId(rows[k]) + "." + Extension(rs[k].report.lang)
    {
      var k :| 0 <= k < |rs| && rs[k].RowPrinted? && b == rs[k].backup;
      ResultsAt(rows, s, lang, worlds, k);
    }
  }

  /** The summary of a batch print. */
  datatype BatchReport = BatchReport(success: nat, errors: nat, skipped: nat, probed: bool, backups: seq<Backup>)

  /**
   * `_batch_print()`: nothing happens without rows; otherwise the language is
   * settled once, then every row is skipped, printed or failed, in order,
   * and marked accordingly.
   */
  method BatchPrint(settings: map<string, string>, rows: array<Row>, probe: Probe, worlds: seq<RowWorld>)
    returns (report: BatchReport)
    requires |worlds| == rows.Length
    modifies rows
    ensures var results := Results(old(rows[..]), ReadPrintSettings(settings),
                                   EffectiveLanguage(ReadPrintSettings(settings), probe), worlds);
      report.success == CountPrinted(results) &&
      report.errors == CountFailed(results) &&
      report.skipped == CountSkipped(results) &&
      report.backups == Backups(results) &&
      (forall k :: 0 <= k < rows.Length ==> rows[k] == Marked(old(rows[k]), results[k]))
    ensures var s := ReadPrintSettings(settings);
      report.probed <==> rows.Length > 0 && s.language == AUTO && s.mode == MODE_NETWORK && s.host != ""
  {
    var s := ReadPrintSettings(settings);
    if rows.Length == 0 {
      return BatchReport(0, 0, 0, false, []);
    }
    var lang := EffectiveLanguage(s, probe);
    var probed := s.language == AUTO && s.mode == MODE_NETWORK && s.host != "";
    var success, errors, skipped, backups := PrintRows(rows, s, lang, worlds);
    report := BatchReport(success, errors, skipped, probed, backups);
  }

  /** The loop of `_batch_print`: every row in order, with the language already settled. */
  method PrintRows(rows: array<Row>, s: PrintSettings, lang: string, worlds: seq<RowWorld>)
    returns (success: nat, errors: nat, skipped: nat, backups: seq<Backup>)
    requires |worlds| == rows.Length
    modifies rows
    ensures var results := Results(old(rows[..]), s, lang, worlds);
      success == CountPrinted(results) && errors == CountFailed(results) &&
      skipped == CountSkipped(results) && backups == Backups(results) &&
      (forall k :: 0 <= k < rows.Length ==> rows[k] == Marked(old(rows[k]), results[k]))
  {
    hide RowStep, Results, Marked, CountPrinted, CountFailed, CountSkipped, Backups;
    ghost var input := rows[..];
    ghost var results: seq<RowResult> := [];
    success, errors, skipped, backups := 0, 0, 0, [];
    NoResults();
    var i := 0;
    while i < rows.Length
      invariant 0 <= i <= rows.Length
      invariant |results| == i
      invariant results == Results(input[..i], s, lang, worlds[..i])
      invariant forall k :: 0 <= k < i ==> rows[k] == Marked(input[k], results[k])
      invariant forall k :: i <= k < rows.Length ==> rows[k] == input[k]
      invariant success == CountPrinted(results) && errors == CountFailed(results) && skipped == CountSkipped(results)
      invariant backups == Backups(results)
    {
      var row := rows[i];
      var r := RowStep(row, s, lang, worlds[i]);
      if r.RowSkipped? {
        skipped := skipped + 1;
      } else if r.RowPrinted? {
        success := success + 1;
        backups := backups + [r.backup];
      } else {
        errors := errors + 1;
      }
      rows[i] := Marked(row, r);
      AppendResult(results, r);
      ResultsSnoc(input, s, lang, worlds, i);
      results := results + [r];
      i := i + 1;
    }
    assert input[..rows.Length] == input && worlds[..rows.Length] == worlds;
  }

  /** The asset `_save_all` inserts for a row: nothing is stripped except the id and the EPC. */
  function RowAsset(row: Row): (a: Asset)
    ensures a.assetId == RowId(row)
    ensures a.epc.None? <==> Strip(Column(row, "epc", "")) == ""
  {
    var epc := Strip(Column(row, "epc", ""));
    Asset(RowId(row), if epc == "" then None else Some(epc), Column(row, "name", ""),
      Column(row, "type", DEFAULT_TYPE), Column(row, "location", ""), Column(row, "department", ""),
      Column(row, "status", "PENDING"), Column(row, "notes", ""), None)
  }

  /** The running state of `_save_all`: the assets table and the two counters. */
  datatype SaveTally = SaveTally(assets: seq<Asset>, saved: nat, skipped: nat)

  /**
   * One row of `_save_all`: skipped without an id or when its EPC is already
   * on an asset; otherwise inserted, and skipped when the insert is refused.
   */
  function SaveStep(t: SaveTally, row: Row): SaveTally
  {
    var aid := RowId(row);
    var epc := Strip(Column(row, "epc", ""));
    if aid == "" || (epc != "" && HasEpc(t.assets, epc)) || HasId(t.assets, aid) then
      t.(skipped := t.skipped + 1)
    else
      SaveTally(t.assets + [RowAsset(row)], t.saved + 1, t.skipped)
  }

  /** `_save_all` over `rows`, starting from the assets table `assets`. */
  function SaveRows(assets: seq<Asset>, rows: seq<Row>): SaveTally
    decreases |rows|
  {
    if rows == [] then SaveTally(assets, 0, 0)
    else SaveStep(SaveRows(assets, rows[..|rows| - 1]), rows[|rows| - 1])
  }

  /** Saving the first i + 1 rows is saving the first i, then row i. */
  lemma SaveRowsSnoc(assets: seq<Asset>, rows: seq<Row>, i: int)
    requires 0 <= i < |rows|
    ensures SaveRows(assets, rows[..i + 1]) == SaveStep(SaveRows(assets, rows[..i]), rows[i])
  {
    assert rows[..i + 1][..i] == rows[..i];
  }

  /**
   * Every row is either saved or skipped, each saved row appends one asset
   * after the existing ones, and the UNIQUE constraints still hold.
   */
  lemma {:induction false} SaveRowsFacts(assets: seq<Asset>, rows: seq<Row>)
    requires Unique(assets)
    ensures var t := SaveRows(assets, rows);
      t.saved + t.skipped == |rows| &&
      |t.assets| == |assets| + t.saved &&
      t.assets[..|assets|] == assets &&
      Unique(t.assets)
    decreases |rows|
  {
    if rows != [] {
      var n := |rows| - 1;
      var prev := SaveRows(assets, rows[..n]);
      SaveRowsFacts(assets, rows[..n]);
      var t := SaveRows(assets, rows);
      if t.saved != prev.saved {
        assert t.assets[..|assets|] == prev.assets[..|assets|];
        NewRowKeepsUnique(prev.assets, rows[n]);
      }
    }
  }

  /** One row adds nothing to the table, or its own asset at the end. */
  lemma SaveStepAppends(t: SaveTally, row: Row)
    ensures SaveStep(t, row).assets == t.assets || SaveStep(t, row).assets == t.assets + [RowAsset(row)]
  {
  }

  /** Every asset `_save_all` adds is the asset of one of the rows. */
  lemma {:induction false} SaveRowsProvenance(assets: seq<Asset>, rows: seq<Row>)
    ensures var t := SaveRows(assets, rows);
      |assets| <= |t.assets| &&
      forall a :: a in t.assets[|assets|..] ==> exists row :: row in rows && a == RowAsset(row)
    decreases |rows|
  {
    if rows != [] {
      hide SaveStep, RowAsset, SaveRows;
      var n := |rows| - 1;
      var prev := SaveRows(assets, rows[..n]);
      SaveRowsProvenance(assets, rows[..n]);
      SaveStepAppends(prev, rows[n]);
      SaveRowsSnoc(assets, rows, n);
      assert rows[..n + 1] == rows;
      ExtendProvenance(|assets|, prev.assets, SaveRows(assets, rows).assets, rows, n);
    }
  }

  /** Adding nothing, or row n's asset, keeps every added asset traceable to a row. */
  lemma ExtendProvenance(base: nat, before: seq<Asset>, after: seq<Asset>, rows: seq<Row>, n: nat)
    requires n < |rows| && base <= |before|
    requires after == before || after == before + [RowAsset(rows[n])]
    requires forall a :: a in before[base..] ==> exists row :: row in rows[..n] && a == RowAsset(row)
    ensures base <= |after|
    ensures forall a :: a in after[base..] ==> exists row :: row in rows && a == RowAsset(row)
  {
    hide RowAsset;
    forall a | a in after[base..]
      ensures exists row :: row in rows && a == RowAsset(row)
    {
      if a in before[base..] {
        var row :| row in rows[..n] && a == RowAsset(row);
        assert row in rows;
      } else {
        assert after[base..] == before[base..] + [RowAsset(rows[n])];
        assert rows[n] in rows;
      }
    }
  }

  /** A row that passes both checks can be appended without breaking the UNIQUE constraints. */
  lemma NewRowKeepsUnique(assets: seq<Asset>, row: Row)
    requires Unique(assets)
    requires !HasId(assets, RowId(row))
    requires Strip(Column(row, "epc", "")) == "" || !HasEpc(assets, Strip(Column(row, "epc", "")))
    ensures Unique(assets + [RowAsset(row)])
  {
    var a := RowAsset(row);
    var all := assets + [a];
    forall i, j | 0 <= i < j < |all|
      ensures all[i].assetId != all[j].assetId && (all[i].epc.Some? ==> all[i].epc != all[j].epc)
    {
      if j == |assets| {
        assert all[i] == assets[i];
        if a.epc.Some? {
          assert !HasEpc(assets, a.epc.value);
        }
      }
    }
  }

  /**
   * `_save_all()`: insert every row with an id whose EPC is not already
   * taken; everything else is skipped.
   */
  method SaveAll(db: Database, rows: seq<Row>) returns (saved: nat, skipped: nat)
    requires db.Valid()
    modifies db
    ensures db.Valid()
    ensures SaveTally(db.assets, saved, skipped) == SaveRows(old(db.assets), rows)
    ensures db.settings == old(db.settings) && db.scanLog == old(db.scanLog)
  {
    saved, skipped := 0, 0;
    ghost var before := db.assets;
    var i := 0;
    while i < |rows|
      invariant 0 <= i <= |rows|
      invariant db.Valid()
      invariant SaveTally(db.assets, saved, skipped) == SaveRows(before, rows[..i])
      invariant db.settings == old(db.settings) && db.scanLog == old(db.scanLog)
    {
      var row := rows[i];
      var aid := RowId(row);
      var epc := Strip(Column(row, "epc", ""));
      SaveRowsSnoc(before, rows, i);
      if aid == "" {
        skipped := skipped + 1;
      } else if epc != "" && db.EpcExists(epc) {
        skipped := skipped + 1;
      } else {
        var error := db.InsertAsset(RowAsset(row));
        if error.None? {
          saved := saved + 1;
        } else {
          skipped := skipped + 1;
        }
      }
      i := i + 1;
    }
    assert rows[..i] == rows;
  }
}
