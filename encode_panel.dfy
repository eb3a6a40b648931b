/**
 * The "Read / Encode" panel (`ReadEncodePanel`): the asset id shown when
 * the panel opens, saving the form as an asset, and printing a single label
 * with a backup file.
 */
module EncodePanel {
  import opened Wrappers
  import opened Text
  import opened Labels
  import opened Detection
  import opened Coordinator
  import opened LabelFiles
  import opened Store

  /** The panel's input fields, as typed. */
  datatype Form = Form(
    assetId: string,
    epc: string,
    name: string,
    tagType: string,
    location: string,
    department: string,
    status: string,
    notes: string)

  /** The asset `_save` inserts: text fields stripped except type and status, an empty EPC stored as NULL. */
  function FormAsset(form: Form): (a: Asset)
    ensures a.assetId == Strip(form.assetId)
    ensures a.epc.None? <==> Strip(form.epc) == ""
    ensures a.epc.Some? ==> a.epc.value == Strip(form.epc)
    ensures a.printedAt.None?
  {
    var epc := Strip(form.epc);
    Asset(Strip(form.assetId), if epc == "" then None else Some(epc),
      Strip(form.name), form.tagType, Strip(form.location), Strip(form.department),
      form.status, Strip(form.notes), None)
  }

  /** The check that blocks a save: the EPC is already on an asset with another id. */
  predicate EpcTakenByOther(assets: seq<Asset>, assetId: string, epc: string)
  {
    epc != "" && HasEpc(assets, epc) && FindByEpc(assets, epc).value.assetId != assetId
  }

  datatype SaveOutcome =
    | MissingId
    | DuplicateEpc(epc: string)
    | SaveFailed(msg: string)
    | Saved(nextId: Result<string, string>)

  /**
   * `_save()`: refuse an empty id and an EPC held by another asset, insert
   * the asset, log the save and advance to a new id for the form.
   */
  method Save(db: Database, form: Form) returns (r: SaveOutcome)
    requires db.Valid()
    modifies db
    ensures db.Valid()
    ensures r.MissingId? <==> Strip(form.assetId) == ""
    ensures r.DuplicateEpc? <==>
      Strip(form.assetId) != "" && EpcTakenByOther(old(db.assets), Strip(form.assetId), Strip(form.epc))
    ensures r.Saved? ==> db.assets == old(db.assets) + [FormAsset(form)]
    ensures r.Saved? ==> db.scanLog == old(db.scanLog) + [ScanEntry(Strip(form.assetId), Strip(form.epc), "SAVE", "OK")]
    ensures !r.Saved? ==> db.assets == old(db.assets) && db.scanLog == old(db.scanLog) && db.settings == old(db.settings)
    ensures Strip(form.assetId) != "" && HasId(old(db.assets), Strip(form.assetId)) && !r.DuplicateEpc? ==>
      r == SaveFailed(DUPLICATE_ID_MSG)
    ensures (Strip(form.assetId) != "" && !HasId(old(db.assets), Strip(form.assetId)) &&
             (Strip(form.epc) == "" || !HasEpc(old(db.assets), Strip(form.epc)))) ==> r.Saved?
    ensures r.Saved? && Counter(old(db.settings)).None? ==> r.nextId.Err? && db.settings == old(db.settings)
    ensures r.Saved? && Counter(old(db.settings)).Some? ==>
      r.nextId == Ok(AssetIdFor(Prefix(old(db.settings)), Counter(old(db.settings)).value)) &&
      db.settings == old(db.settings)[ID_COUNTER := IntToString(Counter(old(db.settings)).value + 1)]
  {
    hide Strip, Counter, Prefix, AssetIdFor, IntToString;
    var aid := Strip(form.assetId);
    var epc := Strip(form.epc);
    if aid == "" {
      return MissingId;
    }
    if epc != "" && db.EpcExists(epc) {
      var existing := db.AssetByEpc(epc);
      if existing.Some? && existing.value.assetId != aid {
        return DuplicateEpc(epc);
      }
    }
    var error := db.InsertAsset(FormAsset(form));
    if error.Some? {
      return SaveFailed(error.value);
    }
    db.LogScan(ScanEntry(aid, epc, "SAVE", "OK"));
    var next := db.NextAssetId();
    r := Saved(next);
  }

  /**
   * The id shown when the panel opens: `next_asset_id()` followed by
   * writing back `int(id_counter or 2) - 1`, meant as a peek that consumes nothing.
   */
  method PeekAssetId(db: Database) returns (r: Result<string, string>)
    modifies db
    ensures Counter(old(db.settings)).None? ==> r.Err? && db.settings == old(db.settings)
    ensures Counter(old(db.settings)).Some? ==>
      r == Ok(AssetIdFor(Prefix(old(db.settings)), Counter(old(db.settings)).value)) &&
      Counter(db.settings) == Counter(old(db.settings)) && Prefix(db.settings) == Prefix(old(db.settings))
    ensures Counter(old(db.settings)).Some? ==>
      db.settings == old(db.settings)[ID_COUNTER := IntToString(Counter(old(db.settings)).value)]
    ensures db.assets == old(db.assets) && db.scanLog == old(db.scanLog)
  {
    hide AssetIdFor, ParseInt, IntToString, OrElse, Prefix, Counter, SettingOr;
    ghost var before := db.settings;
    r := db.NextAssetId();
    if r.Ok? {
      var n := Counter(before).value;
      IntToStringRoundTrip(n + 1);
      assert OrElse(db.settings[ID_COUNTER], "2") == IntToString(n + 1);
      var restored := ParseInt(OrElse(db.settings[ID_COUNTER], "2")).value - 1;
      db.SetSetting(ID_COUNTER, IntToString(restored));
      assert db.settings == before[ID_COUNTER := IntToString(n)];
      IntToStringRoundTrip(n);
      CounterReadsBack(before, n);
    }
  }

  /** A counter written as `str(n)` reads back as n, and the prefix is not touched. */
  lemma CounterReadsBack(settings: map<string, string>, n: int)
    ensures Counter(settings[ID_COUNTER := IntToString(n)]) == Some(n)
    ensures Prefix(settings[ID_COUNTER := IntToString(n)]) == Prefix(settings)
  {
    IntToStringRoundTrip(n);
  }

  /**
   * As written: in a fresh database the panel opens on HOSP-EQP-000001, the
   * asset is saved under it, and the id the panel advances to is
   * HOSP-EQP-000001 again, so saving the next asset as shown is refused.
   */
  method FreshSessionReissuesId() returns (shown: string, advancedTo: string, secondSave: SaveOutcome)
    ensures shown == "HOSP-EQP-000001" && advancedTo == shown
    ensures secondSave == SaveFailed(DUPLICATE_ID_MSG)
  {
    hide Strip, ParseInt, AssetIdFor, Format06d, IntToString, Counter, Prefix;
    var db := new Database(map[], [], []);
    FirstIdOfFreshDatabase();
    var peek := PeekAssetId(db);
    shown := peek.value;
    var form := Form(shown, "", "", "Standard (Plastic)", "", "", "READY", "");
    NoSpaceId(shown);
    var saved := Save(db, form);
    advancedTo := saved.nextId.value;
    assert db.assets == [FormAsset(form)];
    assert HasId(db.assets, advancedTo) by {
      assert db.assets[0].assetId == advancedTo;
    }
    secondSave := Save(db, form.(assetId := advancedTo));
  }

  /** HOSP-EQP-000001 has no white space to strip. */
  lemma NoSpaceId(id: string)
    requires id == "HOSP-EQP-000001"
    ensures Strip(id) == id
  {
    StripUnchanged(id);
  }

  /**
   * Corrected: the panel opens on a reserved id (plain `next_asset_id()`),
   * so the id it advances to after the save is a new one.
   */
  method FreshSessionAdvancesId() returns (shown: string, advancedTo: string)
    ensures shown == "HOSP-EQP-000001" && advancedTo == "HOSP-EQP-000002"
    ensures advancedTo != shown
  {
    hide Strip, ParseInt, AssetIdFor, Format06d, IntToString, Counter, Prefix;
    var db := new Database(map[], [], []);
    FirstIdOfFreshDatabase();
    var reserved := db.NextAssetId();
    shown := reserved.value;
    var form := Form(shown, "", "", "Standard (Plastic)", "", "", "READY", "");
    NoSpaceId(shown);
    NextCounterAdvances(Seed(map[]), 1);
    var saved := Save(db, form);
    advancedTo := saved.nextId.value;
    SecondIdOfFreshDatabase();
  }

  lemma SecondIdOfFreshDatabase()
    ensures AssetIdFor(DEFAULT_PREFIX, 2) == "HOSP-EQP-000002"
  {
    assert NatToString(2) == "2";
    assert Zeros(5) == "00000";
  }

  // ---------------------------------------------------------------------------
  // Printing one label

  const PRINT_MODE: string := "print_mode"
  const PRINTER_IP: string := "printer_ip"
  const PRINTER_PORT: string := "printer_port"
  const PRINTER_USB_NAME: string := "printer_usb_name"
  const PRINTER_LANG: string := "printer_lang"
  const DEFAULT_PORT: int := 9100

  /** The settings a print reads, with the defaults the panels apply ("" for a missing host, port or USB printer name). */
  datatype PrintSettings = PrintSettings(mode: string, host: string, portText: string, usbName: string, language: string)

  function ReadPrintSettings(settings: map<string, string>): (p: PrintSettings)
    ensures p.mode != "" && p.language != ""
  {
    PrintSettings(
      SettingOr(settings, PRINT_MODE, MODE_NETWORK),
      SettingOr(settings, PRINTER_IP, ""),
      SettingOr(settings, PRINTER_PORT, ""),
      SettingOr(settings, PRINTER_USB_NAME, ""),
      SettingOr(settings, PRINTER_LANG, AUTO))
  }

  /** `int(get_setting("printer_port") or 9100)`: None where int() raises. */
  function SinglePort(portText: string): (p: Option<int>)
    ensures portText == "" ==> p == Some(DEFAULT_PORT)
  {
    if portText == "" then Some(DEFAULT_PORT) else ParseInt(portText)
  }

  /** The label fields of a single print: id and EPC stripped, the rest as typed. */
  function PrintFields(form: Form): LabelFields
  {
    LabelFields(Strip(form.assetId), Strip(form.epc), form.name, form.location, TagTypeLabel(form.tagType))
  }

  datatype SingleOutcome =
    | NoId
    | BadPort(portText: string)
    | Printed(report: PrintReport, backup: Backup)

  /**
   * `_print_label()`: print with the stored settings, stamp the asset as
   * printed on success, and write a backup file whatever the outcome. The
   * backup's dialect is chosen from the language setting, re-rendered at
   * `backupTs`.
   */
  method PrintSingle(db: Database, form: Form, w: World, backupTs: string, now: string) returns (r: SingleOutcome)
    requires db.Valid()
    modifies db
    ensures db.Valid()
    ensures r.NoId? <==> Strip(form.assetId) == ""
    ensures r.BadPort? <==> Strip(form.assetId) != "" && SinglePort(ReadPrintSettings(old(db.settings)).portText).None?
    ensures r.Printed? ==>
      var s := ReadPrintSettings(old(db.settings));
      r.report == PrintLabel(PrintFields(form), s.mode, s.host, SinglePort(s.portText).value, s.usbName, s.language, w) &&
      r.backup == BackupFor(s.language, PrintFields(form), backupTs, w.qr)
    ensures !(r.Printed? && r.report.ok) ==> db.assets == old(db.assets)
    ensures r.Printed? && r.report.ok ==> (
      |db.assets| == |old(db.assets)| &&
      forall i :: 0 <= i < |db.assets| ==>
        db.assets[i] == if old(db.assets)[i].assetId == Strip(form.assetId)
                        then old(db.assets)[i].(printedAt := Some(now)) else old(db.assets)[i])
    ensures db.settings == old(db.settings) && db.scanLog == old(db.scanLog)
  {
    var aid := Strip(form.assetId);
    if aid == "" {
      return NoId;
    }
    var s := ReadPrintSettings(db.settings);
    var port := SinglePort(s.portText);
    if port.None? {
      return BadPort(s.portText);
    }
    var f := PrintFields(form);
    var report := PrintLabel(f, s.mode, s.host, port.value, s.usbName, s.language, w);
    if report.ok {
      db.MarkPrinted(aid, now);
    }
    r := Printed(report, BackupFor(s.language, f, backupTs, w.qr));
  }

  /**
   * As written, the single-print backup can disagree with the label sent: on
   * "auto" with a network printer that answers the probe with STX, IPL is
   * sent but the backup is `<id>.zpl` holding ZPL.
   */
  lemma SingleBackupWrongDialect(f: LabelFields, printerName: string, w: World)
    requires w.probe == Replied([0x02])
    ensures var r := PrintLabel(f, MODE_NETWORK, "10.0.0.5", DEFAULT_PORT, printerName, AUTO, w);
      r.lang == IPL && r.sent.Some? && r.sent.value[0] == STX &&
      BackupFor(AUTO, f, w.ts, w.qr).fileName == f.assetId + ".zpl" &&
      BackupFor(AUTO, f, w.ts, w.qr).content[0] != STX
  {
  }
}
