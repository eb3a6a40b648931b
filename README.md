# RFID asset manager: label printing, tag reading and printer diagnostics

This project models the core of a hospital-equipment RFID asset manager in Dafny. Assets carry an RFID tag holding an EPC, and labels are printed on a Honeywell PC42t/PC42d printer. There are two source files:

- `rfid_manager.py`, the desktop application. The model covers:
  - the label encoders in both printer dialects, IPL and ZPL, plus the plain ZPL label generator;
  - the printer-language probe;
  - language resolution and dispatch in `print_label`;
  - the network and USB transports;
  - the two-state RFID reader, real or simulated;
  - the parts of the SQLite `Database` the printing logic relies on: the settings, the asset-id counter, the UNIQUE constraints and the scan log;
  - the single-label save and print of the encode panel;
  - the batch print and batch save loops;
  - the door-exit decision table;
  - the sort toggle of the asset table.
- `win_print_debug.py`, a Windows diagnostic script. The model covers:
  - how it picks the printer to test;
  - how it classifies the printer's port;
  - the structure of its two test labels;
  - the success criteria of its five print methods;
  - the results table it fills and its worked/failed summary.

Modules follow the program's structure:

| file | module | what it models |
|---|---|---|
| wrappers.dfy | Wrappers | `Option` and `Result` |
| text.dfy | Text | the Python string built-ins the code relies on: `or`, slicing, `strip`, `lower`/`upper`, `split`/`join`, `str(n)`, `int(s)`, `f"{n:06d}"` |
| bytes.dfy | Bytes | latin-1 encoding with `errors="replace"`, and `bytes.upper()` |
| labels.dfy | Labels | `HoneywellPrinter.ipl`, `HoneywellPrinter.zpl`, `LabelGenerator.zpl`, and a reader that pulls a field back out of a rendered label |
| detection.dfy | Detection | `HoneywellPrinter.detect_language` |
| transport.dfy | Transport | `HoneywellPrinter.print_network`, `HoneywellPrinter.print_usb` |
| coordinator.dfy | Coordinator | `HoneywellPrinter.print_label` |
| reader.dfy | Reader | `RFIDReader`, as a class whose mode is fixed at construction |
| database.dfy | Store | `Database`, as a class over in-memory tables |
| label_files.dfy | LabelFiles | the tag-type text printed on a label, and the backup label file |
| encode_panel.dfy | EncodePanel | `ReadEncodePanel`: the id shown on opening, `_save`, `_print_label` |
| batch_panel.dfy | BatchPanel | `BatchPanel._batch_print` and `_save_all`, as methods over an array of rows and the database |
| simulate_panel.dfy | SimulatePanel | `SimulatePanel._simulate_pass` |
| assets_panel.dfy | AssetsPanel | `AssetsPanel._sort` |
| diagnostics.dfy | Diagnostics | the diagnostic script, steps 2 to 7 |

The outside world is passed in as parameters:

- the clock reading;
- the QR payload that `json.dumps` builds;
- the reply to a language probe;
- what a socket, `lpr`/`lp` or the Windows spooler did;
- what `CreateFileW`/`WriteFile`, PowerShell and `gethostbyname` returned;
- the tags a reader scan found.

The simulated reader's random EPC and RSSI are nondeterministic choices.

The model follows the code's branches, including where they go beyond or against the program's own docstrings and comments:

- **Probe order.** The docstring of `detect_language` (rfid_manager.py:345-350) says a reply starting with STX is IPL and anything else ZPL. The code also reads a reply starting with ACK or NAK as IPL, but only when it holds neither `^` nor "ZPL" in any case, because those markers are tested first (`Detection.IplIff`).
- **Reported language.** The docstring of `print_label` (rfid_manager.py:467-471) says it builds the correct label format and returns the language used. An explicit language other than "ipl" is lower-cased and reported as it is, while ZPL is sent (`Coordinator.UnknownLanguageSendsZpl`).
- **Backup contents.** The backup file is not a copy of the bytes sent:
  - the code re-renders the label for the backup, with a fresh timestamp;
  - a single print takes the dialect from the setting; see Findings;
  - a batch print writes a backup only when the print succeeded.
- **Linux failure message.** A failed `lp` that wrote only white space reports an empty message (`Transport.LinuxFailureMayBeSilent`).

## Model

| member | source | states |
|---|---|---|
| Text.OrElse | rfid_manager.py:123-124 | `s or fallback`: the string itself when it is non-empty, else the fallback |
| Text.Take | rfid_manager.py:290 | a slice `s[:n]` is the first `min(n, len s)` elements of `s` |
| Text.TrimStart | rfid_manager.py:934 | the suffix of `s` left after dropping leading white space; it starts with a non-space |
| Text.TrimEnd | rfid_manager.py:934 | the prefix of `s` left after dropping trailing white space; it ends with a non-space |
| Text.Strip | rfid_manager.py:934 | `strip()` never lengthens a string, and what it returns is empty or neither starts nor ends with white space |
| Text.StripEmptyIffBlank | rfid_manager.py:934-936 | a stripped field is empty exactly when every character was white space |
| Text.StripUnchanged | rfid_manager.py:934 | stripping leaves a string alone when neither end is white space |
| Text.Lower | rfid_manager.py:480 | `lower()`: same length, each character lowered |
| Text.Upper | rfid_manager.py:256 | `upper()`: same length, each character raised |
| Text.UpperIdempotent | rfid_manager.py:256 | upper-casing twice is upper-casing once |
| Text.Join | win_print_debug.py:174 | joining one piece gives that piece; a join is at least one character per separator |
| Text.Split | win_print_debug.py:174 | `split` never returns an empty list |
| Text.SplitPartsFree | win_print_debug.py:174 | no piece returned by `split` holds the separator |
| Text.JoinSplit | win_print_debug.py:174 | joining the pieces of a split gives back the original string |
| Text.SplitJoin | win_print_debug.py:174 | splitting a join of separator-free pieces gives back the pieces |
| Text.NatToString | rfid_manager.py:126 | `str(n)` of a natural is a digit string with no leading zero |
| Text.IntToString | rfid_manager.py:126 | `str(n)` is never empty |
| Text.IntToStringRoundTrip | rfid_manager.py:124-126 | `int(str(n)) == n`: the stored counter reads back as the value written |
| Text.ZeroPad | rfid_manager.py:125 | left-padding gives `max(width, len)` characters: zeros, then the digits |
| Text.Format06d | rfid_manager.py:125 | `f"{n:06d}"` has at least six characters |
| Text.ParseInt | rfid_manager.py:124 | `int()` rejects (None, where Python raises) a string that is empty or all white space |
| Text.ParseDigits | rfid_manager.py:124 | `int()` of a digit string is its decimal value |
| Text.ParseNegative | rfid_manager.py:124 | `int()` of a minus sign followed by digits is the negated value |
| Text.Format06dRoundTrip | rfid_manager.py:125 | `int(f"{n:06d}") == n` for every integer, negative ones included |
| Text.Format06dInjective | rfid_manager.py:125 | different counters render differently |
| Bytes.Latin1Encode | rfid_manager.py:386 | one byte per character: the code itself below 256, else `?` |
| Bytes.EncodeDecode | rfid_manager.py:386 | decoding bytes as latin-1 and re-encoding gives the same bytes |
| Bytes.DecodeEncode | rfid_manager.py:386 | a string survives encoding exactly when every character is below 256 |
| Bytes.EncodeAppend | rfid_manager.py:419 | encoding commutes with concatenation |
| Bytes.UpperBytes | rfid_manager.py:364 | `bytes.upper()` changes only a-z, byte for byte |
| Labels.HeaderText | rfid_manager.py:290 | the header is a prefix of `name or asset_id` of at most `cap` characters, and all of it when short enough |
| Labels.Ipl | rfid_manager.py:279-306 | an IPL label is at least two characters, STX first and ETX last |
| Labels.IplFraming | rfid_manager.py:283-285 | an IPL label starts with STX and ends with `P 1\r\n` followed by ETX |
| Labels.IplBodyNotRfid | rfid_manager.py:285-299 | no line of the fixed IPL template starts with the RFID command `R ` |
| Labels.IplRfidIffEpc | rfid_manager.py:300-302 | the IPL RFID command is present exactly when the EPC is non-empty, and then it carries that EPC |
| Labels.IplSetupCarriesNoField | rfid_manager.py:285-288 | the four IPL setup lines carry no field prefix |
| Labels.IplHeaderReadBack | rfid_manager.py:290 | the IPL header field reads back as `(name or asset_id)[:28]` |
| Labels.IplAssetReadBack | rfid_manager.py:292 | the IPL "Asset ID" field reads back as the full asset id |
| Labels.IplEpcReadBack | rfid_manager.py:293 | the IPL "EPC" field reads back as the EPC, or "UNASSIGNED" when there is none |
| Labels.IplLocationReadBack | rfid_manager.py:295 | the IPL "Loc" field reads back as the location, or an em-dash when there is none |
| Labels.IplBarcodeReadBack | rfid_manager.py:297 | the IPL Code 128 barcode reads back as the untruncated asset id |
| Labels.Zpl | rfid_manager.py:310-340 | a Honeywell ZPL label starts with `^XA` and a newline |
| Labels.ZplFraming | rfid_manager.py:314-340 | a Honeywell ZPL label starts with `^XA\n`, ends with `^XZ\n`, and does not start with STX |
| Labels.ZplRfidIffEpc | rfid_manager.py:337-338 | `^RFWM` is present exactly when the EPC is non-empty, and then it carries that EPC |
| Labels.ZplSetupCarriesNoField | rfid_manager.py:316-320 | the four ZPL setup lines carry no text-field prefix |
| Labels.ZplHeaderReadBack | rfid_manager.py:321 | the ZPL header reads back as `(name or asset_id)[:30]` |
| Labels.ZplAssetReadBack | rfid_manager.py:323 | the ZPL "Asset" field reads back as the full asset id |
| Labels.ZplEpcReadBack | rfid_manager.py:324 | the ZPL "EPC" field reads back as the EPC, or "UNASSIGNED" |
| Labels.ZplLocationReadBack | rfid_manager.py:326 | the ZPL "Loc" field reads back as the location, or an em-dash |
| Labels.ZplBarcodeReadBack | rfid_manager.py:328-330 | the first line starting `^FD` is the Code 128 barcode data, and it holds the full asset id |
| Labels.GeneratorZpl | rfid_manager.py:504-534 | the template lines joined by newlines; its properties are those of the three Generator lemmas below |
| Labels.GeneratorFraming | rfid_manager.py:509-533 | the generator's label starts with `^XA` and ends with `^XZ` |
| Labels.GeneratorHeaderReadBack | rfid_manager.py:515 | the generator shows `name or asset_id` untruncated |
| Labels.GeneratorAlwaysWritesEpc | rfid_manager.py:532 | the generator always writes an EPC: the one given, or 22 zeros |
| Detection.Classify | rfid_manager.py:361-369 | a non-empty reply is classified "ipl" or "zpl", never "unknown" |
| Detection.DetectLanguage | rfid_manager.py:351-372 | the probe answers one of "zpl", "ipl", "unknown" |
| Detection.UnknownIffFailed | rfid_manager.py:371-372 | "unknown" is returned exactly when the connection or the send raised |
| Detection.IplIff | rfid_manager.py:361-369 | "ipl" exactly for a reply that starts with STX, or starts with ACK/NAK and holds neither `^` nor "ZPL" in any case |
| Detection.SilenceMeansZpl | rfid_manager.py:357-370 | an empty reply, or a read that raised, gives "zpl" |
| Detection.UpperFindsMarker | rfid_manager.py:364 | "zpl" in any letter case is found once the reply is upper-cased |
| Detection.LowerCaseMarkerMeansZpl | rfid_manager.py:364 | a reply not starting with STX that mentions "zpl" in lower case is ZPL |
| Detection.StxWins | rfid_manager.py:362-363 | a reply starting with STX is IPL, whatever else it holds |
| Transport.Endpoint | rfid_manager.py:400 | the `host:port` text starts with the host |
| Transport.RefusedMessage | rfid_manager.py:399-400 | the refused message names `host:port` |
| Transport.TimeoutMessage | rfid_manager.py:401-403 | the timeout message names `host:port` |
| Transport.PrintNetwork | rfid_manager.py:383-406 | the job is a socket send to `host:port` of the latin-1 bytes of the label; a successful print reports "OK"; a refused connection fails with the refused message, an OS error saying "timed out" in any case with the timeout message, and any other error with its own text |
| Transport.RefusedTimeoutDistinct | rfid_manager.py:399-403 | the refused and timeout messages differ for every `host:port` |
| Transport.NetworkOkIff | rfid_manager.py:392-398 | a network print succeeds exactly when the data was delivered and the reply does not start with NAK; a NAK reply gives the NACK message |
| Transport.NetworkFailureNamesPrinter | rfid_manager.py:399-403 | a refused connection, or an OS error whose text says "timed out" in any case, fails with a message naming `host:port` |
| Transport.LprCommand | rfid_manager.py:422-424 | the macOS command is `lpr -l`, plus `-P name` exactly when a printer is named |
| Transport.LpCommand | rfid_manager.py:449-451 | the Linux command is `lp -o raw`, plus `-d name` exactly when a printer is named |
| Transport.SpoolQueue | rfid_manager.py:434 | the Windows spool opens the named printer, else the system default |
| Transport.PrintUsb | rfid_manager.py:417-460 | macOS runs the `lpr` command and Linux the `lp` command, with the latin-1 bytes of the label on standard input; Windows spools them to the named or default queue, and has no job without pywin32; success reports "OK" and implies a job; a missing `lpr`/`lp` fails with the CUPS hint, a missing pywin32 with the `pip install pywin32` hint, and any other spawn or spool error with its own text |
| Transport.NamedPrinterReceivesJob | rfid_manager.py:421-451 | a named printer is the one addressed: `-P name` for `lpr`, `-d name` for `lp`, the named queue for the spooler |
| Transport.UsbOkIff | rfid_manager.py:421-455 | a USB print succeeds exactly when the job was spooled (Windows) or the command exited 0 (macOS, Linux) |
| Transport.DarwinFailureExplained | rfid_manager.py:426-428 | a failed `lpr` always has a message; blank error output falls back to the fixed hint |
| Transport.LinuxFailureMayBeSilent | rfid_manager.py:453-454 | a failed `lp` whose error output is white space reports an empty message |
| Transport.EmDashOnTheWire | rfid_manager.py:295 | the latin-1 encoding of the em-dash placeholder is a single `?` |
| Coordinator.ResolveLanguage | rfid_manager.py:473-480 | probes exactly for auto + network + host; auto gives "ipl" only when the probe said "ipl", else "zpl"; an explicit language is lower-cased |
| Coordinator.Render | rfid_manager.py:483-486 | the IPL encoder runs exactly for "ipl": the label starts with STX exactly then |
| Coordinator.PrintLabel | rfid_manager.py:464-496 | the language reported is the resolved one; the label sent is that language's rendering; the job's bytes are the latin-1 encoding of that label; network mode sends to `host:port`, USB mode hands `printer_name` to the USB transport; the message returned is the chosen transport's; success implies a job |
| Coordinator.SentMatchesLanguage | rfid_manager.py:483-486 | the label sent is IPL exactly when the language reported is "ipl" |
| Coordinator.NoHostSendsNothing | rfid_manager.py:489-491 | network mode without a host fails with "No printer IP address configured", sends nothing and does not probe |
| Coordinator.ExplicitLanguageIgnoresCase | rfid_manager.py:479-480 | an explicit "IPL" prints IPL |
| Coordinator.UnknownLanguageSendsZpl | rfid_manager.py:480-486 | an explicit "epl" is reported as "epl" while ZPL is sent |
| Coordinator.NetworkFailureReported | rfid_manager.py:489-496 | a network print to a refused or timed-out printer returns the refused or timeout message to its caller, and the two differ |
| Coordinator.MissingToolReported | rfid_manager.py:494-496 | a USB print without `lpr`/`lp`, or without pywin32 on Windows, fails with the message that says what to install |
| Coordinator.PrintOkIff | rfid_manager.py:489-496 | a print succeeds exactly when its transport does, and network mode has a host |
| Reader.IsSimulatedEpc | rfid_manager.py:233-234 | the shape of a simulated EPC: "E2" and 22 upper-case hex digits; `ReadEpc` and the lemmas below use it |
| Reader.HardwareRead | rfid_manager.py:236-243 | a hardware read succeeds exactly when the scan found tags; it returns the first tag; no tag gives "No tag detected" |
| Reader.RfidReader.constructor | rfid_manager.py:214-226 | the reader is connected only when the library is present and opening succeeds |
| Reader.RfidReader.ReadEpc | rfid_manager.py:228-243 | simulated: "E2" and 22 upper-case hex digits, RSSI in [-75, -55]; otherwise the hardware read |
| Reader.RfidReader.WriteEpc | rfid_manager.py:245-253 | simulated writes always succeed; otherwise the write fails exactly when the library raised, with its text |
| Reader.RfidReader.VerifyEpc | rfid_manager.py:228-257 | a fresh read matches exactly when both upper-case to the same text; the EPC and RSSI returned are those of the read (simulated: RSSI in [-75, -55]); a failed read is passed on with the reader's error text |
| Reader.SimulatedEpcIsUpper | rfid_manager.py:230-233 | a simulated EPC is already upper case |
| Reader.SimulatedMatch | rfid_manager.py:255-257 | against a simulated read, the expected value matches exactly when it upper-cases to that read |
| Reader.SimulatedNeverMatchesOtherLength | rfid_manager.py:230-233 | under ASCII upper-casing, a value that is not 24 characters long never matches a simulated read |
| Store.FindByEpc | rfid_manager.py:157-159 | finds an asset exactly when one carries the EPC, and the one found carries it |
| Store.Seed | rfid_manager.py:115-118 | INSERT OR IGNORE: stored values win; a missing counter becomes "1" and a missing prefix "HOSP-EQP"; no other key is added |
| Store.SettingOr | rfid_manager.py:967-971 | the setting when present and non-empty, else the default |
| Store.Counter | rfid_manager.py:124 | a missing or empty counter reads as 1 |
| Store.AssetIdFor | rfid_manager.py:125 | an id is the prefix, a dash and at least six characters |
| Store.AssetIdCounterReadBack | rfid_manager.py:125 | the counter reads back from every id issued under a prefix |
| Store.AssetIdsDistinct | rfid_manager.py:125 | different counters give different ids |
| Store.NextCounterAdvances | rfid_manager.py:122-127 | after `next_asset_id` the counter reads n + 1, the prefix is unchanged, and the next id differs |
| Store.FirstIdOfFreshDatabase | rfid_manager.py:115-127 | a fresh database issues "HOSP-EQP-000001" first |
| Store.Database.constructor | rfid_manager.py:82-119 | opening seeds the settings (`Seed`) and keeps the stored assets and scan log (`CREATE TABLE IF NOT EXISTS`) |
| Store.Database.GetSetting | rfid_manager.py:187-190 | the stored value, or None for a missing key |
| Store.Database.SetSetting | rfid_manager.py:192-196 | INSERT OR REPLACE of one key; nothing else changes |
| Store.Database.NextAssetId | rfid_manager.py:122-127 | returns the id for the stored counter and stores counter + 1; a counter `int()` rejects raises and changes nothing |
| Store.Database.EpcExists | rfid_manager.py:161-164 | true exactly when some asset carries the EPC |
| Store.Database.AssetByEpc | rfid_manager.py:157-159 | an asset carrying the EPC exactly when one exists |
| Store.Database.InsertAsset | rfid_manager.py:130-140 | appends exactly when neither the id nor a non-null EPC is taken, keeping the UNIQUE constraints; a taken id gives the asset_id constraint message |
| Store.Database.MarkPrinted | rfid_manager.py:142-147 | stamps `printed_at` on the asset with that id, and changes nothing else |
| Store.Database.LogScan | rfid_manager.py:198-202 | appends one entry to the scan log |
| EncodePanel.EpcTakenByOther | rfid_manager.py:938-941 | the duplicate-EPC check: a non-empty EPC already on an asset with another id; `Save` refuses exactly then |
| EncodePanel.FormAsset | rfid_manager.py:943-952 | the id and the text fields are stripped; type and status are taken as typed; an empty EPC is stored as NULL |
| EncodePanel.Save | rfid_manager.py:933-959 | refuses an empty id, and an EPC held by another asset; otherwise inserts, logs SAVE/OK and advances the counter; a taken id fails with the constraint message |
| EncodePanel.PeekAssetId | rfid_manager.py:815-818 | shows the id for the stored counter and writes the counter back: the counter and prefix read as before and every other setting is unchanged |
| EncodePanel.CounterReadsBack | rfid_manager.py:124-126 | writing `str(n)` as the counter makes it read back as n, with the prefix unchanged |
| EncodePanel.FreshSessionReissuesId | rfid_manager.py:815-817 | as written: in a fresh database the id advanced to after the first save equals the id saved, and saving it is refused |
| EncodePanel.FreshSessionAdvancesId | rfid_manager.py:957 | corrected: with a reserved id, the save advances to HOSP-EQP-000002 |
| EncodePanel.ReadPrintSettings | rfid_manager.py:967-971 | the print mode and language always have a value |
| EncodePanel.SinglePort | rfid_manager.py:969 | an empty port setting gives 9100 |
| EncodePanel.PrintFields | rfid_manager.py:975-980 | the fields of a single print: id and EPC stripped, the type cut at `(`; `PrintSingle` prints them |
| EncodePanel.PrintSingle | rfid_manager.py:961-1006 | no id: nothing happens; a bad port: nothing printed; otherwise the print report and a backup whose dialect follows the setting; `printed_at` is stamped only on success |
| EncodePanel.SingleBackupWrongDialect | rfid_manager.py:997-1003 | with "auto" and a printer that answers STX, IPL is sent but the backup is `<id>.zpl` holding ZPL |
| LabelFiles.TagTypeLabel | rfid_manager.py:980 | the printed type holds no `(` |
| LabelFiles.TagTypeLabelPlain | rfid_manager.py:980 | a type with no `(` and no surrounding white space prints as it is |
| LabelFiles.TagTypeLabelDropsNote | rfid_manager.py:1240 | "Kind (note" prints as "Kind" |
| LabelFiles.SplitFirst | rfid_manager.py:980 | the first piece of a split is the text before the first separator |
| LabelFiles.SplitNoSeparator | rfid_manager.py:980 | splitting on an absent separator gives the text back whole |
| LabelFiles.Extension | rfid_manager.py:1252 | "ipl" exactly for "ipl", else "zpl" |
| LabelFiles.BackupFor | rfid_manager.py:1252-1259 | the backup is named `<asset_id>.<ext>`, and its content starts with STX exactly for IPL |
| LabelFiles.BackupMatchesSent | rfid_manager.py:1248-1259 | a backup made from the language used holds the label that was sent |
| BatchPanel.BatchPort | rfid_manager.py:1200-1206 | the port is the parsed setting, or 9100 when it is empty or `int()` rejects it |
| BatchPanel.EffectiveLanguage | rfid_manager.py:1213-1217 | for auto + network + host the language is "ipl" or "zpl" from one probe; otherwise it is the setting |
| BatchPanel.RowsNeverProbe | rfid_manager.py:1235-1246 | with the language settled up front, no row's print probes the printer |
| BatchPanel.RowFields | rfid_manager.py:1225-1240 | a row's label fields: stripped id and EPC, name and location as given, the type cut at `(`; `RowStepKinds` states how a row uses them |
| BatchPanel.RowStep | rfid_manager.py:1224-1263 | one iteration of the batch loop; `RowStepKinds` and `RowOutcome` state what it does |
| BatchPanel.RowOutcome | rfid_manager.py:1248-1263 | a printed row succeeded, and its backup follows the language used; a failed row did not succeed |
| BatchPanel.RowStepKinds | rfid_manager.py:1225-1246 | a row is skipped exactly when its stripped id is empty; any other row is printed with the batch settings |
| BatchPanel.Results | rfid_manager.py:1224-1263 | one result per row |
| BatchPanel.ResultsAt | rfid_manager.py:1224-1263 | row k's result depends only on row k and its world |
| BatchPanel.Marked | rfid_manager.py:1250 | a row keeps its columns and gains `_printed` on success and `_error` on failure |
| BatchPanel.AppendResult | rfid_manager.py:1231-1262 | each row adds one to exactly the tally its result names, and a backup only when printed |
| BatchPanel.CountsPartition | rfid_manager.py:1210-1262 | success + errors + skipped equals the number of rows |
| BatchPanel.BackupsOfPrinted | rfid_manager.py:1248-1259 | one backup per printed result, each the backup that result carries |
| BatchPanel.BackupsFollowLanguageUsed | rfid_manager.py:1248-1259 | over the row-by-row results: one backup per printed row, each the label of that row rendered in the language its print used, named `<asset_id>.<ext>` for that language |
| BatchPanel.BatchPrint | rfid_manager.py:1194-1276 | the tallies, backups and row marks are those of the results; the probe runs exactly for non-empty rows with auto + network + host |
| BatchPanel.PrintRows | rfid_manager.py:1224-1263 | the loop's counters, backups and marked rows equal those of the row-by-row results |
| BatchPanel.SaveStep | rfid_manager.py:1310-1330 | one iteration of `_save_all`; `SaveStepAppends` states what it does |
| BatchPanel.SaveRows | rfid_manager.py:1307-1330 | `_save_all` over the rows; `SaveRowsFacts` and `SaveRowsProvenance` state its properties |
| BatchPanel.RowAsset | rfid_manager.py:1317-1326 | a row's asset has its stripped id, and a NULL EPC exactly when the stripped EPC is empty |
| BatchPanel.SaveRowsFacts | rfid_manager.py:1307-1330 | saved + skipped equals the number of rows; the saved assets come after the existing ones; the UNIQUE constraints still hold |
| BatchPanel.SaveStepAppends | rfid_manager.py:1312-1330 | one row adds nothing, or its own asset at the end |
| BatchPanel.SaveRowsProvenance | rfid_manager.py:1317-1328 | every asset added is the asset of one of the rows |
| BatchPanel.NewRowKeepsUnique | rfid_manager.py:1314-1317 | a row that passes both checks can be appended without breaking the UNIQUE constraints |
| BatchPanel.SaveAll | rfid_manager.py:1307-1331 | the table and counters after the loop are those of the row-by-row save |
| SimulatePanel.DoorDecision | rfid_manager.py:1596-1616 | the unknown-tag alarm is raised exactly when no asset carries the EPC; a decision is never a read failure |
| SimulatePanel.DisplayName | rfid_manager.py:1602 | the asset's name, or its id when the name is empty |
| SimulatePanel.AlarmIff | rfid_manager.py:1597-1609 | the alarm sounds exactly for an unknown tag and a BLOCKED asset |
| SimulatePanel.ExitIff | rfid_manager.py:1603-1606 | exit is allowed exactly for a known READY asset |
| SimulatePanel.OtherStatusAlertsStaff | rfid_manager.py:1614-1616 | any other status alerts staff without an alarm |
| SimulatePanel.DecisionNamesAsset | rfid_manager.py:1596-1616 | a decision about a known asset names it; an unknown tag is reported by its EPC |
| SimulatePanel.SimulatePass | rfid_manager.py:1591-1620 | decides on the asset found by EPC; logs DOOR_SIM with the status only for a known asset; a failed read logs nothing |
| AssetsPanel.Toggle | rfid_manager.py:1453-1454 | the same column flips the direction; another column sorts ascending |
| AssetsPanel.ToggleTwiceRestores | rfid_manager.py:1453 | two clicks on the sort column restore its direction |
| AssetsPanel.ToggleCycle | rfid_manager.py:1453 | after switching columns, clicks alternate ascending, descending, ascending |
| AssetsPanel.FirstSortAscending | rfid_manager.py:1409-1431 | the initial column "id" is not in the table, so the first sort is ascending |
| AssetsPanel.SortState.constructor | rfid_manager.py:1431 | starts on column "id", descending |
| AssetsPanel.SortState.Sort | rfid_manager.py:1452-1454 | the new state is the toggle of the old one |
| Diagnostics.IsHoneywell | win_print_debug.py:104-106 | the keyword test; `KeywordsRedundant` states it |
| Diagnostics.KeywordsRedundant | win_print_debug.py:104-106 | the keyword test is the same as testing "honeywell", "pc42" and "intermec" |
| Diagnostics.HoneywellPrinters | win_print_debug.py:104-106 | exactly the printers whose lower-cased name holds a keyword |
| Diagnostics.FirstHoneywell | win_print_debug.py:104-108 | the first Honeywell printer found is the first in enumeration order |
| Diagnostics.NoHoneywellFound | win_print_debug.py:104-107 | with no keyword match, the filtered list is empty |
| Diagnostics.SelectTarget | win_print_debug.py:98-115 | None exactly when no printer is installed; otherwise an installed printer or the default |
| Diagnostics.SelectsFirstHoneywell | win_print_debug.py:107-108 | with a Honeywell printer installed, the first one is chosen |
| Diagnostics.SelectsFallback | win_print_debug.py:110-115 | with none, the default printer, else the first printer |
| Diagnostics.IsDottedQuad | win_print_debug.py:174-175 | four dot-separated digit strings; `DottedQuadIff` states it |
| Diagnostics.AnalysePort | win_print_debug.py:169-195 | no port exactly for an empty name; a dotted quad is network, else USB, COM, LPT by prefix in that order, else unknown, each as an if-and-only-if; network exactly when an IP is known; resolution decides only an unknown port |
| Diagnostics.ResolutionOnlyForUnknown | win_print_debug.py:186-195 | resolution does not affect USB, COM, LPT or dotted-quad ports |
| Diagnostics.DottedQuadIff | win_print_debug.py:174-175 | a dotted quad is exactly four digit strings joined by dots |
| Diagnostics.UsbPortNeverNetwork | win_print_debug.py:180-181 | a port starting "USB" in any case is USB and never network |
| Diagnostics.MinimalZpl | win_print_debug.py:18 | the ZPL test label around the time of day; `ZplStructure` states its shape |
| Diagnostics.ZplStructure | win_print_debug.py:206-208 | the ZPL test label starts with `^XA`, ends with `^XZ` and holds `^FD`, whatever the time |
| Diagnostics.IplCommandsPlain | win_print_debug.py:21-31 | no IPL test command holds a caret |
| Diagnostics.IplStructure | win_print_debug.py:212-214 | the IPL test label (the constant `MINIMAL_IPL`, win_print_debug.py:21-31) starts with STX, ends with ETX and holds no `^T ` |
| Diagnostics.DirectWriteOk | win_print_debug.py:263 | the direct test's criterion: the write succeeded and wrote the whole payload |
| Diagnostics.UsbWriteOk | win_print_debug.py:352 | the USB scan's criterion: the write succeeded and wrote at least one byte |
| Diagnostics.DirectImpliesUsb | win_print_debug.py:263 | for a non-empty payload, a write the direct test accepts is one the USB scan accepts |
| Diagnostics.PartialWriteUsbOnly | win_print_debug.py:352 | a partial write passes the USB scan but fails the direct test |
| Diagnostics.PsCopyOk | win_print_debug.py:314-315 | the PowerShell criterion; `PsFailureCases` and `PsSilentSuccess` state it |
| Diagnostics.PsFailureCases | win_print_debug.py:311-323 | a copy that raised, or exited non-zero, is a failure |
| Diagnostics.PsSilentSuccess | win_print_debug.py:314-317 | exit 0 with blank output counts as success |
| Diagnostics.Recorded | win_print_debug.py:234 | assigning a new key grows the table by one; an existing key keeps the size |
| Diagnostics.RecordedLookup | win_print_debug.py:234 | after assignment the key holds the new value and every other key is unchanged |
| Diagnostics.RecordedDistinct | win_print_debug.py:234 | assignment keeps the keys distinct |
| Diagnostics.RecordAllAppend | win_print_debug.py:222-354 | two runs of assignments are one run |
| Diagnostics.RecordAllLookup | win_print_debug.py:222-354 | a key holds its last assigned value, or what it held before |
| Diagnostics.RecordAllDistinct | win_print_debug.py:222-354 | assignments keep the keys distinct |
| Diagnostics.ResultTable.constructor | win_print_debug.py:222 | the results table starts empty |
| Diagnostics.ResultTable.Record | win_print_debug.py:234 | `results[key] = value` on the table |
| Diagnostics.Worked | win_print_debug.py:364 | exactly the keys whose value is True |
| Diagnostics.Failed | win_print_debug.py:365 | exactly the keys whose value is False |
| Diagnostics.LookupIn | win_print_debug.py:364-365 | with distinct keys, a pair is present exactly when the key maps to that value |
| Diagnostics.SummaryPartition | win_print_debug.py:364-365 | `worked` and `failed` split the table: sizes add up, membership matches the value, no key is in both |
| Diagnostics.NoMethodSucceededIff | win_print_debug.py:385-386 | "No print method succeeded" exactly when no key's last assignment was True |
| Diagnostics.UsbAttempts | win_print_debug.py:342-357 | the scan records only True, under "USB-scan-" keys, at most one per port |
| Diagnostics.UsbNames | win_print_debug.py:334-337 | exactly the enumerated names starting "USB" in any case |
| Diagnostics.UsbCandidatesAreUsb | win_print_debug.py:331-339 | every port the scan tries is named USB, enumerated or fallback |
| Diagnostics.ListUsbPorts | win_print_debug.py:331-339 | the enumerated USB ports, or USB001 to USB005 when enumeration fails |
| Diagnostics.TestNetwork | win_print_debug.py:228-237 | records Network-ZPL, then Network-IPL, with the send outcomes |
| Diagnostics.TestDirect | win_print_debug.py:249-269 | records Direct-ZPL, then Direct-IPL; True only for an opened port and a complete write |
| Diagnostics.TestSpooler | win_print_debug.py:275-295 | records Spooler-ZPL, then Spooler-IPL, when pywin32 is present |
| Diagnostics.TestPowerShell | win_print_debug.py:300-323 | records PS-ZPL, then PS-IPL, with the copy criterion |
| Diagnostics.ScanUsb | win_print_debug.py:342-357 | raises (NameError) exactly when the Windows constants are unbound and there is a port to try, leaving the table as it was; otherwise records True for each port written to, in order |
| Diagnostics.EarlyAttempts | win_print_debug.py:224-327 | the assignments of methods A to D in script order |
| Diagnostics.ScanRaises | win_print_debug.py:244-247 | when the scan raises: the constants are bound only under `if port_name:` |
| Diagnostics.UnenumeratedScanRaises | win_print_debug.py:331-346 | when ports cannot be enumerated, an empty port name always raises, and never does with the constants hoisted |
| Diagnostics.RunTests | win_print_debug.py:222-357 | raises exactly as `ScanRaises` says, and then the table holds only methods A to D; otherwise it is the five methods' assignments in script order |
| Diagnostics.ResultsOfMethod | win_print_debug.py:224-327 | a method's key holds its outcome when it ran, and is absent when it did not |
| Diagnostics.UsbScanLookup | win_print_debug.py:342-357 | the scan assigns True to a port's key exactly when the port was tried, opened and written to |
| Diagnostics.UsbScanResults | win_print_debug.py:342-357 | the results table holds True for exactly the USB ports written to, and no key for any other port |
| Diagnostics.Diagnose | win_print_debug.py:98-367 | as written: None exactly without printers; the run crashes exactly for an empty port name with ports to scan, keeping methods A to D's results; otherwise the target, port analysis, results and summary are those of the functions above |
| Diagnostics.DiagnoseHoisted | win_print_debug.py:98-367 | with the constants defined before the methods: None exactly without printers, otherwise the full report |

## Left out

- The customtkinter interface is not modelled: widgets, layout, colours, the clock tick, log messages and the door timers (`_alarm`, `_clear_door`, `_warn_door`).
- Threads are not modelled. Each worker's sequential body is, including the continuous scan loop's.
- Sockets, subprocesses, `win32print`, `CreateFileW`/`WriteFile` and `gethostbyname` are not modelled. Their results are parameters.
- The SQLite engine is not modelled; its tables are in-memory sequences and maps. The schema's other columns and defaults are left out: `created_at`, `updated_at`, `verified` and `verified_at`.
- Reading and writing files is left out:
  - the backup file is a value;
  - the export directory and `makedirs` are left out;
  - so is the text-mode newline translation on Windows.
- `all_assets`, `get_asset`, `delete_asset`, `total_assets`, `assets_by_status` and `recent_scans` are not part of the printing core.
- These operations are not part of the core: `_read_tag`, `_verify` (which writes the verified status), `_gen_id`, `_clear`, `_auto_ids`, `_import_csv`, `_save_template`, `_export_csv`, `_export_pdf`, and the settings panel's detect, test-print and save actions.
- `preview_image` and `export_pdf` are left out: they are image and PDF rendering with floating-point layout.
- `AssetsPanel.SortState.Sort`: the row reordering of the treeview is not modelled, only the column and direction state.
- `BatchPanel.BatchPrint`: the progress fraction `(i+1)/total` is a float and is not modelled.
- `BatchPanel.SaveAll`: rows with too few columns are not modelled. `csv.DictReader` (rfid_manager.py:1158-1160) fills missing trailing columns with None. A None `epc` or `asset_id` makes `.strip()` raise (rfid_manager.py:1310-1311), which ends `_save_all` after the earlier rows were inserted, with no summary logged. A None name, type, location, department, status or notes is stored as NULL, not as "" or the default. The model's rows always carry every column, as strings.
- `BatchPanel.BatchPrint`: the exceptions that end the worker mid-batch, with no summary logged, are not modelled: a CSV row with too few columns gives None fields, and `.strip()` on them raises (rfid_manager.py:1225-1226); `os.makedirs` can raise (rfid_manager.py:1222); the backup write can raise (rfid_manager.py:1258). The model's rows always carry every column, and its backups are values.
- `json.dumps` of the QR payload and `datetime.now()` are not modelled; both are parameters.
- The random EPC and RSSI of the simulated reader are nondeterministic choices.
- `Text.Lower` and `Text.Upper` change only ASCII letters. Python also maps other Unicode letters, and `upper()` can change the length (`'ﬀ'.upper()` is "FF"). `verify_epc` upper-cases text the user typed, and the port name and printer names come from Windows, so every lemma that compares case-mapped text holds for ASCII case mapping only.
- `Reader.SimulatedNeverMatchesOtherLength`: holds for ASCII upper-casing only. Under Python's `upper()`, a 23-character value ending in 'ﬀ' upper-cases to 24 characters and can match a simulated read.
- `Diagnostics.IsDottedQuad`: accepts ASCII digits only. `str.isdigit` (win_print_debug.py:175) also accepts characters such as '²' and '٣', so a port name like "1².2.3.4" is a dotted quad to the script but not to the model.
- `Text.ParseInt` accepts optional white space, a sign and ASCII digits. Underscores and non-ASCII digits, which Python also accepts, are not modelled.
- The RFIDIOt library is represented by its scan result, its write error and whether opening the reader succeeds.
- `Reader.RfidReader.WriteEpc` does not model the simulated write delay `time.sleep(0.3)` (rfid_manager.py:246-247).
- The first three steps of the diagnostic script are not modelled: the environment report, the non-Windows exit, and enumerating printers and ports (both the win32print path and the PowerShell text parsing). The printer list, default printer and port name are parameters.
- The driver-name RAW check (win_print_debug.py:136-143) is left out: it only prints a warning.
- The report file of step 8 and the closing `input()` are left out.
- `Diagnostics.ScanUsb`: the inner loop over formats has exactly one element, ZPL, and is written as a single write.
- `Diagnostics.RunTests` requires its port analysis to satisfy `isNetwork <==> printerIp.Some?`. Every analysis `AnalysePort` returns does, so the case where the script sends to `None` cannot arise.
- `Diagnostics.TestNetwork`: the message texts of failed attempts are not modelled, only the True/False recorded.
- `install_rfidiot.py` is not part of this model.

## Findings

| source | as written | input that shows it | evidently intended | confidence | as-written member | corrected member |
|---|---|---|---|---|---|---|
| rfid_manager.py:997 | The single-print backup takes its extension and dialect from the `printer_lang` setting, not from the language the print used. | `printer_lang` = "auto", network mode, printer answers the probe with STX: IPL is sent, but the backup is `<id>.zpl` and holds ZPL. | The backup follows `lang_used`, as the batch print does at rfid_manager.py:1252. | not executed | EncodePanel.SingleBackupWrongDialect | LabelFiles.BackupMatchesSent |
| rfid_manager.py:815-817 | Opening the panel calls `next_asset_id()` and then writes back `int(id_counter or 2) - 1`. This undoes the increment, so the shown id is not reserved. After the first save, `_gen_id` (line 957) issues that same id again. | A fresh database: the panel shows HOSP-EQP-000001, the asset is saved, and the panel advances to HOSP-EQP-000001 again. Saving the next asset as shown fails with the asset_id UNIQUE constraint. | The id shown on opening is reserved, so the panel advances to HOSP-EQP-000002. | not executed | EncodePanel.FreshSessionReissuesId | EncodePanel.FreshSessionAdvancesId |
| win_print_debug.py:244-247 | `GENERIC_WRITE`, `OPEN_EXISTING` and `INVALID_HANDLE` are bound only inside `if port_name:` (Method B), but the USB scan uses them at line 346 whatever the port name. | A target printer with no port name, and port enumeration failing, so the scan tries USB001 to USB005: the first `CreateFileW` call raises NameError, and the script stops before the summary. | The constants are defined before the methods, so the scan runs for every port name. | not executed | Diagnostics.Diagnose | Diagnostics.DiagnoseHoisted |
