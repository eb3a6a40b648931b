/**
 * The three label encoders of rfid_manager.py: the Honeywell IPL and ZPL
 * templates (`HoneywellPrinter.ipl`, `HoneywellPrinter.zpl`) and the plain
 * Zebra template (`LabelGenerator.zpl`).
 *
 * Each encoder is a fixed sequence of command lines, a few of which carry the
 * label's text fields, wrapped in the dialect's framing. The clock reading
 * `datetime.now().strftime("%Y-%m-%d %H:%M")` is the parameter `ts`; the QR
 * payload `json.dumps(...)` is the parameter `qr`.
 */
module Labels {
  import opened Wrappers
  import opened Text

  /** What a label shows. An absent EPC (None or "") and an absent location are "". */
  datatype LabelFields = LabelFields(
    assetId: string,
    epc: string,
    name: string,
    location: string,
    tagType: string)

  /** IPL framing bytes: start of text and end of text. */
  const STX: char := 2 as char
  const ETX: char := 3 as char

  /** Placeholders that keep a field from rendering empty. */
  const NO_EPC: string := "UNASSIGNED"
  const EM_DASH: string := "\U{2014}"
  const ZERO_EPC: string := "0000000000000000000000"

  /** Header caps of the two Honeywell templates. */
  const IPL_HEADER_CAP: nat := 28
  const ZPL_HEADER_CAP: nat := 30

  /** Concatenation of command lines that carry their own terminators. */
  function Concat(lines: seq<string>): string
  {
    if lines == [] then "" else lines[0] + Concat(lines[1..])
  }

  lemma {:induction false} ConcatAppend(lines: seq<string>, last: string)
    ensures Concat(lines + [last]) == Concat(lines) + last
  {
    if lines != [] {
      assert (lines + [last])[1..] == lines[1..] + [last];
      ConcatAppend(lines[1..], last);
    }
  }

  lemma ConcatHead(lines: seq<string>)
    requires lines != []
    ensures StartsWith(Concat(lines), lines[0])
  {
    assert Concat(lines)[..|lines[0]|] == lines[0];
  }

  /** The label header: `(name or asset_id)[:cap]`. */
  function HeaderText(f: LabelFields, cap: nat): (h: string)
    ensures |h| <= cap
    ensures StartsWith(OrElse(f.name, f.assetId), h)
    ensures |OrElse(f.name, f.assetId)| <= cap ==> h == OrElse(f.name, f.assetId)
  {
    Take(OrElse(f.name, f.assetId), cap)
  }

  /**
   * Reads a label back: the text between `prefix` and `suffix` on the first
   * command line that starts with `prefix` and ends with `suffix`.
   */
  function FieldText(lines: seq<string>, prefix: string, suffix: string): Option<string>
  {
    if lines == [] then None
    else if |prefix| + |suffix| <= |lines[0]| && StartsWith(lines[0], prefix) && EndsWith(lines[0], suffix)
    then Some(lines[0][|prefix|..|lines[0]| - |suffix|])
    else FieldText(lines[1..], prefix, suffix)
  }

  /** A field is read back from the first line that carries its prefix. */
  lemma {:induction false} FieldTextAt(lines: seq<string>, k: nat, prefix: string, value: string, suffix: string)
    requires k < |lines| && lines[k] == prefix + value + suffix
    requires forall j :: 0 <= j < k ==> !StartsWith(lines[j], prefix)
    ensures FieldText(lines, prefix, suffix) == Some(value)
  {
    if k == 0 {
      var l := lines[0];
      assert l[..|prefix|] == prefix;
      assert l[|l| - |suffix|..] == suffix;
      assert l[|prefix|..|l| - |suffix|] == value;
    } else {
      FieldTextAt(lines[1..], k - 1, prefix, value, suffix);
    }
  }

  /** A line that starts with one literal cannot start with another that differs at index `d`. */
  lemma Distinct(line: string, p: string, q: string, d: nat)
    requires StartsWith(line, p) && d < |p| && d < |q| && p[d] != q[d]
    ensures !StartsWith(line, q)
  {
    assert line[d] == p[d];
  }

  // ---------------------------------------------------------------------------
  // HoneywellPrinter.ipl

  const IPL_HEADER: string := "B 20,10,0,1,2,2,50,B,\""
  const IPL_ASSET: string := "T 20,70,0,3,1,1,\"Asset ID: "
  const IPL_EPC: string := "T 20,100,0,3,1,1,\"EPC:      "
  const IPL_TYPE: string := "T 20,128,0,3,1,1,\"Type:     "
  const IPL_LOC: string := "T 20,150,0,3,1,1,\"Loc:      "
  const IPL_BARCODE: string := "B 20,175,0,1A,3,1,60,\""
  const IPL_TIME: string := "T 20,260,0,3,1,1,\""
  const IPL_RFID: string := "R 1,E200,"
  const IPL_CLOSE: string := "\"\r\n"
  const IPL_PRINT: string := "P 1\r\n"

  /** The RFID encode command, emitted only for a label that has an EPC. */
  function IplRfid(epc: string): seq<string>
  {
    if epc != "" then [IPL_RFID + OrElse(epc, ZERO_EPC) + "\r\n"] else []
  }

  /** Fixed part of the IPL template: setup, header, body, barcode and timestamp. */
  function IplBody(f: LabelFields, ts: string): seq<string>
  {
    [ "n\r\n", "M t\r\n", "S l1;c15,3\r\n", "d PC\r\n",
      IPL_HEADER + HeaderText(f, IPL_HEADER_CAP) + IPL_CLOSE,
      IPL_ASSET + f.assetId + IPL_CLOSE,
      IPL_EPC + OrElse(f.epc, NO_EPC) + IPL_CLOSE,
      IPL_TYPE + f.tagType + IPL_CLOSE,
      IPL_LOC + OrElse(f.location, EM_DASH) + IPL_CLOSE,
      IPL_BARCODE + f.assetId + IPL_CLOSE,
      IPL_TIME + ts + IPL_CLOSE ]
  }

  function IplLines(f: LabelFields, ts: string): seq<string>
  {
    IplBody(f, ts) + IplRfid(f.epc) + [IPL_PRINT]
  }

  /** `HoneywellPrinter.ipl(...)`: the command lines between STX and ETX. */
  function Ipl(f: LabelFields, ts: string): (r: string)
    ensures |r| >= 2 && r[0] == STX && r[|r| - 1] == ETX
  {
    [STX] + Concat(IplLines(f, ts)) + [ETX]
  }

  /** An IPL label opens with STX and closes with the print command followed by ETX. */
  lemma IplFraming(f: LabelFields, ts: string)
    ensures Ipl(f, ts)[0] == STX
    ensures EndsWith(Ipl(f, ts), IPL_PRINT + [ETX])
  {
    var body := IplBody(f, ts) + IplRfid(f.epc);
    ConcatAppend(body, IPL_PRINT);
    var out := Ipl(f, ts);
    assert out == [STX] + Concat(body) + IPL_PRINT + [ETX];
    assert out[|out| - |IPL_PRINT + [ETX]|..] == IPL_PRINT + [ETX];
  }

  /** No line of the IPL template except the RFID command starts with "R ". */
  lemma IplBodyNotRfid(f: LabelFields, ts: string)
    ensures forall j :: 0 <= j < |IplBody(f, ts)| ==> !StartsWith(IplBody(f, ts)[j], "R ")
  {
    var b := IplBody(f, ts);
    forall j | 0 <= j < |b| ensures !StartsWith(b[j], "R ") {
      assert b[j][0] != 'R';
    }
  }

  /** The RFID encode command appears exactly when the label has an EPC, and then carries that EPC. */
  lemma IplRfidIffEpc(f: LabelFields, ts: string)
    ensures (exists j :: 0 <= j < |IplLines(f, ts)| && StartsWith(IplLines(f, ts)[j], "R ")) <==> f.epc != ""
    ensures f.epc != "" ==> FieldText(IplLines(f, ts), IPL_RFID, "\r\n") == Some(f.epc)
  {
    var lines := IplLines(f, ts);
    var b := IplBody(f, ts);
    IplBodyNotRfid(f, ts);
    if f.epc != "" {
      assert lines[|b|] == IPL_RFID + f.epc + "\r\n";
      assert StartsWith(lines[|b|], "R ");
      forall j | 0 <= j < |b| ensures !StartsWith(lines[j], IPL_RFID) {
        assert lines[j] == b[j];
        assert !StartsWith(b[j], "R ");
      }
      FieldTextAt(lines, |b|, IPL_RFID, f.epc, "\r\n");
    } else {
      assert lines == b + [IPL_PRINT];
      forall j | 0 <= j < |lines| ensures !StartsWith(lines[j], "R ") {
        if j < |b| {
          assert lines[j] == b[j];
        } else {
          assert lines[j][0] == 'P';
        }
      }
    }
  }

  /** The four setup commands are shorter than every field prefix, so none of them carries a field. */
  lemma IplSetupCarriesNoField(f: LabelFields, ts: string, prefix: string)
    requires |prefix| >= 13
    ensures forall j :: 0 <= j < 4 ==> !StartsWith(IplLines(f, ts)[j], prefix)
  {
    var l := IplLines(f, ts);
    assert l[0] == "n\r\n" && l[1] == "M t\r\n" && l[2] == "S l1;c15,3\r\n" && l[3] == "d PC\r\n";
  }

  /** The IPL header line reads back as the header text, truncated to 28 characters. */
  lemma IplHeaderReadBack(f: LabelFields, ts: string)
    ensures FieldText(IplLines(f, ts), IPL_HEADER, IPL_CLOSE) == Some(HeaderText(f, IPL_HEADER_CAP))
  {
    IplSetupCarriesNoField(f, ts, IPL_HEADER);
    FieldTextAt(IplLines(f, ts), 4, IPL_HEADER, HeaderText(f, IPL_HEADER_CAP), IPL_CLOSE);
  }

  /** The IPL "Asset ID" line reads back as the full asset id. */
  lemma IplAssetReadBack(f: LabelFields, ts: string)
    ensures FieldText(IplLines(f, ts), IPL_ASSET, IPL_CLOSE) == Some(f.assetId)
  {
    var l := IplLines(f, ts);
    IplSetupCarriesNoField(f, ts, IPL_ASSET);
    Distinct(l[4], IPL_HEADER, IPL_ASSET, 0);
    FieldTextAt(l, 5, IPL_ASSET, f.assetId, IPL_CLOSE);
  }

  /** The IPL "EPC" line reads back as the EPC, or "UNASSIGNED" for a label without one. */
  lemma IplEpcReadBack(f: LabelFields, ts: string)
    ensures FieldText(IplLines(f, ts), IPL_EPC, IPL_CLOSE) == Some(if f.epc == "" then NO_EPC else f.epc)
  {
    var l := IplLines(f, ts);
    IplSetupCarriesNoField(f, ts, IPL_EPC);
    Distinct(l[4], IPL_HEADER, IPL_EPC, 0);
    Distinct(l[5], IPL_ASSET, IPL_EPC, 5);
    FieldTextAt(l, 6, IPL_EPC, OrElse(f.epc, NO_EPC), IPL_CLOSE);
  }

  /** The IPL "Loc" line reads back as the location, or an em-dash for a label without one. */
  lemma IplLocationReadBack(f: LabelFields, ts: string)
    ensures FieldText(IplLines(f, ts), IPL_LOC, IPL_CLOSE) == Some(if f.location == "" then EM_DASH else f.location)
  {
    var l := IplLines(f, ts);
    IplSetupCarriesNoField(f, ts, IPL_LOC);
    Distinct(l[4], IPL_HEADER, IPL_LOC, 0);
    Distinct(l[5], IPL_ASSET, IPL_LOC, 5);
    Distinct(l[6], IPL_EPC, IPL_LOC, 6);
    Distinct(l[7], IPL_TYPE, IPL_LOC, 6);
    FieldTextAt(l, 8, IPL_LOC, OrElse(f.location, EM_DASH), IPL_CLOSE);
  }

  /** The IPL Code 128 barcode encodes the full asset id. */
  lemma IplBarcodeReadBack(f: LabelFields, ts: string)
    ensures FieldText(IplLines(f, ts), IPL_BARCODE, IPL_CLOSE) == Some(f.assetId)
  {
    var l := IplLines(f, ts);
    IplSetupCarriesNoField(f, ts, IPL_BARCODE);
    Distinct(l[4], IPL_HEADER, IPL_BARCODE, 6);
    Distinct(l[5], IPL_ASSET, IPL_BARCODE, 0);
    Distinct(l[6], IPL_EPC, IPL_BARCODE, 0);
    Distinct(l[7], IPL_TYPE, IPL_BARCODE, 0);
    Distinct(l[8], IPL_LOC, IPL_BARCODE, 0);
    FieldTextAt(l, 9, IPL_BARCODE, f.assetId, IPL_CLOSE);
  }

  // ---------------------------------------------------------------------------
  // HoneywellPrinter.zpl

  const ZPL_START: string := "^XA\n"
  const ZPL_FINISH: string := "^XZ\n"
  const ZPL_HEADER: string := "^FO18,10^A0N,30,30^FR^FD"
  const ZPL_ASSET: string := "^FO18,62^A0N,20,20^FDAsset: "
  const ZPL_EPC: string := "^FO18,90^A0N,18,18^FDEPC: "
  const ZPL_TYPE: string := "^FO18,114^A0N,16,16^FDType: "
  const ZPL_LOC: string := "^FO18,136^A0N,16,16^FDLoc:  "
  const ZPL_DATA: string := "^FD"
  const ZPL_QR: string := "^FDMA,"
  const ZPL_TIME: string := "^FO18,252^A0N,14,14^FD"
  const ZPL_RFID: string := "^RFWM,"
  const ZPL_CLOSE: string := "^FS\n"

  /** The RFID write command, emitted only for a label that has an EPC. */
  function ZplRfid(epc: string): seq<string>
  {
    if epc != "" then [ZPL_RFID + epc + "\n"] else []
  }

  function ZplBody(f: LabelFields, ts: string, qr: string): seq<string>
  {
    [ "^CI28\n", "^PW812\n", "^LL406\n", "^FO0,0^GB812,52,52^FS\n",
      ZPL_HEADER + HeaderText(f, ZPL_HEADER_CAP) + ZPL_CLOSE,
      ZPL_ASSET + f.assetId + ZPL_CLOSE,
      ZPL_EPC + OrElse(f.epc, NO_EPC) + ZPL_CLOSE,
      ZPL_TYPE + f.tagType + ZPL_CLOSE,
      ZPL_LOC + OrElse(f.location, EM_DASH) + ZPL_CLOSE,
      "^FO18,162^BY2,3,55\n", "^BCN,55,Y,N,N\n",
      ZPL_DATA + f.assetId + ZPL_CLOSE,
      "^FO620,60\n", "^BQN,2,4\n",
      ZPL_QR + qr + ZPL_CLOSE,
      ZPL_TIME + ts + ZPL_CLOSE ]
  }

  function ZplLines(f: LabelFields, ts: string, qr: string): seq<string>
  {
    ZplBody(f, ts, qr) + ZplRfid(f.epc)
  }

  /** `HoneywellPrinter.zpl(...)`: the command lines between ^XA and ^XZ. */
  function Zpl(f: LabelFields, ts: string, qr: string): (r: string)
    ensures |r| >= |ZPL_START| && r[..|ZPL_START|] == ZPL_START
  {
    ZPL_START + Concat(ZplLines(f, ts, qr)) + ZPL_FINISH
  }

  /** A Honeywell ZPL label opens with "^XA\n" and closes with "^XZ\n", with or without an EPC. */
  lemma ZplFraming(f: LabelFields, ts: string, qr: string)
    ensures StartsWith(Zpl(f, ts, qr), ZPL_START)
    ensures EndsWith(Zpl(f, ts, qr), ZPL_FINISH)
    ensures Zpl(f, ts, qr)[0] != STX
  {
    var out := Zpl(f, ts, qr);
    assert out[..|ZPL_START|] == ZPL_START;
    assert out[|out| - |ZPL_FINISH|..] == ZPL_FINISH;
  }

  /** The RFID write command appears exactly when the label has an EPC, and then carries that EPC. */
  lemma ZplRfidIffEpc(f: LabelFields, ts: string, qr: string)
    ensures (exists j :: 0 <= j < |ZplLines(f, ts, qr)| && StartsWith(ZplLines(f, ts, qr)[j], ZPL_RFID)) <==> f.epc != ""
    ensures f.epc != "" ==> FieldText(ZplLines(f, ts, qr), ZPL_RFID, "\n") == Some(f.epc)
  {
    hide FieldText;
    var lines := ZplLines(f, ts, qr);
    var b := ZplBody(f, ts, qr);
    forall j | 0 <= j < |b| ensures !StartsWith(b[j], ZPL_RFID) {
      assert b[j][1] != 'R';
    }
    if f.epc != "" {
      assert lines[|b|] == ZPL_RFID + f.epc + "\n";
      FieldTextAt(lines, |b|, ZPL_RFID, f.epc, "\n");
    } else {
      assert lines == b;
    }
  }

  /** The four setup commands are shorter than every text field prefix, so none of them carries one. */
  lemma ZplSetupCarriesNoField(f: LabelFields, ts: string, qr: string, prefix: string)
    requires |prefix| >= 23
    ensures forall j :: 0 <= j < 4 ==> !StartsWith(ZplLines(f, ts, qr)[j], prefix)
  {
    var l := ZplLines(f, ts, qr);
    assert l[0] == "^CI28\n" && l[1] == "^PW812\n" && l[2] == "^LL406\n" && l[3] == "^FO0,0^GB812,52,52^FS\n";
  }

  /** The ZPL header field reads back as the header text, truncated to 30 characters. */
  lemma ZplHeaderReadBack(f: LabelFields, ts: string, qr: string)
    ensures FieldText(ZplLines(f, ts, qr), ZPL_HEADER, ZPL_CLOSE) == Some(HeaderText(f, ZPL_HEADER_CAP))
  {
    ZplSetupCarriesNoField(f, ts, qr, ZPL_HEADER);
    FieldTextAt(ZplLines(f, ts, qr), 4, ZPL_HEADER, HeaderText(f, ZPL_HEADER_CAP), ZPL_CLOSE);
  }

  /** The ZPL "Asset" field reads back as the full asset id. */
  lemma ZplAssetReadBack(f: LabelFields, ts: string, qr: string)
    ensures FieldText(ZplLines(f, ts, qr), ZPL_ASSET, ZPL_CLOSE) == Some(f.assetId)
  {
    var l := ZplLines(f, ts, qr);
    ZplSetupCarriesNoField(f, ts, qr, ZPL_ASSET);
    Distinct(l[4], ZPL_HEADER, ZPL_ASSET, 6);
    FieldTextAt(l, 5, ZPL_ASSET, f.assetId, ZPL_CLOSE);
  }

  /** The ZPL "EPC" field reads back as the EPC, or "UNASSIGNED" for a label without one. */
  lemma ZplEpcReadBack(f: LabelFields, ts: string, qr: string)
    ensures FieldText(ZplLines(f, ts, qr), ZPL_EPC, ZPL_CLOSE) == Some(if f.epc == "" then NO_EPC else f.epc)
  {
    var l := ZplLines(f, ts, qr);
    ZplSetupCarriesNoField(f, ts, qr, ZPL_EPC);
    Distinct(l[4], ZPL_HEADER, ZPL_EPC, 6);
    Distinct(l[5], ZPL_ASSET, ZPL_EPC, 6);
    FieldTextAt(l, 6, ZPL_EPC, OrElse(f.epc, NO_EPC), ZPL_CLOSE);
  }

  /** The ZPL "Loc" field reads back as the location, or an em-dash for a label without one. */
  lemma ZplLocationReadBack(f: LabelFields, ts: string, qr: string)
    ensures FieldText(ZplLines(f, ts, qr), ZPL_LOC, ZPL_CLOSE) == Some(if f.location == "" then EM_DASH else f.location)
  {
    var l := ZplLines(f, ts, qr);
    ZplSetupCarriesNoField(f, ts, qr, ZPL_LOC);
    Distinct(l[4], ZPL_HEADER, ZPL_LOC, 7);
    Distinct(l[5], ZPL_ASSET, ZPL_LOC, 6);
    Distinct(l[6], ZPL_EPC, ZPL_LOC, 6);
    Distinct(l[7], ZPL_TYPE, ZPL_LOC, 7);
    FieldTextAt(l, 8, ZPL_LOC, OrElse(f.location, EM_DASH), ZPL_CLOSE);
  }

  /** The data of the ZPL Code 128 barcode, the first "^FD" command, is the full asset id. */
  lemma ZplBarcodeReadBack(f: LabelFields, ts: string, qr: string)
    ensures FieldText(ZplLines(f, ts, qr), ZPL_DATA, ZPL_CLOSE) == Some(f.assetId)
  {
    var l := ZplLines(f, ts, qr);
    assert l[0] == "^CI28\n" && l[1] == "^PW812\n" && l[2] == "^LL406\n" && l[3] == "^FO0,0^GB812,52,52^FS\n";
    assert l[9] == "^FO18,162^BY2,3,55\n" && l[10] == "^BCN,55,Y,N,N\n";
    forall j | 0 <= j < 11 ensures !StartsWith(l[j], ZPL_DATA) {
      assert l[j][2] != 'D';
    }
    FieldTextAt(l, 11, ZPL_DATA, f.assetId, ZPL_CLOSE);
  }

  // ---------------------------------------------------------------------------
  // LabelGenerator.zpl

  const GEN_HEADER: string := "^FO30,20^A0N,28,28^FD"
  const GEN_RFID: string := "^RFWM,"

  /** The lines of the triple-quoted template up to the RFID write command. */
  function GeneratorBody(f: LabelFields, ts: string, qr: string): seq<string>
  {
    [ "^XA", "^CI28", "^PW812", "^LL406", "^LH0,0", "",
      GEN_HEADER + OrElse(f.name, f.assetId) + "^FS",
      "^FO30,60^A0N,18,18^FDAsset: " + f.assetId + "^FS",
      "^FO30,90^A0N,18,18^FDEPC: " + OrElse(f.epc, NO_EPC) + "^FS",
      "^FO30,118^A0N,16,16^FDType: " + f.tagType + "^FS",
      "^FO30,140^A0N,16,16^FDLoc: " + OrElse(f.location, EM_DASH) + "^FS",
      "",
      "^FO30,175^BY2,3,60", "^BCN,60,Y,N,N",
      ZPL_DATA + f.assetId + "^FS",
      "",
      "^FO600,20", "^BQN,2,4",
      ZPL_QR + qr + "^FS",
      "",
      "^FO30,260^A0N,14,14^FD" + ts + "^FS",
      "^FO600,260^A0N,14,14^FDverified^FS",
      "" ]
  }

  /** The whole template; unlike the Honeywell ones it always carries an RFID write command. */
  function GeneratorLines(f: LabelFields, ts: string, qr: string): seq<string>
  {
    GeneratorBody(f, ts, qr) + [GEN_RFID + OrElse(f.epc, ZERO_EPC), "^XZ"]
  }

  /** `LabelGenerator.zpl(...)`: the template lines joined by newlines, no newline after ^XZ. */
  function GeneratorZpl(f: LabelFields, ts: string, qr: string): string
  {
    Join(GeneratorLines(f, ts, qr), '\n')
  }

  lemma {:induction false} JoinEndsWithLast(parts: seq<string>, sep: char)
    requires |parts| >= 1
    ensures EndsWith(Join(parts, sep), parts[|parts| - 1])
  {
    if |parts| > 1 {
      JoinEndsWithLast(parts[1..], sep);
      var j := Join(parts, sep);
      var t := Join(parts[1..], sep);
      var last := parts[|parts| - 1];
      assert j == parts[0] + [sep] + t;
      assert j[|j| - |last|..] == t[|t| - |last|..];
    }
  }

  /** The generator's label opens with "^XA" and closes with "^XZ". */
  lemma GeneratorFraming(f: LabelFields, ts: string, qr: string)
    ensures StartsWith(GeneratorZpl(f, ts, qr), "^XA")
    ensures EndsWith(GeneratorZpl(f, ts, qr), "^XZ")
  {
    var l := GeneratorLines(f, ts, qr);
    var out := GeneratorZpl(f, ts, qr);
    assert l[0] == "^XA";
    assert out == "^XA" + ['\n'] + Join(l[1..], '\n');
    assert out[..3] == "^XA";
    JoinEndsWithLast(l, '\n');
  }

  /** The generator shows the header text untruncated. */
  lemma GeneratorHeaderReadBack(f: LabelFields, ts: string, qr: string)
    ensures FieldText(GeneratorLines(f, ts, qr), GEN_HEADER, "^FS") == Some(OrElse(f.name, f.assetId))
  {
    var l := GeneratorLines(f, ts, qr);
    assert l[0] == "^XA" && l[1] == "^CI28" && l[2] == "^PW812" && l[3] == "^LL406" && l[4] == "^LH0,0" && l[5] == "";
    forall j | 0 <= j < 6 ensures !StartsWith(l[j], GEN_HEADER) {
      assert |l[j]| < |GEN_HEADER|;
    }
    FieldTextAt(l, 6, GEN_HEADER, OrElse(f.name, f.assetId), "^FS");
  }

  /** The generator always writes an EPC to the tag: the one given, or 22 zeros. */
  lemma GeneratorAlwaysWritesEpc(f: LabelFields, ts: string, qr: string)
    ensures FieldText(GeneratorLines(f, ts, qr), GEN_RFID, "") == Some(if f.epc == "" then ZERO_EPC else f.epc)
    ensures |ZERO_EPC| == 22
  {
    hide FieldText;
    var b := GeneratorBody(f, ts, qr);
    var l := GeneratorLines(f, ts, qr);
    forall j | 0 <= j < |b| ensures !StartsWith(l[j], GEN_RFID) {
      assert l[j] == b[j];
      assert b[j] == "" || b[j][1] != 'R';
    }
    assert l[|b|] == GEN_RFID + OrElse(f.epc, ZERO_EPC) + "";
    FieldTextAt(l, |b|, GEN_RFID, OrElse(f.epc, ZERO_EPC), "");
  }
}
