/**
 * The Windows print diagnostic: pick the label printer to test, classify
 * its port, check the two test labels, try every way of sending them to the
 * printer, and report which ways worked.
 */
module Diagnostics {
  import opened Wrappers
  import opened Text
  import opened Bytes

  // ---------------------------------------------------------------------------
  // Choosing the printer to test

  /** The name fragments that mark a Honeywell label printer, in lower case. */
  const KEYWORDS: seq<string> := ["honeywell", "pc42", "pc42t", "pc42d", "intermec"]

  /** A printer whose lower-cased name holds one of the keywords. */
  predicate IsHoneywell(p: string)
  {
    exists k :: k in KEYWORDS && Contains(Lower(p), k)
  }

  /** "pc42t" and "pc42d" add nothing to the keyword list: every name holding them holds "pc42". */
  lemma KeywordsRedundant(p: string)
    ensures IsHoneywell(p) <==>
      Contains(Lower(p), "honeywell") || Contains(Lower(p), "pc42") || Contains(Lower(p), "intermec")
  {
    var l := Lower(p);
    if Contains(l, "pc42t") {
      PrefixContained("pc42t", "pc42");
      ContainsTransitive(l, "pc42t", "pc42");
    }
    if Contains(l, "pc42d") {
      PrefixContained("pc42d", "pc42");
      ContainsTransitive(l, "pc42d", "pc42");
    }
    assert KEYWORDS[0] == "honeywell" && KEYWORDS[1] == "pc42" && KEYWORDS[4] == "intermec";
  }

  /** The enumerated printers that look like Honeywell printers, in enumeration order. */
  function HoneywellPrinters(printers: seq<string>): (h: seq<string>)
    ensures forall p :: p in h <==> p in printers && IsHoneywell(p)
    ensures |h| <= |printers|
  {
    if printers == [] then []
    else
      assert printers == [printers[0]] + printers[1..];
      (if IsHoneywell(printers[0]) then [printers[0]] else []) + HoneywellPrinters(printers[1..])
  }

  /** The first Honeywell printer found is the first one in enumeration order. */
  lemma {:induction false} FirstHoneywell(printers: seq<string>)
    requires HoneywellPrinters(printers) != []
    ensures exists i :: (0 <= i < |printers| && printers[i] == HoneywellPrinters(printers)[0] &&
      IsHoneywell(printers[i]) && forall j :: 0 <= j < i ==> !IsHoneywell(printers[j]))
  {
    if !IsHoneywell(printers[0]) {
      var rest := printers[1..];
      assert HoneywellPrinters(printers) == HoneywellPrinters(rest);
      FirstHoneywell(rest);
      var i :| 0 <= i < |rest| && rest[i] == HoneywellPrinters(rest)[0] &&
        IsHoneywell(rest[i]) && forall j :: 0 <= j < i ==> !IsHoneywell(rest[j]);
      assert printers[i + 1] == rest[i];
      forall j | 0 <= j < i + 1 ensures !IsHoneywell(printers[j]) {
        if j > 0 {
          assert printers[j] == rest[j - 1];
        }
      }
    }
  }

  /**
   * The printer the diagnostic tests: the first Honeywell printer, else the
   * default printer when there is one, else the first printer. None when no
   * printer is installed, where the script stops.
   */
  function SelectTarget(printers: seq<string>, defaultPrinter: string): (t: Option<string>)
    ensures t.None? <==> printers == []
    ensures t.Some? ==> t.value in printers || t.value == defaultPrinter
  {
    if printers == [] then None
    else
      var h := HoneywellPrinters(printers);
      if h != [] then Some(h[0])
      else if defaultPrinter != "" then Some(defaultPrinter)
      else Some(printers[0])
  }

  /** When a Honeywell printer is installed, the first one is tested, whatever the default printer. */
  lemma SelectsFirstHoneywell(printers: seq<string>, defaultPrinter: string)
    requires exists i :: 0 <= i < |printers| && IsHoneywell(printers[i])
    ensures exists i :: (0 <= i < |printers| && SelectTarget(printers, defaultPrinter) == Some(printers[i]) &&
      IsHoneywell(printers[i]) && forall j :: 0 <= j < i ==> !IsHoneywell(printers[j]))
  {
    var i :| 0 <= i < |printers| && IsHoneywell(printers[i]);
    assert printers[i] in HoneywellPrinters(printers);
    FirstHoneywell(printers);
  }

  /** With no Honeywell printer, the default printer is tested, or the first printer when there is no default. */
  lemma SelectsFallback(printers: seq<string>, defaultPrinter: string)
    requires printers != []
    requires forall i :: 0 <= i < |printers| ==> !IsHoneywell(printers[i])
    ensures SelectTarget(printers, defaultPrinter) == Some(if defaultPrinter != "" then defaultPrinter else printers[0])
  {
    NoHoneywellFound(printers);
  }

  lemma {:induction false} NoHoneywellFound(printers: seq<string>)
    requires forall i :: 0 <= i < |printers| ==> !IsHoneywell(printers[i])
    ensures HoneywellPrinters(printers) == []
  {
    if printers != [] {
      assert forall i :: 0 <= i < |printers[1..]| ==> printers[1..][i] == printers[i + 1];
      NoHoneywellFound(printers[1..]);
    }
  }

  // ---------------------------------------------------------------------------
  // The printer's port

  datatype PortKind = NoPort | NetworkIp | Usb | Serial | Parallel | Unknown

  /** What the port analysis leaves behind: the kind, `is_network_port` and `printer_ip`. */
  datatype PortAnalysis = PortAnalysis(kind: PortKind, isNetwork: bool, printerIp: Option<string>)

  /** Four dot-separated pieces, each a non-empty run of digits. */
  predicate IsDottedQuad(s: string)
  {
    var parts := Split(s, '.');
    |parts| == 4 && forall k :: 0 <= k < 4 ==> IsDigitWord(parts[k])
  }

  /**
   * Classify the port name ("" when the printer's port is unknown).
   * `resolved` is the outcome of resolving the name as a host name: the
   * address, or None when resolution fails.
   */
  function AnalysePort(portName: string, resolved: Option<string>): (a: PortAnalysis)
    ensures a.isNetwork <==> a.printerIp.Some?
    ensures a.kind == NoPort <==> portName == ""
    ensures a.kind == NetworkIp <==> portName != "" && IsDottedQuad(portName)
    ensures a.kind == Usb <==>
      portName != "" && !IsDottedQuad(portName) && StartsWith(Upper(portName), "USB")
    ensures a.kind == Serial <==>
      portName != "" && !IsDottedQuad(portName) && !StartsWith(Upper(portName), "USB") &&
      StartsWith(Upper(portName), "COM")
    ensures a.kind == Parallel <==>
      portName != "" && !IsDottedQuad(portName) && !StartsWith(Upper(portName), "USB") &&
      !StartsWith(Upper(portName), "COM") && StartsWith(Upper(portName), "LPT")
    ensures a.kind == Unknown <==>
      portName != "" && !IsDottedQuad(portName) && !StartsWith(Upper(portName), "USB") &&
      !StartsWith(Upper(portName), "COM") && !StartsWith(Upper(portName), "LPT")
    ensures a.kind == NetworkIp ==> a.isNetwork && a.printerIp == Some(portName)
    ensures a.kind == Unknown ==> a.printerIp == resolved
    ensures a.isNetwork ==> a.kind == NetworkIp || a.kind == Unknown
  {
    if portName == "" then PortAnalysis(NoPort, false, None)
    else if IsDottedQuad(portName) then PortAnalysis(NetworkIp, true, Some(portName))
    else
      var upper := Upper(portName);
      if StartsWith(upper, "USB") then PortAnalysis(Usb, false, None)
      else if StartsWith(upper, "COM") then PortAnalysis(Serial, false, None)
      else if StartsWith(upper, "LPT") then PortAnalysis(Parallel, false, None)
      else PortAnalysis(Unknown, resolved.Some?, resolved)
  }

  /** Host-name resolution is consulted only for a port of unknown kind. */
  lemma ResolutionOnlyForUnknown(portName: string, r1: Option<string>, r2: Option<string>)
    requires AnalysePort(portName, r1).kind != Unknown
    ensures AnalysePort(portName, r1) == AnalysePort(portName, r2)
  {
  }

  /** A name is a dotted quad exactly when it joins four digit strings with dots. */
  lemma DottedQuadIff(s: string)
    ensures IsDottedQuad(s) <==> exists parts: seq<string> ::
      |parts| == 4 && (forall k :: 0 <= k < 4 ==> IsDigitWord(parts[k])) && Join(parts, '.') == s
  {
    if IsDottedQuad(s) {
      JoinSplit(s, '.');
    }
    if exists parts: seq<string> ::
      |parts| == 4 && (forall k :: 0 <= k < 4 ==> IsDigitWord(parts[k])) && Join(parts, '.') == s
    {
      var parts: seq<string> :|
        |parts| == 4 && (forall k :: 0 <= k < 4 ==> IsDigitWord(parts[k])) && Join(parts, '.') == s;
      forall k | 0 <= k < |parts| ensures '.' !in parts[k] {
        assert forall i :: 0 <= i < |parts[k]| ==> parts[k][i] != '.';
      }
      SplitJoin(parts, '.');
    }
  }

  /** A port whose name starts with "USB" in any letter case is a USB port, never a network one. */
  lemma UsbPortNeverNetwork(portName: string, resolved: Option<string>)
    requires StartsWith(Upper(portName), "USB")
    ensures AnalysePort(portName, resolved) == PortAnalysis(Usb, false, None)
  {
    assert Upper(portName)[0] == 'U';
    assert portName[0] != '.' && !IsDigit(portName[0]);
    var parts := Split(portName, '.');
    assert parts[0][0] == portName[0];
  }

  // ---------------------------------------------------------------------------
  // The two test labels

  /** The ZPL test label up to the time of day it prints, in two pieces: up to the first ^FD, and the rest. */
  const TEST_ZPL_START: string := "^XA^FO50,50^A0N,40,40"
  const TEST_ZPL_FIELDS: string :=
    "^FDHoneywell Test^FS" + "^FO50,110^A0N,30,30" + "^FDPC42t Windows^FS" + "^FO50,160^A0N,25,25" + "^FD"
  const TEST_ZPL_HEAD: string := TEST_ZPL_START + TEST_ZPL_FIELDS
  const TEST_ZPL_TAIL: string := "^FS^XZ"

  /** The ZPL test label, printing the time of day `time` (HH:MM:SS, as bytes). */
  function MinimalZpl(time: seq<byte>): seq<byte>
  {
    Latin1Encode(TEST_ZPL_HEAD) + time + Latin1Encode(TEST_ZPL_TAIL)
  }

  /** The ZPL test label opens with ^XA, closes with ^XZ and holds field data, whatever the time. */
  lemma ZplStructure(time: seq<byte>)
    ensures StartsWith(MinimalZpl(time), Latin1Encode("^XA"))
    ensures EndsWith(MinimalZpl(time), Latin1Encode("^XZ"))
    ensures Contains(MinimalZpl(time), Latin1Encode("^FD"))
  {
    ZplPieces();
    var head := Latin1Encode(TEST_ZPL_HEAD);
    var tail := Latin1Encode(TEST_ZPL_TAIL);
    EncodeSlice(TEST_ZPL_HEAD, 0, 3);
    EncodeSlice(TEST_ZPL_HEAD, 21, 24);
    EncodeSlice(TEST_ZPL_TAIL, 3, 6);
    hide Latin1Encode;
    var z := MinimalZpl(time);
    assert z[..3] == head[..3];
    assert z[|z| - 3..] == tail[3..];
    assert z[21..24] == head[21..24];
    assert OccursAt(z, Latin1Encode("^FD"), 21);
  }

  /** Where ^XA, ^FD and ^XZ sit in the fixed parts of the ZPL label. */
  lemma ZplPieces()
    ensures |TEST_ZPL_HEAD| >= 24 && TEST_ZPL_HEAD[..3] == "^XA" && TEST_ZPL_HEAD[21..24] == "^FD"
    ensures |TEST_ZPL_TAIL| == 6 && TEST_ZPL_TAIL[3..] == "^XZ"
  {
    assert |TEST_ZPL_START| == 21;
    assert TEST_ZPL_HEAD[..3] == TEST_ZPL_START[..3];
    assert TEST_ZPL_HEAD[21..24] == TEST_ZPL_FIELDS[..3];
  }

  /** Encoding commutes with slicing. */
  lemma EncodeSlice(s: string, i: nat, j: nat)
    requires i <= j <= |s|
    ensures Latin1Encode(s)[i..j] == Latin1Encode(s[i..j])
  {
  }

  /** The IPL commands between STX and ETX. */
  const IPL_COMMANDS: string :=
    "n\r\n" + "M t\r\n" + "S l1;c15,3\r\n" + "d PC\r\n" +
    "T 50,50,0,3,2,2,\"Honeywell Test\"\r\n" + "T 50,110,0,3,1,1,\"PC42t Windows\"\r\n" + "P 1\r\n"
  const STX_BYTE: byte := 0x02
  const ETX_BYTE: byte := 0x03

  /** The IPL test label. */
  const MINIMAL_IPL: seq<byte> := [STX_BYTE] + Latin1Encode(IPL_COMMANDS) + [ETX_BYTE]

  /** No IPL command line holds a caret. */
  lemma IplCommandsPlain()
    ensures '^' !in IPL_COMMANDS
  {
    IplSetupPlain();
    IplTextPlain();
  }

  lemma IplSetupPlain()
    ensures '^' !in "n\r\n" + "M t\r\n" + "S l1;c15,3\r\n" + "d PC\r\n"
  {
  }

  lemma IplTextPlain()
    ensures '^' !in "T 50,50,0,3,2,2,\"Honeywell Test\"\r\n"
    ensures '^' !in "T 50,110,0,3,1,1,\"PC42t Windows\"\r\n"
  {
  }

  /** The IPL test label opens with STX, closes with ETX and holds no "^T " command. */
  lemma IplStructure()
    ensures MINIMAL_IPL[0..1] == [STX_BYTE]
    ensures MINIMAL_IPL[|MINIMAL_IPL| - 1..] == [ETX_BYTE]
    ensures !Contains(MINIMAL_IPL, Latin1Encode("^T "))
  {
    IplCommandsPlain();
    forall i | 0 <= i < |MINIMAL_IPL| ensures MINIMAL_IPL[i] != 0x5E {
      if 0 < i < |MINIMAL_IPL| - 1 {
        assert IPL_COMMANDS[i - 1] in IPL_COMMANDS;
      }
    }
    assert Latin1Encode("^T ")[0] == 0x5E;
    NotContainsWithout(MINIMAL_IPL, Latin1Encode("^T "), 0x5E);
  }

  // ---------------------------------------------------------------------------
  // When a write counts as sent

  /** What `WriteFile` returned and how many bytes it reports written. */
  datatype WriteResult = WriteResult(ok: bool, written: int)

  /** A direct port write succeeds only when the whole payload was written. */
  predicate DirectWriteOk(w: WriteResult, size: int)
  {
    w.ok && w.written == size
  }

  /** The USB scan accepts any write of at least one byte. */
  predicate UsbWriteOk(w: WriteResult)
  {
    w.ok && w.written > 0
  }

  /** A write the direct test accepts is one the USB scan accepts too, for a non-empty payload. */
  lemma DirectImpliesUsb(w: WriteResult, size: int)
    requires size > 0
    ensures DirectWriteOk(w, size) ==> UsbWriteOk(w)
  {
  }

  /** A partial write passes the USB scan but fails the direct test. */
  lemma PartialWriteUsbOnly(w: WriteResult, size: int)
    requires w.ok && 0 < w.written < size
    ensures UsbWriteOk(w) && !DirectWriteOk(w, size)
  {
  }

  /** How a PowerShell `copy /b` run ended: its exit code and output, or an exception. */
  datatype PsRun = PsExited(returnCode: int, stdout: string, stderr: string) | PsRaised

  /** A copy succeeds on exit code 0 with "1 file" in the output, or with no output at all. */
  predicate PsCopyOk(run: PsRun)
  {
    run.PsExited? &&
    var out := Strip(run.stdout + run.stderr);
    run.returnCode == 0 && (Contains(Lower(out), "1 file") || out == "")
  }

  /** A copy that exits with a non-zero code, or raises, never counts as sent. */
  lemma PsFailureCases(run: PsRun)
    ensures run.PsRaised? ==> !PsCopyOk(run)
    ensures run.PsExited? && run.returnCode != 0 ==> !PsCopyOk(run)
  {
  }

  /** A copy that exits with code 0 and prints only white space counts as sent. */
  lemma PsSilentSuccess(stdout: string, stderr: string)
    requires forall i :: 0 <= i < |stdout + stderr| ==> IsSpace((stdout + stderr)[i])
    ensures PsCopyOk(PsExited(0, stdout, stderr))
  {
    StripEmptyIffBlank(stdout + stderr);
  }

  // ---------------------------------------------------------------------------
  // The results table: keys in the order first recorded, each with its last value

  /** A key with the value recorded for it, as the entries of the `results` dict. */
  type Entry = (string, bool)

  /** The value of `key`, if the table holds it. */
  function Lookup(entries: seq<Entry>, key: string): Option<bool>
  {
    if entries == [] then None
    else if entries[0].0 == key then Some(entries[0].1)
    else Lookup(entries[1..], key)
  }

  /** No key occurs twice. */
  predicate DistinctKeys(entries: seq<Entry>)
  {
    entries == [] || (Lookup(entries[1..], entries[0].0).None? && DistinctKeys(entries[1..]))
  }

  /** `results[key] = value`: a key already present keeps its place and takes the new value; a new key goes last. */
  function Recorded(entries: seq<Entry>, key: string, value: bool): (r: seq<Entry>)
    ensures |r| == |entries| + (if Lookup(entries, key).None? then 1 else 0)
  {
    if entries == [] then [(key, value)]
    else if entries[0].0 == key then [(key, value)] + entries[1..]
    else [entries[0]] + Recorded(entries[1..], key, value)
  }

  /** After recording, the key maps to the new value and every other key is unchanged. */
  lemma {:induction false} RecordedLookup(entries: seq<Entry>, key: string, value: bool, k: string)
    ensures Lookup(Recorded(entries, key, value), k) == if k == key then Some(value) else Lookup(entries, k)
  {
    if entries != [] && entries[0].0 != key {
      RecordedLookup(entries[1..], key, value, k);
    }
  }

  /** Recording keeps the keys distinct. */
  lemma {:induction false} RecordedDistinct(entries: seq<Entry>, key: string, value: bool)
    requires DistinctKeys(entries)
    ensures DistinctKeys(Recorded(entries, key, value))
  {
    if entries != [] && entries[0].0 != key {
      RecordedDistinct(entries[1..], key, value);
      RecordedLookup(entries[1..], key, value, entries[0].0);
    }
  }

  /** A sequence of assignments to the table, applied in order. */
  function RecordAll(entries: seq<Entry>, writes: seq<Entry>): seq<Entry>
  {
    if writes == [] then entries
    else
      var last := writes[|writes| - 1];
      Recorded(RecordAll(entries, writes[..|writes| - 1]), last.0, last.1)
  }

  /** The value of the last assignment to `k`, if any. */
  function LastWrite(writes: seq<Entry>, k: string): Option<bool>
  {
    if writes == [] then None
    else if writes[|writes| - 1].0 == k then Some(writes[|writes| - 1].1)
    else LastWrite(writes[..|writes| - 1], k)
  }

  lemma RecordNothing(entries: seq<Entry>)
    ensures RecordAll(entries, []) == entries
  {
  }

  lemma RecordAllSnoc(entries: seq<Entry>, writes: seq<Entry>, w: Entry)
    ensures RecordAll(entries, writes + [w]) == Recorded(RecordAll(entries, writes), w.0, w.1)
  {
    assert (writes + [w])[..|writes|] == writes;
  }

  /** Assignments in two runs are assignments in one. */
  lemma {:induction false} RecordAllAppend(entries: seq<Entry>, a: seq<Entry>, b: seq<Entry>)
    ensures RecordAll(entries, a + b) == RecordAll(RecordAll(entries, a), b)
    decreases |b|
  {
    if b == [] {
      assert a + b == a;
    } else {
      var init := b[..|b| - 1];
      assert a + b == (a + init) + [b[|b| - 1]];
      assert b == init + [b[|b| - 1]];
      RecordAllAppend(entries, a, init);
      RecordAllSnoc(entries, a + init, b[|b| - 1]);
      RecordAllSnoc(RecordAll(entries, a), init, b[|b| - 1]);
    }
  }

  /** Dictionary semantics: after the assignments a key holds its last assigned value, or what it held before. */
  lemma {:induction false} RecordAllLookup(entries: seq<Entry>, writes: seq<Entry>, k: string)
    ensures Lookup(RecordAll(entries, writes), k) ==
      if LastWrite(writes, k).Some? then LastWrite(writes, k) else Lookup(entries, k)
  {
    if writes != [] {
      var last := writes[|writes| - 1];
      RecordAllLookup(entries, writes[..|writes| - 1], k);
      RecordedLookup(RecordAll(entries, writes[..|writes| - 1]), last.0, last.1, k);
    }
  }

  lemma {:induction false} RecordAllDistinct(entries: seq<Entry>, writes: seq<Entry>)
    requires DistinctKeys(entries)
    ensures DistinctKeys(RecordAll(entries, writes))
  {
    if writes != [] {
      var last := writes[|writes| - 1];
      RecordAllDistinct(entries, writes[..|writes| - 1]);
      RecordedDistinct(RecordAll(entries, writes[..|writes| - 1]), last.0, last.1);
    }
  }

  /** The `results` dict, filled in place as each method is tried. */
  class ResultTable {
    var entries: seq<Entry>

    constructor()
      ensures entries == []
    {
      entries := [];
    }

    /** `results[key] = value`. */
    method Record(key: string, value: bool)
      modifies this
      ensures entries == Recorded(old(entries), key, value)
    {
      entries := Recorded(entries, key, value);
    }
  }

  // ---------------------------------------------------------------------------
  // The summary

  /** The keys whose value is True, in table order. */
  function Worked(entries: seq<Entry>): (ks: seq<string>)
    ensures forall k :: k in ks <==> (k, true) in entries
  {
    if entries == [] then []
    else
      assert entries == [entries[0]] + entries[1..];
      (if entries[0].1 then [entries[0].0] else []) + Worked(entries[1..])
  }

  /** The keys whose value is False, in table order. */
  function Failed(entries: seq<Entry>): (ks: seq<string>)
    ensures forall k :: k in ks <==> (k, false) in entries
  {
    if entries == [] then []
    else
      assert entries == [entries[0]] + entries[1..];
      (if entries[0].1 then [] else [entries[0].0]) + Failed(entries[1..])
  }

  /** In a table with distinct keys, a pair is present exactly when the key maps to that value. */
  lemma {:induction false} LookupIn(entries: seq<Entry>, k: string, v: bool)
    requires DistinctKeys(entries)
    ensures (k, v) in entries <==> Lookup(entries, k) == Some(v)
  {
    if entries != [] {
      assert entries == [entries[0]] + entries[1..];
      LookupIn(entries[1..], k, v);
      if entries[0].0 == k {
        LookupNone(entries[1..], k, v);
      }
    }
  }

  lemma {:induction false} LookupNone(entries: seq<Entry>, k: string, v: bool)
    requires Lookup(entries, k).None?
    ensures (k, v) !in entries
  {
    if entries != [] {
      assert entries == [entries[0]] + entries[1..];
      LookupNone(entries[1..], k, v);
    }
  }

  /** `worked` and `failed` split the table: every entry is in exactly one of them. */
  lemma {:induction false} SummaryPartition(entries: seq<Entry>)
    requires DistinctKeys(entries)
    ensures |Worked(entries)| + |Failed(entries)| == |entries|
    ensures forall k :: k in Worked(entries) <==> Lookup(entries, k) == Some(true)
    ensures forall k :: k in Failed(entries) <==> Lookup(entries, k) == Some(false)
    ensures forall k :: !(k in Worked(entries) && k in Failed(entries))
  {
    if entries != [] {
      SummaryPartition(entries[1..]);
    }
    forall k ensures (k in Worked(entries) <==> Lookup(entries, k) == Some(true)) &&
      (k in Failed(entries) <==> Lookup(entries, k) == Some(false))
    {
      LookupIn(entries, k, true);
      LookupIn(entries, k, false);
    }
  }

  /**
   * "No print method succeeded" is reported exactly when no key's last
   * assignment was True.
   */
  lemma NoMethodSucceededIff(writes: seq<Entry>)
    ensures Worked(RecordAll([], writes)) == [] <==> forall k :: LastWrite(writes, k) != Some(true)
  {
    var table := RecordAll([], writes);
    RecordAllDistinct([], writes);
    SummaryPartition(table);
    forall k ensures k in Worked(table) <==> LastWrite(writes, k) == Some(true) {
      RecordAllLookup([], writes, k);
    }
    if Worked(table) != [] {
      var k := Worked(table)[0];
      assert k in Worked(table);
      assert LastWrite(writes, k) == Some(true);
    }
  }

  // ---------------------------------------------------------------------------
  // Trying every way of sending the test labels

  /** The formats every method sends, in order. */
  const FORMATS: seq<string> := ["ZPL", "IPL"]

  /** The port names tried when the ports cannot be enumerated: USB001 to USB005. */
  const FALLBACK_USB_PORTS: seq<string> := ["USB001", "USB002", "USB003", "USB004", "USB005"]

  /**
   * What the outside world answers when the diagnostic tries each method;
   * each field stands for one kind of foreign call.
   */
  datatype Env = Env(
    /** The time of day printed on the ZPL label, as bytes. */
    time: seq<byte>,
    /** Per format: connecting to port 9100 and sending the label completed without an exception. */
    networkSent: string -> bool,
    /** Per format: opening the printer's port as a file gave a valid handle. */
    directOpened: string -> bool,
    /** Per format: what the write to that handle returned. */
    directWrite: string -> WriteResult,
    /** Whether the Windows spooler module could be imported. */
    spoolerAvailable: bool,
    /** Per format: the RAW spool job was submitted without an exception. */
    spooled: string -> bool,
    /** Per format: how the PowerShell `copy /b` to the printer's port ended. */
    powershell: string -> PsRun,
    /** The port names the spooler enumerates, or None when enumeration raises. */
    enumeratedPorts: Option<seq<string>>,
    /** Per port: opening the port as a file gave a valid handle. */
    usbOpened: string -> bool,
    /** Per port: what the write of the ZPL label to that handle returned. */
    usbWrite: string -> WriteResult)

  /** The test label sent in a format. */
  function Payload(time: seq<byte>, fmt: string): seq<byte>
  {
    if fmt == "ZPL" then MinimalZpl(time) else MINIMAL_IPL
  }

  /** The four methods that send both formats. */
  datatype Transfer = Network | Direct | Spooler | PowerShell

  /** The prefix of a method's keys in the results table. */
  function KeyPrefix(t: Transfer): (p: string)
    ensures |p| > 0
  {
    match t
    case Network => "Network-"
    case Direct => "Direct-"
    case Spooler => "Spooler-"
    case PowerShell => "PS-"
  }

  /** Whether a method is tried at all. */
  predicate Runs(t: Transfer, env: Env, port: PortAnalysis, portName: string)
  {
    match t
    case Network => port.isNetwork
    case Direct => portName != ""
    case Spooler => env.spoolerAvailable
    case PowerShell => true
  }

  /** The value a method records for a format. */
  predicate Outcome(t: Transfer, env: Env, fmt: string)
  {
    match t
    case Network => env.networkSent(fmt)
    case Direct => env.directOpened(fmt) && DirectWriteOk(env.directWrite(fmt), |Payload(env.time, fmt)|)
    case Spooler => env.spooled(fmt)
    case PowerShell => PsCopyOk(env.powershell(fmt))
  }

  /** The assignments a method makes to the results table, one per format, in order. */
  function Attempts(t: Transfer, env: Env, fmts: seq<string>): seq<Entry>
  {
    if fmts == [] then []
    else
      var fmt := fmts[|fmts| - 1];
      Attempts(t, env, fmts[..|fmts| - 1]) + [(KeyPrefix(t) + fmt, Outcome(t, env, fmt))]
  }

  lemma NothingAttempted(t: Transfer, env: Env, entries: seq<Entry>)
    ensures RecordAll(entries, Attempts(t, env, FORMATS[..0])) == entries
  {
    assert FORMATS[..0] == [];
  }

  lemma AttemptsSnoc(t: Transfer, env: Env, fmts: seq<string>, k: nat)
    requires k < |fmts|
    ensures Attempts(t, env, fmts[..k + 1]) ==
      Attempts(t, env, fmts[..k]) + [(KeyPrefix(t) + fmts[k], Outcome(t, env, fmts[k]))]
  {
    assert fmts[..k + 1][..k] == fmts[..k];
  }

  /** The assignments the USB scan makes: only the ports written to, each with True. */
  function UsbAttempts(env: Env, ports: seq<string>): (w: seq<Entry>)
    ensures |w| <= |ports|
    ensures forall i :: 0 <= i < |w| ==> w[i].1 && StartsWith(w[i].0, "USB-scan-")
  {
    if ports == [] then []
    else
      var port := ports[|ports| - 1];
      UsbAttempts(env, ports[..|ports| - 1]) +
      (if env.usbOpened(port) && UsbWriteOk(env.usbWrite(port)) then [("USB-scan-" + port, true)] else [])
  }

  lemma NothingScanned(env: Env, ports: seq<string>, entries: seq<Entry>)
    ensures RecordAll(entries, UsbAttempts(env, ports[..0])) == entries
  {
    assert ports[..0] == [];
  }

  lemma UsbAttemptsSnoc(env: Env, ports: seq<string>, k: nat)
    requires k < |ports|
    ensures UsbAttempts(env, ports[..k + 1]) == UsbAttempts(env, ports[..k]) +
      (if env.usbOpened(ports[k]) && UsbWriteOk(env.usbWrite(ports[k])) then [("USB-scan-" + ports[k], true)] else [])
  {
    assert ports[..k + 1][..k] == ports[..k];
  }

  /** The enumerated names that start with "USB" in any letter case, in order. */
  function UsbNames(names: seq<string>): (ports: seq<string>)
    ensures forall p :: p in ports <==> p in names && StartsWith(Upper(p), "USB")
  {
    if names == [] then []
    else
      var n := names[|names| - 1];
      assert names == names[..|names| - 1] + [n];
      UsbNames(names[..|names| - 1]) + (if StartsWith(Upper(n), "USB") then [n] else [])
  }

  /** The ports the USB scan tries: the enumerated USB ports, or USB001 to USB005 when enumeration fails. */
  function UsbCandidates(enumerated: Option<seq<string>>): seq<string>
  {
    match enumerated
    case None => FALLBACK_USB_PORTS
    case Some(names) => UsbNames(names)
  }

  /** Every port the scan tries is named USB..., enumerated or not. */
  lemma UsbCandidatesAreUsb(enumerated: Option<seq<string>>)
    ensures forall p :: p in UsbCandidates(enumerated) ==> StartsWith(Upper(p), "USB")
  {
    if enumerated.None? {
      forall p | p in FALLBACK_USB_PORTS ensures StartsWith(Upper(p), "USB") {
        assert p[..3] == "USB";
        assert Upper(p)[..3] == p[..3];
      }
    }
  }

  /** Building the list of USB ports to try. */
  method ListUsbPorts(enumerated: Option<seq<string>>) returns (ports: seq<string>)
    ensures ports == UsbCandidates(enumerated)
  {
    if enumerated.None? {
      return FALLBACK_USB_PORTS;
    }
    var names := enumerated.value;
    ports := [];
    var i := 0;
    while i < |names|
      invariant 0 <= i <= |names|
      invariant ports == UsbNames(names[..i])
    {
      assert names[..i + 1][..i] == names[..i];
      if StartsWith(Upper(names[i]), "USB") {
        ports := ports + [names[i]];
      }
      i := i + 1;
    }
    assert names[..i] == names;
  }

  /** Method A: send both labels to port 9100 of the printer's address. */
  method TestNetwork(table: ResultTable, env: Env)
    modifies table
    ensures table.entries == RecordAll(old(table.entries), Attempts(Network, env, FORMATS))
  {
    hide Recorded, RecordAll, Attempts;
    var k := 0;
    NothingAttempted(Network, env, table.entries);
    while k < |FORMATS|
      invariant 0 <= k <= |FORMATS|
      invariant table.entries == RecordAll(old(table.entries), Attempts(Network, env, FORMATS[..k]))
    {
      var fmt := FORMATS[k];
      var sent := env.networkSent(fmt);
      AttemptsSnoc(Network, env, FORMATS, k);
      RecordAllSnoc(old(table.entries), Attempts(Network, env, FORMATS[..k]), ("Network-" + fmt, sent));
      table.Record("Network-" + fmt, sent);
      k := k + 1;
    }
    assert FORMATS[..k] == FORMATS;
  }

  /** Method B: write both labels straight to the printer's port; only a complete write counts. */
  method TestDirect(table: ResultTable, env: Env)
    modifies table
    ensures table.entries == RecordAll(old(table.entries), Attempts(Direct, env, FORMATS))
  {
    hide Recorded, RecordAll, Attempts;
    var k := 0;
    NothingAttempted(Direct, env, table.entries);
    while k < |FORMATS|
      invariant 0 <= k <= |FORMATS|
      invariant table.entries == RecordAll(old(table.entries), Attempts(Direct, env, FORMATS[..k]))
    {
      var fmt := FORMATS[k];
      var data := Payload(env.time, fmt);
      var ok: bool;
      if !env.directOpened(fmt) {
        ok := false;
      } else {
        var w := env.directWrite(fmt);
        ok := w.ok && w.written == |data|;
      }
      AttemptsSnoc(Direct, env, FORMATS, k);
      RecordAllSnoc(old(table.entries), Attempts(Direct, env, FORMATS[..k]), ("Direct-" + fmt, ok));
      table.Record("Direct-" + fmt, ok);
      k := k + 1;
    }
    assert FORMATS[..k] == FORMATS;
  }

  /** Method C: submit both labels as RAW spool jobs. */
  method TestSpooler(table: ResultTable, env: Env)
    modifies table
    ensures table.entries == RecordAll(old(table.entries), Attempts(Spooler, env, FORMATS))
  {
    hide Recorded, RecordAll, Attempts;
    var k := 0;
    NothingAttempted(Spooler, env, table.entries);
    while k < |FORMATS|
      invariant 0 <= k <= |FORMATS|
      invariant table.entries == RecordAll(old(table.entries), Attempts(Spooler, env, FORMATS[..k]))
    {
      var fmt := FORMATS[k];
      var submitted := env.spooled(fmt);
      AttemptsSnoc(Spooler, env, FORMATS, k);
      RecordAllSnoc(old(table.entries), Attempts(Spooler, env, FORMATS[..k]), ("Spooler-" + fmt, submitted));
      table.Record("Spooler-" + fmt, submitted);
      k := k + 1;
    }
    assert FORMATS[..k] == FORMATS;
  }

  /** Method D: copy both labels to the printer's port through PowerShell. */
  method TestPowerShell(table: ResultTable, env: Env)
    modifies table
    ensures table.entries == RecordAll(old(table.entries), Attempts(PowerShell, env, FORMATS))
  {
    hide Recorded, RecordAll, Attempts, Strip, Lower, Contains;
    var k := 0;
    NothingAttempted(PowerShell, env, table.entries);
    while k < |FORMATS|
      invariant 0 <= k <= |FORMATS|
      invariant table.entries == RecordAll(old(table.entries), Attempts(PowerShell, env, FORMATS[..k]))
    {
      var fmt := FORMATS[k];
      var ok: bool;
      match env.powershell(fmt) {
        case PsRaised =>
          ok := false;
        case PsExited(code, stdout, stderr) =>
          var out := Strip(stdout + stderr);
          ok := code == 0 && (Contains(Lower(out), "1 file") || out == "");
      }
      AttemptsSnoc(PowerShell, env, FORMATS, k);
      RecordAllSnoc(old(table.entries), Attempts(PowerShell, env, FORMATS[..k]), ("PS-" + fmt, ok));
      table.Record("PS-" + fmt, ok);
      k := k + 1;
    }
    assert FORMATS[..k] == FORMATS;
  }

  /**
   * Method E: write the ZPL label to every USB port that opens; only
   * successes are recorded. Its calls use the Windows constants that
   * Method B binds, so when they are unbound (`constantsBound` false) the
   * first port raises NameError and nothing is recorded.
   */
  method ScanUsb(table: ResultTable, env: Env, ports: seq<string>, constantsBound: bool) returns (raised: bool)
    modifies table
    ensures raised <==> !constantsBound && ports != []
    ensures raised ==> table.entries == old(table.entries)
    ensures !raised ==> table.entries == RecordAll(old(table.entries), UsbAttempts(env, ports))
  {
    hide Recorded, RecordAll, UsbAttempts;
    var i := 0;
    NothingScanned(env, ports, table.entries);
    while i < |ports|
      invariant 0 <= i <= |ports|
      invariant i > 0 ==> constantsBound
      invariant table.entries == RecordAll(old(table.entries), UsbAttempts(env, ports[..i]))
    {
      if !constantsBound {
        RecordNothing(old(table.entries));
        return true;
      }
      var port := ports[i];
      UsbAttemptsSnoc(env, ports, i);
      assert UsbAttempts(env, ports[..i]) + [] == UsbAttempts(env, ports[..i]);
      if env.usbOpened(port) {
        var w := env.usbWrite(port);
        if w.ok && w.written > 0 {
          RecordAllSnoc(old(table.entries), UsbAttempts(env, ports[..i]), ("USB-scan-" + port, true));
          table.Record("USB-scan-" + port, true);
        }
      }
      i := i + 1;
    }
    assert ports[..i] == ports;
    raised := false;
  }

  /** The assignments of Methods A to D, in the order the script makes them. */
  function EarlyAttempts(env: Env, port: PortAnalysis, portName: string): seq<Entry>
  {
    (if Runs(Network, env, port, portName) then Attempts(Network, env, FORMATS) else []) +
    (if Runs(Direct, env, port, portName) then Attempts(Direct, env, FORMATS) else []) +
    (if Runs(Spooler, env, port, portName) then Attempts(Spooler, env, FORMATS) else []) +
    Attempts(PowerShell, env, FORMATS)
  }

  /** Every assignment the five methods make, in the order the script makes them. */
  function AllAttempts(env: Env, port: PortAnalysis, portName: string): seq<Entry>
  {
    EarlyAttempts(env, port, portName) + UsbAttempts(env, UsbCandidates(env.enumeratedPorts))
  }

  /**
   * Whether the USB scan raises NameError: the script binds the Windows
   * constants only inside Method B, which runs only for a known port name,
   * unless they are hoisted above the methods (`hoisted`).
   */
  predicate ScanRaises(env: Env, portName: string, hoisted: bool)
  {
    !hoisted && portName == "" && UsbCandidates(env.enumeratedPorts) != []
  }

  /**
   * When the ports cannot be enumerated, the scan has the five fallback
   * ports to try, so a printer with no port name always hits the NameError;
   * with the constants hoisted it never does.
   */
  lemma UnenumeratedScanRaises(env: Env)
    requires env.enumeratedPorts.None?
    ensures ScanRaises(env, "", false)
    ensures forall portName :: !ScanRaises(env, portName, true)
  {
  }

  /**
   * Step 6: try every method in turn, filling the results table. When the
   * USB scan raises, the script stops with the table as Methods A to D left it.
   */
  method RunTests(table: ResultTable, env: Env, port: PortAnalysis, portName: string, hoisted: bool) returns (raised: bool)
    requires port.isNetwork <==> port.printerIp.Some?
    modifies table
    ensures raised <==> ScanRaises(env, portName, hoisted)
    ensures raised ==> table.entries == RecordAll(old(table.entries), EarlyAttempts(env, port, portName))
    ensures !raised ==> table.entries == RecordAll(old(table.entries), AllAttempts(env, port, portName))
  {
    hide Recorded, RecordAll, Attempts, UsbAttempts;
    ghost var start := table.entries;
    ghost var done: seq<Entry> := [];
    RecordNothing(start);
    // `printer_ip or is_network_port`
    if port.isNetwork || port.printerIp.Some? {
      TestNetwork(table, env);
      done := Attempts(Network, env, FORMATS);
    }
    assert table.entries == RecordAll(start, done);
    ghost var direct: seq<Entry> := [];
    if portName != "" {
      TestDirect(table, env);
      direct := Attempts(Direct, env, FORMATS);
    } else {
      RecordNothing(table.entries);
    }
    RecordAllAppend(start, done, direct);
    done := done + direct;
    assert table.entries == RecordAll(start, done);
    ghost var spooler: seq<Entry> := [];
    if env.spoolerAvailable {
      TestSpooler(table, env);
      spooler := Attempts(Spooler, env, FORMATS);
    } else {
      RecordNothing(table.entries);
    }
    RecordAllAppend(start, done, spooler);
    done := done + spooler;
    assert table.entries == RecordAll(start, done);
    TestPowerShell(table, env);
    RecordAllAppend(start, done, Attempts(PowerShell, env, FORMATS));
    done := done + Attempts(PowerShell, env, FORMATS);
    assert done == EarlyAttempts(env, port, portName);
    var usbPorts := ListUsbPorts(env.enumeratedPorts);
    raised := ScanUsb(table, env, usbPorts, hoisted || portName != "");
    if !raised {
      RecordAllAppend(start, done, UsbAttempts(env, usbPorts));
    }
  }

  // ---------------------------------------------------------------------------
  // What the results table holds

  /** The last assignment to a key in two runs of assignments is in the second run, if there is one there. */
  lemma {:induction false} LastWriteAppend(a: seq<Entry>, b: seq<Entry>, k: string)
    ensures LastWrite(a + b, k) == if LastWrite(b, k).Some? then LastWrite(b, k) else LastWrite(a, k)
    decreases |b|
  {
    if b == [] {
      assert a + b == a;
    } else {
      var init := b[..|b| - 1];
      assert (a + b)[..|a + b| - 1] == a + init;
      assert (a + b)[|a + b| - 1] == b[|b| - 1];
      LastWriteAppend(a, init, k);
    }
  }

  lemma {:induction false} LastWriteAbsent(w: seq<Entry>, k: string)
    requires forall i :: 0 <= i < |w| ==> w[i].0 != k
    ensures LastWrite(w, k).None?
    decreases |w|
  {
    if w != [] {
      LastWriteAbsent(w[..|w| - 1], k);
    }
  }

  /** The four key prefixes start with four different letters, none of them the U of a USB scan key. */
  lemma PrefixesDiffer(t: Transfer, u: Transfer)
    requires t != u
    ensures KeyPrefix(t)[0] != KeyPrefix(u)[0]
  {
  }

  lemma LastWritePair(k1: string, k2: string, v1: bool, v2: bool, k: string)
    ensures LastWrite([(k1, v1), (k2, v2)], k) ==
      if k == k2 then Some(v2) else if k == k1 then Some(v1) else None
  {
    var w := [(k1, v1), (k2, v2)];
    assert w[..1] == [(k1, v1)] && [(k1, v1)][..0] == [];
    assert LastWrite([(k1, v1)], k) == if k == k1 then Some(v1) else LastWrite([], k);
    assert LastWrite(w, k) == if k == k2 then Some(v2) else LastWrite([(k1, v1)], k);
  }

  /** Each of the four methods assigns its ZPL key, then its IPL key. */
  lemma AttemptsOfFormats(u: Transfer, env: Env)
    ensures Attempts(u, env, FORMATS) ==
      [(KeyPrefix(u) + "ZPL", Outcome(u, env, "ZPL")), (KeyPrefix(u) + "IPL", Outcome(u, env, "IPL"))]
  {
    hide Outcome;
    assert FORMATS[..1] == ["ZPL"] && FORMATS[..2] == FORMATS && FORMATS[..0] == [];
    AttemptsSnoc(u, env, FORMATS, 0);
    AttemptsSnoc(u, env, FORMATS, 1);
  }

  /** Keys of different methods differ in their first character, keys of one method in their format. */
  lemma AttemptsLookup(t: Transfer, u: Transfer, env: Env, fmt: string)
    requires fmt in FORMATS
    ensures LastWrite(Attempts(u, env, FORMATS), KeyPrefix(t) + fmt) ==
      if u == t then Some(Outcome(t, env, fmt)) else None
  {
    hide Attempts, Outcome, LastWrite;
    var key := KeyPrefix(t) + fmt;
    var zpl := KeyPrefix(u) + "ZPL";
    var ipl := KeyPrefix(u) + "IPL";
    AttemptsOfFormats(u, env);
    var w := Attempts(u, env, FORMATS);
    if u == t {
      assert zpl[|KeyPrefix(t)|] == 'Z' && ipl[|KeyPrefix(t)|] == 'I';
      assert key[|KeyPrefix(t)|] == fmt[0];
      LastWritePair(zpl, ipl, Outcome(u, env, "ZPL"), Outcome(u, env, "IPL"), key);
    } else {
      PrefixesDiffer(t, u);
      assert key[0] == KeyPrefix(t)[0] && zpl[0] == ipl[0] == KeyPrefix(u)[0];
      assert key != zpl && key != ipl;
      LastWriteAbsent(w, key);
    }
  }

  /** No key of the four format-by-format methods is a USB scan key. */
  lemma UsbLookupOther(env: Env, ports: seq<string>, t: Transfer, fmt: string)
    ensures LastWrite(UsbAttempts(env, ports), KeyPrefix(t) + fmt).None?
  {
    var w := UsbAttempts(env, ports);
    var key := KeyPrefix(t) + fmt;
    forall i | 0 <= i < |w| ensures w[i].0 != key {
      assert w[i].0[0] == 'U' && key[0] == KeyPrefix(t)[0];
    }
    LastWriteAbsent(w, key);
  }

  /**
   * The results table holds, for each of the four methods and each format,
   * the outcome of that method, and holds no key for a method that did not run.
   */
  lemma ResultsOfMethod(env: Env, port: PortAnalysis, portName: string, t: Transfer, fmt: string)
    requires fmt in FORMATS
    ensures Lookup(RecordAll([], AllAttempts(env, port, portName)), KeyPrefix(t) + fmt) ==
      if Runs(t, env, port, portName) then Some(Outcome(t, env, fmt)) else None
  {
    var key := KeyPrefix(t) + fmt;
    var a := if Runs(Network, env, port, portName) then Attempts(Network, env, FORMATS) else [];
    var b := if Runs(Direct, env, port, portName) then Attempts(Direct, env, FORMATS) else [];
    var c := if Runs(Spooler, env, port, portName) then Attempts(Spooler, env, FORMATS) else [];
    var d := Attempts(PowerShell, env, FORMATS);
    var e := UsbAttempts(env, UsbCandidates(env.enumeratedPorts));
    RecordAllLookup([], a + b + c + d + e, key);
    LastWriteAppend(a + b + c + d, e, key);
    LastWriteAppend(a + b + c, d, key);
    LastWriteAppend(a + b, c, key);
    LastWriteAppend(a, b, key);
    UsbLookupOther(env, UsbCandidates(env.enumeratedPorts), t, fmt);
    AttemptsLookup(t, PowerShell, env, fmt);
    if Runs(Spooler, env, port, portName) { AttemptsLookup(t, Spooler, env, fmt); }
    if Runs(Direct, env, port, portName) { AttemptsLookup(t, Direct, env, fmt); }
    if Runs(Network, env, port, portName) { AttemptsLookup(t, Network, env, fmt); }
  }

  /** The USB scan's key for a port names that port alone. */
  lemma UsbKeyInjective(p: string, q: string)
    requires "USB-scan-" + p == "USB-scan-" + q
    ensures p == q
  {
    assert ("USB-scan-" + p)[9..] == p;
    assert ("USB-scan-" + q)[9..] == q;
  }

  /** The scan assigns True to the key of exactly the ports it tried that opened and took a write. */
  lemma {:induction false} UsbScanLookup(env: Env, ports: seq<string>, p: string)
    ensures LastWrite(UsbAttempts(env, ports), "USB-scan-" + p) ==
      if p in ports && env.usbOpened(p) && UsbWriteOk(env.usbWrite(p)) then Some(true) else None
    decreases |ports|
  {
    if ports != [] {
      var init := ports[..|ports| - 1];
      var q := ports[|ports| - 1];
      assert ports == init + [q];
      UsbScanLookup(env, init, p);
      var step := if env.usbOpened(q) && UsbWriteOk(env.usbWrite(q)) then [("USB-scan-" + q, true)] else [];
      assert UsbAttempts(env, ports) == UsbAttempts(env, init) + step;
      LastWriteAppend(UsbAttempts(env, init), step, "USB-scan-" + p);
      if step != [] {
        assert step[..0] == [];
        if "USB-scan-" + q == "USB-scan-" + p {
          UsbKeyInjective(q, p);
        }
      }
    }
  }

  /** No key of the four format-by-format methods is a USB scan key. */
  lemma AttemptsNoUsbKey(u: Transfer, env: Env, p: string)
    ensures LastWrite(Attempts(u, env, FORMATS), "USB-scan-" + p).None?
  {
    hide Outcome, LastWrite;
    AttemptsOfFormats(u, env);
    var key := "USB-scan-" + p;
    assert key[0] == 'U' && (KeyPrefix(u) + "ZPL")[0] == (KeyPrefix(u) + "IPL")[0] == KeyPrefix(u)[0];
    LastWritePair(KeyPrefix(u) + "ZPL", KeyPrefix(u) + "IPL", Outcome(u, env, "ZPL"), Outcome(u, env, "IPL"), key);
  }

  /**
   * The results table holds True for a USB port exactly when the scan tried
   * it and wrote to it, and holds no key at all for any other port.
   */
  lemma UsbScanResults(env: Env, port: PortAnalysis, portName: string, p: string)
    ensures Lookup(RecordAll([], AllAttempts(env, port, portName)), "USB-scan-" + p) ==
      if p in UsbCandidates(env.enumeratedPorts) && env.usbOpened(p) && UsbWriteOk(env.usbWrite(p))
      then Some(true) else None
  {
    var key := "USB-scan-" + p;
    var a := if Runs(Network, env, port, portName) then Attempts(Network, env, FORMATS) else [];
    var b := if Runs(Direct, env, port, portName) then Attempts(Direct, env, FORMATS) else [];
    var c := if Runs(Spooler, env, port, portName) then Attempts(Spooler, env, FORMATS) else [];
    var d := Attempts(PowerShell, env, FORMATS);
    var e := UsbAttempts(env, UsbCandidates(env.enumeratedPorts));
    RecordAllLookup([], a + b + c + d + e, key);
    LastWriteAppend(a + b + c + d, e, key);
    LastWriteAppend(a + b + c, d, key);
    LastWriteAppend(a + b, c, key);
    LastWriteAppend(a, b, key);
    UsbScanLookup(env, UsbCandidates(env.enumeratedPorts), p);
    AttemptsNoUsbKey(PowerShell, env, p);
    AttemptsNoUsbKey(Spooler, env, p);
    AttemptsNoUsbKey(Direct, env, p);
    AttemptsNoUsbKey(Network, env, p);
  }

  /** What the diagnostic reports: the printer tested, its port, the results table and its summary. */
  datatype Report = Report(target: string, port: PortAnalysis, results: seq<Entry>, worked: seq<string>, failed: seq<string>)

  /** How a run of the script ends: with its summary, or killed by NameError in the USB scan before it. */
  datatype Run =
    | Finished(report: Report)
    | Crashed(target: string, port: PortAnalysis, results: seq<Entry>)

  /**
   * The whole diagnostic as written, from the installed printers (and the
   * system's default), the port the selected printer reports and the
   * outcome of resolving it as a host name. None when no printer is
   * installed. With no port name the USB scan raises NameError whenever it
   * has a port to try (always, when enumeration fails), and no summary is
   * printed.
   */
  method Diagnose(printers: seq<string>, defaultPrinter: string, portName: string, resolved: Option<string>, env: Env)
    returns (r: Option<Run>)
    ensures r.None? <==> printers == []
    ensures r.Some? ==> (r.value.Crashed? <==> portName == "" && UsbCandidates(env.enumeratedPorts) != [])
    ensures r.Some? && r.value.Crashed? ==>
      Some(r.value.target) == SelectTarget(printers, defaultPrinter) &&
      r.value.port == AnalysePort(portName, resolved) &&
      r.value.results == RecordAll([], EarlyAttempts(env, r.value.port, portName))
    ensures r.Some? && r.value.Finished? ==>
      var report := r.value.report;
      Some(report.target) == SelectTarget(printers, defaultPrinter) &&
      report.port == AnalysePort(portName, resolved) &&
      report.results == RecordAll([], AllAttempts(env, report.port, portName)) &&
      report.worked == Worked(report.results) && report.failed == Failed(report.results)
  {
    if printers == [] {
      return None;
    }
    var target := SelectTarget(printers, defaultPrinter).value;
    var port := AnalysePort(portName, resolved);
    var table := new ResultTable();
    var raised := RunTests(table, env, port, portName, false);
    var results := table.entries;
    if raised {
      return Some(Crashed(target, port, results));
    }
    r := Some(Finished(Report(target, port, results, Worked(results), Failed(results))));
  }

  /**
   * The diagnostic with the Windows constants bound before the methods are
   * tried: every run with a printer reaches the summary.
   */
  method DiagnoseHoisted(printers: seq<string>, defaultPrinter: string, portName: string, resolved: Option<string>, env: Env)
    returns (r: Option<Report>)
    ensures r.None? <==> printers == []
    ensures r.Some? ==>
      Some(r.value.target) == SelectTarget(printers, defaultPrinter) &&
      r.value.port == AnalysePort(portName, resolved) &&
      r.value.results == RecordAll([], AllAttempts(env, r.value.port, portName)) &&
      r.value.worked == Worked(r.value.results) && r.value.failed == Failed(r.value.results)
  {
    if printers == [] {
      return None;
    }
    var target := SelectTarget(printers, defaultPrinter).value;
    var port := AnalysePort(portName, resolved);
    var table := new ResultTable();
    var raised := RunTests(table, env, port, portName, true);
    var results := table.entries;
    r := Some(Report(target, port, results, Worked(results), Failed(results)));
  }
}
