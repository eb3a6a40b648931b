/**
 * `HoneywellPrinter.print_label`: choose the printer language, render the
 * label in it and hand it to the network or USB transport.
 */
module Coordinator {
  import opened Wrappers
  import opened Text
  import opened Labels
  import opened Detection
  import opened Transport
  import opened Bytes

  const MODE_NETWORK: string := "network"
  const MODE_USB: string := "usb"
  const AUTO: string := "auto"
  const NO_HOST_MSG: string := "No printer IP address configured"

  /**
   * Everything outside the program that a print depends on: what a language
   * probe of the printer would produce, what the socket or the spooler does
   * with the label, the platform and its default printer, the clock reading
   * and the QR payload.
   */
  datatype World = World(
    probe: Probe,
    socket: SocketOutcome,
    platform: Platform,
    defaultPrinter: string,
    spawn: SpawnOutcome,
    spool: SpoolOutcome,
    ts: string,
    qr: string)

  /** The chosen language and whether the printer was probed to choose it. */
  datatype Resolution = Resolution(lang: string, probed: bool)

  /** The language resolution of `print_label` (the probe is consulted only when `probed`). */
  function ResolveLanguage(language: string, mode: string, host: string, probe: Probe): (r: Resolution)
    ensures r.probed <==> language == AUTO && mode == MODE_NETWORK && host != ""
    ensures language == AUTO ==> r.lang == ZPL || r.lang == IPL
    ensures language == AUTO ==> (r.lang == IPL <==> r.probed && DetectLanguage(probe) == IPL)
    ensures language != AUTO ==> r.lang == Lower(language)
  {
    if language == AUTO then
      if mode == MODE_NETWORK && host != "" then
        Resolution(if DetectLanguage(probe) == IPL then IPL else ZPL, true)
      else Resolution(ZPL, false)
    else Resolution(Lower(language), false)
  }

  /** The label rendered in `lang`: IPL for "ipl", ZPL for every other value. */
  function Render(lang: string, f: LabelFields, ts: string, qr: string): (data: string)
    ensures data != [] && (data[0] == STX <==> lang == IPL)
  {
    if lang == IPL then
      IplFraming(f, ts);
      Ipl(f, ts)
    else
      ZplFraming(f, ts, qr);
      Zpl(f, ts, qr)
  }

  /**
   * The triple `print_label` returns, the label it handed to a transport
   * (None: nothing sent), the job that transport attempted, and whether the
   * printer was probed.
   */
  datatype PrintReport = PrintReport(ok: bool, msg: string, lang: string, sent: Option<string>, job: Option<Job>, probed: bool)

  /**
   * `print_label(asset_id, epc, name, location, tag_type, mode, host, port,
   * printer_name, language)`; "" stands for no printer name.
   */
  function PrintLabel(f: LabelFields, mode: string, host: string, port: int, printerName: string, language: string, w: World): (r: PrintReport)
    ensures r.lang == ResolveLanguage(language, mode, host, w.probe).lang
    ensures r.probed == ResolveLanguage(language, mode, host, w.probe).probed
    ensures r.sent.Some? ==> r.sent.value == Render(r.lang, f, w.ts, w.qr)
    ensures r.job.Some? ==> r.sent.Some? && r.job.value.bytes == Latin1Encode(r.sent.value)
    ensures mode == MODE_NETWORK && host != "" ==>
      r.sent.Some? && r.job == Some(SocketJob(host, port, Latin1Encode(r.sent.value)))
    ensures mode != MODE_NETWORK ==>
      r.sent.Some? && r.job == PrintUsb(w.platform, printerName, w.defaultPrinter, r.sent.value, w.spawn, w.spool).job
    ensures mode == MODE_NETWORK && host != "" ==>
      r.sent.Some? && r.msg == PrintNetwork(host, port, r.sent.value, w.socket).msg
    ensures mode != MODE_NETWORK ==>
      r.sent.Some? && r.msg == PrintUsb(w.platform, printerName, w.defaultPrinter, r.sent.value, w.spawn, w.spool).msg
    ensures r.ok ==> r.job.Some?
  {
    var res := ResolveLanguage(language, mode, host, w.probe);
    var data := Render(res.lang, f, w.ts, w.qr);
    if mode == MODE_NETWORK then
      if host == "" then PrintReport(false, NO_HOST_MSG, res.lang, None, None, res.probed)
      else
        var o := PrintNetwork(host, port, data, w.socket);
        PrintReport(o.ok, o.msg, res.lang, Some(data), o.job, res.probed)
    else
      var o := PrintUsb(w.platform, printerName, w.defaultPrinter, data, w.spawn, w.spool);
      PrintReport(o.ok, o.msg, res.lang, Some(data), o.job, res.probed)
  }

  /** The label sent is an IPL label (it opens with STX) exactly when the language reported is "ipl". */
  lemma SentMatchesLanguage(f: LabelFields, mode: string, host: string, port: int, printerName: string, language: string, w: World)
    ensures var r := PrintLabel(f, mode, host, port, printerName, language, w);
      r.sent.Some? ==> (r.sent.value[0] == STX <==> r.lang == IPL)
  {
  }

  /** Network mode without a host fails with a fixed message, sends nothing and does not probe. */
  lemma NoHostSendsNothing(f: LabelFields, port: int, printerName: string, language: string, w: World)
    ensures var r := PrintLabel(f, MODE_NETWORK, "", port, printerName, language, w);
      !r.ok && r.msg == NO_HOST_MSG && r.sent == None && r.job == None && !r.probed
  {
  }

  /** An explicit language is matched without regard to case: "IPL" prints IPL. */
  lemma ExplicitLanguageIgnoresCase(f: LabelFields, mode: string, host: string, port: int, printerName: string, w: World)
    ensures PrintLabel(f, mode, host, port, printerName, "IPL", w).lang == IPL
  {
    assert Lower("IPL") == "ipl";
  }

  /**
   * A language other than "ipl" falls back to ZPL, yet is still the language
   * reported: "epl" reports "epl" while ZPL goes out.
   */
  lemma UnknownLanguageSendsZpl(f: LabelFields, port: int, printerName: string, w: World)
    ensures var r := PrintLabel(f, MODE_USB, "", port, printerName, "epl", w);
      r.lang == "epl" && r.sent == Some(Zpl(f, w.ts, w.qr))
  {
    assert Lower("epl") == "epl";
  }

  /**
   * The caller sees the network transport's classified failure: a refused
   * connection and a timeout are reported with their own messages, which
   * differ.
   */
  lemma NetworkFailureReported(f: LabelFields, host: string, port: int, printerName: string, language: string, w: World)
    requires host != ""
    ensures var r := PrintLabel(f, MODE_NETWORK, host, port, printerName, language, w);
      (w.socket.Refused? ==> !r.ok && r.msg == RefusedMessage(host, port)) &&
      (w.socket.OsError? && Contains(Lower(w.socket.text), "timed out") ==>
         !r.ok && r.msg == TimeoutMessage(host, port)) &&
      RefusedMessage(host, port) != TimeoutMessage(host, port)
  {
    RefusedTimeoutDistinct(host, port);
  }

  /** A USB print without `lpr`/`lp`, or without pywin32 on Windows, tells the caller what to install. */
  lemma MissingToolReported(f: LabelFields, host: string, port: int, printerName: string, language: string, w: World)
    ensures var r := PrintLabel(f, MODE_USB, host, port, printerName, language, w);
      (w.platform != Windows && w.spawn == NotFound ==> !r.ok && r.msg == NOT_FOUND_MSG) &&
      (w.platform == Windows && w.spool == NotInstalled ==> !r.ok && r.msg == NO_WIN32_MSG)
  {
  }

  /** A print succeeds exactly when the chosen transport does (and network mode has a host). */
  lemma PrintOkIff(f: LabelFields, mode: string, host: string, port: int, printerName: string, language: string, w: World)
    ensures var r := PrintLabel(f, mode, host, port, printerName, language, w);
      r.ok <==>
        if mode == MODE_NETWORK then host != "" && PrintNetwork(host, port, r.sent.value, w.socket).ok
        else PrintUsb(w.platform, printerName, w.defaultPrinter, r.sent.value, w.spawn, w.spool).ok
  {
  }
}
