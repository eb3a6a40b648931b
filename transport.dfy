/**
 * The two ways a label reaches the printer: `HoneywellPrinter.print_network`
 * (a raw TCP socket, normally port 9100) and `HoneywellPrinter.print_usb`
 * (the spooler of the host operating system). Both encode the label as
 * latin-1 with unencodable characters replaced, and both answer a pair
 * (success, message).
 *
 * Sockets, subprocesses and the Windows spooler are outside the model: what
 * they did is a parameter.
 */
module Transport {
  import opened Wrappers
  import opened Text
  import opened Bytes

  /**
   * What a transport handed the label to: a socket to `host:port`, a spawned
   * command fed the bytes on its standard input, or a RAW job on a Windows
   * print queue. Each carries the bytes written.
   */
  datatype Job =
    | SocketJob(host: string, port: int, bytes: seq<byte>)
    | CommandJob(argv: seq<string>, bytes: seq<byte>)
    | SpoolJob(queue: string, bytes: seq<byte>)

  /** The pair every transport returns, and the job it attempted (None: it attempted none). */
  datatype Outcome = Outcome(ok: bool, msg: string, job: Option<Job>)

  const OK_MSG: string := "OK"
  const NACK_MSG: string := "Printer returned NACK (check label format)"
  const NACK: byte := 0x15

  /**
   * What became of the connection that carried the label. `Delivered(reply)`:
   * the bytes were sent and the write side shut down; `reply` is what the
   * printer answered ([] when it said nothing or the read failed).
   */
  datatype SocketOutcome =
    | Refused
    | OsError(text: string)
    | OtherError(text: string)
    | Delivered(reply: seq<byte>)

  /** The `host:port` text the failure messages quote. */
  function Endpoint(host: string, port: int): (e: string)
    ensures StartsWith(e, host)
  {
    host + ":" + IntToString(port)
  }

  function RefusedMessage(host: string, port: int): (m: string)
    ensures Contains(m, Endpoint(host, port))
  {
    var e := Endpoint(host, port);
    var pre := "Connection refused \U{2014} is printer online at ";
    var m := pre + e + "?";
    assert m[|pre|..|pre| + |e|] == e;
    assert OccursAt(m, e, |pre|);
    m
  }

  function TimeoutMessage(host: string, port: int): (m: string)
    ensures Contains(m, Endpoint(host, port))
  {
    var e := Endpoint(host, port);
    var pre := "Timeout \U{2014} printer not responding at ";
    var m := pre + e;
    assert m[|pre|..|pre| + |e|] == e;
    assert OccursAt(m, e, |pre|);
    m
  }

  /**
   * `print_network(host, data, port)` once the socket has done `socket`:
   * every attempt connects to `host:port` with the label's latin-1 bytes.
   */
  function PrintNetwork(host: string, port: int, data: string, socket: SocketOutcome): (r: Outcome)
    ensures r.job == Some(SocketJob(host, port, Latin1Encode(data)))
    ensures r.ok ==> r.msg == OK_MSG
    ensures socket.Refused? ==> !r.ok && r.msg == RefusedMessage(host, port)
    ensures socket.OsError? && Contains(Lower(socket.text), "timed out") ==>
      !r.ok && r.msg == TimeoutMessage(host, port)
    ensures (socket.OsError? && !Contains(Lower(socket.text), "timed out")) || socket.OtherError? ==>
      !r.ok && r.msg == socket.text
  {
    var job := Some(SocketJob(host, port, Latin1Encode(data)));
    match socket
    case Refused => Outcome(false, RefusedMessage(host, port), job)
    case OsError(text) =>
      if Contains(Lower(text), "timed out") then Outcome(false, TimeoutMessage(host, port), job)
      else Outcome(false, text, job)
    case OtherError(text) => Outcome(false, text, job)
    case Delivered(reply) =>
      if reply != [] && reply[0] == NACK then Outcome(false, NACK_MSG, job)
      else Outcome(true, OK_MSG, job)
  }

  /**
   * A network print succeeds exactly when the label was delivered and the
   * printer did not answer with NACK; a NACK answer is reported as such.
   */
  lemma NetworkOkIff(host: string, port: int, data: string, socket: SocketOutcome)
    ensures PrintNetwork(host, port, data, socket).ok <==>
      socket.Delivered? && !(socket.reply != [] && socket.reply[0] == NACK)
    ensures socket.Delivered? && socket.reply != [] && socket.reply[0] == NACK ==>
      PrintNetwork(host, port, data, socket).msg == NACK_MSG
  {
  }

  /** A refused connection and an error whose text says "timed out" in any case both name the printer's address. */
  lemma NetworkFailureNamesPrinter(host: string, port: int, data: string, socket: SocketOutcome)
    requires socket.Refused? || (socket.OsError? && Contains(Lower(socket.text), "timed out"))
    ensures !PrintNetwork(host, port, data, socket).ok
    ensures Contains(PrintNetwork(host, port, data, socket).msg, Endpoint(host, port))
  {
  }

  /** The refused message and the timeout message can never be confused: they differ for every address. */
  lemma RefusedTimeoutDistinct(host: string, port: int)
    ensures RefusedMessage(host, port) != TimeoutMessage(host, port)
  {
    var e := Endpoint(host, port);
    assert RefusedMessage(host, port) == "Connection refused \U{2014} is printer online at " + e + "?";
    assert TimeoutMessage(host, port) == "Timeout \U{2014} printer not responding at " + e;
    assert |RefusedMessage(host, port)| != |TimeoutMessage(host, port)|;
  }

  /** The operating systems `print_usb` distinguishes; every other one takes the Linux path. */
  datatype Platform = Darwin | Windows | Linux

  /** What running `lpr` or `lp` did: not found, exited with a code, or failed otherwise. */
  datatype SpawnOutcome = NotFound | Exited(code: int, stderr: string) | SpawnFailed(text: string)

  /** What the Windows RAW spool did: the module is missing, the job went through, or a call failed. */
  datatype SpoolOutcome = NotInstalled | Spooled | SpoolFailed(text: string)

  const LPR_FAILED_MSG: string := "lpr failed (check printer name in Settings)"
  const NOT_FOUND_MSG: string := "lpr/lp not found \U{2014} ensure CUPS is installed"
  const NO_WIN32_MSG: string := "win32print not installed \U{2014} run: pip install pywin32"

  /** The macOS command: `lpr -l`, with `-P name` when a printer is named. */
  function LprCommand(printer: string): (cmd: seq<string>)
    ensures |cmd| >= 2 && cmd[..2] == ["lpr", "-l"]
    ensures printer != "" <==> |cmd| == 4
    ensures printer != "" ==> cmd[2..] == ["-P", printer]
  {
    ["lpr", "-l"] + (if printer != "" then ["-P", printer] else [])
  }

  /** The Linux command: `lp -o raw`, with `-d name` when a printer is named. */
  function LpCommand(printer: string): (cmd: seq<string>)
    ensures |cmd| >= 3 && cmd[..3] == ["lp", "-o", "raw"]
    ensures printer != "" <==> |cmd| == 5
    ensures printer != "" ==> cmd[3..] == ["-d", printer]
  {
    ["lp", "-o", "raw"] + (if printer != "" then ["-d", printer] else [])
  }

  /** The queue the Windows spool opens: the named printer, else the system default. */
  function SpoolQueue(printer: string, defaultPrinter: string): (q: string)
    ensures printer != "" ==> q == printer
    ensures printer == "" ==> q == defaultPrinter
  {
    OrElse(printer, defaultPrinter)
  }

  /**
   * `print_usb(data, printer_name)` on `platform`, given what the spawned
   * command or the spool did; "" stands for no printer name, and
   * `defaultPrinter` is what the spooler reports as the system default.
   */
  function PrintUsb(platform: Platform, printer: string, defaultPrinter: string, data: string,
                    spawn: SpawnOutcome, spool: SpoolOutcome): (r: Outcome)
    ensures platform == Darwin ==> r.job == Some(CommandJob(LprCommand(printer), Latin1Encode(data)))
    ensures platform == Linux ==> r.job == Some(CommandJob(LpCommand(printer), Latin1Encode(data)))
    ensures platform == Windows ==>
      r.job == if spool == NotInstalled then None else Some(SpoolJob(SpoolQueue(printer, defaultPrinter), Latin1Encode(data)))
    ensures r.ok ==> r.msg == OK_MSG && r.job.Some?
    ensures platform != Windows && spawn == NotFound ==> !r.ok && r.msg == NOT_FOUND_MSG
    ensures platform != Windows && spawn.SpawnFailed? ==> !r.ok && r.msg == spawn.text
    ensures platform == Windows && spool == NotInstalled ==> !r.ok && r.msg == NO_WIN32_MSG
    ensures platform == Windows && spool.SpoolFailed? ==> !r.ok && r.msg == spool.text
  {
    var bytes := Latin1Encode(data);
    match platform
    case Darwin =>
      var job := Some(CommandJob(LprCommand(printer), bytes));
      (match spawn
       case NotFound => Outcome(false, NOT_FOUND_MSG, job)
       case SpawnFailed(text) => Outcome(false, text, job)
       case Exited(code, stderr) =>
         if code != 0 then Outcome(false, OrElse(Strip(stderr), LPR_FAILED_MSG), job)
         else Outcome(true, OK_MSG, job))
    case Windows =>
      var job := Some(SpoolJob(SpoolQueue(printer, defaultPrinter), bytes));
      (match spool
       case NotInstalled => Outcome(false, NO_WIN32_MSG, None)
       case SpoolFailed(text) => Outcome(false, text, job)
       case Spooled => Outcome(true, OK_MSG, job))
    case Linux =>
      var job := Some(CommandJob(LpCommand(printer), bytes));
      (match spawn
       case NotFound => Outcome(false, NOT_FOUND_MSG, job)
       case SpawnFailed(text) => Outcome(false, text, job)
       case Exited(code, stderr) =>
         if code != 0 then Outcome(false, Strip(stderr), job)
         else Outcome(true, OK_MSG, job))
  }

  /**
   * A named printer is where a USB job goes on every platform: `-P name`
   * ends the `lpr` command, `-d name` the `lp` command, and the spooler
   * opens that queue rather than the default one.
   */
  lemma NamedPrinterReceivesJob(platform: Platform, printer: string, defaultPrinter: string, data: string,
                                spawn: SpawnOutcome, spool: SpoolOutcome)
    requires printer != ""
    requires !(platform == Windows && spool == NotInstalled)
    ensures var r := PrintUsb(platform, printer, defaultPrinter, data, spawn, spool);
      r.job.Some? && r.job.value.bytes == Latin1Encode(data) &&
      (platform == Darwin ==> r.job.value.CommandJob? && r.job.value.argv[2..] == ["-P", printer]) &&
      (platform == Linux ==> r.job.value.CommandJob? && r.job.value.argv[3..] == ["-d", printer]) &&
      (platform == Windows ==> r.job.value == SpoolJob(printer, Latin1Encode(data)))
  {
  }

  /** A USB print succeeds exactly when the command exited 0 (macOS, Linux) or the job was spooled (Windows). */
  lemma UsbOkIff(platform: Platform, printer: string, defaultPrinter: string, data: string, spawn: SpawnOutcome, spool: SpoolOutcome)
    ensures PrintUsb(platform, printer, defaultPrinter, data, spawn, spool).ok <==>
      if platform == Windows then spool == Spooled else spawn.Exited? && spawn.code == 0
  {
  }

  /** A failed macOS print always explains itself: blank error output falls back to a fixed hint. */
  lemma DarwinFailureExplained(printer: string, defaultPrinter: string, data: string, spawn: SpawnOutcome, spool: SpoolOutcome)
    requires spawn.Exited? && spawn.code != 0
    ensures !PrintUsb(Darwin, printer, defaultPrinter, data, spawn, spool).ok
    ensures PrintUsb(Darwin, printer, defaultPrinter, data, spawn, spool).msg != ""
    ensures Strip(spawn.stderr) == "" ==> PrintUsb(Darwin, printer, defaultPrinter, data, spawn, spool).msg == LPR_FAILED_MSG
  {
  }

  /** A failed Linux print carries the stripped error output, which is empty when `lp` wrote only white space. */
  lemma LinuxFailureMayBeSilent(printer: string, defaultPrinter: string, data: string, code: int, stderr: string, spool: SpoolOutcome)
    requires code != 0
    requires forall i :: 0 <= i < |stderr| ==> IsSpace(stderr[i])
    ensures !PrintUsb(Linux, printer, defaultPrinter, data, Exited(code, stderr), spool).ok
    ensures PrintUsb(Linux, printer, defaultPrinter, data, Exited(code, stderr), spool).msg == ""
  {
    StripEmptyIffBlank(stderr);
  }

  /** The em-dash that marks a missing location leaves the machine as a single '?'. */
  lemma EmDashOnTheWire()
    ensures Latin1Encode("\U{2014}") == [QUESTION_MARK]
  {
  }
}
