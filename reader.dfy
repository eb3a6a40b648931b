/**
 * `RFIDReader`: a UHF reader driven through the RFIDIOt library, or a
 * simulation of one when the library is missing or the reader cannot be
 * opened. Which of the two it is gets fixed once, at construction.
 */
module Reader {
  import opened Wrappers
  import opened Text

  /** The characters a simulated EPC is drawn from. */
  const HEX_DIGITS: string := "0123456789ABCDEF"
  const SIMULATED_PREFIX: string := "E2"
  const NO_TAG_MSG: string := "No tag detected"

  /** A simulated EPC: "E2" followed by 22 upper-case hexadecimal digits. */
  predicate IsSimulatedEpc(epc: string)
  {
    |epc| == 24 && epc[..2] == SIMULATED_PREFIX &&
    forall i :: 2 <= i < 24 ==> epc[i] in HEX_DIGITS
  }

  /** One tag as the library reports it; a tag without a signal strength reads as 0. */
  datatype Tag = Tag(epc: string, rssi: Option<int>)

  /** What the library's scan did: the tags in range, or an error with its text. */
  datatype ScanOutcome = Tags(found: seq<Tag>) | ScanError(text: string)

  /** An EPC and the signal strength it was read at. */
  datatype Reading = Reading(epc: string, rssi: int)

  /** The hardware read: the first tag in range; no tag, or a library error, becomes an error text. */
  function HardwareRead(scan: ScanOutcome): (r: Result<Reading, string>)
    ensures r.Ok? <==> scan.Tags? && scan.found != []
    ensures r.Ok? ==> r.value.epc == scan.found[0].epc
    ensures scan.Tags? && scan.found == [] ==> r == Err(NO_TAG_MSG)
  {
    match scan
    case ScanError(text) => Err(text)
    case Tags(found) =>
      if found == [] then Err(NO_TAG_MSG)
      else Ok(Reading(found[0].epc, match found[0].rssi case Some(v) => v case None => 0))
  }

  /** The outcome of a verification: whether the tag matched, and the reading it was judged on. */
  datatype Verification = Verification(matched: bool, epc: string, rssi: int)

  class RfidReader {
    /** Whether the RFIDIOt library could be imported (`RFID_AVAILABLE`). */
    const libraryAvailable: bool
    /** Whether a reader was opened (`self.connected`). */
    const connected: bool

    /** `__init__` and `_connect`: the reader is connected only if the library is present and opening it succeeds. */
    constructor(libraryAvailable: bool, openSucceeds: bool)
      ensures this.libraryAvailable == libraryAvailable
      ensures connected == (libraryAvailable && openSucceeds)
    {
      this.libraryAvailable := libraryAvailable;
      connected := libraryAvailable && openSucceeds;
    }

    /** The reader simulates tags when it is not connected or the library is missing. */
    predicate Simulated()
    {
      !connected || !libraryAvailable
    }

    /**
     * `read_epc()`. Simulated: an EPC drawn at random, at RSSI -65 +/- 10.
     * Otherwise the outcome of the hardware scan `scan`.
     */
    method ReadEpc(scan: ScanOutcome) returns (r: Result<Reading, string>)
      ensures Simulated() ==> r.Ok? && IsSimulatedEpc(r.value.epc) && -75 <= r.value.rssi <= -55
      ensures !Simulated() ==> r == HardwareRead(scan)
    {
      if Simulated() {
        var digits := "";
        while |digits| < 22
          invariant |digits| <= 22
          invariant forall i :: 0 <= i < |digits| ==> digits[i] in HEX_DIGITS
        {
          assert HEX_DIGITS[0] in HEX_DIGITS;
          var c :| c in HEX_DIGITS;
          digits := digits + [c];
        }
        var jitter :| -10 <= jitter <= 10;
        var epc := SIMULATED_PREFIX + digits;
        assert forall i :: 2 <= i < 24 ==> epc[i] == digits[i - 2];
        r := Ok(Reading(epc, -65 + jitter));
      } else {
        r := HardwareRead(scan);
      }
    }

    /** `write_epc(epc)`: always succeeds when simulated; otherwise fails with the library's error text, if any. */
    method WriteEpc(epc: string, writeError: Option<string>) returns (r: Result<bool, string>)
      ensures r.Ok? ==> r.value
      ensures Simulated() ==> r == Ok(true)
      ensures !Simulated() ==> (r.Err? <==> writeError.Some?)
      ensures !Simulated() && writeError.Some? ==> r.error == writeError.value
    {
      if Simulated() {
        r := Ok(true);
      } else if writeError.Some? {
        r := Err(writeError.value);
      } else {
        r := Ok(true);
      }
    }

    /**
     * `verify_epc(expected)`: a fresh read, matched against `expected`
     * without regard to case. A failed read is passed on as an error.
     */
    method VerifyEpc(expected: string, scan: ScanOutcome) returns (r: Result<Verification, string>)
      ensures r.Ok? ==> (r.value.matched <==> Upper(r.value.epc) == Upper(expected))
      ensures Simulated() ==> r.Ok? && IsSimulatedEpc(r.value.epc)
      ensures !Simulated() ==> (r.Ok? <==> HardwareRead(scan).Ok?)
      ensures !Simulated() && r.Ok? ==> r.value.epc == HardwareRead(scan).value.epc
      ensures !Simulated() && r.Ok? ==> r.value.rssi == HardwareRead(scan).value.rssi
      ensures !Simulated() && r.Err? ==> r.error == HardwareRead(scan).error
      ensures Simulated() ==> r.Ok? && -75 <= r.value.rssi <= -55
    {
      var read := ReadEpc(scan);
      match read {
        case Err(e) => r := Err(e);
        case Ok(reading) =>
          r := Ok(Verification(Upper(reading.epc) == Upper(expected), reading.epc, reading.rssi));
      }
    }
  }

  /** A simulated EPC is already upper case. */
  lemma SimulatedEpcIsUpper(epc: string)
    requires IsSimulatedEpc(epc)
    ensures Upper(epc) == epc
  {
    forall i | 0 <= i < |epc| ensures Upper(epc)[i] == epc[i] {
      if i >= 2 {
        assert epc[i] in HEX_DIGITS;
      }
    }
  }

  /**
   * Verifying against a simulated read matches exactly the expected values
   * that upper-case to that read: the same EPC in any case, and nothing else.
   */
  lemma SimulatedMatch(epc: string, expected: string)
    requires IsSimulatedEpc(epc)
    ensures Upper(epc) == Upper(expected) <==> Upper(expected) == epc
  {
    SimulatedEpcIsUpper(epc);
  }

  /** A value that is not 24 characters long never matches a simulated read. */
  lemma SimulatedNeverMatchesOtherLength(epc: string, expected: string)
    requires IsSimulatedEpc(epc) && |expected| != 24
    ensures Upper(epc) != Upper(expected)
  {
  }
}
