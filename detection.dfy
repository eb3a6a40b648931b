/**
 * `HoneywellPrinter.detect_language`: the printer is sent a ZPL host-status
 * query and its reply decides between IPL and ZPL.
 */
module Detection {
  import opened Text
  import opened Bytes

  /** The three answers of the probe. */
  const ZPL: string := "zpl"
  const IPL: string := "ipl"
  const UNKNOWN: string := "unknown"

  /** The host-status query `^XA^HH^XZ\r\n` sent to the printer. */
  const HOST_STATUS_QUERY: seq<byte> := [0x5E, 0x58, 0x41, 0x5E, 0x48, 0x48, 0x5E, 0x58, 0x5A, 0x0D, 0x0A]

  const STX_BYTE: byte := 0x02
  const ACK_BYTE: byte := 0x06
  const NACK_BYTE: byte := 0x15
  const CARET: byte := 0x5E
  /** "ZPL" in ASCII. */
  const ZPL_MARKER: seq<byte> := [0x5A, 0x50, 0x4C]

  /**
   * What the probe's connection produced. `Replied([])` stands both for an
   * empty read and for a read that raised (the source turns that into `b""`);
   * `Failed` is any exception around the connection or the send.
   */
  datatype Probe = Failed | Replied(resp: seq<byte>)

  /** The decision on a non-empty reply, with the source's redundant second STX test kept. */
  function Classify(resp: seq<byte>): (lang: string)
    requires resp != []
    ensures lang == IPL || lang == ZPL
  {
    if resp[0] == STX_BYTE then IPL
    else if CARET in resp || Contains(UpperBytes(resp), ZPL_MARKER) then ZPL
    else if resp[0] in {STX_BYTE, ACK_BYTE, NACK_BYTE} then IPL
    else ZPL
  }

  /** `detect_language(host, port)` given what the connection produced. */
  function DetectLanguage(probe: Probe): (lang: string)
    ensures lang in {ZPL, IPL, UNKNOWN}
  {
    match probe
    case Failed => UNKNOWN
    case Replied(resp) => if resp != [] then Classify(resp) else ZPL
  }

  /** "unknown" is the answer exactly when the probe could not connect or send. */
  lemma UnknownIffFailed(probe: Probe)
    ensures DetectLanguage(probe) == UNKNOWN <==> probe.Failed?
  {
  }

  /**
   * The probe answers "ipl" exactly for a reply that starts with STX, or one
   * that starts with ACK or NACK and carries neither '^' nor "ZPL" in any case.
   */
  lemma IplIff(probe: Probe)
    ensures DetectLanguage(probe) == IPL <==>
      probe.Replied? && probe.resp != [] &&
      (probe.resp[0] == STX_BYTE ||
       ((probe.resp[0] == ACK_BYTE || probe.resp[0] == NACK_BYTE) &&
        CARET !in probe.resp && !Contains(UpperBytes(probe.resp), ZPL_MARKER)))
  {
  }

  /** A silent printer, or one whose reply could not be read, is assumed to speak ZPL. */
  lemma SilenceMeansZpl()
    ensures DetectLanguage(Replied([])) == ZPL
  {
  }

  /** Upper-casing a reply turns any "zpl", "Zpl", ... inside it into "ZPL". */
  lemma UpperFindsMarker(resp: seq<byte>, i: nat)
    requires i + 3 <= |resp|
    requires UpperByte(resp[i]) == 0x5A && UpperByte(resp[i + 1]) == 0x50 && UpperByte(resp[i + 2]) == 0x4C
    ensures Contains(UpperBytes(resp), ZPL_MARKER)
  {
    var u := UpperBytes(resp);
    assert u[i..i + 3] == ZPL_MARKER;
    assert OccursAt(u, ZPL_MARKER, i);
  }

  /**
   * The ZPL marker is matched without regard to case: a reply not starting
   * with STX that mentions "zpl" in lower case is classified as ZPL.
   */
  lemma LowerCaseMarkerMeansZpl(resp: seq<byte>, i: nat)
    requires i + 3 <= |resp| && resp[i..i + 3] == [0x7A, 0x70, 0x6C]
    requires resp[0] != STX_BYTE
    ensures DetectLanguage(Replied(resp)) == ZPL
  {
    assert resp[i] == 0x7A && resp[i + 1] == 0x70 && resp[i + 2] == 0x6C;
    UpperFindsMarker(resp, i);
  }

  /** A reply that starts with STX is IPL even if it also carries ZPL markers. */
  lemma StxWins(resp: seq<byte>)
    requires resp != [] && resp[0] == STX_BYTE
    ensures DetectLanguage(Replied(resp)) == IPL
  {
  }
}
