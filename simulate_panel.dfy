/**
 * The door simulation of `SimulatePanel`: a tag passes the exit door, is
 * read, looked up by EPC, and the asset's status decides whether the door
 * lets it through, raises the alarm or alerts staff.
 */
module SimulatePanel {
  import opened Wrappers
  import opened Text
  import opened Reader
  import opened Store

  const READY: string := "READY"
  const BLOCKED: string := "BLOCKED"
  const MAINTENANCE: string := "MAINTENANCE"
  const DOOR_ACTION: string := "DOOR_SIM"

  /** What the door does with one tag, with the name or EPC it reports. */
  datatype Door =
    | UnknownTagAlarm(epc: string)
    | ExitAllowed(name: string)
    | BlockedAlarm(name: string)
    | MaintenanceAlert(name: string)
    | PendingAlert(name: string)
    | ReadFailed(text: string)

  /** The alarm sounds for an unknown tag and for a blocked asset. */
  predicate IsAlarm(d: Door)
  {
    d.UnknownTagAlarm? || d.BlockedAlarm?
  }

  /** The name the door reports for an asset: its name, or its id when the name is empty. */
  function DisplayName(a: Asset): (name: string)
    ensures a.name != "" ==> name == a.name
    ensures a.name == "" ==> name == a.assetId
  {
    OrElse(a.name, a.assetId)
  }

  /** The decision table for a tag read as `epc` whose lookup gave `asset`. */
  function DoorDecision(asset: Option<Asset>, epc: string): (d: Door)
    ensures d.UnknownTagAlarm? <==> asset.None?
    ensures !d.ReadFailed?
  {
    match asset
    case None => UnknownTagAlarm(epc)
    case Some(a) =>
      if a.status == READY then ExitAllowed(DisplayName(a))
      else if a.status == BLOCKED then BlockedAlarm(DisplayName(a))
      else if a.status == MAINTENANCE then MaintenanceAlert(DisplayName(a))
      else PendingAlert(DisplayName(a))
  }

  /** The alarm sounds exactly for a tag no asset carries and for a BLOCKED asset. */
  lemma AlarmIff(asset: Option<Asset>, epc: string)
    ensures IsAlarm(DoorDecision(asset, epc)) <==> asset.None? || asset.value.status == BLOCKED
  {
  }

  /** Exit is allowed exactly for a known asset whose status is READY. */
  lemma ExitIff(asset: Option<Asset>, epc: string)
    ensures DoorDecision(asset, epc).ExitAllowed? <==> asset.Some? && asset.value.status == READY
  {
  }

  /** A known asset with a status outside the table (PENDING or any other) alerts staff without an alarm. */
  lemma OtherStatusAlertsStaff(a: Asset, epc: string)
    requires a.status != READY && a.status != BLOCKED && a.status != MAINTENANCE
    ensures DoorDecision(Some(a), epc) == PendingAlert(DisplayName(a))
    ensures !IsAlarm(DoorDecision(Some(a), epc))
  {
  }

  /** Every decision about a known asset names it; an unknown tag is reported by its EPC. */
  lemma DecisionNamesAsset(asset: Option<Asset>, epc: string)
    ensures asset.None? ==> DoorDecision(asset, epc) == UnknownTagAlarm(epc)
    ensures asset.Some? ==> (
      !DoorDecision(asset, epc).UnknownTagAlarm? && !DoorDecision(asset, epc).ReadFailed? &&
      DoorDecision(asset, epc).name == DisplayName(asset.value))
  {
  }

  /**
   * `_simulate_pass()` (its worker, run in sequence): read a tag, decide,
   * and log the pass for a known asset with its status as the result. A
   * failed read is reported and nothing is logged.
   */
  method SimulatePass(reader: RfidReader, db: Database, scan: ScanOutcome) returns (read: Result<Reading, string>, d: Door)
    modifies db
    ensures reader.Simulated() ==> read.Ok? && IsSimulatedEpc(read.value.epc)
    ensures !reader.Simulated() ==> read == HardwareRead(scan)
    ensures read.Err? ==> d == ReadFailed(read.error) && db.scanLog == old(db.scanLog)
    ensures read.Ok? ==> d == DoorDecision(FindByEpc(old(db.assets), read.value.epc), read.value.epc)
    ensures read.Ok? && HasEpc(old(db.assets), read.value.epc) ==>
      var a := FindByEpc(old(db.assets), read.value.epc).value;
      db.scanLog == old(db.scanLog) + [ScanEntry(a.assetId, read.value.epc, DOOR_ACTION, a.status)]
    ensures read.Ok? && !HasEpc(old(db.assets), read.value.epc) ==> db.scanLog == old(db.scanLog)
    ensures db.assets == old(db.assets) && db.settings == old(db.settings)
  {
    read := reader.ReadEpc(scan);
    if read.Err? {
      return read, ReadFailed(read.error);
    }
    var epc := read.value.epc;
    var asset := db.AssetByEpc(epc);
    d := DoorDecision(asset, epc);
    if asset.Some? {
      db.LogScan(ScanEntry(asset.value.assetId, epc, DOOR_ACTION, asset.value.status));
    }
  }
}
