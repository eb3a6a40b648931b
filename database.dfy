/**
 * The part of `Database` the printing and tagging logic relies on: the
 * settings table, the asset-id counter, the uniqueness of asset ids and EPCs
 * among saved assets, and the scan log. The SQLite tables are kept in memory.
 */
module Store {
  import opened Wrappers
  import opened Text

  /** One row of the assets table; `epc` is None for an untagged asset. */
  datatype Asset = Asset(
    assetId: string,
    epc: Option<string>,
    name: string,
    atype: string,
    location: string,
    department: string,
    status: string,
    notes: string,
    printedAt: Option<string>)

  /** One row of the scan log. */
  datatype ScanEntry = ScanEntry(assetId: string, epc: string, action: string, result: string)

  const ID_COUNTER: string := "id_counter"
  const ID_PREFIX: string := "id_prefix"
  const DEFAULT_PREFIX: string := "HOSP-EQP"
  const DUPLICATE_ID_MSG: string := "UNIQUE constraint failed: assets.asset_id"
  const DUPLICATE_EPC_MSG: string := "UNIQUE constraint failed: assets.epc"

  /** The UNIQUE constraints of the assets table: no two rows share an asset id or a (non-null) EPC. */
  predicate Unique(assets: seq<Asset>)
  {
    forall i, j :: 0 <= i < j < |assets| ==>
      assets[i].assetId != assets[j].assetId &&
      (assets[i].epc.Some? ==> assets[i].epc != assets[j].epc)
  }

  predicate HasId(assets: seq<Asset>, assetId: string)
  {
    exists i :: 0 <= i < |assets| && assets[i].assetId == assetId
  }

  predicate HasEpc(assets: seq<Asset>, epc: string)
  {
    exists i :: 0 <= i < |assets| && assets[i].epc == Some(epc)
  }

  /** `get_asset_by_epc`: the asset carrying `epc`, if any. */
  function FindByEpc(assets: seq<Asset>, epc: string): (r: Option<Asset>)
    ensures r.Some? <==> HasEpc(assets, epc)
    ensures r.Some? ==> r.value in assets && r.value.epc == Some(epc)
  {
    if assets == [] then None
    else if assets[0].epc == Some(epc) then Some(assets[0])
    else
      var r := FindByEpc(assets[1..], epc);
      assert HasEpc(assets, epc) ==> assets[0].epc == Some(epc) || HasEpc(assets[1..], epc) by {
        if HasEpc(assets, epc) {
          var i :| 0 <= i < |assets| && assets[i].epc == Some(epc);
          if i > 0 {
            assert assets[1..][i - 1] == assets[i];
          }
        }
      }
      r
  }

  /** The settings table after the two INSERT OR IGNORE seeds: existing values win. */
  function Seed(stored: map<string, string>): (s: map<string, string>)
    ensures ID_COUNTER in s && ID_PREFIX in s
    ensures forall k :: k in stored ==> k in s && s[k] == stored[k]
    ensures ID_COUNTER !in stored ==> s[ID_COUNTER] == "1"
    ensures ID_PREFIX !in stored ==> s[ID_PREFIX] == DEFAULT_PREFIX
    ensures s.Keys == stored.Keys + {ID_COUNTER, ID_PREFIX}
  {
    var withCounter := if ID_COUNTER in stored then stored else stored[ID_COUNTER := "1"];
    if ID_PREFIX in withCounter then withCounter else withCounter[ID_PREFIX := DEFAULT_PREFIX]
  }

  /** `get_setting(key)` on a settings table, `None` for a missing key. */
  function Setting(settings: map<string, string>, key: string): Option<string>
  {
    if key in settings then Some(settings[key]) else None
  }

  /** `x or default` for a setting that may be missing or empty. */
  function SettingOr(settings: map<string, string>, key: string, default: string): (v: string)
    ensures key in settings && settings[key] != "" ==> v == settings[key]
    ensures key !in settings || settings[key] == "" ==> v == default
  {
    match Setting(settings, key)
    case None => default
    case Some(v) => OrElse(v, default)
  }

  /** The prefix `next_asset_id` uses. */
  function Prefix(settings: map<string, string>): string
  {
    SettingOr(settings, ID_PREFIX, DEFAULT_PREFIX)
  }

  /** `int(get_setting("id_counter") or 1)`: None where int() would raise. */
  function Counter(settings: map<string, string>): (n: Option<int>)
    ensures ID_COUNTER !in settings || settings[ID_COUNTER] == "" ==> n == Some(1)
  {
    var text := SettingOr(settings, ID_COUNTER, "");
    if text == "" then Some(1) else ParseInt(text)
  }

  /** The id `next_asset_id` forms from a prefix and a counter value. */
  function AssetIdFor(prefix: string, n: int): (id: string)
    ensures StartsWith(id, prefix + "-")
    ensures |id| >= |prefix| + 7
  {
    var id := prefix + "-" + Format06d(n);
    assert id[..|prefix| + 1] == prefix + "-";
    id
  }

  /** The counter can be read back from every id issued under a given prefix. */
  lemma AssetIdCounterReadBack(prefix: string, n: int)
    ensures ParseInt(AssetIdFor(prefix, n)[|prefix| + 1..]) == Some(n)
  {
    assert AssetIdFor(prefix, n)[|prefix| + 1..] == Format06d(n);
    Format06dRoundTrip(n);
  }

  /** Two different counter values never give the same id. */
  lemma AssetIdsDistinct(prefix: string, n: int, m: int)
    requires n != m
    ensures AssetIdFor(prefix, n) != AssetIdFor(prefix, m)
  {
    AssetIdCounterReadBack(prefix, n);
    AssetIdCounterReadBack(prefix, m);
  }

  /**
   * After an id is issued, the stored counter is one higher: two calls of
   * `next_asset_id` in a row, with the prefix unchanged, issue different ids.
   */
  lemma NextCounterAdvances(settings: map<string, string>, n: int)
    requires Counter(settings) == Some(n)
    ensures Counter(settings[ID_COUNTER := IntToString(n + 1)]) == Some(n + 1)
    ensures Prefix(settings[ID_COUNTER := IntToString(n + 1)]) == Prefix(settings)
    ensures AssetIdFor(Prefix(settings), n) != AssetIdFor(Prefix(settings), n + 1)
  {
    hide ParseInt, Strip, AssetIdFor;
    var next := settings[ID_COUNTER := IntToString(n + 1)];
    IntToStringRoundTrip(n + 1);
    assert IntToString(n + 1) != "" by {
      assert Strip("") == "";
    }
    assert SettingOr(next, ID_COUNTER, "") == IntToString(n + 1);
    assert SettingOr(next, ID_PREFIX, DEFAULT_PREFIX) == SettingOr(settings, ID_PREFIX, DEFAULT_PREFIX) by {
      assert ID_PREFIX != ID_COUNTER;
    }
    AssetIdsDistinct(Prefix(settings), n, n + 1);
  }

  /** A freshly created database issues "HOSP-EQP-000001" first. */
  lemma FirstIdOfFreshDatabase()
    ensures Counter(Seed(map[])) == Some(1)
    ensures Prefix(Seed(map[])) == DEFAULT_PREFIX
    ensures AssetIdFor(Prefix(Seed(map[])), 1) == "HOSP-EQP-000001"
  {
    var s := Seed(map[]);
    assert s[ID_COUNTER] == "1";
    assert ParseInt("1") == Some(1) by {
      assert IsDigitWord("1");
      ParseDigits("1");
    }
    assert NatToString(1) == "1";
    assert Zeros(5) == "00000";
  }

  class Database {
    /** The settings table, key to value. */
    var settings: map<string, string>
    /** The assets table in insertion order. */
    var assets: seq<Asset>
    /** The scan log in insertion order. */
    var scanLog: seq<ScanEntry>

    predicate Valid()
      reads this
    {
      Unique(assets)
    }

    /**
     * Opening a database file whose tables already hold `storedSettings`,
     * `storedAssets` and `storedLog` (all empty for a new file): the tables
     * are created only if missing, so the rows are kept, and the settings
     * are seeded.
     */
    constructor(storedSettings: map<string, string>, storedAssets: seq<Asset>, storedLog: seq<ScanEntry>)
      requires Unique(storedAssets)
      ensures Valid()
      ensures settings == Seed(storedSettings)
      ensures assets == storedAssets && scanLog == storedLog
    {
      settings := Seed(storedSettings);
      assets := storedAssets;
      scanLog := storedLog;
    }

    /** `get_setting(key)`. */
    function GetSetting(key: string): (v: Option<string>)
      reads this
      ensures v.Some? <==> key in settings
      ensures v.Some? ==> v.value == settings[key]
    {
      Setting(settings, key)
    }

    /** `set_setting(key, value)`: INSERT OR REPLACE. */
    method SetSetting(key: string, value: string)
      modifies this
      ensures settings == old(settings)[key := value]
      ensures assets == old(assets) && scanLog == old(scanLog)
    {
      settings := settings[key := value];
    }

    /**
     * `next_asset_id()`: the id for the stored counter under the stored prefix,
     * with the counter advanced by one. A counter that int() rejects raises,
     * and then nothing changes.
     */
    method NextAssetId() returns (r: Result<string, string>)
      modifies this
      ensures Counter(old(settings)).None? ==> r.Err? && settings == old(settings)
      ensures Counter(old(settings)).Some? ==>
        r == Ok(AssetIdFor(Prefix(old(settings)), Counter(old(settings)).value)) &&
        settings == old(settings)[ID_COUNTER := IntToString(Counter(old(settings)).value + 1)]
      ensures assets == old(assets) && scanLog == old(scanLog)
    {
      var prefix := Prefix(settings);
      var counter := Counter(settings);
      if counter.None? {
        return Err("invalid literal for int() with base 10: '" + SettingOr(settings, ID_COUNTER, "") + "'");
      }
      var id := AssetIdFor(prefix, counter.value);
      SetSetting(ID_COUNTER, IntToString(counter.value + 1));
      r := Ok(id);
    }

    /** `epc_exists(epc)`. */
    function EpcExists(epc: string): (b: bool)
      reads this
      ensures b <==> exists i :: 0 <= i < |assets| && assets[i].epc == Some(epc)
    {
      FindByEpc(assets, epc).Some?
    }

    /** `get_asset_by_epc(epc)`. */
    function AssetByEpc(epc: string): (r: Option<Asset>)
      reads this
      ensures r.Some? <==> EpcExists(epc)
      ensures r.Some? ==> r.value in assets && r.value.epc == Some(epc)
    {
      FindByEpc(assets, epc)
    }

    /**
     * `insert_asset(...)`: appends the row unless it would break a UNIQUE
     * constraint; then the row is refused with SQLite's message, asset id first.
     */
    method InsertAsset(a: Asset) returns (error: Option<string>)
      requires Valid()
      modifies this
      ensures Valid()
      ensures error.None? <==> !HasId(old(assets), a.assetId) && (a.epc.None? || !HasEpc(old(assets), a.epc.value))
      ensures error.None? ==> assets == old(assets) + [a]
      ensures error.Some? ==> assets == old(assets)
      ensures HasId(old(assets), a.assetId) ==> error == Some(DUPLICATE_ID_MSG)
      ensures settings == old(settings) && scanLog == old(scanLog)
    {
      if exists i :: 0 <= i < |assets| && assets[i].assetId == a.assetId {
        return Some(DUPLICATE_ID_MSG);
      }
      if a.epc.Some? && EpcExists(a.epc.value) {
        return Some(DUPLICATE_EPC_MSG);
      }
      assets := assets + [a];
      error := None;
    }

    /** `update_asset(asset_id, printed_at=ts)`: stamps the asset with that id, if there is one. */
    method MarkPrinted(assetId: string, ts: string)
      requires Valid()
      modifies this
      ensures Valid()
      ensures |assets| == |old(assets)|
      ensures forall i :: 0 <= i < |assets| ==>
        assets[i] == if old(assets)[i].assetId == assetId then old(assets)[i].(printedAt := Some(ts)) else old(assets)[i]
      ensures settings == old(settings) && scanLog == old(scanLog)
    {
      assets := seq(|assets|, i requires 0 <= i < |assets| reads this =>
        if assets[i].assetId == assetId then assets[i].(printedAt := Some(ts)) else assets[i]);
    }

    /** `log_scan(asset_id, epc, action, result)`. */
    method LogScan(entry: ScanEntry)
      modifies this
      ensures scanLog == old(scanLog) + [entry]
      ensures settings == old(settings) && assets == old(assets)
    {
      scanLog := scanLog + [entry];
    }
  }
}
