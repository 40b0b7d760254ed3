/**
 * What a scan produces and what the run is configured with: texture and
 * model-asset records, the per-group asset table (`GROUPED_ASSETS`) and the
 * values that `config.py` supplies.
 */
module Inventory {
  import opened Strings

  /** A scanned `.dds` file: its name without the suffix, its directory's name and path. */
  datatype Texture = Texture(name: string, parent: string, path: string)

  /** A scanned model file: its name without the suffix, directory path, joined suffix, vehicle flag. */
  datatype Asset = Asset(name: string, path: string, ext: string, isVeh: bool)

  /** One entry of `GROUPED_ASSETS`: the group's assets in discovery order and its counter. */
  datatype Group = Group(assets: seq<Asset>, total: nat)

  /** `GROUPED_ASSETS`, from group key to group; read-only once the scan is over. */
  type Pending = map<string, Group>

  /**
   * The configuration. The regular expressions of `ASSET_GROUPS` are the
   * abstract test `groupMatches(group, name)`; a vehicle entry of
   * `VEHICLES` is an opaque `V` that is tested with `vehMatches(name, v)`
   * (`name.startswith(veh)`), that names its group with `vehName(v)`
   * (`veh[0]`), and `isVehicleName(n)` is `n in VEHICLES`.
   */
  datatype Config<!V> = Config(
    regexGroups: seq<string>,
    groupMatches: (string, string) -> bool,
    vehicles: seq<V>,
    vehMatches: (string, V) -> bool,
    vehName: V -> string,
    isVehicleName: string -> bool,
    vehicleGroup: string,
    ungrouped: string,
    ydrExt: string,
    yftExt: string,
    allGroups: seq<string>)

  /** The group key of a vehicle entry: `VEHICLE_GROUP/veh[0]`. */
  function VehicleKey<V>(cfg: Config<V>, v: V): string
  {
    cfg.vehicleGroup + "/" + cfg.vehName(v)
  }

  /** `SUPPORTED_ASSET_EXTS`: the drawable and the fragment suffixes. */
  predicate IsSupportedExt<V>(cfg: Config<V>, ext: string)
  {
    ext == cfg.ydrExt || ext == cfg.yftExt
  }

  /** The keys of the vehicle groups: `{f'{VEHICLE_GROUP}/{veh[0]}' for veh in VEHICLES}`. */
  function VehicleKeys<V>(cfg: Config<V>): set<string>
  {
    set i | 0 <= i < |cfg.vehicles| :: VehicleKey(cfg, cfg.vehicles[i])
  }

  /**
   * `ALL_ASSET_GROUPS` as line 21 builds it: the regex group keys in order,
   * then every vehicle key once in some order, then the ungrouped key.
   */
  predicate WellFormed<V>(cfg: Config<V>)
  {
    var n := |cfg.regexGroups|;
    var m := |cfg.allGroups|;
    && m >= n + 1
    && cfg.allGroups[..n] == cfg.regexGroups
    && cfg.allGroups[m - 1] == cfg.ungrouped
    && (set j | n <= j < m - 1 :: cfg.allGroups[j]) == VehicleKeys(cfg)
    && (forall j, k :: n <= j < k < m - 1 ==> cfg.allGroups[j] != cfg.allGroups[k])
  }

  /** Some scanned asset, in any group, is named exactly `n`. */
  predicate SomeAssetNamed(pending: Pending, n: string)
  {
    exists g, i :: g in pending && 0 <= i < |pending[g].assets| && pending[g].assets[i].name == n
  }

  /** Some scanned asset of group `g` has a name that starts with `prefix`. */
  predicate GroupHasExtension(pending: Pending, g: string, prefix: string)
  {
    g in pending && exists i :: 0 <= i < |pending[g].assets| && StartsWith(pending[g].assets[i].name, prefix)
  }
}
