/** The sensor descriptions the integration generates at setup: a group of
    17 per Enode charger and a group of 8 per smart battery. A description is
    reduced to its key, its name, whether it needs a signed-in user, and the
    service it is grouped under; units, icons and value lambdas are not
    modelled. */
module SensorDescriptions {
  import opened Wrappers
  import opened PyStr

  /** The `service_name` of a description. `SERVICE_NAME_ENODE_CHARGERS`
      has no value in the constants module, so it is a name of its own here. */
  datatype ServiceName = Named(name: string) | EnodeChargers

  const SERVICE_NAME_BATTERIES := Named("Smart Batteries")

  /** `FrankEnergieEntityDescription`, as far as setup reads it. */
  datatype Description = Description(key: string, name: string, authenticated: bool, service: ServiceName)

  // Enode chargers

  /** The number of descriptions built for each charger. */
  const ENODE_GROUP := 17

  /** The key of the j-th description of a charger is this prefix followed by the charger's 1-based number. */
  const ENODE_KEY_PREFIXES: seq<string> := [
    "enode_charger_id_", "enode_charger_brand_", "enode_charger_model_", "can_smart_charge_",
    "charge_capacity_", "is_plugged_in_", "power_delivery_state_", "enode_is_reachable_",
    "is_charging_", "enode_charger_name_", "charge_rate_", "is_smart_charging_enabled_",
    "is_solar_charging_enabled_", "calculated_deadline_", "initial_charge_timestamp_",
    "last_updated_", "battery_level_"]

  /** The name of the j-th description of charger n is "Charger n" followed by this text. */
  const ENODE_NAME_SUFFIXES: seq<string> := [
    " ID", " Brand", " Model", " Can Smart Charge", " Charge Capacity", " Is Plugged In",
    " Power Delivery State", " Is Reachable", " Is Charging", " Name", " Charge Rate",
    " Is Smart Charging Enabled", " Is Solar Charging Enabled", " Calculated Deadline",
    " Initial Charge Timestamp", " Last Updated", " Battery Level"]

  /** The j-th description built for the charger at 0-based position i. */
  function EnodeDescription(i: nat, j: nat): (r: Description)
    requires j < ENODE_GROUP
  {
    var number := DecimalString(i + 1);
    Description(ENODE_KEY_PREFIXES[j] + number, "Charger " + number + ENODE_NAME_SUFFIXES[j], true, EnodeChargers)
  }

  /** The 17 descriptions built for the charger at position i. */
  function EnodeGroup(i: nat): (g: seq<Description>)
    ensures |g| == ENODE_GROUP
    ensures forall j :: 0 <= j < ENODE_GROUP ==> g[j] == EnodeDescription(i, j)
  {
    seq(ENODE_GROUP, j requires 0 <= j < ENODE_GROUP => EnodeDescription(i, j))
  }

  /** An Enode charger; the builder only counts them. */
  datatype Charger = Charger(id: string)

  /** `enode_data.chargers`: a list, or anything else. */
  datatype Chargers = ChargerList(chargers: seq<Charger>) | NotAList

  /** The key prefixes: one per description, each ending in "_", no two alike. */
  lemma EnodeKeyPrefixesWellFormed()
    ensures |ENODE_KEY_PREFIXES| == ENODE_GROUP
    ensures forall j :: 0 <= j < ENODE_GROUP ==>
              |ENODE_KEY_PREFIXES[j]| > 0 && ENODE_KEY_PREFIXES[j][|ENODE_KEY_PREFIXES[j]| - 1] == '_'
    ensures forall a, b :: 0 <= a < b < ENODE_GROUP ==> ENODE_KEY_PREFIXES[a] != ENODE_KEY_PREFIXES[b]
  {
  }

  /** The name suffixes: one per description, each starting with a space, no two alike. */
  lemma EnodeNameSuffixesWellFormed()
    ensures |ENODE_NAME_SUFFIXES| == ENODE_GROUP
    ensures forall j :: 0 <= j < ENODE_GROUP ==> |ENODE_NAME_SUFFIXES[j]| > 0 && ENODE_NAME_SUFFIXES[j][0] == ' '
    ensures forall a, b :: 0 <= a < b < ENODE_GROUP ==> ENODE_NAME_SUFFIXES[a] != ENODE_NAME_SUFFIXES[b]
  {
  }

  /** Two Enode descriptions share their key only when they are the same
      description of the same charger. */
  lemma EnodeKeyInjective(i1: nat, j1: nat, i2: nat, j2: nat)
    requires j1 < ENODE_GROUP && j2 < ENODE_GROUP
    requires EnodeDescription(i1, j1).key == EnodeDescription(i2, j2).key
    ensures i1 == i2 && j1 == j2
  {
    EnodeKeyPrefixesWellFormed();
    var p1, p2 := ENODE_KEY_PREFIXES[j1], ENODE_KEY_PREFIXES[j2];
    PrefixedNumberInjective(p1, i1 + 1, p2, i2 + 1);
  }

  /** The same holds of their names. */
  lemma EnodeNameInjective(i1: nat, j1: nat, i2: nat, j2: nat)
    requires j1 < ENODE_GROUP && j2 < ENODE_GROUP
    requires EnodeDescription(i1, j1).name == EnodeDescription(i2, j2).name
    ensures i1 == i2 && j1 == j2
  {
    EnodeNameSuffixesWellFormed();
    NumberedTextInjective("Charger ", i1 + 1, ENODE_NAME_SUFFIXES[j1], i2 + 1, ENODE_NAME_SUFFIXES[j2]);
  }

  /** Position k of the builder's output is description k % 17 of charger k / 17. */
  predicate EnodeLayout(ds: seq<Description>) {
    forall k :: 0 <= k < |ds| ==> ds[k] == EnodeDescription(k / ENODE_GROUP, k % ENODE_GROUP)
  }

  /** In an output laid out charger by charger, no key and no name occurs twice. */
  lemma EnodeLayoutDistinct(ds: seq<Description>)
    requires EnodeLayout(ds)
    ensures forall k1, k2 :: 0 <= k1 < k2 < |ds| ==> ds[k1].key != ds[k2].key && ds[k1].name != ds[k2].name
  {
    forall k1, k2 | 0 <= k1 < k2 < |ds|
      ensures ds[k1].key != ds[k2].key && ds[k1].name != ds[k2].name
    {
      var i1, j1, i2, j2 := k1 / ENODE_GROUP, k1 % ENODE_GROUP, k2 / ENODE_GROUP, k2 % ENODE_GROUP;
      assert i1 != i2 || j1 != j2;
      if ds[k1].key == ds[k2].key {
        EnodeKeyInjective(i1, j1, i2, j2);
      }
      if ds[k1].name == ds[k2].name {
        EnodeNameInjective(i1, j1, i2, j2);
      }
    }
  }

  /** `_build_dynamic_enode_sensor_descriptions(enode_data, index)`: nothing
      for a non-list or an empty list, and otherwise the 17 descriptions of
      each charger in charger order, numbered from 1. `index` is not used. */
  method BuildDynamicEnodeSensorDescriptions(enodeData: Chargers, index: int) returns (descriptions: seq<Description>)
    ensures enodeData.NotAList? ==> descriptions == []
    ensures enodeData.ChargerList? ==> |descriptions| == ENODE_GROUP * |enodeData.chargers|
    ensures EnodeLayout(descriptions)
    ensures forall k1, k2 :: 0 <= k1 < k2 < |descriptions| ==>
              descriptions[k1].key != descriptions[k2].key && descriptions[k1].name != descriptions[k2].name
  {
    descriptions := [];
    if enodeData.NotAList? || enodeData.chargers == [] {
      return;
    }
    var chargers := enodeData.chargers;
    for i := 0 to |chargers|
      invariant |descriptions| == ENODE_GROUP * i
      invariant EnodeLayout(descriptions)
    {
      var group := EnodeGroup(i);
      forall k | ENODE_GROUP * i <= k < ENODE_GROUP * i + ENODE_GROUP
        ensures (descriptions + group)[k] == EnodeDescription(k / ENODE_GROUP, k % ENODE_GROUP)
      {
        assert k / ENODE_GROUP == i && k % ENODE_GROUP == k - ENODE_GROUP * i;
      }
      descriptions := descriptions + group;
    }
    EnodeLayoutDistinct(descriptions);
  }

  // Smart batteries

  /** The number of descriptions built for each battery. */
  const BATTERY_GROUP := 8

  /** The key of the j-th description of the battery at position i is
      "smart_battery_{i}" followed by this text. */
  const BATTERY_KEY_SUFFIXES: seq<string> := [
    "_brand", "_capacity", "_external_reference", "_id",
    "_max_charge_power", "_provider", "_created_at", "_updated_at"]

  /** Its name is "Battery {i+1}" followed by this text. */
  const BATTERY_NAME_SUFFIXES: seq<string> := [
    " Brand", " Capacity (kWh)", " External Reference", " ID",
    " Max Charge Power (kW)", " Provider", " Created At", " Updated At"]

  function BatteryDescription(i: nat, j: nat): (r: Description)
    requires j < BATTERY_GROUP
  {
    Description("smart_battery_" + DecimalString(i) + BATTERY_KEY_SUFFIXES[j],
                "Battery " + DecimalString(i + 1) + BATTERY_NAME_SUFFIXES[j],
                true, SERVICE_NAME_BATTERIES)
  }

  /** The 8 descriptions built for the battery at position i. */
  function BatteryGroup(i: nat): (g: seq<Description>)
    ensures |g| == BATTERY_GROUP
    ensures forall j :: 0 <= j < BATTERY_GROUP ==> g[j] == BatteryDescription(i, j)
  {
    seq(BATTERY_GROUP, j requires 0 <= j < BATTERY_GROUP => BatteryDescription(i, j))
  }

  /** A smart battery; `id` is None when the object has no `id` attribute. */
  datatype Battery = Battery(id: Option<string>)

  /** The builder's argument: a list of batteries, or any other value,
      described by whether it is truthy and whether it has a length. */
  datatype Batteries =
    | BatteryList(batteries: seq<Battery>)
    | OtherValue(truthy: bool, sized: bool)

  /** The groups of the batteries that have an id, in list order, each
      numbered by the battery's position in the whole list. */
  function BatteryDescriptions(bs: seq<Battery>): (r: seq<Description>) {
    if bs == [] then []
    else
      var last := |bs| - 1;
      BatteryDescriptions(bs[..last]) + (if bs[last].id.Some? then BatteryGroup(last) else [])
  }

  /** The number of batteries that have an id. */
  function WithId(bs: seq<Battery>): (r: nat) {
    if bs == [] then 0 else WithId(bs[..|bs| - 1]) + (if bs[|bs| - 1].id.Some? then 1 else 0)
  }

  lemma BatteryTablesWellFormed()
    ensures |BATTERY_KEY_SUFFIXES| == BATTERY_GROUP && |BATTERY_NAME_SUFFIXES| == BATTERY_GROUP
    ensures forall j :: 0 <= j < BATTERY_GROUP ==> |BATTERY_KEY_SUFFIXES[j]| > 0 && BATTERY_KEY_SUFFIXES[j][0] == '_'
    ensures forall j :: 0 <= j < BATTERY_GROUP ==> |BATTERY_NAME_SUFFIXES[j]| > 0 && BATTERY_NAME_SUFFIXES[j][0] == ' '
    ensures forall a, b :: 0 <= a < b < BATTERY_GROUP ==> BATTERY_KEY_SUFFIXES[a] != BATTERY_KEY_SUFFIXES[b]
  {
  }

  /** Two battery descriptions share their key only when they are the same
      description of the battery at the same position. */
  lemma BatteryKeyInjective(i1: nat, j1: nat, i2: nat, j2: nat)
    requires j1 < BATTERY_GROUP && j2 < BATTERY_GROUP
    requires BatteryDescription(i1, j1).key == BatteryDescription(i2, j2).key
    ensures i1 == i2 && j1 == j2
  {
    BatteryTablesWellFormed();
    NumberedTextInjective("smart_battery_", i1, BATTERY_KEY_SUFFIXES[j1], i2, BATTERY_KEY_SUFFIXES[j2]);
  }

  /** Eight descriptions per battery with an id. */
  lemma {:induction false} BatteryDescriptionsCount(bs: seq<Battery>)
    ensures |BatteryDescriptions(bs)| == BATTERY_GROUP * WithId(bs)
  {
    if bs != [] {
      BatteryDescriptionsCount(bs[..|bs| - 1]);
    }
  }

  /** Description j of the battery at position i is built exactly when that
      battery has an id: batteries without one are skipped, but still use up
      their position in the keys and names of the others. */
  lemma {:induction false} BatteryDescriptionsMembers(bs: seq<Battery>, i: nat, j: nat)
    requires i < |bs| && j < BATTERY_GROUP
    ensures BatteryDescription(i, j) in BatteryDescriptions(bs) <==> bs[i].id.Some?
  {
    var last := |bs| - 1;
    var front := bs[..last];
    var tail: seq<Description> := if bs[last].id.Some? then BatteryGroup(last) else [];
    assert BatteryDescriptions(bs) == BatteryDescriptions(front) + tail;
    if i < last {
      assert front[i] == bs[i];
      BatteryDescriptionsMembers(front, i, j);
      if BatteryDescription(i, j) in tail {
        var j' :| 0 <= j' < BATTERY_GROUP && tail[j'] == BatteryDescription(i, j);
        BatteryKeyInjective(last, j', i, j);
      }
    } else {
      assert bs[i].id.Some? ==> tail[j] == BatteryDescription(i, j);
      BatteryDescriptionsBelow(front, i, j);
    }
  }

  /** A description numbered at or after the end of the list is never built. */
  lemma {:induction false} BatteryDescriptionsBelow(bs: seq<Battery>, i: nat, j: nat)
    requires |bs| <= i && j < BATTERY_GROUP
    ensures BatteryDescription(i, j) !in BatteryDescriptions(bs)
  {
    if bs != [] {
      var last := |bs| - 1;
      BatteryDescriptionsBelow(bs[..last], i, j);
      if bs[last].id.Some? && BatteryDescription(i, j) in BatteryGroup(last) {
        var j' :| 0 <= j' < BATTERY_GROUP && BatteryGroup(last)[j'] == BatteryDescription(i, j);
        BatteryKeyInjective(last, j', i, j);
      }
    }
  }

  /** `_build_dynamic_smart_batteries_descriptions(batteries)`: nothing for a
      falsy argument; a truthy argument is measured with `len` for the debug
      log before its type is checked, so one without a length raises
      TypeError; nothing for any other non-list; otherwise, for each battery
      with an `id`, its 8 descriptions keyed by its 0-based position and
      named by its 1-based position. */
  method BuildDynamicSmartBatteriesDescriptions(batteries: Batteries) returns (r: Outcome<seq<Description>>)
    ensures batteries.OtherValue? && batteries.truthy && !batteries.sized ==> r == Raise(TypeError)
    ensures batteries.OtherValue? && (!batteries.truthy || batteries.sized) ==> r == Ok([])
    ensures batteries.BatteryList? ==> r == Ok(BatteryDescriptions(batteries.batteries))
  {
    if batteries.OtherValue? && !batteries.truthy {
      return Ok([]);
    }
    if batteries.OtherValue? && !batteries.sized {
      return Raise(TypeError);
    }
    if batteries.OtherValue? || batteries.batteries == [] {
      return Ok([]);
    }
    var descriptions := [];
    var bs := batteries.batteries;
    for i := 0 to |bs|
      invariant descriptions == BatteryDescriptions(bs[..i])
    {
      assert bs[..i + 1][..i] == bs[..i];
      if bs[i].id.Some? {
        descriptions := descriptions + BatteryGroup(i);
      }
    }
    assert bs[..|bs|] == bs;
    return Ok(descriptions);
  }
}
