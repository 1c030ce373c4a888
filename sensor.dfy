/** The sensor platform's setup: which descriptions become entities, and
    the two value helpers the platform defines. */
module Sensor {
  import opened Wrappers
  import opened SensorDescriptions

  // The entity filter

  /** A description becomes an entity when it does not need a signed-in
      user, or the client is signed in. */
  predicate Shown(d: Description, isAuthenticated: bool) {
    !d.authenticated || isAuthenticated
  }

  /** The descriptions of `ds` that become entities, in order. */
  function Entities(ds: seq<Description>, isAuthenticated: bool): (r: seq<Description>) {
    if ds == [] then []
    else Entities(ds[..|ds| - 1], isAuthenticated) + (if Shown(ds[|ds| - 1], isAuthenticated) then [ds[|ds| - 1]] else [])
  }

  /** A description becomes an entity exactly when it is a candidate that
      passes the filter; at most as many entities as candidates. */
  lemma {:induction false} EntitiesMembers(ds: seq<Description>, isAuthenticated: bool)
    ensures |Entities(ds, isAuthenticated)| <= |ds|
    ensures forall d :: d in Entities(ds, isAuthenticated) <==> d in ds && Shown(d, isAuthenticated)
  {
    if ds != [] {
      var front := ds[..|ds| - 1];
      EntitiesMembers(front, isAuthenticated);
      assert ds == front + [ds[|ds| - 1]];
    }
  }

  /** Signed in, every candidate becomes an entity. */
  lemma {:induction false} EntitiesWhenSignedIn(ds: seq<Description>)
    ensures Entities(ds, true) == ds
  {
    if ds != [] {
      EntitiesWhenSignedIn(ds[..|ds| - 1]);
    }
  }

  /** Filtering a concatenation is concatenating what each part keeps. */
  lemma {:induction false} EntitiesDistributes(a: seq<Description>, b: seq<Description>, isAuthenticated: bool)
    ensures Entities(a + b, isAuthenticated) == Entities(a, isAuthenticated) + Entities(b, isAuthenticated)
  {
    if b == [] {
      assert a + b == a;
    } else {
      var front := b[..|b| - 1];
      assert (a + b)[..|a + b| - 1] == a + front;
      EntitiesDistributes(a, front, isAuthenticated);
    }
  }

  // Candidates

  /** `STATIC_ENODE_SENSOR_TYPES`. */
  const STATIC_ENODE_SENSOR_TYPES: seq<Description> := [Description("enode_total_chargers", "Total Chargers", true, EnodeChargers)]

  /** `STATIC_BATTERY_SENSOR_TYPES`. */
  const STATIC_BATTERY_SENSOR_TYPES: seq<Description> := [Description("total_batteries", "Total Batteries", true, SERVICE_NAME_BATTERIES)]

  /** `n` copies of `s`, one after the other. */
  function Repeat(s: seq<Description>, n: nat): (r: seq<Description>) {
    if n == 0 then [] else Repeat(s, n - 1) + s
  }

  lemma {:induction false} RepeatLength(s: seq<Description>, n: nat)
    ensures |Repeat(s, n)| == n * |s|
  {
    if n > 0 {
      RepeatLength(s, n - 1);
    }
  }

  /** Position j of copy c of the repetition holds `s[j]`. */
  lemma {:induction false} RepeatAt(s: seq<Description>, n: nat, c: nat, j: nat)
    requires c < n && j < |s|
    ensures |Repeat(s, n)| == n * |s|
    ensures c * |s| + j < n * |s| && Repeat(s, n)[c * |s| + j] == s[j]
  {
    RepeatLength(s, n);
    RepeatLength(s, n - 1);
    assert n * |s| == (n - 1) * |s| + |s|;
    if c < n - 1 {
      RepeatAt(s, n - 1, c, j);
    } else {
      assert c * |s| == (n - 1) * |s|;
    }
  }

  /** The descriptions setup walks through for the chargers: for each
      charger, the static list followed by the dynamic list of every charger. */
  function EnodeCandidates(chargers: seq<Charger>): (r: seq<Description>) {
    Repeat(STATIC_ENODE_SENSOR_TYPES + EnodeLayoutOf(|chargers|), |chargers|)
  }

  /** The builder's output for n chargers. */
  function EnodeLayoutOf(n: nat): (ds: seq<Description>)
    ensures |ds| == ENODE_GROUP * n && EnodeLayout(ds)
  {
    seq(ENODE_GROUP * n, k requires 0 <= k < ENODE_GROUP * n => EnodeDescription(k / ENODE_GROUP, k % ENODE_GROUP))
  }

  /** Output laid out charger by charger for n chargers is the builder's output for n chargers. */
  lemma EnodeLayoutUnique(ds: seq<Description>, n: nat)
    requires |ds| == ENODE_GROUP * n && EnodeLayout(ds)
    ensures ds == EnodeLayoutOf(n)
  {
  }

  /** One more copy, after what was walked before. */
  lemma RepeatAppend(walked: seq<Description>, s: seq<Description>, n: nat)
    ensures walked + Repeat(s, n) + s == walked + Repeat(s, n + 1)
  {
  }

  /** With n chargers, setup walks through n * (1 + 17n) descriptions. */
  lemma EnodeCandidateCount(chargers: seq<Charger>)
    ensures |EnodeCandidates(chargers)| == |chargers| * (1 + ENODE_GROUP * |chargers|)
  {
    RepeatLength(STATIC_ENODE_SENSOR_TYPES + EnodeLayoutOf(|chargers|), |chargers|);
  }

  /** With two chargers or more, every description is walked through once
      per charger, so the same key is offered again. */
  lemma EnodeCandidatesRepeatKeys(chargers: seq<Charger>)
    requires |chargers| >= 2
    ensures var g := 1 + ENODE_GROUP * |chargers|;
            && |EnodeCandidates(chargers)| >= 2 * g
            && EnodeCandidates(chargers)[0].key == EnodeCandidates(chargers)[g].key == "enode_total_chargers"
  {
    var group := STATIC_ENODE_SENSOR_TYPES + EnodeLayoutOf(|chargers|);
    RepeatAt(group, |chargers|, 0, 0);
    RepeatAt(group, |chargers|, 1, 0);
  }

  /** The descriptions setup walks through for the batteries: for each
      battery, the static list followed by the dynamic list of all batteries. */
  function BatteryCandidates(bs: seq<Battery>): (r: seq<Description>) {
    Repeat(STATIC_BATTERY_SENSOR_TYPES + BatteryDescriptions(bs), |bs|)
  }

  /** What `async_setup_entry` finds in the coordinator's data. */
  datatype SetupData = SetupData(
    /** `data.get(DATA_ENODE_CHARGERS)`, when present and truthy. */
    enode: Option<seq<Charger>>,
    /** `data.get(DATA_BATTERIES).smart_batteries`, when present and truthy. */
    batteries: Option<seq<Battery>>)

  /** Every description setup walks through, in order. */
  function Candidates(sensorTypes: seq<Description>, data: SetupData): (r: seq<Description>) {
    sensorTypes
    + (if data.enode.Some? then EnodeCandidates(data.enode.value) else [])
    + (if data.batteries.Some? then BatteryCandidates(data.batteries.value) else [])
  }

  /** The entity loops of `async_setup_entry`: the description table, then
      for each charger the static and dynamic Enode descriptions, then for
      each battery the static and dynamic battery descriptions, each kept
      when it passes the filter. The debug log of each battery reads its
      `id`, which raises AttributeError for a battery without one. */
  method SetupEntities(sensorTypes: seq<Description>, data: SetupData, isAuthenticated: bool)
    returns (r: Outcome<seq<Description>>)
    ensures data.batteries.Some? && !AllHaveIds(data.batteries.value) ==> r == Raise(AttributeError("id"))
    ensures data.batteries.None? || AllHaveIds(data.batteries.value) ==>
              r == Ok(Entities(Candidates(sensorTypes, data), isAuthenticated))
  {
    assert [] + sensorTypes == sensorTypes;
    var entities := AddEntities([], [], sensorTypes, isAuthenticated);
    ghost var walked := sensorTypes;
    if data.enode.Some? {
      entities := AddEnodeEntities(entities, walked, data.enode.value, isAuthenticated);
      walked := walked + EnodeCandidates(data.enode.value);
    }
    ghost var enodePart: seq<Description> := if data.enode.Some? then EnodeCandidates(data.enode.value) else [];
    assert walked == sensorTypes + enodePart;
    if data.batteries.Some? {
      assert entities == Entities(walked, isAuthenticated);
      r := AddBatteryEntities(entities, walked, data.batteries.value, isAuthenticated);
      assert Candidates(sensorTypes, data) == walked + BatteryCandidates(data.batteries.value);
    } else {
      r := Ok(entities);
      assert Candidates(sensorTypes, data) == walked + [] == walked;
      assert entities == Entities(walked, isAuthenticated);
    }
  }

  /** The charger loop of `async_setup_entry`. */
  method AddEnodeEntities(entities: seq<Description>, ghost walked: seq<Description>, chargers: seq<Charger>,
                          isAuthenticated: bool) returns (next: seq<Description>)
    requires entities == Entities(walked, isAuthenticated)
    ensures next == Entities(walked + EnodeCandidates(chargers), isAuthenticated)
  {
    next := entities;
    ghost var group := STATIC_ENODE_SENSOR_TYPES + EnodeLayoutOf(|chargers|);
    assert walked + Repeat(group, 0) == walked;
    for i := 0 to |chargers|
      invariant next == Entities(walked + Repeat(group, i), isAuthenticated)
    {
      var dynamic := BuildDynamicEnodeSensorDescriptions(ChargerList(chargers), i);
      EnodeLayoutUnique(dynamic, |chargers|);
      var sensorDescriptions := STATIC_ENODE_SENSOR_TYPES + dynamic;
      next := AddEntities(next, walked + Repeat(group, i), sensorDescriptions, isAuthenticated);
      RepeatAppend(walked, group, i);
    }
  }

  /** Every battery of the list has an `id`. */
  predicate AllHaveIds(bs: seq<Battery>) {
    forall i :: 0 <= i < |bs| ==> bs[i].id.Some?
  }

  /** The battery loop of `async_setup_entry`, up to its first battery without an id. */
  method AddBatteryEntities(entities: seq<Description>, ghost walked: seq<Description>, bs: seq<Battery>,
                            isAuthenticated: bool) returns (r: Outcome<seq<Description>>)
    requires entities == Entities(walked, isAuthenticated)
    ensures !AllHaveIds(bs) ==> r == Raise(AttributeError("id"))
    ensures AllHaveIds(bs) ==> r == Ok(Entities(walked + BatteryCandidates(bs), isAuthenticated))
  {
    var built := BuildDynamicSmartBatteriesDescriptions(BatteryList(bs));
    var dynamic := built.value;
    assert dynamic == BatteryDescriptions(bs);
    r := AddPerBattery(entities, walked, STATIC_BATTERY_SENSOR_TYPES + dynamic, bs, isAuthenticated);
  }

  /** The body of the battery loop: the same descriptions once per battery,
      stopping at the first battery without an id. */
  method AddPerBattery(entities: seq<Description>, ghost walked: seq<Description>, sensorDescriptions: seq<Description>,
                       bs: seq<Battery>, isAuthenticated: bool) returns (r: Outcome<seq<Description>>)
    requires entities == Entities(walked, isAuthenticated)
    ensures !AllHaveIds(bs) ==> r == Raise(AttributeError("id"))
    ensures AllHaveIds(bs) ==> r == Ok(Entities(walked + Repeat(sensorDescriptions, |bs|), isAuthenticated))
  {
    var next := entities;
    assert walked + Repeat(sensorDescriptions, 0) == walked;
    var i := 0;
    while i < |bs|
      invariant 0 <= i <= |bs|
      invariant next == Entities(walked + Repeat(sensorDescriptions, i), isAuthenticated)
      invariant AllHaveIds(bs[..i])
    {
      if bs[i].id.None? {
        assert bs[i] !in bs[..i] && !AllHaveIds(bs);
        return Raise(AttributeError("id"));
      }
      next := AddEntities(next, walked + Repeat(sensorDescriptions, i), sensorDescriptions, isAuthenticated);
      RepeatAppend(walked, sensorDescriptions, i);
      assert bs[..i + 1] == bs[..i] + [bs[i]];
      i := i + 1;
    }
    assert bs[..i] == bs;
    return Ok(next);
  }

  /** One entity loop: each description of `ds` is appended when it passes the filter. */
  method AddEntities(entities: seq<Description>, ghost walked: seq<Description>, ds: seq<Description>, isAuthenticated: bool)
    returns (next: seq<Description>)
    requires entities == Entities(walked, isAuthenticated)
    ensures next == Entities(walked + ds, isAuthenticated)
  {
    next := entities;
    assert walked + ds[..0] == walked;
    for k := 0 to |ds|
      invariant next == Entities(walked + ds[..k], isAuthenticated)
    {
      assert (walked + ds[..k + 1])[..|walked| + k] == walked + ds[..k];
      if Shown(ds[k], isAuthenticated) {
        next := next + [ds[k]];
      }
    }
    assert ds[..|ds|] == ds;
  }

  // Value helpers

  /** A value handed to `_validate_datetime`: a datetime (an instant, and
      whether it carries a time zone) or a value of another type. */
  datatype Value = DateTime(instant: int, timezoneAware: bool) | Other(typeName: string)

  /** `_SmartBattery._validate_datetime(value, field_name)`: the value itself
      when it is a timezone-aware datetime, and a ValueError naming the field
      otherwise. */
  function ValidateDatetime(value: Value, fieldName: string): (r: Outcome<Value>)
    ensures r.Ok? <==> value.DateTime? && value.timezoneAware
    ensures r.Ok? ==> r.value == value
    ensures value.Other? ==>
              r == Raise(ValueError("Field '" + fieldName + "' must be a datetime object, got " + value.typeName))
    ensures value.DateTime? && !value.timezoneAware ==>
              r == Raise(ValueError("Field '" + fieldName + "' must be timezone-aware"))
  {
    match value
    case Other(typeName) => Raise(ValueError("Field '" + fieldName + "' must be a datetime object, got " + typeName))
    case DateTime(_, timezoneAware) =>
      if !timezoneAware then Raise(ValueError("Field '" + fieldName + "' must be timezone-aware")) else Ok(value)
  }

  /** Validating a value that passed once gives the same value again. */
  lemma ValidateDatetimeIdempotent(value: Value, fieldName: string, otherField: string)
    requires ValidateDatetime(value, fieldName).Ok?
    ensures ValidateDatetime(ValidateDatetime(value, fieldName).value, otherField) == Ok(value)
  {
  }

  /** `externalDetails["person"]`, as far as `format_user_name` looks into it. */
  datatype PersonEntry =
      /** `externalDetails` is missing or empty, or has no `person`. */
    | PersonAbsent
      /** `person` is present but None. */
    | PersonNone
    | PersonDict(fields: map<string, string>)

  /** `data["user"]`, as far as `format_user_name` looks into it. */
  datatype UserEntry =
    | UserAbsent
    | UserNone
    | UserDict(person: PersonEntry)

  /** `format_user_name(data)`: "first last" when the person has both names;
      None when the user, the person or either name is missing; the
      AttributeError of calling `.get` on a None user and the TypeError of
      indexing a None person are not caught. */
  function FormatUserName(user: UserEntry): (r: Outcome<Option<string>>)
    ensures r.Raise? <==> user.UserNone? || user == UserDict(PersonNone)
    ensures user.UserNone? ==> r == Raise(AttributeError("get"))
    ensures user == UserDict(PersonNone) ==> r == Raise(TypeError)
    ensures r.Ok? && r.value.Some? <==>
              user.UserDict? && user.person.PersonDict?
              && "firstName" in user.person.fields && "lastName" in user.person.fields
    ensures r.Ok? && r.value.Some? ==>
              var p := user.person.fields;
              && p["firstName"] + " " <= r.value.value
              && r.value.value[|p["firstName"]| + 1..] == p["lastName"]
  {
    match user
    case UserAbsent => Ok(None)
    case UserNone => Raise(AttributeError("get"))
    case UserDict(PersonAbsent) => Ok(None)
    case UserDict(PersonNone) => Raise(TypeError)
    case UserDict(PersonDict(fields)) =>
      if "firstName" in fields && "lastName" in fields then Ok(Some(fields["firstName"] + " " + fields["lastName"]))
      else Ok(None)
  }
}
