/** Setting up and unloading a config entry: the unique id migration, the
    first refresh, and the per-entry record kept in the host's data under
    the integration's domain. */
module Component {
  import opened Wrappers
  import opened Client
  import opened Entries
  import opened Coordinator
  import ConfigFlow

  /** The unique id entries had before it became "frank_energie". */
  const LEGACY_UNIQUE_ID := "frank_energie_component"

  /** The key under which an entry's coordinator is stored. */
  const CONF_COORDINATOR := "coordinator"

  /** `FrankEnergieComponent._update_unique_id`: a missing or legacy unique
      id becomes "frank_energie"; any other is kept. */
  function MigratedUniqueId(uniqueId: Option<string>): (r: Option<string>)
    ensures uniqueId.None? || uniqueId == Some(LEGACY_UNIQUE_ID) ==> r == Some(DOMAIN)
    ensures uniqueId.Some? && uniqueId != Some(LEGACY_UNIQUE_ID) ==> r == uniqueId
  {
    if uniqueId.None? || uniqueId.value == LEGACY_UNIQUE_ID then Some(DOMAIN) else uniqueId
  }

  /** Migrating twice is migrating once. */
  lemma MigrationIdempotent(uniqueId: Option<string>)
    ensures MigratedUniqueId(MigratedUniqueId(uniqueId)) == MigratedUniqueId(uniqueId)
  {
  }

  /** The migration gives "frank_energie" exactly to the ids it replaces and
      to "frank_energie" itself. */
  lemma MigrationResult(uniqueId: Option<string>)
    ensures MigratedUniqueId(uniqueId) == Some(DOMAIN) <==>
              uniqueId.None? || uniqueId == Some(LEGACY_UNIQUE_ID) || uniqueId == Some(DOMAIN)
  {
  }

  /** An entry the config flow creates keeps its unique id through the
      migration, and the entry for public prices already has the id the
      migration gives to entries without one. */
  lemma MigrationKeepsFlowIds(data: map<string, string>)
    requires ConfigFlow.EntryUniqueId(data).Ok?
    requires ConfigFlow.EntryUniqueId(data).value != LEGACY_UNIQUE_ID
    ensures MigratedUniqueId(Some(ConfigFlow.EntryUniqueId(data).value)) == Some(ConfigFlow.EntryUniqueId(data).value)
    ensures ConfigFlow.EntryUniqueId(map[]) == Ok(MigratedUniqueId(None).value)
  {
  }

  /** `{CONF_COORDINATOR: coordinator}`, the record stored for an entry. */
  datatype EntryRecord = EntryRecord(coordinator: FrankEnergieCoordinator)

  /** The host, as far as this module touches it: `hass.data`, by domain
      and then by entry id. */
  class Hass {
    var data: map<string, map<string, EntryRecord>>

    constructor (data: map<string, map<string, EntryRecord>>)
      ensures this.data == data
    {
      this.data := data;
    }
  }

  /** The records of the integration's domain; `setdefault` makes an empty one. */
  function DomainRecords(data: map<string, map<string, EntryRecord>>): (r: map<string, EntryRecord>) {
    GetOr(data, DOMAIN, map[])
  }

  /** `FrankEnergieComponent._save_coordinator_to_hass_data`: the domain map
      is created when absent, the entry's record is set (replacing any
      earlier one), and nothing else changes. */
  method SaveCoordinatorToHassData(hass: Hass, entry: ConfigEntry, coordinator: FrankEnergieCoordinator)
    modifies hass
    ensures DOMAIN in hass.data && entry.entryId in hass.data[DOMAIN]
    ensures hass.data[DOMAIN][entry.entryId] == EntryRecord(coordinator)
    ensures forall id :: id != entry.entryId ==>
              (id in hass.data[DOMAIN] <==> id in DomainRecords(old(hass.data)))
              && (id in hass.data[DOMAIN] ==> hass.data[DOMAIN][id] == DomainRecords(old(hass.data))[id])
    ensures forall d :: d != DOMAIN ==> (d in hass.data <==> d in old(hass.data))
    ensures forall d :: d != DOMAIN && d in hass.data ==> hass.data[d] == old(hass.data)[d]
  {
    if DOMAIN !in hass.data {
      hass.data := hass.data[DOMAIN := map[]];
    }
    var hassData := hass.data[DOMAIN];
    hass.data := hass.data[DOMAIN := hassData[entry.entryId := EntryRecord(coordinator)]];
  }

  /** What `async_config_entry_first_refresh` makes of the first refresh:
      reauthentication requests pass through, every other failure means the
      entry is not ready. */
  function FirstRefresh(result: Outcome<FrankEnergieData>): (r: Outcome<FrankEnergieData>)
    ensures result.Ok? ==> r == result
    ensures result.Raise? ==> r.Raise? && (r.error == ConfigEntryAuthFailed <==> result.error == ConfigEntryAuthFailed)
    ensures r.Raise? ==> r.error == ConfigEntryAuthFailed || r.error == ConfigEntryNotReady
  {
    match result
    case Ok(_) => result
    case Raise(ConfigEntryAuthFailed) => result
    case Raise(_) => Raise(ConfigEntryNotReady)
  }

  /** `FrankEnergieComponent.setup`, with the client as the answers it gives
      during the first refresh at instant `now`: the unique id is migrated
      first, then a coordinator is made and refreshed once, and only when
      that refresh returns is it stored, and True returned. */
  method Setup(hass: Hass, entry: ConfigEntry, api: Api, now: nat) returns (r: Outcome<bool>, coordinator: FrankEnergieCoordinator)
    modifies hass, entry
    ensures entry.uniqueId == MigratedUniqueId(old(entry.uniqueId))
    ensures fresh(coordinator) && coordinator.entry == entry
    ensures var s := UpdateData(api, now, Get(old(entry.data), CONF_SITE), None, old(entry.data));
            && entry.data == s.entryData
            && r == (if s.result.Ok? then Ok(true) else Raise(FirstRefresh(s.result).error))
            && (s.result.Ok? ==>
                  && coordinator.data == Some(s.result.value)
                  && DOMAIN in hass.data && entry.entryId in hass.data[DOMAIN]
                  && hass.data[DOMAIN][entry.entryId] == EntryRecord(coordinator))
            && (s.result.Raise? ==> hass.data == old(hass.data))
    ensures UpdateData(api, now, Get(old(entry.data), CONF_SITE), None, old(entry.data)).result.Ok? ==>
              && (forall id :: id != entry.entryId ==>
                    && (id in hass.data[DOMAIN] <==> id in DomainRecords(old(hass.data)))
                    && (id in hass.data[DOMAIN] ==> hass.data[DOMAIN][id] == DomainRecords(old(hass.data))[id]))
              && (forall d :: d != DOMAIN ==> (d in hass.data <==> d in old(hass.data)))
              && (forall d :: d != DOMAIN && d in hass.data ==> hass.data[d] == old(hass.data)[d])
    ensures entry.options == old(entry.options)
  {
    // For backwards compatibility, set the unique id.
    entry.uniqueId := MigratedUniqueId(entry.uniqueId);
    coordinator := new FrankEnergieCoordinator(entry);
    var refreshed := coordinator.AsyncUpdateData(api, now);
    var first := FirstRefresh(refreshed);
    if first.Raise? {
      return Raise(first.error), coordinator;
    }
    coordinator.data := Some(first.value);
    SaveCoordinatorToHassData(hass, entry, coordinator);
    return Ok(true), coordinator;
  }

  /** A successful token renewal leaves the entry with the two tokens only,
      so when a later renewal is rejected and the host reauthenticates the
      entry, the login step that `async_step_reauth` opens raises
      KeyError("username") instead of showing the form. */
  lemma ReauthAfterRenewalRaises(api: Api, entryData: map<string, string>, signInData: map<string, string>,
                                 login: Outcome<Tokens>, userSites: Outcome<seq<ConfigFlow.Site>>, configured: set<string>)
    requires api.renewToken.Ok?
    ensures var renewed := Renew(api, entryData).entryData;
            && CONF_USERNAME !in renewed
            && ConfigFlow.LoginStep(signInData, Some(renewed), None, login, userSites, configured).result
               == Raise(KeyError(CONF_USERNAME))
  {
    RenewalRewritesCredentials(api, entryData);
    ConfigFlow.LoginWithoutInput(signInData, Some(Renew(api, entryData).entryData), login, userSites, configured);
  }

  /** `async_unload_entry`, given whether the sensor platform unloaded: on
      success the entry's record is removed (`pop` raises KeyError when it is
      missing); the platform's answer is returned. */
  method AsyncUnloadEntry(hass: Hass, entry: ConfigEntry, unloadOk: bool) returns (r: Outcome<bool>)
    modifies hass
    ensures !unloadOk ==> r == Ok(false) && hass.data == old(hass.data)
    ensures unloadOk && DOMAIN !in old(hass.data) ==> r == Raise(KeyError(DOMAIN)) && hass.data == old(hass.data)
    ensures unloadOk && DOMAIN in old(hass.data) && entry.entryId !in old(hass.data)[DOMAIN] ==>
              r == Raise(KeyError(entry.entryId)) && hass.data == old(hass.data)
    ensures unloadOk && DOMAIN in old(hass.data) && entry.entryId in old(hass.data)[DOMAIN] ==>
              && r == Ok(true)
              && hass.data == old(hass.data)[DOMAIN := old(hass.data)[DOMAIN] - {entry.entryId}]
  {
    if unloadOk {
      if DOMAIN !in hass.data {
        return Raise(KeyError(DOMAIN));
      }
      if entry.entryId !in hass.data[DOMAIN] {
        return Raise(KeyError(entry.entryId));
      }
      hass.data := hass.data[DOMAIN := hass.data[DOMAIN] - {entry.entryId}];
    }
    return Ok(unloadOk);
  }
}
