# Frank Energie integration: a Dafny model

This project models the core of the Frank Energie custom component for Home Assistant. It covers four parts:

- **Data update coordinator.** It fetches today's electricity and gas prices, falling back to public prices where the user has none. It then fetches the account snapshots (month summary, invoices, user) when signed in, and tomorrow's prices after 13:00 UTC. Every client failure becomes one of three things: stale data, a retryable `UpdateFailed`, or a reauthentication request. An expired token is renewed once.
- **Config flow.** This covers the credential validators, the unique id and title of a new entry, the choice of a delivery site, the first step, login, and the two options flows.
- **Sensor platform setup.** The Enode charger and smart battery description builders produce keys and names. The entity loops keep a description when it needs no sign-in or the user is signed in. Two small value helpers are included.
- **Component.** This covers the unique id migration, first refresh, storing the coordinator, and unloading.

The Python client `python_frank_energie` is not part of this model. Each of its calls is a scripted outcome: the value it returns, or the exception it raises. For the coordinator, the `Client.Api` record fixes these outcomes for one refresh. Every call made is recorded in order in a ghost log (`calls`). Stateful parts are classes whose methods are tied by their `ensures` clauses to specification functions:

- the coordinator and its config entry;
- the config flow with its `sign_in_data`;
- the options handler;
- the host's `hass.data`.

Properties are proved as lemmas about those functions.

Files:

- `wrappers.dfy`: Option, the Python exceptions raised along the modelled paths, and `Outcome` (a value, or an exception).
- `pystr.dfy`: `str.strip`, `str(int)` for naturals, and the injectivity facts about numbered keys that the builders rely on.
- `client.dfy`: client answers, the endpoint call log, and the properties of `PriceData` that the coordinator relies on.
- `entries.dfy`: the config entry and the configuration keys.
- `coordinator.dfy`, `config_flow.dfy`, `sensor_descriptions.dfy`, `sensor.dfy`, `component.dfy`: one per core file. The builders are split from the setup loops.

## Model

| member | source | states |
|---|---|---|
| `Coordinator.FrankEnergieCoordinator.constructor` | custom_components/frank_energie/coordinator.py:53-67 | The coordinator serves the given entry. Its site reference is the entry's `site_reference` or None. No data is stored yet and no call has been made. |
| `Coordinator.HourUtc` | custom_components/frank_energie/coordinator.py:121 | The UTC hour of an instant: the hour whose 3600 seconds contain the instant's time of day, below 24. |
| `Coordinator.FrankEnergieCoordinator.FetchPricesWithFallback` | custom_components/frank_energie/coordinator.py:154-181 | Returns the fallback result for the window and appends exactly the fallback's calls to the call log. Its meaning is given by the four fallback lemmas. |
| `Coordinator.FallbackWhenSignedOut` | custom_components/frank_energie/coordinator.py:157-158 | Signed out, only the public endpoint is called, and its answer, value or exception, is returned unchanged. |
| `Coordinator.FallbackKeepsCompleteUserPrices` | custom_components/frank_energie/coordinator.py:161-166 | Signed in, with user prices for both commodities: those prices are returned unchanged. Only the user endpoint is called. |
| `Coordinator.FallbackPatchesEmptySeries` | custom_components/frank_energie/coordinator.py:168-181 | Signed in, with a commodity missing: the public endpoint is called once, after the user endpoint. Each empty user series is replaced by the public one and each non-empty one is kept. A public failure propagates. |
| `Coordinator.FallbackFillsGaps` | custom_components/frank_energie/coordinator.py:168-181 | A successful fallback never leaves a commodity empty when the public prices for it are non-empty. |
| `Coordinator.FallbackCalls` | custom_components/frank_energie/coordinator.py:157-168 | The fallback makes one or two calls, for its own window only, and never repeats one. The user endpoint is called if and only if signed in. |
| `Coordinator.FrankEnergieCoordinator.TryRenewToken` | custom_components/frank_energie/coordinator.py:183-201 | Makes one renewal call. Success replaces the entry data by the two new tokens. An AuthException becomes ConfigEntryAuthFailed and leaves the data alone. |
| `Coordinator.RenewalRewritesCredentials` | custom_components/frank_energie/coordinator.py:186-201 | After a successful renewal the entry data has exactly the keys `access_token` and `token`, holding the new tokens. A rejected renewal raises ConfigEntryAuthFailed and changes nothing. Any failure changes nothing. |
| `Coordinator.FrankEnergieCoordinator.FetchTodayBlock` | custom_components/frank_energie/coordinator.py:81-93 | Returns today's block as `FetchToday` describes it: prices, then the three snapshots when signed in, stopping at the first exception. Exactly those calls are logged. |
| `Coordinator.TodayCallsAreForToday` | custom_components/frank_energie/coordinator.py:74-93 | Every price call of the today block is for today's window only. The today block never renews the token. |
| `Coordinator.SnapshotsOnlyWhenSignedIn` | custom_components/frank_energie/coordinator.py:85-93 | Each of the month summary, the invoices and the user is requested only when the client is signed in, and all three are requested when it is. On success each is filled in if and only if signed in; otherwise it is None. |
| `Coordinator.FrankEnergieCoordinator.HandleTodayFailure` | custom_components/frank_energie/coordinator.py:96-117 | The `except` clauses of the today block behave as `TodayFailed`, including the entry data and the call log. |
| `Coordinator.FrankEnergieCoordinator.FetchTomorrowBlock` | custom_components/frank_energie/coordinator.py:119-152 | Before 13:00 UTC nothing is fetched. From then on tomorrow's prices are fetched with the fallback, and a failure is handled as `AfterToday` describes. This covers the data, the stored entry data and the call log. |
| `Coordinator.TodayRequestException` | custom_components/frank_energie/coordinator.py:108-111 | A RequestException in the today block becomes ConfigEntryAuthFailed when its message starts with `user-error:`, and UpdateFailed otherwise. No renewal is made and the entry data is unchanged. |
| `Coordinator.TodayUpdateFailed` | custom_components/frank_energie/coordinator.py:96-106 | An UpdateFailed in the today block returns the stored data unchanged when both commodities still have a future price. Otherwise UpdateFailed is raised again. |
| `Coordinator.AuthExceptionRenewsOnce` | custom_components/frank_energie/coordinator.py:113-134 | An AuthException in either block leads to exactly one renewal, as the last call. It ends in UpdateFailed with the renewed tokens stored, or in ConfigEntryAuthFailed with the data unchanged when the renewal is rejected. |
| `Coordinator.TomorrowFetchedIffAfternoon` | custom_components/frank_energie/coordinator.py:119-125 | After a successful today block, tomorrow's prices are requested if and only if the UTC hour is 13 or later. |
| `Coordinator.TodayOnlyBeforeAfternoon` | custom_components/frank_energie/coordinator.py:145-152 | Before 13:00 UTC the result holds exactly today's series and the snapshots. The entry data is unchanged. |
| `Coordinator.TomorrowJoined` | custom_components/frank_energie/coordinator.py:137-144 | With tomorrow's prices present, each commodity is today's series joined with tomorrow's. The snapshots come from today's block. |
| `Coordinator.TomorrowUpdateFailedSwallowed` | custom_components/frank_energie/coordinator.py:126-130 | An UpdateFailed while fetching tomorrow is swallowed. The result is the today-only result. |
| `Coordinator.TomorrowRequestExceptionEscapes` | custom_components/frank_energie/coordinator.py:119-134 | A RequestException while fetching tomorrow is not caught. It reaches the caller unchanged. |
| `Coordinator.TodayFailedContainsAuthException` | custom_components/frank_energie/coordinator.py:96-117 | The handler of the today block never raises AuthException. It changes the entry data only after a successful renewal. |
| `Coordinator.AfterTodayContainsAuthException` | custom_components/frank_energie/coordinator.py:119-152 | The same holds for the tomorrow block. |
| `Coordinator.RefreshContainsAuthException` | custom_components/frank_energie/coordinator.py:69-152 | No refresh ever raises AuthException. The entry data changes only through a successful renewal. |
| `Coordinator.FrankEnergieCoordinator.AsyncUpdateData` | custom_components/frank_energie/coordinator.py:69-152 | The result, the entry data afterwards, and the calls made are those of `UpdateData` for the stored data and the entry data before the call. All the refresh lemmas above are about that function. |
| `Client.JoinOrdered` | custom_components/frank_energie/coordinator.py:139-140 | Joining two ordered series, the second starting after the first, keeps every point and gives an ordered series with no repeated start time. |
| `PyStr.StripEmptyIffBlank` | custom_components/frank_energie/config_flow.py:327-330 | `s.strip() == ""` if and only if every character of `s` is whitespace. |
| `ConfigFlow.CredentialErrors` | custom_components/frank_energie/config_flow.py:327-330 | Reports a field if and only if its text is blank, with that field's own message. No other key is produced. |
| `ConfigFlow.ValidateLoginInput` | custom_components/frank_energie/config_flow.py:324-331 | A missing username, then a missing password, raises KeyError. Otherwise the errors report exactly the blank fields. |
| `ConfigFlow.ValidateUserInput` | custom_components/frank_energie/config_flow.py:168-175 | Same rule as login, with a missing field read as "". A missing field is therefore always reported. |
| `ConfigFlow.EmptyInputYieldsBothErrors` | custom_components/frank_energie/config_flow.py:168-175 | Empty input yields exactly the username and password messages. |
| `ConfigFlow.CreateTitle` | custom_components/frank_energie/config_flow.py:241-246 | The title starts with "street houseNumber". It is exactly that when there is no addition. Otherwise it continues with " addition". |
| `ConfigFlow.EntryUniqueId` | custom_components/frank_energie/config_flow.py:227-232 | Without a site, the unique id is the username, or "frank_energie" when there is none. With a non-empty site it is "{site}_{username}", and a missing username raises KeyError. |
| `ConfigFlow.SiteEntryDistinctFromPlainEntry` | custom_components/frank_energie/config_flow.py:227-232 | A user's entry bound to a site never shares its unique id with the same user's entry without one. |
| `ConfigFlow.SitesOfOneUserDistinct` | custom_components/frank_energie/config_flow.py:227-232 | One user's entries for two different sites get different unique ids. |
| `ConfigFlow.AsyncCreateEntry` | custom_components/frank_energie/config_flow.py:225-238 | Aborts with `already_configured` if and only if the unique id is taken. Otherwise creates an entry with that id and the given data, titled with the username or "Frank Energie". A KeyError from the id propagates. |
| `ConfigFlow.DeliverySites` | custom_components/frank_energie/config_flow.py:93-98 | Keeps exactly the sites whose status is `IN_DELIVERY`. A site without a status is dropped. |
| `ConfigFlow.DeliverySitesDistributes` | custom_components/frank_energie/config_flow.py:93-98 | The filter keeps the original order: filtering a concatenation is concatenating the filtered parts. |
| `ConfigFlow.DeliverySitesKeepsAll` | custom_components/frank_energie/config_flow.py:93-98 | A list whose sites are all in delivery is kept whole. |
| `ConfigFlow.NoneInDelivery` | custom_components/frank_energie/config_flow.py:98 | A list with no site in delivery filters to nothing. |
| `ConfigFlow.NoDeliverySiteFails` | custom_components/frank_energie/config_flow.py:98-101 | Without a site in delivery, the site step raises "No suitable sites found for this account" and leaves the sign-in data alone. |
| `ConfigFlow.SingleSiteChosen` | custom_components/frank_energie/config_flow.py:108-118 | With exactly one site in delivery, the sign-in data gets that site's reference and its address title as the username, and nothing else changes. The entry is created under "{reference}_{title}" unless that id is taken. |
| `ConfigFlow.SingleSiteUserConfigured` | custom_components/frank_energie/config_flow.py:108-113 | With exactly one site in delivery, input whose username already has an entry aborts with `already_configured`, and the sign-in data is kept. |
| `ConfigFlow.SiteListingFailures` | custom_components/frank_energie/config_flow.py:137-148 | An AuthException or ConnectionException while listing sites shows the login form with `invalid_auth` or `connection_error`. Other exceptions propagate. The sign-in data is unchanged. |
| `ConfigFlow.ConfigFlow.constructor` | custom_components/frank_energie/config_flow.py:43-47 | A new flow has empty sign-in data and no entry to reauthenticate. |
| `ConfigFlow.ConfigFlow.AsyncStepSite` | custom_components/frank_energie/config_flow.py:68-148 | The result and the new sign-in data are those of `SiteStep`. A chosen site is stored and the entry created. Otherwise the site list is filtered and the step continues as the lemmas above state. |
| `ConfigFlow.StepUser` | custom_components/frank_energie/config_flow.py:150-166 | No input shows the `user` form. `authentication` true goes to the login form. False creates the public-prices entry with empty data, unique id "frank_energie" and title "Frank Energie", unless that id is taken. |
| `ConfigFlow.ShowLoginForm` | custom_components/frank_energie/config_flow.py:249-266 | The login form with the given errors. It raises KeyError("username") if and only if an entry is being reauthenticated and its data has no username. |
| `ConfigFlow.AuthenticationFailureAsWrittenIsSilent` | custom_components/frank_energie/config_flow.py:300-302 | As written, the failure path is the login step without input: the login form with no errors. With valid credentials that the client rejects, this differs from the intended form reporting `invalid_auth`. |
| `ConfigFlow.AuthenticationFailure` | custom_components/frank_energie/config_flow.py:300-302 | The corrected failure path: the login form with exactly `{base: invalid_auth}`. It raises KeyError exactly when the login form does. |
| `ConfigFlow.LoginValidation` | custom_components/frank_energie/config_flow.py:58-61 | With both fields present, validation reports nothing if and only if neither field is blank. |
| `ConfigFlow.LoginReportsBlankFields` | custom_components/frank_energie/config_flow.py:58-61 | Blank fields are reported on the login form, exactly those fields, before the client is asked. The sign-in data is kept. When the entry being reauthenticated has no username, the form raises KeyError("username") instead. |
| `ConfigFlow.LoginRejected` | custom_components/frank_energie/config_flow.py:63-66 | Credentials the client rejects show the login form with `invalid_auth` (the corrected failure path). When the entry being reauthenticated has no username, they raise KeyError("username") instead. The sign-in data is kept. |
| `ConfigFlow.LoginWithoutInput` | custom_components/frank_energie/config_flow.py:55-56 | Without input the step shows the bare login form and keeps the sign-in data. When the entry being reauthenticated has no username, it raises KeyError("username") instead. |
| `ConfigFlow.LoginAccepted` | custom_components/frank_energie/config_flow.py:277-298 | Accepted credentials make the sign-in data exactly the username and the two tokens. A reauthentication then aborts with `reauth_successful`; a new flow continues with the site step on that data. |
| `ConfigFlow.ConfigFlow.HandleAuthenticationSuccess` | custom_components/frank_energie/config_flow.py:277-298 | The sign-in data becomes the username and the two tokens. A reauthentication writes them to its entry's data, and to nothing else of the entry, then aborts with `reauth_successful`. A new flow's result and data are those of the site step. |
| `ConfigFlow.ConfigFlow.AsyncStepLogin` | custom_components/frank_energie/config_flow.py:49-66 | The result and the new sign-in data are those of `LoginStep`, read with the reauthenticated entry's data. That entry's data becomes the new sign-in data exactly when the step aborts with `reauth_successful`, and is untouched otherwise. No other field of the entry can change. |
| `ConfigFlow.ConfigFlow.AsyncStepReauth` | custom_components/frank_energie/config_flow.py:218-223 | The flow records the entry to reauthenticate and opens the login step without input. That shows the login form, or raises KeyError("username") for an entry whose data has no username. Neither the sign-in data nor the entry changes. |
| `ConfigFlow.FrankEnergieOptionsFlowHandler.constructor` | custom_components/frank_energie/config_flow.py:337-340 | The handler keeps its entry and starts from a copy of the entry's options. |
| `ConfigFlow.FrankEnergieOptionsFlowHandler.AsyncStepInit` | custom_components/frank_energie/config_flow.py:342-345 | The init step is the `user` step without input: the form, with the options unchanged. |
| `ConfigFlow.FrankEnergieOptionsFlowHandler.AsyncStepUser` | custom_components/frank_energie/config_flow.py:347-381 | Input is merged into the options, later keys winning. The merged options become the created entry's data, titled with the entry's username or "Frank Energie". Without input, the form is shown and nothing changes. |
| `ConfigFlow.NoOptionsStepInit` | custom_components/frank_energie/config_flow.py:387-397 | Any input closes the flow with an empty entry. Otherwise the `init` form says there is nothing to set. |
| `ConfigFlow.AsyncGetOptionsFlow` | custom_components/frank_energie/config_flow.py:313-320 | The real options handler, fresh and seeded with the entry's options, if and only if the entry data has a site. Otherwise the no-options handler. |
| `SensorDescriptions.EnodeGroup` | custom_components/frank_energie/sensor.py:2301-2581 | Each charger gets 17 descriptions. Description j of charger i has key prefix j followed by i+1, and name "Charger {i+1}" followed by suffix j. |
| `SensorDescriptions.EnodeKeyPrefixesWellFormed` | custom_components/frank_energie/sensor.py:2303-2567 | There are 17 key prefixes, pairwise distinct, each ending in `_`. |
| `SensorDescriptions.EnodeNameSuffixesWellFormed` | custom_components/frank_energie/sensor.py:2304-2568 | There are 17 name suffixes, pairwise distinct, each starting with a space. |
| `SensorDescriptions.EnodeKeyInjective` | custom_components/frank_energie/sensor.py:2303-2567 | Two Enode descriptions share a key only when they are the same description of the same charger. |
| `SensorDescriptions.EnodeNameInjective` | custom_components/frank_energie/sensor.py:2304-2568 | Two Enode descriptions share a name only when they are the same description of the same charger. |
| `SensorDescriptions.EnodeLayoutDistinct` | custom_components/frank_energie/sensor.py:2300-2581 | In output laid out charger by charger, no key and no name occurs twice. |
| `SensorDescriptions.BuildDynamicEnodeSensorDescriptions` | custom_components/frank_energie/sensor.py:2289-2583 | A non-list gives nothing. A list gives exactly 17 descriptions per charger in charger order, numbered from 1, whatever `index` is. All keys and names are pairwise distinct. |
| `SensorDescriptions.BatteryGroup` | custom_components/frank_energie/sensor.py:2674-2749 | Each battery gets 8 descriptions. The keys are "smart_battery_{i}" plus a suffix; the names are "Battery {i+1}" plus a suffix. |
| `SensorDescriptions.BatteryTablesWellFormed` | custom_components/frank_energie/sensor.py:2678-2749 | The 8 key suffixes are pairwise distinct and start with `_`. The name suffixes start with a space. |
| `SensorDescriptions.BatteryKeyInjective` | custom_components/frank_energie/sensor.py:2674-2749 | Two battery descriptions share a key only when they are the same description of the battery at the same position. |
| `SensorDescriptions.BatteryDescriptionsCount` | custom_components/frank_energie/sensor.py:2669-2749 | Each battery with an id contributes exactly 8 descriptions. |
| `SensorDescriptions.BatteryDescriptionsMembers` | custom_components/frank_energie/sensor.py:2669-2676 | A battery's descriptions are built if and only if it has an id. Keys and names use its original position, so a skipped battery still uses up an index. |
| `SensorDescriptions.BatteryDescriptionsBelow` | custom_components/frank_energie/sensor.py:2669-2676 | No description is numbered at or past the end of the list. |
| `SensorDescriptions.BuildDynamicSmartBatteriesDescriptions` | custom_components/frank_energie/sensor.py:2640-2751 | A falsy argument gives nothing. A truthy argument without a length raises TypeError, because `len` is taken for the log before the type check. Any other non-list gives nothing. A list gives the groups of its batteries with an id, in list order. |
| `Sensor.EntitiesMembers` | custom_components/frank_energie/sensor.py:2802-2806 | A description becomes an entity if and only if it is a candidate that needs no sign-in, or the client is signed in. |
| `Sensor.EntitiesWhenSignedIn` | custom_components/frank_energie/sensor.py:2802-2806 | Signed in, every candidate becomes an entity, in order. |
| `Sensor.EntitiesDistributes` | custom_components/frank_energie/sensor.py:2802-2867 | Filtering the table and the loops one after another is filtering their concatenation. |
| `Sensor.EnodeLayoutOf` | custom_components/frank_energie/sensor.py:2817 | The dynamic list setup adds for each charger is the builder's charger-by-charger layout for all chargers. |
| `Sensor.EnodeCandidateCount` | custom_components/frank_energie/sensor.py:2812-2821 | With n chargers, setup goes through n·(1+17n) descriptions before filtering. |
| `Sensor.EnodeCandidatesRepeatKeys` | custom_components/frank_energie/sensor.py:2814-2821 | With two chargers or more, the same key ("enode_total_chargers" first) is offered again: the candidate list is repeated once per charger. |
| `Sensor.AddEntities` | custom_components/frank_energie/sensor.py:2819-2821 | One loop appends exactly the descriptions of its list that pass the filter, in order. |
| `Sensor.AddEnodeEntities` | custom_components/frank_energie/sensor.py:2812-2821 | The charger loop appends the filtered static list plus the whole dynamic list once per charger. |
| `Sensor.AddBatteryEntities` | custom_components/frank_energie/sensor.py:2842-2868 | With a battery that has no `id`, the loop raises AttributeError. Otherwise it appends the filtered static list plus the dynamic list once per battery. |
| `Sensor.AddPerBattery` | custom_components/frank_energie/sensor.py:2850-2868 | The loop over the batteries appends the filtered descriptions once per battery. It raises AttributeError at the first battery without an `id`. |
| `Sensor.SetupEntities` | custom_components/frank_energie/sensor.py:2802-2867 | The entities are the filtered candidates: the sensor table, then the charger loop, then the battery loop. A battery without `id` makes setup raise AttributeError. |
| `Sensor.ValidateDatetime` | custom_components/frank_energie/sensor.py:2613-2626 | Succeeds if and only if the value is a timezone-aware datetime, and then returns it unchanged. Otherwise it raises ValueError naming the field and the type, or naming the missing timezone. |
| `Sensor.ValidateDatetimeIdempotent` | custom_components/frank_energie/sensor.py:2609-2626 | A value that passed validation passes again under any field name, unchanged. |
| `Sensor.FormatUserName` | custom_components/frank_energie/sensor.py:260-277 | A `user` of None raises AttributeError, and a `person` of None raises TypeError; neither is caught. A person with both names gives "first last". Anything missing gives None. |
| `Component.MigratedUniqueId` | custom_components/frank_energie/__init__.py:73-76 | A missing or legacy ("frank_energie_component") unique id becomes "frank_energie". Any other id is kept. |
| `Component.MigrationIdempotent` | custom_components/frank_energie/__init__.py:73-76 | Migrating twice is migrating once. |
| `Component.MigrationResult` | custom_components/frank_energie/__init__.py:75-76 | The migration yields "frank_energie" if and only if the id was missing, legacy, or already "frank_energie". |
| `Component.MigrationKeepsFlowIds` | custom_components/frank_energie/__init__.py:73-76 | An id the config flow gives, other than the legacy one, survives the migration. The public-prices entry already has the migrated id. |
| `Component.SaveCoordinatorToHassData` | custom_components/frank_energie/__init__.py:90-95 | Creates the domain map when absent and sets the entry's record, replacing any earlier one. Other entries and other domains are unchanged. |
| `Component.FirstRefresh` | custom_components/frank_energie/__init__.py:65-67 | The host's first refresh passes a result through. It keeps ConfigEntryAuthFailed, and turns every other exception into ConfigEntryNotReady. |
| `Component.Setup` | custom_components/frank_energie/__init__.py:51-63 | The unique id is migrated first. Then a coordinator for the entry is refreshed once. Only if that returns is the data given to the coordinator, the coordinator stored, and True returned; the other entries' records and the other domains of `hass.data` are unchanged. On an exception `hass.data` is unchanged. |
| `Component.ReauthAfterRenewalRaises` | custom_components/frank_energie/coordinator.py:189-194 | A successful renewal leaves the entry data without a username. The login step that a later reauthentication of that entry opens then raises KeyError("username") instead of showing the form. |
| `Component.AsyncUnloadEntry` | custom_components/frank_energie/__init__.py:35-40 | Returns the platforms' unload result. The entry's record is removed only when unloading succeeded. Removing a missing record raises KeyError. Otherwise nothing changes. |

## Findings

| source | as written | input that shows it | evidently intended | confidence | as-written member | corrected member |
|---|---|---|---|---|---|---|
| custom_components/frank_energie/config_flow.py:300-302 | `_handle_authentication_failure` calls `async_step_login(errors={"base": "invalid_auth"})`, but that step ignores its `errors` argument. Without user input it shows a login form with no errors (lines 55-56). | Submit the login form with non-blank credentials that the API rejects with AuthException. | The login form is shown again with `{"base": "invalid_auth"}`. | not executed | `ConfigFlow.AuthenticationFailureAsWritten` (the login step without input), `ConfigFlow.AuthenticationFailureAsWrittenIsSilent` | `ConfigFlow.AuthenticationFailure` (used by `ConfigFlow.LoginStep`) |

## Left out

- The `python_frank_energie` client is not part of this model. Each call is a scripted outcome, and its models are reduced to what the core reads.
  - `PriceData.__add__` is taken to be concatenation. `Client.JoinOrdered` states what this needs of the series.
  - `get_future_prices()` being non-empty is taken as "some price starts at or after now".
- The current time (`datetime.utcnow()`, read at lines 74 and 121 of the coordinator) is one instant `now` given in seconds. The two reads are taken to fall on the same day and hour.
- Two source defects are modelled as their intended behaviour:
  - The stale-data check at coordinator.py:99 reads `self.coordinator.data`, an attribute the coordinator does not have. It is modelled as the data the coordinator stored after its last refresh (`data`). When nothing is stored yet, the model re-raises UpdateFailed (`StillUseful` is false for None); read literally, indexing None would raise TypeError instead. The host fails the refresh either way.
  - The rejected-login path (config_flow.py:63-66, 300-302) is modelled as intended, as the "## Findings" row states.
- `ConfigFlow.LoginStep` and `ConfigFlow.ConfigFlow.AsyncStepLogin`: credentials the client rejects show the login form with `invalid_auth` (`ConfigFlow.AuthenticationFailure`). As written, the form has no errors (`ConfigFlow.AuthenticationFailureAsWritten`).
- `async_update_entry` is modelled as an assignment to `ConfigEntry.data`. The host's listeners and its write to storage are not modelled.
- The `try` around tomorrow's prices (coordinator.py:119-134) swallows only UpdateFailed. An AuthException is renewed and re-raised, and any other exception escapes (`Coordinator.TomorrowRequestExceptionEscapes`).
- `run_hourly`, `hourly_refresh` and `start_coordinator` are left out. They are scheduling loops with sleeps, and the last one calls the coordinator constructor with the wrong arguments. The host's update interval is left out too.
- The multi-site branch of `async_step_site` (config_flow.py:120-135) reads an undefined name `me`. It is modelled as written: the step raises NameError. The site-selection form it was meant to build is not modelled.
- `async_step_reconfigure`, `async_step_reauth`, `async_handle_auth_failure` and `_show_login_form` are modelled only in part:
  - For reconfiguration, only its validator `_validate_user_input` is modelled. The context lookup, the entry update and the form are not.
  - `async_handle_auth_failure` is left out: it only asks the host to start a reauthentication.
  - `ConfigFlow.ConfigFlow.AsyncStepReauth` is given the entry the host looks up from the flow's context. A context without an entry id, or an entry the host cannot find, is not modelled. The reload task a successful reauthentication schedules is not modelled either.
  - Forms are reduced to their step id and their errors. Schemas, defaults and selectors are not modelled. The one default that can fail, the reauthenticated entry's username in `_show_login_form`, is modelled by `ConfigFlow.ShowLoginForm`.
- `_authenticate` is the client's `login` outcome given to the login step. Its AuthException is the rejected-credentials path.
- The `SENSOR_TYPES` table and every value and attribute lambda are left out. The table is the `sensorTypes` parameter of `Sensor.SetupEntities`, and descriptions keep only key, name, `authenticated` and service. These are projections over client models the model does not have, several of them over floats.
- The battery session coordinator and its session sensors (sensor.py:2763-2795, 2870-2888) are left out, as is the catch around `async_add_entities`. The entity classes and the host's handling of repeated unique ids are left out too.
- `Sensor.SetupEntities`: the debug log of each battery reads ten attributes. The model only tracks `id` (sensor.py:2854), so it assumes the other nine are present. A battery missing `brand` would raise AttributeError naming `brand` instead.
- `SERVICE_NAME_ENODE_CHARGERS` and `DATA_ENODE_CHARGERS` are not defined in `const.py`. The model takes them to exist, giving the Enode service a name of its own.
- `SmartBatteriesData`, `_SmartBattery.__init__` and `get_smart_batteries` are left out; only `_validate_datetime` is modelled. The datetime itself is an instant plus whether it carries a timezone.
- In `__init__.py`, the following are not modelled:
  - `_create_frank_energie_api`: the client is the `api` parameter of `Component.Setup`;
  - `async_forward_entry_setups`;
  - `async_setup_platform` and `FrankEnergieDiagnosticSensor`, which are diagnostic glue;
  - `_remove_entry_from_hass_data`: it is never called, and it is the same `pop` as `Component.AsyncUnloadEntry`.
- `Component.FirstRefresh` states the Home Assistant `async_config_entry_first_refresh` behaviour that the component relies on. That code is not part of this model.
