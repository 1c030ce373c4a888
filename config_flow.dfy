/** The configuration flow of the integration: the credential validators,
    the entry's unique id and title, the choice of a delivery site, the first
    step of the flow, and the two options flows. Forms are reduced to their
    step id and their error dictionary; schemas are not modelled. */
module ConfigFlow {
  import opened Wrappers
  import opened PyStr
  import opened Client
  import opened Entries

  const COMPONENT_TITLE := "Frank Energie"
  const IN_DELIVERY := "IN_DELIVERY"
  const USERNAME_REQUIRED := "Username is required."
  const PASSWORD_REQUIRED := "Password is required."
  const BASE := "base"
  const INVALID_AUTH := "invalid_auth"
  const CONNECTION_ERROR := "connection_error"
  const ALREADY_CONFIGURED := "already_configured"
  const REAUTH_SUCCESSFUL := "reauth_successful"
  const NO_SUITABLE_SITES := "No suitable sites found for this account"
  const NO_LOGIN_NEEDED := "You do not have to login for this entry."

  /** A form's error dictionary: field (or "base") to message. */
  type Errors = map<string, string>

  /** What a flow step hands back to the host. */
  datatype FlowResult =
    | CreateEntry(uniqueId: Option<string>, title: string, data: map<string, string>)
    | Abort(reason: string)
    | ShowForm(stepId: string, errors: Errors)

  // Credential validation

  /** `e` reports exactly the blank fields among `username` and `password`,
      each with its own message, and nothing else. */
  predicate ReportsBlankFields(e: Errors, username: string, password: string) {
    && e.Keys <= {CONF_USERNAME, CONF_PASSWORD}
    && (CONF_USERNAME in e <==> Blank(username))
    && (CONF_PASSWORD in e <==> Blank(password))
    && (CONF_USERNAME in e ==> e[CONF_USERNAME] == USERNAME_REQUIRED)
    && (CONF_PASSWORD in e ==> e[CONF_PASSWORD] == PASSWORD_REQUIRED)
  }

  /** The two checks both validators make: a field whose stripped text is
      empty is reported. */
  function CredentialErrors(username: string, password: string): (e: Errors)
    ensures ReportsBlankFields(e, username, password)
  {
    StripEmptyIffBlank(username);
    StripEmptyIffBlank(password);
    var withUsername: Errors := if Strip(username) == "" then map[CONF_USERNAME := USERNAME_REQUIRED] else map[];
    if Strip(password) == "" then withUsername[CONF_PASSWORD := PASSWORD_REQUIRED] else withUsername
  }

  /** `ConfigFlow._validate_login_input`: both fields are read by indexing,
      so a missing one raises KeyError (the username is read first). */
  function ValidateLoginInput(input: map<string, string>): (r: Outcome<Errors>)
    ensures CONF_USERNAME !in input ==> r == Raise(KeyError(CONF_USERNAME))
    ensures CONF_USERNAME in input && CONF_PASSWORD !in input ==> r == Raise(KeyError(CONF_PASSWORD))
    ensures CONF_USERNAME in input && CONF_PASSWORD in input ==>
              r.Ok? && ReportsBlankFields(r.value, input[CONF_USERNAME], input[CONF_PASSWORD])
  {
    if CONF_USERNAME !in input then Raise(KeyError(CONF_USERNAME))
    else if CONF_PASSWORD !in input then Raise(KeyError(CONF_PASSWORD))
    else Ok(CredentialErrors(input[CONF_USERNAME], input[CONF_PASSWORD]))
  }

  /** `ConfigFlow._validate_user_input`: like the login validator, but a
      missing field reads as "". */
  function ValidateUserInput(input: map<string, string>): (e: Errors)
    ensures ReportsBlankFields(e, GetOr(input, CONF_USERNAME, ""), GetOr(input, CONF_PASSWORD, ""))
    ensures CONF_USERNAME !in input ==> CONF_USERNAME in e
    ensures CONF_PASSWORD !in input ==> CONF_PASSWORD in e
  {
    CredentialErrors(GetOr(input, CONF_USERNAME, ""), GetOr(input, CONF_PASSWORD, ""))
  }

  /** An empty form yields both messages and nothing else. */
  lemma EmptyInputYieldsBothErrors()
    ensures ValidateUserInput(map[]) == map[CONF_USERNAME := USERNAME_REQUIRED, CONF_PASSWORD := PASSWORD_REQUIRED]
  {
    var e := ValidateUserInput(map[]);
    assert e.Keys == {CONF_USERNAME, CONF_PASSWORD};
  }

  // Titles and unique ids

  /** The address of a delivery site. */
  datatype Address = Address(street: string, houseNumber: string, houseNumberAddition: Option<string>)

  /** `ConfigFlow.create_title`: "street houseNumber", followed by
      " addition" exactly when the address has an addition. */
  function CreateTitle(a: Address): (title: string)
    ensures var base := a.street + " " + a.houseNumber;
            && base <= title
            && (a.houseNumberAddition.None? <==> title == base)
            && (a.houseNumberAddition.Some? ==> title[|base|..] == " " + a.houseNumberAddition.value)
  {
    var title := a.street + " " + a.houseNumber;
    if a.houseNumberAddition.Some? then title + " " + a.houseNumberAddition.value else title
  }

  /** `data.get(CONF_SITE, None)` is truthy: a site is stored and is not "". */
  predicate HasSite(data: map<string, string>) {
    CONF_SITE in data && data[CONF_SITE] != ""
  }

  /** The unique id `_async_create_entry` gives an entry: the username, or
      "frank_energie" without one; "{site}_{username}" when a site is stored,
      where a missing username raises KeyError. */
  function EntryUniqueId(data: map<string, string>): (r: Outcome<string>)
    ensures !HasSite(data) && CONF_USERNAME in data ==> r == Ok(data[CONF_USERNAME])
    ensures !HasSite(data) && CONF_USERNAME !in data ==> r == Ok(DOMAIN)
    ensures HasSite(data) && CONF_USERNAME !in data ==> r == Raise(KeyError(CONF_USERNAME))
    ensures HasSite(data) && CONF_USERNAME in data ==>
              r.Ok? && data[CONF_SITE] + "_" <= r.value && r.value[|data[CONF_SITE]| + 1..] == data[CONF_USERNAME]
  {
    var uniqueId := GetOr(data, CONF_USERNAME, DOMAIN);
    if HasSite(data) then
      if CONF_USERNAME in data then Ok(data[CONF_SITE] + "_" + data[CONF_USERNAME]) else Raise(KeyError(CONF_USERNAME))
    else Ok(uniqueId)
  }

  /** An entry bound to a site never takes the unique id of the same user's
      entry without a site. */
  lemma SiteEntryDistinctFromPlainEntry(withSite: map<string, string>, plain: map<string, string>)
    requires HasSite(withSite) && !HasSite(plain)
    requires CONF_USERNAME in withSite && CONF_USERNAME in plain
    requires withSite[CONF_USERNAME] == plain[CONF_USERNAME]
    ensures EntryUniqueId(withSite) != EntryUniqueId(plain)
  {
    assert |EntryUniqueId(withSite).value| > |EntryUniqueId(plain).value|;
  }

  /** Two entries of one user for different sites get different unique ids. */
  lemma SitesOfOneUserDistinct(d1: map<string, string>, d2: map<string, string>)
    requires HasSite(d1) && HasSite(d2)
    requires CONF_USERNAME in d1 && CONF_USERNAME in d2
    requires d1[CONF_USERNAME] == d2[CONF_USERNAME]
    requires d1[CONF_SITE] != d2[CONF_SITE]
    ensures EntryUniqueId(d1) != EntryUniqueId(d2)
  {
    var s1, s2, u := d1[CONF_SITE], d2[CONF_SITE], d1[CONF_USERNAME];
    var id1, id2 := EntryUniqueId(d1).value, EntryUniqueId(d2).value;
    assert id1 == s1 + "_" + u && id2 == s2 + "_" + u;
    if |s1| == |s2| {
      var k :| 0 <= k < |s1| && s1[k] != s2[k];
      assert id1[k] == s1[k] && id2[k] == s2[k];
    }
  }

  /** The title `_async_create_entry` gives an entry: the username, or "Frank Energie". */
  function EntryTitle(data: map<string, string>): (r: string) {
    GetOr(data, CONF_USERNAME, COMPONENT_TITLE)
  }

  /** `ConfigFlow._async_create_entry`: sets the flow's unique id, aborts when
      an entry with that id is configured already, and creates the entry
      otherwise. `configured` holds the unique ids of the existing entries. */
  function AsyncCreateEntry(data: map<string, string>, configured: set<string>): (r: Outcome<FlowResult>)
    ensures EntryUniqueId(data).Raise? ==> r == Raise(EntryUniqueId(data).error)
    ensures r == Ok(Abort(ALREADY_CONFIGURED)) <==> EntryUniqueId(data).Ok? && EntryUniqueId(data).value in configured
    ensures r.Ok? && r.value.CreateEntry? ==>
              && r.value.uniqueId == Some(EntryUniqueId(data).value)
              && r.value.uniqueId.value !in configured
              && r.value.title == (if CONF_USERNAME in data then data[CONF_USERNAME] else COMPONENT_TITLE)
              && r.value.data == data
    ensures r.Ok? ==> r.value.CreateEntry? || r.value.Abort?
  {
    match EntryUniqueId(data)
    case Raise(e) => Raise(e)
    case Ok(uniqueId) =>
      if uniqueId in configured then Ok(Abort(ALREADY_CONFIGURED))
      else Ok(CreateEntry(Some(uniqueId), EntryTitle(data), data))
  }

  // Sites

  /** A delivery site of the account; `status` is None when the site has no
      `status` attribute. */
  datatype Site = Site(reference: string, status: Option<string>, address: Address)

  predicate InDelivery(site: Site) {
    site.status == Some(IN_DELIVERY)
  }

  /** The two comprehensions of `async_step_site`: the sites that have a
      status, and of those the ones in delivery. */
  function DeliverySites(sites: seq<Site>): (r: seq<Site>)
    ensures |r| <= |sites|
    ensures forall s :: s in r <==> s in sites && InDelivery(s)
  {
    if sites == [] then []
    else (if InDelivery(sites[0]) then [sites[0]] else []) + DeliverySites(sites[1..])
  }

  /** The filter keeps the original order: filtering a concatenation is
      concatenating the filtered parts. */
  lemma {:induction false} DeliverySitesDistributes(a: seq<Site>, b: seq<Site>)
    ensures DeliverySites(a + b) == DeliverySites(a) + DeliverySites(b)
  {
    if a == [] {
      assert a + b == b;
    } else {
      assert (a + b)[1..] == a[1..] + b;
      DeliverySitesDistributes(a[1..], b);
    }
  }

  /** A list of sites that are all in delivery is kept whole. */
  lemma {:induction false} DeliverySitesKeepsAll(sites: seq<Site>)
    requires forall i :: 0 <= i < |sites| ==> InDelivery(sites[i])
    ensures DeliverySites(sites) == sites
  {
    if sites != [] {
      DeliverySitesKeepsAll(sites[1..]);
    }
  }

  /** A list without a site in delivery filters to nothing. */
  lemma {:induction false} NoneInDelivery(sites: seq<Site>)
    requires forall i :: 0 <= i < |sites| ==> !InDelivery(sites[i])
    ensures DeliverySites(sites) == []
  {
    if sites != [] {
      NoneInDelivery(sites[1..]);
    }
  }

  /** The login form `_show_login_form` shows. */
  function LoginForm(errors: Errors): (r: FlowResult) {
    ShowForm("login", errors)
  }

  /** The state a step leaves behind: its result, and `self.sign_in_data` afterwards. */
  datatype Step = Step(result: Outcome<FlowResult>, signInData: map<string, string>)

  /** `ConfigFlow.async_step_site`, given the flow's `sign_in_data`, the
      user input, what the client's `UserSites` call returns, and the unique
      ids already configured. */
  function SiteStep(signInData: map<string, string>, userInput: Option<map<string, string>>,
                    userSites: Outcome<seq<Site>>, configured: set<string>): (r: Step)
  {
    if userInput.Some? && CONF_SITE in userInput.value then
      var data := signInData[CONF_SITE := userInput.value[CONF_SITE]];
      Step(AsyncCreateEntry(data, configured), data)
    else
      match userSites
      case Raise(AuthException) => Step(Ok(LoginForm(map[BASE := INVALID_AUTH])), signInData)
      case Raise(ConnectionException) => Step(Ok(LoginForm(map[BASE := CONNECTION_ERROR])), signInData)
      case Raise(e) => Step(Raise(e), signInData)
      case Ok(sites) =>
        var inDelivery := DeliverySites(sites);
        if |inDelivery| == 0 then Step(Raise(GenericException(NO_SUITABLE_SITES)), signInData)
        else if |inDelivery| == 1 then
          if userInput.None? then
            // `CONF_USERNAME in None`
            Step(Raise(TypeError), signInData)
          else if CONF_USERNAME in userInput.value && userInput.value[CONF_USERNAME] in configured then
            Step(Ok(Abort(ALREADY_CONFIGURED)), signInData)
          else
            var first := inDelivery[0];
            var data := signInData[CONF_SITE := first.reference][CONF_USERNAME := CreateTitle(first.address)];
            Step(AsyncCreateEntry(data, configured), data)
        else
          // the site options are built from an undefined name `me`
          Step(Raise(NameError("me")), signInData)
  }

  /** An account without a site in delivery ends the step with an exception
      and leaves the sign-in data alone. */
  lemma NoDeliverySiteFails(signInData: map<string, string>, userInput: Option<map<string, string>>,
                            sites: seq<Site>, configured: set<string>)
    requires userInput.None? || CONF_SITE !in userInput.value
    requires forall i :: 0 <= i < |sites| ==> !InDelivery(sites[i])
    ensures SiteStep(signInData, userInput, Ok(sites), configured) == Step(Raise(GenericException(NO_SUITABLE_SITES)), signInData)
  {
    NoneInDelivery(sites);
  }

  /** With exactly one site in delivery, the sign-in data gets that site's
      reference and its address as the username, and nothing else changes;
      the entry created is bound to that site and titled with its address. */
  lemma SingleSiteChosen(signInData: map<string, string>, input: map<string, string>,
                         sites: seq<Site>, configured: set<string>, site: Site)
    requires CONF_SITE !in input
    requires DeliverySites(sites) == [site]
    requires CONF_USERNAME !in input || input[CONF_USERNAME] !in configured
    ensures var s := SiteStep(signInData, Some(input), Ok(sites), configured);
            && site in sites && InDelivery(site)
            && s.signInData[CONF_SITE] == site.reference
            && s.signInData[CONF_USERNAME] == CreateTitle(site.address)
            && (forall k :: k != CONF_SITE && k != CONF_USERNAME ==>
                  (k in s.signInData <==> k in signInData) && (k in signInData ==> s.signInData[k] == signInData[k]))
            && (site.reference != "" ==>
                  var uniqueId := site.reference + "_" + CreateTitle(site.address);
                  s.result == if uniqueId in configured then Ok(Abort(ALREADY_CONFIGURED))
                              else Ok(CreateEntry(Some(uniqueId), CreateTitle(site.address), s.signInData)))
  {
    assert site in DeliverySites(sites);
  }

  /** With exactly one site in delivery, input naming a username that
      already has an entry aborts the flow, and the sign-in data is kept. */
  lemma SingleSiteUserConfigured(signInData: map<string, string>, input: map<string, string>,
                                 sites: seq<Site>, configured: set<string>, site: Site)
    requires CONF_SITE !in input
    requires DeliverySites(sites) == [site]
    requires CONF_USERNAME in input && input[CONF_USERNAME] in configured
    ensures SiteStep(signInData, Some(input), Ok(sites), configured) == Step(Ok(Abort(ALREADY_CONFIGURED)), signInData)
  {
  }

  /** Client failures while listing the sites send the user back to the
      login form, with an error naming the kind of failure. */
  lemma SiteListingFailures(signInData: map<string, string>, userInput: Option<map<string, string>>,
                            e: Error, configured: set<string>)
    requires userInput.None? || CONF_SITE !in userInput.value
    ensures var s := SiteStep(signInData, userInput, Raise(e), configured);
            && s.signInData == signInData
            && (e == AuthException ==> s.result == Ok(ShowForm("login", map[BASE := INVALID_AUTH])))
            && (e == ConnectionException ==> s.result == Ok(ShowForm("login", map[BASE := CONNECTION_ERROR])))
            && (e != AuthException && e != ConnectionException ==> s.result == Raise(e))
  {
  }

  // The first step, and login

  /** `ConfigFlow.async_step_user`: no input shows the form; otherwise the
      `authentication` choice leads to the login form or to an entry for
      public prices with empty data. */
  function StepUser(userInput: Option<map<string, bool>>, configured: set<string>): (r: Outcome<FlowResult>)
    ensures userInput.None? || userInput.value == map[] ==> r == Ok(ShowForm("user", map[]))
    ensures userInput.Some? && userInput.value != map[] && CONF_AUTHENTICATION !in userInput.value ==>
              r == Raise(KeyError(CONF_AUTHENTICATION))
    ensures userInput.Some? && CONF_AUTHENTICATION in userInput.value ==>
              if userInput.value[CONF_AUTHENTICATION] then r == Ok(ShowForm("login", map[]))
              else r == (if DOMAIN in configured then Ok(Abort(ALREADY_CONFIGURED))
                         else Ok(CreateEntry(Some(DOMAIN), COMPONENT_TITLE, map[])))
  {
    if userInput.None? || userInput.value == map[] then Ok(ShowForm("user", map[]))
    else if CONF_AUTHENTICATION !in userInput.value then Raise(KeyError(CONF_AUTHENTICATION))
    else if userInput.value[CONF_AUTHENTICATION] then Ok(LoginForm(map[]))
    else AsyncCreateEntry(map[], configured)
  }

  /** `ConfigFlow._show_login_form`, given the data of the entry being
      reauthenticated, if any: the username shown as the default is read from
      that data by indexing, so an entry without a username raises KeyError
      instead of showing the form. */
  function ShowLoginForm(reauthData: Option<map<string, string>>, errors: Errors): (r: Outcome<FlowResult>)
    ensures r.Raise? <==> reauthData.Some? && CONF_USERNAME !in reauthData.value
    ensures r.Raise? ==> r.error == KeyError(CONF_USERNAME)
    ensures r.Ok? ==> r.value.ShowForm? && r.value.stepId == "login" && r.value.errors == errors
  {
    if reauthData.Some? && CONF_USERNAME !in reauthData.value then Raise(KeyError(CONF_USERNAME))
    else Ok(LoginForm(errors))
  }

  /** `_handle_authentication_failure` as intended: the login form again,
      reporting "invalid_auth" (and, like every login form, raising KeyError
      for a reauthenticated entry without a username). */
  function AuthenticationFailure(reauthData: Option<map<string, string>>): (r: Outcome<FlowResult>)
    ensures r.Ok? <==> reauthData.None? || CONF_USERNAME in reauthData.value
    ensures r.Ok? ==> r.value.ShowForm? && r.value.stepId == "login"
                      && r.value.errors.Keys == {BASE} && r.value.errors[BASE] == INVALID_AUTH
  {
    ShowLoginForm(reauthData, map[BASE := INVALID_AUTH])
  }

  /** `ConfigFlow.async_step_login`, given the data of the entry being
      reauthenticated (None for a new flow) and the answer of the client's
      `login` call. Returns the step and the sign-in data afterwards, which a
      reauthentication also writes to its entry. A rejected login follows the
      intended failure path, `AuthenticationFailure`. */
  function LoginStep(signInData: map<string, string>, reauthData: Option<map<string, string>>,
                     userInput: Option<map<string, string>>, login: Outcome<Tokens>,
                     userSites: Outcome<seq<Site>>, configured: set<string>): (r: Step)
  {
    if userInput.None? || userInput.value == map[] then Step(ShowLoginForm(reauthData, map[]), signInData)
    else
      match ValidateLoginInput(userInput.value)
      case Raise(e) => Step(Raise(e), signInData)
      case Ok(errors) =>
        if errors != map[] then Step(ShowLoginForm(reauthData, errors), signInData)
        else
          match login
          case Raise(AuthException) => Step(AuthenticationFailure(reauthData), signInData)
          case Raise(e) => Step(Raise(e), signInData)
          case Ok(tokens) =>
            var data := map[CONF_USERNAME := userInput.value[CONF_USERNAME],
                            CONF_ACCESS_TOKEN := tokens.authToken, CONF_TOKEN := tokens.refreshToken];
            if reauthData.Some? then Step(Ok(Abort(REAUTH_SUCCESSFUL)), data)
            else SiteStep(data, Some(data), userSites, configured)
  }

  /** `_handle_authentication_failure` as written: it calls
      `async_step_login` without user input (the "invalid_auth" it passes
      as `errors` is never read), so it is the login step's no-input path. */
  function AuthenticationFailureAsWritten(signInData: map<string, string>, reauthData: Option<map<string, string>>): (r: Step) {
    LoginStep(signInData, reauthData, None, Raise(AuthException), Ok([]), {})
  }

  /** With both fields present, validation succeeds, and reports nothing
      exactly when neither field is blank. */
  lemma LoginValidation(input: map<string, string>)
    requires CONF_USERNAME in input && CONF_PASSWORD in input
    ensures ValidateLoginInput(input).Ok?
    ensures ValidateLoginInput(input).value == map[] <==> !Blank(input[CONF_USERNAME]) && !Blank(input[CONF_PASSWORD])
  {
    var errors := ValidateLoginInput(input).value;
    if Blank(input[CONF_USERNAME]) {
      assert CONF_USERNAME in errors;
    } else if Blank(input[CONF_PASSWORD]) {
      assert CONF_PASSWORD in errors;
    } else {
      assert errors.Keys == {};
    }
  }

  /** As written, a rejected login shows a login form that reports nothing,
      where the intended path reports "invalid_auth". */
  lemma AuthenticationFailureAsWrittenIsSilent(signInData: map<string, string>, reauthData: Option<map<string, string>>,
                                               input: map<string, string>, userSites: Outcome<seq<Site>>,
                                               configured: set<string>)
    requires CONF_USERNAME in input && CONF_PASSWORD in input
    requires !Blank(input[CONF_USERNAME]) && !Blank(input[CONF_PASSWORD])
    requires reauthData.None? || CONF_USERNAME in reauthData.value
    ensures AuthenticationFailureAsWritten(signInData, reauthData) == Step(Ok(ShowForm("login", map[])), signInData)
    ensures LoginStep(signInData, reauthData, Some(input), Raise(AuthException), userSites, configured)
            == Step(Ok(ShowForm("login", map[BASE := INVALID_AUTH])), signInData)
    ensures AuthenticationFailureAsWritten(signInData, reauthData).result
            != LoginStep(signInData, reauthData, Some(input), Raise(AuthException), userSites, configured).result
  {
    LoginValidation(input);
    assert BASE in map[BASE := INVALID_AUTH];
  }

  /** Blank fields are reported on the login form before the client is
      asked, and the sign-in data is kept; in a reauthentication of an entry
      without a username the form raises KeyError instead. */
  lemma LoginReportsBlankFields(signInData: map<string, string>, reauthData: Option<map<string, string>>,
                                input: map<string, string>, login: Outcome<Tokens>,
                                userSites: Outcome<seq<Site>>, configured: set<string>)
    requires CONF_USERNAME in input && CONF_PASSWORD in input
    requires Blank(input[CONF_USERNAME]) || Blank(input[CONF_PASSWORD])
    ensures var s := LoginStep(signInData, reauthData, Some(input), login, userSites, configured);
            var errors := ValidateLoginInput(input).value;
            && s.signInData == signInData
            && ReportsBlankFields(errors, input[CONF_USERNAME], input[CONF_PASSWORD])
            && errors != map[]
            && (reauthData.None? || CONF_USERNAME in reauthData.value ==> s.result == Ok(ShowForm("login", errors)))
            && (reauthData.Some? && CONF_USERNAME !in reauthData.value ==> s.result == Raise(KeyError(CONF_USERNAME)))
  {
    LoginValidation(input);
  }

  /** Rejected credentials show the login form with "invalid_auth" and keep
      the sign-in data; in a reauthentication of an entry without a username
      the form raises KeyError instead. */
  lemma LoginRejected(signInData: map<string, string>, reauthData: Option<map<string, string>>,
                      input: map<string, string>, userSites: Outcome<seq<Site>>, configured: set<string>)
    requires CONF_USERNAME in input && CONF_PASSWORD in input
    requires !Blank(input[CONF_USERNAME]) && !Blank(input[CONF_PASSWORD])
    ensures var s := LoginStep(signInData, reauthData, Some(input), Raise(AuthException), userSites, configured);
            && s.signInData == signInData
            && (reauthData.None? || CONF_USERNAME in reauthData.value ==>
                  s.result == Ok(ShowForm("login", map[BASE := INVALID_AUTH])))
            && (reauthData.Some? && CONF_USERNAME !in reauthData.value ==> s.result == Raise(KeyError(CONF_USERNAME)))
  {
    LoginValidation(input);
  }

  /** Accepted credentials make the sign-in data exactly the username and
      the two tokens; a reauthentication then ends with "reauth_successful",
      a new flow goes on to the site step with that data. */
  lemma LoginAccepted(signInData: map<string, string>, reauthData: Option<map<string, string>>,
                      input: map<string, string>, tokens: Tokens, userSites: Outcome<seq<Site>>,
                      configured: set<string>)
    requires CONF_USERNAME in input && CONF_PASSWORD in input
    requires !Blank(input[CONF_USERNAME]) && !Blank(input[CONF_PASSWORD])
    ensures var data := map[CONF_USERNAME := input[CONF_USERNAME],
                            CONF_ACCESS_TOKEN := tokens.authToken, CONF_TOKEN := tokens.refreshToken];
            var s := LoginStep(signInData, reauthData, Some(input), Ok(tokens), userSites, configured);
            && data.Keys == {CONF_USERNAME, CONF_ACCESS_TOKEN, CONF_TOKEN}
            && (reauthData.Some? ==> s == Step(Ok(Abort(REAUTH_SUCCESSFUL)), data))
            && (reauthData.None? ==> s == SiteStep(data, Some(data), userSites, configured))
  {
    LoginValidation(input);
  }

  /** Opening the login step without input, as `async_step_user` and
      `async_step_reauth` do: the bare login form, unless the entry being
      reauthenticated has no username. */
  lemma LoginWithoutInput(signInData: map<string, string>, reauthData: Option<map<string, string>>,
                          login: Outcome<Tokens>, userSites: Outcome<seq<Site>>, configured: set<string>)
    ensures var s := LoginStep(signInData, reauthData, None, login, userSites, configured);
            && s.signInData == signInData
            && (reauthData.None? || CONF_USERNAME in reauthData.value ==> s.result == Ok(ShowForm("login", map[])))
            && (reauthData.Some? && CONF_USERNAME !in reauthData.value ==> s.result == Raise(KeyError(CONF_USERNAME)))
  {
  }

  /** The config flow; `sign_in_data` is the state its steps pass along. */
  class ConfigFlow {
    var signInData: map<string, string>
    /** The entry being reauthenticated, if the flow was started for one. */
    var reauthEntry: Option<ConfigEntry>

    constructor ()
      ensures signInData == map[] && reauthEntry == None
    {
      signInData := map[];
      reauthEntry := None;
    }

    method AsyncStepSite(userInput: Option<map<string, string>>, userSites: Outcome<seq<Site>>,
                         configured: set<string>) returns (r: Outcome<FlowResult>)
      modifies this`signInData
      ensures var s := SiteStep(old(signInData), userInput, userSites, configured);
              r == s.result && signInData == s.signInData
    {
      if userInput.Some? && CONF_SITE in userInput.value {
        signInData := signInData[CONF_SITE := userInput.value[CONF_SITE]];
        r := AsyncCreateEntry(signInData, configured);
        return;
      }
      match userSites
      case Raise(AuthException) =>
        return Ok(LoginForm(map[BASE := INVALID_AUTH]));
      case Raise(ConnectionException) =>
        return Ok(LoginForm(map[BASE := CONNECTION_ERROR]));
      case Raise(e) =>
        return Raise(e);
      case Ok(sites) =>
        var inDeliverySites := DeliverySites(sites);
        if |inDeliverySites| == 0 {
          return Raise(GenericException(NO_SUITABLE_SITES));
        }
        var firstSite := inDeliverySites[0];
        if |inDeliverySites| == 1 {
          if userInput.None? {
            return Raise(TypeError);
          }
          if CONF_USERNAME in userInput.value && userInput.value[CONF_USERNAME] in configured {
            return Ok(Abort(ALREADY_CONFIGURED));
          }
          signInData := signInData[CONF_SITE := firstSite.reference];
          signInData := signInData[CONF_USERNAME := CreateTitle(firstSite.address)];
          r := AsyncCreateEntry(signInData, configured);
          return;
        }
        return Raise(NameError("me"));
    }

    /** The data of the entry being reauthenticated, if any. */
    function ReauthData(): (r: Option<map<string, string>>)
      reads this, if reauthEntry.Some? then {reauthEntry.value} else {}
    {
      if reauthEntry.Some? then Some(reauthEntry.value.data) else None
    }

    method AsyncStepLogin(userInput: Option<map<string, string>>, login: Outcome<Tokens>,
                          userSites: Outcome<seq<Site>>, configured: set<string>) returns (r: Outcome<FlowResult>)
      modifies this`signInData, (if reauthEntry.Some? then {reauthEntry.value} else {})`data
      ensures var s := LoginStep(old(signInData), old(ReauthData()), userInput, login, userSites, configured);
              && r == s.result && signInData == s.signInData
              && (reauthEntry.Some? && s.result == Ok(Abort(REAUTH_SUCCESSFUL)) ==> reauthEntry.value.data == s.signInData)
              && (reauthEntry.Some? && s.result != Ok(Abort(REAUTH_SUCCESSFUL)) ==>
                    reauthEntry.value.data == old(reauthEntry.value.data))
    {
      var reauthData := ReauthData();
      if userInput.None? || userInput.value == map[] {
        return ShowLoginForm(reauthData, map[]);
      }
      var validated := ValidateLoginInput(userInput.value);
      if validated.Raise? {
        return Raise(validated.error);
      }
      if validated.value != map[] {
        return ShowLoginForm(reauthData, validated.value);
      }
      match login
      case Raise(AuthException) =>
        return AuthenticationFailure(reauthData);
      case Raise(e) =>
        return Raise(e);
      case Ok(auth) =>
        r := HandleAuthenticationSuccess(userInput.value[CONF_USERNAME], auth, userSites, configured);
    }

    /** `_handle_authentication_success`: the sign-in data becomes the
        username and the two tokens; a reauthentication writes them to its
        entry and ends, a new flow goes on to the site step. */
    method HandleAuthenticationSuccess(username: string, auth: Tokens, userSites: Outcome<seq<Site>>,
                                       configured: set<string>) returns (r: Outcome<FlowResult>)
      modifies this`signInData, (if reauthEntry.Some? then {reauthEntry.value} else {})`data
      ensures var data := map[CONF_USERNAME := username, CONF_ACCESS_TOKEN := auth.authToken, CONF_TOKEN := auth.refreshToken];
              && (reauthEntry.Some? ==>
                    r == Ok(Abort(REAUTH_SUCCESSFUL)) && signInData == data && reauthEntry.value.data == data)
              && (reauthEntry.None? ==>
                    var s := SiteStep(data, Some(data), userSites, configured);
                    r == s.result && signInData == s.signInData)
    {
      signInData := map[CONF_USERNAME := username, CONF_ACCESS_TOKEN := auth.authToken, CONF_TOKEN := auth.refreshToken];
      if reauthEntry.Some? {
        reauthEntry.value.data := signInData;
        return Ok(Abort(REAUTH_SUCCESSFUL));
      }
      r := AsyncStepSite(Some(signInData), userSites, configured);
    }

    /** `async_step_reauth`, with the entry the host names: the flow records
        it and opens the login step without input, which shows the login
        form or, for an entry without a username, raises KeyError. */
    method AsyncStepReauth(entry: ConfigEntry) returns (r: Outcome<FlowResult>)
      modifies this`reauthEntry, this`signInData, entry`data
      ensures reauthEntry == Some(entry)
      ensures r == ShowLoginForm(Some(old(entry.data)), map[])
      ensures signInData == old(signInData) && entry.data == old(entry.data)
    {
      reauthEntry := Some(entry);
      r := AsyncStepLogin(None, Raise(AuthException), Ok([]), {});
    }
  }

  // Options flows

  /** `FrankEnergieOptionsFlowHandler`: a copy of the entry's options that
      its steps update. */
  class FrankEnergieOptionsFlowHandler {
    const configEntry: ConfigEntry
    var options: map<string, string>

    constructor (configEntry: ConfigEntry)
      ensures this.configEntry == configEntry && options == configEntry.options
    {
      this.configEntry := configEntry;
      options := configEntry.options;
    }

    /** `async_step_init`: the `user` step without input. */
    method AsyncStepInit() returns (r: FlowResult)
      modifies this`options
      ensures options == old(options) && r == ShowForm("user", map[])
    {
      r := AsyncStepUser(None);
    }

    /** `async_step_user`: input is merged into the options, which become the
        data of the entry created; the title is the entry's username, or
        "Frank Energie". */
    method AsyncStepUser(userInput: Option<map<string, string>>) returns (r: FlowResult)
      modifies this`options
      ensures userInput.None? ==> options == old(options) && r == ShowForm("user", map[])
      ensures userInput.Some? ==>
                && options == old(options) + userInput.value
                && r == CreateEntry(None, GetOr(configEntry.data, CONF_USERNAME, COMPONENT_TITLE), options)
    {
      if userInput.Some? {
        options := options + userInput.value;
        return CreateEntry(None, GetOr(configEntry.data, CONF_USERNAME, COMPONENT_TITLE), options);
      }
      return ShowForm("user", map[]);
    }
  }

  /** `NoOptionsAvailableFlowHandler.async_step_init`: any input closes the
      flow with an empty entry; otherwise a form that only says there is
      nothing to set. */
  function NoOptionsStepInit(userInput: Option<map<string, string>>): (r: FlowResult)
    ensures userInput.Some? <==> r.CreateEntry?
    ensures r.CreateEntry? ==> r.title == "" && r.data == map[]
    ensures r.ShowForm? ==> r.stepId == "init" && r.errors == map[BASE := NO_LOGIN_NEEDED]
  {
    if userInput.Some? then CreateEntry(None, "", map[])
    else ShowForm("init", map[BASE := NO_LOGIN_NEEDED])
  }

  /** The options flow the host gets for an entry. */
  datatype OptionsFlow = SiteOptions(handler: FrankEnergieOptionsFlowHandler) | NoOptions

  /** `ConfigFlow.async_get_options_flow`: the real handler exactly when the
      entry has a site, the no-options handler otherwise. */
  method AsyncGetOptionsFlow(configEntry: ConfigEntry) returns (flow: OptionsFlow)
    ensures flow.SiteOptions? <==> CONF_SITE in configEntry.data
    ensures flow.SiteOptions? ==> fresh(flow.handler) && flow.handler.configEntry == configEntry
                                  && flow.handler.options == configEntry.options
  {
    if CONF_SITE in configEntry.data {
      var handler := new FrankEnergieOptionsFlowHandler(configEntry);
      return SiteOptions(handler);
    }
    return NoOptions;
  }
}
