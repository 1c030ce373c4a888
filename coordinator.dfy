/** The refresh routine of the Frank Energie data coordinator: today's prices
    with a public-price fallback, tomorrow's prices after 13:00 UTC, the
    account snapshots of a signed-in user, and the mapping of every failure to
    stale data, a retryable failure or a reauthentication request. */
module Coordinator {
  import opened Wrappers
  import opened Client
  import opened Entries

  /** The dictionary a refresh returns. */
  datatype FrankEnergieData = FrankEnergieData(
    electricity: PriceSeries,
    gas: PriceSeries,
    monthSummary: Option<MonthSummary>,
    invoices: Option<Invoices>,
    user: Option<User>)

  const SECONDS_PER_DAY := 86400
  const SECONDS_PER_HOUR := 3600

  /** The hour (UTC) from which tomorrow's prices are asked for. */
  const TOMORROW_FROM_HOUR := 13

  /** The prefix by which the API marks an error the user has to resolve. */
  const USER_ERROR_PREFIX := "user-error:"

  /** `datetime.utcnow().date()`, as a day number, for `now` in seconds since the epoch. */
  function DayOf(now: nat): (r: nat) {
    now / SECONDS_PER_DAY
  }

  /** `datetime.utcnow().hour`. */
  function HourUtc(now: nat): (h: nat)
    ensures h < 24
    ensures h * SECONDS_PER_HOUR <= now % SECONDS_PER_DAY < (h + 1) * SECONDS_PER_HOUR
  {
    (now % SECONDS_PER_DAY) / SECONDS_PER_HOUR
  }

  /** An outcome together with the calls made to reach it, in order. */
  datatype Traced<T> = Traced(outcome: Outcome<T>, calls: seq<Endpoint>)

  /** `__fetch_prices_with_fallback(start, end)`: the user's prices, with the
      public series put in for each commodity the user has no prices for. */
  function FetchWithFallback(api: Api, w: Window, site: Option<string>, start: nat, end: nat): (r: Traced<MarketPrices>) {
    var answers := api.Answers(w);
    if !api.isAuthenticated then
      Traced(answers.prices, [Prices(start, end)])
    else
      match answers.userPrices
      case Raise(e) => Traced(Raise(e), [UserPrices(start, site, end)])
      case Ok(user) =>
        if user.gas != [] && user.electricity != [] then
          Traced(Ok(user), [UserPrices(start, site, end)])
        else
          var calls := [UserPrices(start, site, end), Prices(start, end)];
          match answers.prices
          case Raise(e) => Traced(Raise(e), calls)
          case Ok(public) =>
            var withGas := if user.gas == [] then user.(gas := public.gas) else user;
            var patched := if user.electricity == [] then withGas.(electricity := public.electricity) else withGas;
            Traced(Ok(patched), calls)
  }

  /** The config entry data after `__try_renew_token`, and the exception it raises, if any. */
  datatype Renewal = Renewal(error: Option<Error>, entryData: map<string, string>)

  /** `__try_renew_token`: on success the entry data becomes the two new
      tokens; an AuthException becomes ConfigEntryAuthFailed; any other
      exception passes through. */
  function Renew(api: Api, entryData: map<string, string>): (r: Renewal) {
    match api.renewToken
    case Ok(t) => Renewal(None, map[CONF_ACCESS_TOKEN := t.authToken, CONF_TOKEN := t.refreshToken])
    case Raise(AuthException) => Renewal(Some(ConfigEntryAuthFailed), entryData)
    case Raise(e) => Renewal(Some(e), entryData)
  }

  /** What the `try` block for today yields when nothing is raised. */
  datatype TodayData = TodayData(
    prices: MarketPrices,
    monthSummary: Option<MonthSummary>,
    invoices: Option<Invoices>,
    user: Option<User>)

  /** The `try` block for today: the prices, then, when signed in, the month
      summary, the invoices and the user, stopping at the first exception. */
  function FetchToday(api: Api, site: Option<string>, today: nat): (r: Traced<TodayData>) {
    var f := FetchWithFallback(api, TodayWindow, site, today, today + 1);
    match f.outcome
    case Raise(e) => Traced(Raise(e), f.calls)
    case Ok(prices) =>
      if !api.isAuthenticated then
        Traced(Ok(TodayData(prices, None, None, None)), f.calls)
      else
        var c1 := f.calls + [MonthSummaryOf(site)];
        match api.monthSummary
        case Raise(e) => Traced(Raise(e), c1)
        case Ok(ms) =>
          var c2 := c1 + [InvoicesOf(site)];
          match api.invoices
          case Raise(e) => Traced(Raise(e), c2)
          case Ok(inv) =>
            var c3 := c2 + [UserOf(site)];
            match api.user
            case Raise(e) => Traced(Raise(e), c3)
            case Ok(u) => Traced(Ok(TodayData(prices, Some(ms), Some(inv), Some(u))), c3)
  }

  /** The result of a whole refresh: what it returns or raises, the config
      entry data afterwards, and the calls it made. */
  datatype Refresh = Refresh(result: Outcome<FrankEnergieData>, entryData: map<string, string>, calls: seq<Endpoint>)

  /** An AuthException: one renewal attempt, then UpdateFailed unless the
      renewal itself raised. */
  function AfterAuthException(api: Api, entryData: map<string, string>, calls: seq<Endpoint>): (r: Refresh) {
    var rn := Renew(api, entryData);
    Refresh(Raise(if rn.error.Some? then rn.error.value else UpdateFailed), rn.entryData, calls + [RenewToken])
  }

  /** Both commodities of the stored data still have a price from `now` on. */
  predicate StillUseful(previous: Option<FrankEnergieData>, now: int) {
    previous.Some? && HasFuturePrices(previous.value.electricity, now) && HasFuturePrices(previous.value.gas, now)
  }

  /** The `except` clauses of the today block. */
  function TodayFailed(api: Api, now: nat, previous: Option<FrankEnergieData>, entryData: map<string, string>,
                       e: Error, calls: seq<Endpoint>): (r: Refresh)
  {
    match e
    case UpdateFailed =>
      if StillUseful(previous, now) then Refresh(Ok(previous.value), entryData, calls)
      else Refresh(Raise(UpdateFailed), entryData, calls)
    case RequestException(msg) =>
      Refresh(Raise(if USER_ERROR_PREFIX <= msg then ConfigEntryAuthFailed else UpdateFailed), entryData, calls)
    case AuthException => AfterAuthException(api, entryData, calls)
    case _ => Refresh(Raise(e), entryData, calls)
  }

  /** The `except` clauses only append to the calls made before them. */
  lemma TodayFailedAfterCalls(api: Api, now: nat, previous: Option<FrankEnergieData>, entryData: map<string, string>,
                              e: Error, before: seq<Endpoint>, calls: seq<Endpoint>)
    ensures var s := TodayFailed(api, now, previous, entryData, e, calls);
            TodayFailed(api, now, previous, entryData, e, before + calls) == s.(calls := before + s.calls)
  {
    assert before + calls + [RenewToken] == before + (calls + [RenewToken]);
  }

  /** The returned dictionary: today's series, joined with tomorrow's when present. */
  function Assemble(today: TodayData, tomorrow: Option<MarketPrices>): (r: FrankEnergieData) {
    match tomorrow
    case Some(t) =>
      FrankEnergieData(Join(today.prices.electricity, t.electricity), Join(today.prices.gas, t.gas),
                       today.monthSummary, today.invoices, today.user)
    case None =>
      FrankEnergieData(today.prices.electricity, today.prices.gas, today.monthSummary, today.invoices, today.user)
  }

  /** `_async_update_data` at instant `now`, given the data stored by the
      previous refresh and the config entry data before the call. */
  function UpdateData(api: Api, now: nat, site: Option<string>, previous: Option<FrankEnergieData>,
                      entryData: map<string, string>): (r: Refresh)
  {
    var today := DayOf(now);
    var t := FetchToday(api, site, today);
    match t.outcome
    case Raise(e) => TodayFailed(api, now, previous, entryData, e, t.calls)
    case Ok(td) =>
      var a := AfterToday(api, now, site, entryData, td);
      Refresh(a.result, a.entryData, t.calls + a.calls)
  }

  /** The second `try` block and the return that follows it: tomorrow's
      prices from 13:00 UTC on, and the dictionary returned. Its calls are
      the ones made after the today block. */
  function AfterToday(api: Api, now: nat, site: Option<string>, entryData: map<string, string>, td: TodayData): (r: Refresh) {
    if HourUtc(now) < TOMORROW_FROM_HOUR then
      Refresh(Ok(Assemble(td, None)), entryData, [])
    else
      var today := DayOf(now);
      var f := FetchWithFallback(api, TomorrowWindow, site, today + 1, today + 2);
      match f.outcome
      case Ok(p) => Refresh(Ok(Assemble(td, Some(p))), entryData, f.calls)
      case Raise(UpdateFailed) => Refresh(Ok(Assemble(td, None)), entryData, f.calls)
      case Raise(AuthException) => AfterAuthException(api, entryData, f.calls)
      case Raise(e) => Refresh(Raise(e), entryData, f.calls)
  }

  // Properties of the fallback fetch

  /** Signed out, only the public endpoint is called, and its answer is returned as it is. */
  lemma FallbackWhenSignedOut(api: Api, w: Window, site: Option<string>, start: nat, end: nat)
    requires !api.isAuthenticated
    ensures var f := FetchWithFallback(api, w, site, start, end);
            f.outcome == api.Answers(w).prices && f.calls == [Prices(start, end)]
  {
  }

  /** Signed in with prices for both commodities: those are returned unchanged
      and the public endpoint is not called. */
  lemma FallbackKeepsCompleteUserPrices(api: Api, w: Window, site: Option<string>, start: nat, end: nat, user: MarketPrices)
    requires api.isAuthenticated && api.Answers(w).userPrices == Ok(user)
    requires user.electricity != [] && user.gas != []
    ensures var f := FetchWithFallback(api, w, site, start, end);
            f.outcome == Ok(user) && f.calls == [UserPrices(start, site, end)]
  {
  }

  /** Signed in with a commodity missing: the public prices are asked for once,
      each empty user series is replaced by the public one and each non-empty
      user series is kept. */
  lemma FallbackPatchesEmptySeries(api: Api, w: Window, site: Option<string>, start: nat, end: nat, user: MarketPrices)
    requires api.isAuthenticated && api.Answers(w).userPrices == Ok(user)
    requires user.electricity == [] || user.gas == []
    ensures var f := FetchWithFallback(api, w, site, start, end);
            && f.calls == [UserPrices(start, site, end), Prices(start, end)]
            && (api.Answers(w).prices.Raise? ==> f.outcome == api.Answers(w).prices)
            && (api.Answers(w).prices.Ok? ==>
                  var public := api.Answers(w).prices.value;
                  f.outcome == Ok(MarketPrices(
                    if user.electricity == [] then public.electricity else user.electricity,
                    if user.gas == [] then public.gas else user.gas)))
  {
  }

  /** The fallback never leaves a commodity empty when the public prices for
      it are not empty. */
  lemma FallbackFillsGaps(api: Api, w: Window, site: Option<string>, start: nat, end: nat, public: MarketPrices)
    requires api.Answers(w).prices == Ok(public)
    requires FetchWithFallback(api, w, site, start, end).outcome.Ok?
    ensures var r := FetchWithFallback(api, w, site, start, end).outcome.value;
            (public.electricity != [] ==> r.electricity != []) && (public.gas != [] ==> r.gas != [])
  {
  }

  /** The user endpoint is called exactly when signed in, and no call is made twice. */
  lemma FallbackCalls(api: Api, w: Window, site: Option<string>, start: nat, end: nat)
    ensures var f := FetchWithFallback(api, w, site, start, end);
            && 1 <= |f.calls| <= 2
            && (UserPrices(start, site, end) in f.calls <==> api.isAuthenticated)
            && (forall i, j :: 0 <= i < j < |f.calls| ==> f.calls[i] != f.calls[j])
            && (forall c :: c in f.calls ==> c == Prices(start, end) || c == UserPrices(start, site, end))
  {
  }

  // Properties of token renewal

  /** A successful renewal leaves exactly the two token keys in the entry
      data; a rejected one asks for reauthentication and changes nothing. */
  lemma RenewalRewritesCredentials(api: Api, entryData: map<string, string>)
    ensures var rn := Renew(api, entryData);
            && (api.renewToken.Ok? ==>
                  && rn.error == None
                  && rn.entryData.Keys == {CONF_ACCESS_TOKEN, CONF_TOKEN}
                  && rn.entryData[CONF_ACCESS_TOKEN] == api.renewToken.value.authToken
                  && rn.entryData[CONF_TOKEN] == api.renewToken.value.refreshToken)
            && (api.renewToken == Raise(AuthException) ==>
                  rn.error == Some(ConfigEntryAuthFailed) && rn.entryData == entryData)
            && (api.renewToken.Raise? ==> rn.error.Some? && rn.entryData == entryData)
  {
  }

  // Properties of a whole refresh

  /** The today block only asks for today's window. */
  lemma TodayCallsAreForToday(api: Api, site: Option<string>, today: nat)
    ensures forall c :: c in FetchToday(api, site, today).calls ==>
              (c.Prices? || c.UserPrices?) ==> c.start == today && c.end == today + 1
    ensures RenewToken !in FetchToday(api, site, today).calls
  {
  }

  /** After a successful today block, tomorrow's prices are asked for exactly
      when the UTC hour is 13 or later. */
  lemma TomorrowFetchedIffAfternoon(api: Api, now: nat, site: Option<string>,
                                    previous: Option<FrankEnergieData>, entryData: map<string, string>)
    requires FetchToday(api, site, DayOf(now)).outcome.Ok?
    ensures var s := UpdateData(api, now, site, previous, entryData);
            var tomorrow := DayOf(now) + 1;
            (Prices(tomorrow, tomorrow + 1) in s.calls || UserPrices(tomorrow, site, tomorrow + 1) in s.calls)
              <==> HourUtc(now) >= TOMORROW_FROM_HOUR
  {
    var today := DayOf(now);
    TodayCallsAreForToday(api, site, today);
    FallbackCalls(api, TomorrowWindow, site, today + 1, today + 2);
    FallbackCalls(api, TodayWindow, site, today, today + 1);
  }

  /** Before 13:00 UTC the result holds exactly today's series and the snapshots. */
  lemma TodayOnlyBeforeAfternoon(api: Api, now: nat, site: Option<string>,
                                 previous: Option<FrankEnergieData>, entryData: map<string, string>, td: TodayData)
    requires FetchToday(api, site, DayOf(now)).outcome == Ok(td)
    requires HourUtc(now) < TOMORROW_FROM_HOUR
    ensures var s := UpdateData(api, now, site, previous, entryData);
            && s.result == Ok(FrankEnergieData(td.prices.electricity, td.prices.gas, td.monthSummary, td.invoices, td.user))
            && s.entryData == entryData
  {
  }

  /** With tomorrow's prices present, each commodity is today's series joined with tomorrow's. */
  lemma TomorrowJoined(api: Api, now: nat, site: Option<string>,
                       previous: Option<FrankEnergieData>, entryData: map<string, string>, td: TodayData, p: MarketPrices)
    requires FetchToday(api, site, DayOf(now)).outcome == Ok(td)
    requires HourUtc(now) >= TOMORROW_FROM_HOUR
    requires FetchWithFallback(api, TomorrowWindow, site, DayOf(now) + 1, DayOf(now) + 2).outcome == Ok(p)
    ensures var s := UpdateData(api, now, site, previous, entryData);
            && s.result == Ok(FrankEnergieData(Join(td.prices.electricity, p.electricity), Join(td.prices.gas, p.gas),
                                              td.monthSummary, td.invoices, td.user))
            && s.entryData == entryData
  {
  }

  /** The month summary, the invoices and the user are fetched, and filled in,
      exactly when the client is signed in. */
  lemma SnapshotsOnlyWhenSignedIn(api: Api, site: Option<string>, today: nat)
    ensures var t := FetchToday(api, site, today);
            && (MonthSummaryOf(site) in t.calls ==> api.isAuthenticated)
            && (InvoicesOf(site) in t.calls ==> api.isAuthenticated)
            && (UserOf(site) in t.calls ==> api.isAuthenticated)
            && (t.outcome.Ok? ==>
                  && (t.outcome.value.monthSummary.Some? <==> api.isAuthenticated)
                  && (t.outcome.value.invoices.Some? <==> api.isAuthenticated)
                  && (t.outcome.value.user.Some? <==> api.isAuthenticated)
                  && (api.isAuthenticated ==> MonthSummaryOf(site) in t.calls && InvoicesOf(site) in t.calls
                                              && UserOf(site) in t.calls))
  {
    FallbackCalls(api, TodayWindow, site, today, today + 1);
  }

  /** A RequestException in the today block asks for reauthentication when its
      message starts with "user-error:", and is a retryable failure otherwise. */
  lemma TodayRequestException(api: Api, now: nat, site: Option<string>,
                              previous: Option<FrankEnergieData>, entryData: map<string, string>, msg: string)
    requires FetchToday(api, site, DayOf(now)).outcome == Raise(RequestException(msg))
    ensures var s := UpdateData(api, now, site, previous, entryData);
            && s.result == Raise(if USER_ERROR_PREFIX <= msg then ConfigEntryAuthFailed else UpdateFailed)
            && s.entryData == entryData
            && RenewToken !in s.calls
  {
    TodayCallsAreForToday(api, site, DayOf(now));
  }

  /** An UpdateFailed in the today block returns the stored data unchanged when
      both of its commodities still have a future price, and is re-raised otherwise. */
  lemma TodayUpdateFailed(api: Api, now: nat, site: Option<string>,
                          previous: Option<FrankEnergieData>, entryData: map<string, string>)
    requires FetchToday(api, site, DayOf(now)).outcome == Raise(UpdateFailed)
    ensures var s := UpdateData(api, now, site, previous, entryData);
            && s.result == (if StillUseful(previous, now) then Ok(previous.value) else Raise(UpdateFailed))
            && s.entryData == entryData
  {
  }

  /** An AuthException, in either block, leads to exactly one renewal, made
      last; then UpdateFailed, or ConfigEntryAuthFailed when the renewal is
      rejected. */
  lemma AuthExceptionRenewsOnce(api: Api, now: nat, site: Option<string>,
                                previous: Option<FrankEnergieData>, entryData: map<string, string>)
    requires var t := FetchToday(api, site, DayOf(now));
             || t.outcome == Raise(AuthException)
             || (&& t.outcome.Ok? && HourUtc(now) >= TOMORROW_FROM_HOUR
                 && FetchWithFallback(api, TomorrowWindow, site, DayOf(now) + 1, DayOf(now) + 2).outcome == Raise(AuthException))
    ensures var s := UpdateData(api, now, site, previous, entryData);
            && |s.calls| > 0 && s.calls[|s.calls| - 1] == RenewToken
            && RenewToken !in s.calls[..|s.calls| - 1]
            && (api.renewToken.Ok? ==>
                  s.result == Raise(UpdateFailed) && s.entryData == Renew(api, entryData).entryData)
            && (api.renewToken == Raise(AuthException) ==>
                  s.result == Raise(ConfigEntryAuthFailed) && s.entryData == entryData)
  {
    var today := DayOf(now);
    var t := FetchToday(api, site, today);
    var s := UpdateData(api, now, site, previous, entryData);
    TodayCallsAreForToday(api, site, today);
    if t.outcome == Raise(AuthException) {
      assert s == AfterAuthException(api, entryData, t.calls);
      assert s.calls[..|s.calls| - 1] == t.calls;
    } else {
      var f := FetchWithFallback(api, TomorrowWindow, site, today + 1, today + 2);
      FallbackCalls(api, TomorrowWindow, site, today + 1, today + 2);
      var a := AfterToday(api, now, site, entryData, t.outcome.value);
      assert a == AfterAuthException(api, entryData, f.calls);
      assert s.calls == t.calls + (f.calls + [RenewToken]);
      assert s.calls[..|s.calls| - 1] == t.calls + f.calls;
    }
  }

  /** An UpdateFailed while fetching tomorrow is swallowed: the result is the
      one a refresh before 13:00 UTC would give. */
  lemma TomorrowUpdateFailedSwallowed(api: Api, now: nat, site: Option<string>,
                                      previous: Option<FrankEnergieData>, entryData: map<string, string>, td: TodayData)
    requires FetchToday(api, site, DayOf(now)).outcome == Ok(td)
    requires HourUtc(now) >= TOMORROW_FROM_HOUR
    requires FetchWithFallback(api, TomorrowWindow, site, DayOf(now) + 1, DayOf(now) + 2).outcome == Raise(UpdateFailed)
    ensures var s := UpdateData(api, now, site, previous, entryData);
            s.result == Ok(Assemble(td, None)) && s.entryData == entryData
  {
  }

  /** A RequestException while fetching tomorrow is not caught. */
  lemma TomorrowRequestExceptionEscapes(api: Api, now: nat, site: Option<string>,
                                        previous: Option<FrankEnergieData>, entryData: map<string, string>, msg: string)
    requires FetchToday(api, site, DayOf(now)).outcome.Ok?
    requires HourUtc(now) >= TOMORROW_FROM_HOUR
    requires FetchWithFallback(api, TomorrowWindow, site, DayOf(now) + 1, DayOf(now) + 2).outcome == Raise(RequestException(msg))
    ensures UpdateData(api, now, site, previous, entryData).result == Raise(RequestException(msg))
  {
  }

  /** The `except` clauses never let an AuthException through, and change
      the entry data only by a successful renewal. */
  lemma TodayFailedContainsAuthException(api: Api, now: nat, previous: Option<FrankEnergieData>,
                                         entryData: map<string, string>, e: Error, calls: seq<Endpoint>)
    ensures var s := TodayFailed(api, now, previous, entryData, e, calls);
            && s.result != Raise(AuthException)
            && (s.entryData != entryData ==> RenewToken in s.calls && api.renewToken.Ok?)
  {
  }

  /** Nor does the tomorrow block. */
  lemma AfterTodayContainsAuthException(api: Api, now: nat, site: Option<string>,
                                        entryData: map<string, string>, td: TodayData)
    ensures var s := AfterToday(api, now, site, entryData, td);
            && s.result != Raise(AuthException)
            && (s.entryData != entryData ==> RenewToken in s.calls && api.renewToken.Ok?)
  {
  }

  /** An AuthException never reaches the host, and the entry data changes only
      through a successful renewal. */
  lemma RefreshContainsAuthException(api: Api, now: nat, site: Option<string>,
                                     previous: Option<FrankEnergieData>, entryData: map<string, string>)
    ensures var s := UpdateData(api, now, site, previous, entryData);
            && s.result != Raise(AuthException)
            && (s.entryData != entryData ==> RenewToken in s.calls && api.renewToken.Ok?)
  {
    var t := FetchToday(api, site, DayOf(now));
    match t.outcome
    case Raise(e) =>
      TodayFailedContainsAuthException(api, now, previous, entryData, e, t.calls);
    case Ok(td) =>
      AfterTodayContainsAuthException(api, now, site, entryData, td);
      var a := AfterToday(api, now, site, entryData, td);
      assert RenewToken in a.calls ==> RenewToken in t.calls + a.calls;
  }

  /** `FrankEnergieCoordinator`: the config entry it serves, the site it asks
      prices for, and the data the host stored after the last refresh. */
  class FrankEnergieCoordinator {
    const entry: ConfigEntry
    const siteReference: Option<string>
    /** `self.data`, kept by the host between refreshes. */
    var data: Option<FrankEnergieData>
    /** Every call made into the client, in order. */
    ghost var calls: seq<Endpoint>

    constructor (entry: ConfigEntry)
      ensures this.entry == entry && siteReference == Get(entry.data, CONF_SITE)
      ensures data == None && calls == []
    {
      this.entry := entry;
      siteReference := Get(entry.data, CONF_SITE);
      data := None;
      calls := [];
    }

    method FetchPricesWithFallback(api: Api, w: Window, start: nat, end: nat) returns (r: Outcome<MarketPrices>)
      modifies this`calls
      ensures var f := FetchWithFallback(api, w, siteReference, start, end);
              r == f.outcome && calls == old(calls) + f.calls
    {
      var answers := api.Answers(w);
      if !api.isAuthenticated {
        calls := calls + [Prices(start, end)];
        return answers.prices;
      }
      calls := calls + [UserPrices(start, siteReference, end)];
      if answers.userPrices.Raise? {
        return answers.userPrices;
      }
      var userPrices := answers.userPrices.value;
      if userPrices.gas != [] && userPrices.electricity != [] {
        return Ok(userPrices);
      }
      calls := calls + [Prices(start, end)];
      if answers.prices.Raise? {
        return answers.prices;
      }
      var publicPrices := answers.prices.value;
      if userPrices.gas == [] {
        userPrices := userPrices.(gas := publicPrices.gas);
      }
      if userPrices.electricity == [] {
        userPrices := userPrices.(electricity := publicPrices.electricity);
      }
      return Ok(userPrices);
    }

    /** Returns the exception `__try_renew_token` raises, if any. */
    method TryRenewToken(api: Api) returns (raised: Option<Error>)
      modifies this`calls, entry`data
      ensures var rn := Renew(api, old(entry.data));
              raised == rn.error && entry.data == rn.entryData
      ensures calls == old(calls) + [RenewToken]
    {
      calls := calls + [RenewToken];
      match api.renewToken
      case Ok(updatedTokens) =>
        entry.data := map[CONF_ACCESS_TOKEN := updatedTokens.authToken, CONF_TOKEN := updatedTokens.refreshToken];
        raised := None;
      case Raise(AuthException) =>
        raised := Some(ConfigEntryAuthFailed);
      case Raise(e) =>
        raised := Some(e);
    }

    /** The first `try` block of `_async_update_data`: today's prices and,
        when signed in, the account snapshots. */
    method FetchTodayBlock(api: Api, today: nat) returns (t: Outcome<TodayData>)
      modifies this`calls
      ensures var s := FetchToday(api, siteReference, today);
              t == s.outcome && calls == old(calls) + s.calls
    {
      var pricesToday := FetchPricesWithFallback(api, TodayWindow, today, today + 1);
      if pricesToday.Raise? {
        return Raise(pricesToday.error);
      }
      if !api.isAuthenticated {
        return Ok(TodayData(pricesToday.value, None, None, None));
      }
      calls := calls + [MonthSummaryOf(siteReference)];
      if api.monthSummary.Raise? {
        return Raise(api.monthSummary.error);
      }
      calls := calls + [InvoicesOf(siteReference)];
      if api.invoices.Raise? {
        return Raise(api.invoices.error);
      }
      calls := calls + [UserOf(siteReference)];
      if api.user.Raise? {
        return Raise(api.user.error);
      }
      return Ok(TodayData(pricesToday.value, Some(api.monthSummary.value), Some(api.invoices.value), Some(api.user.value)));
    }

    /** The `except` clauses of the first `try` block. */
    method HandleTodayFailure(api: Api, now: nat, e: Error) returns (r: Outcome<FrankEnergieData>)
      modifies this`calls, entry`data
      ensures var s := TodayFailed(api, now, data, old(entry.data), e, old(calls));
              r == s.result && entry.data == s.entryData && calls == s.calls
    {
      match e
      case UpdateFailed =>
        if StillUseful(data, now) {
          return Ok(data.value);
        }
        return Raise(UpdateFailed);
      case RequestException(msg) =>
        if USER_ERROR_PREFIX <= msg {
          return Raise(ConfigEntryAuthFailed);
        }
        return Raise(UpdateFailed);
      case AuthException =>
        var raised := TryRenewToken(api);
        if raised.Some? {
          return Raise(raised.value);
        }
        return Raise(UpdateFailed);
      case _ =>
        return Raise(e);
    }

    /** The second `try` block of `_async_update_data` and the return after it. */
    method FetchTomorrowBlock(api: Api, now: nat, td: TodayData) returns (r: Outcome<FrankEnergieData>)
      modifies this`calls, entry`data
      ensures var s := AfterToday(api, now, siteReference, old(entry.data), td);
              r == s.result && entry.data == s.entryData && calls == old(calls) + s.calls
    {
      var today := now / SECONDS_PER_DAY;
      var tomorrow := today + 1;
      var dayAfterTomorrow := tomorrow + 1;

      // tomorrow's prices, only after 13:00 UTC
      var pricesTomorrow: Option<MarketPrices> := None;
      if (now % SECONDS_PER_DAY) / SECONDS_PER_HOUR >= TOMORROW_FROM_HOUR {
        var fetched := FetchPricesWithFallback(api, TomorrowWindow, tomorrow, dayAfterTomorrow);
        match fetched
        case Ok(p) =>
          pricesTomorrow := Some(p);
        case Raise(UpdateFailed) =>
          // swallowed: today's data is returned on its own
        case Raise(AuthException) =>
          var raised := TryRenewToken(api);
          if raised.Some? {
            return Raise(raised.value);
          }
          return Raise(UpdateFailed);
        case Raise(e) =>
          return Raise(e);
      } else {
        assert calls == old(calls) + [];
      }

      if pricesTomorrow.Some? {
        return Ok(FrankEnergieData(
          Join(td.prices.electricity, pricesTomorrow.value.electricity),
          Join(td.prices.gas, pricesTomorrow.value.gas),
          td.monthSummary, td.invoices, td.user));
      }
      return Ok(FrankEnergieData(td.prices.electricity, td.prices.gas, td.monthSummary, td.invoices, td.user));
    }

    method AsyncUpdateData(api: Api, now: nat) returns (r: Outcome<FrankEnergieData>)
      modifies this`calls, entry`data
      ensures var s := UpdateData(api, now, siteReference, data, old(entry.data));
              r == s.result && entry.data == s.entryData && calls == old(calls) + s.calls
    {
      var today := DayOf(now);
      ghost var t := FetchToday(api, siteReference, today);
      var fetchedToday := FetchTodayBlock(api, today);
      if fetchedToday.Raise? {
        assert UpdateData(api, now, siteReference, data, entry.data)
            == TodayFailed(api, now, data, entry.data, fetchedToday.error, t.calls);
        TodayFailedAfterCalls(api, now, data, entry.data, fetchedToday.error, old(calls), t.calls);
        r := HandleTodayFailure(api, now, fetchedToday.error);
        return;
      }
      r := FetchTomorrowBlock(api, now, fetchedToday.value);
      ghost var a := AfterToday(api, now, siteReference, old(entry.data), fetchedToday.value);
      assert calls == old(calls) + (t.calls + a.calls);
    }
  }
}
