/** The parts of the `python_frank_energie` client that the integration
    consumes. The client itself is not modelled: during one refresh it is a
    fixed set of answers, one per call the integration may make, and every
    call the integration makes is recorded as an `Endpoint`. */
module Client {
  import opened Wrappers

  /** One hourly price of one commodity. `from` and `till` are seconds since
      the epoch (UTC); the amounts are carried along and never computed with. */
  datatype PricePoint = PricePoint(
    from: int,
    till: int,
    marketPrice: int,
    marketPriceTax: int,
    sourcingMarkup: int,
    energyTax: int)

  /** `PriceData`: the points of one commodity, in the order the client returns them. */
  type PriceSeries = seq<PricePoint>

  /** `MarketPrices`: the series of both commodities for one date window. */
  datatype MarketPrices = MarketPrices(electricity: PriceSeries, gas: PriceSeries)

  /** `Authentication`: the token pair returned by login and by token renewal. */
  datatype Tokens = Tokens(authToken: string, refreshToken: string)

  /** Account snapshots the integration passes through without looking inside. */
  datatype MonthSummary = MonthSummary(payload: string)
  datatype Invoices = Invoices(payload: string)
  datatype User = User(payload: string)

  /** A call into the client, with its arguments; dates are day numbers since the epoch. */
  datatype Endpoint =
    | Prices(start: nat, end: nat)
    | UserPrices(start: nat, site: Option<string>, end: nat)
    | MonthSummaryOf(site: Option<string>)
    | InvoicesOf(site: Option<string>)
    | UserOf(site: Option<string>)
    | RenewToken

  /** The two date windows a refresh asks prices for. */
  datatype Window = TodayWindow | TomorrowWindow

  /** What the client answers to the two price calls for one window. */
  datatype WindowAnswers = WindowAnswers(
    userPrices: Outcome<MarketPrices>,
    prices: Outcome<MarketPrices>)

  /** The client as one refresh sees it: its `is_authenticated` flag and the
      answer it gives to each call. */
  datatype Api = Api(
    isAuthenticated: bool,
    today: WindowAnswers,
    tomorrow: WindowAnswers,
    monthSummary: Outcome<MonthSummary>,
    invoices: Outcome<Invoices>,
    user: Outcome<User>,
    renewToken: Outcome<Tokens>)
  {
    function Answers(w: Window): (r: WindowAnswers) {
      match w
      case TodayWindow => today
      case TomorrowWindow => tomorrow
    }
  }

  /** `PriceData.__add__`, taken to be concatenation of the two series. */
  function Join(a: PriceSeries, b: PriceSeries): (r: PriceSeries) {
    a + b
  }

  /** `PriceData.get_future_prices()` is non-empty: some point starts at or after `now`. */
  predicate HasFuturePrices(s: PriceSeries, now: int) {
    exists p :: p in s && p.from >= now
  }

  /** The points of `s` start at strictly increasing instants. */
  predicate StrictlyOrdered(s: PriceSeries) {
    forall i, j :: 0 <= i < j < |s| ==> s[i].from < s[j].from
  }

  /** Joining an ordered series with an ordered series that starts after it
      keeps every point, stays ordered, and so never repeats a start instant. */
  lemma JoinOrdered(a: PriceSeries, b: PriceSeries)
    requires StrictlyOrdered(a) && StrictlyOrdered(b)
    requires a == [] || b == [] || a[|a| - 1].from < b[0].from
    ensures |Join(a, b)| == |a| + |b|
    ensures StrictlyOrdered(Join(a, b))
    ensures forall i, j :: 0 <= i < |Join(a, b)| && 0 <= j < |Join(a, b)| && i != j ==>
              Join(a, b)[i].from != Join(a, b)[j].from
  {
    var s := Join(a, b);
    forall i, j | 0 <= i < j < |s|
      ensures s[i].from < s[j].from
    {
      if j < |a| {
        assert s[i] == a[i] && s[j] == a[j];
      } else if i >= |a| {
        assert s[i] == b[i - |a|] && s[j] == b[j - |a|];
      } else {
        assert s[i] == a[i] && s[j] == b[j - |a|];
        assert a[i].from <= a[|a| - 1].from;
        assert b[0].from <= b[j - |a|].from;
      }
    }
  }
}
