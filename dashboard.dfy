/**
 * The client-monitoring dashboard: the client list as fetched, each
 * client's live statistics as they arrive, and the portfolio metrics that
 * are recomputed from the whole list whenever it changes.
 *
 * Numbers that the page averages are reals; display formatting is not
 * modelled.
 */
module Dashboard {
  import opened Wrappers
  import opened Text

  datatype TrendPoint = TrendPoint(date: string, leads: int, appointments: int, showUps: int)

  /** A client's statistics snapshot; a booking rate of None is JSON null. */
  datatype LiveStats = LiveStats(
    leads3d: int,
    appointments3d: int,
    leads7d: int,
    appointments7d: int,
    bookingRate7d: Option<real>,
    showUps7d: int,
    totalAppointments7d: int,
    cpl7d: real,
    spend7d: real,
    alertCount: int,
    alerts: seq<string>,
    trendData: seq<TrendPoint>)

  /** A client's identity record as the client-list endpoint returns it. */
  datatype ClientData = ClientData(
    clientName: string,
    ghlSubaccountId: string,
    metaAdAccountId: string,
    calendarDiagnosisId: string,
    calendarDemoId: string,
    calendarPresuccessId: string)

  /** A listed client, its statistics once they arrived, and whether they are still being fetched. */
  datatype Client = Client(info: ClientData, stats: Option<LiveStats>, loading: bool)

  datatype PortfolioMetrics = PortfolioMetrics(
    totalClients: nat,
    clientsWithAlerts: nat,
    avgCpl: real,
    avgBookingRate: real,
    avgShowUpRate: real)

  /** The statistics every per-client fetch currently installs (the trend series is left empty here). */
  const MockStats: LiveStats :=
    LiveStats(0, 0, 12, 8, None, 0, 0, 25.0, 300.0, 0, [], [])

  /** The placeholder client used when no client list can be obtained. */
  const MockClient: ClientData := ClientData("Client A", "12345", "67890", "cal1", "cal2", "cal3")

  // ---------------------------------------------------------------------
  // Portfolio metrics
  // ---------------------------------------------------------------------

  /** A settled client has statistics and is no longer loading. */
  predicate IsSettled(c: Client)
  {
    c.stats.Some? && !c.loading
  }

  /** The settled clients, in list order. */
  function Settled(clients: seq<Client>): (r: seq<Client>)
    ensures |r| <= |clients|
    ensures forall c :: c in r ==> c in clients && IsSettled(c)
    ensures forall c :: c in clients && IsSettled(c) ==> c in r
    ensures forall c :: multiset(r)[c] == if IsSettled(c) then multiset(clients)[c] else 0
  {
    if |clients| == 0 then []
    else
      var last := clients[|clients| - 1];
      var front := Settled(clients[..|clients| - 1]);
      assert forall c :: c in clients[..|clients| - 1] ==> c in clients;
      assert forall c :: c in clients ==> c in clients[..|clients| - 1] || c == last;
      assert clients == clients[..|clients| - 1] + [last];
      if IsSettled(last) then front + [last] else front
  }

  /** The client has statistics reporting at least one alert. */
  predicate HasAlerts(c: Client)
  {
    c.stats.Some? && c.stats.value.alertCount > 0
  }

  /** How many of the clients report at least one alert: never more than there are clients. */
  function CountWithAlerts(clients: seq<Client>): (r: nat)
    ensures r <= |clients|
  {
    if |clients| == 0 then 0
    else CountWithAlerts(clients[..|clients| - 1]) + (if HasAlerts(clients[|clients| - 1]) then 1 else 0)
  }

  /** No client is counted exactly when none reports an alert. */
  lemma {:induction false} CountWithAlertsZeroIff(clients: seq<Client>)
    ensures CountWithAlerts(clients) == 0 <==> forall i :: 0 <= i < |clients| ==> !HasAlerts(clients[i])
  {
    if |clients| > 0 {
      var front := clients[..|clients| - 1];
      CountWithAlertsZeroIff(front);
      assert forall i :: 0 <= i < |front| ==> front[i] == clients[i];
    }
  }

  function Sum(xs: seq<real>): real
  {
    if |xs| == 0 then 0.0 else Sum(xs[..|xs| - 1]) + xs[|xs| - 1]
  }

  /** The arithmetic mean, or 0 for no values. */
  function Mean(xs: seq<real>): real
  {
    if |xs| > 0 then Sum(xs) / (|xs| as real) else 0.0
  }

  /** The cost per lead of each client (0 for a client without statistics). */
  function Cpls(clients: seq<Client>): (r: seq<real>)
    ensures |r| == |clients|
  {
    if |clients| == 0 then []
    else
      var last := clients[|clients| - 1];
      Cpls(clients[..|clients| - 1]) + [if last.stats.Some? then last.stats.value.cpl7d else 0.0]
  }

  /** The booking rates that are defined, in list order; null rates are skipped. */
  function BookingRates(clients: seq<Client>): seq<real>
  {
    if |clients| == 0 then []
    else
      var last := clients[|clients| - 1];
      var front := BookingRates(clients[..|clients| - 1]);
      if last.stats.Some? && last.stats.value.bookingRate7d.Some? then front + [last.stats.value.bookingRate7d.value] else front
  }

  /**
   * Show-ups per hundred appointments, or 0 when there were no appointments:
   * positive exactly when there were appointments and show-ups, and a
   * percentage when show-ups do not exceed appointments.
   */
  function ShowUpRate(s: LiveStats): (r: real)
    ensures s.totalAppointments7d <= 0 ==> r == 0.0
    ensures r > 0.0 <==> s.totalAppointments7d > 0 && s.showUps7d > 0
    ensures 0 <= s.showUps7d <= s.totalAppointments7d ==> 0.0 <= r <= 100.0
  {
    if s.totalAppointments7d > 0 then
      RatioBounds(s.showUps7d as real, s.totalAppointments7d as real);
      (s.showUps7d as real / s.totalAppointments7d as real) * 100.0
    else 0.0
  }

  /** A quotient by a positive number has the dividend's sign, and lies in [0, 1] when 0 <= a <= b. */
  lemma RatioBounds(a: real, b: real)
    requires b > 0.0
    ensures a / b > 0.0 <==> a > 0.0
    ensures 0.0 <= a <= b ==> 0.0 <= a / b <= 1.0
  {
    var q := a / b;
    assert q * b == a;
    if q > 1.0 {
      assert q * b > b;
    }
    if q < 0.0 {
      assert q * b < 0.0;
    }
  }

  /** The strictly positive show-up rates, in list order. */
  function ShowUpRates(clients: seq<Client>): seq<real>
  {
    if |clients| == 0 then []
    else
      var last := clients[|clients| - 1];
      var front := ShowUpRates(clients[..|clients| - 1]);
      var rate := if last.stats.Some? then ShowUpRate(last.stats.value) else 0.0;
      if rate > 0.0 then front + [rate] else front
  }

  /** The portfolio summary, recomputed from the whole client list. */
  function RecalculatePortfolioMetrics(clients: seq<Client>): (m: PortfolioMetrics)
    ensures m.totalClients == |clients|
    ensures m.clientsWithAlerts <= |Settled(clients)| <= |clients|
    ensures |Settled(clients)| == 0 ==>
              m.clientsWithAlerts == 0 && m.avgCpl == 0.0 && m.avgBookingRate == 0.0 && m.avgShowUpRate == 0.0
  {
    var settled := Settled(clients);
    if |settled| == 0 then
      PortfolioMetrics(|clients|, 0, 0.0, 0.0, 0.0)
    else
      var bookingRates := BookingRates(settled);
      var showUpRates := ShowUpRates(settled);
      PortfolioMetrics(
        |clients|,
        CountWithAlerts(settled),
        Sum(Cpls(settled)) / (|settled| as real),
        if |bookingRates| > 0 then Sum(bookingRates) / (|bookingRates| as real) else 0.0,
        if |showUpRates| > 0 then Sum(showUpRates) / (|showUpRates| as real) else 0.0)
  }

  /** A sum of values within [lo, hi] lies within n * lo and n * hi. */
  lemma {:induction false} SumBounds(xs: seq<real>, lo: real, hi: real)
    requires forall i :: 0 <= i < |xs| ==> lo <= xs[i] <= hi
    ensures (|xs| as real) * lo <= Sum(xs) <= (|xs| as real) * hi
  {
    if |xs| > 0 {
      SumBounds(xs[..|xs| - 1], lo, hi);
    }
  }

  /** The mean of values within [lo, hi] lies within [lo, hi]. */
  lemma MeanBounds(xs: seq<real>, lo: real, hi: real)
    requires |xs| > 0
    requires forall i :: 0 <= i < |xs| ==> lo <= xs[i] <= hi
    ensures lo <= Mean(xs) <= hi
  {
    SumBounds(xs, lo, hi);
    QuotientBounds(Sum(xs), |xs| as real, lo, hi);
  }

  lemma QuotientBounds(total: real, n: real, lo: real, hi: real)
    requires n > 0.0 && n * lo <= total <= n * hi
    ensures lo <= total / n <= hi
  {
  }

  /** The metrics agree with the means of the settled clients' values. */
  lemma MetricsAreMeans(clients: seq<Client>)
    ensures var m := RecalculatePortfolioMetrics(clients);
            && m.clientsWithAlerts == CountWithAlerts(Settled(clients))
            && m.avgCpl == Mean(Cpls(Settled(clients)))
            && m.avgBookingRate == Mean(BookingRates(Settled(clients)))
            && m.avgShowUpRate == Mean(ShowUpRates(Settled(clients)))
  {
    var settled := Settled(clients);
    if |settled| == 0 {
      assert BookingRates(settled) == [] && ShowUpRates(settled) == [] && Cpls(settled) == [];
    }
  }

  /** Every show-up rate that is averaged is positive, and at most 100 when no client reports more show-ups than appointments. */
  lemma {:induction false} ShowUpRatesBounded(clients: seq<Client>)
    requires forall c :: c in clients && c.stats.Some? ==> c.stats.value.showUps7d <= c.stats.value.totalAppointments7d
    ensures forall i :: 0 <= i < |ShowUpRates(clients)| ==> 0.0 < ShowUpRates(clients)[i] <= 100.0
  {
    if |clients| > 0 {
      var front := clients[..|clients| - 1];
      assert forall c :: c in front ==> c in clients;
      ShowUpRatesBounded(front);
      var last := clients[|clients| - 1];
    }
  }

  /** When no client reports more show-ups than appointments, the average show-up rate lies in [0, 100]. */
  lemma AvgShowUpRateIsPercentage(clients: seq<Client>)
    requires forall c :: c in clients && c.stats.Some? ==> c.stats.value.showUps7d <= c.stats.value.totalAppointments7d
    ensures 0.0 <= RecalculatePortfolioMetrics(clients).avgShowUpRate <= 100.0
  {
    var settled := Settled(clients);
    ShowUpRatesBounded(settled);
    MetricsAreMeans(clients);
    if |ShowUpRates(settled)| > 0 {
      MeanBounds(ShowUpRates(settled), 0.0, 100.0);
    }
  }

  /** Defined booking rates within [0, 100] average to a value within [0, 100]. */
  lemma {:induction false} BookingRatesBounded(clients: seq<Client>)
    requires forall c :: c in clients && c.stats.Some? && c.stats.value.bookingRate7d.Some? ==>
               0.0 <= c.stats.value.bookingRate7d.value <= 100.0
    ensures forall i :: 0 <= i < |BookingRates(clients)| ==> 0.0 <= BookingRates(clients)[i] <= 100.0
  {
    if |clients| > 0 {
      var front := clients[..|clients| - 1];
      assert forall c :: c in front ==> c in clients;
      BookingRatesBounded(front);
    }
  }

  lemma AvgBookingRateIsPercentage(clients: seq<Client>)
    requires forall c :: c in clients && c.stats.Some? && c.stats.value.bookingRate7d.Some? ==>
               0.0 <= c.stats.value.bookingRate7d.value <= 100.0
    ensures 0.0 <= RecalculatePortfolioMetrics(clients).avgBookingRate <= 100.0
  {
    var settled := Settled(clients);
    BookingRatesBounded(settled);
    MetricsAreMeans(clients);
    if |BookingRates(settled)| > 0 {
      MeanBounds(BookingRates(settled), 0.0, 100.0);
    }
  }

  /** A client that is still loading or has no statistics counts toward the total and nothing else. */
  lemma UnsettledClientOnlyCounted(clients: seq<Client>, c: Client)
    requires !IsSettled(c)
    ensures RecalculatePortfolioMetrics(clients + [c]) ==
              RecalculatePortfolioMetrics(clients).(totalClients := |clients| + 1)
  {
    assert (clients + [c])[..|clients|] == clients;
  }

  /** A null booking rate is left out of the average, not counted as 0. */
  lemma NullBookingRateIgnored(clients: seq<Client>, c: Client)
    requires IsSettled(c) && c.stats.value.bookingRate7d.None?
    ensures RecalculatePortfolioMetrics(clients + [c]).avgBookingRate == RecalculatePortfolioMetrics(clients).avgBookingRate
  {
    assert (clients + [c])[..|clients|] == clients;
    var settled := Settled(clients);
    assert Settled(clients + [c]) == settled + [c];
    assert (settled + [c])[..|settled|] == settled;
    assert BookingRates(settled + [c]) == BookingRates(settled);
    if |settled| == 0 {
      assert BookingRates(settled) == [];
    }
  }

  /** A zero show-up rate is left out of the average as well, not counted as 0. */
  lemma ZeroShowUpRateIgnored(clients: seq<Client>, c: Client)
    requires IsSettled(c) && c.stats.value.showUps7d == 0
    ensures RecalculatePortfolioMetrics(clients + [c]).avgShowUpRate == RecalculatePortfolioMetrics(clients).avgShowUpRate
  {
    assert (clients + [c])[..|clients|] == clients;
    var settled := Settled(clients);
    assert Settled(clients + [c]) == settled + [c];
    assert (settled + [c])[..|settled|] == settled;
    assert ShowUpRates(settled + [c]) == ShowUpRates(settled);
    if |settled| == 0 {
      assert ShowUpRates(settled) == [];
    }
  }

  function Settle(info: ClientData, s: LiveStats): Client
  {
    Client(info, Some(s), false)
  }

  /** Two settled clients with costs per lead of 10 and 20 average 15. */
  lemma AvgCplExample(a: ClientData, b: ClientData)
    ensures RecalculatePortfolioMetrics([Settle(a, MockStats.(cpl7d := 10.0)), Settle(b, MockStats.(cpl7d := 20.0))]).avgCpl == 15.0
  {
    var first := Settle(a, MockStats.(cpl7d := 10.0));
    var second := Settle(b, MockStats.(cpl7d := 20.0));
    var clients := [first, second];
    TwoSettled(first, second);
    assert Cpls([first]) == [10.0] by {
      assert [first][..0] == [];
    }
    assert Cpls(clients) == [10.0, 20.0] by {
      assert clients[..1] == [first];
    }
    assert Sum([10.0]) == 10.0 by {
      assert [10.0][..0] == [];
    }
    assert Sum([10.0, 20.0]) == 30.0 by {
      assert [10.0, 20.0][..1] == [10.0];
    }
    var m := RecalculatePortfolioMetrics(clients);
    assert m.avgCpl == Sum(Cpls(clients)) / 2.0;
  }

  /** Settled clients with booking rates null and 50 average 50. */
  lemma AvgBookingRateExample(a: ClientData, b: ClientData)
    ensures RecalculatePortfolioMetrics([Settle(a, MockStats), Settle(b, MockStats.(bookingRate7d := Some(50.0)))]).avgBookingRate == 50.0
  {
    var first := Settle(a, MockStats);
    var second := Settle(b, MockStats.(bookingRate7d := Some(50.0)));
    var clients := [first, second];
    TwoSettled(first, second);
    assert BookingRates([first]) == [] by {
      assert [first][..0] == [];
    }
    assert BookingRates(clients) == [50.0] by {
      assert clients[..1] == [first];
    }
    assert Sum([50.0]) == 50.0 by {
      assert [50.0][..0] == [];
    }
    var m := RecalculatePortfolioMetrics(clients);
    assert m.avgBookingRate == Sum(BookingRates(clients)) / 1.0;
  }

  lemma TwoSettled(first: Client, second: Client)
    requires IsSettled(first) && IsSettled(second)
    ensures Settled([first, second]) == [first, second]
  {
    assert [first][..0] == [];
    assert Settled([first]) == [first];
    assert [first, second][..1] == [first];
  }

  // ---------------------------------------------------------------------
  // Per-client slot updates
  // ---------------------------------------------------------------------

  /** The update after a client's statistics arrive: every entry with that id gets them and stops loading. */
  function WithStats(clients: seq<Client>, id: string, s: LiveStats): (r: seq<Client>)
    ensures |r| == |clients|
    ensures forall i :: 0 <= i < |clients| && clients[i].info.ghlSubaccountId == id ==>
              r[i] == Client(clients[i].info, Some(s), false)
    ensures forall i :: 0 <= i < |clients| && clients[i].info.ghlSubaccountId != id ==> r[i] == clients[i]
  {
    if |clients| == 0 then []
    else
      var c := clients[0];
      [if c.info.ghlSubaccountId == id then c.(stats := Some(s), loading := false) else c]
        + WithStats(clients[1..], id, s)
  }

  /** The update after a client's fetch fails: every entry with that id stops loading, statistics untouched. */
  function WithLoadFailed(clients: seq<Client>, id: string): (r: seq<Client>)
    ensures |r| == |clients|
    ensures forall i :: 0 <= i < |clients| && clients[i].info.ghlSubaccountId == id ==>
              r[i] == Client(clients[i].info, clients[i].stats, false)
    ensures forall i :: 0 <= i < |clients| && clients[i].info.ghlSubaccountId != id ==> r[i] == clients[i]
  {
    if |clients| == 0 then []
    else
      var c := clients[0];
      [if c.info.ghlSubaccountId == id then c.(loading := false) else c] + WithLoadFailed(clients[1..], id)
  }

  /** Arrivals for two different clients can happen in either order with the same outcome. */
  lemma StatsArrivalsCommute(clients: seq<Client>, a: string, sa: LiveStats, b: string, sb: LiveStats)
    requires a != b
    ensures WithStats(WithStats(clients, a, sa), b, sb) == WithStats(WithStats(clients, b, sb), a, sa)
  {
  }

  /** Delivering the same statistics twice changes nothing the second time. */
  lemma StatsArrivalIdempotent(clients: seq<Client>, id: string, s: LiveStats)
    ensures WithStats(WithStats(clients, id, s), id, s) == WithStats(clients, id, s)
  {
  }

  /** A failed fetch for a client that never had statistics settles nobody new. */
  lemma {:induction false} FailedFetchKeepsSettled(clients: seq<Client>, id: string)
    requires forall c :: c in clients && c.info.ghlSubaccountId == id ==> c.stats.None?
    ensures Settled(WithLoadFailed(clients, id)) == Settled(clients)
  {
    var updated := WithLoadFailed(clients, id);
    forall i | 0 <= i < |clients| && (IsSettled(updated[i]) || IsSettled(clients[i]))
      ensures updated[i] == clients[i]
    {
      assert clients[i] in clients;
    }
    SettledAgree(updated, clients);
  }

  /** Two lists that agree wherever either holds a settled client have the same settled clients. */
  lemma {:induction false} SettledAgree(a: seq<Client>, b: seq<Client>)
    requires |a| == |b|
    requires forall i :: 0 <= i < |a| && (IsSettled(a[i]) || IsSettled(b[i])) ==> a[i] == b[i]
    ensures Settled(a) == Settled(b)
  {
    if |a| > 0 {
      SettledAgree(a[..|a| - 1], b[..|b| - 1]);
    }
  }

  /** A failed fetch for a client that never had statistics leaves the metrics as they were. */
  lemma FailedFetchKeepsMetrics(clients: seq<Client>, id: string)
    requires forall c :: c in clients && c.info.ghlSubaccountId == id ==> c.stats.None?
    ensures RecalculatePortfolioMetrics(WithLoadFailed(clients, id)) == RecalculatePortfolioMetrics(clients)
  {
    FailedFetchKeepsSettled(clients, id);
  }

  /** After statistics arrive for a listed client, it is settled with those statistics. */
  lemma ArrivedClientSettled(clients: seq<Client>, i: nat, s: LiveStats)
    requires i < |clients|
    ensures var r := WithStats(clients, clients[i].info.ghlSubaccountId, s);
            IsSettled(r[i]) && r[i].stats == Some(s) && r[i] in Settled(r)
  {
  }

  // ---------------------------------------------------------------------
  // Client-list normalisation
  // ---------------------------------------------------------------------

  /**
   * The JSON body of the client-list response. An object's `clients`,
   * `data` and `items` are None when missing or null and Some when they
   * hold an array (an empty array included); `record` is the object read
   * as a client record, its clientName "" when the name is missing or empty.
   */
  datatype ListBody =
    | JsonArray(elements: seq<ClientData>)
    | JsonObject(clients: Option<seq<ClientData>>, data: Option<seq<ClientData>>, items: Option<seq<ClientData>>, record: ClientData)
    | JsonOther

  /** What fetching the list produced: a failure (network, HTTP status, unreadable JSON) or a body. */
  datatype ListResponse = FetchFailed | Received(body: ListBody)

  /** The client list read from a response body, possibly empty. */
  function NormaliseClientList(body: ListBody): (r: seq<ClientData>)
    ensures body.JsonArray? ==> r == body.elements
    ensures body.JsonOther? ==> r == []
    ensures body.JsonObject? && body.clients.Some? && body.clients.value != [] ==> r == body.clients.value
    ensures body.JsonObject? && body.clients.None? && body.data.Some? && body.data.value != [] ==> r == body.data.value
    ensures body.JsonObject? && body.clients.None? && body.data.None? && body.items.Some? && body.items.value != [] ==>
              r == body.items.value
    ensures body.JsonObject? && r == [] ==> body.record.clientName == ""
    ensures body.JsonObject? &&
              (|| (body.clients.Some? && body.clients.value == [])
               || (body.clients.None? && body.data.Some? && body.data.value == [])
               || (body.clients.None? && body.data.None? && (body.items.None? || body.items.value == []))) ==>
              r == if body.record.clientName != "" then [body.record] else []
  {
    match body
    case JsonArray(elements) => elements
    case JsonObject(clients, data, items, record) =>
      var listed :=
        if clients.Some? then clients.value
        else if data.Some? then data.value
        else if items.Some? then items.value
        else [];
      if |listed| == 0 && record.clientName != "" then [record] else listed
    case JsonOther => []
  }

  /** An empty `clients` array shadows a non-empty `data` array: only the object itself can still be listed. */
  lemma EmptyClientsFieldShadowsData(data: seq<ClientData>, items: Option<seq<ClientData>>, record: ClientData)
    ensures NormaliseClientList(JsonObject(Some([]), Some(data), items, record)) ==
              if record.clientName != "" then [record] else []
  {
  }

  function Loading(list: seq<ClientData>): (r: seq<Client>)
    ensures |r| == |list|
    ensures forall i :: 0 <= i < |list| ==> r[i] == Client(list[i], None, true)
  {
    if list == [] then [] else [Client(list[0], None, true)] + Loading(list[1..])
  }

  /**
   * The client list installed after the fetch: the normalised list, or the
   * single mock client when the fetch failed or listed nobody; every entry
   * starts loading, without statistics.
   */
  function ClientsFromResponse(response: ListResponse): (r: seq<Client>)
    ensures |r| >= 1
    ensures forall i :: 0 <= i < |r| ==> r[i].loading && r[i].stats.None?
    ensures response.Received? && NormaliseClientList(response.body) != [] ==>
              |r| == |NormaliseClientList(response.body)|
              && forall i :: 0 <= i < |r| ==> r[i].info == NormaliseClientList(response.body)[i]
    ensures response.FetchFailed? || NormaliseClientList(response.body) == [] ==>
              r == [Client(MockClient, None, true)]
  {
    var list := if response.Received? then NormaliseClientList(response.body) else [];
    if |list| == 0 then Loading([MockClient]) else Loading(list)
  }

  // ---------------------------------------------------------------------
  // Show-up label
  // ---------------------------------------------------------------------

  /** "shows/appointments" when there were appointments, "0/0" otherwise. */
  function ShowUpLabel(stats: Option<LiveStats>): string
  {
    if stats.Some? && stats.value.totalAppointments7d > 0 then
      IntToString(stats.value.showUps7d) + "/" + IntToString(stats.value.totalAppointments7d)
    else "0/0"
  }

  /** The label reads "0/0" exactly when there are no statistics or no appointments. */
  lemma ShowUpLabelZeroIff(stats: Option<LiveStats>)
    ensures ShowUpLabel(stats) == "0/0" <==> stats.None? || stats.value.totalAppointments7d <= 0
  {
    if stats.Some? && stats.value.totalAppointments7d > 0 {
      var shows := IntToString(stats.value.showUps7d);
      var total := NatToString(stats.value.totalAppointments7d);
      var text := shows + "/" + total;
      assert shows[0] == '-' || IsDigit(shows[0]);
      assert text[|shows|] == '/';
      assert text[|shows| + 1..] == total;
    }
  }

  /** With appointments, the two numbers can be read back from the label. */
  lemma ShowUpLabelReadsBack(s: LiveStats)
    requires s.totalAppointments7d > 0 && s.showUps7d >= 0
    ensures var text := ShowUpLabel(Some(s));
            var shows := NatToString(s.showUps7d);
            && text == shows + "/" + NatToString(s.totalAppointments7d)
            && ParseDigits(text[..|shows|]) == s.showUps7d
            && ParseDigits(text[|shows| + 1..]) == s.totalAppointments7d
  {
    var shows := NatToString(s.showUps7d);
    var total := NatToString(s.totalAppointments7d);
    var text := shows + "/" + total;
    assert text[..|shows|] == shows;
    assert text[|shows| + 1..] == total;
    NatToStringRoundTrip(s.showUps7d);
    NatToStringRoundTrip(s.totalAppointments7d);
  }

  // ---------------------------------------------------------------------
  // The dashboard's state
  // ---------------------------------------------------------------------

  /** The page's state: the clients, the portfolio metrics, the list-loading flag and the client shown in Insights. */
  class DashboardState {
    var clients: seq<Client>
    var metrics: PortfolioMetrics
    var loading: bool
    var selectedClient: string

    /** The metrics are recomputed after every change of the client list. */
    ghost predicate Valid()
      reads this
    {
      metrics == RecalculatePortfolioMetrics(clients)
    }

    constructor ()
      ensures Valid()
      ensures clients == [] && loading && selectedClient == ""
      ensures metrics == PortfolioMetrics(0, 0, 0.0, 0.0, 0.0)
    {
      clients := [];
      metrics := PortfolioMetrics(0, 0, 0.0, 0.0, 0.0);
      loading := true;
      selectedClient := "";
    }

    /**
     * The client-list fetch settles: the listed clients (or the mock
     * client) are installed, loading, and the first one is selected.
     */
    method ReceiveClientList(response: ListResponse)
      modifies this
      ensures Valid()
      ensures clients == ClientsFromResponse(response)
      ensures selectedClient == clients[0].info.ghlSubaccountId
      ensures !loading
    {
      var list: seq<ClientData> := [];
      if response.Received? {
        list := NormaliseClientList(response.body);
      }
      if |list| == 0 {
        list := [MockClient];
      }
      clients := Loading(list);
      metrics := RecalculatePortfolioMetrics(clients);
      selectedClient := clients[0].info.ghlSubaccountId;
      loading := false;
    }

    /** A client's statistics arrive: its slot is replaced and the metrics recomputed. */
    method ReceiveStats(id: string, s: LiveStats)
      requires Valid()
      modifies this`clients, this`metrics
      ensures Valid()
      ensures clients == WithStats(old(clients), id, s)
      ensures metrics.totalClients == old(metrics.totalClients)
    {
      clients := WithStats(clients, id, s);
      metrics := RecalculatePortfolioMetrics(clients);
    }

    /** A client's statistics fetch fails: its slot stops loading and the metrics are recomputed. */
    method StatsFailed(id: string)
      requires Valid()
      modifies this`clients, this`metrics
      ensures Valid()
      ensures clients == WithLoadFailed(old(clients), id)
      ensures metrics.totalClients == old(metrics.totalClients)
    {
      clients := WithLoadFailed(clients, id);
      metrics := RecalculatePortfolioMetrics(clients);
    }
  }
}
