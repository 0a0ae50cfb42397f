/**
 * The `Service` and `GrafanaPanel` models: the service record, the health
 * check that updates it in place, the table of services, and the Grafana
 * URL builders.
 */
module Models {
  import opened Wrappers
  import opened Text
  import Urls

  datatype Status = Up | Down | Unknown

  /** The value stored in the `status` column. */
  function StatusText(s: Status): string {
    match s
    case Up => "up"
    case Down => "down"
    case Unknown => "unknown"
  }

  /**
   * One row of the service table. Timestamps are seconds; `""` stands for a
   * blank text column. Credentials are the decrypted values the model
   * instance holds (see module Encryption for how they are stored).
   */
  datatype ServiceRow = ServiceRow(
    name: string,
    url: string,
    status: Status,
    serviceType: string,
    provider: string,
    isManual: bool,
    lastChecked: Option<int>,
    statusChangedAt: Option<int>,
    responseTime: Option<nat>,
    description: string,
    icon: string,
    tags: string,
    traefikRouterName: string,
    traefikServiceName: string,
    apiUrl: string,
    apiKey: string,
    apiUsername: string,
    apiPassword: string,
    apiType: string,
    apiDetected: bool,
    apiEndpoint: string,
    apiLastDetected: Option<int>,
    apiDetectionAttempts: nat,
    apiNextCheck: Option<int>)

  /** `Service.__str__`: the name followed by the status in parentheses. */
  function ServiceLabel(s: ServiceRow): (r: string)
    ensures |r| == |s.name| + |StatusText(s.status)| + 3
    ensures r[..|s.name|] == s.name && r[|s.name|..|s.name| + 2] == " ("
    ensures r[|s.name| + 2..|r| - 1] == StatusText(s.status) && r[|r| - 1] == ')'
  {
    s.name + " (" + StatusText(s.status) + ")"
  }

  // ---------------------------------------------------------------------
  // Health check
  // ---------------------------------------------------------------------

  /** How one GET issued by the health check ended. */
  datatype Attempt =
    | Response(code: int, elapsedMs: nat)
    | SslError
    | Timeout
    | ConnectionError
    | OtherError

  /** The network: the outcome of a GET of a URL, with or without certificate verification. */
  type Network = (string, bool) -> Attempt

  /** `is_service_up`: success, redirects, and the "alive but refusing" codes 401, 403, 405. */
  function IsServiceUp(code: int): (up: bool)
    ensures up <==> (200 <= code < 400 || code == 401 || code == 403 || code == 405)
  {
    if 200 <= code < 300 then true
    else if 300 <= code < 400 then true
    else if code == 401 then true
    else if code == 403 then true
    else if code == 405 then true
    else false
  }

  function Classify(code: int): Status {
    if IsServiceUp(code) then Up else Down
  }

  /** The URL of the plain-HTTP retry: the first `https://` turned into `http://`. */
  function HttpFallbackUrl(url: string): string {
    ReplaceFirst(url, Urls.Https, Urls.Http)
  }

  lemma HttpFallbackUrlShape(url: string)
    requires StartsWith(url, Urls.Https)
    ensures HttpFallbackUrl(url) == Urls.Http + url[|Urls.Https|..]
    ensures HttpFallbackUrl(url) != url
  {
    var h := HttpFallbackUrl(url);
    assert h[4] == ':' && url[4] == 's';
  }

  /** The three fields a health check decides, and the requests it issued. */
  datatype Probe = Probe(status: Status, responseTime: Option<nat>, url: string, requests: seq<(string, bool)>)

  /** The health check moves the service to plain HTTP. */
  predicate UrlRewritten(url: string, net: Network) {
    && net(url, true) == ConnectionError
    && StartsWith(url, Urls.Https)
    && net(HttpFallbackUrl(url), false).Response?
    && IsServiceUp(net(HttpFallbackUrl(url), false).code)
  }

  /**
   * The fallback cascade of `check_health`: a verified GET; on a certificate
   * error one unverified retry of the same URL; on a connection error to an
   * `https://` URL one unverified GET over plain HTTP.
   */
  function ProbeResult(url: string, net: Network): (p: Probe)
    ensures p.status == Up || p.status == Down
    ensures 1 <= |p.requests| <= 2 && p.requests[0] == (url, true)
    ensures |p.requests| == 2 <==> net(url, true) == SslError || (net(url, true) == ConnectionError && StartsWith(url, Urls.Https))
    ensures p.url != url <==> UrlRewritten(url, net)
    ensures p.url != url ==> p.url == Urls.Http + url[|Urls.Https|..] && p.status == Up
    ensures net(url, true).Response? ==>
      p == Probe(Classify(net(url, true).code), Some(net(url, true).elapsedMs), url, [(url, true)])
    ensures net(url, true) == OtherError || (net(url, true) == ConnectionError && !StartsWith(url, Urls.Https)) ==>
      p == Probe(Down, None, url, [(url, true)])
    ensures net(url, true) == ConnectionError && StartsWith(url, Urls.Https) ==> (p.status == Up <==> UrlRewritten(url, net))
    ensures net(url, true) == ConnectionError && StartsWith(url, Urls.Https) ==>
      p.responseTime == (if UrlRewritten(url, net) then Some(net(HttpFallbackUrl(url), false).elapsedMs) else None)
  {
    match net(url, true)
    case Response(code, ms) => Probe(Classify(code), Some(ms), url, [(url, true)])
    case SslError =>
      var calls := [(url, true), (url, false)];
      (match net(url, false)
       case Response(code, ms) => Probe(Classify(code), Some(ms), url, calls)
       case _ => Probe(Down, None, url, calls))
    case Timeout => Probe(Down, None, url, [(url, true)])
    case ConnectionError =>
      if StartsWith(url, Urls.Https) then
        var httpUrl := HttpFallbackUrl(url);
        HttpFallbackUrlShape(url);
        var calls := [(url, true), (httpUrl, false)];
        (match net(httpUrl, false)
         case Response(code, ms) =>
           if IsServiceUp(code) then Probe(Up, Some(ms), httpUrl, calls) else Probe(Down, None, url, calls)
         case _ => Probe(Down, None, url, calls))
      else Probe(Down, None, url, [(url, true)])
    case OtherError => Probe(Down, None, url, [(url, true)])
  }

  /** Common status codes, classified by `is_service_up`: 2xx, 3xx and 401, 403, 405 are up; 404 and 5xx are down. */
  lemma StatusCodeTable()
    ensures IsServiceUp(200) && IsServiceUp(301) && IsServiceUp(302)
    ensures IsServiceUp(401) && IsServiceUp(403) && IsServiceUp(405)
    ensures !IsServiceUp(404) && !IsServiceUp(500) && !IsServiceUp(503)
  {
  }

  /** A timeout is down with no response time, and nothing is retried. */
  lemma TimeoutIsDown(url: string, net: Network)
    requires net(url, true) == Timeout
    ensures ProbeResult(url, net) == Probe(Down, None, url, [(url, true)])
  {
  }

  /**
   * A certificate error causes exactly one unverified retry, classified by the
   * same rule; a failing retry is down with no response time.
   */
  lemma SslRetriesOnce(url: string, net: Network)
    requires net(url, true) == SslError
    ensures ProbeResult(url, net).requests == [(url, true), (url, false)]
    ensures net(url, false).Response? ==>
      ProbeResult(url, net) == Probe(Classify(net(url, false).code), Some(net(url, false).elapsedMs), url, [(url, true), (url, false)])
    ensures !net(url, false).Response? ==> ProbeResult(url, net).status == Down && ProbeResult(url, net).responseTime == None
  {
  }

  /**
   * The first GET keeps its measured time even when its code means down,
   * whereas a plain-HTTP retry that answers with a down code clears it.
   */
  lemma ResponseTimeKeptOnlyOnMainPath(url: string, net: Network)
    ensures net(url, true).Response? ==> ProbeResult(url, net).responseTime == Some(net(url, true).elapsedMs)
    ensures net(url, true) == ConnectionError && StartsWith(url, Urls.Https)
            && net(HttpFallbackUrl(url), false).Response? && !IsServiceUp(net(HttpFallbackUrl(url), false).code)
            ==> ProbeResult(url, net).status == Down && ProbeResult(url, net).responseTime == None
  {
  }

  /**
   * `check_health` applied to a row: the probe's verdict, a fresh
   * `last_checked`, and `status_changed_at` only when the status changed.
   */
  function CheckedRow(row: ServiceRow, net: Network, now: int): (r: ServiceRow)
    ensures r.status == Up || r.status == Down
    ensures r.lastChecked == Some(now)
    ensures r.statusChangedAt == (if r.status != row.status then Some(now) else row.statusChangedAt)
    ensures r.url != row.url <==> UrlRewritten(row.url, net)
    ensures var p := ProbeResult(row.url, net);
      r.status == p.status && r.responseTime == p.responseTime && r.url == p.url
    ensures r == row.(status := r.status, responseTime := r.responseTime, url := r.url,
                      statusChangedAt := r.statusChangedAt, lastChecked := r.lastChecked)
  {
    var p := ProbeResult(row.url, net);
    row.(status := p.status, responseTime := p.responseTime, url := p.url,
         statusChangedAt := if p.status != row.status then Some(now) else row.statusChangedAt,
         lastChecked := Some(now))
  }

  /**
   * A model instance loaded from the table. `check_health` writes five of its
   * columns; the rest stay as loaded.
   */
  class Service {
    const record: ServiceRow
    var url: string
    var status: Status
    var responseTime: Option<nat>
    var statusChangedAt: Option<int>
    var lastChecked: Option<int>

    /** The row `save()` writes back. */
    function Snapshot(): ServiceRow
      reads this
    {
      record.(url := url, status := status, responseTime := responseTime,
              statusChangedAt := statusChangedAt, lastChecked := lastChecked)
    }

    constructor Load(row: ServiceRow)
      ensures Snapshot() == row
    {
      record := row;
      url := row.url;
      status := row.status;
      responseTime := row.responseTime;
      statusChangedAt := row.statusChangedAt;
      lastChecked := row.lastChecked;
    }

    /** `Service.check_health`: returns the new status. No history row is appended. */
    method CheckHealth(net: Network, now: int) returns (result: Status)
      modifies this
      ensures Snapshot() == CheckedRow(old(Snapshot()), net, now)
      ensures result == status && result != Unknown
    {
      var oldStatus := status;
      match net(url, true) {
        case Response(code, ms) =>
          responseTime := Some(ms);
          if IsServiceUp(code) { status := Up; } else { status := Down; }
        case SslError =>
          match net(url, false) {
            case Response(code, ms) =>
              responseTime := Some(ms);
              if IsServiceUp(code) { status := Up; } else { status := Down; }
            case _ =>
              status := Down;
              responseTime := None;
          }
        case Timeout =>
          status := Down;
          responseTime := None;
        case ConnectionError =>
          if StartsWith(url, Urls.Https) {
            var httpUrl := HttpFallbackUrl(url);
            match net(httpUrl, false) {
              case Response(code, ms) =>
                responseTime := Some(ms);
                if IsServiceUp(code) {
                  status := Up;
                  url := httpUrl;
                } else {
                  status := Down;
                  responseTime := None;
                }
              case _ =>
                status := Down;
                responseTime := None;
            }
          } else {
            status := Down;
            responseTime := None;
          }
        case OtherError =>
          status := Down;
          responseTime := None;
      }
      if oldStatus != status {
        statusChangedAt := Some(now);
      }
      lastChecked := Some(now);
      result := status;
    }
  }

  // ---------------------------------------------------------------------
  // The service table
  // ---------------------------------------------------------------------

  /** The unique constraint on `name`. */
  ghost predicate UniqueNames(rows: map<nat, ServiceRow>) {
    forall a, b :: a in rows && b in rows && rows[a].name == rows[b].name ==> a == b
  }

  /** Some row other than `self` already has this name. */
  predicate NameTaken(rows: map<nat, ServiceRow>, name: string, self: Option<nat>) {
    exists id :: id in rows && rows[id].name == name && self != Some(id)
  }

  ghost predicate TableInvariant(rows: map<nat, ServiceRow>, nextId: nat) {
    (forall id :: id in rows ==> id < nextId) && UniqueNames(rows)
  }

  /** Writing a row whose name no other row holds keeps names unique. */
  lemma WriteKeepsNamesUnique(rows: map<nat, ServiceRow>, id: nat, row: ServiceRow)
    requires UniqueNames(rows)
    requires !NameTaken(rows, row.name, Some(id))
    ensures UniqueNames(rows[id := row])
  {
  }

  /** Changing a row without changing its name keeps names unique. */
  lemma RenameFreeWriteKeepsNamesUnique(rows: map<nat, ServiceRow>, id: nat, row: ServiceRow)
    requires UniqueNames(rows) && id in rows && rows[id].name == row.name
    ensures UniqueNames(rows[id := row])
  {
    WriteKeepsNamesUnique(rows, id, row);
  }

  /** The `Service` table: rows by primary key, and the next key to hand out. */
  class ServiceTable {
    var rows: map<nat, ServiceRow>
    var nextId: nat

    ghost predicate Valid()
      reads this
    {
      TableInvariant(rows, nextId)
    }

    constructor ()
      ensures Valid() && rows == map[] && nextId == 0
    {
      rows := map[];
      nextId := 0;
    }
  }

  // ---------------------------------------------------------------------
  // Grafana panels
  // ---------------------------------------------------------------------

  datatype GrafanaPanel = GrafanaPanel(
    title: string,
    grafanaUrl: string,
    dashboardUid: string,
    panelId: int,
    theme: string,
    refresh: string,
    fromTime: string,
    toTime: string)

  /** The Grafana base URL without its trailing slashes. */
  function GrafanaBase(p: GrafanaPanel): (b: string)
    ensures StartsWith(p.grafanaUrl, b) && (b == [] || b[|b| - 1] != '/')
    ensures forall i :: |b| <= i < |p.grafanaUrl| ==> p.grafanaUrl[i] == '/'
  {
    RStrip(p.grafanaUrl, '/')
  }

  /** The query parameters of an embed URL, in their fixed order. */
  function EmbedParams(p: GrafanaPanel): seq<string> {
    [ "orgId=1",
      "panelId=" + IntToString(p.panelId),
      "theme=" + p.theme,
      "from=" + p.fromTime,
      "to=" + p.toTime,
      "refresh=" + p.refresh ]
  }

  /** `GrafanaPanel.get_embed_url` */
  function GetEmbedUrl(p: GrafanaPanel): (r: string)
    ensures StartsWith(r, GrafanaBase(p) + "/d-solo/" + p.dashboardUid + "?orgId=1&")
  {
    var head := GrafanaBase(p) + "/d-solo/" + p.dashboardUid + "?";
    var query := Join(EmbedParams(p), "&");
    assert StartsWith(query, "orgId=1&");
    assert (head + query)[..|head| + 8] == head + "orgId=1&";
    head + query
  }

  /** `GrafanaPanel.get_dashboard_url` */
  function GetDashboardUrl(p: GrafanaPanel): (r: string)
    ensures StartsWith(r, GrafanaBase(p)) && r[|GrafanaBase(p)|..] == "/d/" + p.dashboardUid
  {
    GrafanaBase(p) + "/d/" + p.dashboardUid
  }

  /** Six parts joined by a separator. */
  lemma JoinSix(a: string, b: string, c: string, d: string, e: string, f: string, sep: string)
    ensures Join([a, b, c, d, e, f], sep) == a + sep + b + sep + c + sep + d + sep + e + sep + f
  {
    assert Join([e, f], sep) == e + sep + f by {
      assert [e, f][1..] == [f];
    }
    assert Join([d, e, f], sep) == d + sep + (e + sep + f) by {
      assert [d, e, f][1..] == [e, f];
    }
    assert Join([c, d, e, f], sep) == c + sep + (d + sep + (e + sep + f)) by {
      assert [c, d, e, f][1..] == [d, e, f];
    }
    assert Join([b, c, d, e, f], sep) == b + sep + (c + sep + (d + sep + (e + sep + f))) by {
      assert [b, c, d, e, f][1..] == [c, d, e, f];
    }
    assert Join([a, b, c, d, e, f], sep) == a + sep + (b + sep + (c + sep + (d + sep + (e + sep + f)))) by {
      assert [a, b, c, d, e, f][1..] == [b, c, d, e, f];
    }
  }

  /** The embed URL: the base, the panel path, `?` and the six parameters joined by `&` in their fixed order. */
  lemma EmbedQueryOrder(p: GrafanaPanel)
    ensures GetEmbedUrl(p) ==
      GrafanaBase(p) + "/d-solo/" + p.dashboardUid + "?"
      + ("orgId=1" + "&" + ("panelId=" + IntToString(p.panelId)) + "&" + ("theme=" + p.theme)
         + "&" + ("from=" + p.fromTime) + "&" + ("to=" + p.toTime) + "&" + ("refresh=" + p.refresh))
  {
    JoinSix("orgId=1", "panelId=" + IntToString(p.panelId), "theme=" + p.theme,
            "from=" + p.fromTime, "to=" + p.toTime, "refresh=" + p.refresh, "&");
  }

  /** The embed and the dashboard URL share the trimmed Grafana base. */
  lemma EmbedAndDashboardShareBase(p: GrafanaPanel)
    ensures StartsWith(GetEmbedUrl(p), GrafanaBase(p)) && StartsWith(GetDashboardUrl(p), GrafanaBase(p))
  {
    var b := GrafanaBase(p);
    var e := GetEmbedUrl(p);
    assert e[..|b|] == (b + "/d-solo/" + p.dashboardUid + "?orgId=1&")[..|b|];
  }
}
