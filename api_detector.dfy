/**
 * `APIDetector`: decides whether a service exposes a REST API, from its
 * labels and by probing a fixed list of paths. HTTP is a parameter mapping
 * each probed URL to its reply.
 */
module ApiDetector {
  import opened Wrappers
  import opened Text

  /** `APIDetector.COMMON_ENDPOINTS`, tried in this order. */
  const CommonEndpoints: seq<string> := [
    "/api",
    "/api/v1",
    "/api/v2",
    "/api/v3",
    "/api/v1/system/status",
    "/api/v2/app/version",
    "/api/v2/auth/login",
    "/api/v3/system/status",
    "/api/system/status",
    "/api/version",
    "/api/status",
    "/api/health",
    "/health",
    "/healthz",
    "/System/Info/Public",
    "/identity",
    "/docs",
    "/swagger",
    "/api-docs"
  ]

  /** Every probed path is non-empty and starts with `/`. */
  lemma EndpointsAreAbsolute()
    ensures forall k :: 0 <= k < |CommonEndpoints| ==> CommonEndpoints[k] != "" && CommonEndpoints[k][0] == '/'
    ensures "" !in CommonEndpoints
  {
  }

  /** The documentation paths for which an HTML page also counts. */
  const DocEndpoints: seq<string> := ["/docs", "/swagger", "/api-docs"]

  /**
   * The reply to one probe (redirects are not followed). `RequestError` is
   * any exception of the HTTP library (timeout, connection, other request
   * error); `Unexpected` is an exception outside it, which the scan does not
   * catch.
   */
  datatype HttpReply = Reply(status: int, contentType: string) | RequestError | Unexpected

  type Http = string -> HttpReply

  /** The URL probed for one endpoint: the base without trailing slashes, then the path. */
  function EndpointUrl(baseUrl: string, endpoint: string): string {
    RStrip(baseUrl, '/') + endpoint
  }

  /** A reply that marks the endpoint as an API. */
  predicate Qualifies(endpoint: string, reply: HttpReply) {
    && reply.Reply?
    && (reply.status == 200 || reply.status == 401 || reply.status == 403)
    && (|| Contains(reply.contentType, "application/json")
        || reply.status == 401
        || (endpoint in DocEndpoints && Contains(reply.contentType, "text/html")))
  }

  /** The scan moves past endpoint `k`: its probe failed in a caught way or did not qualify. */
  predicate Passed(baseUrl: string, http: Http, k: nat)
    requires k < |CommonEndpoints|
  {
    var reply := http(EndpointUrl(baseUrl, CommonEndpoints[k]));
    !reply.Unexpected? && !Qualifies(CommonEndpoints[k], reply)
  }

  datatype Scan = Found(endpoint: string) | NotFound | Crashed

  /** The scan of `probe_api_endpoints` from position `i` of the list on; `ScanNotFound`, `ScanCrashed`, `ScanFound` and `ScanFindsFirstQualifying` say what it finds. */
  function ScanFrom(baseUrl: string, http: Http, i: nat): (r: Scan)
    requires i <= |CommonEndpoints|
    ensures r.Found? ==> r.endpoint in CommonEndpoints
    decreases |CommonEndpoints| - i
  {
    if i == |CommonEndpoints| then NotFound
    else
      var endpoint := CommonEndpoints[i];
      var reply := http(EndpointUrl(baseUrl, endpoint));
      if reply.Unexpected? then Crashed
      else if Qualifies(endpoint, reply) then Found(endpoint)
      else ScanFrom(baseUrl, http, i + 1)
  }

  /** Every endpoint in `[i, k)` was passed. */
  predicate PassedBetween(baseUrl: string, http: Http, i: nat, k: nat)
    requires i <= k <= |CommonEndpoints|
  {
    forall j :: i <= j < k ==> Passed(baseUrl, http, j)
  }

  /** The probe of endpoint `k` raised outside the HTTP library. */
  predicate CrashesAt(baseUrl: string, http: Http, k: nat)
    requires k < |CommonEndpoints|
  {
    http(EndpointUrl(baseUrl, CommonEndpoints[k])).Unexpected?
  }

  /** The probe of endpoint `k` returned a qualifying reply. */
  predicate QualifiesAt(baseUrl: string, http: Http, k: nat)
    requires k < |CommonEndpoints|
  {
    Qualifies(CommonEndpoints[k], http(EndpointUrl(baseUrl, CommonEndpoints[k])))
  }

  /** A passed endpoint in front of `[i + 1, k)` extends it to `[i, k)`. */
  lemma PassedBetweenShift(baseUrl: string, http: Http, i: nat, k: nat)
    requires i < k <= |CommonEndpoints| && Passed(baseUrl, http, i)
    ensures PassedBetween(baseUrl, http, i, k) <==> PassedBetween(baseUrl, http, i + 1, k)
  {
  }

  /** Nothing is found exactly when every endpoint from `i` on was passed. */
  lemma {:induction false} ScanNotFound(baseUrl: string, http: Http, i: nat)
    requires i <= |CommonEndpoints|
    ensures ScanFrom(baseUrl, http, i).NotFound? <==> PassedBetween(baseUrl, http, i, |CommonEndpoints|)
    decreases |CommonEndpoints| - i
  {
    if i < |CommonEndpoints| {
      if Passed(baseUrl, http, i) {
        ScanNotFound(baseUrl, http, i + 1);
        PassedBetweenShift(baseUrl, http, i, |CommonEndpoints|);
      }
    }
  }

  /** The scan crashes exactly when a probe raises outside the HTTP library before any endpoint qualifies. */
  lemma {:induction false} ScanCrashed(baseUrl: string, http: Http, i: nat)
    requires i <= |CommonEndpoints|
    ensures ScanFrom(baseUrl, http, i).Crashed? <==>
      exists k :: i <= k < |CommonEndpoints| && PassedBetween(baseUrl, http, i, k) && CrashesAt(baseUrl, http, k)
    decreases |CommonEndpoints| - i
  {
    if i < |CommonEndpoints| {
      if Passed(baseUrl, http, i) {
        ScanCrashed(baseUrl, http, i + 1);
        forall k | i < k < |CommonEndpoints| {
          PassedBetweenShift(baseUrl, http, i, k);
        }
        assert !CrashesAt(baseUrl, http, i);
      } else {
        assert PassedBetween(baseUrl, http, i, i);
        forall k | i < k < |CommonEndpoints|
          ensures !PassedBetween(baseUrl, http, i, k)
        {
        }
      }
    }
  }

  /** The scan finds the first endpoint that qualifies, provided every probe before it was passed. */
  lemma {:induction false} ScanFound(baseUrl: string, http: Http, i: nat)
    requires i <= |CommonEndpoints|
    ensures ScanFrom(baseUrl, http, i).Found? <==>
      exists k :: i <= k < |CommonEndpoints| && PassedBetween(baseUrl, http, i, k)
        && !CrashesAt(baseUrl, http, k) && QualifiesAt(baseUrl, http, k)
        && ScanFrom(baseUrl, http, i) == Found(CommonEndpoints[k])
    decreases |CommonEndpoints| - i
  {
    if i < |CommonEndpoints| {
      if Passed(baseUrl, http, i) {
        ScanFound(baseUrl, http, i + 1);
        forall k | i < k < |CommonEndpoints| {
          PassedBetweenShift(baseUrl, http, i, k);
        }
        assert !QualifiesAt(baseUrl, http, i);
      } else {
        assert PassedBetween(baseUrl, http, i, i);
        forall k | i < k < |CommonEndpoints|
          ensures !PassedBetween(baseUrl, http, i, k)
        {
        }
      }
    }
  }

  /** An endpoint that qualifies, with every probe before it passed, is the one the scan finds. */
  lemma {:induction false} ScanFindsFirstQualifying(baseUrl: string, http: Http, i: nat, k: nat)
    requires i <= k < |CommonEndpoints|
    requires PassedBetween(baseUrl, http, i, k) && !CrashesAt(baseUrl, http, k) && QualifiesAt(baseUrl, http, k)
    ensures ScanFrom(baseUrl, http, i) == Found(CommonEndpoints[k])
    decreases k - i
  {
    if i < k {
      assert Passed(baseUrl, http, i);
      PassedBetweenShift(baseUrl, http, i, k);
      ScanFindsFirstQualifying(baseUrl, http, i + 1, k);
    }
  }

  /**
   * `APIDetector.probe_api_endpoints`: the first qualifying endpoint, in list
   * order; errors of one probe move on to the next endpoint.
   */
  method ProbeApiEndpoints(baseUrl: string, http: Http) returns (r: Scan)
    ensures r == ScanFrom(baseUrl, http, 0)
    ensures r.Found? ==> r.endpoint in CommonEndpoints
  {
    for i := 0 to |CommonEndpoints|
      invariant ScanFrom(baseUrl, http, i) == ScanFrom(baseUrl, http, 0)
    {
      var endpoint := CommonEndpoints[i];
      var reply := http(RStrip(baseUrl, '/') + endpoint);
      match reply {
        case Unexpected =>
          return Crashed;
        case RequestError =>
        case Reply(status, contentType) =>
          if status == 200 || status == 401 || status == 403 {
            if Contains(contentType, "application/json") || status == 401 {
              return Found(endpoint);
            }
            if endpoint in DocEndpoints {
              if Contains(contentType, "text/html") {
                return Found(endpoint);
              }
            }
          }
      }
    }
    return NotFound;
  }

  /** Redirects are not followed, so a 3xx reply never marks an API. */
  lemma RedirectsNeverQualify(endpoint: string, status: int, contentType: string)
    requires 300 <= status < 400
    ensures !Qualifies(endpoint, Reply(status, contentType))
  {
  }

  /** A failed probe of every endpoint is not an error: the scan reports no API. */
  lemma RequestErrorsDoNotAbort(baseUrl: string, http: Http)
    requires forall u :: http(u) == RequestError
    ensures ScanFrom(baseUrl, http, 0) == NotFound
  {
    ScanNotFound(baseUrl, http, 0);
  }

  /** `APIDetector.detect_api_from_labels` */
  function DetectApiFromLabels(labels: Option<map<string, string>>): (r: Option<string>)
    ensures labels.None? || labels.value == map[] ==> r.None?
    ensures r.Some? ==> r.value != ""
    ensures labels.Some? && LabelsDeclareType(labels.value) ==> r == Some(labels.value["homelab.api.type"])
    ensures labels.Some? && !LabelsDeclareType(labels.value) ==>
      r == (if ComposeService(labels.value) != "" then Some(Lower(ComposeService(labels.value))) else None)
  {
    match labels
    case None => None
    case Some(m) =>
      if m == map[] then None
      else if LabelsDeclareType(m) then Some(m["homelab.api.type"])
      else if ComposeService(m) != "" then Some(Lower(ComposeService(m)))
      else None
  }

  /** `homelab.api.enabled` is `true` and `homelab.api.type` is non-empty. */
  predicate LabelsDeclareType(m: map<string, string>) {
    && "homelab.api.enabled" in m && m["homelab.api.enabled"] == "true"
    && "homelab.api.type" in m && m["homelab.api.type"] != ""
  }

  /** `com.docker.compose.service`, or `""` when absent. */
  function ComposeService(m: map<string, string>): string {
    if "com.docker.compose.service" in m then m["com.docker.compose.service"] else ""
  }

  /** The type named after the service: lower-cased without spaces if longer than two characters, else `custom`. */
  function ApiTypeFromName(name: string): (r: string)
    ensures r == "custom" || (|r| > 2 && forall i :: 0 <= i < |r| ==> r[i] != ' ')
    ensures |RemoveChar(Lower(name), ' ')| > 2 <==> r == RemoveChar(Lower(name), ' ')
    ensures |RemoveChar(Lower(name), ' ')| <= 2 ==> r == "custom"
  {
    var squashed := RemoveChar(Lower(name), ' ');
    if |squashed| > 2 then squashed else "custom"
  }

  /** What `detect_api` returns: `(has_api, api_type, api_endpoint)`. */
  datatype Detection = Detection(hasApi: bool, apiType: Option<string>, endpoint: Option<string>)

  datatype DetectError = ProbeRaised

  /** The result of `detect_api` once the label type and the scan are known. */
  function DetectionOf(name: string, labelType: Option<string>, scan: Scan): (r: Result<Detection, DetectError>)
    ensures r.Failure? <==> scan.Crashed?
    ensures scan.Found? ==> r == Success(Detection(true, Some(if labelType.Some? then labelType.value else ApiTypeFromName(name)), Some(scan.endpoint)))
    ensures scan.NotFound? ==> r == Success(Detection(false, labelType, None))
  {
    match scan
    case Crashed => Failure(ProbeRaised)
    case Found(endpoint) =>
      var apiType := if labelType.Some? then labelType.value else ApiTypeFromName(name);
      Success(Detection(true, Some(apiType), Some(endpoint)))
    case NotFound => Success(Detection(false, labelType, None))
  }

  /** `APIDetector.detect_api` as a function of its inputs and the network. */
  function DetectApiSpec(name: string, url: string, labels: Option<map<string, string>>, http: Http): Result<Detection, DetectError> {
    DetectionOf(name, DetectApiFromLabels(labels), ScanFrom(url, http, 0))
  }

  /**
   * `APIDetector.detect_api`: the probe always runs, even when the labels
   * already name a type; a detected API always has a non-empty type and one
   * of the listed endpoints.
   */
  method DetectApi(name: string, url: string, labels: Option<map<string, string>>, http: Http)
    returns (r: Result<Detection, DetectError>)
    ensures r == DetectApiSpec(name, url, labels, http)
    ensures r.Success? && r.value.hasApi ==>
      r.value.apiType.Some? && r.value.apiType.value != "" && r.value.endpoint.Some? && r.value.endpoint.value in CommonEndpoints
    ensures r.Success? && !r.value.hasApi ==> r.value.apiType == DetectApiFromLabels(labels) && r.value.endpoint.None?
  {
    var labelType: Option<string> := None;
    if labels.Some? && labels.value != map[] {
      labelType := DetectApiFromLabels(labels);
    }
    var scan := ProbeApiEndpoints(url, http);
    match scan {
      case Crashed =>
        r := Failure(ProbeRaised);
      case Found(endpoint) =>
        var apiType: string;
        if labelType.None? {
          apiType := ApiTypeFromName(name);
        } else {
          apiType := labelType.value;
        }
        r := Success(Detection(true, Some(apiType), Some(endpoint)));
      case NotFound =>
        r := Success(Detection(false, labelType, None));
    }
  }

  /** Labels alone never make an API: without a qualifying endpoint the answer is no. */
  lemma LabelsDoNotSkipProbe(name: string, url: string, m: map<string, string>, http: Http)
    requires LabelsDeclareType(m)
    requires forall j :: 0 <= j < |CommonEndpoints| ==> Passed(url, http, j)
    ensures DetectApiSpec(name, url, Some(m), http) == Success(Detection(false, Some(m["homelab.api.type"]), None))
  {
    ScanNotFound(url, http, 0);
  }
}
