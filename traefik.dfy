/**
 * Traefik discovery and the synchronisation of discovered routers into the
 * service table. The Traefik API itself (the `/version`, `/overview` and
 * `/http/routers` requests) is reduced to its results, which are parameters.
 */
module Traefik {
  import opened Wrappers
  import opened Text
  import opened Models
  import ApiDetector

  /** The placeholder URL the settings ship with. */
  const PlaceholderApiUrl := "http://traefik:8080/api"

  /** `is_traefik_configured`: a URL is set and it is not the placeholder. */
  function IsTraefikConfigured(apiUrl: Option<string>): (r: bool)
    ensures r ==> apiUrl.Some? && apiUrl.value != ""
    ensures apiUrl.Some? && apiUrl.value != "" ==> (r <==> apiUrl.value != PlaceholderApiUrl)
  {
    match apiUrl
    case None => false
    case Some(u) => u != "" && u != PlaceholderApiUrl
  }

  // ---------------------------------------------------------------------
  // Rules: the patterns Host(`...`) and PathPrefix(`...`)
  // ---------------------------------------------------------------------

  /** The pattern's quote class: a backtick or a double quote. */
  predicate IsQuote(c: char) {
    c == '`' || c == '"'
  }

  /** The length of the run of non-quote characters `s` starts with. */
  function QuoteFreeRun(s: string): (n: nat)
    ensures n <= |s|
    ensures forall i :: 0 <= i < n ==> !IsQuote(s[i])
    ensures n == |s| || IsQuote(s[n])
  {
    if s == [] || IsQuote(s[0]) then 0 else 1 + QuoteFreeRun(s[1..])
  }

  /**
   * The group captured by `call(Q([^Q]+)Q)` at position `p` of `s`, where Q is
   * the quote class. The greedy run stops only at a quote or at the end, so
   * there is nothing to backtrack to.
   */
  function MatchAt(s: string, call: string, p: nat): (m: Option<string>)
    requires p <= |s|
    ensures m.Some? ==> m.value != [] && forall i :: 0 <= i < |m.value| ==> !IsQuote(m.value[i])
  {
    var t := s[p..];
    var open := |call| + 1;
    if StartsWith(t, call + "(") && open < |t| && IsQuote(t[open]) then
      var n := QuoteFreeRun(t[open + 1..]);
      var close := open + 1 + n;
      if n > 0 && close + 1 < |t| && IsQuote(t[close]) && t[close + 1] == ')' then Some(t[open + 1..close])
      else None
    else None
  }

  /** A match at `p` is the call, `(`, a quote, the captured group, a quote and `)`. */
  lemma MatchAtSound(s: string, call: string, p: nat)
    requires p <= |s| && MatchAt(s, call, p).Some?
    ensures var t, g := s[p..], MatchAt(s, call, p).value;
      && |call| + |g| + 4 <= |t| && t[..|call| + 1] == call + "("
      && IsQuote(t[|call| + 1]) && t[|call| + 2..|call| + 2 + |g|] == g
      && IsQuote(t[|call| + 2 + |g|]) && t[|call| + 3 + |g|] == ')'
  {
    var t := s[p..];
    var n := QuoteFreeRun(t[|call| + 2..]);
    assert MatchAt(s, call, p).value == t[|call| + 2..|call| + 2 + n];
  }

  /**
   * Any text of the pattern's shape at `p` is matched: the call, `(`, a quote,
   * a non-empty quote-free group, a quote and `)` give that group.
   */
  lemma MatchAtComplete(s: string, call: string, p: nat, q1: char, g: string, q2: char)
    requires p <= |s| && IsQuote(q1) && IsQuote(q2) && g != []
    requires forall i :: 0 <= i < |g| ==> !IsQuote(g[i])
    requires StartsWith(s[p..], call + "(" + [q1] + g + [q2] + ")")
    ensures MatchAt(s, call, p) == Some(g)
  {
    var t := s[p..];
    var head := call + "(";
    var open := |head|;
    var close := open + 1 + |g|;
    var pat := head + [q1] + g + [q2] + ")";
    assert |pat| == close + 2;
    assert t[..|pat|] == pat;
    assert t[..open] == head by {
      assert pat[..open] == head;
      assert t[..open] == t[..|pat|][..open];
    }
    assert t[open] == q1 by {
      assert t[open] == pat[open];
    }
    assert t[open + 1..close] == g by {
      assert pat[open + 1..close] == g;
      assert t[open + 1..close] == t[..|pat|][open + 1..close];
    }
    assert t[close] == q2 && t[close + 1] == ')' by {
      assert t[close] == pat[close] && t[close + 1] == pat[close + 1];
    }
    MatchAtOf(t, call, g);
    assert s[p..][0..] == t;
  }

  /** The text `call(QgQ)...` matches at its start, capturing `g`. */
  lemma MatchAtOf(t: string, call: string, g: string)
    requires g != [] && forall i :: 0 <= i < |g| ==> !IsQuote(g[i])
    requires |call| + |g| + 4 <= |t| && t[..|call| + 1] == call + "(" && IsQuote(t[|call| + 1])
    requires t[|call| + 2..|call| + 2 + |g|] == g && IsQuote(t[|call| + 2 + |g|]) && t[|call| + 3 + |g|] == ')'
    ensures MatchAt(t, call, 0) == Some(g)
  {
    var open := |call| + 1;
    var rest := t[open + 1..];
    assert rest == g + rest[|g|..] by {
      assert rest[..|g|] == t[open + 1..open + 1 + |g|];
    }
    QuoteFreeRunStopsAtQuote(g, rest[|g|..]);
    assert t[0..] == t;
  }

  /** No match of the pattern starts at a position in `[p, q)`. */
  predicate NoMatchBetween(s: string, call: string, p: nat, q: nat)
    requires q <= |s| + 1
  {
    forall j :: p <= j < q ==> MatchAt(s, call, j).None?
  }

  /** Where the first match `re.findall` reports starts: the leftmost match from `p` on. */
  function FirstMatch(s: string, call: string, p: nat): (q: Option<nat>)
    requires p <= |s|
    ensures q.Some? ==> p <= q.value <= |s| && MatchAt(s, call, q.value).Some? && NoMatchBetween(s, call, p, q.value)
    ensures q.None? ==> NoMatchBetween(s, call, p, |s| + 1)
    decreases |s| - p
  {
    if MatchAt(s, call, p).Some? then Some(p)
    else if p == |s| then None
    else
      var q := FirstMatch(s, call, p + 1);
      NoMatchExtends(s, call, p, if q.Some? then q.value else |s| + 1);
      q
  }

  /** A position without a match extends a match-free range by one to the left. */
  lemma NoMatchExtends(s: string, call: string, p: nat, q: nat)
    requires p < q <= |s| + 1 && p <= |s|
    requires MatchAt(s, call, p).None? && NoMatchBetween(s, call, p + 1, q)
    ensures NoMatchBetween(s, call, p, q)
  {
  }

  /** The group of the first match, if any. */
  function FindFirst(s: string, call: string): (g: Option<string>)
    ensures g.Some? <==> FirstMatch(s, call, 0).Some?
    ensures g.Some? ==> g == MatchAt(s, call, FirstMatch(s, call, 0).value)
  {
    match FirstMatch(s, call, 0)
    case None => None
    case Some(q) => MatchAt(s, call, q)
  }

  /** Without the first letter of the call name there is no match. */
  lemma {:induction false} NoMatchWithoutInitial(s: string, call: string, p: nat)
    requires p <= |s| && call != []
    requires forall i :: p <= i < |s| ==> s[i] != call[0]
    ensures FirstMatch(s, call, p) == None
    decreases |s| - p
  {
    assert MatchAt(s, call, p) == None by {
      if p < |s| {
        assert s[p..][0] == s[p];
      }
    }
    if p < |s| {
      NoMatchWithoutInitial(s, call, p + 1);
    }
  }

  /**
   * `_extract_url_from_rule`: the scheme chosen by TLS, the first host, then
   * the first path prefix if there is one.
   */
  function ExtractUrlFromRule(rule: string, hasTls: bool): (r: Option<string>)
    ensures rule == [] ==> r.None?
    ensures r.Some? <==> rule != [] && FindFirst(rule, "Host").Some?
    ensures r.Some? ==> StartsWith(r.value, if hasTls then "https://" else "http://")
    ensures r.Some? ==>
      r.value == (if hasTls then "https" else "http") + "://" + FindFirst(rule, "Host").value + FindFirst(rule, "PathPrefix").GetOr("")
  {
    if rule == [] then None
    else
      match FindFirst(rule, "Host")
      case None => None
      case Some(host) =>
        var protocol := if hasTls then "https" else "http";
        var path := FindFirst(rule, "PathPrefix").GetOr("");
        var url := protocol + "://" + host + path;
        assert url == (protocol + "://") + (host + path);
        Some(url)
  }

  /** A lone `Host(`h`)` rule gives the host under the scheme that TLS selects. */
  lemma SingleHostRule(h: string, hasTls: bool)
    requires h != [] && (forall i :: 0 <= i < |h| ==> !IsQuote(h[i])) && Avoids(h, 'P')
    ensures ExtractUrlFromRule("Host(`" + h + "`)", hasTls) == Some((if hasTls then "https://" else "http://") + h)
  {
    var rule := "Host(`" + h + "`)";
    var t := h + "`)";
    assert rule[6..] == t;
    assert QuoteFreeRun(t) == |h| by {
      QuoteFreeRunStopsAtQuote(h, "`)");
    }
    assert rule[0..] == rule;
    assert "Host" + "(" == "Host(" && rule[..5] == "Host(";
    assert rule[5] == '`' && rule[6 + |h|] == '`' && rule[7 + |h|] == ')';
    assert rule[6..6 + |h|] == h;
    assert MatchAt(rule, "Host", 0) == Some(h);
    assert FindFirst(rule, "Host") == Some(h);
    forall i | 0 <= i < |rule| ensures rule[i] != 'P' {
      if 6 <= i < 6 + |h| {
        assert rule[i] == h[i - 6];
      }
    }
    NoMatchWithoutInitial(rule, "PathPrefix", 0);
    assert FindFirst(rule, "PathPrefix") == None;
    assert (if hasTls then "https" else "http") + "://" + h + "" == (if hasTls then "https://" else "http://") + h;
  }

  lemma {:induction false} QuoteFreeRunStopsAtQuote(h: string, tail: string)
    requires forall i :: 0 <= i < |h| ==> !IsQuote(h[i])
    requires tail != [] && IsQuote(tail[0])
    ensures QuoteFreeRun(h + tail) == |h|
  {
    if h != [] {
      assert (h + tail)[1..] == h[1..] + tail;
      QuoteFreeRunStopsAtQuote(h[1..], tail);
    } else {
      assert h + tail == tail;
    }
  }

  /** The open and close quotes need not match: `Host("h`)` is a host too. */
  lemma MixedQuotesMatch()
    ensures MatchAt("Host(\"ab`)", "Host", 0) == Some("ab")
  {
    var s := "Host(\"ab`)";
    assert s[0..] == s;
    assert s[..5] == "Host(";
    assert s[6..] == "ab`)";
    assert QuoteFreeRun("ab`)") == 2 by {
      QuoteFreeRunStopsAtQuote("ab", "`)");
      assert "ab" + "`)" == "ab`)";
    }
    assert "Host" + "(" == "Host(";
    assert s[6..8] == "ab";
  }

  // ---------------------------------------------------------------------
  // Names and tags
  // ---------------------------------------------------------------------

  /** The capitalised words of a cleaned name. */
  function CapitalizeAll(words: seq<string>): (r: seq<string>)
    ensures |r| == |words|
    ensures forall k :: 0 <= k < |r| ==> r[k] == Capitalize(words[k])
  {
    seq(|words|, k requires 0 <= k < |words| => Capitalize(words[k]))
  }

  /**
   * `_clean_service_name`: the text before the first `@`, with `-` and `_`
   * turned into spaces, as capitalised words joined by single spaces.
   */
  function CleanServiceName(name: string): (r: string)
    ensures Avoids(r, '@') && Avoids(r, '-') && Avoids(r, '_')
    ensures WellSpaced(r)
    ensures Words(r) == CapitalizeAll(Words(ReplaceChar(ReplaceChar(TakeUntil(name, '@'), '-', ' '), '_', ' ')))
  {
    var base := TakeUntil(name, '@');
    var spaced := ReplaceChar(ReplaceChar(base, '-', ' '), '_', ' ');
    var words := Words(spaced);
    var caps := CapitalizeAll(words);
    CleanedNameProperties(base, spaced, words, caps);
    Join(caps, " ")
  }

  lemma CleanedNameProperties(base: string, spaced: string, words: seq<string>, caps: seq<string>)
    requires Avoids(base, '@')
    requires spaced == ReplaceChar(ReplaceChar(base, '-', ' '), '_', ' ')
    requires words == Words(spaced) && caps == CapitalizeAll(words)
    ensures Avoids(Join(caps, " "), '@') && Avoids(Join(caps, " "), '-') && Avoids(Join(caps, " "), '_')
    ensures WellSpaced(Join(caps, " "))
    ensures Words(Join(caps, " ")) == caps
  {
    assert Avoids(spaced, '@') && Avoids(spaced, '-') && Avoids(spaced, '_');
    WordsAvoid(spaced, '@');
    WordsAvoid(spaced, '-');
    WordsAvoid(spaced, '_');
    forall k | 0 <= k < |caps|
      ensures Avoids(caps[k], '@') && Avoids(caps[k], '-') && Avoids(caps[k], '_')
      ensures caps[k] != [] && NoSpace(caps[k])
    {
      CapitalizeAvoids(words[k], '@');
      CapitalizeAvoids(words[k], '-');
      CapitalizeAvoids(words[k], '_');
      CapitalizeNoSpace(words[k]);
    }
    JoinAvoids(caps, " ", '@');
    JoinAvoids(caps, " ", '-');
    JoinAvoids(caps, " ", '_');
    JoinWellSpaced(caps);
    WordsOfJoin(caps);
  }

  /** A router as the Traefik API lists it; missing text fields read as `""`. */
  datatype Router = Router(name: string, rule: string, status: string, service: string, hasTls: bool, provider: string)

  /** `_extract_tags` before joining: the provider, then `docker` when the name mentions it. */
  function TagList(r: Router): (tags: seq<string>)
    ensures |tags| == (if r.provider != "" then 1 else 0) + (if Contains(Lower(r.name), "docker") then 1 else 0)
    ensures r.provider != "" ==> tags[0] == r.provider
    ensures Contains(Lower(r.name), "docker") ==> tags[|tags| - 1] == "docker"
    ensures forall k :: 0 <= k < |tags| ==> tags[k] != ""
  {
    var fromProvider := if r.provider != "" then [r.provider] else [];
    fromProvider + (if Contains(Lower(r.name), "docker") then ["docker"] else [])
  }

  /** `_extract_tags`: the comma-separated tag list, empty when there are no tags. */
  function ExtractTags(r: Router): (s: string)
    ensures r.provider != "" && Contains(Lower(r.name), "docker") ==> s == r.provider + ",docker"
    ensures r.provider != "" && !Contains(Lower(r.name), "docker") ==> s == r.provider
    ensures r.provider == "" && Contains(Lower(r.name), "docker") ==> s == "docker"
    ensures r.provider == "" && !Contains(Lower(r.name), "docker") ==> s == ""
  {
    var tags := TagList(r);
    if |tags| == 2 then
      assert tags[1..] == [tags[1]];
      assert Join(tags, ",") == tags[0] + "," + tags[1];
      Join(tags, ",")
    else Join(tags, ",")
  }

  // ---------------------------------------------------------------------
  // Discovery
  // ---------------------------------------------------------------------

  /** A discovered service (its `service_type` is `docker` and its provider `traefik`). */
  datatype Discovered = Discovered(name: string, url: string, status: Status, routerName: string, serviceName: string, tags: string)

  /** One router of `discover_services`: internal routers and rules without a host give nothing. */
  function RouterToService(r: Router): (d: Option<Discovered>)
    ensures d.Some? <==> !Contains(r.name, "@internal") && !Contains(r.service, "@internal")
                         && ExtractUrlFromRule(r.rule, r.hasTls).Some?
    ensures d.Some? ==> d.value.url == ExtractUrlFromRule(r.rule, r.hasTls).value
    ensures d.Some? ==> (d.value.status == Up <==> r.status == "enabled") && d.value.status != Down
    ensures d.Some? ==> d.value.routerName == r.name && d.value.serviceName == r.service
    ensures d.Some? ==> d.value.name == CleanServiceName(r.name) && d.value.tags == ExtractTags(r)
  {
    if Contains(r.name, "@internal") || Contains(r.service, "@internal") then None
    else
      match ExtractUrlFromRule(r.rule, r.hasTls)
      case None => None
      case Some(url) =>
        Some(Discovered(CleanServiceName(r.name), url, if r.status == "enabled" then Up else Unknown,
                        r.name, r.service, ExtractTags(r)))
  }

  /** `discover_services` as a function: the kept routers, in input order. */
  function Discover(rs: seq<Router>): (ds: seq<Discovered>)
    ensures |ds| <= |rs|
  {
    if rs == [] then []
    else
      var before := Discover(rs[..|rs| - 1]);
      match RouterToService(rs[|rs| - 1])
      case None => before
      case Some(d) => before + [d]
  }

  /** Discovery appends the last router's service, if it has one, to the services of the others. */
  lemma DiscoverLast(rs: seq<Router>)
    requires rs != []
    ensures Discover(rs) == Discover(rs[..|rs| - 1])
      + (if RouterToService(rs[|rs| - 1]).Some? then [RouterToService(rs[|rs| - 1]).value] else [])
  {
  }

  /** Every discovered service comes from one of the routers. */
  lemma {:induction false} DiscoverSound(rs: seq<Router>)
    ensures forall k :: 0 <= k < |Discover(rs)| ==> exists j :: 0 <= j < |rs| && RouterToService(rs[j]) == Some(Discover(rs)[k])
  {
    var ds := Discover(rs);
    forall k | 0 <= k < |ds|
      ensures exists j :: 0 <= j < |rs| && RouterToService(rs[j]) == Some(ds[k])
    {
      DiscoverSoundAt(rs, k);
    }
  }

  /** The `k`-th discovered service comes from one of the routers. */
  lemma {:induction false} DiscoverSoundAt(rs: seq<Router>, k: int)
    requires 0 <= k < |Discover(rs)|
    ensures exists j :: 0 <= j < |rs| && RouterToService(rs[j]) == Some(Discover(rs)[k])
    decreases |rs|
  {
    var front := rs[..|rs| - 1];
    var before := Discover(front);
    DiscoverLast(rs);
    if k < |before| {
      assert Discover(rs)[k] == before[k];
      DiscoverSoundAt(front, k);
      var j :| 0 <= j < |front| && RouterToService(front[j]) == Some(before[k]);
      assert front[j] == rs[j];
    } else {
      var last := RouterToService(rs[|rs| - 1]);
      assert last.Some? && Discover(rs)[k] == last.value;
    }
  }

  /** The service of router `j`, if it has one, is among the discovered ones. */
  lemma {:induction false} DiscoverHas(rs: seq<Router>, j: nat)
    requires j < |rs| && RouterToService(rs[j]).Some?
    ensures RouterToService(rs[j]).value in Discover(rs)
    decreases |rs|
  {
    var front := rs[..|rs| - 1];
    var v := RouterToService(rs[j]).value;
    DiscoverLast(rs);
    if j == |rs| - 1 {
      assert Discover(rs) == Discover(front) + [v];
    } else {
      assert front[j] == rs[j];
      DiscoverHas(front, j);
      var k :| 0 <= k < |Discover(front)| && Discover(front)[k] == v;
      assert Discover(rs)[k] == v;
    }
  }

  /** Every router that yields a service has it discovered. */
  lemma DiscoverComplete(rs: seq<Router>)
    ensures forall j :: 0 <= j < |rs| && RouterToService(rs[j]).Some? ==> RouterToService(rs[j]).value in Discover(rs)
  {
    forall j | 0 <= j < |rs| && RouterToService(rs[j]).Some?
      ensures RouterToService(rs[j]).value in Discover(rs)
    {
      DiscoverHas(rs, j);
    }
  }

  /** Discovery of one more router appends that router's service, if it has one. */
  lemma DiscoverAppend(rs: seq<Router>, r: Router)
    ensures Discover(rs + [r]) == Discover(rs) + (if RouterToService(r).Some? then [RouterToService(r).value] else [])
  {
    var t := rs + [r];
    assert t[..|t| - 1] == rs;
  }

  /** Discovery distributes over concatenation, so it keeps the routers' order. */
  lemma {:induction false} DiscoverConcat(a: seq<Router>, b: seq<Router>)
    ensures Discover(a + b) == Discover(a) + Discover(b)
    decreases |b|
  {
    if b == [] {
      assert a + b == a;
    } else {
      var b' := b[..|b| - 1];
      var r := b[|b| - 1];
      assert a + b == (a + b') + [r];
      assert b == b' + [r];
      DiscoverConcat(a, b');
      DiscoverAppend(a + b', r);
      DiscoverAppend(b', r);
    }
  }

  /** `TraefikService.discover_services`: the loop that appends each kept router's service. */
  method DiscoverServices(routers: seq<Router>) returns (discovered: seq<Discovered>)
    ensures discovered == Discover(routers)
  {
    discovered := [];
    for i := 0 to |routers|
      invariant discovered == Discover(routers[..i])
    {
      assert routers[..i + 1][..i] == routers[..i];
      var router := routers[i];
      if !Contains(router.name, "@internal") && !Contains(router.service, "@internal") {
        var url := ExtractUrlFromRule(router.rule, router.hasTls);
        if url.Some? {
          var info := Discovered(CleanServiceName(router.name), url.value,
                                 if router.status == "enabled" then Up else Unknown,
                                 router.name, router.service, ExtractTags(router));
          discovered := discovered + [info];
        }
      }
    }
    assert routers[..|routers|] == routers;
  }

  // ---------------------------------------------------------------------
  // Synchronisation: API detection throttle
  // ---------------------------------------------------------------------

  /** The throttle's back-off: five minutes. */
  const BackoffSeconds := 300
  const ThrottleAttempts := 5
  const SecondsPerDay := 86400
  const RedetectDays := 7

  /** An existing row that failed often enough and whose next check lies in the future. */
  predicate Throttled(e: Option<ServiceRow>, force: bool, now: int) {
    && e.Some? && e.value.apiDetectionAttempts >= ThrottleAttempts && !force
    && e.value.apiNextCheck.Some? && now < e.value.apiNextCheck.value
  }

  /** The last detection is more than seven whole days old (`timedelta.days` rounds down). */
  predicate Stale(e: Option<ServiceRow>, now: int) {
    e.Some? && e.value.apiLastDetected.Some? && (now - e.value.apiLastDetected.value) / SecondsPerDay > RedetectDays
  }

  /** `should_detect` once the throttle and the seven-day rule have been applied. */
  function ShouldDetect(e: Option<ServiceRow>, force: bool, now: int): (r: bool)
    ensures Stale(e, now) ==> r
    ensures Throttled(e, force, now) && !Stale(e, now) ==> !r
    ensures !Throttled(e, force, now) && !Stale(e, now) ==> (r <==> force || e.None? || !e.value.apiDetected)
  {
    var wanted := force || e.None? || !e.value.apiDetected;
    var afterThrottle := if Throttled(e, force, now) then false else wanted;
    if Stale(e, now) then true else afterThrottle
  }

  /**
   * The API part of one sync step: whether an API counts as detected, its type
   * and endpoint (`""` when none), and the attempt counter and next-check time
   * of the existing row as the step leaves them in memory.
   */
  datatype ApiDecision = ApiDecision(detected: bool, apiType: string, endpoint: string, attempts: nat, nextCheck: Option<int>)

  /** The manual-credentials shortcut, the probe, and the failure counter. */
  function DecideApi(d: Discovered, e: Option<ServiceRow>, force: bool, now: int, http: ApiDetector.Http): (r: ApiDecision)
    ensures e.Some? && e.value.apiUsername != "" ==> r.detected
    ensures e.Some? && e.value.apiUsername != "" ==>
      && r.apiType == (if e.value.apiType != "" then e.value.apiType else RemoveChar(Lower(d.name), ' '))
      && r.endpoint == e.value.apiEndpoint
    ensures r.detected && (e.None? || e.value.apiUsername == "") ==>
      r.endpoint in ApiDetector.CommonEndpoints && r.apiType != "" && r.attempts == 0 && r.nextCheck.None?
    ensures (e.None? || e.value.apiUsername == "") && ShouldDetect(e, force, now) ==>
      (r.detected <==> ApiDetector.DetectApiSpec(d.name, d.url, None, http).Success?
                       && ApiDetector.DetectApiSpec(d.name, d.url, None, http).value.hasApi)
    ensures !r.detected && e.Some? && ShouldDetect(e, force, now) ==>
      r.attempts == e.value.apiDetectionAttempts + 1
      && r.nextCheck == (if r.attempts >= ThrottleAttempts then Some(now + BackoffSeconds) else e.value.apiNextCheck)
    ensures !r.detected && e.Some? && !ShouldDetect(e, force, now) ==>
      r.attempts == e.value.apiDetectionAttempts && r.nextCheck == e.value.apiNextCheck
  {
    var attempts := if e.Some? then e.value.apiDetectionAttempts else 0;
    var next := if e.Some? then e.value.apiNextCheck else None;
    if e.Some? && e.value.apiUsername != "" then
      var apiType := if e.value.apiType != "" then e.value.apiType else RemoveChar(Lower(d.name), ' ');
      ApiDecision(true, apiType, e.value.apiEndpoint, attempts, next)
    else if !ShouldDetect(e, force, now) then
      ApiDecision(false, "", "", attempts, next)
    else
      var detection := ApiDetector.DetectApiSpec(d.name, d.url, None, http);
      if detection.Success? && detection.value.hasApi then
        ApiDecision(true, detection.value.apiType.GetOr(""), detection.value.endpoint.GetOr(""), 0, None)
      else if e.None? then ApiDecision(false, "", "", attempts, next)
        else
          var failed := attempts + 1;
          ApiDecision(false, "", "", failed, if failed >= ThrottleAttempts then Some(now + BackoffSeconds) else next)
  }

  /** The columns a row created by the sync starts with, before the sync's own values. */
  function NewTraefikRow(routerName: string): ServiceRow {
    ServiceRow(
      name := "", url := "", status := Unknown, serviceType := "docker", provider := "traefik",
      isManual := false, lastChecked := None, statusChangedAt := None, responseTime := None,
      description := "", icon := "", tags := "", traefikRouterName := routerName, traefikServiceName := "",
      apiUrl := "", apiKey := "", apiUsername := "", apiPassword := "", apiType := "",
      apiDetected := false, apiEndpoint := "", apiLastDetected := None,
      apiDetectionAttempts := 0, apiNextCheck := None)
  }

  /** The row `update_or_create` starts from: the existing one, or a fresh one for the router. */
  function SyncBase(d: Discovered, e: Option<ServiceRow>): ServiceRow {
    if e.Some? then e.value else NewTraefikRow(d.routerName)
  }

  /**
   * The row `update_or_create` leaves: the existing row (or a new one) with
   * the sync's `defaults`; every column outside `defaults` (description,
   * icon, response time, credentials, the manual flag) is kept.
   */
  function SyncedRow(d: Discovered, e: Option<ServiceRow>, dec: ApiDecision, now: int): (r: ServiceRow)
    ensures r.name == d.name && r.url == d.url && r.status == d.status && r.tags == d.tags
    ensures r.serviceType == "docker" && r.provider == "traefik" && r.traefikServiceName == d.serviceName
    ensures r.lastChecked == Some(now) && r.apiDetected == dec.detected
    ensures r.statusChangedAt ==
      (if e.None? || e.value.status != d.status then Some(now) else e.value.statusChangedAt)
    ensures e.None? ==> !r.isManual && r.traefikRouterName == d.routerName
    ensures dec.detected ==> r.apiLastDetected == Some(now) && r.apiDetectionAttempts == 0 && r.apiNextCheck.None?
    ensures dec.detected ==> r.apiUrl == (if e.None? || e.value.apiUrl == "" then d.url else e.value.apiUrl)
    ensures dec.detected ==>
      && r.apiType == (if dec.apiType != "" then dec.apiType else SyncBase(d, e).apiType)
      && r.apiEndpoint == (if dec.endpoint != "" then dec.endpoint else SyncBase(d, e).apiEndpoint)
    ensures !dec.detected && e.Some? ==> r.apiDetectionAttempts == dec.attempts && r.apiNextCheck == dec.nextCheck
    ensures r == SyncBase(d, e).(name := r.name, url := r.url, status := r.status, serviceType := r.serviceType,
                                 provider := r.provider, traefikServiceName := r.traefikServiceName, tags := r.tags,
                                 lastChecked := r.lastChecked, apiDetected := r.apiDetected,
                                 statusChangedAt := r.statusChangedAt, apiLastDetected := r.apiLastDetected,
                                 apiDetectionAttempts := r.apiDetectionAttempts, apiNextCheck := r.apiNextCheck,
                                 apiType := r.apiType, apiEndpoint := r.apiEndpoint, apiUrl := r.apiUrl)
    ensures !dec.detected ==>
      && r.apiLastDetected == SyncBase(d, e).apiLastDetected && r.apiUrl == SyncBase(d, e).apiUrl
      && r.apiType == SyncBase(d, e).apiType && r.apiEndpoint == SyncBase(d, e).apiEndpoint
  {
    var base := SyncBase(d, e);
    var r := base.(name := d.name, url := d.url, status := d.status, serviceType := "docker",
                   provider := "traefik", traefikServiceName := d.serviceName, tags := d.tags,
                   lastChecked := Some(now), apiDetected := dec.detected,
                   statusChangedAt := if e.None? || e.value.status != d.status then Some(now) else base.statusChangedAt);
    if dec.detected then
      r.(apiLastDetected := Some(now), apiDetectionAttempts := 0, apiNextCheck := None,
         apiType := if dec.apiType != "" then dec.apiType else r.apiType,
         apiEndpoint := if dec.endpoint != "" then dec.endpoint else r.apiEndpoint,
         apiUrl := if e.None? || e.value.apiUrl == "" then d.url else r.apiUrl)
    else if e.Some? then
      r.(apiDetectionAttempts := dec.attempts, apiNextCheck := dec.nextCheck)
    else r
  }

  // ---------------------------------------------------------------------
  // Synchronisation: the table
  // ---------------------------------------------------------------------

  /** The ids of the rows `filter(traefik_router_name=...)` finds. */
  function RouterMatches(rows: map<nat, ServiceRow>, routerName: string): (ids: set<nat>)
    ensures forall id :: id in ids <==> id in rows && rows[id].traefikRouterName == routerName
  {
    set id | id in rows && rows[id].traefikRouterName == routerName
  }

  /** A set of one element is that element's singleton. */
  lemma SingletonIs(s: set<nat>, a: nat)
    requires |s| == 1 && a in s
    ensures s == {a}
  {
    assert |s - {a}| == 0;
    assert s - {a} == {};
  }

  /** The table and the number of services synced so far. */
  datatype Store = Store(rows: map<nat, ServiceRow>, nextId: nat, synced: nat)

  /** The row `update_or_create` writes for `d`: built over the matched row, or from the defaults when there is none. */
  function UpsertRow(st: Store, d: Discovered, target: Option<nat>, force: bool, now: int, http: ApiDetector.Http): ServiceRow
    requires target.Some? ==> target.value in st.rows
  {
    var e := if target.Some? then Some(st.rows[target.value]) else None;
    SyncedRow(d, e, DecideApi(d, e, force, now, http), now)
  }

  /**
   * The write of one sync step once the target row is known (`None`: a new
   * row). A name held by another row makes the write raise; the exception is
   * caught and the service is skipped without any change.
   */
  function StepAt(st: Store, d: Discovered, target: Option<nat>, force: bool, now: int, http: ApiDetector.Http): (st': Store)
    requires target.Some? ==> target.value in st.rows
    ensures st'.synced == st.synced || st'.synced == st.synced + 1
    ensures st'.synced == st.synced ==> st' == st
    ensures var row := UpsertRow(st, d, target, force, now, http);
      && (NameTaken(st.rows, row.name, target) ==> st' == st)
      && (!NameTaken(st.rows, row.name, target) ==> st'.synced == st.synced + 1)
      && (!NameTaken(st.rows, row.name, target) && target.Some? ==>
            st'.rows == st.rows[target.value := row] && st'.nextId == st.nextId)
      && (!NameTaken(st.rows, row.name, target) && target.None? ==>
            st'.rows == st.rows[st.nextId := row] && st'.nextId == st.nextId + 1)
  {
    var row := UpsertRow(st, d, target, force, now, http);
    if NameTaken(st.rows, row.name, target) then st
    else if target.Some? then Store(st.rows[target.value := row], st.nextId, st.synced + 1)
    else Store(st.rows[st.nextId := row], st.nextId + 1, st.synced + 1)
  }

  /**
   * One service of the sync loop. Two rows with the router's name make the
   * upsert raise, which is caught: the service is skipped.
   */
  ghost function SyncStep(st: Store, d: Discovered, force: bool, now: int, http: ApiDetector.Http): Store {
    var ids := RouterMatches(st.rows, d.routerName);
    if |ids| > 1 then st
    else if |ids| == 1 then
      var id :| id in ids;
      StepAt(st, d, Some(id), force, now, http)
    else StepAt(st, d, None, force, now, http)
  }

  /** The sync loop over the discovered services, in order. */
  ghost function SyncAll(st: Store, ds: seq<Discovered>, force: bool, now: int, http: ApiDetector.Http): Store
    decreases |ds|
  {
    if ds == [] then st else SyncAll(SyncStep(st, d := ds[0], force := force, now := now, http := http), ds[1..], force, now, http)
  }

  /** A sync step keeps the table's invariant, deletes nothing, and counts at most one service. */
  lemma SyncStepKeepsTable(st: Store, d: Discovered, force: bool, now: int, http: ApiDetector.Http)
    requires TableInvariant(st.rows, st.nextId)
    ensures var st' := SyncStep(st, d, force, now, http);
      && TableInvariant(st'.rows, st'.nextId)
      && st.rows.Keys <= st'.rows.Keys
      && st.synced <= st'.synced <= st.synced + 1
  {
    var ids := RouterMatches(st.rows, d.routerName);
    if |ids| == 1 {
      var id :| id in ids;
      SingletonIs(ids, id);
      SyncStepTarget(st, d, Some(id), force, now, http);
      StepAtKeepsTable(st, d, Some(id), force, now, http);
    } else if |ids| == 0 {
      SyncStepTarget(st, d, None, force, now, http);
      StepAtKeepsTable(st, d, None, force, now, http);
    }
  }

  lemma StepAtKeepsTable(st: Store, d: Discovered, target: Option<nat>, force: bool, now: int, http: ApiDetector.Http)
    requires TableInvariant(st.rows, st.nextId)
    requires target.Some? ==> target.value in st.rows
    ensures var st' := StepAt(st, d, target, force, now, http);
      TableInvariant(st'.rows, st'.nextId) && st.rows.Keys <= st'.rows.Keys
  {
    var row := UpsertRow(st, d, target, force, now, http);
    if !NameTaken(st.rows, row.name, target) {
      WriteKeepsNamesUnique(st.rows, if target.Some? then target.value else st.nextId, row);
    }
  }

  /** The whole loop keeps the invariant, deletes nothing and counts at most one per service. */
  lemma {:induction false} SyncAllKeepsTable(st: Store, ds: seq<Discovered>, force: bool, now: int, http: ApiDetector.Http)
    requires TableInvariant(st.rows, st.nextId)
    ensures var st' := SyncAll(st, ds, force, now, http);
      && TableInvariant(st'.rows, st'.nextId)
      && st.rows.Keys <= st'.rows.Keys
      && st.synced <= st'.synced <= st.synced + |ds|
    decreases |ds|
  {
    if ds != [] {
      SyncStepKeepsTable(st, ds[0], force, now, http);
      SyncAllKeepsTable(SyncStep(st, ds[0], force, now, http), ds[1..], force, now, http);
    }
  }

  /**
   * The sync matches rows by router name only: a manually added row that
   * carries the router's name is overwritten with the discovered name and URL
   * and stays manual.
   */
  lemma ManualRowIsOverwritten(st: Store, id: nat, d: Discovered, force: bool, now: int, http: ApiDetector.Http)
    requires id in st.rows && st.rows[id].isManual && st.rows[id].traefikRouterName == d.routerName
    requires forall other :: other in st.rows && other != id ==> st.rows[other].traefikRouterName != d.routerName
    requires !NameTaken(st.rows, d.name, Some(id))
    ensures var st' := SyncStep(st, d, force, now, http);
      id in st'.rows && st'.rows[id].name == d.name && st'.rows[id].url == d.url && st'.rows[id].isManual
      && st'.synced == st.synced + 1
  {
    var ids := RouterMatches(st.rows, d.routerName);
    assert ids == {id};
  }

  /**
   * While the throttle holds (and the last detection is recent) no probe is
   * made: the decision is the same whatever the network would answer, and the
   * counter and next-check time are kept.
   */
  lemma ThrottleSkipsProbe(d: Discovered, e: ServiceRow, now: int, http1: ApiDetector.Http, http2: ApiDetector.Http)
    requires e.apiUsername == ""
    requires Throttled(Some(e), false, now) && !Stale(Some(e), now)
    ensures DecideApi(d, Some(e), false, now, http1) == DecideApi(d, Some(e), false, now, http2)
    ensures var dec := DecideApi(d, Some(e), false, now, http1);
      !dec.detected && dec.attempts == e.apiDetectionAttempts && dec.nextCheck == e.apiNextCheck
  {
  }

  /** Once the back-off time is reached, an undetected API is probed again. */
  lemma BackoffReleases(e: ServiceRow, now: int)
    requires !e.apiDetected && e.apiNextCheck.Some? && now >= e.apiNextCheck.value
    ensures ShouldDetect(Some(e), false, now)
  {
  }

  /** A detection more than seven days old is redone even while throttled. */
  lemma StaleDetectionOverridesThrottle(e: ServiceRow, now: int)
    requires Throttled(Some(e), false, now)
    requires e.apiLastDetected.Some? && now - e.apiLastDetected.value >= 8 * SecondsPerDay
    ensures ShouldDetect(Some(e), false, now)
  {
    assert (now - e.apiLastDetected.value) / SecondsPerDay >= 8;
  }

  /**
   * A failed or raising probe of an existing row adds one attempt and, from
   * the fifth on, schedules the next check five minutes ahead.
   */
  lemma FailedProbeCounts(d: Discovered, e: ServiceRow, force: bool, now: int, http: ApiDetector.Http)
    requires e.apiUsername == "" && ShouldDetect(Some(e), force, now)
    requires !(ApiDetector.DetectApiSpec(d.name, d.url, None, http).Success?
               && ApiDetector.DetectApiSpec(d.name, d.url, None, http).value.hasApi)
    ensures var r := SyncedRow(d, Some(e), DecideApi(d, Some(e), force, now, http), now);
      && !r.apiDetected
      && r.apiDetectionAttempts == e.apiDetectionAttempts + 1
      && r.apiNextCheck == (if e.apiDetectionAttempts + 1 >= 5 then Some(now + 300) else e.apiNextCheck)
  {
  }

  /** A successful probe stores the API, resets the counter and fills an empty API URL. */
  lemma DetectedProbeResets(d: Discovered, e: ServiceRow, force: bool, now: int, http: ApiDetector.Http)
    requires e.apiUsername == "" && ShouldDetect(Some(e), force, now)
    requires ApiDetector.DetectApiSpec(d.name, d.url, None, http).Success?
    requires ApiDetector.DetectApiSpec(d.name, d.url, None, http).value.hasApi
    ensures var r := SyncedRow(d, Some(e), DecideApi(d, Some(e), force, now, http), now);
      && r.apiDetected && r.apiDetectionAttempts == 0 && r.apiNextCheck.None?
      && r.apiLastDetected == Some(now) && r.apiEndpoint in ApiDetector.CommonEndpoints
      && (e.apiUrl == "" ==> r.apiUrl == d.url)
  {
    var dec := DecideApi(d, Some(e), force, now, http);
    assert dec.detected;
    ApiDetector.EndpointsAreAbsolute();
    assert dec.endpoint in ApiDetector.CommonEndpoints && dec.endpoint != "";
    var r := SyncedRow(d, Some(e), dec, now);
    assert r.apiEndpoint == dec.endpoint;
  }

  /**
   * Stored manual credentials mark the API as present without probing; the
   * stored type is kept, or derived from the name when there is none.
   */
  lemma ManualCredentialsSkipProbe(d: Discovered, e: ServiceRow, force: bool, now: int, http1: ApiDetector.Http, http2: ApiDetector.Http)
    requires e.apiUsername != ""
    ensures DecideApi(d, Some(e), force, now, http1) == DecideApi(d, Some(e), force, now, http2)
    ensures SyncedRow(d, Some(e), DecideApi(d, Some(e), force, now, http1), now).apiDetected
    ensures var row := SyncedRow(d, Some(e), DecideApi(d, Some(e), force, now, http1), now);
      && row.apiType == (if e.apiType != "" then e.apiType else RemoveChar(Lower(d.name), ' '))
      && row.apiEndpoint == e.apiEndpoint
  {
  }

  /**
   * The stored flag is always the freshly computed one: a row whose API was
   * detected is written back with `api_detected` false by the next unforced
   * sync that skips detection.
   */
  lemma SkippedDetectionClearsFlag(d: Discovered, e: ServiceRow, now: int, http: ApiDetector.Http)
    requires e.apiDetected && e.apiUsername == "" && !Stale(Some(e), now)
    ensures !SyncedRow(d, Some(e), DecideApi(d, Some(e), false, now, http), now).apiDetected
  {
  }

  // ---------------------------------------------------------------------
  // Synchronisation: the loop
  // ---------------------------------------------------------------------

  /**
   * The detection part of the per-service body of `sync_traefik_services`:
   * `should_detect` with its throttle and seven-day rule, then the manual
   * shortcut or the probe, with the attempt counter of the existing row.
   */
  method DecideApiStep(d: Discovered, existing: Option<ServiceRow>, force: bool, now: int, http: ApiDetector.Http)
    returns (dec: ApiDecision)
    ensures dec == DecideApi(d, existing, force, now, http)
  {
    var shouldDetect := force || existing.None? || !existing.value.apiDetected;
    if existing.Some? && existing.value.apiDetectionAttempts >= ThrottleAttempts && !force {
      if existing.value.apiNextCheck.Some? && now < existing.value.apiNextCheck.value {
        shouldDetect := false;
      }
    }
    if existing.Some? && existing.value.apiLastDetected.Some? {
      if (now - existing.value.apiLastDetected.value) / SecondsPerDay > RedetectDays {
        shouldDetect := true;
      }
    }
    assert shouldDetect == ShouldDetect(existing, force, now);

    var attempts := if existing.Some? then existing.value.apiDetectionAttempts else 0;
    var nextCheck := if existing.Some? then existing.value.apiNextCheck else None;
    var apiDetected := false;
    var apiType := "";
    var endpoint := "";
    if existing.Some? && existing.value.apiUsername != "" {
      apiDetected := true;
      apiType := if existing.value.apiType != "" then existing.value.apiType else RemoveChar(Lower(d.name), ' ');
      endpoint := existing.value.apiEndpoint;
    } else if shouldDetect {
      var detection := ApiDetector.DetectApi(d.name, d.url, None, http);
      if detection.Success? && detection.value.hasApi {
        apiDetected := true;
        apiType := detection.value.apiType.GetOr("");
        endpoint := detection.value.endpoint.GetOr("");
        attempts := 0;
        nextCheck := None;
      } else if existing.Some? {
        attempts := attempts + 1;
        if attempts >= ThrottleAttempts {
          nextCheck := Some(now + BackoffSeconds);
        }
      }
    }
    dec := ApiDecision(apiDetected, apiType, endpoint, attempts, nextCheck);
  }

  /** The per-service body of `sync_traefik_services`; `ok` says whether the service counted. */
  method SyncOne(db: ServiceTable, d: Discovered, force: bool, now: int, http: ApiDetector.Http) returns (ok: bool)
    requires db.Valid()
    modifies db
    ensures db.Valid()
    ensures var st := SyncStep(Store(old(db.rows), old(db.nextId), 0), d, force, now, http);
      db.rows == st.rows && db.nextId == st.nextId && (ok <==> st.synced == 1)
  {
    ghost var st0 := Store(db.rows, db.nextId, 0);
    var ids := set id | id in db.rows && db.rows[id].traefikRouterName == d.routerName;
    assert ids == RouterMatches(db.rows, d.routerName);
    if |ids| > 1 {
      return false;
    }
    var existing: Option<ServiceRow> := None;
    var target: Option<nat> := None;
    if |ids| == 1 {
      var id :| id in ids;
      existing := Some(db.rows[id]);
      target := Some(id);
      SingletonIs(ids, id);
    }
    SyncStepTarget(st0, d, target, force, now, http);
    StepAtKeepsTable(st0, d, target, force, now, http);
    ghost var st1 := StepAt(st0, d, target, force, now, http);
    var dec := DecideApiStep(d, existing, force, now, http);
    var row := SyncedRow(d, existing, dec, now);
    if NameTaken(db.rows, row.name, target) {
      assert st1 == st0;
      return false;
    }
    if target.Some? {
      db.rows := db.rows[target.value := row];
    } else {
      db.rows := db.rows[db.nextId := row];
      db.nextId := db.nextId + 1;
    }
    assert st1 == Store(db.rows, db.nextId, 1);
    ok := true;
  }

  /**
   * `sync_traefik_services`: nothing happens unless Traefik is configured,
   * answers `/version` and answers `/overview`; otherwise every discovered
   * service goes through one sync step and the count of the steps that
   * wrote their row is returned.
   */
  method SyncTraefikServices(db: ServiceTable, apiUrl: Option<string>, versionOk: bool, overviewOk: bool,
                             routers: seq<Router>, force: bool, now: int, http: ApiDetector.Http)
    returns (synced: nat)
    requires db.Valid()
    modifies db
    ensures db.Valid()
    ensures !(IsTraefikConfigured(apiUrl) && versionOk && overviewOk) ==>
      synced == 0 && db.rows == old(db.rows) && db.nextId == old(db.nextId)
    ensures IsTraefikConfigured(apiUrl) && versionOk && overviewOk ==>
      Store(db.rows, db.nextId, synced) == SyncAll(Store(old(db.rows), old(db.nextId), 0), Discover(routers), force, now, http)
    ensures synced <= |routers|
  {
    if !(IsTraefikConfigured(apiUrl) && versionOk) {
      return 0;
    }
    if !overviewOk {
      return 0;
    }
    var discovered := DiscoverServices(routers);
    synced := 0;
    ghost var start := Store(db.rows, db.nextId, 0);
    SyncAllKeepsTable(start, discovered, force, now, http);
    for i := 0 to |discovered|
      invariant db.Valid()
      invariant SyncAll(Store(db.rows, db.nextId, synced), discovered[i..], force, now, http)
             == SyncAll(start, discovered, force, now, http)
    {
      ghost var before := Store(db.rows, db.nextId, synced);
      var ok := SyncOne(db, discovered[i], force, now, http);
      if ok {
        synced := synced + 1;
      }
      SyncStepShift(before, discovered[i], force, now, http);
      assert Store(db.rows, db.nextId, synced) == SyncStep(before, discovered[i], force, now, http);
      assert discovered[i..][0] == discovered[i] && discovered[i..][1..] == discovered[i + 1..];
      assert SyncAll(before, discovered[i..], force, now, http)
          == SyncAll(SyncStep(before, discovered[i], force, now, http), discovered[i + 1..], force, now, http);
    }
    assert discovered[|discovered|..] == [];
  }

  /** The counter does not influence the table, and it grows by one exactly when the step wrote. */
  lemma SyncStepShift(st: Store, d: Discovered, force: bool, now: int, http: ApiDetector.Http)
    ensures var a := SyncStep(st, d, force, now, http);
      var b := SyncStep(Store(st.rows, st.nextId, 0), d, force, now, http);
      a == Store(b.rows, b.nextId, st.synced + b.synced) && b.synced <= 1
  {
    var ids := RouterMatches(st.rows, d.routerName);
    if |ids| == 1 {
      var id :| id in ids;
      SingletonIs(ids, id);
      SyncStepTarget(st, d, Some(id), force, now, http);
      SyncStepTarget(Store(st.rows, st.nextId, 0), d, Some(id), force, now, http);
    }
  }

  /**
   * A router no row is keyed by, whose name is free, is inserted under the
   * next id as the row built from the defaults, and counted.
   */
  lemma NewRouterInserted(st: Store, d: Discovered, force: bool, now: int, http: ApiDetector.Http)
    requires RouterMatches(st.rows, d.routerName) == {}
    requires !NameTaken(st.rows, d.name, None)
    ensures SyncStep(st, d, force, now, http) ==
      Store(st.rows[st.nextId := SyncedRow(d, None, DecideApi(d, None, force, now, http), now)], st.nextId + 1, st.synced + 1)
  {
    SyncStepTarget(st, d, None, force, now, http);
    assert UpsertRow(st, d, None, force, now, http).name == d.name;
  }

  /**
   * The one row keyed by the router is overwritten in place with the row
   * built over it, unless another row holds the discovered name.
   */
  lemma MatchedRouterUpdated(st: Store, d: Discovered, id: nat, force: bool, now: int, http: ApiDetector.Http)
    requires RouterMatches(st.rows, d.routerName) == {id}
    requires !NameTaken(st.rows, d.name, Some(id))
    ensures id in st.rows
    ensures SyncStep(st, d, force, now, http) ==
      Store(st.rows[id := SyncedRow(d, Some(st.rows[id]), DecideApi(d, Some(st.rows[id]), force, now, http), now)],
            st.nextId, st.synced + 1)
  {
    assert id in RouterMatches(st.rows, d.routerName);
    SyncStepTarget(st, d, Some(id), force, now, http);
    assert UpsertRow(st, d, Some(id), force, now, http).name == d.name;
  }

  /** With the target row known, a sync step is the write `StepAt` describes. */
  lemma SyncStepTarget(st: Store, d: Discovered, target: Option<nat>, force: bool, now: int, http: ApiDetector.Http)
    requires target.Some? ==> RouterMatches(st.rows, d.routerName) == {target.value}
    requires target.None? ==> RouterMatches(st.rows, d.routerName) == {}
    ensures SyncStep(st, d, force, now, http) == StepAt(st, d, target, force, now, http)
  {
  }
}
