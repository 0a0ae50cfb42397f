/**
 * The service-registry views: create, update and delete manual services,
 * store API credentials, re-detect a service's API, and the refresh action
 * (Traefik sync followed by a health check of every service). A request
 * body is the decoded JSON object, a map from key to string value, which
 * each view first reads into a form or a patch.
 */
module Views {
  import opened Wrappers
  import opened Text
  import opened Models
  import Urls
  import ApiDetector
  import Traefik

  /**
   * The errors the views answer with, and their HTTP status. `NotFound` is
   * the 404 of a lookup made before the view's catch-all handler;
   * `MissingCaught` is the same lookup made inside it (update and delete),
   * where the handler turns the 404 into a 500.
   */
  datatype ViewError = NotFound | MissingCaught | Forbidden | NameRequired | UrlRequired | NameExists | DetectionRaised

  function HttpStatus(e: ViewError): int {
    match e
    case NotFound => 404
    case MissingCaught => 500
    case Forbidden => 403
    case NameRequired => 400
    case UrlRequired => 400
    case NameExists => 400
    case DetectionRaised => 500
  }

  /** The table as a value: rows by id, and the next id to hand out. */
  datatype Table = Table(rows: map<nat, ServiceRow>, nextId: nat)

  /** `objects.create`: the row goes in under the next id. */
  function Insert(t: Table, row: ServiceRow): (r: Table)
    ensures r.nextId == t.nextId + 1 && r.rows.Keys == t.rows.Keys + {t.nextId} && r.rows[t.nextId] == row
    ensures forall id :: id in t.rows && id != t.nextId ==> r.rows[id] == t.rows[id]
  {
    Table(t.rows[t.nextId := row], t.nextId + 1)
  }

  /** `save()` of an existing row. */
  function Replace(t: Table, id: nat, row: ServiceRow): (r: Table)
    requires id in t.rows
    ensures r.nextId == t.nextId && r.rows.Keys == t.rows.Keys && r.rows[id] == row
    ensures forall k :: k in t.rows && k != id ==> r.rows[k] == t.rows[k]
  {
    Table(t.rows[id := row], t.nextId)
  }

  /** The value under `key`, if the body has that key. */
  function Get(data: map<string, string>, key: string): Option<string> {
    if key in data then Some(data[key]) else None
  }

  // ---------------------------------------------------------------------
  // create_service
  // ---------------------------------------------------------------------

  /** The fields `create_service` reads, each with its default. */
  datatype ServiceForm = ServiceForm(name: string, url: string, serviceType: string, provider: string,
                                     description: string, icon: string, tags: string)

  function CreateForm(data: map<string, string>): (f: ServiceForm)
    ensures "name" in data ==> f.name == data["name"]
    ensures "name" !in data ==> f.name == ""
    ensures "url" in data ==> f.url == data["url"]
    ensures "url" !in data ==> f.url == ""
    ensures "service_type" in data ==> f.serviceType == data["service_type"]
    ensures "service_type" !in data ==> f.serviceType == "other"
    ensures "provider" in data ==> f.provider == data["provider"]
    ensures "provider" !in data ==> f.provider == "local"
    ensures "description" in data ==> f.description == data["description"]
    ensures "description" !in data ==> f.description == ""
    ensures "icon" in data ==> f.icon == data["icon"]
    ensures "icon" !in data ==> f.icon == ""
    ensures "tags" in data ==> f.tags == data["tags"]
    ensures "tags" !in data ==> f.tags == ""
  {
    ServiceForm(
      name := Get(data, "name").GetOr(""),
      url := Get(data, "url").GetOr(""),
      serviceType := Get(data, "service_type").GetOr("other"),
      provider := Get(data, "provider").GetOr("local"),
      description := Get(data, "description").GetOr(""),
      icon := Get(data, "icon").GetOr(""),
      tags := Get(data, "tags").GetOr(""))
  }

  /** The row `Service.objects.create` inserts, before its first health check. */
  function NewManualRow(f: ServiceForm): ServiceRow {
    ServiceRow(
      name := Strip(f.name),
      url := Urls.NormalizeUrl(Strip(f.url)),
      status := Unknown,
      serviceType := f.serviceType,
      provider := f.provider,
      isManual := true,
      lastChecked := None, statusChangedAt := None, responseTime := None,
      description := Strip(f.description),
      icon := Strip(f.icon),
      tags := Strip(f.tags),
      traefikRouterName := "", traefikServiceName := "",
      apiUrl := "", apiKey := "", apiUsername := "", apiPassword := "", apiType := "",
      apiDetected := false, apiEndpoint := "", apiLastDetected := None,
      apiDetectionAttempts := 0, apiNextCheck := None)
  }

  /**
   * `create_service`: an empty name is refused first, then an empty URL, then
   * a name already in use; otherwise one manual row is added under the next
   * id, with a scheme-carrying URL, already health-checked.
   */
  function CreateOutcome(t: Table, f: ServiceForm, net: Network, now: int): (r: Result<Table, ViewError>)
    ensures Strip(f.name) == "" ==> r == Failure(NameRequired)
    ensures Strip(f.name) != "" && Strip(f.url) == "" ==> r == Failure(UrlRequired)
    ensures (Strip(f.name) != "" && Strip(f.url) != "" && NameTaken(t.rows, Strip(f.name), None)) ==> r == Failure(NameExists)
    ensures r.Success? ==> r.value.nextId == t.nextId + 1 && r.value.rows.Keys == t.rows.Keys + {t.nextId}
    ensures r.Success? ==> forall id :: id in t.rows && id != t.nextId ==> r.value.rows[id] == t.rows[id]
    ensures r.Success? ==>
      var row := r.value.rows[t.nextId];
      && row.isManual && row.status != Unknown && row.name == Strip(f.name) && row.name != ""
      && row.lastChecked == Some(now) && row.statusChangedAt == Some(now)
      && row.apiUrl == "" && !row.apiDetected
      && !NameTaken(t.rows, row.name, None)
    ensures Strip(f.name) != "" && Strip(f.url) != "" && !NameTaken(t.rows, Strip(f.name), None) ==> r.Success?
    ensures r.Success? ==>
      var row := r.value.rows[t.nextId];
      && row.serviceType == f.serviceType && row.provider == f.provider
      && row.description == Strip(f.description) && row.icon == Strip(f.icon) && row.tags == Strip(f.tags)
      && (row.url != Urls.NormalizeUrl(Strip(f.url)) <==> UrlRewritten(Urls.NormalizeUrl(Strip(f.url)), net))
      && row.status == ProbeResult(Urls.NormalizeUrl(Strip(f.url)), net).status
      && row.responseTime == ProbeResult(Urls.NormalizeUrl(Strip(f.url)), net).responseTime
    ensures r.Success? ==> r.value.rows[t.nextId] == CheckedRow(NewManualRow(f), net, now)
    ensures r.Success? ==>
      var row := r.value.rows[t.nextId];
      && row.apiKey == "" && row.apiUsername == "" && row.apiPassword == "" && row.apiType == ""
      && row.apiEndpoint == "" && row.apiLastDetected.None? && row.apiDetectionAttempts == 0 && row.apiNextCheck.None?
      && row.traefikRouterName == "" && row.traefikServiceName == ""
  {
    var name := Strip(f.name);
    var url := Strip(f.url);
    if name == "" then Failure(NameRequired)
    else if url == "" then Failure(UrlRequired)
    else if NameTaken(t.rows, name, None) then Failure(NameExists)
    else Success(Insert(t, CheckedRow(NewManualRow(f), net, now)))
  }

  /** A successful creation keeps ids below the counter and names unique. */
  lemma CreateKeepsTable(t: Table, f: ServiceForm, net: Network, now: int)
    requires TableInvariant(t.rows, t.nextId)
    requires CreateOutcome(t, f, net, now).Success?
    ensures TableInvariant(CreateOutcome(t, f, net, now).value.rows, t.nextId + 1)
  {
    var row := CreateOutcome(t, f, net, now).value.rows[t.nextId];
    assert !NameTaken(t.rows, row.name, Some(t.nextId));
    WriteKeepsNamesUnique(t.rows, t.nextId, row);
  }

  /** A body without `name` is refused first; one with a name but without `url` next. */
  lemma CreateNeedsNameAndUrl(t: Table, data: map<string, string>, net: Network, now: int)
    ensures "name" !in data ==> CreateOutcome(t, CreateForm(data), net, now) == Failure(NameRequired)
    ensures "name" in data && Strip(data["name"]) != "" && "url" !in data ==>
      CreateOutcome(t, CreateForm(data), net, now) == Failure(UrlRequired)
  {
  }

  /** A created service without `service_type` or `provider` in the body is an `other`, `local` one. */
  lemma CreateDefaults(t: Table, data: map<string, string>, net: Network, now: int)
    requires "service_type" !in data && "provider" !in data
    ensures CreateOutcome(t, CreateForm(data), net, now).Success? ==>
      var row := CreateOutcome(t, CreateForm(data), net, now).value.rows[t.nextId];
      row.serviceType == "other" && row.provider == "local"
  {
  }

  /** `create_service`, run against the table; returns the new service's id. */
  method CreateService(db: ServiceTable, f: ServiceForm, net: Network, now: int) returns (r: Result<nat, ViewError>)
    requires db.Valid()
    modifies db
    ensures db.Valid()
    ensures var o := CreateOutcome(Table(old(db.rows), old(db.nextId)), f, net, now);
      && (r.Failure? <==> o.Failure?)
      && (o.Failure? ==> r.error == o.error && db.rows == old(db.rows) && db.nextId == old(db.nextId))
      && (o.Success? ==> r.value == old(db.nextId) && Table(db.rows, db.nextId) == o.value)
  {
    var t0 := Table(db.rows, db.nextId);
    var name := Strip(f.name);
    var url := Strip(f.url);
    if name == "" {
      return Failure(NameRequired);
    }
    if url == "" {
      return Failure(UrlRequired);
    }
    if NameTaken(db.rows, name, None) {
      return Failure(NameExists);
    }
    var service := new Service.Load(NewManualRow(f));
    var _ := service.CheckHealth(net, now);
    var id := db.nextId;
    var t := Insert(t0, service.Snapshot());
    assert CreateOutcome(t0, f, net, now) == Success(t);
    CreateKeepsTable(t0, f, net, now);
    db.rows, db.nextId := t.rows, t.nextId;
    r := Success(id);
  }

  // ---------------------------------------------------------------------
  // update_service
  // ---------------------------------------------------------------------

  /** The keys `update_service` looks at, present or not. */
  datatype ServicePatch = ServicePatch(name: Option<string>, url: Option<string>, description: Option<string>,
                                       icon: Option<string>, serviceType: Option<string>, provider: Option<string>,
                                       tags: Option<string>)

  function PatchOf(data: map<string, string>): (p: ServicePatch)
    ensures p.name == (if "name" in data then Some(data["name"]) else None)
    ensures p.url == (if "url" in data then Some(data["url"]) else None)
    ensures p.description == (if "description" in data then Some(data["description"]) else None)
    ensures p.icon == (if "icon" in data then Some(data["icon"]) else None)
    ensures p.serviceType == (if "service_type" in data then Some(data["service_type"]) else None)
    ensures p.provider == (if "provider" in data then Some(data["provider"]) else None)
    ensures p.tags == (if "tags" in data then Some(data["tags"]) else None)
  {
    ServicePatch(Get(data, "name"), Get(data, "url"), Get(data, "description"), Get(data, "icon"),
                 Get(data, "service_type"), Get(data, "provider"), Get(data, "tags"))
  }

  /** A present key whose stripped value is not blank. */
  predicate Given(v: Option<string>) {
    v.Some? && Strip(v.value) != ""
  }

  /** The row after the patch is applied; a blank name or URL is ignored. */
  function UpdatedRow(row: ServiceRow, p: ServicePatch): (r: ServiceRow)
    ensures Given(p.name) ==> r.name == Strip(p.name.value)
    ensures !Given(p.name) ==> r.name == row.name
    ensures Given(p.url) ==> r.url == Urls.NormalizeUrl(Strip(p.url.value)) && Urls.HasScheme(Urls.WithScheme(Strip(p.url.value)))
    ensures !Given(p.url) ==> r.url == row.url
    ensures p.description.Some? ==> r.description == Strip(p.description.value)
    ensures p.description.None? ==> r.description == row.description
    ensures p.icon.Some? ==> r.icon == Strip(p.icon.value)
    ensures p.icon.None? ==> r.icon == row.icon
    ensures p.serviceType.Some? ==> r.serviceType == p.serviceType.value
    ensures p.serviceType.None? ==> r.serviceType == row.serviceType
    ensures p.provider.Some? ==> r.provider == p.provider.value
    ensures p.provider.None? ==> r.provider == row.provider
    ensures p.tags.Some? ==> r.tags == Strip(p.tags.value)
    ensures p.tags.None? ==> r.tags == row.tags
    ensures r == row.(name := r.name, url := r.url, description := r.description, icon := r.icon,
                      serviceType := r.serviceType, provider := r.provider, tags := r.tags)
  {
    row.(name := if Given(p.name) then Strip(p.name.value) else row.name,
         url := if Given(p.url) then Urls.NormalizeUrl(Strip(p.url.value)) else row.url,
         description := if p.description.Some? then Strip(p.description.value) else row.description,
         icon := if p.icon.Some? then Strip(p.icon.value) else row.icon,
         serviceType := p.serviceType.GetOr(row.serviceType),
         provider := p.provider.GetOr(row.provider),
         tags := if p.tags.Some? then Strip(p.tags.value) else row.tags)
  }

  /**
   * `update_service`: 404 for an unknown id, 403 for a discovered service,
   * 400 when the new name belongs to another service; otherwise the patch
   * is applied and the service re-checked.
   */
  function UpdateOutcome(t: Table, id: nat, p: ServicePatch, net: Network, now: int): (r: Result<Table, ViewError>)
    ensures id !in t.rows ==> r == Failure(MissingCaught)
    ensures id in t.rows && !t.rows[id].isManual ==> r == Failure(Forbidden)
    ensures id in t.rows && t.rows[id].isManual && Given(p.name) && NameTaken(t.rows, Strip(p.name.value), Some(id)) ==>
      r == Failure(NameExists)
    ensures r.Success? ==> id in t.rows && t.rows[id].isManual
    ensures r.Success? ==> r.value.nextId == t.nextId && r.value.rows.Keys == t.rows.Keys
    ensures r.Success? ==> forall k :: k in t.rows && k != id ==> r.value.rows[k] == t.rows[k]
    ensures r.Success? ==> r.value.rows[id] == CheckedRow(UpdatedRow(t.rows[id], p), net, now)
    ensures id in t.rows && t.rows[id].isManual && !(Given(p.name) && NameTaken(t.rows, Strip(p.name.value), Some(id))) ==>
      r.Success?
  {
    if id !in t.rows then Failure(MissingCaught)
    else if !t.rows[id].isManual then Failure(Forbidden)
    else if Given(p.name) && NameTaken(t.rows, Strip(p.name.value), Some(id)) then Failure(NameExists)
    else
      Success(Replace(t, id, CheckedRow(UpdatedRow(t.rows[id], p), net, now)))
  }

  /** A successful update keeps names unique: a rename onto another service was refused. */
  lemma UpdateKeepsTable(t: Table, id: nat, p: ServicePatch, net: Network, now: int)
    requires TableInvariant(t.rows, t.nextId)
    requires UpdateOutcome(t, id, p, net, now).Success?
    ensures TableInvariant(UpdateOutcome(t, id, p, net, now).value.rows, t.nextId)
  {
    var row := UpdateOutcome(t, id, p, net, now).value.rows[id];
    assert UpdateOutcome(t, id, p, net, now).value == Replace(t, id, row);
    if Given(p.name) {
      WriteKeepsNamesUnique(t.rows, id, row);
    } else {
      RenameFreeWriteKeepsNamesUnique(t.rows, id, row);
    }
  }

  /** `update_service`, run against the table. */
  method UpdateService(db: ServiceTable, id: nat, p: ServicePatch, net: Network, now: int)
    returns (r: Result<(), ViewError>)
    requires db.Valid()
    modifies db
    ensures db.Valid()
    ensures var o := UpdateOutcome(Table(old(db.rows), old(db.nextId)), id, p, net, now);
      && (r.Failure? <==> o.Failure?)
      && (o.Failure? ==> r.error == o.error && db.rows == old(db.rows) && db.nextId == old(db.nextId))
      && (o.Success? ==> Table(db.rows, db.nextId) == o.value)
  {
    if id !in db.rows {
      return Failure(MissingCaught);
    }
    if !db.rows[id].isManual {
      return Failure(Forbidden);
    }
    if p.name.Some? {
      var name := Strip(p.name.value);
      if name != "" && NameTaken(db.rows, name, Some(id)) {
        return Failure(NameExists);
      }
    }
    var service := new Service.Load(UpdatedRow(db.rows[id], p));
    var _ := service.CheckHealth(net, now);
    UpdateKeepsTable(Table(db.rows, db.nextId), id, p, net, now);
    db.rows := Replace(Table(db.rows, db.nextId), id, service.Snapshot()).rows;
    r := Success(());
  }

  // ---------------------------------------------------------------------
  // delete_service
  // ---------------------------------------------------------------------

  /** `delete_service`: only manual services may be removed. */
  function DeleteOutcome(t: Table, id: nat): (r: Result<Table, ViewError>)
    ensures id !in t.rows ==> r == Failure(MissingCaught)
    ensures id in t.rows && !t.rows[id].isManual ==> r == Failure(Forbidden)
    ensures id in t.rows && t.rows[id].isManual ==> r.Success? && r.value.rows.Keys == t.rows.Keys - {id}
    ensures r.Success? ==> r.value.nextId == t.nextId && forall k :: k in r.value.rows ==> k in t.rows && r.value.rows[k] == t.rows[k]
  {
    if id !in t.rows then Failure(MissingCaught)
    else if !t.rows[id].isManual then Failure(Forbidden)
    else Success(Table(t.rows - {id}, t.nextId))
  }

  /** A deletion keeps the table's invariant, and a discovered service survives every delete request. */
  lemma DeleteKeepsTable(t: Table, id: nat, kept: nat)
    requires TableInvariant(t.rows, t.nextId)
    requires DeleteOutcome(t, id).Success?
    requires kept in t.rows && !t.rows[kept].isManual
    ensures TableInvariant(DeleteOutcome(t, id).value.rows, t.nextId)
    ensures kept in DeleteOutcome(t, id).value.rows
  {
    var rows' := DeleteOutcome(t, id).value.rows;
    forall a, b | a in rows' && b in rows' && rows'[a].name == rows'[b].name
      ensures a == b
    {
      assert t.rows[a].name == t.rows[b].name;
    }
  }

  /** `delete_service`, run against the table; returns the deleted service's name. */
  method DeleteService(db: ServiceTable, id: nat) returns (r: Result<string, ViewError>)
    requires db.Valid()
    modifies db
    ensures db.Valid()
    ensures var o := DeleteOutcome(Table(old(db.rows), old(db.nextId)), id);
      && (r.Failure? <==> o.Failure?)
      && (o.Failure? ==> r.error == o.error && db.rows == old(db.rows))
      && (o.Success? ==> r.value == old(db.rows)[id].name && Table(db.rows, db.nextId) == o.value)
  {
    if id !in db.rows {
      return Failure(MissingCaught);
    }
    if !db.rows[id].isManual {
      return Failure(Forbidden);
    }
    var name := db.rows[id].name;
    db.rows := db.rows - {id};
    r := Success(name);
  }

  // ---------------------------------------------------------------------
  // update_service_credentials
  // ---------------------------------------------------------------------

  /** The keys `update_service_credentials` looks at. */
  datatype CredentialsPatch = CredentialsPatch(apiUrl: Option<string>, apiType: Option<string>, apiUsername: Option<string>,
                                               apiPassword: Option<string>, apiKey: Option<string>)

  function CredentialsOf(data: map<string, string>): (p: CredentialsPatch)
    ensures p.apiUrl == (if "api_url" in data then Some(data["api_url"]) else None)
    ensures p.apiType == (if "api_type" in data then Some(data["api_type"]) else None)
    ensures p.apiUsername == (if "api_username" in data then Some(data["api_username"]) else None)
    ensures p.apiPassword == (if "api_password" in data then Some(data["api_password"]) else None)
    ensures p.apiKey == (if "api_key" in data then Some(data["api_key"]) else None)
  {
    CredentialsPatch(Get(data, "api_url"), Get(data, "api_type"), Get(data, "api_username"),
                     Get(data, "api_password"), Get(data, "api_key"))
  }

  /**
   * The row after a credentials update: a non-blank `api_url` is normalised,
   * a blank one is ignored; the other credential keys are stored as given.
   */
  function CredentialsRow(row: ServiceRow, p: CredentialsPatch): (r: ServiceRow)
    ensures Given(p.apiUrl) ==> r.apiUrl == Urls.NormalizeUrl(Strip(p.apiUrl.value))
    ensures !Given(p.apiUrl) ==> r.apiUrl == row.apiUrl
    ensures p.apiPassword.Some? ==> r.apiPassword == p.apiPassword.value
    ensures p.apiPassword.None? ==> r.apiPassword == row.apiPassword
    ensures p.apiType.Some? ==> r.apiType == p.apiType.value
    ensures p.apiType.None? ==> r.apiType == row.apiType
    ensures p.apiUsername.Some? ==> r.apiUsername == p.apiUsername.value
    ensures p.apiUsername.None? ==> r.apiUsername == row.apiUsername
    ensures p.apiKey.Some? ==> r.apiKey == p.apiKey.value
    ensures p.apiKey.None? ==> r.apiKey == row.apiKey
    ensures r == row.(apiUrl := r.apiUrl, apiType := r.apiType, apiUsername := r.apiUsername,
                      apiPassword := r.apiPassword, apiKey := r.apiKey)
  {
    row.(apiUrl := if Given(p.apiUrl) then Urls.NormalizeUrl(Strip(p.apiUrl.value)) else row.apiUrl,
         apiType := p.apiType.GetOr(row.apiType),
         apiUsername := p.apiUsername.GetOr(row.apiUsername),
         apiPassword := p.apiPassword.GetOr(row.apiPassword),
         apiKey := p.apiKey.GetOr(row.apiKey))
  }

  /** `update_service_credentials`: any service, manual or discovered, may be given credentials. */
  method UpdateServiceCredentials(db: ServiceTable, id: nat, p: CredentialsPatch) returns (r: Result<(), ViewError>)
    requires db.Valid()
    modifies db
    ensures db.Valid()
    ensures id !in old(db.rows) ==> r == Failure(NotFound) && db.rows == old(db.rows)
    ensures id in old(db.rows) ==> r.Success? && db.rows == old(db.rows)[id := CredentialsRow(old(db.rows)[id], p)]
    ensures db.nextId == old(db.nextId)
  {
    if id !in db.rows {
      return Failure(NotFound);
    }
    var row := CredentialsRow(db.rows[id], p);
    RenameFreeWriteKeepsNamesUnique(db.rows, id, row);
    db.rows := db.rows[id := row];
    r := Success(());
  }

  // ---------------------------------------------------------------------
  // detect_service_api
  // ---------------------------------------------------------------------

  /** Detected, typed, with an API URL, and with a username and password or a key. */
  predicate AlreadyConfigured(row: ServiceRow) {
    && row.apiDetected && row.apiType != "" && row.apiUrl != ""
    && ((row.apiUsername != "" && row.apiPassword != "") || row.apiKey != "")
  }

  /** What `detect_service_api` answers with. */
  datatype ApiCheck = Configured | ApiFound(apiType: string, endpoint: string, apiUrl: string) | NoApi

  /**
   * `detect_service_api` on one row: a configured API is reported without a
   * probe; a found API is stored and an empty API URL filled from the
   * service URL; a miss clears the flag. A raising probe changes nothing.
   */
  function DetectOutcome(row: ServiceRow, now: int, http: ApiDetector.Http): (r: Result<(ApiCheck, ServiceRow), ViewError>)
    ensures AlreadyConfigured(row) ==> r == Success((Configured, row))
    ensures r.Failure? ==> r.error == DetectionRaised
    ensures r.Success? && r.value.0.ApiFound? ==>
      && r.value.1.apiDetected && r.value.1.apiLastDetected == Some(now)
      && r.value.1.apiEndpoint in ApiDetector.CommonEndpoints && r.value.1.apiType != ""
      && r.value.1.apiUrl == (if row.apiUrl == "" then Urls.NormalizeUrl(row.url) else row.apiUrl)
      && r.value.1.apiUrl == r.value.0.apiUrl
    ensures r.Success? && r.value.0.ApiFound? ==>
      r.value.1 == row.(apiDetected := true, apiType := r.value.0.apiType, apiEndpoint := r.value.0.endpoint,
                        apiLastDetected := Some(now), apiUrl := r.value.0.apiUrl)
    ensures r.Success? && r.value.0.NoApi? ==> r.value.1 == row.(apiDetected := false, apiLastDetected := Some(now))
    ensures r.Success? ==> r.value.1.name == row.name && r.value.1.isManual == row.isManual
    ensures !AlreadyConfigured(row) ==>
      var d := ApiDetector.DetectApiSpec(row.name, row.url, None, http);
      && (r.Failure? <==> d.Failure?)
      && (r.Success? ==> !r.value.0.Configured?)
      && (r.Success? ==> (r.value.0.ApiFound? <==> d.value.hasApi))
      && (r.Success? && r.value.0.ApiFound? ==>
            r.value.0.apiType == d.value.apiType.value && r.value.0.endpoint == d.value.endpoint.value
            && r.value.1.apiType == d.value.apiType.value && r.value.1.apiEndpoint == d.value.endpoint.value)
  {
    if AlreadyConfigured(row) then Success((Configured, row))
    else
      var detection := ApiDetector.DetectApiSpec(row.name, row.url, None, http);
      if detection.Failure? then Failure(DetectionRaised)
      else if detection.value.hasApi then
        var apiType := detection.value.apiType.value;
        var endpoint := detection.value.endpoint.value;
        var apiUrl := if row.apiUrl == "" then Urls.NormalizeUrl(row.url) else row.apiUrl;
        Success((ApiFound(apiType, endpoint, apiUrl),
                 row.(apiDetected := true, apiType := apiType, apiEndpoint := endpoint,
                      apiLastDetected := Some(now), apiUrl := apiUrl)))
      else Success((NoApi, row.(apiDetected := false, apiLastDetected := Some(now))))
  }

  /** `detect_service_api`, run against the table. */
  method DetectServiceApi(db: ServiceTable, id: nat, now: int, http: ApiDetector.Http) returns (r: Result<ApiCheck, ViewError>)
    requires db.Valid()
    modifies db
    ensures db.Valid() && db.nextId == old(db.nextId)
    ensures id !in old(db.rows) ==> r == Failure(NotFound) && db.rows == old(db.rows)
    ensures id in old(db.rows) ==>
      var o := DetectOutcome(old(db.rows)[id], now, http);
      && (o.Failure? ==> r == Failure(o.error) && db.rows == old(db.rows))
      && (o.Success? ==> r == Success(o.value.0) && db.rows == old(db.rows)[id := o.value.1])
  {
    if id !in db.rows {
      return Failure(NotFound);
    }
    var row := db.rows[id];
    if row.apiDetected && row.apiType != "" && row.apiUrl != "" {
      var hasCreds := (row.apiUsername != "" && row.apiPassword != "") || row.apiKey != "";
      if hasCreds {
        return Success(Configured);
      }
    }
    var detection := ApiDetector.DetectApi(row.name, row.url, None, http);
    if detection.Failure? {
      return Failure(DetectionRaised);
    }
    var found := detection.value;
    if found.hasApi {
      row := row.(apiDetected := true, apiType := found.apiType.value, apiEndpoint := found.endpoint.value,
                  apiLastDetected := Some(now));
      if row.apiUrl == "" {
        var apiUrl := row.url;
        if !Urls.HasScheme(apiUrl) {
          apiUrl := Urls.Https + apiUrl;
        }
        row := row.(apiUrl := RStrip(apiUrl, '/'));
      }
      r := Success(ApiFound(found.apiType.value, found.endpoint.value, row.apiUrl));
    } else {
      row := row.(apiDetected := false, apiLastDetected := Some(now));
      r := Success(NoApi);
    }
    RenameFreeWriteKeepsNamesUnique(db.rows, id, row);
    db.rows := db.rows[id := row];
  }

  /**
   * A service with credentials is settled by one successful detection: the
   * next request is answered as already configured, without a probe.
   */
  lemma DetectionSettles(row: ServiceRow, now: int, http: ApiDetector.Http, later: int, http2: ApiDetector.Http)
    requires (row.apiUsername != "" && row.apiPassword != "") || row.apiKey != ""
    requires DetectOutcome(row, now, http).Success? && DetectOutcome(row, now, http).value.0.ApiFound?
    ensures var row' := DetectOutcome(row, now, http).value.1;
      AlreadyConfigured(row') && DetectOutcome(row', later, http2) == Success((Configured, row'))
  {
    var row' := DetectOutcome(row, now, http).value.1;
    if row.apiUrl == "" {
      Urls.NormalizeNonEmpty(row.url);
    }
    assert row'.apiUrl != "";
  }

  /** Once configured, re-detection is a no-op whatever the network does. */
  lemma ConfiguredIsStable(row: ServiceRow, now: int, http1: ApiDetector.Http, http2: ApiDetector.Http)
    requires AlreadyConfigured(row)
    ensures DetectOutcome(row, now, http1) == DetectOutcome(row, now, http2)
    ensures DetectOutcome(row, now, http1).value.1 == row
  {
  }

  // ---------------------------------------------------------------------
  // refresh_services
  // ---------------------------------------------------------------------

  const InfoNotResponding := "Traefik is configured but not responding. Health checks performed. Using manual service management."
  const InfoManualMode := "Using manual service management. Add services with the \"\U{2795} Add Service\" button."

  /** The informative message: one per unavailable mode, none when Traefik answered. */
  function RefreshInfo(configured: bool, available: bool): (info: Option<string>)
    requires available ==> configured
    ensures info.None? <==> available
    ensures configured && !available ==> info == Some(InfoNotResponding)
    ensures !configured ==> info == Some(InfoManualMode)
  {
    if configured && !available then Some(InfoNotResponding)
    else if !configured then Some(InfoManualMode)
    else None
  }

  /** One service after its check: the checked row if `save()` went through, else the stored one. */
  function Refreshed(row: ServiceRow, saved: bool, net: Network, now: int): ServiceRow {
    if saved then CheckedRow(row, net, now) else row
  }

  /**
   * The table after every service was checked; a service in `failing`, whose
   * `save()` raised, keeps its stored row.
   */
  function HealthChecked(rows: map<nat, ServiceRow>, net: Network, now: int, failing: set<nat>): (r: map<nat, ServiceRow>)
    ensures r.Keys == rows.Keys
    ensures forall id :: id in rows && id !in failing ==> r[id].lastChecked == Some(now) && r[id].status != Unknown
    ensures forall id :: id in rows && id in failing ==> r[id] == rows[id]
    ensures forall id :: id in rows ==> r[id].name == rows[id].name
    ensures forall id :: id in rows && id !in failing ==> r[id] == CheckedRow(rows[id], net, now)
  {
    map id | id in rows :: Refreshed(rows[id], id !in failing, net, now)
  }

  /** The JSON body of a successful refresh. */
  datatype RefreshResponse = RefreshResponse(syncedServices: nat, healthChecks: nat, traefikConfigured: bool,
                                             traefikAvailable: bool, info: Option<string>)

  /** The table the Traefik part of a refresh leaves. */
  ghost function AfterSync(t: Table, apiUrl: Option<string>, versionOk: bool, overviewOk: bool,
                           routers: seq<Traefik.Router>, now: int, http: ApiDetector.Http): Table
  {
    if Traefik.IsTraefikConfigured(apiUrl) && versionOk && overviewOk then
      var st := Traefik.SyncAll(Traefik.Store(t.rows, t.nextId, 0), Traefik.Discover(routers), false, now, http);
      Table(st.rows, st.nextId)
    else t
  }

  /**
   * `refresh_services`: a Traefik sync when Traefik is configured and answers,
   * then a health check of every service, counting those that did not raise.
   */
  method RefreshServices(db: ServiceTable, apiUrl: Option<string>, versionOk: bool, overviewOk: bool,
                         routers: seq<Traefik.Router>, now: int, http: ApiDetector.Http, net: Network, failing: set<nat>)
    returns (resp: RefreshResponse)
    requires db.Valid()
    modifies db
    ensures db.Valid()
    ensures resp.traefikConfigured == Traefik.IsTraefikConfigured(apiUrl)
    ensures resp.traefikAvailable == (resp.traefikConfigured && versionOk)
    ensures resp.info == RefreshInfo(resp.traefikConfigured, resp.traefikAvailable)
    ensures !resp.traefikAvailable ==> resp.syncedServices == 0
    ensures resp.traefikAvailable && !overviewOk ==> resp.syncedServices == 0
    ensures resp.traefikAvailable && overviewOk ==>
      resp.syncedServices == Traefik.SyncAll(Traefik.Store(old(db.rows), old(db.nextId), 0), Traefik.Discover(routers),
                                             false, now, http).synced
    ensures var synced := AfterSync(Table(old(db.rows), old(db.nextId)), apiUrl, versionOk, overviewOk, routers, now, http);
      && db.rows == HealthChecked(synced.rows, net, now, failing) && db.nextId == synced.nextId
      && resp.healthChecks == |synced.rows.Keys - failing|
  {
    var configured := Traefik.IsTraefikConfigured(apiUrl);
    var available := false;
    var syncedCount := 0;
    if configured {
      if versionOk {
        syncedCount := Traefik.SyncTraefikServices(db, apiUrl, versionOk, overviewOk, routers, false, now, http);
        available := true;
      }
    }
    var checkedCount := CheckAll(db, net, now, failing);
    resp := RefreshResponse(syncedCount, checkedCount, configured, available, RefreshInfo(configured, available));
  }

  /**
   * `service.check_health()` on one loaded service; `saved` says whether its
   * `save()` went through. A save that raises leaves the stored row as it was.
   */
  method CheckOne(db: ServiceTable, id: nat, net: Network, now: int, saved: bool)
    requires db.Valid() && id in db.rows
    modifies db
    ensures db.Valid() && db.nextId == old(db.nextId)
    ensures db.rows == old(db.rows)[id := Refreshed(old(db.rows)[id], saved, net, now)]
  {
    var service := new Service.Load(db.rows[id]);
    var _ := service.CheckHealth(net, now);
    if saved {
      RenameFreeWriteKeepsNamesUnique(db.rows, id, service.Snapshot());
      db.rows := db.rows[id := service.Snapshot()];
    }
  }

  /** The table part-way through the loop: the services in `pending` are not checked yet. */
  function Partial(start: map<nat, ServiceRow>, pending: set<nat>, net: Network, now: int, failing: set<nat>): map<nat, ServiceRow> {
    map id | id in start :: if id in pending then start[id] else Refreshed(start[id], id !in failing, net, now)
  }

  /** Checking one more service moves the table one step towards `HealthChecked`. */
  lemma PartialStep(start: map<nat, ServiceRow>, pending: set<nat>, id: nat, net: Network, now: int, failing: set<nat>,
                    rows: map<nat, ServiceRow>)
    requires id in pending && pending <= start.Keys
    requires rows == Partial(start, pending, net, now, failing)
    ensures id in rows && rows[id] == start[id]
    ensures rows[id := Refreshed(rows[id], id !in failing, net, now)] == Partial(start, pending - {id}, net, now, failing)
    ensures |start.Keys - (pending - {id}) - failing| == |start.Keys - pending - failing| + (if id in failing then 0 else 1)
    ensures |pending - {id}| < |pending|
  {
    if id in failing {
      assert start.Keys - (pending - {id}) - failing == start.Keys - pending - failing;
    } else {
      assert start.Keys - (pending - {id}) - failing == (start.Keys - pending - failing) + {id};
    }
  }

  /** Before the loop nothing is checked; after it, everything is. */
  lemma PartialEnds(start: map<nat, ServiceRow>, net: Network, now: int, failing: set<nat>)
    ensures Partial(start, start.Keys, net, now, failing) == start
    ensures Partial(start, {}, net, now, failing) == HealthChecked(start, net, now, failing)
  {
  }

  /** The health-check loop of `refresh_services`. */
  method CheckAll(db: ServiceTable, net: Network, now: int, failing: set<nat>) returns (checked: nat)
    requires db.Valid()
    modifies db
    ensures db.Valid() && db.nextId == old(db.nextId)
    ensures db.rows == HealthChecked(old(db.rows), net, now, failing)
    ensures checked == |old(db.rows).Keys - failing|
  {
    ghost var start := db.rows;
    var pending := db.rows.Keys;
    checked := 0;
    PartialEnds(start, net, now, failing);
    while pending != {}
      invariant db.Valid() && db.nextId == old(db.nextId)
      invariant pending <= start.Keys
      invariant db.rows == Partial(start, pending, net, now, failing)
      invariant checked == |start.Keys - pending - failing|
      decreases |pending|
    {
      var id :| id in pending;
      PartialStep(start, pending, id, net, now, failing, db.rows);
      CheckOne(db, id, net, now, id !in failing);
      if id !in failing {
        checked := checked + 1;
      }
      pending := pending - {id};
    }
    assert start.Keys - pending - failing == start.Keys - failing;
  }
}
