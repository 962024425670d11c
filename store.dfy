/**
 * The store component client of aiohasupervisor/store.py: the call each
 * method issues (verb, path, expected response kind, JSON body and timeout
 * override) and how it reads the result. The component client's transport,
 * aiohasupervisor/client.py, is not part of this model; calls are described
 * with the verb defaults and the response classification of the transport
 * in the Client module.
 */
module Store {
  import opened Wrappers
  import opened Json
  import opened Const
  import opened Client

  /** The store operations, with their arguments. */
  datatype StoreOp =
      Info
    | AddonsList
    | AddonInfo(addon: string)
    | AddonChangelog(addon: string)
    | AddonDocumentation(addon: string)
    | AddonAvailability(addon: string)
    | InstallAddon(addon: string, options: Option<AddonOptions>)
    | UpdateAddon(addon: string, options: Option<AddonOptions>)
    | Reload
    | RepositoriesList
    | RepositoryInfo(repository: string)
    | AddRepository(repositoryOptions: Json)
    | RemoveRepository(repository: string)

  /**
   * `StoreAddonInstall` and `StoreAddonUpdate`: only `background` is read
   * here; `asDict` stands for what `to_dict()` produces.
   */
  datatype AddonOptions = AddonOptions(background: Option<bool>, asDict: Json)

  /** Whether a `timeout` keyword is passed: not at all, or `timeout=None`, which disables the request timeout. */
  datatype TimeoutOverride = KeepDefault | Disabled

  /** One store call: the transport call and the timeout override passed with it. */
  datatype StoreCall = StoreCall(call: Call, timeout: TimeoutOverride)

  const AddonsPath := "store/addons"
  const RepositoriesPath := "store/repositories"

  function AddonPath(addon: string): string
  {
    AddonsPath + "/" + addon
  }

  function RepositoryPath(repository: string): string
  {
    RepositoriesPath + "/" + repository
  }

  /**
   * `not options or not options.background`: the timeout is disabled unless
   * options are given and ask for the operation to run in the background.
   * An options object is always truthy.
   */
  predicate WaitsForCompletion(options: Option<AddonOptions>)
  {
    options.None? || options.value.background != Some(true)
  }

  /** The timeout override install and update pass. */
  function TimeoutOf(options: Option<AddonOptions>): (t: TimeoutOverride)
    ensures t == Disabled <==> WaitsForCompletion(options)
  {
    if WaitsForCompletion(options) then Disabled else KeepDefault
  }

  /** `options.to_dict() if options else None`. */
  function BodyOf(options: Option<AddonOptions>): (j: Option<Json>)
    ensures j.Some? <==> options.Some?
    ensures options.Some? ==> j.value == options.value.asDict
  {
    match options
    case None => None
    case Some(o) => Some(o.asDict)
  }

  /** The call each store method issues. */
  function Descriptor(op: StoreOp): StoreCall
  {
    match op
    case Info => StoreCall(GetCall("store"), KeepDefault)
    case AddonsList => StoreCall(GetCall(AddonsPath), KeepDefault)
    case AddonInfo(a) => StoreCall(GetCall(AddonPath(a)), KeepDefault)
    case AddonChangelog(a) => StoreCall(GetCall(AddonPath(a) + "/changelog", responseType := TextContent), KeepDefault)
    case AddonDocumentation(a) => StoreCall(GetCall(AddonPath(a) + "/documentation", responseType := TextContent), KeepDefault)
    case AddonAvailability(a) => StoreCall(GetCall(AddonPath(a) + "/availability", responseType := NoContent), KeepDefault)
    case InstallAddon(a, o) => StoreCall(PostCall(AddonPath(a) + "/install", json := BodyOf(o)), TimeoutOf(o))
    case UpdateAddon(a, o) => StoreCall(PostCall(AddonPath(a) + "/update", json := BodyOf(o)), TimeoutOf(o))
    case Reload => StoreCall(PostCall("store/reload"), KeepDefault)
    case RepositoriesList => StoreCall(GetCall(RepositoriesPath), KeepDefault)
    case RepositoryInfo(r) => StoreCall(GetCall(RepositoryPath(r)), KeepDefault)
    case AddRepository(j) => StoreCall(PostCall(RepositoriesPath, json := Some(j)), KeepDefault)
    case RemoveRepository(r) => StoreCall(DeleteCall(RepositoryPath(r)), KeepDefault)
  }

  predicate IsAddonOp(op: StoreOp)
  {
    op.AddonInfo? || op.AddonChangelog? || op.AddonDocumentation? || op.AddonAvailability?
    || op.InstallAddon? || op.UpdateAddon?
  }

  predicate Prefix(p: string, s: string)
  {
    |p| <= |s| && s[..|p|] == p
  }

  /** Changelog and documentation are the text calls; everything that only acts, and availability, expects no content; the rest JSON. */
  lemma ResponseKinds(op: StoreOp)
    ensures Descriptor(op).call.responseType == TextContent <==> op.AddonChangelog? || op.AddonDocumentation?
    ensures Descriptor(op).call.responseType == NoContent <==>
              op.AddonAvailability? || op.InstallAddon? || op.UpdateAddon? || op.Reload? || op.AddRepository?
              || op.RemoveRepository?
  {
  }

  /** Install, update, reload and adding a repository are POSTs; removing one is a DELETE; everything else a GET. */
  lemma Verbs(op: StoreOp)
    ensures Descriptor(op).call.verb == Post <==> op.InstallAddon? || op.UpdateAddon? || op.Reload? || op.AddRepository?
    ensures Descriptor(op).call.verb == Delete <==> op.RemoveRepository?
    ensures Descriptor(op).call.verb == Get <==> !(op.InstallAddon? || op.UpdateAddon? || op.Reload? || op.AddRepository? || op.RemoveRepository?)
    ensures Descriptor(op).call.data.None? && Descriptor(op).call.params.None?
  {
  }

  /** Only install and update send a body they build from options, and only adding a repository sends one always. */
  lemma Bodies(op: StoreOp)
    ensures (op.InstallAddon? || op.UpdateAddon?) ==> Descriptor(op).call.json == BodyOf(op.options)
    ensures op.AddRepository? ==> Descriptor(op).call.json == Some(op.repositoryOptions)
    ensures !(op.InstallAddon? || op.UpdateAddon? || op.AddRepository?) ==> Descriptor(op).call.json.None?
  {
  }

  /** The timeout is overridden only by install and update, and by them exactly when they wait for completion. */
  lemma TimeoutRule(op: StoreOp)
    ensures Descriptor(op).timeout == Disabled <==> (op.InstallAddon? || op.UpdateAddon?) && WaitsForCompletion(op.options)
  {
  }

  /** Every add-on call addresses a path under `store/addons/{addon}`, and the repository calls `store/repositories`. */
  lemma Paths(op: StoreOp)
    ensures IsAddonOp(op) ==> Prefix(AddonPath(op.addon), Descriptor(op).call.uri)
    ensures (op.RepositoryInfo? || op.RemoveRepository?) ==> Descriptor(op).call.uri == RepositoriesPath + "/" + op.repository
    ensures (op.RepositoriesList? || op.AddRepository?) ==> Descriptor(op).call.uri == RepositoriesPath
    ensures op.InstallAddon? ==> Descriptor(op).call.uri == "store/addons/" + op.addon + "/install"
    ensures op.UpdateAddon? ==> Descriptor(op).call.uri == "store/addons/" + op.addon + "/update"
  {
    if IsAddonOp(op) {
      var u := Descriptor(op).call.uri;
      var p := AddonPath(op.addon);
      if !op.AddonInfo? {
        assert exists rest :: u == p + rest;
        var rest :| u == p + rest;
        assert u[..|p|] == p;
      }
    }
  }

  /** Text calls are dispatched with the text Accept header, so the server is asked for what the call returns. */
  lemma TextCallsAcceptText(apiHost: string, token: string, version: string, requestTimeout: int, a: string)
    ensures Dispatched(apiHost, token, version, requestTimeout, Descriptor(AddonChangelog(a)).call).headers["Accept"] == TextAccept
    ensures Dispatched(apiHost, token, version, requestTimeout, Descriptor(AddonDocumentation(a)).call).headers["Accept"] == TextAccept
    ensures Dispatched(apiHost, token, version, requestTimeout, Descriptor(AddonInfo(a)).call).headers["Accept"] == JsonAccept
  {
  }

  // --- install and update build their keyword arguments step by step ---

  /** The keyword arguments install and update pass: `timeout` set to None exactly when they wait for completion. */
  method TimeoutKwargs(options: Option<AddonOptions>) returns (kwargs: map<string, Option<int>>)
    ensures ("timeout" in kwargs) <==> WaitsForCompletion(options)
    ensures "timeout" in kwargs ==> kwargs["timeout"] == None
    ensures forall k :: k in kwargs ==> k == "timeout"
    ensures (if "timeout" in kwargs then Disabled else KeepDefault) == TimeoutOf(options)
  {
    kwargs := map[];
    if options.None? || options.value.background != Some(true) {
      kwargs := kwargs["timeout" := None];
    }
  }

  /** `install_addon`: the call issued is the install descriptor. */
  method Install(addon: string, options: Option<AddonOptions>) returns (c: StoreCall)
    ensures c == Descriptor(InstallAddon(addon, options))
    ensures c.call.verb == Post && c.call.responseType == NoContent
    ensures c.timeout == Disabled <==> WaitsForCompletion(options)
  {
    var kwargs := TimeoutKwargs(options);
    var json := if options.Some? then Some(options.value.asDict) else None;
    c := StoreCall(PostCall("store/addons/" + addon + "/install", json := json),
                   if "timeout" in kwargs then Disabled else KeepDefault);
  }

  /** `update_addon`: the call issued is the update descriptor. */
  method Update(addon: string, options: Option<AddonOptions>) returns (c: StoreCall)
    ensures c == Descriptor(UpdateAddon(addon, options))
    ensures c.call.verb == Post && c.call.responseType == NoContent
    ensures c.timeout == Disabled <==> WaitsForCompletion(options)
  {
    var kwargs := TimeoutKwargs(options);
    var json := if options.Some? then Some(options.value.asDict) else None;
    c := StoreCall(PostCall("store/addons/" + addon + "/update", json := json),
                   if "timeout" in kwargs then Disabled else KeepDefault);
  }

  // --- reading results ---

  /** The result of a store call given what the HTTP exchange did. */
  function Perform(op: StoreOp, outcome: Outcome): Result<Response, Raised>
  {
    Classify(Descriptor(op).call.responseType, outcome)
  }

  /** `result.data`, for the methods that return it unchanged. */
  function DataOf(r: Result<Response, Raised>): Result<Data, Raised>
  {
    match r
    case Err(e) => Err(e)
    case Ok(resp) => Ok(resp.data)
  }

  /** Changelog and documentation return the body text as received; they never return anything but text. */
  lemma TextReturnedUnchanged(a: string, outcome: Outcome)
    ensures outcome.Received? && outcome.response.status < 400 && outcome.response.body.Readable? ==>
              DataOf(Perform(AddonChangelog(a), outcome)) == Ok(TextData(outcome.response.body.text))
              && DataOf(Perform(AddonDocumentation(a), outcome)) == Ok(TextData(outcome.response.body.text))
    ensures DataOf(Perform(AddonChangelog(a), outcome)).Ok? ==> DataOf(Perform(AddonChangelog(a), outcome)).value.TextData?
    ensures DataOf(Perform(AddonDocumentation(a), outcome)).Ok? ==> DataOf(Perform(AddonDocumentation(a), outcome)).value.TextData?
  {
    if outcome.Received? && outcome.response.status < 400 && outcome.response.body.Readable? {
      TextSuccess(outcome.response);
    }
  }

  /**
   * Availability returns nothing exactly when the server answered below 400,
   * whatever the body; an unavailable add-on answered with 400 surfaces as
   * the bad-request error, unless the JSON error body could not be read.
   */
  lemma AvailabilityResult(a: string, outcome: Outcome)
    ensures Perform(AddonAvailability(a), outcome).Ok? <==> outcome.Received? && outcome.response.status < 400
    ensures Perform(AddonAvailability(a), outcome).Ok? ==> Perform(AddonAvailability(a), outcome).value.data == NoData
    ensures outcome.Received? && outcome.response.status == 400
            && (IsJson(outcome.response.contentType) ==> outcome.response.body.Readable? && outcome.response.body.parsed.Parsed?) ==>
              Perform(AddonAvailability(a), outcome).Err? && Perform(AddonAvailability(a), outcome).error.Supervisor?
              && Perform(AddonAvailability(a), outcome).error.error.kind == Exceptions.BadRequest
  {
    if outcome.Received? && outcome.response.status < 400 {
      EmptySuccess(outcome.response);
    }
  }

  /**
   * Why listing repositories failed: the call raised; the data could not be
   * iterated (`null`, a number, a boolean, or no data at all); the data was
   * an object with keys, which iteration would visit in an order the model
   * does not keep; or an element did not decode.
   */
  datatype ListFailure = CallFailed(raised: Raised) | NotAList | ObjectKeys(keys: set<string>) | BadElement(index: nat, reason: string)

  /**
   * What `for repo in result.data` visits: a list's elements in order, a
   * string's characters as one-character strings, no element of an empty
   * object; for an object with keys, its key set instead.
   */
  function Iterated(d: Data): (v: Option<Result<seq<Json>, set<string>>>)
    ensures (d.NoData? || (d.JsonData? && (d.json.JNull? || d.json.JBool? || d.json.JNumber?))) <==> v.None?
    ensures d.JsonData? && d.json.JArray? ==> v == Some(Ok(d.json.items))
    ensures d.JsonData? && d.json.JObject? ==>
              v == Some(if d.json.fields == map[] then Ok([]) else Err(d.json.fields.Keys))
    ensures (d.TextData? || (d.JsonData? && d.json.JString?)) ==>
              var t := if d.TextData? then d.text else d.json.s;
              v.Some? && v.value.Ok? && |v.value.value| == |t|
              && forall i :: 0 <= i < |t| ==> v.value.value[i] == JString([t[i]])
  {
    match d
    case NoData => None
    case TextData(t) => Some(Ok(Characters(t)))
    case JsonData(JString(t)) => Some(Ok(Characters(t)))
    case JsonData(JArray(items)) => Some(Ok(items))
    case JsonData(JObject(fields)) => Some(if fields == map[] then Ok([]) else Err(fields.Keys))
    case JsonData(_) => None
  }

  /** The one-character strings of `t`, in order. */
  function Characters(t: string): seq<Json>
  {
    seq(|t|, i requires 0 <= i < |t| => JString([t[i]]))
  }

  /** `[Repository.from_dict(repo) for repo in result.data]`, with `from_dict` given. */
  function DecodeElements<R>(fromDict: Json -> Result<R, string>, items: seq<Json>, from: nat): (r: Result<seq<R>, ListFailure>)
    ensures r.Ok? <==> forall i :: 0 <= i < |items| ==> fromDict(items[i]).Ok?
    ensures r.Ok? ==> |r.value| == |items| && forall i :: 0 <= i < |items| ==> r.value[i] == fromDict(items[i]).value
    ensures r.Err? ==> r.error.BadElement? && from <= r.error.index < from + |items|
                       && fromDict(items[r.error.index - from]) == Err(r.error.reason)
                       && forall i :: 0 <= i < r.error.index - from ==> fromDict(items[i]).Ok?
    decreases |items|
  {
    if items == [] then Ok([])
    else
      assert forall i :: 1 <= i < |items| ==> items[i] == items[1..][i - 1];
      match fromDict(items[0])
      case Err(e) => Err(BadElement(from, e))
      case Ok(x) =>
        match DecodeElements(fromDict, items[1..], from + 1)
        case Err(f) => Err(f)
        case Ok(xs) => Ok([x] + xs)
  }

  /**
   * `repositories_list`: whatever iterating the data visits is decoded element
   * by element in order, and the first bad element is reported; data that
   * cannot be iterated fails.
   */
  function RepositoriesFrom<R>(fromDict: Json -> Result<R, string>, r: Result<Response, Raised>): (l: Result<seq<R>, ListFailure>)
    ensures r.Err? ==> l == Err(CallFailed(r.error))
    ensures r.Ok? && Iterated(r.value.data).None? ==> l == Err(NotAList)
    ensures r.Ok? && Iterated(r.value.data).Some? && Iterated(r.value.data).value.Err? ==>
              l == Err(ObjectKeys(Iterated(r.value.data).value.error))
    ensures r.Ok? && Iterated(r.value.data).Some? && Iterated(r.value.data).value.Ok? ==>
              var items := Iterated(r.value.data).value.value;
              (l.Ok? <==> forall i :: 0 <= i < |items| ==> fromDict(items[i]).Ok?)
              && (l.Ok? ==> |l.value| == |items| && forall i :: 0 <= i < |items| ==> l.value[i] == fromDict(items[i]).value)
  {
    match r
    case Err(e) => Err(CallFailed(e))
    case Ok(resp) =>
      match Iterated(resp.data)
      case None => Err(NotAList)
      case Some(Err(keys)) => Err(ObjectKeys(keys))
      case Some(Ok(items)) => DecodeElements(fromDict, items, 0)
  }

  /** An empty list, an empty object and an empty string all list no repositories; `null` is refused. */
  lemma RepositoriesEmptyData<R>(fromDict: Json -> Result<R, string>, m: Option<string>, id: Option<string>)
    ensures RepositoriesFrom(fromDict, Ok(Response(OkResult, JsonData(JArray([])), m, id))) == Ok([])
    ensures RepositoriesFrom(fromDict, Ok(Response(OkResult, JsonData(JObject(map[])), m, id))) == Ok([])
    ensures RepositoriesFrom(fromDict, Ok(Response(OkResult, JsonData(JString("")), m, id))) == Ok([])
    ensures RepositoriesFrom(fromDict, Ok(Response(OkResult, JsonData(JNull), m, id))) == Err(NotAList)
  {
  }
}
