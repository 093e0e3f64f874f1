/** An in-memory model of the gateway's administrative interface, as the
    client library exposes it: APIs, plugins scoped under an API, and the
    create/update/retrieve/delete/list calls on them. The client library and
    the gateway are outside the modelled source; the behaviour stated here is
    the model's assumption about them:
    - ids are fresh numbers (one more than any id in use);
    - an API needs a non-empty request host or request path; a request
      without either is rejected as a bad request;
    - an API's name defaults to its request host, else its request path;
    - an API collides with another that has the same name or request host, a
      plugin with another on the same API with the same name and consumer;
    - updating or creating under an id that does not exist is "not found";
    - a delete of something absent succeeds;
    - the gateway stores a plugin configuration in its canonical form, looked
      up in `canonical` (a configuration it has no entry for is kept as sent).
    Every state-changing call is appended to `log`, whether it succeeds or not. */
module Kong {
  import opened Tables
  import opened Types

  /** The six API fields the client sends. */
  datatype ApiFields = ApiFields(
    upstreamUrl: string,
    name: Option<string>,
    requestHost: Option<string>,
    requestPath: Option<string>,
    stripRequestPath: bool,
    preserveHost: bool)

  /** An API as the gateway stores and returns it. */
  datatype ApiStruct = ApiStruct(
    id: KongId,
    name: string,
    upstreamUrl: string,
    requestHost: Option<string>,
    requestPath: Option<string>,
    stripRequestPath: bool,
    preserveHost: bool)

  /** The plugin fields the client sends. */
  datatype PluginFields = PluginFields(name: string, enabled: bool, consumerId: Option<KongId>, config: Config)

  /** A plugin as the gateway stores and returns it, under the API `apiId`. */
  datatype PluginStruct = PluginStruct(
    id: KongId,
    apiId: KongId,
    name: string,
    enabled: bool,
    consumerId: Option<KongId>,
    config: Config)

  /** A state-changing request, as sent. `None` stands for Python's `None`
      (formatted into a path it addresses nothing). */
  datatype Request =
    | ApiAddOrUpdate(apiId: Option<KongId>, fields: ApiFields)
    | ApiUpdate(nameOrId: Option<string>, fields: ApiFields)
    | ApiDelete(id: Option<KongId>)
    | PluginCreateOrUpdate(parent: Option<KongId>, pluginId: Option<KongId>, pluginFields: PluginFields)
    | PluginDelete(parentId: KongId, deletedId: KongId)

  datatype Gateway = Gateway(
    apis: seq<ApiStruct>,
    plugins: seq<PluginStruct>,
    canonical: map<(string, Config), Config>,
    log: seq<Request>)

  /** The failures the client reports: an unknown id and a rejected request
      both surface as `ValueError`, a uniqueness clash as `ConflictError`. */
  datatype ClientError = NotFound | Invalid | Conflict

  /** The result of a state-changing call and the gateway after it. */
  datatype Reply<T> = Done(value: T, gateway: Gateway) | Failed(error: ClientError, gateway: Gateway)

  /** The number of plugins one `list(size=100)` call returns at most. */
  const PageSize: nat := 100

  predicate HasApi(g: Gateway, id: KongId)
  {
    exists i :: 0 <= i < |g.apis| && g.apis[i].id == id
  }

  predicate HasPlugin(g: Gateway, apiId: KongId, id: KongId)
  {
    exists i :: 0 <= i < |g.plugins| && g.plugins[i].id == id && g.plugins[i].apiId == apiId
  }

  /** The largest `key` of the entries (0 when there are none). */
  function MaxKey<T>(xs: seq<T>, key: T -> nat): (m: nat)
    ensures forall i :: 0 <= i < |xs| ==> key(xs[i]) <= m
  {
    if |xs| == 0 then 0
    else
      var m := MaxKey(xs[..|xs| - 1], key);
      var last := key(xs[|xs| - 1]);
      assert forall i :: 0 <= i < |xs| - 1 ==> xs[i] == xs[..|xs| - 1][i];
      if last > m then last else m
  }

  /** An id no API and no plugin uses. */
  function FreshId(g: Gateway): (id: KongId)
    ensures !HasApi(g, id)
    ensures forall i :: 0 <= i < |g.plugins| ==> g.plugins[i].id != id
  {
    var a := MaxKey(g.apis, (s: ApiStruct) => s.id);
    var p := MaxKey(g.plugins, (s: PluginStruct) => s.id);
    (if a > p then a else p) + 1
  }

  /** The name the gateway gives an API: the one sent, else its request host, else its request path. */
  function DerivedName(f: ApiFields): string
  {
    if f.name.Some? && f.name.value != "" then f.name.value
    else if f.requestHost.Some? && f.requestHost.value != "" then f.requestHost.value
    else if f.requestPath.Some? then f.requestPath.value
    else ""
  }

  function MakeApi(id: KongId, f: ApiFields): (s: ApiStruct)
  {
    ApiStruct(id, DerivedName(f), f.upstreamUrl, f.requestHost, f.requestPath, f.stripRequestPath, f.preserveHost)
  }

  /** The fields name a request host or a request path, as every API the
      gateway accepts must. */
  predicate Routed(f: ApiFields)
  {
    (f.requestHost.Some? && f.requestHost.value != "") || (f.requestPath.Some? && f.requestPath.value != "")
  }

  /** An API other than `self` with the same name or the same request host. */
  predicate ApiClash(s: ApiStruct, self: Option<KongId>, name: string, host: Option<string>)
  {
    (self.None? || s.id != self.value) && (s.name == name || (host.Some? && s.requestHost == host))
  }

  predicate AnyApiClash(g: Gateway, self: Option<KongId>, f: ApiFields)
  {
    exists i :: 0 <= i < |g.apis| && ApiClash(g.apis[i], self, DerivedName(f), f.requestHost)
  }

  function Logged(g: Gateway, q: Request): Gateway
  {
    g.(log := g.log + [q])
  }

  /** Writes the fields onto the existing API `id`. */
  function StoreApi(g: Gateway, id: KongId, f: ApiFields): (r: Reply<ApiStruct>)
    requires HasApi(g, id)
    requires !AnyApiClash(g, Some(id), f)
    ensures r.Done? && r.value == MakeApi(id, f)
    ensures r.gateway.plugins == g.plugins && r.gateway.log == g.log && r.gateway.canonical == g.canonical
    ensures |r.gateway.apis| == |g.apis|
    ensures forall i :: 0 <= i < |g.apis| ==>
              r.gateway.apis[i] == if g.apis[i].id == id then MakeApi(id, f) else g.apis[i]
  {
    var s := MakeApi(id, f);
    Done(s, g.(apis := UpdateWhere(g.apis, (a: ApiStruct) => a.id == id, (a: ApiStruct) => s)))
  }

  /** `s` is the API the gateway holds under its id: every entry with that id is `s`. */
  predicate Stored(g: Gateway, s: ApiStruct)
  {
    && HasApi(g, s.id)
    && forall i :: 0 <= i < |g.apis| && g.apis[i].id == s.id ==> g.apis[i] == s
  }

  /** No API other than `s` shares its name or its request host: the
      uniqueness the gateway enforces on the APIs it stores. */
  predicate Unclashed(g: Gateway, s: ApiStruct)
  {
    forall i :: 0 <= i < |g.apis| ==> !ApiClash(g.apis[i], Some(s.id), s.name, s.requestHost)
  }

  /** `apis.add_or_update(api_id=..., **fields)`: creates an API when no id is
      given, otherwise updates the API with that id. */
  function AddOrUpdateApi(g: Gateway, apiId: Option<KongId>, f: ApiFields): (r: Reply<ApiStruct>)
    ensures r.gateway.log == g.log + [ApiAddOrUpdate(apiId, f)]
    ensures r.gateway.plugins == g.plugins && r.gateway.canonical == g.canonical
    ensures r.Failed? ==> r.gateway.apis == g.apis
    ensures r.Failed? && r.error == NotFound <==> apiId.Some? && !HasApi(g, apiId.value)
    ensures r.Failed? && r.error == Invalid <==> (apiId.None? || HasApi(g, apiId.value)) && !Routed(f)
    ensures r.Failed? && r.error == Conflict <==>
              (apiId.None? || HasApi(g, apiId.value)) && Routed(f) && AnyApiClash(g, apiId, f)
    ensures r.Done? ==> Routed(f)
    ensures r.Done? ==> r.value.name == DerivedName(f) && r.value == MakeApi(r.value.id, f)
    ensures r.Done? && apiId.Some? ==> r.value.id == apiId.value
    ensures r.Done? && apiId.None? ==> !HasApi(g, r.value.id) && r.gateway.apis == g.apis + [r.value]
    ensures r.Done? ==> Stored(r.gateway, r.value) && Unclashed(r.gateway, r.value)
    ensures forall k :: HasApi(g, k) ==> HasApi(r.gateway, k)
  {
    var g1 := Logged(g, ApiAddOrUpdate(apiId, f));
    if apiId.Some? && !HasApi(g, apiId.value) then Failed(NotFound, g1)
    else if !Routed(f) then Failed(Invalid, g1)
    else if AnyApiClash(g, apiId, f) then Failed(Conflict, g1)
    else if apiId.Some? then StoreApi(g1, apiId.value, f)
    else
      var s := MakeApi(FreshId(g), f);
      var apis := g.apis + [s];
      assert apis[|g.apis|] == s;
      assert forall i :: 0 <= i < |g.apis| ==> apis[i] == g.apis[i];
      Done(s, g1.(apis := apis))
  }

  /** The API an `update(name_or_id=...)` call addresses: the first with that name. */
  function ApiNamed(g: Gateway, key: Option<string>): (r: Option<ApiStruct>)
    ensures r.Some? ==> key.Some? && HasApi(g, r.value.id) && r.value.name == key.value
    ensures r.None? ==> key.None? || forall i :: 0 <= i < |g.apis| ==> g.apis[i].name != key.value
  {
    if key.None? then None
    else
      var r := Find(g.apis, (a: ApiStruct) => a.name == key.value);
      if r.Some? then
        assert exists i :: 0 <= i < |g.apis| && g.apis[i] == r.value;
        r
      else
        assert forall i :: 0 <= i < |g.apis| ==> !(((a: ApiStruct) => a.name == key.value)(g.apis[i]));
        r
  }

  /** `apis.update(name_or_id=..., **fields)`: updates the API of that name. */
  function UpdateApi(g: Gateway, key: Option<string>, f: ApiFields): (r: Reply<ApiStruct>)
    ensures r.gateway.log == g.log + [ApiUpdate(key, f)]
    ensures r.gateway.plugins == g.plugins && r.gateway.canonical == g.canonical
    ensures r.Failed? ==> r.gateway.apis == g.apis
    ensures r.Failed? && r.error == NotFound <==> ApiNamed(g, key).None?
    ensures r.Failed? && r.error == Invalid <==> ApiNamed(g, key).Some? && !Routed(f)
    ensures r.Done? ==> Routed(f)
    ensures r.Done? ==> ApiNamed(g, key).Some? && r.value == MakeApi(ApiNamed(g, key).value.id, f)
    ensures r.Done? ==> Stored(r.gateway, r.value) && Unclashed(r.gateway, r.value)
    ensures forall k :: HasApi(g, k) ==> HasApi(r.gateway, k)
  {
    var g1 := Logged(g, ApiUpdate(key, f));
    match ApiNamed(g, key)
    case None => Failed(NotFound, g1)
    case Some(target) =>
      if !Routed(f) then Failed(Invalid, g1)
      else if AnyApiClash(g, Some(target.id), f) then Failed(Conflict, g1)
      else StoreApi(g1, target.id, f)
  }

  /** `apis.retrieve(id)`: the API, or `None` where the client raises `ValueError`. */
  function RetrieveApi(g: Gateway, id: Option<KongId>): (r: Option<ApiStruct>)
    ensures r.None? <==> id.None? || !HasApi(g, id.value)
    ensures r.Some? ==> r.value in g.apis && r.value.id == id.value
  {
    if id.None? then None else Find(g.apis, (a: ApiStruct) => a.id == id.value)
  }

  /** Retrieving the id of a stored API gives that API back. */
  lemma RetrieveStored(g: Gateway, s: ApiStruct)
    requires Stored(g, s)
    ensures RetrieveApi(g, Some(s.id)) == Some(s)
  {
    var r := RetrieveApi(g, Some(s.id));
    var i :| 0 <= i < |g.apis| && g.apis[i] == r.value;
  }

  /** `apis.delete(id)`: removes the API; deleting an absent API succeeds. */
  function DeleteApi(g: Gateway, id: Option<KongId>): (r: Gateway)
    ensures r.log == g.log + [ApiDelete(id)]
    ensures r.plugins == g.plugins && r.canonical == g.canonical
    ensures id.Some? ==> !HasApi(r, id.value)
    ensures forall k :: k in r.apis <==> k in g.apis && (id.None? || k.id != id.value)
  {
    var rest := if id.None? then g.apis else Filter(g.apis, (a: ApiStruct) => a.id != id.value);
    assert forall i :: 0 <= i < |rest| ==> rest[i] in rest;
    Logged(g.(apis := rest), ApiDelete(id))
  }

  /** The configuration the gateway stores for one it is sent. */
  function Canonical(g: Gateway, name: string, config: Config): Config
  {
    if (name, config) in g.canonical then g.canonical[(name, config)] else config
  }

  function MakePlugin(g: Gateway, id: KongId, apiId: KongId, f: PluginFields): PluginStruct
  {
    PluginStruct(id, apiId, f.name, f.enabled, f.consumerId, Canonical(g, f.name, f.config))
  }

  /** A plugin other than `self` on the same API with the same name and consumer. */
  predicate PluginClash(p: PluginStruct, apiId: KongId, self: Option<KongId>, f: PluginFields)
  {
    p.apiId == apiId && (self.None? || p.id != self.value) && p.name == f.name && p.consumerId == f.consumerId
  }

  predicate AnyPluginClash(g: Gateway, apiId: KongId, self: Option<KongId>, f: PluginFields)
  {
    exists i :: 0 <= i < |g.plugins| && PluginClash(g.plugins[i], apiId, self, f)
  }

  /** `s` is the plugin the gateway holds under its API and id: every entry with that API and id is `s`. */
  predicate PluginStored(g: Gateway, s: PluginStruct)
  {
    && HasPlugin(g, s.apiId, s.id)
    && forall i :: 0 <= i < |g.plugins| && g.plugins[i].id == s.id && g.plugins[i].apiId == s.apiId ==> g.plugins[i] == s
  }

  /** `apis.plugins(api_id).create_or_update(plugin_configuration_id=..., **fields)`. */
  function CreateOrUpdatePlugin(g: Gateway, apiId: Option<KongId>, pluginId: Option<KongId>, f: PluginFields): (r: Reply<PluginStruct>)
    ensures r.gateway.log == g.log + [PluginCreateOrUpdate(apiId, pluginId, f)]
    ensures r.gateway.apis == g.apis && r.gateway.canonical == g.canonical
    ensures r.Failed? ==> r.gateway.plugins == g.plugins
    ensures r.Failed? && r.error == NotFound <==>
              apiId.None? || !HasApi(g, apiId.value) || (pluginId.Some? && !HasPlugin(g, apiId.value, pluginId.value))
    ensures r.Done? ==>
              && apiId.Some? && HasApi(g, apiId.value)
              && r.value == MakePlugin(g, r.value.id, apiId.value, f)
              && (pluginId.Some? ==> r.value.id == pluginId.value)
              && r.value.apiId == apiId.value
              && PluginStored(r.gateway, r.value)
    ensures forall a, k :: HasPlugin(g, a, k) ==> HasPlugin(r.gateway, a, k)
  {
    var g1 := Logged(g, PluginCreateOrUpdate(apiId, pluginId, f));
    if apiId.None? || !HasApi(g, apiId.value) then Failed(NotFound, g1)
    else if pluginId.Some? && !HasPlugin(g, apiId.value, pluginId.value) then Failed(NotFound, g1)
    else if AnyPluginClash(g, apiId.value, pluginId, f) then Failed(Conflict, g1)
    else if pluginId.Some? then
      var s := MakePlugin(g, pluginId.value, apiId.value, f);
      var sel := (p: PluginStruct) => p.id == s.id && p.apiId == s.apiId;
      var ps := UpdateWhere(g.plugins, sel, (p: PluginStruct) => s);
      assert forall i :: 0 <= i < |g.plugins| ==> ps[i].id == g.plugins[i].id && ps[i].apiId == g.plugins[i].apiId;
      Done(s, g1.(plugins := ps))
    else
      var s := MakePlugin(g, FreshId(g), apiId.value, f);
      var ps := g.plugins + [s];
      assert ps[|g.plugins|] == s;
      assert forall i :: 0 <= i < |g.plugins| ==> ps[i] == g.plugins[i];
      Done(s, g1.(plugins := ps))
  }

  /** `apis.plugins(api_id).retrieve(id)`: the plugin, or `None` where the client raises `ValueError`. */
  function RetrievePlugin(g: Gateway, apiId: Option<KongId>, id: Option<KongId>): (r: Option<PluginStruct>)
    ensures r.None? <==> apiId.None? || id.None? || !HasPlugin(g, apiId.value, id.value)
    ensures r.Some? ==> r.value in g.plugins && r.value.id == id.value && r.value.apiId == apiId.value
  {
    if apiId.None? || id.None? then None
    else
      var r := Find(g.plugins, (p: PluginStruct) => p.id == id.value && p.apiId == apiId.value);
      if r.None? then
        assert forall i :: 0 <= i < |g.plugins| ==>
          !(((p: PluginStruct) => p.id == id.value && p.apiId == apiId.value)(g.plugins[i]));
        r
      else r
  }

  /** Retrieving a stored plugin under its API gives that plugin back. */
  lemma RetrievePluginStored(g: Gateway, s: PluginStruct)
    requires PluginStored(g, s)
    ensures RetrievePlugin(g, Some(s.apiId), Some(s.id)) == Some(s)
  {
    var r := RetrievePlugin(g, Some(s.apiId), Some(s.id));
    var i :| 0 <= i < |g.plugins| && g.plugins[i] == r.value;
  }

  /** A gateway whose plugins are among another's holds no plugin the other lacks. */
  lemma NoPluginInSubset(g: Gateway, g': Gateway, apiId: KongId, id: KongId)
    requires forall p :: p in g'.plugins ==> p in g.plugins
    requires !HasPlugin(g, apiId, id)
    ensures !HasPlugin(g', apiId, id)
  {
    forall i | 0 <= i < |g'.plugins|
      ensures !(g'.plugins[i].id == id && g'.plugins[i].apiId == apiId)
    {
      assert g'.plugins[i] in g.plugins;
    }
  }

  /** `apis.plugins(api_id).delete(id)`: removes the plugin; deleting an absent plugin succeeds. */
  function DeletePlugin(g: Gateway, apiId: KongId, id: KongId): (r: Gateway)
    ensures r.log == g.log + [PluginDelete(apiId, id)]
    ensures r.apis == g.apis && r.canonical == g.canonical
    ensures !HasPlugin(r, apiId, id)
    ensures forall p :: p in r.plugins <==> p in g.plugins && !(p.id == id && p.apiId == apiId)
    ensures forall a, k :: HasPlugin(g, a, k) && !(a == apiId && k == id) ==> HasPlugin(r, a, k)
  {
    var rest := Filter(g.plugins, (p: PluginStruct) => !(p.id == id && p.apiId == apiId));
    var r := Logged(g.(plugins := rest), PluginDelete(apiId, id));
    assert forall i :: 0 <= i < |rest| ==> rest[i] in rest;
    assert forall a, k :: HasPlugin(g, a, k) && !(a == apiId && k == id) ==> HasPlugin(r, a, k) by {
      forall a, k | HasPlugin(g, a, k) && !(a == apiId && k == id)
        ensures HasPlugin(r, a, k)
      {
        var i :| 0 <= i < |g.plugins| && g.plugins[i].id == k && g.plugins[i].apiId == a;
        assert g.plugins[i] in rest;
      }
    }
    r
  }

  /** `apis.iterate()`: every API, in storage order. */
  function ListApis(g: Gateway): seq<ApiStruct>
  {
    g.apis
  }

  /** `apis.plugins(api_id).list(size=100)['data']`: the first page of the API's plugins. */
  function ListPlugins(g: Gateway, apiId: KongId): (r: seq<PluginStruct>)
    ensures |r| <= PageSize
    ensures forall p :: p in r ==> p in g.plugins && p.apiId == apiId
    ensures |Filter(g.plugins, (p: PluginStruct) => p.apiId == apiId)| <= PageSize ==>
              forall p :: p in g.plugins && p.apiId == apiId ==> p in r
  {
    var all := Filter(g.plugins, (p: PluginStruct) => p.apiId == apiId);
    var r := Take(all, PageSize);
    assert forall i :: 0 <= i < |r| ==> r[i] in all;
    r
  }
}
