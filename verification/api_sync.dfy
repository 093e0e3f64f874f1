/** The API and plugin configuration synchronisation engines
    (kong_admin/sync/apis.py): the hooks each engine adds to the generic
    engine, and the generic `publish` and `withdraw` steps those hooks run in.
    The generic engine (sync/base.py) is not part of this model; its steps are
    taken as:
    - publish: `on_publish`, then record the returned gateway id, the
      synchronised flag and the time on the record and its row, then
      `after_publish`;
    - withdraw: `before_withdraw`, then `on_withdraw_by_id` with the record's
      gateway id (and its parent's), then clear the id and the flag on the
      record and its row;
    - synchronize over a queryset: publish each record in order, stopping at
      the first error. */
module ApiSync {
  import opened Tables
  import opened Types
  import opened Models
  import opened Engine
  import Kong
  import Store
  import Plugins

  /** What an `on_publish` hook returns (the gateway id) together with the
      record as the hook left it. */
  datatype Published<T> = Published(kongId: KongId, obj: T)

  // ---------------------------------------------------------------------
  // APISyncEngine

  /** The six fields both API calls send. */
  function ApiPayload(obj: ApiRef): Kong.ApiFields
  {
    Kong.ApiFields(obj.upstreamUrl, obj.name, obj.requestHost, obj.requestPath, obj.stripRequestPath, obj.preserveHost)
  }

  /** `obj.name or obj.request_host`: the natural key the conflict fallback addresses. */
  function FallbackKey(obj: ApiRef): (k: Option<string>)
    ensures Truthy(obj.name) ==> k == obj.name
    ensures !Truthy(obj.name) ==> k == obj.requestHost
  {
    if Truthy(obj.name) then obj.name else obj.requestHost
  }

  /** The first call `on_publish` makes reports a conflict. */
  predicate Conflicted(g: Kong.Gateway, obj: ApiRef)
  {
    var first := Kong.AddOrUpdateApi(g, obj.sync.kongId, ApiPayload(obj));
    first.Failed? && first.error == Kong.Conflict
  }

  /** `add_or_update` by gateway id, and on a conflict `update` by natural
      key, with the same six fields. The answer is the API the gateway now
      holds: the one addressed by id, a new one, or the one of that name. */
  function ApiUpsert(g: Kong.Gateway, obj: ApiRef): (r: Kong.Reply<Kong.ApiStruct>)
    ensures r.gateway.plugins == g.plugins && r.gateway.canonical == g.canonical
    ensures r.gateway.log ==
              g.log + [Kong.ApiAddOrUpdate(obj.sync.kongId, ApiPayload(obj))]
              + (if Conflicted(g, obj) then [Kong.ApiUpdate(FallbackKey(obj), ApiPayload(obj))] else [])
    ensures forall k :: Kong.HasApi(g, k) ==> Kong.HasApi(r.gateway, k)
    ensures r.Failed? ==> r.gateway.apis == g.apis
    ensures r.Failed? && r.error == Kong.Invalid <==>
              !Kong.Routed(ApiPayload(obj)) && (obj.sync.kongId.None? || Kong.HasApi(g, obj.sync.kongId.value))
    ensures r.Done? ==> Kong.Routed(ApiPayload(obj))
    ensures r.Done? ==> r.value == Kong.MakeApi(r.value.id, ApiPayload(obj)) && Kong.Stored(r.gateway, r.value)
    ensures r.Done? ==> Kong.Unclashed(r.gateway, r.value)
    ensures r.Done? && !Conflicted(g, obj) ==>
              if obj.sync.kongId.Some? then r.value.id == obj.sync.kongId.value
              else !Kong.HasApi(g, r.value.id)
    ensures r.Done? && Conflicted(g, obj) ==>
              && Kong.ApiNamed(g, FallbackKey(obj)).Some?
              && r.value.id == Kong.ApiNamed(g, FallbackKey(obj)).value.id
  {
    var first := Kong.AddOrUpdateApi(g, obj.sync.kongId, ApiPayload(obj));
    if first.Failed? && first.error == Kong.Conflict then
      assert first.gateway.apis == g.apis;
      assert Kong.ApiNamed(first.gateway, FallbackKey(obj)) == Kong.ApiNamed(g, FallbackKey(obj));
      Kong.UpdateApi(first.gateway, FallbackKey(obj), ApiPayload(obj))
    else first
  }

  /** `APISyncEngine.on_publish`: sends the record's fields, adopts the name the
      gateway gave the API, and returns the id of the API the gateway answered with. */
  function ApiOnPublish(obj: ApiRef, w: World): (r: Outcome<Published<ApiRef>>)
    ensures r.world.kong == ApiUpsert(w.kong, obj).gateway
    ensures Store.SameShape(w.db, r.world.db) && LogExtends(w, r.world)
    ensures r.Raised? ==> r.world.db == w.db && (r.error == NotFound || r.error == Invalid || r.error == Conflict)
    ensures r.Ok? ==>
              && ApiUpsert(w.kong, obj).Done?
              && r.value.kongId == ApiUpsert(w.kong, obj).value.id
              && r.value.obj == obj.(name := Some(Kong.DerivedName(ApiPayload(obj))))
              && (obj.name == r.value.obj.name ==> r.world.db == w.db)
              && (obj.name != r.value.obj.name ==> r.world.db == Store.SetApiName(w.db, obj.id, r.value.obj.name.value))
  {
    match ApiUpsert(w.kong, obj)
    case Failed(e, g) => Raised(FromClient(e), World(w.db, g))
    case Done(s, g) =>
      if obj.name != Some(s.name) then
        Ok(Published(s.id, obj.(name := Some(s.name))), World(Store.SetApiName(w.db, obj.id, s.name), g))
      else
        Ok(Published(s.id, obj), World(w.db, g))
  }

  /** Publishing again the record `on_publish` returned, now carrying its
      gateway id, changes nothing: the first call succeeds without conflict
      under the same id, the gateway's APIs stay as they were and no row is
      written. */
  lemma RepublishStable(obj: ApiRef, w: World)
    requires ApiOnPublish(obj, w).Ok?
    ensures var r1 := ApiOnPublish(obj, w);
            var again := r1.value.obj.(sync := r1.value.obj.sync.(kongId := Some(r1.value.kongId)));
            var r2 := ApiOnPublish(again, r1.world);
            && !Conflicted(r1.world.kong, again)
            && r2.Ok? && r2.value.kongId == r1.value.kongId && r2.value.obj == again
            && r2.world.db == r1.world.db && r2.world.kong.apis == r1.world.kong.apis
  {
    var r1 := ApiOnPublish(obj, w);
    var k := r1.value.kongId;
    var again := r1.value.obj.(sync := r1.value.obj.sync.(kongId := Some(k)));
    var g1 := r1.world.kong;
    var f1 := ApiPayload(obj);
    var f2 := ApiPayload(again);
    var s := Kong.MakeApi(k, f1);
    assert Kong.DerivedName(f2) == Kong.DerivedName(f1);
    assert Kong.MakeApi(k, f2) == s;
    assert !Kong.AnyApiClash(g1, Some(k), f2) by {
      forall i | 0 <= i < |g1.apis|
        ensures !Kong.ApiClash(g1.apis[i], Some(k), Kong.DerivedName(f2), f2.requestHost)
      {
        assert !Kong.ApiClash(g1.apis[i], Some(s.id), s.name, s.requestHost);
      }
    }
    var second := Kong.AddOrUpdateApi(g1, Some(k), f2);
    assert second.Done? && second.value == s;
    assert second.gateway.apis == g1.apis by {
      forall i | 0 <= i < |g1.apis|
        ensures second.gateway.apis[i] == g1.apis[i]
      {
        if g1.apis[i].id == k {
          assert g1.apis[i] == s;
        }
      }
    }
  }

  /** `APISyncEngine.is_published`: whether retrieving the id finds an API. */
  function ApiIsPublished(g: Kong.Gateway, kongId: Option<KongId>): (r: bool)
    ensures r <==> kongId.Some? && Kong.HasApi(g, kongId.value)
  {
    Kong.RetrieveApi(g, kongId).Some?
  }

  /** `APISyncEngine.on_withdraw_by_id`: deletes the API; an absent one is no error. */
  function ApiOnWithdrawById(g: Kong.Gateway, kongId: Option<KongId>): (r: Kong.Gateway)
    ensures !ApiIsPublished(r, kongId)
    ensures r.plugins == g.plugins && r.log == g.log + [Kong.ApiDelete(kongId)]
    ensures forall k :: (kongId.None? || k != kongId.value) ==> (Kong.HasApi(r, k) <==> Kong.HasApi(g, k))
  {
    var r := Kong.DeleteApi(g, kongId);
    assert forall k :: (kongId.None? || k != kongId.value) && Kong.HasApi(g, k) ==> Kong.HasApi(r, k) by {
      forall k | (kongId.None? || k != kongId.value) && Kong.HasApi(g, k)
        ensures Kong.HasApi(r, k)
      {
        var i :| 0 <= i < |g.apis| && g.apis[i].id == k;
        assert g.apis[i] in r.apis;
      }
    }
    r
  }

  /** `APISyncEngine.on_retrieve_all`: every API the gateway lists, in its order. */
  function ApiRetrieveAll(g: Kong.Gateway): (r: seq<Kong.ApiStruct>)
    ensures forall s :: s in r ==> ApiIsPublished(g, Some(s.id))
    ensures forall k :: ApiIsPublished(g, Some(k)) ==> exists s :: s in r && s.id == k
  {
    var r := Kong.ListApis(g);
    assert forall i :: 0 <= i < |r| ==> r[i] in r;
    r
  }

  /** `after_publish`'s bulk request: the plugin configurations of the API, with orphan deletion. */
  function AfterPublishRequest(obj: ApiRef, db: Store.Db): (q: SyncRequest)
    ensures q.engine == PluginEngine && q.delete && q.queryset.Some?
    ensures forall id :: id in q.queryset.value <==> exists p :: p in db.plugins && p.api == obj.id && p.id == id
  {
    var rows := Store.PluginsOf(db, obj.id);
    var ids := seq(|rows|, i requires 0 <= i < |rows| => rows[i].id);
    forall id | id in ids
      ensures exists p :: p in db.plugins && p.api == obj.id && p.id == id
    {
      var i :| 0 <= i < |ids| && ids[i] == id;
      assert rows[i] in rows;
    }
    forall p | p in db.plugins && p.api == obj.id
      ensures p.id in ids
    {
      assert p in rows;
      var i :| 0 <= i < |rows| && rows[i] == p;
      assert ids[i] == p.id;
    }
    SyncRequest(PluginEngine, Some(ids), true)
  }

  /** Every plugin row of the API `api` is among `PluginsOf(db, api)`. */
  lemma RowsOfApi(db: Store.Db, api: LocalId)
    ensures forall i :: 0 <= i < |db.plugins| && db.plugins[i].api == api ==> IdIn(db.plugins[i].id, Store.PluginsOf(db, api))
    ensures forall p :: p in Store.PluginsOf(db, api) ==> exists j :: 0 <= j < |Store.PluginsOf(db, api)| && Store.PluginsOf(db, api)[j] == p
  {
    var rows := Store.PluginsOf(db, api);
    forall i | 0 <= i < |db.plugins| && db.plugins[i].api == api
      ensures IdIn(db.plugins[i].id, rows)
    {
      assert db.plugins[i] in rows;
    }
  }

  /** `APISyncEngine.after_publish`: synchronises the API's plugin
      configurations, in row order, before the generic hook. */
  function ApiAfterPublish(obj: ApiRef, w: World, now: Timestamp): (r: Outcome<()>)
    ensures r.world.kong.apis == w.kong.apis && r.world.db.apis == w.db.apis && r.world.db.consumers == w.db.consumers
    ensures Store.SameShape(w.db, r.world.db) && LogExtends(w, r.world)
    ensures r.Ok? ==> forall i :: 0 <= i < |w.db.plugins| && w.db.plugins[i].api == obj.id ==>
              RowPublished(r.world.db.plugins[i], now, r.world.kong, Store.ApiKongId(w.db, obj.id))
    ensures forall i :: 0 <= i < |w.db.plugins| && !IdIn(w.db.plugins[i].id, Store.PluginsOf(w.db, obj.id)) ==>
              r.world.db.plugins[i] == w.db.plugins[i]
  {
    var rows := Store.PluginsOf(w.db, obj.id);
    RowsOfApi(w.db, obj.id);
    RunPluginSyncFrame(rows, obj.id, w, now);
    RunPluginSyncPublishes(rows, obj.id, w, now);
    RunPluginSync(rows, obj.id, w, now)
  }

  /** The generic `publish` on the API engine. */
  function PublishApi(obj: ApiRef, w: World, now: Timestamp): (r: Outcome<ApiRef>)
    ensures Store.SameShape(w.db, r.world.db) && LogExtends(w, r.world)
    ensures r.Ok? ==>
              && r.value.sync.kongId.Some? && r.value.sync.synchronized && r.value.sync.synchronizedAt == Some(now)
              && r.value == obj.(name := Some(Kong.DerivedName(ApiPayload(obj))), sync := r.value.sync)
              && Kong.RetrieveApi(r.world.kong, r.value.sync.kongId)
                 == Some(Kong.MakeApi(r.value.sync.kongId.value, ApiPayload(obj)))
  {
    match ApiOnPublish(obj, w)
    case Raised(e, w1) => Raised(e, w1)
    case Ok(p, w1) =>
      var published := p.obj.(sync := SyncState(Some(p.kongId), true, Some(now)));
      var w2 := World(Store.SetApiPublished(w1.db, obj.id, p.kongId, now), w1.kong);
      assert LogExtends(w, w2);
      match ApiAfterPublish(published, w2, now)
      case Raised(e, w3) =>
        LogExtendsTrans(w, w2, w3);
        Raised(e, w3)
      case Ok(_, w3) =>
        LogExtendsTrans(w, w2, w3);
        Kong.RetrieveStored(w3.kong, Kong.MakeApi(p.kongId, ApiPayload(obj)));
        Ok(published, w3)
  }

  /** A successful publish records the new bookkeeping on the API's rows, and
      the derived name where it differs from the record's. */
  lemma PublishApiRecordsRow(obj: ApiRef, w: World, now: Timestamp)
    ensures var r := PublishApi(obj, w, now);
            r.Ok? ==> forall i :: 0 <= i < |w.db.apis| && w.db.apis[i].id == obj.id ==>
              && r.world.db.apis[i].sync == r.value.sync
              && r.world.db.apis[i].name == (if obj.name != r.value.name then r.value.name else w.db.apis[i].name)
  {
  }

  /** A successful publish leaves every plugin configuration of the API
      published under the API's new gateway id. */
  lemma PublishApiPublishesPlugins(obj: ApiRef, w: World, now: Timestamp)
    ensures var r := PublishApi(obj, w, now);
            r.Ok? ==> forall i :: 0 <= i < |r.world.db.plugins| && r.world.db.plugins[i].api == obj.id ==>
              RowPublished(r.world.db.plugins[i], now, r.world.kong, r.value.sync.kongId)
  {
    var r := PublishApi(obj, w, now);
    match ApiOnPublish(obj, w)
    case Raised(_, _) =>
    case Ok(p, w1) =>
      var published := p.obj.(sync := SyncState(Some(p.kongId), true, Some(now)));
      var w2 := World(Store.SetApiPublished(w1.db, obj.id, p.kongId, now), w1.kong);
      var w3 := ApiAfterPublish(published, w2, now).world;
      if r.Ok? {
        PublishedPluginsUnderApi(obj.id, p.kongId, now, w1, w2, w3);
      }
  }

  /** After the cascade, each plugin row of the API is published under the API's new gateway id. */
  lemma PublishedPluginsUnderApi(api: LocalId, kongId: KongId, now: Timestamp, w1: World, w2: World, w3: World)
    requires w2.db == Store.SetApiPublished(w1.db, api, kongId, now)
    requires Store.SameShape(w2.db, w3.db)
    requires forall i :: 0 <= i < |w2.db.plugins| && w2.db.plugins[i].api == api ==>
               RowPublished(w3.db.plugins[i], now, w3.kong, Store.ApiKongId(w2.db, api))
    ensures forall i :: 0 <= i < |w3.db.plugins| && w3.db.plugins[i].api == api ==>
              RowPublished(w3.db.plugins[i], now, w3.kong, Some(kongId))
  {
    forall i | 0 <= i < |w3.db.plugins| && w3.db.plugins[i].api == api
      ensures RowPublished(w3.db.plugins[i], now, w3.kong, Some(kongId))
    {
      assert w2.db.plugins[i].api == api;
      var j :| 0 <= j < |w2.db.apis| && w2.db.apis[j].id == api && w2.db.apis[j].sync.kongId == Store.ApiKongId(w2.db, api);
      assert w1.db.apis[j].id == api;
      Store.ApiKongIdAfterPublished(w1.db, api, kongId, now);
    }
  }

  /** `APISyncEngine.before_withdraw`: withdraws every plugin configuration of
      the API, in row order, before the generic hook. */
  function BeforeWithdrawApi(obj: ApiRef, w: World): (r: Outcome<()>)
    ensures r.world.kong.apis == w.kong.apis && r.world.db.apis == w.db.apis && r.world.db.consumers == w.db.consumers
    ensures Store.SameShape(w.db, r.world.db) && LogExtends(w, r.world)
    ensures r.Raised? ==> r.error == AssertionFailed
    ensures r.Raised? <==>
              (&& Store.PluginsOf(w.db, obj.id) != []
               && (Store.ApiKongId(w.db, obj.id).None? || SomeUnpublished(Store.PluginsOf(w.db, obj.id))))
  {
    var rows := Store.PluginsOf(w.db, obj.id);
    RowsOfApi(w.db, obj.id);
    RunPluginWithdrawFrame(rows, obj.id, w);
    RunPluginWithdrawFails(rows, obj.id, w);
    RunPluginWithdraw(rows, obj.id, w)
  }

  /** When `before_withdraw` succeeds, no plugin configuration of the API is
      still published under it and each of their rows is cleared. */
  lemma BeforeWithdrawApiClears(obj: ApiRef, w: World)
    ensures var r := BeforeWithdrawApi(obj, w);
            r.Ok? ==> forall p :: p in Store.PluginsOf(w.db, obj.id) ==>
              !PluginIsPublished(r.world.kong, p.sync.kongId, Store.ApiKongId(w.db, obj.id))
    ensures var r := BeforeWithdrawApi(obj, w);
            r.Ok? ==> forall i :: 0 <= i < |w.db.plugins| && w.db.plugins[i].api == obj.id ==>
              RowWithdrawn(r.world.db.plugins[i])
  {
    var rows := Store.PluginsOf(w.db, obj.id);
    RowsOfApi(w.db, obj.id);
    RunPluginWithdrawUnpublishes(rows, obj.id, w);
    RunPluginWithdrawClears(rows, obj.id, w);
  }

  /** The generic `withdraw` on the API engine: the plugin configurations
      first, then the API itself, then the record's bookkeeping. */
  function WithdrawApi(obj: ApiRef, w: World): (r: Outcome<ApiRef>)
    ensures Store.SameShape(w.db, r.world.db) && LogExtends(w, r.world)
    ensures r.Raised? ==> r.error == AssertionFailed && r.world.kong.apis == w.kong.apis
    ensures r.Raised? <==>
              (&& Store.PluginsOf(w.db, obj.id) != []
               && (Store.ApiKongId(w.db, obj.id).None? || SomeUnpublished(Store.PluginsOf(w.db, obj.id))))
    ensures r.Ok? ==>
              && r.value == obj.(sync := obj.sync.(kongId := None, synchronized := false))
              && !ApiIsPublished(r.world.kong, obj.sync.kongId)
              && |r.world.kong.log| > 0 && r.world.kong.log[|r.world.kong.log| - 1] == Kong.ApiDelete(obj.sync.kongId)
              && (forall p :: p in Store.PluginsOf(w.db, obj.id) ==>
                    !PluginIsPublished(r.world.kong, p.sync.kongId, Store.ApiKongId(w.db, obj.id)))
  {
    match BeforeWithdrawApi(obj, w)
    case Raised(e, w1) => Raised(e, w1)
    case Ok(_, w1) =>
      BeforeWithdrawApiClears(obj, w);
      var withdrawn := obj.(sync := obj.sync.(kongId := None, synchronized := false));
      var w2 := World(Store.SetApiWithdrawn(w1.db, obj.id), ApiOnWithdrawById(w1.kong, obj.sync.kongId));
      assert LogExtends(w1, w2);
      LogExtendsTrans(w, w1, w2);
      Ok(withdrawn, w2)
  }

  /** A successful withdraw clears the bookkeeping of the API's rows and of
      each of its plugin configurations' rows. */
  lemma WithdrawApiClearsRows(obj: ApiRef, w: World)
    ensures var r := WithdrawApi(obj, w);
            r.Ok? ==> forall i :: 0 <= i < |w.db.apis| && w.db.apis[i].id == obj.id ==> RowWithdrawnApi(r.world.db.apis[i])
    ensures var r := WithdrawApi(obj, w);
            r.Ok? ==> forall i :: 0 <= i < |w.db.plugins| && w.db.plugins[i].api == obj.id ==>
              RowWithdrawn(r.world.db.plugins[i])
  {
    BeforeWithdrawApiClears(obj, w);
  }

  /** Withdrawing an API that has plugin configurations a second time fails:
      the first withdraw cleared their gateway ids, so `before_withdraw`
      asserts on them. */
  lemma WithdrawAgainFails(obj: ApiRef, w: World)
    requires Store.PluginsOf(w.db, obj.id) != []
    requires WithdrawApi(obj, w).Ok?
    ensures var r1 := WithdrawApi(obj, w);
            var r2 := WithdrawApi(r1.value, r1.world);
            r2.Raised? && r2.error == AssertionFailed
  {
    var r1 := WithdrawApi(obj, w);
    WithdrawApiClearsRows(obj, w);
    var i :| 0 <= i < |w.db.plugins| && w.db.plugins[i].api == obj.id;
    assert r1.world.db.plugins[i].api == obj.id;
    WithdrawClearedFails(r1.value, r1.world, i);
  }

  /** An API whose rows carry no gateway id but which has a plugin
      configuration cannot be withdrawn. */
  lemma WithdrawClearedFails(obj: ApiRef, w: World, i: nat)
    requires i < |w.db.plugins| && w.db.plugins[i].api == obj.id
    requires forall j :: 0 <= j < |w.db.apis| && w.db.apis[j].id == obj.id ==> w.db.apis[j].sync.kongId.None?
    ensures var r := WithdrawApi(obj, w);
            r.Raised? && r.error == AssertionFailed
  {
    assert w.db.plugins[i] in Store.PluginsOf(w.db, obj.id);
    assert Store.ApiKongId(w.db, obj.id).None?;
  }

  /** Withdrawing an API without plugin configurations is idempotent: a
      second withdraw succeeds with the same record and leaves the store and
      the gateway's APIs and plugins as the first left them. */
  lemma WithdrawIdempotentWithoutPlugins(obj: ApiRef, w: World)
    requires Store.PluginsOf(w.db, obj.id) == []
    ensures var r1 := WithdrawApi(obj, w);
            var r2 := WithdrawApi(r1.value, r1.world);
            && r1.Ok? && r2.Ok? && r2.value == r1.value
            && r2.world.db == r1.world.db
            && r2.world.kong.apis == r1.world.kong.apis && r2.world.kong.plugins == r1.world.kong.plugins
  {
    var r1 := WithdrawApi(obj, w);
    WithdrawApiClearsRows(obj, w);
    assert r1.value.id == obj.id;
    assert Store.PluginsOf(r1.world.db, obj.id) == [] by {
      forall i | 0 <= i < |r1.world.db.plugins|
        ensures r1.world.db.plugins[i].api != obj.id
      {
        assert w.db.plugins[i].api != obj.id;
      }
    }
    var db2 := Store.SetApiWithdrawn(r1.world.db, obj.id);
    assert db2.apis == r1.world.db.apis;
  }

  /** An API row as a successful withdraw leaves it: no gateway id, not flagged. */
  predicate RowWithdrawnApi(a: ApiRef)
  {
    a.sync.kongId.None? && !a.sync.synchronized
  }

  // ---------------------------------------------------------------------
  // PluginConfigurationSyncEngine

  /** `get_parent_key`: the field naming the parent in a plugin struct. */
  const ParentKey: string := "api_id"

  /** `obj.api.kong_id`: the parent API's gateway id, read from its row. */
  function ParentKongId(db: Store.Db, obj: PluginRef): Option<KongId>
  {
    Store.ApiKongId(db, obj.api)
  }

  /** The consumer's gateway id, or `None` when the configuration has no consumer. */
  function ConsumerKongIdOf(db: Store.Db, obj: PluginRef): (r: Option<KongId>)
    ensures obj.consumer.None? ==> r.None?
    ensures obj.consumer.Some? ==> r == Store.ConsumerKongId(db, obj.consumer.value)
  {
    if obj.consumer.None? then None else Store.ConsumerKongId(db, obj.consumer.value)
  }

  /** The plugin fields `create_or_update` sends. */
  function PluginPayload(db: Store.Db, obj: PluginRef): Kong.PluginFields
  {
    Kong.PluginFields(Plugins.Label(obj.plugin), obj.enabled, ConsumerKongIdOf(db, obj), obj.config)
  }

  /** `PluginConfigurationSyncEngine.on_publish`: creates or updates the plugin
      under the parent API's gateway id and adopts the configuration the
      gateway stored. On a conflict the fallback reads `obj.name`, which a
      plugin configuration does not have, so it raises before sending anything. */
  function PluginOnPublish(obj: PluginRef, w: World): (r: Outcome<Published<PluginRef>>)
    ensures r.world.kong.apis == w.kong.apis && r.world.db.apis == w.db.apis && r.world.db.consumers == w.db.consumers
    ensures r.world.kong.log ==
              w.kong.log + [Kong.PluginCreateOrUpdate(ParentKongId(w.db, obj), obj.sync.kongId, PluginPayload(w.db, obj))]
    ensures forall a, k :: Kong.HasPlugin(w.kong, a, k) ==> Kong.HasPlugin(r.world.kong, a, k)
    ensures r.Raised? ==> r.world.db == w.db && r.world.kong.plugins == w.kong.plugins
    ensures r.Raised? ==> r.error == NotFound || r.error == MissingAttribute
    ensures r.Raised? && r.error == NotFound <==>
              var parent := ParentKongId(w.db, obj);
              parent.None? || !Kong.HasApi(w.kong, parent.value)
              || (obj.sync.kongId.Some? && !Kong.HasPlugin(w.kong, parent.value, obj.sync.kongId.value))
    ensures r.Ok? ==>
              var parent := ParentKongId(w.db, obj);
              var f := PluginPayload(w.db, obj);
              && parent.Some?
              && Kong.RetrievePlugin(r.world.kong, parent, Some(r.value.kongId))
                 == Some(Kong.MakePlugin(w.kong, r.value.kongId, parent.value, f))
              && (obj.sync.kongId.Some? ==> r.value.kongId == obj.sync.kongId.value)
              && r.value.obj == obj.(config := Kong.Canonical(w.kong, f.name, obj.config))
              && (obj.config == r.value.obj.config ==> r.world.db == w.db)
              && (obj.config != r.value.obj.config ==> r.world.db == Store.SetPluginConfig(w.db, obj.id, r.value.obj.config))
  {
    match Kong.CreateOrUpdatePlugin(w.kong, ParentKongId(w.db, obj), obj.sync.kongId, PluginPayload(w.db, obj))
    case Failed(e, g) =>
      if e == Kong.Conflict then Raised(MissingAttribute, World(w.db, g)) else Raised(NotFound, World(w.db, g))
    case Done(s, g) =>
      Kong.RetrievePluginStored(g, s);
      if obj.config != s.config then
        Ok(Published(s.id, obj.(config := s.config)), World(Store.SetPluginConfig(w.db, obj.id, s.config), g))
      else
        Ok(Published(s.id, obj), World(w.db, g))
  }

  /** `PluginConfigurationSyncEngine.is_published`: whether the plugin is found under the parent's id. */
  function PluginIsPublished(g: Kong.Gateway, kongId: Option<KongId>, parentKongId: Option<KongId>): (r: bool)
    ensures r <==> kongId.Some? && parentKongId.Some? && Kong.HasPlugin(g, parentKongId.value, kongId.value)
  {
    Kong.RetrievePlugin(g, parentKongId, kongId).Some?
  }

  /** `PluginConfigurationSyncEngine.on_withdraw_by_id`: both ids must be
      present; then the plugin is deleted under its parent. */
  function PluginOnWithdrawById(g: Kong.Gateway, kongId: Option<KongId>, parentKongId: Option<KongId>): (r: Kong.Reply<()>)
    ensures r.Failed? <==> kongId.None? || parentKongId.None?
    ensures r.Failed? ==> r.gateway == g
    ensures r.Done? ==>
              && !PluginIsPublished(r.gateway, kongId, parentKongId)
              && r.gateway.log == g.log + [Kong.PluginDelete(parentKongId.value, kongId.value)]
    ensures r.gateway.apis == g.apis
    ensures forall p :: p in r.gateway.plugins ==> p in g.plugins
    ensures forall a, k :: Kong.HasPlugin(g, a, k) && (r.Failed? || a != parentKongId.value || k != kongId.value) ==>
              Kong.HasPlugin(r.gateway, a, k)
  {
    if kongId.None? || parentKongId.None? then Kong.Failed(Kong.NotFound, g)
    else Kong.Done((), Kong.DeletePlugin(g, parentKongId.value, kongId.value))
  }

  /** The plugins the gateway lists under the API `apiId` (one page). */
  function PluginPage(g: Kong.Gateway, apiId: KongId): seq<Kong.PluginStruct>
  {
    Kong.ListPlugins(g, apiId)
  }

  /** `PluginConfigurationSyncEngine.on_retrieve_all`: each API's plugin page,
      concatenated in the order the gateway lists the APIs. */
  function PluginRetrieveAll(g: Kong.Gateway): (r: seq<Kong.PluginStruct>)
    ensures forall p :: p in r ==> PluginIsPublished(g, Some(p.id), Some(p.apiId)) && Kong.HasApi(g, p.apiId)
    ensures forall p :: p in r <==> exists k :: 0 <= k < |g.apis| && p in PluginPage(g, g.apis[k].id)
  {
    Concat(PluginPages(g, g.apis))
  }

  /** The plugin pages of the listed APIs, one per API, in order. */
  function PluginPages(g: Kong.Gateway, apis: seq<Kong.ApiStruct>): (r: seq<seq<Kong.PluginStruct>>)
    ensures |r| == |apis| && forall k :: 0 <= k < |apis| ==> r[k] == PluginPage(g, apis[k].id)
  {
    seq(|apis|, k requires 0 <= k < |apis| => PluginPage(g, apis[k].id))
  }

  /** One more listed API appends exactly its page to what `on_retrieve_all` yields. */
  lemma {:induction false} PluginRetrieveAllOrder(g: Kong.Gateway, apis: seq<Kong.ApiStruct>, last: Kong.ApiStruct)
    ensures Concat(PluginPages(g, apis + [last])) == Concat(PluginPages(g, apis)) + PluginPage(g, last.id)
  {
    assert PluginPages(g, apis + [last]) == PluginPages(g, apis) + [PluginPage(g, last.id)];
    ConcatSnoc(PluginPages(g, apis), PluginPage(g, last.id));
  }

  /** The generic `publish` on the plugin engine (it has no `after_publish` of its own). */
  function PublishPlugin(obj: PluginRef, w: World, now: Timestamp): (r: Outcome<PluginRef>)
    ensures r.world.kong.apis == w.kong.apis && r.world.db.apis == w.db.apis && r.world.db.consumers == w.db.consumers
    ensures r.world.kong.log ==
              w.kong.log + [Kong.PluginCreateOrUpdate(ParentKongId(w.db, obj), obj.sync.kongId, PluginPayload(w.db, obj))]
    ensures forall a, k :: Kong.HasPlugin(w.kong, a, k) ==> Kong.HasPlugin(r.world.kong, a, k)
    ensures Store.SameShape(w.db, r.world.db)
    ensures r.Raised? ==> r.world.db == w.db && r.world.kong.plugins == w.kong.plugins
    ensures r.Raised? ==> r.error == NotFound || r.error == MissingAttribute
    ensures r.Ok? ==>
              var parent := ParentKongId(w.db, obj);
              && parent.Some? && r.value.sync.kongId.Some?
              && r.value.sync == SyncState(r.value.sync.kongId, true, Some(now))
              && r.value == obj.(sync := r.value.sync, config := r.value.config)
              && Kong.RetrievePlugin(r.world.kong, parent, r.value.sync.kongId)
                 == Some(Kong.MakePlugin(w.kong, r.value.sync.kongId.value, parent.value, PluginPayload(w.db, obj)))
              && r.value.config == Kong.Canonical(w.kong, Plugins.Label(obj.plugin), obj.config)
    ensures r.Ok? ==> forall i :: 0 <= i < |w.db.plugins| ==>
              r.world.db.plugins[i] ==
                if w.db.plugins[i].id != obj.id then w.db.plugins[i]
                else w.db.plugins[i].(sync := r.value.sync,
                                      config := if obj.config != r.value.config then r.value.config else w.db.plugins[i].config)
  {
    match PluginOnPublish(obj, w)
    case Raised(e, w1) => Raised(e, w1)
    case Ok(p, w1) =>
      Ok(p.obj.(sync := SyncState(Some(p.kongId), true, Some(now))),
         World(Store.SetPluginPublished(w1.db, obj.id, p.kongId, now), w1.kong))
  }

  /** The generic `withdraw` on the plugin engine: deletes under the parent API
      and clears the bookkeeping. */
  function WithdrawPlugin(obj: PluginRef, w: World): (r: Outcome<PluginRef>)
    ensures r.Raised? <==> obj.sync.kongId.None? || ParentKongId(w.db, obj).None?
    ensures r.Raised? ==> r.error == AssertionFailed && r.world == w
    ensures r.world.kong.apis == w.kong.apis && r.world.db.apis == w.db.apis && r.world.db.consumers == w.db.consumers
    ensures forall p :: p in r.world.kong.plugins ==> p in w.kong.plugins
    ensures Store.SameShape(w.db, r.world.db)
    ensures r.Ok? ==>
              && !PluginIsPublished(r.world.kong, obj.sync.kongId, ParentKongId(w.db, obj))
              && r.world.kong.log == w.kong.log + [Kong.PluginDelete(ParentKongId(w.db, obj).value, obj.sync.kongId.value)]
              && r.value == obj.(sync := obj.sync.(kongId := None, synchronized := false))
              && r.world.db == Store.SetPluginWithdrawn(w.db, obj.id)
  {
    match PluginOnWithdrawById(w.kong, obj.sync.kongId, ParentKongId(w.db, obj))
    case Failed(_, _) => Raised(AssertionFailed, w)
    case Done(_, g) =>
      Ok(obj.(sync := obj.sync.(kongId := None, synchronized := false)), World(Store.SetPluginWithdrawn(w.db, obj.id), g))
  }

  // ---------------------------------------------------------------------
  // The plugin cascades

  /** Some row of `rows` has the local id `id`. */
  predicate IdIn(id: LocalId, rows: seq<PluginRef>)
  {
    exists j :: 0 <= j < |rows| && rows[j].id == id
  }

  /** A plugin row as a successful publish at `now` leaves it: flagged, with a
      gateway id that the gateway holds under the parent API `parent`. */
  predicate RowPublished(q: PluginRef, now: Timestamp, g: Kong.Gateway, parent: Option<KongId>)
  {
    && q.sync.synchronized && q.sync.kongId.Some? && q.sync.synchronizedAt == Some(now)
    && parent.Some? && Kong.HasPlugin(g, parent.value, q.sync.kongId.value)
  }

  /** Some row of `rows` has no gateway id. */
  predicate SomeUnpublished(rows: seq<PluginRef>)
  {
    exists j :: 0 <= j < |rows| && rows[j].sync.kongId.None?
  }

  /** A plugin row as a successful withdraw leaves it: no gateway id, not flagged. */
  predicate RowWithdrawn(q: PluginRef)
  {
    q.sync.kongId.None? && !q.sync.synchronized
  }

  /** The generic `synchronize` over the plugin configurations `rows` of the
      API `api`: publishes each in order and stops at the first error. */
  function RunPluginSync(rows: seq<PluginRef>, api: LocalId, w: World, now: Timestamp): (r: Outcome<()>)
    requires forall j :: 0 <= j < |rows| ==> rows[j].api == api
    ensures r.world.kong.apis == w.kong.apis && r.world.db.apis == w.db.apis && r.world.db.consumers == w.db.consumers
    ensures |r.world.db.plugins| == |w.db.plugins|
    decreases |rows|
  {
    if |rows| == 0 then Ok((), w)
    else
      match PublishPlugin(rows[0], w, now)
      case Raised(e, w1) => Raised(e, w1)
      case Ok(_, w1) => RunPluginSync(rows[1..], api, w1, now)
  }

  /** The plugin synchronisation keeps the store's shape, only appends
      requests, never removes a plugin from the gateway, and touches only the
      rows it synchronises. */
  lemma {:induction false} RunPluginSyncFrame(rows: seq<PluginRef>, api: LocalId, w: World, now: Timestamp)
    requires forall j :: 0 <= j < |rows| ==> rows[j].api == api
    ensures var r := RunPluginSync(rows, api, w, now);
            && Store.SameShape(w.db, r.world.db) && LogExtends(w, r.world)
            && (forall a, k :: Kong.HasPlugin(w.kong, a, k) ==> Kong.HasPlugin(r.world.kong, a, k))
            && (forall i :: 0 <= i < |w.db.plugins| && !IdIn(w.db.plugins[i].id, rows) ==>
                  r.world.db.plugins[i] == w.db.plugins[i])
    decreases |rows|
  {
    if |rows| > 0 {
      var first := PublishPlugin(rows[0], w, now);
      assert LogExtends(w, first.world);
      if first.Ok? {
        var w1 := first.world;
        RunPluginSyncFrame(rows[1..], api, w1, now);
        var r := RunPluginSync(rows[1..], api, w1, now);
        LogExtendsTrans(w, w1, r.world);
        Store.SameShapeTrans(w.db, w1.db, r.world.db);
        forall i | 0 <= i < |w.db.plugins| && !IdIn(w.db.plugins[i].id, rows)
          ensures r.world.db.plugins[i] == w.db.plugins[i]
        {
          assert w.db.plugins[i].id != rows[0].id;
        }
      }
    }
  }

  /** A successful publish of a plugin configuration leaves its rows published
      under the parent API's gateway id. */
  lemma PublishPluginRow(obj: PluginRef, w: World, now: Timestamp, i: nat)
    requires PublishPlugin(obj, w, now).Ok?
    requires i < |w.db.plugins| && w.db.plugins[i].id == obj.id
    ensures var r := PublishPlugin(obj, w, now);
            RowPublished(r.world.db.plugins[i], now, r.world.kong, ParentKongId(w.db, obj))
  {
    var r := PublishPlugin(obj, w, now);
    var parent := ParentKongId(w.db, obj);
    assert Kong.RetrievePlugin(r.world.kong, parent, r.value.sync.kongId).Some?;
  }

  /** When the plugin synchronisation succeeds, every row it was given is
      published under the API's gateway id. */
  lemma {:induction false} RunPluginSyncPublishes(rows: seq<PluginRef>, api: LocalId, w: World, now: Timestamp)
    requires forall j :: 0 <= j < |rows| ==> rows[j].api == api
    ensures var r := RunPluginSync(rows, api, w, now);
            r.Ok? ==> forall i :: 0 <= i < |w.db.plugins| && IdIn(w.db.plugins[i].id, rows) ==>
              RowPublished(r.world.db.plugins[i], now, r.world.kong, Store.ApiKongId(w.db, api))
    decreases |rows|
  {
    var r := RunPluginSync(rows, api, w, now);
    if |rows| > 0 && r.Ok? {
      var w1 := PublishPlugin(rows[0], w, now).world;
      RunPluginSyncPublishes(rows[1..], api, w1, now);
      forall i | 0 <= i < |w.db.plugins| && IdIn(w.db.plugins[i].id, rows)
        ensures RowPublished(r.world.db.plugins[i], now, r.world.kong, Store.ApiKongId(w.db, api))
      {
        if IdIn(w1.db.plugins[i].id, rows[1..]) {
          assert Store.ApiKongId(w1.db, api) == Store.ApiKongId(w.db, api);
        } else {
          RunPluginSyncHead(rows, api, w, now, i);
        }
      }
    }
  }

  /** The row a synchronisation publishes first, and no later step touches,
      stays published. */
  lemma RunPluginSyncHead(rows: seq<PluginRef>, api: LocalId, w: World, now: Timestamp, i: nat)
    requires forall j :: 0 <= j < |rows| ==> rows[j].api == api
    requires |rows| > 0 && RunPluginSync(rows, api, w, now).Ok?
    requires i < |w.db.plugins| && IdIn(w.db.plugins[i].id, rows)
    requires !IdIn(PublishPlugin(rows[0], w, now).world.db.plugins[i].id, rows[1..])
    ensures var r := RunPluginSync(rows, api, w, now);
            RowPublished(r.world.db.plugins[i], now, r.world.kong, Store.ApiKongId(w.db, api))
  {
    var first := PublishPlugin(rows[0], w, now);
    var w1 := first.world;
    var r := RunPluginSync(rows[1..], api, w1, now);
    assert RunPluginSync(rows, api, w, now) == r;
    assert w1.db.plugins[i].id == w.db.plugins[i].id;
    assert w.db.plugins[i].id == rows[0].id;
    PublishPluginRow(rows[0], w, now, i);
    RunPluginSyncFrame(rows[1..], api, w1, now);
    var parent := ParentKongId(w.db, rows[0]);
    assert parent == Store.ApiKongId(w.db, api);
    assert r.world.db.plugins[i] == w1.db.plugins[i];
  }

  /** `before_withdraw`'s loop over the plugin configurations `rows` of the API
      `api`: withdraws each in order and stops at the first error. */
  function RunPluginWithdraw(rows: seq<PluginRef>, api: LocalId, w: World): (r: Outcome<()>)
    requires forall j :: 0 <= j < |rows| ==> rows[j].api == api
    ensures r.world.kong.apis == w.kong.apis && r.world.db.apis == w.db.apis && r.world.db.consumers == w.db.consumers
    ensures forall p :: p in r.world.kong.plugins ==> p in w.kong.plugins
    ensures r.Raised? ==> r.error == AssertionFailed
    ensures |r.world.db.plugins| == |w.db.plugins|
    decreases |rows|
  {
    if |rows| == 0 then Ok((), w)
    else
      match WithdrawPlugin(rows[0], w)
      case Raised(e, w1) => Raised(e, w1)
      case Ok(_, w1) => RunPluginWithdraw(rows[1..], api, w1)
  }

  /** The plugin withdrawal keeps the store's shape and only appends requests. */
  lemma {:induction false} RunPluginWithdrawFrame(rows: seq<PluginRef>, api: LocalId, w: World)
    requires forall j :: 0 <= j < |rows| ==> rows[j].api == api
    ensures var r := RunPluginWithdraw(rows, api, w);
            Store.SameShape(w.db, r.world.db) && LogExtends(w, r.world)
    decreases |rows|
  {
    if |rows| > 0 {
      var first := WithdrawPlugin(rows[0], w);
      if first.Ok? {
        assert LogExtends(w, first.world);
        RunPluginWithdrawFrame(rows[1..], api, first.world);
        var r := RunPluginWithdraw(rows[1..], api, first.world);
        LogExtendsTrans(w, first.world, r.world);
        Store.SameShapeTrans(w.db, first.world.db, r.world.db);
      }
    }
  }

  /** The plugin withdrawal fails exactly when there is a row to withdraw and
      the API has no gateway id or some row has none. */
  lemma {:induction false} RunPluginWithdrawFails(rows: seq<PluginRef>, api: LocalId, w: World)
    requires forall j :: 0 <= j < |rows| ==> rows[j].api == api
    ensures RunPluginWithdraw(rows, api, w).Raised? <==>
              (&& |rows| > 0
               && (Store.ApiKongId(w.db, api).None? || SomeUnpublished(rows)))
    decreases |rows|
  {
    if |rows| > 0 {
      var first := WithdrawPlugin(rows[0], w);
      if first.Ok? {
        RunPluginWithdrawFails(rows[1..], api, first.world);
        assert Store.ApiKongId(first.world.db, api) == Store.ApiKongId(w.db, api);
        assert forall j :: 1 <= j < |rows| ==> rows[j] == rows[1..][j - 1];
      }
    }
  }

  /** When the plugin withdrawal succeeds, no row it was given is still
      published under the API. */
  lemma {:induction false} RunPluginWithdrawUnpublishes(rows: seq<PluginRef>, api: LocalId, w: World)
    requires forall j :: 0 <= j < |rows| ==> rows[j].api == api
    ensures var r := RunPluginWithdraw(rows, api, w);
            r.Ok? ==> forall j :: 0 <= j < |rows| ==>
              !PluginIsPublished(r.world.kong, rows[j].sync.kongId, Store.ApiKongId(w.db, api))
    decreases |rows|
  {
    var r := RunPluginWithdraw(rows, api, w);
    if |rows| > 0 && r.Ok? {
      var first := WithdrawPlugin(rows[0], w);
      var w1 := first.world;
      assert r == RunPluginWithdraw(rows[1..], api, w1);
      RunPluginWithdrawUnpublishes(rows[1..], api, w1);
      assert Store.ApiKongId(w1.db, api) == Store.ApiKongId(w.db, api);
      var parent := Store.ApiKongId(w.db, api);
      assert !PluginIsPublished(w1.kong, rows[0].sync.kongId, parent);
      Kong.NoPluginInSubset(w1.kong, r.world.kong, parent.value, rows[0].sync.kongId.value);
      forall j | 0 <= j < |rows|
        ensures !PluginIsPublished(r.world.kong, rows[j].sync.kongId, parent)
      {
        if j > 0 {
          assert rows[j] == rows[1..][j - 1];
        }
      }
    }
  }

  /** When the plugin withdrawal succeeds, the rows it was given are cleared. */
  lemma {:induction false} RunPluginWithdrawClears(rows: seq<PluginRef>, api: LocalId, w: World)
    requires forall j :: 0 <= j < |rows| ==> rows[j].api == api
    ensures var r := RunPluginWithdraw(rows, api, w);
            r.Ok? ==> forall i :: 0 <= i < |w.db.plugins| && IdIn(w.db.plugins[i].id, rows) ==>
              RowWithdrawn(r.world.db.plugins[i])
    decreases |rows|
  {
    var r := RunPluginWithdraw(rows, api, w);
    if |rows| > 0 && r.Ok? {
      var first := WithdrawPlugin(rows[0], w);
      var w1 := first.world;
      RunPluginWithdrawClears(rows[1..], api, w1);
      forall i | 0 <= i < |w.db.plugins| && IdIn(w.db.plugins[i].id, rows)
        ensures RowWithdrawn(r.world.db.plugins[i])
      {
        if !IdIn(w1.db.plugins[i].id, rows[1..]) {
          RunPluginWithdrawHead(rows, api, w, i);
        }
      }
    }
  }

  /** The row a withdrawal clears first, and no later step touches, stays cleared. */
  lemma RunPluginWithdrawHead(rows: seq<PluginRef>, api: LocalId, w: World, i: nat)
    requires forall j :: 0 <= j < |rows| ==> rows[j].api == api
    requires |rows| > 0 && RunPluginWithdraw(rows, api, w).Ok?
    requires i < |w.db.plugins| && IdIn(w.db.plugins[i].id, rows)
    requires !IdIn(WithdrawPlugin(rows[0], w).world.db.plugins[i].id, rows[1..])
    ensures RowWithdrawn(RunPluginWithdraw(rows, api, w).world.db.plugins[i])
  {
    var w1 := WithdrawPlugin(rows[0], w).world;
    assert w1.db.plugins[i].id == w.db.plugins[i].id;
    assert w.db.plugins[i].id == rows[0].id;
    RunPluginWithdrawUntouched(rows[1..], api, w1, i);
  }

  /** The plugin withdrawal leaves alone the rows it was not given. */
  lemma {:induction false} RunPluginWithdrawUntouched(rows: seq<PluginRef>, api: LocalId, w: World, i: nat)
    requires forall j :: 0 <= j < |rows| ==> rows[j].api == api
    requires i < |w.db.plugins| && !IdIn(w.db.plugins[i].id, rows)
    ensures var r := RunPluginWithdraw(rows, api, w);
            |r.world.db.plugins| == |w.db.plugins| && r.world.db.plugins[i] == w.db.plugins[i]
    decreases |rows|
  {
    if |rows| > 0 {
      var first := WithdrawPlugin(rows[0], w);
      if first.Ok? {
        assert w.db.plugins[i].id != rows[0].id;
        RunPluginWithdrawUntouched(rows[1..], api, first.world, i);
        RunPluginWithdrawFrame(rows[1..], api, first.world);
      }
    }
  }
}
