/** The entry points the admin views call (kong_admin/logic.py): publish,
    withdraw and synchronise one record, and the bulk synchronisations. Each
    runs an engine step and then writes back the `enabled` flag, touching only
    that column and only when it changes.

    The consumer engine (sync/consumers.py) is not part of this model: the
    consumer entry points take its `publish` and `withdraw` steps as
    parameters. */
module Logic {
  import opened Tables
  import opened Types
  import opened Models
  import opened Engine
  import Kong
  import Store
  import ApiSync
  import Plugins

  /** `(toggle and obj.enabled) or (not toggle and not obj.enabled)`: the
      condition under which `synchronize_api` and `synchronize_consumer` withdraw. */
  function Withdraws(toggle: bool, enabled: bool): (r: bool)
    ensures r <==> toggle == enabled
  {
    (toggle && enabled) || (!toggle && !enabled)
  }

  // ---------------------------------------------------------------------
  // APIs

  /** `publish_api`: publishes, then marks the record enabled. */
  function PublishApi(obj: ApiRef, w: World, now: Timestamp): (r: Outcome<ApiRef>)
    ensures var e := ApiSync.PublishApi(obj, w, now);
            && (r.Raised? <==> e.Raised?)
            && (r.Raised? ==> r == e)
            && (r.Ok? ==>
                  && r.value == e.value.(enabled := true)
                  && r.world.kong == e.world.kong
                  && (e.value.enabled ==> r.world.db == e.world.db)
                  && (!e.value.enabled ==> r.world.db == Store.SetApiEnabled(e.world.db, obj.id, true)))
    ensures r.Ok? ==>
              && r.value.enabled && r.value.sync.synchronized
              && ApiSync.ApiIsPublished(r.world.kong, r.value.sync.kongId)
  {
    match ApiSync.PublishApi(obj, w, now)
    case Raised(e, w1) => Raised(e, w1)
    case Ok(o, w1) =>
      if !o.enabled then Ok(o.(enabled := true), World(Store.SetApiEnabled(w1.db, o.id, true), w1.kong))
      else Ok(o, w1)
  }

  /** `withdraw_api`: withdraws, then marks the record disabled. */
  function WithdrawApi(obj: ApiRef, w: World): (r: Outcome<ApiRef>)
    ensures var e := ApiSync.WithdrawApi(obj, w);
            && (r.Raised? <==> e.Raised?)
            && (r.Raised? ==> r == e)
            && (r.Ok? ==>
                  && r.value == e.value.(enabled := false)
                  && r.world.kong == e.world.kong
                  && (!e.value.enabled ==> r.world.db == e.world.db)
                  && (e.value.enabled ==> r.world.db == Store.SetApiEnabled(e.world.db, obj.id, false)))
    ensures r.Ok? ==>
              && !r.value.enabled && !r.value.sync.synchronized
              && !ApiSync.ApiIsPublished(r.world.kong, obj.sync.kongId)
  {
    match ApiSync.WithdrawApi(obj, w)
    case Raised(e, w1) => Raised(e, w1)
    case Ok(o, w1) =>
      if o.enabled then Ok(o.(enabled := false), World(Store.SetApiEnabled(w1.db, o.id, false), w1.kong))
      else Ok(o, w1)
  }

  /** `synchronize_api`: withdraws when `toggle` equals the record's flag,
      publishes otherwise; so a successful call leaves the flag flipped when
      toggling and as it was when not. */
  function SynchronizeApi(obj: ApiRef, toggle: bool, w: World, now: Timestamp): (r: Outcome<ApiRef>)
    ensures r.Ok? ==> r.value.enabled == (toggle != obj.enabled)
    ensures r.Ok? && toggle == obj.enabled ==>
              !r.value.sync.synchronized && !ApiSync.ApiIsPublished(r.world.kong, obj.sync.kongId)
    ensures r.Ok? && toggle != obj.enabled ==>
              r.value.sync.synchronized && ApiSync.ApiIsPublished(r.world.kong, r.value.sync.kongId)
    ensures r.Raised? ==> if toggle == obj.enabled then ApiSync.WithdrawApi(obj, w).Raised?
                          else ApiSync.PublishApi(obj, w, now).Raised?
  {
    if Withdraws(toggle, obj.enabled) then WithdrawApi(obj, w) else PublishApi(obj, w, now)
  }

  /** Two successful toggling synchronisations in a row give the record back its flag. */
  lemma ToggleTwiceRestores(obj: ApiRef, w: World, now1: Timestamp, now2: Timestamp)
    requires SynchronizeApi(obj, true, w, now1).Ok?
    requires var r1 := SynchronizeApi(obj, true, w, now1);
             SynchronizeApi(r1.value, true, r1.world, now2).Ok?
    ensures var r1 := SynchronizeApi(obj, true, w, now1);
            var r2 := SynchronizeApi(r1.value, true, r1.world, now2);
            r1.value.enabled != obj.enabled && r2.value.enabled == obj.enabled
  {
  }

  /** `synchronize_apis`: the API engine's bulk synchronisation, with orphan deletion. */
  function SynchronizeApis(queryset: Option<seq<LocalId>>): (q: SyncRequest)
    ensures q.engine == ApiEngine && q.delete && q.queryset == queryset
  {
    SyncRequest(ApiEngine, queryset, true)
  }

  /** A fresh API with no plugin configurations and no clash on the gateway is
      published, found on the gateway, enabled and flagged; withdrawing it
      then succeeds, and its gateway id is no longer found. */
  lemma PublishThenWithdraw(obj: ApiRef, w: World, now: Timestamp)
    requires obj.sync.kongId.None?
    requires Truthy(obj.requestHost) || Truthy(obj.requestPath)
    requires !Kong.AnyApiClash(w.kong, None, ApiSync.ApiPayload(obj))
    requires Store.PluginsOf(w.db, obj.id) == []
    ensures var r1 := PublishApi(obj, w, now);
            && r1.Ok? && r1.value.enabled && r1.value.sync.synchronized
            && ApiSync.ApiIsPublished(r1.world.kong, r1.value.sync.kongId)
            && var r2 := WithdrawApi(r1.value, r1.world);
               && r2.Ok? && !r2.value.enabled && !r2.value.sync.synchronized
               && !ApiSync.ApiIsPublished(r2.world.kong, r1.value.sync.kongId)
  {
    PublishFreshApi(obj, w, now);
    var r1 := PublishApi(obj, w, now);
    assert r1.value.id == obj.id;
    NoPluginsKept(w.db, r1.world.db, obj.id);
    WithdrawWithoutPlugins(r1.value, r1.world);
  }

  /** Publishing an API that has no gateway id, a request host or path, no
      plugin configurations and no clash on the gateway cannot fail. */
  lemma PublishFreshApi(obj: ApiRef, w: World, now: Timestamp)
    requires obj.sync.kongId.None?
    requires Truthy(obj.requestHost) || Truthy(obj.requestPath)
    requires !Kong.AnyApiClash(w.kong, None, ApiSync.ApiPayload(obj))
    requires Store.PluginsOf(w.db, obj.id) == []
    ensures ApiSync.PublishApi(obj, w, now).Ok?
  {
    assert !ApiSync.Conflicted(w.kong, obj);
    var e := ApiSync.ApiOnPublish(obj, w);
    var published := e.value.obj.(sync := SyncState(Some(e.value.kongId), true, Some(now)));
    var w2 := World(Store.SetApiPublished(e.world.db, obj.id, e.value.kongId, now), e.world.kong);
    Store.SameShapeTrans(w.db, e.world.db, w2.db);
    NoPluginsKept(w.db, w2.db, obj.id);
    assert published.id == obj.id;
  }

  /** An API with neither a request host nor a request path is refused by
      the gateway: publishing it raises `ValueError` (an unknown gateway id
      or a rejected request), the store is left as it was, in particular the
      record's row stays unsynchronised, and the gateway's APIs are unchanged. */
  lemma PublishWithoutRouteRaises(obj: ApiRef, w: World, now: Timestamp)
    requires !Truthy(obj.requestHost) && !Truthy(obj.requestPath)
    ensures var r := PublishApi(obj, w, now);
            && r.Raised? && (r.error == NotFound || r.error == Invalid)
            && (obj.sync.kongId.None? ==> r.error == Invalid)
            && r.world.db == w.db && r.world.kong.apis == w.kong.apis
  {
    assert !Kong.Routed(ApiSync.ApiPayload(obj));
    assert !ApiSync.Conflicted(w.kong, obj);
  }

  /** Withdrawing an API with no plugin configurations cannot fail: there is
      nothing for `before_withdraw` to assert about. */
  lemma WithdrawWithoutPlugins(obj: ApiRef, w: World)
    requires Store.PluginsOf(w.db, obj.id) == []
    ensures WithdrawApi(obj, w).Ok?
  {
  }

  /** A store with no plugin configuration of `api` keeps none across a
      synchronisation step, which never moves configurations between APIs. */
  lemma NoPluginsKept(db: Store.Db, db': Store.Db, api: LocalId)
    requires Store.SameShape(db, db')
    requires Store.PluginsOf(db, api) == []
    ensures Store.PluginsOf(db', api) == []
  {
  }

  // ---------------------------------------------------------------------
  // Plugin configurations

  /** `publish_plugin_configuration`: the plugin engine's publish. */
  function PublishPluginConfiguration(obj: PluginRef, w: World, now: Timestamp): (r: Outcome<PluginRef>)
    ensures r.Ok? ==>
              && r.value.sync.synchronized
              && ApiSync.PluginIsPublished(r.world.kong, r.value.sync.kongId, ApiSync.ParentKongId(w.db, obj))
    ensures r.Raised? ==> r.world.db == w.db
  {
    ApiSync.PublishPlugin(obj, w, now)
  }

  /** `withdraw_plugin_configuration`: the plugin engine's withdraw. */
  function WithdrawPluginConfiguration(obj: PluginRef, w: World): (r: Outcome<PluginRef>)
    ensures r.Raised? <==> obj.sync.kongId.None? || ApiSync.ParentKongId(w.db, obj).None?
    ensures r.Ok? ==>
              && !r.value.sync.synchronized && r.value.sync.kongId.None?
              && !ApiSync.PluginIsPublished(r.world.kong, obj.sync.kongId, ApiSync.ParentKongId(w.db, obj))
  {
    ApiSync.WithdrawPlugin(obj, w)
  }

  /** `enable_plugin_configuration`: sets the flag on the record, publishes it
      (a disabled configuration stays on the gateway, disabled), then writes
      the `enabled` column; an error leaves the store as the engine left it.
      The publish also records its bookkeeping and, when the gateway answers
      with a different canonical configuration, writes that to the rows. */
  function EnablePluginConfiguration(obj: PluginRef, enabled: bool, w: World, now: Timestamp): (r: Outcome<PluginRef>)
    ensures r.world.kong.log ==
              w.kong.log + [Kong.PluginCreateOrUpdate(ApiSync.ParentKongId(w.db, obj), obj.sync.kongId,
                                                      ApiSync.PluginPayload(w.db, obj.(enabled := enabled)))]
    ensures r.Raised? ==> r.world.db == w.db
    ensures |r.world.db.plugins| == |w.db.plugins|
    ensures r.Ok? ==>
              var parent := ApiSync.ParentKongId(w.db, obj);
              && r.value.enabled == enabled && r.value.sync.synchronized && parent.Some?
              && Kong.RetrievePlugin(r.world.kong, parent, r.value.sync.kongId).Some?
              && Kong.RetrievePlugin(r.world.kong, parent, r.value.sync.kongId).value.enabled == enabled
    ensures r.Ok? ==> forall i :: 0 <= i < |w.db.plugins| && w.db.plugins[i].id == obj.id ==>
              r.world.db.plugins[i].enabled == enabled && r.world.db.plugins[i].sync == r.value.sync
    ensures r.Ok? ==>
              && r.value.config == Kong.Canonical(w.kong, Plugins.Label(obj.plugin), obj.config)
              && forall i :: 0 <= i < |w.db.plugins| && w.db.plugins[i].id == obj.id ==>
                   r.world.db.plugins[i].config ==
                     if obj.config != r.value.config then r.value.config else w.db.plugins[i].config
    ensures r.Ok? ==> forall i :: 0 <= i < |w.db.plugins| && w.db.plugins[i].id != obj.id ==>
              r.world.db.plugins[i] == w.db.plugins[i]
  {
    match ApiSync.PublishPlugin(obj.(enabled := enabled), w, now)
    case Raised(e, w1) => Raised(e, w1)
    case Ok(p, w1) => Ok(p, World(Store.SetPluginEnabled(w1.db, p.id, p.enabled), w1.kong))
  }

  /** `synchronize_plugin_configuration`: never withdraws; publishes with the
      flag negated when toggling and unchanged otherwise. */
  function SynchronizePluginConfiguration(obj: PluginRef, toggle: bool, w: World, now: Timestamp): (r: Outcome<PluginRef>)
    ensures |r.world.kong.log| == |w.kong.log| + 1 && r.world.kong.log[..|w.kong.log|] == w.kong.log
    ensures r.world.kong.log[|w.kong.log|].PluginCreateOrUpdate?
    ensures r.world.kong.log[|w.kong.log|].pluginFields.enabled == (toggle != obj.enabled)
    ensures r.Ok? ==> r.value.enabled == (toggle != obj.enabled) && r.value.sync.synchronized
  {
    EnablePluginConfiguration(obj, if toggle then !obj.enabled else obj.enabled, w, now)
  }

  /** `synchronize_plugin_configurations`: the plugin engine's bulk synchronisation, with orphan deletion. */
  function SynchronizePluginConfigurations(queryset: Option<seq<LocalId>>): (q: SyncRequest)
    ensures q.engine == PluginEngine && q.delete && q.queryset == queryset
  {
    SyncRequest(PluginEngine, queryset, true)
  }

  // ---------------------------------------------------------------------
  // Consumers

  /** A consumer engine step (`publish` or `withdraw`). */
  type ConsumerStep = (ConsumerRef, World) -> Outcome<ConsumerRef>

  /** The consumer rows `id` all carry the flag `enabled`. */
  predicate ConsumerRowsEnabled(db: Store.Db, id: LocalId, enabled: bool)
  {
    forall i :: 0 <= i < |db.consumers| && db.consumers[i].id == id ==> db.consumers[i].enabled == enabled
  }

  /** `publish_consumer`: publishes with the engine, then marks the consumer
      enabled; it returns nothing. */
  function PublishConsumer(publish: ConsumerStep, obj: ConsumerRef, w: World): (r: Outcome<()>)
    ensures var e := publish(obj, w);
            && (r.Raised? <==> e.Raised?)
            && (r.Raised? ==> r.error == e.error && r.world == e.world)
            && (r.Ok? ==>
                  && r.world.kong == e.world.kong
                  && (e.value.enabled ==> r.world.db == e.world.db)
                  && (!e.value.enabled ==> r.world.db == Store.SetConsumerEnabled(e.world.db, e.value.id, true))
                  && (!e.value.enabled ==> ConsumerRowsEnabled(r.world.db, e.value.id, true)))
  {
    match publish(obj, w)
    case Raised(e, w1) => Raised(e, w1)
    case Ok(o, w1) =>
      if !o.enabled then Ok((), World(Store.SetConsumerEnabled(w1.db, o.id, true), w1.kong))
      else Ok((), w1)
  }

  /** `withdraw_consumer`: withdraws with the engine, then marks the consumer
      disabled; it returns nothing. */
  function WithdrawConsumer(withdraw: ConsumerStep, obj: ConsumerRef, w: World): (r: Outcome<()>)
    ensures var e := withdraw(obj, w);
            && (r.Raised? <==> e.Raised?)
            && (r.Raised? ==> r.error == e.error && r.world == e.world)
            && (r.Ok? ==>
                  && r.world.kong == e.world.kong
                  && (!e.value.enabled ==> r.world.db == e.world.db)
                  && (e.value.enabled ==> r.world.db == Store.SetConsumerEnabled(e.world.db, e.value.id, false))
                  && (e.value.enabled ==> ConsumerRowsEnabled(r.world.db, e.value.id, false)))
  {
    match withdraw(obj, w)
    case Raised(e, w1) => Raised(e, w1)
    case Ok(o, w1) =>
      if o.enabled then Ok((), World(Store.SetConsumerEnabled(w1.db, o.id, false), w1.kong))
      else Ok((), w1)
  }

  /** `synchronize_consumer`: withdraws when `toggle` equals the consumer's
      flag and publishes otherwise. The flag the call aims at (flipped when
      toggling, as it was when not) is either already on the engine's record,
      and nothing is written, or written to the consumer's rows. */
  function SynchronizeConsumer(publish: ConsumerStep, withdraw: ConsumerStep, obj: ConsumerRef, toggle: bool, w: World): (r: Outcome<()>)
    ensures var e := if toggle == obj.enabled then withdraw(obj, w) else publish(obj, w);
            && (r.Raised? <==> e.Raised?)
            && (r.Ok? ==> e.value.enabled == (toggle != obj.enabled)
                          || ConsumerRowsEnabled(r.world.db, e.value.id, toggle != obj.enabled))
  {
    if Withdraws(toggle, obj.enabled) then WithdrawConsumer(withdraw, obj, w) else PublishConsumer(publish, obj, w)
  }

  /** When the engine step keeps the consumer's rows in line with the record
      it returns, a successful `synchronize_consumer` leaves those rows with
      the flag it aims at: flipped when toggling, as it was when not. */
  lemma SynchronizeConsumerRows(publish: ConsumerStep, withdraw: ConsumerStep, obj: ConsumerRef, toggle: bool, w: World)
    requires var e := if toggle == obj.enabled then withdraw(obj, w) else publish(obj, w);
             e.Ok? ==> ConsumerRowsEnabled(e.world.db, e.value.id, e.value.enabled)
    ensures var e := if toggle == obj.enabled then withdraw(obj, w) else publish(obj, w);
            var r := SynchronizeConsumer(publish, withdraw, obj, toggle, w);
            r.Ok? ==> ConsumerRowsEnabled(r.world.db, e.value.id, toggle != obj.enabled)
  {
  }

  /** `synchronize_consumers`: the consumer engine's bulk synchronisation, with orphan deletion. */
  function SynchronizeConsumers(queryset: Option<seq<LocalId>>): (q: SyncRequest)
    ensures q.engine == ConsumerEngine && q.delete && q.queryset == queryset
  {
    SyncRequest(ConsumerEngine, queryset, true)
  }
}
