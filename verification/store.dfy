/** The local relational store of proxy records, as the synchronisation code
    reads and writes it: lookups by primary key, the plugin configurations of
    one API (`filter(api=obj)`), and single-column writes
    (`filter(id=...).update(column=...)`), which touch only the named column of
    the rows with that id and nothing when there is none. */
module Store {
  import opened Tables
  import opened Types
  import opened Models

  datatype Db = Db(apis: seq<ApiRef>, plugins: seq<PluginRef>, consumers: seq<ConsumerRef>)

  /** The gateway id stored on the API row `id` (the first such row), if any. */
  function ApiKongId(db: Db, id: LocalId): (r: Option<KongId>)
    ensures r.Some? ==> exists i :: 0 <= i < |db.apis| && db.apis[i].id == id && db.apis[i].sync.kongId == r
  {
    match Find(db.apis, (a: ApiRef) => a.id == id)
    case None => None
    case Some(a) => a.sync.kongId
  }

  /** The gateway id stored on the consumer row `id` (the first such row), if any. */
  function ConsumerKongId(db: Db, id: LocalId): (r: Option<KongId>)
    ensures r.Some? ==> exists i :: 0 <= i < |db.consumers| && db.consumers[i].id == id && db.consumers[i].sync.kongId == r
  {
    match Find(db.consumers, (c: ConsumerRef) => c.id == id)
    case None => None
    case Some(c) => c.sync.kongId
  }

  /** `PluginConfigurationReference.objects.filter(api=...)`, in row order. */
  function PluginsOf(db: Db, api: LocalId): (r: seq<PluginRef>)
    ensures forall p :: p in r <==> p in db.plugins && p.api == api
    ensures r == [] <==> forall i :: 0 <= i < |db.plugins| ==> db.plugins[i].api != api
  {
    Filter(db.plugins, (p: PluginRef) => p.api == api)
  }

  /** Writes the `name` column of the API rows `id`. */
  function SetApiName(db: Db, id: LocalId, name: string): (r: Db)
    ensures SameShape(db, r)
    ensures r.plugins == db.plugins && r.consumers == db.consumers && |r.apis| == |db.apis|
    ensures forall i :: 0 <= i < |db.apis| ==>
              r.apis[i] == if db.apis[i].id == id then db.apis[i].(name := Some(name)) else db.apis[i]
  {
    db.(apis := UpdateWhere(db.apis, (a: ApiRef) => a.id == id, (a: ApiRef) => a.(name := Some(name))))
  }

  /** Writes the `enabled` column of the API rows `id`. */
  function SetApiEnabled(db: Db, id: LocalId, enabled: bool): (r: Db)
    ensures SameShape(db, r)
    ensures r.plugins == db.plugins && r.consumers == db.consumers && |r.apis| == |db.apis|
    ensures forall i :: 0 <= i < |db.apis| ==>
              r.apis[i] == if db.apis[i].id == id then db.apis[i].(enabled := enabled) else db.apis[i]
  {
    db.(apis := UpdateWhere(db.apis, (a: ApiRef) => a.id == id, (a: ApiRef) => a.(enabled := enabled)))
  }

  /** Records a publish on the API rows `id`: writes `kong_id`, `synchronized`
      and `synchronized_at`. */
  function SetApiPublished(db: Db, id: LocalId, kongId: KongId, now: Timestamp): (r: Db)
    ensures SameShape(db, r)
    ensures r.plugins == db.plugins && r.consumers == db.consumers && |r.apis| == |db.apis|
    ensures forall i :: 0 <= i < |db.apis| ==>
              r.apis[i] == if db.apis[i].id == id then db.apis[i].(sync := SyncState(Some(kongId), true, Some(now)))
                           else db.apis[i]
  {
    db.(apis := UpdateWhere(db.apis, (a: ApiRef) => a.id == id,
                            (a: ApiRef) => a.(sync := SyncState(Some(kongId), true, Some(now)))))
  }

  /** Records a withdraw on the API rows `id`: clears `kong_id` and `synchronized`. */
  function SetApiWithdrawn(db: Db, id: LocalId): (r: Db)
    ensures SameShape(db, r)
    ensures r.plugins == db.plugins && r.consumers == db.consumers && |r.apis| == |db.apis|
    ensures forall i :: 0 <= i < |db.apis| ==>
              r.apis[i] == if db.apis[i].id == id then db.apis[i].(sync := db.apis[i].sync.(kongId := None, synchronized := false))
                           else db.apis[i]
  {
    db.(apis := UpdateWhere(db.apis, (a: ApiRef) => a.id == id,
                            (a: ApiRef) => a.(sync := a.sync.(kongId := None, synchronized := false))))
  }

  /** Writes the `config` column of the plugin rows `id`. */
  function SetPluginConfig(db: Db, id: LocalId, config: Config): (r: Db)
    ensures SameShape(db, r)
    ensures r.apis == db.apis && r.consumers == db.consumers && |r.plugins| == |db.plugins|
    ensures forall i :: 0 <= i < |db.plugins| ==>
              r.plugins[i] == if db.plugins[i].id == id then db.plugins[i].(config := config) else db.plugins[i]
  {
    db.(plugins := UpdateWhere(db.plugins, (p: PluginRef) => p.id == id, (p: PluginRef) => p.(config := config)))
  }

  /** Writes the `enabled` column of the plugin rows `id`. */
  function SetPluginEnabled(db: Db, id: LocalId, enabled: bool): (r: Db)
    ensures SameShape(db, r)
    ensures r.apis == db.apis && r.consumers == db.consumers && |r.plugins| == |db.plugins|
    ensures forall i :: 0 <= i < |db.plugins| ==>
              r.plugins[i] == if db.plugins[i].id == id then db.plugins[i].(enabled := enabled) else db.plugins[i]
  {
    db.(plugins := UpdateWhere(db.plugins, (p: PluginRef) => p.id == id, (p: PluginRef) => p.(enabled := enabled)))
  }

  /** Records a publish on the plugin rows `id`: writes `kong_id`, `synchronized`
      and `synchronized_at`. */
  function SetPluginPublished(db: Db, id: LocalId, kongId: KongId, now: Timestamp): (r: Db)
    ensures SameShape(db, r)
    ensures r.apis == db.apis && r.consumers == db.consumers && |r.plugins| == |db.plugins|
    ensures forall i :: 0 <= i < |db.plugins| ==>
              r.plugins[i] == if db.plugins[i].id == id then db.plugins[i].(sync := SyncState(Some(kongId), true, Some(now)))
                              else db.plugins[i]
  {
    db.(plugins := UpdateWhere(db.plugins, (p: PluginRef) => p.id == id,
                               (p: PluginRef) => p.(sync := SyncState(Some(kongId), true, Some(now)))))
  }

  /** Records a withdraw on the plugin rows `id`: clears `kong_id` and `synchronized`. */
  function SetPluginWithdrawn(db: Db, id: LocalId): (r: Db)
    ensures SameShape(db, r)
    ensures r.apis == db.apis && r.consumers == db.consumers && |r.plugins| == |db.plugins|
    ensures forall i :: 0 <= i < |db.plugins| ==>
              r.plugins[i] == if db.plugins[i].id == id then db.plugins[i].(sync := db.plugins[i].sync.(kongId := None, synchronized := false))
                              else db.plugins[i]
  {
    db.(plugins := UpdateWhere(db.plugins, (p: PluginRef) => p.id == id,
                               (p: PluginRef) => p.(sync := p.sync.(kongId := None, synchronized := false))))
  }

  /** Writes the `enabled` column of the consumer rows `id`. */
  function SetConsumerEnabled(db: Db, id: LocalId, enabled: bool): (r: Db)
    ensures SameShape(db, r)
    ensures r.apis == db.apis && r.plugins == db.plugins && |r.consumers| == |db.consumers|
    ensures forall i :: 0 <= i < |db.consumers| ==>
              r.consumers[i] == if db.consumers[i].id == id then db.consumers[i].(enabled := enabled) else db.consumers[i]
  {
    db.(consumers := UpdateWhere(db.consumers, (c: ConsumerRef) => c.id == id, (c: ConsumerRef) => c.(enabled := enabled)))
  }

  /** After a publish is recorded on an existing API row, that row's gateway id is the published one. */
  lemma ApiKongIdAfterPublished(db: Db, id: LocalId, kongId: KongId, now: Timestamp)
    requires exists i :: 0 <= i < |db.apis| && db.apis[i].id == id
    ensures ApiKongId(SetApiPublished(db, id, kongId, now), id) == Some(kongId)
  {
    var db' := SetApiPublished(db, id, kongId, now);
    var r := Find(db'.apis, (a: ApiRef) => a.id == id);
    var i :| 0 <= i < |db.apis| && db.apis[i].id == id;
    assert db'.apis[i].id == id;
  }

  /** The `unique_together = [('plugin', 'api')]` constraint: no API has two
      configurations of the same plugin. */
  predicate PluginPerApiUnique(db: Db)
  {
    forall i, j :: 0 <= i < j < |db.plugins| && db.plugins[i].plugin == db.plugins[j].plugin ==>
      db.plugins[i].api != db.plugins[j].api
  }

  /** Two stores with the same rows, keys and references, differing at most in
      the columns synchronisation writes (gateway bookkeeping, name, enabled,
      configuration). */
  predicate SameShape(db: Db, db': Db)
  {
    && |db'.apis| == |db.apis| && |db'.plugins| == |db.plugins| && |db'.consumers| == |db.consumers|
    && (forall i :: 0 <= i < |db.apis| ==> db'.apis[i].id == db.apis[i].id)
    && (forall i :: 0 <= i < |db.consumers| ==> db'.consumers[i].id == db.consumers[i].id)
    && (forall i :: 0 <= i < |db.plugins| ==>
          && db'.plugins[i].id == db.plugins[i].id
          && db'.plugins[i].api == db.plugins[i].api
          && db'.plugins[i].plugin == db.plugins[i].plugin
          && db'.plugins[i].consumer == db.plugins[i].consumer)
  }

  lemma SameShapeTrans(a: Db, b: Db, c: Db)
    requires SameShape(a, b) && SameShape(b, c)
    ensures SameShape(a, c)
  {
  }

  /** Synchronisation never changes which plugin configures which API, so the
      uniqueness constraint survives every write it makes. */
  lemma UniquenessPreserved(db: Db, db': Db)
    requires SameShape(db, db') && PluginPerApiUnique(db)
    ensures PluginPerApiUnique(db')
  {
    forall i, j | 0 <= i < j < |db'.plugins| && db'.plugins[i].plugin == db'.plugins[j].plugin
      ensures db'.plugins[i].api != db'.plugins[j].api
    {
      assert db.plugins[i].plugin == db.plugins[j].plugin;
    }
  }
}
