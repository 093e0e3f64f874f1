/** The locally stored proxy records (kong_admin/models.py): their fields, the
    `clean()` normalisation and validation each record type runs before it is
    saved, and the `__str__` formatters. */
module Models {
  import opened Tables
  import opened Types
  import Plugins

  /** The bookkeeping every proxy record carries (the abstract `KongProxyModel`):
      the gateway id, the synchronised flag and the time of the last sync. The
      creation and update timestamps are not modelled. */
  datatype SyncState = SyncState(kongId: Option<KongId>, synchronized: bool, synchronizedAt: Option<Timestamp>)

  /** A never-synchronised record's bookkeeping. */
  const Unsynchronized: SyncState := SyncState(None, false, None)

  /** `APIReference`: an API to publish on the gateway. */
  datatype ApiRef = ApiRef(
    id: LocalId,
    sync: SyncState,
    upstreamUrl: string,
    name: Option<string>,
    requestHost: Option<string>,
    requestPath: Option<string>,
    preserveHost: bool,
    stripRequestPath: bool,
    enabled: bool)

  /** `PluginConfigurationReference`: one plugin enabled on one API, optionally
      scoped to one consumer. */
  datatype PluginRef = PluginRef(
    id: LocalId,
    sync: SyncState,
    api: LocalId,
    consumer: Option<LocalId>,
    plugin: Plugins.Plugin,
    enabled: bool,
    config: Config)

  /** `ConsumerReference`: a gateway consumer, identified by a user name or a custom id. */
  datatype ConsumerRef = ConsumerRef(
    id: LocalId,
    sync: SyncState,
    username: Option<string>,
    customId: Option<string>,
    enabled: bool)

  /** `BasicAuthReference`: a user name and password credential of a consumer. */
  datatype BasicAuthRef = BasicAuthRef(id: LocalId, sync: SyncState, consumer: LocalId, username: string, password: string)

  /** `KeyAuthReference`: an API key credential of a consumer. */
  datatype KeyAuthRef = KeyAuthRef(id: LocalId, sync: SyncState, consumer: LocalId, key: string)

  /** `OAuth2Reference`: an OAuth2 application of a consumer. */
  datatype OAuth2Ref = OAuth2Ref(
    id: LocalId,
    sync: SyncState,
    consumer: LocalId,
    name: string,
    redirectUri: string,
    clientId: Option<string>,
    clientSecret: Option<string>)

  /** Why `clean()` rejects a record; one constructor per `ValidationError` raised. */
  datatype CleanError = NoRoute | MissingKongId | MissingSynchronizedAt | NoIdentity

  /** The record as `clean()` leaves it (it normalises in place even when it
      then raises) and the error it raised, if any. */
  datatype Cleaned<T> = Cleaned(record: T, error: Option<CleanError>)

  /** `value or None`: an empty string is not stored; it becomes absent. */
  function OrNone(o: Option<string>): (r: Option<string>)
    ensures r.None? <==> (o.None? || o.value == "")
    ensures r.Some? ==> r == o && r.value != ""
  {
    if o.Some? && o.value != "" then o else None
  }

  /** Python truthiness of an optional string: present and non-empty. */
  predicate Truthy(o: Option<string>)
  {
    o.Some? && o.value != ""
  }

  /** `APIReference.clean`: blank name, host and path become absent; then the
      record needs a host or a path, and a gateway id exactly when it has a sync
      time, checked in that order. */
  function CleanApi(a: ApiRef): (r: Cleaned<ApiRef>)
    ensures r.record.name == OrNone(a.name)
    ensures r.record.requestHost == OrNone(a.requestHost)
    ensures r.record.requestPath == OrNone(a.requestPath)
    ensures r.record.(name := a.name, requestHost := a.requestHost, requestPath := a.requestPath) == a
    ensures r.error == Some(NoRoute) <==> !Truthy(a.requestHost) && !Truthy(a.requestPath)
    ensures r.error == Some(MissingKongId) <==>
              (Truthy(a.requestHost) || Truthy(a.requestPath))
              && a.sync.synchronizedAt.Some? && a.sync.kongId.None?
    ensures r.error == Some(MissingSynchronizedAt) <==>
              (Truthy(a.requestHost) || Truthy(a.requestPath))
              && a.sync.kongId.Some? && a.sync.synchronizedAt.None?
    ensures r.error.None? <==>
              (Truthy(a.requestHost) || Truthy(a.requestPath))
              && (a.sync.kongId.Some? <==> a.sync.synchronizedAt.Some?)
  {
    var c := a.(name := OrNone(a.name), requestHost := OrNone(a.requestHost), requestPath := OrNone(a.requestPath));
    var error :=
      if c.requestHost.None? && c.requestPath.None? then Some(NoRoute)
      else if c.sync.synchronizedAt.Some? && c.sync.kongId.None? then Some(MissingKongId)
      else if c.sync.kongId.Some? && c.sync.synchronizedAt.None? then Some(MissingSynchronizedAt)
      else None;
    Cleaned(c, error)
  }

  /** `ConsumerReference.clean`: blank user name and custom id become absent;
      then at least one of them must be present. */
  function CleanConsumer(c: ConsumerRef): (r: Cleaned<ConsumerRef>)
    ensures r.record.username == OrNone(c.username)
    ensures r.record.customId == OrNone(c.customId)
    ensures r.record.(username := c.username, customId := c.customId) == c
    ensures r.error.Some? ==> r.error == Some(NoIdentity)
    ensures r.error.None? <==> Truthy(c.username) || Truthy(c.customId)
  {
    var d := c.(username := OrNone(c.username), customId := OrNone(c.customId));
    Cleaned(d, if d.username.None? && d.customId.None? then Some(NoIdentity) else None)
  }

  /** `OAuth2Reference.clean`: only normalises blank client credentials; it never rejects. */
  function CleanOAuth2(o: OAuth2Ref): (r: OAuth2Ref)
    ensures r.clientId == OrNone(o.clientId)
    ensures r.clientSecret == OrNone(o.clientSecret)
    ensures r.(clientId := o.clientId, clientSecret := o.clientSecret) == o
  {
    o.(clientId := OrNone(o.clientId), clientSecret := OrNone(o.clientSecret))
  }

  /** Cleaning a cleaned record changes nothing and gives the same verdict. */
  lemma CleanIdempotent(a: ApiRef, c: ConsumerRef, o: OAuth2Ref)
    ensures CleanApi(CleanApi(a).record) == CleanApi(a)
    ensures CleanConsumer(CleanConsumer(c).record) == CleanConsumer(c)
    ensures CleanOAuth2(CleanOAuth2(o)) == CleanOAuth2(o)
  {
  }

  /** `APIReference.__str__`: the upstream URL alone when the record has no
      name, otherwise `name (upstream_url)`. */
  function ApiStr(a: ApiRef): (r: string)
    ensures !Truthy(a.name) ==> r == a.upstreamUrl
    ensures Truthy(a.name) ==>
              var n := a.name.value;
              && |r| == |n| + |a.upstreamUrl| + 3
              && r[..|n|] == n
              && r[|n|..|n| + 2] == " ("
              && r[|n| + 2..|r| - 1] == a.upstreamUrl
              && r[|r| - 1] == ')'
  {
    if !Truthy(a.name) then a.upstreamUrl else a.name.value + " (" + a.upstreamUrl + ")"
  }

  /** An API shows as its bare upstream URL exactly when it has no name;
      among named APIs with one upstream URL, the display string tells the
      names apart. */
  lemma ApiStrBare(a: ApiRef, b: ApiRef)
    ensures ApiStr(a) == a.upstreamUrl <==> !Truthy(a.name)
    ensures Truthy(a.name) && Truthy(b.name) && a.upstreamUrl == b.upstreamUrl && ApiStr(a) == ApiStr(b) ==>
              a.name == b.name
  {
    if Truthy(a.name) && Truthy(b.name) && a.upstreamUrl == b.upstreamUrl && ApiStr(a) == ApiStr(b) {
      var r := ApiStr(a);
      assert a.name.value == r[..|r| - |a.upstreamUrl| - 3];
    }
  }

  /** `ConsumerReference.__str__`, `username or custom_id`: the user name when
      it is non-empty, otherwise the custom id, which may itself be absent (in
      which case Python's `str()` of the record fails). */
  function ConsumerStr(c: ConsumerRef): (r: Option<string>)
    ensures Truthy(c.username) ==> r == c.username
    ensures !Truthy(c.username) ==> r == c.customId
  {
    if Truthy(c.username) then c.username else c.customId
  }

  /** A consumer record that `clean()` accepted always has a non-empty display string. */
  lemma CleanConsumerDisplays(c: ConsumerRef)
    requires CleanConsumer(c).error.None?
    ensures Truthy(ConsumerStr(CleanConsumer(c).record))
  {
  }

  /** The key as `KeyAuthReference.__str__` shows it: verbatim up to 16
      characters, otherwise its first 16 characters followed by `...`. */
  function ShownKey(key: string): (r: string)
    ensures |key| <= 16 ==> r == key
    ensures |key| > 16 ==> |r| == 19 && r[..16] == key[..16] && r[16..] == "..."
  {
    if |key| > 16 then key[..16] + "..." else key
  }

  /** The shown key never exceeds 19 characters, and what it shows of the key is a prefix of it. */
  lemma ShownKeyBounded(key: string)
    ensures |ShownKey(key)| <= 19
    ensures var n := if |key| <= 16 then |key| else 16; ShownKey(key)[..n] == key[..n]
  {
  }

  const KeyAuthOpen: string := "KeyAuthReference(consumer: "
  const KeyAuthKey: string := ", key: "

  /** `KeyAuthReference.__str__`, given the owning consumer; absent when the
      consumer has no display string. */
  function KeyAuthStr(consumer: ConsumerRef, k: KeyAuthRef): (r: Option<string>)
    ensures r.Some? <==> ConsumerStr(consumer).Some?
    ensures r.Some? ==>
              var cs := ConsumerStr(consumer).value;
              var n := |KeyAuthOpen| + |cs| + |KeyAuthKey|;
              && |r.value| == n + |ShownKey(k.key)| + 1
              && r.value[..|KeyAuthOpen|] == KeyAuthOpen
              && r.value[|KeyAuthOpen|..|KeyAuthOpen| + |cs|] == cs
              && r.value[|KeyAuthOpen| + |cs|..n] == KeyAuthKey
              && r.value[n..|r.value| - 1] == ShownKey(k.key)
              && r.value[|r.value| - 1] == ')'
  {
    match ConsumerStr(consumer)
    case None => None
    case Some(cs) => Some(KeyAuthOpen + cs + KeyAuthKey + ShownKey(k.key) + ")")
  }

  /** However long the key, the display string exceeds the frame and the
      consumer's display string by at most 20 characters. */
  lemma KeyAuthStrBounded(consumer: ConsumerRef, k: KeyAuthRef)
    requires ConsumerStr(consumer).Some?
    ensures |KeyAuthStr(consumer, k).value| <= |KeyAuthOpen| + |ConsumerStr(consumer).value| + |KeyAuthKey| + 20
  {
    ShownKeyBounded(k.key);
  }

  /** Keys of more than 16 characters that agree on their first 16 display
      the same; keys of at most 16 characters display differently when they
      differ. */
  lemma KeyAuthStrTruncates(consumer: ConsumerRef, k1: KeyAuthRef, k2: KeyAuthRef)
    requires ConsumerStr(consumer).Some?
    ensures |k1.key| > 16 && |k2.key| > 16 && k1.key[..16] == k2.key[..16] ==>
              KeyAuthStr(consumer, k1) == KeyAuthStr(consumer, k2)
    ensures |k1.key| <= 16 && |k2.key| <= 16 && KeyAuthStr(consumer, k1) == KeyAuthStr(consumer, k2) ==>
              k1.key == k2.key
  {
    if |k1.key| > 16 && |k2.key| > 16 && k1.key[..16] == k2.key[..16] {
      assert ShownKey(k1.key) == ShownKey(k2.key);
    }
  }

  const BasicAuthOpen: string := "BasicAuthReference(consumer: "
  const BasicAuthUser: string := ", username: "

  /** `BasicAuthReference.__str__`, given the owning consumer; absent when
      the consumer has no display string. */
  function BasicAuthStr(consumer: ConsumerRef, b: BasicAuthRef): (r: Option<string>)
    ensures r.Some? <==> ConsumerStr(consumer).Some?
    ensures r.Some? ==>
              var cs := ConsumerStr(consumer).value;
              var n := |BasicAuthOpen| + |cs| + |BasicAuthUser|;
              && |r.value| == n + |b.username| + 1
              && r.value[..|BasicAuthOpen|] == BasicAuthOpen
              && r.value[|BasicAuthOpen|..|BasicAuthOpen| + |cs|] == cs
              && r.value[|BasicAuthOpen| + |cs|..n] == BasicAuthUser
              && r.value[n..|r.value| - 1] == b.username
              && r.value[|r.value| - 1] == ')'
  {
    match ConsumerStr(consumer)
    case None => None
    case Some(cs) => Some(BasicAuthOpen + cs + BasicAuthUser + b.username + ")")
  }

  /** For one consumer, the display string tells the user names apart. */
  lemma BasicAuthStrInjective(consumer: ConsumerRef, b1: BasicAuthRef, b2: BasicAuthRef)
    requires ConsumerStr(consumer).Some?
    requires BasicAuthStr(consumer, b1) == BasicAuthStr(consumer, b2)
    ensures b1.username == b2.username
  {
    var r1 := BasicAuthStr(consumer, b1).value;
    var n := |BasicAuthOpen| + |ConsumerStr(consumer).value| + |BasicAuthUser|;
    assert b1.username == r1[n..|r1| - 1];
  }

  const OAuth2Open: string := "OAuth2Reference(name: "

  /** `OAuth2Reference.__str__`. */
  function OAuth2Str(o: OAuth2Ref): (r: string)
    ensures |r| == |OAuth2Open| + |o.name| + 1
    ensures r[..|OAuth2Open|] == OAuth2Open
    ensures r[|OAuth2Open|..|r| - 1] == o.name && r[|r| - 1] == ')'
  {
    OAuth2Open + o.name + ")"
  }

  /** The display string tells OAuth2 references with different names apart. */
  lemma OAuth2StrInjective(o1: OAuth2Ref, o2: OAuth2Ref)
    requires OAuth2Str(o1) == OAuth2Str(o2)
    ensures o1.name == o2.name
  {
    var r := OAuth2Str(o1);
    assert o1.name == r[|OAuth2Open|..|r| - 1];
  }

  /** `PluginConfigurationReference.__str__`: the plugin's gateway label. */
  function PluginStr(p: PluginRef): (r: string)
    ensures Plugins.FromLabel(r) == Some(p.plugin)
  {
    Plugins.LabelsInjective(p.plugin, p.plugin);
    Plugins.Label(p.plugin)
  }

  /** A new plugin configuration record: default plugin, enabled, empty configuration, never synchronised. */
  function NewPluginRef(id: LocalId, api: LocalId): (r: PluginRef)
    ensures r.plugin == Plugins.Default && Plugins.Code(r.plugin) == 13
    ensures r.enabled && r.sync == Unsynchronized && r.consumer.None?
  {
    PluginRef(id, Unsynchronized, api, None, Plugins.Default, true, "{}")
  }
}
