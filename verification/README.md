# django-kong-admin, modelled in Dafny

django-kong-admin keeps local Django records of Kong gateway resources:
APIs, plugin configurations and consumers. It reconciles them with a Kong
gateway through Kong's administrative interface. This project models the
core of that reconciliation as pure functions over immutable state.

A `World` pairs two pieces of state:
- the local store, a `Db` of API, plugin configuration and consumer rows;
- the gateway, a `Gateway` of API and plugin structs plus a log of every
  state-changing request sent to it.

Every step returns an `Outcome`: `Ok` with a value, or `Raised` with the
exception the Python code would raise. Either way it carries the world as the
step left it. Writes made before an exception are kept.

Modules, following the source layout:

- `Tables`: options and the sequence helpers tables are built from.
- `Types`: gateway ids, local ids, timestamps and configurations.
- `Plugins` (`kong_admin/enums.py`): the 13 plugin codes and their gateway labels.
- `Validators` (`kong_admin/validators.py`): the API name validator `^[\w.~-]+$`.
- `Models` (`kong_admin/models.py`): the records, their `clean()` normalisation and validation, and the `__str__` formatters.
- `Store`: the local store.
  - Lookups by key, and the plugin configurations of one API.
  - Single-column writes that touch only the rows with the given id.
  - The `(plugin, api)` uniqueness constraint.
- `Kong`: the gateway, as the client library exposes it.
  - Add, update, retrieve, delete and list for APIs.
  - The same calls for plugins, which the gateway scopes under an API.
  - `NotFound`, `Invalid` and `Conflict` outcomes. The client raises the first two as `ValueError`; an API with neither a request host nor a request path is `Invalid`.
- `Engine`: errors, worlds, outcomes and bulk synchronisation requests.
- `ApiSync` (`kong_admin/sync/apis.py`):
  - the API engine and the plugin configuration engine;
  - the generic `publish` and `withdraw` steps their hooks run in;
  - the plugin cascades after publishing and before withdrawing an API.
  - Under the assumed generic withdraw, `before_withdraw` (`ApiSync.BeforeWithdrawApi`) asserts on every plugin configuration of the API. So an API with a plugin configuration that is not published cannot be withdrawn. That includes a second withdraw of an API with plugin configurations (`ApiSync.WithdrawAgainFails`). A withdraw is idempotent only for an API without plugin configurations (`ApiSync.WithdrawIdempotentWithoutPlugins`).
- `Logic` (`kong_admin/logic.py`): the entry points the admin calls, with the write-back of the `enabled` column.
- `Contrib` (`kong_admin/contrib.py`): the action-button admin's routes, its extra list column and the HTML of a row button. The renderer accepts a callable row-button url, but `get_urls` raises `AttributeError` on one, because it calls `endswith` on the url itself.

## Model

| member | source | states |
|---|---|---|
| Plugins.Code | kong_admin/enums.py:7-19 | every plugin's stored code lies in 1..13 |
| Plugins.FromCode | kong_admin/enums.py:7-19 | exactly the codes 1..13 denote a plugin, and that plugin's code is the one looked up |
| Plugins.CodesRoundTrip | kong_admin/enums.py:7-35 | codes and plugins correspond one to one; a code outside 1..13 has no label |
| Plugins.LabelOfCode | kong_admin/enums.py:21-35 | a code has a label exactly when it lies in 1..13 |
| Plugins.FromLabel | kong_admin/enums.py:21-35 | a label read back names a plugin whose label it is |
| Plugins.LabelsInjective | kong_admin/enums.py:21-35 | each label names its own plugin back, so no two plugins share a label |
| Plugins.LabelAlphabet | kong_admin/enums.py:22-34 | every label is non-empty and made only of lower-case letters, digits and hyphens |
| Plugins.NotableLabels | kong_admin/enums.py:18-34 | the misspelt code 12 is labelled `response-transformer`; the default plugin has code 13, labelled `request-size-limiting` |
| Validators.PatternMatchesNames | kong_admin/validators.py:8-10 | the pattern accepts exactly the non-empty strings of ASCII letters, digits and `_ . ~ -` |
| Validators.ValidateName | kong_admin/validators.py:8-10 | the scan accepts exactly what the pattern matches; a rejection carries code `invalid` and the validator's message |
| Validators.EmptyRejected | kong_admin/validators.py:9 | the empty string is rejected, because the class is repeated with `+` |
| Validators.NamesConcatenate | kong_admin/validators.py:9 | two accepted names concatenated are accepted |
| Validators.NamesSubstring | kong_admin/validators.py:9 | every non-empty substring of an accepted name is accepted |
| Validators.IllegalCharRejected | tests/test_validators.py:25-30 | a string holding a space or any of the listed punctuation characters is rejected |
| Validators.AcceptedAlphanumeric | tests/test_validators.py:10-17 | `Test`, `123` and `Test123` are accepted |
| Validators.AcceptedSeparator | tests/test_validators.py:19-23 | `Test` + c + `123` is accepted for each c of `. ~ - _` |
| Models.OrNone | kong_admin/models.py:49-51 | an empty or absent string becomes absent; a non-empty one is kept as it is |
| Models.CleanApi | kong_admin/models.py:48-60 | blank name, host and path become absent and no other field changes. The record is rejected for having no host and no path before any id check. It is then rejected when exactly one of gateway id and sync time is set. |
| Models.CleanConsumer | kong_admin/models.py:95-100 | blank user name and custom id become absent; the record is rejected exactly when both are then absent |
| Models.CleanOAuth2 | kong_admin/models.py:152-154 | only the client id and secret are normalised; nothing is rejected |
| Models.CleanIdempotent | kong_admin/models.py:48-60 | cleaning a cleaned API, consumer or OAuth2 record changes nothing and gives the same verdict |
| Models.ApiStr | kong_admin/models.py:44-46 | the upstream URL alone when the name is empty, else `name (upstream_url)` |
| Models.ApiStrBare | kong_admin/models.py:44-46 | an API shows as its bare upstream URL exactly when it has no name; for one upstream URL, named APIs with the same display string have the same name |
| Models.ConsumerStr | kong_admin/models.py:92-93 | the user name when non-empty, else the custom id |
| Models.CleanConsumerDisplays | kong_admin/models.py:92-100 | a consumer `clean()` accepted has a non-empty display string |
| Models.ShownKey | kong_admin/models.py:131-135 | a key of at most 16 characters is shown verbatim, a longer one as its first 16 characters and `...` |
| Models.ShownKeyBounded | kong_admin/models.py:132-134 | the shown key has at most 19 characters and begins with as much of the key as it shows |
| Models.KeyAuthStr | kong_admin/models.py:131-135 | absent exactly when the consumer has no display string; otherwise, slice by slice: `KeyAuthReference(consumer: `, the consumer's display string, `, key: `, the shown key, `)` |
| Models.KeyAuthStrBounded | kong_admin/models.py:132-135 | however long the key, the string exceeds the frame and the consumer's display string by at most 20 characters |
| Models.KeyAuthStrTruncates | kong_admin/models.py:132-135 | keys over 16 characters that share their first 16 display the same; distinct keys of at most 16 characters display differently |
| Models.BasicAuthStr | kong_admin/models.py:119-120 | absent exactly when the consumer has no display string; otherwise, slice by slice: `BasicAuthReference(consumer: `, the consumer's display string, `, username: `, the user name, `)` |
| Models.BasicAuthStrInjective | kong_admin/models.py:119-120 | for one consumer, equal display strings mean equal user names |
| Models.OAuth2Str | kong_admin/models.py:149-150 | `OAuth2Reference(name: `, then the name, then `)` |
| Models.OAuth2StrInjective | kong_admin/models.py:149-150 | equal display strings mean equal names |
| Models.PluginStr | kong_admin/models.py:78-79 | the plugin's gateway label, which names the plugin back |
| Models.NewPluginRef | kong_admin/models.py:64-69 | a new configuration has plugin code 13, is enabled, has no consumer and was never synchronised |
| Store.PluginsOf | kong_admin/sync/apis.py:57 | exactly the plugin rows of the API, and empty exactly when no row belongs to it |
| Store.SetApiName | kong_admin/sync/apis.py:45 | only the name column of the rows with the id changes |
| Store.SetApiEnabled | kong_admin/logic.py:12 | only the enabled column of the API rows with the id changes |
| Store.SetPluginConfig | kong_admin/sync/apis.py:106 | only the config column of the plugin rows with the id changes |
| Store.SetPluginEnabled | kong_admin/logic.py:49 | only the enabled column of the plugin rows with the id changes |
| Store.SetConsumerEnabled | kong_admin/logic.py:67 | only the enabled column of the consumer rows with the id changes |
| Store.UniquenessPreserved | kong_admin/models.py:76 | the `(plugin, api)` uniqueness survives every write synchronisation makes |
| Kong.AddOrUpdateApi | kong_admin/sync/apis.py:31-34 | not found for an unknown id; invalid without a request host or path; conflict on a name or host clash. Otherwise the API is stored under the given id or a fresh one, clash-free, with the derived name. |
| Kong.UpdateApi | kong_admin/sync/apis.py:36-39 | addresses the API of that name; not found when there is none, invalid without a request host or path; on success stores the fields under that API's id |
| Kong.RetrieveApi | kong_admin/sync/apis.py:24 | finds the API exactly when the id is present and held by the gateway |
| Kong.DeleteApi | kong_admin/sync/apis.py:50 | the API with the id is gone and every other API stays; deleting an absent API succeeds |
| Kong.CreateOrUpdatePlugin | kong_admin/sync/apis.py:95-97 | not found for an unknown parent or plugin id; on success the plugin is stored under the parent with the canonical config |
| Kong.RetrievePlugin | kong_admin/sync/apis.py:79 | finds the plugin exactly when both ids are present and the plugin is held under that parent |
| Kong.DeletePlugin | kong_admin/sync/apis.py:114 | the plugin under that parent is gone and every other plugin stays |
| ApiSync.FallbackKey | kong_admin/sync/apis.py:37 | the natural key is the name when non-empty, else the request host |
| ApiSync.ApiUpsert | kong_admin/sync/apis.py:30-39 | `add_or_update` by id, then `update` by natural key only on a conflict, both with the same six fields. The answer is the API now held, under the record's id, a fresh id or the id of the named API. |
| ApiSync.ApiOnPublish | kong_admin/sync/apis.py:29-47 | returns the answered API's id and adopts its derived name; the name column is written only when the name differed |
| ApiSync.RepublishStable | kong_admin/sync/apis.py:29-47 | publishing the returned record again meets no conflict and returns the same id; it leaves the store and the gateway's APIs unchanged |
| ApiSync.ApiIsPublished | kong_admin/sync/apis.py:22-27 | true exactly when the id is present and the gateway holds an API with it |
| ApiSync.ApiOnWithdrawById | kong_admin/sync/apis.py:49-50 | afterwards the id is not published; every other API is kept |
| ApiSync.ApiRetrieveAll | kong_admin/sync/apis.py:17-20 | yields exactly the published APIs |
| ApiSync.AfterPublishRequest | kong_admin/sync/apis.py:53 | the plugin engine, with deletion, over exactly the ids of the API's plugin rows |
| ApiSync.ApiAfterPublish | kong_admin/sync/apis.py:52-54 | on success every plugin row of the API is published under the API's gateway id; no other row changes |
| ApiSync.PublishApi | kong_admin/sync/apis.py:29-54 | on success the record is flagged and carries the derived name and a gateway id; that id retrieves exactly the API built from the record's fields |
| ApiSync.PublishApiRecordsRow | kong_admin/sync/apis.py:41-45 | the API's rows get the new bookkeeping, and the derived name where it differed |
| ApiSync.PublishApiPublishesPlugins | kong_admin/sync/apis.py:52-54 | after a successful publish every plugin row of the API is published under the API's new gateway id |
| ApiSync.BeforeWithdrawApi | kong_admin/sync/apis.py:56-59 | fails with an assertion exactly when the API has plugin rows and it or one of them has no gateway id |
| ApiSync.BeforeWithdrawApiClears | kong_admin/sync/apis.py:56-59 | on success none of the API's plugin configurations is still published and each of their rows is cleared |
| ApiSync.WithdrawApi | kong_admin/sync/apis.py:49-59 | plugins first, then the API. On success the API is unpublished, the last request is its delete, and none of its plugins stays published. |
| ApiSync.WithdrawApiClearsRows | kong_admin/sync/apis.py:49-59 | on success the API's rows and its plugin rows lose their gateway id and flag |
| ApiSync.WithdrawAgainFails | kong_admin/sync/apis.py:56-59 | after a successful withdraw of an API with plugin configurations, withdrawing the returned record again raises an assertion error |
| ApiSync.WithdrawClearedFails | kong_admin/sync/apis.py:56-59 | an API whose rows have no gateway id but which has a plugin configuration cannot be withdrawn |
| ApiSync.WithdrawIdempotentWithoutPlugins | kong_admin/sync/apis.py:49-59 | for an API without plugin configurations a second withdraw succeeds with the same record. It leaves the store and the gateway's APIs and plugins unchanged. |
| ApiSync.ConsumerKongIdOf | kong_admin/sync/apis.py:92 | the consumer's gateway id, or none when the configuration has no consumer |
| ApiSync.PluginOnPublish | kong_admin/sync/apis.py:90-108 | addressed under the parent's gateway id. On success the stored plugin is returned and the canonical config adopted; the config column is written only when it differed. A conflict fails on the missing `name`. |
| ApiSync.PluginIsPublished | kong_admin/sync/apis.py:77-82 | true exactly when both ids are present and the plugin is held under that parent |
| ApiSync.PluginOnWithdrawById | kong_admin/sync/apis.py:110-114 | fails unless both ids are present; otherwise the plugin is no longer published |
| ApiSync.PluginRetrieveAll | kong_admin/sync/apis.py:66-75 | every listed plugin belongs to a listed API's first page |
| ApiSync.PluginRetrieveAllOrder | kong_admin/sync/apis.py:66-75 | one more API appends exactly its page, so pages follow the API order |
| ApiSync.PublishPlugin | kong_admin/sync/apis.py:90-108 | on success the row gets the new bookkeeping and the canonical config, and the plugin is retrievable under the parent |
| ApiSync.WithdrawPlugin | kong_admin/sync/apis.py:110-114 | fails exactly when an id is missing; otherwise deletes under the parent and clears the record |
| ApiSync.RunPluginSyncPublishes | kong_admin/sync/apis.py:53 | a successful synchronisation leaves every given row published under the API |
| ApiSync.RunPluginSyncFrame | kong_admin/sync/apis.py:53 | the synchronisation only appends requests and touches only the given rows; it removes no plugin because the pruning `delete=True` asks for is not modelled |
| ApiSync.RunPluginWithdrawFails | kong_admin/sync/apis.py:57-58 | the withdrawal loop fails exactly when a row is given and the API or some row has no gateway id |
| ApiSync.RunPluginWithdrawUnpublishes | kong_admin/sync/apis.py:57-58 | a successful withdrawal leaves none of the given rows published |
| ApiSync.RunPluginWithdrawClears | kong_admin/sync/apis.py:57-58 | a successful withdrawal clears every given row |
| Logic.Withdraws | kong_admin/logic.py:25 | the withdraw condition holds exactly when `toggle` equals the flag |
| Logic.PublishApi | kong_admin/logic.py:8-13 | the engine's outcome with the flag set. The enabled column is written only when it was off. On success the record is enabled, flagged and published. |
| Logic.WithdrawApi | kong_admin/logic.py:16-21 | the engine's outcome with the flag cleared. The enabled column is written only when it was on. On success the record is disabled, unflagged and unpublished. |
| Logic.SynchronizeApi | kong_admin/logic.py:24-27 | a success leaves the flag flipped when toggling and unchanged otherwise, published exactly when the flag ends on |
| Logic.ToggleTwiceRestores | kong_admin/logic.py:24-27 | two successful toggling synchronisations give the record back its flag |
| Logic.SynchronizeApis | kong_admin/logic.py:30-31 | the API engine, the queryset unchanged, with deletion |
| Logic.PublishThenWithdraw | tests/test_logic.py:106-129 | a fresh, clash-free API with a request host or path and without plugins publishes and is retrievable. Withdrawing it then succeeds, and its id is no longer found. |
| Logic.PublishFreshApi | tests/test_logic.py:54-69 | publishing a fresh, clash-free API with a request host or path and without plugin configurations succeeds |
| Logic.PublishWithoutRouteRaises | tests/test_logic.py:27-38 | publishing an API with neither request host nor request path raises `ValueError` and leaves the store, so the row's flag, and the gateway's APIs unchanged |
| Logic.PublishPluginConfiguration | kong_admin/logic.py:34-36 | on success the configuration is flagged and published under its API |
| Logic.WithdrawPluginConfiguration | kong_admin/logic.py:39-41 | fails exactly when a gateway id is missing; on success it is unflagged and unpublished |
| Logic.EnablePluginConfiguration | kong_admin/logic.py:44-51 | sends one create-or-update carrying the new flag. On success the gateway's plugin carries that flag, even when disabled. Its rows get the flag and the bookkeeping. They also get the gateway's canonical configuration when it differs from the record's. No other row changes. |
| Logic.SynchronizePluginConfiguration | kong_admin/logic.py:54-56 | never withdraws: one create-or-update, with the flag negated when toggling |
| Logic.SynchronizePluginConfigurations | kong_admin/logic.py:59-60 | the plugin engine, the queryset unchanged, with deletion |
| Logic.PublishConsumer | kong_admin/logic.py:63-67 | the engine's outcome; the consumer's rows are marked enabled only when the engine's record was not |
| Logic.WithdrawConsumer | kong_admin/logic.py:70-74 | the engine's outcome; the consumer's rows are marked disabled only when the engine's record was not |
| Logic.SynchronizeConsumer | kong_admin/logic.py:77-80 | withdraws exactly when `toggle` equals the flag; the aimed-at flag ends on the engine's record or on the consumer's rows |
| Logic.SynchronizeConsumerRows | kong_admin/logic.py:63-80 | when the engine step keeps the consumer's rows in line with the record it returns, a successful call leaves the rows with the aimed-at flag, on either branch |
| Logic.SynchronizeConsumers | kong_admin/logic.py:83-84 | the consumer engine, the queryset unchanged, with deletion |
| Contrib.ActionButtons | kong_admin/contrib.py:17-18 | the configured action buttons, or none when the attribute is absent |
| Contrib.ListDisplayButtons | kong_admin/contrib.py:20-21 | the configured row buttons, or none when the attribute is absent |
| Contrib.SafeUrl | kong_admin/contrib.py:67-71 | always ends in `/`; the input unchanged exactly when it already does, else the input plus `/` (so applying it twice is applying it once) |
| Contrib.SafeUrlShortest | kong_admin/contrib.py:69-71 | no shorter slash-terminated extension of the input exists |
| Contrib.Decimal | kong_admin/contrib.py:62 | `%d` of a primary key: non-empty digits without a leading zero |
| Contrib.DecimalRoundTrip | kong_admin/contrib.py:62 | reading the digits back gives the primary key |
| Contrib.DecimalInjective | kong_admin/contrib.py:62 | distinct primary keys render differently |
| Contrib.GetUrls | kong_admin/contrib.py:23-39 | raises exactly when a row button's url is callable. Otherwise: one route per action button, then one per row button with the safe url and the key pattern, then the inherited routes. |
| Contrib.GetListDisplay | kong_admin/contrib.py:41-45 | the columns unchanged without row buttons, else exactly one trailing actions column |
| Contrib.Resolve | kong_admin/contrib.py:56-59 | a callable entry is applied to the row object, a plain one kept |
| Contrib.RenderButton | kong_admin/contrib.py:54-65 | as long as the anchor markup, the href, the input markup and the resolved caption together |
| Contrib.RenderButtonLayout | kong_admin/contrib.py:54-65 | slice by slice: the anchor opening, the resolved url made safe, the row's primary key, `/`, the input opening, the resolved caption, the closing markup |
| Contrib.ListDisplayShowsActions | kong_admin/contrib.py:41-52 | the change list gains a column exactly when that column renders something for a row |
| Contrib.ItemActionsAppend | kong_admin/contrib.py:47-51 | the cell for two lists of buttons is the two cells in order |
| Contrib.RowButtonRoundTrip | kong_admin/contrib.py:33-62 | for a literal url, a row button's href matches that button's row route and captures the row's own primary key |

## Left out

- The admin views, admin registration, widgets, app configuration, migrations and packaging: they are HTTP handling, UI wiring and schema history.
- The generic engine (`sync/base.py`) and `factory.py` are not part of this model. Their `publish`, `withdraw` and `synchronize` steps are the assumptions stated at the head of `ApiSync`.
- Bulk synchronisation is modelled only as the request it makes (engine, queryset, deletion flag). Deleting orphaned gateway entries is not modelled, because its policy lives in the generic engine.
- The consumer engine (`sync/consumers.py`) is not part of this model. The consumer entry points take its `publish` and `withdraw` steps as function parameters.
- The Kong client library and the gateway are not part of this model. Their behaviour (fresh ids, derived names, clash rules, tolerant deletes, canonical configurations) is the assumption stated at the head of `Kong`.
- The plugin conflict fallback reads `obj.name`, which plugin configuration records do not have. It is modelled as raising `MissingAttribute` without sending the update; no natural-key recovery is invented.
- Timestamps are a parameter `now`, and configurations are opaque strings compared by equality. Clocks and JSON contents are not modelled.
- The name validator takes `\w` as ASCII letters, digits and `_`. It does not model Python's Unicode word class, nor the single trailing newline that `$` lets through.
- Database column lengths (`max_length`) and URL field validation are not modelled.
- The change-list `extra_context` and template rendering of the action buttons are not modelled, because they are view plumbing.
- ApiSync.RunPluginSyncFrame: the `delete=True` that `after_publish` passes asks the generic engine to prune gateway plugins removed locally. That pruning lives in the generic engine and is not modelled, so the model removes no plugin.
- Contrib.RowButtonRoundTrip: matching is modelled for urls without regular-expression metacharacters only. A url such as `a+` is a pattern in the route, and the model does not model regular expressions.
- Logic.EnablePluginConfiguration: `enable_plugin_configuration` sets the flag on the caller's object before publishing, so after a failed publish that object still holds the new flag. The model returns no record on failure, and the views discard the object.
- Contrib.Decimal: renders non-negative keys only, because automatic primary keys are positive.
- Logic.SynchronizeConsumer: states the aimed-at flag on the engine's record or on the consumer's rows, not on both. A consumer engine given as a parameter may return a record whose flag already matches while the rows differ, and then nothing is written.
- Plugins.LabelOfCode: states only which codes have a label; the label itself is `Label` of the decoded plugin.
