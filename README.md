# Direct replica, XML search and affiliate managers — a Dafny model

The repository keeps a local replica of Yandex Direct advertising accounts in a Django
database. It pulls campaigns, ad groups, text ads and keywords from the Direct API. It pushes
local edits back in a fixed order. It rewrites placeholder (negative) ids to the ids Direct
assigns. It reads the daily statistics report. Around this core sit three smaller pieces:
- a Yandex XML search client that stores search results and looks up domain positions in
  them;
- two affiliate-network managers, AdvCake and Admitad, that download partner actions and
  tariffs.

The model follows the code module by module. Where a piece of the code is evidently wrong
(the rows under "## Findings"), the model gives both the code as written and a corrected
definition; the operations built on that piece use the corrected one, and "## Left out"
names them.

- **Direct codec** (`DirectCodec`, `DirectModels`; direct/models.py).
  - `api_data_to_kwargs` is a loop over API keys with the CamelCase ⇄ snake_case conversion.
    The conversion is stated by its defining rule, and `UnderscoreCamelize` proves it is a
    round trip.
  - `deserialize` and `serialize` operate on dictionaries.
  - Each API model has its own codec: `Region`, `Campaign`, `TextCampaign`, `AdGroup`,
    `Keyword`, `TextAd` and `DirectStats`.
  - The round trips between codec directions are proved.
  - Dictionaries are sequences of key/value pairs in insertion order.
- **Nested sync** (`DirectSync`). `sync_response` and `deserialize_nested` fill an ordered
  queue of classes, and from it the `bulk_sync` jobs. A group's negative keywords become
  `GroupNegativeKeyword` records.
- **The local store** (`DirectStore`). A class `Store` holds rows keyed by table and id, each
  with links to other rows and a history of snapshots; a snapshot keeps the links too.
  - `change_id` is a method that copies a row under its new id and re-points every link to
    it.
  - `delete_direct` marks a group, its ads and its keywords with `state='DELETE'`.
- **Pushing changes** (`DirectPush`). The class `DirectApi` holds the store and the log of API
  calls sent. `send_account_changes`, `send_objects_of_class` and the helpers each push step
  calls are its methods. Each method is proved equal to a function over the world (store and
  log). From those functions the model proves:
  - the classification into new, updated, state-changed, other-changed and deleted rows;
  - the order of the calls;
  - the re-pointing of placeholders to the ids Direct returns.
- **Pulling changes** (`DirectPull`). The class `Loader` holds the account and a log of the
  requests made. It covers:
  - `load_account`, `sync_dictionaries` and `get_changed_ids`;
  - the statistics date range of `_calc_stats_params`;
  - the row filter of `parse_direct_report`;
  - the missed criteria of `_create_missed_criterions`.
- **XML search** (`XmlDeserializer`, `XmlSearch`).
  - The class `Deserializer` mirrors `XML_Deserializer` in ya_xml_search/deserializer.py. It
    models the id counters, the merging of groups by domain, positions and numbering.
  - ya_xml_search/xml_search.py contributes:
    - the start pages of `_populate_db`;
    - the lookups of `get_domain_positions`, `get_query_domains` and `get_domain_groups`;
    - `urls_to_regex`, proved to read back into its URLs;
    - `get_url_str`, proved to parse back into its parameters;
    - `is_response_valid`.
- **Affiliate managers** (`Affiliate`, `AdvCake`, `Admitad`, `InitDicts`).
  - Both managers share the Google tracking corrections.
  - AdvCake walks 70-day windows backwards.
  - Admitad pages by offset and updates tariffs through the class `TariffTable`.

Calls to Direct, to xmlproxy and to the affiliate APIs are function parameters, or
recorded calls with modelled replies. Dates are day numbers. Timestamps are strings.
Float conversions (`float()`, roubles to kopecks) are parameters. Rows that a Django query
returns in no stated order are taken in a fixed order.

Points where the code does something other than its comments and docstrings suggest,
each modelled as written:
- A row whose changes since the last synchronisation touch both `state` and another field is
  sent both as a state change and as a content change: the two tests at
  direct/api_manager.py:561-564 are separate `if`s. The comment at
  direct/api_manager.py:558 says the delta compares the newest version with the object
  before the changes; the line after it does otherwise (see "## Findings").
- A group is re-sent when one of its keywords has a history record after the
  synchronisation (`update_q`, direct/api_manager.py:504-505), although the comment on
  the next line speaks of its negative keywords.
- `status_map['suspend']` is `'ARCHIVED'` (direct/api_manager.py:609), and `StatusMap`
  states it as written.
- Existence checks in `get_changed_ids` read the ids of every account
  (direct/api_manager.py:131-133). `Known` in `DirectPull` is that global list.
- `update_objects` compares `obj.id` with the builtin `id` (direct/api_manager.py:451), so it
  always remaps. `RemapOwnIds` proves that remapping to the same ids changes only the
  history.

## Model

| member | source | states |
|---|---|---|
| DirectCodec.UnderscoreCamelize | direct/models.py:81-183 | underscoring the camelized form of any snake_case field name gives the name back |
| DirectCodec.CamelizeInjective | direct/models.py:183 | two snake_case names with the same CamelCase form are equal |
| DirectCodec.ToInt | direct/models.py:91-93 | `int()` of an int, a bool, an integral text or a truncated float; a `ValueError` or `TypeError` otherwise |
| DirectCodec.TruncDiv | direct/models.py:417-418 | division truncated toward zero, as `int(x / y)` gives it: Euclidean for non-negative numerators, mirrored for negative ones |
| DirectCodec.Convert | direct/models.py:87-94 | `None` to `''` for text fields, `int()` for integer and foreign-key fields, other values unchanged |
| DirectCodec.ApiDataToKwargs | direct/models.py:71-95 | the loop builds exactly the keyword arguments the reference function gives, or raises its error |
| DirectCodec.KwargsFromOk | direct/models.py:79-94 | reading succeeds iff every kept key's value converts |
| DirectCodec.KwargsFromKeys | direct/models.py:79-94 | the keys produced are exactly the underscored API keys that are model fields, none excluded |
| DirectCodec.KwargsFromValues | direct/models.py:88-94 | each produced value is the conversion of the API value under that key |
| DirectCodec.KwargsFromKeepsAcc | direct/models.py:94 | arguments already collected are kept unless a later key overwrites them |
| DirectCodec.KwargsFromMeaning | direct/models.py:77-95 | keyword arguments = the model fields present in the payload, each converted |
| DirectCodec.KwargsByLookup | direct/models.py:77-95 | each argument is looked up by its field name in the payload and converted |
| DirectCodec.KwargsAgree | direct/models.py:77-95 | two payloads with the same lookups on model fields give the same arguments |
| DirectCodec.KwargsFromPopUnnamed | direct/models.py:82-84 | dropping a key that names no model field leaves the arguments unchanged |
| DirectCodec.KwargsAt | direct/models.py:94 | the argument under field `f` is the converted payload value under `Camelize(f)` |
| DirectCodec.KwargsSameLookups | direct/models.py:77-95 | equal lookups of every model field's key give equal keyword arguments |
| DirectCodec.Deserialize | direct/models.py:98-113 | the updated-field set is the set of received fields minus the primary key, and also minus `id` under multi-table inheritance |
| DirectCodec.KeptMeaning | direct/models.py:183-184 | a field is serialized iff it is not excluded and its value is truthy or `include_null` is set |
| DirectCodec.SerializeFieldsNames | direct/models.py:179-184 | the payload names are the camelized kept non-reverse field names, in field order |
| DirectCodec.SerializeFieldsDistinct | direct/models.py:183 | no key appears twice in a serialized payload |
| DirectCodec.SerializeFieldsLookup | direct/models.py:183-184 | a payload key maps to the attribute value of its field |
| DirectCodec.SerializeKeys | direct/models.py:183 | every payload key is the camelized name of a kept model field |
| DirectCodec.KwargsOfSerialized | direct/models.py:183-184 | reading a serialized payload back gives the kept fields' converted values |
| DirectCodec.SerializeRoundTrip | direct/models.py:168-184 | serialize then deserialize gives the kept attributes back and marks exactly those fields updated |
| DirectModels.RegionDeserializeId | direct/models.py:200-204 | a region's payload `GeoRegionId` becomes its id |
| DirectModels.Div10000 | direct/models.py:417-418 | bid division by 10 000, with a `TypeError` for values that are not numbers |
| DirectModels.KeywordInputErrors | direct/models.py:416-419 | the keyword payload fails exactly when a bid is missing or not a number |
| DirectModels.KeywordInputLookups | direct/models.py:416-419 | after the preparation, `Bid`/`ContextBid` hold the divided bids and `Text` holds the `Keyword` value |
| DirectModels.KeywordSerializeKeys | direct/models.py:423-426 | the serialized keyword carries `Keyword` and no `Text` |
| DirectModels.KeywordRoundTrip | direct/models.py:415-426 | with bids sent in API units, deserializing the payload gives the record's non-empty, non-excluded attributes back |
| DirectModels.KeywordBidsAsWritten | direct/models.py:417-418 | as written, each bid reads back as its kopecks divided by 10 000, truncated |
| DirectModels.KeywordBidLost | direct/models.py:417-418 | as written, a bid under 10 000 kopecks reads back as 0 |
| DirectModels.TextAdInputErrors | direct/models.py:484-488 | flattening fails exactly when `TextAd` is missing or not an object |
| DirectModels.TextAdSerializeShape | direct/models.py:490-497 | the serialized ad nests its fields under `TextAd` and has `AdGroupId` and `Id` at the top level |
| DirectModels.TextAdRoundTrip | direct/models.py:484-497 | deserializing a serialized ad gives its kept attributes back |
| DirectModels.TextAdNestedRoundTrip | direct/models.py:484-497 | nesting under `TextAd` and flattening again lose nothing the base read needs |
| DirectModels.NestedRoundTrip | direct/models.py:484-497 | nesting then flattening keeps every lookup |
| DirectModels.UnnestNest | direct/models.py:484-497 | flattening inverts nesting on the payload keys |
| DirectModels.BudgetOf | direct/models.py:253-255 | the daily budget amount is `Amount / 10 000` and the mode is `Mode`, when a budget is given |
| DirectModels.WithBudget | direct/models.py:253-257 | with a budget, the amount and mode are set and both are added to the updated fields; without one, nothing changes |
| DirectModels.CampaignInputErrors | direct/models.py:248-251 | deserializing fails with `KeyError` when any of the four popped keys is missing |
| DirectModels.PoppedRead | direct/models.py:248-252 | the popped keys are not model fields, so the base read ignores them |
| DirectModels.CampaignDeserializeMeaning | direct/models.py:246-258 | a campaign is the base read of the payload with the budget applied |
| DirectModels.IsoDate | direct/models.py:266 | a date value becomes its ISO text; anything else raises |
| DirectModels.CampaignSerializeMeaning | direct/models.py:263-267 | the campaign payload is the base payload with `StartDate` as ISO text when present |
| DirectModels.TextCampaignSerializeMeaning | direct/models.py:275-287 | a text campaign adds the fixed `TextCampaign` bidding strategy to the campaign payload |
| DirectModels.TextCampaignSentAttribute | direct/models.py:275-287 | an attribute the campaign payload holds is also in the text-campaign payload |
| DirectModels.ParentKeysSent | direct/models.py:273 | `AccountId`/`CampaignPtrId` are sent iff the exclusions leave them and their values are truthy |
| DirectModels.TextCampaignUpdateAsWritten | direct/models.py:68-273 | as written, an update payload carries `AccountId` and `CampaignPtrId` |
| DirectModels.TextCampaignUpdateOmitsParent | direct/models.py:270-273 | with the update exclusions including the add exclusions, neither key is sent |
| DirectModels.AdGroupSerialize | direct/models.py:344-351 | the group payload adds `RegionIds` and, for negatives, `NegativeKeywords.Items` |
| DirectModels.AppendNegatives | direct/models.py:349-350 | the loop puts every negative text under `Items`, in order |
| DirectModels.AdGroupSerializeShape | direct/models.py:344-351 | the base keys are kept, `RegionIds` holds the region ids, and `NegativeKeywords` appears iff there are negatives |
| DirectModels.LowerText | direct/models.py:537 | `Device` is lower-cased; a non-text value raises |
| DirectModels.IsoDay | direct/models.py:539 | `Date` parses as an ISO day, or raises `ValueError` |
| DirectModels.StatsStepsErrors | direct/models.py:535-540 | the statistics preparation fails exactly at its first missing or malformed field |
| DirectModels.StatsStepsLookups | direct/models.py:535-540 | after preparation, each renamed key holds its converted value |
| DirectModels.StatsAttrsFor | direct/models.py:534-541 | each statistics attribute is read from its API column; the group id is an integer column, so a non-integer group id raises |
| DirectModels.StatsDeserializeAttrs | direct/models.py:534-541 | `DirectStats.deserialize` gives the region, shows, device, group and date read from their columns, and raises when the group id is not an integer |
| DirectModels.RegionModelWellFormed | direct/models.py:195-198 | the region field list has distinct names whose camelized keys read back |
| DirectModels.CampaignModelWellFormed | direct/models.py:235-243 | the same for the campaign fields |
| DirectModels.CampaignApiOnlyNames | direct/models.py:248-251 | the keys `Campaign.deserialize` pops name no campaign field |
| DirectModels.TextCampaignModelWellFormed | direct/models.py:270-273 | the same for the text campaign fields |
| DirectModels.AdGroupModelWellFormed | direct/models.py:317-324 | the same for the ad group fields |
| DirectModels.KeywordModelWellFormed | direct/models.py:392-410 | the same for the keyword fields |
| DirectModels.TextAdModelWellFormed | direct/models.py:466-479 | the same for the text ad fields |
| DirectModels.DirectStatsModelWellFormed | direct/models.py:516-531 | the statistics fields, with the campaign, group, ad and criterion joins as integer fields, have distinct names whose camelized keys read back |
| DirectSync.IndexOf | direct/models.py:136 | the position of a class in the queue: the first entry of that class, or none when absent |
| DirectSync.IterValues | direct/models.py:333 | iterating a list gives its items, a dict its keys, a text its characters; anything else raises `TypeError` |
| DirectSync.NegativeTexts | direct/models.py:331-333 | the negative texts of a group's payload; raises when the payload is not an object |
| DirectSync.NegativeRecords | direct/models.py:333-335 | one `GroupNegativeKeyword(ad_group_id, text)` per text, in order |
| DirectSync.Prefixed | direct/models.py:339 | every filter key is prefixed with `ad_group__`, values unchanged |
| DirectSync.DeserializeNested | direct/models.py:329-339 | the nested step equals its reference function |
| DirectSync.NestedInto | direct/models.py:329-339 | the loop adds the negative-keyword records to the queue as the reference function does |
| DirectSync.SyncResponse | direct/models.py:120-150 | the loop builds the `bulk_sync` jobs the reference function gives |
| DirectSync.SyncInto | direct/models.py:133-150 | the same, for any key of the nested list |
| DirectSync.SyncWith | direct/models.py:133-150 | the same loop, for any deserializer of the results |
| DirectSync.FoldReference | direct/models.py:133-142 | folding the items into the queue succeeds iff the reference reading does, with the same error, and builds the reference queue |
| DirectSync.SyncJobsMeaning | direct/models.py:126-150 | no jobs for no results; otherwise the jobs are the reference reading's parent job followed by the negative-keyword job |
| DirectSync.SyncJobsAtMeaning | direct/models.py:126-150 | the same, for any key of the nested list |
| DirectSync.ParentFields | direct/models.py:140-142 | the parent job's fields are the last item's received fields, keyed by `pk` under the caller's filter |
| DirectSync.ReferenceObjects | direct/models.py:133-136 | one deserialized object per result, in order |
| DirectSync.OtherClassesReference | direct/models.py:153-161 | for classes other than groups, nothing nested is queued |
| DirectSync.OtherClassesOneJob | direct/models.py:126-150 | for classes other than groups, exactly one job holding every deserialized object |
| DirectSync.NegativesOnQueue | direct/models.py:334-339 | added negatives are queued under `GroupNegativeKeyword`, keyed by `(ad_group_id, text)` with the prefixed filter |
| DirectSync.NoNegativesOnQueue | direct/models.py:337 | setting the negative-keyword fields with none queued raises `KeyError` |
| DirectSync.NegativeRecordsUnique | direct/models.py:371-374 | the records are pairwise distinct iff the texts are, as the uniqueness constraint on `(ad_group, text)` needs |
| DirectSync.NegativeTextsAsWrittenReadsKey | direct/models.py:333 | as written, iterating the `{"Items": [...]}` that `serialize` writes yields the one text `"Items"` |
| DirectSync.IterValuesArray | direct/models.py:333 | iterating an `Items` wrapper yields its key |
| DirectSync.NegativeTextsReadsItems | direct/models.py:331-335 | reading `Items` yields the texts themselves |
| DirectSync.NegativeKeywordsRoundTrip | direct/models.py:329-351 | a serialized group's negatives come back as exactly their records; no negatives raise `KeyError` |
| DirectStore.Saved | direct/api_manager.py:658 | saving appends a `Changed` record of the row, with its state, status, foreign keys and values, and changes nothing else |
| DirectStore.Repoint | direct/api_manager.py:660-665 | every link to `from` now points to `to`; other links and fields are kept |
| DirectStore.Store.ChangeId | direct/api_manager.py:629-666 | the store becomes `ChangedId(old rows)`: the object copied under the new id with its history, the old row left with none, every link re-pointed; the new row is listed once and the listing invariant is kept |
| DirectStore.Store.RepointEach | direct/api_manager.py:660-665 | the rows in `todo` are re-pointed, the others kept |
| DirectStore.Store.DeleteRows | direct/api_manager.py:579 | the given rows and every row their deletion cascades to are removed from the store and the listing |
| DirectStore.Store.DeleteDirect | direct/models.py:353-361 | the store becomes `MarkedDeleted(old rows, group)` |
| DirectStore.Store.MarkEach | direct/models.py:356-361 | each row in `todo` gets `state='DELETE'` and is saved |
| DirectStore.Store.SaveStatus | direct/api_manager.py:594-596 | each row in `todo` gets the status and is saved |
| DirectStore.ChangedIdKeepsOldRow | direct/api_manager.py:632-633 | the row under the old id stays with its values, its links re-pointed and no history: its records moved to the new id |
| DirectStore.ChangedIdCopies | direct/api_manager.py:656-658 | the new row has the old row's owner, state, status and values; its history is the records already under the new id, then the object's own, then the two saves |
| DirectStore.ChangedIdMovesRelations | direct/api_manager.py:660-665 | whatever linked to the old row links to the new one, and nothing other than the new row links to the old one |
| DirectStore.ChangedIdPointwise | direct/api_manager.py:660-665 | link by link: links to the old row now point to the new one, the others are kept |
| DirectStore.ChangedIdOnlyLinks | direct/api_manager.py:660-665 | `change_id` changes only links of rows other than the object and its copy |
| DirectStore.ChangedIdSameId | direct/api_manager.py:629-666 | changing to the same id only saves the row twice |
| DirectStore.MarkedDeletedMeaning | direct/models.py:353-361 | the group, its ads and its keywords get `state='DELETE'` with a history snapshot each; other rows are unchanged |
| DirectStore.Cascade | direct/models.py:353-361 | the rows a delete removes hold the given rows, lie in the store, and every row pointing at one of them is among them |
| DirectStore.CascadeLeast | direct/models.py:353-361 | the cascade is the least such set: it lies inside every set holding the given rows and closed under pointing |
| DirectStore.CascadeNone | direct/models.py:353-361 | when no row points at the given rows the delete removes them alone |
| DirectPush.UpdatedSet | direct/api_manager.py:538-541 | `updated` is a subset of the stored rows |
| DirectPush.ChildUpdatedSet | direct/api_manager.py:544-545 | `child_updated` is a subset of the stored rows |
| DirectPush.DeletedSet | direct/api_manager.py:569-570 | `delete_objects` is a subset of the stored rows |
| DirectPush.CountAfter | direct/api_manager.py:569 | the number of a row's records after the synchronisation is positive iff the row was touched after it |
| DirectPush.DeletedIds | direct/api_manager.py:569-570 | `deleted_ids` holds exactly the ids of the rows of `delete_objects` |
| DirectPush.DeletedIdsExample | direct/api_manager.py:569-570 | a row with one record after the synchronisation gives its id once, with two records twice |
| DirectPush.DeletedIdsOnce | direct/api_manager.py:569-570 | when each row has one record after the synchronisation, `deleted_ids` is their ids in order |
| DirectPush.Diff | direct/api_manager.py:559 | a field is in the delta iff its values differ between the two records; foreign keys are fields too, compared by the row they name |
| DirectPush.FirstAfter | direct/api_manager.py:557 | the first history record after the synchronisation, or none |
| DirectPush.LastAfter | direct/api_manager.py:557 | the last history record after the synchronisation, or none |
| DirectPush.SplitChanges | direct/api_manager.py:547-566 | the loop yields exactly `state_changed` and `other_changed` |
| DirectPush.SplitUpdated | direct/api_manager.py:555-564 | the loop over `updated` yields exactly the rows whose delta holds `state`, and those whose delta holds another field, a moved foreign key included |
| DirectPush.Ids | direct/api_manager.py:616 | the ids of the objects, in order |
| DirectPush.IdsWith | direct/api_manager.py:461-467 | the ids of the objects in a given state, and no others |
| DirectPush.Verb | direct/api_manager.py:615 | `method_name.split('_', 1)[0]`: a prefix without `_`, followed in the name by `_` unless it is the whole name |
| DirectPush.DirectApi.SendAccountChanges | direct/api_manager.py:485-507 | the world after the method is `SendAccount` (campaigns, then groups with ads and keywords before their deletion), and so is its success flag |
| DirectPush.DirectApi.SendAdsAndKeywords | direct/api_manager.py:509-520 | the world after the method is: ads, then keywords, then moderation; an ad or keyword moved to another group is among the updates |
| DirectPush.DirectApi.SendObjectsOfClass | direct/api_manager.py:522-579 | the world after the method is `SendClass`: create, drop placeholders, update, state changes under the ids the update returned, hook, remote delete, cascading local delete |
| DirectPush.DirectApi.AddObjects | direct/api_manager.py:427-436 | one add call for the new objects, then each placeholder remapped to the returned id |
| DirectPush.DirectApi.UpdateObjects | direct/api_manager.py:438-452 | one update call; fails unless as many ids come back; each object remapped to its returned id |
| DirectPush.DirectApi.RemapEach | direct/api_manager.py:435-436 | each object is moved to the id at its index |
| DirectPush.DirectApi.ChangeObjectStates | direct/api_manager.py:454-470 | a suspend call and a resume call as `StateStep` gives them |
| DirectPush.DirectApi.DeleteObjects | direct/api_manager.py:472-477 | one delete call for the ids, skipped for none, counted on return |
| DirectPush.DirectApi.SendIds | direct/api_manager.py:462-477 | one call with the ids, skipped for none, failing unless as many ids return |
| DirectPush.DirectApi.ModerateNewAds | direct/api_manager.py:581-596 | the account's draft ads are sent to moderation and marked `MODERATION` |
| DirectPush.DirectApi.ChangeStatus | direct/api_manager.py:612-624 | the dynamic `suspend_`/`resume_`/`archive_`/`unarchive_` call, with the statuses saved |
| DirectPush.DiffSelf | direct/api_manager.py:559 | a record compared with itself shows no change |
| DirectPush.DeltaAsWrittenTwoChanges | direct/api_manager.py:557-559 | as written, with exactly two records after the synchronisation, the delta is empty |
| DirectPush.DeltaTwoChanges | direct/api_manager.py:557-559 | the intended delta compares the newest record with the one before both changes |
| DirectPush.DeltaOneChange | direct/api_manager.py:557-559 | with one record after the synchronisation, the delta as written and the intended delta agree |
| DirectPush.DeltaAsWrittenExample | direct/api_manager.py:557-559 | a campaign renamed, then suspended: as written nothing is sent; intended, both `name` and `state` are |
| DirectPush.DeltaMovedAd | direct/api_manager.py:559-564 | a text ad whose only edit moves it to another group has the delta `{ad_group}`, so it is sent as a content change |
| DirectPush.Classified | direct/api_manager.py:535-566 | `updated` keeps changed, non-new, non-deleted rows; state changes sit off the groups with `state` in the delta; other changes are every updated group, a delta with another field, or changed children; a row can be in both, and new or deleted rows are in neither |
| DirectPush.AddStepGrows | direct/api_manager.py:427-436 | creating sends only add calls of the class |
| DirectPush.UpdateStepGrows | direct/api_manager.py:438-452 | updating sends only update calls |
| DirectPush.IdsStepGrows | direct/api_manager.py:472-477 | an id call sends only calls of its kind |
| DirectPush.StateStepGrows | direct/api_manager.py:454-470 | suspends come before resumes |
| DirectPush.FrontGrows | direct/api_manager.py:572-575 | create, update and state calls come in that order |
| DirectPush.BackGrows | direct/api_manager.py:578-579 | the remote delete is last |
| DirectPush.ClassGrows | direct/api_manager.py:572-579 | for a class without a hook: create, then update, then state changes, then delete |
| DirectPush.ModerateGrows | direct/api_manager.py:581-596 | moderation sends only the moderation call |
| DirectPush.AdsAndKeywordsGrows | direct/api_manager.py:509-520 | ad calls, then keyword calls, then moderation |
| DirectPush.GroupsGrows | direct/api_manager.py:500-507 | group creation and updates, then ads and keywords, then the group deletion |
| DirectPush.SendAccountOrder | direct/api_manager.py:485-520 | all campaign calls come before all group calls, which come before the ad, keyword and moderation calls, which come before group deletion |
| DirectPush.RemapAllMoves | direct/api_manager.py:435-436 | remapping placeholders to fresh ids copies each placeholder and re-points all links to its copy |
| DirectPush.AddStepMoves | direct/api_manager.py:572-573 | after the add and the placeholder deletion, no placeholder is left, every row is kept or copied to its new id with links re-pointed, and no link dangles |
| DirectPush.RemapOwnIds | direct/api_manager.py:448-452 | remapping to the objects' own ids changes only their history |
| DirectPush.UpdateStepOwnIds | direct/api_manager.py:438-452 | an update answered with the same ids succeeds, sends one call and changes only history |
| DirectPush.BackDeletes | direct/api_manager.py:568-579 | the remote delete succeeds iff the counts agree; then the deleted rows are gone with every row their deletion cascades to, the rest untouched, and no foreign key is left dangling |
| DirectPush.CascadeLinked | direct/api_manager.py:579 | a cascading delete leaves no foreign key to a deleted row |
| DirectPush.Renamed | direct/api_manager.py:573-575 | the objects handed to `change_object_states` after `update_objects`: as many as before |
| DirectPush.StatesRenamed | direct/api_manager.py:449-453 | an object also updated is named by the id Direct answered its update with; any other keeps its id |
| DirectPush.MapRefAt | direct/api_manager.py:449-453 | the updated object at position `i` is remapped to the id at position `i` |
| DirectPush.RenamedOwnIds | direct/api_manager.py:449-453 | when Direct answers with the objects' own ids the state changes name the objects unchanged |
| DirectPush.MapRefOwn | direct/api_manager.py:449-453 | remapping with the objects' own ids leaves every reference as it was |
| DirectPush.StateStepCalls | direct/api_manager.py:461-470 | suspend with exactly the `SUSPENDED` ids, resume with exactly the `ON` ids, each skipped when empty and counted |
| DirectPush.ModerateClears | direct/api_manager.py:586-596 | on success no draft ad is left, the drafts are `MODERATION`, and other rows are unchanged |
| DirectPush.VerbOf | direct/api_manager.py:615 | the verb of `verb + "_" + service` is the verb |
| DirectPush.StatusMap | direct/api_manager.py:606-611 | archive → ARCHIVED, unarchive → SUSPENDED, suspend → ARCHIVED, resume → ON; other verbs have no status |
| DirectPush.StatusStepMeaning | direct/api_manager.py:612-624 | one call with the ids; success needs the count and a mapped verb; the targets get the status and others are kept |
| DirectPull.DropLast | direct/api_manager.py:91 | `s[:-1]`: the text without its last character |
| DirectPull.CheckpointRoundTrip | direct/api_manager.py:67-103 | a timestamp ending in `Z`, stripped on save and extended on use, is the timestamp again |
| DirectPull.DictionariesMeaning | direct/api_manager.py:75-92 | the check is sent without a timestamp iff there is no checkpoint; regions reload without a checkpoint or when `RegionsChanged` is `YES`; the new checkpoint is the reply's timestamp |
| DirectPull.Tagged | direct/api_manager.py:114-118 | the ids of the change records whose `ChangesIn` holds a tag |
| DirectPull.NoCheckpointTimestampOnly | direct/api_manager.py:100-102 | without a checkpoint only the server timestamp comes back |
| DirectPull.ChangesSorted | direct/api_manager.py:114-127 | a campaign goes to `changed` iff `SELF` is listed, to the child query iff `CHILDREN` is; the child query is issued iff that list is non-empty |
| DirectPull.DeletedAreNotFound | direct/api_manager.py:131-156 | the deleted ids are the `NotFound` ids of an existence check over the known ids, skipped when there are none |
| DirectPull.LoadEventsMeaning | direct/api_manager.py:42-63 | a full reload deletes the account's campaigns and loads everything; an incremental load deletes nothing wholesale, loads the changed campaigns only when there are some, and ends with deleting ads, groups and campaigns |
| DirectPull.LoadIfMeaning | direct/api_manager.py:306-307 | `get_ad_groups`, `get_text_ads` and `get_keywords` issue their request, or none, and none exactly when given neither campaign ids nor object ids |
| DirectPull.LoadEventsChildren | direct/api_manager.py:56-59 | in an incremental load the groups, ads and keywords of the account's campaigns are loaded once each, restricted to the changed group and ad ids, so all of them when none of that kind changed (an empty list sets no `Ids` filter, :318-320); a load is left out exactly when there are neither campaigns nor changed ids (:306-307) |
| DirectPull.LoadAccountMeaning | direct/api_manager.py:35-73 | dictionaries first; statistics last and only outside the sandbox; the account saves the sync time and the checkpoint |
| DirectPull.LoadStatsOnlyLast | direct/api_manager.py:72-73 | in the sandbox no statistics are loaded |
| DirectPull.ChangeEventsNoStats | direct/api_manager.py:94-164 | `get_changed_ids` loads no statistics |
| DirectPull.LoadEventsNoStats | direct/api_manager.py:42-63 | the loads load no statistics |
| DirectPull.StatsRange | direct/api_manager.py:208-223 | `ALL_TIME` iff there are no stats, `AUTO` iff the last stat ≥ yesterday−1, otherwise a custom range from last−7 to yesterday |
| DirectPull.StatsParams | direct/api_manager.py:202-254 | the report covers the account's campaigns, and the dates are sent iff the range is custom |
| DirectPull.StatsParamsMeaning | direct/api_manager.py:208-253 | the range type is the chosen one, and a custom range is sent as ISO days |
| DirectPull.Rows | direct/api_manager.py:258-259 | one decoded row per report row |
| DirectPull.RowsAt | direct/api_manager.py:258-259 | the `i`-th decoded row is the decoding of the `i`-th report row |
| DirectPull.KeptFails | direct/api_manager.py:258-264 | the parse fails iff a row fails, and keeps at most one statistic per row |
| DirectPull.KeptKeeps | direct/api_manager.py:260-263 | exactly the rows dated before today are kept |
| DirectPull.ParsedReportMeaning | direct/api_manager.py:256-264 | `parse_direct_report` keeps exactly the statistics dated before today, and fails iff a row does |
| DirectPull.MissedMeaning | direct/api_manager.py:187-200 | one criterion per unknown id, none twice, each from the first statistic naming it, and every id then known |
| DirectPull.Loader.SyncDictionaries | direct/api_manager.py:75-92 | the account and request log become what the reference functions give |
| DirectPull.Loader.GetChangedIds | direct/api_manager.py:94-164 | the result and the requests are `ChangedIds` and `ChangeEvents` |
| DirectPull.Loader.CheckExistence | direct/api_manager.py:138-156 | one check; the `NotFound` ids; skipped for no ids |
| DirectPull.Loader.LoadAccount | direct/api_manager.py:35-73 | the account and the requests are `AfterLoad` and `LoadAccountEvents` |
| DirectPull.Loader.Finish | direct/api_manager.py:42-73 | the loads, the save and, outside the sandbox, the statistics |
| DirectPull.ParseDirectReport | direct/api_manager.py:256-264 | the loop gives `ParsedReport` |
| DirectPull.RetainRows | direct/api_manager.py:258-264 | the loop keeps what `Retained` keeps, for any decoder |
| DirectPull.CreateMissedCriterions | direct/api_manager.py:187-200 | the loop gives `Missed` |
| DirectPull.SortChanges | direct/api_manager.py:114-118 | the loop yields the `SELF` ids and the `CHILDREN` ids |
| XmlDeserializer.GuaranteedListMeaning | ya_xml_search/deserializer.py:137-143 | empty iff falsy; a list unchanged; anything else wrapped; and idempotent |
| XmlDeserializer.Domains | ya_xml_search/deserializer.py:72 | the domain of each group, in order |
| XmlDeserializer.FirstIndex | ya_xml_search/deserializer.py:74 | where a domain first appears |
| XmlDeserializer.FirstSeenMeaning | ya_xml_search/deserializer.py:67-79 | the merged domains are distinct, are all the domains, and keep first-appearance order |
| XmlDeserializer.DocsOfAbsent | ya_xml_search/deserializer.py:74-78 | a domain without groups has no documents |
| XmlDeserializer.CountOverSnoc | ya_xml_search/deserializer.py:74-76 | one more group adds its documents to its domain's count |
| XmlDeserializer.CountJoined | ya_xml_search/deserializer.py:74-79 | the merged groups hold the documents of their domains |
| XmlDeserializer.JoinKeepsDocs | ya_xml_search/deserializer.py:74-76 | merging keeps the total number of documents |
| XmlDeserializer.JoinCount | ya_xml_search/deserializer.py:74-79 | counting over the first-seen domains counts every document |
| XmlDeserializer.JoinStep | ya_xml_search/deserializer.py:74-78 | a group of a known domain extends it; a new domain is appended |
| XmlDeserializer.NormalizeStops | ya_xml_search/deserializer.py:68-72 | the first group that fails to read decides the error |
| XmlDeserializer.NothingFound | ya_xml_search/deserializer.py:39-45 | without `found` the count is 0 and no groups are built |
| XmlDeserializer.LastPageMonotone | ya_xml_search/deserializer.py:43 | the new last page is `max(previous or 0, page)` |
| XmlDeserializer.LastPosition | ya_xml_search/deserializer.py:48 | the largest stored position, or 0 with none |
| XmlDeserializer.PassagesOf | ya_xml_search/deserializer.py:120-124 | one passage per passage text |
| XmlDeserializer.DocsBuilt | ya_xml_search/deserializer.py:98-101 | one document per document of the group |
| XmlDeserializer.GroupsBuilt | ya_xml_search/deserializer.py:49-52 | one group per merged group |
| XmlDeserializer.DocsBuiltAt | ya_xml_search/deserializer.py:98-111 | the `i`-th document has id `first + i`, position `i` and the group |
| XmlDeserializer.PassagesBuiltMeaning | ya_xml_search/deserializer.py:120-124 | passage ids are consecutive from the counter, and each passage lies in its document at its index |
| XmlDeserializer.GroupsBuiltAt | ya_xml_search/deserializer.py:49-52 | the `i`-th group has id `first + i` and position `last_position + 1 + i` |
| XmlDeserializer.NewPositionsFresh | ya_xml_search/deserializer.py:48-50 | new positions exceed every stored one and increase |
| XmlDeserializer.AllDocsMeaning | ya_xml_search/deserializer.py:95-107 | document ids are consecutive from the counter, each in a new group |
| XmlDeserializer.AllPassagesMeaning | ya_xml_search/deserializer.py:120-123 | passage ids are consecutive from the counter, each in a new document |
| XmlDeserializer.NumberedAppend | ya_xml_search/deserializer.py:95-123 | ids taken from a counter one after another stay numbered |
| XmlDeserializer.GroupIds | ya_xml_search/deserializer.py:95 | the group ids, in order |
| XmlDeserializer.DocIds | ya_xml_search/deserializer.py:106 | the document ids, in order |
| XmlDeserializer.PassageIds | ya_xml_search/deserializer.py:122 | the passage ids, in order |
| XmlDeserializer.JoinStateStep | ya_xml_search/deserializer.py:74-78 | one loop step keeps the merge invariant |
| XmlDeserializer.JoinStateResult | ya_xml_search/deserializer.py:79 | the dictionary's values are the merged groups |
| XmlDeserializer.Deserializer.constructor | ya_xml_search/deserializer.py:10-32 | each counter starts one after the latest id, or at 0 |
| XmlDeserializer.Deserializer.JoinGroups | ya_xml_search/deserializer.py:60-79 | the loop over the groups gives `JoinAll` |
| XmlDeserializer.Deserializer.DeserializeDoc | ya_xml_search/deserializer.py:104-125 | the document takes the next doc id and its passages the next passage ids |
| XmlDeserializer.Deserializer.DeserializeGroup | ya_xml_search/deserializer.py:94-102 | the group takes the next group id, and its documents are numbered at their indexes |
| XmlDeserializer.Deserializer.DeserializeRequest | ya_xml_search/deserializer.py:34-58 | on an unreadable response nothing is built; otherwise the request's count and last page, and the groups, documents and passages numbered from the counters |
| XmlDeserializer.Deserializer.BuildPage | ya_xml_search/deserializer.py:45-52 | the loop over a page's groups builds exactly the groups, documents and passages |
| XmlDeserializer.PageStateStep | ya_xml_search/deserializer.py:49-52 | one group step keeps the page invariant |
| XmlDeserializer.KeepsNumbering | ya_xml_search/deserializer.py:95-123 | after a page, every id list is still numbered |
| XmlSearch.Escape | ya_xml_search/xml_search.py:164 | `re.escape` never shortens |
| XmlSearch.ReadLiteral | ya_xml_search/xml_search.py:164 | the unescaped literal prefix and the rest |
| XmlSearch.EscapeLiteral | ya_xml_search/xml_search.py:164 | an escaped text is a literal |
| XmlSearch.ReadEscaped | ya_xml_search/xml_search.py:164 | unescaping an escaped URL gives the URL back |
| XmlSearch.Alternatives | ya_xml_search/xml_search.py:164 | one alternative per URL, in order |
| XmlSearch.ParseAlternative | ya_xml_search/xml_search.py:164 | one alternative reads back as its URL |
| XmlSearch.RegexRoundTrip | ya_xml_search/xml_search.py:158-164 | the joined regex reads back as exactly its list of URLs |
| XmlSearch.UrlsToRegexCons | ya_xml_search/xml_search.py:164 | the regex of several URLs is the first alternative, the bar, then the regex of the rest |
| XmlSearch.DotInFirstLineMeaning | ya_xml_search/xml_search.py:76-77 | on one line, `.*\..*` only asks for a dot |
| XmlSearch.Assignments | ya_xml_search/xml_search.py:188-197 | each parameter is written `name=value` |
| XmlSearch.Split | ya_xml_search/xml_search.py:154 | `str.split` yields at least one part |
| XmlSearch.SplitJoin | ya_xml_search/xml_search.py:154 | splitting a join of parts without the separator gives the parts back |
| XmlSearch.ParseJoined | ya_xml_search/xml_search.py:188-197 | parameters joined into a URL read back as they were |
| XmlSearch.UrlStrRoundTrip | ya_xml_search/xml_search.py:166-198 | the request URL parses back into its parameters: user, key, query, `lr` (empty without a region), `groupby` (`attr=d.mode=deep` or `attr=.mode=flat`) and page |
| XmlSearch.GroupByPlain | ya_xml_search/xml_search.py:185-186 | the `groupby` value has no `&` |
| XmlSearch.UrlParamsPlain | ya_xml_search/xml_search.py:185-197 | with no `&` in user, key and query, no parameter value holds `&`, so the URL splits back |
| XmlSearch.CheckResponse | ya_xml_search/xml_search.py:230-254 | valid iff the text is non-empty, has neither error -132 nor -32, ends with `</yandexsearch>` and has results or error 15; waits for price or balance as the branches do |
| XmlSearch.Select | ya_xml_search/xml_search.py:298-307 | a lookup keeps exactly the rows that pass with a key among the queries |
| XmlSearch.SelectKeyedOnce | ya_xml_search/xml_search.py:298-307 | a lookup over rows with distinct keys returns each key once |
| XmlSearch.SelectChunked | ya_xml_search/xml_search.py:298-307 | the chunked loop finds the same rows as one lookup |
| XmlSearch.SelectChunkedSet | ya_xml_search/xml_search.py:312-316 | the same over a set of queries, keeping keys distinct |
| XmlSearch.Enumerate | ya_xml_search/xml_search.py:322 | `list(set)` holds each element once |
| XmlSearch.Normalized | ya_xml_search/xml_search.py:51 | one normal form per query, in order |
| XmlSearch.Mapper | ya_xml_search/xml_search.py:101 | the mapper's keys are the normal forms |
| XmlSearch.MapperLast | ya_xml_search/xml_search.py:101 | each normal form maps to the last query with that form |
| XmlSearch.MapperValues | ya_xml_search/xml_search.py:101 | the values are the caller's queries |
| XmlSearch.DictOf | ya_xml_search/xml_search.py:62 | `dict(pairs)` takes each key's last pair |
| XmlSearch.StartPage | ya_xml_search/xml_search.py:319-322 | a start page is 0 or at most `max_page` |
| XmlSearch.StartPageResumes | ya_xml_search/xml_search.py:313-319 | a stored request with pages left resumes at `last_page + 1` |
| XmlSearch.StartPageFresh | ya_xml_search/xml_search.py:321-322 | any other query starts at page 0 |
| XmlSearch.StartsAppend | ya_xml_search/xml_search.py:319-322 | joining two start lists with no query in common keeps each query once |
| XmlSearch.PopulateStarts | ya_xml_search/xml_search.py:294-322 | the start list holds exactly the queries neither found nor at the last page, once each, at their start pages |
| XmlSearch.ResumeStarts | ya_xml_search/xml_search.py:311-319 | the resumed queries are the resumable stored requests, once each, after their last page |
| XmlSearch.ZeroStarts | ya_xml_search/xml_search.py:321-322 | the remaining queries, each from page 0 |
| XmlSearch.DomainPositions | ya_xml_search/xml_search.py:44-63 | one entry per query, in order: the domain's position within the counted pages, or none when not found |
| XmlSearch.QueryDomains | ya_xml_search/xml_search.py:65-104 | raises iff an included or excluded URL lacks a dot or ends with `/`; otherwise the keys are the queries owning a listed group, and each maps to its query's domains in position order, one per (domain, position), repeated once per chunk holding the query: once when the normalised queries are distinct |
| XmlSearch.GroupDomains | ya_xml_search/xml_search.py:100-104 | the result holds exactly the queries owning some row, each with its rows' domains in the order of the rows |
| XmlSearch.LookupChunked | ya_xml_search/xml_search.py:90-99 | the chunked loop collects exactly the chunk-by-chunk lookup `AllHits` |
| XmlSearch.HitsOfMember | ya_xml_search/xml_search.py:99 | the selected rows are exactly those of the listed groups |
| XmlSearch.InsertSorted | ya_xml_search/xml_search.py:93-94 | inserting into a list in position order keeps it in order and adds exactly the row |
| XmlSearch.SortSorted | ya_xml_search/xml_search.py:93-94 | `order_by` gives the rows in position order, a permutation of the rows found |
| XmlSearch.DistinctMember | ya_xml_search/xml_search.py:99 | `distinct()` keeps every row it is given, and adds none |
| XmlSearch.DistinctNoRepeats | ya_xml_search/xml_search.py:99 | after `distinct()` no row appears twice, and position order is kept |
| XmlSearch.OfQueryMember | ya_xml_search/xml_search.py:100-104 | the rows of one query are exactly the rows with that query |
| XmlSearch.OfQueryByPosition | ya_xml_search/xml_search.py:93-94 | the rows of one query of a list in position order are in position order |
| XmlSearch.ChunkHitsMember | ya_xml_search/xml_search.py:90-99 | one chunk's lookup holds exactly the rows of listed groups whose query is in the chunk |
| XmlSearch.QueryHitsMeaning | ya_xml_search/xml_search.py:90-99 | one query's lookup is in position order with no repeats, and holds exactly the rows of its listed groups |
| XmlSearch.AllHitsMember | ya_xml_search/xml_search.py:90-99 | the lookups of all chunks hold exactly the rows of listed groups whose query is asked |
| XmlSearch.OfQueryAppend | ya_xml_search/xml_search.py:99 | taking one query's rows distributes over concatenation |
| XmlSearch.OfQueryInsert | ya_xml_search/xml_search.py:93-94 | taking one query's rows commutes with the insertion into position order |
| XmlSearch.OfQuerySort | ya_xml_search/xml_search.py:93-94 | taking one query's rows commutes with the ordering by position |
| XmlSearch.OfQueryDistinct | ya_xml_search/xml_search.py:99 | taking one query's rows commutes with `distinct()` |
| XmlSearch.OfQuerySelect | ya_xml_search/xml_search.py:90-92 | a chunk's rows of one query are that query's own lookup when it is in the chunk, else none |
| XmlSearch.OfQueryChunk | ya_xml_search/xml_search.py:90-99 | the same after ordering and `distinct()` |
| XmlSearch.OfQueryAll | ya_xml_search/xml_search.py:90-99 | the rows of one query collected over all chunks are its own lookup, repeated once per chunk that holds it |
| XmlSearch.ChunksOnce | ya_xml_search/xml_search.py:90 | with distinct normalised queries a query is in one chunk if asked, else in none |
| XmlSearch.RepeatOnce | ya_xml_search/xml_search.py:99 | a lookup repeated once is the lookup |
| XmlSearch.OwnedByMember | ya_xml_search/xml_search.py:102-103 | the rows a query gets are exactly the rows it owns |
| XmlSearch.OwnedBySnoc | ya_xml_search/xml_search.py:102-103 | one more row is appended to its owner's list and to no other |
| XmlSearch.OwnedByOfQuery | ya_xml_search/xml_search.py:101-103 | when owning a row means having its normalised query, a query's list is its normalised query's rows |
| XmlSearch.MapperNormal | ya_xml_search/xml_search.py:101 | `normal_queries_mapper` sends a normalised query to a query that normalises to it |
| XmlSearch.QueryEntry | ya_xml_search/xml_search.py:101-103 | a key of the result is a caller's query, and its list is the rows of its normalised query |
| XmlSearch.QueryKeys | ya_xml_search/xml_search.py:90-103 | a query owns a row collected iff it owns a listed group |
| XmlSearch.GroupedKeys | ya_xml_search/xml_search.py:90-103 | the keys of the result are exactly the queries owning a listed group |
| XmlSearch.GroupedLists | ya_xml_search/xml_search.py:90-103 | each key is a caller's query and its list is its lookup repeated once per chunk holding it |
| XmlSearch.GroupedOnce | ya_xml_search/xml_search.py:90-103 | with distinct normalised queries each list is its query's lookup exactly |
| XmlSearch.IndexOf | ya_xml_search/xml_search.py:154 | the first index of a character |
| XmlSearch.SiteRoundTrip | ya_xml_search/xml_search.py:125-154 | a `site:<domain> q` query splits back to `q` |
| XmlSearch.DomainGroups | ya_xml_search/xml_search.py:106-156 | the site searches are for the queries not found; the result files each returned group of the domain under its caller's query, or raises as the lookup does |
| XmlSearch.SiteStarts | ya_xml_search/xml_search.py:116-143 | the site queries to fetch, each from page 0, and the result queries |
| XmlSearch.FileGroups | ya_xml_search/xml_search.py:150-156 | each group is filed under its caller's query, or raises as the lookup does |
| InitDicts.Find | ya_xml_search/deserializer.py:133 | the value a dictionary holds for a key, or none |
| InitDicts.ValidInitDict | ya_xml_search/deserializer.py:128-134 | keeps exactly the arguments whose key is a field name |
| InitDicts.ValidInitDictDistinct | admitad_manager/api_manager.py:207-213 | the kept arguments form a dictionary again |
| InitDicts.ValidInitDictLookup | admitad_manager/api_manager.py:207-213 | each kept key keeps its value; every other key is absent |
| InitDicts.ValidInitDictIdempotent | ya_xml_search/deserializer.py:133 | filtering twice is filtering once |
| Affiliate.GoogleDevice | advcake_manager/api_manager.py:28-118 | `c`/`m`/`t` → desktop/mobile/tablet, anything else `''` |
| Affiliate.Track | advcake_manager/api_manager.py:114-122 | for Google the device is mapped and a `dsa` criterion cleared; other sources keep their fields |
| Affiliate.GoogleDeviceNames | advcake_manager/api_manager.py:28 | the device is one of the names or empty, and distinct codes give distinct names |
| Affiliate.ReadAllMeaning | advcake_manager/api_manager.py:79-82 | reading a list succeeds iff every item reads, and keeps their order |
| Affiliate.ReadFirstError | advcake_manager/api_manager.py:79-80 | the first unreadable item decides the error |
| AdvCake.StatusOf | advcake_manager/api_manager.py:23-27 | `1`/`2`/`3` → pending/approved/declined; any other code raises `KeyError` |
| AdvCake.Time | advcake_manager/api_manager.py:101 | a time that parses, or `ValueError` |
| AdvCake.Int | advcake_manager/api_manager.py:107-111 | `int()` of the text, or `ValueError` |
| AdvCake.Kopecks | advcake_manager/api_manager.py:109-110 | the amount in kopecks, or `ValueError` |
| AdvCake.ActionFrom | advcake_manager/api_manager.py:94-123 | status mapped; click time `clicked_at` or the action time; closing time iff not pending; program, id, cart and payment read; tracking corrected |
| AdvCake.PositionFrom | advcake_manager/api_manager.py:125-133 | the position has the action's id, the cart as amount and the first tariff of the action's program |
| AdvCake.KnownMeaning | advcake_manager/api_manager.py:130 | an item reads iff it reads and its program is in the store; an unknown program raises `DoesNotExist`, and otherwise the reading is unchanged |
| AdvCake.GatheredKnown | advcake_manager/api_manager.py:57-92 | every action gathered has its program in the store, and its position carries that program's first tariff |
| AdvCake.ReadAllKnown | advcake_manager/api_manager.py:79-82 | every action read from a window has its program in the store |
| AdvCake.PositionsOf | advcake_manager/api_manager.py:82 | exactly one position per action, in order |
| AdvCake.WindowsTile | advcake_manager/api_manager.py:65-88 | each window is 70 days; the first ends yesterday; each next ends the day before the previous start |
| AdvCake.ItemsOf | advcake_manager/api_manager.py:77-79 | no items iff the reply is empty; otherwise all of them |
| AdvCake.LoneItemAsWritten | advcake_manager/api_manager.py:79 | as written, a reply with a single `<item>` raises `TypeError` |
| AdvCake.SeveralItemsAsWritten | advcake_manager/api_manager.py:79 | several items are walked as meant |
| AdvCake.GetStats | advcake_manager/api_manager.py:57-92 | the loop reads the windows up to the first empty one or the first reaching `date_from`, keeps every action read and one position each at the first tariff of its program, and raises on an unreadable item or an unknown program |
| AdvCake.Download | advcake_manager/api_manager.py:71-88 | the same loop for any item reader |
| AdvCake.Round | advcake_manager/api_manager.py:72-88 | one pass of the loop: it stops after an empty window, an unreadable item or an earliest action not after `date_from`, and otherwise goes on to the previous 70 days with the window's actions and positions appended |
| AdvCake.FetchWindow | advcake_manager/api_manager.py:73-82 | one window fetched and read |
| AdvCake.ReadWindow | advcake_manager/api_manager.py:79-82 | the items of a window read in order, one position each |
| AdvCake.GatheredStep | advcake_manager/api_manager.py:79-82 | a window whose items read adds their actions |
| AdvCake.GatheredFails | advcake_manager/api_manager.py:80 | an unreadable item raises its error |
| AdvCake.GatheredEmpty | advcake_manager/api_manager.py:77-78 | an empty window adds nothing |
| Admitad.CheckRates | admitad_manager/api_manager.py:88-92 | the loop finds all rates of a tariff the same size iff they are |
| Admitad.TariffFrom | admitad_manager/api_manager.py:94-106 | name `<action>/<tariff>`; a share for percentages, kopecks otherwise; `IndexError` without rates, `ValueError` for a size that does not parse |
| Admitad.TariffStep | admitad_manager/api_manager.py:88-106 | differing rates raise; otherwise the tariff read |
| Admitad.Pairs | admitad_manager/api_manager.py:86-87 | each tariff of an action with the action's name |
| Admitad.Prune | admitad_manager/api_manager.py:109 | the program's tariffs not among the ids are deleted, others kept |
| Admitad.TariffTable.UpdateRates | admitad_manager/api_manager.py:82-109 | the result and the saved rows are those of the fold over the tariffs; on success the rest of the program's tariffs are deleted |
| Admitad.TariffTable.SaveAction | admitad_manager/api_manager.py:86-108 | the inner loop saves one action's tariffs as the fold does |
| Admitad.SavedErrStays | admitad_manager/api_manager.py:90-91 | once a tariff raises, later tariffs change nothing |
| Admitad.SavedAction | admitad_manager/api_manager.py:88-107 | each tariff of an action is saved, or raises what the whole action raises |
| Admitad.SavedOk | admitad_manager/api_manager.py:88-92 | saving succeeds iff every tariff reads; differing rates after good tariffs raise `DifferentRates` |
| Admitad.SavedRows | admitad_manager/api_manager.py:107 | each saved tariff is its last write; others are kept |
| Admitad.RatesAfterUpdate | admitad_manager/api_manager.py:107-109 | after an update the program's tariffs are exactly the new ids; other programs' rows are kept |
| Admitad.Time | admitad_manager/api_manager.py:161-164 | a time that parses, or `ValueError` |
| Admitad.ActionFrom | admitad_manager/api_manager.py:154-187 | click, action and closing times (closing only when present), status, program, cart, payment, id, website and tracking |
| Admitad.PositionFrom | admitad_manager/api_manager.py:193-203 | the position's id, tariff and action id; `'None'` as amount becomes none |
| Admitad.StatsStart | admitad_manager/api_manager.py:120-122 | `date_from` is the saved date or 2020-01-01 |
| Admitad.KeepItem | admitad_manager/api_manager.py:137-142 | an item is kept iff it reads; its positions only for a known program |
| Admitad.KeepPage | admitad_manager/api_manager.py:137-142 | the loop over one page keeps what `KeepAll` keeps |
| Admitad.KeepAllStops | admitad_manager/api_manager.py:138-142 | an item that raises decides the page's error |
| Admitad.GatheredStep | admitad_manager/api_manager.py:130-143 | a page adds what its items add |
| Admitad.KeptOnlyKnown | admitad_manager/api_manager.py:140-142 | actions of unknown programs add nothing; each kept action has its positions |
| Admitad.GetStats | admitad_manager/api_manager.py:111-145 | pages from offset 0 by 500 up to the first with `count < limit + offset`, up to yesterday |
| Admitad.Download | admitad_manager/api_manager.py:130-145 | the paging loop for any item reader |
| Strings.Lower | direct/models.py:537 | `str.lower` on ASCII, character by character |
| Strings.Contains | advcake_manager/api_manager.py:121 | `sub in s` holds iff `sub` occurs at some index |
| Strings.ParseIntRoundTrip | admitad_manager/api_manager.py:166 | `int(str(i)) == i` |

## Left out

- I/O and remote calls are left out, because they are network: the Direct API client,
  `requests`, `aiohttp`/`asyncio` fan-out and retries, and xmlproxy. They become reply
  parameters or recorded calls.
- Django ORM, `bulk_sync`, `simple_history` and `BulkHistoryManager` are left out; they are
  store machinery. The store is a map of rows with a history; `sync_response` stops at the
  jobs it hands to `bulk_sync`.
- `get_stats` of direct/api_manager.py (166-185) is left out: it fetches the report, deletes
  old rows and bulk-creates; only its parts `parse_direct_report`, `_create_missed_criterions`
  and `_calc_stats_params` are modelled.
- `send_bids`, `get_regions`, `get_campaigns`, `get_ad_groups`, `get_text_ads` and
  `get_keywords` are left out; they are network fetches followed by `sync_response`. The
  load events record them by name.
- `create_text_campaigns` is left out: it indexes a list by `'Id'` and formats a literal
  date.
- `wait_balance`, `wait_low_price`, `is_low_current_cost` and the exceptions of
  ya_xml_search/xml_search.py are left out; they are interactive or network code.
  `CheckResponse` returns which wait is due.
- The `<domain>.*` stop pattern of `_populate_db` is left out, because downloading stops on
  replies that are not modelled.
- Float arithmetic, currency conversion, `round(float(x) * 100)` and `float()` are left out.
  They are parameters, and `/ 10_000` on bids is integer division truncated toward zero.
- `inflection.camelize`/`underscore` are left out as library code. They are modelled by their
  rules on lower-case letters, digits and `_`.
- `tldextract`, IDNA decoding, `xmltodict` and the regex engine are left out as library calls.
  Extraction is a parameter; the regex is read back by a small parser.
- The subid parser is left out as library code. An item carries its parsed tracking fields.
- `normalize_phrase` is left out as library code. It is a parameter.
- `Singleton` is left out; there is one object per model. `__getattr__` becomes the explicit
  `ChangeStatus` method.
- The history records written by the push's own saves are read again by just one thing: the deletion query of direct/api_manager.py:569. Its queryset is evaluated once more at :579, after the earlier steps, and `DirectPush.Back` recomputes `DeletedSet` on the rows at that point. No other step reads them.
- `AdGroup.regions` (a many-to-many link) is not re-pointed by `change_id`, as in the source.
- XmlDeserializer.Deserializer.DeserializeRequest: the row's `get_or_create` and `save` are
  not modelled; the request is returned as a value.
- AdvCake.GetStats: it requires a window (`horizon`) beyond which AdvCake has no items. The
  source's loop ends on an empty window or on an action not after `date_from`
  (advcake_manager/api_manager.py:84-85); only the empty-window stop needs the bound.
- XmlSearch.QueryDomains: rows of one query with equal positions keep the order of the
  stored groups; the database leaves their order open. The order across queries is not
  kept, since a query's list is all the result shows.
- XmlSearch.GroupDomains: the same order of rows with equal positions.
- DirectStore.Store.ChangeId: the moved history records come after the records already under the new
  id, not merged with them by date.
- The operations below are built on the corrected definitions of "## Findings", not on the
  code as written; the as-written members of each row show where the two differ.
- NegativeTexts: reads `NegativeKeywords['Items']` (corrected), where direct/models.py:333
  iterates the object itself.
- DeserializeNested, NestedInto, NegativesOnQueue: the group's negative keywords are the
  corrected `NegativeTexts` reading.
- SyncResponse, SyncInto, SyncWith, FoldReference, SyncJobsMeaning, SyncJobsAtMeaning: the
  negative-keyword jobs come from the corrected reading.
- SplitChanges, SplitUpdated, Classified: the state/other split uses the corrected `Delta`
  (newest record against the one before the first change), not `DeltaAsWritten`.
- SendObjectsOfClass, SendAccountChanges, SendAdsAndKeywords: they split with the corrected
  `Delta`, and text campaigns are updated with the corrected exclusions of
  `TextCampaignModel`, not `TextCampaignAsWritten`.
- Download, Round, GetStats (AdvCake): items are read with the corrected `ItemsOf`, which
  takes a lone `<item>` as a one-item list, not with `ItemsAsWritten`.
- Admitad.GetStats: it requires a last page at a given `horizon`; the source only ends on
  such a page.
- Admitad.PositionFrom: `action_id` is copied from the item's `action_id` field, as written,
  not from the action's id.

## Findings

| source | as written | input that shows it | evidently intended | confidence | as-written member | corrected member |
|---|---|---|---|---|---|---|
| direct/models.py:417-418 | `Keyword.deserialize` divides bids by 10 000 while `Keyword.serialize` sends the stored kopecks | a keyword with `bid = 100` serialized and read back gets `bid = 0` | bids sent in API units (×10 000), as `send_bids` does | not executed; medium | DirectModels.KeywordBidLost | DirectModels.KeywordRoundTrip |
| direct/models.py:333 | `for kw in data['NegativeKeywords']` iterates the object `{"Items": [...]}` | a group with negatives `["a", "b"]` yields one record with text `"Items"` | iterate `data['NegativeKeywords']['Items']` | not executed; high | DirectSync.NegativeTextsAsWrittenReadsKey | DirectSync.NegativeKeywordsRoundTrip |
| direct/models.py:68 | `exclude_serialize_update_fields` is fixed from the base's empty set, so `TextCampaign` updates do not exclude `account_id`/`campaign_ptr_id` | an update of a text campaign with an account sends `AccountId` and `CampaignPtrId` | the update exclusions contain the class's own exclusions | not executed; medium | DirectModels.TextCampaignUpdateAsWritten | DirectModels.TextCampaignUpdateOmitsParent |
| direct/api_manager.py:559 | the oldest record after the synchronisation is diffed against the record before the newest | a campaign renamed at day 5 and suspended at day 6, synced at day 1, gives an empty delta | the newest record against the one before the first change | not executed; medium | DirectPush.DeltaAsWrittenExample | DirectPush.DeltaTwoChanges |
| advcake_manager/api_manager.py:79 | `result['items']['item']` is a dict when there is one item, and iterating it yields its keys | a window with a single `<item>` raises `TypeError` | wrap a lone item in a list | not executed; medium | AdvCake.LoneItemAsWritten | AdvCake.ItemsOf |
