# Bose SoundTouch zone grouping, modelled in Dafny

This project models the core of the Bose SoundTouch integration for Home
Assistant. That core is the engine that groups speakers into zones, plus
the pure logic around it:

- **MAC helpers** (`utils.py`): normalising a MAC (strip, then lower-case),
  the `speaker_in_zone` membership test, and `same_zone_members`, which
  compares two lists through their MAC sets.
- **The reconciler** (the package `__init__.py`). `_async_apply_zone_service`
  turns a create, join or leave request into one of three outcomes: an
  error, a no-op, or exactly one absolute `setZone` call that carries the
  full target member list. For a create, it follows that call with a
  source selection. It then refreshes every distinct coordinator. Its
  helpers are also modelled: `_filter_non_master_members`,
  `_unique_members`, the last-source cache, `_entry_to_zone_member` and
  `_async_refresh`.
- **The client** (`client.py`):
  - source matching and selection, including the fallback `ContentItem`;
  - the readers for volume, now-playing, sources and zone;
  - how the device state is combined, including the `is_master` rule;
  - the `setZone` payload;
  - the client's `_control_ip` field, which the info and zone reads update.
- **The media-player entity** (`media_player.py`):
  - the shared MAC-to-entity lookup;
  - the zone-members cache keyed by the master's MAC, and how it is read back;
  - the zone and group attributes;
  - the play-status classification;
  - source selection.

Files and modules:

| file | module | models |
|---|---|---|
| `wrappers.dfy` | `Wrappers` | `Option`, `Result` |
| `text.dfy` | `Text` | `lower`, `upper`, `strip`, `startswith`, `in` on strings, and the `or` idiom on optional strings |
| `seqs.dfy` | `Seqs` | filtering, order-preserving deduplication, index and map on sequences |
| `client.dfy` | `Client` | `client.py` |
| `utils.dfy` | `Utils` | `utils.py` |
| `store.dfy` | `Store` | the shared `hass.data["bose_soundtouch"]` maps, as a class |
| `zones.dfy` | `Zones` | the package `__init__.py` |
| `media_player.dfy` | `MediaPlayer` | `media_player.py` |

Each loop in the source becomes a method whose `ensures` ties its result to
a specification function. The lemmas then state what that function
promises. Code that updates state in place also keeps its own form:

- the client's fields are fields of `Client.SoundTouchClient`;
- the shared dictionaries are fields of `Store.DomainData`;
- the entity's fields are fields of `MediaPlayer.SoundTouchMediaPlayer`.

Device replies are abstract records (`Reply<T>`: failed, empty or a body).
The device calls that the service makes are returned as a trace of `Call`
values. Whether the device accepts `setZone` and `select` enters as two
boolean parameters.

Where the written contract differs from what one might assume, the model
follows the code:

- `_unique_members` keeps each MAC at the position where it is first seen,
  but holds the value of the last member with that MAC.
  `Zones.UniqueByMacSpec` and `Zones.UniqueByMacKeepsLast` state both facts.
- `_cache_zone_members` writes whenever the master key is non-empty. With
  no members, it writes a single self entry, or an empty list when the
  device id is empty too.
- The service's "master listed among the members" check compares entity
  ids, not MACs.
- A leave's remove-set lower-cases the requested MACs without stripping
  them, while `speaker_in_zone` strips. So `Zones.LeaveShrinks` needs
  stripped MACs, which is how the zone reply and device ids give them.
  With unstripped MACs, a leave can yield a target equal to the current
  list, and the no-change check then turns it into a no-op.

## Model

| member | source | states |
|---|---|---|
| Utils.NormalizeMacShape | custom_components/bose_soundtouch/utils.py:10-11 | the normalised MAC has no upper-case letter and no surrounding whitespace, is never longer than its input, and `None` gives "" |
| Utils.NormalizeMac | custom_components/bose_soundtouch/utils.py:10-11 | `None` normalises to the empty string, and the result is exactly as long as the trimmed input (the lower-casing keeps each position) |
| Utils.NormalizeMacIgnoresCase | custom_components/bose_soundtouch/utils.py:10-11 | upper- or lower-casing the input does not change the normalised MAC |
| Utils.NormalizeMacIgnoresPadding | custom_components/bose_soundtouch/utils.py:10-11 | surrounding whitespace does not change the normalised MAC |
| Utils.NormalizeMacIdempotent | custom_components/bose_soundtouch/utils.py:10-11 | normalising twice is normalising once |
| Utils.NormalizeMacOfLower | custom_components/bose_soundtouch/utils.py:10-11 | two MACs equal up to case normalise to the same string |
| Utils.CandidateMac | custom_components/bose_soundtouch/utils.py:24-30 | the MAC is read from a member object's field, from a dict's `"mac"` key (absent when the key is missing), or from the string itself |
| Utils.SpeakerInZone | custom_components/bose_soundtouch/utils.py:14-33 | the scan with early return answers true iff some member's normalised MAC equals the non-empty normalised probe; an empty probe or a `None` list gives false |
| Utils.InZoneIgnoresCase | custom_components/bose_soundtouch/utils.py:20-33 | membership does not depend on the case of the probe |
| Utils.InZoneIgnoresPadding | custom_components/bose_soundtouch/utils.py:20-33 | membership does not depend on whitespace around the probe |
| Utils.MacInSpec | custom_components/bose_soundtouch/utils.py:20-33 | on member objects, membership holds iff the probe does not normalise to empty and some member's MAC normalises to the same string |
| Utils.BuildSet | custom_components/bose_soundtouch/utils.py:42-47 | the loop collects exactly the normalised MACs of the members whose MAC is non-empty, with `None` read as an empty list |
| Utils.MacSetSnoc | custom_components/bose_soundtouch/utils.py:44-46 | appending a member adds its normalised MAC to the set exactly when its MAC is non-empty |
| Utils.SameZoneMembers | custom_components/bose_soundtouch/utils.py:36-49 | true iff the two lists have equal MAC sets |
| Utils.MacSetCovered | custom_components/bose_soundtouch/utils.py:42-49 | if every non-empty MAC of one list occurs, up to case, in another, its MAC set is contained in the other's |
| Utils.MacSetByMacs | custom_components/bose_soundtouch/utils.py:36-49 | lists naming the same non-empty MACs up to case are the same zone, whatever their order, repetitions and addresses |
| Utils.SameZoneAsNone | custom_components/bose_soundtouch/utils.py:42-49 | a list is the same zone as `None` iff it has no non-empty MAC |
| Utils.MacInIffInMacSet | custom_components/bose_soundtouch/utils.py:20-33 | for a probe that does not normalise to empty, the membership test on member objects agrees with membership in the MAC set |
| Client.SourceMatchesIgnoresCase | custom_components/bose_soundtouch/client.py:43-51 | matching does not depend on the case of the value |
| Client.SourceMatchesEmpty | custom_components/bose_soundtouch/client.py:43-51 | the empty value matches exactly the sources whose account or id is empty, because "" is always among the options |
| Client.SourceMatches | custom_components/bose_soundtouch/client.py:43-51 | the source id always matches itself up to case, and an entry without a name matches only by account or id |
| Client.ItemPayload | custom_components/bose_soundtouch/client.py:167-183 | the posted item copies the source id and the name when non-empty, the account as it is, and the type and location when non-empty; `isPresetable` is `true` for a presetable source and otherwise the raw attribute when the device sent one |
| Client.FallbackPayload | custom_components/bose_soundtouch/client.py:185-198 | the fallback item always has a non-empty, upper-case source: the upper-cased trimmed name before the first colon, or `AUX` when that is empty; it sets nothing but source and account; a non-empty trimmed account after the first colon is the account, and without one only `BLUETOOTH` gets the empty account |
| Client.FallbackNameAndAccount | custom_components/bose_soundtouch/client.py:185-198 | a stripped `name:account`, colon-free name, splits into the upper-cased name as source and the account |
| Client.FallbackBlank | custom_components/bose_soundtouch/client.py:185-198 | a blank name selects `AUX` with no account |
| Client.FallbackWithoutColon | custom_components/bose_soundtouch/client.py:185-198 | without a colon the trimmed text, upper-cased, is the source; only `BLUETOOTH` gets the empty account |
| Client.GetVolume | custom_components/bose_soundtouch/client.py:236-247 | an empty reply is volume 0, not muted, no target; mute holds iff the text is `true` in any case; a target exists iff its element does |
| Client.GetNowPlaying | custom_components/bose_soundtouch/client.py:249-272 | a failed request is an error; an empty reply gives no source, account or status; the status is the first non-empty of `playStatus` and `status`; with a content item the source is the first non-empty of its `source` attribute, its source text and its item name, and the account the first non-empty of its `sourceAccount` attribute and text; without a content item there is no source or account |
| Client.SourceOf | custom_components/bose_soundtouch/client.py:284-299 | the source id is the upper-cased `source`, else `sourceID`; the name is the trimmed text, else `itemName`, else the account, else the `source` attribute, and when that is blank the non-empty account, else the source id; `is_presetable` holds iff the attribute (default `false`) is `true` in any case; type and location are kept only when non-empty, the raw attributes and account as they are |
| Client.SourcesOfSpec | custom_components/bose_soundtouch/client.py:274-301 | every listed source passed the status filter and the list drops only rejected entries |
| Client.SoundTouchClient.GetSources | custom_components/bose_soundtouch/client.py:274-301 | the loop returns the accepted entries in reply order; a failed request is an error and an empty reply gives an empty list |
| Client.ZoneMembersWellFormed | custom_components/bose_soundtouch/client.py:309-315 | every zone member read has a non-empty address and a non-empty, stripped MAC |
| Client.SelfAddressSpec | custom_components/bose_soundtouch/client.py:312-314 | the control address stays as it was when no kept child is the device itself; otherwise it is the address of a self child with no self child after it, so the last one wins |
| Client.LastSelf | custom_components/bose_soundtouch/client.py:309-314 | the position found is a kept child naming the device, up to case, with none after it; no position means no child names the device |
| Client.SoundTouchClient.GetZone | custom_components/bose_soundtouch/client.py:303-316 | the loop keeps the children with address and MAC in order, and the control address afterwards is the one `Client.SelfAddressSpec` describes: from the last child whose MAC is the device id up to case |
| Client.SoundTouchClient.GetInfo | custom_components/bose_soundtouch/client.py:221-234 | a missing payload is an error and changes nothing; otherwise identity, name and type are recorded and a reported address, stripped, becomes the control address |
| Client.CombineState | custom_components/bose_soundtouch/client.py:111-132 | the device leads a zone iff the master MAC is non-empty and equals the device id up to case; an empty master becomes `None` |
| Client.SoundTouchClient.GetState | custom_components/bose_soundtouch/client.py:103-132 | the state exists iff the info query gives a payload and no query fails, and then combines the four replies with the control address; afterwards the identity, name and type are the info values (unchanged without a payload), and the control address is the info address, then the zone self entry, as the two reads leave it |
| Client.SoundTouchClient.SetZone | custom_components/bose_soundtouch/client.py:200-219 | `master` is the device id, the first entry is the device at its control address, then the given members in order; an unidentified device is identified first, which records the info values and address, and a failed identification changes nothing |
| Client.SoundTouchClient.ControlIp | custom_components/bose_soundtouch/client.py:95-97 | the control address is the learnt one or the configured host, the learnt one whenever there is one, and never empty when a host is configured |
| Client.FirstMatch | custom_components/bose_soundtouch/client.py:159-162 | the position found is a match with no match before it; no position means no entry matches |
| Client.SelectedItemSpec | custom_components/bose_soundtouch/client.py:155-165 | the first catalog entry matching the trimmed, lower-cased name is posted; with no match, or a failed catalog fetch, the fallback item is posted |
| Client.SelectedItem | custom_components/bose_soundtouch/client.py:155-165 | the posted item is the fallback, or the payload of a catalog entry that matches the trimmed, lower-cased name; with no catalog it is the fallback |
| Client.SoundTouchClient.SelectSource | custom_components/bose_soundtouch/client.py:155-165 | the loop with early return posts exactly the selection of `Client.SelectedItemSpec` |
| Zones.Traverse | custom_components/bose_soundtouch/__init__.py:126 | a comprehension that may raise succeeds iff every element does, keeps the values in order, and otherwise fails with the first failure |
| Zones.EntryToZoneMember | custom_components/bose_soundtouch/__init__.py:235-241 | a speaker with state and a device id becomes (control address, device id); otherwise the speaker-information error |
| Zones.NonMasterMembers | custom_components/bose_soundtouch/__init__.py:244-254 | the result is the input in its order with some members left out; it holds exactly the members with a non-empty MAC that differs from the master's up to case, each as often as in the input |
| Zones.NonMasterMembersKeepsOthers | custom_components/bose_soundtouch/__init__.py:244-254 | a list with no empty and no master MAC passes whole, in order |
| Zones.FilterNonMasterMembers | custom_components/bose_soundtouch/__init__.py:244-254 | the loop computes the filter, with `None` read as an empty list |
| Zones.LastIndex | custom_components/bose_soundtouch/__init__.py:257-264 | the position of a member with the key and no later member with it |
| Zones.UniqueByMacSpec | custom_components/bose_soundtouch/__init__.py:257-264 | one entry per distinct non-empty lower-cased MAC, in first-seen order, each taken from the input |
| Zones.UniqueByMacKeepsLast | custom_components/bose_soundtouch/__init__.py:257-264 | each entry is the last input member with its MAC (later duplicates replace earlier values) |
| Zones.UniqueByMac | custom_components/bose_soundtouch/__init__.py:257-264 | the result has one entry per distinct non-empty lower-cased MAC, the i-th entry carrying the i-th such MAC in first-seen order |
| Zones.UniqueKeySet | custom_components/bose_soundtouch/__init__.py:257-264 | deduplication keeps exactly the set of non-empty keys |
| Zones.UniqueSameZone | custom_components/bose_soundtouch/__init__.py:257-264 | deduplication does not change the MAC set |
| Zones.UniqueStep | custom_components/bose_soundtouch/__init__.py:258-263 | appending a member extends the keys and makes it the value under its key, other values unchanged |
| Zones.DictKeysStep | custom_components/bose_soundtouch/__init__.py:258-263 | one loop step keeps the dict's keys in insertion order |
| Zones.DictValuesStep | custom_components/bose_soundtouch/__init__.py:258-263 | one loop step keeps each key's value the last member with that key |
| Zones.UniqueMembers | custom_components/bose_soundtouch/__init__.py:257-264 | the dict-filling loop computes the deduplication |
| Zones.JoinAllPresent | custom_components/bose_soundtouch/__init__.py:141-149 | a join returns without change iff every requested speaker is already in the zone |
| Zones.JoinKeySet | custom_components/bose_soundtouch/__init__.py:164-165 | a join's target names every current MAC plus exactly the new ones, a superset of the current zone |
| Zones.LeaveNonePresent | custom_components/bose_soundtouch/__init__.py:150-158 | a leave returns without change iff no requested speaker is in the zone |
| Zones.LeaveOnlyRemoves | custom_components/bose_soundtouch/__init__.py:166-168 | a leave's target is the current list in its original order with members left out: every occurrence of a removed MAC is dropped and every other member is kept as often as it occurs |
| Zones.Target | custom_components/bose_soundtouch/__init__.py:139-168 | there is no target exactly for a join with no new speaker or a leave with no present speaker; a create always has one |
| Zones.LeaveShrinks | custom_components/bose_soundtouch/__init__.py:150-168 | with stripped MACs, a leave that goes through drops at least one member |
| Zones.CreateSameSet | custom_components/bose_soundtouch/__init__.py:162-163 | a create whose request already forms the current MAC set gives a target with that same set |
| Zones.CachedSource | custom_components/bose_soundtouch/__init__.py:203-209 | an empty device id gives nothing; what is returned is non-empty and trimmed |
| Zones.LastSourceRoundTrip | custom_components/bose_soundtouch/__init__.py:203-220 | what is stored is read back trimmed; an ignored store (empty id or blank source) leaves the previous answer |
| Zones.LastSourceIgnoresCase | custom_components/bose_soundtouch/__init__.py:203-209 | the cache is keyed case-insensitively |
| Zones.LastSourceOtherDevice | custom_components/bose_soundtouch/__init__.py:212-220 | storing for one device leaves what another device reads |
| Zones.WithSource | custom_components/bose_soundtouch/__init__.py:212-220 | an empty id or a blank source leaves the cache as it was; no key is lost, and every other device's entry is kept |
| Zones.WithSourceKeepsClean | custom_components/bose_soundtouch/__init__.py:212-220 | every value the setter stores is non-empty and trimmed |
| Zones.SetLastSource | custom_components/bose_soundtouch/__init__.py:212-220 | the shared cache afterwards is the old one with the trimmed source under the lower-cased id, unless the id is empty or the source blank |
| Zones.DesiredSource | custom_components/bose_soundtouch/__init__.py:174-176 | the create source is the cached one, else `AUX`, never empty |
| Zones.Refresh | custom_components/bose_soundtouch/__init__.py:267-277 | one refresh per distinct coordinator, in first-named order, none twice and none missed |
| Zones.DecideAccepts | custom_components/bose_soundtouch/__init__.py:119-160 | a request is rejected iff it fails a check: master among members, unknown entity, no master state, join/leave by a non-leader, speaker without info, unknown mode; create needs no leadership |
| Zones.DecideApplyChanges | custom_components/bose_soundtouch/__init__.py:136-200 | an accepted change is the `Zones.Target` of the parsed mode from the master's zone without the master and the requested speakers, never has the current MAC set, is for the master's device, selects the `Zones.DesiredSource` source iff the mode is create, and refreshes the master and then every requested speaker |
| Zones.Plan | custom_components/bose_soundtouch/__init__.py:136-176 | the plan is no change exactly when there is no target or the target has the current MAC set; a change is for the master's device, refreshes the given entries, and selects a source iff the mode is create, that source being the cached one or AUX; the zone applied is the computed target |
| Zones.Decide | custom_components/bose_soundtouch/__init__.py:119-176 | a master listed among the members is rejected first, an unknown mode is always rejected, and an accepted request has a registered master with state |
| Zones.ComputeTarget | custom_components/bose_soundtouch/__init__.py:139-168 | the mode dispatch computes the target of `Zones.Target`, with the early returns of join and leave |
| Zones.PlanRequest | custom_components/bose_soundtouch/__init__.py:136-176 | filtering, target and no-change check compute the plan |
| Zones.Execute | custom_components/bose_soundtouch/__init__.py:185-200 | no change sends nothing; otherwise one `setZone` with the full target, whose failure ends the request, then for create the source selection, stored only on success, then the refreshes |
| Zones.ApplyZoneService | custom_components/bose_soundtouch/__init__.py:119-200 | a rejected or unchanged request sends nothing and leaves the cache; otherwise the calls and the cache of `Zones.Execute` |
| MediaPlayer.RegistrationKey | custom_components/bose_soundtouch/media_player.py:72-75 | a key exists iff there is a state with a device id and an entity id, and is the lower-cased device id |
| MediaPlayer.RegisteredOverwrites | custom_components/bose_soundtouch/media_player.py:68-75 | registration makes the key name this entity whatever it named before, and leaves every other key alone |
| MediaPlayer.WithDefaultKeeps | custom_components/bose_soundtouch/media_player.py:77-84 | the defaulting read never replaces an entry and otherwise adds this entity as registration would |
| MediaPlayer.DefaultAfterRegistered | custom_components/bose_soundtouch/media_player.py:68-84 | after registering, the defaulting read changes nothing |
| MediaPlayer.SoundTouchMediaPlayer.EnsureMacRegistered | custom_components/bose_soundtouch/media_player.py:68-75 | the shared lookup afterwards is the overwriting registration of the old one; a detached entity leaves it unchanged |
| MediaPlayer.SoundTouchMediaPlayer.MacEntityLookup | custom_components/bose_soundtouch/media_player.py:77-84 | the shared lookup afterwards is the defaulting write of the old one and is returned; a detached entity gets an empty lookup and leaves the shared one unchanged |
| MediaPlayer.MasterKey | custom_components/bose_soundtouch/media_player.py:98 | the master key is empty iff both the zone master MAC and the device id are |
| MediaPlayer.CachedMembers | custom_components/bose_soundtouch/media_player.py:101-113 | with some live member carrying a MAC, the cached list is exactly those members; with none, it is the single self entry (reported address, else control address, and the device id), or empty when the device id is empty too |
| MediaPlayer.SoundTouchMediaPlayer.CacheZoneMembers | custom_components/bose_soundtouch/media_player.py:92-115 | the cache afterwards holds the cached members under a non-empty master key and is otherwise unchanged; a detached entity or one without state leaves it unchanged |
| MediaPlayer.ViewAfterCache | custom_components/bose_soundtouch/media_player.py:92-137 | reading the members right after caching them gives back what was cached |
| MediaPlayer.ViewIgnoresOtherKeys | custom_components/bose_soundtouch/media_player.py:92-137 | caching for a device under another master key leaves what this device reads unchanged |
| MediaPlayer.SlaveReadsMasterCache | custom_components/bose_soundtouch/media_player.py:117-129 | a speaker with no live members reads the list its zone master cached under the shared key |
| MediaPlayer.LiveMembersWin | custom_components/bose_soundtouch/media_player.py:117-125 | live members with a MAC win over the cache and are exactly what is shown |
| MediaPlayer.ZoneMembersView | custom_components/bose_soundtouch/media_player.py:117-137 | the four-step priority: live members with a MAC when there are some; else the entry cached under a non-empty master key when there is one; else the device's own entry when it has a device id; else nothing |
| MediaPlayer.EntitiesSpec | custom_components/bose_soundtouch/media_player.py:139-150 | no entity repeats, and the entities are exactly the non-empty lookups of the members' MACs |
| MediaPlayer.SoundTouchMediaPlayer.MapZoneMembersToEntities | custom_components/bose_soundtouch/media_player.py:139-150 | the loop with a seen set keeps the first occurrence of each entity in member order, skipping members with no entry |
| MediaPlayer.GroupSpec | custom_components/bose_soundtouch/media_player.py:224-226 | the group has no repeats, includes this entity whenever it has one, and otherwise only members' entities |
| MediaPlayer.MasterEntity | custom_components/bose_soundtouch/media_player.py:221-227 | the entity registered under the master key wins when there is one; only when there is none does a zone leader with an entity name itself, and otherwise there is no master entity |
| MediaPlayer.SlavesSpec | custom_components/bose_soundtouch/media_player.py:227-234 | the slaves are the group minus the master entity; the zone master is the master entity, or the zone master MAC when there is none |
| MediaPlayer.ZoneShownSpec | custom_components/bose_soundtouch/media_player.py:228-236 | the zone attribute appears iff there is a master entity or a group entity other than it; the group attribute iff the group is non-empty |
| MediaPlayer.LeaderShowsZone | custom_components/bose_soundtouch/media_player.py:221-236 | a zone leader with an entity always shows both attributes |
| MediaPlayer.AttributesOf | custom_components/bose_soundtouch/media_player.py:207-237 | the device fields and the members read are copied as they are, and a group attribute, when present, is the non-empty group |
| MediaPlayer.SoundTouchMediaPlayer.ExtraStateAttributes | custom_components/bose_soundtouch/media_player.py:207-237 | no state gives no attributes; otherwise the attributes of the read-back members and the defaulted lookup; a detached entity leaves the shared lookup unchanged |
| MediaPlayer.SoundTouchMediaPlayer.ZoneMembers | custom_components/bose_soundtouch/media_player.py:117-137 | the same priority over the shared store: live members first; then, for an attached entity, the store's entry under the master key; when there is no such entry, or the entity is detached, the self entry or nothing |
| MediaPlayer.Classify | custom_components/bose_soundtouch/media_player.py:161-165 | there is no state exactly when the status is missing or empty |
| MediaPlayer.ClassifyIgnoresCase | custom_components/bose_soundtouch/media_player.py:166-175 | the classification does not depend on the case of the status |
| MediaPlayer.ContainsHasChars | custom_components/bose_soundtouch/media_player.py:169-173 | a substring's characters occur in the string |
| MediaPlayer.ClassifyOff | custom_components/bose_soundtouch/media_player.py:166-172 | `standby`, `stop_state` and `inactive`, in any case, are off |
| MediaPlayer.ClassifyPlayFirst | custom_components/bose_soundtouch/media_player.py:167-170 | a status starting with `play` is playing, even when it mentions a pause |
| MediaPlayer.SoundTouchMediaPlayer.State | custom_components/bose_soundtouch/media_player.py:161-175 | no coordinator data gives no state, and with data there is no state exactly when the status is missing or empty |
| MediaPlayer.FirstNamed | custom_components/bose_soundtouch/media_player.py:272-277 | the position found is a name match with none before it; no position means no cached name matches |
| MediaPlayer.DirectHitMatches | custom_components/bose_soundtouch/media_player.py:270-279 | a direct name hit on a stripped name is also a match for the client's own rule |
| MediaPlayer.SoundTouchMediaPlayer.SelectSource | custom_components/bose_soundtouch/media_player.py:270-279 | the first cached source named like the request, ignoring case, is posted directly; otherwise the client's selection |
| MediaPlayer.SoundTouchMediaPlayer.AddedToHass | custom_components/bose_soundtouch/media_player.py:54-61 | the sources are fetched (a failure leaves none), then the MAC is registered and the members cached; a detached entity leaves the shared store unchanged |
| MediaPlayer.SoundTouchMediaPlayer.CoordinatorUpdate | custom_components/bose_soundtouch/media_player.py:63-66 | registration and caching run on the new state, and the members read back are the ones cached; a detached entity leaves the shared store unchanged |

## Left out

- HTTP transport and XML: `_request`, aiohttp, the timeout, and building and parsing the XML. Replies are abstract records, and the `setZone` payload is a record.
- Concurrency: `asyncio.gather` in `async_get_state` and `_async_refresh`. The four queries run one after the other (info, volume, now playing, zone), and the refresh is a sequential list of requests whose outcomes are ignored.
- Home Assistant plumbing: the entity registry is a map from entity id to config-entry id, with an entity lacking a config entry treated as absent. Also left out are service registration and schemas, entry setup and unload, logging, and the entity's `device_info`, `available`, `name`, `source`, `source_list`, volume and power properties and services.
- `config_flow.py`, the top-level `__init__.py` (a superseded earlier copy of the reconciler) and the top-level `coordinator.py` are not part of this model.
- `const.py`: its constants are written inline.
- Float volume conversions (`volume / 100`, `round(volume * 100)` with clamping): floating point.
- `async_remove_zone_member`, `async_identify`, `async_set_volume` and `async_press_key`: these only send requests, and the zone engine never calls them.
- Integer parsing of volume text: the reply record holds integers already, so a malformed number, which raises in the source, is not modelled.
- Case mapping and whitespace cover ASCII only. Python's `lower`, `upper` and `strip` also act on other Unicode characters.
- `speaker_in_zone` on a dict whose `"mac"` value is not a string, and on non-string objects converted with `str()`: members are objects, string-to-string dicts or strings.
- Coordinators are compared by an identity number instead of object identity.
- `Zones.LeaveShrinks`: proved only for stripped MACs, because the leave remove-set does not strip.
- `MediaPlayer.SoundTouchMediaPlayer.ZoneMembers` reads the cache only while there is state data, as its single caller does. Without state the source would fail on the attribute access.
- `MediaPlayer.SoundTouchMediaPlayer.SelectSource`: the refresh requested after the selection is not modelled.
