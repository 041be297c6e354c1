# discord-presence-api: change detection, debounce and fan-out

This project models the part of discord-presence-api that turns guild presence events
into socket updates:

- the snapshot formatter and `deepEqual` of `utils/helpers.js`;
- the change detector of `discord/presenceHandlers.js`, which decides which debounced
  sends an event issues and in which order;
- the debounce map of `websocket/index.js`;
- the user-data cache with its TTL, its read-through on a miss and its periodic sweep;
- the two sends, `sendUserData` and `sendActivityData`;
- the two fan-outs to the `user:<id>` and `activity:<key>` rooms;
- the subscription registry of `websocket/handlers.js`, which holds the two socket maps
  and the rooms;
- the validators and key builders of `websocket/utils.js`;
- the opt-out set of `utils/optOut.js`;
- the `/user/:userId` decision chain and the `/health` memo of `routes/index.js`.

Each file is one module. Values and the decisions made over them are datatypes and
functions:

- `JsValue`: a closed JavaScript value with `deepEqual`.
- `Discord`: the upstream platform's data.
- `Helpers`, `WsUtils`, `PresenceHandlers`, `FanOut`, `Routes`: the formatter, the
  validators, the change detector, the fan-outs and the route.

The state the source mutates is held in classes, each proved against a pure function
of the old state:

- `UserCache.Cache` for `userDataCache`;
- `Debounce.Debouncer` for `updateDebounceMap`;
- `Registry.Registry` for `clientSubscriptions`, `clientUpdateFilters` and the rooms;
- `OptOut.OptOutStore` for the opt-out set;
- `Routes.HealthMemo` for the health closure;
- `Server.Server`, which wires them together.

`Server.World` is the whole state as one value. Each `Server.*Step` function specifies
one handler, and the loops of the emit and schedule methods carry invariants tying them
to those functions.

Time is an explicit `now` argument. A timer firing and a sweep are explicit steps. The
upstream platform is an `Upstream` argument that states what discord.js answers during
one step. What each socket is sent is an `Emission` appended to an output log.

index.js is the entry point that is actually wired up. It carries its own copies of the
socket handlers, the formatter, `deepEqual`, the sends, the emits and the debounce
functions. These copies behave the same as the refactored modules, with one exception:
the prechecks of the two subscribe handlers. The text differs in places that do not
change what is sent. index.js builds its error objects inline where websocket/handlers.js
calls `formatErrorResponse`; both give the same keys in the same order. index.js calls
`console.log` where handlers.js calls the logging helpers. index.js writes
`getActivityTypeName` as a one-line arrow function.
`Registry.Variant` selects between the two copies, `EntryPoint` (index.js) and
`Refactored` (websocket/handlers.js). The lemmas `Registry.SubscribeVariantsAgree` and
`Registry.ActivityCheckOutcome` state exactly how the two copies differ:

- index.js reports a malformed id with the id attached;
- index.js reports a missing activity selector as `INVALID_ACTIVITY_FILTER`, where
  handlers.js reports it as `INVALID_FORMAT`.

The opt-out reply of the slash command (discord/slashHandlers.js:9) promises that the
user's presence and activity will no longer be shared. `emitToSubscribedClients`
(websocket/index.js:161) keeps that promise for user data. Neither `subscribeActivity`
(websocket/handlers.js:84-128, index.js:227-277) nor `emitToActivitySubscribers`
(websocket/index.js:179-191) consults the opt-out set. The second half of this is listed
under "## Findings". The model's activity push carries the guard of
`emitToSubscribedClients`. The direct answer to `subscribeActivity` is modelled as
written.

`deepEqual` walks objects by their own enumerable keys. A discord.js `Date` has none, so
any two Dates compare equal. The change detector therefore compares activities up to the
instants of their timestamps: it sees whether `start` and `end` are set, not their
values. `Discord.Undated` is that view, and an activity restarted with a new start time
is no change (`PresenceHandlers.RestartIsNoChange`).

## Model

| member | source | states |
|---|---|---|
| JsValue.DefaultNull | websocket/index.js:97 | a `= null` default replaces `undefined` by `null` and keeps every other argument |
| JsValue.DeepEqual | utils/helpers.js:12-34 | `deepEqual`: identity on null and undefined, strict equality on primitives, index by index on arrays and key by key on objects; its laws are the lemmas below |
| JsValue.DeepEqualReflexive | utils/helpers.js:12-34 | every value JavaScript can build (distinct keys in each object) is deepEqual to itself |
| JsValue.DeepEqualSymmetric | utils/helpers.js:12-34 | deepEqual(a, b) holds exactly when deepEqual(b, a) does |
| JsValue.NullishOnlyEqualThemselves | utils/helpers.js:13-15 | `null` and `undefined` are deepEqual only to themselves, and not to each other |
| JsValue.ListNeverEqualsRecord | utils/helpers.js:21-26 | an array never equals an object; arrays of different lengths differ |
| JsValue.SwapIsUnequal | utils/helpers.js:28-31 | arrays compare by index, so swapping two unequal elements gives an unequal array |
| JsValue.DeepEqualFieldwise | utils/helpers.js:23-33 | two objects with the same keys in the same order are deepEqual iff their values are pairwise deepEqual |
| JsValue.ZipDeepEqual | utils/helpers.js:23-33 | two object literals with the same distinct keys are deepEqual iff all their values are |
| JsValue.LookupAt | utils/helpers.js:30 | with distinct keys, `obj[key]` finds the value stored beside that key |
| Discord.EncActivityEqual | discord/presenceHandlers.js:24-29 | two activity objects are deepEqual exactly when the activities agree in every field except the instants of their timestamps, whose Dates deepEqual cannot tell apart |
| Discord.EncFoundEqual | discord/presenceHandlers.js:17-22 | two `find` results are deepEqual exactly when both are undefined or both are activities that agree up to their instants |
| Discord.EncActivitiesEqual | discord/presenceHandlers.js:24-29 | two activity arrays are deepEqual exactly when they have the same length and agree position by position up to their instants |
| Discord.EncTimestampsEqual | utils/helpers.js:22-31 | two timestamp objects are deepEqual exactly when they set the same instants, whatever their values: a Date object has no own keys |
| Discord.UndatedKeepsFields | discord/presenceHandlers.js:24-29 | undating keeps every field but the instants of the timestamps |
| Helpers.ActivityTypeName | utils/helpers.js:36-38 | types 0..5 map to the table entry; any other number gives "Unknown" |
| Helpers.MapMemberError | utils/helpers.js:47-52 | code 10013 or status 404 becomes `USER_NOT_FOUND`; any other error is rethrown unchanged |
| Helpers.GetMember | utils/helpers.js:44-53 | a cached member is returned without a fetch |
| Helpers.GetMemberNotFound | utils/helpers.js:44-53 | the caller sees `USER_NOT_FOUND` exactly when the member is uncached and the fetch failed with the unknown-user code or 404 |
| Helpers.GetMemberCacheWins | utils/helpers.js:46 | a cached member never yields an error, whatever the fetch would do |
| Helpers.OrNull | utils/helpers.js:90-97 | `x \|\| null` keeps a non-empty string and turns a missing or empty one into null |
| Helpers.AlbumArt | utils/helpers.js:104-105 | album art exists iff a large image is present, and it starts with the CDN prefix |
| Helpers.FormatUserData | utils/helpers.js:55-113 | id, username, display name and premium date are copied from the user and member |
| Helpers.FormatStatus | utils/helpers.js:61 | status is the presence status when present, otherwise "offline" |
| Helpers.FormatActivities | utils/helpers.js:83-85 | the output activities are the projections of exactly the non-custom input activities, in order, and none has type 4 |
| Helpers.FormatCustomStatus | utils/helpers.js:63-81 | customStatus is built from the first type-4 activity, or is null when there is none |
| Helpers.CustomEmojiAnimatedDefault | utils/helpers.js:77 | an emoji without the animated flag reports `animated: false` |
| Helpers.SpotifyEnrichment | utils/helpers.js:100-106 | Spotify keys are added iff the name is "Spotify" and the type is 2, with artist = state and song = details |
| Helpers.AlbumArtOfSpotifyImage | utils/helpers.js:104-105 | a `spotify:<hash>` image gives the CDN prefix followed by the hash |
| Helpers.EmptyDetailsBecomeNull | utils/helpers.js:90-97 | an empty `details` reads as null in the output |
| Strings.ReplaceOnlyFirst | utils/helpers.js:105 | a string `replace` removes only the first occurrence of the pattern |
| Strings.ReplaceFirst | utils/helpers.js:105 | `String.prototype.replace` with a string pattern; stated by `ReplaceOnlyFirst`, `ReplaceLeadingPattern` and `ReplaceAbsentPattern` |
| Strings.ReplaceLeadingPattern | utils/helpers.js:105 | removing a pattern from the front of a string that starts with it leaves the rest |
| Strings.ReplaceAbsentPattern | utils/helpers.js:105 | a string without the pattern is left as it is |
| Strings.Lower | websocket/utils.js:71 | `toLowerCase` on ASCII letters: the same length, each letter lowered and every other character kept |
| Strings.LowerIdempotent | websocket/utils.js:71 | lower-casing twice is lower-casing once |
| WsUtils.ValidateUserId | websocket/utils.js:1-3 | accepts exactly the strings of 17 to 19 decimal digits |
| WsUtils.ValidId | websocket/utils.js:1-3 | the id test applied to a JavaScript value: only strings of 17 to 19 digits pass; stated by `ValidIdTruthy` |
| WsUtils.ValidIdTruthy | websocket/utils.js:1-3 | a valid id is never falsy |
| WsUtils.ValidateSubscriptionData | websocket/utils.js:5-20 | a string gives `['all']`; an object with a truthy id gives its update types or `['all']`; anything else is unusable; `valid` is the id test |
| WsUtils.ValidateUpdateTypes | websocket/utils.js:22-31 | valid iff every element is in the whitelist; the invalid ones are listed in input order |
| WsUtils.InvalidTypesInOrder | websocket/utils.js:22-31 | the offending list of a concatenation is the concatenation of the offending lists |
| WsUtils.DefaultTypesValid | websocket/utils.js:22-31 | an empty list and `['all']` are valid |
| WsUtils.ValidateActivitySubscription | websocket/utils.js:33-45 | the id is checked before the selector; a request is accepted iff its id is valid and it has a truthy name or a defined type |
| WsUtils.ActivitySelectorEdges | websocket/utils.js:33-45 | `activityType: null` is a selector, an empty name alone is not, and a bad id hides a missing selector |
| WsUtils.NameTakesPrecedence | websocket/utils.js:47-49 | with a truthy name the key does not depend on the type |
| WsUtils.CreateSubscriptionKey | websocket/utils.js:47-49 | `${userId}:${activityName || `type:${activityType}`}`; stated by `NameTakesPrecedence` and the lemmas after it |
| WsUtils.SubscriptionKeyCollisions | websocket/utils.js:47-49 | the name "type:2" shares the key of type 2, and a missing type reads as `null` |
| WsUtils.SubscriptionKeysSeparateUsers | websocket/utils.js:47-49 | subscription keys of two different valid user ids never coincide |
| WsUtils.CacheKeyInjective | websocket/utils.js:59-61 | different users get different cache keys |
| WsUtils.CreateCacheKey | websocket/utils.js:59-61 | `${prefix}:${userId}`; stated by `CacheKeyInjective` |
| WsUtils.IsCacheExpired | websocket/utils.js:63-67 | a missing entry is expired; otherwise it is expired iff strictly older than the TTL |
| WsUtils.ExpiryAgreesWithSweep | websocket/utils.js:63-67 | with the cache TTL, expiry is exactly what the sweep deletes, a read hit is never expired, and the two disagree only at age exactly the TTL |
| WsUtils.FilterActivitiesByName | websocket/utils.js:69-73 | keeps exactly the activities whose lower-cased name matches, as a subsequence in order |
| WsUtils.NameFilterIgnoresCase | websocket/utils.js:69-73 | the name filter gives the same result for a name and its lower-cased form |
| WsUtils.FilterActivitiesByType | websocket/utils.js:75-79 | keeps exactly the activities whose type strictly equals the requested one, in order |
| WsUtils.TypeFilterIsStrict | websocket/utils.js:75-79 | a type given as a string, null or anything but a number selects nothing |
| WsUtils.ShouldUpdateClientCases | websocket/utils.js:92-94 | an `'all'` subscriber gets everything; an untyped update reaches only `'all'` subscribers; a typed one reaches `'all'` or that type |
| WsUtils.ShouldUpdateClient | websocket/utils.js:92-94 | `shouldUpdateClient`; its cases are stated by `ShouldUpdateClientCases` |
| WsUtils.UpdateTag | websocket/utils.js:96-101 | the tag is never empty and is the update type when that is present |
| WsUtils.CreateUserUpdateData | websocket/utils.js:96-101 | the data is passed through and tagged `'all'` iff the type is missing or `'all'` |
| UserCache.Swept | index.js:131-138 | the sweep keeps exactly the entries not older than the TTL, unchanged |
| UserCache.HitSurvivesSweep | index.js:131-138 | an entry the read path would serve is never swept at the same time |
| UserCache.BoundaryAge | index.js:134 | at age exactly the TTL an entry survives the sweep but is no longer a read hit |
| UserCache.SweepIdempotent | index.js:131-138 | sweeping twice at one time is sweeping once |
| UserCache.Cache.constructor | index.js:128 | the cache starts empty |
| UserCache.Cache.Lookup | websocket/index.js:48 | `get` returns the stored entry or nothing |
| UserCache.Cache.Put | websocket/index.js:66-69 | `set` stores the entry under the key and changes nothing else |
| UserCache.Cache.Delete | discord/presenceHandlers.js:6 | `delete` removes the key and changes nothing else |
| UserCache.Cache.Sweep | index.js:131-138 | the loop leaves exactly the swept map |
| Debounce.Scheduled | websocket/index.js:193-205 | scheduling replaces the key's timer by one due `DEBOUNCE_DELAY` later and keeps all other timers |
| Debounce.Fired | websocket/index.js:199-202 | a due timer runs its job and removes its key; one not due does nothing |
| Debounce.ScheduleAllKeys | websocket/index.js:193-219 | after a batch of calls the pending keys are the old keys plus those of the batch |
| Debounce.ScheduleAll | websocket/index.js:193-219 | the timers after a batch of calls at one time; stated by `ScheduleAllKeys`, `ScheduleAllLastWins`, `ScheduleAllArms` and `ScheduleAllKeepsOthers` |
| Debounce.ScheduleAllLastWins | websocket/index.js:193-219 | each key of a batch runs the last job scheduled under it |
| Debounce.ScheduleAllArms | websocket/index.js:193-219 | every key of a batch has a timer due `DEBOUNCE_DELAY` after the batch, running a job of that key |
| Debounce.ScheduleAllKeepsOthers | websocket/index.js:193-219 | keys outside the batch keep their timers |
| Debounce.NullAndAllShareKey | websocket/index.js:194 | a null update type and `'all'` share one key |
| Debounce.UserKeyByTag | websocket/index.js:194 | two user keys of one user meet exactly when their `updateType \|\| 'all'` tags do |
| Debounce.UserAndActivityKeysDisjoint | websocket/index.js:194-208 | a user key of a numeric id never equals an activity key |
| Debounce.RescheduleReplaces | websocket/index.js:195-204 | scheduling a key twice leaves only the second timer |
| Debounce.NotBeforeDelay | websocket/index.js:199-202 | a timer does not fire before `DEBOUNCE_DELAY` has passed |
| Debounce.FiresOnce | websocket/index.js:199-202 | once due, a timer runs its job once and a second firing does nothing |
| Debounce.BurstCoalesces | websocket/index.js:193-205 | a burst of calls under one key leaves one timer, that of the last call |
| Debounce.BurstFiresLastOnly | websocket/index.js:193-219 | after a burst under one key, a firing before the last call's deadline runs nothing and one at or after it runs exactly the last job |
| Debounce.BurstHoldsOff | websocket/index.js:193-219 | with calls less than `DEBOUNCE_DELAY` apart, a firing between two calls runs nothing and leaves the timers unchanged |
| Debounce.Replay | websocket/index.js:193-219 | a trace of calls and firings of one key: the timers afterwards and the jobs run, in order |
| Debounce.TraceHoldsOff | websocket/index.js:193-219 | in a trace whose every firing comes before the latest call's deadline, no firing runs a job and the timers are those the calls alone arm |
| Debounce.TraceRunsLastJob | websocket/index.js:199-202 | after such a trace, a firing at or past the last call's deadline runs exactly the last job and clears the key |
| Debounce.Debouncer.constructor | websocket/index.js:7 | the map starts empty |
| Debounce.Debouncer.Schedule | websocket/index.js:193-219 | the map becomes the scheduled map |
| Debounce.Debouncer.Fire | websocket/index.js:199-202 | returns the job run, if any, and leaves the fired map |
| PresenceHandlers.ChangeJobs | discord/presenceHandlers.js:31-37 | one user-data send per change name, in order |
| PresenceHandlers.ChangeJobsMembership | discord/presenceHandlers.js:31-37 | a send tagged with a change is issued iff the change was detected |
| PresenceHandlers.NameJobs | discord/presenceHandlers.js:50-64 | the name loop issues only name-selected activity sends |
| PresenceHandlers.TypeJobs | discord/presenceHandlers.js:66-78 | the type loop issues only type-selected activity sends |
| PresenceHandlers.PresenceJobs | discord/presenceHandlers.js:2-80 | an event without a new presence, or from another guild, schedules nothing |
| PresenceHandlers.PresenceChanges | discord/presenceHandlers.js:8-29 | the `changes` array; what it detects is stated by `PresenceChangesMeaning` |
| PresenceHandlers.ActivityJobs | discord/presenceHandlers.js:39-79 | the activity sends; their shape and membership are stated by `ActivityJobsShape`, `ActivityNameSends` and `ActivityTypeSends` |
| PresenceHandlers.ProfileJobs | discord/presenceHandlers.js:82-106 | the sends of `userUpdate`; stated by `ProfileSends` |
| PresenceHandlers.PresenceChangesMeaning | discord/presenceHandlers.js:8-29 | status, customStatus and activities are detected exactly when the status, the first custom activity and the non-custom list differ (up to their instants), in that order |
| PresenceHandlers.PresenceParts | discord/presenceHandlers.js:31-79 | a relevant event issues its user-data sends, then its activity sends |
| PresenceHandlers.UsersBeforeActivities | discord/presenceHandlers.js:31-79 | no user-data send comes after an activity send |
| PresenceHandlers.PresenceUserSends | discord/presenceHandlers.js:31-37 | one user-data send per detected change, or one untagged send when nothing changed |
| PresenceHandlers.PresenceChangeSends | discord/presenceHandlers.js:8-37 | each tagged send is issued exactly for the part that changed up to instants; an absent old presence differs from any defined status |
| PresenceHandlers.ActivityJobsShape | discord/presenceHandlers.js:39 | the activity part is empty when the full lists agree up to their instants |
| PresenceHandlers.ActivitySendsNeedDifferentLists | discord/presenceHandlers.js:39 | activity sends are issued only when the full activity lists differ other than in their instants |
| PresenceHandlers.UnchangedPresence | discord/presenceHandlers.js:10-39 | with the same status and activities that agree up to their instants, the only send is one untagged user-data send |
| PresenceHandlers.UndatedSelections | discord/presenceHandlers.js:17-29 | lists that agree up to instants still agree after a `filter` or `find` on name or type |
| PresenceHandlers.RestartIsNoChange | discord/presenceHandlers.js:24-39 | an activity restarted with a new start instant is no change: only the untagged user-data send is issued |
| PresenceHandlers.NameJobsMembership | discord/presenceHandlers.js:50-64 | a name is sent iff it occurs on either side and its first activities differ up to instants |
| PresenceHandlers.TypeJobsMembership | discord/presenceHandlers.js:66-78 | a type is sent iff it occurs on either side and its filtered lists differ up to instants |
| PresenceHandlers.ActivityNameSends | discord/presenceHandlers.js:50-64 | the name sends of the activity part, in terms of the non-custom lists |
| PresenceHandlers.ActivityTypeSends | discord/presenceHandlers.js:66-78 | the type sends of the activity part, in terms of the non-custom lists |
| PresenceHandlers.PresenceNameSends | discord/presenceHandlers.js:50-64 | one send per non-Spotify name whose first non-custom activity differs between old and new, up to instants |
| PresenceHandlers.PresenceTypeSends | discord/presenceHandlers.js:66-78 | one send per type whose non-custom activities of that type differ as a list, up to instants |
| PresenceHandlers.SpotifySendFirst | discord/presenceHandlers.js:43-48 | a Spotify send, when there is one, is the first activity send |
| PresenceHandlers.ReorderIsAChange | discord/presenceHandlers.js:24-29 | swapping two activities that differ other than in their instants counts as an `activities` change |
| PresenceHandlers.ProfileSends | discord/presenceHandlers.js:82-106 | username, avatar and displayName are sent for the fields that differ, in that order, or one `'all'` send if none differ |
| Registry.Joined | websocket/handlers.js:62 | joining adds the socket to one room, without duplicates, and changes no other room |
| Registry.Left | websocket/handlers.js:133 | leaving removes the socket from one room and changes no other room |
| Registry.LeftAll | websocket/handlers.js:140-153 | on disconnect the socket is in no room and other sockets are untouched |
| Registry.JoinKeepsRoomsDistinct | websocket/handlers.js:62 | joining keeps every room free of duplicates |
| Registry.LeaveKeepsRoomsDistinct | websocket/handlers.js:133 | leaving keeps every room free of duplicates |
| Registry.WithUserConsistent | websocket/handlers.js:60-62 | a subscribe commit keeps both maps on the same sockets |
| Registry.WithUser | websocket/handlers.js:60-62 | the subscribe commit; stated by `WithUserConsistent` and `SubscribeOverwrites` |
| Registry.WithActivityConsistent | websocket/handlers.js:100-108 | an activity commit keeps both maps on the same sockets |
| Registry.WithActivity | websocket/handlers.js:100-108 | the activity commit: the key stored as the subscription, the selector as the filter, the key's room joined; stated by `WithActivityConsistent` |
| Registry.UnsubscribedConsistent | websocket/handlers.js:133-135 | unsubscribe keeps both maps on the same sockets |
| Registry.Unsubscribed | websocket/handlers.js:130-138 | the table after `unsubscribe`; stated by `UnsubscribedConsistent`, `UnsubscribeIdempotent` and `UnsubscribeForgets` |
| Registry.DisconnectedConsistent | websocket/handlers.js:148-149 | disconnect keeps both maps on the same sockets |
| Registry.Disconnected | websocket/handlers.js:140-153 | the table after `disconnect`; stated by `DisconnectedConsistent` and `DisconnectForgets` |
| Registry.SubscribeOverwrites | websocket/handlers.js:57-65 | a subscribe overwrites both entries and joins `user:<id>` without leaving any earlier room |
| Registry.UnsubscribeIdempotent | websocket/handlers.js:130-138 | a second unsubscribe changes nothing |
| Registry.UnsubscribeForgets | websocket/handlers.js:130-138 | after unsubscribe the socket has no entries and is out of its user's room |
| Registry.UnsubscribeKeepsActivityRoom | websocket/handlers.js:130-138 | after an activity subscription, unsubscribe leaves the socket in its activity room |
| Registry.ResubscribeKeepsOldRoom | websocket/handlers.js:57-65 | subscribing to a second user keeps the socket in the first user's room |
| Registry.DisconnectForgets | websocket/handlers.js:140-153 | after disconnect the socket is in no map and no room, and other sockets keep their entries |
| Registry.SubscribePrecheck | websocket/handlers.js:24-54 | an accepted subscription has a valid id and valid update types |
| Registry.SubscribeCheckOrder | websocket/handlers.js:24-54 | format, then opt-out, then update types: each error is reported exactly when the earlier checks pass |
| Registry.FormatError | websocket/handlers.js:27-32 | the `INVALID_FORMAT` refusal; when it is sent is stated by `SubscribeCheckOrder` |
| Registry.SubscribeVariantsAgree | index.js:170-177 | the two copies accept the same requests and differ only in how a malformed id is reported |
| Registry.LookupError | websocket/handlers.js:66-81 | an upstream failure is `USER_NOT_FOUND` iff its message says so, otherwise `VALIDATION_ERROR`, with the id attached |
| Registry.ActivityPrecheck | websocket/handlers.js:85-94 | an accepted request is passed on unchanged |
| Registry.ActivityCheckOutcome | index.js:239-245 | both copies accept exactly a valid id with a selector; the missing selector is `INVALID_ACTIVITY_FILTER` in index.js and `INVALID_FORMAT` in handlers.js |
| Registry.EntryActivityKeyAgrees | index.js:248 | the inline key of index.js equals `createSubscriptionKey` on every accepted request |
| Registry.Registry.constructor | websocket/index.js:5-6 | the registry starts empty and consistent |
| Registry.Registry.JoinRoom | websocket/handlers.js:62 | the rooms become the joined rooms; the maps are unchanged |
| Registry.Registry.CommitUser | websocket/handlers.js:60-62 | the state becomes the subscribe commit and stays consistent |
| Registry.Registry.CommitActivity | websocket/handlers.js:99-108 | the state becomes the activity commit and stays consistent |
| Registry.Registry.Unsubscribe | websocket/handlers.js:130-138 | the state becomes the unsubscribed table and stays consistent |
| Registry.Registry.Disconnect | websocket/handlers.js:140-153 | the state becomes the disconnected table and stays consistent |
| FanOut.Recipients | websocket/index.js:164-168 | the members that want an update, as a subsequence of the room |
| FanOut.UserFanOut | websocket/index.js:160-177 | every push carries the tagged record and goes to a member that wants it |
| FanOut.UserFanOutRecipients | websocket/index.js:160-177 | pushes go to exactly the members that want the update, once each, in room order |
| FanOut.AllSubscriberGetsUntaggedPush | websocket/index.js:168-172 | an `'all'` subscriber receives an untyped update tagged `'all'` |
| FanOut.FirstRecord | websocket/index.js:168 | the position of the first member whose filter is an activity record |
| FanOut.AsWrittenStopsAtFirstRecord | websocket/index.js:168 | as written, the loop delivers like the corrected one up to the first activity-filter member and then throws |
| FanOut.UserFanOutAsWritten | websocket/index.js:162-175 | the `forEach` as written, including the TypeError at the first activity-filter member; stated by `AsWrittenStopsAtFirstRecord` and `AsWrittenAgreesWithoutRecords` |
| FanOut.AsWrittenAgreesWithoutRecords | websocket/index.js:168 | without activity filters in the room, the loop as written and the corrected one agree |
| FanOut.RecordFilterHidesLaterSubscribers | websocket/index.js:168 | a reachable room where the loop as written sends nothing and the corrected one reaches the later subscriber |
| FanOut.ActivityFanOut | websocket/index.js:179-191 | every member of the activity room gets the record, with no filter |
| FanOut.PushesMeetSubscriptions | websocket/index.js:180-181 | the name push and the type push reach the rooms that name and type subscriptions join |
| FanOut.PushRoom | websocket/index.js:180-181 | the room a push targets, built by `createSubscriptionKey`; stated by `PushesMeetSubscriptions` and `PushRoomIsCaseSensitive` |
| FanOut.PushRoomIsCaseSensitive | websocket/index.js:180 | a subscription to "spotify" never meets the push for "Spotify" |
| OptOut.Loaded | utils/optOut.js:3 | the loaded set holds exactly the listed ids, or is empty when there is no list |
| OptOut.OptOutMembership | utils/optOut.js:5-17 | after opt-out the id is opted out, after opt-in it is not, and no other id changes |
| OptOut.OptOutIdempotent | utils/optOut.js:9-17 | repeating either operation changes nothing; opt-in undoes an opt-out of an absent id |
| OptOut.OptOutStore.constructor | utils/optOut.js:3 | the set is the loaded one and is what is persisted |
| OptOut.OptOutStore.OptOutUser | utils/optOut.js:9-12 | the set gains the id and the whole set is persisted |
| OptOut.OptOutStore.OptInUser | utils/optOut.js:14-17 | the set loses the id and the whole set is persisted |
| OptOut.OptOutStore.Refresh | utils/optOut.js:19-21 | the set is replaced by the loaded one and nothing is written |
| Routes.Gate | routes/index.js:73-92 | the request passes the gates iff the id is valid, the user has not opted out and the bot is ready |
| Routes.GateOrder | routes/index.js:73-92 | 400 first, then 403, then 503 |
| Routes.FailureResponse | routes/index.js:117-131 | 404 iff the error is `USER_NOT_FOUND`, otherwise 500 with the error's message |
| Routes.GetUserOutcomes | routes/index.js:70-132 | a refusal writes nothing; a hit serves the cache; a miss stores the fetched data stamped with the request time; a failure writes nothing |
| Routes.GetUser | routes/index.js:70-132 | the `/user/:userId` decision chain; stated by `Gate`, `GateOrder`, `FailureResponse`, `GetUserOutcomes` and `HitIgnoresUpstream` |
| Routes.HitIgnoresUpstream | routes/index.js:95-101 | a hit does not depend on the upstream |
| Routes.Health | routes/index.js:139-164 | a fresh memo is served unchanged; otherwise the computed data is served and memoised with the time |
| Routes.HealthMemoWindow | routes/index.js:134-166 | within 30 s of a recomputation the memo is served; from 30 s on a new object is computed |
| Routes.HealthMemo.constructor | routes/index.js:135-136 | the memo starts empty with timestamp 0 |
| Routes.HealthMemo.Serve | routes/index.js:139-164 | serves and stores what `Health` prescribes |
| Server.GuildLookup | index.js:307-315 | the memo first, then the client's guild, then a fetch; a found guild is memoised; failure only when all three fail |
| Server.GuildMemoised | index.js:307-315 | after one success later lookups return the same guild without the upstream |
| Server.LookupRepeats | index.js:317-326 | a member lookup that succeeded succeeds again with the same member |
| Server.SendError | websocket/index.js:76-94 | an unknown member is `USER_NOT_FOUND`, anything else `FETCH_ERROR` with the send's message |
| Server.Failed | websocket/index.js:76-94 | errors go to the requesting socket only; without one nothing is sent |
| Server.Selected | websocket/index.js:114-123 | a truthy string name selects by name ignoring case, a falsy name by strict type equality; a truthy non-string name throws exactly when there is an activity to test, and selects nothing otherwise |
| Server.SendsTouchLittle | websocket/index.js:44-158 | the sends change only the cache (the user send only), the guild memo and the output log |
| Server.SendUserCaching | websocket/index.js:44-69 | a hit is served without the upstream and leaves the cache; a miss stores the fetched data stamped with `now` |
| Server.OptedOutNeverPushed | websocket/index.js:161 | an opted-out user's data is never pushed |
| Server.Pushed | websocket/index.js:160-177 | `emitToSubscribedClients`: nothing for an opted-out user, otherwise the user-room fan-out; stated by `OptedOutNeverPushed` |
| Server.FailedPushIsSilent | websocket/index.js:76-94 | a failed send without a socket emits nothing |
| Server.ActivityPushIgnoresOptOut | websocket/index.js:179-191 | as written, the push reaches every member of the room even when the user has opted out; the guarded push sends that user nothing |
| Server.ActivityPushedAsWritten | websocket/index.js:179-191 | `emitToActivitySubscribers` as written: one record per member of the selector's room, with no opt-out check |
| Server.ActivityPushed | websocket/index.js:160-161 | the activity push with the opt-out guard that opens `emitToSubscribedClients` |
| Server.ActivityPushGuard | websocket/index.js:160-161 | the guarded push sends nothing for an opted-out user and is the push as written for everyone else |
| Server.OptedOutActivityNeverPushed | discord/slashHandlers.js:9 | an opted-out user's activity is never pushed, whatever the cache and the upstream hold |
| Server.ActivityAnswerIgnoresOptOut | websocket/handlers.js:84-128 | the direct answer of the activity path does not depend on the opt-out set |
| Server.DirectActivitySendCarriesSelection | websocket/index.js:114-136 | a direct activity send from the cache emits one `activityUpdate` to the requesting socket, for the requested user and status, carrying the by-name selection for a non-empty name and the by-type selection for a falsy one |
| Server.DirectSendsAnswerOnce | websocket/index.js:44-158 | a send with a socket answers that socket with exactly one event |
| Server.SubscribeAnswersOnce | websocket/handlers.js:24-82 | subscribe answers the requesting socket with one event; a refusal leaves the registry and the cache |
| Server.OptedOutSubscribeRefused | websocket/handlers.js:37-44 | subscribing to an opted-out user is answered `USER_OPTED_OUT` and joins no room |
| Server.SubscribeDelivers | websocket/handlers.js:56-65 | a subscribe that passes and finds the member commits and sends the data |
| Server.SubscribeActivityAnswersOnce | websocket/handlers.js:84-128 | subscribeActivity answers the requesting socket with one event; a refusal changes nothing else |
| Server.PresenceUpdateOnlySchedules | discord/presenceHandlers.js:2-80 | an event sends nothing by itself; it drops the cache entry and arms the timers of its sends |
| Server.DebounceHoldsOffSends | websocket/index.js:193-219 | within `DEBOUNCE_DELAY` of an event none of its timers fires |
| Server.DebouncedSendRuns | websocket/index.js:193-219 | from `DEBOUNCE_DELAY` on, each armed key runs a send of that key |
| Server.SubscribeKeepsTableConsistent | websocket/handlers.js:24-82 | subscribe keeps both maps on the same sockets |
| Server.SubscribeActivityKeepsTableConsistent | websocket/handlers.js:84-128 | subscribeActivity keeps both maps on the same sockets |
| Server.OtherHandlersKeepTableConsistent | websocket/handlers.js:130-153 | every other handler keeps both maps on the same sockets |
| Server.PullThenPushShareCache | routes/index.js:95-115 | after the route fetched a user, a send within the TTL is served from that entry |
| Server.SendUserStep | websocket/index.js:44-95 | `sendUserData` on the whole state; stated by `SendsTouchLittle`, `SendUserCaching`, `OptedOutNeverPushed`, `FailedPushIsSilent` and `DirectSendsAnswerOnce` |
| Server.SendActivityStep | websocket/index.js:97-158 | `sendActivityData` on the whole state; stated by `SendsTouchLittle`, `OptedOutActivityNeverPushed`, `DirectActivitySendCarriesSelection` and `DirectSendsAnswerOnce` |
| Server.SubscribeStep | websocket/handlers.js:24-82 | the `subscribe` handler; stated by `SubscribeAnswersOnce`, `OptedOutSubscribeRefused`, `SubscribeDelivers` and `SubscribeKeepsTableConsistent` |
| Server.SubscribeActivityStep | websocket/handlers.js:84-128 | the `subscribeActivity` handler; stated by `SubscribeActivityAnswersOnce` and `SubscribeActivityKeepsTableConsistent` |
| Server.UnsubscribeStep | websocket/handlers.js:130-138 | the `unsubscribe` handler; stated by `OtherHandlersKeepTableConsistent` and the registry lemmas of `Unsubscribed` |
| Server.DisconnectStep | websocket/handlers.js:140-153 | the `disconnect` handler; stated by `OtherHandlersKeepTableConsistent` and the registry lemmas of `Disconnected` |
| Server.PresenceUpdateStep | discord/presenceHandlers.js:2-80 | the `presenceUpdate` handler; stated by `PresenceUpdateOnlySchedules`, `DebounceHoldsOffSends` and `DebouncedSendRuns` |
| Server.UserUpdateStep | discord/presenceHandlers.js:82-107 | the `userUpdate` handler; its sends are stated by `PresenceHandlers.ProfileSends` |
| Server.TimerStep | websocket/index.js:199-202 | a timer callback: the due job runs and its key is removed; stated by `DebouncedSendRuns` |
| Server.SweepStep | index.js:131-138 | the cache sweep; stated by `UserCache.HitSurvivesSweep` and `UserCache.SweepIdempotent` |
| Server.GetUserStep | routes/index.js:70-132 | the `/user/:userId` route on the whole state; stated by `PullThenPushShareCache` and `Routes.GetUserOutcomes` |
| Server.Server.constructor | index.js:124-129 | empty maps, no guild, the loaded opt-out set |
| Server.Server.GetGuild | index.js:307-315 | result and memo are those of `GuildLookup` |
| Server.Server.GetMemberOf | index.js:317-326 | result and memo are those of `LookupMember` |
| Server.Server.EmitToSubscribedClients | websocket/index.js:160-177 | the loop appends exactly the pushes of the room |
| Server.Server.EmitToActivitySubscribers | websocket/index.js:179-191 | nothing for an opted-out user; otherwise the loop appends one record per room member, which is `ActivityPushed` |
| Server.Server.DeliverUser | websocket/index.js:51-55 | the bare record to the socket, or a push |
| Server.Server.Fail | websocket/index.js:76-94 | appends the error for the socket, if any |
| Server.Server.SendUserData | websocket/index.js:44-95 | the state after the send is `SendUserStep` of the old state |
| Server.Server.SendActivityData | websocket/index.js:97-158 | the state after the send is `SendActivityStep` of the old state |
| Server.Server.OnSubscribe | index.js:153-225 | the state after `subscribe` is `SubscribeStep`, and the registry stays consistent |
| Server.Server.OnSubscribeActivity | index.js:227-277 | the state after `subscribeActivity` is `SubscribeActivityStep`, and the registry stays consistent |
| Server.Server.OnUnsubscribe | index.js:279-287 | the state after `unsubscribe` is `UnsubscribeStep` |
| Server.Server.OnDisconnect | index.js:289-304 | the state after `disconnect` is `DisconnectStep` |
| Server.Server.ScheduleJobs | websocket/index.js:193-219 | the timer map after the loop is the batch scheduled in order |
| Server.Server.OnPresenceUpdate | discord/presenceHandlers.js:2-80 | the state after the event is `PresenceUpdateStep` |
| Server.Server.OnUserUpdate | discord/presenceHandlers.js:82-107 | the state after the event is `UserUpdateStep` |
| Server.Server.OnTimer | websocket/index.js:199-202 | the state after the callback is `TimerStep` |
| Server.Server.OnSweep | index.js:131-138 | the state after the sweep is `SweepStep` |
| Server.Server.GetUserRoute | routes/index.js:70-132 | the response and the state after the request are `GetUserStep` of the old state |

## Left out

- File I/O for the opt-out list (utils/fileSystem.js, the JSON load and save in utils/optOut.js and index.js:8-26) is abstracted away. The list is read by the caller, and `persisted` stands for the file's contents.
- Real timers, `Date.now`, `setTimeout` and `setInterval` are not modelled. The time is a `now` argument, and a timer firing and a sweep are explicit steps. `createActivityData` reads the clock a second time; the model gives that read the same `now`.
- Async interleaving at `await` points is not modelled, because each handler is one atomic step. The send that `subscribe` starts without awaiting it runs at once, inside the same step.
- The discord.js client is an `Upstream` argument per step, and `displayAvatarURL` and `flags.toArray` are its answers. The client's readiness on the route is a `ready` argument.
- Socket.io is reduced to rooms, which are ordered lists of socket ids, and an output log of emissions. Every socket in a room is taken to be connected, and a disconnect removes the socket from every room. The transport's connection check is not modelled.
- Express plumbing, CORS, compression, rate limiting and the 404/500 middleware are not modelled.
- The health payload's contents are an input to the model, because its figures are process and runtime data. Only the 30-second memo is modelled.
- Logging, signal handling, graceful shutdown and the unhandled-rejection handler are not modelled.
- discord/commands.js, discord/clientEvents.js, discord/slashHandlers.js, discord/index.js and utils/index.js are not part of this model. They register commands, log events, dispatch interactions and re-export modules.
- `toLowerCase` is modelled on ASCII letters only.
- The model does not coerce non-string user ids. `ValidId` accepts only strings, and numbers and other values are rejected as malformed.
- A truthy `updateTypes` that is not an array is not modelled, nor is the TypeError that `validateSubscriptionData` throws on null data.
- The path where the payload of `subscribeActivity` cannot be destructured is not modelled. Neither is that handler's `catch`, which nothing in its `try` can reach.
- `NaN` and non-integer numbers are not modelled.
- EncActivityEqual, EncFoundEqual, EncActivitiesEqual: the activity is modelled with ten fields: name, type, url, details, state, applicationId, timestamps, assets (large text and image), emoji and createdTimestamp. The discord.js activity also carries `party`, `syncId`, `flags`, `buttons` and the small asset fields, which `deepEqual` compares too. A change in those fields alone is therefore not a change in the model. The discord.js classes are not part of this model.
- Server.Pushed / Server.Server.EmitToSubscribedClients: compose the corrected fan-out `FanOut.UserFanOut` of the first Findings row, not the loop as written, which stops at the first member with an activity filter. `FanOut.UserFanOutAsWritten` models the loop as written.
- Server.SendActivityStep / Server.Server.EmitToActivitySubscribers: push through the corrected `Server.ActivityPushed` of the second Findings row. That push sends nothing for an opted-out user, where the code as written pushes anyway (`Server.ActivityPushedAsWritten`).
- Registry.Registry.CommitUser requires a non-empty user id. Every caller has passed the id regex first, so this holds.

## Findings

| source | as written | input that shows it | evidently intended | confidence | as-written member | corrected member |
|---|---|---|---|---|---|---|
| websocket/index.js:168 (same line in index.js:396) | `updateFilters.includes(...)` is called on every room member's filter. For a socket that later subscribed to an activity, that filter is the `{ type: 'activity', ... }` record, so the call throws a TypeError. The throw leaves the `forEach`, and the members after that socket in the room get nothing. | Socket `a` subscribes to user `u`, then to `u`'s "Spotify" activity, and stays in `user:u`. Socket `b` then subscribes to `u` with `['all']`. The next push to `user:u` reaches nobody, although `b` wants it. | Members whose filter is not a list of update types are skipped, and every other member that wants the update receives it. | not executed | FanOut.UserFanOutAsWritten (exhibited by FanOut.RecordFilterHidesLaterSubscribers and FanOut.AsWrittenStopsAtFirstRecord) | FanOut.UserFanOut (FanOut.UserFanOutRecipients) |
| websocket/index.js:179-191 (same code in index.js:470-482) | `emitToActivitySubscribers` sends the activity record to every member of the room. It never calls `isOptedOut`, although `emitToSubscribedClients` opens with that check (websocket/index.js:161). | User `u` runs the opt-out command and is told their activity will no longer be shared (discord/slashHandlers.js:9). A socket that subscribed to `u`'s "Spotify" activity beforehand stays in `activity:u:Spotify`, and the next Spotify change of `u` is still pushed to it. | The push is skipped for an opted-out user, as the user-data push is. | not executed | Server.ActivityPushedAsWritten (exhibited by Server.ActivityPushIgnoresOptOut) | Server.ActivityPushed (Server.ActivityPushGuard, Server.OptedOutActivityNeverPushed) |
