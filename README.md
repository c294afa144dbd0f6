# Family hand-washing tracker: a Dafny model of the backend handlers

The system is a small web app that lets the members of a family record and
remind each other of hand-washing. Its backend is a set of AWS Lambda
handlers behind an HTTP API, over one DynamoDB table with a single-table
layout:

- `FAMILY#id / META` holds a family's name and invite hash.
- `INVITE#hash / META` maps an invite code's SHA-256 to its family.
- `USER#sub / FAMILY#id` is a membership. It is mirrored into GSI1 as `FAMILY#id / MEMBER#sub`.
- `USER#sub / PROFILE` holds a display name.
- `USER#sub / PUSH#hash` is a Web Push subscription. It is mirrored into GSI1 under its family.
- `FAMILY#id / EVENT#<pad13(ms)>#<uuid>` is a hand-washing event.

The model covers:

- every HTTP handler in `infra/lambda` and the shared helpers they use (`json`, `getSub`, `assertFamilyMember`);
- the scheduled reminder job;
- two helpers of the web client: `escapeHtml` and `getModeLabel`.

How the model is built:

- The table is a `map<Key, Item>`. The DocumentClient is the class `Db.Store`, whose `table` field its commands update in place.
- Each mutating handler has a pure specification function, such as `CreateFamily.Create`, that maps a table and a request to a response and a new table.
- Each handler is also a `method Handler` over a `Store`. Its `ensures` ties the response and the new table to that function.
- The properties the app relies on are lemmas about the functions. Examples: the invite round trip, the owner-only rules, what a cascade deletes, chronological listing, and which subscriptions the reminder skips.
- Things the handlers take from the outside world are parameters: clocks, `randomUUID`, random bytes, SHA-256, Web Push delivery results, and the pages a Scan returns.

Modules, one per source file:

- `Wrappers`, `Text` and `Keys` hold strings, `trim`, `toUpperCase`, UTF-16 length, `pad13` and the key tags.
- `Db` holds the table, the query, scan and GSI semantics, and the `Store` class.
- `Shared` and `Authz` hold the shared helpers and the membership check.
- Then there is one module per handler, `WebPush` for delivery results, `MyPage` for the client helpers, and `Scenarios` for properties that chain several handlers.

## Model

| member | source | states |
|---|---|---|
| Shared.Json | infra/lambda/_shared.ts:3-9 | The response has exactly the given status and body, and a single `content-type: application/json` header. |
| Shared.GetSub | infra/lambda/_shared.ts:11-15 | Succeeds exactly when the `sub` claim is a non-empty string and returns it; otherwise the "Missing JWT sub" error. |
| Shared.Caught | infra/lambda/create-handwash-event.ts:55-58 | A FORBIDDEN error becomes 403 "not a family member"; any other error becomes 500 with its own message. |
| Authz.AssertFamilyMember | infra/lambda/authz.ts:4-17 | Admits the caller exactly when `USER#sub / FAMILY#familyId` exists; otherwise the error whose code is FORBIDDEN. |
| Authz.OnlyOwnMembershipMatters | infra/lambda/authz.ts:4-17 | Two tables that agree on the caller's membership key give the same answer: no other item influences the check. |
| Authz.AnyRoleAdmits | infra/lambda/authz.ts:8-16 | Any item at the membership key admits the caller, whatever its role. |
| Text.TrimPadded | infra/lambda/join-family.ts:14-15 | `trim` removes exactly the JavaScript whitespace around a value whose ends are not whitespace. |
| Text.TrimEmptyIff | infra/lambda/create-family.ts:22-23 | A trimmed field is empty exactly when the input is all whitespace, which is when the "is required" 400 is sent. |
| Text.ToUpperAscii | infra/lambda/join-family.ts:14-15 | Same length, and each character is upper-cased when it is an ASCII lower-case letter and kept otherwise. |
| Text.TruncateUtf16 | infra/lambda/create-handwash-event.ts:25 | The result is a prefix of the note, at most the limit in UTF-16 units, and as long as possible without splitting a code point. |
| Text.LexBetweenKeepsPrefix | infra/lambda/list-handwash-events.ts:30-32 | A key that sorts between two bounds sharing a head shares that head too, so a BETWEEN on `EVENT#` bounds only selects `EVENT#` keys. |
| Keys.DecimalValue | infra/lambda/create-handwash-event.ts:8-12 | `String(n)` of a natural number denotes that number. |
| Keys.LexOrderIsNumericOrder | infra/lambda/create-handwash-event.ts:8-12 | For digit strings of one length, string order and numeric order agree. |
| Keys.Pad13Shape | infra/lambda/create-handwash-event.ts:8-12 | Below 10^13, `pad13` yields exactly 13 digits denoting the input clamped at zero. |
| Keys.Pad13Negative | infra/lambda/list-handwash-events.ts:7-10 | A negative input pads to thirteen zeros. |
| Keys.Pad13Order | infra/lambda/create-handwash-event.ts:8-12 | For timestamps in [0, 10^13), padded strings compare as the numbers do. |
| Keys.EventKeyInRange | infra/lambda/list-handwash-events.ts:30-32 | An event sort key lies between the `from` and `to` bounds exactly when its timestamp lies in the clamped window. |
| Keys.WindowBoundsOrdered | infra/lambda/list-handwash-events.ts:30-32 | The lower bound key sorts no later than the upper bound key exactly when the clamped `from` is not later than the clamped `to`. |
| Keys.EventTagChronological | infra/lambda/create-handwash-event.ts:31 | An earlier event's sort key sorts before a later one's, whatever the event ids. |
| Keys.EventTagSeparatesIds | infra/lambda/create-handwash-event.ts:31 | Events with different ids never share a sort key. |
| Keys.EventOrderIsTimeOrder | infra/lambda/create-handwash-event.ts:31 | The order of two event sort keys agrees with the order of their timestamps in both directions. |
| Db.QueryResult | infra/lambda/list-handwash-events.ts:34-46 | A query with Limit and ScanIndexForward returns distinct matching keys, at most `limit`, all of them when they fit, and sorted. The keys left out all sort after the ones returned. |
| Db.PointQuery | infra/lambda/leave-family.ts:16-28 | A query on one partition with an exact sort key returns that key when the table holds it and nothing otherwise. |
| Db.TakeAscending | infra/lambda/list-handwash-events.ts:34-46 | The first keys of an ascending listing stay ascending and none sorts after a key left out. |
| Db.TakeDescending | infra/lambda/list-handwash-events.ts:34-46 | The first keys of a descending listing stay descending and none sorts before a key left out. |
| Db.Store.Get | infra/lambda/join-family.ts:20-26 | GetCommand finds an item exactly when the key is present, and returns that item. |
| Db.Store.Put | infra/lambda/create-handwash-event.ts:33-49 | An unconditional PutCommand creates or replaces the item at the key and changes nothing else. |
| Db.Store.PutIfAbsent | infra/lambda/join-family.ts:30-49 | A PutCommand with `attribute_not_exists(pk)` writes exactly when the key is absent, and changes nothing otherwise. |
| Db.Store.Delete | infra/lambda/leave-family.ts:36-42 | DeleteCommand removes the key and nothing else; deleting an absent key changes nothing. |
| Db.Store.Query | infra/lambda/leave-family.ts:16-28 | QueryCommand lists every key the key condition selects in sort-key order, walked either way and cut at the limit. |
| Db.Store.QueryGsi | infra/lambda/list-family-members.ts:25-33 | A GSI1 query lists each index row of the partition whose sort key has the prefix, once, in index order. |
| Db.Store.Scan | infra/lambda/delete-family.ts:58-73 | One Scan page lists each covered item that passes the filter, once. |
| Db.Store.BatchGet | infra/lambda/list-families.ts:28-33 | BatchGetCommand returns each requested key that exists, once. |
| Db.SchemaPut | infra/lambda/join-family.ts:30-49 | Writing an item that fits the table's schema keeps the schema. |
| CreateFamily.KeepAlnum | infra/lambda/create-family.ts:9 | The result keeps only ASCII letters and digits and is never longer than the input. |
| CreateFamily.KeepAlnumKeepsAlnumText | infra/lambda/create-family.ts:9 | Text made only of letters and digits passes the filter unchanged. |
| CreateFamily.RawCode | infra/lambda/create-family.ts:9 | The raw code consists of upper-case letters and digits only. |
| CreateFamily.MakeInviteCode | infra/lambda/create-family.ts:7-12 | The code is 9 characters long: four upper-case letters or digits, `-`, four more. Characters the random text lacks are padded with `X`. |
| CreateFamily.InviteCodeFromLongRaw | infra/lambda/create-family.ts:10-11 | With eight or more usable characters, the code is the first eight of them split by `-`. |
| CreateFamily.InviteCodeFromAlnumBase64 | infra/lambda/create-family.ts:9-11 | When the eight base64 characters are all letters or digits, the code is their upper-cased form split by `-`. |
| CreateFamily.Create | infra/lambda/create-family.ts:18-74 | A missing sub throws and a blank name gives 400, both leaving the table unchanged. A taken META or INVITE key throws the condition-failed error; otherwise 200. |
| CreateFamily.CreateSucceedsIff | infra/lambda/create-family.ts:31-55 | Create succeeds exactly when there is a subject and a name and neither the META nor the INVITE key is taken. |
| CreateFamily.CreateSucceeds | infra/lambda/create-family.ts:31-73 | A successful create answers with the family id, name and code, and adds exactly the META, INVITE and owner membership items. The META holds the code's hash and the INVITE maps that hash back to the family. |
| CreateFamily.CreateFailsPartway | infra/lambda/create-family.ts:31-55 | A taken META key throws with the table unchanged. A taken INVITE key throws after the META put, which stays: the table gains the META alone, with no invite mapping and no owner membership. |
| CreateFamily.DistinctKeyKinds | infra/lambda/create-family.ts:31-71 | The three keys one create writes are pairwise distinct, so no put overwrites another. |
| CreateFamily.ThreePutsEffect | infra/lambda/create-family.ts:31-71 | On free META and INVITE keys the three puts add exactly those two items and the owner membership, and change no other item. |
| CreateFamily.CreateKeepsSchema | infra/lambda/create-family.ts:31-71 | Create keeps every membership well formed and mirrored into GSI1. |
| CreateFamily.Handler | infra/lambda/create-family.ts:18-74 | The three puts against the store produce exactly the response and table of `Create`. |
| JoinFamily.Join | infra/lambda/join-family.ts:11-52 | 400 for a blank code, 404 when the invite hash maps to no family, 409 when the membership already exists; otherwise 200 and exactly one new member membership. Every refusal leaves the table unchanged. |
| JoinFamily.JoinKeepsSchema | infra/lambda/join-family.ts:30-49 | Join writes only a well-formed membership. |
| JoinFamily.JoinTwice | infra/lambda/join-family.ts:30-49 | Joining again with the same code is refused with 409 and changes nothing. |
| JoinFamily.NormalizeVariant | infra/lambda/join-family.ts:14-15 | A code typed in lower case or with surrounding whitespace normalises to the code itself. |
| JoinFamily.VariantsJoinAlike | infra/lambda/join-family.ts:14-26 | Inputs that normalise to the same code have the same outcome and leave the same table. |
| JoinFamily.JoinUnfolds | infra/lambda/join-family.ts:11-26 | Once the caller is known, the outcome depends on the code field only through its normalised form. |
| JoinFamily.Handler | infra/lambda/join-family.ts:11-52 | The Get of the invite mapping and the conditional put produce exactly the response and table of `Join`. |
| LeaveFamily.FamilyPushes | infra/lambda/leave-family.ts:45-61 | Exactly the caller's `PUSH#` items registered for the family. |
| LeaveFamily.Leave | infra/lambda/leave-family.ts:6-64 | 400 without a family id, 404 without a membership, 400 for the owner, each with the table unchanged. Otherwise 200; the membership and the caller's subscriptions for that family are removed. |
| LeaveFamily.LeaveTouchesOnlyCaller | infra/lambda/leave-family.ts:36-61 | Leaving removes only the caller's items, changes no surviving item, removes the membership, and keeps subscriptions for other families. |
| LeaveFamily.AfterLeaving | infra/lambda/leave-family.ts:36-61 | The table after leaving differs from the old one only in the caller's items: the membership is gone, and subscriptions for other families stay. |
| LeaveFamily.DeleteOfFamily | infra/lambda/leave-family.ts:54-61 | The loop removes exactly the listed items whose `familyId` is the family and leaves every other item as it was. |
| LeaveFamily.PrunePushes | infra/lambda/leave-family.ts:45-61 | The loop deletes exactly the caller's subscriptions for the family. |
| LeaveFamily.Handler | infra/lambda/leave-family.ts:6-64 | The query, the delete and the loop produce exactly the response and table of `Leave`. |
| DeleteFamily.MemberRows | infra/lambda/delete-family.ts:58-73 | Exactly the scanned items with `sk = FAMILY#id` whose pk starts with `USER#`. |
| DeleteFamily.EventRows | infra/lambda/delete-family.ts:76-90 | Exactly the scanned items in the family's partition with an `EVENT#` sort key. |
| DeleteFamily.PushRows | infra/lambda/delete-family.ts:93-107 | Exactly the scanned `PUSH#` items registered for the family. |
| DeleteFamily.Delete | infra/lambda/delete-family.ts:6-110 | 400 without a family id, 404 for a non-member, 403 for a non-owner, each with the table unchanged. Otherwise 200 and the five-step cascade, also for a family whose META is already gone. |
| DeleteFamily.CascadeOnlyDeletes | infra/lambda/delete-family.ts:44-107 | Every item left after the cascade was there before, unchanged, and the schema is kept. |
| DeleteFamily.CascadeDeletes | infra/lambda/delete-family.ts:44-107 | The META and the stored invite mapping are gone, and so is every membership, event and subscription of the family that the scanned pages covered. |
| DeleteFamily.CascadeCompleteOnFullPages | infra/lambda/delete-family.ts:58-107 | When each scan covers the whole table, no membership, event or subscription of the family survives. |
| DeleteFamily.CascadeWithoutMeta | infra/lambda/delete-family.ts:36-55 | Without a META the cascade deletes no invite mapping and goes on with the three scans. |
| DeleteFamily.CascadeSparesOthers | infra/lambda/delete-family.ts:44-107 | Every deleted item is the family's META, its invite mapping, or one of its memberships, events or subscriptions. |
| DeleteFamily.RunCascade | infra/lambda/delete-family.ts:36-107 | The Get of the META, the two deletes and the three scan loops leave exactly the table the cascade describes. |
| DeleteFamily.DeleteMemberships | infra/lambda/delete-family.ts:58-73 | The scan and loop delete exactly the family's memberships on the page. |
| DeleteFamily.DeleteEvents | infra/lambda/delete-family.ts:76-90 | The scan and loop delete exactly the family's events on the page. |
| DeleteFamily.DeletePushSubscriptions | infra/lambda/delete-family.ts:93-107 | The scan and loop delete exactly the family's subscriptions on the page. |
| DeleteFamily.Handler | infra/lambda/delete-family.ts:6-110 | The checks, deletes and three scan loops produce exactly the response and table of `Delete`. |
| UpdateProfile.OrElse | infra/lambda/update-profile.ts:56-57 | `gsi \|\| fallback`: the attribute when it is a non-empty string, the fallback otherwise. |
| UpdateProfile.Rewrite | infra/lambda/update-profile.ts:45-61 | The membership keeps every attribute and gets the new display name. Missing or empty GSI1 keys are filled in as `FAMILY#id / MEMBER#sub`. |
| UpdateProfile.WriteThrough | infra/lambda/update-profile.ts:34-61 | The key set is unchanged. Exactly the caller's `FAMILY#` items that name their family are rewritten; every other item is unchanged. |
| UpdateProfile.Update | infra/lambda/update-profile.ts:6-64 | 400 for a blank name or one longer than 30 UTF-16 units, with the table unchanged. Otherwise 200, the PROFILE put, then the write-through. |
| UpdateProfile.UpdateEffect | infra/lambda/update-profile.ts:20-61 | After a successful update the profile holds the name. Every membership of the caller naming its family carries the name with nothing else changed except filled-in GSI keys. No other user's item changes. |
| UpdateProfile.UpdateKeepsSchema | infra/lambda/update-profile.ts:20-61 | The update keeps every membership well formed and mirrored into GSI1. |
| UpdateProfile.WriteThroughKeepsSchema | infra/lambda/update-profile.ts:45-61 | Rewriting the caller's memberships keeps every membership well formed and mirrored into GSI1. |
| UpdateProfile.WriteThroughMemberships | infra/lambda/update-profile.ts:34-61 | The query and loop leave exactly the table `WriteThrough` describes. |
| UpdateProfile.RewriteEach | infra/lambda/update-profile.ts:45-61 | Each listed item that names its family is put back with the new display name; all other items are unchanged. |
| UpdateProfile.RewriteListed | infra/lambda/update-profile.ts:45-61 | Rewriting never adds or removes a key. |
| UpdateProfile.Handler | infra/lambda/update-profile.ts:6-64 | The handler produces exactly the response and table of `Update`. |
| CreateHandwashEvent.NoteOf | infra/lambda/create-handwash-event.ts:25 | A note is kept exactly when one is sent. It is a prefix of at most 200 UTF-16 units, and a note that fits is kept whole. |
| CreateHandwashEvent.CreateEvent | infra/lambda/create-handwash-event.ts:14-59 | A missing sub gives 500, a blank family 400, a non-member 403, each with the table unchanged. Otherwise 200; the event is stored under its time-ordered key and echoed back. |
| CreateHandwashEvent.CreateEventKeepsSchema | infra/lambda/create-handwash-event.ts:33-49 | Recording an event keeps the schema. |
| CreateHandwashEvent.CreatedEventIsKeyed | infra/lambda/create-handwash-event.ts:31-49 | The stored event sits under the key its own timestamp and id give, and carries the caller, id and timestamp. |
| CreateHandwashEvent.RepeatedSubmissionsAccumulate | infra/lambda/create-handwash-event.ts:31-49 | Two submissions with different ids both succeed and leave two distinct events; no event overwrites another. |
| CreateHandwashEvent.Handler | infra/lambda/create-handwash-event.ts:14-59 | The handler produces exactly the response and table of `CreateEvent`. |
| ListHandwashEvents.EffectiveLimit | infra/lambda/list-handwash-events.ts:27 | The limit is always in [1, 200]: 50 by default, the requested value when in range, clamped otherwise. |
| ListHandwashEvents.Views | infra/lambda/list-handwash-events.ts:48-56 | One entry per listed item, in listing order, each the item's projection. |
| ListHandwashEvents.Handler | infra/lambda/list-handwash-events.ts:12-63 | The 500/400/403/200 outcomes and their conditions. A member asking for a window whose lower bound sorts after its upper bound gets 500 with DynamoDB's BETWEEN error. On 200 the listing holds at most the limit of the window's events, all of them when they fit, sorted in the asked direction. The events left out all sort after the ones listed. |
| ListHandwashEvents.WindowAcceptedIff | infra/lambda/list-handwash-events.ts:22-46 | DynamoDB accepts the window query exactly when the clamped `from` is not later than the clamped `to`. |
| ListHandwashEvents.WindowIsTimeRange | infra/lambda/list-handwash-events.ts:23-46 | A well-keyed event is selected by the window query exactly when its timestamp lies in the clamped `[from, to]`. |
| ListHandwashEvents.ListingIsChronological | infra/lambda/list-handwash-events.ts:28-46 | An ascending listing of events is oldest first, a descending one newest first. |
| ListFamilyMembers.MemberViews | infra/lambda/list-family-members.ts:42-47 | One entry per index row, in index order, each the row's member projection. |
| ListFamilyMembers.IsOwnerIn | infra/lambda/list-family-members.ts:50-51 | True exactly when the first entry for the caller has the owner role. |
| ListFamilyMembers.Handler | infra/lambda/list-family-members.ts:7-58 | A missing sub throws, a missing family id gives 400, and a non-member throws FORBIDDEN. Otherwise 200 with the family's index rows in index order and the owner flag. |
| ListFamilyMembers.MembersAreMemberships | infra/lambda/list-family-members.ts:25-33 | Under the schema, the index rows of `FAMILY#id / MEMBER#` are exactly the family's memberships. |
| ListFamilyMembers.OwnRowIsMembership | infra/lambda/list-family-members.ts:42-51 | The caller's own index row is their membership item. |
| ListFamilyMembers.IsOwnerMeansOwnerRole | infra/lambda/list-family-members.ts:50-51 | `isOwner` holds exactly when the caller's membership has the owner role. |
| ListFamilies.Entries | infra/lambda/list-families.ts:35-43 | One entry per membership, in query order, named from the META items found. |
| ListFamilies.FamiliesOf | infra/lambda/list-families.ts:10-43 | Lists every `FAMILY#` item of the user in sort-key order. Under the schema each entry's name is its family's stored name, or "(unknown)". |
| ListFamilies.MetaKeys | infra/lambda/list-families.ts:28-33 | The BatchGet requests one META key per membership and nothing but META keys. |
| ListFamilies.NamesResolve | infra/lambda/list-families.ts:35-43 | Looking a family up among the fetched METAs gives its stored name, or "(unknown)" when it has none. |
| ListFamilies.CollectMetas | infra/lambda/list-families.ts:35-38 | Each fetched META is filed under its family id, and under the schema every filed item is that family's META. |
| ListFamilies.Handler | infra/lambda/list-families.ts:6-46 | A missing sub throws; otherwise 200 with one correctly named entry per membership of the caller. |
| ListFamilies.ListedAreOwnMemberships | infra/lambda/list-families.ts:10-17 | Under the schema, the query returns exactly the caller's memberships. |
| Me.Handler | infra/lambda/me.ts:6-49 | Always 200, echoing the claims. Without a sub the family list is empty; otherwise it is the caller's memberships, correctly named. |
| PushSubscribe.EndpointHash | infra/lambda/push-subscribe.ts:26-27 | The suffix is a prefix of the endpoint's hex SHA-256, exactly 32 characters when the digest is that long. |
| PushSubscribe.Subscribe | infra/lambda/push-subscribe.ts:12-53 | 500 without a sub, 400 without a family id or a usable subscription, and 403 for a non-member, each with the table unchanged. Otherwise 200 and one record under the endpoint's hash. |
| PushSubscribe.SubscriptionIsFound | infra/lambda/push-subscribe.ts:30-46 | After subscribing, the record is listed under the user's `PUSH#` items and in GSI1 under the family. |
| PushSubscribe.ResubscribeReplaces | infra/lambda/push-subscribe.ts:30-46 | Subscribing the same endpoint twice leaves one record: the latest. |
| PushSubscribe.SubscribeKeepsSchema | infra/lambda/push-subscribe.ts:30-46 | Subscribing keeps the schema. |
| PushSubscribe.Handler | infra/lambda/push-subscribe.ts:12-53 | The handler produces exactly the response and table of `Subscribe`. |
| SendPushToUser.ReachedAmong | infra/lambda/send-push-to-user.ts:79-102 | Exactly the listed subscriptions to which the notification is delivered. |
| SendPushToUser.GoneAmong | infra/lambda/send-push-to-user.ts:92-97 | Exactly the listed subscriptions the push service reports as 404 or 410. |
| SendPushToUser.Dispatch | infra/lambda/send-push-to-user.ts:54-104 | Always 200. With no subscriptions the count is zero with a notice and the table is unchanged. Otherwise exactly the gone subscriptions are deleted and nothing else changes. |
| SendPushToUser.Send | infra/lambda/send-push-to-user.ts:21-105 | A missing sub throws; 400 exactly when the family or target is blank. |
| SendPushToUser.OnlyOwnerSends | infra/lambda/send-push-to-user.ts:33-51 | 403 exactly when the caller is a member but not the owner. 200 exactly when the caller owns the family and the target is a member. Any refusal leaves the table unchanged. |
| SendPushToUser.SendDeletesOnlyTargetPushes | infra/lambda/send-push-to-user.ts:54-102 | Only the target's `PUSH#` items can disappear, and no surviving item changes. |
| SendPushToUser.SendIsDispatchOrNothing | infra/lambda/send-push-to-user.ts:21-105 | Every path but the dispatch to the target's subscriptions leaves the table as it was. |
| SendPushToUser.GoneAreFailures | infra/lambda/send-push-to-user.ts:88-97 | No subscription is both delivered and deleted as gone. |
| SendPushToUser.DeliverAll | infra/lambda/send-push-to-user.ts:79-102 | `sent` counts the deliveries and `sent + failed` is the number of subscriptions. Exactly the gone ones are deleted. |
| SendPushToUser.DispatchAll | infra/lambda/send-push-to-user.ts:54-104 | The query and loop produce exactly the response and table of `Dispatch`. |
| SendPushToUser.Handler | infra/lambda/send-push-to-user.ts:21-105 | The handler produces exactly the response and table of `Send`. |
| SendReminder.TodayStartJst | infra/lambda/send-reminder.ts:40-47 | The start is a JST midnight (a multiple of a day after adding 9 hours), and now lies within the day that begins there. |
| SendReminder.Covered | infra/lambda/send-reminder.ts:88-107 | The keys all scan pages together cover. |
| SendReminder.ScanAll | infra/lambda/send-reminder.ts:88-107 | The paged scan collects exactly the covered items whose entity is `PUSH_SUB`. |
| SendReminder.FamilyOrder | infra/lambda/send-reminder.ts:123-128 | The families appear once each, in first-seen order, and are exactly the families of the subscriptions. |
| SendReminder.OfFamily | infra/lambda/send-reminder.ts:123-128 | A family's group is exactly its subscriptions and is empty for a family with none. |
| SendReminder.GroupByFamily | infra/lambda/send-reminder.ts:123-128 | The grouping loop yields the family order and, for each family, its group. |
| SendReminder.GroupsCoverEverySubscription | infra/lambda/send-reminder.ts:123-134 | The groups' sizes add up to the number of subscriptions: none is lost or repeated. |
| SendReminder.Washed | infra/lambda/send-reminder.ts:50-72 | Exactly the non-empty `createdBy` values of the events the window query selects. |
| SendReminder.TodayWashedUsers | infra/lambda/send-reminder.ts:50-72 | The query and loop compute exactly `Washed`. |
| SendReminder.WashedMeansWashedInWindow | infra/lambda/send-reminder.ts:50-72 | For well-keyed events, a user counts as washed exactly when they created an event of the family whose timestamp lies in the clamped window. |
| SendReminder.RemindOne | infra/lambda/send-reminder.ts:138-175 | Each subscription adds one to exactly one counter. Its record is deleted exactly when it was not skipped and the push service reports it gone. |
| SendReminder.Remind | infra/lambda/send-reminder.ts:138-176 | The three counters add up to the number of subscriptions in the group. |
| SendReminder.RemindDeletesGoneUnwashed | infra/lambda/send-reminder.ts:138-175 | Exactly the group's gone subscriptions of unwashed users are deleted, and nothing else changes. |
| SendReminder.WashedCount | infra/lambda/send-reminder.ts:142-146 | The number of the group's subscriptions whose user washed today, at most the group's size. |
| SendReminder.RemindSkipsExactlyTheWashed | infra/lambda/send-reminder.ts:142-175 | `skipped` counts exactly the subscriptions of users who washed today, and `sent + errors` all the others. |
| SendReminder.RemindAll | infra/lambda/send-reminder.ts:134-177 | Over all families, the counters add up to the sizes of the groups. |
| SendReminder.RemindAllOnlyDeletesGone | infra/lambda/send-reminder.ts:134-177 | Every surviving item is unchanged, and every removed item is a listed subscription the push service reported gone. |
| SendReminder.RemindGroup | infra/lambda/send-reminder.ts:138-176 | The loop over a group leaves exactly the counters and table `Remind` describes. |
| SendReminder.FamilyPass | infra/lambda/send-reminder.ts:134-176 | One family's turn: the day's washed users, then its group's loop, give the counters and table of `Remind`. |
| SendReminder.RemindFamilies | infra/lambda/send-reminder.ts:134-177 | The loop over the families, in first-seen order, leaves the counters and table of `RemindAll`. |
| SendReminder.Handler | infra/lambda/send-reminder.ts:109-189 | Collects exactly the scanned `PUSH_SUB` items and counts each once, with `sent + skipped + errors` equal to their number. The counters and the table are those of `RemindAll`. |
| MyPage.ReplaceAll | apps/web/src/mypage.ts:500-506 | After replacing `c`, no `c` remains unless the replacement holds one. |
| MyPage.ReplaceKeepsOthers | apps/web/src/mypage.ts:500-506 | A character other than `c` that the replacement does not hold occurs after replacing exactly when it occurred before. |
| MyPage.ReplaceAllConcat | apps/web/src/mypage.ts:500-506 | Replacing distributes over concatenation. |
| MyPage.ReplaceAbsent | apps/web/src/mypage.ts:500-506 | Replacing a character that does not occur changes nothing. |
| MyPage.EscapeHtml | apps/web/src/mypage.ts:500-506 | The escaped text contains no `<`, `>` or `"`. |
| MyPage.EscapeHtmlIsOnePass | apps/web/src/mypage.ts:500-506 | The chain of four replacements equals escaping each character once: `&` goes first, so no entity is escaped twice. |
| MyPage.EscapeSingle | apps/web/src/mypage.ts:500-506 | A single character escapes to its entity, or to itself when it is not special. |
| MyPage.EscapeHtmlRoundTrip | apps/web/src/mypage.ts:500-506 | Decoding the four entities recovers the original text from its escaped form. |
| MyPage.EscapeKeepsPlainText | apps/web/src/mypage.ts:500-506 | Text without `&`, `<`, `>` or `"` is left unchanged. |
| MyPage.GetModeLabel | apps/web/src/mypage.ts:165-169 | 帰宅時 exactly for mode `home`, 食事前 exactly for `meal`, and 手洗い for any other mode or none. |
| Scenarios.InviteCodeIsNormal | infra/lambda/join-family.ts:14-15 | A generated invite code is already in normal form, so typing it back yields the same code. |
| Scenarios.CreatedCodeAdmitsOthers | infra/lambda/join-family.ts:11-52 | After a family is created, another user who joins with its code becomes a member with exactly one new membership. |
| Scenarios.OwnCodeConflicts | infra/lambda/join-family.ts:30-49 | The creator joining with their own code gets 409. |
| Scenarios.CreatedFamilyIsNamed | infra/lambda/list-families.ts:35-43 | After a create, the owner's membership exists and the family is listed under the name given. |
| Scenarios.DeletedFamilyRevokesCode | infra/lambda/delete-family.ts:50-55 | After the owner deletes the family, joining with its old code gives 404. |
| Scenarios.RecordedEventIsListed | infra/lambda/list-handwash-events.ts:30-46 | A recorded event is selected by a window query exactly when its timestamp lies in the clamped window. |
| Scenarios.RecordedTodayIsSkipped | infra/lambda/send-reminder.ts:50-72 | A user who recorded an event since today's JST midnight counts as washed when the reminder runs later that day. |

## Left out

- Secrets Manager and VAPID setup in the reminder and send-push handlers are left out, and so is the Web Push protocol itself. A send is a parameter `deliver` whose result is delivered, or rejected with an optional status code.
- SHA-256, `randomUUID`, `randomBytes`, `new Date()` and `Date.now()` are parameters. Nothing assumes properties of them except where a lemma states one as a `requires`.
- Each Scan page in the reminder is a parameter: the set of keys that page covers. Termination of the `LastEvaluatedKey` loop is not modelled.
- The DynamoDB 1 MB page size, BatchGet's 100-key limit and unprocessed keys, throttling and service errors are left out. So is the per-item size limit. No SDK call fails except the conditional puts and the event listing's query with a reversed window.
- The SDK's marshalling of `undefined` attributes is left out. An absent attribute is `None`.
- Concurrency between invocations is left out. Each handler runs alone against one table state.
- JSON bodies whose fields are not strings are left out. `String(x)` of a number or object is not modelled, and a field is either a string or absent.
- `Number(...)` of query-string values and of the body's `durationSec` is left out. NaN and fractional numbers are not modelled; `from`, `to`, `limit` and `durationSec` arrive as integers or absent.
- Only the ASCII letters of `toUpperCase` are modelled.
- Text.Utf16Length: counts a code point above U+FFFF as two units, but Dafny strings cannot hold lone surrogates.
- ListHandwashEvents.Handler: DynamoDB's ValidationException message for a reversed window also quotes the two bounds; the model's message stops before them.
- CreateHandwashEvent.NoteOf: when a surrogate pair straddles unit 200, `slice(0, 200)` keeps 200 units ending in a lone high surrogate; the model, which cannot hold that surrogate, keeps the 199 units before the pair.
- SendReminder.TodayWashedUsers: the window ends at a clock reading taken after today's JST midnight was computed, so it is never reversed in practice. The model takes that reading as a parameter and does not model DynamoDB's rejection of a reversed window there; such a window selects nothing.
- `withErrorHandling`, `log` and `notifyError` are imported but not defined in `_shared.ts`, so they are not part of this model. The reminder's outer catch only logs and rethrows.
- `infra/lambda/create-handwash-event.ts:61` exports a second `handler` that wraps an undefined `handlerImpl`. The model follows the handler at lines 14-59.
- In the reminder, a failure to delete a gone subscription is swallowed and the run continues (send-reminder.ts:75-85). The model's delete always succeeds.
- DeleteFamily.Delete: each of the three cascade scans reads a single page, as the code does (no `LastEvaluatedKey` loop). So the full cleanup is proved only when each page covers the whole table (`CascadeCompleteOnFullPages`).
- The rest of `mypage.ts` (DOM rendering, fetch calls, the UI state) is not part of this model. Only `escapeHtml` and `getModeLabel` are.
- `me.ts` echoes the email, username, issuer and audience claims. They are passed through as optional strings and not interpreted.
- Where the code departs from what one might expect, the model follows the code:
  - create-family puts the owner membership without a condition;
  - join-family maps any failure of its conditional put to 409;
  - send-push-to-user sends to every subscription of the target, whatever family it was registered for;
  - push-subscribe replaces an earlier record for the same endpoint;
  - delete-family scans one page per kind of item.
