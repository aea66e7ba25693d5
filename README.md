# A verified model of the salez CRM web client's core

This project models, in Dafny, the behaviour of the client side of a small
CRM: the optimistic pipeline move and its rollback, the pipeline board's
stage columns and drop guard, the broadcast campaign builder, the contacts
page's tag editor and filters, the inbox's message preview and composer,
the automation rule summary and editor, the template lock and payloads, the
billing percentage, the sidebar's active item and logout, and the shared
helpers under them: `buildUrl`, `apiUrl` with the request/response handling
of `apiFetch`, the auth service's user normalisation and token store, and
the response normalisation of the inbox and contacts hooks.

Each source file has one Dafny module of the same name. Shared modules:

- `Common`: Option, whitespace trimming over a fixed whitespace set, split
  and join, first-occurrence search and `String.prototype.replace` with a
  string pattern (including its `$$`, `$&`, `` $` `` and `$'` replacement
  patterns), and decimal integer strings.
- `Json`: the loosely shaped values the client reads (undefined, null,
  booleans, integers, strings, arrays, objects) with JavaScript's
  nullishness, truthiness, `??`, `||`, `?.`, property access (a TypeError
  on null or undefined), `String(v)` and `Number(v)`.
- `Schema`: the five pipeline stages of `shared/schema.ts` and the page's
  contact record.
- `Query`: the query cache as a class holding a map from key to value and
  the set of invalidated key prefixes.
- `TagIndex`: the distinct, sorted, capped tag index that the contacts page
  (30 entries) and the broadcast builder (40 entries) both compute.

Where the code works by updating state (the query cache, the pipeline
board's drag, the broadcast builder, the contacts filters, the inbox
composer, the token store, the router) the model is a class whose methods
state their whole new state; loops in the source (`onMutate`'s walk over
the stage keys, the column grouping, the tag index, `buildUrl`'s walk over
its parameters) are `while` loops proved against a specification function,
and the properties the source promises are lemmas about that function.

The model keeps three mismatches between the pipeline page and the pipeline
hook exactly as written. The page calls the move with `{ id, stage }`, the
hook reads `input.contactId`, so a page move reaches the hook with no
contact id: the request body carries no `contactId` and the optimistic
write leaves the cached record as it was (`PipelinePage.PageMovesLeaveRecord`).
The page reads the pipeline data as an array, while the hook resolves to a
record keyed by stage, so a record makes the page's contact list throw
(`PipelinePage.PageContacts`). The hook itself does not skip a move onto the
same stage; only the page's drop guard does.

The contacts list hook builds records without a `tags` field, so on the
contacts page and in the broadcast builder every contact's tag list is
empty, the tag indexes are empty, and a tag filter matches nobody
(`TagIndex.UntaggedContactsNoTags`, `Broadcast.MissingFieldsNeverMatch`).

Inputs from outside the code are parameters: the network's answer to a
request (`Api.NetOutcome`), whether a mutation succeeded, the environment's
base URL, key presses and typed text.

## Model

| member | source | states |
|---|---|---|
| Schema.StageOf | shared/schema.ts:67-73 | a name maps to the stage of that name, and to none exactly when it is not one of the five |
| Schema.StageNamesMatch | shared/schema.ts:67-73 | there are five stages, New, Engaged, Interested, Paid, Lost in that order, with distinct names |
| Schema.StageNameRoundTrip | shared/schema.ts:67-75 | every stage's name reads back as that stage and is in the stage list |
| Query.QueryCache.constructor | src/hooks/use-pipeline.ts:30 | a new cache holds no entries and nothing is stale |
| Query.QueryCache.GetQueryData | src/hooks/use-pipeline.ts:44 | reads the cached value of a key, none when the key is not cached |
| Query.QueryCache.SetQueryData | src/hooks/use-pipeline.ts:46-70 | writes one key and leaves every other key and the stale set alone |
| Query.QueryCache.InvalidateQueries | src/hooks/use-pipeline.ts:80-81 | keeps every entry and makes every key under the prefix stale |
| PipelineHook.IndexOfId | src/hooks/use-pipeline.ts:55 | `findIndex`: the first index whose contact has the id, -1 when there is none |
| PipelineHook.ColumnIndex | src/hooks/use-pipeline.ts:65 | the position of the target stage's list in the record, -1 when the record has no such key |
| PipelineHook.Stripped | src/hooks/use-pipeline.ts:54-60 | every stage list loses its first contact with the id, and the keys stay in place |
| PipelineHook.RemoveFirstFacts | src/hooks/use-pipeline.ts:55-58 | `splice(idx, 1)` removes exactly one contact with the id when there is one, keeps the other contacts in order, and changes nothing otherwise |
| PipelineHook.LastMovedFacts | src/hooks/use-pipeline.ts:52-60 | a contact to move is found exactly when the id occurs in some list, and the one found has that id |
| PipelineHook.OptimisticUpdate | src/hooks/use-pipeline.ts:46-70 | the loop over the stage keys, the stage assignment and the `unshift` compute the specified moved record |
| PipelineHook.RemoveMoved | src/hooks/use-pipeline.ts:52-60 | the loop over the stage keys leaves every column without the contact's first match and keeps the match found in the last stage that had one |
| PipelineHook.SpliceMatch | src/hooks/use-pipeline.ts:55-58 | one stage's `findIndex` and `splice`: the column loses its first match, which is returned, or is unchanged when there is none |
| PipelineHook.UnshiftMoved | src/hooks/use-pipeline.ts:63-67 | the target stage is created when missing and the moved record goes to its front |
| PipelineHook.MovedAbsent | src/hooks/use-pipeline.ts:52-69 | an id in no stage list leaves the record equal to the old one |
| PipelineHook.MovedKeys | src/hooks/use-pipeline.ts:54-66 | the old keys keep their places, at most one key is added and it is the target stage, and distinct keys stay distinct |
| PipelineHook.MovedKeepsOthers | src/hooks/use-pipeline.ts:54-67 | every other contact keeps its stage list and its relative order, and an added list holds only the moved contact |
| PipelineHook.StrippedKeepsOthers | src/hooks/use-pipeline.ts:54-60 | removing the moved contact leaves every other contact of each list in place and order |
| PipelineHook.InsertFrontKeepsOthers | src/hooks/use-pipeline.ts:63-67 | putting the moved contact in front of the target list leaves the other contacts of every list as they were, and an added list holds no other contact |
| PipelineHook.InsertFrontFacts | src/hooks/use-pipeline.ts:63-67 | the target list exists afterwards with the moved contact at index 0, the keys stay distinct, and the contact is nowhere else |
| PipelineHook.MovedOnlyInTarget | src/hooks/use-pipeline.ts:54-67 | a contact occurring once ends up only in the target list, at index 0, with its stage field set to the target |
| PipelineHook.MovedPreservesSize | src/hooks/use-pipeline.ts:54-67 | when the id occurs at most once, the total number of contacts is unchanged |
| PipelineHook.MovedCreatesTarget | src/hooks/use-pipeline.ts:65-66 | a target stage missing from the record is added at the end holding just the moved contact |
| PipelineHook.MoveBody | src/hooks/use-pipeline.ts:35-38 | the body has a `contactId` exactly when the input has one and a `stage` exactly when the input's stage is defined, each with the input's value, and no other key |
| PipelineHook.MoveRequest | src/hooks/use-pipeline.ts:33-38 | the move is a POST carrying that body |
| PipelineHook.OnMutate | src/hooks/use-pipeline.ts:41-73 | returns the snapshot read before the write; with a cached record the entry becomes the moved record, with none the cache is left without an entry |
| PipelineHook.OnError | src/hooks/use-pipeline.ts:75-77 | writes the snapshot back when there was one and otherwise changes nothing |
| PipelineHook.OnSuccess | src/hooks/use-pipeline.ts:79-82 | makes the "pipeline" and "contacts" keys stale without touching any entry |
| PipelineHook.Mutate | src/hooks/use-pipeline.ts:32-83 | a failed move leaves the cache exactly as before it; a successful one keeps the optimistic record with both keys stale |
| PipelinePage.PageContacts | src/pages/PipelinePage.tsx:22 | no data gives no contacts, an array is used as it is, and the hook's stage record makes the page throw |
| PipelinePage.SortByRecencyFacts | src/pages/PipelinePage.tsx:32 | the sort puts the most recently active contact first and is a permutation of its input |
| PipelinePage.GroupMembers | src/pages/PipelinePage.tsx:27-31 | a stage's group holds exactly the contacts whose stage, or "New" when it is empty, is that stage |
| PipelinePage.KeysDistinct | src/pages/PipelinePage.tsx:24-31 | the map's keys are distinct and every contact's stage is among them |
| PipelinePage.ExtraFacts | src/pages/PipelinePage.tsx:29 | the keys added for stages outside the fixed list are distinct and none of them is a fixed stage |
| PipelinePage.Columns | src/pages/PipelinePage.tsx:24-34 | the loops building and sorting the map compute the specified columns |
| PipelinePage.GroupContacts | src/pages/PipelinePage.tsx:25-31 | the map starts with the four fixed stages empty and every contact is pushed, in order, onto its stage's list |
| PipelinePage.FixedBuckets | src/pages/PipelinePage.tsx:26 | one empty list per fixed stage, in the fixed order |
| PipelinePage.PushContact | src/pages/PipelinePage.tsx:28-30 | the contact is appended to its stage's list, which is created at the end when the stage is new |
| PipelinePage.ColumnsOf | src/pages/PipelinePage.tsx:24-34 | one column per key, fixed stages first and then the extra stages |
| PipelinePage.FixedColumns | src/pages/PipelinePage.tsx:25-26 | the five fixed stages come first, in order, and one no contact has is an empty column |
| PipelinePage.ColumnContents | src/pages/PipelinePage.tsx:27-31 | a column holds exactly the contacts of its stage |
| PipelinePage.ColumnsSorted | src/pages/PipelinePage.tsx:32 | each fixed-stage column is ordered most recently active first |
| PipelinePage.EveryContactHasColumn | src/pages/PipelinePage.tsx:27-31 | every contact is in the column of its stage |
| PipelinePage.StagelessGoesToNew | src/pages/PipelinePage.tsx:28 | a contact with no or an empty stage is in the "New" column |
| PipelinePage.ColumnsPartition | src/pages/PipelinePage.tsx:27-31 | the columns together hold exactly the input contacts, each once |
| PipelinePage.Rendered | src/pages/PipelinePage.tsx:102-103 | the board renders one list per fixed stage |
| PipelinePage.RenderedBoard | src/pages/PipelinePage.tsx:102-103 | each rendered list is its stage's column, and a contact whose stage is outside the fixed list is in an extra column that is never rendered |
| PipelinePage.DropMove | src/pages/PipelinePage.tsx:36-44 | no move without a drag or onto the stage the card came from; otherwise a move of the dragged contact to the target |
| PipelinePage.StagelessDropOntoNewMoves | src/pages/PipelinePage.tsx:38 | a card with no stage dropped on "New" is still moved, since the guard compares the raw stage |
| PipelinePage.UndoMove | src/pages/PipelinePage.tsx:55-56 | undo moves the same contact back to the stage it was dragged from |
| PipelinePage.HookInput | src/pages/PipelinePage.tsx:44 | the hook reads no contact id from the page's `{ id, stage }`, and gets the page's stage, undefined when the card had none |
| PipelinePage.StagelessUndoSendsEmptyBody | src/hooks/use-pipeline.ts:35-38 | undoing the move of a card without a stage sends an empty body, as `JSON.stringify` drops undefined fields |
| PipelinePage.PageMovesLeaveRecord | src/pages/PipelinePage.tsx:44 | a page move leaves the cached record unchanged and sends no `contactId` |
| PipelinePage.Board.constructor | src/pages/PipelinePage.tsx:20 | no drag is in progress at first |
| PipelinePage.Board.DragStart | src/pages/PipelinePage.tsx:130 | the drag records the contact's id and its stage |
| PipelinePage.Board.DragEnd | src/pages/PipelinePage.tsx:131 | the drag is cleared |
| PipelinePage.Board.Drop | src/pages/PipelinePage.tsx:36-74 | issues the guarded move, and offers an undo, moving the card back to where it came from, exactly when a move was issued and succeeded |
| TagIndex.StrLeTotal | src/pages/BroadcastPage.tsx:53 | the order standing in for `localeCompare` relates any two strings |
| TagIndex.StrLeTrans | src/pages/BroadcastPage.tsx:53 | that order is transitive |
| TagIndex.StrLeAntisym | src/pages/BroadcastPage.tsx:53 | that order is antisymmetric |
| TagIndex.SortStringsFacts | src/pages/BroadcastPage.tsx:53 | the sort is ordered and a permutation of its input |
| TagIndex.CollectTags | src/pages/BroadcastPage.tsx:51-52 | the set holds each tag of some contact, once, and nothing else |
| TagIndex.TagsIndex | src/pages/BroadcastPage.tsx:50-54 | the index is distinct, sorted, at most the cap long, holds only seen tags, and leaves a seen tag out only when the cap is full of smaller ones |
| TagIndex.UntaggedContactsNoTags | src/pages/ContactsPage.tsx:176 | contacts without a tag list contribute no tag |
| Broadcast.Audience | src/pages/BroadcastPage.tsx:56-62 | the audience is never larger than the contact list |
| Broadcast.AudienceMembers | src/pages/BroadcastPage.tsx:56-62 | a contact is in the audience iff the stage filter is "all" or its stage, and the tag filter is empty or among its tags |
| Broadcast.AudienceOrder | src/pages/BroadcastPage.tsx:57 | filtering distributes over concatenation, so input order is kept |
| Broadcast.OpenFiltersKeepAll | src/pages/BroadcastPage.tsx:58-59 | with stage "all" and no tag the audience is every contact |
| Broadcast.MissingFieldsNeverMatch | src/pages/BroadcastPage.tsx:58-59 | a contact without a stage fails any stage filter and one without tags fails any tag filter |
| Broadcast.NextEnabledIff | src/pages/BroadcastPage.tsx:78-80 | Next is enabled on step 1 iff the trimmed name has two or more characters, on step 2 iff a template is chosen, on step 3 iff the audience is not empty, and never on step 4 |
| Broadcast.FinishEnabledIff | src/pages/BroadcastPage.tsx:79-82 | Finish is enabled iff nothing is pending, the trimmed name has two or more characters, a template is chosen, the audience is not empty, and the mode is "now" or a time is entered |
| Broadcast.CampaignPayload | src/pages/BroadcastPage.tsx:84-91 | status "Running" with no time for "now" and "Scheduled" otherwise; the template id is null iff "none" and otherwise `Number` of the selection |
| Broadcast.ChosenTemplateId | src/pages/BroadcastPage.tsx:89 | a chosen template's id string is sent as that number |
| Broadcast.TogglePause | src/pages/BroadcastPage.tsx:401 | "Paused" becomes "Running" and any other status becomes "Paused" |
| Broadcast.TogglePauseTwice | src/pages/BroadcastPage.tsx:401 | toggling twice gives back a "Running" or "Paused" status |
| Broadcast.Complete | src/pages/BroadcastPage.tsx:418 | completing always sets "Completed" |
| Broadcast.Builder.constructor | src/pages/BroadcastPage.tsx:40-48 | the drawer is closed and every field has its initial value |
| Broadcast.Builder.Reset | src/pages/BroadcastPage.tsx:69-77 | every builder field returns to its initial value and the drawer stays as it was |
| Broadcast.Builder.OpenChange | src/pages/BroadcastPage.tsx:113 | opening keeps the fields, closing also resets them |
| Broadcast.Builder.Back | src/pages/BroadcastPage.tsx:137-138 | goes one step back and never below 1, changing nothing else |
| Broadcast.Builder.Next | src/pages/BroadcastPage.tsx:145-146 | a disabled Next changes nothing; otherwise one step forward and never past 4 |
| Broadcast.Builder.SetName | src/pages/BroadcastPage.tsx:160 | sets the name only |
| Broadcast.Builder.SetTemplate | src/pages/BroadcastPage.tsx:174 | sets the template only |
| Broadcast.Builder.SetAudStage | src/pages/BroadcastPage.tsx:207 | sets the stage filter only |
| Broadcast.Builder.SetAudTag | src/pages/BroadcastPage.tsx:223 | the "all" choice clears the tag filter, any other sets it |
| Broadcast.Builder.SetMode | src/pages/BroadcastPage.tsx:276-284 | sets the schedule mode only |
| Broadcast.Builder.SetScheduledAt | src/pages/BroadcastPage.tsx:296 | sets the time only |
| Broadcast.Builder.CreateOrSchedule | src/pages/BroadcastPage.tsx:84-101 | sends the campaign payload of the current fields; on success the drawer closes and the builder resets, on failure nothing changes |
| Broadcast.BroadcastTagIndex | src/pages/BroadcastPage.tsx:50-54 | the builder's tag index is distinct, sorted, at most 40 long, holds only tags of some contact, and leaves a tag out only when the 40 entries are all smaller |
| ContactsPage.ParseTagsClean | src/pages/ContactsPage.tsx:73-81 | the tags are the first 12 of the non-empty trimmed comma-separated pieces, in input order, each non-empty, trimmed and free of commas |
| ContactsPage.ParseEmpty | src/pages/ContactsPage.tsx:73-81 | an empty text gives no tags |
| ContactsPage.NonEmptyConcat | src/pages/ContactsPage.tsx:78 | `filter(Boolean)` works piece by piece: filtering a concatenation is the concatenation of the filtered parts, so input order is kept |
| ContactsPage.NonEmptyMembers | src/pages/ContactsPage.tsx:78 | a piece is kept iff it is in the input and is not empty |
| ContactsPage.TrimAll | src/pages/ContactsPage.tsx:77 | `map(trim)`: one trimmed piece per input piece, in place |
| ContactsPage.Take | src/pages/ContactsPage.tsx:79 | `slice(0, n)`: the first n elements, or all of them when there are fewer |
| ContactsPage.NonEmptyKeepsAll | src/pages/ContactsPage.tsx:78 | `filter(Boolean)` drops nothing when no piece is empty |
| ContactsPage.ParseJoinRoundTrip | src/pages/ContactsPage.tsx:71-81 | up to 12 trimmed, non-empty, comma-free tags joined with ", " parse back to the same tags in the same order |
| ContactsPage.EditorDefaults | src/pages/ContactsPage.tsx:68-71 | without a contact every field is empty and the stage "New"; with one, each of name, phone and stage is the contact's value or "", "" and "New" when missing, and the tags text is its tags joined with ", " or "" |
| ContactsPage.EditKeepsTags | src/pages/ContactsPage.tsx:71-81 | opening a contact's editor and saving without typing keeps its tags |
| ContactsPage.SaveData | src/pages/ContactsPage.tsx:140 | the saved contact carries the typed name, phone and stage and the parsed tags |
| ContactsPage.BlankFieldsDisableSave | src/pages/ContactsPage.tsx:141 | save is disabled iff it is saving or the name or the phone is blank after trimming |
| ContactsPage.TagsCellOf | src/pages/ContactsPage.tsx:33-55 | "—" iff there are no tags; otherwise the first four tags as chips, with "+N" for N = count − 4 exactly when there are more than four |
| ContactsPage.QueryFilters | src/pages/ContactsPage.tsx:161-165 | search, stage and tag are passed only when non-empty, not "all" and non-empty respectively, with their values |
| ContactsPage.ContactsQueryKey | src/pages/ContactsPage.tsx:161-165 | the list query's key is under "contacts" |
| ContactsPage.Filters.constructor | src/pages/ContactsPage.tsx:155-159 | the filters start as "", "all" and "" |
| ContactsPage.Filters.Clear | src/pages/ContactsPage.tsx:284-288 | clear resets search to "", stage to "all" and tag to "", so no filter is passed |
| ContactsPage.Filters.SetSearch | src/pages/ContactsPage.tsx:247 | sets the search only |
| ContactsPage.Filters.SetStage | src/pages/ContactsPage.tsx:254 | sets the stage only |
| ContactsPage.Filters.SelectTag | src/pages/ContactsPage.tsx:268 | the "all" choice clears the tag, any other sets it |
| ContactsPage.Filters.ClickTag | src/pages/ContactsPage.tsx:391 | clicking a chip filters by that tag |
| ContactsPage.ContactsTagIndex | src/pages/ContactsPage.tsx:174-178 | the filter's tag index is distinct, sorted, at most 30 long, holds only tags of some contact, and leaves a tag out only when the 30 entries are all smaller |
| Routes.Placeholder | shared/routes.ts:134 | the placeholder is ":" followed by the key |
| Routes.Step | shared/routes.ts:134-135 | a key whose placeholder occurs replaces its first occurrence with the expanded value; otherwise the url is unchanged |
| Routes.BuildUrl | shared/routes.ts:130-140 | the loop over the entries computes the specified url, and with no params the path is returned unchanged |
| Routes.StepLiteral | shared/routes.ts:135 | a value without "$" replaces the first placeholder literally, keeping what is around it |
| Routes.AbsentKeysNoEffect | shared/routes.ts:133-137 | keys whose placeholders do not occur leave the path as it is |
| Routes.MissingPlaceholderNoEffect | shared/routes.ts:134 | a key whose placeholder does not occur has no effect |
| Routes.FirstOccurrenceOnly | shared/routes.ts:135 | behind a prefix without ":", the first ":key" becomes the value and the rest of the path, a later ":key" included, is kept verbatim |
| Routes.PrefixPlaceholderRewritten | shared/routes.ts:134-135 | a key also rewrites the start of a longer placeholder: key "id" turns ":idx" into the value followed by "x" |
| Routes.DollarPatternExpands | shared/routes.ts:135 | a value "$&" is expanded by `replace` and puts the placeholder back |
| Common.Trim | src/pages/ContactsPage.tsx:77 | `trim()` never lengthens, leaves no whitespace at either end, and is empty exactly for whitespace-only text |
| Common.TrimIdempotent | src/pages/InboxPage.tsx:41 | trimming twice is trimming once |
| Common.Split | src/pages/ContactsPage.tsx:76 | `split(",")` gives at least one piece and no piece holds the separator |
| Common.JoinSplit | src/pages/ContactsPage.tsx:71-76 | joining the pieces of a split with the separator gives the text back |
| Common.SplitJoin | src/pages/ContactsPage.tsx:71-76 | splitting a join of separator-free pieces gives the pieces back |
| Common.IndexOf | shared/routes.ts:134 | `includes`/`indexOf`: a non-negative result is an occurrence |
| Common.IndexOfFacts | shared/routes.ts:134 | the occurrence found is the first one, and -1 means there is none |
| Common.IndexOfFirst | shared/routes.ts:134 | the first place the pattern occurs is what is found |
| Common.ExpandLiteral | shared/routes.ts:135 | a replacement without "$" expands to itself |
| Common.ReplaceFirstLiteral | shared/routes.ts:135 | `replace` with a "$"-free value splices it in for the first occurrence |
| Common.IntStringRoundTrip | src/lib/api.ts:47 | `Number(String(n))` is n for every integer |
| Json.Coalesce | src/services/auth.ts:30-33 | `a ?? b` is b exactly when a is null or undefined, and a otherwise |
| Json.Or | src/lib/api.ts:47 | JavaScript's logical or: a when it is truthy and b otherwise |
| Json.OptGet | src/services/auth.ts:27 | `v?.k` is undefined for a nullish v and otherwise the field, undefined when missing |
| Json.Get | src/lib/api.ts:47 | `v.k` throws exactly on a nullish v and otherwise reads like `v?.k` |
| Json.ToNumberOfNumericString | src/services/auth.ts:30 | `Number` of a number's decimal string, or of the number, is that number |
| Api.ApiBaseUrl | src/lib/api.ts:7 | the configured base when it is set and non-empty, otherwise http://localhost:5000/api |
| Api.ApiUrl | src/lib/api.ts:9-15 | the URL is the base followed by a path that begins with "/" |
| Api.ApiPrefixStrippedOnce | src/lib/api.ts:11-14 | a leading "/api" is stripped exactly once, then the slash rule applies |
| Api.ApiUrlExamples | src/lib/api.ts:11-13 | "/api/contacts" and "/contacts" give the same URL, "/api/api/contacts" keeps one "/api", and "/apix" gives base + "/x" |
| Api.ApiUrlSlash | src/lib/api.ts:13-14 | a path with a leading slash is appended as it is, one without gets one |
| Api.BodyFor | src/lib/api.ts:64 | a body is sent exactly when the data is truthy, and then it is the data |
| Api.GetInit | src/lib/api.ts:57-58 | a GET has no body |
| Api.PostInit | src/lib/api.ts:60-65 | a POST sends a body exactly when the data is truthy |
| Api.PutInit | src/lib/api.ts:67-72 | a PUT sends a body exactly when the data is truthy |
| Api.PatchInit | src/lib/api.ts:74-79 | a PATCH sends a body exactly when the data is truthy |
| Api.DeleteInit | src/lib/api.ts:81-82 | a DELETE has no body |
| Api.BuildRequest | src/lib/api.ts:24-41 | the request goes to `apiUrl(endpoint)` with the caller's verb and body, credentials included, and the JSON and bearer headers |
| Api.PlainHeaders | src/lib/api.ts:27-35 | Content-Type is always JSON, Authorization is present iff a token is stored, and there is no other header |
| Api.Settle | src/lib/api.ts:43-50 | an OK response resolves to its parsed body; a non-OK one throws the body's message, else "HTTP status", and an unparseable body throws the status text, else "Request failed" |
| Api.ApiFetch | src/lib/api.ts:20-51 | makes that request; a network failure throws a TypeError, and a response settles as above |
| Auth.TokenStore.constructor | src/services/auth.ts:13-15 | the store starts with the stored token |
| Auth.TokenStore.GetAuthToken | src/services/auth.ts:13-15 | reads the stored token |
| Auth.TokenStore.SetAuthToken | src/services/auth.ts:17-19 | stores the token |
| Auth.TokenStore.RemoveAuthToken | src/services/auth.ts:21-23 | removes the token |
| Auth.UserSource | src/services/auth.ts:27 | the nested `user` object when present, otherwise the top level |
| Auth.FieldOr | src/services/auth.ts:30-33 | a field's value when it is not null or undefined, otherwise the default |
| Auth.NormalizeUser | src/services/auth.ts:26-35 | email and name are never nullish and companyName never undefined; id is `Number` of the id or 0 |
| Auth.MissingFieldsDefault | src/services/auth.ts:29-34 | missing fields become id 0, email "", name "" and companyName null |
| Auth.NullBodyGivesDefaultUser | src/services/auth.ts:26-35 | a null body normalises to the default user |
| Auth.CompanyNamePreferred | src/services/auth.ts:33 | `companyName` is preferred over `company_name` |
| Auth.NestedUserShadowsTop | src/services/auth.ts:27 | with a nested user, the top-level fields do not matter |
| Auth.StringIdConverted | src/services/auth.ts:30 | a numeric string id becomes that number |
| Auth.ExtractToken | src/services/auth.ts:65 | the token comes from `token`, then `accessToken`, then `data.token`, each taken unless null or undefined |
| Auth.TokenAfter | src/services/auth.ts:65-66 | a truthy token is stored as a string, otherwise the stored token is kept |
| Auth.EmptyTokenHidesAccessToken | src/services/auth.ts:65-66 | an empty `token` stops the chain, so an `accessToken` beside it is not stored |
| Auth.NestedTokenStored | src/services/auth.ts:106-111 | a token under `data.token` is stored |
| Auth.ParseText | src/services/auth.ts:51-58 | an empty or unparseable body reads as null |
| Auth.FailureMessage | src/services/auth.ts:60-62 | a truthy body message, otherwise the fallback |
| Auth.AuthResult | src/services/auth.ts:60-68 | a non-OK response throws the message or the fallback, an OK one resolves to the normalised user |
| Auth.AuthToken | src/services/auth.ts:64-66 | only an OK response can store a token |
| Auth.UnreadableErrorBody | src/services/auth.ts:51-62 | a non-OK response with an unreadable body throws the fallback and stores nothing |
| Auth.LoginBody | src/services/auth.ts:48 | login sends exactly the email and password |
| Auth.SignupBody | src/services/auth.ts:84-89 | signup sends name, email, password and companyName, which is null iff missing or empty |
| Auth.BearerHeaders | src/services/auth.ts:128-130 | the Authorization header alone, "Bearer " + token |
| Auth.MeResult | src/services/auth.ts:133-141 | a user is returned iff the response is OK with a readable body, and then it is the normalised body |
| Auth.MeToken | src/services/auth.ts:133-136 | a 401 removes the stored token and nothing else touches it |
| Auth.MeFailures | src/services/auth.ts:133-138 | a 401 returns null and drops the token; any other non-OK response returns null and keeps it |
| Auth.TokenStore.LoginUser | src/services/auth.ts:40-69 | POSTs the login body to "/auth/login"; the outcome and the stored token follow the response, and a network failure throws and stores nothing |
| Auth.TokenStore.SignupUser | src/services/auth.ts:74-114 | POSTs the signup body to "/auth/register", with the same outcome and token rules and "Signup failed" |
| Auth.TokenStore.FetchMe | src/services/auth.ts:119-146 | with no token there is no request and no user; otherwise a bearer GET of "/auth/me" whose answer gives the user and the 401 rule |
| Auth.TokenStore.LogoutUser | src/services/auth.ts:151-169 | POSTs "/auth/logout" with the bearer header iff a token is stored, and the token is removed whatever the answer |
| InboxHook.MessagesQueryKey | src/hooks/use-inbox.ts:49 | the key is the conversation id, or "all" when there is none or it is 0 |
| InboxHook.MessagesEndpoint | src/hooks/use-inbox.ts:54-59 | one contact's messages with an id, otherwise all messages |
| InboxHook.NoConversationLoadsAll | src/hooks/use-inbox.ts:49-59 | with no id the hook loads base + "/messages" under the key "all" |
| InboxHook.MessageItems | src/hooks/use-inbox.ts:64 | an array response is used directly, otherwise a truthy `messages`, otherwise nothing |
| InboxHook.NormalizeMessage | src/hooks/use-inbox.ts:66-72 | id and direction as they are; contactId from `contact_id` then `contactId`; content from `content`, then `body`, then ""; createdAt from `sent_at`, then `created_at`, then `createdAt` |
| InboxHook.NormalizeMessages | src/hooks/use-inbox.ts:64-72 | one normalised message per item, in order, and a throw for a null item or a list without `map` |
| InboxHook.OnePerItem | src/hooks/use-inbox.ts:66-67 | the output has the input's length and each id unchanged in place |
| InboxHook.WrappedEqualsBare | src/hooks/use-inbox.ts:62-64 | `{ messages: [...] }` normalises like the bare array |
| InboxHook.NoListNoMessages | src/hooks/use-inbox.ts:64 | a response that is not a list and has no truthy `messages` gives no messages |
| InboxHook.SendBody | src/hooks/use-inbox.ts:88-91 | the conversation id is sent as `contactId` and the body as `content`, nothing else |
| InboxHook.SendRequest | src/hooks/use-inbox.ts:86-92 | sending is a POST with that body |
| InboxHook.SendSucceeded | src/hooks/use-inbox.ts:93-102 | a sent message makes its conversation's messages, all messages, the conversations and the contacts stale |
| InboxHook.MarkConversationRead | src/hooks/use-inbox.ts:110-119 | always resolves true without a request and makes the conversations stale |
| ContactsHook.ListKey | src/hooks/use-contacts.ts:21 | the key is under "contacts" and holds the filters, or `{}` without them |
| ContactsHook.ListRequest | src/hooks/use-contacts.ts:22-24 | the request is a plain GET of "/api/contacts" |
| ContactsHook.ContactItems | src/hooks/use-contacts.ts:26 | a response without a truthy `contacts` yields an empty list |
| ContactsHook.NormalizeContact | src/hooks/use-contacts.ts:28-37 | id and created_at as they are; name "Unnamed", phone "", email, stage and last_message null and message_count 0 when missing |
| ContactsHook.ListedContacts | src/hooks/use-contacts.ts:22-38 | one normalised contact per input contact, in order, and a throw for a null item |
| ContactsHook.FiltersNeverReachRequest | src/hooks/use-contacts.ts:15-24 | the filters change neither the request nor the list |
| ContactsHook.BareContactDefaults | src/hooks/use-contacts.ts:30-36 | a contact with only an id gets every default |
| ContactsHook.DefaultsOnlyForNullish | src/hooks/use-contacts.ts:30 | an empty name stays "" and a zero count stays 0 |
| ContactsHook.CreateRequest | src/hooks/use-contacts.ts:51 | create POSTs the new contact to "/api/contacts" |
| ContactsHook.UpdateRequest | src/hooks/use-contacts.ts:72 | update PUTs the updates to "/api/contacts/id", even when empty |
| ContactsHook.DeleteRequest | src/hooks/use-contacts.ts:86 | delete sends a DELETE of "/api/contacts/id" without a body |
| ContactsHook.ContactsChanged | src/hooks/use-contacts.ts:53-56 | every contacts list, whatever its filters, and the pipeline become stale |
| ContactsHook.MutateContact | src/hooks/use-contacts.ts:42-93 | create, update and delete make their request and, when accepted, invalidate "contacts" and "pipeline"; a rejected one changes nothing |
| InboxPage.CollapseHead | src/pages/InboxPage.tsx:41 | collapsing never lengthens the text and keeps its first character, a whitespace one becoming a space |
| InboxPage.CollapseConcat | src/pages/InboxPage.tsx:41 | when the first part does not end in whitespace, collapsing works part by part, so every other character is kept in order |
| InboxPage.CollapseRun | src/pages/InboxPage.tsx:41 | a run of whitespace before a non-space becomes exactly one space |
| InboxPage.CollapseBetweenWords | src/pages/InboxPage.tsx:41 | two characters separated by any whitespace run end up separated by one space |
| InboxPage.CollapseSingleSpaced | src/pages/InboxPage.tsx:41 | after collapsing, whitespace appears only as single spaces |
| InboxPage.CollapseLast | src/pages/InboxPage.tsx:41 | a text ending in a non-space keeps its last character |
| InboxPage.CollapseNoWs | src/pages/InboxPage.tsx:41 | text without whitespace is unchanged |
| InboxPage.Preview | src/pages/InboxPage.tsx:39-43 | "—" for a null or empty text, "" for whitespace only, otherwise the collapsed trimmed text cut to 64 characters plus "…", never longer than 65 |
| InboxPage.PreviewShape | src/pages/InboxPage.tsx:41 | an uncut preview has no whitespace at either end and only single spaces inside |
| InboxPage.ShortWordPreview | src/pages/InboxPage.tsx:39-43 | a short word is its own preview |
| InboxPage.SendOf | src/pages/InboxPage.tsx:118-120 | something is sent iff a contact is active and the draft is not blank, and then it is the trimmed draft |
| InboxPage.ShiftEnterNeverSends | src/pages/InboxPage.tsx:140 | Enter without Shift sends, Shift+Enter never does |
| InboxPage.Composer.constructor | src/pages/InboxPage.tsx:66-74 | no contact is active and the draft is empty |
| InboxPage.Composer.SetDraft | src/pages/InboxPage.tsx:340 | sets the draft only |
| InboxPage.Composer.AutoSelect | src/pages/InboxPage.tsx:91-95 | the first conversation is selected when none is active, and nothing changes otherwise |
| InboxPage.Composer.OnSend | src/pages/InboxPage.tsx:117-137 | sends what `SendOf` says; the draft is cleared, and put back as the sent body if the send fails |
| InboxPage.Composer.OnKeyDown | src/pages/InboxPage.tsx:139-144 | Enter without Shift does what `OnSend` does, the active contact kept and the draft cleared, restored on failure or left alone when nothing is sent; any other key changes nothing |
| Automation.Part | src/pages/AutomationPage.tsx:14-16 | "type(value)" with a value, "type" without one, and the placeholder without a type |
| Automation.SummaryShape | src/pages/AutomationPage.tsx:17 | every summary reads "When T and C, do A." with the three parts in place |
| Automation.EmptyRuleSummary | src/pages/AutomationPage.tsx:13-18 | a rule with nothing set reads "When — and Any, do —." |
| Automation.EmptyLikeNull | src/pages/AutomationPage.tsx:14-16 | an empty type or value reads as a missing one |
| Automation.Defaults | src/pages/AutomationPage.tsx:29-36 | a new rule is empty, enabled, with trigger "contact.stage.changed" and action "send.template"; an existing rule's eight fields are each its value, or that default when missing |
| Common.NullIfEmpty | src/pages/AutomationPage.tsx:42 | an empty string becomes null (or undefined), any other is kept |
| Automation.Draft | src/pages/AutomationPage.tsx:38-47 | empty triggerValue, conditionType, conditionValue and actionValue become null, and the rest is sent as typed |
| Automation.DraftRoundTrip | src/pages/AutomationPage.tsx:29-47 | editing a saved draft starts from exactly the editor that saved it |
| Automation.NewRuleSummary | src/pages/AutomationPage.tsx:56 | a new rule's live summary reads "When contact.stage.changed and Any, do send.template." |
| Automation.NewRuleNeedsName | src/pages/AutomationPage.tsx:148 | a new rule cannot be saved until it has a non-blank name, and then it can |
| Automation.SaveEnabledIff | src/pages/AutomationPage.tsx:148 | Save is enabled iff nothing is saving and the name, trigger type and action type are not blank |
| Automation.TogglePayload | src/pages/AutomationPage.tsx:269-270 | the switch sends only `{ enabled: v }` |
| Templates.EditorDefaults | src/pages/TemplatesPage.tsx:37-40 | the editor holds the template's name, content, status and reason, with "", "", "Pending" and "" for a missing one or without a template |
| Templates.SavedPayload | src/pages/TemplatesPage.tsx:115 | name, content and status as typed, and the rejection reason null iff empty |
| Templates.LockedNeverSaves | src/pages/TemplatesPage.tsx:116 | an approved template's editor can never save |
| Templates.SaveEnabledIff | src/pages/TemplatesPage.tsx:116 | Save is enabled iff nothing is saving, the template is not locked, and the name and content are not blank |
| Templates.SaveRoundTrip | src/pages/TemplatesPage.tsx:115 | reopening a saved template gives back the editor that saved it |
| Templates.HiddenReasonStillSent | src/pages/TemplatesPage.tsx:101 | the reason field shows only for "Rejected", yet a reason typed earlier is still sent |
| Templates.DuplicatePayload | src/pages/TemplatesPage.tsx:284 | the copy is named name + " (copy)" with the same content and status "Pending" |
| Templates.DuplicateUnlocks | src/pages/TemplatesPage.tsx:315 | a copy is never locked |
| Templates.StatusFilter | src/pages/TemplatesPage.tsx:141 | status "all" is sent as undefined, any other as it is |
| Billing.ClampPct | src/pages/BillingPage.tsx:8-11 | a limit of 0 gives 0 and the result never exceeds 100 |
| Billing.NearestPercent | src/pages/BillingPage.tsx:10 | for a positive limit the result is used·100/limit rounded to the nearest integer, halves up, and is 100 exactly when that is at least 99.5 |
| Billing.FullAndEmpty | src/pages/BillingPage.tsx:9-10 | used ≥ limit > 0 gives 100 and nothing used gives 0 |
| Billing.OneOfEight | src/pages/BillingPage.tsx:10 | one of eight shows 13 |
| Billing.MonotoneInUsed | src/pages/BillingPage.tsx:10 | for a fixed limit, more used never shows less |
| Sidebar.InboxExact | src/components/AppSidebar.tsx:67 | Inbox is active only on exactly "/inbox" |
| Sidebar.OthersByPrefix | src/components/AppSidebar.tsx:67 | any other item is active iff the location starts with its href |
| Sidebar.BillingxHighlightsBilling | src/components/AppSidebar.tsx:67 | "/billingx" highlights Billing, "/contacts/42" highlights Contacts, "/inbox/3" does not highlight Inbox |
| Sidebar.HrefKeysFacts | src/components/AppSidebar.tsx:31-40 | the eight hrefs start with eight different three-character keys |
| Sidebar.NoHrefPrefixesAnother | src/components/AppSidebar.tsx:31-40 | no href is a prefix of another |
| Sidebar.PrefixesComparable | src/components/AppSidebar.tsx:67 | two prefixes of one location are prefixes of each other |
| Sidebar.AtMostOneActive | src/components/AppSidebar.tsx:67 | at most one item is active for any location |
| Sidebar.Navigator.constructor | src/components/AppSidebar.tsx:43 | the router starts at its location |
| Sidebar.Navigator.SetLocation | src/components/AppSidebar.tsx:47 | navigation sets the location |
| Sidebar.HandleLogout | src/components/AppSidebar.tsx:45-48 | logout leaves no token and the location at "/auth/login" |

## Left out

- Rendering, styling, toasts, dialogs and the purely presentational components have no behaviour beyond markup and are not part of this model.
- `fetch`, `localStorage` and the browser: a request is a value, the network's answer a parameter, and the stored token a field of `Auth.TokenStore`.
- React Query internals (`cancelQueries`, refetching, subscribers): invalidation only marks a key prefix stale.
- Concurrent mutations and the last-response-wins race between overlapping moves: the model is sequential.
- The pipeline query's `data || {}` fallback: the cache holds either a record or nothing.
- `useConversations`, `useDebounced` and the inbox's mark-read effect: the conversation list, the debounced search and the effect's timing are inputs.
- Dates: `lastActiveAt` is an integer key, and `new Date(scheduledAt).toISOString()` in the campaign payload is left out, the entered text being carried unchanged; so the RangeError that `toISOString` throws for a text that is not a date, which the Finish gate (`!!scheduledAt`) does not prevent, is not modelled.
- `localeCompare`: replaced by a total lexicographic order on code points.
- `\s` and `trim()` whitespace: a fixed set of whitespace characters, not all of Unicode; lengths count characters, not UTF-16 units.
- `Number(s)` and `String(n)`: integers only, decimal digit strings, no exponent or fractional forms and no NaN beyond a non-numeric string; `Common.NumberOf` also gives NaN for text JavaScript reads as a number: padded with whitespace, whitespace only, with a leading "+", or in hexadecimal.
- Null and undefined stages: a pipeline card's stage is either a string or missing, so a null stage, which `JSON.stringify` would send as `"stage":null`, is treated like a missing one and its key is left out of the move body.
- PipelineHook.Moved: a move whose stage is undefined writes the text "undefined" both as the record key, as the source does, and as the moved contact's stage field, where the source stores the value undefined.
- Templates.DuplicatePayload: the copy's `rejectionReason` is None, which in `Templates.TemplateFields` stands for both a null and a missing field; the source sends no such key, while a saved template sends null.
- Object key order: a record's keys are kept in insertion order, without JavaScript's rule that integer-like keys come first.
- Billing.ClampPct: rounds the exact rational used/limit·100, so a floating-point product that lands just off a half is not reproduced; a negative result stays negative, as in the source.
- The analytics page's floating-point percentage.
- PipelinePage.SortByRecencyFacts: states that the sort is ordered and a permutation, not where a stable sort places equal keys; the source's comparator never returns 0.
- The thin data hooks for broadcasts, automations, templates, analytics, billing and auth, the `api` object of `shared/routes.ts`, and the drizzle/zod definitions of `shared/schema.ts` beyond its stage list.
