# ProfitScout core, modelled in Dafny

ProfitScout is a Next.js stock-analysis dashboard. A signed-in user picks stocks, a sector or
"AI top pick", and gets a BUY/HOLD/SELL recommendation from an AI flow. Follow-up questions can
then be asked about it. Non-subscribers get five free analyses. A payment-provider webhook keeps
each user's subscription flag up to date.

This project models the parts of the app that make decisions. Each is proved against its own
specification:

- **Usage gate** (`Actions`): `handleGetRecommendation`. It reads the user, refuses with a
  subscription demand when the user is over quota, charges one analysis to a non-subscriber and
  then calls the flow. The store of users is the `Users.Store` class over a
  `map<string, UserRecord>`.
- **Flow** (`Recommendation`): the input/output schemas, the choice among the five prompt
  variants made by the nested Handlebars conditions, and the flow run itself.
- **Webhook** (`Webhook`): the event switch and the single write it performs.
- **GCS URI parsing** (`GcsUri`), built on the JavaScript `split`/`join`/`startsWith`/`trim`
  semantics in `Text`.
- **Stock list** (`Stocks`): the schema filter, the in-place Fisher–Yates shuffle over an
  `array`, and the `slice` that follows it.
- **Feedback store** (`Feedback`).
- **Multi-select control** (`MultiSelect`).
- **The two dashboard pages** (`DashboardClient`, `DashboardPage`): classes whose methods update
  the page state step by step, as the React setters do.

Modules follow the source files. `wrappers.dfy` and `json.dfy` hold `Option`/`Result` and a JSON
value type. `chat.dfy` holds the message type the two pages share.

Calls into outside services become parameters. The user store is the exception: it is the
`Users.Store` class, whose methods always succeed.

| service call | modelled as |
|---|---|
| AI service | `reply: Mode -> ModelReply` |
| follow-up flow | `followUp` |
| customer-id lookup | `lookup` |
| subscription retrieval | `retrieve` |
| signature check | a `Result<Event, string>` |
| random index of the shuffle | an arbitrary `j` with `0 <= j <= i` |
| UUID | `traceId` |
| request origin, price id | plain parameters |
| failed database write | `writeError` |
| feedback summarisation flow | its output, `summary` |

The store helpers are not defined in the modelled files, so only what their call sites need is
assumed of them:
- get-or-create inserts a caller-given record for an unknown uid;
- increment adds one;
- set-status assigns the flag.

Increment and set-status do nothing for a uid that has no record. Every call site here reaches
them with a stored uid, except the webhook. The webhook's lookup may return a uid without a
record, and the model then writes nothing.

Notes on where the code does something other than what its names, comments or descriptions
suggest:

- **Prompt routing is by Handlebars truthiness, not by URI count,** although the input schema
  describes `uris` by how many there are. `["a", "", "c"]` selects
  the single-stock variant and `["a", "b", ""]` selects the comparison
  (`Recommendation.RoutingIsNotByCount`).
- **The ten-URI bound is checked by the flow, i.e. after the usage increment.** An oversized
  request therefore still costs a non-subscriber one analysis
  (`Actions.FlowErrorsAreRethrownAfterCharge`).
- **`getAITopPick` sends the URI of every stock,** although its variable is called
  `randomStocks` and the prompt speaks of up to ten. With more than ten stocks,
  every top pick is charged and then rejected
  (`DashboardClient.TopPickOverTenStocksIsChargedAndRejected`).
- **Splitting a label `id - name` at `" - "` recovers the id when the id has no space.** "The id
  does not contain `" - "`" is not enough: the id `"A -"` gives the ticker `"A"`
  (`DashboardClient.LabelSplitNeedsMoreThanNoSeparator`).
- **The tabbed page's follow-up handler catches nothing.** A failed answer leaves the question,
  the skeleton and the loading flag in place (`DashboardPage.Page.SubmitFollowUp`).

## Model

| member | source | states |
|---|---|---|
| `Text.JoinSplit` | src/lib/firebase-admin.ts:52-53 | joining the pieces of `split(sep)` with `sep` gives back the original string |
| `Text.SplitPiecesAreFree` | src/lib/firebase-admin.ts:52 | no piece produced by `split(sep)` contains `sep` |
| `Text.TrimAround` | src/app/dashboard/dashboard-client-page.tsx:158 | trimming whitespace-only padding around a text that starts with a non-space leaves that text with only its end trimmed |
| `Users.Upsert` | src/app/actions.ts:44 | get-or-create keeps an existing record, adds `newUser` for an unknown uid, and leaves every other uid as it was |
| `Users.Incremented` | src/app/actions.ts:55 | the usage count of `uid` goes up by exactly one; no other record or field changes |
| `Users.WithSubscription` | src/app/api/stripe/webhook/route.ts:14 | only the subscription flag of `uid` is assigned; everything else stays |
| `Users.Store.GetOrCreate` | src/app/actions.ts:44 | the store becomes the upsert of the old one, and the record returned is the one now stored for `uid` |
| `Users.Store.IncrementUsage` | src/app/actions.ts:55 | the store after the call is the old store with `uid`'s usage incremented |
| `Users.Store.SetSubscriptionStatus` | src/app/api/stripe/webhook/route.ts:14 | the store after the call is the old store with `uid`'s flag assigned |
| `JsonValues.StringField` | src/lib/firebase-admin.ts:18-22 | definition of zod's `z.string()` field: a `z.string()` field accepts exactly a present key holding a JSON string, and yields that string |
| `Recommendation.UriAt` | src/ai/flows/initial-recommendation.ts:85-86 | definition of the Handlebars lookup: `uris.[i]` is defined exactly for an index inside the list, and is then that URI |
| `Recommendation.SelectMode` | src/ai/flows/initial-recommendation.ts:69-224 | the variant chosen by the nested template conditions is one whose flat input shape the input has |
| `Recommendation.ShapesAreExclusive` | src/ai/flows/initial-recommendation.ts:69-224 | no input has two shapes, so exactly one of the five variants applies to every input |
| `Recommendation.SelectModeIffShape` | src/ai/flows/initial-recommendation.ts:69-224 | a variant is chosen if and only if the input has its shape |
| `Recommendation.SectorWins` | src/ai/flows/initial-recommendation.ts:69-83 | a non-empty sector selects the sector variant, whatever the URIs are |
| `Recommendation.DisplayHintsDoNotRoute` | src/ai/flows/initial-recommendation.ts:22-24 | changing `ticker` or `companyName` never changes the variant chosen |
| `Recommendation.EmptySecondUriIsSingle` | src/ai/flows/initial-recommendation.ts:85 | `["a", ""]` selects the single-stock variant, because an empty second URI is falsy |
| `Recommendation.RoutingIsNotByCount` | src/ai/flows/initial-recommendation.ts:84-86 | three URIs with an empty second one select single-stock; three with an empty third one select the comparison |
| `Recommendation.Slots` | src/ai/flows/initial-recommendation.ts:82-177 | only the single-stock variant interpolates `ticker`/`companyName`; only the comparison interpolates URIs, and only `uris.[0]` and `uris.[1]` |
| `Recommendation.ChosenSlotsAreDefined` | src/ai/flows/initial-recommendation.ts:84-177 | every URI the chosen variant interpolates exists, every one past the first is non-empty, and a sector slot means a non-empty sector |
| `Recommendation.JsonStrings` | src/ai/flows/initial-recommendation.ts:36-40 | definition of the JSON encoding: a string list is encoded as a JSON array of the same length holding those strings, item by item |
| `Recommendation.StringItems` | src/ai/flows/initial-recommendation.ts:36-40 | `z.array(z.string())` accepts exactly an array whose every item is a string, and yields strings that encode back to the array |
| `Recommendation.ParseOutput` | src/ai/flows/initial-recommendation.ts:30-41 | an accepted reply is an object holding the `recommendation` string and the `reasoning` string array of the result |
| `Recommendation.ParseOutputJson` | src/ai/flows/initial-recommendation.ts:30-41 | every output, encoded, passes the output schema and decodes to itself, even with extra keys present |
| `Recommendation.StringsRoundTrip` | src/ai/flows/initial-recommendation.ts:36-40 | decoding an encoded string array gives back the strings |
| `Recommendation.SchemaAdmitsEmptyReply` | src/ai/flows/initial-recommendation.ts:30-41 | the output schema sets no bounds: an empty recommendation with no reasoning passes |
| `Recommendation.Flow` | src/ai/flows/initial-recommendation.ts:240-250 | more than ten URIs fail with an input error; a success is the parsed reply to the chosen variant; an unparsable reply fails with an output error; a service failure is passed on with its message |
| `Recommendation.FlowAsksOnlyChosenVariant` | src/ai/flows/initial-recommendation.ts:227-250 | only the reply to the chosen variant can affect the result |
| `Recommendation.FlowReturnsConformingReply` | src/ai/flows/initial-recommendation.ts:240-250 | a conforming input whose chosen prompt is answered with an encoded output yields exactly that output |
| `Chat.ChatHistory` | src/app/dashboard/dashboard-client-page.tsx:242-245 | one turn per message, in order; a turn is a user turn exactly when the message is the user's; non-text content becomes `"..."` |
| `Chat.ChatHistoryAppend` | src/app/dashboard/dashboard-client-page.tsx:242-245 | the chat history of a concatenation is the concatenation of the chat histories |
| `Feedback.FeedbackCollection.SaveFeedback` | src/lib/firebase.ts:60-71 | a successful write appends exactly the two strings passed; any failure leaves the collection as it was and reports the single fixed message |
| `Actions.HandleGetRecommendation` | src/app/actions.ts:33-79 | the response, the new store and the flow call are exactly those of the gate on the old store: get-or-create, refusal check, charge, then flow |
| `Actions.Gate` | src/app/actions.ts:42-78 | the store afterwards holds exactly the old uids plus `uid`; the flow is called exactly when the request is not refused, and then with the input and the trace id |
| `Actions.GateRefusesIffOverQuota` | src/app/actions.ts:47-50 | a request is refused exactly when `usageCount >= 5 && !isSubscribed`, and the refusal is always `{error: 'Usage limit reached', required: 'subscription'}` |
| `Actions.RefusalHasNoEffect` | src/app/actions.ts:47-50 | a refused request makes no flow call and charges nothing; only the get-or-create remains |
| `Actions.SubscriberIsUnmetered` | src/app/actions.ts:52-57 | a subscriber is never refused and never charged, and the flow gets the input and the trace id |
| `Actions.UnderQuotaIsChargedOnce` | src/app/actions.ts:53-62 | a non-subscriber under quota is charged exactly one analysis on their own record only, and the flow gets the input unchanged plus the trace id |
| `Actions.FlowErrorsAreRethrownAfterCharge` | src/app/actions.ts:67-78 | a flow error reaches the caller unchanged and the charge made before the call stays; more than ten URIs are charged, then rejected |
| `Actions.QuotaOverSession` | src/app/actions.ts:47-57 | over any number of requests, a non-subscriber starting at `k` analyses gets `min(n, 5 - k)` flow calls and ends at `min(5, k + n)`; at five or more, nothing more is charged or called |
| `Actions.SubscriberSession` | src/app/actions.ts:52-57 | a subscriber's record never changes over any number of requests, and every request reaches the flow |
| `Actions.FifthAnalysisThenPaywall` | src/app/actions.ts:47-65 | at four analyses used, the next request succeeds and brings the count to five, and the one after it is refused and changes nothing |
| `Actions.ToFollowUpInput` | src/app/actions.ts:88-94 | `ticker1` is the first ticker; `ticker2` is the second only when it is non-empty; the question, the recommendation and the chat history are copied through |
| `Actions.FollowUpUsesTwoTickers` | src/app/actions.ts:90-91 | tickers beyond the second never reach the follow-up flow |
| `Actions.CheckoutFor` | src/app/actions.ts:108-118 | a missing or empty price id is an error with the fixed message; otherwise the session request carries that price id, the user's email, and `origin + "/dashboard"` as both return URLs |
| `Actions.CreateCheckoutSession` | src/app/actions.ts:104-121 | the user is fetched or created before the price id is checked, and the result is the checkout request for that record |
| `Actions.HandleFeedback` | src/app/actions.ts:98-102 | the feedback text and its summary are saved exactly as given; a failed save surfaces as the fixed message |
| `Webhook.Transition` | src/app/api/stripe/webhook/route.ts:35-54 | only the four handled event types can ask for a write |
| `Webhook.Apply` | src/app/api/stripe/webhook/route.ts:9-18 | definition of the store after one flag change; its properties are `UnmatchedCustomerWritesNothing` and `OnlyMatchedFlagIsWritten` |
| `Webhook.ApplyEvent` | src/app/api/stripe/webhook/route.ts:35-54 | definition of the store after one event; its properties are the event lemmas below and `ReplayIsIdempotent` |
| `Webhook.HandleSubscriptionChange` | src/app/api/stripe/webhook/route.ts:9-18 | the matched user's flag is assigned, and an unknown customer writes nothing |
| `Webhook.Post` | src/app/api/stripe/webhook/route.ts:21-57 | a failed signature check answers 400 with `Webhook Error: <message>` and writes nothing; a verified event answers `{received: true}` after the write its transition asks for |
| `Webhook.SubscriptionSetsActiveFlag` | src/app/api/stripe/webhook/route.ts:36-39 | a created or updated subscription sets its customer's flag to whether its status is `active` |
| `Webhook.DeletionClearsFlag` | src/app/api/stripe/webhook/route.ts:41-43 | a deleted subscription clears its customer's flag, whatever its status |
| `Webhook.CheckoutSetsFlagOnlyForSubscriptions` | src/app/api/stripe/webhook/route.ts:45-50 | a completed checkout asks for a write exactly when it is in subscription mode with a non-empty subscription id, and then sets the retrieved subscription's customer to subscribed |
| `Webhook.OtherEventsWriteNothing` | src/app/api/stripe/webhook/route.ts:52-56 | any other event type leaves the store unchanged |
| `Webhook.UnmatchedCustomerWritesNothing` | src/app/api/stripe/webhook/route.ts:11-17 | no user with the customer id means no write |
| `Webhook.OnlyMatchedFlagIsWritten` | src/app/api/stripe/webhook/route.ts:13-14 | every record except the matched user's is untouched, and of the matched record only the flag changes |
| `Webhook.ReplayIsIdempotent` | src/app/api/stripe/webhook/route.ts:13-14 | handling the same event twice leaves the store as handling it once |
| `GcsUri.ParseGcsUri` | src/lib/firebase-admin.ts:48-54 | parsing fails exactly when the URI lacks the `gs://` prefix, with `Invalid GCS URI: <uri>` |
| `GcsUri.BucketHasNoSlash` | src/lib/firebase-admin.ts:52 | the bucket never contains `/` |
| `GcsUri.RoundTripWithPath` | src/lib/firebase-admin.ts:52-53 | when the rest after `gs://` contains `/`, `"gs://" + bucket + "/" + objectPath` is the URI |
| `GcsUri.SlashGivesTwoPieces` | src/lib/firebase-admin.ts:52 | a remainder holding `/` splits into a bucket and at least one path piece |
| `GcsUri.NoSlashMeansEmptyPath` | src/lib/firebase-admin.ts:52-53 | when the rest holds no `/`, it is the bucket and the object path is empty |
| `GcsUri.ParseFormatted` | src/lib/firebase-admin.ts:48-54 | any bucket without `/` and any path, formatted as a URI, parse back to themselves |
| `Stocks.ParseStock` | src/lib/firebase-admin.ts:31-39 | a document passes exactly when `company_name` and `bundle_gcs_path` are strings; the stock's id is the document id and its fields are those strings |
| `Stocks.GetStocks` | src/lib/firebase.ts:28-46 | the loop over the snapshot returns exactly the documents that pass the schema, in snapshot order |
| `Stocks.ValidStocks` | src/lib/firebase.ts:28-46 | definition of the filtered list; its properties are `ValidStocksAppend`, `ValidStocksMembers` and `ValidStocksLength` |
| `Stocks.ValidStocksAppend` | src/lib/firebase-admin.ts:30-43 | filtering a concatenation of snapshots gives the concatenation of the filtered parts, so order is kept |
| `Stocks.ValidStocksMembers` | src/lib/firebase.ts:30-43 | a stock is kept exactly when it is the parse of some document of the snapshot |
| `Stocks.ValidStocksLength` | src/lib/firebase-admin.ts:37-42 | at most one stock is kept per document, and none is dropped when every document passes |
| `Stocks.Shuffle` | src/lib/firebase-admin.ts:71-74 | every swap draws `j` in `[0, i]`, and the array stays a permutation of the original |
| `Stocks.SliceEnd` | src/lib/firebase-admin.ts:76 | definition of JavaScript's `slice` end: `slice(0, count)` keeps `min(count, n)` items for a non-negative count and counts from the end for a negative one |
| `Stocks.GetRandomStocks` | src/lib/firebase.ts:48-58 | the result has `min(count, n)` stocks for `count >= 0`, each taken from the valid stocks no more often than it occurs there, and is a permutation of them when the count covers them all |
| `MultiSelect.Remove` | src/components/multi-select.tsx:58 | no entry with the value remains, the length does not grow, every kept entry comes from the input, and a list without the value is unchanged |
| `MultiSelect.RemoveKeepsOthers` | src/components/multi-select.tsx:58 | removing one value keeps exactly the other values that were selected |
| `MultiSelect.HandleSelect` | src/components/multi-select.tsx:48-54 | the toggled value is selected afterwards exactly when it was not before; every other value keeps its state |
| `MultiSelect.HandleRemove` | src/components/multi-select.tsx:56-59 | the removed value is no longer selected; every other value keeps its state |
| `MultiSelect.IsMaxReached` | src/components/multi-select.tsx:61 | definition: a cap is given and the selection has reached it; used by `UiSelectKeepsCap` |
| `MultiSelect.ItemDisabled` | src/components/multi-select.tsx:110 | definition: an unselected item is disabled once the cap is reached; used by `UiSelectKeepsCap` |
| `MultiSelect.RemoveAppend` | src/components/multi-select.tsx:51 | removal works part by part over a concatenation, so the kept entries keep their order |
| `MultiSelect.RemoveSingleton` | src/components/multi-select.tsx:51 | a single entry is kept exactly when its value differs |
| `MultiSelect.RemoveIsIdempotent` | src/components/multi-select.tsx:58 | removing twice is removing once |
| `MultiSelect.SelectToggles` | src/components/multi-select.tsx:48-54 | selecting an absent option appends it at the end; selecting a present one removes it and keeps only entries of the old list |
| `MultiSelect.RemoveShrinks` | src/components/multi-select.tsx:50-51 | removing a present value makes the list strictly shorter |
| `MultiSelect.SelectTwiceIsIdentity` | src/components/multi-select.tsx:50-53 | selecting an absent option twice gives back the original list |
| `MultiSelect.UiSelectKeepsCap` | src/components/multi-select.tsx:61-110 | with unselected items disabled once the cap is reached, clicks never take the selection past `max` |
| `DashboardClient.StockOption` | src/app/dashboard/dashboard-client-page.tsx:56-59 | an option's value is the stock's bundle path and its label starts with `id - ` |
| `DashboardClient.LabelSplitRecoversTicker` | src/app/dashboard/dashboard-client-page.tsx:121 | splitting the label of a stock whose id has no space gives the id first, and exactly id and name when the name has no separator |
| `DashboardClient.LabelSplitNeedsMoreThanNoSeparator` | src/app/dashboard/dashboard-client-page.tsx:257 | the id `"A -"` contains no `" - "` yet its label's ticker comes out as `"A"` |
| `DashboardClient.BuildRequest` | src/app/dashboard/dashboard-client-page.tsx:117-131 | the URIs are the selected values in selection order; ticker and company name are sent only for a single selection, the ticker being the label's first piece |
| `DashboardClient.BuildRequestSingleStock` | src/app/dashboard/dashboard-client-page.tsx:120-131 | for one stock whose id has no space and whose name has no `" - "`, the request carries its bundle path, its id as ticker and its company name |
| `DashboardClient.TickerOf` | src/app/dashboard/dashboard-client-page.tsx:121 | definition (`label.split(' - ')[0]`); its properties are `LabelSplitRecoversTicker` and `LabelSplitNeedsMoreThanNoSeparator` |
| `DashboardClient.ClientBlocks` | src/app/dashboard/dashboard-client-page.tsx:102 | definition of the client's quota test; `ClientCheckMatchesGate` ties it to the server gate |
| `DashboardClient.ClientCheckMatchesGate` | src/app/dashboard/dashboard-client-page.tsx:97-106 | the client blocks exactly the requests the server gate refuses |
| `DashboardClient.Remaining` | src/app/dashboard/dashboard-client-page.tsx:369 | the remaining count is never negative and never above five; it is zero exactly at five or more uses, and otherwise the uses and the remainder add up to five |
| `DashboardClient.NoneLeftIffRefused` | src/app/dashboard/dashboard-client-page.tsx:388 | a non-subscriber is shown zero remaining exactly when the server would refuse them |
| `DashboardClient.RecommendationMarkdown` | src/app/dashboard/dashboard-client-page.tsx:151-158 | the message shown is the recommendation body with the template's surrounding whitespace removed |
| `DashboardClient.TemplateTrims` | src/app/dashboard/dashboard-client-page.tsx:247-252 | whatever the template's indentation, trimming leaves the body with only its end trimmed |
| `DashboardClient.FollowUpTextIsDisplayedText` | src/app/dashboard/dashboard-client-page.tsx:247-258 | the recommendation text sent with a follow-up equals the message that was displayed |
| `DashboardClient.TopPickRequest` | src/app/dashboard/dashboard-client-page.tsx:189-190 | the top-pick request carries the bundle URI of every stock, in order, and no sector, ticker or company name |
| `DashboardClient.TopPickOverTenStocksIsChargedAndRejected` | src/app/dashboard/dashboard-client-page.tsx:184-190 | with more than ten stocks, a non-subscriber's top pick is charged one analysis and rejected by the input schema |
| `DashboardClient.SelectedTickers` | src/app/dashboard/dashboard-client-page.tsx:257 | definition of the `map` over labels: one ticker per selected option, in order, each the first piece of its label |
| `DashboardClient.ClientPage.constructor` | src/app/dashboard/dashboard-client-page.tsx:39-50 | nothing is selected, no messages, not loading, zero usage, not subscribed |
| `DashboardClient.ClientPage.CheckUsageLimit` | src/app/dashboard/dashboard-client-page.tsx:97-107 | without a user the answer is false and nothing changes; otherwise the record is fetched, mirrored into the page, and the answer is false with the dialog shown exactly when the user is over quota |
| `DashboardClient.ClientPage.Present` | src/app/dashboard/dashboard-client-page.tsx:133-168 | called with a stored uid; a subscription refusal opens the dialog and any other failure clears the messages, both without a store call; a recommendation is stored and shown as its markdown, and the usage count is read again |
| `DashboardClient.ClientPage.GetRecommendation` | src/app/dashboard/dashboard-client-page.tsx:109-170 | nothing happens while loading, with no selection or without a user; otherwise the store ends as the gate leaves it; a refusal leaves the messages and the stored recommendation and opens the dialog; the messages hold the recommendation's markdown on success and nothing on an error |
| `DashboardClient.ClientPage.GetAiTopPick` | src/app/dashboard/dashboard-client-page.tsx:172-225 | nothing at all changes without a user; with one, the page mirrors the stored subscription flag; a blocked user sees the dialog and the stored usage count, with messages, selection, loading flag and stored recommendation unchanged; otherwise the dialog stays as it was, the usage count is the one read after a recommendation (or at the check), the selection is cleared, an empty stock list fails without a request, the answer to the every-stock request is presented, and the stored recommendation changes only on a success |
| `DashboardClient.ClientPage.SubmitFollowUp` | src/app/dashboard/dashboard-client-page.tsx:228-274 | the guard leaves everything unchanged; the request carries the chat history of the earlier messages; an answer leaves the old messages plus the question and the answer; a failure leaves the old messages |
| `DashboardPage.TabLimit` | src/app/dashboard/page.tsx:62 | the limit is 1 exactly on `ai-top-pick`, and 2 on every other tab |
| `DashboardPage.GetRecommendationDisabled` | src/app/dashboard/page.tsx:148-159 | definition of the switch; its rules are `GetRecommendationDisabledRules` |
| `DashboardPage.ShowChat` | src/app/dashboard/page.tsx:296 | definition of `showChat`; its rules are `ShowChatRules` |
| `DashboardPage.FollowUpDisabled` | src/app/dashboard/page.tsx:341 | definition of the input's disabled rule; its rules are `FollowUpDisabledRules` |
| `DashboardPage.FollowUpDisabledRules` | src/app/dashboard/page.tsx:341-343 | the follow-up input and button are enabled exactly when not loading, some message is shown and a recommendation text is stored; never while loading |
| `DashboardPage.GetRecommendationDisabledRules` | src/app/dashboard/page.tsx:148-159 | the button is disabled while loading and on an unknown tab; on each known tab it is enabled exactly when not loading and that tab's selection is non-empty |
| `DashboardPage.ShowChatRules` | src/app/dashboard/page.tsx:296 | the chat always shows on the two stock tabs; on the sector and industry tabs it shows exactly once a non-system message exists |
| `DashboardPage.Values` | src/app/dashboard/page.tsx:108 | definition of the `map` over values: the follow-up tickers are the selected values, in order |
| `DashboardPage.Page.constructor` | src/app/dashboard/page.tsx:39-51 | the page opens on `ai-top-pick` with nothing selected and the welcome message, and both buttons disabled |
| `DashboardPage.Page.HandleTickerSelection` | src/app/dashboard/page.tsx:61-66 | a selection within the tab's limit is taken; a longer one leaves the state unchanged; the selection then still fits the tab |
| `DashboardPage.Page.SelectTab` | src/app/dashboard/page.tsx:136-146 | a tab change empties the tickers, sector and industry and restores the single welcome message; the same tab changes nothing |
| `DashboardPage.Page.SubmitFollowUp` | src/app/dashboard/page.tsx:86-115 | the guard leaves everything unchanged; an answer leaves the old messages plus the question and the answer; a failure leaves the question and the skeleton with loading still on, so the follow-up input stays disabled |

## Left out

- Firestore, Cloud Storage, Stripe and Genkit are not modelled; their calls are parameters, as
  listed above. This covers `createStripeCheckoutSession` in `src/lib/stripe.ts`, the bundle
  download and JSON parse in `getStockDataBundleAdmin`, and the prompt execution.
- The prompt text is opaque, including its composite-score and tie-break instructions. Only which
  variant is chosen, and which fields it interpolates, is modelled.
- `getStockPrice` is left out: it returns a random floating-point number.
- Concurrency is left out. The read-then-increment of the gate is modelled as one sequential
  step, so the race between two concurrent requests of one user is not represented.
- Authentication, dialogs, toasts, scrolling, rendering and the markdown component are left out.
  The signed-in user is an optional `AuthUser`.
- The store helpers are not modelled beyond the three effects stated above. In particular, how
  `getOrCreateUser` builds a new record from `isAnonymous` is a parameter (`newUser`).
- Users.Store.GetOrCreate, Users.Store.IncrementUsage and Users.Store.SetSubscriptionStatus
  never fail. A failure of the database behind them is not modelled.
- Actions.HandleGetRecommendation: because the store cannot fail, the model does not cover a
  rejected get-or-create or increment. In the source that error is rethrown before the flow is
  called, and for a rejected increment before any charge. `FlowErrorsAreRethrownAfterCharge`
  covers flow errors only.
- The `console.log`, `console.warn` and `console.error` calls are left out. They only write logs.
- `Actions.RequiresAuth` is the `auth` value of the declared return type. The action never
  returns it, so no modelled path produces it.
- Webhook.Post: a rejected customer-id lookup is not modelled. In the source that rejection
  escapes the handler, so the request fails instead of answering `{received: true}`.
- Recommendation.Flow and Actions.Gate assume that the flow's input check, and the prompt's,
  ignore unknown keys. The action adds `traceId`, which the input schema does not declare. The
  flow is therefore applied to the caller's input alone.
- DashboardClient.ClientPage.GetAiTopPick: a rejected `getStocks` is not modelled. In the source
  it is caught and the messages become empty. `stocks` is the list it returned.
- Actions.HandleFeedback: a rejected summarisation flow is not modelled. In the source that
  error is rethrown before anything is saved. `summary` is the flow's output.
- The `createdAt` server timestamp of a feedback document is left out.
- A failure of the subscription retrieval inside the webhook is not modelled.
- The tabbed page's `getRecommendation` is not modelled: it calls `handleGetRecommendation` with
  an argument list that does not match its declaration.
- `fetchStocks`, `submitFeedback`, `handleSubscribeClick` and the initial user effect of the
  client page are not modelled. They only copy server results into the page or show toasts.
- `Webhook.Transition`: an event whose object does not have the shape its type implies asks for
  no write. The provider guarantees the shape, and the source casts without checking.
- `Text.IsWhitespace` covers ASCII whitespace, U+00A0, U+FEFF, U+2028 and U+2029. The other
  Unicode space separators that JavaScript's `trim` also removes are left out.
- The remaining-count badge is modelled as the number it shows, not as the formatted text.
- `DashboardClient.ClientPage.GetRecommendation` does not state the usage count and
  subscription flag the page shows afterwards. It states only the store, the messages, the stored
  recommendation and the dialog.
