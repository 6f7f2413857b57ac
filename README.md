# Freelance-order bots and mini-app: a Dafny model

This project models the control logic of three cooperating services:

- **The userbot service** (`bot1_userbot`). It runs on a Telegram user account and provisions a group chat for an order. When the notify bot cannot reach a contractor, it sends and tracks a substitute ("fallback") message. When that contractor later shows up in the group, it deletes the message.
- **The notify bot service** (`bot3_notify_bot`). It sends order and payment notifications and pins an order-details message. It falls back to the userbot service when Telegram answers `Forbidden`.
- **The contractor mini-app** (`miniapp`). This covers:
  - its record store of contractors, orders, their associations, stages, files and properties;
  - the CRM operations on that store;
  - the contractor-facing endpoints;
  - the check of Telegram's `initData` signature;
  - the page's pure helpers.

## How the model is built

Every Telegram, HTTP or database call is a transport call. `Transport.Client` holds a script of outcomes, where each outcome is `Ok(reply)` or `Err(error)`. Each call takes the next outcome and is appended, with that outcome, to a log. Properties about order, retries and which steps ran are stated over that log.

- **Userbot provisioning** has two definitions:
  - `Userbot.Provision`, a reference run built from a plan of steps whose error handling mirrors the nested `try`/`except` of the code;
  - the imperative `Userbot.Userbot.CreateAndSetupGroup`, which makes the same calls one at a time on the client. It is proved to produce exactly the reference run.
- **The fallback-message table** is a class holding a sequence of rows and an id counter (`FallbackStore.Storage`).
- **The mini-app database** is a value `MiniappStore.Db`. It has maps for the keyed tables and sequences in insertion order for the row tables. `MiniappStore.Store` keeps the same tables as fields. Each method is proved to leave exactly the state that a pure function (`Upsert`, `DeleteOrder`, `UpdateFromCrm`, `AppApi.AddStage`, …) gives. The lemmas about the operations are proved on those functions.
- **Foreign computations** are parameters:
  - HMAC-SHA256, UTF-8 and hex encoding, the query-string parser, and reading the user id out of the JSON `user` field;
  - the current time.
- **Python's `int()`** on text is modelled as optional surrounding whitespace (in ASCII, space and `\t\n\v\f\r`; beyond ASCII, what `str.isspace` accepts), an optional sign and ASCII digits (`Common.ParseInt`).
- **SQL `ORDER BY`** is modelled by order-preserving insertion sorts. The model relies only on their stated order and on their being permutations (`Sorting`).

## Behaviour worth knowing

- **Two provisioning failures are not soft.** Most steps after the group's creation have their own `try`, but two failures escape to the outer handler, so `ok` is false:
  - adding a service bot with an error that is not an `RPCError`;
  - listing the chat history (telegram_client.py:87-95 and 176).
  
  So a run in which the creation succeeds and every later call fails ends with `ok = false` (`Userbot.EveryLaterCallFailingFails`).
- **A pair can have several fallback rows.** The insert is unconditional, so a (contractor, group) pair can have several fallback rows, and one join event removes only one of them (`Userbot.DuplicateRowSurvivesOneUpdate`).

## Model

| member | source | states |
|---|---|---|
| FallbackStore.FirstFor | services/bot1_userbot/app/storage.py:41-47 | a lookup by pair yields a stored row for that contractor and group, and yields none exactly when no row matches both keys |
| FallbackStore.WithoutId | services/bot1_userbot/app/storage.py:49-52 | deleting by id keeps exactly the rows with another id and never grows the table |
| FallbackStore.InsertCountsOnce | services/bot1_userbot/app/storage.py:36-39 | an insert is never rejected: its own pair's row count grows by exactly one, and every other pair's count is unchanged |
| FallbackStore.FirstForIffCount | services/bot1_userbot/app/storage.py:41-47 | the lookup finds a row exactly when the pair has at least one row |
| FallbackStore.WithoutAbsentId | services/bot1_userbot/app/storage.py:49-52 | deleting an id no row carries is a no-op |
| FallbackStore.DeleteIdempotent | services/bot1_userbot/app/storage.py:49-52 | deleting the same id twice is deleting it once |
| FallbackStore.WithoutIdKeepsOrder | services/bot1_userbot/app/storage.py:18 | deletion keeps the autoincrement ids strictly increasing in table order |
| FallbackStore.DeleteCount | services/bot1_userbot/app/storage.py:49-52 | deleting a stored row's id lowers its own pair's count by one and leaves every other pair's count alone |
| FallbackStore.LookupAfterInsert | services/bot1_userbot/app/storage.py:36-47 | after an insert, the lookup by the new row's pair finds a row for that pair, and finds the new row itself when the pair had none |
| FallbackStore.Storage.Add | services/bot1_userbot/app/storage.py:36-39 | appends one row with the next id, which no existing row carries |
| FallbackStore.Storage.Get | services/bot1_userbot/app/storage.py:41-47 | a read-only lookup equal to FirstFor |
| FallbackStore.Storage.Delete | services/bot1_userbot/app/storage.py:49-52 | the table becomes WithoutId of the old table, and the counter is unchanged |
| Userbot.Provision | services/bot1_userbot/app/telegram_client.py:108-191 | the first call creates the group with the curator as its only member; success carries the created chat's id and no error; failure carries an error and no id; a failed creation makes no further call |
| Userbot.ProvisionOkIffNoHardFailure | services/bot1_userbot/app/telegram_client.py:108-191 | the run is ok exactly when no call failed hard (the creation, a bot add with a non-RPC error, the history listing); a failed run's error is the last call's error |
| Userbot.ProvisionWellFormed | services/bot1_userbot/app/telegram_client.py:108-191 | every adjacent pair of logged calls is one the code's control flow allows |
| Userbot.ProvisionStepsInOrder | services/bot1_userbot/app/telegram_client.py:110-184 | the calls run in the fixed order: create, description, photo, bots, curator promotion, curator title, contractors, history listing, deletion, history visibility, invite link |
| Userbot.DescriptionFollowsInput | services/bot1_userbot/app/telegram_client.py:113-117 | the description is set only when non-empty, and then as the first call after the creation |
| Userbot.PhotoFollowsInput | services/bot1_userbot/app/telegram_client.py:119-123 | the photo is set only when an icon is given, and always when the run gets that far |
| Userbot.BotPromotedAfterEveryCaughtAdd | services/bot1_userbot/app/telegram_client.py:127-148 | each service bot is promoted with the bot rights right after its add, also when the add raised an RPCError |
| Userbot.BotPromotedOnlyAfterItsAdd | services/bot1_userbot/app/telegram_client.py:127-148 | every promotion of a bot comes right after an add of that same bot that did not fail hard; no promotion follows an add that raised any other error |
| Userbot.CuratorTitleOnlyAfterPromotion | services/bot1_userbot/app/telegram_client.py:151-166 | the custom title is set only right after a successful curator promotion, and every successful promotion is followed by it |
| Userbot.NoContractorCalls | services/bot1_userbot/app/telegram_client.py:168-173 | with an empty contractor list no contractor invitation is ever sent |
| Userbot.MembersAddedOnSuccess | services/bot1_userbot/app/telegram_client.py:127-173 | a successful run has added both bots, promoted the curator with the curator rights and, when there are contractors, invited them, all on the created chat |
| Userbot.DeleteOnlyListedMessages | services/bot1_userbot/app/telegram_client.py:87-95 | messages are deleted exactly when the history listing just before returned some, and the deletion is of those ids in the same chat |
| Userbot.OnCreatedChat | services/bot1_userbot/app/telegram_client.py:110-186 | every call after the creation targets the created chat, and every history listing asks for at most 50 messages |
| Userbot.OkRunReachedEveryStep | services/bot1_userbot/app/telegram_client.py:110-188 | a successful run has made the first call of every step of the plan |
| Userbot.LinkIsExportReply | services/bot1_userbot/app/telegram_client.py:181-188 | a successful run ends with the invite-link export; the link is that call's reply, or None when the export failed, without failing the run |
| Userbot.EveryLaterCallFailingFails | services/bot1_userbot/app/telegram_client.py:176-191 | when the creation succeeds and every later call raises an RPCError, the run fails with that error, because the history listing is not guarded |
| Userbot.RemovalBanThenUnban | services/bot1_userbot/app/telegram_client.py:193-200 | the ban comes first; the unban is attempted exactly when the ban succeeded; the removal raises exactly when a call failed, and raises that call's error |
| Userbot.TrackedRow | services/bot1_userbot/app/telegram_client.py:45-52 | the handler acts on no row when the update has no new member or user id 0, and otherwise on the first row for that user and group |
| Userbot.HandledUpdateDropsOneRow | services/bot1_userbot/app/telegram_client.py:50-57 | handling an update removes exactly one row of its pair when it has one, and leaves the other pairs' counts unchanged |
| Userbot.DuplicateRowSurvivesOneUpdate | services/bot1_userbot/app/telegram_client.py:50-57 | with two rows for a pair, one handled update leaves a row for that pair behind |
| Userbot.Userbot.DeleteRecentMessages | services/bot1_userbot/app/telegram_client.py:87-95 | the loop gathers the listed ids and performs exactly the ClearRecent step of the reference run |
| Userbot.Userbot.OpenHistoryForUsers | services/bot1_userbot/app/telegram_client.py:77-85 | one call whose failure is swallowed |
| Userbot.Userbot.AddAndPromoteBot | services/bot1_userbot/app/telegram_client.py:128-148 | performs the reference run's step for one bot: add, then promote unless the add raised a non-RPC error |
| Userbot.Userbot.AddServiceBots | services/bot1_userbot/app/telegram_client.py:127-148 | the loop over the two bots performs the reference run's bot steps, stopping at an escaping error |
| Userbot.Userbot.PromoteCuratorWithTitle | services/bot1_userbot/app/telegram_client.py:151-166 | performs the curator step: promote, then title only after a successful promotion, with failures swallowed |
| Userbot.Userbot.SetDescriptionAndPhoto | services/bot1_userbot/app/telegram_client.py:113-123 | performs the description and photo steps |
| Userbot.Userbot.AddContractors | services/bot1_userbot/app/telegram_client.py:169-173 | performs the guarded contractor add, only for a non-empty list |
| Userbot.Userbot.ExportLink | services/bot1_userbot/app/telegram_client.py:181-185 | performs the guarded link export; the link is the export's reply, or none when the export failed |
| Userbot.Userbot.FinishGroup | services/bot1_userbot/app/telegram_client.py:176-186 | performs the clearing, history visibility and link export steps, and returns the link |
| Userbot.Userbot.SetupBeforeCurator | services/bot1_userbot/app/telegram_client.py:113-148 | performs the steps from the description through the bots |
| Userbot.Userbot.SetupFromCurator | services/bot1_userbot/app/telegram_client.py:151-186 | performs the steps from the curator through the link export |
| Userbot.Userbot.ConfigureGroup | services/bot1_userbot/app/telegram_client.py:113-186 | performs the whole plan after the creation |
| Userbot.Userbot.CreateAndSetupGroup | services/bot1_userbot/app/telegram_client.py:97-191 | the result, the calls made and the script left are exactly those of Provision |
| Userbot.Userbot.RemoveContractor | services/bot1_userbot/app/telegram_client.py:193-200 | performs exactly Removal and re-raises its error |
| Userbot.Userbot.SendFallbackMessageAndTrack | services/bot1_userbot/app/telegram_client.py:202-205 | a successful send appends one row with the sent message's id and returns that id; a failed send raises and leaves the table unchanged |
| Userbot.Userbot.OnMemberUpdate | services/bot1_userbot/app/telegram_client.py:42-60 | with a tracked row, deletes that message in the user's private chat and drops the row whatever the deletion's outcome; otherwise makes no call and changes nothing; never raises |
| Responses.GenericResponseOf | services/bot1_userbot/app/main.py:58-64 | ok with "OK" and no error exactly when nothing was raised; otherwise "ERROR" with the exception's text |
| Bot1Api.SetupOf | services/bot1_userbot/app/main.py:43-52 | every request field is passed to the userbot unchanged |
| Bot1Api.CreateGroupResponseOf | services/bot1_userbot/app/main.py:53-55 | "OK" with the group id and link exactly when the userbot result is ok, otherwise "ERROR" with its error and no id or link |
| Bot1Api.CreateGroupEndToEnd | services/bot1_userbot/app/main.py:41-55 | the response is "OK" exactly when no call of the provisioning run failed hard |
| Bot1Api.RemoveContractorEndToEnd | services/bot1_userbot/app/main.py:58-64 | the response is "OK" exactly when both the ban and the unban succeeded |
| Bot1Api.CreateGroup | services/bot1_userbot/app/main.py:41-55 | the response is CreateGroupResponseOf of the provisioning run on the request's arguments |
| Bot1Api.RemoveContractor | services/bot1_userbot/app/main.py:58-64 | the response maps the removal's raised error |
| Bot1Api.SendFallbackMessage | services/bot1_userbot/app/main.py:67-77 | "OK" after a successful send, which is tracked; "ERROR" with the send's error otherwise |
| Bot3Runtime.RStripSlash | services/bot3_notify_bot/app/bot_runtime.py:18 | the result is a prefix of the input that does not end in '/', and only slashes were removed |
| Bot3Runtime.RStripSlashIdempotent | services/bot3_notify_bot/app/bot_runtime.py:18 | stripping twice is stripping once |
| Bot3Runtime.RStripSlashExtraSlash | services/bot3_notify_bot/app/bot_runtime.py:18 | a base and the same base with one more trailing slash strip to the same value |
| Bot3Runtime.MakeMiniappUrl | services/bot3_notify_bot/app/bot_runtime.py:17-21 | the stripped base plus "/?order_id=" and the id for a non-empty id, else plus "/" |
| Bot3Runtime.MiniappUrlIgnoresTrailingSlash | services/bot3_notify_bot/app/bot_runtime.py:17-21 | a trailing slash on the base changes no link |
| Bot3Runtime.MiniappUrlSingleJoinSlash | services/bot3_notify_bot/app/bot_runtime.py:17-21 | there is never a doubled slash where the base meets the path |
| Bot3Runtime.NewOrderText | services/bot3_notify_bot/app/bot_runtime.py:63 | the text is exactly the fixed lead "У вас новый заказ: ", the title, the fixed middle ".\nПодробности в чате: " and the group link, in that order |
| Bot3Runtime.NewOrderTextInjective | services/bot3_notify_bot/app/bot_runtime.py:63 | for titles of equal length, equal texts mean equal titles and links |
| Bot3Runtime.PaymentText | services/bot3_notify_bot/app/bot_runtime.py:67 | the text starts with the fixed lead and ends with " руб."; the amount between them is pinned by Bot3Runtime.PaymentAmountReadable, which reads it back |
| Bot3Runtime.PaymentAmountReadable | services/bot3_notify_bot/app/bot_runtime.py:67 | the amount can be read back from the text |
| Bot3Runtime.PinCaption | services/bot3_notify_bot/app/bot_runtime.py:75-77 | "Детали заказа" without a title (None or empty), else that plus ": " and the title |
| Bot3Runtime.OpenButton | services/bot3_notify_bot/app/bot_runtime.py:24-27 | a button with the given text opening the order's mini-app link |
| Bot3Runtime.PinReturnsSentId | services/bot3_notify_bot/app/bot_runtime.py:74-87 | returns the sent message's id whatever the pin's outcome; raises exactly when the send failed; pins only that message, silently |
| Bot3Runtime.Bot3.SendNewOrder | services/bot3_notify_bot/app/bot_runtime.py:62-64 | one message with NewOrderText to the contractor; its failure is raised |
| Bot3Runtime.Bot3.SendPayment | services/bot3_notify_bot/app/bot_runtime.py:66-72 | one message with PaymentText and the button opening the order; its failure is raised |
| Bot3Runtime.Bot3.PinOrderDetails | services/bot3_notify_bot/app/bot_runtime.py:74-87 | performs exactly PinOrder |
| Bot3Api.FallbackUrl | services/bot3_notify_bot/app/main.py:41 | the base with trailing slashes stripped, plus "/api/crm/send_fallback_message" |
| Bot3Api.FallbackError | services/bot3_notify_bot/app/main.py:40-47 | no error exactly when the reply is 2xx with a JSON object body whose "ok" is truthy |
| Bot3Api.FallbackRefusalIsFailure | services/bot3_notify_bot/app/main.py:44-47 | a 2xx reply whose "ok" is false or missing fails with "Bot1 fallback failed" |
| Bot3Api.NotifyNewOrder | services/bot3_notify_bot/app/main.py:50-64 | ok exactly when the direct send succeeded, or it was Forbidden and the fallback succeeded |
| Bot3Api.NotifyNewOrderRouting | services/bot3_notify_bot/app/main.py:50-64 | direct success gives "OK" with no fallback; Forbidden, and only Forbidden, posts the same text for the same contractor and group and gives "OK_FALLBACK_BOT1" or "ERROR"; any other failure gives "ERROR" with its text |
| Bot3Api.NotifyNewOrderAsWritten | services/bot3_notify_bot/app/main.py:41 | as written, the fallback raises before making any request |
| Bot3Api.AsWrittenFallbackNeverSucceeds | services/bot3_notify_bot/app/main.py:41 | as written, every Forbidden ends in "ERROR", where the corrected routing gives "OK_FALLBACK_BOT1" for a successful fallback |
| Bot3Api.AsWrittenAgreesOffFallback | services/bot3_notify_bot/app/main.py:50-64 | apart from Forbidden, the code as written and the corrected one agree |
| Bot3Api.NotifyNewOrderEndpoint | services/bot3_notify_bot/app/main.py:50-64 | the endpoint's response is NotifyNewOrder of the direct send's outcome |
| Bot3Api.NotifyPayment | services/bot3_notify_bot/app/main.py:67-73 | "OK" on a normal return, "ERROR" with the text on any exception |
| Bot3Api.PinOrderDetails | services/bot3_notify_bot/app/main.py:76-82 | "OK" when the message was sent, whether or not the pin held |
| Common.ParseInt | services/miniapp/app/auth.py:60 | Python's int() on text: once the surrounding whitespace is stripped, a value exactly when the rest is decimal digits with an optional sign, and then the value those digits denote, negated after a '-' |
| Common.LeadingSeparatorRejected | services/miniapp/app/auth.py:60 | an ASCII control character before the digits is not whitespace to `int()`: "\x1c5" has no value |
| Common.TrailingSeparatorRejected | services/miniapp/app/auth.py:60 | the same after the digits: "5\x1f" has no value |
| Common.SurroundingBlanksIgnored | services/miniapp/app/auth.py:60 | spaces, tabs and line feeds around the digits are ignored: " \t5\n" reads as 5 |
| Common.ParseDecimalString | services/miniapp/app/auth.py:60 | int(str(n)) == n for every integer |
| Sorting.SortByText | services/miniapp/app/crud.py:110 | a permutation of the input, ascending by a text key |
| Sorting.AscendingDistinctUnique | services/miniapp/app/auth.py:23 | with no key twice, two ascending permutations of each other are equal: the data-check order is fixed whichever sort computes it |
| Sorting.SortDescending | services/miniapp/app/routers/app_api.py:71 | a permutation of the input, descending by an integer key |
| MiniappStore.EnsureEffect | services/miniapp/app/crud.py:13-20 | an existing contractor is unchanged; otherwise exactly one contractor with that id and the defaults (advance 0) is added; nothing else changes |
| MiniappStore.EnsureIdempotent | services/miniapp/app/crud.py:13-20 | get-or-create twice is get-or-create once |
| MiniappStore.EnsureAllEffect | services/miniapp/app/crud.py:38-39 | after the loop every listed id exists, existing contractors are unchanged, and the only new ones are listed ids with defaults |
| MiniappStore.PatchOnlyGivenFields | services/miniapp/app/crud.py:93-102 | a None field keeps its value, a given field takes the new value, the id never changes, and the update is idempotent |
| MiniappStore.Dedup | services/miniapp/app/crud.py:37 | the same ids as the input, each exactly once |
| MiniappStore.DedupKeepsFirstOccurrenceOrder | services/miniapp/app/crud.py:37 | the ids appear in the order of their first occurrences, and the first id stays first |
| MiniappStore.ReplaceRows | services/miniapp/app/crud.py:42-80 | deleting an order's rows and inserting new ones leaves that order with exactly the new rows and every other order with exactly its old rows |
| MiniappStore.DeleteRows | services/miniapp/app/crud.py:42 | a bulk delete by order leaves none of its rows and all other orders' rows |
| MiniappStore.JoinedOrders | services/miniapp/app/crud.py:106-109 | the join holds exactly the existing orders with an association row for the contractor |
| MiniappStore.UpsertReplacesOrder | services/miniapp/app/crud.py:23-83 | the order's record, associations, files, properties and stages come from the payload; every other order keeps its record and all its rows |
| MiniappStore.UpsertLinksFollowPayload | services/miniapp/app/crud.py:42-44 | the order's association rows name the deduplicated contractors, in first-occurrence order |
| MiniappStore.UpsertFilesFollowPayload | services/miniapp/app/crud.py:46-62 | the order's files and properties equal the payload's, position by position |
| MiniappStore.UpsertStageDefaults | services/miniapp/app/crud.py:64-80 | a stage without a contractor (or with 0) gets the first deduplicated contractor, or 0, while its own non-zero id is kept; a missing date becomes now; hours, amount and comment are copied |
| MiniappStore.UpsertCreatesContractors | services/miniapp/app/crud.py:35-70 | every payload contractor and non-zero stage contractor exists afterwards; existing contractors are untouched; contractor 0 is created only if the payload lists it |
| MiniappStore.DeleteOrderEffect | services/miniapp/app/crud.py:86-90 | the order and all its rows go and everything else stays; an absent order, or a second delete, changes nothing |
| MiniappStore.UpdateFromCrmEffect | services/miniapp/app/crud.py:93-102 | creates the contractor if needed, patches only that contractor's given fields, and leaves every other table alone |
| MiniappStore.ListOrdersExact | services/miniapp/app/crud.py:105-112 | exactly the existing orders assigned to the contractor, ascending by order id |
| MiniappStore.OrderForExact | services/miniapp/app/crud.py:115-121 | the lookup finds the order exactly when it exists and is assigned to the contractor |
| MiniappStore.OrderForAgreesWithList | services/miniapp/app/crud.py:105-121 | found by the lookup exactly when listed for the contractor |
| MiniappStore.OperationsKeepKeys | services/miniapp/app/crud.py:23-102 | every CRM operation keeps each record stored under its own key |
| MiniappStore.Store.GetOrCreateContractor | services/miniapp/app/crud.py:13-20 | the contractors become Ensure of the old ones, and the returned record is the stored one |
| MiniappStore.Store.EnsureContractors | services/miniapp/app/crud.py:38-39 | the loop leaves the contractors as EnsureAll of the old ones |
| MiniappStore.Store.ReplaceLinks | services/miniapp/app/crud.py:42-44 | the association table loses the order's rows and gains one row per id |
| MiniappStore.Store.ReplaceFiles | services/miniapp/app/crud.py:47-49 | the file table loses the order's rows and gains the payload's files |
| MiniappStore.Store.ReplaceProperties | services/miniapp/app/crud.py:52-62 | the property table loses the order's rows and gains the payload's properties |
| MiniappStore.Store.AddPayloadStage | services/miniapp/app/crud.py:67-80 | one stage with the defaulted contractor and date; its contractor is created when non-zero |
| MiniappStore.Store.ReplaceStages | services/miniapp/app/crud.py:65-80 | the stage table loses the order's rows and gains the payload's stages, and the non-zero stage contractors exist |
| MiniappStore.Store.SaveOrderRecord | services/miniapp/app/crud.py:24-33 | the order record is the payload's, new or overwritten |
| MiniappStore.Store.ReplaceChildren | services/miniapp/app/crud.py:35-80 | contractors, associations, files, properties and stages as Upsert gives them |
| MiniappStore.Store.UpsertOrder | services/miniapp/app/crud.py:23-83 | the new state is Upsert of the old state, and the returned order is the payload's record |
| MiniappStore.Store.DeleteOrderById | services/miniapp/app/crud.py:86-90 | the new state is DeleteOrder of the old one |
| MiniappStore.Store.UpdateContractorFromCrm | services/miniapp/app/crud.py:93-102 | the new state is UpdateFromCrm of the old one, and the stored patched record is returned |
| MiniappStore.Store.ListOrdersForContractor | services/miniapp/app/crud.py:105-112 | returns ListOrders of the state and changes nothing |
| MiniappStore.Store.GetOrderForContractor | services/miniapp/app/crud.py:115-121 | returns OrderFor of the state and changes nothing |
| AppApi.Visible | services/miniapp/app/routers/app_api.py:81-89 | exactly the order's properties that are shared or the caller's |
| AppApi.StagesOut | services/miniapp/app/routers/app_api.py:95-105 | one output per stage, in order, with its id, date, hours, amount, comment and contractor |
| AppApi.FilesOut | services/miniapp/app/routers/app_api.py:106 | one output per file, in order, with its id, name and url |
| AppApi.PropertiesOut | services/miniapp/app/routers/app_api.py:107 | one output per property, in order, with its id, name, quantity and comment |
| AppApi.MeCreatesCallerAndListsOrders | services/miniapp/app/routers/app_api.py:45-52 | the caller's record exists afterwards (unchanged if it existed), nothing else changes, and the orders are exactly the caller's, by order id |
| AppApi.DetailsGuard | services/miniapp/app/routers/app_api.py:55-65 | an order not assigned to the caller gives 404 and changes nothing; otherwise the order and the caller's record are answered |
| AppApi.StagesNewestFirst | services/miniapp/app/routers/app_api.py:67-75 | the stages shown are all of the order's stages and no others, newest first |
| AppApi.PropertiesVisibleNewestFirst | services/miniapp/app/routers/app_api.py:81-90 | the properties shown are exactly the order's shared or the caller's, highest id first |
| AppApi.AddStageGuards | services/miniapp/app/routers/app_api.py:111-134 | 404 when the order is not the caller's and 403 when read-only, each adding nothing; otherwise one stage for the caller with the given hours and comment, no amount, dated now, under the fresh id that is answered |
| AppApi.AddStageOnlyThatOrder | services/miniapp/app/routers/app_api.py:124-133 | a successful addition grows only that order's stages, by the new row |
| AppApi.UpdateProfileOnlyGivenFields | services/miniapp/app/routers/app_api.py:137-149 | creates the caller if needed, never changes the advance, changes only the given contact and payment fields, and touches no other contractor |
| AppApi.GetMe | services/miniapp/app/routers/app_api.py:45-52 | state and response are those of Me |
| AppApi.GetOrderDetails | services/miniapp/app/routers/app_api.py:55-108 | state and response are those of Details |
| AppApi.PostStage | services/miniapp/app/routers/app_api.py:111-134 | state and response are those of AddStage |
| AppApi.PutProfile | services/miniapp/app/routers/app_api.py:137-149 | the state is that of UpdateProfile |
| InitDataAuth.Remove | services/miniapp/app/auth.py:19 | popping a key leaves exactly the items with other keys |
| InitDataAuth.DictLastValueWins | services/miniapp/app/auth.py:18 | dict(pairs) has each key once, and a lookup gives the last value given for the key |
| InitDataAuth.DataCheckPairsExact | services/miniapp/app/auth.py:18-24 | the pairs in the data-check string are exactly the query's keys other than hash, each once with its last value, in key order |
| InitDataAuth.CheckedPairsAgreeWithSorted | services/miniapp/app/auth.py:23 | sorting the items by key alone gives exactly the arrangement `sorted(data.items())` gives: with each key once, any arrangement ascending by key is that one |
| InitDataAuth.CheckOrder | services/miniapp/app/auth.py:15-49 | checks run in the order hash (401), a non-ASCII hash (500), signature (401), age (401), user (401); the data is accepted exactly when all pass, with its user value |
| InitDataAuth.UnreadableAuthDateSkipsAgeCheck | services/miniapp/app/auth.py:33-42 | an auth_date that is absent, empty or not an integer never expires the data |
| InitDataAuth.AgeLimit | services/miniapp/app/auth.py:33-42 | data signed at time t expires exactly when more than 172800 seconds have passed |
| InitDataAuth.DisabledModeUsesDebugHeader | services/miniapp/app/auth.py:57-60 | with auth disabled, a missing debug header gives 401, a numeric one is the caller, and initData is never looked at |
| InitDataAuth.HeaderPreferredOverQuery | services/miniapp/app/auth.py:62-66 | a non-empty header is checked and the query parameter ignored; both missing gives 401; a refusal of the check is the answer |
| WebappClient.EscapeIsPerCharacter | services/miniapp/app/static/app.js:48 | the three replace passes escape each character on its own |
| WebappClient.EscapeHtmlProperties | services/miniapp/app/static/app.js:47-49 | the output has no '<' or '>'; text without '&', '<' and '>' is unchanged; null and "" give "" |
| WebappClient.UnescapeEscape | services/miniapp/app/static/app.js:48 | decoding "&lt;", then "&gt;", then "&amp;" gives back the input |
| WebappClient.StageValueShowsNumber | services/miniapp/app/static/app.js:98-101 | the amount plus " руб." in "sums" mode and the hours plus " ч." otherwise; 0 shows as "0", a missing value as "—", and the number shown reads back as the stored one |
| WebappClient.StageValueNeedsNoEscape | services/miniapp/app/static/app.js:99-105 | escaping leaves the stage value unchanged |
| WebappClient.ButtonAgreesWithServer | services/miniapp/app/static/app.js:111-113 | for an assigned order, the button shows exactly for editable hours orders, the server accepts a stage whenever it shows, and a read-only order is refused with 403 |
| WebappClient.ApiHeadersEffect | services/miniapp/app/static/app.js:30-38 | initData is set exactly when present, the debug id exactly when non-zero, and the content type defaults to JSON only when unset or empty; other headers are kept |
| WebappClient.DebugIdReachesServer | services/miniapp/app/static/app.js:35-36 | with server auth disabled, a page with a non-zero debug id is served as that contractor |
| WebappClient.InitDataReachesServer | services/miniapp/app/static/app.js:32-33 | with server auth on, a page with initData has exactly that initData checked, whatever the query string says |

## Left out

- Transports are a scripted call double, with no real delivery. This covers pyrogram, python-telegram-bot, httpx and `fetch`. `resolve_peer` and the raw pre-history toggle are one call, and the photo upload (base64 decoding and temp file) is one call.
- Concurrency is left out: the asyncio handlers, the startup task, and the race between a fallback-row write and the watcher. Every operation runs alone and in sequence.
- SQLAlchemy sessions, flush, commit and rollback are not modelled; each operation is atomic on the in-memory tables.
- `created_at` of fallback rows is not modelled.
- Each table's ids come from its own increasing counter, so SQLite's reuse of the largest rowid after a delete is not modelled.
- MiniappStore.Store.UpsertOrder: requires that each stored order is kept under its own id. Every operation preserves that (`OperationsKeepKeys`), and SQLAlchemy's identity map guarantees it in the code.
- These foreign functions are parameters with no properties:
  - HMAC-SHA256, UTF-8 and hex encoding, `parse_qsl`;
  - `json.loads` of `user` together with `int(user["id"])`, where None stands for any exception;
  - the clock.
- InitDataAuth.CheckInitData: the age is an integer difference. Floating-point `total_seconds()` and the range errors of `datetime.fromtimestamp` are not modelled.
- Common.ParseInt: Python's `int()` also accepts underscores between digits and non-ASCII digits; these are not modelled, so such a debug header gives a value in the source and none in the model.
- WebappClient.StageValueShowsNumber: app.js holds stage hours, amounts and the debug contractor id as IEEE doubles, and the model holds them as unbounded integers. So the read-back holds only for integers of magnitude at most 2^53: larger ones arrive rounded from `JSON.parse`, and `String()` writes values of 1e21 or more in exponent form. The same bound applies to the debug id that WebappClient.ApiHeaders sends.
- Bot3Api.FallbackError: a refusal gives the text "Bot1 fallback failed", without the ": " and the `repr` of the reply body that main.py:47 appends. The body is a map, which loses the key order `repr` writes in, and the text only ever reaches the `error` field of an `ERROR` response. Bot3Api.FallbackRefusalIsFailure states the same shortened text.
- The texts of httpx and JSON exceptions, and of Telegram errors, are abstract messages. Whether a Telegram error is an `RPCError` (what `except RPCError` catches) is a property of each scripted error (`Transport.Error.IsRpc`).
- WebappClient.ApiHeaders: the mutation of the caller's `options.headers` object in place is not modelled, and neither is its aliasing. A debug id that is NaN or not an integer is treated like a missing one.
- The DOM rendering, the tabs, `boot` and `fetch` in app.js are not modelled.
- The `/start` and `/help` command handlers and start/stop of the bots are not modelled; they are transport only.
- The console testers and the session script are not modelled; they are interactive I/O.
- Configuration loading, startup wiring, the CRM router (which only calls the store operations and commits), and the notify bot's CRM-token comparison are not modelled.

## Findings

| source | as written | input that shows it | evidently intended | confidence | as-written member | corrected member |
|---|---|---|---|---|---|---|
| services/bot3_notify_bot/app/main.py:41 | the fallback reads `settings.bot1_api_base`, but the notify bot's settings (services/bot3_notify_bot/app/config.py:4-11) declare no such field and ignore unknown variables, so the attribute access raises | any `notify_new_order` whose direct send answers `Forbidden` gives `ERROR` without posting to the userbot service | a configured base address of the userbot service, so that a successful fallback gives `OK_FALLBACK_BOT1` | not executed | Bot3Api.AsWrittenFallbackNeverSucceeds | Bot3Api.NotifyNewOrder |
