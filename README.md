# else-bot, modelled in Dafny

A model of the core of else-bot, a per-account automation client for a
Telegram tap game. For each account the client logs in, obtains a token from
the game's REST backend, opens a realtime websocket, and then loops: it sends
"click" frames that spend energy for points and sleeps a randomized delay.
When the energy is low it also claims the daily reward when the profile says
it is unclaimed, and then does at most one of three actions: refill the energy
tank (a one-in-ten roll once the refill cooldown has passed), buy catalog
items (a one-in-ten roll, three-in-ten when the income is low, and a balance
above 10 000), or buy a boost (a one-in-ten roll).

The model covers:

- the random pacing and tap arithmetic;
- the REST request base (headers, options, URL, the uniform "no result on
  failure" policy) and the user, boost and catalog endpoints;
- the randomized search for an affordable catalog item;
- the websocket client: its open/message/close handlers, ping monitor,
  energy timer and two-frame click protocol;
- the bot object: account set-up, the merge of realtime payloads into the
  shared account record, and one iteration of its loop with the choice of
  action.

How the model is built:

- Every call of `Math.random()` is an explicit `Draw`, a rational in [0, 1).
  Every `Date.now()` reading is an integer parameter.
- Every server answer is a `Response` parameter: a transport failure, or a
  status with a parsed or unparsable body.
- An endpoint is a pure function. It returns the requests it issued (`Sent`,
  the arguments of `request(pathname, opts)`; `Issued` gives the resulting
  `fetch`) together with its result.
- The two objects whose fields the source updates in place are classes:
  `WebSocket.TapWebSocket` and `Bot.ElseBot`. Most methods are proved to
  have exactly the effect of a pure step function, for example
  `Bot.ElseBot.TankFull` against `Bot.TankFullStep`.
- The item search is a finite script of rounds, one per pass of the
  do-while. `Categories.Search` plays the passes out (`Categories.Pass` is
  one pass), and `Categories.FindAndBuyOutcome`, `Bot.ItemStep`,
  `Bot.AttemptItems` and `Bot.Actions` build the purchase, the attempts of
  buyCategoryItemLoop and performActions on it. The methods
  `Categories.GetAvailableItem`, `Categories.FindAndBuy`,
  `Bot.ElseBot.BuyCategoryItem`, `Bot.ElseBot.BuyCategoryItemLoop`,
  `Bot.ElseBot.PerformActions` and `Bot.ElseBot.LoopIteration` are proved to
  have exactly their effect, requests included. What the search guarantees
  is proved once about `Categories.Search` (`Categories.SearchConcludes`),
  and what a run of attempts guarantees about `Bot.AttemptItems`.
- The account record `Records.AccountData` is a class shared by reference
  between the bot and its socket client, as in the source.

Module layout:

| module | file | source |
|---|---|---|
| Wrappers | wrappers.dfy | `undefined`/`null` as Option |
| Json | json.dfy | JavaScript values, truthiness, template-literal rendering |
| Config | config.dfy | src/config.ts |
| Utils | utils.dfy | src/utils/utils.ts |
| Records | records.dfy | src/types/users.ts, src/types/bot.ts, the realtime merge of src/index.ts |
| Base | base.dfy | src/api/base.ts |
| Users | users.dfy | src/api/users.ts |
| Boosts | boosts.dfy | src/api/boosts.ts |
| Categories | categories.dfy | src/api/categories.ts |
| WebSocket | websocket.dfy | src/api/websocket.ts |
| Bot | bot.dfy | src/index.ts |

## Behaviour as written

The model follows the code. Where the code does something a reader might not
expect, the model keeps the code's behaviour and states it:

- **The module-level `randInt` excludes its upper bound.** So
  `generatePoints` draws its step count from [1, maxSteps - 1], not
  [1, maxSteps].
  - With energy for exactly one click (`ptc == ppc`), the points equal the
    energy, so `tap` sends nothing (`PlanTapSkipsSingleClick`).
  - With energy for between one and two clicks, the points are one click
    (`GeneratePointsOneStep`).
  - The result is at most 199 clicks (`GeneratePointsBelowEnergy`).
- **With less energy than one click, `randInt(1, 0)` yields 0 steps.** The
  only exception is the draw 0. So, when the energy is positive, `tap` sends
  two clicks of "0" points (`PlanTapSendsZeroBelowOneClick`); with no energy
  at all it sends nothing.
- **The energy timer has no cap.** It adds `ptc_rps` every second with no
  clamp at `ptc_total`. Every `open` event that finds `ptc < ptc_total`
  starts one more timer, and none is ever cleared
  (`TapWebSocket.energyTimers`). Once a timer runs, the energy can pass its
  total.
- **A second ping monitor orphans the first.** Starting a monitor while one
  runs overwrites the handle, and the old interval keeps running
  (`TapWebSocket.orphanedPingMonitors`).
- **Only inbound messages count as activity** for the ping monitor. Frames
  the client sends do not reset `lastActivityTime`.
- **A "token-expired" message reconnects with the same token.** The old
  socket is not closed first.
- **`buyBoost` throws without a profile.** When `accountData.info` is
  absent, the destructuring throws a TypeError. The loop does not catch it,
  so it ends the bot's loop (`NoProfileMeansBoostThrows`, `IterationEnd.Threw`).
- **A failed startup call sets the token to null.** The renewal time is still
  set.
- **A category is marked as checked even when its items could not be
  fetched.**
- **`getAvailableItem` retries forever** while `getAll` keeps failing.
- **The result of `getUserConfig` is never used.**
- **The long run delay is uneven.** It scales the two ends of the run range
  differently (min × 10 and max × 1000 seconds), which gives 10 s to 50 min.

## Model

| member | source | states |
|---|---|---|
| Json.DecimalRoundTrip | src/api/users.ts:35 | the decimal text an integer id is written as in a query string reads back as that integer |
| Utils.RandInt | src/utils/utils.ts:18-19 | randInt(min, max) lies in [min, max) when min < max, is min when they are equal, and lies in [max, min] when reversed |
| Utils.RandIntEmptyRange | src/utils/utils.ts:18-19 | randInt(1, 0) is 0 for every draw except 0, where it is 1 |
| Utils.UtilsRandInt | src/utils/utils.ts:74-76 | the class method randInt includes both bounds: min <= r <= max |
| Utils.RandDelay | src/utils/utils.ts:21-22 | a delay from min to max seconds, in milliseconds: min*1000 <= ms < max*1000 |
| Utils.RandClaimDelay | src/utils/utils.ts:46-47 | the claim delay lies in [1 200 000, 4 800 000) ms |
| Utils.RandRunDelay | src/utils/utils.ts:49 | the run delay lies in [1 000, 3 000) ms |
| Utils.RandLongRunDelay | src/utils/utils.ts:51-52 | the long run delay lies in [10 000, 3 000 000) ms |
| Utils.RandRequestDelay | src/utils/utils.ts:54-55 | the request delay lies in [1 000, 2 000) ms |
| Utils.LongDelayExceedsRunDelay | src/utils/utils.ts:49-52 | every long run delay is longer than every run delay |
| Utils.RandomRollBounds | src/utils/utils.ts:57-59 | no multiplier acts as a multiplier of 1; a multiplier of 10 or more always passes; 0 or less never passes |
| Utils.RandomRollMonotone | src/utils/utils.ts:57-59 | a larger multiplier passes on every draw a smaller one passes on |
| Utils.GeneratePoints | src/utils/utils.ts:61-72 | with ppc > 0 the points are a multiple of ppc; with ppc = 0 they are 0, or NaN when ptc is also 0 |
| Utils.GeneratePointsBelowEnergy | src/utils/utils.ts:61-72 | with room for two or more clicks: at least one click, at least one click of energy left unspent, at most 199 clicks |
| Utils.GeneratePointsOneStep | src/utils/utils.ts:61-72 | with room for exactly one click the points are one click |
| Utils.GeneratePointsNoRoom | src/utils/utils.ts:61-72 | with less energy than one click the points are 0, except on the draw 0 |
| Utils.IsDataObj | src/utils/utils.ts:7-16 | a non-object never qualifies; an object qualifies exactly when every listed key is an own or inherited key |
| Records.Set | src/index.ts:185 | assigning one key changes that key to the value and leaves every other key and the uid as they were |
| Records.Merge | src/index.ts:182-188 | after copying a payload, each key holds the payload's last value for it, or its old value when the payload lacks it; the same for uid |
| Records.MergeOpt | src/index.ts:182-188 | an absent payload changes nothing; a present one is merged |
| Records.MergeIdempotent | src/index.ts:182-188 | applying the same payload twice equals applying it once |
| Records.AccountData.constructor | src/types/bot.ts:6-18 | the record holds the given account and realtime data |
| Base.NewClient | src/api/base.ts:14-32 | userId defaults to 0, an empty or missing proxy becomes "", and the other fields are copied |
| Base.FixedHeaders | src/api/base.ts:35-47 | the fixed header set has exactly the ten browser-like headers |
| Base.GetHeaders | src/api/base.ts:34-55 | the header names are the ten fixed ones plus the token header exactly when a non-empty token is held; the token, Referer, Origin and User-Agent values come from the client, and every other header has the same fixed value for every client |
| Base.GetRequestOpts | src/api/base.ts:57-62 | the options have exactly the headers and proxy keys, with the client's headers and proxy |
| Base.Request | src/api/base.ts:64-69 | the URL is https:// + domain + pathname; the client's headers and proxy override the caller's, and every other option of the caller is kept |
| Base.IssuedGet | src/api/base.ts:49-69 | a request without a method option stays a GET, and carries the token header, with the token, exactly when a token is held |
| Base.Settle | src/api/users.ts:50-71 | the shared try/catch: a result exactly when the transport succeeded, status 500 was not rejected, the body parsed and its error test passed; the result is the body unchanged |
| Base.KeyTestStricter | src/api/users.ts:84-87 | requiring the error key to be absent rejects everything a truthy-error test rejects, and also rejects a null error |
| Users.Startup | src/api/users.ts:12-30 | one GET of the startup path with the raw login appended; a truthy error gives no result, with no status check |
| Users.Me | src/api/users.ts:32-48 | one GET of /api/v1/user?userId=…; a result exactly when the body parsed without a truthy error |
| Users.GetUserConfig | src/api/users.ts:50-71 | one GET of /api/v1/config?userId=…; status 500 and a truthy error give no result |
| Users.GetTasks | src/api/users.ts:73-96 | one GET of the task page; status 500, or any error key even a null one, gives no result |
| Users.SetFulltank | src/api/users.ts:98-130 | no token: no request and no result; otherwise one POST of {userId}; a result exactly when the status is not 500, the body parsed, its error is not truthy and it carries realtime data (the success log reads `realtimeData.ptc`, which throws otherwise) |
| Users.GetDaily | src/api/users.ts:132-164 | no token: no request and no result; otherwise one POST of {userId} to get-daily, with the same conditions for a result, realtime data included |
| Users.TasksRejectNullError | src/api/users.ts:50-96 | a body with a null error passes getUserConfig but fails getTasks |
| Boosts.IncreaseBoost | src/api/boosts.ts:9-45 | no token: no request and no result; otherwise one POST of {boost, levelToBuy, userId}; a result exactly when the status is not 500, the body parsed, its error is not truthy and it carries realtime data, which the success log reads |
| Categories.GetAll | src/api/categories.ts:7-27 | one GET of the categories; a result exactly when the body parsed without a truthy error (no status check) |
| Categories.GetCategoryInfo | src/api/categories.ts:29-56 | one GET of a category's items, with the same policy |
| Categories.PurchaseItem | src/api/categories.ts:58-85 | one POST of {userId, itemId, levelToBuy} to the purchase path, with the same policy |
| Categories.Enabled | src/api/categories.ts:93-95 | the kept items are exactly the items that are not disabled; never longer than the input; all of it when none is disabled |
| Categories.EnabledAppend | src/api/categories.ts:93-95 | the filter distributes over concatenation, so it keeps order and multiplicity |
| Categories.EnabledSingleton | src/api/categories.ts:93-95 | a single item is kept exactly when it is not disabled |
| Categories.Affordable | src/api/categories.ts:127-128 | the kept items are exactly the items priced below the balance |
| Categories.AffordableAppend | src/api/categories.ts:127-128 | the price filter distributes over concatenation, so it keeps order and multiplicity |
| Categories.AffordableSingleton | src/api/categories.ts:127-128 | a single item is kept exactly when it is priced below the balance |
| Categories.GetAvailableItemsInCategory | src/api/categories.ts:87-105 | the same request as getCategoryInfo; a result exactly when it has one, and then it is the enabled items of the answer, in order |
| Categories.Sample | src/api/categories.ts:121 | lodash sample: none exactly for an empty sequence, otherwise an element of it |
| Categories.Unchecked | src/api/categories.ts:118-120 | an id is left exactly when it is listed and not yet checked |
| Categories.ExhaustedListing | src/api/categories.ts:118-133 | when no listed id is empty, finding no category to sample means every listed category was checked |
| Categories.DistinctWithin | src/api/categories.ts:109-126 | a list of checked ids without repetitions, drawn from the listed ids, is no longer than the set of listed ids |
| Categories.Pass | src/api/categories.ts:112-135 | one pass keeps the checked ids distinct, sends only GETs, and its first request lists the categories |
| Categories.PassFacts | src/api/categories.ts:112-135 | a failed listing changes nothing; otherwise the category is sampled from the unchecked ids, the pass gives up exactly when there is none or it is the empty id, and else that id is checked even when its items fail to load; an item is found exactly when the category's items load and one is affordable, and it is the one sampled from the affordable enabled items; giving up with no empty id means every listed category was checked |
| Categories.PassProgress | src/api/categories.ts:111-141 | a pass made while the search goes on extends what the search knows by one pass |
| Categories.SearchFromProgress | src/api/categories.ts:111-141 | the remaining passes keep what the search knows, and the search is still running only when every round was used |
| Categories.SearchFromSent | src/api/categories.ts:111-141 | the remaining passes keep the requests sent so far, add only GETs, and begin with a category listing |
| Categories.SearchConclusion | src/api/categories.ts:107-144 | what a stopped search concludes from what it knows: with a stable catalog its checked ids are at most the listed ones, and with stable item answers too, a category that offers an affordable item means an item is found |
| Categories.SearchConcludes | src/api/categories.ts:107-144 | every search: a found item is an affordable enabled item of the category the last pass checked; only GETs, the first a category listing; if getAll always fails it never ends and checks nothing; with a stable catalog it ends within one pass more than there are categories, gives up only after checking every category (with no empty id) and finding that none offered an item, and, with stable item answers, finds an item whenever some category offers one |
| Categories.GetAvailableItem | src/api/categories.ts:107-144 | the loop's outcome, checked ids, requests and pass count are exactly Search's; hence a found item is affordable, enabled and from the last checked category, only GETs are sent, a stable catalog with enough rounds always ends the search, and with stable item answers too, a category offering an affordable item means an item is found |
| Categories.FindAndBuyOutcome | src/api/categories.ts:146-157 | the search ends as Search does; a found item is enabled, below the balance, bought at its next level by the last request, and the purchase answer is the result; with no item there is no purchase, no result and only GETs; the first request lists the categories |
| Categories.FindAndBuy | src/api/categories.ts:146-157 | the outcome, answer and requests are exactly FindAndBuyOutcome's, and the search concludes as SearchConcludes states |
| WebSocket.Classify | src/api/websocket.ts:108-136 | reconnect exactly on null data with a "token-expired" error; update exactly on a payload whose balance is non-zero, passing that payload on; everything else is only logged |
| WebSocket.BalanceGatesUpdates | src/api/websocket.ts:117 | a payload without a balance entry is only logged, whatever else it holds |
| WebSocket.PlanTap | src/api/websocket.ts:152-163 | no socket means no connection; the points are sent exactly when generatePoints gives a number below the energy |
| WebSocket.PlanTapWithinEnergy | src/api/websocket.ts:160-163 | sent points are below the energy, a whole number of clicks, and at most 199 clicks |
| WebSocket.PlanTapSkipsSingleClick | src/api/websocket.ts:160-163 | with energy for exactly one click nothing is sent |
| WebSocket.PlanTapSendsZeroBelowOneClick | src/api/websocket.ts:160-163 | with energy for less than one click, zero points are sent |
| WebSocket.FirstReqId | src/api/websocket.ts:164 | the stored request id when it is non-zero, the clock otherwise |
| WebSocket.TapWebSocket.constructor | src/api/websocket.ts:27-41 | userId defaults to 0, the proxy to ""; the shared record is kept by reference; no socket and no monitor yet |
| WebSocket.TapWebSocket.SetConnections | src/api/websocket.ts:77-85 | a new connecting socket on the token and user id URL; nothing else changes |
| WebSocket.TapWebSocket.OnOpen | src/api/websocket.ts:87-97 | the socket is open, a ping monitor runs (a running one is orphaned), and one more energy timer starts when the energy is below its total |
| WebSocket.TapWebSocket.StartPingMonitor | src/api/websocket.ts:198-205 | a monitor is held afterwards; a monitor that was already held is orphaned |
| WebSocket.TapWebSocket.EnergyTick | src/api/websocket.ts:92-95 | the energy grows by its rate with no cap, and nothing else in the record changes |
| WebSocket.TapWebSocket.OnMessage | src/api/websocket.ts:103-140 | the message is classified, the activity time is set, and the socket is renewed exactly on a reconnect |
| WebSocket.TapWebSocket.OnClose | src/api/websocket.ts:142-147 | the request id is forgotten, no monitor is held, and a new connecting socket replaces the old one |
| WebSocket.TapWebSocket.ClearPingMonitor | src/api/websocket.ts:212-217 | afterwards no monitor is held |
| WebSocket.TapWebSocket.PingTick | src/api/websocket.ts:199-204 | a ping goes out exactly when the socket is open and idle for more than the interval |
| WebSocket.TapWebSocket.SendPing | src/api/websocket.ts:206-211 | a ping goes out exactly when the socket is open |
| WebSocket.TapWebSocket.Send | src/api/websocket.ts:166-191 | an open socket takes the frame, a connecting one throws, a closing or closed one drops it |
| WebSocket.TapWebSocket.Tap | src/api/websocket.ts:152-196 | when the plan is to send: a "0" click, then a click with the points, on consecutive ids from FirstReqId; the id ends two past the first, or one past it when the first send throws |
| Bot.ClientOf | src/index.ts:144-155 | requests of an account use its id, token and login, the configured domain and origin, the session's user agent, and the session's proxy or "" |
| Bot.ClientIgnoresProfile | src/index.ts:144-155 | the request context does not depend on the profile |
| Bot.UserInfoStep | src/index.ts:288-297 | one profile request; the profile is replaced exactly when the call succeeds, and nothing else changes |
| Bot.StartupStep | src/index.ts:119-141 | the startup payload is merged, its token is adopted (none on failure), the renewal time is set, the profile is then refreshed as UserInfoStep does on that record, and startup, me and config are requested in that order, the last two with the new token |
| Bot.DailyStep | src/index.ts:329-340 | the daily answer's payload is merged and the profile then refreshed as UserInfoStep does on the merged record: two requests with a token, one without |
| Bot.TankFullStep | src/index.ts:342-356 | the refill's payload is merged, and the cooldown and count are copied into an existing profile when the answer carries them; the profile changes only when the answer has both realtime and refill data; without a token nothing happens |
| Bot.PickBoost | src/index.ts:270-272 | energy-limit on the lower half of the draws, multitap on the upper half |
| Bot.BoostPurchaseStep | src/index.ts:275-285 | the boost request and then the profile request; the boost answer's payload is merged and the profile then refreshed as UserInfoStep does on that record |
| Bot.BoostStep | src/index.ts:269-286 | throws exactly when there is no profile; an unaffordable boost changes nothing and sends nothing; otherwise the next level of the sampled boost is bought |
| Bot.ShouldTankFull | src/index.ts:237-246 | a known cooldown that has passed, and a one-in-ten roll |
| Bot.ShouldBuyCategoryItem | src/index.ts:248-251 | a balance above 10 000 and a roll of one in ten, or three in ten when the income is below 10 000 |
| Bot.LowIncomeBuysMoreOften | src/index.ts:248-251 | every roll that buys at a high income also buys at a low one |
| Bot.ShouldBuyBoost | src/index.ts:253-255 | a one-in-ten roll |
| Bot.ChooseAction | src/index.ts:224-233 | refill, else an item, else a boost, each exactly when its own test passes and the earlier tests failed |
| Bot.NoProfileMeansBoostThrows | src/index.ts:269-274 | without a profile and with a low balance, a passing boost roll picks the boost, and the boost throws |
| Bot.JsRem | src/index.ts:265 | JavaScript's remainder takes the dividend's sign, and agrees with division for non-negative dividends |
| Bot.FormatTime | src/index.ts:262-267 | minutes and seconds recombine to the whole seconds, with seconds in [0, 60) for non-negative times |
| Bot.LongSleepUnderFiftyMinutes | src/index.ts:257-267 | a logged long sleep is under fifty minutes |
| Bot.ItemStep | src/index.ts:316-327 | one buyCategoryItem: the account part never changes; a bought item is enabled, below the balance, its purchase is the last request, and the purchase answer's payload is merged; with no item the record is unchanged and only GETs were sent; the first request lists the categories; a search with enough rounds always concludes |
| Bot.AttemptsShape | src/index.ts:306-315 | every attempt but the last concluded, and fewer attempts than planned follow only a search still running |
| Bot.AttemptsComplete | src/index.ts:306-315 | when every search has enough rounds, every planned attempt is made and the last one concludes |
| Bot.AttemptsFound | src/index.ts:306-327 | bought items are enabled, the first is below the starting balance, and the account part never changes |
| Bot.AttemptsNothingFound | src/index.ts:306-327 | when no attempt finds an item, the record is unchanged and only GETs were sent |
| Bot.AttemptsStart | src/index.ts:306-327 | the first request of the attempts is the first search's category listing |
| Bot.AttemptsAdvance | src/index.ts:308-313 | one more attempt moves from the remaining purchases into the attempts made, and the rest follow unless its search is still running |
| Bot.PlanFacts | src/index.ts:306-315 | for randInt(1, 3) attempts: one or two outcomes, every one but the last concluded, all made with enough rounds, bought items enabled and the first affordable, the account part unchanged, and the realtime data unchanged when nothing was bought |
| Bot.Actions | src/index.ts:214-235 | done is the claim or any action; the boost throws exactly without a profile; a stall comes only from the item purchase; a throw or no action leaves the claim's effect alone; the claim's requests come first |
| Bot.ElseBot.constructor | src/index.ts:31-74 | a fresh zeroed record for the session, no socket, the configured lifetime |
| Bot.ElseBot.InitAccountData | src/index.ts:76-105 | a current login is kept; otherwise a new record with the login obtained (none on failure) and the renewal time; the bookkeeping fields, `isPaused` among them, are unchanged |
| Bot.ElseBot.AccountStartup | src/index.ts:107-142 | nothing happens without a login or with a current token; otherwise the new record is StartupStep's and its requests are logged; the bookkeeping fields, `isPaused` among them, are unchanged |
| Bot.ElseBot.InitWs | src/index.ts:157-171 | without a token nothing happens; otherwise a new socket client shares this very record and is connecting on the token's URL; no other field changes |
| Bot.ElseBot.UpdateRealtimeData | src/index.ts:182-188 | the record's realtime data becomes the merge of the payload, and the account part is unchanged |
| Bot.ElseBot.OnWsMessage | src/index.ts:170 | a socket message sets the activity time, renews the socket exactly on a "token-expired" reconnect, leaves the request id, frames, monitors and timers as they were, and merges exactly the payloads the handler passes on |
| Bot.ElseBot.UpdateUserInfo | src/index.ts:288-297 | the record and requests get UserInfoStep's effect; the bookkeeping fields, `isPaused` among them, are unchanged |
| Bot.ElseBot.GetDaily | src/index.ts:329-340 | the record and requests get DailyStep's effect; the bookkeeping fields, `isPaused` among them, are unchanged |
| Bot.ElseBot.TankFull | src/index.ts:342-356 | the record and requests get TankFullStep's effect; the bookkeeping fields, `isPaused` among them, are unchanged |
| Bot.ElseBot.BuyBoost | src/index.ts:269-286 | throws exactly when BoostStep does, leaving everything unchanged; otherwise the record and requests get BoostStep's effect; the bookkeeping fields, `isPaused` among them, are unchanged |
| Bot.ElseBot.BuyCategoryItem | src/index.ts:316-327 | the record and requests get ItemStep's effect: the search ends as Search does with the current balance; a bought item is enabled and below the balance, its purchase is the last request, and its payload is merged; with no item the realtime data is unchanged and only GETs were added, the first a category listing; a search with enough rounds always concludes; the bookkeeping fields, `isPaused` among them, are unchanged |
| Bot.ElseBot.BuyItems | src/index.ts:308-314 | the `for` loop: the outcomes, record and requests are exactly AttemptItems' on the plan of the first script then the second; the bookkeeping fields, `isPaused` among them, are unchanged |
| Bot.ElseBot.BuyCategoryItemLoop | src/index.ts:306-315 | randInt(1, 3) attempts, that is one or two; the outcomes, record and requests are exactly AttemptItems'; every attempt but the last concluded, fewer attempts follow only a search still running, and with enough rounds all are made; bought items are enabled, the first below the starting balance; with nothing bought the realtime data is unchanged; the account part is unchanged; the bookkeeping fields, `isPaused` among them, are unchanged |
| Bot.ElseBot.PerformActions | src/index.ts:214-235 | the daily claim happens exactly when the profile says it is not claimed; the action is ChooseAction on the record after it; done is the claim or any action; a missing profile throws only for the boost; the outcome, record and requests are exactly Actions'; the bookkeeping fields, `isPaused` among them, are unchanged |
| Bot.ElseBot.LoopIteration | src/index.ts:173-212 | the tap has exactly Tap's effect on the socket client: only its request id and frames change; performActions runs exactly when the energy is below 150, its outcome, record and requests being Actions', and nothing changes otherwise; the sleep is a run delay, or a long delay exactly when the actions completed without doing anything, that is when the energy was low, no daily claim was due and ChooseAction picks nothing; a throw or a stalled search ends the iteration; the bookkeeping fields are unchanged, so `isPaused` keeps the false the constructor gave it and the loop goes on |

## Left out

- I/O. `fetch`, the websocket transport, sleeps, timers and their scheduling
  are not modelled. The interleaving of handlers during an `await` is left out
  too: handlers are methods the environment calls. Clock readings, random
  draws and server answers are parameters.
- Floating point. Random draws are exact rationals, and rounding of
  `Math.random() * k` is ignored.
- `getInitData`, the Telegram login: its result is the `login` parameter of
  `Bot.ElseBot.InitAccountData`. src/initData.ts is not part of this model.
- The session-file loader, `main`, `run` and the endless repetition of
  `loop`. `Bot.ElseBot.LoopIteration` models one iteration, and `isPaused`
  is never set by the source.
- The logger, and `logSleepTime` apart from `formatTime`.
- The websocket upgrade headers and `generateKey`, which are random bytes,
  and the proxy agents (`getTransportByConfig`, `getRandomProxy`, the
  `HttpsProxyAgent`). The socket's "error" handler only logs.
- `tap`'s float `waitTime` between the two clicks; only the order of the
  two frames is modelled.
- JSON fields outside the ones the client reads; non-object response bodies;
  loose-equality corner cases of `==`.
- `Utils.IsObject`: every JSON object is taken to have constructor name
  "Object"; class instances do not arise from JSON.
- The fields `totalPlaced`, `lastClaimedAt`, `nextClaimDelay` and
  `nextRunDelay` are only initialised; the source never reads them in the core.
- Categories.GetAvailableItem: the source repeats until an item is found or
  no category is left, which can be forever. The model runs a finite script
  of rounds and returns `Searching` when the script runs out.
- Bot.ElseBot.BuyCategoryItemLoop: stops after an attempt whose search
  outlasted its script, where the source would still be searching.
- Server answers per round: a round scripts the items answer for each
  category id, and an id the script leaves out gets a transport failure
  (`Categories.ItemsAnswer`).
- Payload keys outside the realtime quantities. The merge loop of
  `updateRealtimeData` (src/index.ts:184-185) and the startup spread
  (src/index.ts:127) copy every key the server sends, so an unexpected key,
  even one named like an account field such as `info` or `jwt`, lands on the
  record. A `Records.Payload` holds only the realtime keys the client reads,
  so the model drops such keys.
- WebSocket.TapWebSocket.EnergyTick: the realtime quantities are naturals, so
  a negative `ptc_rps` cannot be expressed.
