# Marbles start-up orchestration in Dafny

This project models the start-up logic of the customers/marbles demo client. It has
three parts:

- The orchestrator in `utils/startup_lib.js`. It handles the websocket set-up messages and
  enrols the admin identity, retrying once after removing the key-value store. It then
  polls until the chaincode is instantiated and applies the version gate. It reconciles
  the configured owners with the ledger. Finally it provisions owners and three customers
  per owner and reports completion.
- The key and argument builders of `utils/marbles_cc_lib.js`: `leftPad`, `randStr`, the
  owner and customer keys, `build_owner_name`, the classification of query answers, the
  argument vectors of the invokes, and the id that every invoke callback hands back.
- The configuration getters of `utils/connection_profile_lib/parts/helper.js`.

Files:

- `wrappers.dfy`: module `Wrappers`, an `Option` type.
- `cc_lib.dfy`: module `CcLib`.
- `config_helper.dfy`: module `ConfigHelper`.
- `startup.dfy`: module `Startup`.

The module-level state of the start-up file becomes the class `Startup.Orchestrator`. Its
fields are:

- `ccDetectAttempt`: the `cc_detect_attempt` counter.
- `enrollment`: `enrollObj`.
- `phases`: the status of each reported phase.
- `log`: a ghost log of every report, key-store removal and status-update request.

The invariant `Valid()` ties `phases` to the log: the last report of each phase wins.
Every answer of the network, the ledger, the clock and the random generator is a
parameter. The `setTimeout` re-poll is the recursive method `AwaitChaincode`, which stops
when a check does not answer "poll again". Each `async.each` fan-out is a loop in dispatch
order.

Points where the code behaves in a way a reader might not expect, all modelled as written:

- `create_assets` receives all configured usernames, not only the missing ones. In the
  scenario where the ledger lists alice but not bob, the run creates owners for both
  alice and bob, and six customers.
- Failed owner and customer creations are not reported. The owner callback always records
  the handed-back id, and a non-empty list always reaches `all_done`.
- The 'register' message provisions at once. It reports 'register_owners' = success
  without any 'find_chaincode' report (`Startup.RegisterMessageSkipsChaincode`). The
  phase order is proved only for the 'enrollment' and 'find_chaincode' messages.
- `setup_customers_lib` ignores the error passed to the `check_version` callback. Only the
  verdict of `cp.errorWithVersions` on the response decides.
- An owner id is not 19 digits after its prefix. It is the zero-padded timestamp followed
  by 5 random letters and digits (`CcLib.IdKeyShape`).
- The check result that makes `setup_customers_lib` continue is tested for truthiness. An
  empty error text is therefore taken as "chaincode found": the counter resets and the
  version gate runs (`Startup.EmptyErrorTextCountsAsFound`).
- Every customer gets the same colour. The colour is picked by a hash of `more_entropy`
  and the company, and both are fixed for the life of the process.

## Model

| member | source | states |
|---|---|---|
| CcLib.AlphabetShape | utils/marbles_cc_lib.js:348 | the random alphabet has 57 characters and contains none of l, o, I, L, O |
| CcLib.RandText | utils/marbles_cc_lib.js:346-351 | the text has one character per draw, character i being the alphabet entry drawn i-th |
| CcLib.RandStr | utils/marbles_cc_lib.js:346-351 | the loop builds exactly RandText of the draws: length k, every character from the alphabet |
| CcLib.PadLeft | utils/marbles_cc_lib.js:354-357 | padded length is max(\|str\|, n), str is a suffix, everything before it is '0', str unchanged when already long enough |
| CcLib.LeftPad | utils/marbles_cc_lib.js:354-357 | the prepending loop returns PadLeft(str, n) |
| CcLib.DecimalLength | utils/marbles_cc_lib.js:225 | a timestamp with k digits renders as exactly k characters |
| CcLib.DecimalRoundTrip | utils/marbles_cc_lib.js:225 | reading the rendered timestamp back as digits gives the timestamp |
| CcLib.IdKey | utils/marbles_cc_lib.js:225 | a key starts with its prefix letter and has length 1 + max(digits + 5, 19) |
| CcLib.IdKeyShape | utils/marbles_cc_lib.js:225 | for a 13-digit clock a key is 20 characters: prefix, one '0', the 13 timestamp digits, the 5 random characters |
| CcLib.DigitsValueInjective | utils/marbles_cc_lib.js:225 | equal-length digit strings with the same value are equal |
| CcLib.SmallerValueSortsFirst | utils/marbles_cc_lib.js:225 | among equal-length digit strings the smaller value sorts first |
| CcLib.KeysFollowTheClock | utils/marbles_cc_lib.js:92 | keys drawn at increasing 13-digit clock readings sort strictly in that order, whatever the random characters |
| CcLib.BuildOwnerName | utils/marbles_cc_lib.js:341-343 | the name is the lower-cased username, a '.', then the company, character by character |
| CcLib.OwnerNameCaseInsensitive | utils/marbles_cc_lib.js:341-343 | two usernames give the same owner name exactly when they agree up to letter case |
| CcLib.CheckIfAlreadyInstantiated | utils/marbles_cc_lib.js:29-41 | a transport error passes through; a null or NaN `parsed` gives 'chaincode not found'; only a numeric answer counts as instantiated |
| CcLib.CheckVersion | utils/marbles_cc_lib.js:58-70 | a transport error passes through; only a null `parsed` gives 'chaincode not found' |
| CcLib.VersionCheckIsLaxer | utils/marbles_cc_lib.js:34 | every answer accepted by the instantiation check passes the version check, and a NaN answer passes only the latter |
| CcLib.PassIdBack | utils/marbles_cc_lib.js:99-105 | the error passes unchanged, a missing response becomes `{}`, other properties are kept, and `id` is the first argument |
| CcLib.RegisterOwner | utils/marbles_cc_lib.js:210-237 | `init_owner` with [owner key, owner, company]; the reply's id is the owner key whatever the invoke reported |
| CcLib.CreateACustomer | utils/marbles_cc_lib.js:77-106 | `init_customer` with [customer key, color, size, owner id, company]; the reply's id is the customer key |
| CcLib.DisableOwner | utils/marbles_cc_lib.js:275-301 | `disable_owner` with [owner id, company]; the reply's id is the owner id |
| CcLib.RegisteredOwnerId | utils/marbles_cc_lib.js:223-236 | the id an owner creation hands back is a 20-character 'o' key carrying the timestamp, for every invoke outcome |
| ConfigHelper.GettersPassThrough | utils/connection_profile_lib/parts/helper.js:9-21 | the usernames, company and port getters return their own customers field unchanged and ignore every other field |
| ConfigHelper.GetEventsSetting | utils/connection_profile_lib/parts/helper.js:24-29 | the result is truthy iff `use_events` is present and truthy; it is then that value, else `false` |
| ConfigHelper.GetKeepAliveMs | utils/connection_profile_lib/parts/helper.js:32-36 | a falsy setting gives 30000; a non-zero number n gives n * 1000; `true` gives 1000; only a truthy text or array setting is left unconverted |
| ConfigHelper.KeepAliveWholeSeconds | utils/connection_profile_lib/parts/helper.js:33-35 | for whole-number settings the period is a whole number of seconds, a positive setting n gives n seconds, and an absent one gives 30000 ms |
| Startup.RunEnrollment | utils/startup_lib.js:181-198 | from attempt a, the enrolment makes between 1 and the budget (2 from attempt 1) calls |
| Startup.EnrollRunStopsAtFirstSuccess | utils/startup_lib.js:181-198 | every call before the last failed, the last answer is the result, and a failing run ended at attempt 2 or later |
| Startup.EnrollFromFirstAttempt | utils/startup_lib.js:181-198 | from attempt 1, at most two calls; enrolment fails iff both calls fail |
| Startup.StepReadiness | utils/startup_lib.js:133-175 | the counter grows by one when the check answers a truthy error, and resets to 0 otherwise; it polls again iff the error is truthy, the counter is at most 40 and the error is text containing 'premature execution'; it continues iff the error is falsy and the versions are compatible; the status reported matches |
| Startup.EmptyErrorTextCountsAsFound | utils/startup_lib.js:143 | an empty error text is falsy: the counter resets to 0, and the step continues iff the versions are compatible, halting otherwise |
| Startup.PollBudget | utils/startup_lib.js:145-152 | from counter a, at most 40 - a retries are scheduled, and no more than the checks available |
| Startup.ReadinessReports | utils/startup_lib.js:142-175 | every check but the last reports 'polling'; the last reports success exactly when the continuation is reached, with the counter back at 0 |
| Startup.PersistentStartupFails | utils/startup_lib.js:145-159 | a chaincode that keeps answering 'premature execution' gets exactly 40 - a retries and then fails with counter 41 |
| Startup.ThreePollsThenReady | utils/startup_lib.js:142-175 | three transient answers, then a found and compatible chaincode, give 3 retries, then success, with the counter reset to 0 |
| Startup.CompanyAmong | utils/startup_lib.js:94-99 | true iff some owner's company equals the configured company |
| Startup.DetectCompany | utils/startup_lib.js:92-104 | true iff the response and its `parsed` are present and some listed owner belongs to the company |
| Startup.FindMissingOwners | utils/startup_lib.js:107-126 | the nested search answers true iff some configured username has no ledger owner with exactly that username (false for an empty list) |
| Startup.NeedsOwners | utils/startup_lib.js:69-89 | no owners are needed iff the ledger was read, lists an owner of the company, and registers every configured username |
| Startup.BobMissing | utils/startup_lib.js:107-126 | a ledger listing only alice, with alice and bob configured, needs owners |
| Startup.ExpandCustomers | utils/startup_lib.js:220-226 | the customer list has 3 entries per owner, entry j being owner j / 3 |
| Startup.BuildCustomerOptions | utils/startup_lib.js:290-301 | the color is one of the nine colors and the size one of '35' and '16'; it carries the given owner id and company |
| Startup.CustomerRequest | utils/startup_lib.js:273-287 | one `init_customer` with five arguments: its key first, the colour the hash picks second, the owner's id fourth, the company fifth |
| Startup.CreateOwnerRecords | utils/startup_lib.js:207-214 | one owner record per username, in order, holding the id the owner creation handed back |
| Startup.CreateCustomerRequests | utils/startup_lib.js:220-238 | 3 customer requests per owner; request j points at the id of owner j / 3; all requests carry the same colour |
| Startup.StartupChainRespectsPhaseOrder | utils/startup_lib.js:19-50 | for 'enrollment' and 'find_chaincode', every 'register_owners' report in the message's events follows a 'find_chaincode' success report |
| Startup.HaltedChainRegistersNothing | utils/startup_lib.js:142-175 | when the readiness chain does not reach the continuation, the message's events hold no 'register_owners' report and nothing is provisioned |
| Startup.VersionGateStopsChain | utils/startup_lib.js:164-168 | a found chaincode with incompatible versions halts after one 'failed' report; the continuation is never called, so nothing is registered or provisioned |
| Startup.RegisterMessageSkipsChaincode | utils/startup_lib.js:53-55 | the events of a 'register' message break the phase order: register success without any chaincode report |
| Startup.OrderedAfter | utils/startup_lib.js:19-50 | a log extended by the events of 'enrollment' or 'find_chaincode' keeps the phase order in the appended part |
| Startup.Orchestrator.constructor | utils/startup_lib.js:9-12 | the counter starts at 0, no identity is held, nothing has been reported, and the colour hash is fixed for the orchestrator's life |
| Startup.Orchestrator.RecordState | utils/startup_lib.js:148-149 | the phase's status becomes the reported one, and the report is appended to the log |
| Startup.Orchestrator.RemoveKvs | utils/startup_lib.js:304-312 | appends one key-store removal to the log and changes nothing else |
| Startup.Orchestrator.CheckForUpdates | utils/startup_lib.js:319 | appends one status-update request to the log |
| Startup.Orchestrator.EnrollAdmin | utils/startup_lib.js:181-198 | the error is the last failure's code, and the identity is kept; on success the identity is replaced and there is no error; the key store is removed once before each retry |
| Startup.Orchestrator.SetupCustomersLib | utils/startup_lib.js:129-178 | the next step, the new counter and the one 'find_chaincode' report are those of StepReadiness, including its truthiness test of the error |
| Startup.Orchestrator.AwaitChaincode | utils/startup_lib.js:150-152 | re-running the check while it polls ends where RunReadiness ends, with its retries, its counter and one report per check |
| Startup.Orchestrator.DetectPrevStartup | utils/startup_lib.js:69-89 | the answer is NeedsOwners; a read error reports nothing; otherwise 'register_owners' is reported 'waiting' or 'success'; the log grows by exactly DetectReport |
| Startup.Orchestrator.AllDone | utils/startup_lib.js:315-320 | 'register_owners' becomes success, followed by a status-update request |
| Startup.Orchestrator.CreateAssets | utils/startup_lib.js:201-247 | one owner per username holding its creation's key; 3 customer requests per owner pointing at that owner's id, all with the orchestrator's one colour; then all_done's two events, including for an absent or empty list |
| Startup.Orchestrator.ReconcileAndProvision | utils/startup_lib.js:26-30 | provisions iff detect_prev_startup asks for owners; the configured list then gives its owners and 3 customers each (ProvisionedAs), otherwise nothing is created; the log grows by exactly ReconcileEvents |
| Startup.Orchestrator.AwaitThenProvision | utils/startup_lib.js:25-31 | provisions iff the readiness chain reaches the continuation and owners are needed, with the owners and customers of ProvisionedAs; the counter ends where RunReadiness ends; the log grows by exactly AwaitEvents |
| Startup.Orchestrator.EnrollAndProvision | utils/startup_lib.js:37-50 | provisions iff enrolment succeeds, the chaincode becomes ready, and owners are needed; the identity, the counter and the log end as EnrollmentAfter, AttemptAfter and StartupEvents say; no creations otherwise |
| Startup.Orchestrator.SetupWsSteps | utils/startup_lib.js:17-56 | per message, the identity, the counter, the provisioning and the exact events (WsEvents: key-store removal first for 'enrollment', all_done's events for 'register', nothing for other messages); for 'enrollment' and 'find_chaincode', 'register_owners' is reported only after 'find_chaincode' success |

## Left out

- Network calls are not modelled. `fcw.enroll`, `query_chaincode` and `invoke_chaincode` are parameters: enrolment answers, readiness checks, a ledger read, and creation answers.
- `setTimeout` is not modelled: neither the 15-second poll delay nor the `cp.getBlockDelay()` settle delay. A poll is the next recursive call.
- `async.each` concurrency is not modelled. Creations run in dispatch order. In the source, owners are pushed in completion order, so the model fixes one of the possible orders.
- Websocket transport is not modelled: `record_state`, `broadcast_state` and `check_for_updates` only append to the ghost log.
- `cp.write`, `misc.rmdir` inside `removeKVS`, the logger and the console are file-system and logging side effects. They are not modelled.
- `startup_unsuccessful` only prints a notice, so it is not modelled.
- `cp.makeCustomerssLibOptions`, the re-creation of `customers_lib` and `ws_server.setup` in `setup_customers_lib` are wiring of other modules. They are not modelled.
- `cp.errorWithVersions` is not part of this model. Its verdict is a boolean parameter of each readiness check.
- `misc.simple_hash` and `misc.getRandomInt` are not part of this model. The hash of `more_entropy` and the company is one natural number given to the orchestrator's constructor; the size index below 2 is a parameter of each customer creation.
- `cp.getCustomersField`, `cp.getCustomerUsernames` and `process.env.customer_company` become a field map, the configured list and a company parameter.
- ConfigHelper.GetCustomerUsernamesConfig: hands back the raw configuration value. The orchestrator takes the configured list as an optional sequence of names, and the conversion from the configuration value to that list is not modelled.
- Startup.Orchestrator.CreateAssets: `misc.saferNames` is not part of this model, so the username list is used as it arrives.
- Startup.FindMissingOwners: requires `parsed` whenever a response is given. The source would raise a TypeError there. Its only caller checks `detectCompany` first, so this case never arises.
- `Date.now()` and `Math.random()` are parameters: a natural-number clock reading and the alphabet indices drawn. JavaScript's exponent notation for numbers of 1e21 and above is not modelled.
- CcLib.PassIdBack: the source sets `resp.id` on the caller's object in place. The model returns a new response value, so aliasing with the caller's object is not captured.
- CcLib.BuildOwnerName: lower-casing covers the ASCII letters only. Unicode case mapping is not modelled.
- ConfigHelper.GetKeepAliveMs: a truthy text or array setting gives None. JavaScript's numeric conversion of text and arrays is not modelled, and fractional seconds are not modelled either.
- ConfigHelper.KeepAliveWholeSeconds: holds for whole-number settings only. A fractional setting such as 1.5 gives 1500 ms in the source, and the model has no fractional numbers.
- The pure-forwarding wrappers only package options for the network client and are not modelled: `get_customer`, `set_customer_owner`, `delete_customer`, `get_history`, `get_multiple_keys`, `get_owner`, `get_owner_list`, `read_everything`, `build_owner_name`'s exported alias, and `channel_stats`.
- The `if (cb)` guards are not modelled, because every call site passes a callback. The unused `opts` argument of `detect_prev_startup` is not modelled either.
