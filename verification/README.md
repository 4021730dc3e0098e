# ai-routing-engine: verified model of the routing core

This project models, in Dafny, the deterministic decision and state logic of
the AI routing engine. The clock, randomness and I/O are abstracted away.

- `errors.dfy` (`Errors`): the canonical error codes, the `PipelineError` defaults and the
  first-match-wins classifier `toCanonicalErrorCode`.
- `fallback.dfy` (`FallbackOrchestrator`): `executeWithFallback`, the bounded, strictly
  sequential attempt loop over an ordered provider list, and `safeErrorMessage`. Each
  provider's `run` is an abstract outcome (resolves with an output, or rejects with an error)
  or is missing. The method returns the result, the `fallback.*` event log and the indices of
  the providers whose `run` was invoked.
- `registry.dfy` (`ProviderRegistry`): the provider health registry, a class whose map of
  health entries is updated in place, with a cooldown deadline that expires lazily inside
  `isProviderDisabled`. The time `now` is a parameter.
- `bandit.dfy` (`BanditEngine`): the Thompson-sampling bookkeeping without the sampler:
  lazy arm creation, reward normalisation and the posterior update, the snapshot and
  hydration.
- `bus.dfy` (`ObservabilityBus`): per-event handler sets and a wildcard set, registration,
  unsubscription and emission. Handlers are identifiers. Which handlers throw is a
  parameter, and emission returns the log of its calls and of the errors it reported.
- `store_memory.dfy` (`MemoryStore`) and `store_redis.dfy` (`RedisStore`): the bandit stores.
  The key-value client is a map from string to string. `JSON.stringify` and `JSON.parse` are
  abstract functions given to the store.
- `utils.dfy` (`Utils`) and `provider_classes.dfy` (`ProviderClasses`): `clamp`, `median`,
  `relativeDelta`, and the prior table with its lookup.
- `logs.dfy` (`Logs`): a log built block by block, used for the fallback event trace.
- `js.dfy` (`Js`) and `wrappers.dfy` (`Wrappers`): the parts of JavaScript's value semantics
  the code relies on, and `Option`/`Result`:
  - truthiness and `||`;
  - `String(v)`;
  - ASCII `toLowerCase`;
  - `includes`;
  - `split`.

Three facts about the code that the model keeps as written:

- Bandit arms are keyed by provider alone, not by (provider, context).
- The registry lets a disabled entry with deadline 0 stay disabled for ever.
  `ProviderRegistry.ZeroDeadlineNeverExpires` shows this.
- Hydration does not enforce positive alpha and beta. Positivity is proved only for arms
  created from positive priors (`BanditEngine.ClassPriorArmIsPositive`). Rewards keep it
  (`BanditEngine.PositiveArmsStayPositive`).

## Model

| member | source | states |
|---|---|---|
| Js.Or | errors.js:60-65 | `a \|\| b` is truthy iff either operand is, and is the left operand whenever that one is truthy |
| Js.LowerKeepsOccurrence | errors.js:67 | an occurrence of a word in a message remains an occurrence after lower-casing both |
| Js.Split | banditStore.redis.js:42 | `split` always yields at least one piece |
| Js.SplitWithoutSeparator | banditStore.redis.js:42 | a text without the separator splits into itself alone |
| Js.SplitAfterFirst | banditStore.redis.js:42 | splitting `x:y` with colon-free `x` yields `x` followed by the pieces of `y` |
| Utils.Clamp | utils.js:1-3 | the result is never below min; it lies in [min, max] when min <= max, is v when v is in range, and is the nearer bound otherwise |
| Utils.InsertKeepsOrder | utils.js:7 | inserting into an ascending sequence keeps it ascending and adds exactly the inserted value (the step of the sort) |
| Utils.SortedCopy | utils.js:7 | the sorted copy is ascending and a permutation of the input |
| Utils.SortedIsUnique | utils.js:7 | two ascending permutations of the same values are equal, so the sorted copy does not depend on the sort algorithm |
| Utils.Median | utils.js:5-9 | null exactly for an empty array; otherwise an element of the input, and the element at index floor(n/2) of every ascending permutation of it |
| Utils.MedianSplitsSorted | utils.js:8 | in a sorted array, smaller elements than the median lie before index floor(n/2) and larger ones after it |
| Utils.RelativeDelta | utils.js:11-15 | the result lies in [-1, 1]; it is 0 for baseline 0 and for value = baseline; it is the exact relative change when that is in range, and 1 for a positive baseline and a non-positive value |
| Errors.NamesAreDistinct | errors.js:10-18 | the seven codes have distinct string values |
| Errors.NewPipelineError | errors.js:28-41 | a falsy code becomes INTERNAL_ERROR; the message is the given message as text, or, when the message is falsy, `String(code)` for any defined code (so "null", "0", "false" or "" for a falsy one) and "" for an undefined code; meta is kept |
| Errors.RawCode | errors.js:60-65 | the raw code is the first truthy one of `code`, `status`, `statusCode`, `name`, `type` (the last one whatever it is), it is truthy exactly when one of them is, and a non-object has none |
| Errors.MessageText | errors.js:67 | a falsy value gives "", a thrown string itself, a PipelineError its (non-empty) message, an object its truthy `message` as text and otherwise the object's own string form |
| Errors.Classify | errors.js:69-114 | the rule chain never yields RATE_LIMITED |
| Errors.ToCanonicalErrorCode | errors.js:51-115 | null exactly for a falsy value; a PipelineError yields its own code; any other value yields a member of ERRORS other than RATE_LIMITED |
| Errors.RulePrecedence | errors.js:69-114 | each code is produced exactly when its rule matches and no earlier rule does (both directions, for all five rules) |
| Errors.TimeoutInAnyCase | errors.js:67-76 | a message containing "timeout" in any capitalisation classifies as TIMEOUT |
| Errors.StatusCodes | errors.js:60-107 | with a falsy `code`, status 429/400/503 (number or string) gives QUOTA_EXCEEDED/INVALID_REQUEST/PROVIDER_UNAVAILABLE unless an earlier rule matches the message |
| Errors.CodeHidesStatus | errors.js:60-65 | a truthy `code` ("ECONNRESET") hides status 429, and the error falls through to INTERNAL_ERROR |
| Errors.RequestTimeoutExample | errors.js:67-75 | the thrown string "Request timeout exceeded" classifies as TIMEOUT |
| Errors.TimeoutBeatsQuota | errors.js:69-87 | a message with both "timeout" and "quota" classifies as TIMEOUT |
| FallbackOrchestrator.SafeErrorMessage | fallbackOrchestrator.js:120-129 | the result is at most 500 characters and a prefix of the error's text; it is the whole text when that is short, and "" for a falsy value |
| FallbackOrchestrator.UntruncatedMessage | fallbackOrchestrator.js:121-128 | the text `safeErrorMessage` cuts: "" for a falsy value, a string itself, an Error's message or "", and a non-Error object's JSON text or "" when serialisation throws |
| FallbackOrchestrator.AttemptError | fallbackOrchestrator.js:61-67 | a provider with `run` fails with the error `run` rejected with; one without fails with a PipelineError whose code is MODEL_FAILED, with the missing-run message and the request id and provider name as meta, and which canonicalises to MODEL_FAILED |
| FallbackOrchestrator.ExhaustionOf | fallbackOrchestrator.js:108-114 | the exhaustion error's code is the canonical code of the last error, and MODEL_FAILED when there is none; it is always truthy, the message is fixed, and the meta holds exactly the request id and the last error's safe message (at most 500 characters) as cause |
| FallbackOrchestrator.ProviderName | fallbackOrchestrator.js:48 | the provider name is always truthy, and is the provider's own name when that is truthy |
| FallbackOrchestrator.AttemptBudget | fallbackOrchestrator.js:39-42 | the budget lies between 1 and the list length; it is maxAttempts when that is a positive number below the length, and the length otherwise |
| FallbackOrchestrator.CanonicalOr | fallbackOrchestrator.js:88 | the code attached to a failure is always truthy, and is MODEL_FAILED for a falsy error |
| FallbackOrchestrator.FirstSuccess | fallbackOrchestrator.js:46-84 | the index returned is the first provider in the budget whose `run` resolves; every earlier one fails |
| FallbackOrchestrator.AttemptsMade | fallbackOrchestrator.js:46-106 | at most the budget is attempted, and at least one attempt is made |
| FallbackOrchestrator.ExecuteWithFallback | fallbackOrchestrator.js:24-115 | an empty or non-array list throws MODEL_FAILED with no events and no invocations; otherwise the result is the first success (name and output) or the exhaustion error; the event log is the trace of exactly the attempts made; `run` is invoked exactly for the attempted providers that have one |
| FallbackOrchestrator.AttemptInOrder | fallbackOrchestrator.js:44-114 | the loop returns at the first success within the budget and throws the error built from the last failure otherwise, with the events and invocations of the attempts made |
| FallbackOrchestrator.TryProvider | fallbackOrchestrator.js:47-105 | one attempt succeeds exactly when `run` resolves; it emits the attempt event and then exactly one succeeded or failed event, reports `run` as invoked exactly when it exists, and yields the caught error on failure |
| FallbackOrchestrator.FailedStep | fallbackOrchestrator.js:85-105 | after i failed attempts, a failed attempt at index i gives the state of i+1 failed attempts: its error is the last error, its two events and its invocation are appended, and no success has been seen |
| FallbackOrchestrator.SucceededStep | fallbackOrchestrator.js:69-84 | a success after i failed attempts is the first success, ends the attempts at i+1, and its events and invocation complete the trace of the attempts made |
| FallbackOrchestrator.Exhausted | fallbackOrchestrator.js:108-114 | after n failed attempts none succeeded, n attempts were made, and the thrown error is the one built from the last caught error |
| FallbackOrchestrator.TraceShape | fallbackOrchestrator.js:46-106 | m attempts give exactly 2m events; event 2j is `fallback.attempt` numbered j+1 and event 2j+1 is that attempt's single outcome event |
| FallbackOrchestrator.FirstSuccessIs | fallbackOrchestrator.js:46-84 | the first success is fixed by which providers before it fail |
| FallbackOrchestrator.InvokedExactly | fallbackOrchestrator.js:61-69 | `run` is invoked for an index exactly when it is attempted and has `run`, each index once and in increasing order |
| FallbackOrchestrator.ShortCircuit | fallbackOrchestrator.js:69-84 | on success at index k no provider after k has its `run` invoked, and k's is |
| FallbackOrchestrator.FailThenSucceed | fallbackOrchestrator.js:46-105 | for [fails, succeeds, any] with a budget of two or more, the second provider is used, two attempts are made, and only the first two are invoked |
| FallbackOrchestrator.AllThreeFail | fallbackOrchestrator.js:108-114 | when all three providers fail and no limit is given, three attempts are made and the thrown code comes from the third provider's error |
| FallbackOrchestrator.ExhaustionCode | fallbackOrchestrator.js:108-114 | the exhaustion code is MODEL_FAILED for a missing `run` or a falsy error, the code of a thrown PipelineError, and otherwise an ERRORS member other than RATE_LIMITED |
| ProviderRegistry.HealthRegistry.constructor | providerRegistry.js:24 | the registry starts empty |
| ProviderRegistry.HealthRegistry.Ensure | providerRegistry.js:29-39 | the first reference creates the entry {enabled, no deadline, reason null, lastChange now}; a known entry is left as it is |
| ProviderRegistry.HealthRegistry.DisableProvider | providerRegistry.js:44-57 | only this provider's entry changes, to disabled with deadline now + cooldown (default 60000) and the reason; the disabled event is emitted |
| ProviderRegistry.HealthRegistry.EnableProvider | providerRegistry.js:62-74 | only this provider's entry changes, to enabled with no deadline and the reason (default "manual"); the enabled event is emitted |
| ProviderRegistry.HealthRegistry.IsProviderDisabled | providerRegistry.js:79-92 | the answer, the new registry and the emitted events are those of the lazy-expiry check |
| ProviderRegistry.CheckDisabled | providerRegistry.js:79-92 | an unknown provider gets a fresh entry and is not disabled; the answer is true exactly for a known disabled provider whose truthy deadline has not passed; an expired deadline re-enables the provider with reason "cooldown_expired" and emits one enabled event, and nothing else in the registry changes |
| ProviderRegistry.HealthRegistry.GetProviderState | providerRegistry.js:97-100 | returns the ensured entry, which is fresh for an unknown provider |
| ProviderRegistry.HealthRegistry.GetAllProvidersState | providerRegistry.js:105-111 | returns every entry unchanged under its provider, without changing the registry |
| ProviderRegistry.HealthRegistry.ResetProviderRegistry | providerRegistry.js:116-118 | the registry becomes empty |
| ProviderRegistry.UnknownProvider | providerRegistry.js:79-92 | a never-seen provider is not disabled, and the check leaves its fresh entry |
| ProviderRegistry.DuringCooldown | providerRegistry.js:82-89 | after a disable with a non-zero deadline, the provider is disabled and nothing changes while now < deadline |
| ProviderRegistry.AfterCooldown | providerRegistry.js:83-86 | once now >= deadline the answer is false, the entry becomes enabled with reason "cooldown_expired" and no deadline, and the enabled event is emitted |
| ProviderRegistry.ZeroDeadlineNeverExpires | providerRegistry.js:82 | a deadline of 0 is falsy, so such a provider stays disabled at every time |
| ProviderRegistry.EnableClearsDisable | providerRegistry.js:62-68 | after an enable the provider is not disabled and the check changes nothing |
| ProviderRegistry.CheckFrame | providerRegistry.js:79-92 | the check changes no other provider's entry |
| ProviderRegistry.OperationsKeepConsistent | providerRegistry.js:44-68 | disable, enable and the check keep every entry enabled exactly when it has no deadline |
| ProviderRegistry.CheckAnswer | providerRegistry.js:79-92 | on a consistent registry the provider is disabled iff it is known, not enabled, and its deadline is 0 or still ahead |
| ProviderRegistry.CheckIdempotent | providerRegistry.js:79-92 | a second check at the same time gives the same answer and state, and emits nothing |
| ProviderClasses.GetProviderPrior | providerClasses.js:8-10 | a known class gives its table entry; an unknown class or no argument gives the default {1, 1}; the result is always a table entry |
| ProviderClasses.PriorsArePositive | providerClasses.js:1-6 | every prior in the table, and so every looked-up prior, has positive alpha and beta |
| ProviderClasses.KnownAndUnknownClasses | providerClasses.js:1-10 | the three named classes resolve to their entries; "premium" and a missing argument resolve to the default |
| BanditEngine.NewArm | banditEngine.js:30-37 | a new arm has no trials and no reward; alpha and beta come from the priors, and are 1 when missing |
| BanditEngine.NormalizedReward | banditEngine.js:57 | rNorm lies in [0, 1]; it is reward / 2.5 inside [0, 2.5], 0 below and 1 above |
| BanditEngine.Rewarded | banditEngine.js:53-64 | a reward adds exactly 1 trial and the reward to the sum; alpha grows by rNorm; neither alpha nor beta decreases; and alpha + beta grows by exactly 1 |
| BanditEngine.Bandits.constructor | banditEngine.js:25 | the state starts empty |
| BanditEngine.Bandits.EnsureBandit | banditEngine.js:30-47 | an existing arm is returned unchanged and the priors are ignored; otherwise the arm is created from the priors and the init event is emitted |
| BanditEngine.Bandits.RecordBanditReward | banditEngine.js:53-76 | only this provider's arm changes, by the reward update applied to its existing or default arm; the init event (if new) and then the reward event are emitted |
| BanditEngine.Bandits.GetBanditSnapshot | banditEngine.js:126-138 | the snapshot holds one entry per arm with its fields and its average reward (0 without trials), and the state is unchanged |
| BanditEngine.Snapshot | banditEngine.js:126-138 | one snapshot per arm with the same trials, reward sum, alpha and beta, and an average that times the trials gives the reward sum (0 without trials) |
| BanditEngine.Hydrated | banditEngine.js:143-151 | the providers are those of the state and of the records; each listed provider takes its record's values and every other provider is kept |
| BanditEngine.Bandits.HydrateBandits | banditEngine.js:143-156 | listed providers are overwritten with defaults for missing fields, the others are kept, and the hydrate event lists all providers |
| BanditEngine.Bandits.ExportBandits | banditEngine.js:161-163 | export is the snapshot |
| BanditEngine.HydrateFromSnapshotRestores | banditEngine.js:126-151 | hydrating from a snapshot restores exactly the state it was taken from |
| BanditEngine.HydrateOverwritesListed | banditEngine.js:143-151 | hydration covers both key sets, overwrites exactly the listed providers, and doing it twice equals doing it once |
| BanditEngine.EmptyRecordIsDefaultArm | banditEngine.js:145-150 | a record with every field missing hydrates to the default new arm |
| BanditEngine.RewardsAccumulate | banditEngine.js:59-64 | after n rewards, trials grew by n, rewardSum by their sum, and alpha + beta by n, with neither decreasing |
| BanditEngine.AverageWithinRewards | banditEngine.js:134 | the average reward of a fresh arm after rewards all in [lo, hi] lies in [lo, hi] |
| BanditEngine.PositiveArmsStayPositive | banditEngine.js:63-64 | positive alpha and beta stay positive under every reward |
| BanditEngine.ClassPriorArmIsPositive | banditEngine.js:35-36 | an arm created from a table prior starts with positive alpha and beta |
| ObservabilityBus.Added | observabilityBus.js:31 | adding keeps every handler, adds the new one, changes nothing when it is present, and keeps the set duplicate-free |
| ObservabilityBus.Removed | observabilityBus.js:34 | deleting keeps exactly the other handlers and keeps the set duplicate-free |
| ObservabilityBus.Failures | observabilityBus.js:53-69 | only handlers that throw are reported, at most one report per call |
| ObservabilityBus.Bus.constructor | observabilityBus.js:19-22 | no handlers at first |
| ObservabilityBus.Bus.On | observabilityBus.js:27-36 | the handler is in the event's set afterwards, the other events and the wildcard set are unchanged, and the returned closure unsubscribes it |
| ObservabilityBus.Bus.OnAny | observabilityBus.js:41-44 | the handler is added to the wildcard set only |
| ObservabilityBus.Bus.Unsubscribe | observabilityBus.js:33-43 | the closure removes its handler from the set it was added to, and nothing happens when that event has no set |
| ObservabilityBus.Bus.EmitEvent | observabilityBus.js:49-71 | every handler of the event is called in insertion order, then every wildcard handler in insertion order, whichever of them throw; no handler is called twice within either part; throwing handlers are reported in call order |
| ObservabilityBus.DeliverAll | observabilityBus.js:53-60 | each handler of the event is called once with the payload, in insertion order, and exactly the throwing ones are reported, in call order |
| ObservabilityBus.BroadcastAll | observabilityBus.js:64-70 | each wildcard handler is called once with the event name and the payload, in insertion order, and exactly the throwing ones are reported, in call order |
| ObservabilityBus.SubscribeTwiceIsOnce | observabilityBus.js:27-31 | subscribing twice equals subscribing once |
| ObservabilityBus.UnsubscribeIdempotent | observabilityBus.js:33-35 | unsubscribing again has no further effect |
| ObservabilityBus.SubscribeThenUnsubscribe | observabilityBus.js:27-35 | subscribing a new handler and then unsubscribing it restores the set |
| ObservabilityBus.EmittedHandlers | observabilityBus.js:49-71 | only the event's own handlers and the wildcard handlers are called; an event without handlers reaches only the wildcard handlers |
| MemoryStore.StoreKey | banditStore.memory.js:9-11 | the key is the context text, a colon, then the provider text |
| MemoryStore.Lookup | banditStore.memory.js:13-15 | a state is found exactly when its key is stored |
| MemoryStore.MemoryBanditStore.constructor | banditStore.memory.js:4-7 | the store starts empty |
| MemoryStore.MemoryBanditStore.Load | banditStore.memory.js:13-15 | returns the saved state, or null when nothing is saved under the key |
| MemoryStore.MemoryBanditStore.Save | banditStore.memory.js:17-19 | replaces only the entry under the pair's key |
| MemoryStore.MemoryBanditStore.LoadAll | banditStore.memory.js:21-23 | returns exactly the saved entries |
| MemoryStore.SaveThenLoad | banditStore.memory.js:13-19 | a load after a save returns the saved state; other keys load as before; the last write wins |
| MemoryStore.KeyInjective | banditStore.memory.js:9-11 | with colon-free contexts, different pairs have different keys |
| MemoryStore.ColonInContextCollides | banditStore.memory.js:9-11 | ("x", "a:b") and ("b:x", "a") share the key "a:b:x" |
| RedisStore.RedisKey | banditStore.redis.js:11-13 | the key is the prefix followed by the context text ("default" when missing), a colon and the provider |
| RedisStore.ScannedKey | banditStore.redis.js:42-43 | the reported key put back after the prefix gives the scanned key |
| RedisStore.ScannedKeyAsWritten | banditStore.redis.js:42-43 | the reported name always contains a colon, and a key without any colon is reported as "undefined:undefined" |
| RedisStore.RedisBanditStore.constructor | banditStore.redis.js:5-9 | the prefix is the given one when truthy, else "bandit:" |
| RedisStore.RedisBanditStore.Load | banditStore.redis.js:15-24 | null for a missing, empty or unparseable value, otherwise the parsed state |
| RedisStore.RedisBanditStore.Save | banditStore.redis.js:26-31 | overwrites the single key of the pair with the JSON text |
| RedisStore.RedisBanditStore.LoadAll | banditStore.redis.js:33-48 | lists exactly the readable values under the prefix, each under its key without the prefix; empty and unparseable values are skipped |
| RedisStore.SavedEntryIsListed | banditStore.redis.js:26-48 | a saved state whose text round-trips appears in the scan under `context:provider`, for any prefix |
| RedisStore.AsWrittenThreePieces | banditStore.redis.js:42-43 | the source's split reports "b:c" for a key a:b:c with colon-free pieces |
| RedisStore.AsWrittenFourPieces | banditStore.redis.js:42-43 | the source's split reports "b:c" for a key a:b:c:rest, whatever follows |
| RedisStore.AsWrittenDefaultPrefix | banditStore.redis.js:42-43 | with the default prefix and a colon-free context and provider, the source's split yields `context:provider` |
| RedisStore.AsWrittenLongPrefix | banditStore.redis.js:42-43 | with prefix "app:bandit:" the source's split reports "bandit:default" instead of "default:provider" |
| RedisStore.AsWrittenColonInProvider | banditStore.redis.js:42-43 | the source's split reports every provider "<family>:<model>" with a colon-free family, in the default context, as "default:<family>", so such providers collide |
| RedisStore.ScannedKeyInvertsKey | banditStore.redis.js:11-13 | stripping the prefix inverts the key construction for every prefix, so distinct keys are reported under distinct names |

## Left out

- The sampler (`sampleBeta`, `gamma`, `normalSample`) is not modelled. It uses floating-point transcendental functions and random draws, and its rejection loops have no termination bound.
- banditStore.sqlite.js, index.js, server.js, demo.js, the sticky router and the ranker are not part of this model.
- Time comes from the `now` parameter, one reading per operation. The code reads `Date.now()` separately in `ensure` for a new entry (providerRegistry.js:35), twice in `disableProvider` (deadline at :48, `lastChange` at :50), once in `enableProvider` (:68), and in `isProviderDisabled` once for the deadline test (:83) and again through `enableProvider` (:68); the model gives all the readings of one call the same value. The `latencyMs` fields of the `fallback.*` events are omitted.
- `async`/`await`, `console.error` and the key-value client's network I/O are not modelled. Awaits are sequential, the client is a map, and a reported handler error is an entry in the returned log.
- The registry, the bandit engine and the orchestrator append their events to their own logs. Delivery of those events through the shared bus is not composed with the bus model.
- Numbers in JavaScript values are integers, and bandit numbers are exact reals. NaN, infinities, rounding and non-integer `maxAttempts` are not modelled. Only a `Num` counts as `typeof "number"`.
- FallbackOrchestrator.TryProvider: the outcome of `run` is fixed per provider, and `runArgs` (which it receives) has no effect in the model.
- FallbackOrchestrator.SafeErrorMessage: lengths and the 500 cut count characters, whereas `slice(0, 500)` counts UTF-16 code units, so text with characters outside the Basic Multilingual Plane (each two code units) is kept longer here than JavaScript keeps it; the same holds for the `fallback.failed` message and the exhaustion `cause`. Likewise `Js.Lower` maps only the ASCII letters, which gives the same answers as `toLowerCase` for the ASCII rule words the classifier searches for.
- Error objects have primitive fields. An object-valued `code` or `message` is not modelled.
- ProviderClasses.GetProviderPrior: a class name that reaches an inherited object property (such as "toString") returns the default prior here, whereas JavaScript returns the inherited value.
- ObservabilityBus.Bus.EmitEvent: whether a handler throws depends only on the handler, not on the payload or the event. A handler that subscribes or unsubscribes during emission is not modelled. The boolean returned by the `onAny` unsubscribe closure is not kept, and the `payload = {}` default is left to the caller.
- Provider keys of the registry and of the bandit state are strings. JavaScript's `Map` accepts any value.
- BanditEngine.Bandits.HydrateBandits: a null entry inside `allStates`, which makes JavaScript throw, is not modelled. The hydrate event carries the provider set, without the order of `Object.keys`.
- BanditEngine.Bandits.RecordBanditReward: the reward event's `avgReward` is None where JavaScript divides by zero trials (only possible after hydrating trials = -1). The caller's `components` are not kept.
- RedisStore.RedisBanditStore.LoadAll: `redis.keys(prefix + "*")` is modelled as every key that starts with the prefix, so prefixes containing glob characters (`*`, `?`, `[`) are not modelled. A `JSON.stringify` that yields undefined is not modelled either.

## Findings

| source | as written | input that shows it | evidently intended | confidence | as-written member | corrected member |
|---|---|---|---|---|---|---|
| banditStore.redis.js:42-43 | `loadAll` names each entry by pieces 1 and 2 of `key.split(":")` | prefix "app:bandit:", provider "openai", default context: key "app:bandit:default:openai" is reported as "bandit:default"; with the default prefix, providers "openai:gpt-4" and "openai:gpt-3" are both reported as "default:openai" | the key without the prefix, `${context}:${provider}`, as written by `_key` and as the memory store reports it | high (not executed) | RedisStore.AsWrittenLongPrefix | RedisStore.RedisBanditStore.LoadAll |
