# gt-bot decision logic in Dafny

A model of the decision logic in `main.py` of the gatto game bot. All network
traffic is treated as input: what each HTTP attempt or each remote call gives.

- **`safe_request`** (`gateway.dfy`). The bounded retry loop. Attempt `k` gives
  `outcome(k)`: an exception, or an answer with a status. Waits are recorded as
  events in order.
- **Pet and essence readers** (`pets.dfy`). `get_user_self`,
  `get_pets_not_level_10` and `get_first_essence`. Each is a function of the
  decoded body of its request: `None` when no response came or the body was not
  JSON. The append loop of `get_user_self` is also a method proved equal to its
  function. Python's list building is the generic `FilterMap` (`collect.dfy`);
  its lemmas give order, soundness, completeness and when the list raises.
- **The essence job `apply_essences_to_pets`** (`essences.dfy`).
  - The `n`-th essence lookup of the job gets `lookup(n)` and the `n`-th
    activation gets `activate(n)`.
  - The functions `OnePass`, `PetLoop` and `PetsLoop` describe the job. The
    methods `RunPet` (the inner `while … else`) and `ApplyEssencesToPets` (the
    outer `for`) are proved equal to them.
  - Every remote call is recorded, tagged with its pet. This trace states the
    per-pet cap, what `applied` counts, and that the first empty lookup ends
    the job.
  - The Telegram messages are returned as notices.
- **`format_prizes`** (`prizes.dfy`).
  - Lines are kept as structured prize lines, and the text is made from them.
  - `FormatPrizes` has the four append loops. It is proved to give
    `Formatted(data)`.
  - The lemmas cover the order of the lines, one line per entry, when the call
    raises, and when the text is "Нет призов".
- **The task queue and its producers** (`dispatch.dfy`).
  - `TaskQueue` is the FIFO `task_queue`, a class over a sequence.
  - `StartInitialCycle` queues the three initial jobs.
  - `Drain` is the worker taking jobs in order.
  - `Webhook` queues the essence job when `EssenceCommand` says so.

Python values are the `Json` datatype (`py_values.dfy`). An operation that
raises in Python (`.get` on a non-dict, `in` or `<` on the wrong type, a missing
key) gives `Raised`. Exception classes are not distinguished.

In some places the code behaves differently from what one might expect, and the model follows the code:

- `safe_request` returns a response or `None`. It does not return failure
  kinds.
- A body that is not JSON is not a failure of the request. Each caller turns it
  into an empty result.
- In the essence job, an exception aborts the whole job, not only the current
  pet. Examples: an essence that is a string, an activation answer that is a
  list, a level that cannot be compared with 10. This is `JobEnd.Aborted`.
- The webhook raises on some malformed updates: a body that is not JSON (Flask
  rejects it while reading `request.json`), a truthy number, a `message` that
  is not a dict, or a `chat` that is not a dict. Such updates are not silently
  ignored.

## Model

| member | source | states |
|---|---|---|
| Gateway.SafeRequest | main.py:83-115 | Makes at most `MAX_RETRIES` attempts. Returns the first status-200 response, with no attempt after it. Returns `None` only when every attempt raised or got another status. Its events are `Schedule(tries)`. |
| Gateway.ScheduleShape | main.py:90-112 | The events are attempts `1..n` with a wait between each two and none after the last, so `n` attempts make `n - 1` waits. |
| Pets.RegionPet | main.py:176-179 | A kept region pet is truthy and holds `_id`. The step does not raise exactly when the region is a dict and a truthy pet supports `in`. |
| Pets.SelfPets | main.py:165-180 | No response or a non-JSON body gives `[]`. |
| Pets.GetUserSelf | main.py:175-180 | The append loop returns what `SelfPets` describes, including raising when a region step raises. |
| Pets.UserSelfKeepsPetsWithId | main.py:175-180 | Every kept pet is the `pet` of one of the regions, is truthy and holds `_id`. Every region dict whose pet holds `_id` has that pet kept. No region step raised. |
| Pets.PetsBelowLevel10 | main.py:252-254 | No response or a non-JSON body gives `[]`. |
| Pets.PetsBelowLevel10Exactly | main.py:252-254 | The entries are exactly `{id: _id, level}` for the region pets that are dicts with `_id` and a level below 10 (a missing level counts as 0). |
| Pets.PetsBelowLevel10KeepsOrder | main.py:252-254 | For regions `a + b`, the entries are those for `a` followed by those for `b`. |
| Pets.FirstEssence | main.py:257-272 | Gives the head of a list, or of `data` when the body is a dict whose `data` is a list. An empty list, no response or a non-JSON body gives `None`. Any other dict gives `None`. A number, bool or null never gives an essence. |
| Essences.RunPet | main.py:312-359 | The inner loop of one pet computes `PetLoop` from zero attempts. |
| Essences.ApplyEssencesToPets | main.py:289-362 | The whole job, with its messages, is `ApplyEssences`. |
| Essences.ActivationFacts | main.py:330-357 | An activation step makes one activation call and adds one to `applied` exactly for a truthy answer. A falsy answer ends the pet's turn. The level read with `res.get("level", start_level)` decides the rest. At 10 or more, `improved_pets` grows by one and the turn ends. Below 10, the loop goes round again at that level. If the level cannot be read or compared, the step raises. It never ends the job for lack of essence. |
| Essences.OnePassStages | main.py:315-331 | A pass ends the job for lack of essence exactly when its lookup found none. It is the lookup alone, or the lookup followed by the activation step. |
| Essences.OnePassCalls | main.py:315-334 | A pass appends one or two calls, all for its pet, and at most one activation. |
| Essences.OnePassCounters | main.py:317-357 | After a pass, `applied` equals the truthy activation answers. `improved_pets` grows by at most one, and only when the pass ends the pet's turn. A lookup that finds nothing is the last call exactly when the pass stops for that reason. |
| Essences.PetLoopCalls | main.py:313-316 | One pet's loop only appends calls for that pet, at most `MAX_ESSENCE_ATTEMPTS_PER_PET` activations, and makes no call for another pet. |
| Essences.OnePassRaises | main.py:315-357 | A pass raises exactly when its last call's answer raises: an essence whose id cannot be read, or a level that cannot be read or compared. No earlier call raised. |
| Essences.PetLoopRaises | main.py:313-359 | One pet's loop ends on an exception exactly when its last call's answer raised. In every other case no call raised, including a loop that used up `MAX_ESSENCE_ATTEMPTS_PER_PET` attempts. |
| Essences.PetLoopCounters | main.py:314-359 | Across one pet's loop, `applied` keeps counting truthy activations, and `improved_pets` grows by at most one. An empty lookup is made only as the last call. |
| Essences.PetsLoopCalls | main.py:305-359 | From any pet on, every pet gets at most the cap of activations. No call is made for a pet after the one where the job ended. |
| Essences.PetsLoopCounters | main.py:305-359 | From any pet on, `applied` equals the truthy activation answers and `improved_pets` is at most the number of pets. An empty lookup happens only as the final call. |
| Essences.PetsLoopRaises | main.py:305-359 | From any pet on, the job is aborted exactly when its last call's answer raised, and no earlier call raised. |
| Essences.QuietTurnMovesOn | main.py:313-359 | A pet's turn that ends with neither an empty lookup nor an exception goes on with the next pet. This covers the `else` of the attempts loop. |
| Essences.EssenceActivationsCappedPerPet | main.py:313-316 | For every oracle, each pet gets at most `MAX_ESSENCE_ATTEMPTS_PER_PET` activation calls. |
| Essences.AppliedCountsSuccessfulActivations | main.py:332-357 | `applied` is exactly the number of activations with a truthy answer. `improved_pets` is exactly the number of activations whose answer's level, defaulting to the pet's level before it, is 10 or more. It is at most `applied` and at most the number of pets below level 10. |
| Essences.RunningOutEndsTheJob | main.py:317-321 | The job ends for lack of essence exactly when some lookup found none. That lookup is the last call and no call is made for a later pet. The messages are then the start and the "ran out" notice, without the summary. The summary is sent exactly when every pet was visited. |
| Essences.ExceptionAbortsTheJob | main.py:305-359 | The job is aborted exactly when some call's answer raised. That call is the last one, no call is made for a later pet, and only the opening message was sent. |
| Essences.BreakEndsOnlyThePet | main.py:326-334 | An essence without `_id`/`id`, or an activation giving nothing, ends only the current pet's turn. The job continues with the next pet and `applied` is unchanged. |
| Essences.ZeroCapMakesNoCalls | main.py:314 | With a cap of 0, no call is made and the job completes, or has no pets. |
| Prizes.AppendSection | main.py:213-220 | One item loop appends the text of each entry's line, in order, or raises when an entry's step raises. |
| Prizes.FormatPrizes | main.py:207-223 | The four loops and the join give `Formatted(data)`. |
| Prizes.CurrencyLinesExact | main.py:210-211 | The currency lines are exactly the truthy currency fields, each with its value, in the fixed field order. |
| Prizes.PrizeLinesOrdered | main.py:207-221 | The lines are grouped as currencies, skins, eggs, essences. The currency lines follow soft, ton, gton, eventCurrency, experience. |
| Prizes.SkinsPerEntry | main.py:213-214 | One skin line per entry of `resultSkins`, with its `name` and `rarity`. |
| Prizes.EggsPerEntry | main.py:216-217 | One egg line per entry of `resultEggs`, with its `allowedRegion` and `rarity`. |
| Prizes.EssencesPerEntry | main.py:219-220 | One essence line per entry of `resultEssence`, with its `type`. |
| Prizes.PrizeLinesPerEntry | main.py:207-221 | After the currency lines come the skin, egg and essence lines, one per entry, at the positions the groups give. |
| Prizes.PrizesRaiseExactly | main.py:207-220 | The call raises exactly when `data` is not a dict, or an item group is not a list of dicts (nor empty, nor missing). |
| Prizes.NoPrizesExactlyWhenNoLines | main.py:223 | The text is "Нет призов" exactly when there are no lines. |
| Dispatch.TaskQueue.constructor | main.py:55 | A new queue is empty. |
| Dispatch.TaskQueue.Put | main.py:432-434 | `put` appends at the tail. |
| Dispatch.TaskQueue.Get | main.py:383-385 | `get` takes the oldest job, or finds none when the queue is empty. |
| Dispatch.Drain | main.py:379-395 | The worker takes every queued job, in the order they were put. |
| Dispatch.StartInitialCycle | main.py:430-435 | Queues feed_cat, get_prize and play_game, in that order, after what was queued. |
| Dispatch.InitialCycleRunsInOrder | main.py:431-434 | On a fresh queue, the worker runs feed_cat, get_prize, play_game in that order. |
| Dispatch.EssenceCommand | main.py:443-466 | A body that is not JSON raises. A JSON `null` update is ignored. Queuing needs a dict update with a `message`. |
| Dispatch.EssenceCommandExactly | main.py:443-466 | The webhook queues exactly for a readable message whose text is `/essence`, from the configured chat or from any chat when none is configured. |
| Dispatch.EssenceCommandRaises | main.py:443-452 | Handling raises exactly for a body that is not JSON, a truthy number, or an update with `message` whose message cannot be read. |
| Dispatch.Webhook | main.py:443-468 | Replies "ok" unless handling raises. Puts the essence job at most once, exactly for an `/essence` command from the configured chat. Otherwise the queue is unchanged. |

## Left out

- HTTP sessions, request headers, the per-attempt timeout and `gatto_lock`. An attempt's result is the `outcome` input.
- Telegram delivery (`send_telegram`). The essence job returns its messages as notices. The other callers' messages are not part of this model.
- JSON parsing. `r.json()` failing is the `None` body.
- Floats in JSON. Numbers are integers.
- `str()` of a list or dict. It is rendered as a placeholder.
- The lengths of `time.sleep`, `log`, `now()` and the response-body preview. Waits are counted as events.
- Reading configuration from the environment (main.py:24-40). `MAX_RETRIES`, `MAX_ESSENCE_ATTEMPTS_PER_PET` and `CHAT_ID` are parameters.
- The worker's thread, `_run_task_with_timeout`, task timeouts, `task_done` and the `schedule` loop (main.py:365-418). These are concurrency and wall-clock behaviour. Only the order in which the worker takes jobs is modelled (`Drain`).
- Flask routing and `/health`. Only the enqueue decision of `/webhook` is modelled.
- The `HEAD` side of every merge conflict: the uncapped essence loop and starting threads directly.
- The oracles of the essence job are indexed by call number. Each answer stands for a full `safe_request` with its retries, followed by `r.json()`.
- Dispatch.TaskQueue.Get: `task_queue.get(timeout=1)` waits up to one second. Here an empty queue gives `None` at once, for the `Empty` exception.
