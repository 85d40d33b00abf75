# Stripe to Metronome sidecar: a verified model

The sidecar persists Stripe webhooks in a Postgres table and drains them with any number of workers.
Each worker claims one row with `FOR UPDATE SKIP LOCKED`, calls Metronome while it holds the row, and
commits the row and at most one new mapping row together. Workers crash, replies get lost after they
took effect, Stripe redelivers, and operators replay. This project models that system and proves what
it keeps.

- `Json`, `Decimal`, `Rfc3339`, `SubscriptionMapper`, `CustomerMapper`, `Backoff`: the pure parts, from
  JSON trees, Python's decimal rendering and the calendar up to the requests and the retry delay.
- `Schema`, `EventLifecycle`: the rows of the three tables, the constraints on an insert, and what an
  attempt or a replay does to an event row.
- `Metronome`: what Metronome holds and answers, and the client with its recovery from 409.
- `HandlerProgram`: the handlers as a program that takes one step per database read and one per reply.
- `Payloads`, `AttemptMeaning`: what the fields of a payload say by plain look-ups, and what an event of each
  type is to lead to; the readers and the program are proved to agree with them.
- `Worker`: the worker, the handlers and the receiver as objects updated in place, proved against that
  program fed with exactly the replies Metronome gives.
- `Protocol`, `Invariants`, `Safety`: the interleaved system as steps, what every reachable state
  satisfies, and the safety theorems. `Play` is the state after any list of steps.
- `SequentialWorker`: the worker's own contract, met by the interleaved steps when nothing comes between them.
- `Serialisability`: every interleaved run equals a serial one that keeps the order of time;
  `AttemptHistory` draws conclusions about the attempts at one event from it.
- `Outcomes`: what the attempts of a run make of their events, and why.
- `QueueProgress`, `InsertRaces`, `EndlessRaces`, `Redelivery`, `OrderIndependence`: draining and
  overtaking, lost insert races and when they never end, redeliveries, the outcome of a drained queue.
- `CustomerNames`, `OrderlyNames`, `StaleNames`: the name Metronome shows for a customer after any run,
  when it follows the updates handled, and two runs in which it does not.

Reads see the latest committed rows and nothing more is assumed of isolation: a transaction may read a
mapping as missing that another one commits a moment later. A conflicting insert is found when the
transaction ends. Postgres would make the second inserter wait for the first; the model lets either of
them finish first, so it has every outcome Postgres has.

## Assumptions

- Metronome keeps at most one contract per (customer, uniqueness key), deletes none, answers 409 to a
  contract creation exactly when one exists, lists all contracts of a customer, and never hands out an id twice.
- `max_attempts` and the other settings do not change during a run; the clock does not go back.
- Every subscription-created payload about a subscription names the same customer (`World.owner`). A
  first delivery that breaks this is not a step of the model. Subscription ids may have any shape; the
  results that need keys not to collide say so (`Safety.IdsApart`; `EndlessRaces.RacesAreEndlessIff`
  shows the need), and ids of the form `sub_` plus letters and digits meet that (`Safety.ShapedIdsKeepApart`).
- A violated constraint at a flush aborts the whole transaction and leaves the event row as it was at the claim.
- The system starts with empty tables and with a Metronome that holds nothing of its own making.

## Where the code and its prose differ

The model follows the code.

- The delay is `max(1, uniform(0, min(base * 2^(k-1), cap)))` (`src/sidecar/worker.py:293-299`); the
  module text adds the jitter to the minimum instead (`src/sidecar/worker.py:21-22`).
- `ContractNotFoundError` would be retried (`src/sidecar/handlers/subscription.py:174-179`), though its
  text calls it permanent (`src/sidecar/metronome_client.py:88-96`). It is never raised under the assumptions.
- The Metronome name is that of the last call that named the customer and took effect, answered or not
  (`CustomerNames.NameIsTheLastToTakeEffect`), not that of the latest Stripe payload
  (`src/sidecar/handlers/customer.py:12-14`). `CustomerNames.LatestNameIff` says exactly when the two
  agree, `StaleNames.StaleUpdateWins` and `StaleNames.LostReplyWins` give runs in which they do not. It
  need not be that of the last update handled either; where the events about a customer do not overlap
  and no effect goes unnoticed, it is (`OrderlyNames.NameFollowsLastUpdate`).
- The uniqueness key is not injective for ids of every shape; `SubscriptionMapper.KeysCollideIff` says exactly when two ids can collide.
- One of the two documented replay statements leaves `processed_at` set (`README.md:583-585`), the other clears it
  (`docs/architecture.md:130-134`). Both are steps of the model.

## Model

| member | source | states |
|---|---|---|
| Decimal.TextReadsBack | src/sidecar/mappers/subscription.py:117 | the decimal text of any integer reads back to it and contains no `_` |
| Rfc3339.IsoReadsBack | src/sidecar/mappers/subscription.py:244-251 | the UTC text of any second of the years 1 to 9999 reads back to that second |
| Rfc3339.WholeHourText | src/sidecar/mappers/subscription.py:244-251 | on an hour boundary minutes and seconds are written `00` |
| Rfc3339.DayFollowsDay | src/sidecar/mappers/subscription.py:244-251 | the date of the next day is the next day of the calendar: within the month, the next month, or the next year |
| Rfc3339.KnownTimes | src/sidecar/mappers/subscription.py:244-251 | second 0 is written as the start of 1970, and 1767225600 as the start of 2026 |
| SubscriptionMapper.FloorHour | src/sidecar/mappers/subscription.py:215-241 | the floored start is a whole hour in (raw - 3600, raw], negatives included |
| SubscriptionMapper.RequestTimesAgree | src/sidecar/mappers/subscription.py:107-167 | the start time of a request is on a whole hour, equals the credit's, reads back to the very number that ends its key, and floors the item's own start, or the subscription's when the item has none |
| Payloads.RequestSaysWhatThePayloadSays | src/sidecar/mappers/subscription.py:107-117 | on the payload's own fields: start and key come from the id, the one price and the item's start, else the subscription's; without either start the payload is refused for just that |
| Payloads.RequestCarriesItsTier | src/sidecar/mappers/subscription.py:119-167 | customer, rate card, name and credit of a request are those of its arguments and its tier |
| SubscriptionMapper.KeysCollideIff | src/sidecar/mappers/subscription.py:113-117 | two different ids have colliding keys for some prices and hours if and only if one id plus `_` begins the other |
| SubscriptionMapper.KeyInjectiveForOneSubscription | src/sidecar/mappers/subscription.py:113-117 | for any one id, equal keys mean equal price and hour |
| SubscriptionMapper.KeyParts | src/sidecar/mappers/subscription.py:113-117 | for ids of which neither plus `_` begins the other, equal keys mean equal subscription, price and hour |
| SubscriptionMapper.KeyInjective | src/sidecar/mappers/subscription.py:113-117 | so it is for ids of Stripe's shape, any price and any hour |
| SubscriptionMapper.ShapeIsNeeded | src/sidecar/mappers/subscription.py:113-117 | without the shape ("a_b", "c") and ("a", "b_c") share a key |
| CustomerMapper.Strip | src/sidecar/mappers/customer.py:106-112 | stripped text has no white space at either end and is empty exactly when all of it was white space |
| CustomerMapper.StripKeepsMiddle | src/sidecar/mappers/customer.py:106-112 | stripping removes only white space, only from the two ends |
| CustomerMapper.MappableIff | src/sidecar/mappers/customer.py:54-117 | a customer maps if and only if it has an id and a visible character in its name or e-mail; the name sent is the stripped name when that shows anything, else the stripped e-mail, non-empty and trimmed |
| Payloads.NameComesFirst | src/sidecar/mappers/customer.py:54-117 | the same on the payload's own fields, with the ingest alias and Stripe id of the request |
| HandlerProgram.PayloadChecksAgree | src/sidecar/handlers/subscription.py:265-303 | on every JSON tree the handler's item check and the mapper's accept the same subscriptions with the same price; past it only the period start can stop the mapper |
| Safety.HandlersKeepToPayload | src/sidecar/handlers/subscription.py:121-192 | in every run, whatever committed rows a handler reads at whatever moments and whatever it hears, the row it adds is the one its payload asks for, and an error that blames the payload is deserved |
| Payloads.ReadersAgree | src/sidecar/handlers/subscription.py:254-303 | the handlers read an id, and a customer, exactly from payloads whose `data.object` holds them as non-empty text |
| Payloads.OnePriceOrNone | src/sidecar/mappers/subscription.py:184-221 | handler and mapper accept exactly one item with one price id, and that price |
| AttemptMeaning.ReadsFollowCourse | src/sidecar/worker.py:76-86 | for every event type, payload and tables the program refuses, retries, skips or calls just as a flat table on type and payload fields says, checks in the order of the code |
| AttemptMeaning.OnlyUnknownTypesAlwaysSucceed | src/sidecar/worker.py:188-203 | a type is processed whatever its payload if and only if it has no handler |
| AttemptMeaning.SoundMeans | src/sidecar/handlers/subscription.py:141-171 | a payload is sound exactly when its own fields, and the tiers, let its handler succeed |
| Backoff.Delay | src/sidecar/worker.py:282-299 | every delay is at least a second, at least the draw, and at most the jitter ceiling |
| Backoff.ExponentialIsPower | src/sidecar/worker.py:295 | repeated doubling is base * 2^n |
| Backoff.TotalCeilingByCrossover | src/sidecar/worker.py:293-299 | the ceilings sum to base * (2^c - 1) up to the crossover c and to one cap per attempt after it |
| Backoff.TotalBackoff | src/sidecar/worker.py:268-299 | n scheduled delays of one event sum to at least n and at most to both base * (2^n - 1) and n caps |
| Metronome.AddedContractIsFound | src/sidecar/metronome_client.py:233-274 | a new contract keeps contracts distinct and is what a lookup of its customer and key then finds |
| Metronome.FoundIsUnique | src/sidecar/metronome_client.py:265-269 | among distinct contracts a lookup finds the only match |
| Metronome.MetronomeClient.FindContractByUniquenessKey | src/sidecar/metronome_client.py:233-274 | the scan returns the customer's first contract with the key, or not-found exactly when there is none |
| Metronome.MetronomeClient.CreateContract | src/sidecar/metronome_client.py:170-231 | success is exactly get-or-create of the one contract with customer and key, the flag is set exactly when it existed, the recovery never comes back empty-handed, errors happen exactly when a call faults and are transient exactly for no connection, 429 and 5xx |
| Metronome.MetronomeClient.CreateCustomer | src/sidecar/metronome_client.py:126-149 | a customer appears exactly when the call takes effect, even if the reply is lost; a fault is transient exactly for no connection, 429 and 5xx |
| Metronome.MetronomeClient.SetCustomerName | src/sidecar/metronome_client.py:151-168 | only the named customer's name changes, exactly when the call takes effect; a fault is transient exactly for no connection, 429 and 5xx |
| EventLifecycle.SettledKeepsRowOk | src/sidecar/worker.py:181-279 | an attempt counts once, keeps the row invariant, stays pending exactly on a retry with attempts left, and then waits at least a second |
| EventLifecycle.JitterInterval | src/sidecar/worker.py:293-299 | the jitter after attempt k + 1 is any number from 0 to base * 2^k, capped |
| Schema.ConstraintsMeanIntegrity | src/sidecar/models.py:97-152 | an insert is refused exactly when its key is taken or it would share a Metronome id or lack its customer |
| Worker.Session.AddAndFlush | src/sidecar/models.py:97-152 | a flush adds the row or, when a key, unique or foreign-key constraint is violated, raises and adds nothing |
| Worker.HandleExistingMapping | src/sidecar/handlers/customer.py:177-220 | a created event is skipped; an update sends its mapped name, and succeeds exactly when Metronome answers the call; the mappings stay |
| Worker.CreateNewMapping | src/sidecar/handlers/customer.py:223-258 | a row is added only when the call succeeded, and it links the very customer Metronome created |
| Worker.HandleCustomerEvent | src/sidecar/handlers/customer.py:123-174 | the handler does to mappings and Metronome exactly what the handler program does on the replies Metronome gives |
| Worker.ProvisionContract | src/sidecar/handlers/subscription.py:173-192 | a row is added only with the contract Metronome now holds for the customer and key, created or recovered; a failed call passes its error on |
| Worker.HandleSubscriptionCreated | src/sidecar/handlers/subscription.py:93-209 | the handler does to mappings and Metronome exactly what the handler program does on the replies Metronome gives |
| Worker.Worker.MarkFailed | src/sidecar/worker.py:261-266 | only status, error and processed time change |
| Worker.Worker.ScheduleRetryOrFail | src/sidecar/worker.py:268-279 | the row becomes pending with a delay, or failed as exhausted at the last attempt |
| Worker.Worker.HandleEvent | src/sidecar/worker.py:181-255 | the row is settled by the verdict its program reaches on the replies Metronome gives, with its mapping, unless a flush raised; processed, an event of a customer or created-subscription type has its mapping, and one of the two other types a readable payload |
| Worker.Database.PersistEvent | src/sidecar/server.py:145-177 | the first delivery of an id is stored as a pending row, every later one changes nothing |
| Worker.Database.ClaimNextEvent | src/sidecar/worker.py:161-179 | none is claimed exactly when no pending, ready, unlocked row exists; otherwise one of the oldest is |
| Worker.Database.ProcessOne | src/sidecar/worker.py:144-159 | a claimed event is committed exactly when its flush does not raise, and then as one whole attempt on an oldest ready row with the replies Metronome gave; otherwise the tables stay |
| SequentialWorker.WorkerRunsTheProtocol | src/sidecar/worker.py:144-159 | from any state, the interleaved steps of one undisturbed attempt end in the tables, Metronome and log that the worker's contract promises |
| Invariants.Reachable | src/sidecar/worker.py:144-279 | rows, locks, transactions, links, requests and ids satisfy the invariant in every reachable state |
| Safety.LockDiscipline | src/sidecar/worker.py:144-179 | no two transactions hold one event; a held row is pending and as it was at the claim |
| Safety.EventRows | docs/architecture.md:107-134 | the life-cycle invariant of every row; a processed event has its mapping; recorded errors are just |
| Safety.StepEffects | src/sidecar/worker.py:181-279 | no step removes or re-points a mapping, and a row changes only when its holder commits or an operator replays it |
| Safety.OnlyReplayReopens | docs/architecture.md:111-134 | only a replay changes an event in a terminal state |
| Safety.ReplayMakesReady | docs/architecture.md:123-134 | a replayed event is ready at once, with no attempt counted and no error, and nothing else changes |
| Safety.RunsOnlyAdd | src/sidecar/models.py:87-165 | over any continuation of a run mappings are only added and payloads never change |
| Safety.RollBackRestores | src/sidecar/worker.py:11-16 | a crash or a lost insert race leaves tables and the held row as they were and frees the row |
| Safety.OnlyKeyRacesAbort | src/sidecar/models.py:144-152 | only a duplicate primary key aborts an insert: the foreign key and the customer id never fire, and with keys apart the contract id names only the same subscription |
| Safety.ImpossibleErrors | src/sidecar/handlers/subscription.py:235-251 | the "database integrity issue" branch and a fruitless contract lookup are never reached |
| Outcomes.ErrorsAreJust | src/sidecar/worker.py:205-255 | in every run a permanent error is Metronome's or blames a payload whose own fields are at fault; only an unmapped customer or an unavailable Metronome is retried |
| Outcomes.LatestFaultDecides | src/sidecar/metronome_client.py:281-297 | in every run an event whose latest attempt heard no connection, 429 or 5xx waits while attempts are left, and any other fault has failed it for good |
| Outcomes.ProcessedLeavesItsMark | src/sidecar/worker.py:76-86 | in every run a processed event of a customer or created-subscription type, by its name, has its mapping, and of the two other types a payload that names a subscription |
| Outcomes.TooEarlyReachesNothing | src/sidecar/handlers/subscription.py:145-154 | an attempt at a created subscription whose customer is not mapped touches neither Metronome nor the mappings, and leaves the event pending while attempts are left |
| Outcomes.TooEarlyInterleaved | src/sidecar/handlers/subscription.py:121-154 | so do its two reads wherever they fall between the steps of others |
| Safety.MappingSoundness | src/sidecar/handlers/subscription.py:181-192 | each subscription row names one existing contract, of exactly its parent's Metronome customer, keyed by its subscription and price, and with keys apart shared with no other row |
| Safety.SameRequestForOneEvent | src/sidecar/mappers/subscription.py:113-117 | every attempt at one event asks the same customer for the same key |
| Safety.ContractsAnswerRequests | src/sidecar/handlers/subscription.py:162-175 | every contract answers a request made for a persisted event |
| Safety.NoDuplicateContracts | src/sidecar/metronome_client.py:177-190 | contracts ever created for a subscription number at most the distinct (price, hour) pairs of its persisted created events, hence at most those events; with keys apart they are all contracts under its keys |
| Serialisability.PlaceBetween | src/sidecar/handlers/subscription.py:121-154 | an attempt that read a subscription as unmapped and its customer as mapped has a moment when both were so |
| Serialisability.ApplyCommutes | src/sidecar/worker.py:144-179 | an operation on another event commutes with a change of a locked row |
| Serialisability.InsertRunsWhole | src/sidecar/handlers/subscription.py:181-192 | an attempt that inserts could run whole at its commit |
| Serialisability.StepCorresponds | src/sidecar/worker.py:144-179 | every step extends the serial order of what is committed |
| Serialisability.EveryRunIsSerialisable | src/sidecar/worker.py:144-179 | every run has a serial order of its committed operations, each run whole, with the same three tables, the same story of every event, and every operation after those that ended before it was claimed |
| Outcomes.EveryAttemptMeans | src/sidecar/worker.py:181-255 | in every run each committed attempt, at its place in the serial order, does what type, payload, tables and last reply ask of it, and nothing else |
| AttemptHistory.AttemptsAreCountedAndSpaced | src/sidecar/worker.py:168-279 | the counter is the number of attempts since receipt or replay, each claimed no sooner than the delay drawn after the last is over, and a pending event waits exactly the drawn delay |
| AttemptHistory.SpanPaysDelays | src/sidecar/worker.py:272-278 | two attempts without a replay between lie apart by at least all delays scheduled between them, each at least a second |
| AttemptHistory.AttemptsOfRunSpan | src/sidecar/worker.py:168-175 | so it is in any run: m attempts without a replay span at least their m - 1 delays and m - 1 seconds |
| AttemptHistory.RetriesAreBounded | src/sidecar/worker.py:268-299 | in any run an event is retried at most max_attempts - 1 times since receipt or replay, exactly so often when exhausted; the delays of these retries obey the total backoff bounds, and the event was put off by at least their sum |
| QueueProgress.BudgetStep | src/sidecar/worker.py:181-279 | a committed attempt uses up attempts, a first delivery brings max_attempts, a replay gives its event max_attempts again, and no other step changes the total |
| QueueProgress.NothingLeft | src/sidecar/worker.py:268-279 | when no attempts are left no event is pending |
| QueueProgress.QueueDrains | src/sidecar/worker.py:181-279 | n events and r replays take at most (n + r) * max_attempts committed attempts, so n * max_attempts without replays |
| InsertRaces.LosingEndsTheRace | src/sidecar/worker.py:11-16 | with keys apart, an attempt that loses an insert race finds its own event's mapping in the way, and afterwards no attempt at that event adds a row |
| InsertRaces.EveryEventLosesOneRaceAtMost | src/sidecar/worker.py:11-16 | with keys apart each event loses at most one insert race in a whole run, so attempts that end, committed or rolled back, are at most (n + r) * max_attempts + n |
| EndlessRaces.LosesForEver | src/sidecar/handlers/subscription.py:181-192 | for two subscriptions of one customer under one key, a run in which the second recovers the contract of the first and is rolled back any number of times, uncounted |
| EndlessRaces.RacesAreEndlessIff | src/sidecar/mappers/subscription.py:113-117 | two subscriptions can lose more races than there are events exactly when their keys are not apart |
| QueueProgress.BoundedOvertaking | src/sidecar/worker.py:168-179 | attempts on other events claimed and committed while an event waits number at most the attempts left ahead of it, plus max_attempts per event with the same receipt time and per replay of an event ahead of it; none of the former come once the clock has moved on |
| Redelivery.PersistedIffDelivered | src/sidecar/server.py:159-177 | an event is stored exactly when it has been delivered |
| Redelivery.RedeliveryIsInvisible | src/sidecar/server.py:145-177 | leaving out every repeated delivery leaves a run with the same final state |
| OrderIndependence.DrainedOutcome | src/sidecar/handlers/subscription.py:145-192 | a cleanly drained run maps exactly the customers with a mappable event and makes exactly the links the created events ask for |
| OrderIndependence.OrderDoesNotMatter | src/sidecar/handlers/customer.py:143-258 | two runs that drain the same events cleanly end with the same mapped customers and links |
| CustomerNames.NameIsTheLastToTakeEffect | src/sidecar/handlers/customer.py:177-258 | in every run a mapped customer shows the name of the last call that named it and took effect, and the event of that call is a persisted event about this customer that maps to the name |
| OrderlyNames.NameFollowsLastUpdate | src/sidecar/handlers/customer.py:177-258 | in every run that does not overlap events about the customer and loses no effect, the customer is mapped exactly when one was handled, and shows the name of the last update handled, or of the first event when there was no update |
| OrderlyNames.PositionOfOneUpdateDoesNotMatter | src/sidecar/handlers/customer.py:5-14 | two such runs with the same one update show the same name, wherever it stands among the created events |
| CustomerNames.LatestNameIff | src/sidecar/handlers/customer.py:12-14 | in every run the name shown is that of a given event, such as the latest, exactly when the event of the last effective call carries the same name |
| StaleNames.StaleUpdateWins | src/sidecar/handlers/customer.py:12-14 | a run in which an older update is put off, handled after a newer one, and leaves the older name |
| StaleNames.LostReplyWins | src/sidecar/handlers/customer.py:202-207 | a run in which the rename of an older update takes effect and its reply is lost: only the newer update is handled, and the older name stays |

## Left out

- HTTP, routing, signature verification and the Metronome SDK: foreign calls; only their replies and faults are modelled.
- Sessions, the connection pool and migrations: their effect is begin, commit, abort and the table constraints.
- Waiting inside Postgres for another transaction's uncommitted insert: the model lets either transaction end first.
- Logging, durations, `created_at` and `updated_at`: no decision depends on them.
- The loop, sleep and stop signal of `Worker.run`: it only repeats `_process_one`.
- The text of error messages: `Schema.Reason` keeps their kind.
- `is_upgrade`, the UUID check of the rate card and the concrete tier table: the table is an arbitrary finite map.
- Uniqueness of Metronome *customers*: the code sends no key for them, so a crash after a creation may leave a second one; only mappings are unique.
- The 409 branch for a request without customer or key: the mapper always sets both.
- Replies of an unexpected shape other than a missing id, and contracts listed without an id: excluded by the assumptions on Metronome.
- Floating point: delays and times are exact reals, the jitter an arbitrary draw from its interval; rounding to microseconds is not modelled.
- Period starts outside the years 1 to 9999: the mapper model refuses them as Python's `ValueError` does; starts so large that Python raises another error are not told apart.
- Worker.Database.ProcessOne: one connection, run in sequence; interleaving, and conflicts that only interleaving brings, are modelled by `Protocol` on values (`SequentialWorker` relates the two).
- OrderlyNames.NameFollowsLastUpdate: says nothing of runs in which events about one customer overlap, a rename that takes effect loses its reply, or a worker crashes between the effect and its commit; `CustomerNames.NameIsTheLastToTakeEffect` covers those.
