# Jobs default driver — a verified model

This project models the in-memory job store of the Jobs package's default
driver, `JobsDefaultDriver`. It is one process-wide dictionary from a queue key
(a string) to an ordered list of job records (`JobStorage`). The driver offers
these operations:

- `get` takes the head of a key's list. It yields nothing when the key has no list or an empty one.
- `set` appends a record to the key's list and creates the list on first use.
- `requeue` inserts a record at index 1, right behind the current head, so a retried job goes ahead of the rest of the backlog.
- `completed` does nothing.
- `processingKey` names a queue's companion "processing" queue by appending `-processing`.

The job record is an opaque type parameter `J`. Each operation is one atomic step.

Files:

- `wrappers.dfy` (module `Wrappers`): the `Option` type that `get` returns.
- `job_store.dfy` (module `JobStore`): the store as a value, `map<string, seq<J>>`. It defines the effect of each operation as a function (`Popped`, `Appended`, `RequeuedAsWritten`, `Requeued`) together with Swift's `Array.insert(_:at:)`, which traps on an out-of-range index.
- `driver.dfy` (module `Driver`): class `Store` holds the static dictionary, and class `JobsDefaultDriver` refers to a `Store`. Every driver value built over the same `Store` reads and writes the same queues, as every `JobsDefaultDriver` value does in the source. The driver's methods update the store in place. Each method's postcondition ties the new storage to the matching function of the old storage. This file also holds `ProcessingKey` and a client scenario of a retry run through two driver values.
- `traces.dfy` (module `Traces`): runs of any sequence of calls. Over a run, no job is lost or duplicated. On a key with no requeue, `get` serves jobs first-in first-out. A requeued job stays ahead of later pushes.

## Model

| member | source | states |
|---|---|---|
| `JobStore.InsertAt` | Sources/Jobs/JobsDefaultDriver.swift:80 | The array insert succeeds exactly when the index is at most the count. The result is one longer, with the job at the index, the elements before it in place and the elements after it shifted by one. |
| `JobStore.Popped` | Sources/Jobs/JobsDefaultDriver.swift:25-36 | `get` returns nothing exactly when the key is missing or its list is empty, and then storage is unchanged. Otherwise it returns the head, and the stored list becomes the old list without its head, one shorter. Every other key is untouched. |
| `JobStore.Appended` | Sources/Jobs/JobsDefaultDriver.swift:44-52 | After `set` the key is present. Its list is one longer, keeps the old list (empty if the key was new) as its prefix and ends with the job. Every other key is untouched. |
| `JobStore.RequeuedAsWritten` | Sources/Jobs/JobsDefaultDriver.swift:75-83 | As written, `requeue` succeeds exactly when the key's list is non-empty. It then gives `[old head, job] + old tail`, and every other key is untouched. On a missing or empty list it traps. |
| `JobStore.Requeued` | Sources/Jobs/JobsDefaultDriver.swift:75-83 | Corrected `requeue`: the list grows by one and holds the old jobs plus the job as a multiset. A non-empty list becomes `[old head, job] + old tail`. A missing or empty list becomes `[job]`. Every other key is untouched. |
| `JobStore.RequeuedAgreesWithSource` | Sources/Jobs/JobsDefaultDriver.swift:76-80 | Wherever the source's requeue does not trap, the corrected requeue gives the same storage. Where it traps, the next `get` after the corrected requeue returns the requeued job. |
| `JobStore.RequeueAsWrittenTrapsOnEmpty` | Sources/Jobs/JobsDefaultDriver.swift:76-80 | A requeue onto a key with no list, or with an empty one, always reaches the out-of-range insert. So the list created at lines 77-79 never survives. |
| `JobStore.RequeueOfOnlyJobTraps` | Sources/Jobs/JobsDefaultDriver.swift:25-83 | Push one job, take it with `get`, then requeue it onto the same key: the source traps. |
| `JobStore.RequeuedJobServedSecond` | Sources/Jobs/JobsDefaultDriver.swift:75-83 | After a requeue onto a non-empty list, the next `get` returns the previous head and the one after it returns the requeued job. What remains is the old backlog. |
| `Driver.Store.constructor` | Sources/Jobs/JobsDefaultDriver.swift:13 | At program start the shared dictionary has no keys. |
| `Driver.JobsDefaultDriver.constructor` | Sources/Jobs/JobsDefaultDriver.swift:15-18 | A new driver value refers to the given shared store and does not reset it. |
| `Driver.JobsDefaultDriver.Get` | Sources/Jobs/JobsDefaultDriver.swift:25-36 | The returned value and the new storage are those of `Popped` on the old storage. |
| `Driver.JobsDefaultDriver.Set` | Sources/Jobs/JobsDefaultDriver.swift:44-52 | The new storage is `Appended` of the old storage. |
| `Driver.JobsDefaultDriver.Completed` | Sources/Jobs/JobsDefaultDriver.swift:60-62 | Completion changes no state. |
| `Driver.JobsDefaultDriver.Requeue` | Sources/Jobs/JobsDefaultDriver.swift:75-83 | Requires a non-empty list, which is what the insert at index 1 demands. The new storage is what the source computes, and it equals the corrected `Requeued`. |
| `Driver.RetryScenario` | Sources/Jobs/JobsDefaultDriver.swift:25-83 | The scenario uses two driver values over one store. One sets a and b, the other gets and then requeues a, the first sets c, and the second gets four times. The gets serve a, b, a, c and then nothing. The retried job goes behind the old head and ahead of the later push. |
| `Driver.ProcessingKey` | Sources/Jobs/JobsDefaultDriver.swift:68-70 | The processing key starts with the key and ends with `-processing`, and is exactly that long. |
| `Driver.ProcessingKeyInjective` | Sources/Jobs/JobsDefaultDriver.swift:68-70 | Distinct keys have distinct processing keys. |
| `Driver.ProcessingKeyDiffers` | Sources/Jobs/JobsDefaultDriver.swift:68-70 | A processing key never equals the key it comes from. |
| `Driver.ProcessingQueueSeparate` | Sources/Jobs/JobsDefaultDriver.swift:44-70 | A `set` onto a key's processing key leaves that key's own list unchanged. |
| `Traces.RunConserves` | Sources/Jobs/JobsDefaultDriver.swift:25-83 | Take any run of get, set, requeue and completed calls. For each key, the jobs delivered plus the jobs still stored equal, as a multiset, the jobs stored at the start plus the jobs admitted by set and requeue. |
| `Traces.RunPreservesOrder` | Sources/Jobs/JobsDefaultDriver.swift:25-52 | Take a run with no requeue onto a key. The jobs delivered from that key, followed by those still stored, equal in order the jobs stored at the start followed by the jobs pushed. |
| `Traces.DeliveredInPushOrder` | Sources/Jobs/JobsDefaultDriver.swift:25-52 | FIFO: with no requeue onto a key, the successive gets on that key return a prefix of its stored jobs followed by its pushed jobs. |
| `Traces.AppendedAllExtends` | Sources/Jobs/JobsDefaultDriver.swift:44-52 | A series of sets appends its jobs in order behind everything already stored under the key. |
| `Traces.RequeuedAheadOfLaterSets` | Sources/Jobs/JobsDefaultDriver.swift:44-83 | After a requeue, any later sets queue up behind the old head, the requeued job and the old backlog, in that order. |
| `Traces.RequeuedServedBeforeLaterPushes` | Sources/Jobs/JobsDefaultDriver.swift:25-83 | After a requeue, take any run that does not requeue onto the key again; it may contain gets, sets and calls on other keys. The key's jobs are delivered and stored in this order: the old head, the requeued job, the old backlog, then the jobs pushed later. |

## Left out

- The lock (`Lock`, `withLockVoid`) is not modelled. Every operation is one atomic step. `get` checks for emptiness outside the lock (line 27), and so can race with another `get`; this model does not capture that race.
- `EventLoopFuture`, `eventLoop.delegate(for:)`, the `Logger` and the `eventLoopGroup` field are left out. Each operation returns its value directly.
- `init(on:)` also stores the event loop group and a logger. Those two are not modelled, so the driver constructor only links the new value to the shared store.
- Queue keys are compared as sequences of code points. Swift compares and hashes `String` keys by Unicode canonical equivalence, so `"caf\u{E9}"` and `"cafe\u{301}"` name one queue in the source and two queues here. Statements that every other key is untouched hold for keys distinct as code-point sequences, not for keys Swift treats as equal.
- The record's `delay` and retry fields are never read by the driver, so `JobStorage` is an opaque type parameter.
- `Driver.JobsDefaultDriver.Requeue`: requires a non-empty list under the key, because Swift's insert at index 1 traps otherwise. That case is modelled by `JobStore.RequeuedAsWritten` and reported under Findings.
- `Traces.Run`: uses the corrected requeue, which equals the source's requeue wherever the source does not trap.
- Sources/Jobs/Application+Jobs.swift, Sources/Jobs/JobsProvider.swift, Sources/Jobs/JobContext.swift and Package.swift are not part of this model. They hold application bootstrap, dependency registration, command-line wiring and the build manifest.
- Sources/Jobs/ScheduledJob.swift is not part of this model. It holds timer plumbing built on a schedule builder that is not available, floating-point date arithmetic and a type-reflection name.
- The worker loop, the queue abstraction and the `JobsDriver` protocol are not part of this model. Their sources are not among the modelled files.

## Findings

| source | as written | input that shows it | evidently intended | confidence | as-written member | corrected member |
|---|---|---|---|---|---|---|
| Sources/Jobs/JobsDefaultDriver.swift:76-80 | For a missing key, `requeue` first stores an empty list, then inserts at index 1. That index is out of range for an empty list, so the program traps. It traps the same way on a key whose list is empty. | Set job `a` on key `k`, take it with `get`, then `requeue(k, a)` | Insert at index 1, or at the end when the list is shorter, so that the job becomes the only element | not executed; high (the empty list created at lines 77-79 can only ever reach the trapping insert) | `JobStore.RequeueOfOnlyJobTraps` | `JobStore.Requeued` |
