# Round-robin image distribution poller

This project models the core of an image-distribution service. The service
polls a Firestore store of `animal_officer` documents, each with an `animals`
sub-collection of reported records. For every record it walks the
`imagePaths` map (position label -> image URL). It keeps only the labels
`Front`, `Left`, `Rear` and `Right`, downloads each kept image, and uploads
every image whose download answered HTTP 200 to one of a pool of Roboflow
projects. The project is chosen round-robin by a process-wide counter,
`projects[project_counter % len(projects)]`. The counter is incremented
after each upload call that returns. An exception anywhere abandons the rest
of the cycle. The loop then sleeps 60 seconds instead of the usual 300 and
starts the next cycle. All of this assumes that every call into the store,
the network and the upload service eventually returns or raises.

The model has three modules:

- `Store` (`store.dfy`): one cycle's snapshot of the store, and the walk
  order. Streams can raise part-way through. `dict.get` defaults are
  modelled: `reportId` is `Missing`, `Null` or `Present`, and so is
  `imagePaths`. The walk is flattened into a list of events. Each event is an
  image reference or a `Fault` (an exception raised by the store or by a
  record).
- `Distribution` (`distribution.dfy`): the pure specification. `Handle` is
  the body of the innermost loop. `Run` is one cycle over the events. It stops
  at the first exception. `Planned` is the reference round-robin assignment.
  The lemmas here state the laws of a cycle.
- `Poller` (`poller.dfy`): the imperative model. The class `Distributor`
  holds `projectCounter`, the fixed pool size `targets`, and a ghost set of
  image files left on the local disk. Its methods mirror the nested loops of
  the source, one level each (officers, records, map entries, one entry).
  Each method is proved equal to `Run` over the events of its level. `Serve`
  is the endless loop, bounded by a list of cycles. `NextDelay` is the
  scheduler step.

I/O is abstracted. A `Services` value carries the number of targets, an
oracle for the result of `requests.get(url)` (a status code or an
exception), and an oracle for the outcome of `project.upload(...)` (returned
or raised) for each target and file name.

Where the design description of the system and the code disagree, the model
follows the code:

- The design says the cursor advances once per image that reaches the upload
  stage, whatever the upload's outcome. In the code, an upload that raises
  skips the `project_counter += 1` at main.py:112 and abandons the whole
  cycle.
- The design says temporary files are removed on every path. In the code,
  `os.remove` (main.py:107) is skipped when the upload raises, and also when
  the target choice divides by zero. The file stays on disk. See
  `RaisedUploadLeavesFile` and `Handle`.
- The design says download failures skip only that item. In the code, only a
  non-200 status is skipped (main.py:90, 113-114). A `requests.get` that
  raises abandons the cycle like any other exception.
- The design expects a non-empty pool. The code does not check this: with no
  projects, `project_counter % len(projects)` raises `ZeroDivisionError`,
  which abandons the cycle. The model allows `targets == 0` and models that
  path.

## Model

| member | source | states |
|---|---|---|
| Store.DiscoverEntries | main.py:76-88 | The event list of the walk holds exactly the (position, url) pairs of records whose `imagePaths` is present, each tagged with the record's report id. A cycle processes this list only up to the first exception. An absent `reportId` becomes "unknown" and a null one "None". An absent `imagePaths` contributes nothing. |
| Store.DiscoverFaults | main.py:74-87 | The event list of the walk holds an exception exactly when the officer stream fails, an animal stream fails, or a record has a null `imagePaths`. |
| Store.ImageNameInjective | main.py:92 | The file name `report_id + "_" + position + ".jpg"` of a recognised image determines both its report id and its position. |
| Distribution.UploadFor | main.py:97-104 | The upload call carries batch = tag = the item's position, split "train", 3 retries, the item's file name and the chosen target. |
| Distribution.Handle | main.py:88-114 | One entry: an unrecognised label or a non-200 download changes nothing. At most one upload is issued, to target `counter % targets` (a valid index). A recognised entry with a 200 download is uploaded exactly when there is a target. The counter moves by one exactly when the upload returns. The cycle is abandoned exactly when one of these happens: the event is an exception of the walk, the download raises, there is no target (the modulo raises after the file is written), or the upload raises (the file then stays on disk). |
| Distribution.AbortedIff | main.py:74-120 | A cycle is abandoned exactly when one of its events raises on its own or an upload raises. Events that raise on their own are a walk exception, a download that raises on a recognised entry, and no target for a recognised entry with a 200 download. An upload that raises is then the last upload. |
| Distribution.ExceptionAborts | main.py:74-120 | Any event that raises on its own, anywhere in the event list, leaves the cycle abandoned. |
| Distribution.AbortSticks | main.py:117-120 | Once an exception abandons a cycle, nothing after it in the walk is reached. |
| Distribution.CounterLaw | main.py:97-112 | Over a cycle, abandoned or not, the counter advances by exactly the number of uploads that returned. Only the last upload can have raised, and then the cycle was abandoned. Increments made before an exception are kept and the counter never decreases. |
| Distribution.RaisedOnlyLast | main.py:97-114 | In any cycle, every upload returned except perhaps the last, and a last upload that raised is the one that abandoned the cycle. |
| Distribution.RoundRobin | main.py:97 | The k-th upload of a cycle goes to target `(c0 + k) % targets`, where c0 is the counter at the start of the cycle. This is always a valid index. |
| Distribution.FixedMetadata | main.py:98-104 | Every upload of a cycle has batch = tag, a recognised label, split "train" and 3 retries. |
| Distribution.RaisedUploadLeavesFile | main.py:93-107 | If the last upload raised, the cycle was abandoned and that image's file is still on disk. |
| Distribution.CompletedCycle | main.py:87-116 | A cycle that no exception interrupts uploads exactly the entries with a recognised label and a 200 download, in walk order, to consecutive targets from c0. It advances the counter by their number and leaves none of their files on disk. |
| Distribution.UnrecognisedLabelIgnored | main.py:87-88 | An entry whose label is not recognised (e.g. "Top") has the same effect as no entry: no download, no upload, no counter step, and the cycle continues. |
| Distribution.FailedDownloadSkipped | main.py:89-90 | An entry whose download answers a status other than 200 has the same effect as no entry, and the cycle continues with the next entry. |
| Distribution.NoDeduplication | main.py:71-116 | Nothing records what was uploaded. A second completed cycle over the same snapshot uploads the same images in the same order, continuing the rotation from where the first cycle ended. |
| Distribution.SixTargetsRotation | main.py:33-40 | With one target per configured API key (`ApiKeys`, six of them), fourteen uploads from counter 0 go to targets 0,1,2,3,4,5,0,1,2,3,4,5,0,1. |
| Poller.NextDelay | main.py:115-120 | After a completed cycle the loop sleeps 300, and after an abandoned cycle 60. The delay is positive either way, and another cycle follows. |
| Poller.StoreExceptionBacksOff | main.py:74-120 | A cycle reports abandoned and is followed by the 60-second back-off when any of these fail: the officer stream, an animal stream, or the `.items()` of a null `imagePaths`. |
| Poller.DownloadExceptionBacksOff | main.py:89-120 | A cycle reports abandoned and is followed by the 60-second back-off when its walk contains a recognised entry whose `requests.get` raises. |
| Poller.CycleLaws | main.py:74-114 | For any cycle: the counter advances by the uploads that returned, and upload k goes to `(c0 + k) % targets`. A completed cycle follows the plan: the uploadable entries in walk order, on consecutive targets, with none of their files left on disk. |
| Poller.Distributor.constructor | main.py:43-59 | A new process starts with the counter at 0 and a fixed pool of targets. |
| Poller.Distributor.ProcessEntry | main.py:88-114 | The imperative loop body changes the counter and the disk, and issues uploads, exactly as `Handle` specifies. |
| Poller.Distributor.ProcessAnimal | main.py:81-87 | The loop over one record's `imagePaths` is `Run` over that record's entries. A null map raises. |
| Poller.Distributor.ProcessOfficer | main.py:78-87 | The loop over one officer's records is `Run` over that officer's events. |
| Poller.Distributor.ProcessOfficers | main.py:74-114 | The loop over all officers is `Run` over the whole walk, from the counter and disk it started with. |
| Poller.Distributor.ProcessCycle | main.py:72-116 | One cycle is `Run` over the whole walk. The counter ends at its start value plus the uploads that returned. Upload k goes to target `(c0 + k) % targets`. A completed cycle uploads exactly the uploadable entries, in walk order, and leaves none of their files on disk. |
| Poller.Distributor.Serve | main.py:71-120 | Each cycle starts from the state the previous one left. Each is followed by `NextDelay` of its outcome, and no exception ends the loop (for cycles whose calls all return or raise). The counter grows by the uploads that returned in all cycles. |

## Left out

- Firebase credential assembly and app initialisation (main.py:15-30): configuration of a foreign library.
- Roboflow client and project creation (main.py:42-53): only the number of targets is modelled. A failure there happens at import time, before the loop, and is not modelled.
- The FastAPI app, its startup hook and the root endpoint (main.py:62, 122-134): web plumbing. As written, the `BackgroundTasks` object built in the hook is never attached to a response, so the hook does not start the loop.
- Logging (main.py:65-66, 109, 114, 118): it has no effect on state.
- The real `time.sleep` and the unbounded `while True` (main.py:71, 116, 120): `Serve` runs as many cycles as it is given and reports each sleep instead of sleeping.
- Download contents and the bytes written to the file (main.py:93-94): only the set of file names on disk is tracked, as ghost state.
- Exceptions from the file write and from `os.remove` (main.py:93-94, 107): they would abandon the cycle like any other exception. The model treats both operations as always succeeding.
- The upload library's internal retries: `num_retry_uploads=3` is recorded as metadata. Whether the call finally returns or raises is the upload oracle.
- Non-string `reportId` values and `imagePaths` values other than a map or null: only a missing, null or string `reportId` is modelled, and only a missing, null or map `imagePaths`.
- Concurrency: the source is single-threaded and so is the model.
- Calls that never return. `requests.get` at main.py:89 has no timeout, so a server that never answers blocks the cycle forever; the upload at main.py:98 and the store streams at main.py:74 and 79 can hang the same way. The oracles always give an answer, so the scheduler laws (`NextDelay`, `Serve`, the back-off lemmas) hold only for cycles whose calls all return or raise.
- Transient behaviour of the network within one cycle. The oracles are deterministic: `fetch` depends only on the URL, and `upload` only on the target and the file name. Within one cycle a repeated URL always gets the same answer, and the same file sent again to the same target always gets the same outcome. A transient failure of only one of two identical requests cannot be represented.
