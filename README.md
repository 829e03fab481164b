# DeviceScraper core, modelled in Dafny

DeviceScraper collects mobile-device catalogues from two web sites.

`DeviceAtlasScraper` works on deviceatlas.com:

1. It rebuilds the list of brands already processed from the numbered checkpoint files `BrandsList_<n>.txt`.
2. It fetches the brand catalog and keeps the brands not yet processed.
3. It cuts those brands into batches of five.
4. For every brand of a batch, it fetches the brand's device listing, then the page of every device. Each of these fetches goes through a bounded retry loop that rotates user agents and waits longer after each failure. The catalog fetch of step 2 has a retry loop of its own, with one fixed user agent and a constant wait.
5. It writes each batch's brand-to-records map as a checkpoint file and appends the batch's completed brands to the processed list.

`Main` works on gsmarena.com. It walks a brand's paginated listing, collecting model names, until the last pagination link is absent or is the end-of-list arrow.

The model has one module per component:

| file | module | models |
|---|---|---|
| common.dfy | `Common` | `Option`, `Result`, elements of a list, no-duplicates |
| pages.dfy | `Pages` | the parts of fetched pages the code reads, device records, checkpoint maps |
| retry.dfy | `Retry` | `getDocumentWithRetry` and the retry schedule |
| discovery.dfy | `Discovery` | `fetchUnprocessedBrands` |
| resume.dfy | `Resume` | `listOfProcessedDevices` |
| devices.dfy | `Devices` | `fetchSeparateDevice`, `fetchDeviceInfo`, `fetchAllDevices` (deviceatlas) |
| batching.dfy | `Batching` | `createBatches` |
| orchestrator.dfy | `Orchestrator` | `processBrandBatch`, `generateFile`, the batch loop and batch ids of `main` |
| pagination.dfy | `Pagination` | `Main.fetchAllDevices` (gsmarena pagination) |

The network is an oracle.
- For deviceatlas, `net(url, attempt, agent)` is the outcome of one request.
- The outcome is a document, an `IOException` (`IoFailure`), or any other exception (`Fault`).
- The retry loops catch only `IOException`, so a `Fault` escapes them.
- For gsmarena, `web(url)` is a page, or `None` when the request throws.

The contents of checkpoint files are a store from file number to "missing", "unreadable" or a parsed map. Whether a checkpoint write succeeds is a boolean per batch id. Waits and the user agents used are returned as ghost logs.

The thread pools are replaced by sequential loops. Where completion order could change a result, the model picks any remaining element (`:|`), and the contracts state only what does not depend on order:
- the multiset of device records;
- the set of completed brands.

## Model

| member | source | states |
|---|---|---|
| Retry.AgentFor | src/main/java/deviceAtlas/DeviceAtlasScraper.java:293-299 | the agent of every attempt is one of the three fixed browser strings |
| Retry.Decide | src/main/java/deviceAtlas/DeviceAtlasScraper.java:301-307 | an attempt that does not fail with an I/O error returns its document, or its exception escapes |
| Retry.Backoff | src/main/java/deviceAtlas/DeviceAtlasScraper.java:309-313 | the wait after failed attempt i is RETRY_DELAY·(i+1) ms; its growth is stated by `Retry.GetDocumentWithRetry` |
| Retry.Attempts | src/main/java/deviceAtlas/DeviceAtlasScraper.java:290-319 | specification of a retry loop: I/O failures retried up to MAX_RETRIES attempts, the first other outcome decides; characterised by `Retry.AttemptsNullIff` and `Retry.AttemptsFirstDecides` |
| Retry.AttemptsNullIff | src/main/java/deviceAtlas/DeviceAtlasScraper.java:290-319 | a retry loop returns null exactly when every remaining attempt up to MAX_RETRIES fails with an I/O error |
| Retry.AttemptsFirstDecides | src/main/java/deviceAtlas/DeviceAtlasScraper.java:290-319 | the first attempt that is not an I/O failure decides the outcome; later attempts are never made |
| Retry.GetDocumentWithRetry | src/main/java/deviceAtlas/DeviceAtlasScraper.java:289-320 | result equals the retry specification `Attempts`; 1 to 3 attempts; attempt i uses agent i mod 3; every attempt but the last failed with an I/O error; null only after all 3; a wait of 1000·(i+1) ms after failed attempt i except the last, strictly increasing |
| Discovery.Unprocessed | src/main/java/deviceAtlas/DeviceAtlasScraper.java:166-173 | the brand map built from the catalog links; characterised by `Discovery.UnprocessedKeys` and `Discovery.UnprocessedLastWins` |
| Discovery.Discover | src/main/java/deviceAtlas/DeviceAtlasScraper.java:151-191 | what `fetchUnprocessedBrands` returns or the exception escaping it; characterised by `Discovery.AllAttemptsFailGiveNoBrands` and `Discovery.FirstCatalogDecides` |
| Discovery.UnprocessedKeys | src/main/java/deviceAtlas/DeviceAtlasScraper.java:166-173 | the brand map's keys are exactly the catalog link texts not already processed |
| Discovery.UnprocessedLastWins | src/main/java/deviceAtlas/DeviceAtlasScraper.java:168-173 | a kept brand maps to the href of the last catalog link with its name, and is not already processed |
| Discovery.AllAttemptsFailGiveNoBrands | src/main/java/deviceAtlas/DeviceAtlasScraper.java:155-190 | when every catalog attempt fails with an I/O error, the result is the empty map, not an error |
| Discovery.FirstCatalogDecides | src/main/java/deviceAtlas/DeviceAtlasScraper.java:155-176 | the catalog of the first attempt that succeeds is the one filtered |
| Discovery.FetchUnprocessedBrands | src/main/java/deviceAtlas/DeviceAtlasScraper.java:151-191 | result equals `Discover` (filtered catalog, empty map after 3 I/O failures, or the escaping exception); one wait of 1000 ms after each failed attempt but the last: the attempts before each logged wait failed with an I/O error, and with fewer than 2 waits the next attempt did not; exactly 2 waits when all attempts fail |
| Resume.CommittedBrandsIff | src/main/java/deviceAtlas/DeviceAtlasScraper.java:196-221 | a brand counts as processed exactly when some file 1..totalCount exists, parses, and has it as a key; missing or unreadable files are skipped |
| Resume.ListOfProcessedDevices | src/main/java/deviceAtlas/DeviceAtlasScraper.java:193-224 | the list has no duplicates and its elements are exactly the keys of the readable files 1..totalCount |
| Devices.FetchSeparateDevice | src/main/java/deviceAtlas/DeviceAtlasScraper.java:322-330 | the device title when `#product-data` and `.device-title` exist, "Unknown" otherwise |
| Devices.FetchDeviceInfo | src/main/java/deviceAtlas/DeviceAtlasScraper.java:270-287 | the record's model is the link text; its name is the page's device title when a page is retrieved, and starts with "Error: " otherwise |
| Devices.DeviceInfoWhenAllAttemptsFail | src/main/java/deviceAtlas/DeviceAtlasScraper.java:276-280 | a device page whose attempts all fail with I/O errors gives "Error: Unable to fetch device page" |
| Devices.DeviceRecords | src/main/java/deviceAtlas/DeviceAtlasScraper.java:245-251 | one record per device link, in link order: the i-th record is `fetchDeviceInfo` of the i-th link, so its model is that link's text and its name carries that fetch's own outcome |
| Devices.DeviceList | src/main/java/deviceAtlas/DeviceAtlasScraper.java:226-268 | what `fetchAllDevices(url)` collects up to order, or its exception; `Devices.FetchAllDevices` is proved against it |
| Devices.ModelsPermutation | src/main/java/deviceAtlas/DeviceAtlasScraper.java:253-264 | records taken in any completion order carry the same model names, counted with repetition |
| Devices.RecordModelsAreLinkTexts | src/main/java/deviceAtlas/DeviceAtlasScraper.java:245-251 | the model names of the records are the link texts, in order |
| Devices.CollectCompleted | src/main/java/deviceAtlas/DeviceAtlasScraper.java:253-264 | taking every submitted result in completion order yields exactly the finished results, as a multiset |
| Devices.FetchAllDevices | src/main/java/deviceAtlas/DeviceAtlasScraper.java:226-268 | throws exactly when the listing fetch throws a non-I/O exception; otherwise the records are a permutation of one record per device link, whose models are the link texts; an unreachable listing gives the empty list |
| Batching.FullBatchesLength | src/main/java/deviceAtlas/DeviceAtlasScraper.java:128-131 | full batches of size s, k of them, hold k·s items |
| Batching.BatchCount | src/main/java/deviceAtlas/DeviceAtlasScraper.java:122-139 | full batches followed by a non-empty last batch number ceil(n / size) |
| Batching.CreateBatches | src/main/java/deviceAtlas/DeviceAtlasScraper.java:122-139 | batches laid end to end give back the items in order; no batch is empty; for size ≥ 1 all but the last have exactly size items, the last at most size, and there are ceil(n / size); a size below 1 puts everything in one batch |
| Orchestrator.Outcomes | src/main/java/deviceAtlas/DeviceAtlasScraper.java:86-101 | the brand map left by a batch's tasks, up to record order; characterised by `Orchestrator.CompletedIff` and `Orchestrator.OutcomesLastWins` |
| Orchestrator.CompletedIff | src/main/java/deviceAtlas/DeviceAtlasScraper.java:86-101 | a brand is completed in a batch exactly when some entry with its name has a `fetchAllDevices` that does not throw |
| Orchestrator.OutcomesLastWins | src/main/java/deviceAtlas/DeviceAtlasScraper.java:93-94 | a completed brand maps to the device list of the last non-throwing entry with its name |
| Orchestrator.CompletedAppend | src/main/java/deviceAtlas/DeviceAtlasScraper.java:52-65 | brands completed over two consecutive runs of entries are those of each run together |
| Orchestrator.CompletedFlatten | src/main/java/deviceAtlas/DeviceAtlasScraper.java:49-65 | after batch k, the completed brands of batches 0..k are those of batches 0..k-1 plus those of batch k |
| Orchestrator.RunBrandTasks | src/main/java/deviceAtlas/DeviceAtlasScraper.java:79-110 | the brand map holds, for each completed brand, a permutation of its device list, and nothing else; the processed-brands list holds exactly the completed brands |
| Orchestrator.BatchId | src/main/java/deviceAtlas/DeviceAtlasScraper.java:58 | batch k runs under id k + totalCountDone; `Orchestrator.Scraper.RunBatches` states what is stored under each id |
| Orchestrator.FirstBatchIdWasRead | src/main/java/deviceAtlas/DeviceAtlasScraper.java:37-58 | the first batch's id is a file number `listOfProcessedDevices(totalCountDone)` reads, and that file's brands already count as processed |
| Orchestrator.MainRewritesTheFileItRead | src/main/java/deviceAtlas/DeviceAtlasScraper.java:37-58 | with `totalCountDone = 1` as in `main`, file 1 is the only file read at start-up and the first batch's id is 1 |
| Orchestrator.Scraper.constructor | src/main/java/deviceAtlas/DeviceAtlasScraper.java:37-40 | the processed list and checkpoint files start as given |
| Orchestrator.Scraper.GenerateFile | src/main/java/deviceAtlas/DeviceAtlasScraper.java:141-149 | a successful write stores the brand map under the batch id; a failed write changes nothing |
| Orchestrator.Scraper.ProcessBrandBatch | src/main/java/deviceAtlas/DeviceAtlasScraper.java:78-120 | the written map has exactly the completed brands, with their device lists up to order; the checkpoint is stored if the write succeeds; the processed list keeps its prefix and gains exactly the completed brands, even when the write fails |
| Orchestrator.Scraper.RunBatches | src/main/java/deviceAtlas/DeviceAtlasScraper.java:49-65 | the batches cut are the brands in order, ceil(n/5) of them, all full but the last; the processed list keeps its prefix and gains exactly the brands completed in all batches; the files afterwards are the old ones plus ids totalCountDone+k whose write succeeded; such an id holds batch k's brand map, whatever it held before (so the first batch replaces file totalCountDone); every other file is unchanged |
| Pagination.IsSentinel | src/main/java/Main.java:66 | the end-of-list test: href "#", no title attribute, text ►; its two sides are `Pagination.LastPageEndsWalk` and `Pagination.NearSentinelIsFollowed` |
| Pagination.Crawl | src/main/java/Main.java:57-76 | the walk's result, when no fetch throws, starts with the incoming list followed by the page's model names |
| Pagination.CrawlBoundIrrelevant | src/main/java/Main.java:57-76 | once the walk is known to stop, its result does not depend on the bound used to show it |
| Pagination.CrawlChain | src/main/java/Main.java:57-76 | on a finite chain of pages ending with no link or the sentinel, the walk stops and returns the incoming list followed by every page's model names in order |
| Pagination.LastPageEndsWalk | src/main/java/Main.java:64-68 | a page with no pagination link, or whose last link is the sentinel, ends the walk, returning the incoming list followed by its own names |
| Pagination.NearSentinelIsFollowed | src/main/java/Main.java:64-74 | a last link that differs from the sentinel in its href, its title attribute or its text is followed |
| Pagination.FetchAllDevices | src/main/java/Main.java:57-76 | the loop returns what `Crawl` specifies, and the incoming list is a prefix of the result |

## Left out

- HTTP, HTML parsing and CSS selectors (Jsoup) are not modelled. A page is the data the code selects from it, and the network is an oracle.
- Connection timeouts and request headers are not modelled. They are part of the oracle.
- Thread pools, futures, the latch and `synchronized` are not modelled. Tasks run one after the other. Results whose order depends on completion are stated as multisets or sets.
- The order in which concurrently running batches append to `alreadyProcessed` is not modelled. Only the set of appended brands is stated.
- `Thread.sleep` and its interruption are not modelled. The waits are a ghost log of durations.
- JSON serialisation, the file system and the class-path resources are not modelled. A checkpoint is a map; reading is a store of parsed, missing or unreadable files; a write succeeds or not. A failed write that leaves a truncated file is not modelled.
- Logging to standard output and standard error is not modelled.
- `main` is modelled only through its batch loop and batch ids (`Orchestrator.Scraper.RunBatches`).
- The start-up sequence `listOfProcessedDevices`, then `fetchUnprocessedBrands`, then the batches is not composed into one method. Each step is modelled on its own.
- `Main.main` is not part of this model: the gsmarena maker-table scrape and the per-brand loop around `fetchAllDevices`.
- Pagination.FetchAllDevices: the Java method recurses with no bound. The model requires a ghost bound under which the walk stops, so a listing whose links form a cycle, on which the Java method does not return normally (each page deepens the recursion until the stack overflows or a fetch throws), is not covered.
- Pagination.FetchAllDevices: the Java method appends to the caller's `mobileList` in place. The model works on a value, so aliasing of that list is not captured.
- Devices.CollectCompleted: the Java loop tolerates a `take()` that fails (interruption or an execution exception). The model requires that every submitted task delivers a result, which holds because `fetchDeviceInfo` catches every exception.
- Devices.FetchAllDevices: only the multiset of records is stated, because the Java list is filled in completion order.
- Orchestrator.Scraper.ProcessBrandBatch: when two entries of a batch carry the same brand name, which put wins is decided by thread timing. The model lets the later entry win. Batches come from the entries of a map, so names in one batch are distinct.

### Behaviour as written

Some behaviour of the code is easy to misread; the model follows the code as written:

- `Main.fetchAllDevices` lets an `IOException` on a later page propagate, so the names collected so far are discarded (`None`). They are not returned as a partial list.
- There is no ceiling on the number of pages walked.
- `getDocumentWithRetry` waits `RETRY_DELAY·(i+1)` after failed attempt i (0-based), and no wait follows the last attempt. Despite the comment at line 311 of `DeviceAtlasScraper.java`, this is linear growth, not exponential.
- Only `IOException` is retried. Any other exception escapes the retry loop at once.
- When every catalog attempt fails, `fetchUnprocessedBrands` returns an empty map and the run ends with no work. The failure is not fatal.
- `alreadyProcessed` is extended with a batch's brands even when its checkpoint write failed.
- The first batch's id is `totalCountDone`, the number of the last checkpoint file read at start-up, so a successful write of the first batch replaces that file (`Orchestrator.FirstBatchIdWasRead`, `Orchestrator.Scraper.RunBatches`).
- Checkpoint files are written in place, not atomically.
- Device records are `{model, name}`. Failures are kept as records whose name is "Error: Unable to fetch device page" or "Error: " followed by the exception message.
