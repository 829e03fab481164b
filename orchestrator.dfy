/**
 * The batch bookkeeping of `DeviceAtlasScraper`: `processBrandBatch`,
 * `generateFile`, and the loop of `main` that hands each batch its id.
 *
 * The brand tasks of a batch, and the batches themselves, run on thread pools
 * in the Java code; here they run one after the other, and what is stated
 * about the lists they fill is stated as sets, which do not depend on the
 * order in which tasks complete. Writing a checkpoint file is an oracle that
 * says whether the write succeeded.
 */
module Orchestrator {
  import opened Common
  import opened Pages
  import opened Devices
  import opened Batching
  import opened Resume

  const TOTAL_COUNT_DONE: int := 1
  const BRANDS_PER_BATCH: int := 5

  /** A brand task fails exactly when `fetchAllDevices` throws for the brand's listing. */
  predicate TaskThrows(net: Retry.Network<Page>, brand: Brand)
  {
    DeviceList(net, brand.url).Failure?
  }

  /**
   * What the brand tasks of `batch` leave in `brandMap`, up to the order of
   * each brand's records: every task that does not throw puts its brand's
   * device list (a later put on the same name overwrites).
   */
  function Outcomes(net: Retry.Network<Page>, batch: seq<Brand>): Checkpoint
  {
    if batch == [] then map[]
    else
      var m := Outcomes(net, batch[..|batch| - 1]);
      var last := batch[|batch| - 1];
      if TaskThrows(net, last) then m else m[last.name := DeviceList(net, last.url).value]
  }

  /** The names of the brands of `batch` whose task completes. */
  function Completed(net: Retry.Network<Page>, batch: seq<Brand>): set<string>
  {
    Outcomes(net, batch).Keys
  }

  /** A brand name is completed exactly when some entry with that name has a task that does not throw. */
  lemma {:induction false} CompletedIff(net: Retry.Network<Page>, batch: seq<Brand>, name: string)
    ensures name in Completed(net, batch)
        <==> exists b :: b in batch && b.name == name && !TaskThrows(net, b)
  {
    if batch != [] {
      var init := batch[..|batch| - 1];
      CompletedIff(net, init, name);
      assert batch == init + [batch[|batch| - 1]];
    }
  }

  /**
   * Entry `j` of `batch` is the last one named `name` whose task does not
   * throw, and `records` is its device list.
   */
  predicate LastCompletedEntry(net: Retry.Network<Page>, batch: seq<Brand>, name: string, j: int, records: seq<DeviceInfo>)
  {
    && 0 <= j < |batch| && batch[j].name == name && !TaskThrows(net, batch[j])
    && records == DeviceList(net, batch[j].url).value
    && forall k :: j < k < |batch| && batch[k].name == name ==> TaskThrows(net, batch[k])
  }

  /** A completed brand keeps the devices of the LAST entry of that name whose task did not throw. */
  lemma {:induction false} OutcomesLastWins(net: Retry.Network<Page>, batch: seq<Brand>, name: string)
    requires name in Outcomes(net, batch)
    ensures exists j :: LastCompletedEntry(net, batch, name, j, Outcomes(net, batch)[name])
  {
    var init := batch[..|batch| - 1];
    var last := batch[|batch| - 1];
    if last.name == name && !TaskThrows(net, last) {
      assert LastCompletedEntry(net, batch, name, |batch| - 1, Outcomes(net, batch)[name]);
    } else {
      OutcomesLastWins(net, init, name);
      var j :| LastCompletedEntry(net, init, name, j, Outcomes(net, init)[name]);
      assert Outcomes(net, batch)[name] == Outcomes(net, init)[name];
      assert batch[j] == init[j];
      forall k | j < k < |batch| && batch[k].name == name
        ensures TaskThrows(net, batch[k])
      {
        if k < |init| {
          assert batch[k] == init[k];
        }
      }
      assert LastCompletedEntry(net, batch, name, j, Outcomes(net, batch)[name]);
    }
  }

  lemma OutcomesStep(net: Retry.Network<Page>, batch: seq<Brand>, i: nat)
    requires i < |batch|
    ensures Outcomes(net, batch[..i + 1])
         == if TaskThrows(net, batch[i]) then Outcomes(net, batch[..i])
            else Outcomes(net, batch[..i])[batch[i].name := DeviceList(net, batch[i].url).value]
  {
    assert batch[..i + 1][..i] == batch[..i];
  }

  lemma {:induction false} CompletedAppend(net: Retry.Network<Page>, a: seq<Brand>, b: seq<Brand>)
    ensures Completed(net, a + b) == Completed(net, a) + Completed(net, b)
    decreases |b|
  {
    if b == [] {
      assert a + b == a;
    } else {
      var b' := b[..|b| - 1];
      assert (a + b)[..|a + b| - 1] == a + b';
      assert (a + b)[|a + b| - 1] == b[|b| - 1];
      CompletedAppend(net, a, b');
    }
  }

  /** The brands that completed in the batches, laid end to end, are those of each batch together. */
  lemma {:induction false} CompletedFlatten(net: Retry.Network<Page>, batches: seq<seq<Brand>>, k: nat)
    requires k < |batches|
    ensures Completed(net, Flatten(batches[..k + 1])) == Completed(net, Flatten(batches[..k])) + Completed(net, batches[k])
  {
    assert batches[..k + 1][..k] == batches[..k];
    CompletedAppend(net, Flatten(batches[..k]), batches[k]);
  }

  /** Two brand maps with the same brands, and the same records per brand up to order. */
  predicate SameUpToOrder(m: Checkpoint, m': Checkpoint)
  {
    m.Keys == m'.Keys && forall name :: name in m ==> multiset(m[name]) == multiset(m'[name])
  }

  lemma PutSameUpToOrder(m: Checkpoint, m': Checkpoint, name: string, records: seq<DeviceInfo>, records': seq<DeviceInfo>)
    requires SameUpToOrder(m, m') && multiset(records) == multiset(records')
    ensures SameUpToOrder(m[name := records], m'[name := records'])
  {
  }

  /**
   * The brand tasks of `processBrandBatch`: each task runs `fetchAllDevices`
   * and, unless it throws, puts the brand's records into `brandMap` and adds
   * the brand to `processedBrands`; a task that throws is logged and skipped.
   */
  method RunBrandTasks(net: Retry.Network<Page>, batch: seq<Brand>)
    returns (brandMap: Checkpoint, processedBrands: seq<string>)
    ensures SameUpToOrder(brandMap, Outcomes(net, batch))
    ensures brandMap.Keys == Completed(net, batch)
    ensures Elements(processedBrands) == brandMap.Keys
  {
    brandMap, processedBrands := map[], [];
    for i := 0 to |batch|
      invariant SameUpToOrder(brandMap, Outcomes(net, batch[..i]))
      invariant Elements(processedBrands) == brandMap.Keys
    {
      OutcomesStep(net, batch, i);
      var brand := batch[i];
      var devices := FetchAllDevices(net, brand.url);
      if devices.Success? {
        PutSameUpToOrder(brandMap, Outcomes(net, batch[..i]), brand.name, devices.value, DeviceList(net, brand.url).value);
        brandMap := brandMap[brand.name := devices.value];
        assert Elements(processedBrands + [brand.name]) == Elements(processedBrands) + {brand.name};
        processedBrands := processedBrands + [brand.name];
      }
    }
    assert batch[..|batch|] == batch;
  }

  /** The id of batch number `batchIndex` (0-based): `batchIndex + totalCountDone`. */
  function BatchId(batchIndex: nat, totalCountDone: int): int
  {
    batchIndex + totalCountDone
  }

  /**
   * The first batch gets id `totalCountDone`, which is the number of the last
   * checkpoint file `listOfProcessedDevices(totalCountDone)` reads: the brands
   * of that file already count as processed, and the first batch's write
   * replaces it (see `Scraper.RunBatches`).
   */
  lemma FirstBatchIdWasRead(store: CheckpointStore, totalCountDone: int)
    requires totalCountDone >= 1
    ensures 1 <= BatchId(0, totalCountDone) <= totalCountDone
    ensures KeysOf(store(BatchId(0, totalCountDone))) <= CommittedBrands(store, totalCountDone)
  {
  }

  /**
   * In `main`, where `totalCountDone` is TOTAL_COUNT_DONE, the only file read
   * at start-up is file 1, and the first batch is written back to file 1.
   */
  lemma {:induction false} MainRewritesTheFileItRead(store: CheckpointStore)
    ensures BatchId(0, TOTAL_COUNT_DONE) == 1
    ensures CommittedBrands(store, TOTAL_COUNT_DONE) == KeysOf(store(1))
  {
    assert CommittedBrands(store, 0) == {};
  }

  /** A list extended twice keeps its first prefix, and gains the elements of both extensions. */
  lemma ExtendedTwice<T>(first: seq<T>, second: seq<T>, third: seq<T>)
    requires |first| <= |second| <= |third|
    requires second[..|first|] == first && third[..|second|] == second
    ensures third[..|first|] == first
    ensures Elements(third[|first|..]) == Elements(second[|first|..]) + Elements(third[|second|..])
  {
    assert third[|first|..] == second[|first|..] + third[|second|..];
  }

  /**
   * After the first `n` of `batches` ran under ids `t`, `t + 1`, ..: the files
   * are the ones of `before` plus those ids whose write succeeded, each such
   * id holds its batch's brand map, and every other file is unchanged.
   */
  ghost predicate WrittenUpTo(files: map<int, Checkpoint>, before: map<int, Checkpoint>, t: int, n: nat,
                        batches: seq<seq<Brand>>, net: Retry.Network<Page>, writeOk: int -> bool)
    requires n <= |batches|
  {
    && (forall id :: id in files <==> id in before || (t <= id < t + n && writeOk(id)))
    && (forall k :: 0 <= k < n && writeOk(BatchId(k, t))
          ==> SameUpToOrder(files[BatchId(k, t)], Outcomes(net, batches[k])))
    && (forall id :: id in before && !(t <= id < t + n && writeOk(id)) ==> files[id] == before[id])
  }

  /** Running batch `n` under id `t + n` extends `WrittenUpTo` by one batch. */
  lemma WrittenStep(files: map<int, Checkpoint>, files': map<int, Checkpoint>, before: map<int, Checkpoint>,
                    t: int, n: nat, batches: seq<seq<Brand>>, net: Retry.Network<Page>, writeOk: int -> bool,
                    brandMap: Checkpoint)
    requires n < |batches| && WrittenUpTo(files, before, t, n, batches, net, writeOk)
    requires SameUpToOrder(brandMap, Outcomes(net, batches[n]))
    requires files' == if writeOk(BatchId(n, t)) then files[BatchId(n, t) := brandMap] else files
    ensures WrittenUpTo(files', before, t, n + 1, batches, net, writeOk)
  {
  }

  /** The process-wide state the batches update: the processed list and the checkpoint files. */
  class Scraper {
    var alreadyProcessed: seq<string>
    /** The checkpoint files written so far, by id. */
    var checkpoints: map<int, Checkpoint>

    constructor (alreadyProcessed: seq<string>, checkpoints: map<int, Checkpoint>)
      ensures this.alreadyProcessed == alreadyProcessed && this.checkpoints == checkpoints
    {
      this.alreadyProcessed := alreadyProcessed;
      this.checkpoints := checkpoints;
    }

    /** `generateFile`: write `brandMap` as checkpoint `batchCounter`; a failed write is only reported. */
    method GenerateFile(batchCounter: int, brandMap: Checkpoint, writeOk: bool)
      modifies this`checkpoints
      ensures checkpoints == if writeOk then old(checkpoints)[batchCounter := brandMap] else old(checkpoints)
    {
      if writeOk {
        checkpoints := checkpoints[batchCounter := brandMap];
      }
    }

    /**
     * `processBrandBatch`: run the batch's brand tasks, write the checkpoint,
     * then append the completed brands to `alreadyProcessed`, whether or not
     * the write succeeded. Returns the brand map it wrote (ghost).
     */
    method ProcessBrandBatch(batchCounter: int, batch: seq<Brand>, net: Retry.Network<Page>, writeOk: bool)
      returns (ghost brandMap: Checkpoint)
      modifies this
      ensures SameUpToOrder(brandMap, Outcomes(net, batch))
      ensures brandMap.Keys == Completed(net, batch)
      ensures checkpoints == if writeOk then old(checkpoints)[batchCounter := brandMap] else old(checkpoints)
      ensures |old(alreadyProcessed)| <= |alreadyProcessed|
      ensures alreadyProcessed[..|old(alreadyProcessed)|] == old(alreadyProcessed)
      ensures Elements(alreadyProcessed[|old(alreadyProcessed)|..]) == Completed(net, batch)
    {
      var map', processedBrands := RunBrandTasks(net, batch);
      brandMap := map';
      GenerateFile(batchCounter, map', writeOk);
      assert (alreadyProcessed + processedBrands)[|alreadyProcessed|..] == processedBrands;
      alreadyProcessed := alreadyProcessed + processedBrands;
    }

    /**
     * The batch loop of `main`: cut the unprocessed brands into batches of
     * BRANDS_PER_BATCH and process batch `k` under id `k + totalCountDone`.
     * Returns the batches it cut (ghost).
     */
    method RunBatches(brands: seq<Brand>, totalCountDone: int, net: Retry.Network<Page>, writeOk: int -> bool)
      returns (ghost batches: seq<seq<Brand>>)
      modifies this
      ensures Flatten(batches) == brands
      ensures forall k :: 0 <= k < |batches| ==> 1 <= |batches[k]| <= BRANDS_PER_BATCH
      ensures forall k :: 0 <= k < |batches| - 1 ==> |batches[k]| == BRANDS_PER_BATCH
      ensures |batches| == (|brands| + BRANDS_PER_BATCH - 1) / BRANDS_PER_BATCH
      ensures |old(alreadyProcessed)| <= |alreadyProcessed|
      ensures alreadyProcessed[..|old(alreadyProcessed)|] == old(alreadyProcessed)
      ensures Elements(alreadyProcessed[|old(alreadyProcessed)|..]) == Completed(net, brands)
      ensures forall id :: id in checkpoints <==>
                id in old(checkpoints)
                || (totalCountDone <= id < totalCountDone + |batches| && writeOk(id))
      ensures forall k :: 0 <= k < |batches| && writeOk(BatchId(k, totalCountDone))
                ==> SameUpToOrder(checkpoints[BatchId(k, totalCountDone)], Outcomes(net, batches[k]))
      ensures forall id :: id in old(checkpoints)
                && !(totalCountDone <= id < totalCountDone + |batches| && writeOk(id))
                ==> checkpoints[id] == old(checkpoints)[id]
    {
      var cut := CreateBatches(brands, BRANDS_PER_BATCH);
      batches := cut;
      ghost var before := alreadyProcessed;
      for batchIndex := 0 to |cut|
        invariant |before| <= |alreadyProcessed|
        invariant alreadyProcessed[..|before|] == before
        invariant Elements(alreadyProcessed[|before|..]) == Completed(net, Flatten(batches[..batchIndex]))
        invariant WrittenUpTo(checkpoints, old(checkpoints), totalCountDone, batchIndex, batches, net, writeOk)
      {
        ghost var prev, files := alreadyProcessed, checkpoints;
        var id := BatchId(batchIndex, totalCountDone);
        ghost var written := ProcessBrandBatch(id, cut[batchIndex], net, writeOk(id));
        ExtendedTwice(before, prev, alreadyProcessed);
        CompletedFlatten(net, batches, batchIndex);
        WrittenStep(files, checkpoints, old(checkpoints), totalCountDone, batchIndex, batches, net, writeOk, written);
      }
      assert batches[..|batches|] == batches;
    }
  }
}
