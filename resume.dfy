/**
 * `listOfProcessedDevices`: rebuild the list of already processed brands from
 * the checkpoint files `BrandsList_1.txt` .. `BrandsList_<totalCount>.txt`.
 * Reading and JSON parsing are an oracle: the store says, per file number,
 * whether the resource is missing, fails to parse, or parses to a checkpoint.
 */
module Resume {
  import opened Common
  import opened Pages

  datatype CheckpointFile = Missing | Unreadable | Parsed(data: Checkpoint)

  /** The checkpoint resource numbered `n`, as the class loader and the JSON parser see it. */
  type CheckpointStore = int -> CheckpointFile

  /** The brands a file contributes: its keys if it parses, nothing otherwise. */
  function KeysOf(f: CheckpointFile): set<string>
  {
    if f.Parsed? then f.data.Keys else {}
  }

  /** The union of the brand keys of files 1..`n`. */
  function CommittedBrands(store: CheckpointStore, n: int): set<string>
    decreases n
  {
    if n < 1 then {} else CommittedBrands(store, n - 1) + KeysOf(store(n))
  }

  /**
   * A brand is committed exactly when some file numbered 1..`n` exists,
   * parses, and has it as a key: missing or unreadable files add nothing,
   * and do not hide the files after them.
   */
  lemma {:induction false} CommittedBrandsIff(store: CheckpointStore, n: int, brand: string)
    ensures brand in CommittedBrands(store, n)
        <==> exists c :: 1 <= c <= n && store(c).Parsed? && brand in store(c).data
    decreases n
  {
    if n >= 1 {
      CommittedBrandsIff(store, n - 1, brand);
    }
  }

  /** `listOfProcessedDevices(totalCount)`. */
  method ListOfProcessedDevices(totalCount: int, store: CheckpointStore) returns (devices: seq<string>)
    ensures NoDuplicates(devices)
    ensures Elements(devices) == CommittedBrands(store, totalCount)
  {
    devices := [];
    var count := 1;
    while count <= totalCount
      invariant 1 <= count && (count <= totalCount + 1 || count == 1)
      invariant NoDuplicates(devices)
      invariant Elements(devices) == CommittedBrands(store, count - 1)
      decreases totalCount - count
    {
      var file := store(count);
      if file.Parsed? {
        // the keys of a parsed HashMap, in an order the model does not fix
        var keys := file.data.Keys;
        while keys != {}
          invariant keys <= file.data.Keys
          invariant NoDuplicates(devices)
          invariant Elements(devices) == CommittedBrands(store, count - 1) + (file.data.Keys - keys)
          decreases keys
        {
          var brand :| brand in keys;
          if brand !in devices {
            assert Elements(devices + [brand]) == Elements(devices) + {brand};
            devices := devices + [brand];
          }
          keys := keys - {brand};
        }
      }
      // a missing or unreadable file is reported and skipped
      count := count + 1;
    }
    if totalCount < 1 {
      assert CommittedBrands(store, totalCount) == {};
    }
  }
}
