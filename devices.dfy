/**
 * Turning a brand's device listing into device records: `fetchSeparateDevice`,
 * `fetchDeviceInfo` (which absorbs every failure into the record) and
 * `fetchAllDevices` (one task per device link, results taken in completion order).
 */
module Devices {
  import opened Common
  import opened Pages
  import opened Retry

  const UNKNOWN := "Unknown"
  const ERROR_PREFIX := "Error: "
  const UNABLE_TO_FETCH := ERROR_PREFIX + "Unable to fetch device page"

  /** `fetchSeparateDevice`: the text of `#product-data .device-title`, or "Unknown". */
  function FetchSeparateDevice(page: Page): (title: string)
    ensures page.productData.Some? && page.productData.value.deviceTitle.Some?
            ==> title == page.productData.value.deviceTitle.value
    ensures page.productData.None? || page.productData.value.deviceTitle.None?
            ==> title == UNKNOWN
  {
    match page.productData
    case None => UNKNOWN
    case Some(data) =>
      match data.deviceTitle
      case None => UNKNOWN
      case Some(text) => text
  }

  /**
   * `fetchDeviceInfo`: a total function, since the Java method catches every
   * exception. The device page is fetched with `getDocumentWithRetry`,
   * specified by `Attempts`.
   */
  function FetchDeviceInfo(net: Network<Page>, deviceName: string, deviceUrl: string): (info: DeviceInfo)
    ensures info.model == deviceName
    ensures Attempts(net, BASE_URL + deviceUrl, AgentFor, 0).Document?
            ==> info.name == FetchSeparateDevice(Attempts(net, BASE_URL + deviceUrl, AgentFor, 0).doc)
    ensures !Attempts(net, BASE_URL + deviceUrl, AgentFor, 0).Document?
            ==> ERROR_PREFIX <= info.name
  {
    var name :=
      match Attempts(net, BASE_URL + deviceUrl, AgentFor, 0)
      case Document(page) => FetchSeparateDevice(page)
      case Null => UNABLE_TO_FETCH
      case Thrown(message) => ERROR_PREFIX + message;
    DeviceInfo(deviceName, name)
  }

  /** A device page that fails with an I/O error on every attempt yields the fixed error name. */
  lemma DeviceInfoWhenAllAttemptsFail(net: Network<Page>, deviceName: string, deviceUrl: string)
    requires forall i :: 0 <= i < MAX_RETRIES ==> net(BASE_URL + deviceUrl, i, AgentFor(i)).IoFailure?
    ensures FetchDeviceInfo(net, deviceName, deviceUrl) == DeviceInfo(deviceName, UNABLE_TO_FETCH)
  {
    AttemptsNullIff(net, BASE_URL + deviceUrl, AgentFor, 0);
  }

  /** The record of every device link, in link order. */
  function DeviceRecords(net: Network<Page>, links: seq<Link>): (records: seq<DeviceInfo>)
    ensures |records| == |links|
    ensures forall i :: 0 <= i < |links| ==> records[i].model == links[i].text
    ensures forall i :: 0 <= i < |links| ==> records[i] == FetchDeviceInfo(net, links[i].text, links[i].href)
  {
    if links == [] then []
    else
      var l := links[|links| - 1];
      DeviceRecords(net, links[..|links| - 1]) + [FetchDeviceInfo(net, l.text, l.href)]
  }

  /** What `fetchAllDevices(url)` collects, up to order, or the exception it throws. */
  function DeviceList(net: Network<Page>, url: string): Result<seq<DeviceInfo>>
  {
    match Attempts(net, BASE_URL + url, AgentFor, 0)
    case Thrown(message) => Failure(message)
    case Null => Success([])
    case Document(page) => Success(DeviceRecords(net, page.vendorLinks))
  }

  /** The model names of some records, in order. */
  function Models(records: seq<DeviceInfo>): seq<string>
  {
    if records == [] then [] else Models(records[..|records| - 1]) + [records[|records| - 1].model]
  }

  /** The texts of some links, in order. */
  function Texts(links: seq<Link>): seq<string>
  {
    if links == [] then [] else Texts(links[..|links| - 1]) + [links[|links| - 1].text]
  }

  lemma {:induction false} ModelsAppend(a: seq<DeviceInfo>, b: seq<DeviceInfo>)
    ensures Models(a + b) == Models(a) + Models(b)
    decreases |b|
  {
    if b == [] {
      assert a + b == a;
    } else {
      var b' := b[..|b| - 1];
      assert (a + b)[..|a + b| - 1] == a + b';
      assert (a + b)[|a + b| - 1] == b[|b| - 1];
      ModelsAppend(a, b');
    }
  }

  /** Records that are a permutation of each other carry the same model names, counted with repetition. */
  lemma {:induction false} ModelsPermutation(a: seq<DeviceInfo>, b: seq<DeviceInfo>)
    requires multiset(a) == multiset(b)
    ensures multiset(Models(a)) == multiset(Models(b))
    decreases |a|
  {
    if a == [] {
      assert |b| == |multiset(b)| == 0;
    } else {
      var a' := a[..|a| - 1];
      var x := a[|a| - 1];
      assert a == a' + [x];
      assert x in multiset(b);
      var k :| 0 <= k < |b| && b[k] == x;
      var b' := b[..k] + b[k + 1..];
      assert b == b[..k] + [x] + b[k + 1..];
      assert multiset(a) == multiset(a') + multiset{x};
      assert multiset(b) == multiset(b[..k]) + multiset{x} + multiset(b[k + 1..]);
      assert multiset(b') == multiset(b[..k]) + multiset(b[k + 1..]);
      assert multiset(a') == multiset(a) - multiset{x};
      assert multiset(b') == multiset(b) - multiset{x};
      ModelsPermutation(a', b');
      ModelsAppend(b[..k], [x]);
      ModelsAppend(b[..k] + [x], b[k + 1..]);
      ModelsAppend(b[..k], b[k + 1..]);
      assert Models([x]) == [x.model] by {
        assert [x][..0] == [];
      }
    }
  }

  /** One record per device link: the records' model names are the links' texts. */
  lemma {:induction false} RecordModelsAreLinkTexts(net: Network<Page>, links: seq<Link>)
    ensures Models(DeviceRecords(net, links)) == Texts(links)
  {
    if links != [] {
      var init := links[..|links| - 1];
      var l := links[|links| - 1];
      RecordModelsAreLinkTexts(net, init);
      var records := DeviceRecords(net, links);
      assert records == DeviceRecords(net, init) + [FetchDeviceInfo(net, l.text, l.href)];
      assert records[..|records| - 1] == DeviceRecords(net, init);
    }
  }

  /**
   * The collecting loop of `fetchAllDevices`: `take()` the `submittedTasks`
   * results of `finished`, each time whichever task completed first.
   */
  method CollectCompleted(finished: seq<DeviceInfo>, submittedTasks: nat) returns (resultList: seq<DeviceInfo>)
    requires submittedTasks == |finished|
    ensures multiset(resultList) == multiset(finished)
  {
    var pending := finished;
    resultList := [];
    for i := 0 to submittedTasks
      invariant |pending| == submittedTasks - i
      invariant multiset(resultList) + multiset(pending) == multiset(finished)
    {
      var k :| 0 <= k < |pending|;
      assert pending == pending[..k] + [pending[k]] + pending[k + 1..];
      resultList := resultList + [pending[k]];
      pending := pending[..k] + pending[k + 1..];
    }
  }

  /**
   * `fetchAllDevices(url)`. The device tasks run concurrently and their
   * results are taken in completion order: each `take()` below may pick any
   * finished task, so only the multiset of records is determined.
   */
  method FetchAllDevices(net: Network<Page>, url: string) returns (r: Result<seq<DeviceInfo>>)
    ensures r.Failure? <==> DeviceList(net, url).Failure?
    ensures r.Failure? ==> r == DeviceList(net, url)
    ensures r.Success? ==> multiset(r.value) == multiset(DeviceList(net, url).value)
    ensures r.Success? ==> multiset(Models(r.value)) == multiset(Texts(DeviceListLinks(net, url)))
    ensures Attempts(net, BASE_URL + url, AgentFor, 0).Null? ==> r == Success([])
  {
    var doc;
    ghost var agents, waits;
    doc, agents, waits := GetDocumentWithRetry(net, BASE_URL + url);
    if doc.Thrown? {
      // not an IOException: it escapes getDocumentWithRetry and this method
      return Failure(doc.message);
    }
    if doc.Null? {
      return Success([]);
    }
    var links := doc.doc.vendorLinks;

    // submit one task per device link; `finished` holds the results not yet taken
    var finished: seq<DeviceInfo> := [];
    var submittedTasks := 0;
    for i := 0 to |links|
      invariant submittedTasks == i
      invariant finished == DeviceRecords(net, links[..i])
    {
      assert links[..i + 1][..i] == links[..i];
      finished := finished + [FetchDeviceInfo(net, links[i].text, links[i].href)];
      submittedTasks := submittedTasks + 1;
    }
    assert links[..|links|] == links;

    // take every result as it completes
    var resultList := CollectCompleted(finished, submittedTasks);
    r := Success(resultList);
    ModelsPermutation(resultList, DeviceRecords(net, links));
    RecordModelsAreLinkTexts(net, links);
  }

  /** The device links of the listing `fetchAllDevices(url)` works on (none when it is not fetched). */
  function DeviceListLinks(net: Network<Page>, url: string): seq<Link>
  {
    match Attempts(net, BASE_URL + url, AgentFor, 0)
    case Document(page) => page.vendorLinks
    case _ => []
  }
}
