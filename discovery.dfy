/**
 * `fetchUnprocessedBrands`: fetch the brand catalog, with a retry loop of its
 * own (one fixed user agent, a constant wait), and keep the brands whose name
 * is not already processed.
 */
module Discovery {
  import opened Common
  import opened Pages
  import opened Retry

  const CATALOG_URL := BASE_URL + "/device-data/devices/"

  /** The catalog fetch sends every attempt with the same user agent. */
  function FixedAgent(attempt: nat): string
  {
    CHROME_AGENT
  }

  /**
   * The brand map the link loop builds: for each link in order whose text is
   * not in `processed`, `put(text, href)` (a later put on the same text overwrites).
   */
  function Unprocessed(links: seq<Link>, processed: seq<string>): map<string, string>
  {
    if links == [] then map[]
    else
      var m := Unprocessed(links[..|links| - 1], processed);
      var l := links[|links| - 1];
      if l.text in processed then m else m[l.text := l.href]
  }

  /** The keys are exactly the link texts that are not already processed. */
  lemma {:induction false} UnprocessedKeys(links: seq<Link>, processed: seq<string>)
    ensures Unprocessed(links, processed).Keys == set l | l in links && l.text !in processed :: l.text
  {
    if links != [] {
      var init := links[..|links| - 1];
      UnprocessedKeys(init, processed);
      assert links == init + [links[|links| - 1]];
    }
  }

  /** Each kept brand is mapped to the href of the LAST link carrying its name. */
  lemma {:induction false} UnprocessedLastWins(links: seq<Link>, processed: seq<string>, name: string)
    requires name in Unprocessed(links, processed)
    ensures name !in processed
    ensures exists j :: 0 <= j < |links| && links[j].text == name
                     && Unprocessed(links, processed)[name] == links[j].href
                     && forall k :: j < k < |links| ==> links[k].text != name
  {
    var init := links[..|links| - 1];
    var l := links[|links| - 1];
    if l.text == name && name !in processed {
      assert links[|links| - 1].text == name;
    } else {
      UnprocessedLastWins(init, processed, name);
      var j :| 0 <= j < |init| && init[j].text == name
               && Unprocessed(init, processed)[name] == init[j].href
               && forall k :: j < k < |init| ==> init[k].text != name;
      assert links[j] == init[j];
    }
  }

  /** What `fetchUnprocessedBrands` returns, or the message of the exception that escapes it. */
  function Discover(net: Network<Page>, processed: seq<string>): Result<map<string, string>>
  {
    match Attempts(net, CATALOG_URL, FixedAgent, 0)
    case Document(page) => Success(Unprocessed(page.manufacturerLinks, processed))
    case Null => Success(map[])
    case Thrown(m) => Failure(m)
  }

  /** When every attempt fails with an I/O error, the result is the empty map, not an error. */
  lemma AllAttemptsFailGiveNoBrands(net: Network<Page>, processed: seq<string>)
    requires forall i :: 0 <= i < MAX_RETRIES ==> net(CATALOG_URL, i, CHROME_AGENT).IoFailure?
    ensures Discover(net, processed) == Success(map[])
  {
    AttemptsNullIff(net, CATALOG_URL, FixedAgent, 0);
  }

  /** The catalog of the first attempt that succeeds is the one filtered. */
  lemma FirstCatalogDecides(net: Network<Page>, processed: seq<string>, i: nat, page: Page)
    requires i < MAX_RETRIES
    requires forall j :: 0 <= j < i ==> net(CATALOG_URL, j, CHROME_AGENT).IoFailure?
    requires net(CATALOG_URL, i, CHROME_AGENT) == Fetched(page)
    ensures Discover(net, processed) == Success(Unprocessed(page.manufacturerLinks, processed))
  {
    AttemptsFirstDecides(net, CATALOG_URL, FixedAgent, 0, i);
  }

  /**
   * `fetchUnprocessedBrands`. The ghost `waits` logs the wait after each
   * failed attempt but the last.
   */
  method FetchUnprocessedBrands(net: Network<Page>, alreadyProcessed: seq<string>)
    returns (r: Result<map<string, string>>, ghost waits: seq<nat>)
    ensures r == Discover(net, alreadyProcessed)
    ensures (forall i :: 0 <= i < MAX_RETRIES ==> net(CATALOG_URL, i, CHROME_AGENT).IoFailure?)
            ==> r == Success(map[]) && |waits| == MAX_RETRIES - 1
    ensures |waits| < MAX_RETRIES
    ensures forall i :: 0 <= i < |waits| ==> waits[i] == RETRY_DELAY
    ensures forall i :: 0 <= i < |waits| ==> net(CATALOG_URL, i, CHROME_AGENT).IoFailure?
    ensures |waits| < MAX_RETRIES - 1 ==> !net(CATALOG_URL, |waits|, CHROME_AGENT).IoFailure?
  {
    var brandMap: map<string, string> := map[];
    waits := [];
    var attempt := 0;
    while attempt < MAX_RETRIES
      invariant attempt <= MAX_RETRIES
      invariant brandMap == map[]
      invariant |waits| == if attempt < MAX_RETRIES then attempt else MAX_RETRIES - 1
      invariant forall i :: 0 <= i < |waits| ==> waits[i] == RETRY_DELAY
      invariant forall i :: 0 <= i < attempt ==> net(CATALOG_URL, i, CHROME_AGENT).IoFailure?
      invariant Attempts(net, CATALOG_URL, FixedAgent, 0) == Attempts(net, CATALOG_URL, FixedAgent, attempt)
    {
      var outcome := net(CATALOG_URL, attempt, CHROME_AGENT);
      if outcome.Fault? {
        // only IOException is caught: anything else escapes the method
        return Failure(outcome.message), waits;
      }
      if outcome.Fetched? {
        var links := outcome.doc.manufacturerLinks;
        for j := 0 to |links|
          invariant brandMap == Unprocessed(links[..j], alreadyProcessed)
        {
          assert links[..j + 1][..j] == links[..j];
          if links[j].text !in alreadyProcessed {
            brandMap := brandMap[links[j].text := links[j].href];
          }
        }
        assert links[..|links|] == links;
        break;
      }
      if attempt < MAX_RETRIES - 1 {
        waits := waits + [RETRY_DELAY];
      }
      attempt := attempt + 1;
    }
    if attempt == MAX_RETRIES {
      AttemptsNullIff(net, CATALOG_URL, FixedAgent, 0);
    }
    r := Success(brandMap);
  }
}
