/**
 * Bounded retry of one page fetch, with user-agent rotation and a linearly
 * growing wait between attempts (`getDocumentWithRetry`), and the retry
 * schedule it shares with the brand catalog fetch.
 *
 * The network is an oracle: `net(url, i, agent)` is the outcome of attempt
 * number `i` (0-based) for `url`, sent with user agent `agent`. Waiting is not
 * modelled as time; the waits are returned as a ghost log.
 */
module Retry {

  const MAX_RETRIES: nat := 3
  /** Milliseconds. */
  const RETRY_DELAY: nat := 1000

  const CHROME_AGENT := "Mozilla/5.0 (Windows NT 10.0; Win64; x64) AppleWebKit/537.36 (KHTML, like Gecko) Chrome/124.0.0.0 Safari/537.36"
  const SAFARI_AGENT := "Mozilla/5.0 (Macintosh; Intel Mac OS X 10_15_7) AppleWebKit/605.1.15 (KHTML, like Gecko) Version/15.0 Safari/605.1.15"
  const ANDROID_AGENT := "Mozilla/5.0 (Linux; Android 13; SM-A536B) AppleWebKit/537.36 (KHTML, like Gecko) Chrome/112.0.0.0 Mobile Safari/537.36"
  const USER_AGENTS: seq<string> := [CHROME_AGENT, SAFARI_AGENT, ANDROID_AGENT]

  /**
   * The outcome of one request: a document, an `IOException` (retried), or
   * any other exception (not caught by the retry loops, so it escapes them).
   */
  datatype Fetch<D> = Fetched(doc: D) | IoFailure | Fault(message: string)

  /** What a retry loop ends with: a document, null after all attempts, or an escaped exception. */
  datatype Retrieved<D> = Document(doc: D) | Null | Thrown(message: string)

  type Network<D> = (string, nat, string) -> Fetch<D>

  /** The user agent of attempt `attempt`: `userAgents[attempt % userAgents.length]`. */
  function AgentFor(attempt: nat): (agent: string)
    ensures agent in USER_AGENTS
  {
    USER_AGENTS[attempt % |USER_AGENTS|]
  }

  /** The wait after failed attempt `attempt`: `RETRY_DELAY * (attempt + 1)`. */
  function Backoff(attempt: nat): nat
  {
    RETRY_DELAY * (attempt + 1)
  }

  /** The outcome that ends a retry loop at an attempt that did not fail with an I/O error. */
  function Decide<D>(f: Fetch<D>): (r: Retrieved<D>)
    requires !f.IoFailure?
    ensures r.Document? <==> f.Fetched?
    ensures f.Fetched? ==> r.doc == f.doc
    ensures f.Fault? ==> r == Thrown(f.message)
  {
    match f
    case Fetched(d) => Document(d)
    case Fault(m) => Thrown(m)
  }

  /**
   * Specification of a retry loop that sends attempt `i` with `agent(i)`, from
   * attempt `attempt` on: I/O failures are retried up to MAX_RETRIES attempts
   * in all, and the first other outcome decides.
   */
  function Attempts<D>(net: Network<D>, url: string, agent: nat -> string, attempt: nat): Retrieved<D>
    decreases MAX_RETRIES - attempt
  {
    if attempt >= MAX_RETRIES then Null
    else
      var f := net(url, attempt, agent(attempt));
      if f.IoFailure? then Attempts(net, url, agent, attempt + 1) else Decide(f)
  }

  /** A retry loop ends with null exactly when every remaining attempt fails with an I/O error. */
  lemma {:induction false} AttemptsNullIff<D>(net: Network<D>, url: string, agent: nat -> string, attempt: nat)
    ensures Attempts(net, url, agent, attempt).Null?
        <==> forall i :: attempt <= i < MAX_RETRIES ==> net(url, i, agent(i)).IoFailure?
    decreases MAX_RETRIES - attempt
  {
    if attempt < MAX_RETRIES {
      AttemptsNullIff(net, url, agent, attempt + 1);
    }
  }

  /** The first attempt that does not fail with an I/O error decides the outcome of a retry loop. */
  lemma {:induction false} AttemptsFirstDecides<D>(net: Network<D>, url: string, agent: nat -> string, attempt: nat, i: nat)
    requires attempt <= i < MAX_RETRIES
    requires forall j :: attempt <= j < i ==> net(url, j, agent(j)).IoFailure?
    requires !net(url, i, agent(i)).IoFailure?
    ensures Attempts(net, url, agent, attempt) == Decide(net(url, i, agent(i)))
    decreases i - attempt
  {
    if attempt < i {
      AttemptsFirstDecides(net, url, agent, attempt + 1, i);
    }
  }

  /**
   * `getDocumentWithRetry`. Besides the outcome, returns the agent used by
   * each attempt made and the wait taken after each failed attempt (ghost).
   */
  method GetDocumentWithRetry<D>(net: Network<D>, url: string)
    returns (r: Retrieved<D>, ghost agents: seq<string>, ghost waits: seq<nat>)
    ensures r == Attempts(net, url, AgentFor, 0)
    ensures 1 <= |agents| <= MAX_RETRIES
    ensures forall i :: 0 <= i < |agents| ==> agents[i] == USER_AGENTS[i % 3]
    ensures forall i :: 0 <= i < |agents| - 1 ==> net(url, i, agents[i]).IoFailure?
    ensures r == (var last := net(url, |agents| - 1, agents[|agents| - 1]);
                  if last.IoFailure? then Null else Decide(last))
    ensures r.Null? ==> |agents| == MAX_RETRIES
    ensures |waits| == |agents| - 1
    ensures forall i :: 0 <= i < |waits| ==> waits[i] == RETRY_DELAY * (i + 1)
    ensures forall i, j :: 0 <= i < j < |waits| ==> waits[i] < waits[j]
  {
    agents, waits := [], [];
    var attempt := 0;
    while attempt < MAX_RETRIES
      invariant attempt <= MAX_RETRIES
      invariant |agents| == attempt
      invariant forall i :: 0 <= i < attempt ==> agents[i] == AgentFor(i)
      invariant forall i :: 0 <= i < attempt ==> net(url, i, agents[i]).IoFailure?
      invariant |waits| == if attempt < MAX_RETRIES then attempt else MAX_RETRIES - 1
      invariant forall i :: 0 <= i < |waits| ==> waits[i] == Backoff(i)
      invariant Attempts(net, url, AgentFor, 0) == Attempts(net, url, AgentFor, attempt)
    {
      var agent := AgentFor(attempt);
      agents := agents + [agent];
      var outcome := net(url, attempt, agent);
      if !outcome.IoFailure? {
        // a document is returned; any exception other than an IOException escapes
        return Decide(outcome), agents, waits;
      }
      if attempt < MAX_RETRIES - 1 {
        waits := waits + [Backoff(attempt)];
      }
      attempt := attempt + 1;
    }
    r := Null;
  }
}
