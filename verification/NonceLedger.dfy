/** Single-use nonces that are forgotten after a while (nonceLedger.py). */
module Nonces {

  const NONCE_TTL_SECONDS := 120
  const MIN_DRIFT_SECONDS := 5
  const MAX_DRIFT_SECONDS := 60
  const MILLIS := 1000

  datatype NonceOutcome = NonceAccepted | TimestampExpired | FutureTimestamp | NonceReplay

  /** A key set with EX is gone once its expiry is reached. */
  predicate Alive(keys: map<string, int>, nonce: string, clockMs: int) {
    nonce in keys && clockMs < keys[nonce]
  }

  function VerifyTimestampWindow(timestamp: int, serverTime: int): NonceOutcome {
    if timestamp < serverTime - MIN_DRIFT_SECONDS then TimestampExpired
    else if timestamp > serverTime + MAX_DRIFT_SECONDS then FutureTimestamp
    else NonceAccepted
  }

  function NonceAnswer(
    keys: map<string, int>, nonce: string, timestamp: int, serverTime: int, clockMs: int): NonceOutcome
  {
    if VerifyTimestampWindow(timestamp, serverTime) != NonceAccepted then VerifyTimestampWindow(timestamp, serverTime)
    else if Alive(keys, nonce, clockMs) then NonceReplay
    else NonceAccepted
  }

  class NonceLedger {
    var keys: map<string, int>

    constructor ()
      ensures keys == map[]
    {
      keys := map[];
    }

    /** `serverTime` is the caller's clock in seconds, `clockMs` the one Redis expires keys by. */
    method ValidateAndRecordNonce(nonce: string, timestamp: int, serverTime: int, clockMs: int) returns (r: NonceOutcome)
      modifies this
      ensures r == NonceAnswer(old(keys), nonce, timestamp, serverTime, clockMs)
      ensures r == TimestampExpired <==> timestamp < serverTime - 5
      ensures r == FutureTimestamp <==> timestamp > serverTime + 60
      ensures r == NonceReplay <==>
        serverTime - 5 <= timestamp <= serverTime + 60 && nonce in old(keys) && clockMs < old(keys)[nonce]
      ensures keys == if r == NonceAccepted then old(keys)[nonce := clockMs + 120000] else old(keys)
    {
      if timestamp < serverTime - MIN_DRIFT_SECONDS {
        return TimestampExpired;
      }
      if timestamp > serverTime + MAX_DRIFT_SECONDS {
        return FutureTimestamp;
      }
      if nonce in keys && clockMs < keys[nonce] {
        return NonceReplay;
      }
      keys := keys[nonce := clockMs + NONCE_TTL_SECONDS * MILLIS];
      return NonceAccepted;
    }
  }

  // ---------------------------------------------------------------- request sequences

  datatype Request = Request(nonce: string, timestamp: int, clockMs: nat)

  /** The server's own clock, as `int(time.time())`. */
  function ServerTime(q: Request): int {
    q.clockMs / MILLIS
  }

  predicate Accepts(keys: map<string, int>, q: Request) {
    NonceAnswer(keys, q.nonce, q.timestamp, ServerTime(q), q.clockMs) == NonceAccepted
  }

  /** The keys after the first k requests, each kept for ttl seconds. */
  function KeysAfter(requests: seq<Request>, ttl: nat, k: nat): map<string, int>
    requires k <= |requests|
  {
    if k == 0 then map[]
    else
      var keys, q := KeysAfter(requests, ttl, k - 1), requests[k - 1];
      if Accepts(keys, q) then keys[q.nonce := q.clockMs + ttl * MILLIS] else keys
  }

  predicate Accepted(requests: seq<Request>, ttl: nat, i: nat)
    requires i < |requests|
  {
    Accepts(KeysAfter(requests, ttl, i), requests[i])
  }

  predicate ClockAdvances(requests: seq<Request>) {
    forall i, j :: 0 <= i < j < |requests| ==> requests[i].clockMs <= requests[j].clockMs
  }

  /** What a request sees: the window in seconds, and the key of an earlier acceptance until its millisecond. */
  lemma AcceptsInNumbers(keys: map<string, int>, q: Request)
    ensures Accepts(keys, q) <==>
            q.clockMs / 1000 - 5 <= q.timestamp <= q.clockMs / 1000 + 60 &&
            (q.nonce in keys ==> q.clockMs >= keys[q.nonce])
  {
  }

  /** An accepted nonce is remembered for at least its time to live. */
  lemma {:induction false} Remembered(requests: seq<Request>, ttl: nat, i: nat, k: nat)
    requires ClockAdvances(requests) && i < k <= |requests| && Accepted(requests, ttl, i)
    ensures var keys, q := KeysAfter(requests, ttl, k), requests[i];
            q.nonce in keys && keys[q.nonce] >= q.clockMs + ttl * MILLIS
  {
    if i + 1 < k {
      Remembered(requests, ttl, i, k - 1);
    }
  }

  /** Two acceptances of one nonce lie at least the time to live apart. */
  lemma AcceptancesApart(requests: seq<Request>, ttl: nat, i: nat, k: nat)
    requires ClockAdvances(requests) && i < k < |requests| && requests[i].nonce == requests[k].nonce
    requires Accepted(requests, ttl, i) && Accepted(requests, ttl, k)
    ensures requests[k].clockMs >= requests[i].clockMs + ttl * MILLIS
  {
    Remembered(requests, ttl, i, k);
  }

  /** No pair of nonce and timestamp is accepted twice, in any run. */
  ghost predicate ReplayProof(ttl: nat) {
    forall requests: seq<Request>, i: nat, k: nat ::
      ClockAdvances(requests) && 0 <= i < k < |requests| &&
      requests[i].nonce == requests[k].nonce && requests[i].timestamp == requests[k].timestamp ==>
      !(Accepted(requests, ttl, i) && Accepted(requests, ttl, k))
  }

  lemma WindowCloses(requests: seq<Request>, ttl: nat, i: nat, k: nat)
    requires ttl > MIN_DRIFT_SECONDS + MAX_DRIFT_SECONDS
    requires ClockAdvances(requests) && i < k < |requests|
    requires requests[i].nonce == requests[k].nonce && requests[i].timestamp == requests[k].timestamp
    ensures !(Accepted(requests, ttl, i) && Accepted(requests, ttl, k))
  {
    if Accepted(requests, ttl, i) && Accepted(requests, ttl, k) {
      AcceptancesApart(requests, ttl, i, k);
    }
  }

  /** A nonce kept no longer than the window is wide is accepted again just before the window closes. */
  lemma ShortMemoryReplays(ttl: nat)
    requires ttl <= MIN_DRIFT_SECONDS + MAX_DRIFT_SECONDS
    ensures !ReplayProof(ttl)
  {
    var requests := [Request("n", 60, 0), Request("n", 60, 65999)];
    assert ClockAdvances(requests);
    assert Accepted(requests, ttl, 0);
    assert KeysAfter(requests, ttl, 0) == map[];
    assert KeysAfter(requests, ttl, 1) == map["n" := ttl * MILLIS];
    assert Accepted(requests, ttl, 1);
  }

  /**
   * Forgetting nonces is safe exactly when they are kept longer than the timestamp window is wide, which
   * the ledger's 120 seconds are.
   */
  lemma ReplayProofExactly(ttl: nat)
    ensures ReplayProof(ttl) <==> ttl > 65
    ensures ReplayProof(120)
  {
    if ttl <= MIN_DRIFT_SECONDS + MAX_DRIFT_SECONDS {
      ShortMemoryReplays(ttl);
    } else {
      LongMemoryIsSafe(ttl);
    }
    LongMemoryIsSafe(NONCE_TTL_SECONDS);
  }

  lemma LongMemoryIsSafe(ttl: nat)
    requires ttl > MIN_DRIFT_SECONDS + MAX_DRIFT_SECONDS
    ensures ReplayProof(ttl)
  {
    forall requests: seq<Request>, i: nat, k: nat |
      ClockAdvances(requests) && 0 <= i < k < |requests| &&
      requests[i].nonce == requests[k].nonce && requests[i].timestamp == requests[k].timestamp
      ensures !(Accepted(requests, ttl, i) && Accepted(requests, ttl, k))
    {
      WindowCloses(requests, ttl, i, k);
    }
  }
}
