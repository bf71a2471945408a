/** The clients' `fetchWithRetry` helpers. script.js and public/1to1.js share one
    policy (Strict: only a 2xx answer resolves, every failure is retried, the
    last error is rethrown); public/2chairs.js has another (Lenient: any answer
    below 500 resolves, 5xx answers and thrown errors are retried, one extra
    attempt). The waiting itself is left out; each wait is kept as its delay. */
module Transport {
  import opened Wire

  const MAX_RETRIES: int := 3
  const RETRY_DELAY: int := 1000

  /** The outcome of attempt `k`; attempts past the end of `net` throw. */
  function AttemptAt(net: seq<Attempt>, k: nat): Attempt {
    if k < |net| then net[k] else Thrown
  }

  /** `response.ok`. */
  predicate IsOk(a: Attempt) {
    a.Answered? && 200 <= a.status <= 299
  }

  /** What public/2chairs.js retries: a thrown error or a 5xx answer. */
  predicate Retryable(a: Attempt) {
    a.Thrown? || (a.Answered? && a.status >= 500)
  }

  /** The index of the first of the attempts 0 .. n-1 satisfying `p`, or `n`. */
  function FirstWhere(net: seq<Attempt>, n: nat, p: Attempt -> bool): (k: nat)
    ensures k <= n
    ensures forall j :: 0 <= j < k ==> !p(AttemptAt(net, j))
    ensures k < n ==> p(AttemptAt(net, k))
  {
    if n == 0 then 0
    else
      var k := FirstWhere(net, n - 1, p);
      if k < n - 1 then k else if p(AttemptAt(net, n - 1)) then n - 1 else n
  }

  /** FirstWhere is the index `i` when attempts before `i` fail `p` and attempt `i` (if any) meets it. */
  lemma FirstWhereIs(net: seq<Attempt>, n: nat, p: Attempt -> bool, i: nat)
    requires i <= n
    requires forall j :: 0 <= j < i ==> !p(AttemptAt(net, j))
    requires i < n ==> p(AttemptAt(net, i))
    ensures FirstWhere(net, n, p) == i
  {
  }

  /** The delays waited before attempts 2 .. n+1: `RETRY_DELAY * (i + 1)` after failed attempt i. */
  function Backoff(n: nat): seq<int> {
    seq(n, i => RETRY_DELAY * (i + 1))
  }

  datatype Failure = NetworkFailure | HttpFailure(status: int)

  /** How the helper's promise settles; `NoResponse` is the `undefined` that the
      loop falls through to when it makes no attempt at all. */
  datatype Settled = Resolved(status: int, body: Body) | Rejected(failure: Failure) | NoResponse

  /** A settled call, the number of attempts (requests) it made and the waits between them. */
  datatype Fetch = Fetch(settled: Settled, attempts: nat, waits: seq<int>)

  /** The call resolved and `await r.json()` gives an object, whose fields the pages then read. */
  predicate JsonAnswer(f: Fetch) {
    f.settled.Resolved? && f.settled.body.Json?
  }

  /** The error an attempt raises under the strict policy: the fetch error, or `HTTP <status>`. */
  function FailureOf(a: Attempt): Failure {
    if a.Thrown? then NetworkFailure else HttpFailure(a.status)
  }

  /** `fetchWithRetry` of script.js and public/1to1.js. */
  function Strict(net: seq<Attempt>, retries: int): (f: Fetch)
    ensures f.settled.NoResponse? <==> retries <= 0
    ensures retries <= 0 ==> f.attempts == 0
    ensures retries > 0 ==> 1 <= f.attempts <= retries && f.waits == Backoff(f.attempts - 1)
    ensures forall j :: 0 <= j < f.attempts - 1 ==> !IsOk(AttemptAt(net, j))
    ensures f.settled.Resolved? ==>
      IsOk(AttemptAt(net, f.attempts - 1)) && AttemptAt(net, f.attempts - 1) == Answered(f.settled.status, f.settled.body)
    ensures f.settled.Rejected? ==>
      f.attempts == retries && !IsOk(AttemptAt(net, retries - 1))
      && f.settled.failure == FailureOf(AttemptAt(net, retries - 1))
  {
    if retries <= 0 then Fetch(NoResponse, 0, [])
    else
      var k := FirstWhere(net, retries, IsOk);
      if k < retries then
        var a := AttemptAt(net, k);
        Fetch(Resolved(a.status, a.body), k + 1, Backoff(k))
      else
        Fetch(Rejected(FailureOf(AttemptAt(net, retries - 1))), retries, Backoff(retries - 1))
  }

  /** `fetchWithRetry` of public/2chairs.js. */
  function Lenient(net: seq<Attempt>, retries: int): (f: Fetch)
    ensures f.settled.NoResponse? <==> retries < 0
    ensures retries < 0 ==> f.attempts == 0
    ensures retries >= 0 ==> 1 <= f.attempts <= retries + 1 && f.waits == Backoff(f.attempts - 1)
    ensures forall j :: 0 <= j < f.attempts - 1 ==> Retryable(AttemptAt(net, j))
    ensures f.settled.Resolved? ==> AttemptAt(net, f.attempts - 1) == Answered(f.settled.status, f.settled.body)
    ensures f.settled.Resolved? && f.settled.status >= 500 ==> f.attempts == retries + 1
    ensures f.settled.Rejected? ==>
      f.attempts == retries + 1 && AttemptAt(net, retries).Thrown? && f.settled.failure == NetworkFailure
  {
    if retries < 0 then Fetch(NoResponse, 0, [])
    else
      var k := FirstWhere(net, retries + 1, a => !Retryable(a));
      if k <= retries then
        var a := AttemptAt(net, k);
        Fetch(Resolved(a.status, a.body), k + 1, Backoff(k))
      else
        var last := AttemptAt(net, retries);
        var settled := if last.Answered? then Resolved(last.status, last.body) else Rejected(NetworkFailure);
        Fetch(settled, retries + 1, Backoff(retries))
  }

  /** The loop of script.js:397-411 (and public/1to1.js:106-111). */
  method FetchStrict(net: seq<Attempt>, retries: int) returns (f: Fetch)
    ensures f == Strict(net, retries)
  {
    var waits: seq<int> := [];
    var i := 0;
    while i < retries
      invariant 0 <= i && (retries > 0 ==> i < retries) && (retries <= 0 ==> i == 0)
      invariant waits == Backoff(i)
      invariant forall j :: 0 <= j < i ==> !IsOk(AttemptAt(net, j))
    {
      var a := AttemptAt(net, i);
      if IsOk(a) {
        FirstWhereIs(net, retries, IsOk, i);
        return Fetch(Resolved(a.status, a.body), i + 1, waits);
      }
      if i == retries - 1 {
        FirstWhereIs(net, retries, IsOk, retries);
        return Fetch(Rejected(FailureOf(a)), i + 1, waits);
      }
      waits := waits + [RETRY_DELAY * (i + 1)];
      i := i + 1;
    }
    return Fetch(NoResponse, i, waits);
  }

  /** The loop of public/2chairs.js:59-77. */
  method FetchLenient(net: seq<Attempt>, retries: int) returns (f: Fetch)
    ensures f == Lenient(net, retries)
  {
    ghost var settles := (a: Attempt) => !Retryable(a);
    var waits: seq<int> := [];
    var i := 0;
    while i <= retries
      invariant 0 <= i && (retries >= 0 ==> i <= retries) && (retries < 0 ==> i == 0)
      invariant waits == Backoff(i)
      invariant forall j :: 0 <= j < i ==> Retryable(AttemptAt(net, j))
    {
      var a := AttemptAt(net, i);
      if a.Answered? && 200 <= a.status <= 299 {
        FirstWhereIs(net, retries + 1, settles, i);
        return Fetch(Resolved(a.status, a.body), i + 1, waits);
      }
      if a.Answered? && a.status >= 500 && i < retries {
        waits := waits + [RETRY_DELAY * (i + 1)];
        i := i + 1;
        continue;
      }
      if a.Answered? {
        if a.status < 500 {
          FirstWhereIs(net, retries + 1, settles, i);
        } else {
          FirstWhereIs(net, retries + 1, settles, retries + 1);
        }
        return Fetch(Resolved(a.status, a.body), i + 1, waits);
      }
      if i < retries {
        waits := waits + [RETRY_DELAY * (i + 1)];
        i := i + 1;
        continue;
      }
      FirstWhereIs(net, retries + 1, settles, retries + 1);
      return Fetch(Rejected(NetworkFailure), i + 1, waits);
    }
    return Fetch(NoResponse, i, waits);
  }
}
