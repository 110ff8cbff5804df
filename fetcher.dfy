/**
 * fetchActivitiesPage: one page of the athlete's activities, fetched with up to
 * MaxRetries attempts. What the network does on each attempt is an input (an
 * `Answers` oracle); the sleeps are recorded as the durations requested.
 */
module Fetcher {
  import opened Helpers

  /** Items requested per page (the per_page query parameter). */
  const PerPage: nat := 200
  /** Attempts per page. */
  const MaxRetries: nat := 3

  /** The fields of an activity the program decodes; distance is in meters. */
  datatype Activity = Activity(id: int, name: string, distance: real)

  /** What json.Unmarshal made of a 200 response's body. */
  datatype Decoded = Items(items: seq<Activity>) | Malformed

  /** What happened to one attempt. */
  datatype Attempt =
    | BuildError                                    // the request could not be built
    | TransportError                                // client.Do failed: no response
    | ReadError(status: int, rl: RateLimit)         // a response arrived but its body could not be read
    | Reply(status: int, rl: RateLimit, body: Decoded)

  /** The outcome the network would give to each of the attempts, in order. */
  type Answers = s: seq<Attempt> | |s| == MaxRetries
    witness [TransportError, TransportError, TransportError]

  /** The triple fetchActivitiesPage returns. */
  datatype PageResult = PageResult(items: seq<Activity>, status: int, rl: RateLimit)

  /** A page result together with the sleeps requested and the attempts made. */
  datatype FetchRun = FetchRun(result: PageResult, sleeps: seq<int>, attempts: nat)

  /** Attempts after which the loop sleeps and tries again. */
  predicate Retries(a: Attempt) {
    a.TransportError? || a.ReadError? || (a.Reply? && a.status == 429)
  }

  /** Attempts that produced a response, whose status and headers are remembered. */
  predicate Responded(a: Attempt) {
    a.ReadError? || a.Reply?
  }

  /** Index of the first attempt that ends the loop, or |s| when every one is retried. */
  function FirstSettled(s: seq<Attempt>): (k: nat)
    ensures k <= |s|
    ensures forall j :: 0 <= j < k ==> Retries(s[j])
    ensures k < |s| ==> !Retries(s[k])
  {
    if s == [] || !Retries(s[0]) then 0 else 1 + FirstSettled(s[1..])
  }

  /** Status of the last response among s, 0 when none arrived. */
  function LastStatus(s: seq<Attempt>): int
  {
    if s == [] then 0
    else if Responded(s[|s| - 1]) then s[|s| - 1].status
    else LastStatus(s[..|s| - 1])
  }

  /** Rate-limit headers of the last response among s, empty when none arrived. */
  function LastRateLimit(s: seq<Attempt>): RateLimit
  {
    if s == [] then NoRateLimit
    else if Responded(s[|s| - 1]) then s[|s| - 1].rl
    else LastRateLimit(s[..|s| - 1])
  }

  /** The page result of an attempt that ends the loop; rl is what earlier attempts left. */
  function Settle(a: Attempt, rl: RateLimit): PageResult
    requires !Retries(a)
  {
    if a.BuildError? then PageResult([], 0, rl)
    else if a.status == 200 && a.body.Items? then PageResult(a.body.items, 200, a.rl)
    else PageResult([], a.status, a.rl)
  }

  /**
   * The sleeps after retried attempts 1 to n: the i-th is backoff(i), the one
   * after the last attempt included, although no attempt follows it.
   */
  function Backoffs(n: nat): (ds: seq<int>)
    ensures |ds| == n
    ensures forall j :: 0 <= j < n ==> ds[j] == Backoff(j + 1)
  {
    if n == 0 then [] else Backoffs(n - 1) + [Backoff(n)]
  }

  /**
   * The attempt loop, stated at once: every attempt before the first settling one
   * is retried after its backoff; the settling one decides the result; when none
   * settles, the result is empty with the last status seen.
   */
  function Fetch(answers: Answers): (run: FetchRun)
    ensures 1 <= run.attempts <= MaxRetries
    ensures |run.sleeps| <= run.attempts
    ensures run.result.items != [] ==> run.result.status == 200
  {
    var k := FirstSettled(answers);
    if k == MaxRetries then
      FetchRun(PageResult([], LastStatus(answers), LastRateLimit(answers)), Backoffs(MaxRetries), MaxRetries)
    else
      FetchRun(Settle(answers[k], LastRateLimit(answers[..k])), Backoffs(k), k + 1)
  }

  /** fetchActivitiesPage's loop over attempts. */
  method FetchActivitiesPage(answers: Answers) returns (run: FetchRun)
    ensures run == Fetch(answers)
  {
    var lastStatus := 0;
    var lastRL := NoRateLimit;
    var sleeps: seq<int> := [];
    var attempt := 1;
    while attempt <= MaxRetries
      invariant 1 <= attempt <= MaxRetries + 1
      invariant FirstSettled(answers) >= attempt - 1
      invariant lastStatus == LastStatus(answers[..attempt - 1])
      invariant lastRL == LastRateLimit(answers[..attempt - 1])
      invariant sleeps == Backoffs(attempt - 1)
    {
      var a := answers[attempt - 1];
      assert answers[..attempt][..attempt - 1] == answers[..attempt - 1];
      assert !Retries(a) ==> FirstSettled(answers) == attempt - 1;
      assert answers[..attempt][attempt - 1] == a;
      assert LastStatus(answers[..attempt]) == if Responded(a) then a.status else lastStatus;
      assert LastRateLimit(answers[..attempt]) == if Responded(a) then a.rl else lastRL;
      assert Backoffs(attempt) == sleeps + [Backoff(attempt)];
      if a.BuildError? {
        return FetchRun(PageResult([], 0, lastRL), sleeps, attempt);
      }
      if a.TransportError? {
        sleeps := sleeps + [Backoff(attempt)];
        attempt := attempt + 1;
        continue;
      }
      lastStatus := a.status;
      lastRL := a.rl;
      if a.ReadError? {
        sleeps := sleeps + [Backoff(attempt)];
        attempt := attempt + 1;
        continue;
      }
      if a.status == 200 {
        if a.body.Malformed? {
          return FetchRun(PageResult([], a.status, lastRL), sleeps, attempt);
        }
        return FetchRun(PageResult(a.body.items, a.status, lastRL), sleeps, attempt);
      } else if a.status == 429 {
        sleeps := sleeps + [Backoff(attempt)];
        attempt := attempt + 1;
        continue;
      } else if a.status == 401 {
        return FetchRun(PageResult([], a.status, lastRL), sleeps, attempt);
      } else {
        return FetchRun(PageResult([], a.status, lastRL), sleeps, attempt);
      }
    }
    assert answers[..MaxRetries] == answers;
    run := FetchRun(PageResult([], lastStatus, lastRL), sleeps, MaxRetries);
  }

  function Sum(ds: seq<int>): int {
    if ds == [] then 0 else Sum(ds[..|ds| - 1]) + ds[|ds| - 1]
  }

  /** Retrying after attempts 1 to n (n <= 5, below the cap) sleeps 2^n - 1 seconds in all. */
  lemma {:induction false} SumBackoffs(n: nat)
    requires n <= 5
    ensures Sum(Backoffs(n)) == (Pow2(n) - 1) * Second
  {
    if n > 0 {
      SumBackoffs(n - 1);
      assert Backoffs(n)[..n - 1] == Backoffs(n - 1);
      BackoffCappedDoubling(n);
      Pow2Monotone(n - 1, 4);
    }
  }

  /** A page costs at most 1 + 2 + 4 seconds of backoff, each sleep between 1 and 4 seconds. */
  lemma FetchSleepBound(answers: Answers)
    ensures forall j :: 0 <= j < |Fetch(answers).sleeps| ==> Second <= Fetch(answers).sleeps[j] <= 4 * Second
    ensures Sum(Fetch(answers).sleeps) <= 7 * Second
  {
    var ds := Fetch(answers).sleeps;
    var k := |ds|;
    assert ds == Backoffs(k);
    forall j | 0 <= j < k
      ensures Second <= ds[j] <= 4 * Second
    {
      BackoffMonotone(j + 1, 3);
      BackoffCappedDoubling(j + 1);
      BackoffValues();
    }
    SumBackoffs(k);
    Pow2Monotone(k, 3);
  }

  /** When every attempt is retried, the page is empty and carries the last status seen. */
  lemma FetchExhausted(answers: Answers)
    requires forall j :: 0 <= j < MaxRetries ==> Retries(answers[j])
    ensures Fetch(answers).attempts == MaxRetries
    ensures Fetch(answers).sleeps == [Second, 2 * Second, 4 * Second]
    ensures Fetch(answers).result == PageResult([], LastStatus(answers), LastRateLimit(answers))
  {
    BackoffValues();
    var k := FirstSettled(answers);
    assert k == MaxRetries;
  }

  /** With no response among s there is no status and no rate-limit header to report. */
  lemma {:induction false} NothingSeen(s: seq<Attempt>)
    requires forall j :: 0 <= j < |s| ==> !Responded(s[j])
    ensures LastStatus(s) == 0 && LastRateLimit(s) == NoRateLimit
  {
    if s != [] {
      NothingSeen(s[..|s| - 1]);
    }
  }

  /** Three failed connections give status 0: no response was ever received. */
  lemma FetchNoResponse(answers: Answers)
    requires forall j :: 0 <= j < MaxRetries ==> answers[j].TransportError?
    ensures Fetch(answers).result == PageResult([], 0, NoRateLimit)
  {
    FetchExhausted(answers);
    NothingSeen(answers);
  }

  /** The first attempt that settles ends the loop at once, with no further sleep. */
  lemma FetchSettlesAt(answers: Answers, k: nat)
    requires k < MaxRetries && !Retries(answers[k])
    requires forall j :: 0 <= j < k ==> Retries(answers[j])
    ensures Fetch(answers).attempts == k + 1
    ensures Fetch(answers).sleeps == Backoffs(k)
    ensures answers[k].BuildError? ==>
              && Fetch(answers).result.status == 0 && Fetch(answers).result.items == []
              && Fetch(answers).result.rl == LastRateLimit(answers[..k])
    ensures answers[k].Reply? ==>
              Fetch(answers).result.status == answers[k].status && Fetch(answers).result.rl == answers[k].rl
    ensures answers[k].Reply? && answers[k].status == 200 && answers[k].body.Items? ==>
              Fetch(answers).result.items == answers[k].body.items
    ensures answers[k].Reply? && (answers[k].status != 200 || answers[k].body.Malformed?) ==>
              Fetch(answers).result.items == []
  {
    assert FirstSettled(answers) == k;
  }
}
