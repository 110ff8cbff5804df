/**
 * The pagination loop of main: pages 1, 2, ... until a short page, with one
 * token refresh and one retry of the same page after a 401, a 60-second pause
 * and another try of the same page after a 429, and a fatal stop on anything
 * else. The network is an input: `fetches[k]` answers the k-th call of
 * fetchActivitiesPage and `refreshes[j]` the j-th refresh grant. When those run
 * out before the loop stops, the run is reported as `Unfinished`.
 */
module Driver {
  import opened Wrappers
  import opened Helpers
  import opened Fetcher
  import opened Tokens

  /** The pause main takes after a 429 before asking for the same page again. */
  const RateLimitPause: int := 60 * Second

  /**
   * One call of fetchActivitiesPage: the page asked for, the access token sent,
   * whether it is the retry that follows a refresh, how many refreshes came
   * before it, and what the call did.
   */
  datatype Call = Call(page: nat, token: string, retry: bool, refreshes: nat, run: FetchRun)

  function Status(c: Call): int { c.run.result.status }

  function Items(c: Call): seq<Activity> { c.run.result.items }

  predicate Ok(c: Call) { Status(c) == 200 }

  /** A 200 page that is not short: the loop goes on to the next page. */
  predicate FullPage(c: Call) { Ok(c) && |Items(c)| >= PerPage }

  /** Whether the loop makes another call after c. */
  predicate GoesOn(c: Call) {
    FullPage(c) || (!c.retry && (Status(c) == 429 || Status(c) == 401))
  }

  /** n is the call the loop makes right after c. */
  predicate Follows(c: Call, n: Call) {
    && GoesOn(c)
    && n.page == (if Ok(c) then c.page + 1 else c.page)
    && (n.retry <==> Status(c) == 401)
    && n.refreshes == (if n.retry then c.refreshes + 1 else c.refreshes)
  }

  /** Call k + 1 of calls follows call k. */
  ghost predicate FollowsAt(calls: seq<Call>, k: nat)
    requires k + 1 < |calls|
  {
    Follows(calls[k], calls[k + 1])
  }

  /** The calls of one run, in order, as the loop makes them. */
  ghost predicate IsTrace(calls: seq<Call>) {
    && (calls != [] ==> calls[0].page == 1 && !calls[0].retry && calls[0].refreshes == 0)
    && forall k: nat :: k + 1 < |calls| ==> FollowsAt(calls, k)
  }

  /** The tokens in use after n refresh grants: those of the latest successful one, else the starting pair. */
  function TokensAfter(cfg: Config, start: Tokens, refreshes: seq<RefreshAnswer>, n: nat): Tokens
    requires n <= |refreshes|
  {
    if n == 0 then start
    else match RefreshAccessToken(cfg, refreshes[n - 1])
      case Success(t) => t
      case Failure(_) => TokensAfter(cfg, start, refreshes, n - 1)
  }

  /**
   * Call k of calls is answered by entry k of fetches and carries the token then
   * in use; a retry comes only after a refresh that succeeded.
   */
  ghost predicate AnsweredAt(calls: seq<Call>, k: nat, cfg: Config, start: Tokens, fetches: seq<Answers>, refreshes: seq<RefreshAnswer>)
    requires k < |calls| <= |fetches|
  {
    && calls[k].run == Fetch(fetches[k])
    && calls[k].refreshes <= |refreshes|
    && calls[k].token == TokensAfter(cfg, start, refreshes, calls[k].refreshes).access
    && (calls[k].retry ==> 0 < calls[k].refreshes && RefreshAccessToken(cfg, refreshes[calls[k].refreshes - 1]).Success?)
  }

  /** Each call is answered by its own entry of fetches and carries the token then in use. */
  ghost predicate Answered(calls: seq<Call>, cfg: Config, start: Tokens, fetches: seq<Answers>, refreshes: seq<RefreshAnswer>) {
    && |calls| <= |fetches|
    && forall k: nat :: k < |calls| ==> AnsweredAt(calls, k, cfg, start, fetches, refreshes)
  }

  /** The items of the 200 calls, in call order. */
  function OkItems(calls: seq<Call>): seq<Activity> {
    if calls == [] then []
    else OkItems(calls[..|calls| - 1]) + (if Ok(calls[|calls| - 1]) then Items(calls[|calls| - 1]) else [])
  }

  /** The number of 200 calls. */
  function OkCount(calls: seq<Call>): nat {
    if calls == [] then 0
    else OkCount(calls[..|calls| - 1]) + (if Ok(calls[|calls| - 1]) then 1 else 0)
  }

  /** The number of 401 answers to first tries of a page. */
  function Unauthorized(calls: seq<Call>): nat {
    if calls == [] then 0
    else Unauthorized(calls[..|calls| - 1])
         + (if Status(calls[|calls| - 1]) == 401 && !calls[|calls| - 1].retry then 1 else 0)
  }

  /** The sleeps of a call: its own backoffs, then the pause when a first try met a 429. */
  function CallSleeps(c: Call): seq<int> {
    c.run.sleeps + (if Status(c) == 429 && !c.retry then [RateLimitPause] else [])
  }

  function Sleeps(calls: seq<Call>): seq<int> {
    if calls == [] then [] else Sleeps(calls[..|calls| - 1]) + CallSleeps(calls[|calls| - 1])
  }

  /** Why a run stopped without its activities (each one a logger.Fatalf of main). */
  datatype Fatal =
    | EnsureFailed(err: AuthError)      // no working token to start with
    | RefreshFailed(err: AuthError)     // the refresh after a 401 failed
    | RetryFailed(status: int)          // the retry after the refresh was not a 200
    | UnexpectedStatus(status: int)     // any other status, 0 included

  datatype End = Done | Failed(reason: Fatal) | Unfinished

  /**
   * How a run can have ended after its last call c: out of fetch answers or
   * not, with `refreshed` refresh grants used. The run is unfinished only when
   * the loop would go on and the answer it needs next is missing: the refresh
   * after a 401, or the fetch of the retry once that refresh succeeded, or the
   * fetch of the next first try.
   */
  ghost predicate EndsAfter(end: End, c: Call, outOfFetches: bool, refreshed: nat, cfg: Config, refreshes: seq<RefreshAnswer>) {
    match end
    case Done => Ok(c) && |Items(c)| < PerPage
    case Unfinished =>
      && GoesOn(c)
      && (if !c.retry && Status(c) == 401 then
            || c.refreshes == refreshed == |refreshes|
            || (&& outOfFetches && refreshed == c.refreshes + 1 <= |refreshes|
                && RefreshAccessToken(cfg, refreshes[refreshed - 1]).Success?)
          else outOfFetches)
    case Failed(UnexpectedStatus(s)) => !c.retry && Status(c) == s && s !in {200, 401, 429}
    case Failed(RetryFailed(s)) => c.retry && Status(c) == s && s != 200
    case Failed(RefreshFailed(e)) =>
      && !c.retry && Status(c) == 401
      && 0 < refreshed <= |refreshes|
      && RefreshAccessToken(cfg, refreshes[refreshed - 1]) == Failure(e)
    case Failed(EnsureFailed(_)) => false
  }

  /** How a run that made the given calls and refresh grants can have ended. */
  ghost predicate Concludes(end: End, calls: seq<Call>, refreshed: nat, cfg: Config,
                            fetches: seq<Answers>, refreshes: seq<RefreshAnswer>)
  {
    if calls == [] then end == Unfinished && fetches == []
    else EndsAfter(end, calls[|calls| - 1], |calls| == |fetches|, refreshed, cfg, refreshes)
  }

  /** The variables of main's loop, with the calls made so far. */
  datatype Progress = Progress(calls: seq<Call>, page: nat, tokens: Tokens, refreshed: nat,
                               all: seq<Activity>, sleeps: seq<int>)

  /** What holds of the loop's variables between two statements of its body. */
  ghost predicate Accounted(p: Progress, cfg: Config, start: Tokens, fetches: seq<Answers>, refreshes: seq<RefreshAnswer>) {
    && Traced(p.calls, cfg, start, fetches, refreshes)
    && p.refreshed <= |refreshes|
    && p.tokens == TokensAfter(cfg, start, refreshes, p.refreshed)
    && p.sleeps == Sleeps(p.calls)
  }

  ghost predicate Traced(calls: seq<Call>, cfg: Config, start: Tokens, fetches: seq<Answers>, refreshes: seq<RefreshAnswer>) {
    IsTrace(calls) && Answered(calls, cfg, start, fetches, refreshes)
  }

  /** The loop invariant: the next call is the first try of page p.page. */
  ghost predicate AtLoopHead(p: Progress, cfg: Config, start: Tokens, fetches: seq<Answers>, refreshes: seq<RefreshAnswer>) {
    && Accounted(p, cfg, start, fetches, refreshes)
    && p.all == OkItems(p.calls)
    && p.refreshed == Unauthorized(p.calls)
    && p.refreshed == (if p.calls == [] then 0 else p.calls[|p.calls| - 1].refreshes)
    && (p.calls == [] ==> p.page == 1)
    && (p.calls != [] ==>
          var c := p.calls[|p.calls| - 1];
          || (FullPage(c) && p.page == c.page + 1)
          || (!c.retry && Status(c) == 429 && p.page == c.page))
  }

  /** What holds when the loop stops with the given end. */
  ghost predicate Finished(end: End, p: Progress, cfg: Config, start: Tokens, fetches: seq<Answers>, refreshes: seq<RefreshAnswer>) {
    && Accounted(p, cfg, start, fetches, refreshes)
    && p.all == OkItems(p.calls)
    && Concludes(end, p.calls, p.refreshed, cfg, fetches, refreshes)
    && (|| p.refreshed == Unauthorized(p.calls)
        || (end == Unfinished && p.refreshed == |refreshes| && p.refreshed + 1 == Unauthorized(p.calls)))
  }

  /** main's loop over pages, from the token pair ensureAccessToken produced. */
  method FetchAllActivities(cfg: Config, start: Tokens, fetches: seq<Answers>, refreshes: seq<RefreshAnswer>)
    returns (end: End, all: seq<Activity>, tokens: Tokens, calls: seq<Call>, refreshed: nat, sleeps: seq<int>)
    ensures IsTrace(calls)
    ensures Answered(calls, cfg, start, fetches, refreshes)
    ensures Concludes(end, calls, refreshed, cfg, fetches, refreshes)
    ensures all == OkItems(calls)
    ensures sleeps == Sleeps(calls)
    ensures refreshed <= |refreshes|
    ensures refreshed == Unauthorized(calls)
            || (end == Unfinished && refreshed == |refreshes| && refreshed + 1 == Unauthorized(calls))
    ensures tokens == TokensAfter(cfg, start, refreshes, refreshed)
  {
    var p := Progress([], 1, start, 0, [], []);
    end := Unfinished;
    while |p.calls| < |fetches|
      invariant AtLoopHead(p, cfg, start, fetches, refreshes)
      decreases |fetches| - |p.calls|
    {
      var stop;
      stop, p := ServePage(cfg, start, fetches, refreshes, p);
      if stop.Some? {
        end := stop.value;
        break;
      }
    }
    all, tokens, calls, refreshed, sleeps := p.all, p.tokens, p.calls, p.refreshed, p.sleeps;
  }

  /** One pass of the loop's body: the first try of p.page and what its status calls for. */
  method ServePage(cfg: Config, start: Tokens, fetches: seq<Answers>, refreshes: seq<RefreshAnswer>, p: Progress)
    returns (stop: Option<End>, q: Progress)
    requires AtLoopHead(p, cfg, start, fetches, refreshes) && |p.calls| < |fetches|
    ensures |p.calls| < |q.calls| <= |p.calls| + 2 && q.calls[..|p.calls|] == p.calls
    ensures q.calls[|p.calls|].page == p.page && !q.calls[|p.calls|].retry
    ensures |q.calls| == |p.calls| + 2 ==> q.calls[|p.calls| + 1].retry
    ensures stop.None? ==> AtLoopHead(q, cfg, start, fetches, refreshes)
    ensures stop.Some? ==> Finished(stop.value, q, cfg, start, fetches, refreshes)
  {
    var call;
    q, call := FirstTry(cfg, start, fetches, refreshes, p);
    var pageActs, status := call.run.result.items, call.run.result.status;

    if status == 401 {
      stop, q, pageActs := Reauthorize(cfg, start, fetches, refreshes, q);
      if stop.Some? {
        return;
      }
    } else if status == 429 {
      RateLimitedAtHead(cfg, start, fetches, refreshes, p, call, q);
      q := q.(sleeps := q.sleeps + [RateLimitPause]);
      return None, q;
    } else if status != 200 {
      stop := Some(Failed(UnexpectedStatus(status)));
      UnexpectedFinishes(cfg, start, fetches, refreshes, p, call, q);
      return;
    }

    stop, q := TakePage(cfg, start, fetches, refreshes, q, pageActs);
  }

  /** After a 429 to the first try, the loop is back at its head for the same page, after the pause. */
  lemma RateLimitedAtHead(cfg: Config, start: Tokens, fetches: seq<Answers>, refreshes: seq<RefreshAnswer>,
                          p: Progress, call: Call, q: Progress)
    requires AtLoopHead(p, cfg, start, fetches, refreshes)
    requires call.page == p.page && call.token == p.tokens.access && !call.retry && call.refreshes == p.refreshed
    requires q == p.(calls := p.calls + [call], sleeps := p.sleeps + call.run.sleeps)
    requires q.calls[|q.calls| - 1] == call && Status(call) == 429
    requires IsTrace(q.calls) && Answered(q.calls, cfg, start, fetches, refreshes)
    requires Sleeps(q.calls) == q.sleeps + [RateLimitPause]
    requires OkItems(q.calls) == p.all && Unauthorized(q.calls) == p.refreshed
    ensures AtLoopHead(q.(sleeps := q.sleeps + [RateLimitPause]), cfg, start, fetches, refreshes)
  {
  }

  /** Any status but 200, 401 and 429 to the first try ends the run. */
  lemma UnexpectedFinishes(cfg: Config, start: Tokens, fetches: seq<Answers>, refreshes: seq<RefreshAnswer>,
                           p: Progress, call: Call, q: Progress)
    requires AtLoopHead(p, cfg, start, fetches, refreshes)
    requires !call.retry && call.refreshes == p.refreshed
    requires q == p.(calls := p.calls + [call], sleeps := p.sleeps + call.run.sleeps)
    requires q.calls[|q.calls| - 1] == call && Status(call) !in {200, 401, 429}
    requires IsTrace(q.calls) && Answered(q.calls, cfg, start, fetches, refreshes)
    requires Sleeps(q.calls) == q.sleeps
    requires OkItems(q.calls) == p.all && Unauthorized(q.calls) == p.refreshed
    ensures Finished(Failed(UnexpectedStatus(Status(call))), q, cfg, start, fetches, refreshes)
  {
    assert EndsAfter(Failed(UnexpectedStatus(Status(call))), call, |q.calls| == |fetches|, q.refreshed, cfg, refreshes);
  }

  /** The first try of p.page, with the access token in use; the call joins the trace. */
  method FirstTry(cfg: Config, start: Tokens, fetches: seq<Answers>, refreshes: seq<RefreshAnswer>, p: Progress)
    returns (q: Progress, call: Call)
    requires AtLoopHead(p, cfg, start, fetches, refreshes) && |p.calls| < |fetches|
    ensures call.page == p.page && call.token == p.tokens.access && !call.retry && call.refreshes == p.refreshed
    ensures call.run == Fetch(fetches[|p.calls|])
    ensures q == p.(calls := p.calls + [call], sleeps := p.sleeps + call.run.sleeps)
    ensures q.calls[|q.calls| - 1] == call
    ensures IsTrace(q.calls) && Answered(q.calls, cfg, start, fetches, refreshes)
    ensures Sleeps(q.calls) == q.sleeps + (if Status(call) == 429 then [RateLimitPause] else [])
    ensures OkItems(q.calls) == p.all + (if Ok(call) then Items(call) else [])
    ensures Unauthorized(q.calls) == p.refreshed + (if Status(call) == 401 then 1 else 0)
  {
    var run := FetchActivitiesPage(fetches[|p.calls|]);
    call := Call(p.page, p.tokens.access, false, p.refreshed, run);
    Extend(p.calls, call, cfg, start, fetches, refreshes);
    q := p.(calls := p.calls + [call], sleeps := p.sleeps + run.sleeps);
  }

  /** The end of the loop's body after a 200: keep the page, then stop on a short one. */
  method TakePage(cfg: Config, start: Tokens, fetches: seq<Answers>, refreshes: seq<RefreshAnswer>, p: Progress, pageActs: seq<Activity>)
    returns (stop: Option<End>, q: Progress)
    requires Accounted(p, cfg, start, fetches, refreshes) && p.calls != []
    requires var c := p.calls[|p.calls| - 1];
             Ok(c) && pageActs == Items(c) && p.page == c.page && p.refreshed == c.refreshes
    requires OkItems(p.calls) == p.all + pageActs && p.refreshed == Unauthorized(p.calls)
    ensures q.calls == p.calls
    ensures stop.None? ==> AtLoopHead(q, cfg, start, fetches, refreshes)
    ensures stop.Some? ==> stop == Some(Done) && Finished(Done, q, cfg, start, fetches, refreshes)
  {
    q := p.(all := p.all + pageActs);
    if |pageActs| < PerPage {
      return Some(Done), q;
    }
    q := q.(page := q.page + 1);
    stop := None;
  }

  /**
   * The 401 branch of the loop: one refresh with the configured credentials,
   * then the same page once more with the new access token.
   */
  method Reauthorize(cfg: Config, start: Tokens, fetches: seq<Answers>, refreshes: seq<RefreshAnswer>, p: Progress)
    returns (stop: Option<End>, q: Progress, pageActs: seq<Activity>)
    requires Accounted(p, cfg, start, fetches, refreshes)
    requires p.calls != [] && p.all == OkItems(p.calls)
    requires var c := p.calls[|p.calls| - 1];
             !c.retry && Status(c) == 401 && p.page == c.page && p.refreshed == c.refreshes
    requires p.refreshed + 1 == Unauthorized(p.calls)
    ensures |p.calls| <= |q.calls| <= |p.calls| + 1 && q.calls[..|p.calls|] == p.calls
    ensures |q.calls| == |p.calls| + 1 ==> q.calls[|p.calls|].retry
    ensures stop.Some? ==> Finished(stop.value, q, cfg, start, fetches, refreshes)
    ensures stop.None? ==>
              && Accounted(q, cfg, start, fetches, refreshes)
              && |q.calls| == |p.calls| + 1 && q.calls == p.calls + [q.calls[|p.calls|]]
              && q.calls[|p.calls|].retry && Ok(q.calls[|p.calls|]) && q.calls[|p.calls|].page == p.page
              && q.calls[|p.calls|].refreshes == q.refreshed
              && pageActs == Items(q.calls[|p.calls|])
              && q.refreshed == Unauthorized(q.calls)
              && q.page == p.page && q.all == p.all
  {
    q, pageActs := p, [];
    ghost var first := p.calls[|p.calls| - 1];
    if p.refreshed == |refreshes| {
      stop := Some(Unfinished);
      assert EndsAfter(stop.value, first, |q.calls| == |fetches|, q.refreshed, cfg, refreshes);
      return;
    }
    var refresh := RefreshAccessToken(cfg, refreshes[p.refreshed]);
    q := q.(refreshed := p.refreshed + 1);
    if refresh.Failure? {
      stop := Some(Failed(RefreshFailed(refresh.error)));
      assert EndsAfter(stop.value, first, |q.calls| == |fetches|, q.refreshed, cfg, refreshes);
      return;
    }
    q := q.(tokens := refresh.value);
    if |q.calls| == |fetches| {
      stop := Some(Unfinished);
      assert EndsAfter(stop.value, first, |q.calls| == |fetches|, q.refreshed, cfg, refreshes);
      return;
    }
    stop, q, pageActs := RetryPage(cfg, start, fetches, refreshes, q);
  }

  /** The retry of the same page with the refreshed access token; anything but a 200 is fatal. */
  method RetryPage(cfg: Config, start: Tokens, fetches: seq<Answers>, refreshes: seq<RefreshAnswer>, p: Progress)
    returns (stop: Option<End>, q: Progress, pageActs: seq<Activity>)
    requires Accounted(p, cfg, start, fetches, refreshes)
    requires p.calls != [] && |p.calls| < |fetches| && p.all == OkItems(p.calls)
    requires var c := p.calls[|p.calls| - 1];
             !c.retry && Status(c) == 401 && p.page == c.page && p.refreshed == c.refreshes + 1
    requires p.refreshed == Unauthorized(p.calls)
    requires 0 < p.refreshed <= |refreshes| && RefreshAccessToken(cfg, refreshes[p.refreshed - 1]).Success?
    ensures |q.calls| == |p.calls| + 1 && q.calls == p.calls + [q.calls[|p.calls|]]
    ensures q.calls[|p.calls|].retry && q.calls[|p.calls|].page == p.page
    ensures stop.Some? ==> Finished(stop.value, q, cfg, start, fetches, refreshes)
    ensures stop.None? ==>
              && Accounted(q, cfg, start, fetches, refreshes)
              && q.calls[|p.calls|].retry && Ok(q.calls[|p.calls|]) && q.calls[|p.calls|].page == p.page
              && q.calls[|p.calls|].refreshes == q.refreshed
              && pageActs == Items(q.calls[|p.calls|])
              && q.refreshed == Unauthorized(q.calls)
              && q.page == p.page && q.all == p.all
  {
    var run := FetchActivitiesPage(fetches[|p.calls|]);
    var call := Call(p.page, p.tokens.access, true, p.refreshed, run);
    Extend(p.calls, call, cfg, start, fetches, refreshes);
    q := p.(calls := p.calls + [call], sleeps := p.sleeps + run.sleeps);
    assert q.calls[|q.calls| - 1] == call;
    pageActs := run.result.items;
    if run.result.status != 200 {
      stop := Some(Failed(RetryFailed(run.result.status)));
      assert EndsAfter(stop.value, call, |q.calls| == |fetches|, q.refreshed, cfg, refreshes);
      return;
    }
    stop := None;
  }

  /** The running summaries of a trace, after one more call. */
  lemma {:induction false} Append(calls: seq<Call>, c: Call)
    ensures (calls + [c])[..|calls|] == calls
    ensures OkItems(calls + [c]) == OkItems(calls) + (if Ok(c) then Items(c) else [])
    ensures OkCount(calls + [c]) == OkCount(calls) + (if Ok(c) then 1 else 0)
    ensures Unauthorized(calls + [c]) == Unauthorized(calls) + (if Status(c) == 401 && !c.retry then 1 else 0)
    ensures Sleeps(calls + [c]) == Sleeps(calls) + CallSleeps(c)
  {
    assert (calls + [c])[..|calls|] == calls;
  }

  /** A call that follows the last one, answered by the next entry of fetches, extends a trace. */
  lemma {:induction false} Extend(calls: seq<Call>, c: Call, cfg: Config, start: Tokens, fetches: seq<Answers>, refreshes: seq<RefreshAnswer>)
    requires IsTrace(calls) && Answered(calls, cfg, start, fetches, refreshes)
    requires calls == [] ==> c.page == 1 && !c.retry && c.refreshes == 0
    requires calls != [] ==> Follows(calls[|calls| - 1], c)
    requires |calls| < |fetches| && c.run == Fetch(fetches[|calls|])
    requires c.refreshes <= |refreshes| && c.token == TokensAfter(cfg, start, refreshes, c.refreshes).access
    requires c.retry ==> 0 < c.refreshes && RefreshAccessToken(cfg, refreshes[c.refreshes - 1]).Success?
    ensures IsTrace(calls + [c]) && Answered(calls + [c], cfg, start, fetches, refreshes)
    ensures OkItems(calls + [c]) == OkItems(calls) + (if Ok(c) then Items(c) else [])
    ensures Unauthorized(calls + [c]) == Unauthorized(calls) + (if Status(c) == 401 && !c.retry then 1 else 0)
    ensures Sleeps(calls + [c]) == Sleeps(calls) + CallSleeps(c)
  {
    Append(calls, c);
    ExtendTrace(calls, c);
    ExtendAnswered(calls, c, cfg, start, fetches, refreshes);
  }

  lemma {:induction false} ExtendTrace(calls: seq<Call>, c: Call)
    requires IsTrace(calls)
    requires calls == [] ==> c.page == 1 && !c.retry && c.refreshes == 0
    requires calls != [] ==> Follows(calls[|calls| - 1], c)
    ensures IsTrace(calls + [c])
  {
    var t := calls + [c];
    forall k: nat | k + 1 < |t|
      ensures FollowsAt(t, k)
    {
      if k + 1 < |calls| {
        assert FollowsAt(calls, k);
        assert t[k] == calls[k] && t[k + 1] == calls[k + 1];
      } else {
        assert t[k] == calls[|calls| - 1] && t[k + 1] == c;
      }
    }
  }

  lemma {:induction false} ExtendAnswered(calls: seq<Call>, c: Call, cfg: Config, start: Tokens, fetches: seq<Answers>, refreshes: seq<RefreshAnswer>)
    requires Answered(calls, cfg, start, fetches, refreshes)
    requires |calls| < |fetches| && c.run == Fetch(fetches[|calls|])
    requires c.refreshes <= |refreshes| && c.token == TokensAfter(cfg, start, refreshes, c.refreshes).access
    requires c.retry ==> 0 < c.refreshes && RefreshAccessToken(cfg, refreshes[c.refreshes - 1]).Success?
    ensures Answered(calls + [c], cfg, start, fetches, refreshes)
  {
    var t := calls + [c];
    forall k: nat | k < |t|
      ensures AnsweredAt(t, k, cfg, start, fetches, refreshes)
    {
      if k < |calls| {
        assert AnsweredAt(calls, k, cfg, start, fetches, refreshes);
        assert t[k] == calls[k];
      } else {
        assert t[k] == c;
      }
    }
  }

  /** The k-th call asks for the page after the ones already served: pages are kept once each, in order. */
  lemma {:induction false} PageNumber(calls: seq<Call>, k: nat)
    requires IsTrace(calls) && k < |calls|
    ensures calls[k].page == 1 + OkCount(calls[..k])
  {
    if k > 0 {
      PageNumber(calls, k - 1);
      assert FollowsAt(calls, k - 1);
      assert calls[..k][..k - 1] == calls[..k - 1];
    }
  }

  lemma {:induction false} OkCountGrows(calls: seq<Call>, j: nat, k: nat)
    requires j <= k <= |calls|
    ensures OkCount(calls[..j]) <= OkCount(calls[..k])
    decreases k - j
  {
    if j < k {
      OkCountGrows(calls, j, k - 1);
      assert calls[..k][..k - 1] == calls[..k - 1];
    }
  }

  /** A page served with a 200 is never asked for again. */
  lemma OkPagesIncrease(calls: seq<Call>, j: nat, k: nat)
    requires IsTrace(calls) && j < k < |calls| && Ok(calls[j])
    ensures calls[j].page < calls[k].page
  {
    PageNumber(calls, j);
    PageNumber(calls, k);
    OkCountGrows(calls, j + 1, k);
    assert calls[..j + 1][..j] == calls[..j];
  }

  /** A 200 with fewer than PerPage items, an empty or unparsable page included, is the last call. */
  lemma ShortPageIsLast(calls: seq<Call>, k: nat)
    requires IsTrace(calls) && k < |calls| && Ok(calls[k]) && |Items(calls[k])| < PerPage
    ensures k == |calls| - 1
  {
    assert k + 1 < |calls| ==> FollowsAt(calls, k);
  }

  /** After a 429 to a first try the same page is asked for again, with the same token. */
  lemma RateLimitedRetriesSamePage(calls: seq<Call>, k: nat)
    requires IsTrace(calls) && k + 1 < |calls| && Status(calls[k]) == 429
    ensures calls[k + 1].page == calls[k].page
    ensures !calls[k + 1].retry && calls[k + 1].refreshes == calls[k].refreshes
    ensures OkItems(calls[..k + 1]) == OkItems(calls[..k])
  {
    assert FollowsAt(calls, k);
    assert calls[..k + 1][..k] == calls[..k];
  }

  /** After a 401 to a first try come one refresh and one retry of the same page. */
  lemma UnauthorizedRetriesOnce(calls: seq<Call>, k: nat)
    requires IsTrace(calls) && k + 1 < |calls| && Status(calls[k]) == 401 && !calls[k].retry
    ensures calls[k + 1].retry && calls[k + 1].page == calls[k].page
    ensures calls[k + 1].refreshes == calls[k].refreshes + 1
  {
    assert FollowsAt(calls, k);
  }

  /** Before the last call of a trace, every 200 was a full page. */
  lemma {:induction false} FullBeforeLast(calls: seq<Call>, k: nat)
    requires IsTrace(calls) && k + 1 < |calls| && Ok(calls[k])
    ensures FullPage(calls[k])
  {
    assert FollowsAt(calls, k);
  }

  /**
   * When every page holds at most PerPage activities, the items before the
   * last call come in whole pages: PerPage per 200.
   */
  lemma {:induction false} WholePages(calls: seq<Call>, k: nat)
    requires IsTrace(calls) && k < |calls|
    requires forall j :: 0 <= j < |calls| ==> |Items(calls[j])| <= PerPage
    ensures |OkItems(calls[..k])| == PerPage * OkCount(calls[..k])
  {
    if k > 0 {
      WholePages(calls, k - 1);
      assert calls[..k][..k - 1] == calls[..k - 1];
      if Ok(calls[k - 1]) {
        FullBeforeLast(calls, k - 1);
      }
    }
  }

  /**
   * A run that ends on a short page made one 200 call per PerPage activities
   * and one more: when the total is an exact multiple of PerPage, the last
   * page fetched is empty.
   */
  lemma PagesOfDoneRun(calls: seq<Call>, refreshed: nat, cfg: Config, fetches: seq<Answers>, refreshes: seq<RefreshAnswer>)
    requires IsTrace(calls) && Concludes(Done, calls, refreshed, cfg, fetches, refreshes)
    requires forall j :: 0 <= j < |calls| ==> |Items(calls[j])| <= PerPage
    ensures OkCount(calls) == |OkItems(calls)| / PerPage + 1
    ensures |OkItems(calls)| % PerPage == 0 ==> Items(calls[|calls| - 1]) == []
  {
    var n := |calls| - 1;
    WholePages(calls, n);
    assert calls[..n] == calls[..|calls| - 1];
    var r := |Items(calls[n])|;
    assert |OkItems(calls)| == PerPage * OkCount(calls[..n]) + r;
    assert OkCount(calls) == OkCount(calls[..n]) + 1;
  }

  /** Two 401s in a row: the second answered the retry, and the run stopped there as fatal. */
  lemma TwoUnauthorizedIsFatal(end: End, calls: seq<Call>, refreshed: nat, cfg: Config,
                               fetches: seq<Answers>, refreshes: seq<RefreshAnswer>, k: nat)
    requires IsTrace(calls) && Concludes(end, calls, refreshed, cfg, fetches, refreshes)
    requires k + 1 < |calls| && Status(calls[k]) == 401 && Status(calls[k + 1]) == 401
    ensures calls[k + 1].retry && k + 2 == |calls|
    ensures end == Failed(RetryFailed(401))
  {
    assert FollowsAt(calls, k);
    assert k + 2 < |calls| ==> FollowsAt(calls, k + 1);
  }

  /** A refresh after a first-try 401 that fails ends the run as fatal, whether or not fetch answers remain. */
  lemma FailedRefreshIsFatal(end: End, calls: seq<Call>, refreshed: nat, cfg: Config,
                             fetches: seq<Answers>, refreshes: seq<RefreshAnswer>)
    requires Concludes(end, calls, refreshed, cfg, fetches, refreshes) && calls != []
    requires var c := calls[|calls| - 1];
             && !c.retry && Status(c) == 401
             && refreshed == c.refreshes + 1 <= |refreshes|
             && RefreshAccessToken(cfg, refreshes[c.refreshes]).Failure?
    ensures end == Failed(RefreshFailed(RefreshAccessToken(cfg, refreshes[refreshed - 1]).error))
  {
  }

  /** Without a successful refresh grant the starting tokens stay in use. */
  lemma {:induction false} TokensKeptWithoutGrant(cfg: Config, start: Tokens, refreshes: seq<RefreshAnswer>, n: nat)
    requires n <= |refreshes|
    requires forall j :: 0 <= j < n ==> RefreshAccessToken(cfg, refreshes[j]).Failure?
    ensures TokensAfter(cfg, start, refreshes, n) == start
  {
    if n > 0 {
      TokensKeptWithoutGrant(cfg, start, refreshes, n - 1);
    }
  }
}
