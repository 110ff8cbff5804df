/**
 * main as a whole: a working token from ensureAccessToken, every page from the
 * loop, then the Desk Treadmill totals and the notice about a rotated refresh
 * token. Configuration loading, logging and the optional probe warning are
 * not part of this model.
 */
module App {
  import opened Wrappers
  import opened Fetcher
  import opened Tokens
  import opened DeskLabel
  import opened Aggregate
  import opened Driver

  /** What main logs once every page is in. */
  datatype Report = Report(deskCount: nat, totalMeters: real, rotated: bool)

  /** The refresh token now held is new: main asks for the stored secret to be updated. */
  predicate RotationNotice(cfg: Config, t: Tokens) {
    t.refresh != "" && t.refresh != cfg.refreshToken
  }

  /**
   * One run of main. `probe` and `firstGrant` answer ensureAccessToken's probe
   * and refresh; `fetches` and `refreshes` answer the loop, which used
   * `refreshed` of the latter.
   */
  method Run(cfg: Config, probe: ProbeAnswer, firstGrant: RefreshAnswer, fetches: seq<Answers>, refreshes: seq<RefreshAnswer>)
    returns (end: End, calls: seq<Call>, refreshed: nat, report: Option<Report>)
    ensures EnsureAccessToken(cfg, probe, firstGrant).result.Failure? ==>
              end == Failed(EnsureFailed(EnsureAccessToken(cfg, probe, firstGrant).result.error)) && calls == []
    ensures IsTrace(calls)
    ensures var e := EnsureAccessToken(cfg, probe, firstGrant).result;
            e.Success? ==>
              && Answered(calls, cfg, e.value, fetches, refreshes)
              && Concludes(end, calls, refreshed, cfg, fetches, refreshes)
              && refreshed <= |refreshes|
    ensures EnsureAccessToken(cfg, probe, firstGrant).result.Success? && calls != [] ==>
              calls[0].token == EnsureAccessToken(cfg, probe, firstGrant).result.value.access
    ensures report.Some? <==> end == Done
    ensures report.Some? ==>
              && report.value.deskCount == |Filter(OkItems(calls), IsDeskTreadmill)|
              && report.value.totalMeters == TotalDistance(Filter(OkItems(calls), IsDeskTreadmill))
              && refreshed == Unauthorized(calls)
    ensures var e := EnsureAccessToken(cfg, probe, firstGrant).result;
            e.Success? && report.Some? ==>
              report.value.rotated == RotationNotice(cfg, TokensAfter(cfg, e.value, refreshes, refreshed))
    ensures report.Some? && report.value.rotated ==>
              EnsureAccessToken(cfg, probe, firstGrant).refreshed || Unauthorized(calls) > 0
  {
    var ensured := EnsureAccessToken(cfg, probe, firstGrant);
    if ensured.result.Failure? {
      return Failed(EnsureFailed(ensured.result.error)), [], 0, None;
    }
    var start := ensured.result.value;
    var all, tokens, sleeps;
    end, all, tokens, calls, refreshed, sleeps := FetchAllActivities(cfg, start, fetches, refreshes);
    if calls != [] {
      assert AnsweredAt(calls, 0, cfg, start, fetches, refreshes);
    }
    if end != Done {
      return end, calls, refreshed, None;
    }
    var deskCount, totalMeters := Aggregate.Aggregate(all);
    report := Some(Report(deskCount, totalMeters, RotationNotice(cfg, tokens)));
  }
}
