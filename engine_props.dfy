/**
 * What the engine's transitions promise: bounded retries and the skip latch,
 * the unbounded fixtures retry, the league-change reset, the foreign-league
 * filter of history batches, and the outcomes of `dispatch_events`.
 */
module EngineProperties {
  import opened Wrappers
  import opened Feed
  import opened Rounds
  import opened LeagueTable
  import opened Engine
  import opened LedgerProperties

  // ---------------------------------------------------------------------------
  // Retries

  /**
   * An unusable results response is retried while its retry count is at most
   * 3: exactly one request, for the same block and `n`, with the count one
   * higher. Nothing else changes.
   */
  lemma ResultsRetry(cfg: Config, s: St, xs: nat, valid: bool, body: Body<ResultBlock>, env: Env)
    requires xs in s.wire.resultXs && !FirstIsDict(valid, body) && s.wire.resultXs[xs].retry <= RetryLimit
    ensures var p := s.wire.resultXs[xs];
      var o := ResultsCallback(cfg, s, xs, valid, body, env);
      && o.status == Done
      && o.st == s.(wire := Post(Pop(s.wire, Results, xs), Results, p.eBlockId, p.n, p.retry + 1))
      && o.st.wire.outbox == s.wire.outbox + [Request(|s.wire.outbox|, Results, p.eBlockId, p.n, p.retry + 1)]
  {
  }

  /** Past 3 retries auto-skip latches and the one request sent asks for fixtures, not results. */
  lemma ResultsSkip(cfg: Config, s: St, xs: nat, valid: bool, body: Body<ResultBlock>, env: Env)
    requires xs in s.wire.resultXs && !FirstIsDict(valid, body) && s.wire.resultXs[xs].retry > RetryLimit
    ensures var o := ResultsCallback(cfg, s, xs, valid, body, env);
      && o.status == Done
      && o.st == s.(autoSkip := true, wire := Post(Pop(s.wire, Results, xs), Events, None, 1, 0))
      && o.st.wire.outbox == s.wire.outbox + [Request(|s.wire.outbox|, Events, None, 1, 0)]
  {
  }

  /** The same retry for history responses, while the tripwire is dormant. */
  lemma HistoryRetry(cfg: Config, s: St, xs: nat, valid: bool, body: Body<HistoryWeek>, env: Env)
    requires xs in s.wire.historyXs && !(valid && body.List?) && s.wire.historyXs[xs].retry <= RetryLimit
    requires s.historyCount <= MaxHistoryCount
    ensures var p := s.wire.historyXs[xs];
      var o := HistoryCallback(cfg, s, xs, valid, body, env);
      && o.status == Done
      && o.st == s.(wire := Post(Pop(s.wire, History, xs), History, p.eBlockId, p.n, p.retry + 1))
      && o.st.wire.outbox == s.wire.outbox + [Request(|s.wire.outbox|, History, p.eBlockId, p.n, p.retry + 1)]
  {
  }

  /** The same skip for history responses, while the tripwire is dormant. */
  lemma HistorySkip(cfg: Config, s: St, xs: nat, valid: bool, body: Body<HistoryWeek>, env: Env)
    requires xs in s.wire.historyXs && !(valid && body.List?) && s.wire.historyXs[xs].retry > RetryLimit
    requires s.historyCount <= MaxHistoryCount
    ensures var o := HistoryCallback(cfg, s, xs, valid, body, env);
      && o.status == Done
      && o.st == s.(autoSkip := true, wire := Post(Pop(s.wire, History, xs), Events, None, 1, 0))
      && o.st.wire.outbox == s.wire.outbox + [Request(|s.wire.outbox|, Events, None, 1, 0)]
  {
  }

  /**
   * An unusable fixtures response (not a non-empty list whose first element
   * is a dict, or a block without a truthy block id, league and match day) is
   * re-requested with the same `n`, whatever happened before: the only change
   * is the consumed entry and the new request.
   */
  lemma FixturesRetryUnbounded(cfg: Config, s: St, xs: nat, valid: bool, body: Body<FixtureBlock>, env: Env)
    requires xs in s.wire.eventXs
    requires !FirstIsDict(valid, body) || (!s.restoring && !WellFormedFixtures(body.items[0].value))
    ensures var p := s.wire.eventXs[xs];
      var o := EventsCallback(cfg, s, xs, valid, body, env);
      && o == Outcome(s.(wire := Post(Pop(s.wire, Events, xs), Events, None, p.n, 0)), Done)
      && o.st.wire.outbox == s.wire.outbox + [Request(|s.wire.outbox|, Events, None, p.n, 0)]
  {
  }

  // ---------------------------------------------------------------------------
  // Results blocks

  /**
   * A usable results block arriving while auto-skip is latched is not fed to
   * the table: the phase becomes EVENTS, one fixtures request is sent, and
   * nothing else changes.
   */
  lemma ResultsWhileSkipping(cfg: Config, s: St, d: ResultBlock, env: Env)
    requires s.autoSkip && ResultOutcomes(d.events, s.teamLabels, cfg.markets).Some?
    ensures var (r, crashed) := ResultProcess(cfg, s, d, env);
      && !crashed
      && r == s.(phase := AwaitingEvents, wire := Post(s.wire, Events, None, 1, 0))
      && r.table == s.table
  {
  }

  /**
   * On the live path the block's results go into the table and the result is
   * announced; the next fixtures request (and phase EVENTS) follows exactly
   * when the block is the current one, and otherwise nothing is sent.
   */
  lemma ResultsLive(cfg: Config, s: St, d: ResultBlock, env: Env)
    requires !s.autoSkip && !s.cachingMultiple && !s.fetchingFuture
    requires ResultOutcomes(d.events, s.teamLabels, cfg.markets).Some?
    ensures var (r, crashed) := ResultProcess(cfg, s, d, env);
      var outcomes := ResultOutcomes(d.events, s.teamLabels, cfg.markets).value;
      && !crashed
      && r.table == FeedResult(s.table, d.eBlockId, s.league, WeekByBlock(s.blocks, d.eBlockId), outcomes)
      && |r.calls| >= |s.calls| + 2 && r.calls[..|s.calls| + 2] == s.calls + [NotifyResult, ValidateTickets]
      && (d.eBlockId == s.eBlockId ==> r.phase == AwaitingEvents && r.wire == Post(s.wire, Events, None, 1, 0))
      && (d.eBlockId != s.eBlockId ==> r.phase == s.phase && r.wire == s.wire)
  {
    LiveShape(cfg, s, d, env);
  }

  /** Nothing but the table, the calls, the phase and the wire changes on the live path. */
  lemma ResultsLiveFrame(cfg: Config, s: St, d: ResultBlock, env: Env)
    requires !s.autoSkip && !s.cachingMultiple && !s.fetchingFuture
    requires ResultOutcomes(d.events, s.teamLabels, cfg.markets).Some?
    ensures var r := ResultProcess(cfg, s, d, env).0;
      r.(table := s.table, calls := s.calls, phase := s.phase, wire := s.wire) == s
  {
    LiveShape(cfg, s, d, env);
  }

  /** The live path as table update, announcement, and a fixtures request when the block is current. */
  lemma LiveShape(cfg: Config, s: St, d: ResultBlock, env: Env)
    requires !s.autoSkip && !s.cachingMultiple && !s.fetchingFuture
    requires ResultOutcomes(d.events, s.teamLabels, cfg.markets).Some?
    ensures var outcomes := ResultOutcomes(d.events, s.teamLabels, cfg.markets).value;
      var s1 := s.(table := FeedResult(s.table, d.eBlockId, s.league, WeekByBlock(s.blocks, d.eBlockId), outcomes));
      var s3 := AnnounceResult(cfg, s1);
      && s3 == s1.(calls := s3.calls)
      && |s3.calls| >= |s.calls| + 2 && s3.calls[..|s.calls| + 2] == s.calls + [NotifyResult, ValidateTickets]
      && !ResultProcess(cfg, s, d, env).1
      && ResultProcess(cfg, s, d, env).0
         == if d.eBlockId == s.eBlockId then s3.(phase := AwaitingEvents, wire := Post(s.wire, Events, None, 1, 0)) else s3
  {
    var outcomes := ResultOutcomes(d.events, s.teamLabels, cfg.markets).value;
    var s1 := s.(table := FeedResult(s.table, d.eBlockId, s.league, WeekByBlock(s.blocks, d.eBlockId), outcomes));
    AnnounceResultCalls(cfg, s1);
  }

  /** The announcement on the live path: notify, validate the tickets, and archive a league that ended. */
  lemma AnnounceResultCalls(cfg: Config, s: St)
    ensures var r := AnnounceResult(cfg, s);
      && r == s.(calls := r.calls)
      && |r.calls| >= |s.calls| + 2 && r.calls[..|s.calls| + 2] == s.calls + [NotifyResult, ValidateTickets]
  {
    var s2 := CallOn(CallOn(s, NotifyResult), ValidateTickets);
    CallsOnly(s2, cfg);
    assert s2.calls == s.calls + [NotifyResult, ValidateTickets];
  }

  /** From a valid state the history tripwire never fires: `history_count` stays 0. */
  lemma TripwireDormant(cfg: Config, s: St, xs: nat, valid: bool, body: Body<HistoryWeek>, env: Env)
    requires Valid(cfg, s)
    ensures HistoryCallback(cfg, s, xs, valid, body, env) == HistoryConsume(cfg, s, xs, valid, body, env)
  {
  }

  /**
   * When the tripwire does fire, it latches auto-skip and asks for fixtures,
   * and then falls through: the response is still consumed and processed.
   */
  lemma TripwireFallsThrough(cfg: Config, s: St, xs: nat, valid: bool, body: Body<HistoryWeek>, env: Env)
    requires s.historyCount > MaxHistoryCount
    ensures var s0 := NextBlockEvent(s.(autoSkip := true));
      && s0.wire.outbox == s.wire.outbox + [Request(|s.wire.outbox|, Events, None, 1, 0)]
      && HistoryCallback(cfg, s, xs, valid, body, env) == HistoryConsume(cfg, s0, xs, valid, body, env)
  {
  }

  /** So an unusable history response with a small retry count then sends two requests. */
  lemma TripwireSendsTwo(cfg: Config, s: St, xs: nat, valid: bool, body: Body<HistoryWeek>, env: Env)
    requires s.historyCount > MaxHistoryCount
    requires xs in s.wire.historyXs && !(valid && body.List?) && s.wire.historyXs[xs].retry <= RetryLimit
    ensures var p := s.wire.historyXs[xs];
      var x := |s.wire.outbox|;
      var o := HistoryCallback(cfg, s, xs, valid, body, env);
      && o.status == Done && o.st.autoSkip
      && o.st.wire.outbox == s.wire.outbox + [Request(x, Events, None, 1, 0), Request(x + 1, History, p.eBlockId, p.n, p.retry + 1)]
  {
    var p := s.wire.historyXs[xs];
    var x := |s.wire.outbox|;
    var s0 := NextBlockEvent(s.(autoSkip := true));
    TripwireFallsThrough(cfg, s, xs, valid, body, env);
    assert xs in s0.wire.historyXs && s0.wire.historyXs[xs] == p;
    var s1 := s0.(wire := Pop(s0.wire, History, xs));
    assert s1.wire.outbox == s.wire.outbox + [Request(x, Events, None, 1, 0)];
    assert HistoryConsume(cfg, s0, xs, valid, body, env) == Outcome(Issue(s1, History, p.eBlockId, p.n, p.retry + 1), Done);
  }

  /** The per-league state a step leaves alone; `cached` may only be cleared. */
  predicate LeagueKept(s: St, r: St)
  {
    && r.league == s.league && r.eBlockId == s.eBlockId && r.week == s.week
    && r.blocks == s.blocks && r.blockOrder == s.blockOrder && r.leagueGames == s.leagueGames
    && r.requiredWeeks == s.requiredWeeks && r.autoSkip == s.autoSkip
    && (r.cached ==> s.cached)
  }

  // ---------------------------------------------------------------------------
  // `dispatch_events`

  /** While some week of the league has no block, dispatch caches the league's fixtures from the current block. */
  lemma DispatchFuture(cfg: Config, s: St, env: Env)
    requires MissingBlocks(cfg, s) != []
    ensures var r := Dispatch(cfg, s, env);
      && r.cachingFuture && !r.cached
      && r.wire == Post(s.wire, History, s.eBlockId, FutureDepth, 0)
      && r == s.(cachingFuture := true, cached := false, wire := r.wire)
      && LeagueKept(s, r)
  {
    var s1 := s.(cachingFuture := true).(cached := false);
    assert Dispatch(cfg, s, env) == s1.(wire := Post(s1.wire, History, s.eBlockId, FutureDepth, 0));
  }

  /**
   * Once every week has a block but some required week has no results,
   * dispatch asks for the results of each such week, anchored at its block.
   */
  lemma DispatchCatchUp(cfg: Config, s: St, env: Env)
    requires MissingBlocks(cfg, s) == [] && CheckWeeks(s.table, s.requiredWeeks) != []
    ensures var r := Dispatch(cfg, s, env);
      && r.fetchingFuture
      && r == s.(fetchingFuture := true, wire := r.wire)
      && r.wire == FetchWeeks(s, CheckWeeks(s.table, s.requiredWeeks)).wire
      && LeagueKept(s, r)
  {
    var w := CheckWeeks(s.table, s.requiredWeeks);
    FetchWeeksFrame(s.(fetchingFuture := true), w);
    FetchWeeksWire(s, s.(fetchingFuture := true), w);
  }

  /**
   * Otherwise dispatch resets the history count and, when the players
   * produced tickets, hands them over: phase TICKETS, the active tickets are
   * exactly the new ones, each registered, and nothing is sent.
   */
  lemma DispatchTickets(cfg: Config, s: St, env: Env)
    requires MissingBlocks(cfg, s) == [] && CheckWeeks(s.table, s.requiredWeeks) == [] && env.tickets != []
    ensures var r := Dispatch(cfg, s, env);
      && r == s.(historyCount := 0, phase := AwaitingTickets, activeTickets := env.tickets,
                 calls := s.calls + RegisterCalls(env.tickets))
      && LeagueKept(s, r)
  {
    ProcessTicketsSpec(s.(historyCount := 0).(phase := AwaitingTickets), env.tickets);
  }

  /** With no tickets it resets the history count and asks for the current block's results (phase RESULTS). */
  lemma DispatchNoTickets(cfg: Config, s: St, env: Env)
    requires MissingBlocks(cfg, s) == [] && CheckWeeks(s.table, s.requiredWeeks) == [] && env.tickets == []
    ensures var r := Dispatch(cfg, s, env);
      && r == s.(historyCount := 0, phase := AwaitingResults, wire := Post(s.wire, Results, s.eBlockId, 1, 0))
      && LeagueKept(s, r)
  {
  }

  /** The catch-up requests depend only on the wire, the blocks and their order. */
  lemma {:induction false} FetchWeeksWire(s: St, s1: St, weeks: seq<int>)
    requires s1.wire == s.wire && s1.blocks == s.blocks && s1.blockOrder == s.blockOrder
    ensures FetchWeeks(s1, weeks).wire == FetchWeeks(s, weeks).wire
    decreases |weeks|
  {
    if weeks != [] {
      var init := weeks[..|weeks| - 1];
      FetchWeeksWire(s, s1, init);
      FetchWeeksFrame(s, init);
      FetchWeeksFrame(s1, init);
    }
  }

  /**
   * The catch-up loop sends one results request per week, in order, each at
   * retry 0 and anchored at the first block of that week.
   */
  lemma {:induction false} FetchWeeksSends(s: St, weeks: seq<int>)
    ensures var r := FetchWeeks(s, weeks).wire.outbox;
      && |r| == |s.wire.outbox| + |weeks|
      && r[..|s.wire.outbox|] == s.wire.outbox
      && forall i :: 0 <= i < |weeks| ==>
           r[|s.wire.outbox| + i] == Request(|s.wire.outbox| + i, Results, BlockByWeek(s.blocks, s.blockOrder, weeks[i]), 1, 0)
    decreases |weeks|
  {
    if weeks != [] {
      var init := weeks[..|weeks| - 1];
      FetchWeeksSends(s, init);
      FetchWeeksFrame(s, init);
      var s1 := FetchWeeks(s, init);
      var r := FetchWeeks(s, weeks).wire.outbox;
      var n := |s.wire.outbox|;
      assert r == s1.wire.outbox + [Request(n + |init|, Results, BlockByWeek(s.blocks, s.blockOrder, weeks[|init|]), 1, 0)];
      forall i | 0 <= i < |weeks|
        ensures r[n + i] == Request(n + i, Results, BlockByWeek(s.blocks, s.blockOrder, weeks[i]), 1, 0)
      {
        if i < |init| {
          assert weeks[i] == init[i];
        }
      }
    }
  }

  // ---------------------------------------------------------------------------
  // The league-change reset

  /** The catch-up requests touch nothing but the wire. */
  lemma {:induction false} FetchWeeksFrame(s: St, weeks: seq<int>)
    ensures FetchWeeks(s, weeks).(wire := s.wire) == s
    decreases |weeks|
  {
    if weeks != [] {
      FetchWeeksFrame(s, weeks[..|weeks| - 1]);
    }
  }

  lemma DispatchKeepsLeague(cfg: Config, s: St, env: Env)
    ensures LeagueKept(s, Dispatch(cfg, s, env))
  {
    if MissingBlocks(cfg, s) != [] {
      DispatchFuture(cfg, s, env);
    } else if CheckWeeks(s.table, s.requiredWeeks) != [] {
      DispatchCatchUp(cfg, s, env);
    } else if env.tickets != [] {
      DispatchTickets(cfg, s, env);
    } else {
      DispatchNoTickets(cfg, s, env);
    }
  }

  lemma AfterFixturesKeepsLeague(cfg: Config, s: St, stats: map<int, EventStats>, env: Env)
    ensures LeagueKept(s, AfterFixtures(cfg, s, stats, env))
  {
    if !s.autoSkip {
      var t := FeedStats(OnEvent(s.table, s.league, s.week), s.league, s.week, stats);
      var s1 := s.(table := t);
      var missing := MissingWeeks(t);
      if missing == [] {
        DispatchKeepsLeague(cfg, s1, env);
      } else if s1.cached {
        FetchWeeksFrame(s1.(cachingMultiple := true), missing);
      }
    }
  }

  /**
   * Fixtures of a different league (or the first league) wipe the per-league
   * state before anything new is recorded: fixtures, blocks and required weeks
   * are emptied, `cached` is false and the league is the new one; auto-skip is
   * cleared only by match day 1. Fixtures of the same league keep all of it.
   */
  lemma AdoptFixturesResets(s: St, d: FixtureBlock)
    requires WellFormedFixtures(d)
    ensures var r := AdoptFixtures(s, d).0;
      var reset := LeagueOf(d) != s.league || !Truthy(s.league);
      && r.league == LeagueOf(d) && r.eBlockId == d.eBlockId && r.week == MatchDayOf(d)
      && (reset ==>
            && r.blocks == map[] && r.blockOrder == [] && r.leagueGames == map[] && r.requiredWeeks == []
            && !r.cached && r.autoSkip == (s.autoSkip && MatchDayOf(d) != Some(1)))
      && (!reset ==>
            && r.blocks == s.blocks && r.leagueGames == s.leagueGames && r.requiredWeeks == s.requiredWeeks
            && r.autoSkip == s.autoSkip && r.cached == s.cached)
  {
  }

  lemma LeagueChangeResets(cfg: Config, s: St, d: FixtureBlock, env: Env)
    requires WellFormedFixtures(d)
    ensures var r := EventsProcess(cfg, s, d, env).0;
      var reset := LeagueOf(d) != s.league || !Truthy(s.league);
      && r.league == LeagueOf(d) && r.eBlockId == d.eBlockId && r.week == MatchDayOf(d)
      && (reset ==>
            && r.blocks == map[] && r.blockOrder == [] && r.leagueGames == map[] && r.requiredWeeks == []
            && !r.cached && r.autoSkip == (s.autoSkip && MatchDayOf(d) != Some(1)))
      && (!reset ==>
            && r.blocks == s.blocks && r.leagueGames == s.leagueGames && r.requiredWeeks == s.requiredWeeks
            && r.autoSkip == s.autoSkip && (r.cached ==> s.cached))
  {
    var (s1, raised) := AdoptFixtures(s, d);
    AdoptFixturesResets(s, d);
    var r := EventsProcess(cfg, s, d, env).0;
    if raised {
      assert r == s1;
    } else {
      assert r == AfterFixtures(cfg, s1, StatsOf(d.events), env);
      AfterFixturesKeepsLeague(cfg, s1, StatsOf(d.events), env);
    }
  }

  // ---------------------------------------------------------------------------
  // History batches

  /** A history week of another league is skipped: nothing changes and nothing raises. */
  lemma ForeignWeekSkipped(cfg: Config, s: St, w: HistoryWeek)
    requires w.leagueId != s.league
    ensures HistoryEntry(cfg, s, Dict(w)) == (s, false)
  {
  }

  /**
   * A week of the current league records its block and, unless the score
   * lookup raises while caching, its fixtures; the league never changes.
   */
  lemma OwnWeekRecorded(cfg: Config, s: St, w: HistoryWeek)
    requires w.leagueId == s.league
    ensures var r := HistoryEntry(cfg, s, Dict(w)).0; var crashed := HistoryEntry(cfg, s, Dict(w)).1;
      && r.league == s.league
      && r.blocks == s.blocks[w.eBlockId := w.matchDay]
      && (crashed <==> s.caching && HistoryOutcomes(w.events, cfg.markets).None?)
      && (crashed ==> r.leagueGames == s.leagueGames)
      && (!crashed ==> r.leagueGames == s.leagueGames[w.matchDay := HistoryMatches(w.events)])
  {
    if !s.caching {
      OwnWeekPlain(cfg, s, w);
    } else if HistoryOutcomes(w.events, cfg.markets).None? {
      OwnWeekRaises(cfg, s, w);
    } else {
      OwnWeekSettled(cfg, s, w);
    }
  }

  lemma OwnWeekPlain(cfg: Config, s: St, w: HistoryWeek)
    requires w.leagueId == s.league && !s.caching
    ensures HistoryEntry(cfg, s, Dict(w))
         == (SetBlock(s, w.eBlockId, w.matchDay).(leagueGames := s.leagueGames[w.matchDay := HistoryMatches(w.events)]), false)
  {
  }

  lemma OwnWeekRaises(cfg: Config, s: St, w: HistoryWeek)
    requires w.leagueId == s.league && s.caching && HistoryOutcomes(w.events, cfg.markets).None?
    ensures HistoryEntry(cfg, s, Dict(w)) == (SetBlock(s, w.eBlockId, w.matchDay), true)
  {
  }

  lemma OwnWeekSettled(cfg: Config, s: St, w: HistoryWeek)
    requires w.leagueId == s.league && s.caching && HistoryOutcomes(w.events, cfg.markets).Some?
    ensures !HistoryEntry(cfg, s, Dict(w)).1
    ensures HistoryEntry(cfg, s, Dict(w)).0.league == s.league
    ensures HistoryEntry(cfg, s, Dict(w)).0.leagueGames == s.leagueGames[w.matchDay := HistoryMatches(w.events)]
    ensures HistoryEntry(cfg, s, Dict(w)).0.blocks == s.blocks[w.eBlockId := w.matchDay]
  {
  }

  /** The entries of a batch that the league filter keeps: the dicts of league `l`, and every non-dict (which raises). */
  function OwnLeague(l: Option<int>, es: seq<Element<HistoryWeek>>): (r: seq<Element<HistoryWeek>>)
    ensures |r| <= |es|
    ensures forall e :: e in r ==> e in es && (e.Dict? ==> e.value.leagueId == l)
  {
    if es == [] then []
    else
      var e := es[|es| - 1];
      OwnLeague(l, es[..|es| - 1]) + (if e.Dict? && e.value.leagueId != l then [] else [e])
  }

  /** A history batch never changes the league. */
  lemma {:induction false} ApplyHistoryKeepsLeague(cfg: Config, s: St, es: seq<Element<HistoryWeek>>)
    ensures ApplyHistory(cfg, s, es).0.league == s.league
    decreases |es|
  {
    if es != [] {
      var init := es[..|es| - 1];
      ApplyHistoryKeepsLeague(cfg, s, init);
      var (s1, crashed) := ApplyHistory(cfg, s, init);
      if !crashed {
        match es[|es| - 1]
        case NotDict =>
        case Dict(w) =>
          if w.leagueId == s1.league {
            OwnWeekRecorded(cfg, s1, w);
          }
      }
    }
  }

  /** Dropping the weeks of other leagues from a batch changes nothing: they are filtered out. */
  lemma {:induction false} ForeignLeagueFiltered(cfg: Config, s: St, es: seq<Element<HistoryWeek>>)
    ensures ApplyHistory(cfg, s, es) == ApplyHistory(cfg, s, OwnLeague(s.league, es))
    decreases |es|
  {
    if es != [] {
      var init := es[..|es| - 1];
      var e := es[|es| - 1];
      ForeignLeagueFiltered(cfg, s, init);
      ApplyHistoryKeepsLeague(cfg, s, init);
      var kept := OwnLeague(s.league, init);
      if e.Dict? && e.value.leagueId != s.league {
        assert OwnLeague(s.league, es) == kept;
        var (s1, crashed) := ApplyHistory(cfg, s, init);
        if !crashed {
          ForeignWeekSkipped(cfg, s1, e.value);
        }
      } else {
        assert OwnLeague(s.league, es) == kept + [e];
        assert (kept + [e])[..|kept + [e]| - 1] == kept;
      }
    }
  }

  // ---------------------------------------------------------------------------
  // Block/week helpers

  /** `get_missing_blocks` is exactly the weeks 1..max_week that no block belongs to, ascending. */
  lemma MissingBlocksSpec(cfg: Config, s: St)
    ensures forall w :: w in MissingBlocks(cfg, s) <==> 1 <= w <= cfg.maxWeek && w !in BlockWeeks(s.blocks)
    ensures Increasing(MissingBlocks(cfg, s))
  {
    WeeksOutsideSpec(BlockWeeks(s.blocks), 1, cfg.maxWeek);
  }

  /**
   * `get_block_by_week` finds the first block, in insertion order, of week
   * `w`; its week is then `w`, so the two lookups are inverse.
   */
  lemma {:induction false} BlockByWeekFound(blocks: map<int, int>, order: seq<int>, w: int)
    ensures BlockByWeek(blocks, order, w).Some? ==>
      var b := BlockByWeek(blocks, order, w).value;
      && b in blocks && blocks[b] == w && WeekByBlock(blocks, Some(b)) == Some(w)
      && exists i :: 0 <= i < |order| && order[i] == b
           && forall j :: 0 <= j < i ==> order[j] !in blocks || blocks[order[j]] != w
    decreases |order|
  {
    if order != [] && !(order[0] in blocks && blocks[order[0]] == w) {
      BlockByWeekFound(blocks, order[1..], w);
      if BlockByWeek(blocks, order[1..], w).Some? {
        var b := BlockByWeek(blocks, order[1..], w).value;
        var i :| 0 <= i < |order[1..]| && order[1..][i] == b
                 && forall j :: 0 <= j < i ==> order[1..][j] !in blocks || blocks[order[1..][j]] != w;
        assert order[i + 1] == b;
        forall j | 0 <= j < i + 1 ensures order[j] !in blocks || blocks[order[j]] != w {
          if j > 0 {
            assert order[j] == order[1..][j - 1];
          }
        }
      }
    }
  }

  /** `get_block_by_week` finds nothing exactly when no listed block belongs to week `w`. */
  lemma {:induction false} BlockByWeekNone(blocks: map<int, int>, order: seq<int>, w: int)
    ensures BlockByWeek(blocks, order, w).None? <==>
      forall i :: 0 <= i < |order| ==> order[i] !in blocks || blocks[order[i]] != w
    decreases |order|
  {
    if order != [] {
      BlockByWeekNone(blocks, order[1..], w);
      assert forall i :: 1 <= i < |order| ==> order[i] == order[1..][i - 1];
    }
  }

  /** With the insertion order in step with the blocks, no block is found exactly when no block belongs to `w`. */
  lemma BlockByWeekMissing(s: St, w: int)
    requires BlocksOrdered(s)
    ensures BlockByWeek(s.blocks, s.blockOrder, w).None? <==> w !in BlockWeeks(s.blocks)
  {
    BlockByWeekNone(s.blocks, s.blockOrder, w);
    if w in BlockWeeks(s.blocks) {
      var b :| b in s.blocks && s.blocks[b] == w;
      assert b in s.blockOrder;
      var i :| 0 <= i < |s.blockOrder| && s.blockOrder[i] == b;
      assert s.blockOrder[i] in s.blocks && s.blocks[s.blockOrder[i]] == w;
      assert BlockByWeek(s.blocks, s.blockOrder, w).Some?;
    } else {
      forall i | 0 <= i < |s.blockOrder| && s.blockOrder[i] in s.blocks
        ensures s.blocks[s.blockOrder[i]] != w
      {
        assert s.blocks[s.blockOrder[i]] in BlockWeeks(s.blocks);
      }
    }
  }

  /** `get_required_weeks` is the COMPLEMENT of the players' weeks within the league, ascending. */
  lemma RequiredWeeksComplement(cfg: Config, playerWeeks: seq<int>)
    ensures forall w :: w in RequiredWeeks(cfg, playerWeeks) <==> 1 <= w <= cfg.maxWeek && w !in playerWeeks
    ensures Increasing(RequiredWeeks(cfg, playerWeeks))
  {
    WeeksOutsideSpec(Elements(playerWeeks), 1, cfg.maxWeek);
    assert forall w :: w in Elements(playerWeeks) <==> w in playerWeeks by {
      forall w ensures w in Elements(playerWeeks) <==> w in playerWeeks {
        if w in playerWeeks {
          var i :| 0 <= i < |playerWeeks| && playerWeeks[i] == w;
        }
      }
    }
  }

  /**
   * `process_missing` on a cached league looks the largest missing week up
   * among the BLOCK keys: with block 100 holding week 3 and week 3 missing it
   * anchors at nothing, although `get_block_by_week(3)` is block 100.
   */
  lemma ProcessMissingLooksUpBlockKeys(s: St)
    requires s.cached && s.blocks == map[100 := 3] && s.blockOrder == [100]
    ensures ProcessMissing(s, [3]) == None
    ensures BlockByWeek(s.blocks, s.blockOrder, 3) == Some(100)
  {
    assert SeqMax([3]) == 3;
  }

  /** Uncached, it anchors at the table's least block, or the current block when the table has none. */
  lemma ProcessMissingUncached(s: St, missing: seq<int>)
    requires !s.cached && |missing| > 0
    ensures FedBlocks(s.table) != {} ==> ProcessMissing(s, missing) == MinBlock(s.table)
    ensures FedBlocks(s.table) == {} ==> ProcessMissing(s, missing) == s.eBlockId
    ensures ProcessMissing(s, missing).Some? && FedBlocks(s.table) != {} ==>
      forall b :: b in FedBlocks(s.table) ==> ProcessMissing(s, missing).value <= b
  {
  }
  // ---------------------------------------------------------------------------
  // The parsing loops, one element at a time

  /** One week of the results requests loop. */
  lemma FetchWeeksStep(s: St, weeks: seq<int>, i: nat)
    requires i < |weeks|
    ensures var r := FetchWeeks(s, weeks[..i]);
      FetchWeeks(s, weeks[..i + 1]) == NextResult(r, BlockByWeek(r.blocks, r.blockOrder, weeks[i]), 1, 0)
  {
    assert weeks[..i + 1][..i] == weeks[..i];
  }

  /** One fixture of the label loop whose labels can be read: its two labels, then its statistics. */
  lemma FixtureStep(labels: map<int, string>, events: seq<FixtureEvent>, i: nat)
    requires i < |events| && EventTags(events[i]).Some?
    ensures var ts := EventTags(events[i]).value;
      RecordLabels(labels, Tags(events[..i + 1])) == AddLabel(AddLabel(RecordLabels(labels, Tags(events[..i])), ts[0]), ts[1])
    ensures StatsOf(events[..i + 1]) == StatsOf(events[..i])[events[i].eventId := events[i].stats]
  {
    var ps := Tags(events[..i]);
    var ts := EventTags(events[i]).value;
    var e := events[..i + 1];
    assert e[..i] == events[..i] && e[i] == events[i];
    assert Tags(e) == ps + ts;
    assert ts == [ts[0], ts[1]];
    assert (ps + ts)[..|ps| + 1] == ps + [ts[0]];
    assert (ps + [ts[0]])[..|ps|] == ps;
  }

  /** The label loop, at a fixture it has reached, goes on past it exactly when its labels can be read. */
  lemma FirstBadNext(events: seq<FixtureEvent>, i: nat)
    requires i < |events| && i <= FirstBad(events)
    ensures EventTags(events[i]).Some? <==> i < FirstBad(events)
  {
  }

  /**
   * Recording labels keeps every label already known and, for a new id, the
   * code of the FIRST label with that id; no other id gets a label.
   */
  lemma {:induction false} LabelsFirstSeen(labels: map<int, string>, ts: seq<Tag>)
    ensures forall id :: id in RecordLabels(labels, ts) <==> id in labels || FirstCode(ts, id).Some?
    ensures forall id :: id in RecordLabels(labels, ts) ==>
      RecordLabels(labels, ts)[id] == if id in labels then labels[id] else FirstCode(ts, id).value
    decreases |ts|
  {
    if ts != [] {
      LabelsFirstSeen(labels, ts[..|ts| - 1]);
    }
  }

  /**
   * The label loop: it raises exactly when some fixture's labels cannot be
   * read; the labels it leaves are the old ones plus, for each new id, the
   * first code seen among the fixtures before the first unreadable one; nothing
   * else changes.
   */
  lemma LabelTeamsFirstSeen(s: St, events: seq<FixtureEvent>)
    ensures var (r, raised) := LabelTeams(s, events);
      var ts := Tags(events[..FirstBad(events)]);
      && (raised <==> exists j :: 0 <= j < |events| && EventTags(events[j]).None?)
      && (forall id :: id in r.teamLabels <==> id in s.teamLabels || FirstCode(ts, id).Some?)
      && (forall id :: id in r.teamLabels ==>
            r.teamLabels[id] == if id in s.teamLabels then s.teamLabels[id] else FirstCode(ts, id).value)
      && r == s.(teamLabels := r.teamLabels)
  {
    LabelsFirstSeen(s.teamLabels, Tags(events[..FirstBad(events)]));
  }

  /** A block is collected in full exactly when every one of its events can be read. */
  lemma {:induction false} CollectTotal(events: seq<ResultEvent>, read: ResultEvent -> Option<EventOutcome>)
    ensures Collect(events, read).Some? <==> forall i :: 0 <= i < |events| ==> read(events[i]).Some?
    decreases |events|
  {
    if events != [] {
      var init := events[..|events| - 1];
      CollectTotal(init, read);
      if Collect(events, read).Some? {
        forall i | 0 <= i < |init| ensures read(events[i]).Some? {
          assert init[i] == events[i];
        }
      } else if Collect(init, read).None? {
        var i :| 0 <= i < |init| && read(init[i]).None?;
        assert init[i] == events[i];
      }
    }
  }

  /** Every event of a block collected in full is there under its own id. */
  lemma {:induction false} CollectKeys(events: seq<ResultEvent>, read: ResultEvent -> Option<EventOutcome>)
    requires Collect(events, read).Some?
    ensures forall i :: 0 <= i < |events| ==> events[i].eventId in Collect(events, read).value
    decreases |events|
  {
    if events != [] {
      var init := events[..|events| - 1];
      CollectKeys(init, read);
      forall i | 0 <= i < |init| ensures events[i].eventId in Collect(events, read).value {
        assert init[i] == events[i];
      }
    }
  }

  /** Once a prefix of a block cannot be collected, the whole block cannot. */
  lemma {:induction false} CollectStop(events: seq<ResultEvent>, k: nat, read: ResultEvent -> Option<EventOutcome>)
    requires k <= |events| && Collect(events[..k], read).None?
    ensures Collect(events, read).None?
    decreases |events|
  {
    if k < |events| {
      var init := events[..|events| - 1];
      assert init[..k] == events[..k];
      CollectStop(init, k, read);
    } else {
      assert events[..k] == events;
    }
  }

  /**
   * A results block is read in full exactly when every one of its events can
   * be read, and then every event is settled under its own id.
   */
  lemma ResultOutcomesTotal(events: seq<ResultEvent>, labels: map<int, string>, markets: map<int, (int, int)>)
    ensures ResultOutcomes(events, labels, markets).Some? <==>
      forall i :: 0 <= i < |events| ==> ResultOf(events[i], labels, markets).Some?
    ensures ResultOutcomes(events, labels, markets).Some? ==>
      forall i :: 0 <= i < |events| ==> events[i].eventId in ResultOutcomes(events, labels, markets).value
  {
    var read := e => ResultOf(e, labels, markets);
    CollectTotal(events, read);
    if ResultOutcomes(events, labels, markets).Some? {
      CollectKeys(events, read);
    }
  }

  /** Once a prefix of a results block raises, the whole block raises. */
  lemma ResultOutcomesStop(events: seq<ResultEvent>, k: nat, labels: map<int, string>, markets: map<int, (int, int)>)
    requires k <= |events| && ResultOutcomes(events[..k], labels, markets).None?
    ensures ResultOutcomes(events, labels, markets).None?
  {
    CollectStop(events, k, e => ResultOf(e, labels, markets));
  }

  /** Once a prefix of a history week raises, the whole week raises. */
  lemma {:induction false} HistoryOutcomesStop(events: seq<HistoryEvent>, k: nat, markets: map<int, (int, int)>)
    requires k <= |events| && HistoryOutcomes(events[..k], markets).None?
    ensures HistoryOutcomes(events, markets).None?
    decreases |events|
  {
    if k < |events| {
      var init := events[..|events| - 1];
      assert init[..k] == events[..k];
      HistoryOutcomesStop(init, k, markets);
    } else {
      assert events[..k] == events;
    }
  }

  /** A history batch stops at the first week that raises: the weeks after it change nothing. */
  lemma {:induction false} ApplyHistoryStop(cfg: Config, s: St, entries: seq<Element<HistoryWeek>>, k: nat)
    requires k <= |entries| && ApplyHistory(cfg, s, entries[..k]).1
    ensures ApplyHistory(cfg, s, entries) == ApplyHistory(cfg, s, entries[..k])
    decreases |entries|
  {
    if k < |entries| {
      var init := entries[..|entries| - 1];
      assert init[..k] == entries[..k];
      ApplyHistoryStop(cfg, s, init, k);
    } else {
      assert entries[..k] == entries;
    }
  }
}
