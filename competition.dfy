/**
 * `LeagueCompetition` as the source has it: an object whose callbacks update
 * its fields in place. Every method is proved to leave exactly the snapshot
 * the matching transition of module Engine computes from the snapshot before
 * the call, so everything proved about those transitions (modules
 * LedgerProperties and EngineProperties) holds of the object.
 *
 * `send` appends to `outbox` and hands back the request's position there as
 * its id. The asyncio delays (`sleep`, `await_event_time`) are no-ops, and the
 * task `get_future_weeks` spawns runs to completion at once.
 */
module Competition {
  import opened Wrappers
  import opened Feed
  import opened Rounds
  import opened LeagueTable
  import opened Engine
  import opened LedgerProperties
  import opened EngineProperties

  class LeagueCompetition {
    /** The league length (`max_week`) and the correct-score market table. */
    const cfg: Config

    var phase: Phase
    var eBlockId: Option<int>
    var league: Option<int>
    var week: Option<int>
    var caching: bool
    var cachingFuture: bool
    var cached: bool
    var cachingMultiple: bool
    var fetchingFuture: bool
    var autoSkip: bool
    var restoring: bool
    var lost: bool
    var online: bool
    var requiredWeeks: seq<int>
    var historyCount: int
    var teamLabels: map<int, string>
    var activeTickets: seq<int>
    /** `blocks` maps block id to week; `blockOrder` is the insertion order of its keys. */
    var blocks: map<int, int>
    var blockOrder: seq<int>
    var leagueGames: map<int, map<int, Match>>
    var table: Table
    /** Every request sent, in order: the transport. */
    var outbox: seq<Request>
    var eventXs: map<nat, Pending>
    var resultXs: map<nat, Pending>
    var historyXs: map<nat, Pending>
    var statsXs: map<nat, Pending>
    /** Every call made on the players, the account and the ticket manager, in order. */
    var calls: seq<Call>

    /** The object's state as an Engine snapshot. */
    function Snap(): St
      reads this
    {
      St(phase, eBlockId, league, week, caching, cachingFuture, cached, cachingMultiple, fetchingFuture,
         autoSkip, restoring, lost, online, requiredWeeks, historyCount, teamLabels, activeTickets,
         blocks, blockOrder, leagueGames, table, Wire(outbox, eventXs, resultXs, historyXs, statsXs), calls)
    }

    /** `__init__`: `max_week` is 34 for the short leagues and 38 otherwise; nothing is sent. */
    constructor (gameId: int, shortLeagues: set<int>, markets: map<int, (int, int)>)
      ensures cfg == Config(MaxWeekFor(gameId, shortLeagues), markets)
      ensures Snap() == Initial(cfg) && Engine.Valid(cfg, Snap())
    {
      cfg := Config(MaxWeekFor(gameId, shortLeagues), markets);
      phase := Sleeping;
      eBlockId, league, week := None, None, None;
      caching, cachingFuture, cached, cachingMultiple, fetchingFuture := false, false, false, false, false;
      autoSkip, restoring, lost, online := false, false, false, false;
      requiredWeeks, historyCount := [], 0;
      teamLabels, activeTickets := map[], [];
      blocks, blockOrder, leagueGames := map[], [], map[];
      table := Fresh(MaxWeekFor(gameId, shortLeagues));
      outbox := [];
      eventXs, resultXs, historyXs, statsXs := map[], map[], map[], map[];
      calls := [];
      new;
      InitialValid(cfg);
    }

    // -------------------------------------------------------------------------
    // Single-field assignments: the statements the routines below are made of

    method SetPhase(v: Phase)
      modifies this`phase
      ensures Snap() == old(Snap()).(phase := v)
    {
      phase := v;
    }

    method SetEBlockId(v: Option<int>)
      modifies this`eBlockId
      ensures Snap() == old(Snap()).(eBlockId := v)
    {
      eBlockId := v;
    }

    method SetLeague(v: Option<int>)
      modifies this`league
      ensures Snap() == old(Snap()).(league := v)
    {
      league := v;
    }

    method SetWeek(v: Option<int>)
      modifies this`week
      ensures Snap() == old(Snap()).(week := v)
    {
      week := v;
    }

    method SetCaching(v: bool)
      modifies this`caching
      ensures Snap() == old(Snap()).(caching := v)
    {
      caching := v;
    }

    method SetCachingFuture(v: bool)
      modifies this`cachingFuture
      ensures Snap() == old(Snap()).(cachingFuture := v)
    {
      cachingFuture := v;
    }

    method SetCached(v: bool)
      modifies this`cached
      ensures Snap() == old(Snap()).(cached := v)
    {
      cached := v;
    }

    method SetCachingMultiple(v: bool)
      modifies this`cachingMultiple
      ensures Snap() == old(Snap()).(cachingMultiple := v)
    {
      cachingMultiple := v;
    }

    method SetFetchingFuture(v: bool)
      modifies this`fetchingFuture
      ensures Snap() == old(Snap()).(fetchingFuture := v)
    {
      fetchingFuture := v;
    }

    method SetAutoSkip(v: bool)
      modifies this`autoSkip
      ensures Snap() == old(Snap()).(autoSkip := v)
    {
      autoSkip := v;
    }

    method SetRestoring(v: bool)
      modifies this`restoring
      ensures Snap() == old(Snap()).(restoring := v)
    {
      restoring := v;
    }

    method SetLost(v: bool)
      modifies this`lost
      ensures Snap() == old(Snap()).(lost := v)
    {
      lost := v;
    }

    method SetOnlineFlag(v: bool)
      modifies this`online
      ensures Snap() == old(Snap()).(online := v)
    {
      online := v;
    }

    method SetRequiredWeeks(v: seq<int>)
      modifies this`requiredWeeks
      ensures Snap() == old(Snap()).(requiredWeeks := v)
    {
      requiredWeeks := v;
    }

    method SetHistoryCount(v: int)
      modifies this`historyCount
      ensures Snap() == old(Snap()).(historyCount := v)
    {
      historyCount := v;
    }

    method SetActiveTickets(v: seq<int>)
      modifies this`activeTickets
      ensures Snap() == old(Snap()).(activeTickets := v)
    {
      activeTickets := v;
    }

    method SetBlocks(v: map<int, int>)
      modifies this`blocks
      ensures Snap() == old(Snap()).(blocks := v)
    {
      blocks := v;
    }

    method SetBlockOrder(v: seq<int>)
      modifies this`blockOrder
      ensures Snap() == old(Snap()).(blockOrder := v)
    {
      blockOrder := v;
    }

    method SetLeagueGames(v: map<int, map<int, Match>>)
      modifies this`leagueGames
      ensures Snap() == old(Snap()).(leagueGames := v)
    {
      leagueGames := v;
    }

    method SetTable(v: Table)
      modifies this`table
      ensures Snap() == old(Snap()).(table := v)
    {
      table := v;
    }

    /** A call on a collaborator, recorded in order. */
    method CallOn(c: Call)
      modifies this`calls
      ensures Snap() == Engine.CallOn(old(Snap()), c)
    {
      calls := calls + [c];
    }

    // -------------------------------------------------------------------------
    // Sending

    /** `send`: the transport appends the request and hands back its position as the id. */
    method Send(kind: ResourceKind, b: Option<int>, n: int, retry: nat) returns (xs: nat)
      modifies this`outbox
      ensures xs == |old(outbox)|
      ensures Snap() == Engine.Send(old(Snap()), kind, b, n, retry)
    {
      xs := |outbox|;
      outbox := outbox + [Request(xs, kind, b, n, retry)];
    }

    /** The ledger assignment of a `next_*` builder, `<kind>_xs[xs] = ...`. */
    method Record(kind: ResourceKind, xs: nat, e: Pending)
      modifies this`eventXs, this`resultXs, this`historyXs, this`statsXs
      ensures Snap() == Engine.Record(old(Snap()), kind, xs, e)
    {
      match kind
      case Events => RecordEvent(xs, e);
      case Results => RecordResult(xs, e);
      case History => RecordHistory(xs, e);
      case Stats => RecordStats(xs, e);
    }

    method RecordEvent(xs: nat, e: Pending)
      modifies this`eventXs
      ensures Snap() == Engine.Record(old(Snap()), Events, xs, e)
    {
      eventXs := eventXs[xs := e];
    }

    method RecordResult(xs: nat, e: Pending)
      modifies this`resultXs
      ensures Snap() == Engine.Record(old(Snap()), Results, xs, e)
    {
      resultXs := resultXs[xs := e];
    }

    method RecordHistory(xs: nat, e: Pending)
      modifies this`historyXs
      ensures Snap() == Engine.Record(old(Snap()), History, xs, e)
    {
      historyXs := historyXs[xs := e];
    }

    method RecordStats(xs: nat, e: Pending)
      modifies this`statsXs
      ensures Snap() == Engine.Record(old(Snap()), Stats, xs, e)
    {
      statsXs := statsXs[xs := e];
    }

    /** The `pop` of a callback: the entry `xs` leaves the ledger of `kind`. */
    method PopRequest(kind: ResourceKind, xs: nat)
      modifies this`eventXs, this`resultXs, this`historyXs, this`statsXs
      ensures Snap() == old(Snap()).(wire := Pop(old(Snap()).wire, kind, xs))
    {
      match kind
      case Events => PopEvent(xs);
      case Results => PopResult(xs);
      case History => PopHistory(xs);
      case Stats => PopStats(xs);
    }

    method PopEvent(xs: nat)
      modifies this`eventXs
      ensures Snap() == old(Snap()).(wire := Pop(old(Snap()).wire, Events, xs))
    {
      eventXs := eventXs - {xs};
    }

    method PopResult(xs: nat)
      modifies this`resultXs
      ensures Snap() == old(Snap()).(wire := Pop(old(Snap()).wire, Results, xs))
    {
      resultXs := resultXs - {xs};
    }

    method PopHistory(xs: nat)
      modifies this`historyXs
      ensures Snap() == old(Snap()).(wire := Pop(old(Snap()).wire, History, xs))
    {
      historyXs := historyXs - {xs};
    }

    method PopStats(xs: nat)
      modifies this`statsXs
      ensures Snap() == old(Snap()).(wire := Pop(old(Snap()).wire, Stats, xs))
    {
      statsXs := statsXs - {xs};
    }

    /** A request sent and recorded in the ledger of its kind under the id the transport returned. */
    method Issue(kind: ResourceKind, b: Option<int>, n: int, retry: nat)
      modifies this`outbox, this`eventXs, this`resultXs, this`historyXs, this`statsXs
      ensures Snap() == Engine.Issue(old(Snap()), kind, b, n, retry)
    {
      var xs := Send(kind, b, n, retry);
      Record(kind, xs, Pending(b, n, retry));
      IssueSendsThenRecords(old(Snap()), kind, b, n, retry);
    }

    /** `next_event`: a fixtures request. */
    method NextEvent(n: int)
      modifies this`outbox, this`eventXs, this`resultXs, this`historyXs, this`statsXs
      ensures Snap() == Engine.NextEvent(old(Snap()), n)
    {
      Issue(Events, None, n, 0);
    }

    /** `next_result`: a results request for block `b`, with its retry count. */
    method NextResult(b: Option<int>, n: int, retry: nat)
      modifies this`outbox, this`eventXs, this`resultXs, this`historyXs, this`statsXs
      ensures Snap() == Engine.NextResult(old(Snap()), b, n, retry)
    {
      Issue(Results, b, n, retry);
    }

    /** `next_history`: a history request anchored at block `b`, with its retry count. */
    method NextHistory(b: Option<int>, n: int, retry: nat)
      modifies this`outbox, this`eventXs, this`resultXs, this`historyXs, this`statsXs
      ensures Snap() == Engine.NextHistory(old(Snap()), b, n, retry)
    {
      Issue(History, b, n, retry);
    }

    /** `next_stats`: a statistics request for block `b`. */
    method NextStats(b: Option<int>, n: int)
      modifies this`outbox, this`eventXs, this`resultXs, this`historyXs, this`statsXs
      ensures Snap() == Engine.NextStats(old(Snap()), b, n)
    {
      Issue(Stats, b, n, 0);
    }

    /** `next_block_event`: the fixtures of the next block. */
    method NextBlockEvent()
      modifies this`outbox, this`eventXs, this`resultXs, this`historyXs, this`statsXs
      ensures Snap() == Engine.NextBlockEvent(old(Snap()))
    {
      NextEvent(1);
    }

    /** `next_block_result`: the results of the current block (the wait for the event time is not modelled). */
    method NextBlockResult()
      modifies this`outbox, this`eventXs, this`resultXs, this`historyXs, this`statsXs
      ensures Snap() == Engine.NextBlockResult(old(Snap()))
    {
      NextResult(eBlockId, 1, 0);
    }

    /** `next_block_future`: a forward history batch from block `b`. */
    method NextBlockFuture(b: Option<int>)
      modifies this`outbox, this`eventXs, this`resultXs, this`historyXs, this`statsXs
      ensures Snap() == Engine.NextBlockFuture(old(Snap()), b)
    {
      NextHistory(b, FutureDepth, 0);
    }

    // -------------------------------------------------------------------------
    // Blocks and weeks

    /** `blocks[b] = w`: a key not yet present goes to the end of the insertion order. */
    method SetBlock(b: int, w: int)
      modifies this`blocks, this`blockOrder
      ensures Snap() == Engine.SetBlock(old(Snap()), b, w)
    {
      SetBlockOrder(if b in blocks then blockOrder else blockOrder + [b]);
      SetBlocks(blocks[b := w]);
    }

    /** `blocks = {}`. */
    method ForgetBlocks()
      modifies this`blocks, this`blockOrder
      ensures Snap() == Engine.ForgetBlocks(old(Snap()))
    {
      SetBlocks(map[]);
      SetBlockOrder([]);
    }

    /**
     * `get_block_by_week`: the first block, in insertion order, of week `w`;
     * its week is `w`, and there is none exactly when no block belongs to `w`.
     */
    method GetBlockByWeek(w: int) returns (b: Option<int>)
      requires BlocksOrdered(Snap())
      ensures b == BlockByWeek(blocks, blockOrder, w)
      ensures b.Some? ==> b.value in blocks && blocks[b.value] == w && WeekByBlock(blocks, b) == Some(w)
      ensures b.None? <==> w !in BlockWeeks(blocks)
    {
      var i := 0;
      while i < |blockOrder|
        invariant 0 <= i <= |blockOrder|
        invariant BlockByWeek(blocks, blockOrder, w) == BlockByWeek(blocks, blockOrder[i..], w)
      {
        var block := blockOrder[i];
        assert blockOrder[i..][1..] == blockOrder[i + 1..];
        if blocks[block] == w {
          b := Some(block);
          BlockByWeekFound(blocks, blockOrder, w);
          BlockByWeekMissing(Snap(), w);
          return;
        }
        i := i + 1;
      }
      b := None;
      BlockByWeekMissing(Snap(), w);
    }

    /**
     * `process_missing`: the anchor of the next backfill request. On a cached
     * league it compares `max(missing)` with the BLOCK keys and answers that
     * key's week, or nothing; otherwise the table's least block, or the
     * current block when the table has none.
     */
    method ProcessMissing(missing: seq<int>) returns (b: Option<int>)
      requires |missing| > 0 && BlocksOrdered(Snap())
      ensures b == Engine.ProcessMissing(Snap(), missing)
      ensures cached ==> (b.Some? <==> SeqMax(missing) in blocks)
      ensures !cached && FedBlocks(table) == {} ==> b == eBlockId
      ensures !cached && FedBlocks(table) != {} ==>
        b.Some? && b.value in FedBlocks(table) && forall c :: c in FedBlocks(table) ==> b.value <= c
    {
      if cached {
        var w := SeqMax(missing);
        var i := 0;
        while i < |blockOrder|
          invariant 0 <= i <= |blockOrder|
          invariant forall j :: 0 <= j < i ==> blockOrder[j] != w
        {
          var week := blockOrder[i];
          if week == w {
            return Some(blocks[week]);
          }
          i := i + 1;
        }
        b := None;
      } else {
        b := MinBlock(table);
        if b.None? {
          b := eBlockId;
        }
      }
    }

    // -------------------------------------------------------------------------
    // Dispatch

    /** The results requests of the catch-up loop (447-448) and of `get_future_weeks`, one per week in order. */
    method FetchResults(weeks: seq<int>)
      requires BlocksOrdered(Snap())
      modifies this`outbox, this`eventXs, this`resultXs, this`historyXs, this`statsXs
      ensures Snap() == FetchWeeks(old(Snap()), weeks)
    {
      var i := 0;
      while i < |weeks|
        invariant 0 <= i <= |weeks|
        invariant blocks == old(blocks) && blockOrder == old(blockOrder)
        invariant Snap() == FetchWeeks(old(Snap()), weeks[..i])
      {
        var b := GetBlockByWeek(weeks[i]);
        FetchWeeksStep(old(Snap()), weeks, i);
        NextResult(b, 1, 0);
        i := i + 1;
      }
      assert weeks[..|weeks|] == weeks;
    }

    /** `get_future_weeks`: enter the prefetch mode and ask for the results of each week. */
    method GetFutureWeeks(weeks: seq<int>)
      requires BlocksOrdered(Snap())
      modifies this`fetchingFuture, this`outbox, this`eventXs, this`resultXs, this`historyXs, this`statsXs
      ensures Snap() == FetchWeeks(old(Snap()).(fetchingFuture := true), weeks)
    {
      SetFetchingFuture(true);
      FetchResults(weeks);
    }

    /** `reset_tickets`. */
    method ResetTickets()
      modifies this`activeTickets
      ensures Snap() == Engine.ResetTickets(old(Snap()))
    {
      SetActiveTickets([]);
    }

    /** One ticket of `process_tickets`: registered with the account, then listed as active. */
    method Register(key: int)
      modifies this`calls, this`activeTickets
      ensures Snap() == Engine.Register(old(Snap()), key)
    {
      CallOn(RegisterTicket(key));
      SetActiveTickets(activeTickets + [key]);
    }

    /** `process_tickets`: the active tickets become exactly `keys`, each registered in turn. */
    method ProcessTickets(keys: seq<int>)
      modifies this`activeTickets, this`calls
      ensures Snap() == Engine.ProcessTickets(old(Snap()), keys)
    {
      ResetTickets();
      var i := 0;
      while i < |keys|
        invariant 0 <= i <= |keys|
        invariant Snap() == Engine.ProcessTickets(old(Snap()), keys[..i])
      {
        assert keys[..i + 1][..i] == keys[..i];
        Register(keys[i]);
        i := i + 1;
      }
      assert keys[..|keys|] == keys;
    }

    /**
     * `dispatch_events`: cache the league's fixtures while some week has no
     * block; else prefetch the required weeks still without results; else hand
     * over the players' tickets (phase TICKETS) or ask for results (phase RESULTS).
     */
    method DispatchEvents(env: Env)
      requires BlocksOrdered(Snap())
      modifies this
      ensures Snap() == Dispatch(cfg, old(Snap()), env)
    {
      var missing := MissingBlocks(cfg, Snap());
      if missing != [] {
        var b := eBlockId;
        SetCachingFuture(true);
        SetCached(false);
        NextBlockFuture(b);
      } else {
        var notReady := CheckWeeks(table, requiredWeeks);
        if FutureResults && notReady != [] {
          GetFutureWeeks(notReady);
        } else {
          PollPlayers(env);
        }
      }
    }

    /** The tail of `dispatch_events` once nothing is left to fetch: reset `history_count`, then tickets or results. */
    method PollPlayers(env: Env)
      modifies this
      ensures Snap() == Engine.PollPlayers(old(Snap()), env)
    {
      SetHistoryCount(0);
      if env.tickets != [] {
        SetPhase(AwaitingTickets);
        ProcessTickets(env.tickets);
      } else {
        SetPhase(AwaitingResults);
        NextBlockResult();
      }
    }

    // -------------------------------------------------------------------------
    // Fixtures

    /** Lines 394-403: a different (or first) league wipes the per-league state; match day 1 clears auto-skip. */
    method LeagueReset(l: Option<int>, matchDay: Option<int>)
      modifies this
      ensures Snap() == Engine.LeagueReset(old(Snap()), l, matchDay)
    {
      SetAutoSkip(autoSkip && matchDay != Some(1));
      SetLeagueGames(map[]);
      ForgetBlocks();
      SetCached(false);
      SetRequiredWeeks([]);
      SetLeague(l);
    }

    /**
     * The loop of lines 413-431: the statistics of the block by event id, and
     * each team's label recorded the first time its id is seen; `raised` when a
     * fixture's participants or ids cannot be read, which ends the loop there.
     */
    method LabelTeams(events: seq<FixtureEvent>) returns (stats: map<int, EventStats>, raised: bool)
      modifies this`teamLabels
      ensures (Snap(), raised) == Engine.LabelTeams(old(Snap()), events)
      ensures !raised ==> stats == StatsOf(events)
    {
      stats := map[];
      var i := 0;
      while i < |events|
        invariant 0 <= i <= |events|
        invariant i <= FirstBad(events)
        invariant teamLabels == RecordLabels(old(teamLabels), Tags(events[..i]))
        invariant stats == StatsOf(events[..i])
      {
        var e := events[i];
        var tags := EventTags(e);
        FirstBadNext(events, i);
        if tags.None? {
          return stats, true;
        }
        FixtureStep(old(teamLabels), events, i);
        stats := stats[e.eventId := e.stats];
        var t1, t2 := tags.value[0], tags.value[1];
        if t1.id !in teamLabels {
          teamLabels := teamLabels[t1.id := t1.code];
        }
        if t2.id !in teamLabels {
          teamLabels := teamLabels[t2.id := t2.code];
        }
        i := i + 1;
      }
      assert events[..|events|] == events;
      raised := false;
    }

    /** Lines 387-431 once the block is usable: block id, league reset, match day and labels. */
    method AdoptFixtures(d: FixtureBlock) returns (stats: map<int, EventStats>, raised: bool)
      requires WellFormedFixtures(d)
      modifies this
      ensures (Snap(), raised) == Engine.AdoptFixtures(old(Snap()), d)
      ensures !raised ==> stats == StatsOf(d.events)
    {
      var l := LeagueOf(d);
      SetEBlockId(d.eBlockId);
      if l != league || !Truthy(league) {
        LeagueReset(l, MatchDayOf(d));
      }
      SetWeek(MatchDayOf(d));
      stats, raised := LabelTeams(d.events);
    }

    /** Lines 433-452: auto-skip to the results, or feed the table and then dispatch, catch up or backfill. */
    method AfterFixtures(stats: map<int, EventStats>, env: Env)
      requires BlocksOrdered(Snap())
      modifies this
      ensures Snap() == Engine.AfterFixtures(cfg, old(Snap()), stats, env)
    {
      if autoSkip {
        SetPhase(AwaitingResults);
        NextBlockResult();
      } else {
        SetTable(FeedStats(OnEvent(table, league, week), league, week, stats));
        CatchUp(env);
      }
    }

    /** Lines 441-452: dispatch, ask for the missing weeks' results, or backfill history. */
    method CatchUp(env: Env)
      requires BlocksOrdered(Snap())
      modifies this
      ensures Snap() == Engine.CatchUp(cfg, old(Snap()), env)
    {
      var missing := MissingWeeks(table);
      if missing == [] {
        DispatchEvents(env);
      } else if cached {
        SetCachingMultiple(true);
        FetchResults(missing);
      } else {
        SetCaching(true);
        var b := ProcessMissing(missing);
        NextHistory(b, BackfillDepth, 0);
      }
    }

    /**
     * `resource_events_process`: `Invalid` when it raises `InvalidEvents`,
     * which happens before any change; `Raised` when the label loop raises.
     */
    method EventsProcess(d: FixtureBlock, env: Env) returns (exit: Exit)
      requires Engine.Valid(cfg, Snap())
      modifies this
      ensures (Snap(), exit) == Engine.EventsProcess(cfg, old(Snap()), d, env)
    {
      if !WellFormedFixtures(d) {
        return Invalid;
      }
      var stats, raised := AdoptFixtures(d);
      if raised {
        return Raised;
      }
      AdoptFixturesCalm(cfg, old(Snap()), d);
      AfterFixtures(stats, env);
      exit := Normal;
    }

    /** `resource_events_process_resume`. */
    method EventsResume(d: FixtureBlock, env: Env) returns (exit: Exit)
      requires Engine.Valid(cfg, Snap())
      modifies this
      ensures (Snap(), exit) == Engine.EventsResume(cfg, old(Snap()), d, env)
    {
      SetRestoring(false);
      exit := Normal;
      if d.eBlockId == eBlockId {
        if !env.demo {
          CallOn(ResumeCompetition);
          if !env.resumeTickets {
            NextBlockResult();
          }
        } else {
          NextBlockResult();
        }
      } else {
        CallOn(ResetCompetitionTickets);
        ResetTickets();
        ValidFrame(cfg, old(Snap()), Snap());
        exit := EventsProcess(d, env);
      }
    }

    /** The `try` block of `events_callback`. */
    method EventsTry(valid: bool, body: Body<FixtureBlock>, env: Env) returns (exit: Exit)
      requires Engine.Valid(cfg, Snap())
      modifies this
      ensures (Snap(), exit) == Engine.EventsTry(cfg, old(Snap()), valid, body, env)
    {
      if FirstIsDict(valid, body) {
        if restoring {
          exit := EventsResume(body.items[0].value, env);
        } else {
          exit := EventsProcess(body.items[0].value, env);
        }
      } else {
        exit := Invalid;
      }
    }

    /**
     * `events_callback`: an unknown id is ignored; a known one is consumed, and
     * a block that cannot be used asks again with the same `n`, without limit;
     * a fixture whose labels cannot be read raises out of the callback.
     */
    method EventsCallback(xs: nat, valid: bool, body: Body<FixtureBlock>, env: Env) returns (status: Status)
      requires Engine.Valid(cfg, Snap())
      modifies this
      ensures Outcome(Snap(), status) == Engine.EventsCallback(cfg, old(Snap()), xs, valid, body, env)
      ensures Consumes(cfg, old(Snap()), Events, xs, Outcome(Snap(), status))
    {
      if xs !in eventXs {
        return UnknownRequest;
      }
      var p := eventXs[xs];
      PopRequest(Events, xs);
      PopKeeps(cfg, old(Snap()), Events, xs);
      var exit := EventsTry(valid, body, env);
      if exit == Invalid {
        NextEvent(p.n);
      }
      status := if exit == Raised then Crashed else Done;
      EventsCallbackConsumes(cfg, old(Snap()), xs, valid, body, env);
    }

    // -------------------------------------------------------------------------
    // Results

    /**
     * The loop of lines 460-487: the settled events of a results block, teams
     * resolved through the labels; `None` where reading some event raises.
     */
    method ParseResults(events: seq<ResultEvent>) returns (o: Option<map<int, EventOutcome>>)
      ensures o == ResultOutcomes(events, teamLabels, cfg.markets)
    {
      var m := map[];
      var i := 0;
      while i < |events|
        invariant 0 <= i <= |events|
        invariant ResultOutcomes(events[..i], teamLabels, cfg.markets) == Some(m)
      {
        var e := events[i];
        assert events[..i + 1][..i] == events[..i];
        var r := ResultOf(e, teamLabels, cfg.markets);
        if r.None? {
          ResultOutcomesStop(events, i + 1, teamLabels, cfg.markets);
          return None;
        }
        m := m[e.eventId := r.value];
        i := i + 1;
      }
      assert events[..|events|] == events;
      o := Some(m);
    }

    /** `on_league_completed`: archive the league once the table is complete. */
    method LeagueCompleted()
      modifies this`calls
      ensures Snap() == Engine.LeagueCompleted(old(Snap()))
    {
      if IsComplete(table) {
        CallOn(StoreCompetition(league));
      }
    }

    /** Lines 493-526: what follows once a block's results are in the table. */
    method AfterResult(b: Option<int>, env: Env)
      requires BlocksOrdered(Snap())
      modifies this
      ensures Snap() == Engine.AfterResult(cfg, old(Snap()), b, env)
    {
      if cachingMultiple {
        if MissingWeeks(table) == [] {
          SetCachingMultiple(false);
          DispatchEvents(env);
        }
      } else if fetchingFuture {
        if CheckWeeks(table, requiredWeeks) == [] {
          SetFetchingFuture(false);
          DispatchEvents(env);
        }
      } else {
        AnnounceResult();
        if b == eBlockId {
          SetPhase(AwaitingEvents);
          NextBlockEvent();
        }
      }
    }

    /** Lines 511-521: notify the players, validate the tickets, and archive the league after its last week. */
    method AnnounceResult()
      modifies this`calls
      ensures Snap() == Engine.AnnounceResult(cfg, old(Snap()))
    {
      CallOn(NotifyResult);
      CallOn(ValidateTickets);
      if week == Some(cfg.maxWeek) {
        LeagueCompleted();
      }
    }

    /** `resource_result_process`; `crashed` when it raises (before any change). */
    method ResultProcess(d: ResultBlock, env: Env) returns (crashed: bool)
      requires BlocksOrdered(Snap())
      modifies this
      ensures (Snap(), crashed) == Engine.ResultProcess(cfg, old(Snap()), d, env)
    {
      var w := WeekByBlock(blocks, d.eBlockId);
      var outcomes := ParseResults(d.events);
      if outcomes.None? {
        return true;
      }
      crashed := false;
      if autoSkip {
        SetPhase(AwaitingEvents);
        NextBlockEvent();
      } else {
        SetTable(FeedResult(table, d.eBlockId, league, w, outcomes.value));
        AfterResult(d.eBlockId, env);
      }
    }

    /** The handler of `InvalidResults` and `InvalidHistory`: skip after `RetryLimit` retries, else ask again. */
    method RetryOrSkip(kind: ResourceKind, p: Pending)
      modifies this
      ensures Snap() == Engine.RetryOrSkip(old(Snap()), kind, p)
    {
      if p.retry > RetryLimit {
        SetAutoSkip(true);
        NextBlockEvent();
      } else {
        Issue(kind, p.eBlockId, p.n, p.retry + 1);
      }
    }

    /** `results_callback`. */
    method ResultsCallback(xs: nat, valid: bool, body: Body<ResultBlock>, env: Env) returns (status: Status)
      requires Engine.Valid(cfg, Snap())
      modifies this
      ensures Outcome(Snap(), status) == Engine.ResultsCallback(cfg, old(Snap()), xs, valid, body, env)
      ensures Consumes(cfg, old(Snap()), Results, xs, Outcome(Snap(), status))
    {
      if xs !in resultXs {
        return UnknownRequest;
      }
      var p := resultXs[xs];
      PopRequest(Results, xs);
      if FirstIsDict(valid, body) {
        var crashed := ResultProcess(body.items[0].value, env);
        status := if crashed then Crashed else Done;
      } else {
        RetryOrSkip(Results, p);
        status := Done;
      }
      ResultsCallbackConsumes(cfg, old(Snap()), xs, valid, body, env);
    }

    // -------------------------------------------------------------------------
    // History

    /**
     * The event loop of lines 321-356: the week's fixtures and, when `settle`
     * (the `caching` flag), its settled events; `None` where reading a settlement raises.
     */
    method ReadWeek(events: seq<HistoryEvent>, settle: bool) returns (games: map<int, Match>, outcomes: Option<map<int, EventOutcome>>)
      ensures outcomes == if settle then HistoryOutcomes(events, cfg.markets) else Some(map[])
      ensures outcomes.Some? ==> games == HistoryMatches(events)
    {
      games := map[];
      var m := map[];
      var i := 0;
      while i < |events|
        invariant 0 <= i <= |events|
        invariant games == HistoryMatches(events[..i])
        invariant settle ==> HistoryOutcomes(events[..i], cfg.markets) == Some(m)
        invariant !settle ==> m == map[]
      {
        var e := events[i];
        assert events[..i + 1][..i] == events[..i];
        games := games[e.eventId := Match(e.home.fifaCode, e.away.fifaCode, i, e.home, e.away)];
        if settle && e.result.Some? {
          var st := Settle(e.result.value, cfg.markets);
          if st.None? {
            HistoryOutcomesStop(events, i + 1, cfg.markets);
            return games, None;
          }
          var row := ResultRow(e.eventId, Some(e.home.fifaCode), Some(e.away.fifaCode), st.value.score);
          m := m[e.eventId := EventOutcome(row, st.value.won, st.value.handicap)];
        }
        i := i + 1;
      }
      assert events[..|events|] == events;
      outcomes := Some(m);
    }

    /** One week of a history batch (lines 306-359); `crashed` when it raises. */
    method HistoryEntry(e: Element<HistoryWeek>) returns (crashed: bool)
      modifies this
      ensures (Snap(), crashed) == Engine.HistoryEntry(cfg, old(Snap()), e)
    {
      match e
      case NotDict =>
        crashed := true;
      case Dict(w) =>
        crashed := false;
        if w.leagueId == league {
          SetBlock(w.eBlockId, w.matchDay);
          var games, outcomes := ReadWeek(w.events, caching);
          if outcomes.None? {
            crashed := true;
          } else {
            SetLeagueGames(leagueGames[w.matchDay := games]);
            if caching {
              SetTable(FeedResult(table, Some(w.eBlockId), w.leagueId, Some(w.matchDay), outcomes.value));
            }
          }
        }
    }

    /** The loop over a history batch, which stops at the first week that raises. */
    method ApplyHistory(entries: seq<Element<HistoryWeek>>) returns (crashed: bool)
      modifies this
      ensures (Snap(), crashed) == Engine.ApplyHistory(cfg, old(Snap()), entries)
    {
      crashed := false;
      var i := 0;
      while i < |entries|
        invariant 0 <= i <= |entries|
        invariant (Snap(), false) == Engine.ApplyHistory(cfg, old(Snap()), entries[..i])
      {
        assert entries[..i + 1][..i] == entries[..i];
        crashed := HistoryEntry(entries[i]);
        i := i + 1;
        if crashed {
          ApplyHistoryStop(cfg, old(Snap()), entries, i);
          return;
        }
      }
      assert entries[..|entries|] == entries;
    }

    /** `resource_history_process`; `crashed` when it raises. */
    method HistoryProcess(entries: seq<Element<HistoryWeek>>, env: Env) returns (crashed: bool)
      requires Engine.Valid(cfg, Snap())
      modifies this
      ensures (Snap(), crashed) == Engine.HistoryProcess(cfg, old(Snap()), entries, env)
    {
      crashed := ApplyHistory(entries);
      if crashed {
        return;
      }
      ApplyHistoryKeeps(cfg, old(Snap()), entries);
      crashed := HistoryTail(env);
    }

    /** Lines 360-381, after the loop. */
    method HistoryTail(env: Env) returns (crashed: bool)
      requires BlocksOrdered(Snap())
      modifies this
      ensures (Snap(), crashed) == Engine.HistoryTail(cfg, old(Snap()), env)
    {
      crashed := false;
      if caching {
        Backfill(env);
      } else if cachingFuture {
        crashed := FutureTail(env);
      }
    }

    /** Lines 360-367: ask for older history while some week misses results; else dispatch. */
    method Backfill(env: Env)
      requires BlocksOrdered(Snap())
      modifies this
      ensures Snap() == Engine.Backfill(cfg, old(Snap()), env)
    {
      var missing := MissingWeeks(table);
      if missing != [] {
        var b := ProcessMissing(missing);
        NextHistory(b, BackfillDepth, 0);
      } else {
        SetCaching(false);
        DispatchEvents(env);
      }
    }

    /** Lines 370-381: cache the coming blocks until every week has one, then dispatch. */
    method FutureTail(env: Env) returns (crashed: bool)
      requires BlocksOrdered(Snap())
      modifies this
      ensures (Snap(), crashed) == Engine.FutureTail(cfg, old(Snap()), env)
    {
      crashed := false;
      if MissingBlocks(cfg, Snap()) != [] {
        if blocks == map[] {
          crashed := true;  // max() of no block keys raises
        } else {
          NextBlockFuture(Some(SetMax(blocks.Keys)));
        }
      } else {
        SetCachingFuture(false);
        SetCached(true);
        SetRequiredWeeks(RequiredWeeks(cfg, env.playerWeeks));
        DispatchEvents(env);
      }
    }

    /** Lines 279-281: above `MaxHistoryCount` history responses, skip the league (processing still goes on). */
    method Tripwire()
      modifies this
      ensures Snap() == Engine.Tripwire(old(Snap()))
    {
      if historyCount > MaxHistoryCount {
        SetAutoSkip(true);
        NextBlockEvent();
      }
    }

    /** `history_callback` from the `pop` on. */
    method HistoryConsume(xs: nat, valid: bool, body: Body<HistoryWeek>, env: Env) returns (status: Status)
      requires Engine.Valid(cfg, Snap())
      modifies this
      ensures Outcome(Snap(), status) == Engine.HistoryConsume(cfg, old(Snap()), xs, valid, body, env)
    {
      if xs !in historyXs {
        return UnknownRequest;
      }
      var p := historyXs[xs];
      PopRequest(History, xs);
      PopKeeps(cfg, old(Snap()), History, xs);
      if valid && body.List? {
        var crashed := HistoryProcess(body.items, env);
        status := if crashed then Crashed else Done;
      } else {
        RetryOrSkip(History, p);
        status := Done;
      }
    }

    /** `history_callback`. */
    method HistoryCallback(xs: nat, valid: bool, body: Body<HistoryWeek>, env: Env) returns (status: Status)
      requires Engine.Valid(cfg, Snap())
      modifies this
      ensures Outcome(Snap(), status) == Engine.HistoryCallback(cfg, old(Snap()), xs, valid, body, env)
      ensures Consumes(cfg, old(Snap()), History, xs, Outcome(Snap(), status))
    {
      Tripwire();
      status := HistoryConsume(xs, valid, body, env);
      HistoryCallbackConsumes(cfg, old(Snap()), xs, valid, body, env);
    }

    // -------------------------------------------------------------------------
    // Entry points

    /**
     * `receive`: a response goes to the callback of its kind (with a truthy
     * validity flag, see Engine.Receive); statistics responses change nothing.
     */
    method Receive(xs: nat, r: Response, env: Env) returns (status: Status)
      requires Engine.Valid(cfg, Snap())
      modifies this
      ensures Outcome(Snap(), status) == Engine.Receive(cfg, old(Snap()), xs, r, env)
      ensures Engine.Valid(cfg, Snap())
    {
      match r
      case EventsBody(b) =>
        status := EventsCallback(xs, true, b, env);
      case ResultsBody(b) =>
        status := ResultsCallback(xs, true, b, env);
      case HistoryBody(b) =>
        status := HistoryCallback(xs, true, b, env);
      case StatsBody =>
        status := Done;
    }

    /** `start`: a lost connection comes back restoring; either way ask for fixtures. */
    method Start()
      requires Engine.Valid(cfg, Snap())
      modifies this
      ensures Snap() == Engine.Start(old(Snap()))
      ensures Grows(old(Snap()), Snap()) && Engine.Valid(cfg, Snap())
    {
      SetRestoring(restoring || lost);
      SetLost(false);
      NextBlockEvent();
      StartKeeps(cfg, old(Snap()));
    }

    /** The `online` setter: going online when offline, or when the connection was lost, starts the engine. */
    method SetOnline(on: bool)
      requires Engine.Valid(cfg, Snap())
      modifies this
      ensures Snap() == Engine.SetOnline(old(Snap()), on)
      ensures Grows(old(Snap()), Snap()) && Engine.Valid(cfg, Snap())
    {
      var start := on && (!online || lost);
      SetOnlineFlag(on);
      if start {
        ValidFrame(cfg, old(Snap()), Snap());
        Start();
      }
      SetOnlineKeeps(cfg, old(Snap()), on);
    }

    /** `on_ticket_complete`: the players' tickets are in, so ask for the block's results. */
    method OnTicketComplete()
      requires Engine.Valid(cfg, Snap())
      modifies this
      ensures Snap() == Engine.OnTicketComplete(old(Snap()))
      ensures Grows(old(Snap()), Snap()) && Engine.Valid(cfg, Snap())
    {
      SetPhase(AwaitingResults);
      NextBlockResult();
      TicketEventsKeep(cfg, old(Snap()));
    }
  }
}
