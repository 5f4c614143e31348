# League competition engine

This project models `LeagueCompetition` from vbet (`vbet/game/competition.py`).
It is the per-game state machine of a virtual-football betting bot. The engine
works in four steps:

- It asks a feed for blocks of fixtures, results and history. A builder for
  statistics requests exists too, but nothing in the engine calls it.
- It correlates each response with its request through four ledgers keyed by
  the transport's request id.
- It tracks which block belongs to which week of the current league.
- It hands over to the betting players once every week it needs has results.

The model has two layers.

- **Module `Engine`** (`engine.dfy`): one pure transition per routine of the
  source. Each transition works on a snapshot `St` of every field the engine
  reads or writes. The transport is a `Wire`, which holds:
  - the append-only `outbox` of every request sent. A request's id is its
    position in the outbox, so ids never repeat. This is an assumption about
    the transport (see "Left out").
  - the four ledgers `eventXs`, `resultXs`, `historyXs` and `statsXs`.

  `Valid` is the invariant:
  - every ledger entry is a request of its kind that was sent under exactly
    that id;
  - the block insertion order lists the block keys without duplicates;
  - `history_count` is 0;
  - the table has the league's length.
- **Module `Competition`** (`competition.dfy`): the class `LeagueCompetition`,
  with the source's fields updated in place. The loops of the source are
  `while` loops with invariants. Each method is proved to leave exactly the
  snapshot that the matching `Engine` transition computes. So everything
  proved about the transitions holds of the object. Each field the routines
  assign is assigned through a small method with its own frame (`SetPhase`,
  `SetCached`, …). Each of these methods states the whole new snapshot, so
  the verifier reasons about one field at a time and not about all 23 fields
  after every assignment.

A routine of the source can end in three ways. The datatype `Exit` names
them:

- `Normal`: the routine returns.
- `Invalid`: it raises `InvalidEvents`, which its callback catches.
- `Raised`: any other exception, which escapes the callback.

A callback whose handler raises reports the status `Crashed`, and its state
is the state at the raise.

Supporting modules:

| module | file | contents |
|---|---|---|
| `LedgerProperties` | `ledger_props.dfy` | Ledger bookkeeping. Every transition only grows the wire and keeps `Valid`. Every callback consumes the entry of its response. |
| `EngineProperties` | `engine_props.dfy` | Retries and skipping, the league-change reset, the history league filter, dispatch and the block/week helpers. |
| `Feed` | `feed.dfy` | Response shapes, the video-URL id extraction, the correct-score lookup. |
| `Rounds` | `rounds.dfy` | Week ranges, maxima and minima. |
| `LeagueTable` | `table.dfy` | A minimal table: the seven operations the engine calls. |

Calls on collaborators are recorded in order in `calls`:

- account: `resume_competition`, `reset_competition_tickets`,
  `validate_competition_tickets`, `register_ticket`, `store_competition`;
- players: `on_result`.

What the collaborators answer within one callback is a parameter `Env`:

- whether the account is a demo;
- whether it resumes tickets;
- the keys of the tickets the players produce;
- the weeks the players use.

The model keeps these behaviours of the code as written:

- `process_missing` unpacks `blocks.items()` as `(week, block)`, although
  `blocks` maps block to week. For a cached league it therefore looks the
  largest missing week up among the block ids (`ProcessMissingLooksUpBlockKeys`).
- `get_required_weeks` returns the weeks the players do *not* use
  (`RequiredWeeksComplement`), in an order the model fixes as ascending (see "Left out").
- `history_count` is only ever reset to 0. So the tripwire of
  `history_callback` never fires from a valid state (`TripwireDormant`). When
  it does fire, processing falls through (`TripwireFallsThrough`,
  `TripwireSendsTwo`).
- `receive` passes the resource name in the `valid_response` position. So the
  callbacks see a truthy validity flag whenever that name is non-empty, which
  the model assumes (`Engine.Receive`).
- A fixtures response that cannot be used is asked for again with no bound
  (`FixturesRetryUnbounded`).
- `next_stats` builds a statistics request and records it in `stats_xs`. But
  nothing in the engine calls `next_stats`, so no statistics request is ever
  sent. No `stats_callback` exists either, so `receive` would drop a
  statistics response.

## Model

| member | source | states |
|---|---|---|
| Engine.MaxWeekFor | vbet/game/competition.py:41 | `max_week` is 34 exactly for the two short leagues, and 38 otherwise |
| Competition.LeagueCompetition.constructor | vbet/game/competition.py:34-78 | the new engine has nothing sent and empty ledgers, blocks and labels; `max_week` is derived from the game id; the invariant holds |
| Competition.LeagueCompetition.Send | vbet/game/competition.py:577-578 | the request goes to the end of the outbox, and its id is its position there |
| Competition.LeagueCompetition.Issue | vbet/game/competition.py:184-213 | a `next_*` builder: the request is sent, then recorded in the ledger of its kind under the id the transport returned |
| Competition.LeagueCompetition.NextEvent | vbet/game/competition.py:184-189 | one fixtures request for `n`, at retry 0, recorded in `event_xs` |
| Competition.LeagueCompetition.NextResult | vbet/game/competition.py:191-197 | one results request for the block and `n` with the given retry count, recorded in `result_xs` |
| Competition.LeagueCompetition.NextHistory | vbet/game/competition.py:199-205 | one history request for the block and `n` with the given retry count, recorded in `history_xs` |
| Competition.LeagueCompetition.NextStats | vbet/game/competition.py:207-213 | one statistics request, recorded in `stats_xs` |
| Competition.LeagueCompetition.NextBlockResult | vbet/game/competition.py:216-218 | asks for the results of the current block with `n = 1` |
| Competition.LeagueCompetition.NextBlockEvent | vbet/game/competition.py:220-221 | asks for fixtures with `n = 1` |
| Competition.LeagueCompetition.NextBlockFuture | vbet/game/competition.py:223-224 | asks for 10 weeks of history anchored at the given block |
| Competition.LeagueCompetition.GetBlockByWeek | vbet/game/competition.py:680-683 | finds the first block in insertion order whose week is `w`; that block's week is `w`; there is none exactly when no block belongs to `w` |
| Competition.LeagueCompetition.ProcessMissing | vbet/game/competition.py:688-698 | cached: a block is found exactly when the largest missing week is a block KEY. Uncached: the least block the table was fed from, or else the current block |
| Competition.LeagueCompetition.FetchResults | vbet/game/competition.py:447-448 | one results request per week in order, each anchored at that week's first block |
| Competition.LeagueCompetition.GetFutureWeeks | vbet/game/competition.py:708-713 | sets `fetching_future`, then sends one results request per week, anchored at the week's block |
| Competition.LeagueCompetition.ResetTickets | vbet/game/competition.py:666-667 | the active tickets become empty |
| Competition.LeagueCompetition.ProcessTickets | vbet/game/competition.py:606-614 | the active tickets become exactly the given keys; each ticket is registered in turn |
| Competition.LeagueCompetition.DispatchEvents | vbet/game/competition.py:548-574 | leaves exactly the state of the `dispatch_events` transition (its outcomes are the Dispatch* lemmas) |
| Competition.LeagueCompetition.PollPlayers | vbet/game/competition.py:560-574 | resets `history_count`; then hands over the players' tickets (phase TICKETS), or asks for results (phase RESULTS) |
| Competition.LeagueCompetition.LeagueReset | vbet/game/competition.py:394-403 | a different or first league empties the fixtures, blocks and required weeks, clears `cached` and adopts the league; match day 1 clears auto-skip |
| Competition.LeagueCompetition.LabelTeams | vbet/game/competition.py:413-431 | the fixtures are walked in order. Each participant id gets the code of the first fixture that names it, and a known id keeps its label. The walk stops (raised) at the first fixture whose participants are missing or whose ids `int()` rejects, keeping the labels of the fixtures before it. When it does not stop, the returned statistics are those of every event |
| Engine.EventTags | vbet/game/competition.py:416-425 | a fixture yields its two teams exactly when it has participants and both ids read as integers; the tags carry the two `fifaCode`s in order |
| Engine.FirstBad | vbet/game/competition.py:413-425 | the index of the first fixture whose teams cannot be read (the length when there is none); every fixture before it can be read |
| Engine.FirstCode | vbet/game/competition.py:427-430 | the code of the first tag with the given id, found exactly when some tag has that id |
| Competition.LeagueCompetition.AdoptFixtures | vbet/game/competition.py:390-431 | a usable block sets the block id and the match day after the league reset, then labels the teams; it raises where labelling raises, keeping what was written before the raise |
| Competition.LeagueCompetition.AfterFixtures | vbet/game/competition.py:433-452 | auto-skip goes straight to the block's results; otherwise the table takes the fixtures, then the engine catches up |
| Competition.LeagueCompetition.CatchUp | vbet/game/competition.py:441-452 | nothing missing: dispatch. Cached league: ask for every missing week's results. Otherwise: start caching and ask for older history |
| Competition.LeagueCompetition.EventsProcess | vbet/game/competition.py:383-452 | a block without a truthy block id, league or match day is `InvalidEvents` before any change; a block with unreadable teams raises mid-way; otherwise the fixtures are adopted and processed |
| Competition.LeagueCompetition.EventsResume | vbet/game/competition.py:528-546 | clears `restoring`. Same block: resume tickets or ask for results. Other block: reset the tickets and process the fixtures afresh |
| Competition.LeagueCompetition.EventsTry | vbet/game/competition.py:229-241 | a non-empty list whose first element is a dict is processed (resumed when restoring); anything else is `InvalidEvents` |
| Competition.LeagueCompetition.EventsCallback | vbet/game/competition.py:227-247 | consumes the response's `event_xs` entry for good; an unusable response asks again with the same `n`; a handler that raises anything other than `InvalidEvents` crashes the callback; the invariant holds |
| Competition.LeagueCompetition.ParseResults | vbet/game/competition.py:460-487 | the outcomes of the block's events, keyed by event id; `None` exactly when some event raises (see `Engine.ResultOf`) |
| Engine.ResultOf | vbet/game/competition.py:462-487 | an event is read exactly when it has a `result` with `data` and a `videoURL`, the URL's fields 4 and 5 are integers, and its settlement can be read. The row holds the event id, the labels of the two URL teams and the settled score |
| Feed.Settle | vbet/game/competition.py:338-353 | a settlement is read exactly when it has `data` and `wonMarkets`, a won market is a correct-score id whose score the table knows, and every won id reads as an integer. Then the score is the table's entry, the won ids are the parsed won markets in order, and the handicap is carried along |
| Competition.LeagueCompetition.LeagueCompleted | vbet/game/competition.py:739-756 | the league is stored exactly when the table is complete; the raise while building the stored archive is left out |
| Competition.LeagueCompetition.AnnounceResult | vbet/game/competition.py:511-521 | notifies the players, validates the tickets, and stores the league after its last week |
| Competition.LeagueCompetition.AfterResult | vbet/game/competition.py:493-526 | catching up: dispatch once nothing is missing. Prefetching: dispatch once the required weeks are ready. Live: announce, then ask for fixtures when the block is current |
| Competition.LeagueCompetition.ResultProcess | vbet/game/competition.py:454-526 | raises before any change when some event of the block cannot be read; otherwise skips or feeds the table |
| Competition.LeagueCompetition.RetryOrSkip | vbet/game/competition.py:271-276 | more than 3 retries: latch auto-skip and ask for fixtures; else the same request with the count plus one |
| Competition.LeagueCompetition.ResultsCallback | vbet/game/competition.py:249-276 | consumes the response's `result_xs` entry for good; retries or skips an unusable response; the invariant holds |
| Competition.LeagueCompetition.ReadWeek | vbet/game/competition.py:322-355 | the week's fixtures, and, while caching, its settled outcomes; fails where reading a settlement raises |
| Competition.LeagueCompetition.HistoryEntry | vbet/game/competition.py:306-359 | a week of another league changes nothing; a week of the league records its block, its fixtures and (caching) its results |
| Competition.LeagueCompetition.ApplyHistory | vbet/game/competition.py:306-359 | the weeks in order, stopping at the first that raises |
| Competition.LeagueCompetition.HistoryProcess | vbet/game/competition.py:304-381 | the batch, then the backfill or the future caching that follows it |
| Competition.LeagueCompetition.HistoryTail | vbet/game/competition.py:360-381 | caching: backfill; caching the future: cache further blocks; otherwise nothing |
| Competition.LeagueCompetition.Backfill | vbet/game/competition.py:360-368 | weeks still missing: ask for older history at the block `process_missing` picks; else clear `caching` and dispatch |
| Competition.LeagueCompetition.FutureTail | vbet/game/competition.py:370-381 | weeks without a block: ask for history after the largest block (raises when there is none); else mark the league cached, compute the required weeks and dispatch |
| Competition.LeagueCompetition.Tripwire | vbet/game/competition.py:279-281 | above the history limit: latch auto-skip and ask for fixtures; below it: nothing |
| Competition.LeagueCompetition.HistoryConsume | vbet/game/competition.py:282-302 | pops the entry; processes a list, or retries or skips |
| Competition.LeagueCompetition.HistoryCallback | vbet/game/competition.py:278-302 | consumes the response's `history_xs` entry for good; retries or skips an unusable response; the invariant holds |
| Competition.LeagueCompetition.Receive | vbet/game/competition.py:580-587 | routes the response by kind with a truthy validity flag; the invariant holds |
| Competition.LeagueCompetition.Start | vbet/game/competition.py:110-114 | a lost connection comes back restoring; either way one fixtures request is sent; the wire only grows and the invariant holds |
| Competition.LeagueCompetition.SetOnline | vbet/game/competition.py:85-96 | going online while offline or lost starts the engine; the wire only grows and the invariant holds |
| Competition.LeagueCompetition.OnTicketComplete | vbet/game/competition.py:669-672 | phase RESULTS and one results request for the current block; the invariant holds |
| LedgerProperties.InitialValid | vbet/game/competition.py:34-78 | the state `__init__` builds satisfies the invariant and has sent nothing |
| LedgerProperties.NextIdFresh | vbet/game/competition.py:577-578 | under the invariant the next request id is in no ledger |
| LedgerProperties.PostRecords | vbet/game/competition.py:184-213 | sending adds exactly one entry, under the returned id, to the ledger of its kind; the other ledgers do not change; one request is appended |
| LedgerProperties.PopRecords | vbet/game/competition.py:228 | consuming removes exactly that entry; the other ledgers and the outbox do not change |
| LedgerProperties.FreshRequestsStartAtZero | vbet/game/competition.py:184-224 | the block builders for fixtures, results, future history and statistics send their request at retry count 0 |
| LedgerProperties.IssueKeeps | vbet/game/competition.py:184-213 | sending from a valid state keeps the invariant and only grows the wire |
| LedgerProperties.IssueSendsThenRecords | vbet/game/competition.py:184-213 | issuing is sending and then recording under the id the transport handed back |
| LedgerProperties.ConsumedStaysGone | vbet/game/competition.py:250 | once consumed, an id never comes back into its ledger, whatever is sent later |
| LedgerProperties.ProcessTicketsSpec | vbet/game/competition.py:606-614 | the active tickets are exactly the given ones, each registered in order, and nothing else changes |
| LedgerProperties.DispatchKeeps | vbet/game/competition.py:548-574 | dispatch only grows the wire and keeps the invariant |
| LedgerProperties.AfterFixturesKeeps | vbet/game/competition.py:433-452 | the tail of fixtures processing only grows the wire and keeps the invariant |
| LedgerProperties.CatchUpKeeps | vbet/game/competition.py:441-452 | the catch-up only grows the wire and keeps the invariant |
| LedgerProperties.EventsProcessKeeps | vbet/game/competition.py:383-452 | a usable fixtures block only grows the wire and keeps the invariant |
| LedgerProperties.EventsResumeKeeps | vbet/game/competition.py:528-546 | resuming only grows the wire and keeps the invariant, whether or not the block is the same |
| LedgerProperties.EventsCallbackConsumes | vbet/game/competition.py:227-247 | an unknown id changes nothing. A known one leaves its ledger for good, later requests are recorded, and the invariant holds, whether or not the handler raises |
| LedgerProperties.EventsProcessRaises | vbet/game/competition.py:383-431 | fixtures processing raises past `InvalidEvents` exactly when the block is well formed and one of its fixtures has unreadable teams |
| LedgerProperties.EventsTryRaises | vbet/game/competition.py:229-241 | the fixtures handler raises past `InvalidEvents` exactly when the first element is a usable dict with a fixture whose teams cannot be read, and it is processed afresh (not restoring, or restoring onto another block) |
| LedgerProperties.EventsCallbackCrashes | vbet/game/competition.py:227-247 | a known fixtures response crashes the callback exactly when the handler raises past `InvalidEvents` |
| LedgerProperties.ResultProcessKeeps | vbet/game/competition.py:454-526 | results processing only grows the wire and keeps the invariant |
| LedgerProperties.RetryOrSkipKeeps | vbet/game/competition.py:271-276 | the retry-or-skip handler only grows the wire and keeps the invariant |
| LedgerProperties.ResultsCallbackConsumes | vbet/game/competition.py:249-276 | an unknown id changes nothing; a known one leaves its ledger for good, later requests are recorded, and the invariant holds |
| LedgerProperties.SetBlockOrdered | vbet/game/competition.py:317 | `blocks[b] = w` keeps the insertion order a duplicate-free list of exactly the block keys |
| LedgerProperties.HistoryEntryFrame | vbet/game/competition.py:306-359 | one history week touches only the blocks, the fixtures and the table, and never the table's length |
| LedgerProperties.ApplyHistoryKeeps | vbet/game/competition.py:306-359 | a history batch only grows the wire and keeps the invariant |
| LedgerProperties.HistoryProcessKeeps | vbet/game/competition.py:304-381 | history processing only grows the wire and keeps the invariant |
| LedgerProperties.HistoryCallbackConsumes | vbet/game/competition.py:278-302 | an unknown id changes nothing; a known one leaves its ledger for good, later requests are recorded, and the invariant holds |
| LedgerProperties.ReceiveConsumes | vbet/game/competition.py:580-587 | each kind reaches its own callback; statistics responses change nothing |
| LedgerProperties.StartKeeps | vbet/game/competition.py:110-114 | `start` only grows the wire and keeps the invariant |
| LedgerProperties.SetOnlineKeeps | vbet/game/competition.py:85-96 | the `online` setter only grows the wire and keeps the invariant |
| LedgerProperties.TicketEventsKeep | vbet/game/competition.py:666-672 | `on_ticket_complete` and `reset_tickets` only grow the wire and keep the invariant |
| EngineProperties.ResultsRetry | vbet/game/competition.py:249-276 | an unusable results response with retry count at most 3 sends exactly one request, for the same block and `n` with the count plus one; nothing else changes |
| EngineProperties.ResultsSkip | vbet/game/competition.py:271-273 | with more than 3 retries auto-skip latches, and the one request sent is a fixtures request |
| EngineProperties.HistoryRetry | vbet/game/competition.py:278-302 | the same retry for history responses |
| EngineProperties.HistorySkip | vbet/game/competition.py:297-299 | the same skip for history responses |
| EngineProperties.FixturesRetryUnbounded | vbet/game/competition.py:227-247 | an unusable fixtures response, at any point, only consumes its entry and asks again with the same `n` |
| EngineProperties.ResultsWhileSkipping | vbet/game/competition.py:488-491 | while auto-skip is latched, a results block is not fed to the table; the phase becomes EVENTS, one fixtures request is sent, and nothing else changes |
| EngineProperties.ResultsLive | vbet/game/competition.py:492-526 | on the live path the results are fed and announced; phase EVENTS and a fixtures request follow exactly when the block is the current one |
| EngineProperties.ResultsLiveFrame | vbet/game/competition.py:492-526 | on the live path only the table, the calls, the phase and the wire change |
| EngineProperties.AnnounceResultCalls | vbet/game/competition.py:511-521 | the announcement notifies and validates first, and changes only the calls |
| EngineProperties.TripwireDormant | vbet/game/competition.py:279-281 | from a valid state the tripwire never fires |
| EngineProperties.TripwireFallsThrough | vbet/game/competition.py:279-283 | when it fires, it asks for fixtures and then still consumes and processes the response |
| EngineProperties.TripwireSendsTwo | vbet/game/competition.py:279-302 | an unusable history response past the tripwire then sends two requests |
| EngineProperties.DispatchFuture | vbet/game/competition.py:549-554 | while a week has no block: set `caching_future`, clear `cached`, and ask for history at the current block |
| EngineProperties.DispatchCatchUp | vbet/game/competition.py:555-558 | every week has a block but some required week lacks results: ask for each such week's results |
| EngineProperties.DispatchTickets | vbet/game/competition.py:559-570 | otherwise reset `history_count`; with tickets, phase TICKETS, those tickets active and registered, nothing sent |
| EngineProperties.DispatchNoTickets | vbet/game/competition.py:559-574 | without tickets reset `history_count`, phase RESULTS, and one results request for the current block |
| EngineProperties.FetchWeeksSends | vbet/game/competition.py:447-448 | the catch-up sends one results request per week, in order, at retry 0, anchored at the week's first block |
| EngineProperties.DispatchKeepsLeague | vbet/game/competition.py:548-574 | dispatch keeps the league, its fixtures and its blocks, and may only clear `cached` |
| EngineProperties.LeagueChangeResets | vbet/game/competition.py:394-404 | a different or first league empties the fixtures, blocks and required weeks, clears `cached` and adopts the league; auto-skip is cleared only by match day 1; the same league keeps all of it |
| EngineProperties.ForeignWeekSkipped | vbet/game/competition.py:313-314 | a history week of another league changes nothing and does not raise |
| EngineProperties.OwnWeekRecorded | vbet/game/competition.py:317-356 | a week of the league sets `blocks[eBlockId] = matchDay` and its fixtures, unless the score lookup raises while caching; the league never changes |
| EngineProperties.ApplyHistoryKeepsLeague | vbet/game/competition.py:306-359 | a history batch never changes the league |
| EngineProperties.ForeignLeagueFiltered | vbet/game/competition.py:313-314 | dropping the other leagues' weeks from a batch gives the same result |
| EngineProperties.MissingBlocksSpec | vbet/game/competition.py:675-678 | `get_missing_blocks` lists exactly the weeks 1..max_week that no block belongs to, each once; the model lists them in ascending order |
| EngineProperties.BlockByWeekFound | vbet/game/competition.py:680-686 | a block found for week `w` belongs to `w`, so `get_week_by_block` gives `w` back |
| EngineProperties.BlockByWeekMissing | vbet/game/competition.py:680-683 | none is found exactly when no block belongs to `w` |
| EngineProperties.RequiredWeeksComplement | vbet/game/competition.py:700-706 | the required weeks are the weeks of the league the players do NOT use, each once; the model lists them in ascending order |
| EngineProperties.ProcessMissingLooksUpBlockKeys | vbet/game/competition.py:688-693 | cached, block 100 of week 3 and week 3 missing: nothing is found, although `get_block_by_week(3)` is 100 |
| EngineProperties.ProcessMissingUncached | vbet/game/competition.py:694-698 | uncached: the table's least block, or the current block when the table has none |
| EngineProperties.FixtureStep | vbet/game/competition.py:413-431 | one readable fixture of the loop: the labels after it are the labels before it with its two teams added, and its statistics are recorded |
| EngineProperties.FirstBadNext | vbet/game/competition.py:413-425 | a fixture the walk reaches can be read exactly when it comes before the first unreadable one |
| EngineProperties.LabelsFirstSeen | vbet/game/competition.py:427-430 | after labelling a list of tags, an id is labelled exactly when it was labelled before or some tag names it; a known id keeps its label, and a new id gets the code of the first tag naming it |
| EngineProperties.LabelTeamsFirstSeen | vbet/game/competition.py:413-431 | labelling a block raises exactly when some fixture's teams cannot be read. The labels are the old labels plus the first code seen for each new id among the fixtures before the first unreadable one. Nothing else changes |
| EngineProperties.ResultOutcomesStop | vbet/game/competition.py:462-487 | once an event of a results block raises, the whole block raises |
| EngineProperties.ResultOutcomesTotal | vbet/game/competition.py:462-487 | a results block is read exactly when every event of it can be read, and then every event id is a key of the outcomes |
| EngineProperties.HistoryOutcomesStop | vbet/game/competition.py:322-355 | once an event of a history week raises, the whole week raises |
| EngineProperties.ApplyHistoryStop | vbet/game/competition.py:306-359 | a batch stops at the first week that raises; later weeks change nothing |
| Feed.CorrectScoreMarket | vbet/game/competition.py:345-348 | the chosen market is a won market spelling one of `"15"`..`"42"`; there is none exactly when no won market spells a number of that range |
| Feed.CorrectScoreId | vbet/game/competition.py:345-347 | a market string is a correct-score id only if it is exactly the decimal spelling of a number in 15..42 |
| Feed.CorrectScoreIdShow | vbet/game/competition.py:346 | every number in 15..42 has its spelling accepted as a correct-score id |
| Feed.NoCorrectScore | vbet/game/competition.py:345-348 | there is no correct-score market exactly when no won market is the spelling of a number in 15..42 |
| Feed.ParseAll | vbet/game/competition.py:353 | `[int(_) for _ in won]` succeeds exactly when every won id reads as an integer, and then gives those integers in order |
| Feed.ScoreOf | vbet/game/competition.py:349-353 | a score exists exactly when a correct-score market was won and the table knows it; it is the table's entry for that market |
| Feed.UrlIdsRoundTrip | vbet/game/competition.py:471-473 | a video URL whose path fields 4 and 5 are two ids gives back exactly those ids |
| Feed.ParseShowInt | vbet/game/competition.py:424-425 | `int(str(i)) == i` |
| Feed.ParseShowNat | vbet/game/competition.py:424-425 | `int()` reads back the decimal spelling of every natural number |
| Feed.ParseShowNeg | vbet/game/competition.py:424-425 | `int()` reads back a minus sign followed by the spelling of a positive number as its negation |
| Feed.TrimSpec | vbet/game/competition.py:424-425 | the surrounding whitespace `int()` skips: trimming never lengthens, leaves no whitespace at either end, and leaves text without whitespace as it is |
| Feed.GroupsSpec | vbet/game/competition.py:424-425 | the digit scanner accepts exactly the non-empty digit strings in which single underscores separate digits |
| Feed.ParseIntDigitGroups | vbet/game/competition.py:424-425 | `int('-1_000') == -1000` and `int('015') == 15` |
| Feed.ParseIntSpaces | vbet/game/competition.py:424-425 | `int(' 7\n') == 7`; a blank string and a sign separated from its digits are rejected |
| Feed.ParseIntRejects | vbet/game/competition.py:424-425 | doubled, leading or trailing underscores and the empty string are rejected |
| Feed.SplitJoin | vbet/game/competition.py:471 | splitting the join of separator-free parts gives the parts back |
| Rounds.WeeksOutsideSpec | vbet/game/competition.py:675-678 | the weeks of a range not in a set are listed exactly once each, in ascending order (the order the model fixes for the set difference) |
| Rounds.WeeksOutsideEmpty | vbet/game/competition.py:675-678 | nothing is missing exactly when every week of the range is present |
| Rounds.SetMax | vbet/game/competition.py:373-374 | `max` of a non-empty set is an element, and no element exceeds it |
| Rounds.SeqMax | vbet/game/competition.py:690 | `max` of a non-empty list is an element, and no element exceeds it |
| LeagueTable.MissingWeeksSpec | vbet/game/competition.py:361 | the table's missing weeks are exactly the weeks without results, ascending |
| LeagueTable.CompleteIffNoneMissing | vbet/game/competition.py:740 | the table is complete exactly when no week is missing |
| LeagueTable.FeedResultConverges | vbet/game/competition.py:359 | feeding results never adds a missing week, and a fed week of the league stops being missing |
| LeagueTable.CheckWeeksEmpty | vbet/game/competition.py:556 | `check_weeks` reports nothing exactly when every queried week has results |
| LeagueTable.OnEvent | vbet/game/competition.py:439 | the table follows the league of the newest fixtures, and starts afresh on a new league |
| LeagueTable.MinBlock | vbet/game/competition.py:695 | the least block the table was fed from; none when none was fed |

## Left out

- The league table's implementation is not part of this model. `LeagueTable` gives it the least state the engine reads (league, results and statistics per week) and the seven operations the engine calls. These assumptions are its contracts.
- `Markets`, the correct-score table, is not part of this model. It is the parameter `markets` (market id to score).
- The correct-score market is element 0 of a set intersection, whose order Python leaves unspecified. The model takes the first such market in feed order.
- `get_missing_blocks` and `get_required_weeks` return `list(all_weeks - …)`, a set difference whose order Python leaves unspecified. CPython need not give it in ascending order. The model fixes ascending order for these set differences (`Rounds.WeeksOutside`). The order of the required weeks reaches the outbox: `get_future_weeks` asks for the not-ready weeks in that order, and `FetchWeeksSends` states the request order for the model's list.
- Feed.CorrectScoreMarket: states nothing about which of several correct-score markets is chosen, because the source's choice is unspecified.
- Odds parsing (`float(odd)`) and the odds, indices and raw participants stored with each fixture: floating point. A fixture is kept as its two team codes.
- The asyncio machinery is not modelled. `sleep` and `await_event_time` are no-ops, and the task `get_future_weeks` spawns runs to completion at once. So no callback interleaves with another.
- `get_event_time`, `await_event_time` and `process_event_time` are not modelled: they depend on the wall clock.
- The payload builders `resource_*` are not modelled, apart from the block id, `n` and the retry count a request carries. They copy fields of unseen user settings.
- `init`, `modify_player`, `setup_jackpot`, `clear_jackpot`, `serialize_ticket`, `get_ticket_validation_data`, `on_ticket_resolve` and `exit` are not modelled. They configure or serialize unseen player and ticket objects.
- The players (`vbet/game/players/neymar.py` and the others) are not part of this model. Their answers (tickets, required weeks) are inputs in `Env`.
- The ticket objects are their keys. Adding a ticket to the ticket manager is part of the recorded `register_ticket` call.
- The contents `on_league_completed` stores are not modelled: the model records the call with the league only. This includes the `AttributeError` at line 752 of `vbet/game/competition.py`, raised when an event of `league_games` has no result among the table's `get_week_results` for its week. That exception would escape `results_callback`. It depends on the table's per-week results, which are not part of this model, so the model's `LeagueCompleted` never raises.
- Logging is not modelled.
- The reflective lookups in `init` and `receive` (`getattr` by name) are not modelled as such. The resource kind is an explicit tag.
- An exception that escapes a callback is an outcome status. Examples: a fixture whose participants are missing or whose ids `int()` rejects; a results event without `result`, `data` or `videoURL`, or with a bad URL, score or won id; `max` of no blocks; a history entry that is not a dict; `pop` of an unknown id. The state is kept as it was when the exception was raised, and nothing models what the event loop does next.
- The transport `user.send` is not part of this model. The model assumes that the id it returns is in no ledger. Otherwise recording a request would overwrite an entry that is still waiting. The model gives each request its position in the outbox as its id, and `NextIdFresh`, `PostRecords` and `ConsumedStaysGone` rest on that.
- `Resource` and `map_resource_to_name` are not part of this model. The model assumes that the resource name `receive` passes as the validity flag is never empty, so the callbacks always see a truthy flag.
- `next_stats` is modelled, but nothing in the engine calls it, so no path of the model sends a statistics request.
- Feed.ParseInt: reads what Python's `int()` reads from ASCII text: surrounding whitespace (space, tab, newline, vertical tab, form feed, carriage return), an optional sign, and decimal digits with single `_` separators. It does not model the other characters Python counts as whitespace (`\x1c`..`\x1f` and non-ASCII spaces), nor non-ASCII decimal digits. On those inputs it reports a failure where `int()` succeeds.
- The feed's blocks are assumed to have the shapes the engine reads without checking: a fixtures block's `events` list, a history week's `eBlockId`, `matchDay` and `events`, a history event's `data`, `participants` and `oddValues`, and integer event ids. A history week of the current league without `eBlockId` or `matchDay` would make the source record a `None` block or week (and a later `max(blocks)` raise `TypeError`); the model types both fields as integers and has no such input. A missing `events` list or a history event without `data` makes the source raise, and the model has no such input. A fixture without `data` is modelled as a fixture without participants, which also raises.
- The handicap lists (`halfLostMarkets`, `halfWonMarkets`, `refundMarkets`) are carried along as lists of integers and are never read by the engine.
- Competition.LeagueCompetition.LeagueCompleted: never raises, whereas `on_league_completed` can raise while building its archive (line 752, see above). `Engine.LeagueCompleted` is the same.
- Competition.LeagueCompetition.LabelTeams: states the returned statistics only when the loop does not raise. When it raises, the caller drops them.
- The insertion order of `blocks` is the separate field `blockOrder`. Several internal methods require `BlocksOrdered`, which says that this field lists exactly the block keys. It is part of the invariant that every entry point keeps, not a demand of the source.
