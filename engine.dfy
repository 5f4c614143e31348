/**
 * The competition synchronisation engine as pure transitions over a snapshot
 * of its state. Each function mirrors one routine of `LeagueCompetition`;
 * the class in module Competition runs the same steps in place and is proved
 * to produce exactly these snapshots.
 *
 * The transport is modelled by the append-only `outbox`: sending a request
 * appends it, and the id the transport hands back is its position there.
 * Collaborators (players, ticket manager, account) appear only as the
 * answers in `Env` and as the calls appended to `calls`.
 */
module Engine {
  import opened Wrappers
  import opened Feed
  import opened Rounds
  import opened LeagueTable

  /** A bad results or history response is retried while its retry count is at most this. */
  const RetryLimit := 3
  /** The history tripwire of `history_callback` fires above this count. */
  const MaxHistoryCount := 5
  /** `future_results` is set once and never changed. */
  const FutureResults := true
  /** The `n` of a backfill history request, and of `next_block_future`. */
  const BackfillDepth := -10
  const FutureDepth := 10

  datatype Phase = Sleeping | AwaitingEvents | AwaitingTickets | AwaitingResults

  /** A request as handed to the transport: its id, kind, anchor block, `n` and retry count. */
  datatype Request = Request(xs: nat, kind: ResourceKind, eBlockId: Option<int>, n: int, retry: nat)

  /** A ledger entry: what a pending request asked for. */
  datatype Pending = Pending(eBlockId: Option<int>, n: int, retry: nat)

  /**
   * What went over the transport: every request sent, in order (the id the
   * transport hands back is the position), and the four pending-request
   * ledgers (`event_xs`, `result_xs`, `history_xs`, `stats_xs`) by id.
   */
  datatype Wire = Wire(
    outbox: seq<Request>,
    eventXs: map<nat, Pending>,
    resultXs: map<nat, Pending>,
    historyXs: map<nat, Pending>,
    statsXs: map<nat, Pending>)

  /** Calls made on the collaborators. */
  datatype Call =
    | ResumeCompetition
    | ResetCompetitionTickets
    | NotifyResult
    | ValidateTickets
    | StoreCompetition(league: Option<int>)
    | RegisterTicket(key: int)

  /** A fixture of a history week, as kept in `league_games`. */
  datatype Match = Match(teamA: string, teamB: string, index: nat, home: Participant, away: Participant)

  /** The league length and the correct-score market table. */
  datatype Config = Config(maxWeek: nat, markets: map<int, (int, int)>)

  /**
   * What the collaborators answer within one callback: whether the account is
   * a demo, whether the account resumes an in-flight ticket, the keys of the
   * tickets the active players produce, and the weeks the players still use.
   */
  datatype Env = Env(demo: bool, resumeTickets: bool, tickets: seq<int>, playerWeeks: seq<int>)

  datatype St = St(
    phase: Phase,
    eBlockId: Option<int>,
    league: Option<int>,
    week: Option<int>,
    caching: bool,
    cachingFuture: bool,
    cached: bool,
    cachingMultiple: bool,
    fetchingFuture: bool,
    autoSkip: bool,
    restoring: bool,
    lost: bool,
    online: bool,
    requiredWeeks: seq<int>,
    historyCount: int,
    teamLabels: map<int, string>,
    activeTickets: seq<int>,
    blocks: map<int, int>,
    blockOrder: seq<int>,
    leagueGames: map<int, map<int, Match>>,
    table: Table,
    wire: Wire,
    calls: seq<Call>)

  /** How a callback ended: normally, on an unknown request id, or on an uncaught exception. */
  datatype Status = Done | UnknownRequest | Crashed

  datatype Outcome = Outcome(st: St, status: Status)

  /** The outcome of a processor that reports whether it raised. */
  function Finish(r: (St, bool)): Outcome
  {
    Outcome(r.0, if r.1 then Crashed else Done)
  }

  /** A response routed by its resource kind. */
  datatype Response =
    | EventsBody(events: Body<FixtureBlock>)
    | ResultsBody(results: Body<ResultBlock>)
    | HistoryBody(history: Body<HistoryWeek>)
    | StatsBody

  /** `max_week`: 34 for the two short leagues, 38 otherwise. */
  function MaxWeekFor(gameId: int, shortLeagues: set<int>): (w: nat)
    ensures w == 34 || w == 38
    ensures w == 34 <==> gameId in shortLeagues
  {
    if gameId in shortLeagues then 34 else 38
  }

  /** The state `__init__` builds. */
  function Initial(cfg: Config): St
  {
    St(Sleeping, None, None, None, false, false, false, false, false, false, false, false, false,
       [], 0, map[], [], map[], [], map[], Fresh(cfg.maxWeek), Wire([], map[], map[], map[], map[]), [])
  }

  // ---------------------------------------------------------------------------
  // Ledgers and request builders (`next_*`)

  function Ledger(w: Wire, kind: ResourceKind): map<nat, Pending>
  {
    match kind
    case Events => w.eventXs
    case Results => w.resultXs
    case History => w.historyXs
    case Stats => w.statsXs
  }

  /** Send one request and record it in the ledger of its kind under the id the transport returns. */
  function Post(w: Wire, kind: ResourceKind, b: Option<int>, n: int, retry: nat): Wire
  {
    var x := |w.outbox|;
    var e := Pending(b, n, retry);
    Wire(w.outbox + [Request(x, kind, b, n, retry)],
         if kind == Events then w.eventXs[x := e] else w.eventXs,
         if kind == Results then w.resultXs[x := e] else w.resultXs,
         if kind == History then w.historyXs[x := e] else w.historyXs,
         if kind == Stats then w.statsXs[x := e] else w.statsXs)
  }

  /** Drop the entry `xs` from the ledger of `kind` (the `pop` of a callback). */
  function Pop(w: Wire, kind: ResourceKind, xs: nat): Wire
  {
    match kind
    case Events => w.(eventXs := w.eventXs - {xs})
    case Results => w.(resultXs := w.resultXs - {xs})
    case History => w.(historyXs := w.historyXs - {xs})
    case Stats => w.(statsXs := w.statsXs - {xs})
  }

  function Issue(s: St, kind: ResourceKind, b: Option<int>, n: int, retry: nat): St
  {
    s.(wire := Post(s.wire, kind, b, n, retry))
  }

  /** The transport half of `send`: the request goes to the end of the outbox, its position being its id. */
  function Send(s: St, kind: ResourceKind, b: Option<int>, n: int, retry: nat): St
  {
    s.(wire := s.wire.(outbox := s.wire.outbox + [Request(|s.wire.outbox|, kind, b, n, retry)]))
  }

  /** The ledger half of a `next_*` builder: entry `e` under id `x` in the ledger of `kind`. */
  function Record(s: St, kind: ResourceKind, x: nat, e: Pending): St
  {
    match kind
    case Events => s.(wire := s.wire.(eventXs := s.wire.eventXs[x := e]))
    case Results => s.(wire := s.wire.(resultXs := s.wire.resultXs[x := e]))
    case History => s.(wire := s.wire.(historyXs := s.wire.historyXs[x := e]))
    case Stats => s.(wire := s.wire.(statsXs := s.wire.statsXs[x := e]))
  }

  function NextEvent(s: St, n: int): St
  {
    Issue(s, Events, None, n, 0)
  }

  function NextResult(s: St, b: Option<int>, n: int, retry: nat): St
  {
    Issue(s, Results, b, n, retry)
  }

  function NextHistory(s: St, b: Option<int>, n: int, retry: nat): St
  {
    Issue(s, History, b, n, retry)
  }

  function NextStats(s: St, b: Option<int>, n: int): St
  {
    Issue(s, Stats, b, n, 0)
  }

  function NextBlockEvent(s: St): St
  {
    NextEvent(s, 1)
  }

  function NextBlockResult(s: St): St
  {
    NextResult(s, s.eBlockId, 1, 0)
  }

  function NextBlockFuture(s: St, b: Option<int>): St
  {
    NextHistory(s, b, FutureDepth, 0)
  }

  // ---------------------------------------------------------------------------
  // Block/week helpers

  /** `set(blocks.values())`: the weeks some known block belongs to. */
  function BlockWeeks(blocks: map<int, int>): set<int>
  {
    set b | b in blocks :: blocks[b]
  }

  /** `get_missing_blocks`: the weeks of the league that no known block belongs to. */
  function MissingBlocks(cfg: Config, s: St): seq<int>
  {
    WeeksOutside(BlockWeeks(s.blocks), 1, cfg.maxWeek)
  }

  /** `get_week_by_block`. */
  function WeekByBlock(blocks: map<int, int>, b: Option<int>): Option<int>
  {
    if b.Some? && b.value in blocks then Some(blocks[b.value]) else None
  }

  /** `get_block_by_week`: the first block, in insertion order, that belongs to week `w`. */
  function BlockByWeek(blocks: map<int, int>, order: seq<int>, w: int): Option<int>
  {
    if order == [] then None
    else if order[0] in blocks && blocks[order[0]] == w then Some(order[0])
    else BlockByWeek(blocks, order[1..], w)
  }

  /** Record `blocks[b] = w`, keeping the insertion order of the keys as a Python dict does. */
  function SetBlock(s: St, b: int, w: int): St
  {
    s.(blockOrder := if b in s.blocks then s.blockOrder else s.blockOrder + [b]).(blocks := s.blocks[b := w])
  }

  /** `blocks = {}`: no block known, and so no insertion order. */
  function ForgetBlocks(s: St): St
  {
    s.(blocks := map[]).(blockOrder := [])
  }

  /**
   * `process_missing`: the anchor block of the next backfill request. When the
   * league is cached it looks `max(missing)` up among the BLOCK keys (the
   * source unpacks `blocks.items()` as `(week, block)`); otherwise it takes the
   * table's least block, falling back to the current block.
   */
  function ProcessMissing(s: St, missing: seq<int>): Option<int>
    requires |missing| > 0
  {
    if s.cached then
      var w := SeqMax(missing);
      if w in s.blocks then Some(s.blocks[w]) else None
    else
      match MinBlock(s.table)
      case Some(b) => Some(b)
      case None => s.eBlockId
  }

  function Elements(ws: seq<int>): set<int>
  {
    set i | 0 <= i < |ws| :: ws[i]
  }

  /** `get_required_weeks`: the weeks of the league that NO player lists. */
  function RequiredWeeks(cfg: Config, playerWeeks: seq<int>): seq<int>
  {
    WeeksOutside(Elements(playerWeeks), 1, cfg.maxWeek)
  }

  // ---------------------------------------------------------------------------
  // Parsing the events of a response (the loops of the resource processors)

  /** A team label as the fixtures loop records it: the parsed participant id and its FIFA code. */
  datatype Tag = Tag(id: int, code: string)

  /**
   * The two labels one fixture contributes; `None` where lines 420-426 raise
   * (no participants, or an id `int()` rejects), before any label is written.
   */
  function EventTags(e: FixtureEvent): (r: Option<seq<Tag>>)
    ensures r.Some? <==> e.teams.Some? && ParseInt(e.teams.value.0.id).Some? && ParseInt(e.teams.value.1.id).Some?
    ensures r.Some? ==> |r.value| == 2 && r.value[0].code == e.teams.value.0.fifaCode && r.value[1].code == e.teams.value.1.fifaCode
  {
    match e.teams
    case None => None
    case Some((a, b)) =>
      match (ParseInt(a.id), ParseInt(b.id))
      case (Some(x), Some(y)) => Some([Tag(x, a.fifaCode), Tag(y, b.fifaCode)])
      case _ => None
  }

  /** Where the label loop stops: the first fixture whose labels cannot be read, or `|events|`. */
  function FirstBad(events: seq<FixtureEvent>): (k: nat)
    ensures k <= |events|
    ensures forall j :: 0 <= j < k ==> EventTags(events[j]).Some?
    ensures k < |events| ==> EventTags(events[k]).None?
  {
    if events == [] then 0
    else if EventTags(events[0]).None? then 0
    else
      var k := 1 + FirstBad(events[1..]);
      assert forall j :: 1 <= j < k ==> events[j] == events[1..][j - 1];
      k
  }

  /** The labels of a run of fixtures in order, two per fixture whose labels can be read. */
  function Tags(events: seq<FixtureEvent>): seq<Tag>
  {
    if events == [] then []
    else
      var e := events[|events| - 1];
      Tags(events[..|events| - 1]) + (match EventTags(e) case Some(ts) => ts case None => [])
  }

  /** A team's label is recorded only the first time its id is seen. */
  function AddLabel(labels: map<int, string>, t: Tag): map<int, string>
  {
    if t.id in labels then labels else labels[t.id := t.code]
  }

  function RecordLabels(labels: map<int, string>, ts: seq<Tag>): map<int, string>
  {
    if ts == [] then labels else AddLabel(RecordLabels(labels, ts[..|ts| - 1]), ts[|ts| - 1])
  }

  /** The code of the first label in `ts` with id `id`. */
  function FirstCode(ts: seq<Tag>, id: int): (r: Option<string>)
    ensures r.Some? <==> exists i :: 0 <= i < |ts| && ts[i].id == id
    ensures r.Some? ==> exists i :: 0 <= i < |ts| && ts[i].id == id && ts[i].code == r.value
                                    && forall j :: 0 <= j < i ==> ts[j].id != id
  {
    if ts == [] then None
    else
      var init := ts[..|ts| - 1];
      var last := ts[|ts| - 1];
      match FirstCode(init, id)
      case Some(c) => Some(c)
      case None => if last.id == id then Some(last.code) else None
  }

  /** The statistics of a fixtures block by event id; a repeated id keeps its last entry. */
  function StatsOf(events: seq<FixtureEvent>): map<int, EventStats>
  {
    if events == [] then map[]
    else
      var e := events[|events| - 1];
      StatsOf(events[..|events| - 1])[e.eventId := e.stats]
  }

  /** The fixtures of a history week by event id, each with its position in the week. */
  function HistoryMatches(events: seq<HistoryEvent>): map<int, Match>
  {
    if events == [] then map[]
    else
      var k := |events| - 1;
      var e := events[k];
      HistoryMatches(events[..k])[e.eventId := Match(e.home.fifaCode, e.away.fifaCode, k, e.home, e.away)]
  }

  /** The settled events of a history week; `None` where reading a settlement raises. */
  function HistoryOutcomes(events: seq<HistoryEvent>, markets: map<int, (int, int)>): Option<map<int, EventOutcome>>
  {
    if events == [] then Some(map[])
    else
      var e := events[|events| - 1];
      match HistoryOutcomes(events[..|events| - 1], markets)
      case None => None
      case Some(m) =>
        match e.result
        case None => Some(m)
        case Some(r) =>
          match Settle(r, markets)
          case None => None
          case Some(st) =>
            Some(m[e.eventId := EventOutcome(ResultRow(e.eventId, Some(e.home.fifaCode), Some(e.away.fifaCode), st.score),
                                             st.won, st.handicap)])
  }

  function Label(labels: map<int, string>, id: int): Option<string>
  {
    if id in labels then Some(labels[id]) else None
  }

  /**
   * One event of a results block, teams resolved through the labels seen in
   * fixtures; `None` where lines 465-485 raise: no `result`, no `data` or
   * `videoURL`, a URL without integer fields 4 and 5, or a settlement `Settle` rejects.
   */
  function ResultOf(e: ResultEvent, labels: map<int, string>, markets: map<int, (int, int)>): (o: Option<EventOutcome>)
    ensures o.Some? <==>
      && e.result.Some? && e.result.value.data.Some? && e.result.value.data.value.videoUrl.Some?
      && TeamIdsFromUrl(e.result.value.data.value.videoUrl.value).Some?
      && Settle(e.result.value, markets).Some?
    ensures o.Some? ==>
      var (a, b) := TeamIdsFromUrl(e.result.value.data.value.videoUrl.value).value;
      && o.value.row == ResultRow(e.eventId, Label(labels, a), Label(labels, b), Settle(e.result.value, markets).value.score)
      && o.value.won == Settle(e.result.value, markets).value.won
  {
    if e.result.None? || e.result.value.data.None? || e.result.value.data.value.videoUrl.None? then None
    else
      var ids := TeamIdsFromUrl(e.result.value.data.value.videoUrl.value);
      var st := Settle(e.result.value, markets);
      if ids.None? || st.None? then None
      else
        var row := ResultRow(e.eventId, Label(labels, ids.value.0), Label(labels, ids.value.1), st.value.score);
        Some(EventOutcome(row, st.value.won, st.value.handicap))
  }

  /** The events of a block read one by one into a map by event id; `None` once some event cannot be read. */
  function Collect(events: seq<ResultEvent>, read: ResultEvent -> Option<EventOutcome>): Option<map<int, EventOutcome>>
  {
    if events == [] then Some(map[])
    else
      var e := events[|events| - 1];
      match Collect(events[..|events| - 1], read)
      case None => None
      case Some(m) =>
        match read(e)
        case Some(o) => Some(m[e.eventId := o])
        case None => None
  }

  /** The settled events of a results block by event id; `None` where some event raises. */
  function ResultOutcomes(events: seq<ResultEvent>, labels: map<int, string>, markets: map<int, (int, int)>)
    : Option<map<int, EventOutcome>>
  {
    Collect(events, e => ResultOf(e, labels, markets))
  }

  // ---------------------------------------------------------------------------
  // Dispatch

  /** Results requests for each week in order, each anchored at the week's block (`get_future_weeks`, the catch-up loop). */
  function FetchWeeks(s: St, weeks: seq<int>): St
  {
    if weeks == [] then s
    else
      var s1 := FetchWeeks(s, weeks[..|weeks| - 1]);
      NextResult(s1, BlockByWeek(s1.blocks, s1.blockOrder, weeks[|weeks| - 1]), 1, 0)
  }

  function RegisterCalls(keys: seq<int>): seq<Call>
  {
    if keys == [] then [] else RegisterCalls(keys[..|keys| - 1]) + [RegisterTicket(keys[|keys| - 1])]
  }

  /** A call made on a collaborator. */
  function CallOn(s: St, c: Call): St
  {
    s.(calls := s.calls + [c])
  }

  /** One ticket of `process_tickets`: registered with the account, then listed as active. */
  function Register(s: St, key: int): St
  {
    var s1 := CallOn(s, RegisterTicket(key));
    s1.(activeTickets := s1.activeTickets + [key])
  }

  /** `process_tickets`: reset the active tickets, then register each ticket in turn. */
  function ProcessTickets(s: St, keys: seq<int>): St
  {
    if keys == [] then ResetTickets(s)
    else Register(ProcessTickets(s, keys[..|keys| - 1]), keys[|keys| - 1])
  }

  /** `dispatch_events`. */
  function Dispatch(cfg: Config, s: St, env: Env): St
  {
    if MissingBlocks(cfg, s) != [] then
      NextBlockFuture(s.(cachingFuture := true).(cached := false), s.eBlockId)
    else
      var notReady := CheckWeeks(s.table, s.requiredWeeks);
      if FutureResults && notReady != [] then FetchWeeks(s.(fetchingFuture := true), notReady)
      else PollPlayers(s, env)
  }

  /** Lines 560-574: reset `history_count`, then hand over the players' tickets or ask for results. */
  function PollPlayers(s: St, env: Env): St
  {
    if env.tickets != [] then ProcessTickets(s.(historyCount := 0).(phase := AwaitingTickets), env.tickets)
    else NextBlockResult(s.(historyCount := 0).(phase := AwaitingResults))
  }

  // ---------------------------------------------------------------------------
  // Fixtures

  /** Lines 394-403: a different (or first) league wipes the per-league state. */
  function LeagueReset(s: St, league: Option<int>, matchDay: Option<int>): St
  {
    var s1 := s.(autoSkip := s.autoSkip && matchDay != Some(1));
    ForgetBlocks(s1.(leagueGames := map[])).(cached := false).(requiredWeeks := []).(league := league)
  }

  /** The tail of `resource_events_process`, once labels are recorded. */
  function AfterFixtures(cfg: Config, s: St, stats: map<int, EventStats>, env: Env): St
  {
    if s.autoSkip then NextBlockResult(s.(phase := AwaitingResults))
    else
      CatchUp(cfg, s.(table := FeedStats(OnEvent(s.table, s.league, s.week), s.league, s.week, stats)), env)
  }

  /**
   * Lines 441-452, once the table has the block's fixtures: dispatch when no
   * week is missing results, else ask for the missing weeks' results (a cached
   * league) or backfill history from the anchor `process_missing` picks.
   */
  function CatchUp(cfg: Config, s: St, env: Env): St
  {
    var missing := MissingWeeks(s.table);
    if missing == [] then Dispatch(cfg, s, env)
    else if s.cached then FetchWeeks(s.(cachingMultiple := true), missing)
    else
      var s1 := s.(caching := true);
      NextHistory(s1, ProcessMissing(s1, missing), BackfillDepth, 0)
  }

  function LeagueOf(d: FixtureBlock): Option<int>
  {
    if d.data.Some? then d.data.value.leagueId else None
  }

  function MatchDayOf(d: FixtureBlock): Option<int>
  {
    if d.data.Some? then d.data.value.matchDay else None
  }

  /** A fixtures block is usable only with a truthy block id, league and match day. */
  predicate WellFormedFixtures(d: FixtureBlock)
  {
    Truthy(d.eBlockId) && Truthy(LeagueOf(d)) && Truthy(MatchDayOf(d))
  }

  /** How a fixtures handler ends: normally, by `InvalidEvents` (before any change), or by another exception. */
  datatype Exit = Normal | Invalid | Raised

  /**
   * `resource_events_process`: `Invalid` where it raises `InvalidEvents`
   * (nothing changed), `Raised` where the label loop raises (the state as at the raise).
   */
  function EventsProcess(cfg: Config, s: St, d: FixtureBlock, env: Env): (St, Exit)
  {
    if !WellFormedFixtures(d) then (s, Invalid)
    else
      var (s1, raised) := AdoptFixtures(s, d);
      if raised then (s1, Raised) else (AfterFixtures(cfg, s1, StatsOf(d.events), env), Normal)
  }

  /**
   * Lines 387-431: take the block id, reset the per-league state when the
   * league changes (or there was none), take the match day and label the
   * teams; the flag says whether the label loop raised.
   */
  function AdoptFixtures(s: St, d: FixtureBlock): (St, bool)
    requires WellFormedFixtures(d)
  {
    var league := LeagueOf(d);
    var s1 := s.(eBlockId := d.eBlockId);
    var s2 := if league != s1.league || !Truthy(s1.league) then LeagueReset(s1, league, MatchDayOf(d)) else s1;
    LabelTeams(s2.(week := MatchDayOf(d)), d.events)
  }

  /**
   * The label loop of lines 413-431: each team's label is recorded the first
   * time its id is seen; the loop raises at the first fixture whose labels
   * cannot be read, keeping the labels of the fixtures before it.
   */
  function LabelTeams(s: St, events: seq<FixtureEvent>): (St, bool)
  {
    var k := FirstBad(events);
    (s.(teamLabels := RecordLabels(s.teamLabels, Tags(events[..k]))), k < |events|)
  }

  /** `resource_events_process_resume`. */
  function EventsResume(cfg: Config, s: St, d: FixtureBlock, env: Env): (St, Exit)
  {
    var s1 := s.(restoring := false);
    if d.eBlockId == s1.eBlockId then
      if !env.demo then
        var s2 := CallOn(s1, ResumeCompetition);
        (if env.resumeTickets then s2 else NextBlockResult(s2), Normal)
      else (NextBlockResult(s1), Normal)
    else
      var s2 := ResetTickets(CallOn(s1, ResetCompetitionTickets));
      EventsProcess(cfg, s2, d, env)
  }

  predicate FirstIsDict<T>(valid: bool, body: Body<T>)
  {
    valid && body.List? && |body.items| > 0 && body.items[0].Dict?
  }

  /**
   * `events_callback`: `InvalidEvents` is caught and the block asked for
   * again; any other exception escapes the callback.
   */
  function EventsCallback(cfg: Config, s: St, xs: nat, valid: bool, body: Body<FixtureBlock>, env: Env): Outcome
  {
    if xs !in Ledger(s.wire, Events) then Outcome(s, UnknownRequest)
    else
      var p := Ledger(s.wire, Events)[xs];
      var s1 := s.(wire := Pop(s.wire, Events, xs));
      var (s2, exit) := EventsTry(cfg, s1, valid, body, env);
      Outcome(if exit == Invalid then NextEvent(s2, p.n) else s2, if exit == Raised then Crashed else Done)
  }

  /** The `try` block of `events_callback`. */
  function EventsTry(cfg: Config, s: St, valid: bool, body: Body<FixtureBlock>, env: Env): (St, Exit)
  {
    if FirstIsDict(valid, body) then
      if s.restoring then EventsResume(cfg, s, body.items[0].value, env)
      else EventsProcess(cfg, s, body.items[0].value, env)
    else (s, Invalid)
  }

  // ---------------------------------------------------------------------------
  // Results

  /** `on_league_completed`: archive the league once the table is complete. */
  function LeagueCompleted(s: St): St
  {
    if IsComplete(s.table) then CallOn(s, StoreCompetition(s.league)) else s
  }

  /** `resource_result_process`; the flag says whether it raised. */
  function ResultProcess(cfg: Config, s: St, d: ResultBlock, env: Env): (St, bool)
  {
    var week := WeekByBlock(s.blocks, d.eBlockId);
    match ResultOutcomes(d.events, s.teamLabels, cfg.markets)
    case None => (s, true)
    case Some(outcomes) =>
      if s.autoSkip then (NextBlockEvent(s.(phase := AwaitingEvents)), false)
      else
        var s1 := s.(table := FeedResult(s.table, d.eBlockId, s.league, week, outcomes));
        (AfterResult(cfg, s1, d.eBlockId, env), false)
  }

  /** What `resource_result_process` does once a block's results are in the table. */
  function AfterResult(cfg: Config, s: St, b: Option<int>, env: Env): St
  {
    if s.cachingMultiple then
      if MissingWeeks(s.table) == [] then Dispatch(cfg, s.(cachingMultiple := false), env) else s
    else if s.fetchingFuture then
      if CheckWeeks(s.table, s.requiredWeeks) == [] then Dispatch(cfg, s.(fetchingFuture := false), env) else s
    else
      var s3 := AnnounceResult(cfg, s);
      if b == s3.eBlockId then NextBlockEvent(s3.(phase := AwaitingEvents)) else s3
  }

  /** Lines 511-521: notify the players, validate the tickets, and archive the league after its last week. */
  function AnnounceResult(cfg: Config, s: St): St
  {
    var s2 := CallOn(CallOn(s, NotifyResult), ValidateTickets);
    if s2.week == Some(cfg.maxWeek) then LeagueCompleted(s2) else s2
  }

  /** `results_callback`. */
  function ResultsCallback(cfg: Config, s: St, xs: nat, valid: bool, body: Body<ResultBlock>, env: Env): Outcome
  {
    if xs !in Ledger(s.wire, Results) then Outcome(s, UnknownRequest)
    else
      var p := Ledger(s.wire, Results)[xs];
      var s1 := s.(wire := Pop(s.wire, Results, xs));
      if FirstIsDict(valid, body) then Finish(ResultProcess(cfg, s1, body.items[0].value, env))
      else Outcome(RetryOrSkip(s1, Results, p), Done)
  }

  /**
   * The shared handler of `InvalidResults` and `InvalidHistory`: after more
   * than `RetryLimit` retries skip to the next block, else ask again with
   * the retry count raised.
   */
  function RetryOrSkip(s: St, kind: ResourceKind, p: Pending): St
  {
    if p.retry > RetryLimit then NextBlockEvent(s.(autoSkip := true))
    else Issue(s, kind, p.eBlockId, p.n, p.retry + 1)
  }

  // ---------------------------------------------------------------------------
  // History

  /** One week of a history batch (the body of the loop at lines 306-359); the flag says whether it raised. */
  function HistoryEntry(cfg: Config, s: St, e: Element<HistoryWeek>): (St, bool)
  {
    match e
    case NotDict => (s, true)
    case Dict(w) =>
      if w.leagueId != s.league then (s, false)
      else
        var s1 := SetBlock(s, w.eBlockId, w.matchDay);
        var games := s1.leagueGames[w.matchDay := HistoryMatches(w.events)];
        if s1.caching then
          match HistoryOutcomes(w.events, cfg.markets)
          case None => (s1, true)
          case Some(outcomes) =>
            var s2 := s1.(leagueGames := games);
            (s2.(table := FeedResult(s2.table, Some(w.eBlockId), w.leagueId, Some(w.matchDay), outcomes)), false)
        else (s1.(leagueGames := games), false)
  }

  /** The loop over a history batch, stopping at the first week that raises. */
  function ApplyHistory(cfg: Config, s: St, entries: seq<Element<HistoryWeek>>): (St, bool)
  {
    if entries == [] then (s, false)
    else
      var (s1, crashed) := ApplyHistory(cfg, s, entries[..|entries| - 1]);
      if crashed then (s1, true) else HistoryEntry(cfg, s1, entries[|entries| - 1])
  }

  /** `resource_history_process`; the flag says whether it raised. */
  function HistoryProcess(cfg: Config, s: St, entries: seq<Element<HistoryWeek>>, env: Env): (St, bool)
  {
    var (s1, crashed) := ApplyHistory(cfg, s, entries);
    if crashed then (s1, true) else HistoryTail(cfg, s1, env)
  }

  /** Lines 360-381, after the loop: go on backfilling or dispatch (caching), or go on caching the coming blocks. */
  function HistoryTail(cfg: Config, s: St, env: Env): (St, bool)
  {
    if s.caching then (Backfill(cfg, s, env), false)
    else if s.cachingFuture then FutureTail(cfg, s, env)
    else (s, false)
  }

  /** Lines 360-367: ask for older history while some week misses results; else caching is over, so dispatch. */
  function Backfill(cfg: Config, s: St, env: Env): St
  {
    var missing := MissingWeeks(s.table);
    if missing != [] then NextHistory(s, ProcessMissing(s, missing), BackfillDepth, 0)
    else Dispatch(cfg, s.(caching := false), env)
  }

  /**
   * Lines 370-381: while some week has no block, ask for the batch after the
   * greatest block key; once every week has one the league is cached, the
   * required weeks are computed and dispatch runs.
   */
  function FutureTail(cfg: Config, s: St, env: Env): (St, bool)
  {
    if MissingBlocks(cfg, s) != [] then
      if s.blocks == map[] then (s, true)  // max() of no blocks raises
      else (NextBlockFuture(s, Some(SetMax(s.blocks.Keys))), false)
    else
      var s1 := s.(cachingFuture := false).(cached := true).(requiredWeeks := RequiredWeeks(cfg, env.playerWeeks));
      (Dispatch(cfg, s1, env), false)
  }

  /** `history_callback`, with its tripwire that falls through to normal processing. */
  function HistoryCallback(cfg: Config, s: St, xs: nat, valid: bool, body: Body<HistoryWeek>, env: Env): Outcome
  {
    HistoryConsume(cfg, Tripwire(s), xs, valid, body, env)
  }

  /** Lines 279-281: above `MaxHistoryCount` history responses, skip the league; processing still goes on. */
  function Tripwire(s: St): St
  {
    if s.historyCount > MaxHistoryCount then NextBlockEvent(s.(autoSkip := true)) else s
  }

  /** `history_callback` from the `pop` on. */
  function HistoryConsume(cfg: Config, s: St, xs: nat, valid: bool, body: Body<HistoryWeek>, env: Env): Outcome
  {
    if xs !in Ledger(s.wire, History) then Outcome(s, UnknownRequest)
    else
      var p := Ledger(s.wire, History)[xs];
      var s1 := s.(wire := Pop(s.wire, History, xs));
      if valid && body.List? then Finish(HistoryProcess(cfg, s1, body.items, env))
      else Outcome(RetryOrSkip(s1, History, p), Done)
  }

  // ---------------------------------------------------------------------------
  // Entry points

  /** `receive`: route by kind. The resource name lands in the `valid_response` slot, so it is always truthy. */
  function Receive(cfg: Config, s: St, xs: nat, r: Response, env: Env): Outcome
  {
    match r
    case EventsBody(b) => EventsCallback(cfg, s, xs, true, b, env)
    case ResultsBody(b) => ResultsCallback(cfg, s, xs, true, b, env)
    case HistoryBody(b) => HistoryCallback(cfg, s, xs, true, b, env)
    case StatsBody => Outcome(s, Done)
  }

  /** `start`: a lost connection comes back restoring; either way ask for fixtures. */
  function Start(s: St): St
  {
    NextBlockEvent(s.(restoring := s.restoring || s.lost).(lost := false))
  }

  /** The `online` setter: going online when offline or lost starts the engine. */
  function SetOnline(s: St, online: bool): St
  {
    var s1 := s.(online := online);
    if online && (!s.online || s.lost) then Start(s1) else s1
  }

  function OnTicketComplete(s: St): St
  {
    NextBlockResult(s.(phase := AwaitingResults))
  }

  function ResetTickets(s: St): St
  {
    s.(activeTickets := [])
  }

  // ---------------------------------------------------------------------------
  // The invariant every transition keeps

  /** Every ledger entry is a request that was sent under that id and with that content. */
  ghost predicate LedgerAgrees(w: Wire, m: map<nat, Pending>, kind: ResourceKind)
  {
    forall x :: x in m ==> x < |w.outbox| && w.outbox[x] == Request(x, kind, m[x].eBlockId, m[x].n, m[x].retry)
  }

  /** The transport's ids are the positions in the outbox, and the ledgers agree with what was sent. */
  ghost predicate WireValid(w: Wire)
  {
    && (forall i :: 0 <= i < |w.outbox| ==> w.outbox[i].xs == i)
    && LedgerAgrees(w, w.eventXs, Events)
    && LedgerAgrees(w, w.resultXs, Results)
    && LedgerAgrees(w, w.historyXs, History)
    && LedgerAgrees(w, w.statsXs, Stats)
  }

  ghost predicate BlocksOrdered(s: St)
  {
    && (forall i, j :: 0 <= i < j < |s.blockOrder| ==> s.blockOrder[i] != s.blockOrder[j])
    && (forall b :: b in s.blocks <==> b in s.blockOrder)
  }

  ghost predicate Valid(cfg: Config, s: St)
  {
    && WireValid(s.wire)
    && BlocksOrdered(s)
    && s.historyCount == 0
    && s.table.maxWeek == cfg.maxWeek
  }
}
